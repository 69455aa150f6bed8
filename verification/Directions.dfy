/** The two data directions of the block layer. */
module Directions {

  datatype Dir = Read | Write

  /** What the kernel keeps in arrays indexed by READ and WRITE. */
  datatype Pair<T> = Pair(read: T, write: T) {
    function Get(d: Dir): (x: T) { if d == Read then read else write }

    function Set(d: Dir, x: T): (p: Pair<T>)
      ensures p.Get(d) == x
      ensures forall e :: e != d ==> p.Get(e) == Get(e)
    {
      if d == Read then this.(read := x) else this.(write := x)
    }
  }
}
