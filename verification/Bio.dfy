/** Bios, their vectors, and the bytes they carry. */
module Bios {
  import opened IdLists

  const PAGE_SIZE: nat := 4096

  /** struct bio_vec: len bytes of memory, `offset` bytes into physical page number `page`. */
  datatype Vec = Vec(page: nat, offset: nat, len: nat) {
    function Phys(): (r: nat) { page * PAGE_SIZE + offset }
  }

  /**
   struct bio.  `vecs[idx..]` is still to be transferred; `front` and `back` are
   bi_seg_front_size and bi_seg_back_size, `physSegments` counts as long as `segValid`.
   */
  datatype Bio = Bio(id: nat, vecs: seq<Vec>, idx: nat, size: nat, sector: nat,
                     physSegments: nat, segValid: bool, front: nat, back: nat)

  function Live(b: Bio): (vs: seq<Vec>)
    requires b.idx <= |b.vecs|
  {
    b.vecs[b.idx..]
  }

  function Bytes(vs: seq<Vec>): (n: nat) {
    if vs == [] then 0 else vs[0].len + Bytes(vs[1..])
  }

  /** bi_size agrees with the vectors that remain. */
  predicate WellFormed(b: Bio) {
    b.idx <= |b.vecs| && b.size == Bytes(Live(b))
  }

  predicate AllWellFormed(bios: seq<Bio>) {
    forall i :: 0 <= i < |bios| ==> WellFormed(bios[i])
  }

  /** All vectors of a chain of bios, in the order rq_for_each_segment visits them. */
  function Vectors(bios: seq<Bio>): (vs: seq<Vec>)
    requires AllWellFormed(bios)
  {
    if bios == [] then [] else Live(bios[0]) + Vectors(bios[1..])
  }

  function Sizes(bios: seq<Bio>): (n: nat) {
    if bios == [] then 0 else bios[0].size + Sizes(bios[1..])
  }

  /** The physical addresses of the bytes of a vector, in transfer order. */
  function Range(phys: nat, len: nat): (r: seq<nat>)
    ensures |r| == len
  {
    seq(len, i requires 0 <= i < len => phys + i)
  }

  /** The bytes a run of vectors transfers, as physical addresses in order. */
  function Stream(vs: seq<Vec>): (r: seq<nat>)
    ensures |r| == Bytes(vs)
  {
    if vs == [] then [] else Range(vs[0].Phys(), vs[0].len) + Stream(vs[1..])
  }

  lemma {:induction false} BytesConcat(a: seq<Vec>, b: seq<Vec>)
    ensures Bytes(a + b) == Bytes(a) + Bytes(b)
  {
    if a == [] {
      assert a + b == b;
    } else {
      BytesConcat(a[1..], b);
      assert (a + b)[1..] == a[1..] + b;
    }
  }

  lemma {:induction false} StreamConcat(a: seq<Vec>, b: seq<Vec>)
    ensures Stream(a + b) == Stream(a) + Stream(b)
  {
    if a == [] {
      assert a + b == b;
    } else {
      StreamConcat(a[1..], b);
      assert (a + b)[1..] == a[1..] + b;
      Associative(Range(a[0].Phys(), a[0].len), Stream(a[1..]), Stream(b));
    }
  }

  lemma Associative<T>(a: seq<T>, b: seq<T>, c: seq<T>)
    ensures a + (b + c) == (a + b) + c
  {
  }

  lemma {:induction false} VectorsConcat(a: seq<Bio>, b: seq<Bio>)
    requires AllWellFormed(a) && AllWellFormed(b)
    ensures AllWellFormed(a + b)
    ensures Vectors(a + b) == Vectors(a) + Vectors(b)
    ensures Sizes(a + b) == Sizes(a) + Sizes(b)
  {
    hide Live, Bytes;
    if a == [] {
      assert a + b == b;
    } else {
      VectorsConcat(a[1..], b);
      assert (a + b)[1..] == a[1..] + b && (a + b)[0] == a[0];
      Associative(Live(a[0]), Vectors(a[1..]), Vectors(b));
    }
  }

  lemma {:induction false} SizesAreBytes(bios: seq<Bio>)
    requires AllWellFormed(bios)
    ensures Sizes(bios) == Bytes(Vectors(bios))
  {
    if bios != [] {
      SizesAreBytes(bios[1..]);
      BytesConcat(Live(bios[0]), Vectors(bios[1..]));
    }
  }

  /** A range splits at any point into two adjacent ranges. */
  lemma RangeSplit(phys: nat, a: nat, b: nat)
    ensures Range(phys, a + b) == Range(phys, a) + Range(phys + a, b)
  {
  }
}
