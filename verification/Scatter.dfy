/** The scatterlist that blk_rq_map_sg makes of a run of vectors, entry by entry. */
module Scatter {
  import opened IdLists
  import opened Bios
  import opened Segments

  /** One entry of a scatterlist. */
  datatype Sg = Sg(page: nat, offset: nat, length: nat) {
    function Phys(): (r: nat) { page * PAGE_SIZE + offset }
  }

  function LastLength(sgs: seq<Sg>): (n: nat) {
    if sgs == [] then 0 else sgs[|sgs| - 1].length
  }

  /** Extend the last entry by v, or start a new one. */
  function AddVec(q: Limits, prev: Option<Vec>, sgs: seq<Sg>, v: Vec): (r: seq<Sg>) {
    if sgs == [] || GreedyCut(q, false, prev, Open(|sgs|, LastLength(sgs)), v) then
      sgs + [Sg(v.page, v.offset, v.len)]
    else
      var last := sgs[|sgs| - 1];
      sgs[|sgs| - 1 := last.(length := last.length + v.len)]
  }

  function MapVecs(q: Limits, prev: Option<Vec>, sgs: seq<Sg>, vs: seq<Vec>): (r: seq<Sg>)
    decreases |vs|
  {
    if vs == [] then sgs else MapVecs(q, Some(vs[0]), AddVec(q, prev, sgs, vs[0]), vs[1..])
  }

  /** The bytes a scatterlist covers, in order. */
  function SgStream(sgs: seq<Sg>): (r: seq<nat>) {
    if sgs == [] then []
    else
      var last := |sgs| - 1;
      SgStream(sgs[..last]) + Range(sgs[last].Phys(), sgs[last].length)
  }

  /** The last entry ends where the last vector does. */
  predicate EndsAt(prev: Option<Vec>, sgs: seq<Sg>) {
    && (prev.None? <==> sgs == [])
    && (prev.Some? ==> sgs[|sgs| - 1].Phys() + sgs[|sgs| - 1].length == prev.value.Phys() + prev.value.len)
  }

  lemma AddVecFacts(q: Limits, prev: Option<Vec>, sgs: seq<Sg>, v: Vec)
    requires EndsAt(prev, sgs)
    ensures EndsAt(Some(v), AddVec(q, prev, sgs, v))
    ensures var st := Open(|sgs|, LastLength(sgs)); var r := AddVec(q, prev, sgs, v);
            Open(|r|, LastLength(r)) == Place(st, v, GreedyCut(q, false, prev, st, v))
    ensures SgStream(AddVec(q, prev, sgs, v)) == SgStream(sgs) + Range(v.Phys(), v.len)
  {
    if |AddVec(q, prev, sgs, v)| == |sgs| {
      StreamOfGrown(sgs, v.len);
    } else {
      StreamOfAppended(sgs, Sg(v.page, v.offset, v.len));
    }
  }

  lemma StreamOfAppended(sgs: seq<Sg>, sg: Sg)
    ensures SgStream(sgs + [sg]) == SgStream(sgs) + Range(sg.Phys(), sg.length)
  {
    assert (sgs + [sg])[..|sgs|] == sgs;
  }

  lemma StreamOfGrown(sgs: seq<Sg>, n: nat)
    requires sgs != []
    ensures var last := sgs[|sgs| - 1];
            SgStream(sgs[|sgs| - 1 := last.(length := last.length + n)]) == SgStream(sgs) + Range(last.Phys() + last.length, n)
  {
    var k := |sgs| - 1;
    var last := sgs[k];
    var grown := sgs[k := last.(length := last.length + n)];
    assert grown[..k] == sgs[..k];
    RangeSplit(last.Phys(), last.length, n);
    Associative(SgStream(sgs[..k]), Range(last.Phys(), last.length), Range(last.Phys() + last.length, n));
  }

  /** The scatterlist has as many entries as the greedy pass has segments and covers the same bytes. */
  lemma {:induction false} MapVecsFacts(q: Limits, prev: Option<Vec>, sgs: seq<Sg>, vs: seq<Vec>)
    requires EndsAt(prev, sgs)
    ensures |MapVecs(q, prev, sgs, vs)| == Greedy(q, false, prev, Open(|sgs|, LastLength(sgs)), vs).n
    ensures SgStream(MapVecs(q, prev, sgs, vs)) == SgStream(sgs) + Stream(vs)
    decreases |vs|
  {
    if vs != [] {
      AddVecFacts(q, prev, sgs, vs[0]);
      MapVecsFacts(q, Some(vs[0]), AddVec(q, prev, sgs, vs[0]), vs[1..]);
      Associative(SgStream(sgs), Range(vs[0].Phys(), vs[0].len), Stream(vs[1..]));
    }
  }

  // ---------------------------------------------------------- device limits

  ghost predicate Monotone(f: int -> int) {
    forall x, y :: x <= y ==> f(x) <= f(y)
  }

  /** A stretch of memory that the device can transfer as one entry. */
  predicate Within(q: Limits, phys: nat, length: nat) {
    length <= q.maxSegmentSize && (length > 0 ==> q.window(phys) == q.window(phys + length - 1))
  }

  predicate AllWithin(q: Limits, sgs: seq<Sg>) {
    forall i :: 0 <= i < |sgs| ==> Within(q, sgs[i].Phys(), sgs[i].length)
  }

  /** Every vector is one that the device could transfer by itself. */
  predicate VectorsWithin(q: Limits, vs: seq<Vec>) {
    forall i :: 0 <= i < |vs| ==> vs[i].len > 0 && Within(q, vs[i].Phys(), vs[i].len)
  }

  lemma WindowBetween(q: Limits, x: int, y: int, z: int)
    requires Monotone(q.window) && x <= y <= z && q.window(x) == q.window(z)
    ensures q.window(x) == q.window(y)
  {
    assert q.window(x) <= q.window(y) <= q.window(z);
  }

  /** The stretches so far are within limits and the last one contains the last vector. */
  ghost predicate Placed(q: Limits, prev: Option<Vec>, sgs: seq<Sg>) {
    && EndsAt(prev, sgs)
    && AllWithin(q, sgs)
    && (prev.Some? ==> prev.value.len > 0 && sgs[|sgs| - 1].length >= prev.value.len)
  }

  lemma AddVecStaysWithin(q: Limits, prev: Option<Vec>, sgs: seq<Sg>, v: Vec)
    requires Monotone(q.window) && Placed(q, prev, sgs) && v.len > 0 && Within(q, v.Phys(), v.len)
    ensures Placed(q, Some(v), AddVec(q, prev, sgs, v))
  {
    var r := AddVec(q, prev, sgs, v);
    if |r| == |sgs| {
      var last := sgs[|sgs| - 1];
      WindowBetween(q, last.Phys(), prev.value.Phys(), last.Phys() + last.length - 1);
      assert Within(q, r[|r| - 1].Phys(), r[|r| - 1].length);
    }
  }

  /**
   If every vector respects the size limit and the boundary windows, so does
   every entry: checking consecutive vectors pairwise is enough.
   */
  lemma {:induction false} EntriesStayWithin(q: Limits, prev: Option<Vec>, sgs: seq<Sg>, vs: seq<Vec>)
    requires Monotone(q.window) && Placed(q, prev, sgs)
    requires VectorsWithin(q, vs)
    ensures AllWithin(q, MapVecs(q, prev, sgs, vs))
    decreases |vs|
  {
    if vs != [] {
      AddVecStaysWithin(q, prev, sgs, vs[0]);
      EntriesStayWithin(q, Some(vs[0]), AddVec(q, prev, sgs, vs[0]), vs[1..]);
    }
  }
}
