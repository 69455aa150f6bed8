/**
 Clustering of bio vectors into physical segments.  The block layer counts the
 segments of a request incrementally while it merges and lets blk_rq_map_sg
 cluster greedily afterwards.  Here: greedy clustering is minimal among all
 admissible ways to cut the vectors, so a count kept for any one of them bounds
 the entries of the scatterlist.
 */
module Segments {
  import opened IdLists
  import opened Bios

  /**
   The limits of a queue that clustering depends on.  `window` gives the boundary
   window of an address: the address with the bits of the segment boundary mask set.
   */
  datatype Limits = Limits(cluster: bool, maxSegmentSize: nat, window: int -> int, bouncePfn: nat,
                           maxSegments: nat, maxSectors: nat)

  /** BIOVEC_PHYS_MERGEABLE and BIOVEC_SEG_BOUNDARY on a clustering queue. */
  predicate Joinable(q: Limits, a: Vec, b: Vec)
  {
    && q.cluster
    && a.Phys() + a.len == b.Phys()
    && q.window(a.Phys()) == q.window(b.Phys() + b.len - 1)
  }

  predicate High(q: Limits, v: Vec) {
    v.page > q.bouncePfn
  }

  /** The counting pass never clusters pages that may be bounced; the mapping pass ignores them. */
  predicate Joins(q: Limits, counting: bool, a: Vec, b: Vec)
  {
    Joinable(q, a, b) && (counting ==> !High(q, a) && !High(q, b))
  }

  /** Segments started so far and the size of the one still open. */
  datatype Open = Open(n: nat, cur: nat)

  const START := Open(0, 0)

  function Place(st: Open, v: Vec, cut: bool): (r: Open) {
    if cut then Open(st.n + 1, v.len) else Open(st.n, st.cur + v.len)
  }

  /** Whether the greedy pass starts a new segment at v. */
  predicate GreedyCut(q: Limits, counting: bool, prev: Option<Vec>, st: Open, v: Vec)
  {
    prev.None? || st.cur + v.len > q.maxSegmentSize || !Joins(q, counting, prev.value, v)
  }

  function Greedy(q: Limits, counting: bool, prev: Option<Vec>, st: Open, vs: seq<Vec>): (r: Open)
    ensures r.n >= st.n
    decreases |vs|
  {
    if vs == [] then st
    else Greedy(q, counting, Some(vs[0]), Place(st, vs[0], GreedyCut(q, counting, prev, st, vs[0])), vs[1..])
  }

  /** The segments that blk_rq_map_sg makes of the vectors. */
  function SgCount(q: Limits, vs: seq<Vec>): (n: nat)
  {
    Greedy(q, false, None, START, vs).n
  }

  /** The segments that __blk_recalc_rq_segments counts. */
  function Recalc(q: Limits, vs: seq<Vec>): (n: nat)
  {
    Greedy(q, true, None, START, vs).n
  }

  // --------------------------------------------------- arbitrary ways to cut

  /** cuts[i] says that a new segment starts at vs[i]. */
  function Cut(st: Open, vs: seq<Vec>, cuts: seq<bool>): (r: Open)
    requires |vs| == |cuts|
    ensures r.n >= st.n
    decreases |vs|
  {
    if vs == [] then st else Cut(Place(st, vs[0], cuts[0]), vs[1..], cuts[1..])
  }

  /** Every vector that continues a segment may join it and keeps it within the size limit. */
  ghost predicate Admissible(q: Limits, prev: Option<Vec>, st: Open, vs: seq<Vec>, cuts: seq<bool>)
    decreases |vs|
  {
    && |vs| == |cuts|
    && (vs != [] ==>
        && (cuts[0] || (prev.Some? && Joinable(q, prev.value, vs[0]) && st.cur + vs[0].len <= q.maxSegmentSize))
        && Admissible(q, Some(vs[0]), Place(st, vs[0], cuts[0]), vs[1..], cuts[1..]))
  }

  /** Fewer segments, or as many with no more in the open one. */
  predicate Ahead(a: Open, b: Open) {
    a.n < b.n || (a.n == b.n && a.cur <= b.cur)
  }

  lemma {:induction false} GreedyStaysAhead(q: Limits, prev: Option<Vec>, a: Open, b: Open, vs: seq<Vec>, cuts: seq<bool>)
    requires Admissible(q, prev, b, vs, cuts) && Ahead(a, b)
    ensures Ahead(Greedy(q, false, prev, a, vs), Cut(b, vs, cuts))
    decreases |vs|
  {
    if vs != [] {
      GreedyStaysAhead(q, Some(vs[0]), Place(a, vs[0], GreedyCut(q, false, prev, a, vs[0])),
                       Place(b, vs[0], cuts[0]), vs[1..], cuts[1..]);
    }
  }

  /** Greedy clustering is minimal: no admissible cutting has fewer segments. */
  lemma GreedyIsMinimal(q: Limits, vs: seq<Vec>, cuts: seq<bool>)
    requires Admissible(q, None, START, vs, cuts)
    ensures SgCount(q, vs) <= Cut(START, vs, cuts).n
  {
    GreedyStaysAhead(q, None, START, START, vs, cuts);
  }

  function GreedyCuts(q: Limits, counting: bool, prev: Option<Vec>, st: Open, vs: seq<Vec>): (cuts: seq<bool>)
    ensures |cuts| == |vs|
    decreases |vs|
  {
    if vs == [] then []
    else
      var cut := GreedyCut(q, counting, prev, st, vs[0]);
      [cut] + GreedyCuts(q, counting, Some(vs[0]), Place(st, vs[0], cut), vs[1..])
  }

  /** A greedy pass of either kind is itself an admissible cutting. */
  lemma {:induction false} GreedyIsAdmissible(q: Limits, counting: bool, prev: Option<Vec>, st: Open, vs: seq<Vec>)
    ensures var cuts := GreedyCuts(q, counting, prev, st, vs);
            Admissible(q, prev, st, vs, cuts) && Cut(st, vs, cuts) == Greedy(q, counting, prev, st, vs)
    decreases |vs|
  {
    if vs != [] {
      var cut := GreedyCut(q, counting, prev, st, vs[0]);
      GreedyIsAdmissible(q, counting, Some(vs[0]), Place(st, vs[0], cut), vs[1..]);
      assert GreedyCuts(q, counting, prev, st, vs)[1..] == GreedyCuts(q, counting, Some(vs[0]), Place(st, vs[0], cut), vs[1..]);
    }
  }

  // ------------------------------------------------------------ joining lists

  /** Bytes that continue the open segment before the next cut. */
  function Continued(vs: seq<Vec>, cuts: seq<bool>): (n: nat)
    requires |vs| == |cuts|
    decreases |vs|
  {
    if vs == [] || cuts[0] then 0 else vs[0].len + Continued(vs[1..], cuts[1..])
  }

  /** Size of the first segment of a cutting. */
  function FirstSize(vs: seq<Vec>, cuts: seq<bool>): (n: nat)
    requires |vs| == |cuts|
  {
    if vs == [] then 0 else vs[0].len + Continued(vs[1..], cuts[1..])
  }

  lemma {:induction false} CutConcat(q: Limits, prev: Option<Vec>, st: Open,
                                     a: seq<Vec>, ca: seq<bool>, b: seq<Vec>, cb: seq<bool>)
    requires |a| == |ca| && |b| == |cb|
    ensures Cut(st, a + b, ca + cb) == Cut(Cut(st, a, ca), b, cb)
    ensures Admissible(q, prev, st, a, ca) && Admissible(q, if a == [] then prev else Some(a[|a| - 1]), Cut(st, a, ca), b, cb)
            ==> Admissible(q, prev, st, a + b, ca + cb)
    decreases |a|
  {
    if a == [] {
      assert a + b == b && ca + cb == cb;
    } else {
      assert (a + b)[1..] == a[1..] + b && (ca + cb)[1..] == ca[1..] + cb;
      assert |a| > 1 ==> a[1..][|a| - 2] == a[|a| - 1];
      CutConcat(q, Some(a[0]), Place(st, a[0], ca[0]), a[1..], ca[1..], b, cb);
    }
  }

  /**
   Entering a cutting with `extra` more bytes in the open segment, and any
   number of segments before it, changes nothing from its first cut on.
   */
  lemma {:induction false} CutShift(q: Limits, prev: Option<Vec>, st: Open, st': Open, extra: nat,
                                    vs: seq<Vec>, cuts: seq<bool>)
    requires Admissible(q, prev, st, vs, cuts)
    requires st'.cur == st.cur + extra && (extra > 0 ==> st'.cur + Continued(vs, cuts) <= q.maxSegmentSize)
    ensures Admissible(q, prev, st', vs, cuts)
    ensures Cut(st', vs, cuts).n == Cut(st, vs, cuts).n - st.n + st'.n
    ensures Cut(st', vs, cuts).cur == Cut(st, vs, cuts).cur + (if Cut(st, vs, cuts).n == st.n then extra else 0)
    decreases |vs|
  {
    if vs != [] {
      CutShift(q, Some(vs[0]), Place(st, vs[0], cuts[0]), Place(st', vs[0], cuts[0]), if cuts[0] then 0 else extra,
               vs[1..], cuts[1..]);
    }
  }

  lemma {:induction false} FirstSizeConcat(a: seq<Vec>, ca: seq<bool>, b: seq<Vec>, cb: seq<bool>)
    requires |a| == |ca| && |b| == |cb|
    ensures Continued(a + b, ca + cb) == Continued(a, ca) + (if true in ca then 0 else Continued(b, cb))
    decreases |a|
  {
    if a == [] {
      assert a + b == b && ca + cb == cb;
    } else {
      assert (a + b)[1..] == a[1..] + b && (ca + cb)[1..] == ca[1..] + cb;
      FirstSizeConcat(a[1..], ca[1..], b, cb);
      assert true in ca <==> ca[0] || true in ca[1..];
    }
  }

  /** Without a cut everything continues the open segment. */
  lemma {:induction false} NoCut(st: Open, vs: seq<Vec>, cuts: seq<bool>)
    requires |vs| == |cuts|
    ensures Cut(st, vs, cuts).n == st.n <==> true !in cuts
    ensures true !in cuts ==> Cut(st, vs, cuts).cur == st.cur + Continued(vs, cuts)
    decreases |vs|
  {
    if vs != [] {
      NoCut(Place(st, vs[0], cuts[0]), vs[1..], cuts[1..]);
      assert true in cuts <==> cuts[0] || true in cuts[1..];
    }
  }

  // -------------------------------------------------- what the counters mean

  /**
   The account behind nr_phys_segments: some admissible cutting has exactly n
   segments, its first one is at most `front` and its last one at most `back`.
   */
  ghost predicate Accounted(q: Limits, vs: seq<Vec>, cuts: seq<bool>, n: nat, front: nat, back: nat)
  {
    && vs != []
    && Admissible(q, None, START, vs, cuts)
    && Cut(START, vs, cuts).n == n
    && FirstSize(vs, cuts) <= front
    && Cut(START, vs, cuts).cur <= back
  }

  /** Whatever was accounted for, blk_rq_map_sg needs no more entries. */
  lemma AccountedBoundsSg(q: Limits, vs: seq<Vec>, cuts: seq<bool>, n: nat, front: nat, back: nat)
    requires Accounted(q, vs, cuts, n, front, back)
    ensures SgCount(q, vs) <= n
  {
    GreedyIsMinimal(q, vs, cuts);
  }

  lemma RecalcAccounted(q: Limits, vs: seq<Vec>)
    requires vs != []
    ensures var cuts := GreedyCuts(q, true, None, START, vs);
            Accounted(q, vs, cuts, Recalc(q, vs), FirstSize(vs, cuts), Greedy(q, true, None, START, vs).cur)
  {
    GreedyIsAdmissible(q, true, None, START, vs);
  }

  lemma AppendAccounted(q: Limits, a: seq<Vec>, ca: seq<bool>, na: nat, fa: nat, ba: nat,
                        b: seq<Vec>, cb: seq<bool>, nb: nat, fb: nat, bb: nat)
    requires Accounted(q, a, ca, na, fa, ba) && Accounted(q, b, cb, nb, fb, bb)
    ensures Accounted(q, a + b, ca + cb, na + nb, fa, bb)
  {
    var end := Cut(START, a, ca);
    CutAfterFirst(q, Some(a[|a| - 1]), end, b, cb);
    CutConcat(q, None, START, a, ca, b, cb);
    assert (a + b)[1..] == a[1..] + b && (ca + cb)[1..] == ca[1..] + cb;
    FirstSizeConcat(a[1..], ca[1..], b, cb);
  }

  /** A cutting that starts with a cut can be entered in any state. */
  lemma CutAfterFirst(q: Limits, prev: Option<Vec>, st: Open, vs: seq<Vec>, cuts: seq<bool>)
    requires vs != [] && Admissible(q, None, START, vs, cuts)
    ensures Admissible(q, prev, st, vs, cuts)
    ensures Cut(st, vs, cuts) == Open(st.n + Cut(START, vs, cuts).n, Cut(START, vs, cuts).cur)
  {
    CutShift(q, Some(vs[0]), Place(START, vs[0], true), Place(st, vs[0], true), 0, vs[1..], cuts[1..]);
  }

  /** The second list, entered in the open segment of the first instead of with a cut. */
  lemma JoinCut(q: Limits, a: seq<Vec>, ca: seq<bool>, b: seq<Vec>, cb: seq<bool>)
    requires a != [] && b != [] && Admissible(q, None, START, a, ca) && Admissible(q, None, START, b, cb)
    requires Joinable(q, a[|a| - 1], b[0]) && Cut(START, a, ca).cur + FirstSize(b, cb) <= q.maxSegmentSize
    ensures var c, end, own := [false] + cb[1..], Cut(START, a, ca), Cut(START, b, cb);
            && own.n >= 1
            && Admissible(q, Some(a[|a| - 1]), end, b, c)
            && Cut(end, b, c) == Open(end.n + own.n - 1, own.cur + if own.n == 1 then end.cur else 0)
            && (own.n == 1 ==> own.cur == FirstSize(b, cb))
  {
    hide Joinable;
    var end, c := Cut(START, a, ca), [false] + cb[1..];
    var bs, cs := b[1..], cb[1..];
    assert c[0] == false && c[1..] == cs;
    var st, st' := Place(START, b[0], true), Place(end, b[0], false);
    assert cb[0] && Admissible(q, Some(b[0]), st, bs, cs) && Cut(START, b, cb) == Cut(st, bs, cs);
    assert Cut(end, b, c) == Cut(st', bs, cs);
    CutShift(q, Some(b[0]), st, st', end.cur, bs, cs);
    NoCut(st, bs, cs);
  }

  lemma JoinFirst(q: Limits, a: seq<Vec>, ca: seq<bool>, b: seq<Vec>, cb: seq<bool>)
    requires a != [] && b != [] && Admissible(q, None, START, a, ca) && |b| == |cb|
    ensures var c, end := [false] + cb[1..], Cut(START, a, ca);
            FirstSize(a + b, ca + c) == if end.n == 1 then end.cur + FirstSize(b, cb) else FirstSize(a, ca)
  {
    var c := [false] + cb[1..];
    assert c[1..] == cb[1..];
    assert (a + b)[1..] == a[1..] + b && (ca + c)[1..] == ca[1..] + c;
    FirstSizeConcat(a[1..], ca[1..], b, c);
    NoCut(Place(START, a[0], true), a[1..], ca[1..]);
  }

  /** Joining the last segment of one list with the first of the next, as ll_merge_requests_fn counts it. */
  lemma JoinAccounted(q: Limits, a: seq<Vec>, ca: seq<bool>, na: nat, fa: nat, ba: nat,
                      b: seq<Vec>, cb: seq<bool>, nb: nat, fb: nat, bb: nat)
    requires Accounted(q, a, ca, na, fa, ba) && Accounted(q, b, cb, nb, fb, bb)
    requires Joinable(q, a[|a| - 1], b[0]) && ba + fb <= q.maxSegmentSize
    ensures Accounted(q, a + b, ca + ([false] + cb[1..]), na + nb - 1,
                      if na == 1 then ba + fb else fa, if nb == 1 then ba + fb else bb)
  {
    SameLength(q, None, START, a, ca);
    SameLength(q, None, START, b, cb);
    hide Admissible, Cut, FirstSize, Joinable;
    JoinCut(q, a, ca, b, cb);
    JoinFirst(q, a, ca, b, cb);
    CutConcat(q, None, START, a, ca, b, [false] + cb[1..]);
  }

  lemma SameLength(q: Limits, prev: Option<Vec>, st: Open, vs: seq<Vec>, cuts: seq<bool>)
    requires Admissible(q, prev, st, vs, cuts)
    ensures |vs| == |cuts|
  {
  }
}
