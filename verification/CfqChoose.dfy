/** How CFQ picks the next request of a queue: the pairwise choice, and why looking at neighbours is enough. */
module CfqChoose {
  import opened IdLists

  /** What the choice depends on; requests of one queue start at different sectors. */
  datatype Rq = Rq(pos: nat, sync: bool, meta: bool)

  /** cfq_back_max in KiB and cfq_back_penalty. */
  datatype Seek = Seek(backMax: nat, backPenalty: nat)

  const UINT_MAX: nat := 0xFFFF_FFFF

  /** The values that the sysfs files store. */
  predicate Tunable(t: Seek) {
    t.backMax <= UINT_MAX && 1 <= t.backPenalty <= UINT_MAX
  }

  /** The reach back in sectors, two to the KiB; the product is an unsigned int. */
  function BackSectors(t: Seek): (n: nat)
    ensures n <= LONGEST_BACK
  {
    2 * t.backMax % (UINT_MAX + 1)
  }

  const LONGEST_BACK: nat := UINT_MAX - 1

  /** Too far behind the head: the request waits for the next sweep. */
  predicate Wraps(t: Seek, r: Rq, last: nat) {
    r.pos < last && r.pos + BackSectors(t) < last
  }

  function Distance(t: Seek, r: Rq, last: nat): (d: nat) {
    if r.pos >= last then r.pos - last
    else if r.pos + BackSectors(t) >= last then (last - r.pos) * t.backPenalty
    else 0
  }

  /** cfq_choose_req. */
  function ChooseReq(t: Seek, rq1: Option<Rq>, rq2: Option<Rq>, last: nat): (r: Option<Rq>) {
    if rq1.None? || rq1 == rq2 then rq2
    else if rq2.None? then rq1
    else
      var a, b := rq1.value, rq2.value;
      if a.sync != b.sync then (if a.sync then rq1 else rq2)
      else if a.meta != b.meta then (if a.meta then rq1 else rq2)
      else
        var d1, d2 := Distance(t, a, last), Distance(t, b, last);
        match (Wraps(t, a, last), Wraps(t, b, last))
        case (false, false) => if d1 < d2 then rq1 else if d2 < d1 then rq2 else if a.pos >= b.pos then rq1 else rq2
        case (false, true) => rq1
        case (true, false) => rq2
        case (true, true) => if a.pos <= b.pos then rq1 else rq2
  }

  /** The choice between a and b falls on a. */
  predicate Preferred(t: Seek, last: nat, a: Rq, b: Rq) {
    ChooseReq(t, Some(a), Some(b), last) == Some(a)
  }

  /** Which of two requests is asked first does not matter. */
  lemma ChoiceCommutes(t: Seek, last: nat, a: Rq, b: Rq)
    ensures ChooseReq(t, Some(a), Some(b), last) == ChooseReq(t, Some(b), Some(a), last)
  {
  }

  /** The pairwise choice is a total order on requests. */
  lemma ChoiceIsTotalOrder(t: Seek, last: nat, a: Rq, b: Rq, c: Rq)
    ensures Preferred(t, last, a, a)
    ensures Preferred(t, last, a, b) || Preferred(t, last, b, a)
    ensures Preferred(t, last, a, b) && Preferred(t, last, b, a) ==> a == b
    ensures Preferred(t, last, a, b) && Preferred(t, last, b, c) ==> Preferred(t, last, a, c)
  {
  }

  predicate SortedByPos(tree: seq<Rq>) {
    forall i, j :: 0 <= i < j < |tree| ==> tree[i].pos < tree[j].pos
  }

  /** cfq_find_next_rq: look at the successor, or the first node if there is none, and at the predecessor. */
  function FindNext(t: Seek, tree: seq<Rq>, i: nat): (r: Option<Rq>)
    requires i < |tree|
  {
    var prev := if i > 0 then Some(tree[i - 1]) else None;
    var next := if i + 1 < |tree| then Some(tree[i + 1]) else if i > 0 then Some(tree[0]) else None;
    ChooseReq(t, next, prev, tree[i].pos)
  }

  predicate SameFlags(tree: seq<Rq>) {
    forall i, j :: 0 <= i < |tree| && 0 <= j < |tree| ==> tree[i].sync == tree[j].sync && tree[i].meta == tree[j].meta
  }

  /** Of two requests ahead of the head the nearer one is preferred. */
  lemma NearerAhead(t: Seek, last: nat, a: Rq, b: Rq)
    requires a.sync == b.sync && a.meta == b.meta && last <= a.pos <= b.pos
    ensures Preferred(t, last, a, b)
  {
  }

  /** Behind the head, within reach, the nearer one is preferred as well. */
  lemma NearerBehind(t: Seek, last: nat, a: Rq, b: Rq)
    requires a.sync == b.sync && a.meta == b.meta && b.pos <= a.pos < last && !Wraps(t, a, last)
    ensures Preferred(t, last, a, b)
  {
    var p := t.backPenalty;
    assert (last - b.pos) * p == (last - a.pos) * p + (a.pos - b.pos) * p;
  }

  /** Beyond reach the sweep starts over from the lowest sector. */
  lemma LowestWrapped(t: Seek, last: nat, a: Rq, b: Rq)
    requires a.sync == b.sync && a.meta == b.meta && a.pos <= b.pos && Wraps(t, b, last)
    ensures Preferred(t, last, a, b)
  {
  }

  lemma ReachableFirst(t: Seek, last: nat, a: Rq, b: Rq)
    requires a.sync == b.sync && a.meta == b.meta && !Wraps(t, a, last) && Wraps(t, b, last)
    ensures Preferred(t, last, a, b)
  {
  }

  /**
   Looking at the neighbours is enough: when the requests of a queue agree in
   their flags, cfq_find_next_rq returns the one that beats all others.
   */
  lemma NeighboursAreEnough(t: Seek, tree: seq<Rq>, i: nat, j: nat)
    requires SortedByPos(tree) && SameFlags(tree) && i < |tree| && j < |tree| && j != i
    ensures FindNext(t, tree, i).Some? && FindNext(t, tree, i).value in tree
    ensures Preferred(t, tree[i].pos, FindNext(t, tree, i).value, tree[j])
  {
    var last := tree[i].pos;
    var best := FindNext(t, tree, i).value;
    if j > i {
      var next := tree[i + 1];
      NearerAhead(t, last, next, tree[j]);
      ChoiceIsTotalOrder(t, last, best, next, tree[j]);
    } else {
      var prev := tree[i - 1];
      if !Wraps(t, prev, last) {
        NearerBehind(t, last, prev, tree[j]);
        ChoiceIsTotalOrder(t, last, best, prev, tree[j]);
      } else if i + 1 < |tree| {
        ReachableFirst(t, last, tree[i + 1], tree[j]);
        ChoiceIsTotalOrder(t, last, best, tree[i + 1], tree[j]);
      } else {
        LowestWrapped(t, last, tree[0], tree[j]);
        ChoiceIsTotalOrder(t, last, best, tree[0], tree[j]);
      }
    }
  }

  /** How the flags rank a request. */
  function Rank(r: Rq): (n: nat) {
    (if r.sync then 2 else 0) + (if r.meta then 1 else 0)
  }

  // --------------------------------------------------- when the flags differ

  /** cfq_find_next_rq found a request that is preferred to every other one. */
  ghost predicate FoundBest(t: Seek, tree: seq<Rq>, i: nat)
    requires i < |tree|
  {
    forall j :: 0 <= j < |tree| && j != i ==> FindNext(t, tree, i).Some? && Preferred(t, tree[i].pos, FindNext(t, tree, i).value, tree[j])
  }

  /** No request other than i outranks request j. */
  predicate Top(tree: seq<Rq>, i: nat, j: nat) {
    j < |tree| && j != i && forall k :: 0 <= k < |tree| && k != i ==> Rank(tree[k]) <= Rank(tree[j])
  }

  /** The first request of the highest rank from index lo on. */
  function TopFrom(tree: seq<Rq>, i: nat, lo: nat): (r: Option<nat>)
    ensures r.Some? ==> lo <= r.value && Top(tree, i, r.value)
    ensures forall k :: lo <= k < |tree| && (r.Some? ==> k < r.value) ==> !Top(tree, i, k)
    decreases |tree| - lo
  {
    if lo >= |tree| then None else if Top(tree, i, lo) then Some(lo) else TopFrom(tree, i, lo + 1)
  }

  /** The last one before index hi. */
  function TopBefore(tree: seq<Rq>, i: nat, hi: nat): (r: Option<nat>)
    requires hi <= |tree|
    ensures r.Some? ==> r.value < hi && Top(tree, i, r.value)
    ensures forall k :: 0 <= k < hi && (r.Some? ==> k > r.value) ==> !Top(tree, i, k)
  {
    if hi == 0 then None else if Top(tree, i, hi - 1) then Some(hi - 1) else TopBefore(tree, i, hi - 1)
  }

  /** Going back to p is cheaper than going on to a. */
  predicate BackIsNearer(t: Seek, last: nat, p: Rq, a: Rq)
    requires p.pos < last <= a.pos
  {
    !Wraps(t, p, last) && (last - p.pos) * t.backPenalty < a.pos - last
  }

  /**
   The request to serve, from flags and positions alone: of the highest rank,
   the nearest ahead or the nearest behind, or the lowest if all are behind
   and out of reach.
   */
  function Wanted(t: Seek, tree: seq<Rq>, i: nat): (r: Option<nat>)
    requires i < |tree| && SortedByPos(tree)
    ensures r.Some? ==> Top(tree, i, r.value)
  {
    var ahead, behind := TopFrom(tree, i, i + 1), TopBefore(tree, i, i);
    if behind.None? || (ahead.Some? && !BackIsNearer(t, tree[i].pos, tree[behind.value], tree[ahead.value])) then ahead
    else if !Wraps(t, tree[behind.value], tree[i].pos) then behind
    else TopFrom(tree, i, 0)
  }

  /** The nodes cfq_find_next_rq looks at. */
  predicate Neighbour(tree: seq<Rq>, i: nat, k: nat) {
    k == i + 1 || k + 1 == i || (k == 0 < i && i + 1 == |tree|)
  }

  lemma {:induction false} SomeTop(tree: seq<Rq>, i: nat, n: nat) returns (j: nat)
    requires i < |tree| && n <= |tree| && (n > 1 || (n == 1 && i > 0))
    ensures j < n && j != i && forall k :: 0 <= k < n && k != i ==> Rank(tree[k]) <= Rank(tree[j])
    decreases n
  {
    if n == 1 || (n == 2 && i == 0) || (n == 2 && i == 1) {
      j := if i == 0 then 1 else 0;
    } else {
      j := SomeTop(tree, i, n - 1);
      if n - 1 != i && Rank(tree[n - 1]) > Rank(tree[j]) {
        j := n - 1;
      }
    }
  }

  lemma WantedExists(t: Seek, tree: seq<Rq>, i: nat)
    requires i < |tree| && SortedByPos(tree)
    ensures Wanted(t, tree, i).Some? <==> |tree| > 1
  {
    if |tree| > 1 {
      var j := SomeTop(tree, i, |tree|);
      assert Top(tree, i, j);
    }
  }

  /** A higher rank is preferred whatever the positions. */
  lemma RankDecides(t: Seek, last: nat, a: Rq, b: Rq)
    requires Rank(a) > Rank(b)
    ensures Preferred(t, last, a, b)
  {
  }

  lemma SameRank(a: Rq, b: Rq)
    requires Rank(a) == Rank(b)
    ensures a.sync == b.sync && a.meta == b.meta
  {
  }

  /** The wanted request is preferred to every other one. */
  lemma WantedIsBest(t: Seek, tree: seq<Rq>, i: nat, j: nat)
    requires i < |tree| && SortedByPos(tree) && j < |tree| && j != i && Wanted(t, tree, i).Some?
    ensures Preferred(t, tree[i].pos, tree[Wanted(t, tree, i).value], tree[j])
  {
    hide Preferred, Wraps, Rank, SortedByPos;
    var k := Wanted(t, tree, i).value;
    if Rank(tree[k]) > Rank(tree[j]) {
      RankDecides(t, tree[i].pos, tree[k], tree[j]);
    } else {
      TopBeats(t, tree, i, j);
    }
  }

  lemma TopIsTop(tree: seq<Rq>, i: nat, k: nat, j: nat)
    requires Top(tree, i, k) && j < |tree| && j != i && Rank(tree[j]) >= Rank(tree[k])
    ensures Top(tree, i, j) && tree[j].sync == tree[k].sync && tree[j].meta == tree[k].meta
  {
    SameRank(tree[j], tree[k]);
  }

  /** Going on to a beats everything behind when it beats the nearest p. */
  lemma AheadWins(t: Seek, last: nat, p: Rq, a: Rq, x: Rq)
    requires a.sync == x.sync && a.meta == x.meta && x.pos <= p.pos < last <= a.pos && !BackIsNearer(t, last, p, a)
    ensures Preferred(t, last, a, x)
  {
    var y := t.backPenalty;
    assert (last - x.pos) * y == (last - p.pos) * y + (p.pos - x.pos) * y;
  }

  /** Going back to p beats everything ahead when it beats the nearest a. */
  lemma BackWins(t: Seek, last: nat, p: Rq, a: Rq, x: Rq)
    requires p.sync == x.sync && p.meta == x.meta && p.pos < last <= a.pos <= x.pos && BackIsNearer(t, last, p, a)
    ensures Preferred(t, last, p, x)
  {
  }

  lemma TopBeats(t: Seek, tree: seq<Rq>, i: nat, j: nat)
    requires i < |tree| && SortedByPos(tree) && j < |tree| && j != i && Wanted(t, tree, i).Some?
    requires Rank(tree[Wanted(t, tree, i).value]) <= Rank(tree[j])
    ensures Preferred(t, tree[i].pos, tree[Wanted(t, tree, i).value], tree[j])
  {
    var k, last := Wanted(t, tree, i).value, tree[i].pos;
    TopIsTop(tree, i, k, j);
    var ahead, behind, lowest := TopFrom(tree, i, i + 1), TopBefore(tree, i, i), TopFrom(tree, i, 0);
    hide Preferred, Rank, TopFrom, TopBefore, Top, Wraps, BackIsNearer;
    if j > i {
      assert ahead.Some? && ahead.value <= j && tree[ahead.value].pos <= tree[j].pos;
      if Some(k) == ahead {
        NearerAhead(t, last, tree[k], tree[j]);
      } else {
        BackWins(t, last, tree[k], tree[ahead.value], tree[j]);
      }
    } else {
      assert behind.Some? && j <= behind.value && tree[j].pos <= tree[behind.value].pos;
      if Some(k) == ahead {
        AheadWins(t, last, tree[behind.value], tree[k], tree[j]);
      } else if Some(k) == behind && !Wraps(t, tree[k], last) {
        NearerBehind(t, last, tree[k], tree[j]);
      } else {
        assert lowest.Some? && lowest.value <= j && tree[lowest.value].pos <= tree[j].pos;
        WrapsBelow(t, last, tree[behind.value], tree[j]);
        LowestWrapped(t, last, tree[k], tree[j]);
      }
    }
  }

  lemma WrapsBelow(t: Seek, last: nat, p: Rq, x: Rq)
    requires Wraps(t, p, last) && x.pos <= p.pos
    ensures Wraps(t, x, last)
  {
  }

  /** What cfq_find_next_rq returns is one of the nodes it looks at. */
  lemma FindNextIsNeighbour(t: Seek, tree: seq<Rq>, i: nat) returns (k: nat)
    requires i < |tree| && |tree| > 1 && SortedByPos(tree)
    ensures k < |tree| && k != i && Neighbour(tree, i, k) && FindNext(t, tree, i) == Some(tree[k])
  {
    var r := FindNext(t, tree, i);
    if i + 1 < |tree| && r == Some(tree[i + 1]) {
      k := i + 1;
    } else if i > 0 && r == Some(tree[i - 1]) {
      k := i - 1;
    } else {
      k := 0;
    }
  }

  /** A neighbour that is preferred to all others is found. */
  lemma BestNeighbourIsFound(t: Seek, tree: seq<Rq>, i: nat, k: nat)
    requires i < |tree| && SortedByPos(tree) && k < |tree| && k != i && Neighbour(tree, i, k)
    requires forall j :: 0 <= j < |tree| && j != i ==> Preferred(t, tree[i].pos, tree[k], tree[j])
    ensures FindNext(t, tree, i) == Some(tree[k])
  {
    var last := tree[i].pos;
    var prev := if i > 0 then Some(tree[i - 1]) else None;
    var next := if i + 1 < |tree| then Some(tree[i + 1]) else if i > 0 then Some(tree[0]) else None;
    hide Distance, Wraps;
    if prev.Some? && next.Some? {
      assert Preferred(t, last, tree[k], prev.value) && Preferred(t, last, tree[k], next.value);
      ChoiceCommutes(t, last, next.value, prev.value);
    }
  }

  predicate InSight(t: Seek, tree: seq<Rq>, i: nat)
    requires i < |tree| && SortedByPos(tree)
  {
    Wanted(t, tree, i).Some? ==> Neighbour(tree, i, Wanted(t, tree, i).value)
  }

  /**
   When the search is exact, whatever the flags: if and only if the wanted
   request is one of the nodes that are looked at.
   */
  lemma FoundBestIff(t: Seek, tree: seq<Rq>, i: nat)
    requires i < |tree| && SortedByPos(tree)
    ensures FoundBest(t, tree, i) <==> InSight(t, tree, i)
  {
    WantedExists(t, tree, i);
    hide Wanted, Preferred;
    if |tree| > 1 {
      var k, last := Wanted(t, tree, i).value, tree[i].pos;
      forall j | 0 <= j < |tree| && j != i ensures Preferred(t, last, tree[k], tree[j]) {
        WantedIsBest(t, tree, i, j);
      }
      if Neighbour(tree, i, k) {
        BestNeighbourIsFound(t, tree, i, k);
      }
      if FoundBest(t, tree, i) {
        var x := FindNextIsNeighbour(t, tree, i);
        assert Preferred(t, last, tree[x], tree[k]) && Preferred(t, last, tree[k], tree[x]);
        ChoiceIsTotalOrder(t, last, tree[x], tree[k], tree[k]);
      }
    }
  }

  /** The request at index k is behind, not too far, and nearer than the nearest ahead. */
  predicate WorthGoingBack(tree: seq<Rq>, i: nat, k: nat, ahead: Option<nat>)
    requires k < i < |tree| && (ahead.Some? ==> ahead.value < |tree|)
  {
    && tree[i].pos - tree[k].pos <= LONGEST_BACK
    && (ahead.Some? ==> tree[i].pos - tree[k].pos < tree[ahead.value].pos - tree[i].pos)
  }

  /**
   Of the highest rank, the nearest ahead, the nearest behind if it can be worth
   going back for and, with none ahead, the lowest are all looked at.
   */
  predicate AllInSight(tree: seq<Rq>, i: nat)
    requires i < |tree|
  {
    var ahead, behind, lowest := TopFrom(tree, i, i + 1), TopBefore(tree, i, i), TopFrom(tree, i, 0);
    && (ahead.Some? ==> Neighbour(tree, i, ahead.value))
    && (behind.Some? && WorthGoingBack(tree, i, behind.value, ahead) ==> Neighbour(tree, i, behind.value))
    && (ahead.None? && lowest.Some? ==> Neighbour(tree, i, lowest.value))
  }

  lemma PenaltyGrows(d: nat, y: nat)
    requires y >= 1
    ensures d <= d * y
  {
    assert d * y == d + d * (y - 1);
  }

  /** A penalty makes no request behind nearer than it is. */
  lemma NearerIsWorth(t: Seek, tree: seq<Rq>, i: nat, k: nat, a: nat)
    requires Tunable(t) && k < i < a < |tree| && SortedByPos(tree) && BackIsNearer(t, tree[i].pos, tree[k], tree[a])
    ensures WorthGoingBack(tree, i, k, Some(a))
  {
    hide BackSectors;
    PenaltyGrows(tree[i].pos - tree[k].pos, t.backPenalty);
  }

  lemma InSightForAll(t: Seek, tree: seq<Rq>, i: nat)
    requires Tunable(t) && i < |tree| && SortedByPos(tree) && AllInSight(tree, i)
    ensures InSight(t, tree, i)
  {
    hide TopFrom, TopBefore, Neighbour, BackSectors;
    var ahead, behind := TopFrom(tree, i, i + 1), TopBefore(tree, i, i);
    if behind.Some? && ahead.Some? && BackIsNearer(t, tree[i].pos, tree[behind.value], tree[ahead.value]) {
      NearerIsWorth(t, tree, i, behind.value, ahead.value);
    }
  }

  /** Without reach everything behind waits for the next sweep; with the longest reach and no penalty it is served if nearer. */
  lemma ExtremeTunables(tree: seq<Rq>, i: nat)
    requires i < |tree| && SortedByPos(tree)
    ensures var ahead, behind, far := TopFrom(tree, i, i + 1), TopBefore(tree, i, i), Seek(UINT_MAX / 2, 1);
            && Tunable(Seek(0, 1)) && Tunable(far)
            && Wanted(Seek(0, 1), tree, i) == (if ahead.Some? || behind.None? then ahead else TopFrom(tree, i, 0))
            && (behind.Some? && WorthGoingBack(tree, i, behind.value, ahead) ==> Wanted(far, tree, i) == behind)
  {
    hide TopFrom, TopBefore;
    assert BackSectors(Seek(UINT_MAX / 2, 1)) == LONGEST_BACK && BackSectors(Seek(0, 1)) == 0;
  }

  lemma LowestIsAhead(tree: seq<Rq>, i: nat)
    requires i < |tree| && TopBefore(tree, i, i).None?
    ensures TopFrom(tree, i, i + 1).None? ==> TopFrom(tree, i, 0).None?
  {
    assert !Top(tree, i, i);
  }

  /** The search is exact for all tunables that can be set if and only if these are in sight. */
  lemma FoundBestForAllTunables(tree: seq<Rq>, i: nat)
    requires i < |tree| && SortedByPos(tree)
    ensures (forall t: Seek :: Tunable(t) ==> FoundBest(t, tree, i)) <==> AllInSight(tree, i)
  {
    forall t: Seek ensures FoundBest(t, tree, i) <==> InSight(t, tree, i) {
      FoundBestIff(t, tree, i);
    }
    hide FoundBest, TopFrom, TopBefore, Top, Neighbour, Wanted, SortedByPos, WorthGoingBack;
    if AllInSight(tree, i) {
      forall t: Seek | Tunable(t) ensures FoundBest(t, tree, i) {
        InSightForAll(t, tree, i);
      }
    }
    if forall t: Seek :: Tunable(t) ==> FoundBest(t, tree, i) {
      ExtremeTunables(tree, i);
      assert FoundBest(Seek(0, 1), tree, i) && FoundBest(Seek(UINT_MAX / 2, 1), tree, i);
      if TopBefore(tree, i, i).None? {
        LowestIsAhead(tree, i);
      }
    }
  }

  /** The nearest behind need not be in sight: here it is never worth going back for. */
  lemma FoundWithoutGoingBack()
    ensures var tree := [Rq(50, true, true), Rq(95, true, false), Rq(100, true, false), Rq(101, true, true)];
            && SortedByPos(tree) && TopBefore(tree, 2, 2) == Some(0) && !Neighbour(tree, 2, 0)
            && (forall t: Seek :: Tunable(t) ==> FoundBest(t, tree, 2)) && !FoundBest(Seek(100, 0), tree, 2)
  {
    var tree := [Rq(50, true, true), Rq(95, true, false), Rq(100, true, false), Rq(101, true, true)];
    assert Top(tree, 2, 0) && Top(tree, 2, 3) && !Top(tree, 2, 1);
    assert TopBefore(tree, 2, 2) == TopBefore(tree, 2, 1) == Some(0) && TopFrom(tree, 2, 3) == Some(3);
    FoundBestForAllTunables(tree, 2);
    assert !Preferred(Seek(100, 0), tree[2].pos, tree[3], tree[0]);
  }

  /** Not exact: metadata two requests away is passed over, for any tunables. */
  lemma MetadataPassedOver(t: Seek)
    ensures var tree := [Rq(10, true, false), Rq(20, true, false), Rq(30, true, true)];
            SortedByPos(tree) && FindNext(t, tree, 0) == Some(tree[1]) && !FoundBest(t, tree, 0)
  {
    var tree := [Rq(10, true, false), Rq(20, true, false), Rq(30, true, true)];
    assert !Preferred(t, tree[0].pos, tree[1], tree[2]);
  }

  /** Not exact either although nothing outranks what was found: the better request of its rank is hidden by another. */
  lemma EqualRankPassedOver()
    ensures var tree := [Rq(90, true, true), Rq(95, true, false), Rq(100, true, false), Rq(1000, true, true)];
            && SortedByPos(tree) && FindNext(Seek(1000, 2), tree, 2) == Some(tree[3])
            && Rank(tree[0]) == Rank(tree[3]) && !FoundBest(Seek(1000, 2), tree, 2)
  {
    var tree := [Rq(90, true, true), Rq(95, true, false), Rq(100, true, false), Rq(1000, true, true)];
    assert !Preferred(Seek(1000, 2), tree[2].pos, tree[3], tree[0]);
  }
}
