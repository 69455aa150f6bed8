/**
 The dispatch list of a request queue: sorted insertion as a one way elevator
 that starts at the boundary sector, barriers, and what moving the boundary does.
 */
module Dispatch {
  import opened IdLists

  /** stop stands for the flags no request is sorted past: soft barrier and started. */
  datatype Rq = Rq(id: nat, pos: nat, sectors: nat, write: bool, discard: bool, stop: bool)

  datatype State = State(queue: seq<Rq>, endSector: nat, boundary: Option<nat>)

  function EndOf(r: Rq): (e: nat) {
    r.pos + r.sectors
  }

  predicate SameClass(a: Rq, b: Rq) {
    a.write == b.write && a.discard == b.discard
  }

  /** One sweep up from the boundary, then one from the first sector. */
  predicate SweepLe(b: nat, x: Rq, y: Rq) {
    if (x.pos >= b) == (y.pos >= b) then x.pos <= y.pos else x.pos >= b
  }

  /** The insertion walk of rq ends behind pos. */
  predicate Halts(b: nat, rq: Rq, pos: Rq) {
    !SameClass(rq, pos) || pos.stop || SweepLe(b, pos, rq)
  }

  function Place(q: seq<Rq>, rq: Rq, b: nat): (i: nat)
    ensures i <= |q| && (i > 0 ==> Halts(b, rq, q[i - 1]))
    ensures forall j :: i <= j < |q| ==> !Halts(b, rq, q[j])
  {
    if q == [] then 0 else if Halts(b, rq, q[|q| - 1]) then |q| else Place(q[..|q| - 1], rq, b)
  }

  lemma PlaceIsOnly(q: seq<Rq>, rq: Rq, b: nat, i: nat)
    requires i <= |q| && (i > 0 ==> Halts(b, rq, q[i - 1])) && forall j :: i <= j < |q| ==> !Halts(b, rq, q[j])
    ensures i == Place(q, rq, b)
  {
    hide Place;
    var k := Place(q, rq, b);
    assert k > 0 ==> Halts(b, rq, q[k - 1]);
  }

  /** Neighbours that could have been sorted against each other are in sweep order, from position p on. */
  predicate Ordered(q: seq<Rq>, p: nat, b: nat) {
    forall k :: p <= k < |q| - 1 ==> Adjacent(q, k, b)
  }

  predicate Adjacent(q: seq<Rq>, k: nat, b: nat)
    requires k + 1 < |q|
  {
    Related(q, k) ==> SweepLe(b, q[k], q[k + 1])
  }

  /** Request k and the next one are of one class and neither is a barrier. */
  predicate Related(q: seq<Rq>, k: nat)
    requires k + 1 < |q|
  {
    SameClass(q[k], q[k + 1]) && !q[k].stop && !q[k + 1].stop
  }

  /** A stretch of one class without barriers. */
  predicate Uniform(q: seq<Rq>, i: nat, j: nat)
    requires j <= |q|
  {
    forall k :: i <= k < j ==> !q[k].stop && SameClass(q[i], q[k])
  }

  /** Order between neighbours is order between any two requests of a stretch. */
  lemma {:induction false} OrderedPairs(q: seq<Rq>, p: nat, b: nat, i: nat, j: nat)
    requires Ordered(q, p, b) && p <= i <= j < |q| && Uniform(q, i, j + 1)
    ensures SweepLe(b, q[i], q[j])
    decreases j - i
  {
    if i < j {
      OrderedPairs(q, p, b, i, j - 1);
      assert Adjacent(q, j - 1, b);
    }
  }

  /**
   Sorted insertion: the request lands behind the last barrier, started
   request or request of another class, before exactly those requests of the
   last stretch that come after it in the sweep; the order is kept.
   */
  lemma SortKeepsOrder(q: seq<Rq>, rq: Rq, b: nat, p: nat)
    requires Ordered(q, p, b) && !rq.stop && p <= Place(q, rq, b)
    ensures var i := Place(q, rq, b); Ordered(InsertedAt(q, rq, i), p, b)
    ensures forall j :: Place(q, rq, b) <= j < |q| ==> SameClass(rq, q[j]) && !q[j].stop && SweepLe(b, rq, q[j]) && q[j].pos != rq.pos
  {
    hide Place;
    var i := Place(q, rq, b);
    var r := InsertedAt(q, rq, i);
    forall k | p <= k < |r| - 1 ensures Adjacent(r, k, b) {
      if k + 1 < i {
        assert Adjacent(q, k, b);
      } else if k > i {
        assert Adjacent(q, k - 1, b);
      }
    }
  }

  /** With the whole stretch behind a barrier in order, every earlier request of it that stays ahead belongs there. */
  lemma SortPlacesRight(q: seq<Rq>, rq: Rq, b: nat, p: nat, j: nat)
    requires Ordered(q, p, b) && p <= j < Place(q, rq, b) && Uniform(q, p, |q|) && SameClass(rq, q[p]) && !rq.stop
    ensures SweepLe(b, q[j], rq)
  {
    hide Place, Ordered;
    var last := Place(q, rq, b) - 1;
    OrderedPairs(q, p, b, j, last);
    assert Halts(b, rq, q[last]) && SameClass(q[p], q[last]) && !q[last].stop;
    SweepTransitive(b, q[j], q[last], rq);
  }

  lemma SweepTransitive(b: nat, x: Rq, y: Rq, z: Rq)
    requires SweepLe(b, x, y) && SweepLe(b, y, z)
    ensures SweepLe(b, x, z)
  {
  }

  predicate Between(x: nat, b: nat, e: nat) {
    b <= x < e || e <= x < b
  }

  /** No two related neighbours are told apart by the sectors between b and e. */
  predicate Unsplit(q: seq<Rq>, p: nat, b: nat, e: nat) {
    forall k :: p <= k < |q| - 1 && Related(q, k) ==> Between(q[k].pos, b, e) == Between(q[k + 1].pos, b, e)
  }

  /**
   Moving the boundary from b to e keeps a list in order, whatever classes and
   barriers it holds, exactly when of every two related neighbours both or
   neither start between b and e.
   */
  lemma BoundaryMove(q: seq<Rq>, p: nat, b: nat, e: nat)
    requires Ordered(q, p, b)
    ensures Ordered(q, p, e) <==> Unsplit(q, p, b, e)
  {
    forall k | p <= k < |q| - 1 ensures Adjacent(q, k, e) <==> (Related(q, k) ==> Between(q[k].pos, b, e) == Between(q[k + 1].pos, b, e)) {
      assert Adjacent(q, k, b);
    }
  }

  /** For a stretch of one class this says: none or all of it. */
  lemma StretchMove(q: seq<Rq>, b: nat, e: nat)
    requires Uniform(q, 0, |q|) && Ordered(q, 0, b)
    ensures Ordered(q, 0, e) <==>
            (forall k :: 0 <= k < |q| ==> !Between(q[k].pos, b, e)) || (forall k :: 0 <= k < |q| ==> Between(q[k].pos, b, e))
  {
    BoundaryMove(q, 0, b, e);
    if Unsplit(q, 0, b, e) {
      forall i, j | 0 <= i <= j < |q| ensures Between(q[i].pos, b, e) == Between(q[j].pos, b, e) {
        UnsplitPairs(q, b, e, i, j);
      }
    }
  }

  lemma {:induction false} UnsplitPairs(q: seq<Rq>, b: nat, e: nat, i: nat, j: nat)
    requires Uniform(q, 0, |q|) && Unsplit(q, 0, b, e) && i <= j < |q|
    ensures Between(q[i].pos, b, e) == Between(q[j].pos, b, e)
    decreases j - i
  {
    if i < j {
      UnsplitPairs(q, b, e, i, j - 1);
      assert Related(q, j - 1);
    }
  }

  /** Taking the head of a list and making its end the boundary. */
  lemma HeadMove(q: seq<Rq>, b: nat)
    requires q != [] && Ordered(q, 0, b)
    ensures Ordered(q[1..], 0, EndOf(q[0])) <==> Unsplit(q, 1, b, EndOf(q[0]))
  {
    hide Between;
    var t, e := q[1..], EndOf(q[0]);
    OrderedTail(q, 0, b);
    BoundaryMove(t, 0, b, e);
    assert forall k :: 0 <= k < |t| ==> t[k] == q[k + 1];
    if Unsplit(t, 0, b, e) {
      forall k | 1 <= k < |q| - 1 && Related(q, k) ensures Between(q[k].pos, b, e) == Between(q[k + 1].pos, b, e) {
        assert Related(t, k - 1);
      }
    }
  }

  /** A head that nobody overlaps may go: in a stretch of one class the order survives it. */
  lemma HeadWithoutOverlap(q: seq<Rq>, b: nat)
    requires q != [] && Uniform(q, 0, |q|) && Ordered(q, 0, b) && q[0].sectors > 0
    requires forall k :: 1 <= k < |q| ==> !(q[0].pos <= q[k].pos < EndOf(q[0]))
    ensures Ordered(q[1..], 0, EndOf(q[0]))
  {
    HeadMove(q, b);
    forall k | 1 <= k < |q| - 1 && Related(q, k)
      ensures Between(q[k].pos, b, EndOf(q[0])) == Between(q[k + 1].pos, b, EndOf(q[0]))
    {
      OrderedPairs(q, 0, b, 0, k);
      OrderedPairs(q, 0, b, 0, k + 1);
    }
  }

  lemma OrderedTail(q: seq<Rq>, p: nat, b: nat)
    requires q != [] && Ordered(q, p, b)
    ensures Ordered(q[1..], if p == 0 then 0 else p - 1, b)
  {
    var t := q[1..];
    forall k | (if p == 0 then 0 else p - 1) <= k < |t| - 1 ensures Adjacent(t, k, b) {
      assert Adjacent(q, k + 1, b);
    }
  }

  /** The order breaks when one request starts inside the head and the next one does not. */
  lemma OverlapBreaksOrder()
    ensures var q := [Rq(0, 100, 8, false, false, false), Rq(1, 104, 8, false, false, false), Rq(2, 200, 8, false, false, false)];
            Ordered(q, 0, 0) && !Ordered(q[1..], 0, EndOf(q[0]))
  {
    var q := [Rq(0, 100, 8, false, false, false), Rq(1, 104, 8, false, false, false), Rq(2, 200, 8, false, false, false)];
    assert !Adjacent(q[1..], 0, EndOf(q[0]));
  }

  /** It also breaks without any overlap, when a head of one class moves the boundary into a stretch of the other. */
  lemma OtherClassBreaksOrder()
    ensures var q := [Rq(0, 100, 8, true, false, false), Rq(1, 50, 8, false, false, false), Rq(2, 150, 8, false, false, false)];
            && Ordered(q, 0, 0) && !Ordered(q[1..], 0, EndOf(q[0]))
            && forall k :: 1 <= k < |q| ==> !(q[0].pos <= q[k].pos < EndOf(q[0]))
  {
    var q := [Rq(0, 100, 8, true, false, false), Rq(1, 50, 8, false, false, false), Rq(2, 150, 8, false, false, false)];
    assert !Adjacent(q[1..], 0, EndOf(q[0]));
  }

  predicate UniqueIds(q: seq<Rq>) {
    forall i, j :: 0 <= i < j < |q| ==> q[i].id != q[j].id
  }

  /** Where the boundary request stands: from there on the list is in order. */
  predicate BoundaryAt(s: State, p: nat) {
    p < |s.queue| && s.boundary == Some(s.queue[p].id) && s.queue[p].stop && s.endSector == EndOf(s.queue[p]) && Ordered(s.queue, p, s.endSector)
  }

  ghost predicate Good(s: State) {
    UniqueIds(s.queue) && if s.boundary.None? then Ordered(s.queue, 0, s.endSector) else exists p: nat :: BoundaryAt(s, p)
  }

  function Sort(s: State, rq: Rq): (t: State) {
    s.(queue := InsertedAt(s.queue, rq, Place(s.queue, rq, s.endSector)))
  }

  /** The requests that a forced drain of the scheduler hands over, one after the other. */
  function SortAll(s: State, held: seq<Rq>): (t: State)
    ensures t.endSector == s.endSector && t.boundary == s.boundary
    decreases |held|
  {
    if held == [] then s else SortAll(Sort(s, held[0]), held[1..])
  }

  /** A request that is a barrier already becomes the boundary, before the scheduler is drained. */
  function Announced(s: State, rq: Rq, boundary: bool): (t: State) {
    if boundary then s.(endSector := EndOf(rq), boundary := Some(rq.id)) else s
  }

  /** Insertion at the back: the scheduler is drained and the request is a barrier from then on. */
  function Back(s: State, held: seq<Rq>, rq: Rq, boundary: bool): (t: State) {
    var u := SortAll(Announced(s, rq, boundary), held);
    u.(queue := u.queue + [rq.(stop := true)])
  }

  /** The driver takes the head. */
  function Start(s: State): (t: State)
    requires s.queue != []
  {
    var h := s.queue[0];
    if s.boundary.None? || s.boundary == Some(h.id) then State(s.queue[1..], EndOf(h), None) else s.(queue := s.queue[1..])
  }

  predicate Fresh(s: State, rq: Rq) {
    forall k :: 0 <= k < |s.queue| ==> s.queue[k].id != rq.id
  }

  lemma SortUnique(s: State, rq: Rq)
    requires UniqueIds(s.queue) && Fresh(s, rq)
    ensures UniqueIds(Sort(s, rq).queue)
    ensures forall x: Rq :: Fresh(s, x) && x.id != rq.id ==> Fresh(Sort(s, rq), x)
  {
    hide Place;
  }

  lemma SortBehindBoundary(s: State, rq: Rq, p: nat)
    requires BoundaryAt(s, p) && !rq.stop
    ensures BoundaryAt(Sort(s, rq), p)
  {
    hide Ordered, Place;
    var i := Place(s.queue, rq, s.endSector);
    assert i > p;
    SortKeepsOrder(s.queue, rq, s.endSector, p);
  }

  lemma SortGood(s: State, rq: Rq)
    requires Good(s) && Fresh(s, rq) && !rq.stop
    ensures Good(Sort(s, rq))
  {
    SortUnique(s, rq);
    hide Ordered, Place, UniqueIds, BoundaryAt, InsertedAt;
    if s.boundary.None? {
      SortKeepsOrder(s.queue, rq, s.endSector, 0);
    } else {
      var p: nat :| BoundaryAt(s, p);
      SortBehindBoundary(s, rq, p);
    }
  }

  /** What a drain hands over is new to the list, all different, and no barrier. */
  predicate Handover(s: State, held: seq<Rq>) {
    UniqueIds(held) && forall k :: 0 <= k < |held| ==> Fresh(s, held[k]) && !held[k].stop
  }

  lemma HandoverStep(s: State, held: seq<Rq>)
    requires Handover(s, held) && held != [] && UniqueIds(s.queue)
    ensures Handover(Sort(s, held[0]), held[1..]) && UniqueIds(Sort(s, held[0]).queue)
  {
    hide Sort, Fresh;
    SortUnique(s, held[0]);
  }

  lemma {:induction false} SortAllGood(s: State, held: seq<Rq>)
    requires Handover(s, held) && UniqueIds(s.queue)
    ensures UniqueIds(SortAll(s, held).queue) && (Good(s) ==> Good(SortAll(s, held)))
    ensures forall x: Rq :: Fresh(s, x) && (forall k :: 0 <= k < |held| ==> held[k].id != x.id) ==> Fresh(SortAll(s, held), x)
    decreases |held|
  {
    hide Sort, Fresh, UniqueIds, Good;
    if held != [] {
      HandoverStep(s, held);
      SortUnique(s, held[0]);
      if Good(s) {
        SortGood(s, held[0]);
      }
      SortAllGood(Sort(s, held[0]), held[1..]);
      forall x: Rq | Fresh(s, x) && (forall k :: 0 <= k < |held| ==> held[k].id != x.id) ensures Fresh(SortAll(s, held), x) {
        assert held[0].id != x.id;
        assert forall k :: 0 <= k < |held| - 1 ==> held[1..][k] == held[k + 1];
      }
    }
  }

  lemma AppendGood(s: State, rq: Rq)
    requires Good(s) && Fresh(s, rq)
    ensures Good(s.(queue := s.queue + [rq.(stop := true)]))
  {
    var s', n := s.(queue := s.queue + [rq.(stop := true)]), |s.queue|;
    var p: nat := 0;
    if s.boundary.Some? {
      p :| BoundaryAt(s, p);
    }
    forall k | p <= k < |s'.queue| - 1 ensures Adjacent(s'.queue, k, s.endSector) {
      assert k < n - 1 ==> Adjacent(s.queue, k, s.endSector);
    }
    assert s.boundary.Some? ==> BoundaryAt(s', p);
  }

  /** Back insertion keeps the list good, even though the drain may sort against a boundary that is not on the list yet. */
  lemma BackGood(s: State, held: seq<Rq>, rq: Rq, boundary: bool)
    requires Good(s) && Handover(s, held) && Fresh(s, rq) && forall k :: 0 <= k < |held| ==> held[k].id != rq.id
    ensures Good(Back(s, held, rq, boundary))
  {
    var t := Announced(s, rq, boundary);
    var u := SortAll(t, held);
    assert Handover(t, held) && UniqueIds(t.queue) && Fresh(t, rq);
    hide SortAll, Handover;
    SortAllGood(t, held);
    if boundary {
      assert BoundaryAt(Back(s, held, rq, boundary), |u.queue|);
    } else {
      AppendGood(u, rq);
    }
  }

  /** The boundary stays in order when the head goes: a barrier holds it, or no related neighbours are split by the move. */
  predicate HeadMayGo(s: State)
    requires s.queue != []
  {
    s.boundary.Some? || Unsplit(s.queue, 1, s.endSector, EndOf(s.queue[0]))
  }

  /** Taking the head keeps the list good exactly then. */
  lemma StartGood(s: State)
    requires Good(s) && s.queue != []
    ensures Good(Start(s)) <==> HeadMayGo(s)
  {
    hide Ordered, Unsplit;
    var s' := Start(s);
    assert UniqueIds(s'.queue);
    if s.boundary.None? {
      HeadMove(s.queue, s.endSector);
    } else {
      var p: nat :| BoundaryAt(s, p);
      OrderedTail(s.queue, p, s.endSector);
      if p > 0 {
        assert BoundaryAt(s', p - 1);
      }
    }
  }

  class DispatchQueue {
    var queue: seq<Rq>
    var endSector: nat
    var boundary: Option<nat>

    ghost function View(): (s: State)
      reads this
    {
      State(queue, endSector, boundary)
    }

    constructor ()
      ensures View() == State([], 0, None) && Good(View())
    {
      queue, endSector, boundary := [], 0, None;
    }

    /** The walk of elv_dispatch_sort from the tail of the list. */
    method Walk(rq: Rq) returns (i: nat)
      ensures i == Place(queue, rq, endSector)
    {
      hide Place;
      i := |queue|;
      while i > 0
        invariant i <= |queue| && forall j :: i <= j < |queue| ==> !Halts(endSector, rq, queue[j])
      {
        var pos := queue[i - 1];
        if rq.discard != pos.discard || rq.write != pos.write || pos.stop {
          break;
        }
        if rq.pos >= endSector {
          if pos.pos < endSector {
            i := i - 1;
            continue;
          }
        } else if pos.pos >= endSector {
          break;
        }
        if rq.pos >= pos.pos {
          break;
        }
        i := i - 1;
      }
      PlaceIsOnly(queue, rq, endSector, i);
    }

    method DispatchSort(rq: Rq)
      modifies `queue
      ensures View() == old(Sort(View(), rq))
      ensures old(Good(View()) && Fresh(View(), rq)) && !rq.stop ==> Good(View())
    {
      hide Good, Fresh, Place;
      if Good(View()) && Fresh(View(), rq) && !rq.stop {
        SortGood(View(), rq);
      }
      var i := Walk(rq);
      queue := InsertedAt(queue, rq, i);
    }

    /** elv_drain_elevator hands over what the scheduler holds, then the request is added. */
    method InsertBack(held: seq<Rq>, rq: Rq, isBoundary: bool)
      requires Good(View()) && Handover(View(), held) && Fresh(View(), rq) && forall k :: 0 <= k < |held| ==> held[k].id != rq.id
      modifies this
      ensures View() == old(Back(View(), held, rq, isBoundary)) && Good(View())
    {
      hide Good, Fresh, Handover, Sort;
      BackGood(View(), held, rq, isBoundary);
      if isBoundary {
        endSector, boundary := EndOf(rq), Some(rq.id);
      }
      ghost var announced := View();
      var i := 0;
      while i < |held|
        invariant i <= |held| && SortAll(View(), held[i..]) == SortAll(announced, held)
      {
        assert held[i..][0] == held[i] && held[i..][1..] == held[i + 1..];
        DispatchSort(held[i]);
        i := i + 1;
      }
      queue := queue + [rq.(stop := true)];
    }

    /** blk_fetch_request: the list that remains is good exactly when the head may go. */
    method FetchRequest() returns (rq: Option<Rq>)
      modifies this
      ensures old(queue) == [] ==> rq.None? && View() == old(View())
      ensures old(queue) != [] ==> rq == Some(old(queue)[0].(stop := true)) && View() == old(Start(View()))
      ensures old(queue != [] && Good(View())) ==> (Good(View()) <==> old(HeadMayGo(View())))
    {
      hide Good, HeadMayGo;
      if queue == [] {
        return None;
      }
      if Good(View()) {
        StartGood(View());
      }
      rq := Some(queue[0].(stop := true));
      if boundary.None? || boundary == Some(queue[0].id) {
        endSector, boundary := EndOf(queue[0]), None;
      }
      queue := queue[1..];
    }
  }
}
