/**
 How long a request can wait: whatever else is added, merged or evicted
 meanwhile, an expired request is dispatched within a number of calls of
 deadline_dispatch_requests that its place in the fifo determines.
 */
module DeadlineBound {
  import opened IdLists
  import opened Directions
  import opened Deadline
  import opened Arith

  // --------------------------------------------------------------- all runs

  datatype Op =
    | Add(rq: nat, dir: Dir, pos: nat, sectors: nat)
    | FrontMerge(rq: nat, pos: nat, sectors: nat)
    | MergeNext(rq: nat, absorbed: nat)
    | DispatchCall

  predicate Enabled(s: State, op: Op) {
    match op
    case Add(r, _, _, _) => r !in s.rqs && r !in s.dispatched
    case FrontMerge(r, _, _) => r in s.rqs
    case MergeNext(r, n) => r in s.rqs && n in s.rqs && r != n && s.rqs[r].dir == s.rqs[n].dir
    case DispatchCall => true
  }

  ghost function Step(s: State, tun: Tunables, op: Op, now: nat): (t: State)
    requires Inv(s, tun) && s.clock <= now && Enabled(s, op)
    ensures Inv(t, tun) && t.clock == now
  {
    TickInv(s, tun, now);
    var u := s.(clock := now);
    match op
    case Add(r, d, pos, sectors) =>
      AddInv(u, tun, r, Rq(d, pos, sectors, now + tun.Expire(d)));
      AddRequest(u, r, Rq(d, pos, sectors, now + tun.Expire(d)))
    case FrontMerge(r, pos, sectors) => MergedRequestInv(u, tun, r, pos, sectors); MergedRequest(u, r, pos, sectors)
    case MergeNext(r, n) => MergedRequestsInv(u, tun, r, n); MergedRequests(u, r, n)
    case DispatchCall => DispatchInv(u, tun, now); Dispatch(u, tun, now)
  }

  /** Operations with their times, each possible when its turn comes. */
  ghost predicate Legal(s: State, tun: Tunables, ops: seq<(Op, nat)>)
    requires Inv(s, tun)
    decreases |ops|
  {
    ops != [] ==>
      && s.clock <= ops[0].1 && Enabled(s, ops[0].0)
      && Legal(Step(s, tun, ops[0].0, ops[0].1), tun, ops[1..])
  }

  ghost function Run(s: State, tun: Tunables, ops: seq<(Op, nat)>): (t: State)
    requires Inv(s, tun) && Legal(s, tun, ops)
    ensures Inv(t, tun)
    decreases |ops|
  {
    if ops == [] then s else Run(Step(s, tun, ops[0].0, ops[0].1), tun, ops[1..])
  }

  function Calls(ops: seq<(Op, nat)>): (n: nat) {
    if ops == [] then 0 else (if ops[0].0 == DispatchCall then 1 else 0) + Calls(ops[1..])
  }

  /** Request w itself is not absorbed by another one. */
  predicate Spares(ops: seq<(Op, nat)>, w: nat) {
    forall i :: 0 <= i < |ops| ==> !(ops[i].0.MergeNext? && ops[i].0.absorbed == w)
  }

  // ------------------------------------------------------------------- debt

  /** Calls that one place in the fifo can cost. */
  function Round(tun: Tunables, d: Dir): (n: nat) {
    if d == Write then (tun.writesStarved + 1) * tun.Batch() else 2 * tun.Batch()
  }

  /** Calls until the direction is chosen for a batch. */
  function Turn(s: State, tun: Tunables, d: Dir): (n: nat)
    requires s.starved <= tun.writesStarved
  {
    if d == Write then (tun.writesStarved - s.starved) * tun.Batch()
    else if s.starved >= tun.writesStarved then tun.Batch() else 0
  }

  function BatchLeft(s: State, tun: Tunables): (n: nat) {
    if s.batching < tun.Batch() then tun.Batch() - s.batching else 0
  }

  /** An upper bound on the calls before w is dispatched. */
  ghost function Debt(s: State, tun: Tunables, w: nat): (n: nat)
    requires Inv(s, tun) && w in s.rqs
  {
    OnBothIndexes(s, tun, {}, w);
    var d := s.rqs[w].dir;
    Index(s.At(d).fifo, w) * Round(tun, d) + Turn(s, tun, d) + BatchLeft(s, tun)
  }

  /** w still waits, no further back and with no later deadline, or has been dispatched. */
  ghost predicate NoFurther(s: State, t: State, tun: Tunables, w: nat)
    requires Inv(s, tun) && Inv(t, tun) && w in s.rqs
  {
    w in t.dispatched ||
    (&& w in t.rqs && t.rqs[w].dir == s.rqs[w].dir && t.rqs[w].expires <= s.rqs[w].expires
     && w in s.At(s.rqs[w].dir).fifo && w in t.At(s.rqs[w].dir).fifo
     && Index(t.At(s.rqs[w].dir).fifo, w) <= Index(s.At(s.rqs[w].dir).fifo, w)
     && t.starved == s.starved && t.batching == s.batching)
  }

  lemma NoFurtherDebt(s: State, t: State, tun: Tunables, w: nat)
    requires Inv(s, tun) && Inv(t, tun) && w in s.rqs && NoFurther(s, t, tun, w) && w !in t.dispatched
    ensures w in t.rqs && Debt(t, tun, w) <= Debt(s, tun, w)
  {
    var d := s.rqs[w].dir;
    MulMono(Round(tun, d), Index(t.At(d).fifo, w), Index(s.At(d).fifo, w));
  }

  /** Taking a request out leaves w where it was or brings it forward. */
  lemma MoveFifo(s: State, tun: Tunables, off: set<nat>, r: nat, w: nat)
    requires Held(s, tun, off) && r in s.rqs && r !in off && w in s.rqs
    ensures var t, d := MoveRequest(s, r), s.rqs[w].dir;
            && w in s.At(d).fifo
            && (w == r ==> w in t.dispatched)
            && (w != r ==> && w in t.rqs && t.rqs[w] == s.rqs[w] && w in t.At(d).fifo
                           && Index(t.At(d).fifo, w) <= Index(s.At(d).fifo, w)
                           && (r == s.At(d).fifo[0] ==> Index(t.At(d).fifo, w) == Index(s.At(d).fifo, w) - 1))
            && t.starved == s.starved && t.batching == s.batching
  {
    hide LaneOk, NextOn, Remove;
    OnBothIndexes(s, tun, off, w);
    OnBothIndexes(s, tun, off, r);
    var d := s.rqs[w].dir;
    FifoNoDup(s, tun, off, d);
    if w != r {
      IndexAfterRemove(s.At(d).fifo, r, w);
    }
  }

  lemma FifoNoDup(s: State, tun: Tunables, off: set<nat>, d: Dir)
    requires Held(s, tun, off)
    ensures NoDup(s.At(d).fifo) && (forall x :: x in s.At(d).fifo ==> x in s.rqs && s.rqs[x].dir == d)
    ensures OrderedByExpiry(s.At(d).fifo, s.rqs)
  {
  }

  lemma EvictFifo(s: State, tun: Tunables, off: set<nat>, d: Dir, pos: nat, w: nat)
    requires Held(s, tun, off) && w in s.rqs
    ensures Closed(s) && w in s.At(s.rqs[w].dir).fifo
    ensures var t, e := Evict(s, d, pos), s.rqs[w].dir;
            && (w in t.dispatched ||
                (&& w in t.rqs && t.rqs[w] == s.rqs[w] && w in t.At(e).fifo
                 && Index(t.At(e).fifo, w) <= Index(s.At(e).fifo, w)))
            && t.starved == s.starved && t.batching == s.batching
  {
    hide LaneOk, MoveRequest;
    HeldCloses(s, tun, off);
    OnBothIndexes(s, tun, off, w);
    var alias := AliasOf(s.At(d).sort, s.rqs, pos);
    if alias.Some? {
      AliasOnTree(s, tun, off, d, alias.value);
      MoveFifo(s, tun, off, alias.value, w);
    }
  }

  lemma AddNoFurther(s: State, tun: Tunables, r: nat, rq: Rq, w: nat)
    requires Inv(s, tun) && r !in s.rqs && r !in s.dispatched && rq.expires == s.clock + tun.Expire(rq.dir) && w in s.rqs
    ensures Closed(s) && Inv(AddRequest(s, r, rq), tun) && NoFurther(s, AddRequest(s, r, rq), tun, w)
  {
    hide LaneOk, Evict, Insert;
    AddInv(s, tun, r, rq);
    EvictFifo(s, tun, {}, rq.dir, rq.pos, w);
    EvictDispatches(s, rq.dir, rq.pos);
    var u := Evict(s, rq.dir, rq.pos);
    if w in u.rqs {
      IndexAppend(u.At(s.rqs[w].dir).fifo, [r], w);
    }
  }

  lemma FrontMergeNoFurther(s: State, tun: Tunables, r: nat, pos: nat, sectors: nat, w: nat)
    requires Inv(s, tun) && r in s.rqs && w in s.rqs
    ensures Closed(s) && Inv(MergedRequest(s, r, pos, sectors), tun)
    ensures NoFurther(s, MergedRequest(s, r, pos, sectors), tun, w)
  {
    hide LaneOk, Evict, Insert, Remove;
    MergedRequestInv(s, tun, r, pos, sectors);
    UnsortHeld(s, tun, r, pos, sectors);
    var v := Unsorted(s, r, pos, sectors);
    EvictFifo(v, tun, {r}, s.rqs[r].dir, pos, w);
  }

  lemma MergeNoFurther(s: State, tun: Tunables, r: nat, n: nat, w: nat)
    requires Inv(s, tun) && r in s.rqs && n in s.rqs && r != n && s.rqs[r].dir == s.rqs[n].dir && w in s.rqs && w != n
    ensures n in s.At(s.rqs[n].dir).fifo && Inv(MergedRequests(s, r, n), tun)
    ensures NoFurther(s, MergedRequests(s, r, n), tun, w)
  {
    hide Held, Remove, TakePlace, NoDup, OrderedByExpiry, MergedRequests;
    MergedRequestsInv(s, tun, r, n);
    OnBothIndexes(s, tun, {}, r);
    OnBothIndexes(s, tun, {}, n);
    OnBothIndexes(s, tun, {}, w);
    FifoNoDup(s, tun, {}, s.rqs[w].dir);
    AfterMerge(s, r, n, w);
    var fifo := s.At(s.rqs[w].dir).fifo;
    if s.rqs[w].dir == s.rqs[r].dir {
      if s.rqs[n].expires < s.rqs[r].expires {
        TakePlaceIndex(fifo, s.rqs, r, n, w);
      } else {
        IndexAfterRemove(fifo, n, w);
      }
    }
  }

  lemma AfterMerge(s: State, r: nat, n: nat, w: nat)
    requires r in s.rqs && n in s.rqs && r != n && s.rqs[r].dir == s.rqs[n].dir && w in s.rqs && w != n
    requires n in s.At(s.rqs[n].dir).fifo
    ensures var t, d := MergedRequests(s, r, n), s.rqs[w].dir;
            && w in t.rqs && t.rqs[w].dir == d && t.rqs[w].expires <= s.rqs[w].expires
            && t.starved == s.starved && t.batching == s.batching
            && t.At(d).fifo == if d != s.rqs[r].dir then s.At(d).fifo
                               else if s.rqs[n].expires < s.rqs[r].expires then TakePlace(s.At(d).fifo, r, n)
                               else Remove(s.At(d).fifo, n)
  {
    hide Remove, TakePlace, NextOn;
  }

  lemma TakePlaceIndex(fifo: seq<nat>, rqs: map<nat, Rq>, r: nat, n: nat, w: nat)
    requires NoDup(fifo) && r in fifo && n in fifo && r != n && w in fifo && w != n
    requires (forall x :: x in fifo ==> x in rqs) && OrderedByExpiry(fifo, rqs) && rqs[n].expires < rqs[r].expires
    ensures w in TakePlace(fifo, r, n) && Index(TakePlace(fifo, r, n), w) <= Index(fifo, w)
  {
    hide Remove;
    TakePlaceOk(fifo, rqs, r, n, rqs[r].(expires := rqs[n].expires));
    RemoveKeepsNoDup(fifo, r);
    IndexAfterRemove(fifo, r, n);
    var rest := Remove(fifo, r);
    var i, p := Index(rest, n), TakePlace(fifo, r, n);
    assert Index(fifo, n) < Index(fifo, r);
    if w == r {
      assert p[i] == r;
      FirstIndex(p, r, i);
    } else {
      IndexAfterRemove(fifo, r, w);
      assert p[Index(rest, w)] == w;
      FirstIndex(p, w, Index(rest, w));
    }
  }

  lemma FirstIndex(q: seq<nat>, x: nat, i: nat)
    requires i < |q| && q[i] == x
    ensures x in q && Index(q, x) <= i
  {
  }

  // -------------------------------------------------------------- one call

  /** A new batch in the direction of an expired request starts with the oldest one. */
  lemma ExpiredHeadFirst(s: State, tun: Tunables, now: nat, w: nat)
    requires Inv(s, tun) && w in s.rqs && now > s.rqs[w].expires
    ensures var d := s.rqs[w].dir;
            && s.At(d).fifo != [] && s.At(d).fifo[0] in s.rqs
            && FirstOfBatch(s, d, now) == s.At(d).fifo[0]
  {
    hide LaneOk;
    OnBothIndexes(s, tun, {}, w);
    var d := s.rqs[w].dir;
    FifoNoDup(s, tun, {}, d);
    assert s.At(d).fifo[Index(s.At(d).fifo, w)] == w;
    assert s.rqs[s.At(d).fifo[0]].expires <= s.rqs[w].expires;
  }

  /** A call that dispatches in the direction of w, from the head of its fifo. */
  lemma OwnTurn(i: nat, round: nat, turn': nat, left': nat, turn: nat, left: nat)
    requires i > 0 && turn' + left' + 1 <= round
    ensures (i - 1) * round + turn' + left' < i * round + turn + left
  {
    assert i * round == (i - 1) * round + round;
  }

  lemma ChoiceCost(s: State, tun: Tunables, now: nat, w: nat, p: Pick)
    requires Inv(s, tun) && w in s.rqs && now > s.rqs[w].expires
    requires s.rqs[w].dir == Write || tun.writesStarved >= 1
    requires forall d :: s.At(d).fifo != [] ==> s.At(d).fifo[0] in s.rqs
    requires Choose(s, tun, now) == Some(p) && p.starved <= tun.writesStarved
    ensures var d := s.rqs[w].dir; var u := s.(batching := p.batching, starved := p.starved);
            || Turn(u, tun, d) + BatchLeft(u, tun) < Turn(s, tun, d) + BatchLeft(s, tun)
            || (p.rq == s.At(d).fifo[0] && Turn(u, tun, d) + BatchLeft(u, tun) + 1 <= Round(tun, d))
  {
    hide LaneOk;
    ExpiredHeadFirst(s, tun, now, w);
    var b, ws := tun.Batch(), tun.writesStarved;
    var u := s.(batching := p.batching, starved := p.starved);
    assert (ws - s.starved) * b == (ws - s.starved - 1) * b + b;
    assert (ws + 1) * b == ws * b + b;
    MulMono(b, 0, ws - s.starved);
  }

  lemma DispatchDebt(s: State, tun: Tunables, now: nat, w: nat)
    requires Inv(s, tun) && w in s.rqs && now > s.rqs[w].expires
    requires s.rqs[w].dir == Write || tun.writesStarved >= 1
    ensures forall d :: s.At(d).fifo != [] ==> s.At(d).fifo[0] in s.rqs
    ensures forall p :: Choose(s, tun, now) == Some(p) ==> p.rq in s.rqs
    ensures var t := Dispatch(s, tun, now);
            && Inv(t, tun)
            && (w in t.dispatched ||
                (w in t.rqs && t.rqs[w] == s.rqs[w] && Debt(t, tun, w) < Debt(s, tun, w)))
  {
    hide Held, Choose, Turn, BatchLeft, Round, MoveRequest;
    DispatchInv(s, tun, now);
    ChooseOk(s, tun, now);
    var p := Choose(s, tun, now).value;
    ChoiceCost(s, tun, now, w, p);
    var u := s.(batching := p.batching, starved := p.starved);
    PickedHeld(s, tun, p);
    MoveFifo(u, tun, {}, p.rq, w);
    if w != p.rq {
      MovedDebt(s, u, MoveRequest(u, p.rq), tun, p.rq, w);
    }
  }

  lemma PickedHeld(s: State, tun: Tunables, p: Pick)
    requires Inv(s, tun) && p.starved <= tun.writesStarved
    ensures Held(s.(batching := p.batching, starved := p.starved), tun, {})
    ensures s.starved <= tun.writesStarved
  {
  }

  lemma MovedDebt(s: State, u: State, t: State, tun: Tunables, r: nat, w: nat)
    requires Inv(s, tun) && Inv(t, tun) && w in s.rqs && w in t.rqs && t.rqs[w] == s.rqs[w]
    requires s.starved <= tun.writesStarved && t.starved == u.starved <= tun.writesStarved && t.batching == u.batching
    requires var d := s.rqs[w].dir;
             && w in s.At(d).fifo && w in t.At(d).fifo
             && Index(t.At(d).fifo, w) <= Index(s.At(d).fifo, w)
             && (r == s.At(d).fifo[0] ==> Index(t.At(d).fifo, w) == Index(s.At(d).fifo, w) - 1)
             && (|| Turn(u, tun, d) + BatchLeft(u, tun) < Turn(s, tun, d) + BatchLeft(s, tun)
                 || (r == s.At(d).fifo[0] && Turn(u, tun, d) + BatchLeft(u, tun) + 1 <= Round(tun, d)))
    ensures Debt(t, tun, w) < Debt(s, tun, w)
  {
    hide Held;
    var d := s.rqs[w].dir;
    var i, j := Index(s.At(d).fifo, w), Index(t.At(d).fifo, w);
    if Turn(u, tun, d) + BatchLeft(u, tun) < Turn(s, tun, d) + BatchLeft(s, tun) {
      MulMono(Round(tun, d), j, i);
    } else {
      OwnTurn(i, Round(tun, d), Turn(u, tun, d), BatchLeft(u, tun), Turn(s, tun, d), BatchLeft(s, tun));
    }
  }

  // ---------------------------------------------------------------- the bound

  lemma StepDebt(s: State, tun: Tunables, op: Op, now: nat, w: nat)
    requires Inv(s, tun) && s.clock <= now && Enabled(s, op)
    requires w in s.rqs && s.rqs[w].expires < s.clock && !(op.MergeNext? && op.absorbed == w)
    requires s.rqs[w].dir == Write || tun.writesStarved >= 1
    ensures var t := Step(s, tun, op, now);
            || w in t.dispatched
            || (&& w in t.rqs && t.rqs[w].dir == s.rqs[w].dir && t.rqs[w].expires < t.clock
                && Debt(t, tun, w) + (if op == DispatchCall then 1 else 0) <= Debt(s, tun, w))
  {
    hide Held, AddRequest, MergedRequest, MergedRequests, Dispatch;
    TickInv(s, tun, now);
    var u := s.(clock := now);
    assert Debt(u, tun, w) == Debt(s, tun, w);
    var t := Step(s, tun, op, now);
    match op {
      case Add(r, d, pos, sectors) => AddNoFurther(u, tun, r, Rq(d, pos, sectors, now + tun.Expire(d)), w);
      case FrontMerge(r, pos, sectors) => FrontMergeNoFurther(u, tun, r, pos, sectors, w);
      case MergeNext(r, n) => MergeNoFurther(u, tun, r, n, w);
      case DispatchCall => DispatchDebt(u, tun, now, w);
    }
    if op != DispatchCall && w !in t.dispatched {
      NoFurtherDebt(u, t, tun, w);
    }
  }

  lemma DispatchedStays(s: State, tun: Tunables, op: Op, now: nat, w: nat)
    requires Inv(s, tun) && s.clock <= now && Enabled(s, op) && w in s.dispatched
    ensures w in Step(s, tun, op, now).dispatched
  {
  }

  lemma {:induction false} RunDispatchedStays(s: State, tun: Tunables, ops: seq<(Op, nat)>, w: nat)
    requires Inv(s, tun) && Legal(s, tun, ops) && w in s.dispatched
    ensures w in Run(s, tun, ops).dispatched
    decreases |ops|
  {
    if ops != [] {
      DispatchedStays(s, tun, ops[0].0, ops[0].1, w);
      RunDispatchedStays(Step(s, tun, ops[0].0, ops[0].1), tun, ops[1..], w);
    }
  }

  lemma {:induction false} RunPaysDebt(s: State, tun: Tunables, ops: seq<(Op, nat)>, w: nat)
    requires Inv(s, tun) && Legal(s, tun, ops) && Spares(ops, w)
    requires w in s.rqs && s.rqs[w].expires < s.clock
    requires s.rqs[w].dir == Write || tun.writesStarved >= 1
    requires Calls(ops) > Debt(s, tun, w)
    ensures w in Run(s, tun, ops).dispatched
    decreases |ops|
  {
    hide Held, Step, Debt;
    if ops != [] {
      var (op, now) := ops[0];
      StepDebt(s, tun, op, now, w);
      var t := Step(s, tun, op, now);
      if w in t.dispatched {
        RunDispatchedStays(t, tun, ops[1..], w);
      } else {
        RunPaysDebt(t, tun, ops[1..], w);
      }
    }
  }

  /** The number of calls within which the request at index i of its fifo is served. */
  function Bound(tun: Tunables, d: Dir, i: nat): (n: nat) {
    (i + 1) * Round(tun, d) + 1
  }

  /**
   The service bound.  An expired request at index i of its fifo is dispatched
   within (i + 1) * (writes_starved + 1) * fifo_batch + 1 calls if it is a write,
   and within (i + 1) * 2 * fifo_batch + 1 calls if it is a read and writes may be
   starved at least once, for every interleaving of other operations.
   */
  lemma ServiceBound(s: State, tun: Tunables, ops: seq<(Op, nat)>, w: nat)
    requires Inv(s, tun) && Legal(s, tun, ops) && Spares(ops, w)
    requires w in s.rqs && s.rqs[w].expires < s.clock
    requires s.rqs[w].dir == Write || tun.writesStarved >= 1
    requires w in s.At(s.rqs[w].dir).fifo
    requires Calls(ops) >= Bound(tun, s.rqs[w].dir, Index(s.At(s.rqs[w].dir).fifo, w))
    ensures w in Run(s, tun, ops).dispatched
  {
    hide Held, Run;
    DebtBound(s, tun, w);
    RunPaysDebt(s, tun, ops, w);
  }

  lemma DebtBound(s: State, tun: Tunables, w: nat)
    requires Inv(s, tun) && w in s.rqs && w in s.At(s.rqs[w].dir).fifo
    ensures Debt(s, tun, w) < Bound(tun, s.rqs[w].dir, Index(s.At(s.rqs[w].dir).fifo, w))
  {
    hide LaneOk, Round, Turn, BatchLeft, Index;
    var d := s.rqs[w].dir;
    TurnFits(s, tun, d);
    PlaceCost(Index(s.At(d).fifo, w), Round(tun, d), Turn(s, tun, d) + BatchLeft(s, tun));
  }

  lemma PlaceCost(i: nat, round: nat, rest: nat)
    requires rest <= round
    ensures i * round + rest < (i + 1) * round + 1
  {
  }

  /** The rest of the batch and the wait for the direction's turn take no longer than one place in the fifo. */
  lemma TurnFits(s: State, tun: Tunables, d: Dir)
    requires s.starved <= tun.writesStarved
    ensures Turn(s, tun, d) + BatchLeft(s, tun) <= Round(tun, d)
  {
    TurnBound(s.starved, tun.writesStarved, tun.Batch());
  }

  lemma TurnBound(starved: nat, ws: nat, b: nat)
    requires starved <= ws
    ensures (ws - starved) * b + b <= (ws + 1) * b
  {
    MulMono(b, ws - starved, ws);
    assert (ws + 1) * b == ws * b + b;
  }

  // ------------------------------------- without patience reads can starve

  lemma {:induction false} FreshId(used: set<nat>) returns (r: nat)
    ensures r !in used && forall x :: x in used ==> x < r
  {
    if used == {} {
      r := 0;
    } else {
      var x :| x in used;
      var r' := FreshId(used - {x});
      r := if x < r' then r' else x + 1;
      assert forall y :: y in used ==> y == x || y in used - {x};
    }
  }

  /** One write arrives and one call is made: the call serves a write. */
  lemma WriteOvertakes(s: State, tun: Tunables, w: nat, r: nat)
    requires Inv(s, tun) && tun.writesStarved == 0 && r !in s.rqs && r !in s.dispatched
    requires w in s.rqs && s.rqs[w].dir == Read && s.read.next == None
    ensures var t := Step(s, tun, Add(r, Write, 0, 1), s.clock);
            var u := Step(t, tun, DispatchCall, s.clock);
            && w in u.rqs && u.rqs[w].dir == Read && u.read.next == None && u.clock == s.clock
  {
    hide Held, Remove, NextOn;
    AddedWrite(s, tun, w, r);
    ServedWrite(Step(s, tun, Add(r, Write, 0, 1), s.clock), tun, w);
  }

  lemma AddedWrite(s: State, tun: Tunables, w: nat, r: nat)
    requires Inv(s, tun) && r !in s.rqs && r !in s.dispatched
    requires w in s.rqs && s.rqs[w].dir == Read && s.read.next == None
    ensures var t := Step(s, tun, Add(r, Write, 0, 1), s.clock);
            && w in t.rqs && t.rqs[w].dir == Read && t.read.next == None && t.write.fifo != []
  {
    hide Held, Evict, Insert;
    EvictKeepsReads(s, tun, w);
    assert s.(clock := s.clock) == s;
  }

  lemma ServedWrite(s: State, tun: Tunables, w: nat)
    requires Inv(s, tun) && tun.writesStarved == 0 && s.write.fifo != []
    requires w in s.rqs && s.rqs[w].dir == Read && s.read.next == None
    ensures var u := Step(s, tun, DispatchCall, s.clock);
            w in u.rqs && u.rqs[w].dir == Read && u.read.next == None
  {
    hide Held, Choose, Drop;
    ChooseOk(s, tun, s.clock);
    WritePicked(s, tun, w);
    assert s.(clock := s.clock) == s;
  }

  lemma EvictKeepsReads(s: State, tun: Tunables, w: nat)
    requires Inv(s, tun) && w in s.rqs && s.rqs[w].dir == Read && s.read.next == None
    ensures Closed(s) && w in Evict(s, Write, 0).rqs && Evict(s, Write, 0).rqs[w] == s.rqs[w]
    ensures Evict(s, Write, 0).read.next == None
  {
    hide LaneOk, Remove, NextOn;
    HeldCloses(s, tun, {});
    var alias := AliasOf(s.write.sort, s.rqs, 0);
    if alias.Some? {
      AliasOnTree(s, tun, {}, Write, alias.value);
    }
  }

  lemma WritePicked(s: State, tun: Tunables, w: nat)
    requires Inv(s, tun) && tun.writesStarved == 0 && s.write.fifo != []
    requires w in s.rqs && s.rqs[w].dir == Read && s.read.next == None
    requires forall d :: s.At(d).fifo != [] ==> s.At(d).fifo[0] in s.rqs
    ensures Choose(s, tun, s.clock).Some?
    ensures var p := Choose(s, tun, s.clock).value; p.rq in s.rqs && s.rqs[p.rq].dir == Write
  {
    hide Remove, NextOn;
    OnBothIndexes(s, tun, {}, w);
    assert s.write.fifo[0] in s.write.fifo;
  }

  /**
   With writes_starved set to 0 there is no bound for reads: for any number of
   calls there is a run in which a waiting read is not dispatched.
   */
  lemma {:induction false} ReadsCanStarve(s: State, tun: Tunables, w: nat, n: nat) returns (ops: seq<(Op, nat)>)
    requires Inv(s, tun) && tun.writesStarved == 0
    requires w in s.rqs && s.rqs[w].dir == Read && s.read.next == None
    ensures Legal(s, tun, ops) && Spares(ops, w) && Calls(ops) == n && w in Run(s, tun, ops).rqs
    decreases n
  {
    hide Held, Step;
    if n == 0 {
      ops := [];
    } else {
      var r := FreshId(s.rqs.Keys + (set x | x in s.dispatched));
      assert r !in s.rqs && r !in s.dispatched;
      WriteOvertakes(s, tun, w, r);
      var add, call := (Add(r, Write, 0, 1), s.clock), (DispatchCall, s.clock);
      var t := Step(s, tun, add.0, add.1);
      var u := Step(t, tun, call.0, call.1);
      var rest := ReadsCanStarve(u, tun, w, n - 1);
      ops := [add, call] + rest;
      assert ops[1..] == [call] + rest && ops[1..][1..] == rest;
      assert Legal(t, tun, ops[1..]) && Run(t, tun, ops[1..]) == Run(u, tun, rest);
    }
  }
}
