/**
 The service bound when requests are merged into one another: the data of an
 expired request is dispatched in time, by whichever request carries it then.
 */
module DeadlineCarrier {
  import opened IdLists
  import opened Directions
  import opened Arith
  import opened Deadline
  import opened DeadlineBound

  /** The requests of a direction whose time has come by e. */
  function DueBy(s: State, d: Dir, e: nat): (due: set<nat>) {
    set r | r in s.rqs && s.rqs[r].dir == d && s.rqs[r].expires <= e
  }

  /** An upper bound on the calls before all of them are dispatched. */
  function DueDebt(s: State, tun: Tunables, d: Dir, e: nat): (n: int)
    requires s.starved <= tun.writesStarved
  {
    (|DueBy(s, d, e)| - 1) * Round(tun, d) + Turn(s, tun, d) + BatchLeft(s, tun)
  }

  lemma SubsetSize(a: set<nat>, b: set<nat>)
    requires a <= b
    ensures |a| <= |b|
  {
    assert b == a + (b - a) && a !! (b - a);
  }

  /** Moving requests out and giving none of the rest an earlier time adds nothing to what is due. */
  lemma FewerDue(s: State, t: State, d: Dir, e: nat)
    requires forall x :: x in t.rqs && t.rqs[x].expires <= e ==> x in s.rqs && s.rqs[x].dir == t.rqs[x].dir && s.rqs[x].expires <= t.rqs[x].expires
    ensures DueBy(t, d, e) <= DueBy(s, d, e) && |DueBy(t, d, e)| <= |DueBy(s, d, e)|
  {
    SubsetSize(DueBy(t, d, e), DueBy(s, d, e));
  }

  lemma AddDue(s: State, tun: Tunables, r: nat, rq: Rq, d: Dir, e: nat)
    requires Inv(s, tun) && r !in s.rqs && r !in s.dispatched && rq.expires == s.clock + tun.Expire(rq.dir) && e < s.clock
    ensures Closed(s) && |DueBy(AddRequest(s, r, rq), d, e)| <= |DueBy(s, d, e)|
    ensures AddRequest(s, r, rq).starved == s.starved && AddRequest(s, r, rq).batching == s.batching
  {
    hide LaneOk, Evict, Insert;
    EvictHeld(s, tun, {}, rq.dir, rq.pos);
    EvictDispatches(s, rq.dir, rq.pos);
    FewerDue(s, AddRequest(s, r, rq), d, e);
  }

  lemma FrontMergeDue(s: State, tun: Tunables, r: nat, pos: nat, sectors: nat, d: Dir, e: nat)
    requires Inv(s, tun) && r in s.rqs
    ensures Closed(s) && |DueBy(MergedRequest(s, r, pos, sectors), d, e)| <= |DueBy(s, d, e)|
    ensures MergedRequest(s, r, pos, sectors).starved == s.starved && MergedRequest(s, r, pos, sectors).batching == s.batching
  {
    hide LaneOk, Evict, Insert, Remove;
    HeldCloses(s, tun, {});
    UnsortHeld(s, tun, r, pos, sectors);
    var v := Unsorted(s, r, pos, sectors);
    EvictHeld(v, tun, {r}, s.rqs[r].dir, pos);
    HeldCloses(v, tun, {r});
    EvictDispatches(v, s.rqs[r].dir, pos);
    FewerDue(s, MergedRequest(s, r, pos, sectors), d, e);
  }

  /** A request that absorbs a due one becomes due in its place. */
  lemma MergeDue(s: State, r: nat, n: nat, d: Dir, e: nat)
    requires r in s.rqs && n in s.rqs && r != n && s.rqs[r].dir == s.rqs[n].dir && n in s.At(s.rqs[n].dir).fifo
    ensures var t := MergedRequests(s, r, n);
            && |DueBy(t, d, e)| <= |DueBy(s, d, e)| && t.starved == s.starved && t.batching == s.batching
            && (n in DueBy(s, d, e) ==> r in DueBy(t, d, e))
  {
    hide DueBy;
    var t, due := MergedRequests(s, r, n), DueBy(s, d, e);
    assert t.starved == s.starved && t.batching == s.batching by { hide TakePlace, Absorb, Remove; }
    MergeDueSet(s, r, n, d, e);
    hide MergedRequests;
    if n in due && r !in due {
      assert |due - {n}| == |due| - 1 && |(due - {n}) + {r}| == |due|;
    } else {
      SubsetSize(DueBy(t, d, e), due);
    }
  }

  lemma MergeDueSet(s: State, r: nat, n: nat, d: Dir, e: nat)
    requires r in s.rqs && n in s.rqs && r != n && s.rqs[r].dir == s.rqs[n].dir && n in s.At(s.rqs[n].dir).fifo
    ensures var t, due := MergedRequests(s, r, n), DueBy(s, d, e);
            && (n in due && r !in due ==> DueBy(t, d, e) == (due - {n}) + {r})
            && (!(n in due && r !in due) ==> DueBy(t, d, e) <= due)
            && (n in due ==> r in DueBy(t, d, e))
  {
    hide Remove, TakePlace, Absorb;
  }

  /** A call dispatches a due request, or brings the turn of the direction nearer. */
  lemma DispatchDue(s: State, tun: Tunables, now: nat, d: Dir, e: nat)
    requires Inv(s, tun) && DueBy(s, d, e) != {} && e < now && (d == Write || tun.writesStarved >= 1)
    ensures forall d :: s.At(d).fifo != [] ==> s.At(d).fifo[0] in s.rqs
    ensures forall p :: Choose(s, tun, now) == Some(p) ==> p.rq in s.rqs
    ensures var t := Dispatch(s, tun, now);
            && Inv(t, tun) && s.starved <= tun.writesStarved && t.starved <= tun.writesStarved
            && (DueBy(t, d, e) == {} || DueDebt(t, tun, d, e) < DueDebt(s, tun, d, e))
  {
    hide Held, Choose, Turn, BatchLeft, Round, MoveRequest, DueDebt;
    DispatchInv(s, tun, now);
    ChooseOk(s, tun, now);
    var w :| w in DueBy(s, d, e);
    var p := Choose(s, tun, now).value;
    ChoiceCost(s, tun, now, w, p);
    var u := s.(batching := p.batching, starved := p.starved);
    PickedHeld(s, tun, p);
    HeadIsDue(s, tun, d, e, w);
    MoveLeaves(u, p.rq);
    var t := MoveRequest(u, p.rq);
    MovedCounters(u, p.rq);
    SameTurn(u, t, tun, d);
    assert DueBy(t, d, e) == DueBy(s, d, e) - {p.rq};
    DueMoved(s, t, tun, d, e, p.rq);
  }

  lemma MovedCounters(s: State, r: nat)
    requires r in s.rqs
    ensures MoveRequest(s, r).starved == s.starved && MoveRequest(s, r).batching == s.batching
  {
  }

  lemma SameTurn(u: State, t: State, tun: Tunables, d: Dir)
    requires u.starved == t.starved <= tun.writesStarved && u.batching == t.batching
    ensures Turn(u, tun, d) == Turn(t, tun, d) && BatchLeft(u, tun) == BatchLeft(t, tun)
  {
  }

  /** The oldest request of a direction is due when any is. */
  lemma HeadIsDue(s: State, tun: Tunables, d: Dir, e: nat, w: nat)
    requires Inv(s, tun) && w in DueBy(s, d, e)
    ensures s.At(d).fifo != [] && s.At(d).fifo[0] in DueBy(s, d, e)
  {
    hide LaneOk;
    OnBothIndexes(s, tun, {}, w);
    FifoNoDup(s, tun, {}, d);
    var i := Index(s.At(d).fifo, w);
    assert s.rqs[s.At(d).fifo[0]].expires <= s.rqs[s.At(d).fifo[i]].expires;
  }

  lemma DueMoved(s: State, t: State, tun: Tunables, d: Dir, e: nat, r: nat)
    requires s.starved <= tun.writesStarved && t.starved <= tun.writesStarved && DueBy(s, d, e) != {}
    requires DueBy(t, d, e) == DueBy(s, d, e) - {r}
    requires || Turn(t, tun, d) + BatchLeft(t, tun) < Turn(s, tun, d) + BatchLeft(s, tun)
             || (r in DueBy(s, d, e) && Turn(t, tun, d) + BatchLeft(t, tun) + 1 <= Round(tun, d))
    ensures DueBy(t, d, e) == {} || DueDebt(t, tun, d, e) < DueDebt(s, tun, d, e)
  {
    hide Turn, BatchLeft, Round;
    var n, m, round := |DueBy(s, d, e)|, |DueBy(t, d, e)|, Round(tun, d);
    SubsetSize(DueBy(t, d, e), DueBy(s, d, e));
    if DueBy(t, d, e) != {} {
      MulMono(round, m - 1, n - 1);
      if r in DueBy(s, d, e) {
        assert (n - 1) * round == (m - 1) * round + round;
      }
    }
  }

  lemma DebtOfFewer(s: State, t: State, tun: Tunables, d: Dir, e: nat)
    requires s.starved == t.starved <= tun.writesStarved && s.batching == t.batching && |DueBy(t, d, e)| <= |DueBy(s, d, e)|
    ensures DueDebt(t, tun, d, e) <= DueDebt(s, tun, d, e)
  {
    MulMono(Round(tun, d), |DueBy(t, d, e)| - 1, |DueBy(s, d, e)| - 1);
  }

  /** No operation adds to what is due by a time that has passed, and every call pays. */
  lemma StepDue(s: State, tun: Tunables, op: Op, now: nat, d: Dir, e: nat)
    requires Inv(s, tun) && s.clock <= now && Enabled(s, op) && e < s.clock && (d == Write || tun.writesStarved >= 1)
    ensures var t := Step(s, tun, op, now);
            && s.starved <= tun.writesStarved && t.starved <= tun.writesStarved && e < t.clock
            && (DueBy(s, d, e) == {} ==> DueBy(t, d, e) == {})
            && (DueBy(t, d, e) == {} || DueDebt(t, tun, d, e) + (if op == DispatchCall then 1 else 0) <= DueDebt(s, tun, d, e))
  {
    hide Held, AddRequest, MergedRequest, MergedRequests, Dispatch, DueDebt;
    TickInv(s, tun, now);
    var u := s.(clock := now);
    var t := Step(s, tun, op, now);
    StarvedBound(s, tun);
    StarvedBound(t, tun);
    assert DueBy(u, d, e) == DueBy(s, d, e);
    match op {
      case Add(r, dir, pos, sectors) => AddDue(u, tun, r, Rq(dir, pos, sectors, now + tun.Expire(dir)), d, e);
      case FrontMerge(r, pos, sectors) => FrontMergeDue(u, tun, r, pos, sectors, d, e);
      case MergeNext(r, n) =>
        MergedRequestsInv(u, tun, r, n);
        MergeDue(u, r, n, d, e);
      case DispatchCall =>
        if DueBy(s, d, e) != {} {
          DispatchDue(u, tun, now, d, e);
          SameDebt(s, u, tun, d, e);
        } else {
          DispatchShrinks(u, tun, now, d, e);
        }
    }
    if op != DispatchCall {
      DebtOfFewer(s, t, tun, d, e);
    }
  }

  lemma StarvedBound(s: State, tun: Tunables)
    requires Inv(s, tun)
    ensures s.starved <= tun.writesStarved
  {
  }

  lemma SameDebt(s: State, u: State, tun: Tunables, d: Dir, e: nat)
    requires s.starved == u.starved <= tun.writesStarved && s.batching == u.batching && DueBy(s, d, e) == DueBy(u, d, e)
    ensures DueDebt(s, tun, d, e) == DueDebt(u, tun, d, e)
  {
  }

  lemma DispatchShrinks(s: State, tun: Tunables, now: nat, d: Dir, e: nat)
    requires Inv(s, tun)
    ensures forall d :: s.At(d).fifo != [] ==> s.At(d).fifo[0] in s.rqs
    ensures forall p :: Choose(s, tun, now) == Some(p) ==> p.rq in s.rqs
    ensures DueBy(Dispatch(s, tun, now), d, e) <= DueBy(s, d, e)
  {
    hide Held, Choose;
    DispatchInv(s, tun, now);
  }

  /** Within their debt all due requests are gone. */
  lemma {:induction false} RunPaysDue(s: State, tun: Tunables, ops: seq<(Op, nat)>, d: Dir, e: nat)
    requires Inv(s, tun) && Legal(s, tun, ops) && e < s.clock && (d == Write || tun.writesStarved >= 1) && s.starved <= tun.writesStarved
    requires DueBy(s, d, e) == {} || Calls(ops) > DueDebt(s, tun, d, e)
    ensures DueBy(Run(s, tun, ops), d, e) == {}
    decreases |ops|
  {
    hide Held, Step, DueDebt;
    if ops == [] {
      DebtIsNat(s, tun, d, e);
    } else {
      var (op, now) := ops[0];
      StepDue(s, tun, op, now, d, e);
      RunPaysDue(Step(s, tun, op, now), tun, ops[1..], d, e);
    }
  }

  lemma DebtIsNat(s: State, tun: Tunables, d: Dir, e: nat)
    requires s.starved <= tun.writesStarved
    ensures DueBy(s, d, e) != {} ==> DueDebt(s, tun, d, e) >= 0
  {
    if DueBy(s, d, e) != {} {
      MulMono(Round(tun, d), 0, |DueBy(s, d, e)| - 1);
    }
  }

  // -------------------------------------------------------------- carriers

  /** The request that carries the data of w after a run. */
  function Carrier(ops: seq<(Op, nat)>, w: nat): (c: nat) {
    if ops == [] then w
    else Carrier(ops[1..], if ops[0].0.MergeNext? && ops[0].0.absorbed == w then ops[0].0.rq else w)
  }

  /** The data of a due request stays with a due request until it is dispatched. */
  lemma StepCarries(s: State, tun: Tunables, op: Op, now: nat, d: Dir, e: nat, c: nat)
    requires Inv(s, tun) && s.clock <= now && Enabled(s, op) && (c in s.dispatched || c in DueBy(s, d, e))
    ensures var t, c' := Step(s, tun, op, now), if op.MergeNext? && op.absorbed == c then op.rq else c;
            c' in t.dispatched || c' in DueBy(t, d, e)
  {
    hide Held, AddRequest, MergedRequest, MergedRequests, Dispatch;
    TickInv(s, tun, now);
    var u := s.(clock := now);
    var t := Step(s, tun, op, now);
    if c in s.dispatched {
      NotHeld(s, tun, c);
      DispatchedStays(s, tun, op, now, c);
    } else {
      match op {
        case Add(r, dir, pos, sectors) =>
          AddNoFurther(u, tun, r, Rq(dir, pos, sectors, now + tun.Expire(dir)), c);
        case FrontMerge(r, pos, sectors) =>
          FrontMergeNoFurther(u, tun, r, pos, sectors, c);
        case MergeNext(r, n) =>
          MergedRequestsInv(u, tun, r, n);
          if c == n {
            MergeDue(u, r, n, d, e);
          } else {
            MergeNoFurther(u, tun, r, n, c);
          }
        case DispatchCall =>
          DispatchInv(u, tun, now);
          DispatchKeeps(u, tun, now, c);
      }
    }
  }

  lemma NotHeld(s: State, tun: Tunables, c: nat)
    requires Inv(s, tun) && c in s.dispatched
    ensures c !in s.rqs
  {
    hide LaneOk;
  }

  lemma DispatchKeeps(s: State, tun: Tunables, now: nat, c: nat)
    requires Inv(s, tun) && c in s.rqs
    ensures forall d :: s.At(d).fifo != [] ==> s.At(d).fifo[0] in s.rqs
    ensures forall p :: Choose(s, tun, now) == Some(p) ==> p.rq in s.rqs
    ensures var t := Dispatch(s, tun, now); c in t.dispatched || (c in t.rqs && t.rqs[c] == s.rqs[c])
  {
    hide Held, Choose;
    DispatchInv(s, tun, now);
  }

  lemma {:induction false} RunCarries(s: State, tun: Tunables, ops: seq<(Op, nat)>, d: Dir, e: nat, c: nat)
    requires Inv(s, tun) && Legal(s, tun, ops) && (c in s.dispatched || c in DueBy(s, d, e))
    ensures var t := Run(s, tun, ops); Carrier(ops, c) in t.dispatched || Carrier(ops, c) in DueBy(t, d, e)
    decreases |ops|
  {
    hide Held, Step, DueBy;
    if ops != [] {
      var (op, now) := ops[0];
      StepCarries(s, tun, op, now, d, e, c);
      RunCarries(Step(s, tun, op, now), tun, ops[1..], d, e, if op.MergeNext? && op.absorbed == c then op.rq else c);
    }
  }

  /**
   The service bound for every run.  With n requests of its direction due no
   later than an expired request, its data is dispatched within
   n * (writes_starved + 1) * fifo_batch + 1 calls if it is a write, and within
   n * 2 * fifo_batch + 1 calls if it is a read and writes may be starved at least
   once, whatever is added, merged or evicted, the request itself included.
   */
  lemma CarrierBound(s: State, tun: Tunables, ops: seq<(Op, nat)>, w: nat)
    requires Inv(s, tun) && Legal(s, tun, ops) && w in s.rqs && s.rqs[w].expires < s.clock
    requires s.rqs[w].dir == Write || tun.writesStarved >= 1
    requires Calls(ops) >= |DueBy(s, s.rqs[w].dir, s.rqs[w].expires)| * Round(tun, s.rqs[w].dir) + 1
    ensures Carrier(ops, w) in Run(s, tun, ops).dispatched
  {
    hide Inv, Run, Legal, Calls, Carrier, DueDebt, Round;
    var d, e := s.rqs[w].dir, s.rqs[w].expires;
    assert w in DueBy(s, d, e);
    StarvedBound(s, tun);
    DueDebtBound(s, tun, d, e);
    RunCarries(s, tun, ops, d, e, w);
    RunPaysDue(s, tun, ops, d, e);
  }

  lemma DueDebtBound(s: State, tun: Tunables, d: Dir, e: nat)
    requires s.starved <= tun.writesStarved
    ensures DueDebt(s, tun, d, e) < |DueBy(s, d, e)| * Round(tun, d) + 1
  {
    hide Turn, BatchLeft, Round, DueBy;
    TurnFits(s, tun, d);
    var n, round := |DueBy(s, d, e)|, Round(tun, d);
    assert n * round == (n - 1) * round + round;
  }

  /** Without a tie behind it, the due requests are those up to its place in the fifo. */
  lemma DueIsPlace(s: State, tun: Tunables, w: nat)
    requires Inv(s, tun) && w in s.rqs && w in s.At(s.rqs[w].dir).fifo && (forall x :: x in s.At(s.rqs[w].dir).fifo ==> x in s.rqs)
    requires var fifo, i := s.At(s.rqs[w].dir).fifo, Index(s.At(s.rqs[w].dir).fifo, w);
             forall j :: i < j < |fifo| ==> s.rqs[fifo[j]].expires > s.rqs[w].expires
    ensures |DueBy(s, s.rqs[w].dir, s.rqs[w].expires)| == Index(s.At(s.rqs[w].dir).fifo, w) + 1
  {
    var d := s.rqs[w].dir;
    FifoNoDup(s, tun, {}, d);
    FifoIsLane(s, tun, d);
    var fifo, i := s.At(d).fifo, Index(s.At(d).fifo, w);
    hide Inv, Index, NoDup, OrderedByExpiry, DueBy, Elements;
    PrefixIsDue(s, d, fifo, i, s.rqs[w].expires);
    PrefixNoDup(fifo, i + 1);
    SetOfDistinct(fifo[..i + 1]);
  }

  lemma PrefixNoDup(q: seq<nat>, n: nat)
    requires NoDup(q) && n <= |q|
    ensures NoDup(q[..n])
  {
  }

  lemma PrefixIsDue(s: State, d: Dir, fifo: seq<nat>, i: nat, e: nat)
    requires i < |fifo| && (forall x :: x in fifo <==> x in s.rqs && s.rqs[x].dir == d)
    requires OrderedByExpiry(fifo, s.rqs) && s.rqs[fifo[i]].expires == e
    requires forall j :: i < j < |fifo| ==> s.rqs[fifo[j]].expires > e
    ensures DueBy(s, d, e) == Elements(fifo[..i + 1])
  {
    var upTo := fifo[..i + 1];
    forall x | x in upTo ensures x in DueBy(s, d, e) {
      var j :| 0 <= j < |upTo| && upTo[j] == x;
      assert fifo[j] == x && (j < i ==> s.rqs[fifo[j]].expires <= s.rqs[fifo[i]].expires);
    }
    forall x | x in DueBy(s, d, e) ensures x in upTo {
      var j :| 0 <= j < |fifo| && fifo[j] == x;
      assert upTo[j] == x;
    }
  }

  function Elements(q: seq<nat>): (e: set<nat>) {
    set x | x in q
  }

  lemma FifoIsLane(s: State, tun: Tunables, d: Dir)
    requires Inv(s, tun)
    ensures forall x :: x in s.At(d).fifo <==> x in s.rqs && s.rqs[x].dir == d
  {
  }

  lemma {:induction false} SetOfDistinct(q: seq<nat>)
    requires NoDup(q)
    ensures |Elements(q)| == |q|
    decreases |q|
  {
    if q == [] {
      assert Elements(q) == {};
    } else {
      NoDupTail(q);
      SetOfDistinct(q[1..]);
      assert Elements(q) == Elements(q[1..]) + {q[0]};
    }
  }
}
