/**
 Progress of the FLUSH/FUA sequencer: while the driver goes on taking and
 completing what it is given, every operation uses up work, and when there is
 nothing left to take or complete every request has ended.
 */
module FlushDrain {
  import opened IdLists
  import opened KeyedTree
  import opened Flush

  /** Steps of its policy that a request still has before it. */
  function Left(q: Rq): (n: nat) {
    Bit(q.policy.pre && !q.finished.pre) + Bit(q.policy.data && !q.finished.data) + Bit(q.policy.post && !q.finished.post)
  }

  function LeftOf(rqs: map<nat, Rq>): (f: nat -> int) {
    (r: nat) => if r in rqs then Left(rqs[r]) else 0
  }

  function Waiting(s: State): (n: int)
    requires Shape(s)
  {
    var f := LeftOf(s.rqs);
    SumBy(s.queues[0], f) + SumBy(s.queues[1], f) + SumBy(s.inFlight, f)
  }

  /** Each step left is worth what completing a step may put on the dispatch queue, and more. */
  function Work(s: State): (n: int)
    requires Shape(s)
  {
    5 * Waiting(s) + 2 * |s.dispatch| + |s.device| + Bit(s.flushTaken)
  }

  lemma {:induction false} SumIsNat(q: seq<nat>, rqs: map<nat, Rq>)
    ensures SumBy(q, LeftOf(rqs)) >= 0
    decreases |q|
  {
    if q != [] {
      SumIsNat(q[1..], rqs);
    }
  }

  lemma WorkIsNat(s: State)
    requires Shape(s)
    ensures Work(s) >= 0
  {
    SumIsNat(s.queues[0], s.rqs);
    SumIsNat(s.queues[1], s.rqs);
    SumIsNat(s.inFlight, s.rqs);
  }

  /** A list is not affected by a change to a request that is not on it. */
  lemma SumElsewhere(q: seq<nat>, rqs: map<nat, Rq>, r: nat, x: Rq)
    requires r !in q
    ensures SumBy(q, LeftOf(rqs[r := x])) == SumBy(q, LeftOf(rqs))
  {
    SumSame(q, LeftOf(rqs[r := x]), LeftOf(rqs));
  }

  lemma SumAppended(q: seq<nat>, r: nat, f: nat -> int)
    ensures SumBy(q + [r], f) == SumBy(q, f) + f(r)
  {
    SumConcat(q, [r], f);
  }

  /** Off its list, a request takes what it has left with it. */
  lemma RemovedWork(q: seq<nat>, r: nat, rqs: map<nat, Rq>)
    requires NoDup(q) && r in rqs
    ensures SumBy(Remove(q, r), LeftOf(rqs)) == SumBy(q, LeftOf(rqs)) - if r in q then Left(rqs[r]) else 0
    ensures r !in Remove(q, r)
  {
    if r in q {
      SumRemoved(q, r, LeftOf(rqs));
    }
  }

  /** Taking a request off the one list it is on, with its record updated. */
  lemma UnlinkedWork(s: State, r: nat, q: Rq)
    requires Shape(s) && NoDup(s.queues[0]) && NoDup(s.queues[1]) && NoDup(s.inFlight) && r in s.rqs
    requires (r in s.queues[0] && r !in s.queues[1] && r !in s.inFlight)
          || (r !in s.queues[0] && r in s.queues[1] && r !in s.inFlight)
          || (r !in s.queues[0] && r !in s.queues[1] && r in s.inFlight)
    ensures var u := Unlink(s.(rqs := s.rqs[r := q]), r);
            Waiting(u) == Waiting(s) - Left(s.rqs[r]) && !Queued(u, r) && r !in u.inFlight
  {
    hide SumBy, Remove, NoDup;
    RemovedWork(s.queues[0], r, s.rqs);
    RemovedWork(s.queues[1], r, s.rqs);
    RemovedWork(s.inFlight, r, s.rqs);
    SumElsewhere(Remove(s.queues[0], r), s.rqs, r, q);
    SumElsewhere(Remove(s.queues[1], r), s.rqs, r, q);
    SumElsewhere(Remove(s.inFlight, r), s.rqs, r, q);
  }

  /** Whichever list it goes to, it brings no more than it has left. */
  lemma MovedWork(u: State, r: nat, failed: bool, since: nat)
    requires Shape(u) && r in u.rqs && !Queued(u, r) && r !in u.inFlight
    ensures Waiting(ToPending(u, r, since)) == Waiting(u) + Left(u.rqs[r])
    ensures Waiting(ToData(u, r)) == Waiting(u) + Left(u.rqs[r])
    ensures Waiting(ToEnd(u, r, failed)) == Waiting(u)
  {
    hide SumBy;
    SumAppended(u.queues[u.pending], r, LeftOf(u.rqs));
    var sent := u.rqs[r].(sent := true, queuedAt := |u.log|);
    SumAppended(u.inFlight, r, LeftOf(u.rqs[r := sent]));
    SumElsewhere(u.queues[0], u.rqs, r, sent);
    SumElsewhere(u.queues[1], u.rqs, r, sent);
    SumElsewhere(u.inFlight, u.rqs, r, sent);
    var ended := u.rqs[r].(ended := true, failed := failed, endedAt := |u.log|);
    SumElsewhere(u.queues[0], u.rqs, r, ended);
    SumElsewhere(u.queues[1], u.rqs, r, ended);
    SumElsewhere(u.inFlight, u.rqs, r, ended);
  }

  /** Moving on a request costs at most one data step and one flush on the dispatch queue. */
  lemma CompleteSeqWork(s: State, r: nat, failed: bool, now: nat, hz: nat)
    requires Shape(s) && r in s.rqs && !Queued(Unlink(s, r), r) && r !in Unlink(s, r).inFlight
    ensures Work(CompleteSeq(s, r, failed, now, hz)) <= Work(Unlink(s, r)) + 5 * Left(s.rqs[r]) + 4
    ensures CompleteSeq(s, r, failed, now, hz).device == s.device
  {
    hide Waiting, SumBy, Unlink, Left;
    SameFields(s, r);
    MovedWork(Unlink(s, r), r, failed, if s.queues[s.pending] == [] then now else s.since);
    KickWork(MoveOn(s, r, failed, now), now, hz);
  }

  lemma SameFields(s: State, r: nat)
    requires Shape(s)
    ensures var u := Unlink(s, r);
            Shape(u) && u.rqs == s.rqs && u.dispatch == s.dispatch && u.device == s.device && u.flushTaken == s.flushTaken
  {
  }

  lemma KickWork(s: State, now: nat, hz: nat)
    requires Shape(s)
    ensures Work(Kick(s, now, hz)) <= Work(s) + 2 && Kick(s, now, hz).device == s.device
  {
    hide SumBy;
  }

  /** A live request is on exactly one list and has steps left. */
  lemma OnOneList(s: State, walk: seq<nat>, r: nat)
    requires Inv(s, walk) && r in s.rqs && !s.rqs[r].ended
    ensures Left(s.rqs[r]) > 0 && Shape(s) && NoDup(s.queues[0]) && NoDup(s.queues[1]) && NoDup(s.inFlight)
    ensures (r in s.queues[0] && r !in s.queues[1] && r !in s.inFlight)
         || (r !in s.queues[0] && r in s.queues[1] && r !in s.inFlight)
         || (r !in s.queues[0] && r !in s.queues[1] && r in s.inFlight)
  {
    hide NoDup, LogOk, FlightOk, DispatchOk, History, Fault;
    assert RqOk(s.log, r, s.rqs[r]) && PlacedOk(s, r);
  }

  // ------------------------------------------------------------- operations

  lemma FetchWork(s: State)
    requires Shape(s) && s.dispatch != []
    ensures Work(Fetch(s)) < Work(s)
  {
    hide SumBy;
    match s.dispatch[0] {
      case DataOf(r) => assert |s.device + {r}| <= |s.device| + 1;
      case TheFlush =>
      case Plain(_) =>
    }
  }

  /** Marking the data step finished leaves one step less. */
  lemma MarkedLeft(q: Rq)
    requires q.policy.data && Current(q.finished) == Data
    ensures Left(q.(finished := Mark(q.finished, Data))) == Left(q) - 1
  {
  }

  /** Only a request with data in its policy comes to its data step. */
  lemma DataIsOut(s: State, r: nat)
    requires Inv(s, []) && r in s.rqs && !s.rqs[r].ended && Current(s.rqs[r].finished) == Data
    ensures s.rqs[r].policy.data
  {
    hide Lists, PlacedOk, LogOk, FlightOk, DispatchOk, History, Fault;
    assert RqOk(s.log, r, s.rqs[r]);
  }

  /** The device has one request less, and the request is off its list. */
  lemma RecordedWork(s: State, r: nat, failed: bool)
    requires Shape(s) && NoDup(s.queues[0]) && NoDup(s.queues[1]) && NoDup(s.inFlight) && r in s.rqs && r in s.device
    requires (r in s.queues[0] && r !in s.queues[1] && r !in s.inFlight)
          || (r !in s.queues[0] && r in s.queues[1] && r !in s.inFlight)
          || (r !in s.queues[0] && r !in s.queues[1] && r in s.inFlight)
    ensures var u := Unlink(DataRecorded(s, r, failed), r);
            Shape(u) && Work(u) == Work(s) - 5 * Left(s.rqs[r]) - 1 && !Queued(u, r) && r !in u.inFlight
  {
    hide Waiting, SumBy, NoDup, Left, Remove;
    var t := DataRecorded(s, r, failed);
    UnlinkedWork(s, r, t.rqs[r]);
    SameFields(t, r);
    WaitingSame(Unlink(s.(rqs := t.rqs), r), Unlink(t, r));
    assert |s.device - {r}| == |s.device| - 1;
  }

  lemma DataEndWork(s: State, r: nat, failed: bool, now: nat, hz: nat)
    requires Inv(s, []) && r in s.device && r in s.rqs && !s.rqs[r].ended && Current(s.rqs[r].finished) == Data
    ensures Work(DataEnd(s, r, failed, now, hz)) < Work(s)
  {
    hide Inv, Work, Left, CompleteSeq, Unlink, NoDup;
    OnOneList(s, [], r);
    DataIsOut(s, r);
    MarkedLeft(s.rqs[r]);
    SameLeft(s.rqs[r], |s.log|);
    RecordedWork(s, r, failed);
    CompleteSeqWork(DataRecorded(s, r, failed), r, failed, now, hz);
  }

  lemma SameLeft(q: Rq, at: nat)
    ensures var u := q.(finished := Mark(q.finished, Data)); Left(u.(steps := q.steps + 1, dataAt := at)) == Left(u)
  {
  }

  lemma WaitingSame(s: State, t: State)
    requires Shape(s) && Shape(t) && s.queues == t.queues && s.inFlight == t.inFlight && s.rqs == t.rqs
    ensures Waiting(s) == Waiting(t)
  {
  }

  lemma ServedLeft(q: Rq, span: Span)
    requires Current(q.finished) == PreFlush || Current(q.finished) == PostFlush
    requires (q.policy.pre || q.finished.pre) && (q.policy.data || q.finished.data) && (q.policy.post || q.finished.post)
    ensures Left(Serve(q, span)) == Left(q) - 1
  {
  }

  /** Who waits for a flush waits in a step of its policy. */
  lemma WaitsForFlush(s: State, walk: seq<nat>)
    requires Inv(s, walk) && walk != []
    ensures walk[0] in s.rqs && !s.rqs[walk[0]].ended
    ensures var q := s.rqs[walk[0]];
            && (Current(q.finished) == PreFlush || Current(q.finished) == PostFlush)
            && (q.policy.pre || q.finished.pre) && (q.policy.data || q.finished.data) && (q.policy.post || q.finished.post)
  {
    hide NoDup, EventOk, FlightOk, DispatchOk, History, Fault;
    assert walk[0] in s.queues[1 - s.running];
    assert RqOk(s.log, walk[0], s.rqs[walk[0]]) && PlacedOk(s, walk[0]);
  }

  lemma PushOneWork(s: State, walk: seq<nat>, span: Span, failed: bool, now: nat, hz: nat)
    requires Inv(s, walk) && walk != [] && Shape(s) && walk[0] in s.rqs
    ensures Work(CompleteSeq(Served(s, walk[0], span), walk[0], failed, now, hz)) < Work(s)
  {
    var r := walk[0];
    WaitsForFlush(s, walk);
    OnOneList(s, walk, r);
    ServedLeft(s.rqs[r], span);
    hide Inv, Waiting, SumBy, CompleteSeq, Left, Serve;
    var t := Served(s, r, span);
    UnlinkedWork(s, r, t.rqs[r]);
    SameFields(t, r);
    CompleteSeqWork(t, r, failed, now, hz);
  }

  lemma {:induction false} PushAllWork(s: State, walk: seq<nat>, span: Span, failed: bool, now: nat, hz: nat)
    requires Inv(s, walk) && Waited(s, walk, span, failed) && Shape(s) && forall r :: r in walk ==> r in s.rqs
    ensures Work(PushAll(s, walk, span, failed, now, hz)) <= Work(s)
    decreases |walk|
  {
    hide Inv, Work, CompleteSeq, Serve;
    if walk != [] {
      PushOneWork(s, walk, span, failed, now, hz);
      PushOneInv(s, walk, span, failed, now, hz);
      PushAllWork(CompleteSeq(Served(s, walk[0], span), walk[0], failed, now, hz), walk[1..], span, failed, now, hz);
    }
  }

  lemma FlushEndWork(s: State, failed: bool, now: nat, hz: nat)
    requires Inv(s, []) && s.flushTaken && Shape(s) && forall r :: r in s.queues[s.running] ==> r in s.rqs
    ensures Work(FlushEnd(s, failed, now, hz)) < Work(s)
  {
    hide Inv, Waited, PushAll;
    LandedInv(s, failed);
    WaitingSame(s, Landed(s, failed));
    hide Waiting;
    PushAllWork(Landed(s, failed), s.queues[s.running], Span(s.issuedAt, |s.log|), failed, now, hz);
  }

  /** What the driver does: it takes requests and completes them. */
  predicate ByDriver(op: Op) {
    op.FetchOp? || op.DataEndOp? || op.FlushEndOp?
  }

  /** Whatever the driver does uses up work, whether things fail or not. */
  lemma DriverUsesWork(s: State, op: Op, deviceFua: bool, now: nat, hz: nat)
    requires Inv(s, []) && NoStall(s) && Enabled(s, op) && ByDriver(op)
    ensures Work(Apply(s, op, deviceFua, now, hz)) < Work(s)
  {
    hide Work, Fetch, DataEnd, FlushEnd, RqOk, EventOk;
    match op {
      case FetchOp => FetchWork(s);
      case DataEndOp(r, failed) =>
        TakenIsData(s, r);
        DataEndWork(s, r, failed, now, hz);
      case FlushEndOp(failed) =>
        FlushEndInv(s, failed, now, hz);
        FlushEndWork(s, failed, now, hz);
    }
  }

  lemma TakenIsData(s: State, r: nat)
    requires Inv(s, []) && r in s.device
    ensures r in s.rqs && !s.rqs[r].ended && Current(s.rqs[r].finished) == Data
  {
    hide RqOk, EventOk, FlightOk, NoDup;
    assert r in s.inFlight && PlacedOk(s, r);
  }

  /** While a request has not ended there is something for the driver to do. */
  lemma DriverCanGoOn(s: State, r: nat) returns (op: Op)
    requires Inv(s, []) && NoStall(s) && r in s.rqs && !s.rqs[r].ended
    ensures ByDriver(op) && Enabled(s, op)
  {
    SomethingIsOut(s, r);
    if s.dispatch != [] {
      op := FetchOp;
    } else if s.flushTaken {
      op := FlushEndOp(false);
    } else {
      var d :| d in s.device;
      op := DataEndOp(d, false);
    }
  }

  /** When the driver has nothing to do, every request has ended. */
  lemma NothingToDo(s: State)
    requires Inv(s, []) && NoStall(s) && forall op :: ByDriver(op) ==> !Enabled(s, op)
    ensures forall r :: r in s.rqs ==> s.rqs[r].ended
  {
    forall r | r in s.rqs ensures s.rqs[r].ended {
      if !s.rqs[r].ended {
        var op := DriverCanGoOn(s, r);
        assert false;
      }
    }
  }

  lemma {:induction false} DriverRun(before: seq<(Op, nat)>, ops: seq<(Op, nat)>, deviceFua: bool, hz: nat)
    requires Legal(before, deviceFua, hz) && Legal(before + ops, deviceFua, hz)
    requires forall i :: 0 <= i < |ops| ==> ByDriver(ops[i].0)
    ensures |ops| + Work(Run(before + ops, deviceFua, hz)) <= Work(Run(before, deviceFua, hz))
    decreases |ops|
  {
    hide Work, Inv, NoStall, Run, Apply, Enabled, Legal;
    if ops == [] {
      assert before + ops == before;
    } else {
      var n := |ops| - 1;
      var all, shorter := before + ops, before + ops[..n];
      assert all[..|all| - 1] == shorter && all[|all| - 1] == ops[n];
      LastStep(all, deviceFua, hz);
      DriverUsesWork(Run(shorter, deviceFua, hz), ops[n].0, deviceFua, ops[n].1, hz);
      DriverRun(before, ops[..n], deviceFua, hz);
    }
  }

  /**
   Progress.  From any reachable state, however the driver interleaves taking
   and completing and whatever fails, it can go on for no more operations than
   the work in the state, and once it has nothing to do every request has ended:
   a driver that completes what it takes sees every request end.
   */
  lemma EveryRequestEnds(before: seq<(Op, nat)>, ops: seq<(Op, nat)>, deviceFua: bool, hz: nat)
    requires Legal(before, deviceFua, hz) && Legal(before + ops, deviceFua, hz)
    requires forall i :: 0 <= i < |ops| ==> ByDriver(ops[i].0)
    ensures |ops| <= Work(Run(before, deviceFua, hz))
    ensures var s := Run(before + ops, deviceFua, hz);
            (forall op :: ByDriver(op) ==> !Enabled(s, op)) ==> forall r :: r in s.rqs ==> s.rqs[r].ended
  {
    hide Work, Inv, NoStall, Run, Enabled, Legal;
    RunShape(before + ops, deviceFua, hz);
    var s := Run(before + ops, deviceFua, hz);
    DriverRun(before, ops, deviceFua, hz);
    WorkIsNat(s);
    if forall op :: ByDriver(op) ==> !Enabled(s, op) {
      NothingToDo(s);
    }
  }

  lemma RunShape(ops: seq<(Op, nat)>, deviceFua: bool, hz: nat)
    requires Legal(ops, deviceFua, hz)
    ensures Shape(Run(ops, deviceFua, hz))
  {
  }

  lemma LastStep(ops: seq<(Op, nat)>, deviceFua: bool, hz: nat)
    requires Legal(ops, deviceFua, hz) && ops != []
    ensures var (op, now) := ops[|ops| - 1];
            && Legal(ops[..|ops| - 1], deviceFua, hz) && Enabled(Run(ops[..|ops| - 1], deviceFua, hz), op)
            && Run(ops, deviceFua, hz) == Apply(Run(ops[..|ops| - 1], deviceFua, hz), op, deviceFua, now, hz)
  {
  }
}
