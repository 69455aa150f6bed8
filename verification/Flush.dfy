/**
 The FLUSH/FUA sequencer.  A request is decomposed into PREFLUSH, DATA and
 POSTFLUSH steps; requests that wait for a flush share it, and two queues take
 turns as the pending and the running one.  Every operation runs under the queue
 lock, so it is one step of a state machine.

 The state carries a log of what happened and, for every request, where in the
 log its steps took place; no operation looks at them.
 */
module Flush {
  import opened IdLists

  /** FLUSH_PENDING_TIMEOUT for a clock of HZ ticks per second. */
  function PendingTimeout(hz: nat): (r: nat) { 5 * hz }

  datatype Step = PreFlush | Data | PostFlush | Done

  /** A mask over the three steps: REQ_FSEQ_PREFLUSH, REQ_FSEQ_DATA, REQ_FSEQ_POSTFLUSH. */
  datatype Steps = Steps(pre: bool, data: bool, post: bool)

  /** blk_flush_policy on a device whose flush_flags contain REQ_FLUSH. */
  function FlushPolicy(deviceFua: bool, flush: bool, fua: bool, hasData: bool): (policy: Steps) {
    Steps(flush, hasData, !deviceFua && fua)
  }

  /** blk_flush_cur_seq: the lowest step that is not marked finished. */
  function Current(finished: Steps): (r: Step) {
    if !finished.pre then PreFlush else if !finished.data then Data else if !finished.post then PostFlush else Done
  }

  function Without(policy: Steps): (r: Steps) {
    Steps(!policy.pre, !policy.data, !policy.post)
  }

  function Mark(finished: Steps, step: Step): (r: Steps) {
    match step
    case PreFlush => finished.(pre := true)
    case Data => finished.(data := true)
    case PostFlush => finished.(post := true)
    case Done => finished
  }

  datatype Event =
    | Inserted(rq: nat)
    | DataQueued(rq: nat)
    | DataDone(rq: nat, failed: bool)
    | FlushIssued
    | FlushDone(failed: bool)
    | Ended(rq: nat, failed: bool)
    | WriteDone(rq: nat)       // a write outside the sequencer has completed

  /** A flush by the log positions of its issue and its completion. */
  datatype Span = Span(issued: nat, completed: nat)

  /**
   A sequenced request: its policy and flush.seq, then history: whether its data
   was queued, how many of its steps were completed, where it was inserted, its
   data queued and completed and it ended, and the flushes that served it.
   */
  datatype Rq = Rq(policy: Steps, finished: Steps, ended: bool, failed: bool, sent: bool, steps: nat,
                   insertedAt: nat, queuedAt: nat, dataAt: nat, endedAt: nat, pre: Span, post: Span)

  function NewRq(policy: Steps, at: nat): (q: Rq) {
    Rq(policy, Without(policy), false, false, false, 0, at, 0, 0, 0, Span(0, 0), Span(0, 0))
  }

  /** What stands on the dispatch queue. */
  datatype Item = DataOf(rq: nat) | TheFlush | Plain(rq: nat)

  datatype State = State(
    rqs: map<nat, Rq>,
    queues: seq<seq<nat>>,     // flush_queue[2]
    pending: nat,              // flush_pending_idx
    running: nat,              // flush_running_idx
    inFlight: seq<nat>,        // flush_data_in_flight
    dispatch: seq<Item>,       // queue_head
    since: nat,                // flush_pending_since
    device: set<nat>,          // data requests the driver has taken
    flushTaken: bool,          // whether the driver has taken the flush request
    issuedAt: nat,             // history: the flush in flight
    log: seq<Event>)           // history

  function Init(): (s: State) {
    State(map[], [[], []], 0, 0, [], [], 0, {}, false, 0, [])
  }

  function Unlink(s: State, r: nat): (t: State)
    requires |s.queues| == 2
    ensures |t.queues| == 2
  {
    s.(queues := [Remove(s.queues[0], r), Remove(s.queues[1], r)], inFlight := Remove(s.inFlight, r))
  }

  predicate InFlight(s: State) {
    s.pending != s.running
  }

  predicate Shape(s: State) {
    |s.queues| == 2 && s.pending < 2 && s.running < 2
  }

  /** blk_kick_flush. */
  function Kick(s: State, now: nat, hz: nat): (t: State)
    requires Shape(s)
    ensures Shape(t)
  {
    if InFlight(s) || s.queues[s.pending] == [] then s
    else if s.inFlight != [] && now < s.since + PendingTimeout(hz) then s
    else s.(pending := 1 - s.pending, dispatch := s.dispatch + [TheFlush], issuedAt := |s.log|, log := s.log + [FlushIssued])
  }

  /** The three ways blk_flush_complete_seq moves on a request that it has taken off its list. */
  function ToPending(s: State, r: nat, since: nat): (t: State)
    requires Shape(s)
    ensures Shape(t)
  {
    s.(queues := s.queues[s.pending := s.queues[s.pending] + [r]], since := since)
  }

  function ToData(s: State, r: nat): (t: State)
    requires Shape(s) && r in s.rqs
    ensures Shape(t)
  {
    s.(inFlight := s.inFlight + [r], dispatch := [DataOf(r)] + s.dispatch,
       rqs := s.rqs[r := s.rqs[r].(sent := true, queuedAt := |s.log|)], log := s.log + [DataQueued(r)])
  }

  function ToEnd(s: State, r: nat, failed: bool): (t: State)
    requires Shape(s) && r in s.rqs
    ensures Shape(t)
  {
    s.(rqs := s.rqs[r := s.rqs[r].(ended := true, failed := failed, endedAt := |s.log|)],
       log := s.log + [Ended(r, failed)])
  }

  /** blk_flush_complete_seq before its kick, for a request whose finished steps were just updated. */
  function MoveOn(s: State, r: nat, failed: bool, now: nat): (t: State)
    requires Shape(s) && r in s.rqs
    ensures Shape(t)
  {
    var u := Unlink(s, r);
    var since := if s.queues[s.pending] == [] then now else s.since;
    match (if failed then Done else Current(s.rqs[r].finished))
    case PreFlush => ToPending(u, r, since)
    case PostFlush => ToPending(u, r, since)
    case Data => ToData(u, r)
    case Done => ToEnd(u, r, failed)
  }

  function CompleteSeq(s: State, r: nat, failed: bool, now: nat, hz: nat): (t: State)
    requires Shape(s) && r in s.rqs
    ensures Shape(t)
  {
    Kick(MoveOn(s, r, failed, now), now, hz)
  }

  // -------------------------------------------------------------- operations

  /** The state in which blk_insert_flush submits a request for sequencing. */
  function Submitted(s: State, r: nat, policy: Steps): (t: State) {
    s.(rqs := s.rqs[r := NewRq(policy, |s.log|)], log := s.log + [Inserted(r)])
  }

  /** The state in which flush_data_end_io records the end of the data step. */
  function DataRecorded(s: State, r: nat, failed: bool): (t: State)
    requires r in s.rqs
  {
    s.(rqs := s.rqs[r := s.rqs[r].(finished := Mark(s.rqs[r].finished, Data), steps := s.rqs[r].steps + 1, dataAt := |s.log|)],
       device := s.device - {r}, log := s.log + [DataDone(r, failed)])
  }

  /** A request that the flush `span` has served, its step marked finished. */
  function Serve(rq: Rq, span: Span): (t: Rq) {
    var u := rq.(finished := Mark(rq.finished, Current(rq.finished)), steps := rq.steps + 1);
    match Current(rq.finished)
    case PreFlush => u.(pre := span)
    case PostFlush => u.(post := span)
    case Data => u
    case Done => u
  }

  function Served(s: State, r: nat, span: Span): (t: State)
    requires r in s.rqs
  {
    s.(rqs := s.rqs[r := Serve(s.rqs[r], span)])
  }

  /** blk_insert_flush. */
  function Insert(s: State, r: nat, policy: Steps, now: nat, hz: nat): (t: State)
    requires Shape(s)
    ensures Shape(t)
  {
    if policy.data && !policy.pre && !policy.post then s.(dispatch := s.dispatch + [Plain(r)])
    else CompleteSeq(Submitted(s, r, policy), r, false, now, hz)
  }

  /** The driver takes the request at the head of the dispatch queue. */
  function Fetch(s: State): (t: State)
    requires Shape(s) && s.dispatch != []
    ensures Shape(t)
  {
    var u := s.(dispatch := s.dispatch[1..]);
    match s.dispatch[0]
    case DataOf(r) => u.(device := s.device + {r})
    case TheFlush => u.(flushTaken := true)
    case Plain(_) => u
  }

  /** A write that bypassed the sequencer completes; it is only noted. */
  function WriteEnd(s: State, w: nat): (t: State)
    requires Shape(s)
    ensures Shape(t)
  {
    s.(log := s.log + [WriteDone(w)])
  }

  /** flush_data_end_io. */
  function DataEnd(s: State, r: nat, failed: bool, now: nat, hz: nat): (t: State)
    requires Shape(s) && r in s.rqs
    ensures Shape(t)
  {
    CompleteSeq(DataRecorded(s, r, failed), r, failed, now, hz)
  }

  /** The loop of flush_end_io over the requests that waited for the flush. */
  function PushAll(s: State, walk: seq<nat>, span: Span, failed: bool, now: nat, hz: nat): (t: State)
    requires Shape(s) && forall r :: r in walk ==> r in s.rqs
    ensures Shape(t)
    decreases |walk|
  {
    if walk == [] then s
    else
      var u := CompleteSeq(Served(s, walk[0], span), walk[0], failed, now, hz);
      PushAll(u, walk[1..], span, failed, now, hz)
  }

  /** The state in which flush_end_io has accounted for the flush. */
  function Landed(s: State, failed: bool): (t: State)
    requires Shape(s)
    ensures Shape(t)
  {
    s.(running := 1 - s.running, flushTaken := false, log := s.log + [FlushDone(failed)])
  }

  /** flush_end_io. */
  function FlushEnd(s: State, failed: bool, now: nat, hz: nat): (t: State)
    requires Shape(s) && forall r :: r in s.queues[s.running] ==> r in s.rqs
    ensures Shape(t)
  {
    PushAll(Landed(s, failed), s.queues[s.running], Span(s.issuedAt, |s.log|), failed, now, hz)
  }

  // --------------------------------------------------------------- invariant

  predicate IsFlush(e: Event) {
    e.FlushIssued? || e.FlushDone?
  }

  /** The flush issued at the one position completed at the other, and it was the only one in between. */
  ghost predicate FlushSpan(log: seq<Event>, span: Span, failed: bool) {
    && span.issued < span.completed < |log|
    && log[span.issued] == FlushIssued
    && log[span.completed] == FlushDone(failed)
    && forall m :: span.issued < m < span.completed ==> !IsFlush(log[m])
  }

  ghost predicate Succeeded(log: seq<Event>, span: Span) {
    FlushSpan(log, span, false)
  }

  predicate LegalPolicy(policy: Steps) {
    (policy.post ==> policy.data) && (policy.pre || policy.post)
  }

  /** What the finished steps of a request that has not failed stand for. */
  ghost predicate History(log: seq<Event>, r: nat, q: Rq) {
    && (q.policy.pre && q.finished.pre ==> Succeeded(log, q.pre) && q.insertedAt < q.pre.issued)
    && (q.policy.data && q.finished.data ==> q.dataAt < |log| && log[q.dataAt] == DataDone(r, false))
    && (q.policy.post && q.finished.post ==> Succeeded(log, q.post) && q.dataAt < q.post.issued)
  }

  /**
   Something went wrong for the request before a position of the log: its data
   failed, or a flush failed that was issued after it began to wait for one.
   */
  ghost predicate Fault(log: seq<Event>, r: nat, q: Rq, before: nat) {
    || (q.policy.data && q.dataAt < before <= |log| && log[q.dataAt] == DataDone(r, true))
    || (q.policy.pre && q.finished.pre && FlushSpan(log, q.pre, true) && q.insertedAt < q.pre.issued && q.pre.completed < before)
    || (q.policy.post && q.finished.post && FlushSpan(log, q.post, true) && q.dataAt < q.post.issued && q.post.completed < before)
  }

  function Bit(b: bool): (n: nat) { if b then 1 else 0 }

  /** How many steps of the policy are finished. */
  function StepsDone(policy: Steps, finished: Steps): (n: nat)
    ensures n <= 3
  {
    Bit(policy.pre && finished.pre) + Bit(policy.data && finished.data) + Bit(policy.post && finished.post)
  }

  ghost predicate RqBase(log: seq<Event>, r: nat, q: Rq, failed: bool) {
    && LegalPolicy(q.policy)
    && (q.policy.pre || q.finished.pre) && (q.policy.data || q.finished.data) && (q.policy.post || q.finished.post)
    && (q.policy.data && q.finished.data ==> q.finished.pre)
    && (q.policy.post && q.finished.post ==> q.finished.data)
    && q.insertedAt < |log| && log[q.insertedAt] == Inserted(r)
    && (q.sent ==> q.policy.data && q.finished.pre && q.queuedAt < |log| && log[q.queuedAt] == DataQueued(r))
    && (q.policy.data && q.finished.data ==> q.sent && q.queuedAt < q.dataAt < |log| && log[q.dataAt].DataDone? && log[q.dataAt].rq == r)
    && q.steps == StepsDone(q.policy, q.finished)
    && (!failed ==> History(log, r, q))
    && (failed ==> Fault(log, r, q, |log|))
  }

  ghost predicate RqOk(log: seq<Event>, r: nat, q: Rq) {
    && RqBase(log, r, q, q.failed)
    && (!q.ended ==> !q.failed && Current(q.finished) != Done && (Current(q.finished) == Data ==> q.sent))
    && (q.ended ==> q.endedAt < |log| && log[q.endedAt] == Ended(r, q.failed))
    && (q.ended && !q.failed ==>
          && Current(q.finished) == Done
          && (q.policy.pre ==> q.pre.completed < q.endedAt)
          && (q.policy.data ==> q.dataAt < q.endedAt)
          && (q.policy.post ==> q.post.completed < q.endedAt))
    && (q.ended && q.failed ==> Fault(log, r, q, q.endedAt))
  }

  /** Every event of the log is the one its request remembers. */
  ghost predicate EventOk(rqs: map<nat, Rq>, log: seq<Event>, i: nat)
    requires i < |log|
  {
    match log[i]
    case Inserted(r) => r in rqs && rqs[r].insertedAt == i
    case DataQueued(r) =>
      && r in rqs && rqs[r].policy.data && rqs[r].finished.pre && rqs[r].sent && rqs[r].queuedAt == i
      && (rqs[r].policy.pre ==>
            Succeeded(log, rqs[r].pre) && rqs[r].insertedAt < rqs[r].pre.issued && rqs[r].pre.completed < i)
    case DataDone(r, failed) => r in rqs && rqs[r].dataAt == i && rqs[r].policy.data && rqs[r].finished.data
    case Ended(r, failed) => r in rqs && rqs[r].ended && rqs[r].endedAt == i && rqs[r].failed == failed
    case FlushIssued => true
    case FlushDone(_) => true
    case WriteDone(_) => true
  }

  ghost predicate LogOk(rqs: map<nat, Rq>, log: seq<Event>) {
    forall i :: 0 <= i < |log| ==> EventOk(rqs, log, i)
  }

  predicate Queued(s: State, r: nat)
    requires Shape(s)
  {
    r in s.queues[0] || r in s.queues[1]
  }

  /** A live request stands on exactly the list that its lowest unfinished step dictates. */
  ghost predicate PlacedOk(s: State, r: nat)
    requires Shape(s) && r in s.rqs
  {
    var q := s.rqs[r];
    && (Queued(s, r) <==> !q.ended && (Current(q.finished) == PreFlush || Current(q.finished) == PostFlush))
    && (r in s.inFlight <==> !q.ended && Current(q.finished) == Data)
    && !(r in s.queues[0] && r in s.queues[1])
  }

  ghost predicate Lists(s: State, walk: seq<nat>) {
    && Shape(s)
    && NoDup(s.queues[0]) && NoDup(s.queues[1]) && NoDup(s.inFlight)
    && (forall r :: Queued(s, r) || r in s.inFlight ==> r in s.rqs)
    && (walk != [] || !InFlight(s) ==> s.queues[1 - s.running] == walk)
  }

  /** Where a request began to wait for a flush. */
  function StartAt(q: Rq): (i: nat) {
    if Current(q.finished) == PreFlush then q.insertedAt else q.dataAt
  }

  ghost predicate FlightOk(s: State)
    requires Shape(s)
  {
    InFlight(s) ==>
      && s.issuedAt < |s.log| && s.log[s.issuedAt] == FlushIssued
      && (forall m :: s.issuedAt < m < |s.log| ==> !IsFlush(s.log[m]))
      && s.queues[s.running] != []
      && (forall r :: r in s.queues[s.running] ==> r in s.rqs && StartAt(s.rqs[r]) < s.issuedAt)
  }

  /** Dispatch queue and driver together hold each data step once, and the flush once while one is in flight. */
  ghost predicate DispatchOk(s: State) {
    && (forall r :: r in s.inFlight <==> DataOf(r) in s.dispatch || r in s.device)
    && (forall r :: r in s.device ==> DataOf(r) !in s.dispatch)
    && (InFlight(s) <==> TheFlush in s.dispatch || s.flushTaken)
    && (s.flushTaken ==> TheFlush !in s.dispatch)
    && (forall i, j :: 0 <= i < j < |s.dispatch| && s.dispatch[i] == s.dispatch[j] ==> s.dispatch[i].Plain?)
  }

  /** The invariant while flush_end_io still has `walk` to push on; between operations `walk` is empty. */
  ghost predicate Inv(s: State, walk: seq<nat>) {
    && Lists(s, walk)
    && (forall r :: r in s.rqs ==> RqOk(s.log, r, s.rqs[r]) && PlacedOk(s, r))
    && LogOk(s.rqs, s.log)
    && FlightOk(s)
    && DispatchOk(s)
  }

  /** As Inv, with request r off all lists and on its way to the next one. */
  ghost predicate Floating(s: State, walk: seq<nat>, r: nat, failed: bool) {
    && Lists(s, walk)
    && r in s.rqs && !Queued(s, r) && r !in s.inFlight && !s.rqs[r].ended && !s.rqs[r].failed
    && RqBase(s.log, r, s.rqs[r], failed) && (Current(s.rqs[r].finished) == Data ==> !s.rqs[r].sent)
    && (forall x :: x in s.rqs && x != r ==> RqOk(s.log, x, s.rqs[x]) && PlacedOk(s, x))
    && LogOk(s.rqs, s.log)
    && FlightOk(s)
    && DispatchOk(s)
  }

  /** Requests that wait without a flush in flight wait for a data step to complete. */
  ghost predicate NoStall(s: State)
    requires Shape(s)
  {
    !InFlight(s) && s.queues[s.pending] != [] ==> s.inFlight != []
  }

  // ---------------------------------------------------------- preservation

  lemma HistoryGrows(log: seq<Event>, e: Event, r: nat, q: Rq)
    requires History(log, r, q)
    ensures History(log + [e], r, q)
  {
    var more := log + [e];
    assert forall m :: 0 <= m < |log| ==> more[m] == log[m];
  }

  lemma FaultGrows(log: seq<Event>, e: Event, r: nat, q: Rq, before: nat, before': nat)
    requires Fault(log, r, q, before) && before <= before' <= |log| + 1
    ensures Fault(log + [e], r, q, before')
  {
    var more := log + [e];
    assert forall m :: 0 <= m < |log| ==> more[m] == log[m];
  }

  lemma RqGrows(log: seq<Event>, e: Event, r: nat, q: Rq)
    requires RqOk(log, r, q)
    ensures RqOk(log + [e], r, q)
  {
    if !q.failed {
      HistoryGrows(log, e, r, q);
    } else {
      FaultGrows(log, e, r, q, |log|, |log| + 1);
      FaultGrows(log, e, r, q, q.endedAt, q.endedAt);
    }
  }

  lemma EventGrows(rqs: map<nat, Rq>, log: seq<Event>, e: Event, i: nat)
    requires i < |log| && EventOk(rqs, log, i)
    ensures EventOk(rqs, log + [e], i)
  {
    var more := log + [e];
    assert forall m :: 0 <= m < |log| ==> more[m] == log[m];
  }

  lemma LogGrows(rqs: map<nat, Rq>, log: seq<Event>, e: Event)
    requires LogOk(rqs, log) && EventOk(rqs, log + [e], |log|)
    ensures LogOk(rqs, log + [e])
  {
    forall i | 0 <= i < |log| + 1 ensures EventOk(rqs, log + [e], i) {
      if i < |log| {
        EventGrows(rqs, log, e, i);
      }
    }
  }

  lemma KickInv(s: State, walk: seq<nat>, now: nat, hz: nat)
    requires Inv(s, walk)
    ensures Inv(Kick(s, now, hz), walk) && NoStall(Kick(s, now, hz))
  {
    hide RqBase;
    var t := Kick(s, now, hz);
    if t != s {
      forall r | r in t.rqs ensures RqOk(t.log, r, t.rqs[r]) && PlacedOk(t, r) {
        RqGrows(s.log, FlushIssued, r, s.rqs[r]);
      }
      LogGrows(s.rqs, s.log, FlushIssued);
      StartsBefore(s);
    }
  }

  /** Whoever waits for a flush began to wait in the past. */
  lemma StartsBefore(s: State)
    requires Shape(s) && forall r :: r in s.rqs ==> RqOk(s.log, r, s.rqs[r]) && PlacedOk(s, r)
    ensures forall r :: r in s.rqs && Queued(s, r) ==> StartAt(s.rqs[r]) < |s.log|
  {
  }

  /** Updating the record of a live request keeps what the log says about it. */
  lemma LogUpdated(rqs: map<nat, Rq>, log: seq<Event>, r: nat, q: Rq)
    requires LogOk(rqs, log) && r in rqs && !rqs[r].ended
    requires q.insertedAt == rqs[r].insertedAt && q.policy == rqs[r].policy
    requires rqs[r].finished.pre ==> q.finished.pre && q.pre == rqs[r].pre
    requires rqs[r].finished.data ==> q.finished.data && q.dataAt == rqs[r].dataAt
    requires rqs[r].sent ==> q.sent && q.queuedAt == rqs[r].queuedAt
    ensures LogOk(rqs[r := q], log)
  {
    var more := rqs[r := q];
    forall i | 0 <= i < |log| ensures EventOk(more, log, i) {
      assert EventOk(rqs, log, i);
    }
  }

  /** Lists that another request neither joins nor leaves place it as before. */
  lemma PlacedAsBefore(s: State, t: State, x: nat)
    requires Shape(s) && Shape(t) && x in s.rqs && x in t.rqs && PlacedOk(s, x)
    requires t.rqs[x].finished == s.rqs[x].finished && t.rqs[x].ended == s.rqs[x].ended
    requires x in t.queues[0] <==> x in s.queues[0]
    requires x in t.queues[1] <==> x in s.queues[1]
    requires x in t.inFlight <==> x in s.inFlight
    ensures PlacedOk(t, x)
  {
  }

  lemma ToPendingInv(s: State, r: nat, since: nat)
    requires Floating(s, [], r, false)
    requires Current(s.rqs[r].finished) == PreFlush || Current(s.rqs[r].finished) == PostFlush
    ensures Inv(ToPending(s, r, since), [])
  {
    hide RqBase, EventOk;
    var t := ToPending(s, r, since);
    forall x | x in t.rqs ensures RqOk(t.log, x, t.rqs[x]) && PlacedOk(t, x) {
      if x != r {
        PlacedAsBefore(s, t, x);
      }
    }
  }

  lemma DataQueuedOk(rqs: map<nat, Rq>, log: seq<Event>, r: nat)
    requires r in rqs && RqBase(log, r, rqs[r], false) && Current(rqs[r].finished) == Data
    ensures var q := rqs[r].(sent := true, queuedAt := |log|);
            EventOk(rqs[r := q], log + [DataQueued(r)], |log|) && RqBase(log + [DataQueued(r)], r, q, false)
  {
    HistoryGrows(log, DataQueued(r), r, rqs[r]);
  }

  lemma ToDataLists(s: State, walk: seq<nat>, r: nat)
    requires Lists(s, walk) && FlightOk(s) && DispatchOk(s) && r in s.rqs && !Queued(s, r) && r !in s.inFlight
    ensures var t := ToData(s, r); Lists(t, walk) && FlightOk(t) && DispatchOk(t)
  {
    NoDupSnoc(s.inFlight, r);
  }

  lemma ToDataInv(s: State, walk: seq<nat>, r: nat)
    requires Floating(s, walk, r, false) && Current(s.rqs[r].finished) == Data
    ensures Inv(ToData(s, r), walk)
  {
    assert Shape(s);
    ToDataLists(s, walk, r);
    hide RqBase, EventOk, LogOk, FlightOk, DispatchOk, NoDup, History, Fault;
    var t := ToData(s, r);
    DataQueuedOk(s.rqs, s.log, r);
    forall x | x in t.rqs ensures RqOk(t.log, x, t.rqs[x]) && PlacedOk(t, x) {
      if x != r {
        RqGrows(s.log, DataQueued(r), x, s.rqs[x]);
        PlacedAsBefore(s, t, x);
      }
    }
    LogUpdated(s.rqs, s.log, r, t.rqs[r]);
    LogGrows(t.rqs, s.log, DataQueued(r));
  }

  lemma EndedOk(log: seq<Event>, r: nat, q: Rq, failed: bool)
    requires RqBase(log, r, q, failed) && (failed || Current(q.finished) == Done)
    ensures RqOk(log + [Ended(r, failed)], r, q.(ended := true, failed := failed, endedAt := |log|))
  {
    if !failed {
      HistoryGrows(log, Ended(r, failed), r, q);
    } else {
      FaultGrows(log, Ended(r, failed), r, q, |log|, |log|);
    }
  }

  lemma ToEndInv(s: State, walk: seq<nat>, r: nat, failed: bool)
    requires Floating(s, walk, r, failed) && (failed || Current(s.rqs[r].finished) == Done)
    ensures Inv(ToEnd(s, r, failed), walk)
  {
    hide RqBase, RqOk;
    var t := ToEnd(s, r, failed);
    EndedOk(s.log, r, s.rqs[r], failed);
    forall x | x in t.rqs ensures RqOk(t.log, x, t.rqs[x]) && PlacedOk(t, x) {
      if x != r {
        RqGrows(s.log, Ended(r, failed), x, s.rqs[x]);
        PlacedAsBefore(s, t, x);
      }
    }
    LogUpdated(s.rqs, s.log, r, t.rqs[r]);
    LogGrows(t.rqs, s.log, Ended(r, failed));
  }

  // -------------------------------------------- taking a request off its list

  lemma UnlinkLists(s: State, r: nat)
    requires Shape(s) && NoDup(s.queues[0]) && NoDup(s.queues[1]) && NoDup(s.inFlight)
    ensures var t := Unlink(s, r);
            && NoDup(t.queues[0]) && NoDup(t.queues[1]) && NoDup(t.inFlight)
            && !Queued(t, r) && r !in t.inFlight
            && (forall x :: x != r ==> (x in t.queues[0] <==> x in s.queues[0]) && (x in t.queues[1] <==> x in s.queues[1]))
            && (forall x :: x != r ==> (x in t.inFlight <==> x in s.inFlight))
  {
    RemoveKeepsNoDup(s.queues[0], r);
    RemoveKeepsNoDup(s.queues[1], r);
    RemoveKeepsNoDup(s.inFlight, r);
  }

  lemma InsertFloats(s: State, r: nat, policy: Steps)
    requires Inv(s, []) && r !in s.rqs && LegalPolicy(policy)
    ensures Floating(Unlink(Submitted(s, r, policy), r), [], r, false)
  {
    hide RqOk, RqBase, EventOk, NoDup;
    var t := Submitted(s, r, policy);
    assert Unlink(t, r) == t;
    NewRqOk(s.log, r, policy);
    forall x | x in s.rqs ensures RqOk(t.log, x, t.rqs[x]) && PlacedOk(t, x) {
      RqGrows(s.log, Inserted(r), x, s.rqs[x]);
      PlacedAsBefore(s, t, x);
    }
    LogInserted(s.rqs, s.log, r, t.rqs[r]);
  }

  lemma NewRqOk(log: seq<Event>, r: nat, policy: Steps)
    requires LegalPolicy(policy)
    ensures RqBase(log + [Inserted(r)], r, NewRq(policy, |log|), false)
  {
  }

  lemma LogInserted(rqs: map<nat, Rq>, log: seq<Event>, r: nat, q: Rq)
    requires LogOk(rqs, log) && r !in rqs && q.insertedAt == |log|
    ensures LogOk(rqs[r := q], log + [Inserted(r)])
  {
    var more := rqs[r := q];
    forall i | 0 <= i < |log| ensures EventOk(more, log, i) {
      assert EventOk(rqs, log, i);
    }
    LogGrows(more, log, Inserted(r));
  }

  lemma DataLists(s: State, r: nat, failed: bool)
    requires Lists(s, []) && FlightOk(s) && DispatchOk(s) && r in s.device && r in s.rqs && PlacedOk(s, r)
    ensures !Queued(s, r)
    ensures var u := Unlink(DataRecorded(s, r, failed), r);
            Lists(u, []) && FlightOk(u) && DispatchOk(u) && !Queued(u, r) && r !in u.inFlight
    ensures var u := Unlink(DataRecorded(s, r, failed), r);
            && (forall x :: x != r ==> (x in u.queues[0] <==> x in s.queues[0]) && (x in u.queues[1] <==> x in s.queues[1]))
            && (forall x :: x != r ==> (x in u.inFlight <==> x in s.inFlight))
  {
    UnlinkLists(DataRecorded(s, r, failed), r);
    RemoveAbsent(s.queues[0], r);
    RemoveAbsent(s.queues[1], r);
    hide Remove, NoDup;
  }

  lemma RemoveAbsent(q: seq<nat>, r: nat)
    requires r !in q
    ensures Remove(q, r) == q
  {
  }

  lemma DataFloats(s: State, r: nat, failed: bool)
    requires Inv(s, []) && r in s.device
    ensures r in s.rqs && Floating(Unlink(DataRecorded(s, r, failed), r), [], r, failed)
  {
    hide RqOk, RqBase, EventOk, Remove, LogOk;
    assert r in s.inFlight && r in s.rqs;
    DataLists(s, r, failed);
    hide FlightOk, DispatchOk, NoDup;
    var t := DataRecorded(s, r, failed);
    var u := Unlink(t, r);
    assert PlacedOk(s, r);
    DataRqOk(s.log, r, s.rqs[r], failed);
    forall x | x in s.rqs && x != r ensures RqOk(u.log, x, u.rqs[x]) && PlacedOk(u, x) {
      RqGrows(s.log, DataDone(r, failed), x, s.rqs[x]);
      PlacedAsBefore(s, u, x);
    }
    LogUpdated(s.rqs, s.log, r, t.rqs[r]);
    DataDoneOk(t.rqs, s.log, r, failed);
    LogGrows(t.rqs, s.log, DataDone(r, failed));
  }

  lemma DataDoneOk(rqs: map<nat, Rq>, log: seq<Event>, r: nat, failed: bool)
    requires r in rqs && rqs[r].dataAt == |log| && rqs[r].policy.data && rqs[r].finished.data
    ensures EventOk(rqs, log + [DataDone(r, failed)], |log|)
  {
  }

  lemma DataRqOk(log: seq<Event>, r: nat, q: Rq, failed: bool)
    requires RqOk(log, r, q) && Current(q.finished) == Data && !q.ended
    ensures !q.failed && q.policy.data
    ensures RqBase(log + [DataDone(r, failed)], r, q.(finished := Mark(q.finished, Data), steps := q.steps + 1, dataAt := |log|), failed)
  {
    HistoryGrows(log, DataDone(r, failed), r, q);
  }

  lemma WriteEndInv(s: State, w: nat)
    requires Inv(s, [])
    ensures Inv(WriteEnd(s, w), [])
  {
    hide RqOk;
    var t := WriteEnd(s, w);
    forall x | x in s.rqs ensures RqOk(t.log, x, t.rqs[x]) && PlacedOk(t, x) {
      RqGrows(s.log, WriteDone(w), x, s.rqs[x]);
      PlacedAsBefore(s, t, x);
    }
    LogGrows(s.rqs, s.log, WriteDone(w));
  }

  // --------------------------------------------------- whole operations

  lemma CompleteSeqInv(s: State, walk: seq<nat>, r: nat, failed: bool, now: nat, hz: nat)
    requires Shape(s) && r in s.rqs && Floating(Unlink(s, r), walk, r, failed)
    requires walk == [] || failed || Current(s.rqs[r].finished) == Data || Current(s.rqs[r].finished) == Done
    ensures Inv(CompleteSeq(s, r, failed, now, hz), walk) && NoStall(CompleteSeq(s, r, failed, now, hz))
  {
    hide Inv, Floating, Unlink, NoStall;
    var u, step := Unlink(s, r), Current(s.rqs[r].finished);
    SameRqs(s, r);
    if failed || step == Done {
      ToEndInv(u, walk, r, failed);
    } else if step == Data {
      ToDataInv(u, walk, r);
    } else {
      ToPendingInv(u, r, if s.queues[s.pending] == [] then now else s.since);
    }
    KickInv(MoveOn(s, r, failed, now), walk, now, hz);
  }

  lemma SameRqs(s: State, r: nat)
    requires Shape(s)
    ensures Unlink(s, r).rqs == s.rqs && Shape(Unlink(s, r))
  {
  }

  lemma InsertInv(s: State, r: nat, policy: Steps, now: nat, hz: nat)
    requires Inv(s, []) && NoStall(s) && r !in s.rqs
    requires LegalPolicy(policy) || policy == Steps(false, true, false)
    ensures Inv(Insert(s, r, policy, now, hz), []) && NoStall(Insert(s, r, policy, now, hz))
  {
    if LegalPolicy(policy) {
      InsertFloats(s, r, policy);
      CompleteSeqInv(Submitted(s, r, policy), [], r, false, now, hz);
    } else {
      PlainInv(s, r);
    }
  }

  lemma PlainInv(s: State, r: nat)
    requires Inv(s, [])
    ensures Inv(s.(dispatch := s.dispatch + [Plain(r)]), [])
  {
    hide RqOk, EventOk;
    var t := s.(dispatch := s.dispatch + [Plain(r)]);
    forall x | x in s.rqs ensures PlacedOk(t, x) {
      assert PlacedOk(s, x);
    }
  }

  lemma FetchInv(s: State)
    requires Inv(s, []) && s.dispatch != []
    ensures Inv(Fetch(s), [])
  {
    FetchFrame(s);
    FetchDispatch(s);
    hide RqOk, LogOk, FlightOk, DispatchOk, Lists, Fetch;
    var t := Fetch(s);
    forall x | x in s.rqs ensures PlacedOk(t, x) {
      PlacedAsBefore(s, t, x);
    }
  }

  lemma FetchFrame(s: State)
    requires Lists(s, []) && FlightOk(s) && s.dispatch != []
    ensures var t := Fetch(s);
            && Lists(t, []) && FlightOk(t)
            && t.rqs == s.rqs && t.log == s.log && t.queues == s.queues && t.inFlight == s.inFlight
  {
    hide NoDup;
  }

  lemma FetchDispatch(s: State)
    requires Shape(s) && DispatchOk(s) && s.dispatch != []
    ensures DispatchOk(Fetch(s))
  {
    var item, rest := s.dispatch[0], s.dispatch[1..];
    assert forall x :: x in s.dispatch <==> x == item || x in rest;
    assert item in rest ==> item.Plain?;
  }

  lemma DataEndInv(s: State, r: nat, failed: bool, now: nat, hz: nat)
    requires Inv(s, []) && r in s.device
    ensures r in s.rqs
    ensures Inv(DataEnd(s, r, failed, now, hz), []) && NoStall(DataEnd(s, r, failed, now, hz))
  {
    DataFloats(s, r, failed);
    CompleteSeqInv(DataRecorded(s, r, failed), [], r, failed, now, hz);
  }

  /** What flush_end_io knows about the requests it still has to push on. */
  ghost predicate Waited(s: State, walk: seq<nat>, span: Span, failed: bool) {
    && FlushSpan(s.log, span, failed)
    && forall r :: r in walk ==> r in s.rqs && StartAt(s.rqs[r]) < span.issued
  }

  lemma ServeLists(s: State, walk: seq<nat>, span: Span)
    requires Lists(s, walk) && FlightOk(s) && DispatchOk(s) && walk != [] && walk[0] in s.rqs && PlacedOk(s, walk[0])
    ensures walk[0] in s.queues[1 - s.running] && !s.rqs[walk[0]].ended && walk[0] !in s.queues[s.running]
    ensures var r := walk[0]; var u := Unlink(Served(s, r, span), r);
            && Lists(u, walk[1..]) && FlightOk(u) && DispatchOk(u) && !Queued(u, r) && r !in u.inFlight
            && (forall x :: x != r ==> (x in u.queues[0] <==> x in s.queues[0]) && (x in u.queues[1] <==> x in s.queues[1]))
            && (forall x :: x != r ==> (x in u.inFlight <==> x in s.inFlight))
  {
    hide Serve, NoDup, Remove;
    var r := walk[0];
    assert walk[0] in s.queues[1 - s.running];
    UnlinkLists(Served(s, r, span), r);
    RemoveHead(walk);
    RemoveAbsent(s.queues[s.running], r);
    RemoveAbsent(s.inFlight, r);
  }

  lemma RemoveHead(q: seq<nat>)
    requires q != [] && NoDup(q)
    ensures Remove(q, q[0]) == q[1..]
  {
    RemoveAbsent(q[1..], q[0]);
  }

  lemma ServeFloats(s: State, walk: seq<nat>, span: Span, failed: bool)
    requires Inv(s, walk) && walk != [] && Waited(s, walk, span, failed)
    ensures Floating(Unlink(Served(s, walk[0], span), walk[0]), walk[1..], walk[0], failed)
    ensures Current(Serve(s.rqs[walk[0]], span).finished) in {Data, Done}
  {
    hide RqOk, RqBase, EventOk, Remove, LogOk;
    var r := walk[0];
    var t := Served(s, r, span);
    var u := Unlink(t, r);
    assert r in s.queues[1 - s.running] && PlacedOk(s, r);
    ServeLists(s, walk, span);
    hide DispatchOk, NoDup;
    ServeRqOk(s.log, r, s.rqs[r], span, failed);
    forall x | x in s.rqs && x != r ensures RqOk(u.log, x, u.rqs[x]) && PlacedOk(u, x) {
      PlacedAsBefore(s, u, x);
    }
    LogUpdated(s.rqs, s.log, r, t.rqs[r]);
  }

  lemma ServeRqOk(log: seq<Event>, r: nat, q: Rq, span: Span, failed: bool)
    requires RqOk(log, r, q) && !q.ended && (Current(q.finished) == PreFlush || Current(q.finished) == PostFlush)
    requires StartAt(q) < span.issued && FlushSpan(log, span, failed)
    ensures !q.failed && RqBase(log, r, Serve(q, span), failed)
    ensures Current(Serve(q, span).finished) in {Data, Done}
    ensures Current(Serve(q, span).finished) == Data ==> !Serve(q, span).sent
  {
  }

  lemma CompleteSeqFrame(s: State, r: nat, failed: bool, now: nat, hz: nat)
    requires Shape(s) && r in s.rqs
    ensures var t := CompleteSeq(s, r, failed, now, hz);
            && s.log <= t.log && t.rqs.Keys == s.rqs.Keys
            && forall x :: x in s.rqs && x != r ==> t.rqs[x] == s.rqs[x]
  {
    hide Remove;
  }

  lemma SpanGrows(log: seq<Event>, more: seq<Event>, span: Span, failed: bool)
    requires FlushSpan(log, span, failed) && log <= more
    ensures FlushSpan(more, span, failed)
  {
    assert forall m :: 0 <= m < |log| ==> more[m] == log[m];
  }

  /** One round of the walk keeps the invariant for what is left of it. */
  lemma PushOneInv(s: State, walk: seq<nat>, span: Span, failed: bool, now: nat, hz: nat)
    requires Inv(s, walk) && walk != [] && Waited(s, walk, span, failed)
    ensures var u := CompleteSeq(Served(s, walk[0], span), walk[0], failed, now, hz);
            Inv(u, walk[1..]) && Waited(u, walk[1..], span, failed) && NoStall(u)
  {
    hide Inv, Floating, CompleteSeq, NoStall, FlushSpan, Serve, Unlink;
    var r, rest := walk[0], walk[1..];
    WalkIsDistinct(s, walk);
    ServeFloats(s, walk, span, failed);
    var t := Served(s, r, span);
    CompleteSeqInv(t, rest, r, failed, now, hz);
    CompleteSeqFrame(t, r, failed, now, hz);
    SpanGrows(s.log, CompleteSeq(t, r, failed, now, hz).log, span, failed);
  }

  lemma {:induction false} PushAllInv(s: State, walk: seq<nat>, span: Span, failed: bool, now: nat, hz: nat)
    requires Inv(s, walk) && Waited(s, walk, span, failed) && (walk == [] ==> NoStall(s))
    ensures Inv(PushAll(s, walk, span, failed, now, hz), []) && NoStall(PushAll(s, walk, span, failed, now, hz))
    decreases |walk|
  {
    if walk != [] {
      PushOneInv(s, walk, span, failed, now, hz);
      PushAllInv(CompleteSeq(Served(s, walk[0], span), walk[0], failed, now, hz), walk[1..], span, failed, now, hz);
    }
  }

  lemma WalkIsDistinct(s: State, walk: seq<nat>)
    requires Inv(s, walk) && walk != []
    ensures Shape(s) && walk[0] in s.rqs && walk[0] !in walk[1..]
  {
    hide RqOk, EventOk, PlacedOk, FlightOk, DispatchOk;
  }

  lemma FlushEndInv(s: State, failed: bool, now: nat, hz: nat)
    requires Inv(s, []) && s.flushTaken
    ensures forall r :: r in s.queues[s.running] ==> r in s.rqs
    ensures Inv(FlushEnd(s, failed, now, hz), []) && NoStall(FlushEnd(s, failed, now, hz))
  {
    LandedInv(s, failed);
    PushAllInv(Landed(s, failed), s.queues[s.running], Span(s.issuedAt, |s.log|), failed, now, hz);
  }

  lemma LandedInv(s: State, failed: bool)
    requires Inv(s, []) && s.flushTaken
    ensures Inv(Landed(s, failed), s.queues[s.running]) && s.queues[s.running] != []
    ensures Waited(Landed(s, failed), s.queues[s.running], Span(s.issuedAt, |s.log|), failed)
  {
    hide RqOk, EventOk;
    var t := Landed(s, failed);
    forall x | x in s.rqs ensures RqOk(t.log, x, t.rqs[x]) && PlacedOk(t, x) {
      RqGrows(s.log, FlushDone(failed), x, s.rqs[x]);
      assert PlacedOk(s, x);
    }
    FlushDoneOk(s.rqs, s.log, failed);
    LogGrows(s.rqs, s.log, FlushDone(failed));
  }

  lemma FlushDoneOk(rqs: map<nat, Rq>, log: seq<Event>, failed: bool)
    ensures EventOk(rqs, log + [FlushDone(failed)], |log|)
  {
  }

  // --------------------------------------------------------------- all runs

  datatype Op =
    | InsertOp(rq: nat, flush: bool, fua: bool, hasData: bool)
    | FetchOp
    | DataEndOp(rq: nat, failed: bool)
    | FlushEndOp(failed: bool)
    | WriteEndOp(rq: nat)

  /**
   When an operation can happen: a new FLUSH or FUA request, where FUA makes
   sense only with data; a completion of something the driver has taken.
   */
  predicate Enabled(s: State, op: Op) {
    match op
    case InsertOp(r, flush, fua, hasData) => r !in s.rqs && (flush || fua) && (fua ==> hasData)
    case FetchOp => s.dispatch != []
    case DataEndOp(r, _) => r in s.device
    case FlushEndOp(_) => s.flushTaken
    case WriteEndOp(_) => true
  }

  /** One operation; it keeps the invariant and leaves nobody waiting in vain. */
  ghost function Apply(s: State, op: Op, deviceFua: bool, now: nat, hz: nat): (t: State)
    requires Inv(s, []) && NoStall(s) && Enabled(s, op)
    ensures Inv(t, []) && NoStall(t)
  {
    match op
    case InsertOp(r, flush, fua, hasData) =>
      var policy := FlushPolicy(deviceFua, flush, fua, hasData);
      InsertInv(s, r, policy, now, hz);
      Insert(s, r, policy, now, hz)
    case FetchOp => FetchInv(s); Fetch(s)
    case DataEndOp(r, failed) => DataEndInv(s, r, failed, now, hz); DataEnd(s, r, failed, now, hz)
    case FlushEndOp(failed) => FlushEndInv(s, failed, now, hz); FlushEnd(s, failed, now, hz)
    case WriteEndOp(w) => WriteEndInv(s, w); WriteEnd(s, w)
  }

  /** A run: operations with the times at which they happen, each one possible when its turn comes. */
  ghost predicate Legal(ops: seq<(Op, nat)>, deviceFua: bool, hz: nat)
    decreases |ops|, 0
  {
    ops != [] ==>
      && Legal(ops[..|ops| - 1], deviceFua, hz)
      && Enabled(Run(ops[..|ops| - 1], deviceFua, hz), ops[|ops| - 1].0)
  }

  ghost function Run(ops: seq<(Op, nat)>, deviceFua: bool, hz: nat): (s: State)
    requires Legal(ops, deviceFua, hz)
    ensures Inv(s, []) && NoStall(s)
    decreases |ops|, 1
  {
    if ops == [] then Init()
    else
      var (op, now) := ops[|ops| - 1];
      Apply(Run(ops[..|ops| - 1], deviceFua, hz), op, deviceFua, now, hz)
  }

  /**
   Flush ordering.  In every run, a data step that needs a PREFLUSH is queued
   for the device only after the completion of a flush that was issued after
   the request was inserted.  A request that ends without failure has had
   each of its steps, and its POSTFLUSH was issued after its data completed.
   */
  lemma FlushOrdering(ops: seq<(Op, nat)>, deviceFua: bool, hz: nat, i: nat, r: nat)
    requires Legal(ops, deviceFua, hz) && i < |Run(ops, deviceFua, hz).log|
    ensures var s := Run(ops, deviceFua, hz);
            s.log[i] == DataQueued(r) ==>
              && r in s.rqs
              && (s.rqs[r].policy.pre ==> FlushedBetween(s.log, Inserted(r), i))
    ensures var s := Run(ops, deviceFua, hz);
            s.log[i] == Ended(r, false) ==>
              && r in s.rqs
              && (s.rqs[r].policy.pre ==> FlushedBetween(s.log, Inserted(r), i))
              && (s.rqs[r].policy.data ==> DataDone(r, false) in s.log[..i])
              && (s.rqs[r].policy.post ==> FlushedBetween(s.log, DataDone(r, false), i))
  {
    var s := Run(ops, deviceFua, hz);
    assert EventOk(s.rqs, s.log, i);
    if s.log[i] == DataQueued(r) && s.rqs[r].policy.pre {
      SpanSeparates(s.log, s.rqs[r].insertedAt, s.rqs[r].pre, i);
    } else if s.log[i] == Ended(r, false) {
      EndedHadAllSteps(s, r, i);
    }
  }

  /** A flush was issued after an event e and succeeded before position i. */
  ghost predicate FlushedBetween(log: seq<Event>, e: Event, i: nat) {
    exists a: nat, span: Span :: a < span.issued && span.completed < i && a < |log| && log[a] == e && Succeeded(log, span)
  }

  lemma SpanSeparates(log: seq<Event>, a: nat, span: Span, i: nat)
    requires a < span.issued && span.completed < i && Succeeded(log, span)
    ensures a < |log| && FlushedBetween(log, log[a], i)
  {
  }

  lemma EndedHadAllSteps(s: State, r: nat, i: nat)
    requires Inv(s, []) && i < |s.log| && s.log[i] == Ended(r, false)
    ensures r in s.rqs
    ensures s.rqs[r].policy.pre ==> FlushedBetween(s.log, Inserted(r), i)
    ensures s.rqs[r].policy.data ==> DataDone(r, false) in s.log[..i]
    ensures s.rqs[r].policy.post ==> FlushedBetween(s.log, DataDone(r, false), i)
  {
    hide Lists, PlacedOk, FlightOk, DispatchOk, NoDup, Fault;
    assert EventOk(s.rqs, s.log, i);
    var q := s.rqs[r];
    assert RqOk(s.log, r, q);
    hide LogOk;
    if q.policy.data {
      assert s.log[..i][q.dataAt] == DataDone(r, false);
    }
    if q.policy.pre {
      SpanSeparates(s.log, q.insertedAt, q.pre, i);
    }
    if q.policy.post {
      SpanSeparates(s.log, q.dataAt, q.post, i);
    }
  }

  /**
   Every request ends at most once, its data is queued and completed at most
   once and in this order, at most three steps complete, and a request is on no
   list exactly when it has ended.  One that ends without failure had exactly
   the steps of its policy; one that failed did so because of an error.
   */
  lemma EndsOnce(ops: seq<(Op, nat)>, deviceFua: bool, hz: nat)
    requires Legal(ops, deviceFua, hz)
    ensures var s := Run(ops, deviceFua, hz); AtMostOnce(s.log)
    ensures var s := Run(ops, deviceFua, hz);
            forall r :: r in s.rqs ==>
              && (s.rqs[r].ended <==> !Queued(s, r) && r !in s.inFlight)
              && (s.rqs[r].ended <==> Ended(r, false) in s.log || Ended(r, true) in s.log)
              && s.rqs[r].steps <= 3
              && (s.rqs[r].ended && !s.rqs[r].failed ==> s.rqs[r].steps == StepsDone(s.rqs[r].policy, s.rqs[r].policy))
    ensures var s := Run(ops, deviceFua, hz);
            forall i, r :: 0 <= i < |s.log| && s.log[i] == Ended(r, true) ==> r in s.rqs && FailedBefore(s.log, r, s.rqs[r].policy, i)
  {
    hide Inv, Run, NoStall, Queued, AtMostOnce, FailedBefore, StepsDone;
    var s := Run(ops, deviceFua, hz);
    LoggedOnce(s);
    forall r | r in s.rqs ensures
      && (s.rqs[r].ended <==> !Queued(s, r) && r !in s.inFlight)
      && (s.rqs[r].ended <==> Ended(r, false) in s.log || Ended(r, true) in s.log)
      && s.rqs[r].steps <= 3
      && (s.rqs[r].ended && !s.rqs[r].failed ==> s.rqs[r].steps == StepsDone(s.rqs[r].policy, s.rqs[r].policy))
    {
      EndedIffLogged(s, r);
      StepsOfPolicy(s, r);
    }
    forall i, r | 0 <= i < |s.log| && s.log[i] == Ended(r, true) ensures r in s.rqs && FailedBefore(s.log, r, s.rqs[r].policy, i) {
      FailedForAReason(s, r, i);
    }
  }

  /** A request ends once, its data is queued once and completes once, after it was queued. */
  ghost predicate AtMostOnce(log: seq<Event>) {
    && (forall i, j :: 0 <= i < |log| && 0 <= j < |log| && SameKind(log[i], log[j]) ==> i == j)
    && (forall i, r, f :: 0 <= i < |log| && log[i] == DataDone(r, f) ==> DataQueued(r) in log[..i])
  }

  /** The data of r failed, or a flush that was issued after r began to wait for one did. */
  ghost predicate FailedBefore(log: seq<Event>, r: nat, policy: Steps, i: nat)
    requires i <= |log|
  {
    || (policy.data && DataDone(r, true) in log[..i])
    || exists a: nat, span: Span ::
         && a < span.issued && span.completed < i && FlushSpan(log, span, true)
         && ((policy.pre && log[a] == Inserted(r)) || (policy.post && log[a].DataDone? && log[a].rq == r))
  }

  lemma StepsOfPolicy(s: State, r: nat)
    requires Inv(s, []) && r in s.rqs
    ensures s.rqs[r].steps <= 3
    ensures s.rqs[r].ended && !s.rqs[r].failed ==> s.rqs[r].steps == StepsDone(s.rqs[r].policy, s.rqs[r].policy)
  {
    assert RqOk(s.log, r, s.rqs[r]);
  }

  lemma FailedForAReason(s: State, r: nat, i: nat)
    requires Inv(s, []) && i < |s.log| && s.log[i] == Ended(r, true)
    ensures r in s.rqs && FailedBefore(s.log, r, s.rqs[r].policy, i)
  {
    assert EventOk(s.rqs, s.log, i);
    var q := s.rqs[r];
    assert RqOk(s.log, r, q) && Fault(s.log, r, q, i);
    if q.policy.data && q.dataAt < i && s.log[q.dataAt] == DataDone(r, true) {
      assert s.log[..i][q.dataAt] == DataDone(r, true);
    } else if q.policy.pre && FlushSpan(s.log, q.pre, true) && q.insertedAt < q.pre.issued && q.pre.completed < i {
      assert s.log[q.insertedAt] == Inserted(r);
    } else {
      assert q.policy.post && FlushSpan(s.log, q.post, true) && s.log[q.dataAt].rq == r;
    }
  }

  lemma LoggedOnce(s: State)
    requires Inv(s, [])
    ensures Shape(s) && AtMostOnce(s.log)
  {
    hide EventOk, RqOk, PlacedOk, FlightOk, DispatchOk, NoDup;
    forall i, j | 0 <= i < |s.log| && 0 <= j < |s.log| && SameKind(s.log[i], s.log[j]) ensures i == j {
      KindOnce(s.rqs, s.log, i, j);
    }
    forall i, r, f | 0 <= i < |s.log| && s.log[i] == DataDone(r, f) ensures DataQueued(r) in s.log[..i] {
      QueuedBefore(s.rqs, s.log, i, r);
    }
  }

  /** Both end, queue or complete the data of the same request. */
  predicate SameKind(a: Event, b: Event) {
    match a
    case Ended(r, _) => b.Ended? && b.rq == r
    case DataQueued(r) => b == a
    case DataDone(r, _) => b.DataDone? && b.rq == r
    case _ => false
  }

  lemma KindOnce(rqs: map<nat, Rq>, log: seq<Event>, i: nat, j: nat)
    requires LogOk(rqs, log) && i < |log| && j < |log| && SameKind(log[i], log[j])
    ensures i == j
  {
    assert EventOk(rqs, log, i) && EventOk(rqs, log, j);
  }

  lemma QueuedBefore(rqs: map<nat, Rq>, log: seq<Event>, i: nat, r: nat)
    requires LogOk(rqs, log) && i < |log| && log[i].DataDone? && log[i].rq == r
    requires r in rqs ==> RqOk(log, r, rqs[r])
    ensures DataQueued(r) in log[..i]
  {
    assert EventOk(rqs, log, i);
    assert log[..i][rqs[r].queuedAt] == DataQueued(r);
  }

  lemma EndedIffLogged(s: State, r: nat)
    requires Inv(s, []) && r in s.rqs
    ensures s.rqs[r].ended <==> !Queued(s, r) && r !in s.inFlight
    ensures s.rqs[r].ended <==> Ended(r, false) in s.log || Ended(r, true) in s.log
  {
    hide RqBase, Fault, FlightOk, DispatchOk, NoDup;
    assert RqOk(s.log, r, s.rqs[r]) && PlacedOk(s, r);
    if Ended(r, false) in s.log {
      var i :| 0 <= i < |s.log| && s.log[i] == Ended(r, false);
      assert EventOk(s.rqs, s.log, i);
    } else if Ended(r, true) in s.log {
      var i :| 0 <= i < |s.log| && s.log[i] == Ended(r, true);
      assert EventOk(s.rqs, s.log, i);
    }
  }

  /**
   The sequencer never stalls.  At any time a flush is in flight exactly when
   the two indices differ, it is on the dispatch queue or with the driver, and
   somebody waits for it; requests wait without a flush in flight only while
   a data step is out, whose completion reconsiders.
   */
  lemma NeverStalls(ops: seq<(Op, nat)>, deviceFua: bool, hz: nat)
    requires Legal(ops, deviceFua, hz)
    ensures var s := Run(ops, deviceFua, hz);
            && (InFlight(s) <==> TheFlush in s.dispatch || s.flushTaken)
            && (InFlight(s) ==> s.queues[s.running] != [])
            && (!InFlight(s) ==> s.queues[1 - s.pending] == [])
            && ((exists r :: r in s.rqs && !s.rqs[r].ended) ==> s.dispatch != [] || s.device != {} || s.flushTaken)
  {
    hide Inv, Run, NoStall;
    NobodyWaitsInVain(Run(ops, deviceFua, hz));
  }

  lemma NobodyWaitsInVain(s: State)
    requires Inv(s, []) && NoStall(s)
    ensures InFlight(s) <==> TheFlush in s.dispatch || s.flushTaken
    ensures InFlight(s) ==> s.queues[s.running] != []
    ensures !InFlight(s) ==> s.queues[1 - s.pending] == []
    ensures (exists r :: r in s.rqs && !s.rqs[r].ended) ==> s.dispatch != [] || s.device != {} || s.flushTaken
  {
    hide RqOk, EventOk, NoDup, PlacedOk;
    if r :| r in s.rqs && !s.rqs[r].ended {
      SomethingIsOut(s, r);
    }
  }

  lemma SomethingIsOut(s: State, r: nat)
    requires Inv(s, []) && NoStall(s) && r in s.rqs && !s.rqs[r].ended
    ensures s.dispatch != [] || s.device != {} || s.flushTaken
  {
    hide RqBase, Fault, EventOk, NoDup;
    assert RqOk(s.log, r, s.rqs[r]) && PlacedOk(s, r);
    if !InFlight(s) {
      assert s.inFlight != [] by {
        assert Queued(s, r) ==> r in s.queues[s.pending];
      }
      assert s.inFlight[0] in s.inFlight;
    }
  }

  /**
   What the ordering is for: if completing a flush makes durable whatever had
   completed when the flush was issued, then every write, sequenced or not, that
   had completed before a PREFLUSH request was inserted is durable before the
   request's own data is queued.
   */
  lemma PreflushMakesEarlierWritesDurable(ops: seq<(Op, nat)>, deviceFua: bool, hz: nat, d: nat, r: nat, i: nat)
    requires Legal(ops, deviceFua, hz)
    requires var s := Run(ops, deviceFua, hz);
             && r in s.rqs && s.rqs[r].policy.pre && i < |s.log| && s.log[i] == DataQueued(r)
             && d < s.rqs[r].insertedAt && d < |s.log| && (s.log[d].WriteDone? || s.log[d].DataDone?)
    ensures var s := Run(ops, deviceFua, hz); FlushedBetween(s.log, s.log[d], i)
  {
    var s := Run(ops, deviceFua, hz);
    assert EventOk(s.rqs, s.log, i);
    SpanSeparates(s.log, d, s.rqs[r].pre, i);
  }
}
