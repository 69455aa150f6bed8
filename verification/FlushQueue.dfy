/**
 The sequencer as the kernel runs it: a request queue whose fields the
 operations update in place.  Each method is proved to take the step that
 module Flush describes; the BUG_ONs of the source are assertions here.
 */
module FlushQueues {
  import opened Flush
  import opened IdLists

  /** The mask that holds one step. */
  function Mask(step: Step): (m: Steps) {
    Mark(Steps(false, false, false), step)
  }

  function Or(a: Steps, b: Steps): (m: Steps) {
    Steps(a.pre || b.pre, a.data || b.data, a.post || b.post)
  }

  predicate Overlap(a: Steps, b: Steps) {
    (a.pre && b.pre) || (a.data && b.data) || (a.post && b.post)
  }

  class FlushQueue {
    const hz: nat
    const deviceFua: bool
    const queueable: bool           // !flush_not_queueable

    var flushSeq: map<nat, Steps>   // rq->flush.seq of the sequenced requests
    var queues: seq<seq<nat>>
    var pending: nat
    var running: nat
    var inFlight: seq<nat>
    var dispatch: seq<Item>
    var since: nat
    var device: set<nat>
    var flushTaken: bool
    var delayed: bool               // flush_queue_delayed
    ghost var rqs: map<nat, Rq>
    ghost var issuedAt: nat
    ghost var log: seq<Event>

    ghost function View(): (s: State)
      reads this
    {
      State(rqs, queues, pending, running, inFlight, dispatch, since, device, flushTaken, issuedAt, log)
    }

    /** flush.seq is what the history calls the finished steps. */
    ghost predicate Tied()
      reads this
    {
      Shape(View()) && forall r :: r in rqs ==> r in flushSeq && flushSeq[r] == rqs[r].finished
    }

    /** A queue that is held back waits for a flush that the driver has, whose end runs it again. */
    ghost predicate WillRun()
      reads this
    {
      delayed ==> flushTaken
    }

    constructor (hz: nat, deviceFua: bool, queueable: bool)
      ensures this.hz == hz && this.deviceFua == deviceFua && this.queueable == queueable
      ensures Tied() && View() == Init() && Inv(View(), []) && NoStall(View()) && WillRun()
    {
      this.hz, this.deviceFua, this.queueable, delayed := hz, deviceFua, queueable, false;
      flushSeq, queues, pending, running, inFlight, dispatch := map[], [[], []], 0, 0, [], [];
      since, device, flushTaken, rqs, issuedAt, log := 0, {}, false, map[], 0, [];
    }

    /** blk_kick_flush. */
    method KickFlush(now: nat) returns (issued: bool)
      requires Tied()
      modifies this`pending, this`dispatch, this`issuedAt, this`log
      ensures Tied() && View() == Kick(old(View()), now, hz)
      ensures |dispatch| == |old(dispatch)| + (if issued then 1 else 0)
    {
      // C1: only one flush at a time
      if pending != running || queues[pending] == [] {
        return false;
      }
      // C2 and C3: wait for data steps, but not too long
      if inFlight != [] && now < since + PendingTimeout(hz) {
        return false;
      }
      issuedAt, log := |log|, log + [FlushIssued];
      pending := 1 - pending;
      dispatch := dispatch + [TheFlush];
      issued := true;
    }

    /** The record of request r with more steps finished. */
    ghost function Finishing(r: nat, steps: Steps): (s: State)
      requires r in rqs
      reads this
    {
      View().(rqs := rqs[r := rqs[r].(finished := Or(rqs[r].finished, steps))])
    }

    /** blk_flush_complete_seq; true if something was put on the dispatch queue. */
    method CompleteFlushSeq(r: nat, steps: Steps, failed: bool, now: nat) returns (queued: bool)
      requires Tied() && r in rqs && !Overlap(flushSeq[r], steps) && DataOf(r) !in dispatch
      modifies this`flushSeq, this`queues, this`pending, this`inFlight, this`dispatch, this`since, this`rqs, this`issuedAt, this`log
      ensures Tied() && View() == CompleteSeq(old(Finishing(r, steps)), r, failed, now, hz)
      ensures |dispatch| >= |old(dispatch)| && (queued <==> |dispatch| > |old(dispatch)|) && running == old(running)
    {
      hide Kick, MoveOn;
      assert !Overlap(flushSeq[r], steps);
      rqs := rqs[r := rqs[r].(finished := Or(rqs[r].finished, steps))];
      flushSeq := flushSeq[r := Or(flushSeq[r], steps)];
      queued := AdvanceRequest(r, failed, now);
      var kicked := KickFlush(now);
      queued := queued || kicked;
    }

    /** The request waits for a flush. */
    method WaitForFlush(r: nat, since': nat)
      requires Tied()
      modifies this`queues, this`since
      ensures Tied() && View() == ToPending(old(View()), r, since')
    {
      queues, since := queues[pending := queues[pending] + [r]], since';
    }

    /** The data of the request goes to the head of the dispatch queue. */
    method QueueData(r: nat)
      requires Tied() && r in rqs
      modifies this`inFlight, this`dispatch, this`rqs, this`log
      ensures Tied() && View() == ToData(old(View()), r)
    {
      inFlight, dispatch := inFlight + [r], [DataOf(r)] + dispatch;
      rqs, log := rqs[r := rqs[r].(sent := true, queuedAt := |log|)], log + [DataQueued(r)];
    }

    /** The request ends; it is on no dispatch queue. */
    method EndRequest(r: nat, failed: bool)
      requires Tied() && r in rqs && DataOf(r) !in dispatch
      modifies this`rqs, this`log
      ensures Tied() && View() == ToEnd(old(View()), r, failed)
    {
      assert DataOf(r) !in dispatch;
      rqs, log := rqs[r := rqs[r].(ended := true, failed := failed, endedAt := |log|)], log + [Ended(r, failed)];
    }

    /** The switch of blk_flush_complete_seq: put the request where its next step wants it. */
    method AdvanceRequest(r: nat, failed: bool, now: nat) returns (queued: bool)
      requires Tied() && r in rqs && DataOf(r) !in dispatch
      modifies this`queues, this`inFlight, this`dispatch, this`since, this`rqs, this`log
      ensures Tied() && View() == MoveOn(old(View()), r, failed, now)
      ensures |dispatch| == |old(dispatch)| + (if queued then 1 else 0)
    {
      hide Remove, ToPending, ToData, ToEnd;
      var step := if failed then Done else Current(flushSeq[r]);
      var since' := if queues[pending] == [] then now else since;
      queues, inFlight := [Remove(queues[0], r), Remove(queues[1], r)], Remove(inFlight, r);
      queued := false;
      match step {
        case PreFlush => WaitForFlush(r, since');
        case PostFlush => WaitForFlush(r, since');
        case Data =>
          QueueData(r);
          queued := true;
        case Done => EndRequest(r, failed);
      }
      MovedDispatch(old(View()), r, failed, now);
    }

    /** blk_insert_flush on a device with a write cache. */
    method InsertFlush(r: nat, flush: bool, fua: bool, hasData: bool, now: nat)
      requires Tied() && Inv(View(), []) && NoStall(View()) && Enabled(View(), InsertOp(r, flush, fua, hasData))
      modifies this
      ensures Tied() && Inv(View(), []) && NoStall(View()) && (old(WillRun()) ==> WillRun())
      ensures View() == Insert(old(View()), r, FlushPolicy(deviceFua, flush, fua, hasData), now, hz)
    {
      hide Inv, NoStall, CompleteSeq;
      var policy := FlushPolicy(deviceFua, flush, fua, hasData);
      InsertInv(View(), r, policy, now, hz);
      if policy.data && !policy.pre && !policy.post {
        dispatch := dispatch + [Plain(r)];
        return;
      }
      NotQueued(View(), r);
      BeginSequence(r, policy);
      var queued := CompleteFlushSeq(r, Without(policy), false, now);
    }

    /** A new request with no step finished; its policy then says which steps it does without. */
    method BeginSequence(r: nat, policy: Steps)
      requires Tied()
      modifies this`flushSeq, this`rqs, this`log
      ensures Tied() && r in rqs && flushSeq[r] == Steps(false, false, false)
      ensures Finishing(r, Without(policy)) == Submitted(old(View()), r, policy)
    {
      flushSeq := flushSeq[r := Steps(false, false, false)];
      rqs := rqs[r := NewRq(policy, |log|).(finished := Steps(false, false, false))];
      log := log + [Inserted(r)];
      UpdateTwice(old(rqs), r, rqs[r], Submitted(old(View()), r, policy).rqs[r]);
    }

    /**
     __elv_next_request up to the scheduler: the head of the dispatch queue; or
     nothing, for now, while a flush is out that the device cannot queue others
     behind; or whatever the scheduler has.
     */
    method NextRequest() returns (next: Option<Item>, askScheduler: bool)
      requires Tied() && Inv(View(), []) && WillRun()
      modifies this`delayed
      ensures View() == old(View()) && Tied() && Inv(View(), []) && WillRun()
      ensures next == if dispatch == [] then None else Some(dispatch[0])
      ensures askScheduler <==> dispatch == [] && (queueable || !flushTaken)
      ensures delayed <==> old(delayed) || (next.None? && !askScheduler)
    {
      hide RqOk, PlacedOk, LogOk, Lists;
      if dispatch != [] {
        return Some(dispatch[0]), false;
      }
      if pending != running && !queueable {
        delayed := true;
        return None, false;
      }
      return None, true;
    }

    /** The driver takes the head of the dispatch queue. */
    method FetchRequest() returns (item: Item)
      requires Tied() && Inv(View(), []) && dispatch != []
      modifies this
      ensures Tied() && Inv(View(), []) && item == old(dispatch)[0] && View() == Fetch(old(View())) && (old(WillRun()) ==> WillRun())
    {
      hide Inv;
      FetchInv(View());
      item := dispatch[0];
      dispatch := dispatch[1..];
      match item {
        case DataOf(r) => device := device + {r};
        case TheFlush => flushTaken := true;
        case Plain(_) =>
      }
    }

    /** flush_data_end_io. */
    method FlushDataEndIo(r: nat, failed: bool, now: nat) returns (runQueue: bool)
      requires Tied() && Inv(View(), []) && r in device
      modifies this
      ensures r in old(rqs) && Tied() && Inv(View(), []) && NoStall(View()) && (old(WillRun()) ==> WillRun())
      ensures View() == DataEnd(old(View()), r, failed, now, hz)
      ensures runQueue <==> |dispatch| > |old(dispatch)|
    {
      hide Inv, NoStall, CompleteSeq;
      DataEndInv(View(), r, failed, now, hz);
      DataStepOpen(View(), r);
      NoteData(r, failed);
      runQueue := CompleteFlushSeq(r, Mask(Data), failed, now);
    }

    /** The data of a request is back from the driver. */
    method NoteData(r: nat, failed: bool)
      requires Tied() && r in rqs && !rqs[r].finished.data
      modifies this`rqs, this`device, this`log
      ensures Tied() && r in rqs && rqs[r].finished == old(rqs)[r].finished
      ensures Finishing(r, Mask(Data)) == DataRecorded(old(View()), r, failed)
    {
      rqs := rqs[r := rqs[r].(steps := rqs[r].steps + 1, dataAt := |log|)];
      device, log := device - {r}, log + [DataDone(r, failed)];
      UpdateTwice(old(rqs), r, rqs[r], DataRecorded(old(View()), r, failed).rqs[r]);
    }

    /** The flush is back from the driver. */
    method Land(failed: bool)
      requires Tied()
      modifies this`running, this`flushTaken, this`log
      ensures Tied() && View() == Landed(old(View()), failed)
    {
      running := 1 - running;
      flushTaken, log := false, log + [FlushDone(failed)];
    }

    /** One round of the walk of flush_end_io: the flush has served request r. */
    method PushRequest(r: nat, failed: bool, now: nat, ghost rest: seq<nat>, ghost span: Span) returns (queued: bool)
      requires Tied() && Inv(View(), rest) && rest != [] && rest[0] == r && r in rqs
      modifies this`flushSeq, this`queues, this`pending, this`inFlight, this`dispatch, this`since, this`rqs, this`issuedAt, this`log
      ensures Tied() && running == old(running)
      ensures |dispatch| >= |old(dispatch)| && (queued <==> |dispatch| > |old(dispatch)|)
      ensures View() == CompleteSeq(Served(old(View()), r, span), r, failed, now, hz)
    {
      hide Inv, CompleteSeq;
      WalkedList(View(), rest);
      var step := Current(flushSeq[r]);
      assert step == PreFlush || step == PostFlush;
      ghost var was := rqs;
      rqs := rqs[r := Remembering(rqs[r], step, span)];
      RememberedIsServed(was[r], span);
      UpdateTwice(was, r, rqs[r], Serve(was[r], span));
      hide Serve, Remembering;
      assert Finishing(r, Mask(step)) == Served(old(View()), r, span);
      queued := CompleteFlushSeq(r, Mask(step), failed, now);
    }

    /**
     flush_end_io.  The list is walked as list_for_each_entry_safe walks it: the
     successor is read before its predecessor is moved, while a kick in the
     middle may turn the list under the walk into the pending one.
     */
    method FlushEndIo(failed: bool, now: nat) returns (runQueue: bool)
      requires Tied() && Inv(View(), []) && flushTaken
      modifies this
      ensures forall r :: r in old(queues[running]) ==> r in old(rqs)
      ensures Tied() && Inv(View(), []) && NoStall(View())
      ensures View() == FlushEnd(old(View()), failed, now, hz)
      ensures runQueue <==> |dispatch| > |old(dispatch)| || old(delayed)
      ensures !delayed
    {
      hide Inv, NoStall, CompleteSeq, Waited, PushAll, Served, NextOn;
      LandedInv(View(), failed);
      FlushEndInv(View(), failed, now, hz);
      ghost var span, rest := Span(issuedAt, |log|), queues[running];
      IndicesDiffer(View());
      assert pending != running;
      var walked := running;
      Land(failed);
      var queued := false;
      var cur := if queues[walked] == [] then None else Some(queues[walked][0]);
      while cur.Some?
        invariant Tied() && walked == 1 - running && Inv(View(), rest) && Waited(View(), rest, span, failed)
        invariant forall r :: r in rest ==> r in rqs
        invariant |dispatch| >= |old(dispatch)| && (queued <==> |dispatch| > |old(dispatch)|) && delayed == old(delayed)
        invariant cur == if rest == [] then None else Some(rest[0])
        invariant PushAll(View(), rest, span, failed, now, hz) == FlushEnd(old(View()), failed, now, hz)
        decreases |rest|
      {
        var r := cur.value;
        WalkedList(View(), rest);
        PushOne(View(), rest, span, failed, now, hz);
        var next := NextOn(queues[walked], r);
        var pushed := PushRequest(r, failed, now, rest, span);
        queued := queued || pushed;
        rest := rest[1..];
        cur := next;
      }
      assert rest == [];
      PushNone(View(), span, failed, now, hz);
      runQueue := queued || delayed;
      delayed := false;
    }
  }

  /** Only a data step goes to the dispatch queue. */
  lemma MovedDispatch(s: State, r: nat, failed: bool, now: nat)
    requires Shape(s) && r in s.rqs
    ensures |MoveOn(s, r, failed, now).dispatch| == |s.dispatch| + if !failed && Current(s.rqs[r].finished) == Data then 1 else 0
  {
    hide Remove;
  }

  /** A request that is not waiting for its data step is not on the dispatch queue. */
  lemma NotQueued(s: State, r: nat)
    requires Inv(s, []) && r !in s.rqs
    ensures DataOf(r) !in s.dispatch
  {
    hide RqOk, EventOk, PlacedOk, NoDup, FlightOk;
  }

  lemma DataStepOpen(s: State, r: nat)
    requires Inv(s, []) && r in s.device
    ensures r in s.rqs && Current(s.rqs[r].finished) == Data && DataOf(r) !in s.dispatch
  {
    hide RqOk, EventOk, NoDup, FlightOk;
    assert PlacedOk(s, r);
  }

  /** The record that remembers the flush which serves the step. */
  function Remembering(rq: Rq, step: Step, span: Span): (t: Rq) {
    var u := rq.(steps := rq.steps + 1);
    match step
    case PreFlush => u.(pre := span)
    case PostFlush => u.(post := span)
    case Data => u
    case Done => u
  }

  lemma RememberedIsServed(rq: Rq, span: Span)
    requires Current(rq.finished) in {PreFlush, PostFlush}
    ensures var u := Remembering(rq, Current(rq.finished), span);
            u.finished == rq.finished && u.(finished := Or(rq.finished, Mask(Current(rq.finished)))) == Serve(rq, span)
  {
  }

  lemma IndicesDiffer(s: State)
    requires Inv(s, []) && s.flushTaken
    ensures s.pending != s.running
  {
  }

  /** While the walk goes on, what is left of it is the whole list. */
  lemma WalkedList(s: State, rest: seq<nat>)
    requires Inv(s, rest) && rest != []
    ensures Shape(s) && s.queues[1 - s.running] == rest
    ensures NextOn(rest, rest[0]) == if |rest| == 1 then None else Some(rest[1])
    ensures rest[0] in s.rqs && Current(s.rqs[rest[0]].finished) in {PreFlush, PostFlush} && DataOf(rest[0]) !in s.dispatch
  {
    hide RqOk, EventOk, FlightOk;
    assert rest[0] in s.queues[1 - s.running];
    assert PlacedOk(s, rest[0]);
  }

  lemma PushNone(s: State, span: Span, failed: bool, now: nat, hz: nat)
    requires Shape(s)
    ensures PushAll(s, [], span, failed, now, hz) == s
  {
  }

  /** One round of the walk. */
  lemma PushOne(s: State, rest: seq<nat>, span: Span, failed: bool, now: nat, hz: nat)
    requires Inv(s, rest) && rest != [] && Waited(s, rest, span, failed)
    ensures forall r :: r in rest ==> r in s.rqs
    ensures var u := CompleteSeq(Served(s, rest[0], span), rest[0], failed, now, hz);
            && Inv(u, rest[1..]) && Waited(u, rest[1..], span, failed)
            && (forall r :: r in rest[1..] ==> r in u.rqs)
            && PushAll(s, rest, span, failed, now, hz) == PushAll(u, rest[1..], span, failed, now, hz)
            && (rest[1..] == [] ==> NoStall(u))
  {
    PushOneInv(s, rest, span, failed, now, hz);
  }
}
