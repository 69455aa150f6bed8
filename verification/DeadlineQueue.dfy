/** The deadline scheduler as it runs: its data updated in place, each method taking a step of module Deadline. */
module DeadlineQueues {
  import opened IdLists
  import opened Directions
  import opened Deadline

  class DeadlineQueue {
    const tun: Tunables

    var rqs: map<nat, Rq>
    var read: Lane
    var write: Lane
    var batching: nat
    var lastSector: nat
    var starved: nat
    var dispatched: seq<nat>
    var jiffies: nat

    ghost function View(): (s: State)
      reads this
    {
      State(rqs, read, write, batching, lastSector, starved, dispatched, jiffies)
    }

    ghost predicate Valid()
      reads this
    {
      Inv(View(), tun)
    }

    constructor (tun: Tunables)
      ensures this.tun == tun && View() == Init() && Valid()
    {
      this.tun := tun;
      rqs, read, write := map[], Lane([], [], None), Lane([], [], None);
      batching, lastSector, starved, dispatched, jiffies := 0, 0, 0, [], 0;
    }

    method Tick(now: nat)
      requires Valid() && jiffies <= now
      modifies this`jiffies
      ensures Valid() && View() == old(View()).(clock := now)
    {
      TickInv(View(), tun, now);
      jiffies := now;
    }

    function LaneOf(d: Dir): (l: Lane)
      reads this
    {
      if d == Read then read else write
    }

    method SetLane(d: Dir, l: Lane)
      modifies this`read, this`write
      ensures View() == old(View()).With(d, l)
    {
      if d == Read {
        read := l;
      } else {
        write := l;
      }
    }

    /** deadline_move_request with deadline_move_to_dispatch. */
    method Move(r: nat)
      requires r in rqs
      modifies this`rqs, this`read, this`write, this`lastSector, this`dispatched
      ensures View() == MoveRequest(old(View()), r)
    {
      var d := rqs[r].dir;
      var latter := NextOn(LaneOf(d).sort, r);
      read, write := read.(next := None), write.(next := None);
      lastSector := rqs[r].pos + rqs[r].sectors;
      var l := LaneOf(d);
      SetLane(d, Lane(Remove(l.sort, r), Remove(l.fifo, r), latter));
      rqs, dispatched := rqs - {r}, dispatched + [r];
    }

    /** The walk of elv_rb_add down to where a sector belongs. */
    method WalkTo(sort: seq<nat>, pos: nat) returns (k: nat)
      requires forall x :: x in sort ==> x in rqs
      ensures k <= |sort| && k == PlaceIn(sort, rqs, pos)
    {
      k := 0;
      assert sort[0..] == sort;
      while k < |sort| && rqs[sort[k]].pos < pos
        invariant 0 <= k <= |sort|
        invariant PlaceIn(sort, rqs, pos) == k + PlaceIn(sort[k..], rqs, pos)
      {
        assert sort[k..][1..] == sort[k + 1..];
        k := k + 1;
      }
    }

    /** elv_rb_add: link r into the tree, or return the request that already starts there. */
    method RbAdd(d: Dir, r: nat, pos: nat) returns (alias: Option<nat>)
      requires Closed(View())
      modifies this`read, this`write
      ensures alias == AliasOf(old(LaneOf(d)).sort, rqs, pos)
      ensures View() == if alias.Some? then old(View())
                        else old(View()).With(d, old(LaneOf(d)).(sort := LinkAt(old(LaneOf(d)).sort, rqs, pos, r)))
    {
      hide PlaceIn;
      var l := LaneOf(d);
      var k := WalkTo(l.sort, pos);
      if k < |l.sort| && rqs[l.sort[k]].pos == pos {
        return Some(l.sort[k]);
      }
      SetLane(d, l.(sort := l.sort[..k] + [r] + l.sort[k..]));
      alias := None;
    }

    /** deadline_add_rq_rb: every request in the way goes to the dispatch queue first. */
    method AddRqRb(d: Dir, r: nat, pos: nat, ghost off: set<nat>)
      requires Held(View(), tun, off)
      modifies this
      ensures Closed(old(View()))
      ensures var u := Evict(old(View()), d, pos);
              && Closed(u) && Held(u, tun, off)
              && View() == u.With(d, u.At(d).(sort := LinkAt(u.At(d).sort, u.rqs, pos, r)))
    {
      hide LaneOk, LinkAt, AliasOf;
      HeldCloses(View(), tun, off);
      EvictHeld(View(), tun, off, d, pos);
      HeldCloses(Evict(View(), d, pos), tun, off);
      NoAliasLeft(View(), tun, off, d, pos);
      var alias := RbAdd(d, r, pos);
      while alias.Some?
        invariant alias.Some? ==> View() == old(View()) && alias == AliasOf(View().At(d).sort, rqs, pos)
        invariant alias.None? ==> var u := Evict(old(View()), d, pos);
                    View() == u.With(d, u.At(d).(sort := LinkAt(u.At(d).sort, u.rqs, pos, r)))
        decreases if alias.Some? then 1 else 0
      {
        Move(alias.value);
        alias := RbAdd(d, r, pos);
      }
    }

    /** deadline_add_request. */
    method Add(r: nat, d: Dir, pos: nat, sectors: nat)
      requires Valid() && r !in rqs && r !in dispatched
      modifies this
      ensures Valid() && Closed(old(View()))
      ensures View() == AddRequest(old(View()), r, Rq(d, pos, sectors, jiffies + tun.Expire(d)))
    {
      hide LaneOk, LinkAt, Evict;
      var rq := Rq(d, pos, sectors, jiffies + tun.Expire(d));
      AddInv(View(), tun, r, rq);
      EvictHeld(View(), tun, {}, d, pos);
      EvictDispatches(View(), d, pos);
      ghost var u := Evict(View(), d, pos);
      SamePlace(u.At(d).sort, u.rqs, u.rqs[r := rq], pos, r);
      AddRqRb(d, r, pos, {});
      rqs := rqs[r := rq];
      var l := LaneOf(d);
      SetLane(d, l.(fifo := l.fifo + [r]));
    }

    /** deadline_merged_request after a front merge. */
    method FrontMerged(r: nat, pos: nat, sectors: nat)
      requires Valid() && r in rqs
      modifies this
      ensures Valid() && Closed(old(View()))
      ensures View() == MergedRequest(old(View()), r, pos, sectors)
    {
      hide LaneOk, LinkAt, Evict, Remove;
      MergedRequestInv(View(), tun, r, pos, sectors);
      UnsortHeld(View(), tun, r, pos, sectors);
      EvictHeld(Unsorted(View(), r, pos, sectors), tun, {r}, rqs[r].dir, pos);
      var d := rqs[r].dir;
      var l := LaneOf(d);
      rqs := rqs[r := rqs[r].(pos := pos, sectors := sectors)];
      SetLane(d, l.(sort := Remove(l.sort, r)));
      AddRqRb(d, r, pos, {r});
    }

    /** deadline_merged_requests: request n has been merged into r. */
    method Merged(r: nat, n: nat)
      requires Valid() && r in rqs && n in rqs && r != n && rqs[r].dir == rqs[n].dir
      modifies this
      ensures Valid() && n in old(LaneOf(rqs[n].dir)).fifo
      ensures View() == MergedRequests(old(View()), r, n)
    {
      hide LaneOk, Remove, TakePlace, NextOn;
      MergedRequestsInv(View(), tun, r, n);
      var d := rqs[r].dir;
      var l := LaneOf(d);
      if rqs[n].expires < rqs[r].expires {
        l := l.(fifo := TakePlace(l.fifo, r, n));
        rqs := rqs[r := rqs[r].(expires := rqs[n].expires)];
      } else {
        l := l.(fifo := Remove(l.fifo, n));
      }
      if l.next == Some(n) {
        l := l.(next := NextOn(l.sort, n));
      }
      SetLane(d, l.(sort := Remove(l.sort, n)));
      rqs := rqs - {n};
    }

    /** deadline_check_fifo. */
    function CheckFifo(d: Dir): (expired: bool)
      requires LaneOf(d).fifo != [] && LaneOf(d).fifo[0] in rqs
      reads this
    {
      jiffies > rqs[LaneOf(d).fifo[0]].expires
    }

    /** deadline_dispatch_requests. */
    method DispatchRequests() returns (dispatchedOne: bool)
      requires Valid()
      modifies this
      ensures forall d :: old(View()).At(d).fifo != [] ==> old(View()).At(d).fifo[0] in old(rqs)
      ensures forall p :: Choose(old(View()), tun, jiffies) == Some(p) ==> p.rq in old(rqs)
      ensures Valid() && jiffies == old(jiffies) && View() == Dispatch(old(View()), tun, jiffies)
      ensures dispatchedOne <==> old(rqs) != map[]
    {
      hide LaneOk, MoveRequest;
      DispatchInv(View(), tun, jiffies);
      ChooseOk(View(), tun, jiffies);
      LaneHeads(View(), tun, Read);
      LaneHeads(View(), tun, Write);
      var haveReads, haveWrites := read.fifo != [], write.fifo != [];
      var rq := if write.next.Some? then write.next else read.next;
      if rq.None? || batching >= tun.fifoBatch {
        if !haveReads && !haveWrites {
          return false;
        }
        var d := Read;
        if haveReads && haveWrites {
          if starved >= tun.writesStarved {
            starved, d := 0, Write;
          } else {
            starved := starved + 1;
          }
        } else if haveWrites {
          starved, d := 0, Write;
        }
        assert LaneOf(d).sort != [];
        rq := if CheckFifo(d) || LaneOf(d).next.None? then Some(LaneOf(d).fifo[0]) else LaneOf(d).next;
        batching := 0;
      }
      batching := batching + 1;
      Move(rq.value);
      dispatchedOne := true;
    }

    /** elv_drain_elevator: forced dispatch empties the scheduler, each request leaving once. */
    method Drain()
      requires Valid()
      modifies this
      ensures Valid() && rqs == map[] && read.fifo == [] && write.fifo == []
      ensures old(dispatched) <= dispatched && |dispatched| == |old(dispatched)| + |old(rqs)|
      ensures forall r :: r in old(rqs) ==> r in dispatched
    {
      hide LaneOk, MoveRequest;
      var more := true;
      while more
        invariant Valid() && old(dispatched) <= dispatched
        invariant |dispatched| + |rqs| == |old(dispatched)| + |old(rqs)|
        invariant forall r :: r in old(rqs) ==> r in dispatched || r in rqs
        invariant !more ==> rqs == map[]
        decreases more, |rqs|
      {
        ghost var before := View();
        more := DispatchRequests();
        DispatchMoves(before, tun);
      }
      EmptyLanes(View(), tun);
    }
  }

  lemma NoAliasLeft(s: State, tun: Tunables, off: set<nat>, d: Dir, pos: nat)
    requires Held(s, tun, off) && Closed(s) && Closed(Evict(s, d, pos))
    ensures AliasOf(Evict(s, d, pos).At(d).sort, Evict(s, d, pos).rqs, pos) == None
  {
    EvictHeld(s, tun, off, d, pos);
  }

  /** A request that is not in a tree does not affect where others go. */
  lemma SamePlace(sort: seq<nat>, rqs: map<nat, Rq>, rqs': map<nat, Rq>, pos: nat, r: nat)
    requires forall x :: x in sort ==> x in rqs && x in rqs' && rqs[x] == rqs'[x]
    ensures LinkAt(sort, rqs, pos, r) == LinkAt(sort, rqs', pos, r)
  {
    SamePlaceIn(sort, rqs, rqs', pos);
  }

  lemma {:induction false} SamePlaceIn(sort: seq<nat>, rqs: map<nat, Rq>, rqs': map<nat, Rq>, pos: nat)
    requires forall x :: x in sort ==> x in rqs && x in rqs' && rqs[x] == rqs'[x]
    ensures PlaceIn(sort, rqs, pos) == PlaceIn(sort, rqs', pos)
    decreases |sort|
  {
    if sort != [] {
      SamePlaceIn(sort[1..], rqs, rqs', pos);
    }
  }

  /** A call moves exactly one request from the scheduler to the dispatch queue, if there is one. */
  lemma DispatchMoves(s: State, tun: Tunables)
    requires Inv(s, tun)
    ensures forall d :: s.At(d).fifo != [] ==> s.At(d).fifo[0] in s.rqs
    ensures forall p :: Choose(s, tun, s.clock) == Some(p) ==> p.rq in s.rqs
    ensures var t := Dispatch(s, tun, s.clock);
            if s.rqs == map[] then t == s
            else exists r :: r in s.rqs && t.rqs == s.rqs - {r} && t.dispatched == s.dispatched + [r] && |t.rqs| == |s.rqs| - 1
  {
    hide LaneOk, Choose;
    ChooseOk(s, tun, s.clock);
    if s.rqs != map[] {
      var r := Choose(s, tun, s.clock).value.rq;
      assert (s.rqs - {r}).Keys == s.rqs.Keys - {r};
      assert |(s.rqs - {r}).Keys| == |s.rqs.Keys| - 1;
    }
  }
}
