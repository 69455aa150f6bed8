/**
 The limiter from the outside: bios are offered and the work function runs, in
 any order and at any times, and in the end the work function is left to run when
 it asks for it.  Every bio that was offered has then left, in the order it came.
 */
module ThrottleRuns {
  import opened Directions
  import opened ThrottleSlice
  import opened ThrottleCalm
  import opened ThrottleGroups
  import opened ThrottleQueues

  datatype Act = Offer(at: nat, group: nat, dir: Dir, bio: Bio) | Work(at: nat)

  /** Times do not run backwards, groups exist, and sizes fit 32 bits. */
  predicate Orderly(acts: seq<Act>, now: nat, nrGroups: nat) {
    && (forall i :: 0 <= i < |acts| ==> now <= acts[i].at)
    && (forall i, j :: 0 <= i < j < |acts| ==> acts[i].at <= acts[j].at)
    && (forall i :: 0 <= i < |acts| && acts[i].Offer? ==> acts[i].group < nrGroups && acts[i].bio.size < U32)
  }

  /** The bios offered to one direction of a group. */
  function Bios(acts: seq<Act>, k: nat, d: Dir): (bios: seq<Bio>) {
    if acts == [] then []
    else
      var a := acts[|acts| - 1];
      Bios(acts[..|acts| - 1], k, d) + (if a.Offer? && a.group == k && a.dir == d then [a.bio] else [])
  }

  /** A direction without a rule, or one whose products stay within their widths for so many bios. */
  ghost predicate RoomFor(p: Params, bios: seq<Bio>) {
    ValidParams(p) && (NoRule(p) || Roomy(p, TotalSize(bios), |bios|))
  }

  /** Fewer bios need no more room. */
  lemma RoomForPrefix(p: Params, bios: seq<Bio>, rest: seq<Bio>)
    requires RoomFor(p, bios + rest)
    ensures RoomFor(p, bios)
  {
    hide Roomy;
    TotalSizeConcat(bios, rest);
    if !NoRule(p) {
      RoomyMono(p, TotalSize(bios + rest), |bios + rest|, TotalSize(bios), |bios|);
    }
  }

  lemma {:induction false} BiosOfPrefix(acts: seq<Act>, n: nat, k: nat, d: Dir)
    requires n <= |acts|
    ensures Bios(acts[..n], k, d) <= Bios(acts, k, d)
    decreases |acts| - n
  {
    if n < |acts| {
      assert acts[..n + 1][..n] == acts[..n];
      BiosOfPrefix(acts, n + 1, k, d);
    } else {
      assert acts[..n] == acts;
    }
  }

  /** There is room for a bio beside what has arrived, so there is room beside what is held and counted. */
  lemma ArrivalFits(g: Group, h: Pair<History>, d: Dir, bio: Bio, now: nat)
    requires GroupOk(g, h, now) && RoomFor(g.limits.Get(d), h.Get(d).arrived + [bio])
    ensures Fits(g, d, bio)
  {
    hide Roomy, GroupOk, ValidParams;
    if !NoRule(g.limits.Get(d)) {
      CountedArrived(g, h, d, now);
      TotalSizeSnoc(h.Get(d).arrived, bio);
      RoomyMono(g.limits.Get(d), TotalSize(h.Get(d).arrived + [bio]), |h.Get(d).arrived| + 1, Bytes(g, d) + bio.size, Ios(g, d) + 1);
    }
  }

  /** Everything done so far has arrived where it was offered. */
  ghost predicate Arrived(before: seq<Pair<History>>, after: seq<Pair<History>>, acts: seq<Act>) {
    |after| == |before| && forall k, d :: 0 <= k < |after| ==> after[k].Get(d).arrived == before[k].Get(d).arrived + Bios(acts, k, d)
  }

  ghost predicate RoomForAll(groups: seq<Group>, before: seq<Pair<History>>, acts: seq<Act>) {
    |groups| == |before| && forall k, d :: 0 <= k < |groups| ==> RoomFor(groups[k].limits.Get(d), before[k].Get(d).arrived + Bios(acts, k, d))
  }

  lemma RoomForNext(groups: seq<Group>, before: seq<Pair<History>>, acts: seq<Act>, n: nat)
    requires RoomForAll(groups, before, acts) && n < |acts| && acts[n].Offer? && acts[n].group < |groups|
    ensures var a := acts[n];
            RoomFor(groups[a.group].limits.Get(a.dir), before[a.group].Get(a.dir).arrived + Bios(acts[..n], a.group, a.dir) + [a.bio])
  {
    hide RoomFor;
    var a := acts[n];
    var came := before[a.group].Get(a.dir).arrived;
    assert acts[..n + 1][..n] == acts[..n];
    BiosOfPrefix(acts, n + 1, a.group, a.dir);
    var all, some := Bios(acts, a.group, a.dir), Bios(acts[..n + 1], a.group, a.dir);
    assert came + all == (came + some) + all[|some|..];
    RoomForPrefix(groups[a.group].limits.Get(a.dir), came + some, all[|some|..]);
    assert came + some == came + Bios(acts[..n], a.group, a.dir) + [a.bio];
  }

  /** One more bio has arrived. */
  lemma ArrivedNext(before: seq<Pair<History>>, was: seq<Pair<History>>, now: seq<Pair<History>>, acts: seq<Act>, n: nat)
    requires n < |acts| && acts[n].Offer? && Arrived(before, was, acts[..n]) && |now| == |was| && acts[n].group < |was|
    requires forall j :: 0 <= j < |now| && j != acts[n].group ==> now[j] == was[j]
    requires var a := acts[n];
             && now[a.group].Get(a.dir).arrived == was[a.group].Get(a.dir).arrived + [a.bio]
             && forall e :: e != a.dir ==> now[a.group].Get(e) == was[a.group].Get(e)
    ensures Arrived(before, now, acts[..n + 1])
  {
    assert acts[..n + 1][..n] == acts[..n];
    forall k, d | 0 <= k < |now| ensures now[k].Get(d).arrived == before[k].Get(d).arrived + Bios(acts[..n + 1], k, d) {
      assert was[k].Get(d).arrived == before[k].Get(d).arrived + Bios(acts[..n], k, d);
    }
  }

  lemma ArrivedSame(before: seq<Pair<History>>, was: seq<Pair<History>>, now: seq<Pair<History>>, acts: seq<Act>, n: nat)
    requires n < |acts| && acts[n].Work? && Arrived(before, was, acts[..n]) && |now| == |was|
    requires forall j :: 0 <= j < |now| ==> SameArrivals(was[j], now[j])
    ensures Arrived(before, now, acts[..n + 1])
  {
    assert acts[..n + 1][..n] == acts[..n];
    forall k, d | 0 <= k < |now| ensures now[k].Get(d).arrived == before[k].Get(d).arrived + Bios(acts[..n + 1], k, d) {
      assert was[k].Get(d).arrived == before[k].Get(d).arrived + Bios(acts[..n], k, d);
      assert SameArrivals(was[k], now[k]);
    }
  }

  lemma NextFits(groups: seq<Group>, before: seq<Pair<History>>, acts: seq<Act>, n: nat, g: Group, h: Pair<History>, now: nat)
    requires RoomForAll(groups, before, acts) && n < |acts| && acts[n].Offer? && acts[n].group < |groups|
    requires g.limits == groups[acts[n].group].limits && GroupOk(g, h, now)
    requires h.Get(acts[n].dir).arrived == before[acts[n].group].Get(acts[n].dir).arrived + Bios(acts[..n], acts[n].group, acts[n].dir)
    ensures Fits(g, acts[n].dir, acts[n].bio)
  {
    hide RoomForAll, RoomFor, GroupOk, Fits;
    RoomForNext(groups, before, acts, n);
    ArrivalFits(g, h, acts[n].dir, acts[n].bio, now);
  }

  /** The next bio is offered; `groups` and `before` are what there was before the first act. */
  method OfferNext(q: ThrottleQueue, acts: seq<Act>, n: nat, ghost groups: seq<Group>, ghost before: seq<Pair<History>>)
    requires n < |acts| && q.Valid() && q.Calm() && SameLimits(groups, q.groups) && Arrived(before, q.hist, acts[..n]) && RoomForAll(groups, before, acts)
    requires acts[n].Offer? && acts[n].group < |groups| && acts[n].bio.size < U32
    modifies q
    ensures q.Valid() && q.Calm() && SameLimits(groups, q.groups) && Arrived(before, q.hist, acts[..n + 1]) && q.jiffies == old(q.jiffies)
  {
    hide GroupOk, GroupsOk, TreeOk, Held, AllCalm, RoomForAll, Punctual, Fits, Bios, Arrived, Offered, Ask, NoRule, Counted, Busy, Pushed;
    ghost var was, a := q.hist, acts[n];
    OneGroup(q.groups, q.hist, q.jiffies, a.group);
    ArrivedAt(before, q.hist, acts[..n], a.group, a.dir);
    NextFits(groups, before, acts, n, q.groups[a.group], q.hist[a.group], q.jiffies);
    var passed, delay := q.ThrotlBio(acts[n].group, acts[n].dir, acts[n].bio);
    ArrivedNext(before, was, q.hist, acts, n);
  }

  lemma ArrivedAt(before: seq<Pair<History>>, after: seq<Pair<History>>, acts: seq<Act>, k: nat, d: Dir)
    requires Arrived(before, after, acts) && k < |after|
    ensures |before| == |after| && after[k].Get(d).arrived == before[k].Get(d).arrived + Bios(acts, k, d)
  {
  }

  /** One act. */
  method Perform(q: ThrottleQueue, acts: seq<Act>, n: nat, ghost groups: seq<Group>, ghost before: seq<Pair<History>>)
    requires n < |acts| && q.Valid() && q.Calm() && SameLimits(groups, q.groups) && Arrived(before, q.hist, acts[..n]) && RoomForAll(groups, before, acts)
    requires q.jiffies <= acts[n].at && (acts[n].Offer? ==> acts[n].group < |groups| && acts[n].bio.size < U32)
    modifies q
    ensures q.Valid() && q.Calm() && SameLimits(groups, q.groups) && Arrived(before, q.hist, acts[..n + 1]) && q.jiffies == acts[n].at
  {
    hide GroupOk, GroupsOk, TreeOk, Held, AllCalm, RoomForAll, Punctual, Bios, Arrived, Busy;
    q.Tick(acts[n].at);
    if acts[n].Offer? {
      OfferNext(q, acts, n, groups, before);
    } else {
      ghost var was := q.hist;
      SameSize(q.groups, q.hist, q.jiffies);
      var m := q.SelectDispatch();
      ArrivedSame(before, was, q.hist, acts, n);
    }
  }

  /**
   From any calm state: offer bios and run the work function as `acts` says, then
   let it run when it asks to.  Every bio leaves, in the order it came.
   */
  method Serve(q: ThrottleQueue, acts: seq<Act>)
    requires q.Valid() && q.Calm() && Orderly(acts, q.jiffies, |q.groups|) && RoomForAll(q.groups, q.hist, acts)
    modifies q
    ensures q.Valid() && q.Calm() && q.TotalQueued() == 0 && SameLimits(old(q.groups), q.groups)
    ensures AllGone(old(q.hist), q.hist, acts)
  {
    hide GroupOk, GroupsOk, TreeOk, Held, AllCalm, RoomForAll, Punctual, Bios, Busy;
    var n := 0;
    NothingYet(q.hist, acts);
    SameSize(q.groups, q.hist, q.jiffies);
    while n < |acts|
      invariant n <= |acts| && q.Valid() && q.Calm() && SameLimits(old(q.groups), q.groups)
      invariant n < |acts| ==> q.jiffies <= acts[n].at
      invariant Arrived(old(q.hist), q.hist, acts[..n])
    {
      Perform(q, acts, n, old(q.groups), old(q.hist));
      n := n + 1;
    }
    assert acts[..n] == acts;
    ghost var was := q.hist;
    q.KeepDispatching();
    Finished(old(q.hist), was, q.hist, acts);
  }

  /** All that was offered has arrived, and all that has arrived has left. */
  ghost predicate AllGone(before: seq<Pair<History>>, after: seq<Pair<History>>, acts: seq<Act>) {
    |after| == |before| && forall k, d :: 0 <= k < |after| ==>
      after[k].Get(d).left == after[k].Get(d).arrived == before[k].Get(d).arrived + Bios(acts, k, d)
  }

  lemma NothingYet(hist: seq<Pair<History>>, acts: seq<Act>)
    ensures Arrived(hist, hist, acts[..0])
  {
  }

  lemma Finished(before: seq<Pair<History>>, was: seq<Pair<History>>, after: seq<Pair<History>>, acts: seq<Act>)
    requires Arrived(before, was, acts) && |after| == |was|
    requires forall j :: 0 <= j < |after| ==> SameArrivals(was[j], after[j]) && after[j].read.left == after[j].read.arrived && after[j].write.left == after[j].write.arrived
    ensures AllGone(before, after, acts)
  {
    forall k, d | 0 <= k < |after| ensures after[k].Get(d).left == after[k].Get(d).arrived == before[k].Get(d).arrived + Bios(acts, k, d) {
      assert was[k].Get(d).arrived == before[k].Get(d).arrived + Bios(acts, k, d);
      assert SameArrivals(was[k], after[k]);
    }
  }

  /** A new limiter lets every bio that is ever offered to it go, as long as there is room for them together. */
  method ServeFromStart(limits: Pair<Params>, acts: seq<Act>) returns (q: ThrottleQueue)
    requires Orderly(acts, 0, 1) && RoomFor(limits.read, Bios(acts, 0, Read)) && RoomFor(limits.write, Bios(acts, 0, Write))
    ensures q.Valid() && q.TotalQueued() == 0 && |q.hist| == 1
    ensures forall d :: q.hist[0].Get(d).left == Bios(acts, 0, d)
  {
    hide RoomFor;
    RoomForIsValid(limits.read, Bios(acts, 0, Read));
    RoomForIsValid(limits.write, Bios(acts, 0, Write));
    q := new ThrottleQueue(limits);
    StartsEmpty(q.groups, q.hist, limits, acts);
    ghost var before := q.hist;
    Serve(q, acts);
    forall d ensures q.hist[0].Get(d).left == Bios(acts, 0, d) {
      assert before[0].Get(d).arrived + Bios(acts, 0, d) == Bios(acts, 0, d);
    }
  }

  lemma RoomForIsValid(p: Params, bios: seq<Bio>)
    requires RoomFor(p, bios)
    ensures ValidParams(p)
  {
  }

  lemma StartsEmpty(groups: seq<Group>, hist: seq<Pair<History>>, limits: Pair<Params>, acts: seq<Act>)
    requires |groups| == 1 && groups[0].limits == limits && hist == [Pair(History([], [], 0), History([], [], 0))]
    requires RoomFor(limits.read, Bios(acts, 0, Read)) && RoomFor(limits.write, Bios(acts, 0, Write))
    ensures RoomForAll(groups, hist, acts)
  {
    hide RoomFor;
    forall k, d | 0 <= k < |groups| ensures RoomFor(groups[k].limits.Get(d), hist[k].Get(d).arrived + Bios(acts, k, d)) {
      assert hist[k].Get(d).arrived + Bios(acts, k, d) == Bios(acts, k, d);
    }
  }
}
