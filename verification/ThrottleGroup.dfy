/**
 Throttle groups: queues of held bios, their counts and slices, what a turn of a
 group comes to, and why turns make progress.  Groups are records in a table; the
 service tree is the sequence of its nodes in order.
 */
module ThrottleGroups {
  import opened IdLists
  import opened KeyedTree
  import opened Directions
  import opened ThrottleSlice
  import opened ThrottleWait
  import opened ThrottleCalm

  const GRP_QUANTUM: nat := 8
  const QUANTUM: nat := 32

  datatype Bio = Bio(id: nat, size: nat)

  /** struct throtl_grp; `linked` says whether the creation reference is still held. */
  datatype Group = Group(
    limits: Pair<Params>,
    queues: Pair<seq<Bio>>,
    nrQueued: Pair<nat>,
    slices: Pair<Slice>,
    disptime: nat,
    onRr: bool,
    ref: nat,
    linked: bool)

  /**
   The bios of one direction of a group, as they came and as they went, and the
   start of the slice in which the first one went.
   */
  datatype History = History(arrived: seq<Bio>, left: seq<Bio>, since: nat)

  function TotalSize(bios: seq<Bio>): (n: nat) {
    if bios == [] then 0 else TotalSize(bios[..|bios| - 1]) + bios[|bios| - 1].size
  }

  /** What has left so far is paid for at the rates of the limits. */
  ghost predicate LedgerOk(p: Params, s: Slice, h: History, now: nat) {
    NoRule(p) ||
    if h.left == [] then s.bytes == 0 && s.ios == 0 && s.start <= s.end
    else Paid(p, h.since, now + p.slice, Track(s, TotalSize(h.left), |h.left|))
  }

  lemma LedgerAsked(p: Params, s: Slice, h: History, size: nat, now: nat)
    requires ValidParams(p) && s.start <= now && LedgerOk(p, s, h, now)
    ensures LedgerOk(p, MayDispatch(p, s, size, now).slice, h, now)
  {
    hide Paid;
    if !NoRule(p) && h.left != [] {
      MayDispatchPaid(p, h.since, now + p.slice, Track(s, TotalSize(h.left), |h.left|), size, now);
    }
  }

  lemma LedgerLater(p: Params, s: Slice, h: History, now: nat, later: nat)
    requires LedgerOk(p, s, h, now) && now <= later
    ensures LedgerOk(p, s, h, later)
  {
    if !NoRule(p) && h.left != [] {
      PaidLater(p, h.since, now + p.slice, Track(s, TotalSize(h.left), |h.left|), later + p.slice);
    }
  }

  lemma PaidLater(p: Params, t0: nat, limit: nat, t: Track, limit': nat)
    requires Paid(p, t0, limit, t) && limit <= limit'
    ensures Paid(p, t0, limit', t)
  {
    hide Account;
    AccountExtends(p.bps, p.hz, t0, t.slice.start, t.slice.end, limit, t.bytes, t.slice.bytes, t.slice.end, limit');
    AccountExtends(p.iops, p.hz, t0, t.slice.start, t.slice.end, limit, t.ios, t.slice.ios, t.slice.end, limit');
  }

  /** The limits say yes to a bio, and the slice is the one they were tested in. */
  predicate Admits(p: Params, s: Slice, size: nat, now: nat)
    requires ValidParams(p) && s.start <= now
  {
    MayDispatch(p, s, size, now).ok && MayDispatch(p, s, size, now).slice == s
  }

  /** A bio leaves one direction of a group whose slice started at `start`. */
  function Gone(h: History, bio: Bio, start: nat): (r: History) {
    h.(left := h.left + [bio], since := if h.left == [] then start else h.since)
  }

  lemma AdmitsFacts(p: Params, s: Slice, size: nat, now: nat)
    requires ValidParams(p) && !NoRule(p) && s.start <= now && Admits(p, s, size, now)
    ensures now + p.slice <= s.end && WithinBps(p, s, size, now) && WithinIops(p, s, now)
  {
    hide WithinBps, WithinIops;
  }

  lemma LedgerCharged(p: Params, s: Slice, h: History, bio: Bio, now: nat)
    requires ValidParams(p) && s.start <= now && bio.size < U32 && LedgerOk(p, s, h, now)
    requires NoRule(p) || Admits(p, s, bio.size, now)
    ensures LedgerOk(p, Trim(p, Charge(s, bio.size), now), Gone(h, bio, s.start), now)
  {
    hide Paid, Trim, Charge, WithinBps, WithinIops, Admits, ValidParams, TotalSize;
    if !NoRule(p) {
      AdmitsFacts(p, s, bio.size, now);
      LedgerBase(p, s, h, now);
      SubmitPaid(p, if h.left == [] then s.start else h.since, Track(s, TotalSize(h.left), |h.left|), bio.size, now);
      TotalSizeSnoc(h.left, bio);
    }
  }

  lemma TotalSizeSnoc(bios: seq<Bio>, bio: Bio)
    ensures TotalSize(bios + [bio]) == TotalSize(bios) + bio.size
  {
    assert (bios + [bio])[..|bios|] == bios;
  }

  lemma LedgerBase(p: Params, s: Slice, h: History, now: nat)
    requires ValidParams(p) && !NoRule(p) && s.start <= now && LedgerOk(p, s, h, now)
    ensures Paid(p, if h.left == [] then s.start else h.since, now + p.slice, Track(s, TotalSize(h.left), |h.left|))
  {
    hide Paid;
    if h.left == [] {
      FreshPaid(p, Track(s, 0, 0));
      PaidLater(p, s.start, s.start + p.slice, Track(s, 0, 0), now + p.slice);
    }
  }

  predicate Busy(g: Group) {
    g.queues.read != [] || g.queues.write != []
  }

  ghost predicate DirOk(g: Group, h: Pair<History>, d: Dir, now: nat) {
    && ValidParams(g.limits.Get(d))
    && g.slices.Get(d).start <= now
    && g.nrQueued.Get(d) == |g.queues.Get(d)|
    && h.Get(d).arrived == h.Get(d).left + g.queues.Get(d)
    && (NoRule(g.limits.Get(d)) ==> g.queues.Get(d) == [])
    && (forall i :: 0 <= i < |g.queues.Get(d)| ==> g.queues.Get(d)[i].size < U32)
    && LedgerOk(g.limits.Get(d), g.slices.Get(d), h.Get(d), now)
  }

  ghost predicate GroupOk(g: Group, h: Pair<History>, now: nat) {
    && DirOk(g, h, Read, now) && DirOk(g, h, Write, now)
    && g.ref == |g.queues.read| + |g.queues.write| + (if g.linked then 1 else 0)
  }

  ghost predicate GroupsOk(groups: seq<Group>, hist: seq<Pair<History>>, now: nat) {
    |hist| == |groups| && forall k :: 0 <= k < |groups| ==> GroupOk(groups[k], hist[k], now)
  }

  /** Where a group stands in the tree does not matter to it. */
  lemma GroupsIgnoreTree(groups: seq<Group>, hist: seq<Pair<History>>, now: nat, k: nat, onRr: bool, disptime: nat)
    requires GroupsOk(groups, hist, now) && k < |groups|
    ensures GroupsOk(groups[k := groups[k].(onRr := onRr, disptime := disptime)], hist, now)
  {
    var g := groups[k].(onRr := onRr, disptime := disptime);
    assert GroupOk(groups[k], hist[k], now);
    assert DirOk(g, hist[k], Read, now) && DirOk(g, hist[k], Write, now) by { hide ValidParams, NoRule, LedgerOk; }
  }

  /** Bios held in one direction by all groups together. */
  function Held(groups: seq<Group>, d: Dir): (n: nat) {
    if groups == [] then 0 else |groups[0].queues.Get(d)| + Held(groups[1..], d)
  }

  lemma {:induction false} HeldUpdate(groups: seq<Group>, k: nat, g: Group, d: Dir)
    requires k < |groups|
    ensures Held(groups[k := g], d) == Held(groups, d) - |groups[k].queues.Get(d)| + |g.queues.Get(d)|
    decreases |groups|
  {
    if k > 0 {
      assert groups[k := g][1..] == groups[1..][k - 1 := g];
      HeldUpdate(groups[1..], k - 1, g, d);
    } else {
      assert groups[k := g][1..] == groups[1..];
    }
  }

  lemma {:induction false} HeldAppend(groups: seq<Group>, g: Group, d: Dir)
    ensures Held(groups + [g], d) == Held(groups, d) + |g.queues.Get(d)|
    decreases |groups|
  {
    if groups != [] {
      assert (groups + [g])[1..] == groups[1..] + [g];
      HeldAppend(groups[1..], g, d);
    }
  }

  lemma {:induction false} HeldSomewhere(groups: seq<Group>, d: Dir)
    ensures Held(groups, d) > 0 ==> exists k :: 0 <= k < |groups| && groups[k].queues.Get(d) != []
    decreases |groups|
  {
    if groups != [] && groups[0].queues.Get(d) == [] {
      HeldSomewhere(groups[1..], d);
      if Held(groups, d) > 0 {
        var k :| 0 <= k < |groups[1..]| && groups[1..][k].queues.Get(d) != [];
        assert groups[k + 1].queues.Get(d) != [];
      }
    }
  }

  predicate InRange(groups: seq<Group>, tree: seq<nat>) {
    forall i :: 0 <= i < |tree| ==> tree[i] < |groups|
  }

  function DispTime(groups: seq<Group>): (f: nat -> int) {
    (k: nat) => if k < |groups| then groups[k].disptime else 0
  }

  /** The tree, its flags in the groups, its count and its cached leftmost node. */
  ghost predicate TreeOk(groups: seq<Group>, tree: seq<nat>, left: Option<nat>, count: nat) {
    && NoDup(tree)
    && InRange(groups, tree)
    && SortedBy(tree, DispTime(groups))
    && (forall k :: 0 <= k < |groups| ==> (groups[k].onRr <==> k in tree))
    && count == |tree|
    && (left.Some? ==> tree != [] && left.value == tree[0])
  }

  /** A group changes in what the tree does not look at. */
  lemma TreeIgnores(groups: seq<Group>, tree: seq<nat>, left: Option<nat>, count: nat, k: nat, g: Group)
    requires TreeOk(groups, tree, left, count) && k < |groups|
    requires g.onRr == groups[k].onRr && (k in tree ==> g.disptime == groups[k].disptime)
    ensures TreeOk(groups[k := g], tree, left, count)
  {
  }

  lemma TreeInsert(groups: seq<Group>, tree: seq<nat>, left: Option<nat>, count: nat, k: nat, i: nat)
    requires TreeOk(groups, tree, left, count) && k < |groups| && k !in tree
    requires i == PlaceBy(tree, DispTime(groups), groups[k].disptime)
    ensures TreeOk(groups[k := groups[k].(onRr := true)], InsertedAt(tree, k, i), if i == 0 then Some(k) else left, count + 1)
    ensures forall x :: x in InsertedAt(tree, k, i) <==> x in tree || x == k
  {
    hide PlaceBy, NoDup, SortedBy;
    InsertKeepsNoDup(tree, k, i);
    InsertKeepsSorted(tree, DispTime(groups), k);
    InsertedMembers(tree, k, i);
    var t := InsertedAt(tree, k, i);
    assert InRange(groups, t) && |t| == count + 1 && (i == 0 ==> t[0] == k) && (i > 0 ==> t[0] == tree[0]);
    hide InsertedAt;
    SortedBySameKeys(t, DispTime(groups), DispTime(groups[k := groups[k].(onRr := true)]));
  }

  lemma FlagIsPlace(groups: seq<Group>, tree: seq<nat>, left: Option<nat>, count: nat, k: nat)
    requires TreeOk(groups, tree, left, count) && k < |groups|
    ensures groups[k].onRr <==> k in tree
    ensures InRange(groups, tree)
  {
  }

  lemma TreeErase(groups: seq<Group>, tree: seq<nat>, left: Option<nat>, count: nat, k: nat)
    requires TreeOk(groups, tree, left, count) && k in tree
    ensures count > 0 && k < |groups|
    ensures TreeOk(groups[k := groups[k].(onRr := false)], Remove(tree, k), if left == Some(k) then None else left, count - 1)
  {
    hide Remove, NoDup, SortedBy;
    RemoveAt(tree, k);
    RemoveKeepsSorted(tree, DispTime(groups), k);
    SortedBySameKeys(Remove(tree, k), DispTime(groups), DispTime(groups[k := groups[k].(onRr := false)]));
  }

  // ------------------------------------------------- what happens to a group

  /** tg_may_dispatch on a bio of the given size. */
  function Ask(g: Group, d: Dir, size: nat, now: nat): (v: Verdict)
    requires Askable(g, d, now)
  {
    MayDispatch(g.limits.Get(d), g.slices.Get(d), size, now)
  }

  function Asked(g: Group, d: Dir, size: nat, now: nat): (r: Group)
    requires Askable(g, d, now)
  {
    g.(slices := g.slices.Set(d, Ask(g, d, size, now).slice))
  }

  /** throtl_charge_bio and throtl_trim_slice. */
  function Charged(g: Group, d: Dir, size: nat, now: nat): (r: Group)
    requires ValidParams(g.limits.Get(d))
  {
    g.(slices := g.slices.Set(d, Trim(g.limits.Get(d), Charge(g.slices.Get(d), size), now)))
  }

  /** tg_dispatch_one_bio: the head of a queue leaves the group. */
  function Popped(g: Group, d: Dir, now: nat): (r: Group)
    requires ValidParams(g.limits.Get(d)) && g.queues.Get(d) != [] && g.nrQueued.Get(d) > 0 && g.ref > 0
  {
    var q := g.queues.Get(d);
    Charged(g.(queues := g.queues.Set(d, q[1..]), nrQueued := g.nrQueued.Set(d, g.nrQueued.Get(d) - 1), ref := g.ref - 1),
            d, q[0].size, now)
  }

  /** throtl_add_bio_tg: a bio joins the queue and holds a reference. */
  function Pushed(g: Group, d: Dir, bio: Bio): (r: Group) {
    g.(queues := g.queues.Set(d, g.queues.Get(d) + [bio]), nrQueued := g.nrQueued.Set(d, g.nrQueued.Get(d) + 1), ref := g.ref + 1)
  }

  function Leave(h: Pair<History>, d: Dir, bio: Bio, start: nat): (r: Pair<History>) {
    h.Set(d, Gone(h.Get(d), bio, start))
  }

  function Arrive(h: Pair<History>, d: Dir, bio: Bio): (r: Pair<History>) {
    h.Set(d, h.Get(d).(arrived := h.Get(d).arrived + [bio]))
  }

  /** The group may let this bio go now: the limits were asked and said yes. */
  predicate Cleared(g: Group, d: Dir, size: nat, now: nat)
    requires Askable(g, d, now)
  {
    Admits(g.limits.Get(d), g.slices.Get(d), size, now)
  }

  lemma AskedOk(g: Group, h: Pair<History>, d: Dir, size: nat, now: nat)
    requires GroupOk(g, h, now)
    ensures Askable(g, d, now)
    ensures GroupOk(Asked(g, d, size, now), h, now)
  {
    hide MayDispatch, ValidParams, NoRule, LedgerOk;
    AskedStart(g.limits.Get(d), g.slices.Get(d), size, now);
    LedgerAsked(g.limits.Get(d), g.slices.Get(d), h.Get(d), size, now);
  }

  lemma AskedStart(p: Params, s: Slice, size: nat, now: nat)
    requires ValidParams(p) && s.start <= now
    ensures MayDispatch(p, s, size, now).slice.start <= now
  {
  }

  lemma TrimmedStart(p: Params, s: Slice, size: nat, now: nat)
    requires ValidParams(p) && s.start <= now
    ensures Trim(p, Charge(s, size), now).start <= now
  {
    TrimStart(p, Charge(s, size), now);
  }

  /** First in, first out: the bio that leaves is the oldest one that has not left. */
  lemma PoppedOk(g: Group, h: Pair<History>, d: Dir, now: nat)
    requires GroupOk(g, h, now) && g.queues.Get(d) != [] && Askable(g, d, now) && Cleared(g, d, g.queues.Get(d)[0].size, now)
    ensures g.nrQueued.Get(d) > 0 && g.ref > 0
    ensures GroupOk(Popped(g, d, now), Leave(h, d, g.queues.Get(d)[0], g.slices.Get(d).start), now)
    ensures h.Get(d).arrived[|h.Get(d).left|] == g.queues.Get(d)[0]
  {
    hide Trim, Charge, ValidParams, NoRule, LedgerOk, Admits;
    var q := g.queues.Get(d);
    TrimmedStart(g.limits.Get(d), g.slices.Get(d), q[0].size, now);
    LedgerCharged(g.limits.Get(d), g.slices.Get(d), h.Get(d), q[0], now);
    assert h.Get(d).left + q == (h.Get(d).left + [q[0]]) + q[1..];
  }

  lemma PushedOk(g: Group, h: Pair<History>, d: Dir, bio: Bio, now: nat)
    requires GroupOk(g, h, now) && !NoRule(g.limits.Get(d)) && bio.size < U32
    ensures GroupOk(Pushed(g, d, bio), Arrive(h, d, bio), now)
  {
    hide ValidParams, NoRule, Paid;
    assert h.Get(d).left + (g.queues.Get(d) + [bio]) == (h.Get(d).left + g.queues.Get(d)) + [bio];
  }

  /** A bio that passes while nobody waits. */
  lemma PassedOk(g: Group, h: Pair<History>, d: Dir, bio: Bio, now: nat)
    requires GroupOk(g, h, now) && g.queues.Get(d) == [] && bio.size < U32 && Askable(g, d, now)
    requires NoRule(g.limits.Get(d)) || Cleared(g, d, bio.size, now)
    ensures var h' := Leave(Arrive(h, d, bio), d, bio, g.slices.Get(d).start);
            && GroupOk(Charged(g, d, bio.size, now), h', now)
            && (NoRule(g.limits.Get(d)) ==> GroupOk(g, h', now))
  {
    hide Trim, Charge, ValidParams, Admits, Paid;
    TrimmedStart(g.limits.Get(d), g.slices.Get(d), bio.size, now);
    LedgerCharged(g.limits.Get(d), g.slices.Get(d), Arrive(h, d, bio).Get(d), bio, now);
    assert h.Get(d).left + [] == h.Get(d).left;
    assert (h.Get(d).left + [bio]) + [] == h.Get(d).left + [bio];
  }

  lemma GroupsAppend(groups: seq<Group>, hist: seq<Pair<History>>, now: nat, g: Group, h: Pair<History>)
    requires GroupsOk(groups, hist, now) && GroupOk(g, h, now)
    ensures GroupsOk(groups + [g], hist + [h], now)
  {
    hide GroupOk;
  }

  lemma GroupsUpdate(groups: seq<Group>, hist: seq<Pair<History>>, now: nat, k: nat, g: Group, h: Pair<History>)
    requires GroupsOk(groups, hist, now) && k < |groups| && GroupOk(g, h, now)
    ensures GroupsOk(groups[k := g], hist[k := h], now)
  {
    hide GroupOk;
  }

  lemma OneGroup(groups: seq<Group>, hist: seq<Pair<History>>, now: nat, k: nat)
    requires GroupsOk(groups, hist, now) && k < |groups|
    ensures |hist| == |groups| && GroupOk(groups[k], hist[k], now)
  {
  }

  // ------------------------------------------------- what a turn comes to

  /** A group that can be asked and whose counts match its queues. */
  predicate Counted(g: Group, now: nat) {
    && Askable(g, Read, now) && Askable(g, Write, now)
    && g.nrQueued.read == |g.queues.read| && g.nrQueued.write == |g.queues.write|
    && g.ref >= |g.queues.read| + |g.queues.write|
  }

  /** One direction of throtl_dispatch_tg: heads leave until one is refused or the quota is used. */
  function DrainDir(g: Group, d: Dir, max: nat, now: nat): (r: Group)
    requires Counted(g, now)
    ensures Counted(r, now)
    decreases max
  {
    if max == 0 || g.queues.Get(d) == [] then g
    else
      var size := g.queues.Get(d)[0].size;
      AskedCounted(g, d, size, now);
      if !Ask(g, d, size, now).ok then Asked(g, d, size, now)
      else
        PoppedCounted(Asked(g, d, size, now), d, now);
        DrainDir(Popped(Asked(g, d, size, now), d, now), d, max - 1, now)
  }

  lemma AskedCounted(g: Group, d: Dir, size: nat, now: nat)
    requires Counted(g, now)
    ensures Counted(Asked(g, d, size, now), now)
  {
    hide MayDispatch, ValidParams;
    AskedStart(g.limits.Get(d), g.slices.Get(d), size, now);
  }

  lemma PoppedCounted(g: Group, d: Dir, now: nat)
    requires Counted(g, now) && g.queues.Get(d) != []
    ensures Counted(Popped(g, d, now), now)
  {
    hide Trim, Charge, ValidParams;
    TrimmedStart(g.limits.Get(d), g.slices.Get(d), g.queues.Get(d)[0].size, now);
  }

  lemma DrainStep(g: Group, d: Dir, max: nat, now: nat)
    requires Counted(g, now) && max > 0 && g.queues.Get(d) != []
    ensures var size := g.queues.Get(d)[0].size; var a := Asked(g, d, size, now);
            && g.nrQueued.Get(d) > 0 && g.ref > 0 && Counted(a, now) && Askable(g, d, now)
            && (!Ask(g, d, size, now).ok ==> DrainDir(g, d, max, now) == a)
            && (Ask(g, d, size, now).ok ==> Counted(Popped(a, d, now), now) && DrainDir(g, d, max, now) == DrainDir(Popped(a, d, now), d, max - 1, now))
  {
    hide MayDispatch, ValidParams, Trim, Charge;
    AskedCounted(g, d, g.queues.Get(d)[0].size, now);
    if Ask(g, d, g.queues.Get(d)[0].size, now).ok {
      PoppedCounted(Asked(g, d, g.queues.Get(d)[0].size, now), d, now);
    }
  }

  lemma DrainDone(g: Group, d: Dir, max: nat, now: nat)
    requires Counted(g, now) && (max == 0 || g.queues.Get(d) == [])
    ensures DrainDir(g, d, max, now) == g
  {
  }

  lemma IsCounted(g: Group, h: Pair<History>, now: nat)
    requires GroupOk(g, h, now)
    ensures Counted(g, now)
  {
    hide ValidParams, NoRule, LedgerOk;
  }

  /** throtl_dispatch_tg. */
  function Dispatched(g: Group, now: nat): (r: Group)
    requires Counted(g, now)
    ensures Counted(r, now)
  {
    DrainDir(DrainDir(g, Read, 6, now), Write, 2, now)
  }

  function AskedHead(g: Group, d: Dir, now: nat): (r: Group)
    requires Counted(g, now)
    ensures Counted(r, now) && r.queues == g.queues
  {
    if g.queues.Get(d) == [] then g
    else
      AskedCounted(g, d, g.queues.Get(d)[0].size, now);
      Asked(g, d, g.queues.Get(d)[0].size, now)
  }

  /** tg_update_disptime. */
  function Refiled(g: Group, now: nat): (r: Group)
    requires Counted(g, now) && Busy(g)
  {
    AskedHead(AskedHead(g, Read, now), Write, now).(disptime := now + FirstWait(g, now))
  }

  /** A turn of a group: bios leave, and what is left decides when the group comes up again. */
  function Turn(g: Group, now: nat): (r: Group)
    requires Counted(g, now)
  {
    var h := Dispatched(g.(onRr := false), now);
    if Busy(h) then Refiled(h, now).(onRr := true) else h
  }

  /** blk_throtl_bio: the bio passes, joins those that wait, or is the first to wait. */
  function Offered(g: Group, d: Dir, bio: Bio, now: nat): (r: Group)
    requires Counted(g, now)
  {
    if NoRule(g.limits.Get(d)) then g
    else if g.queues.Get(d) != [] then Pushed(g, d, bio).(onRr := true)
    else if Ask(g, d, bio.size, now).ok then Charged(Asked(g, d, bio.size, now), d, bio.size, now)
    else
      PushedCounted(g, d, bio, now);
      Refiled(Pushed(Asked(g, d, bio.size, now), d, bio).(onRr := true), now).(onRr := true)
  }

  lemma PushedCounted(g: Group, d: Dir, bio: Bio, now: nat)
    requires Counted(g, now)
    ensures var r := Pushed(Asked(g, d, bio.size, now), d, bio).(onRr := true); Counted(r, now) && Busy(r)
  {
    hide MayDispatch, ValidParams;
    AskedCounted(g, d, bio.size, now);
  }

  // --------------------------------------------------- turns make progress

  /** Bytes and bios that the slice of a direction has counted or will have to. */
  function Bytes(g: Group, d: Dir): (n: nat) {
    g.slices.Get(d).bytes + TotalSize(g.queues.Get(d))
  }

  function Ios(g: Group, d: Dir): (n: nat) {
    g.slices.Get(d).ios + |g.queues.Get(d)|
  }

  /** Nothing overflows until the bios held in a direction are gone; a direction that holds none has settled. */
  ghost predicate CalmDir(g: Group, d: Dir, now: nat) {
    if g.queues.Get(d) == [] then Settled(g.limits.Get(d), g.slices.Get(d))
    else Waiting(g.limits.Get(d), g.slices.Get(d), Bytes(g, d), Ios(g, d), now)
  }

  ghost predicate SnugDir(g: Group, d: Dir) {
    if g.queues.Get(d) == [] then Settled(g.limits.Get(d), g.slices.Get(d))
    else Snug(g.limits.Get(d), g.slices.Get(d), Bytes(g, d), Ios(g, d))
  }

  /** A slice is extended for another direction's sake only once: when that direction begins to hold bios. */
  ghost predicate CalmGroup(g: Group, now: nat) {
    && CalmDir(g, Read, now) && CalmDir(g, Write, now)
    && ((g.queues.read != [] && g.queues.write != []) || (SnugDir(g, Read) && SnugDir(g, Write)))
  }

  /** When the head of a direction is admitted at the latest. */
  function Limit(g: Group, d: Dir): (t: nat) {
    if ValidParams(g.limits.Get(d)) then g.slices.Get(d).start + Reach(g.limits.Get(d), Bytes(g, d), Ios(g, d)) else 0
  }

  /** The group comes up while the slices of its bios are still open. */
  predicate Punctual(g: Group) {
    && (g.queues.read != [] ==> g.disptime <= g.slices.read.end)
    && (g.queues.write != [] ==> g.disptime <= g.slices.write.end)
  }

  lemma {:induction false} TotalSizeHead(bios: seq<Bio>)
    requires bios != []
    ensures TotalSize(bios) == bios[0].size + TotalSize(bios[1..])
    decreases |bios|
  {
    if |bios| > 1 {
      var n := |bios| - 1;
      TotalSizeHead(bios[..n]);
      assert bios[..n][1..] == bios[1..][..n - 1];
    } else {
      assert bios[..0] == [] && bios[1..] == [];
    }
  }

  /** Asking for the head of a calm direction. */
  lemma AskHeadCalm(g: Group, d: Dir, now: nat)
    requires Counted(g, now) && CalmDir(g, d, now) && g.queues.Get(d) != []
    ensures var size := g.queues.Get(d)[0].size; var v, r := Ask(g, d, size, now), Asked(g, d, size, now);
            && r.slices.Get(d) == v.slice && v.slice.start <= now <= v.slice.end
            && now <= v.slice.start + Span(g.limits.Get(d), Bytes(r, d), Ios(r, d)) && Roomy(g.limits.Get(d), Bytes(r, d), Ios(r, d))
            && (now <= g.slices.Get(d).end ==> SameCounters(v.slice, g.slices.Get(d)))
            && (!v.ok ==> now < Limit(r, d) && now + v.wait <= v.slice.end)
            && (v.ok ==> v.wait == 0)
            && (SnugDir(g, d) ==> CalmDir(r, d, now))
            && (!v.ok || (SnugDir(g, d) && Trimmed(g.limits.Get(d), g.slices.Get(d), now)) ==> SnugDir(r, d))
  {
    hide MayDispatch, Span, Reach, Roomy, TotalSize;
    TotalSizeHead(g.queues.Get(d));
    CalmAskHeld(g.limits.Get(d), g.slices.Get(d), TotalSize(g.queues.Get(d)), |g.queues.Get(d)|, g.queues.Get(d)[0].size, now);
  }

  /** Letting the head go. */
  lemma PopCalm(g: Group, d: Dir, now: nat)
    requires Counted(g, now) && g.queues.Get(d) != [] && !NoRule(g.limits.Get(d))
    requires Roomy(g.limits.Get(d), Bytes(g, d), Ios(g, d)) && now <= g.slices.Get(d).end
    requires now <= g.slices.Get(d).start + Span(g.limits.Get(d), Bytes(g, d), Ios(g, d))
    ensures var r := Popped(g, d, now); SnugDir(r, d) && Trimmed(r.limits.Get(d), r.slices.Get(d), now) && now <= r.slices.Get(d).end
  {
    hide Trim, Charge, Span, Roomy, TotalSize, Snug;
    var q := g.queues.Get(d);
    TotalSizeHead(q);
    CalmPopHeld(g.limits.Get(d), g.slices.Get(d), TotalSize(q), |q|, q[0].size, now);
  }

  /** A direction after its part of a turn: calm, open, and its head refused or its slice just trimmed. */
  ghost predicate Rested(g: Group, d: Dir, now: nat)
    requires Counted(g, now)
  {
    && SnugDir(g, d)
    && (g.queues.Get(d) != [] ==>
          now <= g.slices.Get(d).end && (Refused(g, d, now) || Trimmed(g.limits.Get(d), g.slices.Get(d), now)))
  }

  lemma {:induction false} DrainRests(g: Group, d: Dir, max: nat, now: nat)
    requires Counted(g, now) && CalmDir(g, d, now)
    requires max > 0 || (SnugDir(g, d) && Trimmed(g.limits.Get(d), g.slices.Get(d), now) && now <= g.slices.Get(d).end)
    ensures Rested(DrainDir(g, d, max, now), d, now)
    decreases max
  {
    hide MayDispatch, Snug, Calm, Settled, Trimmed, Popped, TotalSize, Span, Reach, Roomy, Trim, Charge;
    if max > 0 && g.queues.Get(d) != [] {
      var size := g.queues.Get(d)[0].size;
      DrainStep(g, d, max, now);
      AskHeadCalm(g, d, now);
      AskedFacts(g, d, size, now);
      if Ask(g, d, size, now).ok {
        assert !NoRule(g.limits.Get(d)) by { CalmHasRule(g, d, now); }
        PopCalm(Asked(g, d, size, now), d, now);
        SnugIsCalm(Popped(Asked(g, d, size, now), d, now), d, now);
        DrainRests(Popped(Asked(g, d, size, now), d, now), d, max - 1, now);
      }
    }
  }

  lemma SnugIsCalm(g: Group, d: Dir, now: nat)
    requires SnugDir(g, d)
    ensures CalmDir(g, d, now)
  {
  }

  lemma CalmHasRule(g: Group, d: Dir, now: nat)
    requires CalmDir(g, d, now) && g.queues.Get(d) != []
    ensures !NoRule(g.limits.Get(d))
  {
  }

  /** The other direction is not touched. */
  lemma {:induction false} DrainOther(g: Group, d: Dir, max: nat, now: nat, e: Dir)
    requires Counted(g, now) && e != d
    ensures var r := DrainDir(g, d, max, now);
            && r.queues.Get(e) == g.queues.Get(e) && r.slices.Get(e) == g.slices.Get(e) && r.limits == g.limits
            && |r.queues.Get(d)| <= |g.queues.Get(d)|
    decreases max
  {
    hide MayDispatch, Trim, Charge, ValidParams;
    if max > 0 && g.queues.Get(d) != [] {
      var size := g.queues.Get(d)[0].size;
      DrainStep(g, d, max, now);
      if Ask(g, d, size, now).ok {
        DrainOther(Popped(Asked(g, d, size, now), d, now), d, max - 1, now, e);
      }
    }
  }

  lemma SameDir(g: Group, r: Group, d: Dir, now: nat)
    requires Counted(g, now) && Counted(r, now)
    requires r.limits == g.limits && r.queues.Get(d) == g.queues.Get(d) && r.slices.Get(d) == g.slices.Get(d)
    ensures CalmDir(g, d, now) == CalmDir(r, d, now) && SnugDir(g, d) == SnugDir(r, d) && Rested(g, d, now) == Rested(r, d, now) && Limit(g, d) == Limit(r, d)
  {
    hide MayDispatch, Calm, Snug, Waiting, Settled, Reach, TotalSize;
  }

  /** After its part of a turn every direction rests. */
  lemma DispatchedRests(g: Group, now: nat)
    requires Counted(g, now) && CalmGroup(g, now)
    ensures var r := Dispatched(g, now); Rested(r, Read, now) && Rested(r, Write, now) && r.limits == g.limits
  {
    hide DrainDir, Counted, Rested, CalmDir, SnugDir;
    var h := DrainDir(g, Read, 6, now);
    DrainRests(g, Read, 6, now);
    DrainOther(g, Read, 6, now, Write);
    SameDir(g, h, Write, now);
    DrainRests(h, Write, 2, now);
    DrainOther(h, Write, 2, now, Read);
    SameDir(h, DrainDir(h, Write, 2, now), Read, now);
  }

  /** The slices that filing a group anew leaves. */
  lemma RefiledSlices(g: Group, now: nat, d: Dir)
    requires Counted(g, now) && Busy(g)
    ensures var r := Refiled(g, now);
            && r.limits == g.limits && r.queues == g.queues && r.onRr == g.onRr
            && (g.queues.Get(d) == [] ==> r.slices.Get(d) == g.slices.Get(d))
            && (g.queues.Get(d) != [] ==> r.slices.Get(d) == Ask(g, d, g.queues.Get(d)[0].size, now).slice
                                          && r.disptime <= now + Ask(g, d, g.queues.Get(d)[0].size, now).wait)
  {
    hide MayDispatch, ValidParams;
    var h := AskedHead(g, Read, now);
    OtherDirAsk(g, h, Write, now);
  }

  /** Filing anew keeps a rested direction calm, and the group comes up before its slice ends. */
  lemma RefiledCalm(g: Group, now: nat, d: Dir)
    requires Counted(g, now) && Busy(g) && Rested(g, d, now)
    ensures var r := Refiled(g, now);
            && SnugDir(r, d) && (g.queues.Get(d) != [] ==> r.disptime <= r.slices.Get(d).end && SameCounters(r.slices.Get(d), g.slices.Get(d)))
  {
    hide MayDispatch, Calm, Snug, Settled, Trimmed, Refiled, Span, Reach, Roomy, TotalSize;
    RefiledSlices(g, now, d);
    SnugIsCalm(g, d, now);
    if g.queues.Get(d) != [] {
      AskHeadCalm(g, d, now);
    }
  }

  /** A turn keeps a calm group calm. */
  lemma TurnCalm(g: Group, now: nat)
    requires Counted(g, now) && CalmGroup(g, now)
    ensures CalmGroup(Turn(g, now), now)
  {
    hide CalmDir, SnugDir, Refiled, Dispatched, Counted;
    var off := g.(onRr := false);
    SameGroup(g, off, now);
    DispatchedRests(off, now);
    var h := Dispatched(off, now);
    if Busy(h) {
      RefiledCalm(h, now, Read);
      RefiledCalm(h, now, Write);
      OnRrIgnored(Refiled(h, now), true, now);
    }
    SnugIsCalm(Turn(g, now), Read, now);
    SnugIsCalm(Turn(g, now), Write, now);
  }

  lemma SameGroup(g: Group, off: Group, now: nat)
    requires Counted(g, now) && off == g.(onRr := false)
    ensures Counted(off, now) && (CalmGroup(g, now) ==> CalmGroup(off, now))
  {
    hide Calm, Snug, Waiting, Settled;
  }

  lemma OnRrIgnored(g: Group, onRr: bool, now: nat)
    ensures SnugDir(g.(onRr := onRr), Read) == SnugDir(g, Read) && SnugDir(g.(onRr := onRr), Write) == SnugDir(g, Write)
    ensures CalmGroup(g.(onRr := onRr), now) == CalmGroup(g, now)
    ensures Limit(g.(onRr := onRr), Read) == Limit(g, Read) && Limit(g.(onRr := onRr), Write) == Limit(g, Write)
  {
    hide Snug, Waiting, Settled, Reach;
  }

  /** A direction that keeps all its bios through a turn was refused, in the slice it had if that was open. */
  lemma DrainStuck(g: Group, d: Dir, max: nat, now: nat)
    requires Counted(g, now) && CalmDir(g, d, now) && max > 0 && g.queues.Get(d) != []
    requires DrainDir(g, d, max, now).queues.Get(d) == g.queues.Get(d)
    ensures var r := DrainDir(g, d, max, now);
            && now < Limit(r, d) && r.limits == g.limits
            && (now <= g.slices.Get(d).end ==> SameCounters(r.slices.Get(d), g.slices.Get(d)))
  {
    hide MayDispatch, Calm, Snug, Settled, Trimmed, Span, Reach, Roomy, TotalSize, Trim, Charge, ValidParams;
    var size := g.queues.Get(d)[0].size;
    DrainStep(g, d, max, now);
    AskHeadCalm(g, d, now);
    if Ask(g, d, size, now).ok {
      DrainOther(Popped(Asked(g, d, size, now), d, now), d, max - 1, now, if d == Read then Write else Read);
      assert false;
    }
  }

  /** A turn in which no bio leaves: every head is refused, and no slice that was open is started anew. */
  ghost predicate Stuck(g: Group, r: Group, d: Dir, now: nat) {
    g.queues.Get(d) != [] ==>
      now < Limit(r, d) && (now <= g.slices.Get(d).end ==> Limit(r, d) == Limit(g, d))
  }

  lemma LimitSame(g: Group, r: Group, d: Dir)
    requires r.limits == g.limits && r.queues.Get(d) == g.queues.Get(d) && SameCounters(r.slices.Get(d), g.slices.Get(d))
    ensures Limit(r, d) == Limit(g, d)
  {
    hide Reach;
  }

  lemma TurnStuck(g: Group, now: nat, d: Dir)
    requires Counted(g, now) && CalmGroup(g, now) && Busy(g) && Turn(g, now).queues == g.queues
    ensures Stuck(g, Turn(g, now), d, now)
  {
    hide CalmDir, SnugDir, Rested, Refiled, DrainDir, Counted, Limit;
    var off := g.(onRr := false);
    SameGroup(g, off, now);
    OnRrIgnored(g, false, now);
    DispatchedRests(off, now);
    var a := DrainDir(off, Read, 6, now);
    var b := DrainDir(a, Write, 2, now);
    DrainOther(off, Read, 6, now, Write);
    DrainOther(a, Write, 2, now, Read);
    TurnQueues(g, now);
    assert a.queues.read == off.queues.read && b.queues == off.queues;
    if g.queues.Get(d) != [] {
      if d == Read {
        DrainStuck(off, Read, 6, now);
        SameDir(a, b, Read, now);
        StuckSame(off, a, Read, now);
      } else {
        SameDir(off, a, Write, now);
        DrainStuck(a, Write, 2, now);
        StuckSame(off, b, Write, now);
      }
      RefiledCalm(b, now, d);
      RefiledSlices(b, now, d);
      LimitSame(b, Refiled(b, now), d);
      OnRrIgnored(Refiled(b, now), true, now);
    }
  }

  lemma StuckSame(g: Group, r: Group, d: Dir, now: nat)
    requires r.limits == g.limits && r.queues.Get(d) == g.queues.Get(d)
    requires now <= g.slices.Get(d).end ==> SameCounters(r.slices.Get(d), g.slices.Get(d))
    ensures now <= g.slices.Get(d).end ==> Limit(r, d) == Limit(g, d)
  {
    if now <= g.slices.Get(d).end {
      LimitSame(g, r, d);
    }
  }

  lemma TurnQueues(g: Group, now: nat)
    requires Counted(g, now)
    ensures Turn(g, now).queues == Dispatched(g.(onRr := false), now).queues
  {
    hide Dispatched, Counted;
    SameGroup(g, g.(onRr := false), now);
    var h := Dispatched(g.(onRr := false), now);
    if Busy(h) {
      RefiledSlices(h, now, Read);
    }
  }

  lemma TurnLimits(g: Group, now: nat)
    requires Counted(g, now)
    ensures Turn(g, now).limits == g.limits
  {
    hide DrainDir, Counted, Refiled;
    var off := g.(onRr := false);
    SameGroup(g, off, now);
    var h := DrainDir(off, Read, 6, now);
    DrainOther(off, Read, 6, now, Write);
    DrainOther(h, Write, 2, now, Read);
    if Busy(Dispatched(off, now)) {
      RefiledSlices(Dispatched(off, now), now, Read);
    }
  }

  predicate SameLimits(groups: seq<Group>, after: seq<Group>) {
    |after| == |groups| && forall k :: 0 <= k < |groups| ==> after[k].limits == groups[k].limits
  }

  /** Whatever the numbers, a group that is filed anew comes up while the slices of its bios are open. */
  lemma RefiledPunctual(g: Group, now: nat)
    requires Counted(g, now) && Busy(g)
    requires g.queues.read != [] ==> !NoRule(g.limits.read)
    requires g.queues.write != [] ==> !NoRule(g.limits.write)
    ensures Punctual(Refiled(g, now))
  {
    hide MayDispatch, Refiled;
    RefiledSlices(g, now, Read);
    RefiledSlices(g, now, Write);
    if g.queues.read != [] {
      OpenUntilWait(g.limits.read, g.slices.read, g.queues.read[0].size, now);
    }
    if g.queues.write != [] {
      OpenUntilWait(g.limits.write, g.slices.write, g.queues.write[0].size, now);
    }
  }

  lemma OpenUntilWait(p: Params, s: Slice, size: nat, now: nat)
    requires ValidParams(p) && !NoRule(p) && s.start <= now
    ensures var v := MayDispatch(p, s, size, now); now + v.wait <= v.slice.end
  {
    hide WithinBps, WithinIops, Advised;
  }

  lemma AskedPunctual(g: Group, d: Dir, size: nat, now: nat)
    requires Askable(g, d, now) && Punctual(g) && g.queues.Get(d) == []
    ensures Punctual(Asked(g, d, size, now))
  {
    hide MayDispatch;
  }

  lemma HeldIsPunctual(g: Group, h: Pair<History>, now: nat)
    requires GroupOk(g, h, now) && Busy(g)
    ensures Counted(g, now) && Punctual(Refiled(g, now))
  {
    hide ValidParams, NoRule, LedgerOk, Refiled, Punctual;
    IsCounted(g, h, now);
    RefiledPunctual(g, now);
  }

  ghost predicate AllCalm(groups: seq<Group>, now: nat) {
    forall k :: 0 <= k < |groups| ==> CalmGroup(groups[k], now)
  }

  /** A pass over the due groups in which no bio left: each of them has had its turn, the others are as before. */
  ghost predicate FruitlessTurn(g: Group, r: Group, due: bool, now: nat) {
    r == g || (due && Counted(g, now) && Busy(g) && r == Turn(g, now) && r.queues == g.queues)
  }

  ghost predicate FruitlessPass(before: seq<Group>, after: seq<Group>, due: set<nat>, now: nat) {
    |after| == |before| && forall j :: 0 <= j < |before| ==> FruitlessTurn(before[j], after[j], j in due, now)
  }

  /** The latest time at which any head is admitted. */
  function MaxLimit(groups: seq<Group>): (t: nat)
    ensures forall k :: 0 <= k < |groups| ==> Limit(groups[k], Read) <= t && Limit(groups[k], Write) <= t
  {
    if groups == [] then 0
    else
      var t := MaxLimit(groups[1..]);
      assert forall k :: 1 <= k < |groups| ==> groups[k] == groups[1..][k - 1];
      var a, b := Limit(groups[0], Read), Limit(groups[0], Write);
      if a >= b && a >= t then a else if b >= t then b else t
  }

  /** Every head will have been admitted by `latest`. */
  ghost predicate AdmittedBy(groups: seq<Group>, latest: nat) {
    forall k :: 0 <= k < |groups| ==>
      && (groups[k].queues.read != [] ==> Limit(groups[k], Read) <= latest)
      && (groups[k].queues.write != [] ==> Limit(groups[k], Write) <= latest)
  }

  /** When groups are asked only while their slices are open, a fruitless pass moves no such time. */
  lemma FruitlessKeeps(before: seq<Group>, after: seq<Group>, due: set<nat>, now: nat, latest: nat)
    requires FruitlessPass(before, after, due, now) && AllCalm(before, now) && AdmittedBy(before, latest)
    requires forall j :: 0 <= j < |before| && j in due ==>
               (before[j].queues.read != [] ==> now <= before[j].slices.read.end) && (before[j].queues.write != [] ==> now <= before[j].slices.write.end)
    ensures AdmittedBy(after, latest)
  {
    hide Turn, CalmGroup, Limit, Counted;
    forall k | 0 <= k < |after| ensures
      && (after[k].queues.read != [] ==> Limit(after[k], Read) <= latest)
      && (after[k].queues.write != [] ==> Limit(after[k], Write) <= latest)
    {
      if after[k] != before[k] {
        assert FruitlessTurn(before[k], after[k], k in due, now);
        TurnStuck(before[k], now, Read);
        TurnStuck(before[k], now, Write);
      }
    }
  }

  /** Groups that are asked exactly when they come up are asked while their slices are open. */
  lemma AskedInTime(before: seq<Group>, due: set<nat>, now: nat)
    requires forall j :: 0 <= j < |before| ==> Punctual(before[j]) && (Busy(before[j]) ==> before[j].disptime >= now)
    requires forall j :: 0 <= j < |before| && j in due ==> before[j].disptime <= now
    ensures forall j :: 0 <= j < |before| && j in due ==>
              (before[j].queues.read != [] ==> now <= before[j].slices.read.end) && (before[j].queues.write != [] ==> now <= before[j].slices.write.end)
  {
  }

  /** Calm outlasts the passing of time. */
  lemma CalmLater(groups: seq<Group>, now: nat, later: nat)
    requires AllCalm(groups, now) && now <= later
    ensures AllCalm(groups, later)
  {
    hide Calm, Snug, Settled;
    forall k | 0 <= k < |groups| ensures CalmGroup(groups[k], later) {
      assert CalmGroup(groups[k], now);
    }
  }

  /** There is room for one more bio beside those that are held and counted. */
  ghost predicate Fits(g: Group, d: Dir, bio: Bio) {
    ValidParams(g.limits.Get(d)) && (NoRule(g.limits.Get(d)) || Roomy(g.limits.Get(d), Bytes(g, d) + bio.size, Ios(g, d) + 1))
  }

  lemma PushCalm(g: Group, d: Dir, bio: Bio, now: nat)
    requires CalmDir(g, d, now) && g.queues.Get(d) != [] && Fits(g, d, bio)
    ensures var r := Pushed(g, d, bio); CalmDir(r, d, now) && (SnugDir(g, d) ==> SnugDir(r, d))
  {
    hide Calm, Snug, Roomy, TotalSize;
    CalmHasRule(g, d, now);
    TotalSizeSnoc(g.queues.Get(d), bio);
    WaitingMore(g.limits.Get(d), g.slices.Get(d), Bytes(g, d), Ios(g, d), Bytes(g, d) + bio.size, Ios(g, d) + 1, now);
  }

  /** A bio that is the first to wait: its slice has room, and the group is filed while it is open. */
  lemma HoldCalm(g: Group, d: Dir, bio: Bio, now: nat)
    requires Counted(g, now) && CalmDir(g, d, now) && g.queues.Get(d) == [] && Fits(g, d, bio)
    requires !NoRule(g.limits.Get(d)) && !Ask(g, d, bio.size, now).ok
    ensures var r := Pushed(Asked(g, d, bio.size, now), d, bio).(onRr := true); Counted(r, now) && Rested(r, d, now)
  {
    hide MayDispatch, Snug, Settled, Roomy;
    var r := Pushed(Asked(g, d, bio.size, now), d, bio).(onRr := true);
    PushedCounted(g, d, bio, now);
    AskedFacts(g, d, bio.size, now);
    assert TotalSize([bio]) == bio.size && r.queues.Get(d) == [bio] && TotalSize([]) == 0;
    FirstBio(g.limits.Get(d), g.slices.Get(d), bio.size, now);
  }

  lemma OfferedPassCalm(g: Group, d: Dir, bio: Bio, now: nat)
    requires Counted(g, now) && CalmDir(g, d, now) && g.queues.Get(d) == [] && Fits(g, d, bio)
    requires !NoRule(g.limits.Get(d)) && Ask(g, d, bio.size, now).ok
    ensures SnugDir(Charged(Asked(g, d, bio.size, now), d, bio.size, now), d)
  {
    hide MayDispatch, Snug, Settled, Roomy, Trim, Charge;
    assert TotalSize([]) == 0;
    FirstBio(g.limits.Get(d), g.slices.Get(d), bio.size, now);
  }

  /** Filing a group anew for the sake of one direction extends the slice of the other at most once. */
  lemma RefiledWaits(g: Group, now: nat, d: Dir)
    requires Counted(g, now) && Busy(g) && SnugDir(g, d)
    ensures CalmDir(Refiled(g, now), d, now)
  {
    hide MayDispatch, Snug, Calm, Settled, Trimmed, Refiled, Span, Reach, Roomy, TotalSize;
    RefiledSlices(g, now, d);
    SnugIsCalm(g, d, now);
    if g.queues.Get(d) != [] {
      AskHeadCalm(g, d, now);
    }
  }

  /** Offering a bio keeps a group calm while there is room for it. */
  lemma OfferedCalm(g: Group, d: Dir, bio: Bio, now: nat)
    requires Counted(g, now) && CalmGroup(g, now) && Fits(g, d, bio)
    ensures CalmGroup(Offered(g, d, bio, now), now) && Offered(g, d, bio, now).limits == g.limits
  {
    assert Askable(g, d, now);
    hide CalmDir, SnugDir, Counted, Rested, Refiled, Ask, Charged, Pushed, Asked, NoRule, Fits;
    if NoRule(g.limits.Get(d)) {
    } else if g.queues.Get(d) != [] {
      OfferedMore(g, d, bio, now);
    } else if Ask(g, d, bio.size, now).ok {
      OfferedPasses(g, d, bio, now);
    } else {
      OfferedWaits(g, d, bio, now);
    }
  }

  lemma OfferedMore(g: Group, d: Dir, bio: Bio, now: nat)
    requires Counted(g, now) && CalmGroup(g, now) && Fits(g, d, bio) && g.queues.Get(d) != []
    ensures var r := Pushed(g, d, bio).(onRr := true); CalmGroup(r, now) && r.limits == g.limits
  {
    hide Waiting, Snug, Settled, Fits, TotalSize;
    PushCalm(g, d, bio, now);
  }

  lemma OfferedPasses(g: Group, d: Dir, bio: Bio, now: nat)
    requires Counted(g, now) && CalmGroup(g, now) && Fits(g, d, bio) && g.queues.Get(d) == []
    requires !NoRule(g.limits.Get(d)) && Ask(g, d, bio.size, now).ok
    ensures var r := Charged(Asked(g, d, bio.size, now), d, bio.size, now); CalmGroup(r, now) && r.limits == g.limits
  {
    hide Waiting, Snug, Settled, Fits, TotalSize, MayDispatch, Trim, Charge, NoRule, Ask;
    OfferedPassCalm(g, d, bio, now);
  }

  /** What holding its first bio does to the other direction: nothing. */
  lemma OtherSnug(g: Group, d: Dir, bio: Bio, now: nat, e: Dir)
    requires Askable(g, d, now) && e != d && SnugDir(g, e)
    ensures var h := Pushed(Asked(g, d, bio.size, now), d, bio).(onRr := true);
            SnugDir(h, e) && h.queues.Get(e) == g.queues.Get(e) && h.queues.Get(d) != [] && h.limits == g.limits
  {
    hide Snug, Settled, TotalSize, MayDispatch;
  }

  /** Once both directions hold bios, or the other has settled, the group is calm. */
  lemma CalmOfBoth(g: Group, now: nat, d: Dir, e: Dir)
    requires e != d && SnugDir(g, d) && g.queues.Get(d) != [] && CalmDir(g, e, now)
    ensures CalmGroup(g, now)
  {
    hide Snug, Settled;
    SnugIsCalm(g, d, now);
  }

  lemma OfferedWaits(g: Group, d: Dir, bio: Bio, now: nat)
    requires Counted(g, now) && CalmGroup(g, now) && Fits(g, d, bio) && g.queues.Get(d) == []
    requires !NoRule(g.limits.Get(d)) && !Ask(g, d, bio.size, now).ok
    ensures var h := Pushed(Asked(g, d, bio.size, now), d, bio).(onRr := true);
            && Counted(h, now) && Busy(h)
            && var r := Refiled(h, now).(onRr := true); CalmGroup(r, now) && r.limits == g.limits
  {
    assert Askable(g, d, now);
    hide CalmDir, SnugDir, Fits, NoRule, Ask, Asked, Pushed, Refiled, Counted, Askable;
    var h := Pushed(Asked(g, d, bio.size, now), d, bio).(onRr := true);
    var e := if d == Read then Write else Read;
    PushedCounted(g, d, bio, now);
    HoldCalm(g, d, bio, now);
    OtherSnug(g, d, bio, now, e);
    RefiledCalm(h, now, d);
    RefiledWaits(h, now, e);
    RefiledSlices(h, now, e);
    CalmOfBoth(Refiled(h, now), now, d, e);
    OnRrIgnored(Refiled(h, now), true, now);
  }

  lemma NewGroupOk(g: Group, now: nat)
    requires ValidParams(g.limits.read) && ValidParams(g.limits.write) && !Busy(g)
    requires g.slices == Pair(Slice(0, 0, 0, 0), Slice(0, 0, 0, 0)) && g.nrQueued == Pair(0, 0) && g.ref == 1 && g.linked
    ensures GroupOk(g, Pair(History([], [], 0), History([], [], 0)), now)
  {
    hide ValidParams, NoRule;
  }

  lemma UnlinkedOk(g: Group, h: Pair<History>, now: nat)
    requires GroupOk(g, h, now) && g.linked
    ensures g.ref > 0 && GroupOk(g.(linked := false, ref := g.ref - 1), h, now)
    ensures g.ref == 1 <==> !Busy(g)
  {
    hide ValidParams, NoRule, LedgerOk;
  }

  /** A new group has settled. */
  lemma AllCalmAppend(groups: seq<Group>, g: Group, now: nat)
    requires ValidParams(g.limits.read) && ValidParams(g.limits.write) && !Busy(g)
    requires g.slices == Pair(Slice(0, 0, 0, 0), Slice(0, 0, 0, 0))
    ensures AllCalm(groups, now) ==> AllCalm(groups + [g], now)
  {
    assert CalmGroup(g, now);
    hide CalmGroup;
  }

  /** References do not matter to it. */
  lemma AllCalmRef(groups: seq<Group>, k: nat, ref: nat, now: nat)
    requires k < |groups|
    ensures AllCalm(groups, now) ==> AllCalm(groups[k := groups[k].(linked := false, ref := ref)], now)
  {
    assert CalmGroup(groups[k].(linked := false, ref := ref), now) == CalmGroup(groups[k], now) by { hide Waiting, Snug, Settled; }
    hide CalmGroup;
  }

  lemma AllCalmOffered(groups: seq<Group>, k: nat, d: Dir, bio: Bio, now: nat)
    requires k < |groups| && AllCalm(groups, now) && Counted(groups[k], now) && Fits(groups[k], d, bio)
    ensures AllCalm(groups[k := Offered(groups[k], d, bio, now)], now)
  {
    hide CalmGroup, Offered, Counted, Fits;
    OfferedCalm(groups[k], d, bio, now);
  }

  /** The four ways a bio can go. */
  lemma OfferedCases(g: Group, d: Dir, bio: Bio, now: nat)
    requires Counted(g, now)
    ensures var r := Offered(g, d, bio, now);
            && r.limits == g.limits && Askable(g, d, now) && (g.nrQueued.Get(d) > 0 <==> g.queues.Get(d) != [])
            && (NoRule(g.limits.Get(d)) ==> r == g)
            && (!NoRule(g.limits.Get(d)) && g.queues.Get(d) != [] ==> r == Pushed(g, d, bio).(onRr := true))
            && (!NoRule(g.limits.Get(d)) && g.queues.Get(d) == [] ==>
                  var a := Asked(g, d, bio.size, now);
                  if Ask(g, d, bio.size, now).ok then r == Charged(a, d, bio.size, now) && r.queues == g.queues
                  else
                    var h := Pushed(a, d, bio).(onRr := true);
                    Counted(h, now) && Busy(h) && r == Refiled(h, now).(onRr := true) && r.queues == Pushed(g, d, bio).queues)
  {
    hide MayDispatch, Trim, Charge, ValidParams;
    PushedCounted(g, d, bio, now);
  }

  /** What the slice has counted and the queue holds has all arrived. */
  lemma CountedArrived(g: Group, h: Pair<History>, d: Dir, now: nat)
    requires GroupOk(g, h, now) && !NoRule(g.limits.Get(d))
    ensures Bytes(g, d) <= TotalSize(h.Get(d).arrived) && Ios(g, d) <= |h.Get(d).arrived|
  {
    hide ValidParams;
    TotalSizeConcat(h.Get(d).left, g.queues.Get(d));
  }

  lemma {:induction false} TotalSizeConcat(a: seq<Bio>, b: seq<Bio>)
    ensures TotalSize(a + b) == TotalSize(a) + TotalSize(b)
    decreases |b|
  {
    if b == [] {
      assert a + b == a;
    } else {
      var n := |b| - 1;
      TotalSizeConcat(a, b[..n]);
      assert (a + b)[..|a + b| - 1] == a + b[..n];
    }
  }

  lemma LeftIsArrived(g: Group, h: Pair<History>, now: nat)
    requires GroupOk(g, h, now) && !Busy(g)
    ensures h.read.left == h.read.arrived && h.write.left == h.write.arrived
  {
    hide ValidParams, NoRule, LedgerOk;
    assert h.read.left + [] == h.read.left && h.write.left + [] == h.write.left;
  }

  /** A group that was due and kept its bios shows that the latest time has not come. */
  lemma FruitlessIsEarly(before: seq<Group>, after: seq<Group>, due: set<nat>, now: nat, latest: nat, j: nat)
    requires FruitlessPass(before, after, due, now) && AllCalm(before, now) && AdmittedBy(after, latest)
    requires j < |before| && after[j] != before[j]
    ensures now < latest
  {
    hide Turn, CalmGroup, Limit, Counted;
    assert FruitlessTurn(before[j], after[j], j in due, now);
    TurnStuck(before[j], now, Read);
    TurnStuck(before[j], now, Write);
  }

  lemma LaterOk(groups: seq<Group>, hist: seq<Pair<History>>, now: nat, later: nat)
    requires GroupsOk(groups, hist, now) && now <= later
    ensures GroupsOk(groups, hist, later)
  {
    hide ValidParams, NoRule, LedgerOk;
    forall k | 0 <= k < |groups| ensures GroupOk(groups[k], hist[k], later) {
      assert GroupOk(groups[k], hist[k], now);
      LedgerLater(groups[k].limits.read, groups[k].slices.read, hist[k].read, now, later);
      LedgerLater(groups[k].limits.write, groups[k].slices.write, hist[k].write, now, later);
    }
  }

  lemma NotInTree(groups: seq<Group>, tree: seq<nat>, left: Option<nat>, count: nat)
    requires TreeOk(groups, tree, left, count)
    ensures |groups| !in tree
  {
  }

  lemma TreeOfMore(groups: seq<Group>, tree: seq<nat>, left: Option<nat>, count: nat, g: Group)
    requires TreeOk(groups, tree, left, count) && !g.onRr
    ensures TreeOk(groups + [g], tree, left, count)
  {
    assert forall i :: 0 <= i < |tree| ==> tree[i] != |groups|;
  }

  lemma QueueFacts(g: Group, h: Pair<History>, d: Dir, now: nat)
    requires GroupOk(g, h, now)
    ensures g.nrQueued.Get(d) > 0 <==> g.queues.Get(d) != []
    ensures NoRule(g.limits.Get(d)) ==> g.queues.Get(d) == []
  {
  }

  lemma SameSize(groups: seq<Group>, hist: seq<Pair<History>>, now: nat)
    requires GroupsOk(groups, hist, now)
    ensures |hist| == |groups|
  {
  }

  lemma CountsAreLengths(g: Group, h: Pair<History>, now: nat)
    requires GroupOk(g, h, now)
    ensures g.nrQueued.read > 0 || g.nrQueued.write > 0 <==> Busy(g)
  {
  }

  /** The smaller of two waits; an empty queue waits for ever. */
  function Least(a: Option<nat>, b: Option<nat>): (w: nat)
    requires a.Some? || b.Some?
  {
    if b.None? then a.value else if a.None? then b.value else if a.value < b.value then a.value else b.value
  }

  function WaitOf(g: Group, d: Dir, now: nat): (w: Option<nat>)
    requires Askable(g, d, now)
  {
    if g.queues.Get(d) == [] then None else Some(Ask(g, d, g.queues.Get(d)[0].size, now).wait)
  }

  /** How long until the first bio of a group may go. */
  function FirstWait(g: Group, now: nat): (w: nat)
    requires Askable(g, Read, now) && Askable(g, Write, now) && Busy(g)
  {
    Least(WaitOf(g, Read, now), WaitOf(g, Write, now))
  }

  /** A group that holds its first bio of a direction comes up no later than the wait advised for it. */
  lemma HeldWait(g: Group, r: Group, d: Dir, bio: Bio, now: nat)
    requires Askable(g, d, now) && g.queues.Get(d) == [] && r == Pushed(Asked(g, d, bio.size, now), d, bio).(onRr := true)
    ensures Askable(r, Read, now) && Askable(r, Write, now) ==> FirstWait(r, now) <= Ask(g, d, bio.size, now).wait
  {
    hide MayDispatch;
    AskedFacts(g, d, bio.size, now);
    assert r.queues.Get(d) == [bio];
  }

  lemma RefusedWaits(g: Group, now: nat)
    requires Askable(g, Read, now) && Askable(g, Write, now) && Busy(g)
    requires Refused(g, Read, now) && Refused(g, Write, now)
    ensures FirstWait(g, now) >= 1
  {
    hide MayDispatch;
    if g.queues.read != [] {
      DeniedWaits(g.limits.read, g.slices.read, g.queues.read[0].size, now);
    }
    if g.queues.write != [] {
      DeniedWaits(g.limits.write, g.slices.write, g.queues.write[0].size, now);
    }
  }

  lemma DeniedWaits(p: Params, s: Slice, size: nat, now: nat)
    requires ValidParams(p) && s.start <= now
    ensures !MayDispatch(p, s, size, now).ok ==> MayDispatch(p, s, size, now).wait >= 1
  {
  }

  lemma OtherDirSame(g: Group, r: Group, d: Dir, now: nat)
    requires r.limits == g.limits && r.queues.Get(d) == g.queues.Get(d) && r.slices.Get(d) == g.slices.Get(d)
    requires Askable(g, d, now)
    ensures Askable(r, d, now) && (Refused(g, d, now) <==> Refused(r, d, now))
  {
  }

  lemma OtherDirAsk(g: Group, r: Group, d: Dir, now: nat)
    requires r.limits == g.limits && r.queues.Get(d) == g.queues.Get(d) && r.slices.Get(d) == g.slices.Get(d)
    requires Askable(g, d, now)
    ensures Askable(r, d, now) && WaitOf(g, d, now) == WaitOf(r, d, now)
  {
  }

  predicate SameArrivals(h: Pair<History>, r: Pair<History>) {
    h.read.arrived == r.read.arrived && h.write.arrived == r.write.arrived
  }

  /** The first n bios of one direction have left. */
  predicate Went(before: Group, after: Group, d: Dir, n: nat) {
    n <= |before.queues.Get(d)| && after.queues.Get(d) == before.queues.Get(d)[n..]
  }

  /** n bios have left one direction of a group; nothing but that direction changed. */
  ghost predicate Drained(before: Group, after: Group, d: Dir, n: nat) {
    && n <= |before.queues.Get(d)| && after.queues.Get(d) == before.queues.Get(d)[n..]
    && (forall e :: e != d ==> after.queues.Get(e) == before.queues.Get(e) && after.slices.Get(e) == before.slices.Get(e))
    && after.limits == before.limits && after.disptime == before.disptime
    && after.onRr == before.onRr && after.linked == before.linked
  }

  /** The head of a queue would be refused if it were offered now. */
  predicate Refused(g: Group, d: Dir, now: nat)
    requires Askable(g, d, now)
  {
    g.queues.Get(d) != [] ==> !Ask(g, d, g.queues.Get(d)[0].size, now).ok
  }

  lemma AskedFacts(g: Group, d: Dir, size: nat, now: nat)
    requires Askable(g, d, now)
    ensures Askable(Asked(g, d, size, now), d, now)
    ensures Drained(g, Asked(g, d, size, now), d, 0)
    ensures Ask(Asked(g, d, size, now), d, size, now) == Ask(g, d, size, now)
    ensures Ask(g, d, size, now).ok ==> Cleared(Asked(g, d, size, now), d, size, now)
    ensures Asked(g, d, size, now).nrQueued == g.nrQueued && Asked(g, d, size, now).ref == g.ref
    ensures Asked(g, d, size, now).queues == g.queues
  {
    hide MayDispatch;
    AskedStart(g.limits.Get(d), g.slices.Get(d), size, now);
    AskAgain(g.limits.Get(d), g.slices.Get(d), size, now);
  }

  lemma PoppedFacts(g: Group, d: Dir, now: nat)
    requires ValidParams(g.limits.Get(d)) && g.queues.Get(d) != [] && g.nrQueued.Get(d) > 0 && g.ref > 0
    ensures Drained(g, Popped(g, d, now), d, 1)
  {
    hide Trim, Charge;
  }

  predicate Askable(g: Group, d: Dir, now: nat) {
    ValidParams(g.limits.Get(d)) && g.slices.Get(d).start <= now
  }

  /** The body of tg_may_dispatch on one slice. */
  method Test(p: Params, s: Slice, size: nat, now: nat) returns (r: Slice, ok: bool, wait: nat)
    requires ValidParams(p) && s.start <= now
    ensures Verdict(r, ok, wait) == MayDispatch(p, s, size, now)
  {
    r := s;
    if p.bps == UNLIMITED_BPS && p.iops == UNLIMITED_IOPS {
      return r, true, 0;
    }
    if SliceUsed(r, now) {
      r := StartNewSlice(p, now);
    } else if r.end < now + p.slice {
      r := Extend(p, r, now + p.slice);
    }
    if WithinBps(p, r, size, now) {
      if WithinIops(p, r, now) {
        return r, true, 0;
      }
      wait := IopsWait(p, r, now);
    } else {
      wait := BpsWait(p, r, size, now);
    }
    if r.end < now + wait {
      r := Extend(p, r, now + wait);
    }
    ok := false;
  }

  lemma {:induction false} HeldAtLeast(groups: seq<Group>, k: nat, d: Dir)
    requires k < |groups|
    ensures Held(groups, d) >= |groups[k].queues.Get(d)|
    decreases |groups|
  {
    if k > 0 {
      HeldAtLeast(groups[1..], k - 1, d);
    }
  }

  lemma SameQueues(groups: seq<Group>, k: nat, g: Group)
    requires k < |groups| && g.queues == groups[k].queues
    ensures Held(groups[k := g], Read) == Held(groups, Read)
    ensures Held(groups[k := g], Write) == Held(groups, Write)
  {
    HeldUpdate(groups, k, g, Read);
    HeldUpdate(groups, k, g, Write);
  }
}
