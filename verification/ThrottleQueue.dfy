/**
 The throttle layer of a request queue: the table of its groups, the service tree
 of those that hold bios with its cached leftmost node, and the loops that let
 bios go.
 */
module ThrottleQueues {
  import opened IdLists
  import opened KeyedTree
  import opened Directions
  import opened ThrottleSlice
  import opened ThrottleWait
  import opened ThrottleGroups

  class ThrottleQueue {
    var groups: seq<Group>
    var tree: seq<nat>            // tg_service_tree.rb
    var left: Option<nat>         // tg_service_tree.left
    var count: nat                // tg_service_tree.count
    var nrQueued: Pair<nat>
    var jiffies: nat
    ghost var hist: seq<Pair<History>>

    /** Everything but which groups are on the tree. */
    ghost predicate Core()
      reads this
    {
      && GroupsOk(groups, hist, jiffies)
      && TreeOk(groups, tree, left, count)
      && nrQueued.read == Held(groups, Read) && nrQueued.write == Held(groups, Write)
    }

    /** Exactly the groups that hold bios are on the tree, group `but` aside. */
    ghost predicate OnTreeIffBusy(but: int)
      reads this
    {
      forall k :: 0 <= k < |groups| && k != but ==> (k in tree <==> Busy(groups[k]))
    }

    /** No group, group `but` aside, lets the slices of its bios end before it comes up. */
    ghost predicate OnTime(but: int)
      reads this
    {
      forall k :: 0 <= k < |groups| && k != but ==> Punctual(groups[k])
    }

    ghost predicate Valid()
      reads this
    {
      Core() && OnTreeIffBusy(-1) && OnTime(-1)
    }

    /** No product overflows until all bios that are held have left. */
    ghost predicate Calm()
      reads this
    {
      AllCalm(groups, jiffies)
    }

    /** blk_throtl_init: the limiter starts with the group of the root cgroup. */
    constructor (limits: Pair<Params>)
      requires ValidParams(limits.read) && ValidParams(limits.write)
      ensures Valid() && Calm() && jiffies == 0
      ensures |groups| == 1 && groups[0].limits == limits && groups[0].ref == 1 && TotalQueued() == 0 && tree == []
      ensures hist == [Pair(History([], [], 0), History([], [], 0))]
    {
      hide GroupOk;
      groups, tree, left, count, nrQueued, jiffies, hist := [], [], None, 0, Pair(0, 0), 0, [];
      new;
      var root := CreateGroup(limits);
    }

    method Tick(now: nat)
      requires Valid() && jiffies <= now
      modifies this`jiffies
      ensures Valid() && jiffies == now && (old(Calm()) ==> Calm())
    {
      if Calm() {
        CalmLater(groups, jiffies, now);
      }
      hide AllCalm;
      LaterOk(groups, hist, jiffies, now);
      jiffies := now;
    }

    /** throtl_alloc_tg and throtl_init_add_tg_lists: a new group, zeroed, with its creation reference. */
    method CreateGroup(limits: Pair<Params>) returns (k: nat)
      requires Valid() && ValidParams(limits.read) && ValidParams(limits.write)
      modifies this`groups, this`hist
      ensures Valid() && k == |old(groups)| && |groups| == k + 1 && groups[..k] == old(groups)
      ensures hist == old(hist) + [Pair(History([], [], 0), History([], [], 0))] && (old(Calm()) ==> Calm())
      ensures groups[k].limits == limits && !Busy(groups[k]) && groups[k].ref == 1 && groups[k].slices == Pair(Slice(0, 0, 0, 0), Slice(0, 0, 0, 0))
    {
      hide GroupsOk, GroupOk, TreeOk, Held, AllCalm, ValidParams;
      var zero := Slice(0, 0, 0, 0);
      var g := Group(limits, Pair([], []), Pair(0, 0), Pair(zero, zero), 0, false, 1, true);
      ghost var h := Pair(History([], [], 0), History([], [], 0));
      HeldAppend(groups, g, Read);
      HeldAppend(groups, g, Write);
      k := |groups|;
      NewGroupOk(g, jiffies);
      GroupsAppend(groups, hist, jiffies, g, h);
      TreeOfMore(groups, tree, left, count, g);
      NotInTree(groups, tree, left, count);
      AllCalmAppend(groups, g, jiffies);
      groups, hist := groups + [g], hist + [h];
    }

    /** throtl_destroy_tg: the creation reference goes; the group lives on while it holds bios. */
    method DestroyGroup(k: nat) returns (freed: bool)
      requires Valid() && k < |groups| && groups[k].linked
      modifies this`groups
      ensures Valid() && old(groups)[k].ref > 0
      ensures groups == old(groups)[k := old(groups)[k].(linked := false, ref := old(groups)[k].ref - 1)]
      ensures freed <==> !Busy(groups[k])
      ensures old(Calm()) ==> Calm()
    {
      hide GroupsOk, GroupOk, TreeOk, Held, AllCalm;
      OneGroup(groups, hist, jiffies, k);
      UnlinkedOk(groups[k], hist[k], jiffies);
      var g := groups[k].(linked := false, ref := groups[k].ref - 1);
      GroupsUpdate(groups, hist, jiffies, k, g, hist[k]);
      TreeIgnores(groups, tree, left, count, k, g);
      SameQueues(groups, k, g);
      AllCalmRef(groups, k, groups[k].ref - 1, jiffies);
      assert hist[k := hist[k]] == hist;
      freed := g.ref == 0;
      groups := groups[k := g];
    }

    /** throtl_rb_first: the cached node, or the first of the tree. */
    method RbFirst() returns (k: Option<nat>)
      requires Core()
      modifies this`left
      ensures Core() && k == if tree == [] then None else Some(tree[0])
    {
      if count == 0 {
        return None;
      }
      if left.None? {
        left := Some(tree[0]);
      }
      k := left;
    }

    /** throtl_enqueue_tg with tg_service_tree_add. */
    method Enqueue(k: nat)
      requires Core() && k < |groups|
      modifies this`groups, this`tree, this`left, this`count
      ensures Core() && |groups| == |old(groups)| && k in tree
      ensures groups == old(groups)[k := old(groups)[k].(onRr := true)]
      ensures forall x :: x in tree <==> x in old(tree) || x == k
    {
      hide GroupsOk, GroupOk, Held, PlaceBy, InsertedAt, TreeOk;
      FlagIsPlace(groups, tree, left, count, k);
      GroupsIgnoreTree(groups, hist, jiffies, k, true, groups[k].disptime);
      if groups[k].onRr {
        assert groups == groups[k := groups[k].(onRr := true)];
        return;
      }
      var i := PlaceOf(groups[k].disptime);
      TreeInsert(groups, tree, left, count, k, i);
      SameQueues(groups, k, groups[k].(onRr := true));
      if i == 0 {
        left := Some(k);
      }
      tree, count := InsertedAt(tree, k, i), count + 1;
      groups := groups[k := groups[k].(onRr := true)];
    }

    /** The walk of tg_service_tree_add down to where a key belongs. */
    method PlaceOf(key: nat) returns (i: nat)
      requires InRange(groups, tree)
      ensures i == PlaceBy(tree, DispTime(groups), key)
    {
      i := 0;
      assert tree[0..] == tree;
      while i < |tree| && groups[tree[i]].disptime <= key
        invariant i <= |tree| && PlaceBy(tree, DispTime(groups), key) == i + PlaceBy(tree[i..], DispTime(groups), key)
      {
        assert tree[i..][1..] == tree[i + 1..];
        i := i + 1;
      }
    }

    /** throtl_dequeue_tg with throtl_rb_erase. */
    method Dequeue(k: nat)
      requires Core() && k < |groups|
      modifies this`groups, this`tree, this`left, this`count
      ensures Core() && |groups| == |old(groups)| && k !in tree
      ensures groups == old(groups)[k := old(groups)[k].(onRr := false)]
      ensures forall x :: x in tree <==> x in old(tree) && x != k
    {
      hide GroupsOk, GroupOk, Held, Remove, TreeOk;
      FlagIsPlace(groups, tree, left, count, k);
      GroupsIgnoreTree(groups, hist, jiffies, k, false, groups[k].disptime);
      if !groups[k].onRr {
        assert groups == groups[k := groups[k].(onRr := false)];
        return;
      }
      TreeErase(groups, tree, left, count, k);
      SameQueues(groups, k, groups[k].(onRr := false));
      if left == Some(k) {
        left := None;
      }
      tree, count := Remove(tree, k), count - 1;
      groups := groups[k := groups[k].(onRr := false)];
    }

    /** tg_may_dispatch: test a bio against the limits, renewing or extending the slice as needed. */
    method TgMayDispatch(k: nat, d: Dir, size: nat) returns (ok: bool, wait: nat)
      requires Core() && k < |groups|
      modifies this`groups
      ensures Core() && Askable(old(groups)[k], d, jiffies)
      ensures groups == old(groups)[k := Asked(old(groups)[k], d, size, jiffies)]
      ensures Verdict(groups[k].slices.Get(d), ok, wait) == Ask(old(groups)[k], d, size, jiffies)
    {
      hide GroupOk, GroupsOk, TreeOk, Held;
      OneGroup(groups, hist, jiffies, k);
      AskedOk(groups[k], hist[k], d, size, jiffies);
      ghost var g := Asked(groups[k], d, size, jiffies);
      GroupsUpdate(groups, hist, jiffies, k, g, hist[k]);
      TreeIgnores(groups, tree, left, count, k, g);
      SameQueues(groups, k, g);
      assert hist[k := hist[k]] == hist;
      var s;
      s, ok, wait := Test(groups[k].limits.Get(d), groups[k].slices.Get(d), size, jiffies);
      groups := groups[k := groups[k].(slices := groups[k].slices.Set(d, s))];
    }

    /** tg_dispatch_one_bio. */
    method DispatchOneBio(k: nat, d: Dir) returns (bio: Bio)
      requires Core() && k < |groups| && groups[k].queues.Get(d) != []
      requires Askable(groups[k], d, jiffies) && Cleared(groups[k], d, groups[k].queues.Get(d)[0].size, jiffies)
      modifies this`groups, this`nrQueued, this`hist
      ensures Core() && Askable(old(groups)[k], d, jiffies) && old(groups)[k].nrQueued.Get(d) > 0 && old(groups)[k].ref > 0
      ensures bio == old(groups)[k].queues.Get(d)[0]
      ensures groups == old(groups)[k := Popped(old(groups)[k], d, jiffies)]
      ensures |hist| == |old(hist)| == |groups| && hist == old(hist)[k := Leave(old(hist)[k], d, bio, old(groups)[k].slices.Get(d).start)]
      ensures nrQueued.Get(d) + 1 == old(nrQueued).Get(d) && forall e :: e != d ==> nrQueued.Get(e) == old(nrQueued).Get(e)
    {
      hide GroupOk, GroupsOk, TreeOk, Held, Cleared;
      OneGroup(groups, hist, jiffies, k);
      PoppedOk(groups[k], hist[k], d, jiffies);
      bio := groups[k].queues.Get(d)[0];
      var g := Popped(groups[k], d, jiffies);
      ghost var h := Leave(hist[k], d, bio, groups[k].slices.Get(d).start);
      GroupsUpdate(groups, hist, jiffies, k, g, h);
      TreeIgnores(groups, tree, left, count, k, g);
      HeldUpdate(groups, k, g, Read);
      HeldUpdate(groups, k, g, Write);
      HeldAtLeast(groups, k, d);
      assert nrQueued.Get(d) > 0;
      hist := hist[k := h];
      nrQueued := nrQueued.Set(d, nrQueued.Get(d) - 1);
      groups := groups[k := g];
    }

    /** One of the two loops of throtl_dispatch_tg: let bios of a direction go while they may, at most `max`. */
    method DispatchDir(k: nat, d: Dir, max: nat) returns (n: nat)
      requires Core() && k < |groups| && max > 0
      modifies this`groups, this`nrQueued, this`hist
      ensures Core() && |groups| == |old(groups)| && |hist| == |old(hist)| == |groups| && n <= max
      ensures forall j :: 0 <= j < |groups| && j != k ==> groups[j] == old(groups)[j] && hist[j] == old(hist)[j]
      ensures Drained(old(groups)[k], groups[k], d, n) && SameArrivals(old(hist)[k], hist[k])
      ensures nrQueued.Get(d) + n == old(nrQueued).Get(d) && forall e :: e != d ==> nrQueued.Get(e) == old(nrQueued).Get(e)
      ensures Askable(groups[k], d, jiffies)
      ensures n < max ==> Refused(groups[k], d, jiffies)
      ensures Counted(old(groups)[k], jiffies) && groups[k] == DrainDir(old(groups)[k], d, max, jiffies)
    {
      hide GroupOk, GroupsOk, TreeOk, Held, Asked, Ask, Popped, Cleared, DrainDir, Counted;
      n := 0;
      OneGroup(groups, hist, jiffies, k);
      AskedOk(groups[k], hist[k], d, 0, jiffies);
      IsCounted(groups[k], hist[k], jiffies);
      while n < max && groups[k].queues.Get(d) != []
        invariant Core() && |groups| == |old(groups)| && |hist| == |groups| && n <= max
        invariant forall j :: 0 <= j < |groups| && j != k ==> groups[j] == old(groups)[j] && hist[j] == old(hist)[j]
        invariant Drained(old(groups)[k], groups[k], d, n) && SameArrivals(old(hist)[k], hist[k])
        invariant nrQueued.Get(d) + n == old(nrQueued).Get(d) && forall e :: e != d ==> nrQueued.Get(e) == old(nrQueued).Get(e)
        invariant Askable(groups[k], d, jiffies)
        invariant Counted(groups[k], jiffies) && DrainDir(groups[k], d, max - n, jiffies) == DrainDir(old(groups)[k], d, max, jiffies)
        decreases max - n
      {
        ghost var g := groups[k];
        DrainStep(g, d, max - n, jiffies);
        var size := groups[k].queues.Get(d)[0].size;
        var ok, wait := TgMayDispatch(k, d, size);
        AskedFacts(g, d, size, jiffies);
        if !ok {
          return;
        }
        var bio := DispatchOneBio(k, d);
        OneGroup(groups, hist, jiffies, k);
        AskedOk(groups[k], hist[k], d, 0, jiffies);
        PoppedFacts(Asked(g, d, size, jiffies), d, jiffies);
        n := n + 1;
      }
      DrainDone(groups[k], d, max - n, jiffies);
    }

    /** throtl_dispatch_tg: three quarters of the quantum for reads, the rest for writes. */
    method DispatchTg(k: nat) returns (n: nat)
      requires Core() && k < |groups|
      modifies this`groups, this`nrQueued, this`hist
      ensures Core() && |groups| == |old(groups)| && |hist| == |old(hist)| == |groups| && n <= GRP_QUANTUM
      ensures forall j :: 0 <= j < |groups| && j != k ==> groups[j] == old(groups)[j] && hist[j] == old(hist)[j]
      ensures groups[k].onRr == old(groups)[k].onRr && groups[k].disptime == old(groups)[k].disptime && SameArrivals(old(hist)[k], hist[k])
      ensures nrQueued.read + nrQueued.write + n == old(nrQueued.read + nrQueued.write)
      ensures Askable(groups[k], Read, jiffies) && Askable(groups[k], Write, jiffies)
      ensures exists nr: nat, nw: nat ::
                && n == nr + nw && nr <= 6 && nw <= 2
                && Went(old(groups)[k], groups[k], Read, nr) && Went(old(groups)[k], groups[k], Write, nw)
                && (nr < 6 ==> Refused(groups[k], Read, jiffies)) && (nw < 2 ==> Refused(groups[k], Write, jiffies))
      ensures Counted(old(groups)[k], jiffies) && groups[k] == Dispatched(old(groups)[k], jiffies)
    {
      hide GroupOk, GroupsOk, TreeOk, Held, Ask, DrainDir, Counted;
      var maxReads := GRP_QUANTUM * 3 / 4;
      var nrReads := DispatchDir(k, Read, maxReads);
      ghost var g := groups[k];
      var nrWrites := DispatchDir(k, Write, GRP_QUANTUM - maxReads);
      n := nrReads + nrWrites;
      OtherDirSame(g, groups[k], Read, jiffies);
      assert Went(old(groups)[k], groups[k], Read, nrReads) && Went(old(groups)[k], groups[k], Write, nrWrites);
    }

    /** tg_update_disptime: put the group back on the tree at the time its first bio may go. */
    method UpdateDisptime(k: nat)
      requires Core() && k < |groups| && Busy(groups[k])
      modifies this`groups, this`tree, this`left, this`count
      ensures Core() && |groups| == |old(groups)|
      ensures Askable(old(groups)[k], Read, jiffies) && Askable(old(groups)[k], Write, jiffies)
      ensures forall j :: 0 <= j < |groups| && j != k ==> groups[j] == old(groups)[j]
      ensures forall x :: x in tree <==> x in old(tree) || x == k
      ensures groups[k].disptime == jiffies + FirstWait(old(groups)[k], jiffies) && groups[k].queues == old(groups)[k].queues
      ensures Counted(old(groups)[k], jiffies) && groups[k] == Refiled(old(groups)[k], jiffies).(onRr := true)
      ensures Punctual(groups[k])
    {
      hide GroupOk, GroupsOk, TreeOk, Held, Ask, Asked, Counted;
      OneGroup(groups, hist, jiffies, k);
      assert Punctual(Refiled(groups[k], jiffies)) by { HeldIsPunctual(groups[k], hist[k], jiffies); }
      IsCounted(groups[k], hist[k], jiffies);
      AskedOk(groups[k], hist[k], Read, 0, jiffies);
      AskedOk(groups[k], hist[k], Write, 0, jiffies);
      ghost var g := groups[k];
      var readWait: Option<nat>, writeWait: Option<nat> := None, None;
      if groups[k].queues.read != [] {
        var size := groups[k].queues.read[0].size;
        var ok, wait := TgMayDispatch(k, Read, size);
        AskedFacts(g, Read, size, jiffies);
        OtherDirAsk(g, groups[k], Write, jiffies);
        readWait := Some(wait);
      }
      if groups[k].queues.write != [] {
        ghost var g' := groups[k];
        var size := groups[k].queues.write[0].size;
        var ok, wait := TgMayDispatch(k, Write, size);
        AskedFacts(g', Write, size, jiffies);
        writeWait := Some(wait);
      }
      var minWait := Least(readWait, writeWait);
      Dequeue(k);
      SetDisptime(k, jiffies + minWait);
      Enqueue(k);
    }

    method SetDisptime(k: nat, disptime: nat)
      requires Core() && k < |groups| && k !in tree
      modifies this`groups
      ensures Core() && groups == old(groups)[k := old(groups)[k].(disptime := disptime)]
    {
      hide GroupOk, GroupsOk, Held, TreeOk;
      GroupsIgnoreTree(groups, hist, jiffies, k, groups[k].onRr, disptime);
      TreeIgnores(groups, tree, left, count, k, groups[k].(disptime := disptime));
      SameQueues(groups, k, groups[k].(disptime := disptime));
      groups := groups[k := groups[k].(disptime := disptime)];
    }

    /**
     The rate bound for the whole limiter: in every state, what a direction of a
     group has let go since the slice in which it began is within its limits for
     that time and one interval more.
     */
    lemma WithinLimits(k: nat, d: Dir)
      requires Valid() && k < |groups| && !NoRule(groups[k].limits.Get(d))
      ensures |hist| == |groups|
      ensures var p, h := groups[k].limits.Get(d), hist[k].Get(d);
              h.left != [] ==>
                && TotalSize(h.left) * p.hz <= p.bps * (jiffies + p.slice - h.since)
                && |h.left| * p.hz <= p.iops * (jiffies + p.slice - h.since)
    {
      hide TreeOk, Held, ValidParams;
      OneGroup(groups, hist, jiffies, k);
      var p, h := groups[k].limits.Get(d), hist[k].Get(d);
      if h.left != [] {
        PaidBound(p, h.since, jiffies + p.slice, Track(groups[k].slices.Get(d), TotalSize(h.left), |h.left|), jiffies + p.slice);
      }
    }

    /** Groups on the tree whose time has come. */
    ghost function Due(): (s: set<nat>)
      reads this
    {
      set x | x in tree && x < |groups| && groups[x].disptime <= jiffies
    }

    ghost function TotalQueued(): (n: nat)
      reads this
    {
      nrQueued.read + nrQueued.write
    }

    /** One round of throtl_select_dispatch for the group whose turn it is. */
    method ServeGroup(k: nat) returns (m: nat)
      requires Valid() && k < |groups| && k in tree && groups[k].disptime <= jiffies
      modifies this`groups, this`tree, this`left, this`count, this`nrQueued, this`hist
      ensures Valid() && |groups| == |old(groups)| && m <= GRP_QUANTUM
      ensures TotalQueued() + m == old(TotalQueued())
      ensures m == 0 ==> Due() < old(Due()) && groups[k].disptime > jiffies && groups[k].queues == old(groups)[k].queues
      ensures |hist| == |old(hist)| == |groups| && forall j :: 0 <= j < |groups| ==> SameArrivals(old(hist)[j], hist[j])
      ensures Counted(old(groups)[k], jiffies) && groups == old(groups)[k := Turn(old(groups)[k], jiffies)]
    {
      hide GroupOk, GroupsOk, TreeOk, Held, FirstWait, Refused, Counted, Dispatched, Refiled;
      ghost var before := groups[k];
      assert Counted(before, jiffies) by {
        OneGroup(groups, hist, jiffies, k);
        IsCounted(groups[k], hist[k], jiffies);
      }
      assert Busy(groups[k]);
      Dequeue(k);
      m := DispatchTg(k);
      assert OnTreeIffBusy(k);
      OneGroup(groups, hist, jiffies, k);
      CountsAreLengths(groups[k], hist[k], jiffies);
      if groups[k].nrQueued.read > 0 || groups[k].nrQueued.write > 0 {
        if m == 0 {
          RefusedWaits(groups[k], jiffies);
        }
        UpdateDisptime(k);
        Enqueue(k);
      }
      if m == 0 {
        assert k in old(Due()) && k !in Due();
      }
    }

    /** throtl_select_dispatch. */
    method SelectDispatch() returns (n: nat)
      requires Valid()
      modifies this`groups, this`tree, this`left, this`count, this`nrQueued, this`hist
      ensures Valid() && |groups| == |old(groups)|
      ensures n <= QUANTUM - 1 + GRP_QUANTUM
      ensures TotalQueued() + n == old(TotalQueued())
      ensures n < QUANTUM ==> Due() == {}
      ensures |hist| == |old(hist)| == |groups| && forall j :: 0 <= j < |groups| ==> SameArrivals(old(hist)[j], hist[j])
      ensures (old(Calm()) ==> Calm()) && SameLimits(old(groups), groups)
      ensures n == 0 ==> FruitlessPass(old(groups), groups, old(Due()), jiffies)
    {
      hide GroupOk, GroupsOk, Held, NoDup, CalmGroup, Turn, Counted, Punctual;
      n := 0;
      SameSize(groups, hist, jiffies);
      while true
        invariant Valid() && |groups| == |old(groups)| && n < QUANTUM
        invariant TotalQueued() + n == old(TotalQueued())
        invariant |hist| == |old(hist)| == |groups| && forall j :: 0 <= j < |groups| ==> SameArrivals(old(hist)[j], hist[j])
        invariant (old(Calm()) ==> Calm()) && SameLimits(old(groups), groups)
        invariant n == 0 ==> FruitlessPass(old(groups), groups, old(Due()), jiffies)
        invariant n == 0 ==> forall j :: 0 <= j < |groups| && groups[j] != old(groups)[j] ==> groups[j].disptime > jiffies
        decreases TotalQueued(), Due()
      {
        var first := RbFirst();
        if first.None? {
          break;
        }
        var k := first.value;
        if jiffies < groups[k].disptime {
          break;
        }
        ghost var before := groups;
        assert Busy(before[k]) && (n == 0 ==> before[k] == old(groups)[k] && k in old(Due()));
        var m := ServeGroup(k);
        TurnLimits(before[k], jiffies);
        if old(Calm()) {
          TurnCalm(before[k], jiffies);
        }
        n := n + m;
        if n >= QUANTUM {
          return;
        }
      }
      NothingDue();
    }

    /**
     blk_throtl_work, run each time throtl_schedule_next_dispatch asks for it
     and at the time it asks for.  It ends: every bio that is held leaves.
     */
    method KeepDispatching()
      requires Valid() && Calm()
      modifies this
      ensures Valid() && Calm() && TotalQueued() == 0 && jiffies >= old(jiffies) && SameLimits(old(groups), groups)
      ensures |hist| == |old(hist)| && forall j :: 0 <= j < |hist| ==>
                && SameArrivals(old(hist)[j], hist[j])
                && hist[j].read.left == hist[j].read.arrived && hist[j].write.left == hist[j].write.arrived
    {
      hide GroupOk, GroupsOk, TreeOk, Held, CalmGroup, Turn, Limit, Punctual;
      ghost var settled, latest := false, 0;
      while nrQueued.read + nrQueued.write > 0
        invariant Valid() && Calm() && jiffies >= old(jiffies) && SameLimits(old(groups), groups)
        invariant |hist| == |old(hist)| && forall j :: 0 <= j < |hist| ==> SameArrivals(old(hist)[j], hist[j])
        invariant settled ==> Due() == {} && jiffies <= latest && AdmittedBy(groups, latest)
        decreases TotalQueued(), if settled then 0 else 1, if settled then latest - jiffies else 0
      {
        var delay := ScheduleNextDispatch();
        LeftmostFirst();
        assert settled ==> tree[0] !in Due();
        Tick(jiffies + delay.value);
        ghost var before, due := groups, Due();
        ghost var first := tree[0];
        assert first in due && Busy(before[first]);
        var n := SelectDispatch();
        if n > 0 {
          settled := false;
        } else {
          assert groups[first] == before[first] ==> first in Due();
          if settled {
            AskedInTime(before, due, jiffies);
            FruitlessKeeps(before, groups, due, jiffies, latest);
          } else {
            settled, latest := true, MaxLimit(groups);
          }
          FruitlessIsEarly(before, groups, due, jiffies, latest, first);
        }
      }
      AllLeft();
    }

    lemma AllLeft()
      requires Core() && TotalQueued() == 0
      ensures |hist| == |groups| && forall j :: 0 <= j < |hist| ==> hist[j].read.left == hist[j].read.arrived && hist[j].write.left == hist[j].write.arrived
    {
      hide GroupOk, TreeOk;
      forall j | 0 <= j < |hist| ensures hist[j].read.left == hist[j].read.arrived && hist[j].write.left == hist[j].write.arrived {
        HeldAtLeast(groups, j, Read);
        HeldAtLeast(groups, j, Write);
        LeftIsArrived(groups[j], hist[j], jiffies);
      }
    }

    lemma NothingDue()
      requires Core() && (tree == [] || jiffies < groups[tree[0]].disptime)
      ensures Due() == {}
    {
      forall x | x in tree ensures x < |groups| && jiffies < groups[x].disptime {
        FirstIsLeast(tree, DispTime(groups), x);
      }
    }

    /** throtl_add_bio_tg. */
    method AddBio(k: nat, d: Dir, bio: Bio)
      requires Core() && OnTreeIffBusy(-1) && k < |groups| && !NoRule(groups[k].limits.Get(d)) && bio.size < U32
      modifies this`groups, this`tree, this`left, this`count, this`nrQueued, this`hist
      ensures Core() && OnTreeIffBusy(-1) && |groups| == |old(groups)| && |hist| == |old(hist)| == |groups|
      ensures forall j :: 0 <= j < |groups| && j != k ==> groups[j] == old(groups)[j] && hist[j] == old(hist)[j]
      ensures groups[k] == Pushed(old(groups)[k], d, bio).(onRr := true) && hist[k] == Arrive(old(hist)[k], d, bio)
    {
      hide GroupOk, GroupsOk, TreeOk, Held;
      OneGroup(groups, hist, jiffies, k);
      PushedOk(groups[k], hist[k], d, bio, jiffies);
      var g := Pushed(groups[k], d, bio);
      GroupsUpdate(groups, hist, jiffies, k, g, Arrive(hist[k], d, bio));
      TreeIgnores(groups, tree, left, count, k, g);
      HeldUpdate(groups, k, g, Read);
      HeldUpdate(groups, k, g, Write);
      SameSize(groups[k := g], hist[k := Arrive(hist[k], d, bio)], jiffies);
      hist := hist[k := Arrive(hist[k], d, bio)];
      groups := groups[k := g];
      nrQueued := nrQueued.Set(d, nrQueued.Get(d) + 1);
      assert Busy(groups[k]);
      Enqueue(k);
    }

    /** Note that a bio has gone straight through; it was charged if its group has rules. */
    method PassBio(k: nat, d: Dir, bio: Bio)
      requires Valid() && k < |groups| && groups[k].queues.Get(d) == [] && bio.size < U32
      requires Askable(groups[k], d, jiffies)
      requires NoRule(groups[k].limits.Get(d)) || Cleared(groups[k], d, bio.size, jiffies)
      modifies this`groups, this`hist
      ensures Valid() && |groups| == |old(groups)| && |hist| == |old(hist)| == |groups|
      ensures forall j :: 0 <= j < |groups| && j != k ==> groups[j] == old(groups)[j] && hist[j] == old(hist)[j]
      ensures groups[k] == if NoRule(old(groups)[k].limits.Get(d)) then old(groups)[k] else Charged(old(groups)[k], d, bio.size, jiffies)
      ensures groups[k].queues == old(groups)[k].queues
      ensures hist[k] == Leave(Arrive(old(hist)[k], d, bio), d, bio, old(groups)[k].slices.Get(d).start)
    {
      hide GroupOk, GroupsOk, TreeOk, Held, Cleared, NoRule;
      OneGroup(groups, hist, jiffies, k);
      PassedOk(groups[k], hist[k], d, bio, jiffies);
      var g := if NoRule(groups[k].limits.Get(d)) then groups[k] else Charged(groups[k], d, bio.size, jiffies);
      ghost var h := Leave(Arrive(hist[k], d, bio), d, bio, groups[k].slices.Get(d).start);
      GroupsUpdate(groups, hist, jiffies, k, g, h);
      TreeIgnores(groups, tree, left, count, k, g);
      SameQueues(groups, k, g);
      hist := hist[k := h];
      groups := groups[k := g];
    }

    /**
     blk_throtl_bio for a bio that its group has not let go before: it passes if
     its group has no rule, or if nobody waits and the limits allow it; otherwise
     it is held, and holds its group on the tree.
     */
    method ThrotlBio(k: nat, d: Dir, bio: Bio) returns (passed: bool, delay: Option<nat>)
      requires Valid() && k < |groups| && bio.size < U32
      modifies this`groups, this`tree, this`left, this`count, this`nrQueued, this`hist
      ensures Valid() && Counted(old(groups)[k], jiffies) && groups == old(groups)[k := Offered(old(groups)[k], d, bio, jiffies)]
      ensures passed <==> || NoRule(old(groups)[k].limits.Get(d))
                          || (old(groups)[k].queues.Get(d) == [] && Ask(old(groups)[k], d, bio.size, jiffies).ok)
      ensures |hist| == |old(hist)| == |groups|
      ensures forall j :: 0 <= j < |hist| && j != k ==> hist[j] == old(hist)[j]
      ensures forall e :: e != d ==> hist[k].Get(e) == old(hist)[k].Get(e)
      ensures hist[k].Get(d).arrived == old(hist)[k].Get(d).arrived + [bio]
      ensures hist[k].Get(d).left == old(hist)[k].Get(d).left + (if passed then [bio] else [])
      ensures SameLimits(old(groups), groups)
      ensures groups[k].queues == if passed then old(groups)[k].queues else Pushed(old(groups)[k], d, bio).queues
      ensures old(Calm() && Fits(groups[k], d, bio)) ==> Calm()
      ensures delay.Some? <==> !passed && old(groups)[k].queues.Get(d) == []
      ensures delay.Some? ==> jiffies <= groups[k].disptime <= jiffies + Ask(old(groups)[k], d, bio.size, jiffies).wait
      ensures delay.Some? ==> forall j :: 0 <= j < |groups| && Busy(groups[j]) ==> groups[j].disptime <= jiffies || jiffies + delay.value <= groups[j].disptime
    {
      hide GroupOk, GroupsOk, TreeOk, Held, Asked, Charged, Ask, NoRule, Cleared, Counted, AllCalm, Fits, Refiled, Offered, FirstWait;
      OneGroup(groups, hist, jiffies, k);
      IsCounted(groups[k], hist[k], jiffies);
      QueueFacts(groups[k], hist[k], d, jiffies);
      OfferedCases(groups[k], d, bio, jiffies);
      if Calm() && Fits(groups[k], d, bio) {
        AllCalmOffered(groups, k, d, bio, jiffies);
      }
      if NoRule(groups[k].limits.Get(d)) {
        PassBio(k, d, bio);
        return true, None;
      }
      if groups[k].nrQueued.Get(d) > 0 {
        AddBio(k, d, bio);
        return false, None;
      }
      passed, delay := TestBio(k, d, bio);
    }

    /** A bio that nobody waits in front of is tested against the limits. */
    method TestBio(k: nat, d: Dir, bio: Bio) returns (passed: bool, delay: Option<nat>)
      requires Valid() && k < |groups| && bio.size < U32 && !NoRule(groups[k].limits.Get(d)) && groups[k].queues.Get(d) == []
      modifies this`groups, this`tree, this`left, this`count, this`nrQueued, this`hist
      ensures Valid() && Counted(old(groups)[k], jiffies) && groups == old(groups)[k := Offered(old(groups)[k], d, bio, jiffies)]
      ensures passed == Ask(old(groups)[k], d, bio.size, jiffies).ok
      ensures |hist| == |old(hist)| == |groups| && forall j :: 0 <= j < |hist| && j != k ==> hist[j] == old(hist)[j]
      ensures forall e :: e != d ==> hist[k].Get(e) == old(hist)[k].Get(e)
      ensures hist[k].Get(d).arrived == old(hist)[k].Get(d).arrived + [bio]
      ensures hist[k].Get(d).left == old(hist)[k].Get(d).left + (if passed then [bio] else [])
      ensures delay.Some? <==> !passed
      ensures delay.Some? ==> jiffies <= groups[k].disptime <= jiffies + Ask(old(groups)[k], d, bio.size, jiffies).wait
      ensures delay.Some? ==> forall j :: 0 <= j < |groups| && Busy(groups[j]) ==> groups[j].disptime <= jiffies || jiffies + delay.value <= groups[j].disptime
    {
      hide GroupOk, GroupsOk, TreeOk, Held, Asked, Charged, Ask, NoRule, Cleared, Counted, Refiled, Offered, FirstWait, Pushed;
      OneGroup(groups, hist, jiffies, k);
      IsCounted(groups[k], hist[k], jiffies);
      OfferedCases(groups[k], d, bio, jiffies);
      ghost var g := groups[k];
      var ok, wait := TgMayDispatch(k, d, bio.size);
      AskedFacts(g, d, bio.size, jiffies);
      AskedPunctual(g, d, bio.size, jiffies);
      assert OnTreeIffBusy(-1) && OnTime(-1);
      if ok {
        PassBio(k, d, bio);
        return true, None;
      }
      passed := false;
      delay := HoldFirst(k, d, bio, g);
    }

    /** A bio that was refused is the first of its direction to be held: the group is filed anew and work is scheduled. */
    method HoldFirst(k: nat, d: Dir, bio: Bio, ghost g: Group) returns (delay: Option<nat>)
      requires Core() && OnTreeIffBusy(-1) && OnTime(k) && k < |groups| && bio.size < U32 && !NoRule(groups[k].limits.Get(d))
      requires Askable(g, d, jiffies) && g.queues.Get(d) == [] && groups[k] == Asked(g, d, bio.size, jiffies)
      modifies this`groups, this`tree, this`left, this`count, this`nrQueued, this`hist
      ensures Valid() && |groups| == |old(groups)| && |hist| == |old(hist)| == |groups|
      ensures forall j :: 0 <= j < |groups| && j != k ==> groups[j] == old(groups)[j] && hist[j] == old(hist)[j]
      ensures groups[k].queues == Pushed(old(groups)[k], d, bio).queues && hist[k] == Arrive(old(hist)[k], d, bio)
      ensures var held := Pushed(old(groups)[k], d, bio).(onRr := true);
              Counted(held, jiffies) && Busy(held) && groups[k] == Refiled(held, jiffies).(onRr := true)
      ensures delay.Some? && jiffies <= groups[k].disptime <= jiffies + Ask(g, d, bio.size, jiffies).wait
      ensures forall j :: 0 <= j < |groups| && Busy(groups[j]) ==> groups[j].disptime <= jiffies || jiffies + delay.value <= groups[j].disptime
    {
      hide GroupOk, GroupsOk, TreeOk, Held, Asked, Ask, NoRule, Punctual, Refiled, FirstWait, Counted;
      AddBio(k, d, bio);
      HeldWait(g, groups[k], d, bio, jiffies);
      UpdateDisptime(k);
      HeldAtLeast(groups, k, d);
      delay := ScheduleNextDispatch();
    }

    /** throtl_schedule_next_dispatch: how long until the work function should run. */
    method ScheduleNextDispatch() returns (delay: Option<nat>)
      requires Valid()
      modifies this`left
      ensures Valid()
      ensures delay.None? <==> TotalQueued() == 0
      ensures delay.Some? ==> tree != [] && delay.value == if groups[tree[0]].disptime <= jiffies then 0 else groups[tree[0]].disptime - jiffies
      ensures delay.Some? ==> forall k :: 0 <= k < |groups| && Busy(groups[k]) ==> groups[k].disptime >= groups[tree[0]].disptime
    {
      hide GroupOk, GroupsOk, NoDup;
      HeldSomewhere(groups, Read);
      HeldSomewhere(groups, Write);
      if nrQueued.read + nrQueued.write == 0 {
        return None;
      }
      assert count != 0;
      var first := RbFirst();
      var disptime := groups[first.value].disptime;
      LeftmostFirst();
      delay := Some(if disptime <= jiffies then 0 else disptime - jiffies);
    }

    lemma LeftmostFirst()
      requires Valid() && tree != []
      ensures tree[0] < |groups|
      ensures forall k :: 0 <= k < |groups| && Busy(groups[k]) ==> groups[k].disptime >= groups[tree[0]].disptime
    {
      forall k | 0 <= k < |groups| && Busy(groups[k]) ensures groups[k].disptime >= groups[tree[0]].disptime {
        FirstIsLeast(tree, DispTime(groups), k);
      }
    }
  }
}
