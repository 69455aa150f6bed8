/**
 CFQ's group service tree. Groups are served in the order of their virtual
 disk time, which a charge advances by an amount inverse to the weight.
 */
module CfqGroups {
  import opened Arith
  import opened IdLists
  import opened KeyedTree

  const SERVICE_SHIFT: nat := 4096
  const WEIGHT_DEFAULT: nat := 500

  datatype Grp = Grp(weight: nat, newWeight: nat, needsUpdate: bool, vdisktime: nat, nrCfqq: nat)

  /** grp_service_tree with its cached leftmost node, and the group chosen to be served next. */
  datatype State = State(groups: map<nat, Grp>, tree: seq<nat>, left: Option<nat>, totalWeight: int,
                         minVdisktime: nat, serving: Option<nat>)

  /** cfq_scale_slice. */
  function Scale(charge: nat, weight: nat): (d: nat)
    requires weight > 0
    ensures weight * d <= charge * SERVICE_SHIFT * WEIGHT_DEFAULT < weight * (d + 1)
  {
    DivBracket(charge * SERVICE_SHIFT * WEIGHT_DEFAULT, weight);
    charge * SERVICE_SHIFT * WEIGHT_DEFAULT / weight
  }

  function VTime(groups: map<nat, Grp>): (f: nat -> int) {
    (g: nat) => if g in groups then groups[g].vdisktime else 0
  }

  function Weight(groups: map<nat, Grp>): (f: nat -> int) {
    (g: nat) => if g in groups then groups[g].weight else 0
  }

  /** cfq_update_group_weight. */
  function Updated(c: Grp): (r: Grp) {
    if c.needsUpdate then c.(weight := c.newWeight, needsUpdate := false) else c
  }

  /** cfq_group_service_tree_add: the pending weight takes effect, the group goes behind those with its key. */
  function TreeAdd(s: State, g: nat): (t: State)
    requires g in s.groups
  {
    var groups := s.groups[g := Updated(s.groups[g])];
    var i := PlaceBy(s.tree, VTime(groups), groups[g].vdisktime);
    s.(groups := groups, tree := InsertedAt(s.tree, g, i), left := if i == 0 then Some(g) else s.left,
       totalWeight := s.totalWeight + groups[g].weight)
  }

  /** cfq_group_service_tree_del. */
  function TreeDel(s: State, g: nat): (t: State)
    requires g in s.groups
  {
    s.(tree := Remove(s.tree, g), left := if s.left == Some(g) then None else s.left,
       totalWeight := s.totalWeight - s.groups[g].weight)
  }

  /** cfq_group_notify_queue_add: a group that gets its first queue goes behind all others. */
  function QueueAdd(hz: nat, s: State, g: nat): (t: State)
    requires g in s.groups && forall x :: x in s.tree ==> x in s.groups
  {
    var c := s.groups[g].(nrCfqq := s.groups[g].nrCfqq + 1);
    if g in s.tree then s.(groups := s.groups[g := c])
    else
      var v := if s.tree != [] then s.groups[s.tree[|s.tree| - 1]].vdisktime + hz / 5 else s.minVdisktime;
      TreeAdd(s.(groups := s.groups[g := c.(vdisktime := v)]), g)
  }

  /** cfq_group_notify_queue_del: without queues a group leaves the tree. */
  function QueueDel(s: State, g: nat): (t: State)
    requires g in s.groups && s.groups[g].nrCfqq > 0
  {
    var s' := s.(groups := s.groups[g := s.groups[g].(nrCfqq := s.groups[g].nrCfqq - 1)],
                 serving := if s.serving == Some(g) && s.groups[g].nrCfqq == 1 then None else s.serving);
    if s'.groups[g].nrCfqq > 0 then s' else TreeDel(s', g)
  }

  /** cfq_get_next_cfqg: the leftmost group; its key becomes the tree's minimum. */
  function ChooseGroup(s: State): (t: State)
    requires forall x :: x in s.tree ==> x in s.groups
  {
    if s.tree == [] then s
    else
      var v := s.groups[s.tree[0]].vdisktime;
      s.(left := Some(s.tree[0]), serving := Some(s.tree[0]), minVdisktime := if v > s.minVdisktime then v else s.minVdisktime)
  }

  function Charged(c: Grp, charge: nat): (r: Grp)
    requires c.weight > 0
  {
    c.(vdisktime := c.vdisktime + Scale(charge, c.weight))
  }

  /** cfq_group_served: charge the chosen group, off the tree. */
  function Served(s: State, g: nat, charge: nat): (t: State)
    requires g in s.groups && s.groups[g].weight > 0
  {
    var s' := TreeDel(s, g);
    TreeAdd(s'.(groups := s'.groups[g := Charged(s'.groups[g], charge)], serving := None), g)
  }

  /** cfq_update_blkio_group_weight: a new weight is only noted. */
  function NewWeight(s: State, g: nat, w: nat): (t: State)
    requires g in s.groups
  {
    s.(groups := s.groups[g := s.groups[g].(newWeight := w, needsUpdate := true)])
  }

  /** A group is set up without queues. */
  function NewGroup(s: State, g: nat, w: nat): (t: State) {
    s.(groups := s.groups[g := Grp(w, w, false, 0, 0)])
  }

  predicate GroupOk(c: Grp, onTree: bool, min: nat) {
    c.weight > 0 && (c.needsUpdate ==> c.newWeight > 0) && (onTree <==> c.nrCfqq > 0) && (onTree ==> min <= c.vdisktime)
  }

  predicate GroupsOk(s: State) {
    forall g :: g in s.groups ==> GroupOk(s.groups[g], g in s.tree, s.minVdisktime)
  }

  /** The tree is in order and its cached totals are right. */
  predicate TreeOk(s: State) {
    && NoDup(s.tree) && (forall g :: g in s.tree ==> g in s.groups)
    && SortedBy(s.tree, VTime(s.groups))
    && (s.left.Some? ==> s.tree != [] && s.left.value == s.tree[0])
    && s.totalWeight == SumBy(s.tree, Weight(s.groups))
  }

  /** The chosen group is still one with the least virtual time. */
  predicate ServingOk(s: State) {
    s.serving.Some? ==> s.serving.value in s.tree && s.serving.value in s.groups
                        && forall g :: g in s.tree && g in s.groups ==> s.groups[s.serving.value].vdisktime <= s.groups[g].vdisktime
  }

  predicate Inv(s: State) {
    TreeOk(s) && GroupsOk(s) && ServingOk(s)
  }

  /** The tree part survives a change to groups that are not on it. */
  lemma OffTreeChange(s: State, s': State)
    requires TreeOk(s)
    requires s'.tree == s.tree && s'.left == s.left && s'.totalWeight == s.totalWeight
    requires forall g :: g in s.tree ==> g in s'.groups && s'.groups[g].vdisktime == s.groups[g].vdisktime && s'.groups[g].weight == s.groups[g].weight
    ensures TreeOk(s')
  {
    hide NoDup, SortedBy;
    SortedBySameKeys(s.tree, VTime(s.groups), VTime(s'.groups));
    SumSame(s.tree, Weight(s.groups), Weight(s'.groups));
  }

  lemma UpdatedOffTree(s: State, g: nat)
    requires TreeOk(s) && g in s.groups && g !in s.tree
    ensures TreeOk(s.(groups := s.groups[g := Updated(s.groups[g])]))
  {
    hide NoDup, SortedBy, SumBy;
    OffTreeChange(s, s.(groups := s.groups[g := Updated(s.groups[g])]));
  }

  lemma TreeAddOk(s: State, g: nat)
    requires TreeOk(s) && g in s.groups && g !in s.tree
    ensures TreeOk(TreeAdd(s, g))
    ensures forall x :: x in TreeAdd(s, g).tree <==> x in s.tree || x == g
  {
    hide NoDup, SortedBy, SumBy, PlaceBy, Updated;
    var groups := s.groups[g := Updated(s.groups[g])];
    UpdatedOffTree(s, g);
    assert groups[g].weight == Weight(groups)(g) && groups[g].vdisktime == VTime(groups)(g);
    hide VTime, Weight;
    var i := PlaceBy(s.tree, VTime(groups), groups[g].vdisktime);
    InsertedMembers(s.tree, g, i);
    InsertKeepsNoDup(s.tree, g, i);
    InsertKeepsSorted(s.tree, VTime(groups), g);
    SumInserted(s.tree, g, i, Weight(groups));
    assert i == 0 ==> InsertedAt(s.tree, g, i)[0] == g;
    assert i > 0 ==> InsertedAt(s.tree, g, i)[0] == s.tree[0];
    hide InsertedAt;
  }

  lemma TreeDelOk(s: State, g: nat)
    requires TreeOk(s) && g in s.groups && g in s.tree
    ensures TreeOk(TreeDel(s, g)) && g !in TreeDel(s, g).tree
  {
    hide NoDup, SortedBy, SumBy, Remove;
    RemoveKeepsSorted(s.tree, VTime(s.groups), g);
    SumRemoved(s.tree, g, Weight(s.groups));
  }

  /** A group that gets its first queue is placed last, with virtual time beyond all others. */
  lemma QueueAddInv(hz: nat, s: State, g: nat)
    requires Inv(s) && g in s.groups
    ensures Inv(QueueAdd(hz, s, g))
    ensures g !in s.tree ==> QueueAdd(hz, s, g).tree == s.tree + [g]
  {
    hide NoDup, SortedBy, SumBy, TreeOk, GroupsOk, ServingOk, TreeAdd;
    TreeMembers(s);
    var c := s.groups[g].(nrCfqq := s.groups[g].nrCfqq + 1);
    assert GroupOk(s.groups[g], g in s.tree, s.minVdisktime) by { GroupAt(s, g); }
    if g in s.tree {
      MoreQueues(s, g, c);
    } else {
      FirstQueue(s, g, c, if s.tree != [] then s.groups[s.tree[|s.tree| - 1]].vdisktime + hz / 5 else s.minVdisktime);
    }
  }

  /** A group on the tree may change in all but its weight and its virtual time. */
  lemma MoreQueues(s: State, g: nat, c: Grp)
    requires Inv(s) && g in s.tree && g in s.groups
    requires c.vdisktime == s.groups[g].vdisktime && c.weight == s.groups[g].weight && GroupOk(c, true, s.minVdisktime)
    ensures Inv(s.(groups := s.groups[g := c]))
  {
    hide NoDup, SortedBy, SumBy, GroupOk;
    OffTreeChange(s, s.(groups := s.groups[g := c]));
  }

  /** Linking in one group, beyond the one being served. */
  lemma PlacedOk(s: State, s': State, g: nat)
    requires GroupsOk(s) && ServingOk(s) && g in s'.groups
    requires s'.groups == s.groups[g := s'.groups[g]] && (forall x :: x in s'.tree <==> x in s.tree || x == g)
    requires s'.minVdisktime == s.minVdisktime && GroupOk(s'.groups[g], true, s.minVdisktime)
    requires s'.serving.None? || (s'.serving == s.serving && g !in s.tree && forall x :: x in s.tree && x in s.groups ==> s.groups[x].vdisktime <= s'.groups[g].vdisktime)
    ensures GroupsOk(s') && ServingOk(s')
  {
    hide GroupOk;
    forall x | x in s'.groups ensures GroupOk(s'.groups[x], x in s'.tree, s'.minVdisktime) {
      assert x != g ==> GroupOk(s.groups[x], x in s.tree, s.minVdisktime);
    }
  }

  lemma FirstQueue(s: State, g: nat, c: Grp, v: nat)
    requires Inv(s) && g in s.groups && g !in s.tree && c == s.groups[g].(nrCfqq := s.groups[g].nrCfqq + 1)
    requires forall x :: x in s.tree ==> x in s.groups
    requires s.tree != [] ==> s.groups[s.tree[|s.tree| - 1]].vdisktime <= v
    requires s.tree == [] ==> s.minVdisktime <= v
    ensures var m := s.(groups := s.groups[g := c.(vdisktime := v)]); Inv(TreeAdd(m, g)) && TreeAdd(m, g).tree == s.tree + [g]
  {
    hide NoDup, SortedBy, SumBy, PlaceBy, InsertedAt, TreeAdd, TreeOk, GroupsOk, ServingOk, GroupOk;
    var m := s.(groups := s.groups[g := c.(vdisktime := v)]);
    var r := TreeAdd(m, g);
    OffTreeChange(s, m);
    TreeAddOk(m, g);
    AddedLast(m, g);
    FirstOk(s, g, c.(vdisktime := v));
    assert r.groups == s.groups[g := Updated(c.(vdisktime := v))];
    PlacedOk(s, r, g);
  }

  lemma AddedLast(m: State, g: nat)
    requires TreeOk(m) && g in m.groups && g !in m.tree
    requires m.tree != [] ==> VTime(m.groups)(m.tree[|m.tree| - 1]) <= m.groups[g].vdisktime
    ensures TreeAdd(m, g).tree == m.tree + [g] && TreeAdd(m, g).groups == m.groups[g := Updated(m.groups[g])]
    ensures TreeAdd(m, g).minVdisktime == m.minVdisktime && TreeAdd(m, g).serving == m.serving
    ensures forall x :: x in m.tree ==> x in m.groups && m.groups[x].vdisktime <= m.groups[g].vdisktime
  {
    hide NoDup, SortedBy, SumBy, PlaceBy;
    var m' := m.(groups := m.groups[g := Updated(m.groups[g])]);
    OffTreeChange(m, m');
    LastIsGreatest(m', m.groups[g].vdisktime);
  }

  lemma FirstOk(s: State, g: nat, c: Grp)
    requires GroupsOk(s) && g in s.groups && c == s.groups[g].(nrCfqq := s.groups[g].nrCfqq + 1, vdisktime := c.vdisktime)
    requires forall x :: x in s.tree ==> x in s.groups && s.groups[x].vdisktime <= c.vdisktime
    requires s.tree == [] ==> s.minVdisktime <= c.vdisktime
    ensures GroupOk(Updated(c), true, s.minVdisktime)
  {
    if s.tree != [] {
      assert s.tree[0] in s.tree;
    }
  }

  lemma InvParts(s: State)
    requires Inv(s)
    ensures TreeOk(s) && GroupsOk(s) && ServingOk(s)
  {
  }

  lemma ServingAt(s: State)
    requires Inv(s) && s.serving.Some?
    ensures s.serving.value in s.tree && s.serving.value in s.groups && s.groups[s.serving.value].weight > 0 && TreeOk(s)
  {
  }

  lemma DelKeepsGroups(s: State, g: nat)
    requires g in s.groups
    ensures TreeDel(s, g).groups == s.groups
  {
  }

  lemma GroupAt(s: State, g: nat)
    requires GroupsOk(s) && g in s.groups
    ensures GroupOk(s.groups[g], g in s.tree, s.minVdisktime)
  {
  }

  lemma TreeMembers(s: State)
    requires TreeOk(s)
    ensures forall x :: x in s.tree ==> x in s.groups
  {
  }

  /** A node whose virtual time is at least that of the last node is placed behind it. */
  lemma LastIsGreatest(m: State, v: int)
    requires TreeOk(m)
    requires m.tree != [] ==> VTime(m.groups)(m.tree[|m.tree| - 1]) <= v
    ensures PlaceBy(m.tree, VTime(m.groups), v) == |m.tree|
    ensures forall x :: x in m.tree ==> x in m.groups && m.groups[x].vdisktime <= v
  {
    hide PlaceBy;
    var key := VTime(m.groups);
    var n := |m.tree|;
    assert forall i :: 0 <= i < n - 1 ==> key(m.tree[i]) <= key(m.tree[n - 1]);
    forall x | x in m.tree ensures m.groups[x].vdisktime <= v {
      var k := Index(m.tree, x);
      assert key(m.tree[k]) <= v;
    }
  }

  lemma QueueDelInv(s: State, g: nat)
    requires Inv(s) && g in s.groups && s.groups[g].nrCfqq > 0
    ensures Inv(QueueDel(s, g))
  {
    hide NoDup, SortedBy, SumBy, TreeOk, Remove;
    var c := s.groups[g].(nrCfqq := s.groups[g].nrCfqq - 1);
    GroupAt(s, g);
    var m := s.(groups := s.groups[g := c]);
    TreeMembers(s);
    OffTreeChange(s, m);
    if c.nrCfqq == 0 {
      var m' := m.(serving := if s.serving == Some(g) then None else s.serving);
      OffTreeChange(m, m');
      TreeDelOk(m', g);
    }
  }

  lemma ServedInv(s: State, g: nat, charge: nat)
    requires Inv(s) && g in s.groups && g in s.tree
    ensures Inv(Served(s, g, charge))
    ensures forall x :: x in Served(s, g, charge).tree <==> x in s.tree
  {
    hide NoDup, SortedBy, SumBy, TreeOk, Remove, ServingOk, GroupsOk, Scale, PlaceBy, InsertedAt;
    GroupAt(s, g);
    var a := TreeDel(s, g);
    TreeDelOk(s, g);
    RemovedMembers(s.tree, g);
    var b := a.(groups := a.groups[g := Charged(a.groups[g], charge)], serving := None);
    ChargedOffTree(a, g, charge);
    TreeAddOk(b, g);
    PlacedOk(s, TreeAdd(b, g), g);
  }

  lemma RemovedMembers(tree: seq<nat>, g: nat)
    requires g in tree
    ensures forall x :: x in Remove(tree, g) || x == g <==> x in tree
  {
  }

  lemma ChargedOffTree(s: State, g: nat, charge: nat)
    requires TreeOk(s) && g in s.groups && g !in s.tree && s.groups[g].weight > 0
    ensures TreeOk(s.(groups := s.groups[g := Charged(s.groups[g], charge)], serving := None))
  {
    hide NoDup, SortedBy, SumBy, Scale;
    OffTreeChange(s, s.(groups := s.groups[g := Charged(s.groups[g], charge)], serving := None));
  }

  /** The group chosen is on the tree and no group on it is behind it in virtual time. */
  lemma ChooseInv(s: State)
    requires Inv(s)
    ensures Inv(ChooseGroup(s)) && ChooseGroup(s).minVdisktime >= s.minVdisktime
    ensures s.tree != [] ==> ChooseGroup(s).serving == Some(s.tree[0])
    ensures s.tree != [] ==> ChooseGroup(s).minVdisktime == s.groups[s.tree[0]].vdisktime
  {
    TreeMembers(s);
    hide NoDup, SumBy;
    if s.tree != [] {
      var f := s.tree[0];
      assert f in s.tree && GroupOk(s.groups[f], true, s.minVdisktime);
      forall x | x in s.tree ensures s.groups[f].vdisktime <= s.groups[x].vdisktime {
        FirstIsLeast(s.tree, VTime(s.groups), x);
      }
      var r := ChooseGroup(s);
      assert TreeOk(r);
    }
  }

  lemma NewWeightInv(s: State, g: nat, w: nat)
    requires Inv(s) && g in s.groups && w > 0
    ensures Inv(NewWeight(s, g, w))
  {
    hide NoDup, SortedBy, SumBy, TreeOk;
    TreeMembers(s);
    OffTreeChange(s, NewWeight(s, g, w));
  }

  lemma NewGroupInv(s: State, g: nat, w: nat)
    requires Inv(s) && g !in s.groups && w > 0
    ensures Inv(NewGroup(s, g, w))
  {
    hide NoDup, SortedBy, SumBy, TreeOk;
    TreeMembers(s);
    OffTreeChange(s, NewGroup(s, g, w));
  }
}
