/** The group service tree as CFQ keeps it: updated in place, one group at a time. */
module CfqService {
  import opened IdLists
  import opened KeyedTree
  import opened CfqGroups

  class GroupScheduler {
    const hz: nat
    var groups: map<nat, Grp>
    var tree: seq<nat>
    var left: Option<nat>
    var totalWeight: int
    var minVdisktime: nat
    var serving: Option<nat>

    ghost function View(): (s: State)
      reads this
    {
      State(groups, tree, left, totalWeight, minVdisktime, serving)
    }

    constructor (hz: nat)
      ensures this.hz == hz && View() == State(map[], [], None, 0, 0, None) && Inv(View())
    {
      this.hz := hz;
      groups, tree, left, totalWeight, minVdisktime, serving := map[], [], None, 0, 0, None;
    }

    /** Where the insertion walk ends: behind all nodes whose key is not larger. */
    method Walk(v: nat) returns (i: nat)
      requires TreeOk(View())
      ensures i == PlaceBy(tree, VTime(groups), v)
    {
      hide SumBy;
      i := 0;
      while i < |tree| && groups[tree[i]].vdisktime <= v
        invariant i <= |tree| && i + PlaceBy(tree[i..], VTime(groups), v) == PlaceBy(tree, VTime(groups), v)
      {
        assert tree[i..][1..] == tree[i + 1..];
        i := i + 1;
      }
    }

    method UpdateWeight(g: nat)
      requires g in groups
      modifies `groups
      ensures groups == old(groups)[g := Updated(old(groups)[g])]
    {
      if groups[g].needsUpdate {
        groups := groups[g := groups[g].(weight := groups[g].newWeight, needsUpdate := false)];
      } else {
        assert groups == groups[g := groups[g]];
      }
    }

    method Link(g: nat)
      requires TreeOk(View()) && g in groups && g !in tree
      modifies this
      ensures View() == old(TreeAdd(View(), g)) && TreeOk(View())
      ensures forall x :: x in tree <==> x in old(tree) || x == g
    {
      hide SumBy, SortedBy, NoDup, PlaceBy, InsertedAt, TreeOk, Updated;
      ghost var s := View();
      TreeAddOk(s, g);
      UpdateWeight(g);
      UpdatedOffTree(s, g);
      var i := Walk(groups[g].vdisktime);
      if i == 0 {
        left := Some(g);
      }
      tree := InsertedAt(tree, g, i);
      totalWeight := totalWeight + groups[g].weight;
    }

    method Unlink(g: nat)
      requires TreeOk(View()) && g in groups && g in tree
      modifies this
      ensures View() == old(TreeDel(View(), g)) && TreeOk(View()) && g !in tree
    {
      hide SumBy, SortedBy, NoDup, Remove;
      TreeDelOk(View(), g);
      totalWeight := totalWeight - groups[g].weight;
      if left == Some(g) {
        left := None;
      }
      tree := Remove(tree, g);
    }

    method NotifyQueueAdd(g: nat)
      requires Inv(View()) && g in groups
      modifies this
      ensures Inv(View()) && View() == old(QueueAdd(hz, View(), g))
    {
      hide Inv, TreeAdd, TreeOk, GroupsOk, ServingOk;
      ghost var s := View();
      QueueAddInv(hz, s, g);
      assert TreeOk(s) by { InvParts(s); }
      TreeMembers(s);
      groups := groups[g := groups[g].(nrCfqq := groups[g].nrCfqq + 1)];
      if g in tree {
        return;
      }
      var v := minVdisktime;
      if tree != [] {
        v := groups[tree[|tree| - 1]].vdisktime + hz / 5;
      }
      groups := groups[g := groups[g].(vdisktime := v)];
      OffTreeChange(s, View());
      assert groups == s.groups[g := s.groups[g].(nrCfqq := s.groups[g].nrCfqq + 1, vdisktime := v)];
      Link(g);
    }


    method NotifyQueueDel(g: nat)
      requires Inv(View()) && g in groups && groups[g].nrCfqq > 0
      modifies this
      ensures Inv(View()) && View() == old(QueueDel(View(), g))
    {
      hide SumBy, SortedBy, NoDup, Inv, TreeDel;
      ghost var s := View();
      QueueDelInv(s, g);
      assert TreeOk(s) && GroupsOk(s) by { InvParts(s); }
      GroupAt(s, g);
      groups := groups[g := groups[g].(nrCfqq := groups[g].nrCfqq - 1)];
      if groups[g].nrCfqq > 0 {
        return;
      }
      if serving == Some(g) {
        serving := None;
      }
      OffTreeChange(s, View());
      Unlink(g);
    }

    /** The group to serve: on the tree, and none on the tree is behind it in virtual time. */
    method GetNextGroup() returns (g: Option<nat>)
      requires Inv(View())
      modifies this
      ensures Inv(View()) && View() == old(ChooseGroup(View()))
      ensures g.None? <==> tree == []
      ensures g.Some? ==> g.value in tree && forall x :: x in tree ==> groups[g.value].vdisktime <= groups[x].vdisktime
    {
      hide SumBy, SortedBy, NoDup;
      ChooseInv(View());
      if tree == [] {
        return None;
      }
      if left.None? {
        left := Some(tree[0]);
      }
      g := left;
      if groups[left.value].vdisktime > minVdisktime {
        minVdisktime := groups[left.value].vdisktime;
      }
      serving := g;
    }

    method GroupServed(charge: nat)
      requires Inv(View()) && serving.Some?
      modifies this
      ensures old(serving.value in groups && groups[serving.value].weight > 0)
      ensures Inv(View()) && View() == old(Served(View(), serving.value, charge))
    {
      hide Inv, TreeOk, GroupsOk, ServingOk, TreeAdd, TreeDel, Scale;
      ghost var s := View();
      var g := serving.value;
      ServingAt(s);
      TreeMembers(s);
      ServedInv(s, g, charge);
      Unlink(g);
      ghost var a := View();
      TreeMembers(a);
      assert a.groups == s.groups by { DelKeepsGroups(s, g); }
      groups, serving := groups[g := groups[g].(vdisktime := groups[g].vdisktime + Scale(charge, groups[g].weight))], None;
      OffTreeChange(a, View());
      Link(g);
    }


    method NoteWeight(g: nat, w: nat)
      requires Inv(View()) && g in groups && w > 0
      modifies this
      ensures Inv(View()) && View() == old(NewWeight(View(), g, w))
    {
      hide SumBy, SortedBy, NoDup;
      NewWeightInv(View(), g, w);
      groups := groups[g := groups[g].(newWeight := w, needsUpdate := true)];
    }

    method InitGroup(g: nat, w: nat)
      requires Inv(View()) && g !in groups && w > 0
      modifies this
      ensures Inv(View()) && View() == old(NewGroup(View(), g, w))
    {
      hide SumBy, SortedBy, NoDup;
      NewGroupInv(View(), g, w);
      groups := groups[g := Grp(w, w, false, 0, 0)];
    }
  }
}
