/** Runs of the CFQ group scheduler: virtual time gaps, and service in proportion to weight. */
module CfqFairness {
  import Arith
  import opened IdLists
  import opened CfqGroups

  datatype Op =
    | Create(g: nat, w: nat)
    | Add(g: nat)
    | Del(g: nat)
    | Choose
    | Serve(charge: nat)
    | SetWeight(g: nat, w: nat)

  /** A charge goes to the group chosen before it. */
  predicate Enabled(s: State, op: Op) {
    match op
    case Create(g, w) => g !in s.groups && w > 0
    case Add(g) => g in s.groups
    case Del(g) => g in s.groups && s.groups[g].nrCfqq > 0
    case Choose => true
    case Serve(_) => s.serving.Some?
    case SetWeight(g, w) => g in s.groups && w > 0
  }

  function Step(hz: nat, s: State, op: Op): (t: State)
    requires Inv(s) && Enabled(s, op)
  {
    match op
    case Create(g, w) => NewGroup(s, g, w)
    case Add(g) => QueueAdd(hz, s, g)
    case Del(g) => QueueDel(s, g)
    case Choose => ChooseGroup(s)
    case Serve(c) =>
      assert GroupOk(s.groups[s.serving.value], true, s.minVdisktime);
      Served(s, s.serving.value, c)
    case SetWeight(g, w) => NewWeight(s, g, w)
  }

  /** Every operation keeps the invariant, and the tree's minimum never falls. */
  lemma StepInv(hz: nat, s: State, op: Op)
    requires Inv(s) && Enabled(s, op)
    ensures Inv(Step(hz, s, op)) && Step(hz, s, op).minVdisktime >= s.minVdisktime
  {
    match op {
      case Create(g, w) => NewGroupInv(s, g, w);
      case Add(g) => QueueAddInv(hz, s, g);
      case Del(g) => QueueDelInv(s, g);
      case Choose => ChooseInv(s);
      case Serve(c) => ServedInv(s, s.serving.value, c);
      case SetWeight(g, w) => NewWeightInv(s, g, w);
    }
  }

  predicate Legal(hz: nat, s: State, ops: seq<Op>)
    requires Inv(s)
    decreases |ops|
  {
    ops == [] || (Enabled(s, ops[0]) && (StepInv(hz, s, ops[0]); Legal(hz, Step(hz, s, ops[0]), ops[1..])))
  }

  /** Whatever happens, total_weight is the weight on the tree and no group lies below the tree's minimum. */
  function {:induction false} Run(hz: nat, s: State, ops: seq<Op>): (r: State)
    requires Inv(s) && Legal(hz, s, ops)
    ensures Inv(r) && r.minVdisktime >= s.minVdisktime
    decreases |ops|
  {
    if ops == [] then s
    else
      StepInv(hz, s, ops[0]);
      Run(hz, Step(hz, s, ops[0]), ops[1..])
  }

  predicate Pays(s: State, op: Op, g: nat) {
    op.Serve? && s.serving == Some(g)
  }

  /** g stays backlogged with weight w, and no single charge to it is worth more than m. */
  predicate Steady(hz: nat, s: State, ops: seq<Op>, g: nat, w: nat, m: nat)
    requires Inv(s) && Legal(hz, s, ops) && w > 0
    decreases |ops|
  {
    g in s.tree && g in s.groups && s.groups[g].weight == w
    && (ops != [] ==>
          && (Pays(s, ops[0], g) ==> Scale(ops[0].charge, w) <= m)
          && (StepInv(hz, s, ops[0]); Steady(hz, Step(hz, s, ops[0]), ops[1..], g, w, m)))
  }

  /** What g is charged in a run. */
  function Service(hz: nat, s: State, ops: seq<Op>, g: nat): (n: nat)
    requires Inv(s) && Legal(hz, s, ops)
    decreases |ops|
  {
    if ops == [] then 0
    else
      StepInv(hz, s, ops[0]);
      (if Pays(s, ops[0], g) then ops[0].charge else 0) + Service(hz, Step(hz, s, ops[0]), ops[1..], g)
  }

  /** How often g is charged in a run. */
  function Turns(hz: nat, s: State, ops: seq<Op>, g: nat): (n: nat)
    requires Inv(s) && Legal(hz, s, ops)
    decreases |ops|
  {
    if ops == [] then 0
    else
      StepInv(hz, s, ops[0]);
      (if Pays(s, ops[0], g) then 1 else 0) + Turns(hz, Step(hz, s, ops[0]), ops[1..], g)
  }

  function V(s: State, g: nat): (n: int) {
    if g in s.groups then s.groups[g].vdisktime else 0
  }

  function Gap(s: State, i: nat, j: nat): (n: nat)
    ensures n >= V(s, i) - V(s, j) && n >= V(s, j) - V(s, i)
  {
    if V(s, i) >= V(s, j) then V(s, i) - V(s, j) else V(s, j) - V(s, i)
  }

  function Max(a: nat, b: nat): (n: nat) {
    if a >= b then a else b
  }

  /** Only a charge moves the virtual time of a group that stays on the tree. */
  lemma StepVTime(hz: nat, s: State, op: Op, g: nat)
    requires Inv(s) && Enabled(s, op) && g in s.tree && g in s.groups && s.groups[g].weight > 0
    requires g in Step(hz, s, op).tree
    ensures V(Step(hz, s, op), g) == V(s, g) + if Pays(s, op, g) then Scale(op.charge, s.groups[g].weight) else 0
  {
    hide Scale, TreeOk, ServingOk;
  }

  /** One operation: the gap stays within the bound, because the group charged was not ahead. */
  lemma StepGap(hz: nat, s: State, op: Op, i: nat, j: nat, m: nat)
    requires Inv(s) && Enabled(s, op) && i in s.tree && j in s.tree && i in s.groups && j in s.groups
    requires i in Step(hz, s, op).tree && j in Step(hz, s, op).tree
    requires s.groups[i].weight > 0 && s.groups[j].weight > 0
    requires Pays(s, op, i) ==> Scale(op.charge, s.groups[i].weight) <= m
    requires Pays(s, op, j) ==> Scale(op.charge, s.groups[j].weight) <= m
    ensures Gap(Step(hz, s, op), i, j) <= Max(Gap(s, i, j), m)
  {
    hide Scale, Step, TreeOk, GroupsOk;
    StepVTime(hz, s, op, i);
    StepVTime(hz, s, op, j);
  }

  /**
   While two groups stay backlogged with constant weights, their virtual times
   stay as close as at the start or as one charge, whatever other groups do.
   */
  lemma {:induction false} GapBound(hz: nat, s: State, ops: seq<Op>, i: nat, wi: nat, j: nat, wj: nat, m: nat)
    requires Inv(s) && Legal(hz, s, ops) && wi > 0 && wj > 0
    requires Steady(hz, s, ops, i, wi, m) && Steady(hz, s, ops, j, wj, m)
    ensures Gap(Run(hz, s, ops), i, j) <= Max(Gap(s, i, j), m)
    decreases |ops|
  {
    hide Inv, Step, Scale, Enabled;
    if ops != [] {
      StepInv(hz, s, ops[0]);
      var s' := Step(hz, s, ops[0]);
      assert Steady(hz, s', ops[1..], i, wi, m) && Steady(hz, s', ops[1..], j, wj, m);
      StepGap(hz, s, ops[0], i, j, m);
      GapBound(hz, s', ops[1..], i, wi, j, wj, m);
    }
  }

  /** A jiffy of service in units of virtual time at weight one. */
  const UNIT: nat := SERVICE_SHIFT * WEIGHT_DEFAULT

  /** Virtual time measures service over weight, up to one unit lost to rounding per charge. */
  lemma {:induction false} VTimeMeasuresService(hz: nat, s: State, ops: seq<Op>, g: nat, w: nat, m: nat)
    requires Inv(s) && Legal(hz, s, ops) && w > 0 && Steady(hz, s, ops, g, w, m)
    ensures var gained := V(Run(hz, s, ops), g) - V(s, g);
            w * gained <= UNIT * Service(hz, s, ops, g) <= w * (gained + Turns(hz, s, ops, g))
    decreases |ops|
  {
    hide Inv, Step, Enabled, Scale;
    if ops != [] {
      StepInv(hz, s, ops[0]);
      var s' := Step(hz, s, ops[0]);
      VTimeMeasuresService(hz, s', ops[1..], g, w, m);
      StepVTime(hz, s, ops[0], g);
      if Pays(s, ops[0], g) {
        var c := ops[0].charge;
        ScaleAccumulates(w, c, V(Run(hz, s', ops[1..]), g) - V(s', g), Service(hz, s', ops[1..], g), Turns(hz, s', ops[1..], g));
      }
    }
  }

  lemma ScaleAccumulates(w: nat, c: nat, gained: int, service: nat, turns: nat)
    requires w > 0 && w * gained <= UNIT * service <= w * (gained + turns)
    ensures var d := Scale(c, w); w * (gained + d) <= UNIT * (c + service) <= w * (gained + d + (1 + turns))
  {
    Accumulate(w, Scale(c, w), c, gained, service, turns);
  }

  lemma Accumulate(w: nat, d: nat, c: nat, gained: int, service: nat, turns: nat)
    requires w * d <= c * UNIT < w * (d + 1)
    requires w * gained <= UNIT * service <= w * (gained + turns)
    ensures w * (gained + d) <= UNIT * (c + service) <= w * (gained + d + (1 + turns))
  {
    assert w * (gained + d) == w * gained + w * d;
    assert w * (gained + d + (1 + turns)) == w * (gained + turns) + w * (d + 1);
  }

  /**
   Weighted fairness: the service of i over its weight exceeds that of j over
   its weight by no more than the gaps allow, up to rounding, over any run in
   which both stay backlogged. With the roles exchanged this bounds both ways.
   */
  lemma WeightedFairness(hz: nat, s: State, ops: seq<Op>, i: nat, wi: nat, j: nat, wj: nat, m: nat)
    requires Inv(s) && Legal(hz, s, ops) && wi > 0 && wj > 0
    requires Steady(hz, s, ops, i, wi, m) && Steady(hz, s, ops, j, wj, m)
    ensures UNIT * Service(hz, s, ops, i) * wj - UNIT * Service(hz, s, ops, j) * wi
         <= wi * wj * (Gap(s, i, j) + Max(Gap(s, i, j), m) + Turns(hz, s, ops, i))
  {
    hide Inv, Step, Enabled, Steady, Run, Legal, Service, Turns;
    GapBound(hz, s, ops, i, wi, j, wj, m);
    VTimeMeasuresService(hz, s, ops, i, wi, m);
    VTimeMeasuresService(hz, s, ops, j, wj, m);
    var r := Run(hz, s, ops);
    CrossWeights(wi, wj, UNIT * Service(hz, s, ops, i), UNIT * Service(hz, s, ops, j), V(r, i) - V(s, i), V(r, j) - V(s, j),
                 Turns(hz, s, ops, i), Gap(s, i, j) + Max(Gap(s, i, j), m));
  }

  lemma CrossWeights(wi: nat, wj: nat, si: int, sj: int, vi: int, vj: int, n: nat, e: nat)
    requires si <= wi * (vi + n) && wj * vj <= sj && vi <= vj + e
    ensures si * wj - sj * wi <= wi * wj * (e + n)
  {
    Arith.MulMono(wj, si, wi * (vi + n));
    Arith.MulMono(wi, wj * vj, sj);
    Arith.MulMono(wi * wj, vi + n, vj + e + n);
    Reorder(wi, wj, vi + n);
    Reorder(wj, wi, vj);
    assert wi * wj * (vj + e + n) == wi * wj * vj + wi * wj * (e + n);
  }

  lemma Reorder(a: nat, b: nat, x: int)
    ensures a * x * b == a * b * x && b * (a * x) == b * a * x == a * b * x
  {
  }
}
