/**
 The deadline scheduler: two indexes per direction over the same requests, a
 position in one of them where a batch goes on, and counters for batching and
 for how often reads have starved writes.  A red-black tree is the sequence of
 its nodes in order.
 */
module Deadline {
  import opened IdLists
  import opened Directions

  datatype Rq = Rq(dir: Dir, pos: nat, sectors: nat, expires: nat)

  /** sort_list, fifo_list and next_rq of one direction. */
  datatype Lane = Lane(sort: seq<nat>, fifo: seq<nat>, next: Option<nat>)

  datatype Tunables = Tunables(readExpire: nat, writeExpire: nat, fifoBatch: nat, writesStarved: nat) {
    function Expire(d: Dir): (r: nat) { if d == Read then readExpire else writeExpire }

    /** The longest batch: a batch has a first request even if fifo_batch is 0. */
    function Batch(): (r: nat)
      ensures r >= 1
    {
      if fifoBatch == 0 then 1 else fifoBatch
    }
  }

  datatype State = State(
    rqs: map<nat, Rq>,         // the requests the scheduler holds
    read: Lane,
    write: Lane,
    batching: nat,
    lastSector: nat,
    starved: nat,
    dispatched: seq<nat>,      // what was moved to the dispatch queue, in order
    clock: nat)                // the latest time anything happened
  {
    function At(d: Dir): (l: Lane) { if d == Read then read else write }

    function With(d: Dir, l: Lane): (s: State) { if d == Read then this.(read := l) else this.(write := l) }
  }

  function Init(): (s: State) {
    State(map[], Lane([], [], None), Lane([], [], None), 0, 0, 0, [], 0)
  }

  // -------------------------------------------------------------- operations

  /** How many nodes of a tree come before a sector. */
  function PlaceIn(sort: seq<nat>, rqs: map<nat, Rq>, pos: nat): (k: nat)
    requires forall r :: r in sort ==> r in rqs
    ensures k <= |sort|
    ensures forall i :: 0 <= i < k ==> rqs[sort[i]].pos < pos
    ensures k < |sort| ==> pos <= rqs[sort[k]].pos
  {
    if sort == [] || rqs[sort[0]].pos >= pos then 0
    else
      assert forall i :: 0 <= i < |sort| - 1 ==> sort[1..][i] == sort[i + 1];
      1 + PlaceIn(sort[1..], rqs, pos)
  }

  /** elv_rb_find: the node that starts at a sector. */
  function AliasOf(sort: seq<nat>, rqs: map<nat, Rq>, pos: nat): (r: Option<nat>)
    requires forall r :: r in sort ==> r in rqs
    ensures r.Some? ==> r.value in sort && rqs[r.value].pos == pos
  {
    var k := PlaceIn(sort, rqs, pos);
    if k < |sort| && rqs[sort[k]].pos == pos then Some(sort[k]) else None
  }

  predicate Closed(s: State) {
    && (forall r :: r in s.read.sort ==> r in s.rqs && s.rqs[r].dir == Read)
    && (forall r :: r in s.write.sort ==> r in s.rqs && s.rqs[r].dir == Write)
  }

  /** A lane without request r; a batch would go on behind it. */
  function Drop(l: Lane, r: nat): (m: Lane) {
    Lane(Remove(l.sort, r), Remove(l.fifo, r), NextOn(l.sort, r))
  }

  /** deadline_move_request: off the indexes and onto the dispatch queue. */
  function MoveRequest(s: State, r: nat): (t: State)
    requires r in s.rqs
  {
    var d, end := s.rqs[r].dir, s.rqs[r].pos + s.rqs[r].sectors;
    s.(rqs := s.rqs - {r}, lastSector := end, dispatched := s.dispatched + [r],
       read := if d == Read then Drop(s.read, r) else s.read.(next := None),
       write := if d == Write then Drop(s.write, r) else s.write.(next := None))
  }

  /** deadline_add_rq_rb, first half: a request at the same sector makes way to the dispatch queue. */
  function Evict(s: State, d: Dir, pos: nat): (t: State)
    requires Closed(s)
  {
    var alias := AliasOf(s.At(d).sort, s.rqs, pos);
    if alias.Some? then MoveRequest(s, alias.value) else s
  }

  /** Link r into a tree as the node of a sector. */
  function LinkAt(sort: seq<nat>, rqs: map<nat, Rq>, pos: nat, r: nat): (q: seq<nat>)
    requires forall x :: x in sort ==> x in rqs
    ensures forall x :: x in q <==> x in sort || x == r
  {
    var k := PlaceIn(sort, rqs, pos);
    assert sort == sort[..k] + sort[k..];
    sort[..k] + [r] + sort[k..]
  }

  function Insert(sort: seq<nat>, rqs: map<nat, Rq>, r: nat): (q: seq<nat>)
    requires r in rqs && forall x :: x in sort ==> x in rqs
    ensures forall x :: x in q <==> x in sort || x == r
  {
    LinkAt(sort, rqs, rqs[r].pos, r)
  }

  /** deadline_add_request. */
  function AddRequest(s: State, r: nat, rq: Rq): (t: State)
    requires Closed(s) && r !in s.rqs
  {
    var u := Evict(s, rq.dir, rq.pos);
    EvictCloses(s, rq.dir, rq.pos);
    var l, rqs := u.At(rq.dir), u.rqs[r := rq];
    u.(rqs := rqs).With(rq.dir, l.(sort := Insert(l.sort, rqs, r), fifo := l.fifo + [r]))
  }

  /** Request r with its new start, taken off the tree. */
  function Unsorted(s: State, r: nat, pos: nat, sectors: nat): (t: State)
    requires r in s.rqs
  {
    var d, l := s.rqs[r].dir, s.At(s.rqs[r].dir);
    s.(rqs := s.rqs[r := s.rqs[r].(pos := pos, sectors := sectors)]).With(d, l.(sort := Remove(l.sort, r)))
  }

  /** deadline_merged_request after a front merge gave request r a new start. */
  function MergedRequest(s: State, r: nat, pos: nat, sectors: nat): (t: State)
    requires Closed(s) && r in s.rqs
  {
    var d, moved := s.rqs[r].dir, Unsorted(s, r, pos, sectors);
    EvictCloses(moved, d, pos);
    var u := Evict(moved, d, pos);
    assert r in u.rqs;
    u.With(d, u.At(d).(sort := Insert(u.At(d).sort, u.rqs, r)))
  }

  /** Move r behind n and drop n: r takes its place. */
  function TakePlace(q: seq<nat>, r: nat, n: nat): (p: seq<nat>)
    requires n in q && r != n
    ensures forall x :: x in p ==> x == r || x in q
  {
    var rest := Remove(q, r);
    rest[Index(rest, n) := r]
  }

  /** The request that leaves a lane without being dispatched. */
  function Absorb(l: Lane, n: nat, fifo: seq<nat>): (m: Lane) {
    Lane(Remove(l.sort, n), fifo, if l.next == Some(n) then NextOn(l.sort, n) else l.next)
  }

  /** deadline_merged_requests: n is absorbed by r, which inherits an earlier deadline. */
  function MergedRequests(s: State, r: nat, n: nat): (t: State)
    requires r in s.rqs && n in s.rqs && r != n && s.rqs[r].dir == s.rqs[n].dir
    requires n in s.At(s.rqs[n].dir).fifo
  {
    var d, l := s.rqs[r].dir, s.At(s.rqs[r].dir);
    var earlier := s.rqs[n].expires < s.rqs[r].expires;
    var rqs := if earlier then s.rqs[r := s.rqs[r].(expires := s.rqs[n].expires)] else s.rqs;
    var fifo := if earlier then TakePlace(l.fifo, r, n) else Remove(l.fifo, n);
    s.(rqs := rqs - {n}).With(d, Absorb(l, n, fifo))
  }

  /** What deadline_dispatch_requests decides on. */
  datatype Pick = Pick(rq: nat, batching: nat, starved: nat)

  /** The start of a new batch in one direction: the oldest request if it has expired, else go on from the last. */
  function FirstOfBatch(s: State, d: Dir, now: nat): (r: nat)
    requires s.At(d).fifo != [] && s.At(d).fifo[0] in s.rqs
  {
    var l := s.At(d);
    if now > s.rqs[l.fifo[0]].expires || l.next.None? then l.fifo[0] else l.next.value
  }

  function Choose(s: State, tun: Tunables, now: nat): (p: Option<Pick>)
    requires forall d :: s.At(d).fifo != [] ==> s.At(d).fifo[0] in s.rqs
  {
    var cand := if s.write.next.Some? then s.write.next else s.read.next;
    if cand.Some? && s.batching < tun.fifoBatch then Some(Pick(cand.value, s.batching + 1, s.starved))
    else if s.read.fifo != [] && s.write.fifo != [] then
      if s.starved >= tun.writesStarved then Some(Pick(FirstOfBatch(s, Write, now), 1, 0))
      else Some(Pick(FirstOfBatch(s, Read, now), 1, s.starved + 1))
    else if s.read.fifo != [] then Some(Pick(FirstOfBatch(s, Read, now), 1, s.starved))
    else if s.write.fifo != [] then Some(Pick(FirstOfBatch(s, Write, now), 1, 0))
    else None
  }

  /** deadline_dispatch_requests. */
  function Dispatch(s: State, tun: Tunables, now: nat): (t: State)
    requires forall d :: s.At(d).fifo != [] ==> s.At(d).fifo[0] in s.rqs
    requires forall p :: Choose(s, tun, now) == Some(p) ==> p.rq in s.rqs
  {
    match Choose(s, tun, now)
    case None => s
    case Some(p) => MoveRequest(s.(batching := p.batching, starved := p.starved), p.rq)
  }

  // --------------------------------------------------------------- invariant

  predicate SortedByPos(sort: seq<nat>, rqs: map<nat, Rq>)
    requires forall r :: r in sort ==> r in rqs
  {
    forall i, j :: 0 <= i < j < |sort| ==> rqs[sort[i]].pos < rqs[sort[j]].pos
  }

  predicate OrderedByExpiry(fifo: seq<nat>, rqs: map<nat, Rq>)
    requires forall r :: r in fifo ==> r in rqs
  {
    forall i, j :: 0 <= i < j < |fifo| ==> rqs[fifo[i]].expires <= rqs[fifo[j]].expires
  }

  /**
   Both indexes of a lane hold the same requests, each in its own order.  While a
   request is repositioned it is `off` the tree.
   */
  ghost predicate LaneOk(rqs: map<nat, Rq>, d: Dir, l: Lane, latest: nat, off: set<nat>) {
    && NoDup(l.sort) && NoDup(l.fifo)
    && (forall r :: r in l.fifo <==> r in rqs && rqs[r].dir == d)
    && (forall r :: r in l.sort <==> r in rqs && rqs[r].dir == d && r !in off)
    && SortedByPos(l.sort, rqs)
    && OrderedByExpiry(l.fifo, rqs)
    && (forall r :: r in l.fifo ==> rqs[r].expires <= latest)
    && (l.next.Some? ==> l.next.value in l.fifo)
  }

  ghost predicate Held(s: State, tun: Tunables, off: set<nat>) {
    && LaneOk(s.rqs, Read, s.read, s.clock + tun.readExpire, off)
    && LaneOk(s.rqs, Write, s.write, s.clock + tun.writeExpire, off)
    && !(s.read.next.Some? && s.write.next.Some?)
    && s.starved <= tun.writesStarved
    && NoDup(s.dispatched)
    && (forall r :: r in s.rqs ==> r !in s.dispatched)
  }

  /** The invariant between operations. */
  ghost predicate Inv(s: State, tun: Tunables) {
    Held(s, tun, {})
  }

  lemma EvictCloses(s: State, d: Dir, pos: nat)
    requires Closed(s)
    ensures Closed(Evict(s, d, pos))
    ensures forall r :: r in s.rqs && r !in s.At(d).sort ==> r in Evict(s, d, pos).rqs
  {
  }

  lemma DropLane(rqs: map<nat, Rq>, d: Dir, l: Lane, latest: nat, off: set<nat>, r: nat)
    requires LaneOk(rqs, d, l, latest, off) && r in l.sort
    ensures LaneOk(rqs - {r}, d, Drop(l, r), latest, off)
  {
    hide Remove, NextOn, NoDup, SortedByPos, OrderedByExpiry;
    RemoveKeepsNoDup(l.sort, r);
    RemoveKeepsNoDup(l.fifo, r);
    SortedWithout(l.sort, rqs, r);
    OrderedWithout(l.fifo, rqs, r);
    NextOnFollows(l.sort, r);
  }

  lemma SortedWithout(sort: seq<nat>, rqs: map<nat, Rq>, r: nat)
    requires NoDup(sort) && r in sort && (forall x :: x in sort ==> x in rqs) && SortedByPos(sort, rqs)
    ensures SortedByPos(Remove(sort, r), rqs) && SortedByPos(Remove(sort, r), rqs - {r})
  {
    hide Remove;
    RemoveAt(sort, r);
  }

  lemma OrderedWithout(fifo: seq<nat>, rqs: map<nat, Rq>, r: nat)
    requires NoDup(fifo) && r in fifo && (forall x :: x in fifo ==> x in rqs) && OrderedByExpiry(fifo, rqs)
    ensures OrderedByExpiry(Remove(fifo, r), rqs) && OrderedByExpiry(Remove(fifo, r), rqs - {r})
  {
    hide Remove;
    RemoveAt(fifo, r);
  }

  /** Requests of the other direction do not matter to a lane. */
  lemma OtherLane(rqs: map<nat, Rq>, d: Dir, l: Lane, latest: nat, off: set<nat>, rqs': map<nat, Rq>, off': set<nat>)
    requires LaneOk(rqs, d, l, latest, off)
    requires forall r :: (r in rqs && rqs[r].dir == d) <==> (r in rqs' && rqs'[r].dir == d)
    requires forall r :: r in rqs && rqs[r].dir == d ==> rqs'[r] == rqs[r] && (r in off <==> r in off')
    ensures LaneOk(rqs', d, l, latest, off')
    ensures LaneOk(rqs', d, l.(next := None), latest, off')
  {
  }

  lemma MoveHeld(s: State, tun: Tunables, off: set<nat>, r: nat)
    requires Held(s, tun, off) && r in s.rqs && r !in off
    ensures Held(MoveRequest(s, r), tun, off)
  {
    hide LaneOk, Drop, NoDup;
    var t := MoveRequest(s, r);
    OnBothIndexes(s, tun, off, r);
    if s.rqs[r].dir == Read {
      DropLane(s.rqs, Read, s.read, s.clock + tun.readExpire, off, r);
      OtherLane(s.rqs, Write, s.write, s.clock + tun.writeExpire, off, t.rqs, off);
    } else {
      DropLane(s.rqs, Write, s.write, s.clock + tun.writeExpire, off, r);
      OtherLane(s.rqs, Read, s.read, s.clock + tun.readExpire, off, t.rqs, off);
    }
    NoDupSnoc(s.dispatched, r);
  }

  lemma OnBothIndexes(s: State, tun: Tunables, off: set<nat>, r: nat)
    requires Held(s, tun, off) && r in s.rqs
    ensures r in s.At(s.rqs[r].dir).fifo && (r !in off ==> r in s.At(s.rqs[r].dir).sort)
  {
  }

  lemma HeldCloses(s: State, tun: Tunables, off: set<nat>)
    requires Held(s, tun, off)
    ensures Closed(s)
  {
  }

  /** After eviction nobody starts at the sector, so the tree takes a request that does. */
  lemma EvictHeld(s: State, tun: Tunables, off: set<nat>, d: Dir, pos: nat)
    requires Held(s, tun, off)
    ensures Closed(s) && Held(Evict(s, d, pos), tun, off)
    ensures var u := Evict(s, d, pos);
            && (forall x :: x in u.At(d).sort ==> x in u.rqs && u.rqs[x].pos != pos)
            && (forall x :: x in u.rqs ==> x in s.rqs && u.rqs[x] == s.rqs[x])
            && (forall x :: x in off && x in s.rqs ==> x in u.rqs)
  {
    hide LaneOk, Drop;
    HeldCloses(s, tun, off);
    SortedTree(s, tun, off, d);
    var sort := s.At(d).sort;
    var alias := AliasOf(sort, s.rqs, pos);
    OnlyAlias(sort, s.rqs, pos);
    if alias.Some? {
      AliasOnTree(s, tun, off, d, alias.value);
      MoveHeld(s, tun, off, alias.value);
      MoveLeaves(s, alias.value);
    }
  }

  lemma MoveLeaves(s: State, r: nat)
    requires r in s.rqs
    ensures var u := MoveRequest(s, r);
            && u.rqs == s.rqs - {r}
            && (forall d, x :: x in u.At(d).sort ==> x in s.At(d).sort && (d == s.rqs[r].dir ==> x != r))
  {
  }

  lemma AliasOnTree(s: State, tun: Tunables, off: set<nat>, d: Dir, r: nat)
    requires Held(s, tun, off) && r in s.At(d).sort
    ensures r in s.rqs && s.rqs[r].dir == d && r !in off
  {
  }

  lemma SortedTree(s: State, tun: Tunables, off: set<nat>, d: Dir)
    requires Held(s, tun, off)
    ensures (forall x :: x in s.At(d).sort ==> x in s.rqs) && SortedByPos(s.At(d).sort, s.rqs)
  {
  }

  lemma OnlyAlias(sort: seq<nat>, rqs: map<nat, Rq>, pos: nat)
    requires (forall x :: x in sort ==> x in rqs) && SortedByPos(sort, rqs)
    ensures forall x :: x in sort && rqs[x].pos == pos ==> AliasOf(sort, rqs, pos) == Some(x)
  {
    forall x | x in sort && rqs[x].pos == pos ensures AliasOf(sort, rqs, pos) == Some(x) {
      var i, k := Index(sort, x), PlaceIn(sort, rqs, pos);
      assert k < |sort| && i == k;
    }
  }

  lemma InsertSorted(sort: seq<nat>, rqs: map<nat, Rq>, r: nat)
    requires NoDup(sort) && r !in sort && r in rqs && (forall x :: x in sort ==> x in rqs) && SortedByPos(sort, rqs)
    requires forall x :: x in sort ==> rqs[x].pos != rqs[r].pos
    ensures SortedByPos(Insert(sort, rqs, r), rqs)
  {
    hide PlaceIn, Insert;
    var k, q := PlaceIn(sort, rqs, rqs[r].pos), Insert(sort, rqs, r);
    InsertAt(sort, rqs, r);
    forall i, j | 0 <= i < j < |q| ensures rqs[q[i]].pos < rqs[q[j]].pos {
      if i < k {
        assert rqs[sort[i]].pos < rqs[r].pos;
        assert j > k ==> rqs[sort[i]].pos < rqs[sort[j - 1]].pos;
      } else if i == k {
        assert rqs[r].pos < rqs[sort[k]].pos && (k < j - 1 ==> rqs[sort[k]].pos < rqs[sort[j - 1]].pos);
      } else {
        assert rqs[sort[i - 1]].pos < rqs[sort[j - 1]].pos;
      }
    }
  }

  lemma InsertAt(sort: seq<nat>, rqs: map<nat, Rq>, r: nat)
    requires r in rqs && forall x :: x in sort ==> x in rqs
    ensures var k, q := PlaceIn(sort, rqs, rqs[r].pos), Insert(sort, rqs, r);
            && |q| == |sort| + 1 && k <= |sort|
            && forall i :: 0 <= i < |q| ==> q[i] == if i < k then sort[i] else if i == k then r else sort[i - 1]
  {
    hide PlaceIn;
  }

  lemma SortedIsNoDup(sort: seq<nat>, rqs: map<nat, Rq>)
    requires (forall x :: x in sort ==> x in rqs) && SortedByPos(sort, rqs)
    ensures NoDup(sort)
  {
  }

  /** Orders depend only on the keys. */
  lemma SameKeys(q: seq<nat>, rqs: map<nat, Rq>, rqs': map<nat, Rq>)
    requires forall x :: x in q ==> x in rqs && x in rqs'
    requires forall x :: x in q ==> rqs[x].pos == rqs'[x].pos
    ensures SortedByPos(q, rqs) ==> SortedByPos(q, rqs')
  {
  }

  lemma RelinkLane(rqs: map<nat, Rq>, d: Dir, l: Lane, latest: nat, r: nat)
    requires LaneOk(rqs, d, l, latest, {r}) && r in rqs && rqs[r].dir == d
    requires forall x :: x in l.sort ==> rqs[x].pos != rqs[r].pos
    ensures LaneOk(rqs, d, l.(sort := Insert(l.sort, rqs, r)), latest, {})
  {
    hide NoDup, SortedByPos, OrderedByExpiry;
    InsertSorted(l.sort, rqs, r);
    SortedIsNoDup(Insert(l.sort, rqs, r), rqs);
  }

  lemma RelinkHeld(s: State, tun: Tunables, r: nat)
    requires Held(s, tun, {r}) && r in s.rqs
    requires forall x :: x in s.At(s.rqs[r].dir).sort ==> x in s.rqs && s.rqs[x].pos != s.rqs[r].pos
    ensures var d := s.rqs[r].dir; var l := s.At(d);
            Inv(s.With(d, l.(sort := Insert(l.sort, s.rqs, r))), tun)
  {
    hide LaneOk, Insert, NoDup;
    if s.rqs[r].dir == Read {
      RelinkLane(s.rqs, Read, s.read, s.clock + tun.readExpire, r);
      OtherLane(s.rqs, Write, s.write, s.clock + tun.writeExpire, {r}, s.rqs, {});
    } else {
      RelinkLane(s.rqs, Write, s.write, s.clock + tun.writeExpire, r);
      OtherLane(s.rqs, Read, s.read, s.clock + tun.readExpire, {r}, s.rqs, {});
    }
  }

  lemma AppendLane(rqs: map<nat, Rq>, d: Dir, l: Lane, latest: nat, r: nat, rq: Rq)
    requires LaneOk(rqs, d, l, latest, {}) && r !in rqs && rq.dir == d && rq.expires == latest
    ensures LaneOk(rqs[r := rq], d, l.(fifo := l.fifo + [r]), latest, {r})
  {
    NoDupSnoc(l.fifo, r);
  }

  lemma AddInv(s: State, tun: Tunables, r: nat, rq: Rq)
    requires Inv(s, tun) && r !in s.rqs && r !in s.dispatched && rq.expires == s.clock + tun.Expire(rq.dir)
    ensures Closed(s) && Inv(AddRequest(s, r, rq), tun)
  {
    hide LaneOk, Insert, NoDup, Evict;
    EvictHeld(s, tun, {}, rq.dir, rq.pos);
    EvictDispatches(s, rq.dir, rq.pos);
    var u := Evict(s, rq.dir, rq.pos);
    AppendHeld(u, tun, r, rq);
    var l := u.At(rq.dir);
    RelinkHeld(u.(rqs := u.rqs[r := rq]).With(rq.dir, l.(fifo := l.fifo + [r])), tun, r);
  }

  lemma AppendHeld(s: State, tun: Tunables, r: nat, rq: Rq)
    requires Inv(s, tun) && r !in s.rqs && r !in s.dispatched && rq.expires == s.clock + tun.Expire(rq.dir)
    ensures var l := s.At(rq.dir);
            Held(s.(rqs := s.rqs[r := rq]).With(rq.dir, l.(fifo := l.fifo + [r])), tun, {r})
  {
    hide LaneOk, NoDup;
    var rqs := s.rqs[r := rq];
    if rq.dir == Read {
      AppendLane(s.rqs, Read, s.read, s.clock + tun.readExpire, r, rq);
      OtherLane(s.rqs, Write, s.write, s.clock + tun.writeExpire, {}, rqs, {r});
    } else {
      AppendLane(s.rqs, Write, s.write, s.clock + tun.writeExpire, r, rq);
      OtherLane(s.rqs, Read, s.read, s.clock + tun.readExpire, {}, rqs, {r});
    }
  }

  lemma EvictDispatches(s: State, d: Dir, pos: nat)
    requires Closed(s)
    ensures var u := Evict(s, d, pos);
            && u.clock == s.clock && u.starved == s.starved && u.batching == s.batching
            && (u.dispatched == s.dispatched || exists x :: x in s.rqs && u.dispatched == s.dispatched + [x])
  {
  }

  lemma UnsortLane(rqs: map<nat, Rq>, d: Dir, l: Lane, latest: nat, r: nat, rq: Rq)
    requires LaneOk(rqs, d, l, latest, {}) && r in rqs && rqs[r].dir == d && rq.dir == d && rq.expires == rqs[r].expires
    ensures LaneOk(rqs[r := rq], d, l.(sort := Remove(l.sort, r)), latest, {r})
  {
    hide Remove, NoDup, SortedByPos, OrderedByExpiry;
    RemoveKeepsNoDup(l.sort, r);
    SortedWithout(l.sort, rqs, r);
    SortedElsewhere(Remove(l.sort, r), rqs, r, rq);
    OrderedSame(l.fifo, rqs, r, rq);
  }

  /** The order of a tree does not depend on a request that is not in it. */
  lemma SortedElsewhere(sort: seq<nat>, rqs: map<nat, Rq>, r: nat, rq: Rq)
    requires (forall x :: x in sort ==> x in rqs) && SortedByPos(sort, rqs) && r !in sort
    ensures SortedByPos(sort, rqs[r := rq])
  {
  }

  lemma OrderedSame(fifo: seq<nat>, rqs: map<nat, Rq>, r: nat, rq: Rq)
    requires (forall x :: x in fifo ==> x in rqs) && OrderedByExpiry(fifo, rqs) && r in rqs && rq.expires == rqs[r].expires
    ensures OrderedByExpiry(fifo, rqs[r := rq])
  {
  }

  lemma MergedRequestInv(s: State, tun: Tunables, r: nat, pos: nat, sectors: nat)
    requires Inv(s, tun) && r in s.rqs
    ensures Closed(s) && Inv(MergedRequest(s, r, pos, sectors), tun)
  {
    hide LaneOk, Insert, NoDup, Evict, Remove;
    HeldCloses(s, tun, {});
    UnsortHeld(s, tun, r, pos, sectors);
    var v := Unsorted(s, r, pos, sectors);
    EvictHeld(v, tun, {r}, s.rqs[r].dir, pos);
    RelinkHeld(Evict(v, s.rqs[r].dir, pos), tun, r);
  }

  lemma UnsortHeld(s: State, tun: Tunables, r: nat, pos: nat, sectors: nat)
    requires Inv(s, tun) && r in s.rqs
    ensures Held(Unsorted(s, r, pos, sectors), tun, {r})
  {
    hide LaneOk, NoDup, Remove;
    var rq := s.rqs[r].(pos := pos, sectors := sectors);
    var rqs := s.rqs[r := rq];
    if rq.dir == Read {
      UnsortLane(s.rqs, Read, s.read, s.clock + tun.readExpire, r, rq);
      OtherLane(s.rqs, Write, s.write, s.clock + tun.writeExpire, {}, rqs, {r});
    } else {
      UnsortLane(s.rqs, Write, s.write, s.clock + tun.writeExpire, r, rq);
      OtherLane(s.rqs, Read, s.read, s.clock + tun.readExpire, {}, rqs, {r});
    }
  }

  lemma TakePlaceOk(fifo: seq<nat>, rqs: map<nat, Rq>, r: nat, n: nat, rq: Rq)
    requires NoDup(fifo) && r in fifo && n in fifo && r != n
    requires (forall x :: x in fifo ==> x in rqs) && OrderedByExpiry(fifo, rqs) && rq.expires == rqs[n].expires
    ensures var p := TakePlace(fifo, r, n);
            && NoDup(p) && (forall x :: x in p <==> x in fifo && x != n)
            && OrderedByExpiry(p, rqs[r := rq] - {n})
  {
    hide Remove;
    RemoveKeepsNoDup(fifo, r);
    OrderedWithout(fifo, rqs, r);
    var rest := Remove(fifo, r);
    PlaceTaken(rest, r, n);
    var i, p := Index(rest, n), TakePlace(fifo, r, n);
    hide Index, NoDup;
    assert p == rest[i := r];
    assert forall k :: 0 <= k < |p| ==> p[k] != n && (rqs[r := rq] - {n})[p[k]].expires == rqs[rest[k]].expires;
  }

  lemma PlaceTaken(rest: seq<nat>, r: nat, n: nat)
    requires NoDup(rest) && n in rest && r !in rest
    ensures var i := Index(rest, n); var p := rest[i := r];
            && i < |rest| && rest[i] == n && NoDup(p) && (forall k :: 0 <= k < |p| && k != i ==> rest[k] != n)
            && (forall x :: x in p <==> (x in rest && x != n) || x == r)
  {
    var i := Index(rest, n);
    var p := rest[i := r];
    forall x | (x in rest && x != n) || x == r ensures x in p {
      if x == r { assert p[i] == r; } else { assert p[Index(rest, x)] == x; }
    }
  }

  lemma AbsorbLane(rqs: map<nat, Rq>, d: Dir, l: Lane, latest: nat, n: nat, rqs': map<nat, Rq>, fifo: seq<nat>)
    requires LaneOk(rqs, d, l, latest, {}) && n in l.fifo
    requires forall x :: x in rqs' <==> x in rqs && x != n
    requires forall x :: x in rqs' ==> rqs'[x].dir == rqs[x].dir && rqs'[x].pos == rqs[x].pos && rqs'[x].expires <= rqs[x].expires
    requires NoDup(fifo) && (forall x :: x in fifo <==> x in l.fifo && x != n) && OrderedByExpiry(fifo, rqs')
    ensures LaneOk(rqs', d, Absorb(l, n, fifo), latest, {})
  {
    hide Remove, NextOn, NoDup, OrderedByExpiry, SortedByPos;
    RemoveKeepsNoDup(l.sort, n);
    SortedWithout(l.sort, rqs, n);
    SameKeys(Remove(l.sort, n), rqs, rqs');
    NextOnFollows(l.sort, n);
  }

  lemma MergeLane(rqs: map<nat, Rq>, d: Dir, l: Lane, latest: nat, r: nat, n: nat)
    requires LaneOk(rqs, d, l, latest, {}) && r in l.fifo && n in l.fifo && r != n
    ensures var rq := rqs[r].(expires := rqs[n].expires);
            if rqs[n].expires < rqs[r].expires then
              LaneOk(rqs[r := rq] - {n}, d, Absorb(l, n, TakePlace(l.fifo, r, n)), latest, {})
            else
              LaneOk(rqs - {n}, d, Absorb(l, n, Remove(l.fifo, n)), latest, {})
  {
    hide Remove, NoDup, TakePlace, OrderedByExpiry, SortedByPos, Absorb;
    if rqs[n].expires < rqs[r].expires {
      var rq := rqs[r].(expires := rqs[n].expires);
      TakePlaceOk(l.fifo, rqs, r, n, rq);
      AbsorbLane(rqs, d, l, latest, n, rqs[r := rq] - {n}, TakePlace(l.fifo, r, n));
    } else {
      RemoveKeepsNoDup(l.fifo, n);
      OrderedWithout(l.fifo, rqs, n);
      AbsorbLane(rqs, d, l, latest, n, rqs - {n}, Remove(l.fifo, n));
    }
  }

  lemma MergedRequestsInv(s: State, tun: Tunables, r: nat, n: nat)
    requires Inv(s, tun) && r in s.rqs && n in s.rqs && r != n && s.rqs[r].dir == s.rqs[n].dir
    ensures n in s.At(s.rqs[n].dir).fifo && Inv(MergedRequests(s, r, n), tun)
  {
    hide LaneOk, NoDup, TakePlace, Remove, NextOn;
    OnBothIndexes(s, tun, {}, r);
    OnBothIndexes(s, tun, {}, n);
    var t := MergedRequests(s, r, n);
    if s.rqs[r].dir == Read {
      MergeLane(s.rqs, Read, s.read, s.clock + tun.readExpire, r, n);
      OtherLane(s.rqs, Write, s.write, s.clock + tun.writeExpire, {}, t.rqs, {});
    } else {
      MergeLane(s.rqs, Write, s.write, s.clock + tun.writeExpire, r, n);
      OtherLane(s.rqs, Read, s.read, s.clock + tun.readExpire, {}, t.rqs, {});
    }
  }

  lemma LaneHeads(s: State, tun: Tunables, d: Dir)
    requires Inv(s, tun)
    ensures s.At(d).fifo != [] ==> s.At(d).fifo[0] in s.rqs && s.At(d).sort != []
    ensures s.At(d).next.Some? ==> s.At(d).next.value in s.rqs
  {
    if s.At(d).fifo != [] {
      assert s.At(d).fifo[0] in s.At(d).fifo;
      assert s.At(d).fifo[0] in s.At(d).sort;
    }
  }

  lemma EmptyLanes(s: State, tun: Tunables)
    requires Inv(s, tun)
    ensures s.read.fifo == [] && s.write.fifo == [] <==> s.rqs == map[]
  {
    if r :| r in s.rqs {
      OnBothIndexes(s, tun, {}, r);
    } else {
      assert s.rqs == map[];
      LaneHeads(s, tun, Read);
      LaneHeads(s, tun, Write);
    }
  }

  /** What is chosen is a request the scheduler holds, and the BUG_ONs on the trees never fire. */
  lemma ChooseOk(s: State, tun: Tunables, now: nat)
    requires Inv(s, tun)
    ensures forall d :: s.At(d).fifo != [] ==> s.At(d).fifo[0] in s.rqs && s.At(d).sort != []
    ensures forall p :: Choose(s, tun, now) == Some(p) ==> p.rq in s.rqs && p.starved <= tun.writesStarved
    ensures Choose(s, tun, now) == None <==> s.rqs == map[]
  {
    hide LaneOk, NoDup;
    LaneHeads(s, tun, Read);
    LaneHeads(s, tun, Write);
    EmptyLanes(s, tun);
  }

  lemma DispatchInv(s: State, tun: Tunables, now: nat)
    requires Inv(s, tun)
    ensures forall d :: s.At(d).fifo != [] ==> s.At(d).fifo[0] in s.rqs
    ensures forall p :: Choose(s, tun, now) == Some(p) ==> p.rq in s.rqs
    ensures Inv(Dispatch(s, tun, now), tun)
  {
    hide LaneOk, NoDup;
    ChooseOk(s, tun, now);
    match Choose(s, tun, now)
    case None =>
    case Some(p) => MoveHeld(s.(batching := p.batching, starved := p.starved), tun, {}, p.rq);
  }

  lemma TickInv(s: State, tun: Tunables, now: nat)
    requires Inv(s, tun) && s.clock <= now
    ensures Inv(s.(clock := now), tun)
  {
  }
}
