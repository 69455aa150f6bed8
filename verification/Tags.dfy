/** Queue tags: the bitmap, the index from tags to requests, and the list of tagged requests. */
module Tags {
  import opened IdLists

  function Reversed(s: seq<nat>): (r: seq<nat>) {
    if s == [] then [] else Reversed(s[1..]) + [s[0]]
  }

  function Clamp(depth: nat, nrRequests: nat): (n: nat) {
    if depth > nrRequests * 2 then nrRequests * 2 else depth
  }

  const MIN_RQ: nat := 4

  /** What blk_queue_resize_tags comes to; Overrun: the old entries would be copied past the end of the new map. */
  datatype Outcome = Resized | Busy | Overrun

  /** How many tags a request may choose from: two are kept back from asynchronous requests. */
  function Depth(maxDepth: nat, sync: bool): (d: nat)
    ensures d <= maxDepth && (maxDepth > 0 ==> d > 0) && (sync ==> d == maxDepth)
  {
    if !sync && maxDepth > 1 then (if maxDepth == 2 then 1 else maxDepth - 2) else maxDepth
  }

  class TagQueue {
    var nrRequests: nat
    var tagMap: array<bool>
    var tagIndex: array<Option<nat>>
    var maxDepth: nat
    var tagOf: map<nat, nat>
    /** Tagged requests, the last started first. */
    var busy: seq<nat>
    var dispatch: seq<nat>

    ghost predicate Valid()
      reads this, tagMap, tagIndex
    {
      && tagMap.Length == tagIndex.Length && maxDepth <= tagMap.Length
      && (forall t :: 0 <= t < tagMap.Length ==> (tagMap[t] <==> tagIndex[t].Some?))
      && (forall t :: 0 <= t < tagMap.Length && tagIndex[t].Some? ==> tagIndex[t].value in tagOf && tagOf[tagIndex[t].value] == t)
      && (forall r :: r in tagOf ==> tagOf[r] < tagMap.Length && tagIndex[tagOf[r]] == Some(r))
      && NoDup(busy) && (forall r :: r in busy <==> r in tagOf)
    }

    constructor (nrRequests: nat, depth: nat)
      ensures this.nrRequests == nrRequests && Valid() && fresh(tagMap) && fresh(tagIndex)
      ensures tagOf == map[] && busy == [] && dispatch == [] && maxDepth == tagMap.Length == Clamp(depth, nrRequests)
    {
      var d := Clamp(depth, nrRequests);
      this.nrRequests := nrRequests;
      tagMap := new bool[d](_ => false);
      tagIndex := new Option<nat>[d](_ => None);
      maxDepth, tagOf, busy, dispatch := d, map[], [], [];
    }

    /** The number of requests can be changed at any time, down to a minimum. */
    method SetNrRequests(n: nat)
      requires Valid()
      modifies `nrRequests
      ensures Valid() && nrRequests >= MIN_RQ && (n >= MIN_RQ ==> nrRequests == n)
    {
      nrRequests := if n < MIN_RQ then MIN_RQ else n;
    }

    /** find_first_zero_bit. */
    method FirstFree(depth: nat) returns (t: nat)
      requires depth <= tagMap.Length
      ensures t <= depth && (forall k :: 0 <= k < t ==> tagMap[k]) && (t < depth ==> !tagMap[t])
    {
      t := 0;
      while t < depth && tagMap[t]
        invariant t <= depth && forall k :: 0 <= k < t ==> tagMap[k]
      {
        t := t + 1;
      }
    }

    /** blk_queue_start_tag: the request gets the lowest free tag of those open to it, or none is free. */
    method StartTag(r: nat, sync: bool, asyncInFlight: nat) returns (ok: bool)
      requires Valid() && r !in tagOf
      modifies this, tagMap, tagIndex
      ensures Valid() && tagMap == old(tagMap) && tagIndex == old(tagIndex) && maxDepth == old(maxDepth)
      ensures ok <==> (sync || maxDepth <= 1 || asyncInFlight <= Depth(maxDepth, sync))
                      && exists t :: 0 <= t < Depth(maxDepth, sync) && !old(tagMap[..])[t]
      ensures ok ==> exists t :: 0 <= t < Depth(maxDepth, sync) && tagOf == old(tagOf)[r := t] && !old(tagMap[..])[t]
                                 && forall k :: 0 <= k < t ==> old(tagMap[..])[k]
      ensures ok ==> busy == [r] + old(busy) && dispatch == Remove(old(dispatch), r)
      ensures !ok ==> tagOf == old(tagOf) && busy == old(busy) && dispatch == old(dispatch) && tagMap[..] == old(tagMap[..])
    {
      var depth := Depth(maxDepth, sync);
      if !sync && maxDepth > 1 && asyncInFlight > depth {
        return false;
      }
      var t := FirstFree(depth);
      if t >= depth {
        return false;
      }
      assert !tagMap[..][t];
      tagMap[t] := true;
      tagOf := tagOf[r := t];
      tagIndex[t] := Some(r);
      dispatch := Remove(dispatch, r);
      NoDupCons(r, busy);
      busy := [r] + busy;
      ok := true;
    }

    /** blk_queue_end_tag. */
    method EndTag(r: nat)
      requires Valid() && r in tagOf
      modifies this, tagMap, tagIndex
      ensures Valid() && tagMap == old(tagMap) && tagIndex == old(tagIndex) && maxDepth == old(maxDepth)
      ensures tagOf == old(tagOf) - {r} && busy == Remove(old(busy), r) && dispatch == old(dispatch)
      ensures forall t :: 0 <= t < tagMap.Length ==> (tagMap[t] <==> old(tagMap[..])[t] && t != old(tagOf[r]))
    {
      var t := tagOf[r];
      RemoveKeepsNoDup(busy, r);
      busy := Remove(busy, r);
      tagOf := tagOf - {r};
      tagIndex[t] := None;
      tagMap[t] := false;
    }

    /**
     blk_queue_resize_tags: tags in use survive. Shrinking only lowers what new
     requests may use. Growing copies the old entries into the new map, and they
     fit exactly when the old depth is within twice the number of requests, which
     may have been lowered since the old map was made; the model stops there.
     */
    method Resize(newDepth: nat, shared: bool) returns (r: Outcome)
      requires Valid()
      modifies this
      ensures Valid() && tagOf == old(tagOf) && busy == old(busy) && dispatch == old(dispatch) && nrRequests == old(nrRequests)
      ensures r == Busy <==> newDepth > old(tagMap.Length) && shared
      ensures r == Overrun <==> newDepth > old(tagMap.Length) && !shared && old(tagMap.Length) > nrRequests * 2
      ensures r != Resized || newDepth <= old(tagMap.Length) ==> tagMap == old(tagMap) && tagIndex == old(tagIndex)
      ensures maxDepth == if r != Resized then old(maxDepth) else if newDepth <= old(tagMap.Length) then newDepth else Clamp(newDepth, nrRequests)
      ensures r == Resized && newDepth > old(tagMap.Length) ==>
                && fresh(tagMap) && fresh(tagIndex) && tagMap.Length == maxDepth >= old(tagMap.Length)
                && tagMap[..old(tagMap.Length)] == old(tagMap[..]) && tagIndex[..old(tagMap.Length)] == old(tagIndex[..])
                && (forall t :: old(tagMap.Length) <= t < tagMap.Length ==> !tagMap[t])
    {
      if newDepth <= tagMap.Length {
        maxDepth := newDepth;
        return Resized;
      }
      if shared {
        return Busy;
      }
      var oldMap, oldIndex := tagMap, tagIndex;
      var d := Clamp(newDepth, nrRequests);
      if oldMap.Length > d {
        return Overrun;
      }
      var map' := new bool[d](_ => false);
      var index' := new Option<nat>[d](_ => None);
      forall t | 0 <= t < oldMap.Length {
        map'[t] := oldMap[t];
      }
      forall t | 0 <= t < oldIndex.Length {
        index'[t] := oldIndex[t];
      }
      tagMap, tagIndex, maxDepth := map', index', d;
      r := Resized;
    }

    /** blk_requeue_request: the tag is given back and the request goes to the front of the dispatch list. */
    method Requeue(r: nat)
      requires Valid() && r in tagOf
      modifies this, tagMap, tagIndex
      ensures Valid() && tagMap == old(tagMap) && tagIndex == old(tagIndex) && maxDepth == old(maxDepth)
      ensures tagOf == old(tagOf) - {r} && busy == Remove(old(busy), r) && dispatch == [r] + old(dispatch)
    {
      EndTag(r);
      dispatch := [r] + dispatch;
    }

    /** blk_queue_invalidate_tags: all tagged requests are back on the dispatch list, in the order they were started. */
    method InvalidateTags()
      requires Valid()
      modifies this, tagMap, tagIndex
      ensures Valid() && tagOf == map[] && busy == [] && (forall t :: 0 <= t < tagMap.Length ==> !tagMap[t])
      ensures dispatch == Reversed(old(busy)) + old(dispatch)
    {
      while busy != []
        invariant Valid() && tagMap == old(tagMap) && tagIndex == old(tagIndex)
        invariant Reversed(busy) + dispatch == Reversed(old(busy)) + old(dispatch)
        decreases |busy|
      {
        var r := busy[0];
        RemoveKeepsNoDup(busy, r);
        ghost var rest, list := busy[1..], dispatch;
        Requeue(r);
        assert Reversed(rest) + ([r] + list) == Reversed(rest) + [r] + list;
      }
      assert forall r :: r in tagOf <==> r in busy;
    }
  }

  /** Every map deeper than twice a lowered number of requests fails to grow in this way. */
  method GrownAfterLowering(nrRequests: nat, depth: nat, lowered: nat, newDepth: nat) returns (q: TagQueue, r: Outcome)
    requires MIN_RQ <= lowered && Clamp(depth, nrRequests) > lowered * 2 && newDepth > Clamp(depth, nrRequests)
    ensures fresh(q) && q.Valid() && r == Overrun
  {
    q := new TagQueue(nrRequests, depth);
    q.SetNrRequests(lowered);
    r := q.Resize(newDepth, false);
  }
}
