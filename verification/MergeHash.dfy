/**
 The back merge hash of an elevator: requests filed under the sector behind
 their end, so that a bio or request that starts there can be appended.
 */
module MergeHash {
  import opened IdLists

  /** mergeable stands for rq_mergeable: no flag on the request forbids merging. */
  datatype Rq = Rq(pos: nat, sectors: nat, mergeable: bool, sorted: bool)

  function Key(r: Rq): (n: nat) {
    r.pos + r.sectors
  }

  type Buckets = seq<seq<nat>>

  predicate Linked(hash: Buckets, r: nat) {
    exists b :: 0 <= b < |hash| && r in hash[b]
  }

  /** Every linked request is in the bucket of its key, once. */
  predicate Filed(hash: Buckets, rqs: map<nat, Rq>, fn: nat -> nat) {
    forall b :: 0 <= b < |hash| ==> BucketOk(hash[b], b, rqs, fn)
  }

  predicate BucketOk(bucket: seq<nat>, b: nat, rqs: map<nat, Rq>, fn: nat -> nat) {
    NoDup(bucket) && forall r :: r in bucket ==> r in rqs && fn(Key(rqs[r])) == b
  }

  /** Unlinking takes a node off the chain it is on. */
  function Unlinked(hash: Buckets, r: nat): (h: Buckets)
    ensures |h| == |hash| && forall b :: 0 <= b < |h| ==> h[b] == Remove(hash[b], r)
  {
    seq(|hash|, b requires 0 <= b < |hash| => Remove(hash[b], r))
  }

  lemma UnlinkedFacts(hash: Buckets, rqs: map<nat, Rq>, fn: nat -> nat, r: nat)
    requires Filed(hash, rqs, fn)
    ensures Filed(Unlinked(hash, r), rqs, fn) && !Linked(Unlinked(hash, r), r)
    ensures forall x :: x != r ==> (Linked(Unlinked(hash, r), x) <==> Linked(hash, x))
  {
    var h := Unlinked(hash, r);
    forall b | 0 <= b < |h| ensures BucketOk(h[b], b, rqs, fn) {
      assert BucketOk(hash[b], b, rqs, fn);
      RemoveKeepsNoDup(hash[b], r);
    }
    hide Remove;
    forall x | x != r ensures Linked(h, x) <==> Linked(hash, x) {
      if Linked(h, x) {
        var b :| 0 <= b < |h| && x in h[b];
        assert x in hash[b];
      }
      if Linked(hash, x) {
        var b :| 0 <= b < |hash| && x in hash[b];
        assert x in h[b];
      }
    }
  }

  function Pushed(hash: Buckets, r: nat, b: nat): (h: Buckets)
    requires b < |hash|
  {
    hash[b := [r] + hash[b]]
  }

  lemma PushedFacts(hash: Buckets, rqs: map<nat, Rq>, fn: nat -> nat, r: nat, b: nat)
    requires Filed(hash, rqs, fn) && !Linked(hash, r) && r in rqs && b == fn(Key(rqs[r])) < |hash|
    ensures Filed(Pushed(hash, r, b), rqs, fn)
    ensures forall x :: Linked(Pushed(hash, r, b), x) <==> Linked(hash, x) || x == r
  {
    var h := Pushed(hash, r, b);
    assert BucketOk(hash[b], b, rqs, fn) && r !in hash[b];
    NoDupCons(r, hash[b]);
    assert BucketOk(h[b], b, rqs, fn);
    assert r in h[b];
    forall x ensures Linked(h, x) <==> Linked(hash, x) || x == r {
      if Linked(h, x) {
        var k :| 0 <= k < |h| && x in h[k];
        assert x in hash[k] || x == r;
      }
      if Linked(hash, x) {
        var k :| 0 <= k < |hash| && x in hash[k];
        assert x in h[k];
      }
    }
  }

  /** Filing depends only on the keys of linked requests. */
  lemma FiledSameKeys(hash: Buckets, rqs: map<nat, Rq>, rqs': map<nat, Rq>, fn: nat -> nat)
    requires Filed(hash, rqs, fn)
    requires forall r :: r in rqs && Linked(hash, r) ==> r in rqs' && Key(rqs'[r]) == Key(rqs[r])
    ensures Filed(hash, rqs', fn)
  {
    forall b | 0 <= b < |hash| ensures BucketOk(hash[b], b, rqs', fn) {
      assert BucketOk(hash[b], b, rqs, fn);
      forall r | r in hash[b] ensures r in rqs' && fn(Key(rqs'[r])) == b {
        assert Linked(hash, r);
      }
    }
  }

  /** A linked request is found in the bucket of its key. */
  lemma InItsBucket(hash: Buckets, rqs: map<nat, Rq>, fn: nat -> nat, r: nat)
    requires Filed(hash, rqs, fn) && Linked(hash, r)
    ensures r in rqs && fn(Key(rqs[r])) < |hash| && r in hash[fn(Key(rqs[r]))]
  {
    var b :| 0 <= b < |hash| && r in hash[b];
    assert BucketOk(hash[b], b, rqs, fn);
  }

  class Elevator {
    const fn: nat -> nat
    var hash: Buckets
    var rqs: map<nat, Rq>
    var nrSorted: int
    var lastMerge: Option<nat>

    ghost predicate Valid()
      reads this
    {
      (forall x :: fn(x) < |hash|) && Filed(hash, rqs, fn)
    }

    ghost predicate OnHash(r: nat)
      reads `hash
    {
      Linked(hash, r)
    }

    constructor (fn: nat -> nat, entries: nat)
      requires forall x :: fn(x) < entries
      ensures this.fn == fn && Valid() && rqs == map[] && nrSorted == 0 && lastMerge == None
      ensures forall r :: !OnHash(r)
    {
      this.fn := fn;
      hash := seq(entries, _ => []);
      rqs, nrSorted, lastMerge := map[], 0, None;
    }

    method HashDel(r: nat)
      requires Valid()
      modifies `hash
      ensures Valid() && |hash| == |old(hash)|
      ensures forall x :: OnHash(x) <==> old(OnHash(x)) && x != r
    {
      UnlinkedFacts(hash, rqs, fn, r);
      hash := Unlinked(hash, r);
    }

    method HashAdd(r: nat)
      requires Valid() && r in rqs && !OnHash(r)
      modifies `hash
      ensures Valid() && |hash| == |old(hash)|
      ensures forall x :: OnHash(x) <==> old(OnHash(x)) || x == r
    {
      var b := fn(Key(rqs[r]));
      PushedFacts(hash, rqs, fn, r, b);
      hash := Pushed(hash, r, b);
    }

    /** elv_rqhash_reposition, after the end of r moved. */
    method Reposition(r: nat, ghost was: map<nat, Rq>)
      requires (forall x :: fn(x) < |hash|) && Filed(hash, was, fn) && r in rqs
      requires forall x :: x in was && x != r ==> x in rqs && Key(rqs[x]) == Key(was[x])
      modifies `hash
      ensures Valid()
      ensures forall x :: OnHash(x) <==> old(OnHash(x)) || x == r
    {
      UnlinkedFacts(hash, was, fn, r);
      hash := Unlinked(hash, r);
      FiledSameKeys(hash, was, rqs, fn);
      HashAdd(r);
    }

    /** __elv_add_request with sorted insertion. */
    method InsertSort(r: nat, q: Rq)
      requires Valid() && r !in rqs && !OnHash(r)
      modifies this
      ensures Valid() && rqs == old(rqs)[r := q.(sorted := true)] && nrSorted == old(nrSorted) + 1
      ensures forall x :: OnHash(x) <==> old(OnHash(x)) || (x == r && q.mergeable)
      ensures lastMerge == if q.mergeable && old(lastMerge).None? then Some(r) else old(lastMerge)
    {
      ghost var was := rqs;
      rqs := rqs[r := q.(sorted := true)];
      nrSorted := nrSorted + 1;
      FiledSameKeys(hash, was, rqs, fn);
      if q.mergeable {
        HashAdd(r);
        if lastMerge.None? {
          lastMerge := Some(r);
        }
      }
    }

    /** The part of elv_dispatch_sort that takes a request out of the elevator. */
    method TakeOut(r: nat)
      requires Valid()
      modifies this
      ensures Valid() && rqs == old(rqs) && nrSorted == old(nrSorted) - 1
      ensures forall x :: OnHash(x) <==> old(OnHash(x)) && x != r
      ensures lastMerge == if old(lastMerge) == Some(r) then None else old(lastMerge)
    {
      if lastMerge == Some(r) {
        lastMerge := None;
      }
      HashDel(r);
      nrSorted := nrSorted - 1;
    }

    /** A flag that forbids merging is set at any time, without touching the hash. */
    method ForbidMerge(r: nat)
      requires Valid() && r in rqs
      modifies `rqs
      ensures Valid() && rqs == old(rqs)[r := old(rqs)[r].(mergeable := false)]
    {
      ghost var was := rqs;
      rqs := rqs[r := rqs[r].(mergeable := false)];
      FiledSameKeys(hash, was, rqs, fn);
    }

    /** n sectors are appended; the request is filed anew. */
    method BackMerged(r: nat, n: nat)
      requires Valid() && r in rqs
      modifies this
      ensures Valid() && rqs == old(rqs)[r := old(rqs)[r].(sectors := old(rqs)[r].sectors + n)] && lastMerge == Some(r)
      ensures nrSorted == old(nrSorted) && forall x :: OnHash(x) <==> old(OnHash(x)) || x == r
    {
      ghost var was := rqs;
      rqs := rqs[r := rqs[r].(sectors := rqs[r].sectors + n)];
      Reposition(r, was);
      lastMerge := Some(r);
    }

    /** n sectors are put in front: the end stays, and so does the place in the hash. */
    method FrontMerged(r: nat, n: nat)
      requires Valid() && r in rqs && n <= rqs[r].pos
      modifies this
      ensures Valid() && hash == old(hash) && lastMerge == Some(r) && nrSorted == old(nrSorted)
      ensures rqs == old(rqs)[r := old(rqs)[r].(pos := old(rqs)[r].pos - n, sectors := old(rqs)[r].sectors + n)]
    {
      ghost var was := rqs;
      rqs := rqs[r := rqs[r].(pos := rqs[r].pos - n, sectors := rqs[r].sectors + n)];
      FiledSameKeys(hash, was, rqs, fn);
      lastMerge := Some(r);
    }

    /** elv_merge_requests: next, which starts where r ends, has been absorbed into r. */
    method MergeRequests(r: nat, next: nat)
      requires Valid() && r in rqs && next in rqs && r != next && Key(rqs[r]) == rqs[next].pos
      modifies this
      ensures Valid() && rqs == old(rqs)[r := old(rqs)[r].(sectors := old(rqs)[r].sectors + old(rqs)[next].sectors)]
      ensures Key(rqs[r]) == old(Key(rqs[next])) && lastMerge == Some(r)
      ensures nrSorted == old(nrSorted) - if old(rqs)[next].sorted then 1 else 0
      ensures forall x :: OnHash(x) <==> (old(OnHash(x)) || x == r) && !(x == next && old(rqs)[next].sorted)
    {
      ghost var was := rqs;
      rqs := rqs[r := rqs[r].(sectors := rqs[r].sectors + rqs[next].sectors)];
      Reposition(r, was);
      if rqs[next].sorted {
        HashDel(next);
        nrSorted := nrSorted - 1;
      }
      lastMerge := Some(r);
    }

    /**
     elv_rqhash_find is a faithful index: it succeeds exactly when a scan of
     all hashed requests would, and drops only requests that cannot be merged.
     */
    method Find(offset: nat) returns (found: Option<nat>)
      requires Valid()
      modifies `hash
      ensures Valid()
      ensures found.Some? <==> exists r :: old(OnHash(r)) && r in rqs && rqs[r].mergeable && Key(rqs[r]) == offset
      ensures found.Some? ==> old(OnHash(found.value)) && found.value in rqs && rqs[found.value].mergeable && Key(rqs[found.value]) == offset
      ensures forall r :: OnHash(r) ==> old(OnHash(r))
      ensures forall r :: old(OnHash(r)) && !OnHash(r) ==> r in rqs && !rqs[r].mergeable
    {
      var b := fn(offset);
      var chain := hash[b];
      var i := 0;
      while i < |chain|
        invariant 0 <= i <= |chain| && Valid()
        invariant forall k :: 0 <= k < i ==> chain[k] in rqs && !(rqs[chain[k]].mergeable && Key(rqs[chain[k]]) == offset)
        invariant forall r :: OnHash(r) ==> old(OnHash(r))
        invariant forall r :: old(OnHash(r)) && !OnHash(r) ==> r in rqs && !rqs[r].mergeable
      {
        var r := chain[i];
        assert r in old(hash)[b] && old(OnHash(r));
        InItsBucket(old(hash), rqs, fn, r);
        if !rqs[r].mergeable {
          HashDel(r);
        } else if Key(rqs[r]) == offset {
          return Some(r);
        }
        i := i + 1;
      }
      forall r | old(OnHash(r)) && r in rqs && rqs[r].mergeable ensures Key(rqs[r]) != offset {
        InItsBucket(old(hash), rqs, fn, r);
      }
      found := None;
    }
  }
}
