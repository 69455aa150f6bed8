/** Duplicate-free lists of request identifiers, as the kernel's intrusive lists are. */
module IdLists {

  datatype Option<+T> = None | Some(value: T)

  predicate NoDup(q: seq<nat>) {
    forall i, j :: 0 <= i < j < |q| ==> q[i] != q[j]
  }

  function Remove(q: seq<nat>, r: nat): (p: seq<nat>)
    ensures forall x :: x in p <==> x in q && x != r
    ensures r !in q ==> p == q
  {
    if q == [] then [] else if q[0] == r then Remove(q[1..], r) else [q[0]] + Remove(q[1..], r)
  }

  /** The entry that follows x. */
  function NextOn(q: seq<nat>, x: nat): (n: Option<nat>)
    ensures n.Some? ==> n.value in q
  {
    if |q| < 2 then None else if q[0] == x then Some(q[1]) else NextOn(q[1..], x)
  }

  /** How many entries stand before the first x. */
  function Index(q: seq<nat>, x: nat): (i: nat)
    requires x in q
    ensures i < |q| && q[i] == x
    ensures forall k :: 0 <= k < i ==> q[k] != x
  {
    if q[0] == x then 0 else 1 + Index(q[1..], x)
  }

  lemma NoDupTail(q: seq<nat>)
    requires NoDup(q) && q != []
    ensures NoDup(q[1..]) && q[0] !in q[1..]
  {
    assert forall i :: 0 <= i < |q[1..]| ==> q[1..][i] == q[i + 1];
  }

  lemma NoDupCons(x: nat, q: seq<nat>)
    requires NoDup(q)
    ensures x !in q ==> NoDup([x] + q)
  {
  }

  lemma NoDupSnoc(q: seq<nat>, r: nat)
    requires NoDup(q) && r !in q
    ensures NoDup(q + [r])
  {
  }

  lemma {:induction false} RemoveKeepsNoDup(q: seq<nat>, r: nat)
    requires NoDup(q)
    ensures NoDup(Remove(q, r))
    ensures q != [] && q[0] == r ==> Remove(q, r) == q[1..]
    decreases |q|
  {
    if q != [] {
      NoDupTail(q);
      RemoveKeepsNoDup(q[1..], r);
      NoDupCons(q[0], Remove(q[1..], r));
    }
  }

  /** Removal cuts out one position. */
  lemma {:induction false} RemoveIsCut(q: seq<nat>, r: nat)
    requires NoDup(q) && r in q
    ensures var i := Index(q, r); Remove(q, r) == q[..i] + q[i + 1..]
    decreases |q|
  {
    NoDupTail(q);
    if q[0] != r {
      RemoveIsCut(q[1..], r);
      CutTail(q, Index(q[1..], r));
    }
  }

  lemma CutTail(q: seq<nat>, k: nat)
    requires k + 1 < |q|
    ensures [q[0]] + (q[1..][..k] + q[1..][k + 1..]) == q[..k + 1] + q[k + 2..]
  {
  }

  lemma RemoveAt(q: seq<nat>, r: nat)
    requires NoDup(q) && r in q
    ensures |Remove(q, r)| == |q| - 1
    ensures forall k :: 0 <= k < |q| - 1 ==> Remove(q, r)[k] == q[if k < Index(q, r) then k else k + 1]
  {
    hide Remove, NoDup;
    RemoveIsCut(q, r);
    var i := Index(q, r);
    assert |q[..i]| == i && |q[i + 1..]| == |q| - i - 1;
  }

  /** Removing another entry never moves x back, and moves it up if the other stood before it. */
  lemma {:induction false} IndexAfterRemove(q: seq<nat>, r: nat, x: nat)
    requires NoDup(q) && x in q && x != r
    ensures Index(Remove(q, r), x) == if r in q && Index(q, r) < Index(q, x) then Index(q, x) - 1 else Index(q, x)
    decreases |q|
  {
    NoDupTail(q);
    if q[0] != r && q[0] != x {
      IndexAfterRemove(q[1..], r, x);
    }
  }

  lemma {:induction false} IndexAppend(q: seq<nat>, p: seq<nat>, x: nat)
    requires x in q
    ensures Index(q + p, x) == Index(q, x)
    decreases |q|
  {
    assert (q + p)[0] == q[0];
    if q[0] != x {
      assert (q + p)[1..] == q[1..] + p;
      IndexAppend(q[1..], p, x);
    }
  }

  lemma {:induction false} NextOnFollows(q: seq<nat>, x: nat)
    requires NoDup(q)
    ensures x in q ==> NextOn(q, x) == if Index(q, x) + 1 < |q| then Some(q[Index(q, x) + 1]) else None
    ensures NextOn(q, x) != Some(x)
    decreases |q|
  {
    if |q| >= 2 {
      NoDupTail(q);
      NextOnFollows(q[1..], x);
    }
  }

  /** Only the last of two updates of the same entry counts. */
  lemma UpdateTwice<V>(m: map<nat, V>, k: nat, a: V, b: V)
    ensures m[k := a][k := b] == m[k := b]
  {
  }

  /** The list with x at index i. */
  function InsertedAt<T>(s: seq<T>, x: T, i: nat): (t: seq<T>)
    requires i <= |s|
    ensures |t| == |s| + 1
    ensures forall j :: 0 <= j < |t| ==> t[j] == if j < i then s[j] else if j == i then x else s[j - 1]
  {
    s[..i] + [x] + s[i..]
  }
}
