/**
 Service trees: nodes in the order of a key, a new node behind those with the
 same key, as the insertion walks of the kernel place it.
 */
module KeyedTree {
  import opened IdLists

  predicate SortedBy(tree: seq<nat>, key: nat -> int) {
    forall i, j :: 0 <= i < j < |tree| ==> key(tree[i]) <= key(tree[j])
  }

  /** Nodes that stay before a new one with key x. */
  function PlaceBy(tree: seq<nat>, key: nat -> int, x: int): (i: nat)
    ensures i <= |tree|
    ensures forall j :: 0 <= j < i ==> key(tree[j]) <= x
    ensures i < |tree| ==> x < key(tree[i])
  {
    if tree == [] || x < key(tree[0]) then 0
    else
      assert forall j :: 0 <= j < |tree| - 1 ==> tree[1..][j] == tree[j + 1];
      1 + PlaceBy(tree[1..], key, x)
  }

  lemma InsertedMembers(tree: seq<nat>, k: nat, i: nat)
    requires i <= |tree|
    ensures forall x :: x in InsertedAt(tree, k, i) <==> x in tree || x == k
  {
    assert tree == tree[..i] + tree[i..];
  }

  lemma InsertKeepsNoDup(tree: seq<nat>, k: nat, i: nat)
    requires NoDup(tree) && k !in tree && i <= |tree|
    ensures NoDup(InsertedAt(tree, k, i))
  {
    var t := InsertedAt(tree, k, i);
    forall a, b | 0 <= a < b < |t| ensures t[a] != t[b] {
      var x, y := if a < i then a else a - 1, if b < i then b else b - 1;
      assert a != i ==> t[a] == tree[x] && tree[x] in tree;
      assert b != i ==> t[b] == tree[y] && tree[y] in tree;
    }
  }

  lemma InsertKeepsSorted(tree: seq<nat>, key: nat -> int, k: nat)
    requires SortedBy(tree, key)
    ensures SortedBy(InsertedAt(tree, k, PlaceBy(tree, key, key(k))), key)
  {
    hide PlaceBy;
    var i := PlaceBy(tree, key, key(k));
    var t := InsertedAt(tree, k, i);
    forall a, b | 0 <= a < b < |t| ensures key(t[a]) <= key(t[b]) {
      if a < i {
        assert b > i ==> key(tree[a]) <= key(tree[b - 1]);
      } else if a == i {
        assert key(k) < key(tree[i]) && (i < b - 1 ==> key(tree[i]) <= key(tree[b - 1]));
      } else {
        assert key(tree[a - 1]) <= key(tree[b - 1]);
      }
    }
  }

  lemma RemoveKeepsSorted(tree: seq<nat>, key: nat -> int, k: nat)
    requires SortedBy(tree, key) && NoDup(tree) && k in tree
    ensures SortedBy(Remove(tree, k), key) && NoDup(Remove(tree, k))
    ensures tree[0] != k ==> Remove(tree, k) != [] && Remove(tree, k)[0] == tree[0]
  {
    hide Remove;
    RemoveKeepsNoDup(tree, k);
    RemoveAt(tree, k);
    if tree[0] != k {
      assert Index(tree, k) > 0;
    }
  }

  /** The order depends only on the keys of the nodes. */
  lemma SortedBySameKeys(tree: seq<nat>, key: nat -> int, key': nat -> int)
    requires SortedBy(tree, key) && forall x :: x in tree ==> key(x) == key'(x)
    ensures SortedBy(tree, key')
  {
    forall a, b | 0 <= a < b < |tree| ensures key'(tree[a]) <= key'(tree[b]) {
      assert tree[a] in tree && tree[b] in tree;
    }
  }

  lemma FirstIsLeast(tree: seq<nat>, key: nat -> int, x: nat)
    requires SortedBy(tree, key) && x in tree
    ensures key(tree[0]) <= key(x)
  {
    var i := Index(tree, x);
    assert i > 0 ==> key(tree[0]) <= key(tree[i]);
  }

  /** The sum of a quantity over the nodes. */
  function SumBy(tree: seq<nat>, f: nat -> int): (n: int) {
    if tree == [] then 0 else f(tree[0]) + SumBy(tree[1..], f)
  }

  lemma {:induction false} SumConcat(a: seq<nat>, b: seq<nat>, f: nat -> int)
    ensures SumBy(a + b, f) == SumBy(a, f) + SumBy(b, f)
    decreases |a|
  {
    if a == [] {
      assert a + b == b;
    } else {
      assert (a + b)[1..] == a[1..] + b;
      SumConcat(a[1..], b, f);
    }
  }

  lemma SumInserted(tree: seq<nat>, k: nat, i: nat, f: nat -> int)
    requires i <= |tree|
    ensures SumBy(InsertedAt(tree, k, i), f) == SumBy(tree, f) + f(k)
  {
    hide SumBy;
    var a, b := tree[..i], tree[i..];
    assert tree == a + b && InsertedAt(tree, k, i) == a + [k] + b;
    SumParts(a, [k], b, f);
    SumConcat(a, b, f);
    SumOne(k, f);
  }

  lemma SumOne(k: nat, f: nat -> int)
    ensures SumBy([k], f) == f(k)
  {
  }

  lemma SumParts(a: seq<nat>, b: seq<nat>, c: seq<nat>, f: nat -> int)
    ensures SumBy(a + b + c, f) == SumBy(a, f) + SumBy(b, f) + SumBy(c, f)
  {
    hide SumBy;
    SumConcat(a + b, c, f);
    SumConcat(a, b, f);
  }

  lemma SumRemoved(tree: seq<nat>, k: nat, f: nat -> int)
    requires NoDup(tree) && k in tree
    ensures SumBy(Remove(tree, k), f) == SumBy(tree, f) - f(k)
  {
    var i := Index(tree, k);
    var a, b := tree[..i], tree[i + 1..];
    hide SumBy, Remove, NoDup;
    SumOne(k, f);
    RemoveIsCut(tree, k);
    SumConcat(a, b, f);
    SumParts(a, [k], b, f);
    assert a + [k] + b == tree;
  }

  lemma {:induction false} SumSame(tree: seq<nat>, f: nat -> int, f': nat -> int)
    requires forall x :: x in tree ==> f(x) == f'(x)
    ensures SumBy(tree, f) == SumBy(tree, f')
    decreases |tree|
  {
    if tree != [] {
      SumSame(tree[1..], f, f');
    }
  }
}
