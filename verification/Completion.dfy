/**
 Partial completion of a request: what blk_update_request leaves of a chain of
 bios after n bytes were transferred, as a function, and its meaning on the
 byte stream of the request.
 */
module Completion {
  import opened Bios

  const SECTOR_SIZE: nat := 512

  /** Vectors that n bytes pass completely, and the bytes into the next one. */
  function Skip(vs: seq<Vec>, n: nat): (r: (nat, nat))
    requires n < Bytes(vs)
    ensures r.0 < |vs| && r.1 < n + 1
    ensures r.1 > 0 ==> r.1 < vs[r.0].len
    decreases |vs|
  {
    assert Bytes(vs) == vs[0].len + Bytes(vs[1..]);
    if vs[0].len > n then (0, n)
    else if vs[0].len == n then
      assert |vs[1..]| > 0;
      (1, 0)
    else
      var r := Skip(vs[1..], n - vs[0].len);
      assert vs[1..][r.0] == vs[r.0 + 1];
      (r.0 + 1, r.1)
  }

  /** One vector of the walk. */
  lemma SkipStep(vs: seq<Vec>, n: nat)
    requires 0 < n < Bytes(vs)
    ensures vs != []
    ensures vs[0].len > n ==> Skip(vs, n) == (0, n)
    ensures vs[0].len == n ==> Skip(vs, n) == (1, 0)
    ensures vs[0].len < n ==> 0 < n - vs[0].len < Bytes(vs[1..])
                              && var r := Skip(vs[1..], n - vs[0].len); Skip(vs, n) == (r.0 + 1, r.1)
  {
  }

  function Behind(v: Vec, n: nat): (r: Vec)
    requires n <= v.len
  {
    v.(offset := v.offset + n, len := v.len - n)
  }

  /** The bio after its first n bytes; n bytes do not finish it. */
  function Advance(b: Bio, n: nat): (r: Bio)
    requires WellFormed(b) && n < b.size
    ensures r.id == b.id
  {
    if n == 0 then b
    else
      var (k, rem) := Skip(Live(b), n);
      var at := b.idx + k;
      b.(idx := at, size := b.size - n, sector := b.sector + n / SECTOR_SIZE,
         vecs := b.vecs[at := Behind(b.vecs[at], rem)])
  }

  /**
   The chain after n bytes: finished bios leave it, and the walk stops at a bio
   boundary once nothing is left to account for.
   */
  function DropBytes(bios: seq<Bio>, n: nat): (r: seq<Bio>)
    requires AllWellFormed(bios)
    ensures |r| <= |bios|
    decreases |bios|
  {
    if bios == [] then []
    else if n < bios[0].size then [Advance(bios[0], n)] + bios[1..]
    else if n == bios[0].size && |bios| > 1 then bios[1..]
    else DropBytes(bios[1..], n - bios[0].size)
  }

  /** The vectors that remain after n bytes of a run. */
  function Rest(vs: seq<Vec>, n: nat): (r: seq<Vec>)
    requires n <= Bytes(vs)
    decreases |vs|
  {
    if n == 0 then vs
    else if vs[0].len > n then [Behind(vs[0], n)] + vs[1..]
    else Rest(vs[1..], n - vs[0].len)
  }

  lemma {:induction false} SkipIsRest(vs: seq<Vec>, n: nat)
    requires 0 < n < Bytes(vs)
    ensures var (k, rem) := Skip(vs, n);
            rem <= vs[k].len && [Behind(vs[k], rem)] + vs[k + 1..] == Rest(vs, n)
    decreases |vs|
  {
    if vs[0].len == n {
      assert [Behind(vs[1], 0)] + vs[2..] == vs[1..];
    } else if vs[0].len < n {
      SkipIsRest(vs[1..], n - vs[0].len);
      var (k, rem) := Skip(vs[1..], n - vs[0].len);
      assert vs[1..][k + 1..] == vs[k + 2..];
    }
  }

  lemma {:induction false} RestStream(vs: seq<Vec>, n: nat)
    requires n <= Bytes(vs)
    ensures Stream(Rest(vs, n)) == Stream(vs)[n..]
    ensures Bytes(Rest(vs, n)) == Bytes(vs) - n
    decreases |vs|
  {
    if n > 0 {
      hide Range;
      var v, tail := vs[0], vs[1..];
      if v.len > n {
        assert Rest(vs, n)[1..] == tail;
        RangeSplit(v.Phys(), n, v.len - n);
        DropFront(Range(v.Phys(), v.len), Stream(tail), n);
      } else {
        RestStream(tail, n - v.len);
        DropBoth(Range(v.Phys(), v.len), Stream(tail), n);
      }
    }
  }

  lemma {:induction false} RestTwice(vs: seq<Vec>, n: nat, m: nat)
    requires n + m <= Bytes(vs)
    ensures Bytes(Rest(vs, n)) == Bytes(vs) - n
    ensures Rest(Rest(vs, n), m) == Rest(vs, n + m)
    decreases |vs|
  {
    if n > 0 {
      if vs[0].len > n {
        assert Rest(vs, n)[1..] == vs[1..];
      } else {
        RestTwice(vs[1..], n - vs[0].len, m);
      }
    }
  }

  lemma AdvanceLive(b: Bio, n: nat)
    requires WellFormed(b) && n < b.size
    ensures Advance(b, n).idx < |b.vecs| == |Advance(b, n).vecs|
    ensures Live(Advance(b, n)) == Rest(Live(b), n)
  {
    if n > 0 {
      SkipIsRest(Live(b), n);
    }
  }

  lemma AdvanceStream(b: Bio, n: nat)
    requires WellFormed(b) && n < b.size
    ensures WellFormed(Advance(b, n)) && Live(Advance(b, n)) != []
    ensures Stream(Live(Advance(b, n))) == Stream(Live(b))[n..]
    ensures Advance(b, n).size == b.size - n
  {
    AdvanceLive(b, n);
    RestStream(Live(b), n);
  }

  lemma {:induction false} DropWellFormed(bios: seq<Bio>, n: nat)
    requires AllWellFormed(bios)
    ensures AllWellFormed(DropBytes(bios, n))
    ensures Sizes(DropBytes(bios, n)) == if n <= Sizes(bios) then Sizes(bios) - n else 0
    decreases |bios|
  {
    if bios != [] {
      if n < bios[0].size {
        AdvanceStream(bios[0], n);
        assert DropBytes(bios, n)[1..] == bios[1..];
      } else if n > bios[0].size || |bios| == 1 {
        DropWellFormed(bios[1..], n - bios[0].size);
      }
    }
  }

  /** Partial completion refines a prefix drop: exactly the first n bytes of the stream go. */
  lemma {:induction false} DropIsPrefixDrop(bios: seq<Bio>, n: nat)
    requires AllWellFormed(bios)
    ensures AllWellFormed(DropBytes(bios, n))
    ensures var all := Stream(Vectors(bios));
            |all| == Sizes(bios) && Stream(Vectors(DropBytes(bios, n))) == all[if n <= |all| then n else |all|..]
    decreases |bios|
  {
    hide Stream, Advance, Bytes;
    DropWellFormed(bios, n);
    SizesAreBytes(bios);
    if bios != [] {
      var head, rest := Stream(Live(bios[0])), bios[1..];
      StreamConcat(Live(bios[0]), Vectors(rest));
      SizesAreBytes(rest);
      if n < bios[0].size {
        AdvanceStream(bios[0], n);
        assert DropBytes(bios, n)[1..] == rest;
        StreamConcat(Live(Advance(bios[0], n)), Vectors(rest));
        DropFront(head, Stream(Vectors(rest)), n);
      } else {
        DropBoth(head, Stream(Vectors(rest)), n);
        if n > bios[0].size || |bios| == 1 {
          DropIsPrefixDrop(rest, n - bios[0].size);
        }
      }
    }
  }

  lemma DropFront<T>(a: seq<T>, b: seq<T>, n: nat)
    requires n <= |a|
    ensures (a + b)[n..] == a[n..] + b
  {
  }

  lemma DropBoth<T>(a: seq<T>, b: seq<T>, n: nat)
    requires |a| <= n
    ensures |a| == n ==> (a + b)[n..] == b
    ensures n <= |a| + |b| ==> (a + b)[n..] == b[n - |a|..]
    ensures (a + b)[|a| + |b|..] == b[|b|..]
  {
  }

  /** When every bio carries data the request is finished exactly when all its bytes are. */
  lemma {:induction false} FinishedIffAllBytes(bios: seq<Bio>, n: nat)
    requires AllWellFormed(bios) && (forall i :: 0 <= i < |bios| ==> bios[i].size > 0)
    ensures DropBytes(bios, n) == [] <==> n >= Sizes(bios)
    decreases |bios|
  {
    if bios != [] && n >= bios[0].size {
      FinishedIffAllBytes(bios[1..], n - bios[0].size);
    }
  }

  lemma PastFirst(bios: seq<Bio>, n: nat)
    requires AllWellFormed(bios) && bios != [] && n >= bios[0].size && forall i :: 0 <= i < |bios| ==> bios[i].size > 0
    ensures DropBytes(bios, n) == DropBytes(bios[1..], n - bios[0].size)
  {
    DropNothing(bios[1..]);
  }

  lemma DropNone(n: nat)
    ensures DropBytes([], n) == []
  {
  }

  lemma DropNothing(bios: seq<Bio>)
    requires AllWellFormed(bios) && forall i :: 0 <= i < |bios| ==> bios[i].size > 0
    ensures DropBytes(bios, 0) == bios
  {
  }
}
