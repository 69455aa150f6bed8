/**
 Completing a request in several steps. A request is described by what later
 transfers and completions see of it; blk_update_request is a function on that
 description, and two calls are compared with one.
 */
module Composition {
  import opened Bios
  import opened Segments
  import opened Completion

  /** What is seen of a bio: its identity, the vectors left, their size, and where it starts. */
  datatype View = View(id: nat, vecs: seq<Vec>, size: nat, sector: nat)

  predicate Fits(v: View) {
    v.size == Bytes(v.vecs) && v.size > 0
  }

  predicate AllFit(vs: seq<View>) {
    forall i :: 0 <= i < |vs| ==> Fits(vs[i])
  }

  function ViewOf(b: Bio): (v: View)
    requires WellFormed(b)
  {
    View(b.id, Live(b), b.size, b.sector)
  }

  function Views(bios: seq<Bio>): (vs: seq<View>)
    requires AllWellFormed(bios)
    ensures |vs| == |bios| && forall i :: 0 <= i < |bios| ==> vs[i] == ViewOf(bios[i])
  {
    seq(|bios|, i requires 0 <= i < |bios| => ViewOf(bios[i]))
  }

  function AllVecs(vs: seq<View>): (r: seq<Vec>) {
    if vs == [] then [] else vs[0].vecs + AllVecs(vs[1..])
  }

  function Total(vs: seq<View>): (n: nat) {
    if vs == [] then 0 else vs[0].size + Total(vs[1..])
  }

  function IdsOf(vs: seq<View>): (ids: seq<nat>)
    ensures |ids| == |vs| && forall i :: 0 <= i < |vs| ==> ids[i] == vs[i].id
  {
    seq(|vs|, i requires 0 <= i < |vs| => vs[i].id)
  }

  /** A bio after its first n bytes. */
  function Advanced(v: View, n: nat): (r: View)
    requires Fits(v) && n < v.size
  {
    View(v.id, Rest(v.vecs, n), v.size - n, v.sector + n / SECTOR_SIZE)
  }

  function DropViews(vs: seq<View>, n: nat): (r: seq<View>)
    requires AllFit(vs)
    ensures |r| <= |vs|
    decreases |vs|
  {
    if vs == [] then [] else if n < vs[0].size then [Advanced(vs[0], n)] + vs[1..] else DropViews(vs[1..], n - vs[0].size)
  }

  /** The chain of bios and its description are completed alike. */
  lemma {:induction false} DropIsSeen(bios: seq<Bio>, n: nat)
    requires AllWellFormed(bios) && forall i :: 0 <= i < |bios| ==> bios[i].size > 0
    ensures AllFit(Views(bios)) && AllWellFormed(DropBytes(bios, n)) && Views(DropBytes(bios, n)) == DropViews(Views(bios), n)
    decreases |bios|
  {
    DropWellFormed(bios, n);
    if bios != [] {
      var b, rest := bios[0], bios[1..];
      assert bios == [b] + rest;
      ViewsFit(rest);
      ViewsOfFirst(b, rest);
      hide Bytes, Rest, DropBytes, DropViews, ViewOf, Views, AllFit, Advance, Advanced;
      if n < b.size {
        AdvanceIsSeen(b, n);
        DropInFirst(ViewOf(b), Views(rest), n);
        FirstAdvanced(b, rest, n);
        ViewsOfFirst(Advance(b, n), rest);
      } else {
        PastFirst(bios, n);
        DropPastFirst(ViewOf(b), Views(rest), n);
        DropIsSeen(rest, n - b.size);
      }
    }
  }

  lemma ViewsFit(bios: seq<Bio>)
    requires AllWellFormed(bios) && forall i :: 0 <= i < |bios| ==> bios[i].size > 0
    ensures AllFit(Views(bios))
  {
  }

  lemma ViewsOfFirst(b: Bio, rest: seq<Bio>)
    requires WellFormed(b) && AllWellFormed(rest)
    ensures AllWellFormed([b] + rest) && Views([b] + rest) == [ViewOf(b)] + Views(rest) && (b.size > 0 ==> Fits(ViewOf(b)))
    ensures ViewOf(b).size == b.size
  {
  }

  lemma FirstAdvanced(b: Bio, rest: seq<Bio>, n: nat)
    requires WellFormed(b) && AllWellFormed(rest) && n < b.size
    ensures AllWellFormed([b] + rest) && DropBytes([b] + rest, n) == [Advance(b, n)] + rest
  {
    assert ([b] + rest)[1..] == rest;
  }

  lemma AdvanceIsSeen(b: Bio, n: nat)
    requires WellFormed(b) && n < b.size
    ensures Fits(ViewOf(b)) && WellFormed(Advance(b, n)) && ViewOf(Advance(b, n)) == Advanced(ViewOf(b), n)
  {
    AdvanceStream(b, n);
    AdvanceLive(b, n);
  }

  lemma {:induction false} VecsAreSeen(bios: seq<Bio>)
    requires AllWellFormed(bios)
    ensures AllVecs(Views(bios)) == Vectors(bios) && Total(Views(bios)) == Sizes(bios)
    decreases |bios|
  {
    if bios != [] {
      assert Views(bios)[1..] == Views(bios[1..]);
      VecsAreSeen(bios[1..]);
    }
  }

  // ------------------------------------------------------------ the request

  datatype Req = Req(bios: seq<View>, dataLen: nat, sector: nat, segments: nat)

  predicate Whole(r: Req) {
    AllFit(r.bios) && r.dataLen == Total(r.bios)
  }

  /** blk_update_request for n bytes; a request that is finished keeps its sector and its segment count. */
  function Complete(q: Limits, r: Req, n: nat): (t: Req)
    requires Whole(r)
  {
    var left := DropViews(r.bios, n);
    if n >= r.dataLen then Req([], 0, r.sector, r.segments)
    else Req(left, r.dataLen - n, r.sector + n / SECTOR_SIZE, Recalc(q, AllVecs(left)))
  }

  /** The bios that end, in order. */
  function Ending(r: Req, n: nat): (ids: seq<nat>)
    requires Whole(r)
  {
    IdsOf(r.bios[..|r.bios| - |DropViews(r.bios, n)|])
  }

  /** The parts of a sector do not add up to a whole one. */
  predicate NoCarry(n: nat, m: nat) {
    n % SECTOR_SIZE + m % SECTOR_SIZE < SECTOR_SIZE
  }

  lemma SectorsAdd(n: nat, m: nat)
    ensures n / SECTOR_SIZE + m / SECTOR_SIZE == (n + m) / SECTOR_SIZE <==> NoCarry(n, m)
  {
  }

  /** The same bios with the same bytes left, wherever they start. */
  predicate SameBytes(a: seq<View>, b: seq<View>) {
    |a| == |b| && forall i :: 0 <= i < |a| ==> a[i].(sector := 0) == b[i].(sector := 0)
  }

  /** How far into its bio byte n lies. */
  function Offset(vs: seq<View>, n: nat): (k: nat) {
    if vs == [] || n < vs[0].size then n else Offset(vs[1..], n - vs[0].size)
  }

  /** Bytes n and n + m lie in the same bio. */
  predicate InOneBio(vs: seq<View>, n: nat, m: nat) {
    vs != [] && if n < vs[0].size then n + m < vs[0].size else InOneBio(vs[1..], n - vs[0].size, m)
  }

  lemma AdvancedTwice(v: View, n: nat, m: nat)
    requires Fits(v) && n + m < v.size
    ensures Fits(Advanced(v, n))
    ensures var two, one := Advanced(Advanced(v, n), m), Advanced(v, n + m);
            two.(sector := 0) == one.(sector := 0) && (two == one <==> NoCarry(n, m))
  {
    hide Rest, Bytes;
    RestTwice(v.vecs, n, m);
    SectorsAdd(n, m);
  }

  lemma {:induction false} DropFits(vs: seq<View>, n: nat)
    requires AllFit(vs)
    ensures AllFit(DropViews(vs, n)) && Total(DropViews(vs, n)) == if n <= Total(vs) then Total(vs) - n else 0
    ensures DropViews(vs, n) == [] <==> n >= Total(vs)
    decreases |vs|
  {
    if vs != [] {
      var v, rest := vs[0], vs[1..];
      if n < v.size {
        RestTwice(v.vecs, n, 0);
        assert ([Advanced(v, n)] + rest)[1..] == rest;
      } else {
        DropFits(rest, n - v.size);
      }
    }
  }

  /** What is left is the tail of the chain. */
  lemma {:induction false} DropKeepsIds(vs: seq<View>, n: nat)
    requires AllFit(vs)
    ensures IdsOf(DropViews(vs, n)) == IdsOf(vs)[|vs| - |DropViews(vs, n)|..]
    decreases |vs|
  {
    if vs != [] && n >= vs[0].size {
      hide Fits;
      DropKeepsIds(vs[1..], n - vs[0].size);
      assert IdsOf(vs)[1..] == IdsOf(vs[1..]);
    }
  }

  /** Both steps end in the first bio. */
  lemma TwiceInFirst(v: View, rest: seq<View>, n: nat, m: nat)
    requires Fits(v) && AllFit(rest) && n + m < v.size
    ensures AllFit([v] + rest) && AllFit(DropViews([v] + rest, n))
    ensures var two, one := DropViews(DropViews([v] + rest, n), m), DropViews([v] + rest, n + m);
            SameBytes(two, one) && (two == one <==> NoCarry(n, m))
  {
    AdvancedTwice(v, n, m);
    hide Fits, Advanced, NoCarry;
    DropInFirst(v, rest, n);
    DropInFirst(v, rest, n + m);
    DropInFirst(Advanced(v, n), rest, m);
    var two, one := [Advanced(Advanced(v, n), m)] + rest, [Advanced(v, n + m)] + rest;
    assert two[0] == Advanced(Advanced(v, n), m) && one[0] == Advanced(v, n + m);
  }

  /** The second step goes past the first bio. */
  lemma TwiceAcross(v: View, rest: seq<View>, n: nat, m: nat)
    requires Fits(v) && AllFit(rest) && n < v.size <= n + m
    ensures AllFit([v] + rest) && AllFit(DropViews([v] + rest, n))
    ensures var two, one := DropViews(DropViews([v] + rest, n), m), DropViews([v] + rest, n + m); two == one && SameBytes(two, one)
  {
    RestTwice(v.vecs, n, 0);
    DropInFirst(v, rest, n);
    DropPastFirst(v, rest, n + m);
    DropPastFirst(Advanced(v, n), rest, m);
  }

  lemma DropInFirst(v: View, rest: seq<View>, n: nat)
    requires Fits(v) && AllFit(rest) && n < v.size
    ensures AllFit([v] + rest) && DropViews([v] + rest, n) == [Advanced(v, n)] + rest
  {
    assert ([v] + rest)[1..] == rest;
  }

  lemma DropPastFirst(v: View, rest: seq<View>, n: nat)
    requires Fits(v) && AllFit(rest) && n >= v.size
    ensures AllFit([v] + rest) && DropViews([v] + rest, n) == DropViews(rest, n - v.size)
  {
    assert ([v] + rest)[1..] == rest;
  }

  lemma InFirstBio(v: View, rest: seq<View>, n: nat, m: nat)
    ensures n < v.size ==> (InOneBio([v] + rest, n, m) <==> n + m < v.size) && Offset([v] + rest, n) == n
    ensures n >= v.size ==> (InOneBio([v] + rest, n, m) <==> InOneBio(rest, n - v.size, m)) && Offset([v] + rest, n) == Offset(rest, n - v.size)
  {
    assert ([v] + rest)[1..] == rest;
  }

  /** Of a chain: the bytes left always agree, the start sectors unless both steps end in one bio and carry there. */
  lemma {:induction false} DropTwice(vs: seq<View>, n: nat, m: nat)
    requires AllFit(vs)
    ensures AllFit(DropViews(vs, n))
    ensures var two, one := DropViews(DropViews(vs, n), m), DropViews(vs, n + m);
            SameBytes(two, one) && (two == one <==> !InOneBio(vs, n, m) || NoCarry(Offset(vs, n), m))
    decreases |vs|
  {
    hide DropViews, Fits, NoCarry, SameBytes, AllFit, InOneBio, Offset;
    if vs == [] {
      TwiceNothing(n, m);
    } else {
      var v, rest := vs[0], vs[1..];
      FirstAndRest(vs);
      InFirstBio(v, rest, n, m);
      if n + m < v.size {
        TwiceInFirst(v, rest, n, m);
      } else if n < v.size {
        TwiceAcross(v, rest, n, m);
      } else {
        DropPastFirst(v, rest, n);
        DropPastFirst(v, rest, n + m);
        DropTwice(rest, n - v.size, m);
      }
    }
  }

  lemma FirstAndRest(vs: seq<View>)
    requires AllFit(vs) && vs != []
    ensures vs == [vs[0]] + vs[1..] && Fits(vs[0]) && AllFit(vs[1..])
  {
  }

  lemma TwiceNothing(n: nat, m: nat)
    ensures AllFit(DropViews([], n)) && !InOneBio([], n, m)
    ensures DropViews(DropViews([], n), m) == DropViews([], n + m) && SameBytes(DropViews([], n + m), DropViews([], n + m))
  {
  }

  lemma {:induction false} SameVecs(a: seq<View>, b: seq<View>)
    requires SameBytes(a, b)
    ensures AllVecs(a) == AllVecs(b)
    decreases |a|
  {
    if a != [] {
      assert a[0].(sector := 0) == b[0].(sector := 0);
      assert forall i :: 0 <= i < |a| - 1 ==> a[1..][i] == a[i + 1] && b[1..][i] == b[i + 1];
      SameVecs(a[1..], b[1..]);
    }
  }

  lemma CompleteIsWhole(q: Limits, r: Req, n: nat)
    requires Whole(r)
    ensures Whole(Complete(q, r, n))
  {
    DropFits(r.bios, n);
  }

  /** Bios end once and in the same order, in two steps or in one. */
  lemma EndingTwice(q: Limits, r: Req, n: nat, m: nat)
    requires Whole(r)
    ensures Whole(Complete(q, r, n)) && Ending(r, n) + Ending(Complete(q, r, n), m) == Ending(r, n + m)
  {
    hide DropViews, Recalc, AllVecs, Total, IdsOf;
    var first := DropViews(r.bios, n);
    DropFits(r.bios, n);
    DropKeepsIds(r.bios, n);
    DropTwice(r.bios, n, m);
    assert Complete(q, r, n).bios == first;
    IdsOfSlices(r.bios, first, |DropViews(r.bios, n + m)|);
  }

  lemma IdsOfSlices(vs: seq<View>, first: seq<View>, k: nat)
    requires k <= |first| <= |vs| && IdsOf(first) == IdsOf(vs)[|vs| - |first|..]
    ensures IdsOf(vs[..|vs| - |first|]) + IdsOf(first[..|first| - k]) == IdsOf(vs[..|vs| - k])
  {
    var l, a, b := |vs| - |first|, IdsOf(vs[..|vs| - |first|]) + IdsOf(first[..|first| - k]), IdsOf(vs[..|vs| - k]);
    assert |a| == |b|;
    forall i | 0 <= i < |a| ensures a[i] == b[i] {
      assert i >= l ==> IdsOf(first)[i - l] == IdsOf(vs)[l..][i - l];
    }
  }

  /**
   Two steps that leave the request unfinished: what is left to transfer, its
   length and its segment count are those of one step of n + m bytes; the
   request is the same in all, its own sector included, exactly when neither
   in the request nor in the bio where both steps end the parts of a sector carry.
   */
  lemma CompleteTwice(q: Limits, r: Req, n: nat, m: nat)
    requires Whole(r) && n + m < r.dataLen
    ensures Whole(Complete(q, r, n))
    ensures var two, one := Complete(q, Complete(q, r, n), m), Complete(q, r, n + m);
            && SameBytes(two.bios, one.bios) && two.dataLen == one.dataLen && two.segments == one.segments
            && (two.sector == one.sector <==> NoCarry(n, m))
            && (two == one <==> NoCarry(n, m) && (InOneBio(r.bios, n, m) ==> NoCarry(Offset(r.bios, n), m)))
  {
    hide DropViews, Recalc, AllVecs, Total, Offset, InOneBio;
    DropFits(r.bios, n);
    DropTwice(r.bios, n, m);
    SameVecs(DropViews(DropViews(r.bios, n), m), DropViews(r.bios, n + m));
    SectorsAdd(n, m);
  }

  /** Every bio holds whole sectors, as those of file systems do. */
  predicate WholeSectors(vs: seq<View>) {
    forall i :: 0 <= i < |vs| ==> vs[i].size % SECTOR_SIZE == 0
  }

  lemma {:induction false} OffsetInSector(vs: seq<View>, n: nat)
    requires WholeSectors(vs)
    ensures Offset(vs, n) % SECTOR_SIZE == n % SECTOR_SIZE
    decreases |vs|
  {
    if vs != [] && n >= vs[0].size {
      OffsetInSector(vs[1..], n - vs[0].size);
      SectorsLeft(n, vs[0].size);
    }
  }

  lemma SectorsLeft(n: nat, k: nat)
    requires k <= n && k % SECTOR_SIZE == 0
    ensures (n - k) % SECTOR_SIZE == n % SECTOR_SIZE
  {
  }

  /** With bios of whole sectors only the carry in the request counts. */
  lemma CompleteTwiceInSectors(q: Limits, r: Req, n: nat, m: nat)
    requires Whole(r) && WholeSectors(r.bios) && n + m < r.dataLen
    ensures Whole(Complete(q, r, n))
    ensures Complete(q, Complete(q, r, n), m) == Complete(q, r, n + m) <==> NoCarry(n, m)
  {
    hide Complete, Offset;
    CompleteTwice(q, r, n, m);
    OffsetInSector(r.bios, n);
  }

  /** A second step of whole sectors never makes a difference, nor does a first one if the bios are of whole sectors. */
  lemma WholeSectorSteps(q: Limits, r: Req, n: nat, m: nat)
    requires Whole(r) && n + m < r.dataLen
    requires m % SECTOR_SIZE == 0 || (n % SECTOR_SIZE == 0 && WholeSectors(r.bios))
    ensures Whole(Complete(q, r, n))
    ensures Complete(q, Complete(q, r, n), m) == Complete(q, r, n + m)
    ensures Ending(r, n) + Ending(Complete(q, r, n), m) == Ending(r, n + m)
  {
    hide Complete, Ending, Offset, InOneBio;
    EndingTwice(q, r, n, m);
    if m % SECTOR_SIZE == 0 {
      CompleteTwice(q, r, n, m);
      assert NoCarry(n, m) && NoCarry(Offset(r.bios, n), m);
    } else {
      CompleteTwiceInSectors(q, r, n, m);
    }
  }

  /** Two steps of which the second finishes: nothing is left, and sector and segment count stay as the first step left them. */
  lemma FinishInTwo(q: Limits, r: Req, n: nat, m: nat)
    requires Whole(r) && n < r.dataLen <= n + m
    ensures Whole(Complete(q, r, n))
    ensures var two, one := Complete(q, Complete(q, r, n), m), Complete(q, r, n + m);
            && two.bios == one.bios == [] && two.dataLen == one.dataLen == 0
            && two.segments == Complete(q, r, n).segments && two.sector == one.sector + n / SECTOR_SIZE
            && (two.sector == one.sector <==> n < SECTOR_SIZE)
  {
    CompleteIsWhole(q, r, n);
  }

  /** A finished request is not changed any more. */
  lemma FinishedStays(q: Limits, r: Req, n: nat, m: nat)
    requires Whole(r) && n >= r.dataLen
    ensures Whole(Complete(q, r, n)) && Complete(q, Complete(q, r, n), m) == Complete(q, r, n) == Complete(q, r, n + m)
  {
  }

  /** Half a sector and then the rest, across a bio boundary: the request is left one sector behind. */
  lemma SectorLost(q: Limits, s: nat)
    ensures var r := Req([View(0, [Vec(0, 0, 512)], 512, s), View(1, [Vec(1, 0, 1024)], 1024, s + 1)], 1536, s, 1);
            && Whole(r) && Whole(Complete(q, r, 256)) && !InOneBio(r.bios, 256, 768)
            && Complete(q, Complete(q, r, 256), 768).sector == s + 1
            && Complete(q, r, 1024).sector == s + 2
  {
    var a, b := View(0, [Vec(0, 0, 512)], 512, s), View(1, [Vec(1, 0, 1024)], 1024, s + 1);
    var r := Req([a, b], 1536, s, 1);
    assert r.bios[1..] == [b] && Bytes(a.vecs) == 512 && Bytes(b.vecs) == 1024 && Total([b]) == 1024;
    CompleteIsWhole(q, r, 256);
  }
}
