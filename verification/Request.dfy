/**
 Requests: merging bios and requests while counting their physical segments,
 completing them piecewise, and mapping what remains to a scatterlist.  The
 scatterlist is an array of as many entries as nr_phys_segments promises, so
 that it never overflows is part of what is verified here.
 */
module Requests {
  import opened IdLists
  import opened Bios
  import opened Segments
  import opened Completion
  import opened Composition
  import opened Scatter

  /** A bio that still has data to transfer. */
  predicate Carrying(b: Bio) {
    WellFormed(b) && b.size > 0
  }

  predicate AllCarrying(bios: seq<Bio>)
    ensures AllCarrying(bios) ==> AllWellFormed(bios)
  {
    forall i :: 0 <= i < |bios| ==> Carrying(bios[i])
  }

  lemma {:induction false} CarryingVectors(bios: seq<Bio>)
    requires AllCarrying(bios) && bios != []
    ensures Live(bios[0]) != [] && Live(bios[|bios| - 1]) != [] && Vectors(bios) != []
    ensures Vectors(bios)[0] == Live(bios[0])[0]
    ensures Vectors(bios)[|Vectors(bios)| - 1] == Live(bios[|bios| - 1])[|Live(bios[|bios| - 1])| - 1]
    decreases |bios|
  {
    if |bios| > 1 {
      CarryingVectors(bios[1..]);
    } else {
      assert Vectors(bios[1..]) == [];
    }
  }

  /** Counters of a bio do not touch what it transfers. */
  lemma {:induction false} SameVectors(a: seq<Bio>, b: seq<Bio>)
    requires AllWellFormed(a) && AllWellFormed(b) && |a| == |b|
    requires forall i :: 0 <= i < |a| ==> Live(a[i]) == Live(b[i])
    ensures Vectors(a) == Vectors(b) && Sizes(a) == Sizes(b)
    decreases |a|
  {
    if a != [] {
      assert forall i :: 0 <= i < |a[1..]| ==> a[1..][i] == a[i + 1] && b[1..][i] == b[i + 1];
      assert Live(a[0]) == Live(b[0]);
      SameVectors(a[1..], b[1..]);
    }
  }

  // ------------------------------------------------------- counting segments

  lemma VectorsFrom(bios: seq<Bio>, i: nat)
    requires AllWellFormed(bios) && i <= |bios|
    ensures i == |bios| ==> Vectors(bios[i..]) == []
    ensures i < |bios| ==> Vectors(bios[i..]) == Live(bios[i]) + Vectors(bios[i + 1..])
  {
    if i < |bios| {
      assert bios[i..][1..] == bios[i + 1..];
    }
  }

  /** Where the counting loop stands when `rest` is still to be visited. */
  ghost predicate Counting(q: Limits, all: seq<Vec>, rest: seq<Vec>, prev: Option<Vec>, high: bool, n: nat, size: nat, first: nat)
  {
    var cuts := GreedyCuts(q, true, prev, Open(n, size), rest);
    && Greedy(q, true, prev, Open(n, size), rest) == Greedy(q, true, None, START, all)
    && high == (prev.None? || High(q, prev.value))
    && (n == 0 <==> prev.None?)
    && (n <= 1 ==> first == 0)
    && FirstSize(all, GreedyCuts(q, true, None, START, all))
       == if n == 0 then FirstSize(rest, cuts) else if n == 1 then size + Continued(rest, cuts) else first
  }

  /** __blk_recalc_rq_segments: the count and the sizes of the first and last segment. */
  method CountSegments(q: Limits, bios: seq<Bio>) returns (n: nat, first: nat, last: nat)
    requires AllWellFormed(bios)
    ensures n == Recalc(q, Vectors(bios))
    ensures first == FirstSize(Vectors(bios), GreedyCuts(q, true, None, START, Vectors(bios)))
    ensures last == Greedy(q, true, None, START, Vectors(bios)).cur
  {
    hide Vectors;
    var prev: Option<Vec>, highPrev, size: nat := None, true, 0;
    n, first := 0, 0;
    ghost var all := Vectors(bios);
    var i := 0;
    assert bios[0..] == bios;
    while i < |bios|
      invariant 0 <= i <= |bios|
      invariant AllWellFormed(bios[i..])
      invariant Counting(q, all, Vectors(bios[i..]), prev, highPrev, n, size, first)
    {
      var b, j := bios[i], bios[i].idx;
      ghost var later := Vectors(bios[i + 1..]);
      VectorsFrom(bios, i);
      while j < |b.vecs|
        invariant b.idx <= j <= |b.vecs|
        invariant Counting(q, all, b.vecs[j..] + later, prev, highPrev, n, size, first)
      {
        var v := b.vecs[j];
        ghost var rest := b.vecs[j..] + later;
        assert rest[0] == v && rest[1..] == b.vecs[j + 1..] + later;
        var high := High(q, v);
        if !high && !highPrev && size + v.len <= q.maxSegmentSize && Joinable(q, prev.value, v) {
          size := size + v.len;
          prev := Some(v);
        } else {
          if n == 1 && size > first {
            first := size;
          }
          n, prev, size, highPrev := n + 1, Some(v), v.len, high;
        }
        j := j + 1;
      }
      assert b.vecs[j..] + later == later;
      i := i + 1;
    }
    VectorsFrom(bios, i);
    if n == 1 && size > first {
      first := size;
    }
    last := size;
  }

  function Max(a: nat, b: nat): (r: nat) { if a < b then b else a }

  /** blk_recount_segments on one bio: the remembered sizes only grow. */
  method RecountSegments(q: Limits, b: Bio) returns (r: Bio)
    requires Carrying(b)
    ensures Carrying(r) && Live(r) == Live(b)
    ensures r == b.(physSegments := r.physSegments, segValid := true, front := r.front, back := r.back)
    ensures Trusted(q, r) && r.front >= b.front && r.back >= b.back
  {
    var n, first, last := CountSegments(q, [b]);
    assert Vectors([b][1..]) == [] && Vectors([b]) == Live(b) + [] == Live(b);
    r := b.(physSegments := n, segValid := true, front := Max(b.front, first), back := Max(b.back, last));
  }

  /** What BIO_SEG_VALID promises about the counters of a bio. */
  ghost predicate Trusted(q: Limits, b: Bio)
    requires WellFormed(b)
  {
    b.segValid ==>
      && b.physSegments == Recalc(q, Live(b))
      && FirstSize(Live(b), GreedyCuts(q, true, None, START, Live(b))) <= b.front
      && Greedy(q, true, None, START, Live(b)).cur <= b.back
  }

  lemma TrustedAccounted(q: Limits, b: Bio)
    requires Carrying(b) && b.segValid && Trusted(q, b)
    ensures Accounted(q, Live(b), GreedyCuts(q, true, None, START, Live(b)), b.physSegments, b.front, b.back)
  {
    RecalcAccounted(q, Live(b));
  }

  /** A chain of bios with a count that some admissible cutting of its vectors has. */
  ghost predicate Sound(q: Limits, bios: seq<Bio>, cuts: seq<bool>, n: nat)
  {
    && AllCarrying(bios)
    && bios != []
    && Accounted(q, Vectors(bios), cuts, n, bios[0].front, bios[|bios| - 1].back)
  }

  lemma SingleSound(q: Limits, b: Bio)
    requires Carrying(b) && b.segValid && Trusted(q, b)
    ensures Sound(q, [b], GreedyCuts(q, true, None, START, Live(b)), b.physSegments)
    ensures Vectors([b]) == Live(b) && Sizes([b]) == b.size
  {
    TrustedAccounted(q, b);
    SingleBio(b);
  }

  lemma AppendSound(q: Limits, a: seq<Bio>, ca: seq<bool>, na: nat, b: seq<Bio>, cb: seq<bool>, nb: nat)
    requires Sound(q, a, ca, na) && Sound(q, b, cb, nb)
    ensures Sound(q, a + b, ca + cb, na + nb)
    ensures Vectors(a + b) == Vectors(a) + Vectors(b) && Sizes(a + b) == Sizes(a) + Sizes(b)
  {
    AppendAccounted(q, Vectors(a), ca, na, a[0].front, a[|a| - 1].back, Vectors(b), cb, nb, b[0].front, b[|b| - 1].back);
    ChainSound(q, a, b, ca + cb, na + nb);
  }

  lemma ChainSound(q: Limits, a: seq<Bio>, b: seq<Bio>, cuts: seq<bool>, n: nat)
    requires AllCarrying(a) && AllCarrying(b) && a != [] && b != []
    requires Accounted(q, Vectors(a) + Vectors(b), cuts, n, a[0].front, b[|b| - 1].back)
    ensures Sound(q, a + b, cuts, n)
    ensures Vectors(a + b) == Vectors(a) + Vectors(b) && Sizes(a + b) == Sizes(a) + Sizes(b)
  {
    hide Accounted, Vectors, Sizes, Carrying;
    VectorsConcat(a, b);
    assert (a + b)[0] == a[0] && (a + b)[|a + b| - 1] == b[|b| - 1];
  }

  /** The last vector of a and the first of b may share a segment, and so may the segments they end and begin. */
  ghost predicate Meet(q: Limits, a: seq<Bio>, b: seq<Bio>)
    requires AllWellFormed(a) && AllWellFormed(b)
  {
    && a != [] && b != [] && Vectors(a) != [] && Vectors(b) != []
    && Joinable(q, Vectors(a)[|Vectors(a)| - 1], Vectors(b)[0])
    && a[|a| - 1].back + b[0].front <= q.maxSegmentSize
  }

  /** The last segment of a and the first of b become one; the sizes that depend on it were updated. */
  lemma JoinSound(q: Limits, a: seq<Bio>, ca: seq<bool>, na: nat, b: seq<Bio>, cb: seq<bool>, nb: nat,
                  a': seq<Bio>, b': seq<Bio>)
    requires Sound(q, a, ca, na) && Sound(q, b, cb, nb)
    requires Meet(q, a, b)
    requires AllCarrying(a') && a' != [] && Vectors(a') == Vectors(a)
    requires AllCarrying(b') && b' != [] && Vectors(b') == Vectors(b)
    requires a'[0].front == if na == 1 then a[|a| - 1].back + b[0].front else a[0].front
    requires b'[|b'| - 1].back == if nb == 1 then a[|a| - 1].back + b[0].front else b[|b| - 1].back
    ensures na + nb >= 1 && |cb| >= 1
    ensures Sound(q, a' + b', ca + ([false] + cb[1..]), na + nb - 1)
  {
    hide Vectors;
    var va, vb, fa, ba, fb, bb := Vectors(a), Vectors(b), a[0].front, a[|a| - 1].back, b[0].front, b[|b| - 1].back;
    JoinSoundCore(q, va, ca, na, fa, ba, vb, cb, nb, fb, bb, a', b');
  }

  lemma JoinSoundCore(q: Limits, va: seq<Vec>, ca: seq<bool>, na: nat, fa: nat, ba: nat,
                      vb: seq<Vec>, cb: seq<bool>, nb: nat, fb: nat, bb: nat, a: seq<Bio>, b: seq<Bio>)
    requires Accounted(q, va, ca, na, fa, ba) && Accounted(q, vb, cb, nb, fb, bb)
    requires Joinable(q, va[|va| - 1], vb[0]) && ba + fb <= q.maxSegmentSize
    requires AllCarrying(a) && a != [] && AllCarrying(b) && b != [] && Vectors(a) == va && Vectors(b) == vb
    requires a[0].front == if na == 1 then ba + fb else fa
    requires b[|b| - 1].back == if nb == 1 then ba + fb else bb
    ensures na + nb >= 1 && |cb| >= 1
    ensures Sound(q, a + b, ca + ([false] + cb[1..]), na + nb - 1)
  {
    JoinAccounted(q, va, ca, na, fa, ba, vb, cb, nb, fb, bb);
    ChainSound(q, a, b, ca + ([false] + cb[1..]), na + nb - 1);
  }

  class Request {
    const q: Limits
    var bios: seq<Bio>
    var nrPhysSegments: nat
    var dataLen: nat
    var sector: nat
    var noMerge: bool
    ghost var cuts: seq<bool>

    ghost predicate Valid()
      reads this
    {
      && AllCarrying(bios)
      && dataLen == Sizes(bios)
      && (bios != [] ==> Sound(q, bios, cuts, nrPhysSegments))
    }

    ghost function Payload(): (vs: seq<Vec>)
      requires Valid()
      reads this
    {
      Vectors(bios)
    }

    /** The request as transfers and completions see it. */
    ghost function Seen(): (r: Req)
      requires Valid()
      reads this
      ensures Whole(r)
    {
      VecsAreSeen(bios);
      DropIsSeen(bios, 0);
      Req(Views(bios), dataLen, sector, nrPhysSegments)
    }

    /** The scatterlist made of the request now would fit its segment count. */
    lemma SgFits()
      requires Valid() && bios != []
      ensures SgCount(q, Payload()) <= nrPhysSegments
    {
      AccountedBoundsSg(q, Vectors(bios), cuts, nrPhysSegments, bios[0].front, bios[|bios| - 1].back);
    }

    /** init_request_from_bio. */
    constructor (q: Limits, b: Bio)
      requires Carrying(b) && Trusted(q, b)
      ensures Valid() && this.q == q && Payload() == Live(b)
      ensures nrPhysSegments == Recalc(q, Live(b)) && sector == b.sector && |bios| == 1
    {
      var b' := b;
      if !b.segValid {
        b' := RecountSegments(q, b);
      }
      this.q := q;
      bios, nrPhysSegments, dataLen, sector, noMerge := [b'], b'.physSegments, b.size, b.sector, false;
      cuts := GreedyCuts(q, true, None, START, Live(b));
      SingleSound(q, b');
    }

    /** Recount one bio of the chain; its remembered sizes only grow, so the account stands. */
    method RecountAt(i: nat)
      requires Valid() && i < |bios|
      modifies this`bios
      ensures Valid() && Payload() == old(Payload()) && |bios| == |old(bios)|
      ensures forall k :: 0 <= k < |bios| ==> Live(bios[k]) == Live(old(bios)[k]) && bios[k].id == old(bios)[k].id
    {
      hide Vectors, Sizes, Bytes;
      if !bios[i].segValid {
        var b := RecountSegments(q, bios[i]);
        SameVectors(bios, bios[i := b]);
        bios := bios[i := b];
      }
    }

    /** ll_new_hw_segment for a bio whose own count is known. */
    predicate SegmentsFit(segments: nat)
      reads this
    {
      nrPhysSegments + segments <= q.maxSegments
    }

    /** Add a counted bio at the end of the chain. */
    method LinkBack(b: Bio)
      requires Valid() && bios != [] && Carrying(b) && b.segValid && Trusted(q, b)
      modifies this`bios, this`nrPhysSegments, this`dataLen, this`cuts
      ensures Valid() && bios == old(bios) + [b] && Payload() == old(Payload()) + Live(b)
      ensures nrPhysSegments == old(nrPhysSegments) + b.physSegments
    {
      hide Accounted, Vectors, Sizes, Bytes, GreedyCuts;
      ghost var cuts' := GreedyCuts(q, true, None, START, Live(b));
      SingleSound(q, b);
      AppendSound(q, bios, cuts, nrPhysSegments, [b], cuts', b.physSegments);
      nrPhysSegments, dataLen := nrPhysSegments + b.physSegments, dataLen + b.size;
      bios, cuts := bios + [b], cuts + cuts';
    }

    /** Add a counted bio in front of the chain; the request now starts where the bio does. */
    method LinkFront(b: Bio)
      requires Valid() && bios != [] && Carrying(b) && b.segValid && Trusted(q, b)
      modifies this`bios, this`nrPhysSegments, this`dataLen, this`cuts, this`sector
      ensures Valid() && bios == [b] + old(bios) && Payload() == Live(b) + old(Payload())
      ensures nrPhysSegments == old(nrPhysSegments) + b.physSegments && sector == b.sector
    {
      hide Accounted, Vectors, Sizes, Bytes, GreedyCuts;
      ghost var cuts' := GreedyCuts(q, true, None, START, Live(b));
      SingleSound(q, b);
      AppendSound(q, [b], cuts', b.physSegments, bios, cuts, nrPhysSegments);
      nrPhysSegments, dataLen := nrPhysSegments + b.physSegments, dataLen + b.size;
      bios, sector, cuts := [b] + bios, b.sector, cuts' + cuts;
    }

    /** bio_attempt_back_merge. */
    method BackMerge(b: Bio, integrityRefuses: bool) returns (ok: bool)
      requires Valid() && bios != [] && Carrying(b) && Trusted(q, b)
      modifies this
      ensures Valid() && sector == old(sector)
      ensures ok <==> && old(dataLen) / SECTOR_SIZE + b.size / SECTOR_SIZE <= q.maxSectors
                      && old(nrPhysSegments) + Recalc(q, Live(b)) <= q.maxSegments
                      && !integrityRefuses
      ensures ok ==> Payload() == old(Payload()) + Live(b) && nrPhysSegments == old(nrPhysSegments) + Recalc(q, Live(b))
      ensures !ok ==> Payload() == old(Payload()) && nrPhysSegments == old(nrPhysSegments) && noMerge
    {
      if dataLen / SECTOR_SIZE + b.size / SECTOR_SIZE > q.maxSectors {
        noMerge := true;
        return false;
      }
      RecountAt(|bios| - 1);
      var b' := b;
      if !b.segValid {
        b' := RecountSegments(q, b);
      }
      if !SegmentsFit(b'.physSegments) || integrityRefuses {
        noMerge := true;
        return false;
      }
      LinkBack(b');
      ok := true;
    }

    /** bio_attempt_front_merge. */
    method FrontMerge(b: Bio, integrityRefuses: bool) returns (ok: bool)
      requires Valid() && bios != [] && Carrying(b) && Trusted(q, b)
      modifies this
      ensures Valid()
      ensures ok <==> && old(dataLen) / SECTOR_SIZE + b.size / SECTOR_SIZE <= q.maxSectors
                      && old(nrPhysSegments) + Recalc(q, Live(b)) <= q.maxSegments
                      && !integrityRefuses
      ensures ok ==> && Payload() == Live(b) + old(Payload()) && sector == b.sector
                     && nrPhysSegments == old(nrPhysSegments) + Recalc(q, Live(b))
      ensures !ok ==> && Payload() == old(Payload()) && nrPhysSegments == old(nrPhysSegments)
                      && sector == old(sector) && noMerge
    {
      if dataLen / SECTOR_SIZE + b.size / SECTOR_SIZE > q.maxSectors {
        noMerge := true;
        return false;
      }
      var b' := b;
      if !b.segValid {
        b' := RecountSegments(q, b);
      }
      RecountAt(0);
      if !SegmentsFit(b'.physSegments) || integrityRefuses {
        noMerge := true;
        return false;
      }
      LinkFront(b');
      ok := true;
    }

    /** blk_phys_contig_segment on the last bio of this request and the first of the next. */
    predicate PhysContig(next: Request)
      requires Valid() && next.Valid() && bios != [] && next.bios != [] && next.q == q
      reads this, next
    {
      var a, b := bios[|bios| - 1], next.bios[0];
      CarryingVectors(bios);
      CarryingVectors(next.bios);
      a.back + b.front <= q.maxSegmentSize && Joinable(q, a.vecs[|a.vecs| - 1], b.vecs[b.idx])
    }

    /** The shared segment is the first of a request that had only one. */
    method WidenFront(size: nat)
      requires Valid() && bios != [] && bios[|bios| - 1].back <= size
      modifies this`bios
      ensures Valid() && bios != [] && Payload() == old(Payload()) && Sizes(bios) == old(Sizes(bios))
      ensures bios[0].front == if nrPhysSegments == 1 then size else old(bios[0].front)
    {
      hide Sound, Vectors, Sizes, AllCarrying;
      if nrPhysSegments == 1 {
        FrontWidened(q, bios, cuts, size);
        bios := bios[0 := bios[0].(front := size)];
      }
    }

    method WidenBack(size: nat)
      requires Valid() && bios != [] && bios[0].front <= size
      modifies this`bios
      ensures Valid() && bios != [] && Payload() == old(Payload()) && Sizes(bios) == old(Sizes(bios))
      ensures bios[|bios| - 1].back == if nrPhysSegments == 1 then size else old(bios[|bios| - 1].back)
    {
      hide Sound, Vectors, Sizes, AllCarrying;
      if nrPhysSegments == 1 {
        var last := |bios| - 1;
        BackWidened(q, bios, cuts, size);
        bios := bios[last := bios[last].(back := size)];
      }
    }

    /** attempt_merge, from ll_merge_requests_fn on: append the chain of `next` to this request. */
    method MergeRequest(next: Request, special: bool, integrityRefuses: bool) returns (ok: bool)
      requires Valid() && next.Valid() && bios != [] && next.bios != [] && next.q == q && next != this
      modifies this, next
      ensures Valid() && next.Valid() && sector == old(sector)
      ensures ok <==> && !special && !integrityRefuses
                      && old(dataLen) / SECTOR_SIZE + old(next.dataLen) / SECTOR_SIZE <= q.maxSectors
                      && old(nrPhysSegments) + old(next.nrPhysSegments) - (if old(PhysContig(next)) then 1 else 0) <= q.maxSegments
      ensures ok ==> && Payload() == old(Payload()) + old(next.Payload()) && next.bios == []
                     && nrPhysSegments <= q.maxSegments
                     && nrPhysSegments == old(nrPhysSegments) + old(next.nrPhysSegments) - (if old(PhysContig(next)) then 1 else 0)
      ensures !ok ==> && Payload() == old(Payload()) && nrPhysSegments == old(nrPhysSegments)
                      && next.Payload() == old(next.Payload()) && next.nrPhysSegments == old(next.nrPhysSegments)
    {
      hide Vectors;
      if special {
        return false;
      }
      if dataLen / SECTOR_SIZE + next.dataLen / SECTOR_SIZE > q.maxSectors {
        return false;
      }
      var total: nat := nrPhysSegments + next.nrPhysSegments;
      var contig := PhysContig(next);
      ghost var joined := cuts + next.cuts;
      if contig {
        joined := JoinEnds(next);
        total := total - 1;
      } else {
        AppendSound(q, bios, cuts, nrPhysSegments, next.bios, next.cuts, next.nrPhysSegments);
      }
      if total > q.maxSegments || integrityRefuses {
        return false;
      }
      VectorsConcat(bios, next.bios);
      Absorb(next, total, joined);
      ok := true;
    }

    /** Record in the end sizes that the two requests share a segment. */
    method JoinEnds(next: Request) returns (ghost joined: seq<bool>)
      requires Valid() && next.Valid() && bios != [] && next.bios != [] && next.q == q && next != this
      requires PhysContig(next)
      modifies this`bios, next`bios
      ensures Valid() && next.Valid() && bios != [] && next.bios != []
      ensures Payload() == old(Payload()) && next.Payload() == old(next.Payload())
      ensures nrPhysSegments + next.nrPhysSegments >= 1
      ensures Sound(q, bios + next.bios, joined, nrPhysSegments + next.nrPhysSegments - 1)
    {
      hide Vectors, Accounted, Bytes, Sizes;
      var segSize := bios[|bios| - 1].back + next.bios[0].front;
      CarryingVectors(bios);
      CarryingVectors(next.bios);
      ghost var a, b := bios, next.bios;
      assert Meet(q, a, b);
      hide WellFormed, Meet;
      WidenFront(segSize);
      next.WidenBack(segSize);
      JoinSound(q, a, cuts, nrPhysSegments, b, next.cuts, next.nrPhysSegments, bios, next.bios);
      joined := cuts + ([false] + next.cuts[1..]);
    }

    /** Take over the chain of `next`. */
    method Absorb(next: Request, total: nat, ghost joined: seq<bool>)
      requires Valid() && next.Valid() && bios != [] && next.q == q && next != this
      requires Sound(q, bios + next.bios, joined, total) && Sizes(bios + next.bios) == dataLen + next.dataLen
      modifies this, next
      ensures Valid() && bios == old(bios) + old(next.bios) && nrPhysSegments == total && sector == old(sector)
      ensures next.Valid() && next.bios == []
    {
      nrPhysSegments, dataLen, cuts := total, dataLen + next.dataLen, joined;
      bios := bios + next.bios;
      next.bios, next.dataLen := [], 0;
    }

    /**
     blk_rq_map_sg.  The caller provides room for nr_phys_segments entries; every
     write stays inside it, and the entries cover exactly the bytes of the request.
     */
    method MapSg(sglist: array<Sg>) returns (nsegs: nat)
      requires Valid() && bios != [] && sglist.Length >= nrPhysSegments
      modifies sglist
      ensures nsegs <= nrPhysSegments
      ensures sglist[..nsegs] == MapVecs(q, None, [], Payload())
      ensures SgStream(sglist[..nsegs]) == Stream(Payload())
      ensures Monotone(q.window) && VectorsWithin(q, Payload()) ==> AllWithin(q, sglist[..nsegs])
      ensures sglist[nsegs..] == old(sglist[..])[nsegs..]
    {
      hide Vectors, MapVecs, Stream, SgStream, Greedy, Sound, Sizes, Bytes, VectorsWithin, AllWithin, Monotone;
      ghost var all, before := Vectors(bios), sglist[..];
      SgFits();
      MapAll(q, all);
      var chain := bios;
      assert AllWellFormed(chain) && |MapVecs(q, None, [], all)| <= nrPhysSegments <= sglist.Length;
      var prev: Option<Vec> := None;
      nsegs := 0;
      var i := 0;
      assert chain[0..] == chain;
      while i < |chain|
        invariant 0 <= i <= |chain|
        invariant Mapping(q, all, Vectors(chain[i..]), prev, sglist, nsegs, before)
      {
        var b, j := chain[i], chain[i].idx;
        VectorsFrom(chain, i);
        ghost var later := Vectors(chain[i + 1..]);
        while j < |b.vecs|
          invariant b.idx <= j <= |b.vecs|
          invariant Mapping(q, all, b.vecs[j..] + later, prev, sglist, nsegs, before)
        {
          var v := b.vecs[j];
          ghost var rest := b.vecs[j..] + later;
          assert rest[0] == v && rest[1..] == b.vecs[j + 1..] + later;
          nsegs := MapOne(q, prev, sglist, nsegs, v, all, rest, before);
          prev, j := Some(v), j + 1;
        }
        assert b.vecs[j..] + later == later;
        i := i + 1;
      }
      VectorsFrom(chain, i);
      MappingDone(q, all, prev, sglist, nsegs, before);
      if Monotone(q.window) && VectorsWithin(q, all) {
        EntriesStayWithin(q, None, [], all);
      }
    }

    /** blk_recalc_rq_segments. */
    method RecalcSegments()
      requires AllCarrying(bios) && bios != []
      modifies this`bios, this`nrPhysSegments, this`cuts
      ensures Sound(q, bios, cuts, nrPhysSegments) && Views(bios) == Views(old(bios))
      ensures Vectors(bios) == Vectors(old(bios)) && Sizes(bios) == Sizes(old(bios))
      ensures nrPhysSegments == Recalc(q, Vectors(bios))
    {
      hide Vectors, Sizes, Bytes;
      var n, first, last := CountSegments(q, bios);
      ghost var vs := Vectors(bios);
      CarryingVectors(bios);
      RecalcAccounted(q, vs);
      var tail := |bios| - 1;
      var widened := bios[0 := bios[0].(front := Max(bios[0].front, first))];
      widened := widened[tail := widened[tail].(back := Max(widened[tail].back, last))];
      SameVectors(widened, bios);
      bios, nrPhysSegments, cuts := widened, n, GreedyCuts(q, true, None, START, vs);
    }

    /** The loop of blk_update_request over whole bios: they leave the chain and end. */
    method EndBios(nrBytes: nat, flushSeq: bool) returns (left: nat, ended: seq<nat>)
      requires AllCarrying(bios)
      modifies this`bios
      ensures AllCarrying(bios) && |bios| <= |old(bios)| && bios == old(bios)[|old(bios)| - |bios|..]
      ensures bios != [] ==> left < bios[0].size
      ensures DropBytes(bios, left) == DropBytes(old(bios), nrBytes)
      ensures ended == if flushSeq then [] else Ids(old(bios)[..|old(bios)| - |bios|])
    {
      hide DropBytes, Bytes, Live;
      left, ended := nrBytes, [];
      ghost var chain := bios;
      while bios != [] && left >= bios[0].size
        invariant AllCarrying(bios) && |bios| <= |chain| && bios == chain[|chain| - |bios|..]
        invariant DropBytes(bios, left) == DropBytes(chain, nrBytes)
        invariant ended == if flushSeq then [] else Ids(chain[..|chain| - |bios|])
        decreases |bios|
      {
        ghost var done := chain[..|chain| - |bios|];
        assert chain[..|chain| - |bios| + 1] == done + [bios[0]];
        PastFirst(bios, left);
        if !flushSeq {
          ended := ended + [bios[0].id];
        }
        left := left - bios[0].size;
        bios := bios[1..];
        if bios != [] && left == 0 {
          break;
        }
      }
    }

    /** The same, by what is left of the chain: the ended bios are those that are not. */
    method EndDone(nrBytes: nat, flushSeq: bool) returns (left: nat, ended: seq<nat>)
      requires AllCarrying(bios)
      modifies this`bios
      ensures AllCarrying(bios) && DropBytes(bios, left) == DropBytes(old(bios), nrBytes) && |DropBytes(old(bios), nrBytes)| <= |old(bios)|
      ensures if bios == [] then DropBytes(old(bios), nrBytes) == [] else left < bios[0].size && DropBytes(old(bios), nrBytes) != []
      ensures ended == if flushSeq then [] else Ids(old(bios)[..|old(bios)| - |DropBytes(old(bios), nrBytes)|])
    {
      hide DropBytes, Carrying, Ids, Advance;
      left, ended := EndBios(nrBytes, flushSeq);
      if bios == [] {
        DropNone(left);
      } else {
        DropPart(bios, left);
      }
    }

    /** Leave the first bio where it was interrupted. */
    method AdvanceFirst(left: nat)
      requires bios != [] && WellFormed(bios[0]) && left < bios[0].size
      modifies this`bios
      ensures bios == old(bios)[0 := Advance(old(bios)[0], left)]
    {
      if left > 0 {
        var nextIdx, rem := PassVectors(bios[0], left);
        var b := bios[0];
        var at := b.idx + nextIdx;
        b := b.(size := b.size - left, sector := b.sector + left / SECTOR_SIZE, idx := at);
        b := b.(vecs := b.vecs[at := Behind(b.vecs[at], rem)]);
        bios := bios[0 := b];
      }
    }

    /** The end of blk_update_request for a request that goes on after nrBytes of the chain it had. */
    method Interrupt(left: nat, nrBytes: nat, ghost chain: seq<Bio>)
      requires AllCarrying(bios) && bios != [] && left < bios[0].size && AllCarrying(chain)
      requires DropBytes(bios, left) == DropBytes(chain, nrBytes) && dataLen == Sizes(chain) && nrBytes < dataLen
      modifies this
      ensures Sound(q, bios, cuts, nrPhysSegments) && AllCarrying(DropBytes(chain, nrBytes))
      ensures Views(bios) == Views(DropBytes(chain, nrBytes)) && Vectors(bios) == Vectors(DropBytes(chain, nrBytes)) && dataLen == Sizes(bios)
      ensures dataLen == old(dataLen) - nrBytes && sector == old(sector) + nrBytes / SECTOR_SIZE && nrPhysSegments == Recalc(q, Vectors(bios))
    {
      hide Vectors, Sizes, Bytes, DropBytes, Stream, Advance, Recalc, Accounted, Live, Views;
      UpdateFacts(chain, nrBytes);
      DropPart(bios, left);
      AdvanceFirst(left);
      dataLen, sector := dataLen - nrBytes, sector + nrBytes / SECTOR_SIZE;
      RecalcSegments();
    }

    /**
     blk_update_request: nrBytes more bytes were transferred.  Bios that are done
     leave the chain and end, unless the request is part of a flush sequence.
     */
    method UpdateRequest(nrBytes: nat, flushSeq: bool) returns (more: bool, ended: seq<nat>)
      requires Valid()
      modifies this
      ensures Valid()
      ensures more <==> nrBytes < old(dataLen)
      ensures Seen() == Complete(q, old(Seen()), nrBytes)
      ensures ended == if flushSeq then [] else Ending(old(Seen()), nrBytes)
      ensures Stream(Payload()) == Last(old(Stream(Payload())), dataLen)
    {
      hide Vectors, Sizes, DropBytes, Stream, Recalc, Accounted, Ids, Last, Views, Complete, Ending, Whole, Carrying, Advance;
      ghost var chain := bios;
      UpdateFacts(chain, nrBytes);
      SeenFacts(q, chain, nrBytes, sector, nrPhysSegments);
      var left;
      left, ended := EndDone(nrBytes, flushSeq);
      if bios == [] {
        dataLen := 0;
        return false, ended;
      }
      Interrupt(left, nrBytes, chain);
      more := true;
    }
  }

  function Ids(bios: seq<Bio>): (ids: seq<nat>)
    ensures |ids| == |bios| && forall i :: 0 <= i < |bios| ==> ids[i] == bios[i].id
  {
    seq(|bios|, i requires 0 <= i < |bios| => bios[i].id)
  }

  /** The last k elements of a sequence. */
  function Last<T>(s: seq<T>, k: nat): (r: seq<T>) {
    if k <= |s| then s[|s| - k..] else s
  }

  lemma DropPart(bios: seq<Bio>, n: nat)
    requires AllCarrying(bios) && bios != [] && n < bios[0].size
    ensures DropBytes(bios, n) == bios[0 := Advance(bios[0], n)]
  {
  }

  /** The part of blk_update_request's loop that walks the vectors of an unfinished bio. */
  method PassVectors(b: Bio, nrBytes: nat) returns (nextIdx: nat, left: nat)
    requires WellFormed(b) && 0 < nrBytes < b.size
    ensures (nextIdx, left) == Skip(Live(b), nrBytes)
  {
    hide Skip, Bytes;
    nextIdx, left := 0, nrBytes;
    assert Live(b)[0..] == Live(b);
    while true
      invariant nextIdx <= |Live(b)| && 0 < left < Bytes(Live(b)[nextIdx..])
      invariant Skip(Live(b), nrBytes) == (nextIdx + Skip(Live(b)[nextIdx..], left).0, Skip(Live(b)[nextIdx..], left).1)
      decreases |Live(b)| - nextIdx
    {
      ghost var rest := Live(b)[nextIdx..];
      var nbytes := b.vecs[b.idx + nextIdx].len;
      SkipStep(rest, left);
      assert rest[0].len == nbytes && rest[1..] == Live(b)[nextIdx + 1..];
      if nbytes > left {
        return;
      }
      nextIdx, left := nextIdx + 1, left - nbytes;
      if left == 0 {
        return;
      }
    }
  }

  /** How a completion of n bytes is seen. */
  lemma SeenFacts(q: Limits, bios: seq<Bio>, n: nat, sector: nat, segments: nat)
    requires AllCarrying(bios)
    ensures var r, left := Req(Views(bios), Sizes(bios), sector, segments), DropBytes(bios, n);
            && Whole(r) && AllWellFormed(left) && |left| <= |bios| && Views([]) == []
            && Ending(r, n) == Ids(bios[..|bios| - |left|])
            && Complete(q, r, n) == if n >= Sizes(bios) then Req([], 0, sector, segments)
                                    else Req(Views(left), Sizes(bios) - n, sector + n / SECTOR_SIZE, Recalc(q, Vectors(left)))
  {
    hide Vectors, Sizes, DropBytes, DropViews, AllVecs, Total, Recalc;
    DropIsSeen(bios, n);
    VecsAreSeen(bios);
    VecsAreSeen(DropBytes(bios, n));
  }

  /** What is known beforehand about a completion of n bytes. */
  lemma UpdateFacts(bios: seq<Bio>, n: nat)
    requires AllCarrying(bios)
    ensures AllCarrying(DropBytes(bios, n))
    ensures Sizes(DropBytes(bios, n)) == if n <= Sizes(bios) then Sizes(bios) - n else 0
    ensures DropBytes(bios, n) == [] <==> n >= Sizes(bios)
    ensures Stream(Vectors(DropBytes(bios, n))) == Last(Stream(Vectors(bios)), Sizes(DropBytes(bios, n)))
  {
    DropWellFormed(bios, n);
    FinishedIffAllBytes(bios, n);
    DropIsPrefixDrop(bios, n);
    DropCarries(bios, n);
  }

  lemma {:induction false} DropCarries(bios: seq<Bio>, n: nat)
    requires AllCarrying(bios)
    ensures AllCarrying(DropBytes(bios, n))
    decreases |bios|
  {
    if bios != [] {
      if n < bios[0].size {
        AdvanceStream(bios[0], n);
      } else {
        PastFirst(bios, n);
        DropCarries(bios[1..], n - bios[0].size);
      }
    }
  }

  /** Where the mapping loop stands when `rest` is still to be mapped. */
  ghost predicate Mapping(q: Limits, all: seq<Vec>, rest: seq<Vec>, prev: Option<Vec>,
                          sglist: array<Sg>, n: nat, before: seq<Sg>)
    reads sglist
  {
    && n <= sglist.Length == |before|
    && EndsAt(prev, sglist[..n])
    && MapVecs(q, prev, sglist[..n], rest) == MapVecs(q, None, [], all)
    && (forall k :: n <= k < |before| ==> sglist[k] == before[k])
  }

  lemma MappingDone(q: Limits, all: seq<Vec>, prev: Option<Vec>, sglist: array<Sg>, n: nat, before: seq<Sg>)
    requires Mapping(q, all, [], prev, sglist, n, before)
    ensures sglist[..n] == MapVecs(q, None, [], all)
  {
  }

  lemma MapAll(q: Limits, vs: seq<Vec>)
    ensures |MapVecs(q, None, [], vs)| == SgCount(q, vs) && SgStream(MapVecs(q, None, [], vs)) == Stream(vs)
  {
    hide MapVecs, Stream, Greedy;
    MapVecsFacts(q, None, [], vs);
    assert [] + Stream(vs) == Stream(vs);
  }

  lemma MapStep(q: Limits, prev: Option<Vec>, sgs: seq<Sg>, vs: seq<Vec>)
    requires vs != []
    ensures MapVecs(q, prev, sgs, vs) == MapVecs(q, Some(vs[0]), AddVec(q, prev, sgs, vs[0]), vs[1..])
  {
  }

  lemma MapGrows(q: Limits, prev: Option<Vec>, sgs: seq<Sg>, vs: seq<Vec>)
    requires EndsAt(prev, sgs)
    ensures |MapVecs(q, prev, sgs, vs)| >= |sgs|
  {
    MapVecsFacts(q, prev, sgs, vs);
  }

  /** One vector of the mapping loop; there is always room for it. */
  method MapOne(q: Limits, prev: Option<Vec>, sglist: array<Sg>, n: nat, v: Vec,
                ghost all: seq<Vec>, ghost rest: seq<Vec>, ghost before: seq<Sg>) returns (n': nat)
    requires Mapping(q, all, rest, prev, sglist, n, before) && rest != [] && rest[0] == v
    requires |MapVecs(q, None, [], all)| <= sglist.Length
    modifies sglist
    ensures Mapping(q, all, rest[1..], Some(v), sglist, n', before)
  {
    hide MapVecs, SgStream, Stream, Greedy;
    ghost var sgs := sglist[..n];
    assert MapVecs(q, prev, sgs, rest) == MapVecs(q, Some(v), AddVec(q, prev, sgs, v), rest[1..]) by { MapStep(q, prev, sgs, rest); }
    AddVecFacts(q, prev, sgs, v);
    MapGrows(q, Some(v), AddVec(q, prev, sgs, v), rest[1..]);
    if prev.Some? && sglist[n - 1].length + v.len <= q.maxSegmentSize && Joinable(q, prev.value, v) {
      sglist[n - 1] := sglist[n - 1].(length := sglist[n - 1].length + v.len);
      n' := n;
    } else {
      sglist[n] := Sg(v.page, v.offset, v.len);
      n' := n + 1;
    }
    assert sglist[..n'] == AddVec(q, prev, sgs, v);
  }

  /** The one segment of a request is its first and its last, so a size for the one end will do for the other. */
  lemma FrontWidened(q: Limits, bios: seq<Bio>, cuts: seq<bool>, size: nat)
    requires Sound(q, bios, cuts, 1) && bios[|bios| - 1].back <= size
    ensures var w := bios[0 := bios[0].(front := size)]; Sound(q, w, cuts, 1) && AllCarrying(w) && Vectors(w) == Vectors(bios) && Sizes(w) == Sizes(bios)
  {
    hide Vectors, Sizes, Bytes, Admissible, FirstSize, Cut;
    OneSegment(q, Vectors(bios), cuts);
    SameVectors(bios, bios[0 := bios[0].(front := size)]);
  }

  lemma BackWidened(q: Limits, bios: seq<Bio>, cuts: seq<bool>, size: nat)
    requires Sound(q, bios, cuts, 1) && bios[0].front <= size
    ensures var w := bios[|bios| - 1 := bios[|bios| - 1].(back := size)];
            Sound(q, w, cuts, 1) && AllCarrying(w) && Vectors(w) == Vectors(bios) && Sizes(w) == Sizes(bios)
  {
    hide Vectors, Sizes, Bytes, Admissible, FirstSize, Cut;
    OneSegment(q, Vectors(bios), cuts);
    SameVectors(bios, bios[|bios| - 1 := bios[|bios| - 1].(back := size)]);
  }

  lemma OneSegment(q: Limits, vs: seq<Vec>, cuts: seq<bool>)
    requires vs != [] && Admissible(q, None, START, vs, cuts) && Cut(START, vs, cuts).n == 1
    ensures FirstSize(vs, cuts) == Cut(START, vs, cuts).cur
  {
    NoCut(Place(START, vs[0], true), vs[1..], cuts[1..]);
  }

  lemma SingleBio(b: Bio)
    requires Carrying(b)
    ensures AllCarrying([b]) && Vectors([b]) == Live(b) && Sizes([b]) == b.size
  {
    assert [b][1..] == [] && Live(b) + [] == Live(b);
  }
}
