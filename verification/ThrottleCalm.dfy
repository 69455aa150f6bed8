/**
 Progress of one direction of a throttle group.  As long as no product
 overflows, a bio that is refused is refused only up to an explicit time, however
 often it is asked for in the same slice, and slices do not drag on.
 */
module ThrottleCalm {
  import opened Arith
  import opened ThrottleSlice
  import opened ThrottleWait

  /** How long after the start of a slice a bio can be refused, with b bytes and n bios to account for. */
  function Reach(p: Params, b: nat, n: nat): (r: nat)
    requires ValidParams(p)
  {
    Whole(b * p.hz, p.bps) + Whole(n * p.hz, p.iops) + 2
  }

  /** How long a slice can last. */
  function Span(p: Params, b: nat, n: nat): (r: nat)
    requires ValidParams(p)
  {
    2 * Reach(p, b, n) + Whole(p.hz, p.bps) + 6 * p.slice + 4
  }

  /** Nothing overflows while b bytes and n bios are accounted for, up to the end of any slice. */
  ghost predicate Roomy(p: Params, b: nat, n: nat)
    requires ValidParams(p)
  {
    var span := Span(p, b, n) + p.slice;
    && b * p.hz + span < U64
    && (p.bps == UNLIMITED_BPS || p.bps * span < U64)
    && b * p.hz < p.bps * U32
    && n * p.hz < U32
    && p.iops * span < U64
  }

  /** The slice will account for no more than b bytes and n bios, and has room for them. */
  ghost predicate Calm(p: Params, s: Slice, b: nat, n: nat) {
    && ValidParams(p) && !NoRule(p)
    && Roomy(p, b, n)
    && s.start <= s.end <= s.start + Span(p, b, n)
  }

  /** A calm slice that may be extended once more. */
  ghost predicate Snug(p: Params, s: Slice, b: nat, n: nat) {
    Calm(p, s, b, n) && s.end + 2 * p.slice <= s.start + Span(p, b, n)
  }

  /** A calm slice that was extended for the last time by now. */
  ghost predicate Waiting(p: Params, s: Slice, b: nat, n: nat, now: nat) {
    Calm(p, s, b, n) && (Snug(p, s, b, n) || s.end < now + 2 * p.slice)
  }

  /** What slices come to while nobody waits: each ends soon after it starts. */
  predicate Settled(p: Params, s: Slice) {
    ValidParams(p) && s.start <= s.end <= s.start + Whole(p.hz, p.bps) + 3 * p.slice
  }

  lemma SettledIsSnug(p: Params, s: Slice, b: nat, n: nat)
    requires Settled(p, s) && !NoRule(p) && Roomy(p, b, n)
    ensures Snug(p, s, b, n)
  {
    hide Roomy, Whole;
  }

  /** A megabyte and a hundred bios a second leave room for a megabyte in sixty four bios. */
  lemma RoomyExample()
    ensures var p := Params(1000, 100, 0x10_0000, 100); ValidParams(p) && Roomy(p, 0x10_0000, 64)
  {
    var p := Params(1000, 100, 0x10_0000, 100);
    assert Whole(0x10_0000 * p.hz, p.bps) == 1000 && Whole(64 * p.hz, p.iops) == 640 && Whole(p.hz, p.bps) == 0;
  }

  lemma WholeMono(x: nat, y: nat, d: nat)
    requires d > 0 && x <= y
    ensures Whole(x, d) <= Whole(y, d)
  {
    FitsIffAtMostQuotient(Whole(x, d), y, d);
  }

  /** Less to account for takes no longer. */
  lemma SpanMono(p: Params, b: nat, n: nat, b': nat, n': nat)
    requires ValidParams(p) && b' <= b && n' <= n
    ensures Reach(p, b', n') <= Reach(p, b, n) && Span(p, b', n') <= Span(p, b, n)
  {
    MulMono(p.hz, b', b);
    MulMono(p.hz, n', n);
    WholeMono(b' * p.hz, b * p.hz, p.bps);
    WholeMono(n' * p.hz, n * p.hz, p.iops);
  }

  lemma RoomyMono(p: Params, b: nat, n: nat, b': nat, n': nat)
    requires ValidParams(p) && Roomy(p, b, n) && b' <= b && n' <= n
    ensures Roomy(p, b', n')
  {
    SpanMono(p, b, n, b', n');
    MulMono(p.hz, b', b);
    MulMono(p.hz, n', n);
    MulMono(p.bps, Span(p, b', n') + p.slice, Span(p, b, n) + p.slice);
    MulMono(p.iops, Span(p, b', n') + p.slice, Span(p, b, n) + p.slice);
  }

  /** With room, the tests are exact for the whole span. */
  lemma RoomyIsSane(p: Params, s: Slice, b: nat, n: nat, size: nat)
    requires ValidParams(p) && Roomy(p, b, n) && s.bytes + size <= b && s.ios + 1 <= n
    ensures Sane(p, s, size, s.start + Span(p, b, n))
  {
    MulMono(p.hz, s.bytes + size, b);
    MulMono(p.hz, s.ios + 1, n);
  }

  /** Time that pays for everything is longer than any refusal. */
  lemma PaidByReach(x: nat, rate: nat, elapsed: nat, rnd: nat)
    requires rate > 0 && elapsed <= rnd && rate * rnd < x
    ensures elapsed <= Whole(x, rate)
  {
    if elapsed > Whole(x, rate) {
      MulMono(rate, Whole(x, rate) + 1, rnd);
    }
  }

  /** A test that fails after so much time, at one rate. */
  lemma UnpaidBefore(units: nat, all: nat, hz: nat, rate: nat, elapsed: nat, rnd: nat)
    requires rate > 0 && units <= all && elapsed <= rnd && rate * rnd < units * hz
    ensures elapsed <= Whole(all * hz, rate)
  {
    hide Whole;
    MulMono(hz, units, all);
    PaidByReach(all * hz, rate, elapsed, rnd);
  }

  /** A refusal comes before the time that pays for everything. */
  lemma RefusedBefore(p: Params, s: Slice, b: nat, n: nat, size: nat, now: nat)
    requires ValidParams(p) && Roomy(p, b, n) && s.bytes + size <= b && s.ios + 1 <= n
    requires s.start <= now <= s.start + Span(p, b, n)
    requires !WithinBps(p, s, size, now) || !WithinIops(p, s, now)
    ensures now < s.start + Reach(p, b, n)
  {
    hide Roomy, Sane, Span, WithinBps, WithinIops, Whole;
    RoomyIsSane(p, s, b, n, size);
    var horizon := s.start + Span(p, b, n);
    if !WithinBps(p, s, size, now) {
      BpsTest(p, s, size, now, horizon);
      UnpaidBefore(s.bytes + size, b, p.hz, p.bps, now - s.start, ElapsedRnd(p, s, now));
    } else {
      IopsTest(p, s, size, now, horizon);
      UnpaidBefore(s.ios + 1, n, p.hz, p.iops, now - s.start, ElapsedRnd(p, s, now));
    }
  }

  /** An advised wait is shorter than a reach and one slice. */
  lemma WaitInReach(p: Params, s: Slice, b: nat, n: nat, size: nat, now: nat)
    requires ValidParams(p) && Roomy(p, b, n) && s.bytes + size <= b && s.ios + 1 <= n
    requires s.start <= now <= s.start + Span(p, b, n)
    requires !WithinBps(p, s, size, now) || !WithinIops(p, s, now)
    ensures Advised(p, s, size, now) <= Reach(p, b, n) + p.slice
  {
    hide Roomy, Sane, Span, WithinBps, WithinIops, Whole;
    RoomyIsSane(p, s, b, n, size);
    var horizon := s.start + Span(p, b, n);
    if !WithinBps(p, s, size, now) {
      MulMono(p.hz, s.bytes + size, b);
      WholeMono((s.bytes + size) * p.hz, b * p.hz, p.bps);
      BpsWaitBound(p, s, size, now, horizon);
    } else {
      MulMono(p.hz, s.ios + 1, n);
      WholeMono((s.ios + 1) * p.hz, n * p.hz, p.iops);
      IopsWaitBound(p, s, size, now, horizon);
    }
  }

  /** The slice is close behind: it was trimmed just now. */
  predicate Trimmed(p: Params, s: Slice, now: nat)
    requires ValidParams(p)
  {
    s.start <= now <= s.start + Whole(p.hz, p.bps) + p.slice
  }

  /** Where asking leaves the end of a slice. */
  lemma AskedEnd(p: Params, s: Slice, size: nat, now: nat)
    requires ValidParams(p) && !NoRule(p) && s.start <= now && s.start <= s.end
    ensures var v := MayDispatch(p, s, size, now);
            && v.slice.start <= now <= v.slice.end
            && (now <= s.end ==> SameCounters(v.slice, s))
            && (now > s.end ==> SameCounters(v.slice, StartNewSlice(p, now)))
            && (v.slice.end <= s.end || v.slice.end < now + v.wait + 2 * p.slice)
            && (v.ok ==> v.wait == 0)
            && (!v.ok ==> now + v.wait <= v.slice.end && v.wait == Advised(p, Renew(p, s, now), size, now))
            && (!v.ok ==> !WithinBps(p, Renew(p, s, now), size, now) || !WithinIops(p, Renew(p, s, now), now))
            && SameCounters(Renew(p, s, now), v.slice)
  {
    hide WithinBps, WithinIops, Advised;
  }

  /** What asking does to a calm slice. */
  lemma CalmAsk(p: Params, s: Slice, b: nat, n: nat, size: nat, now: nat)
    requires Waiting(p, s, b, n, now) && s.start <= now && s.bytes + size <= b && s.ios + 1 <= n
    ensures var v := MayDispatch(p, s, size, now);
            && v.slice.bytes <= s.bytes && v.slice.ios <= s.ios
            && v.slice.start <= now <= v.slice.end && now <= v.slice.start + Span(p, b, n)
            && (now <= s.end ==> SameCounters(v.slice, s))
            && (!v.ok ==> now < v.slice.start + Reach(p, b, n) && now + v.wait <= v.slice.end)
            && (v.ok ==> v.wait == 0)
            && (Snug(p, s, b, n) ==> Waiting(p, v.slice, b, n, now))
            && (!v.ok || (Snug(p, s, b, n) && Trimmed(p, s, now)) ==> Snug(p, v.slice, b, n))
  {
    hide MayDispatch, Renew, WithinBps, WithinIops, Advised, Roomy;
    var r, v := Renew(p, s, now), MayDispatch(p, s, size, now);
    AskedEnd(p, s, size, now);
    if !v.ok {
      RefusedBefore(p, r, b, n, size, now);
      WaitInReach(p, r, b, n, size, now);
    }
    hide Reach, Whole;
  }

  /** A trim that forgets nothing comes soon after the start. */
  lemma NothingToTrim(p: Params, b: nat, n: nat, length: nat)
    requires ValidParams(p) && Roomy(p, b, n) && 1 <= length <= Span(p, b, n) && BytesTrim(p, length) == 0
    ensures length <= Whole(p.hz, p.bps)
  {
    var span := Span(p, b, n) + p.slice;
    assert p.bps == UNLIMITED_BPS || p.bps * span < U64;
    if p.bps == UNLIMITED_BPS {
      assert 1 * p.hz + length <= U64;
      hide Roomy, Span, Whole;
      QuotaOfLargest(1, length, U64, p.hz);
    } else {
      hide Roomy, Span;
      MulMono(p.bps, length, span);
      PaidByReach(p.hz, p.bps, length, length);
    }
  }

  /** A bio that was let go leaves a slice that starts close behind and ends soon. */
  lemma CalmTrim(p: Params, s: Slice, b: nat, n: nat, size: nat, now: nat)
    requires ValidParams(p) && Roomy(p, b, n) && s.bytes + size <= b
    requires s.start <= now <= s.end && now <= s.start + Span(p, b, n)
    ensures var t := Trim(p, Charge(s, size), now);
            && t.bytes <= s.bytes + size && t.ios <= s.ios + 1
            && Trimmed(p, t, now) && now <= t.end < now + 2 * p.slice
  {
    var c := Charge(s, size);
    ModLe(s.bytes + size, U64);
    var length := NrSlices(p, c, now) * p.slice;
    if NrSlices(p, c, now) > 0 {
      MulMono(p.slice, 1, NrSlices(p, c, now));
      NrSlicesIsLast(p, c, now);
      if BytesTrim(p, length) == 0 {
        NothingToTrim(p, b, n, length);
      }
    } else {
      NrSlicesIsLast(p, c, now);
    }
    hide Roomy, Span, BytesTrim, IosTrim;
  }

  lemma NrSlicesIsLast(p: Params, s: Slice, now: nat)
    requires ValidParams(p) && s.start <= now
    ensures now - s.start < NrSlices(p, s, now) * p.slice + p.slice
  {
    DivBracket(now - s.start, p.slice);
  }

  /** Such a slice is calm for whatever is left to account for. */
  lemma CalmAfterTrim(p: Params, t: Slice, b: nat, n: nat, b': nat, n': nat, now: nat)
    requires ValidParams(p) && !NoRule(p) && Roomy(p, b, n) && b' <= b && n' <= n
    requires Trimmed(p, t, now) && now <= t.end < now + 2 * p.slice
    ensures Snug(p, t, b', n') && Settled(p, t)
  {
    RoomyMono(p, b, n, b', n');
  }

  /** Asking, when xb bytes and xn bios are still held behind what the slice has counted. */
  lemma CalmAskHeld(p: Params, s: Slice, xb: nat, xn: nat, size: nat, now: nat)
    requires Waiting(p, s, s.bytes + xb, s.ios + xn, now) && s.start <= now && size <= xb && 1 <= xn
    ensures var v := MayDispatch(p, s, size, now);
            var b, n := v.slice.bytes + xb, v.slice.ios + xn;
            && v.slice.start <= now <= v.slice.end && now <= v.slice.start + Span(p, b, n) && Roomy(p, b, n)
            && (now <= s.end ==> SameCounters(v.slice, s))
            && (!v.ok ==> now < v.slice.start + Reach(p, b, n) && now + v.wait <= v.slice.end)
            && (v.ok ==> v.wait == 0)
            && (Snug(p, s, s.bytes + xb, s.ios + xn) ==> Waiting(p, v.slice, b, n, now))
            && (!v.ok || (Snug(p, s, s.bytes + xb, s.ios + xn) && Trimmed(p, s, now)) ==> Snug(p, v.slice, b, n))
  {
    hide MayDispatch, Roomy, Span, Reach;
    if now <= s.end {
      CalmAsk(p, s, s.bytes + xb, s.ios + xn, size, now);
    } else {
      var renewed := StartNewSlice(p, now);
      RoomyMono(p, s.bytes + xb, s.ios + xn, xb, xn);
      FreshIsCalm(p, xb, xn, now);
      UsedIsFresh(p, s, size, now);
      CalmAsk(p, renewed, xb, xn, size, now);
      FreshKept(p, size, now);
    }
  }

  lemma FreshIsCalm(p: Params, b: nat, n: nat, now: nat)
    requires ValidParams(p) && !NoRule(p) && Roomy(p, b, n)
    ensures Snug(p, StartNewSlice(p, now), b, n) && Trimmed(p, StartNewSlice(p, now), now)
  {
  }

  lemma UsedIsFresh(p: Params, s: Slice, size: nat, now: nat)
    requires ValidParams(p) && !NoRule(p) && s.start <= s.end < now
    ensures MayDispatch(p, s, size, now) == MayDispatch(p, StartNewSlice(p, now), size, now)
  {
  }

  lemma FreshKept(p: Params, size: nat, now: nat)
    requires ValidParams(p)
    ensures SameCounters(MayDispatch(p, StartNewSlice(p, now), size, now).slice, StartNewSlice(p, now))
  {
    hide WithinBps, WithinIops, Advised;
  }

  /** Letting the first of them go. */
  lemma CalmPopHeld(p: Params, s: Slice, xb: nat, xn: nat, size: nat, now: nat)
    requires ValidParams(p) && !NoRule(p) && Roomy(p, s.bytes + xb, s.ios + xn) && size <= xb && 1 <= xn
    requires s.start <= now <= s.end && now <= s.start + Span(p, s.bytes + xb, s.ios + xn)
    ensures var t := Trim(p, Charge(s, size), now);
            Trimmed(p, t, now) && now <= t.end && Settled(p, t) && Snug(p, t, t.bytes + (xb - size), t.ios + (xn - 1))
  {
    hide Trim, Charge, Roomy, Span, Snug;
    var t := Trim(p, Charge(s, size), now);
    CalmTrim(p, s, s.bytes + xb, s.ios + xn, size, now);
    CalmAfterTrim(p, t, s.bytes + xb, s.ios + xn, t.bytes + (xb - size), t.ios + (xn - 1), now);
  }

  /** More to account for, while there is room. */
  lemma WaitingMore(p: Params, s: Slice, b: nat, n: nat, b': nat, n': nat, now: nat)
    requires Waiting(p, s, b, n, now) && Roomy(p, b', n') && b <= b' && n <= n'
    ensures Waiting(p, s, b', n', now) && (Snug(p, s, b, n) ==> Snug(p, s, b', n'))
  {
    hide Roomy;
    SpanMono(p, b', n', b, n);
    hide Span;
  }

  /** The first bio to come to a slice that has settled. */
  lemma FirstBio(p: Params, s: Slice, size: nat, now: nat)
    requires Settled(p, s) && !NoRule(p) && Roomy(p, s.bytes + size, s.ios + 1) && s.start <= now
    ensures var v := MayDispatch(p, s, size, now);
            && (v.ok ==> Settled(p, Trim(p, Charge(v.slice, size), now)))
            && (!v.ok ==> now <= v.slice.end && Snug(p, v.slice, v.slice.bytes + size, v.slice.ios + 1))
  {
    hide MayDispatch, Trim, Charge, Roomy, Span, Reach, Settled, Snug;
    assert Waiting(p, s, s.bytes + size, s.ios + 1, now) by {
      SettledIsSnug(p, s, s.bytes + size, s.ios + 1);
      SnugIsWaiting(p, s, s.bytes + size, s.ios + 1, now);
    }
    CalmAskHeld(p, s, size, 1, size, now);
    var v := MayDispatch(p, s, size, now);
    if v.ok {
      CalmPopHeld(p, v.slice, size, 1, size, now);
    }
  }

  lemma SnugIsWaiting(p: Params, s: Slice, b: nat, n: nat, now: nat)
    requires Snug(p, s, b, n)
    ensures Waiting(p, s, b, n, now)
  {
  }
}
