/**
 The waits that tg_may_dispatch advises are right: a bio that is denied and
 offered again exactly when advised is admitted after a bounded number of
 retries, in the same slice.
 */
module ThrottleWait {
  import opened Arith
  import opened ThrottleSlice

  /**
   Offer a bio at `now` and, while it is denied, again after each advised wait,
   at most `retries` times.  Returns the last verdict and when it was given.
   */
  function Attempt(p: Params, s: Slice, size: nat, now: nat, retries: nat): (r: (Verdict, nat))
    requires ValidParams(p) && s.start <= now
    ensures r.0.slice.start <= r.1
    decreases retries
  {
    var v := MayDispatch(p, s, size, now);
    if v.ok || retries == 0 then (v, now)
    else Attempt(p, v.slice, size, now + v.wait, retries - 1)
  }

  /**
   No truncated product overflows while the slice is tested at times up to
   `horizon`.  An unlimited byte rate is meant to wrap and is allowed here.
   */
  ghost predicate Sane(p: Params, s: Slice, size: nat, horizon: nat) {
    && s.start <= horizon
    && (s.bytes + size) * p.hz + (horizon - s.start + p.slice) < U64
    && (p.bps == UNLIMITED_BPS || p.bps * (horizon - s.start + p.slice) < U64)
    && (s.bytes + size) * p.hz < p.bps * U32
    && (s.ios + 1) * p.hz < U32
    && p.iops * (horizon - s.start + p.slice) < U64
  }

  /** Under Sane the byte test asks whether the rounded time pays for the bytes. */
  lemma BpsTest(p: Params, s: Slice, size: nat, now: nat, horizon: nat)
    requires ValidParams(p) && Sane(p, s, size, horizon) && s.start <= now <= horizon
    ensures (s.bytes + size) % U64 == s.bytes + size
    ensures p.bps == UNLIMITED_BPS ==> WithinBps(p, s, size, now)
    ensures p.bps != UNLIMITED_BPS ==>
              (WithinBps(p, s, size, now) <==> (s.bytes + size) * p.hz <= p.bps * ElapsedRnd(p, s, now))
  {
    BpsQuota(s.bytes + size, p.bps, p.hz, ElapsedRnd(p, s, now), horizon - s.start + p.slice);
  }

  lemma BpsQuota(need: nat, bps: nat, hz: nat, rnd: nat, span: nat)
    requires hz > 0 && 1 <= rnd <= span && need * hz + span < U64
    requires bps == UNLIMITED_BPS || bps * span < U64
    ensures need % U64 == need
    ensures bps == UNLIMITED_BPS ==> need <= Quota(bps * rnd, U64, hz)
    ensures bps != UNLIMITED_BPS ==> (need <= Quota(bps * rnd, U64, hz) <==> need * hz <= bps * rnd)
  {
    NotLarger(need, hz);
    ModLe(need, U64);
    if bps == UNLIMITED_BPS {
      QuotaOfLargest(need, rnd, U64, hz);
    } else {
      MulMono(bps, rnd, span);
      QuotaIff(need, bps * rnd, U64, hz);
    }
  }

  lemma NotLarger(x: nat, hz: nat)
    requires hz > 0
    ensures x <= x * hz
  {
    MulMono(x, 1, hz);
  }

  lemma IopsTest(p: Params, s: Slice, size: nat, now: nat, horizon: nat)
    requires ValidParams(p) && Sane(p, s, size, horizon) && s.start <= now <= horizon
    ensures WithinIops(p, s, now) <==> (s.ios + 1) * p.hz <= p.iops * ElapsedRnd(p, s, now)
  {
    IopsQuota(s.ios + 1, p.iops, p.hz, ElapsedRnd(p, s, now), horizon - s.start + p.slice);
  }

  lemma IopsQuota(need: nat, iops: nat, hz: nat, rnd: nat, span: nat)
    requires hz > 0 && rnd <= span && need * hz < U32 && iops * span < U64
    ensures need < U32
    ensures need <= Quota(iops * rnd, U64, hz) <==> need * hz <= iops * rnd
  {
    MulMono(iops, rnd, span);
    QuotaIff(need, iops * rnd, U64, hz);
    NotLarger(need, hz);
  }

  lemma ElapsedRndMono(p: Params, s: Slice, now: nat, later: nat)
    requires ValidParams(p) && s.start <= now <= later
    ensures ElapsedRnd(p, s, now) <= ElapsedRnd(p, s, later)
  {
    if now == s.start {
      if later > s.start {
        RoundUpSelf(p.slice);
        RoundUpAtLeastOne(later - s.start, p.slice);
      }
    } else {
      RoundUpMono(now - s.start, later - s.start, p.slice);
    }
  }

  lemma RoundUpAtLeastOne(x: nat, y: nat)
    requires x > 0 && y > 0
    ensures RoundUp(x, y) >= y
  {
    FitsIffAtMostQuotient(1, x + (y - 1), y);
    MulMono(y, 1, (x + (y - 1)) / y);
  }

  /** Once a test passes it keeps passing while nothing is charged. */
  lemma TestsKeepPassing(p: Params, s: Slice, size: nat, now: nat, later: nat, horizon: nat)
    requires ValidParams(p) && Sane(p, s, size, horizon) && s.start <= now <= later <= horizon
    ensures WithinBps(p, s, size, now) ==> WithinBps(p, s, size, later)
    ensures WithinIops(p, s, now) ==> WithinIops(p, s, later)
  {
    BpsTest(p, s, size, now, horizon);
    BpsTest(p, s, size, later, horizon);
    IopsTest(p, s, size, now, horizon);
    IopsTest(p, s, size, later, horizon);
    ElapsedRndMono(p, s, now, later);
    MulMono(p.bps, ElapsedRnd(p, s, now), ElapsedRnd(p, s, later));
    MulMono(p.iops, ElapsedRnd(p, s, now), ElapsedRnd(p, s, later));
  }

  /** One more jiffy of rounded time would pay for the bio. */
  ghost predicate AlmostPaid(p: Params, s: Slice, size: nat, now: nat)
    requires ValidParams(p) && s.start <= now
  {
    (s.bytes + size) * p.hz <= p.bps * (ElapsedRnd(p, s, now) + 1)
  }

  /** After the first advised byte wait at most one more jiffy is missing. */
  lemma BpsWaitAlmostPays(p: Params, s: Slice, size: nat, now: nat, horizon: nat)
    requires ValidParams(p) && Sane(p, s, size, horizon) && s.start <= now <= horizon
    requires !WithinBps(p, s, size, now)
    ensures AlmostPaid(p, s, size, now + BpsWait(p, s, size, now))
  {
    BpsTest(p, s, size, now, horizon);
    var need, rnd, allowed := s.bytes + size, ElapsedRnd(p, s, now), BytesAllowed(p, s, now);
    MulMono(p.hz, need - allowed, need);
    QuotaIsSmall((need - allowed) * p.hz, p.bps);
    QuotaFits(allowed, p.bps * rnd, U64, p.hz);
    var later := ElapsedRnd(p, s, now + BpsWait(p, s, size, now));
    hide Sane, Quota, WithinBps;
    DeficitWait(need, allowed, p.bps, p.hz, rnd, U64, later);
  }

  /** A wait that fits in 32 bits is not truncated. */
  lemma QuotaIsSmall(x: nat, rate: nat)
    requires rate > 0 && x < rate * U32
    ensures Quota(x, U64, rate) % U32 == Quota(x, U64, rate) < U32
  {
    var r := Quota(x, U64, rate);
    if r >= U32 {
      MulMono(rate, U32, r);
    }
    ModLe(r, U32);
  }

  /** When only one jiffy is missing the next advised wait is long enough. */
  lemma BpsWaitPays(p: Params, s: Slice, size: nat, now: nat, horizon: nat)
    requires ValidParams(p) && Sane(p, s, size, horizon) && s.start <= now
    requires !WithinBps(p, s, size, now) && AlmostPaid(p, s, size, now)
    requires now + BpsWait(p, s, size, now) <= horizon
    ensures WithinBps(p, s, size, now + BpsWait(p, s, size, now))
  {
    var later := now + BpsWait(p, s, size, now);
    BpsTest(p, s, size, now, horizon);
    BpsTest(p, s, size, later, horizon);
    MulMono(p.bps, ElapsedRnd(p, s, now) + 1, ElapsedRnd(p, s, later));
  }

  lemma IopsWaitPays(p: Params, s: Slice, size: nat, now: nat, horizon: nat)
    requires ValidParams(p) && Sane(p, s, size, horizon) && s.start <= now
    requires !WithinIops(p, s, now)
    requires now + IopsWait(p, s, now) <= horizon
    ensures WithinIops(p, s, now + IopsWait(p, s, now))
  {
    var later := now + IopsWait(p, s, now);
    IopsWaitIsLong(p, s, size, now, horizon);
    hide Sane, WithinIops, IopsWait;
    IopsTest(p, s, size, later, horizon);
  }

  /** Until the advised time enough jiffies pass for one more bio. */
  lemma IopsWaitIsLong(p: Params, s: Slice, size: nat, now: nat, horizon: nat)
    requires ValidParams(p) && Sane(p, s, size, horizon) && s.start <= now
    ensures (s.ios + 1) * p.hz <= p.iops * ElapsedRnd(p, s, now + IopsWait(p, s, now))
  {
    var later, wait := now + IopsWait(p, s, now), Quota((s.ios + 1) * p.hz, U32, p.iops);
    assert (s.ios + 1) * p.hz <= p.iops * (wait + 1) by { DeficitWait(s.ios + 1, 0, p.iops, p.hz, 0, U32, wait); }
    assert wait + 1 <= ElapsedRnd(p, s, later);
    MulMono(p.iops, wait + 1, ElapsedRnd(p, s, later));
  }

  // ------------------------------------------------------------ the retry loop

  predicate SameCounters(s: Slice, r: Slice) {
    s.bytes == r.bytes && s.ios == r.ios && s.start == r.start
  }

  /** A test inside the slice keeps the counters and leaves the slice open until the advised time. */
  lemma TestInsideSlice(p: Params, s: Slice, size: nat, now: nat)
    requires ValidParams(p) && !NoRule(p) && s.start <= now <= s.end
    ensures var v := MayDispatch(p, s, size, now);
            && SameCounters(v.slice, s)
            && v.ok == (WithinBps(p, s, size, now) && WithinIops(p, s, now))
            && (!v.ok ==> now + v.wait <= v.slice.end)
            && (!v.ok ==> v.wait == Advised(p, s, size, now))
  {
  }

  /** A slice is never reset while the bio is retried when advised, and time moves on. */
  lemma {:induction false} RetriesKeepSlice(p: Params, s: Slice, size: nat, now: nat, retries: nat)
    requires ValidParams(p) && !NoRule(p) && s.start <= now <= s.end
    ensures SameCounters(Attempt(p, s, size, now, retries).0.slice, s)
    ensures Attempt(p, s, size, now, retries).1 >= now
    decreases retries
  {
    hide MayDispatch, WithinBps, WithinIops, Advised;
    TestInsideSlice(p, s, size, now);
    var v := MayDispatch(p, s, size, now);
    if !v.ok && retries > 0 {
      RetriesKeepSlice(p, v.slice, size, now + v.wait, retries - 1);
    }
  }

  /** What one advised wait achieves, wherever in the slice it was advised. */
  lemma OneRetry(p: Params, s: Slice, size: nat, now: nat, horizon: nat)
    requires ValidParams(p) && !NoRule(p) && s.start <= now <= s.end && Sane(p, s, size, horizon)
    requires var v := MayDispatch(p, s, size, now); !v.ok && now + v.wait <= horizon
    ensures var v := MayDispatch(p, s, size, now);
            && v.slice.start <= now + v.wait <= v.slice.end
            && Sane(p, v.slice, size, horizon)
            && (WithinIops(p, s, now) || WithinBps(p, s, size, now) ==> WithinIops(p, v.slice, now + v.wait))
            && (WithinBps(p, s, size, now) || AlmostPaid(p, s, size, now) ==> WithinBps(p, v.slice, size, now + v.wait))
            && (WithinBps(p, s, size, now) || AlmostPaid(p, v.slice, size, now + v.wait))
  {
    TestInsideSlice(p, s, size, now);
    var v := MayDispatch(p, s, size, now);
    RetryFacts(p, s, size, now, horizon);
    SameTests(p, s, v.slice, size, now + v.wait);
  }

  /** A test that passed keeps passing at the advised time. */
  lemma TestsLater(p: Params, s: Slice, size: nat, now: nat, horizon: nat)
    requires ValidParams(p) && !NoRule(p) && s.start <= now <= s.end && Sane(p, s, size, horizon)
    requires var v := MayDispatch(p, s, size, now); !v.ok && now + v.wait <= horizon
    ensures var v := MayDispatch(p, s, size, now);
            && v.slice.start <= now
            && (WithinBps(p, s, size, now) ==> WithinBps(p, v.slice, size, now + v.wait))
            && (WithinIops(p, s, now) ==> WithinIops(p, v.slice, now + v.wait))
  {
    TestInsideSlice(p, s, size, now);
    var v := MayDispatch(p, s, size, now);
    TestsKeepPassing(p, s, size, now, now + v.wait, horizon);
    SameTests(p, s, v.slice, size, now + v.wait);
  }

  /** The tests read the counters and the start of the slice, not its end. */
  lemma SameTests(p: Params, s: Slice, r: Slice, size: nat, now: nat)
    requires ValidParams(p) && SameCounters(s, r) && s.start <= now
    ensures WithinBps(p, s, size, now) == WithinBps(p, r, size, now)
    ensures WithinIops(p, s, now) == WithinIops(p, r, now)
    ensures AlmostPaid(p, s, size, now) == AlmostPaid(p, r, size, now)
  {
  }

  lemma RetryFacts(p: Params, s: Slice, size: nat, now: nat, horizon: nat)
    requires ValidParams(p) && s.start <= now && Sane(p, s, size, horizon)
    requires !WithinBps(p, s, size, now) || !WithinIops(p, s, now)
    requires now + Advised(p, s, size, now) <= horizon
    ensures var later := now + Advised(p, s, size, now);
            && (WithinIops(p, s, now) || WithinBps(p, s, size, now) ==> WithinIops(p, s, later))
            && (WithinBps(p, s, size, now) || AlmostPaid(p, s, size, now) ==> WithinBps(p, s, size, later))
            && (WithinBps(p, s, size, now) || AlmostPaid(p, s, size, later))
  {
    var later := now + Advised(p, s, size, now);
    TestsKeepPassing(p, s, size, now, later, horizon);
    if WithinBps(p, s, size, now) {
      IopsWaitPays(p, s, size, now, horizon);
    } else {
      BpsWaitAlmostPays(p, s, size, now, horizon);
      if AlmostPaid(p, s, size, now) {
        BpsWaitPays(p, s, size, now, horizon);
      }
    }
  }

  /** Retries that can still be needed, by what the tests say now. */
  function RetriesNeeded(bps: bool, iops: bool, almost: bool): (n: nat) {
    (if bps then 0 else if almost then 1 else 2) + (if iops then 0 else 1)
  }

  /** How long the byte and the bio test can still take, by what they say now. */
  function ByteBudget(p: Params, s: Slice, size: nat, bps: bool, almost: bool): (n: nat)
    requires ValidParams(p)
  {
    if bps then 0
    else (if almost then 0 else Whole((s.bytes + size) * p.hz, p.bps) + p.slice + 1) + Whole(p.hz, p.bps) + p.slice + 2
  }

  function IoBudget(p: Params, s: Slice, iops: bool): (n: nat)
    requires ValidParams(p)
  {
    if iops then 0 else Whole((s.ios + 1) * p.hz, p.iops) + 1
  }

  lemma DivMono(x: nat, y: nat, d: nat)
    requires d > 0 && x <= y
    ensures x / d <= y / d
  {
    DivBracket(x, d);
    FitsIffAtMostQuotient(x / d, y, d);
  }

  /** A byte wait lasts no longer than the bytes do at the rate, and the rounding. */
  lemma BpsWaitBound(p: Params, s: Slice, size: nat, now: nat, horizon: nat)
    requires ValidParams(p) && Sane(p, s, size, horizon) && s.start <= now <= horizon && !WithinBps(p, s, size, now)
    ensures BpsWait(p, s, size, now) <= Whole((s.bytes + size) * p.hz, p.bps) + 1 + p.slice
    ensures AlmostPaid(p, s, size, now) ==> BpsWait(p, s, size, now) <= Whole(p.hz, p.bps) + 2 + p.slice
  {
    BpsTest(p, s, size, now, horizon);
    var need, rnd, allowed := s.bytes + size, ElapsedRnd(p, s, now), BytesAllowed(p, s, now);
    var extra := (need - allowed) * p.hz;
    MulMono(p.hz, need - allowed, need);
    QuotaIsSmall(extra, p.bps);
    ModLe(extra, U64);
    DivMono(extra, need * p.hz, p.bps);
    if AlmostPaid(p, s, size, now) {
      assert p.bps * rnd < U64 by { MulMono(p.bps, rnd, horizon - s.start + p.slice); }
      LastDeficit(need, allowed, p.hz, p.bps, rnd);
    }
  }

  /** When one more jiffy would pay, the deficit is worth little more than one. */
  lemma LastDeficit(need: nat, allowed: nat, hz: nat, rate: nat, rnd: nat)
    requires hz > 0 && rate > 0 && allowed <= need && need * hz <= rate * (rnd + 1) && rate * rnd < allowed * hz + hz
    ensures (need - allowed) * hz / rate <= hz / rate + 1
  {
    var x := (need - allowed) * hz;
    assert x == need * hz - allowed * hz && rate * (rnd + 1) == rate * rnd + rate;
    assert x < rate + hz;
    DivMono(x, hz + rate, rate);
    DivBracket(hz, rate);
    assert rate * (hz / rate + 1) == rate * (hz / rate) + rate;
    DivUnique(hz + rate, rate, hz / rate + 1);
  }

  lemma IopsWaitBound(p: Params, s: Slice, size: nat, now: nat, horizon: nat)
    requires ValidParams(p) && Sane(p, s, size, horizon) && s.start <= now <= horizon && !WithinIops(p, s, now)
    ensures IopsWait(p, s, now) <= Whole((s.ios + 1) * p.hz, p.iops) + 1
  {
    ModLe((s.ios + 1) * p.hz, U32);
  }

  lemma {:induction false} InsideSliceSettles(p: Params, s: Slice, size: nat, now: nat, retries: nat, horizon: nat)
    requires ValidParams(p) && !NoRule(p) && s.start <= now <= s.end && Sane(p, s, size, horizon)
    requires var bps, iops, almost := WithinBps(p, s, size, now), WithinIops(p, s, now), AlmostPaid(p, s, size, now);
             RetriesNeeded(bps, iops, almost) <= retries && now + ByteBudget(p, s, size, bps, almost) + IoBudget(p, s, iops) <= horizon
    ensures var (v, when) := Attempt(p, s, size, now, retries);
            v.ok && when <= now + ByteBudget(p, s, size, WithinBps(p, s, size, now), AlmostPaid(p, s, size, now)) + IoBudget(p, s, WithinIops(p, s, now))
    decreases retries
  {
    hide WithinBps, WithinIops, AlmostPaid, Sane, MayDispatch, BpsWait, IopsWait;
    TestInsideSlice(p, s, size, now);
    var v := MayDispatch(p, s, size, now);
    if !v.ok {
      if WithinBps(p, s, size, now) {
        IopsWaitBound(p, s, size, now, horizon);
      } else {
        BpsWaitBound(p, s, size, now, horizon);
      }
      OneRetry(p, s, size, now, horizon);
      TestsLater(p, s, size, now, horizon);
      InsideSliceSettles(p, v.slice, size, now + v.wait, retries - 1, horizon);
    }
  }

  /** When a bio is admitted at the latest: the time its bytes and its place among the bios take, and the rounding. */
  function Latest(p: Params, s: Slice, size: nat, now: nat): (t: nat)
    requires ValidParams(p)
  {
    now + Whole((s.bytes + size) * p.hz, p.bps) + Whole(p.hz, p.bps) + Whole((s.ios + 1) * p.hz, p.iops) + 2 * p.slice + 4
  }

  /**
   Advised waits work.  A bio offered again exactly at each advised time, with
   nothing else charged, never sees its slice reset and is admitted, within two
   retries when the byte rate is what holds it back and within three in
   general, and by an explicit time; products must not overflow until then.
   */
  lemma AdvisedWaitsWork(p: Params, s: Slice, size: nat, now: nat)
    requires ValidParams(p) && s.start <= now
    requires var first := MayDispatch(p, s, size, now).slice; Sane(p, first, size, Latest(p, first, size, now))
    ensures var first := MayDispatch(p, s, size, now).slice;
            var (v, when) := Attempt(p, s, size, now, 3);
            v.ok && SameCounters(v.slice, first) && when <= Latest(p, first, size, now)
    ensures var first := MayDispatch(p, s, size, now).slice;
            var (v, when) := Attempt(p, s, size, now, 2);
            WithinIops(p, first, now) ==> v.ok && SameCounters(v.slice, first) && when <= Latest(p, first, size, now)
  {
    hide WithinBps, WithinIops, Sane, MayDispatch, Attempt, Latest;
    if NoRule(p) {
      NoRuleAdmits(p, s, size, now, 2);
      NoRuleAdmits(p, s, size, now, 3);
    } else {
      SameFromFirst(p, s, size, now, 2);
      SameFromFirst(p, s, size, now, 3);
      FromFirst(p, MayDispatch(p, s, size, now).slice, size, now);
    }
  }

  lemma NoRuleAdmits(p: Params, s: Slice, size: nat, now: nat, retries: nat)
    requires ValidParams(p) && NoRule(p) && s.start <= now
    ensures MayDispatch(p, s, size, now).slice == s && Attempt(p, s, size, now, retries) == (Verdict(s, true, 0), now)
    ensures now <= Latest(p, s, size, now)
  {
  }

  lemma FromFirst(p: Params, s: Slice, size: nat, now: nat)
    requires ValidParams(p) && !NoRule(p) && s.start <= now <= s.end && Sane(p, s, size, Latest(p, s, size, now))
    ensures var (v, when) := Attempt(p, s, size, now, 3); v.ok && SameCounters(v.slice, s) && when <= Latest(p, s, size, now)
    ensures var (v, when) := Attempt(p, s, size, now, 2);
            WithinIops(p, s, now) ==> v.ok && SameCounters(v.slice, s) && when <= Latest(p, s, size, now)
  {
    hide WithinBps, WithinIops, AlmostPaid, Sane, Attempt;
    var latest := Latest(p, s, size, now);
    InsideSliceSettles(p, s, size, now, 3, latest);
    if WithinIops(p, s, now) {
      InsideSliceSettles(p, s, size, now, 2, latest);
    }
    RetriesKeepSlice(p, s, size, now, 2);
    RetriesKeepSlice(p, s, size, now, 3);
  }

  /** Asking again at once gives the same answer. */
  lemma AskAgain(p: Params, s: Slice, size: nat, now: nat)
    requires ValidParams(p) && s.start <= now
    ensures var v := MayDispatch(p, s, size, now); MayDispatch(p, v.slice, size, now) == v
  {
  }

  /** Offering the bio again at once, in the slice the first offer left, changes nothing. */
  lemma SameFromFirst(p: Params, s: Slice, size: nat, now: nat, retries: nat)
    requires ValidParams(p) && !NoRule(p) && s.start <= now
    ensures var first := MayDispatch(p, s, size, now).slice;
            && first.start <= now <= first.end
            && Attempt(p, first, size, now, retries) == Attempt(p, s, size, now, retries)
  {
    OpenAfter(p, s, size, now);
    AskAgain(p, s, size, now);
    hide MayDispatch;
  }

  lemma OpenAfter(p: Params, s: Slice, size: nat, now: nat)
    requires ValidParams(p) && !NoRule(p) && s.start <= now
    ensures var first := MayDispatch(p, s, size, now).slice; first.start <= now <= first.end
  {
  }
}
