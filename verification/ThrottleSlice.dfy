/**
 The arithmetic of one direction of one throttle group: slices, trimming, the
 byte and I/O tests, and the bound they enforce over every run.

 Jiffies are an unbounded clock.  The counters keep the widths of the kernel:
 byte products are 64 bits wide, `unsigned int` and `unsigned long` are 32 bits
 wide, and every product and quotient that the kernel truncates is truncated here
 too.
 */
module ThrottleSlice {
  import opened Arith

  const U32: nat := 0x1_0000_0000
  const U64: nat := 0x1_0000_0000_0000_0000

  /** Limits are stored with -1, the largest value of their type, for "unlimited". */
  const UNLIMITED_BPS: nat := U64 - 1
  const UNLIMITED_IOPS: nat := U32 - 1

  /** HZ, throtl_slice and the two limits of one direction. */
  datatype Params = Params(hz: nat, slice: nat, bps: nat, iops: nat)

  /** A zero limit means "no rule" to the cgroup code, which stores -1 for it. */
  predicate ValidParams(p: Params) {
    && 2 <= p.hz < U32
    && 1 <= p.slice < U32
    && 0 < p.bps < U64
    && 0 < p.iops < U32
  }

  predicate NoRule(p: Params) {
    p.bps == UNLIMITED_BPS && p.iops == UNLIMITED_IOPS
  }

  /** bytes_disp, io_disp, slice_start and slice_end of one direction. */
  datatype Slice = Slice(bytes: nat, ios: nat, start: nat, end: nat)

  /** The answer of tg_may_dispatch together with the slice it leaves behind. */
  datatype Verdict = Verdict(slice: Slice, ok: bool, wait: nat)

  function StartNewSlice(p: Params, now: nat): (s: Slice) {
    Slice(0, 0, now, now + p.slice)
  }

  predicate SliceUsed(s: Slice, now: nat) {
    !(s.start <= now <= s.end)
  }

  function Extend(p: Params, s: Slice, until: nat): (r: Slice)
    requires ValidParams(p)
    ensures until <= r.end
    ensures r == s.(end := r.end)
  {
    s.(end := RoundUp(until, p.slice))
  }

  /** Whole intervals of the slice that have passed. */
  function NrSlices(p: Params, s: Slice, now: nat): (r: nat)
    requires ValidParams(p) && s.start <= now
    ensures r * p.slice <= now - s.start
  {
    DivBracket(now - s.start, p.slice);
    (now - s.start) / p.slice
  }

  /** The bytes that an interval of the given length pays for. */
  function BytesTrim(p: Params, length: nat): (r: nat)
    requires ValidParams(p)
    ensures r * p.hz <= p.bps * length
  {
    Quota(p.bps * length, U64, p.hz)
  }

  function IosTrim(p: Params, length: nat): (r: nat)
    requires ValidParams(p)
    ensures r * p.hz <= p.iops * length
  {
    Quota(p.iops * length, U32, p.hz)
  }

  /** Drop what the first `length` jiffies of the slice paid for. */
  function Drop(s: Slice, bytesTrim: nat, iosTrim: nat, length: nat): (r: Slice) {
    if bytesTrim == 0 && iosTrim == 0 then s else
      Slice(if s.bytes >= bytesTrim then s.bytes - bytesTrim else 0,
            if s.ios >= iosTrim then s.ios - iosTrim else 0,
            s.start + length,
            s.end)
  }

  function Trim(p: Params, s: Slice, now: nat): (r: Slice)
    requires ValidParams(p)
  {
    if SliceUsed(s, now) then s else
      var s1 := s.(end := RoundUp(now + p.slice, p.slice));
      var length := NrSlices(p, s, now) * p.slice;
      if NrSlices(p, s, now) == 0 then s1
      else Drop(s1, BytesTrim(p, length), IosTrim(p, length), length)
  }

  /** Elapsed time of the slice, rounded up to whole intervals, at least one. */
  function ElapsedRnd(p: Params, s: Slice, now: nat): (r: nat)
    requires ValidParams(p) && s.start <= now
    ensures now - s.start <= r <= now - s.start + p.slice
  {
    RoundUpSelf(p.slice);
    if now == s.start then RoundUp(p.slice, p.slice) else RoundUp(now - s.start, p.slice)
  }

  function BytesAllowed(p: Params, s: Slice, now: nat): (r: nat)
    requires ValidParams(p) && s.start <= now
  {
    Quota(p.bps * ElapsedRnd(p, s, now), U64, p.hz)
  }

  function IosAllowed(p: Params, s: Slice, now: nat): (r: nat)
    requires ValidParams(p) && s.start <= now
  {
    var tmp := Quota(p.iops * ElapsedRnd(p, s, now), U64, p.hz);
    if tmp > U32 - 1 then U32 - 1 else tmp
  }

  predicate WithinBps(p: Params, s: Slice, size: nat, now: nat)
    requires ValidParams(p) && s.start <= now
  {
    (s.bytes + size) % U64 <= BytesAllowed(p, s, now)
  }

  function BpsWait(p: Params, s: Slice, size: nat, now: nat): (r: nat)
    requires ValidParams(p) && s.start <= now
    requires !WithinBps(p, s, size, now)
    ensures r >= 1
  {
    var extra := (s.bytes + size) % U64 - BytesAllowed(p, s, now);
    var wait := Quota(extra * p.hz, U64, p.bps) % U32;
    (if wait == 0 then 1 else wait) + (ElapsedRnd(p, s, now) - (now - s.start))
  }

  predicate WithinIops(p: Params, s: Slice, now: nat)
    requires ValidParams(p) && s.start <= now
  {
    s.ios + 1 <= IosAllowed(p, s, now)
  }

  function IopsWait(p: Params, s: Slice, now: nat): (r: nat)
    requires ValidParams(p) && s.start <= now
    ensures r >= 1
  {
    var wait := Quota((s.ios + 1) * p.hz, U32, p.iops) + 1;
    var elapsed := now - s.start;
    if wait > elapsed then wait - elapsed else 1
  }

  /** The slice in which tg_may_dispatch runs its tests. */
  function Renew(p: Params, s: Slice, now: nat): (r: Slice)
    requires ValidParams(p)
    ensures now + p.slice <= r.end
    ensures s.start <= now ==> r.start <= now
  {
    if SliceUsed(s, now) then StartNewSlice(p, now)
    else if s.end < now + p.slice then Extend(p, s, now + p.slice)
    else s
  }

  /** The wait advised for a bio that one of the tests denies; the byte test is asked first. */
  function Advised(p: Params, s: Slice, size: nat, now: nat): (wait: nat)
    requires ValidParams(p) && s.start <= now
    ensures wait >= 1
  {
    if !WithinBps(p, s, size, now) then BpsWait(p, s, size, now) else IopsWait(p, s, now)
  }

  function MayDispatch(p: Params, s: Slice, size: nat, now: nat): (v: Verdict)
    requires ValidParams(p) && s.start <= now
    ensures v.slice.start <= now
    ensures !v.ok ==> v.wait >= 1 && now + v.wait <= v.slice.end
  {
    if NoRule(p) then Verdict(s, true, 0) else
      var r := Renew(p, s, now);
      if WithinBps(p, r, size, now) && WithinIops(p, r, now) then Verdict(r, true, 0)
      else
        var wait := Advised(p, r, size, now);
        Verdict(if r.end < now + wait then Extend(p, r, now + wait) else r, false, wait)
  }

  function Charge(s: Slice, size: nat): (r: Slice) {
    s.(bytes := (s.bytes + size) % U64, ios := s.ios + 1)
  }

  // ---------------------------------------------------------------- whole runs

  /**
   What may happen to a group in one direction.  `Submit` is one bio offered by
   blk_throtl_bio or taken from the queue by throtl_dispatch_tg: when the test
   says yes the bio is charged and the slice trimmed.  `Probe` is the test that
   tg_update_disptime makes for its advised wait.
   */
  datatype Event = Submit(now: nat, size: nat) | Probe(now: nat, size: nat)

  /** The slice and everything dispatched since the run began. */
  datatype Track = Track(slice: Slice, bytes: nat, ios: nat)

  predicate Timed(evs: seq<Event>, from: nat) {
    && (forall i :: 0 <= i < |evs| ==> from <= evs[i].now && evs[i].size < U32)
    && (forall i, j :: 0 <= i < j < |evs| ==> evs[i].now <= evs[j].now)
  }

  function Step(p: Params, t: Track, e: Event): (r: Track)
    requires ValidParams(p) && t.slice.start <= e.now
    ensures r.slice.start <= e.now
  {
    var v := MayDispatch(p, t.slice, e.size, e.now);
    if e.Probe? || !v.ok then t.(slice := v.slice)
    else
      TrimStart(p, Charge(v.slice, e.size), e.now);
      Track(Trim(p, Charge(v.slice, e.size), e.now), t.bytes + e.size, t.ios + 1)
  }

  function Run(p: Params, t: Track, evs: seq<Event>): (r: Track)
    requires ValidParams(p) && Timed(evs, t.slice.start)
    ensures r.slice.start <= LastTime(t, evs)
    decreases |evs|
  {
    if evs == [] then t
    else
      var last := |evs| - 1;
      Step(p, Run(p, t, evs[..last]), evs[last])
  }

  /** When the last event happened, or the slice start before any event. */
  function LastTime(t: Track, evs: seq<Event>): (r: nat) {
    if evs == [] then t.slice.start else evs[|evs| - 1].now
  }

  lemma TrimStart(p: Params, s: Slice, now: nat)
    requires ValidParams(p)
    ensures s.start <= now ==> s.start <= Trim(p, s, now).start <= now
    ensures Trim(p, s, now).bytes <= s.bytes && Trim(p, s, now).ios <= s.ios
    ensures s.start <= now <= s.end ==> now + p.slice <= Trim(p, s, now).end
  {
  }

  /**
   The account of one counter, kept at `rate` units per hz jiffies since t0.
   `total` is everything dispatched and `cur` what the slice still remembers.
   Forgotten units are paid for by the time the slice start has moved, and all
   units are paid for by the end of the slice and by the limit of the last one.
   */
  ghost predicate Account(rate: nat, hz: nat, t0: int, start: int, end: int, limit: int, total: nat, cur: nat) {
    && cur <= total
    && (total - cur) * hz <= rate * (start - t0)
    && total * hz <= rate * (end - t0)
    && total * hz <= rate * (limit - t0)
  }

  lemma AccountRestarts(rate: nat, hz: nat, t0: int, start: int, end: int, limit: int, total: nat, cur: nat,
                        start': int, end': int, limit': int)
    requires Account(rate, hz, t0, start, end, limit, total, cur)
    requires end <= start' <= end' && limit <= limit'
    ensures Account(rate, hz, t0, start', end', limit', total, 0)
  {
    MulMono(rate, end - t0, start' - t0);
    MulMono(rate, end - t0, end' - t0);
    MulMono(rate, limit - t0, limit' - t0);
  }

  lemma AccountExtends(rate: nat, hz: nat, t0: int, start: int, end: int, limit: int, total: nat, cur: nat,
                       end': int, limit': int)
    requires Account(rate, hz, t0, start, end, limit, total, cur)
    requires end <= end' && limit <= limit'
    ensures Account(rate, hz, t0, start, end', limit', total, cur)
  {
    MulMono(rate, end - t0, end' - t0);
    MulMono(rate, limit - t0, limit' - t0);
  }

  lemma AccountCharges(rate: nat, hz: nat, t0: int, start: int, end: int, limit: int, total: nat, cur: nat,
                       n: nat, granted: nat)
    requires Account(rate, hz, t0, start, end, limit, total, cur)
    requires (cur + n) * hz <= rate * granted
    requires start + granted <= limit <= end
    ensures Account(rate, hz, t0, start, end, limit, total + n, cur + n)
  {
    assert (total + n) * hz == (total - cur) * hz + (cur + n) * hz;
    assert rate * (start - t0) + rate * granted == rate * (start + granted - t0);
    MulMono(rate, start + granted - t0, limit - t0);
    MulMono(rate, limit - t0, end - t0);
  }

  lemma AccountTrims(rate: nat, hz: nat, t0: int, start: int, end: int, limit: int, total: nat, cur: nat,
                     dropped: nat, length: nat, end': int)
    requires Account(rate, hz, t0, start, end, limit, total, cur)
    requires dropped * hz <= rate * length
    requires limit <= end'
    ensures Account(rate, hz, t0, start + length, end', limit, total, if cur >= dropped then cur - dropped else 0)
  {
    var kept := if cur >= dropped then cur - dropped else 0;
    MulMono(hz, total - kept, total - cur + dropped);
    assert (total - cur + dropped) * hz == (total - cur) * hz + dropped * hz;
    assert rate * (start - t0) + rate * length == rate * (start + length - t0);
    MulMono(rate, limit - t0, end' - t0);
  }

  /** What every run keeps, measured from t0; `limit` is one interval past the last event. */
  ghost predicate Paid(p: Params, t0: nat, limit: nat, t: Track)
  {
    && t.slice.start <= t.slice.end
    && t.slice.bytes * p.hz < U64
    && Account(p.bps, p.hz, t0, t.slice.start, t.slice.end, limit, t.bytes, t.slice.bytes)
    && Account(p.iops, p.hz, t0, t.slice.start, t.slice.end, limit, t.ios, t.slice.ios)
  }

  lemma RenewPaid(p: Params, t0: nat, limit: nat, t: Track, now: nat)
    requires ValidParams(p) && Paid(p, t0, limit, t)
    requires t.slice.start <= now && limit <= now + p.slice
    ensures Paid(p, t0, now + p.slice, t.(slice := Renew(p, t.slice, now)))
  {
    var s, r := t.slice, Renew(p, t.slice, now);
    if SliceUsed(s, now) {
      AccountRestarts(p.bps, p.hz, t0, s.start, s.end, limit, t.bytes, s.bytes, r.start, r.end, now + p.slice);
      AccountRestarts(p.iops, p.hz, t0, s.start, s.end, limit, t.ios, s.ios, r.start, r.end, now + p.slice);
    } else {
      AccountExtends(p.bps, p.hz, t0, s.start, s.end, limit, t.bytes, s.bytes, r.end, now + p.slice);
      AccountExtends(p.iops, p.hz, t0, s.start, s.end, limit, t.ios, s.ios, r.end, now + p.slice);
    }
  }

  lemma MayDispatchPaid(p: Params, t0: nat, limit: nat, t: Track, size: nat, now: nat)
    requires ValidParams(p) && !NoRule(p) && Paid(p, t0, limit, t)
    requires t.slice.start <= now && limit <= now + p.slice
    ensures Paid(p, t0, now + p.slice, t.(slice := MayDispatch(p, t.slice, size, now).slice))
  {
    RenewPaid(p, t0, limit, t, now);
    var r, v := Renew(p, t.slice, now), MayDispatch(p, t.slice, size, now);
    AccountExtends(p.bps, p.hz, t0, r.start, r.end, now + p.slice, t.bytes, r.bytes, v.slice.end, now + p.slice);
    AccountExtends(p.iops, p.hz, t0, r.start, r.end, now + p.slice, t.ios, r.ios, v.slice.end, now + p.slice);
  }

  /** The 64-bit sum in the byte test does not wrap, so an admitted bio really fits. */
  lemma AdmittedFits(p: Params, s: Slice, size: nat, now: nat)
    requires ValidParams(p) && s.start <= now && size < U32
    requires s.bytes * p.hz < U64
    requires WithinBps(p, s, size, now) && WithinIops(p, s, now)
    ensures Charge(s, size).bytes == s.bytes + size
    ensures (s.bytes + size) * p.hz <= p.bps * ElapsedRnd(p, s, now)
    ensures (s.bytes + size) * p.hz < U64
    ensures (s.ios + 1) * p.hz <= p.iops * ElapsedRnd(p, s, now)
  {
    HalfBound(s.bytes, p.hz);
    ModLe(s.bytes + size, U64);
    QuotaFits(s.bytes + size, p.bps * ElapsedRnd(p, s, now), U64, p.hz);
    QuotaFits(s.ios + 1, p.iops * ElapsedRnd(p, s, now), U64, p.hz);
  }

  lemma HalfBound(x: nat, hz: nat)
    requires hz >= 2 && x * hz < U64
    ensures 2 * x < U64
  {
    MulMono(x, 2, hz);
  }

  lemma SubmitPaid(p: Params, t0: nat, t: Track, size: nat, now: nat)
    requires ValidParams(p) && size < U32 && t.slice.start <= now
    requires now + p.slice <= t.slice.end
    requires Paid(p, t0, now + p.slice, t)
    requires WithinBps(p, t.slice, size, now) && WithinIops(p, t.slice, now)
    ensures Paid(p, t0, now + p.slice, Track(Trim(p, Charge(t.slice, size), now), t.bytes + size, t.ios + 1))
  {
    var s, limit := t.slice, now + p.slice;
    AdmittedFits(p, s, size, now);
    var granted := ElapsedRnd(p, s, now);
    AccountCharges(p.bps, p.hz, t0, s.start, s.end, limit, t.bytes, s.bytes, size, granted);
    AccountCharges(p.iops, p.hz, t0, s.start, s.end, limit, t.ios, s.ios, 1, granted);
    TrimPaid(p, t0, Track(Charge(s, size), t.bytes + size, t.ios + 1), now);
  }

  lemma TrimPaid(p: Params, t0: nat, t: Track, now: nat)
    requires ValidParams(p) && t.slice.start <= now
    requires Paid(p, t0, now + p.slice, t)
    ensures Paid(p, t0, now + p.slice, t.(slice := Trim(p, t.slice, now)))
  {
    var s, limit := t.slice, now + p.slice;
    if !SliceUsed(s, now) {
      var end', length := RoundUp(now + p.slice, p.slice), NrSlices(p, s, now) * p.slice;
      var bytesTrim, iosTrim := BytesTrim(p, length), IosTrim(p, length);
      TrimStart(p, s, now);
      AccountTrims(p.bps, p.hz, t0, s.start, s.end, limit, t.bytes, s.bytes, 0, 0, end');
      AccountTrims(p.iops, p.hz, t0, s.start, s.end, limit, t.ios, s.ios, 0, 0, end');
      AccountTrims(p.bps, p.hz, t0, s.start, s.end, limit, t.bytes, s.bytes, bytesTrim, length, end');
      AccountTrims(p.iops, p.hz, t0, s.start, s.end, limit, t.ios, s.ios, iosTrim, length, end');
      MulMono(p.hz, Trim(p, s, now).bytes, s.bytes);
    }
  }

  lemma StepPaid(p: Params, t0: nat, limit: nat, t: Track, e: Event)
    requires ValidParams(p) && !NoRule(p) && Paid(p, t0, limit, t)
    requires t.slice.start <= e.now && limit <= e.now + p.slice && e.size < U32
    ensures Paid(p, t0, e.now + p.slice, Step(p, t, e))
  {
    var v := MayDispatch(p, t.slice, e.size, e.now);
    MayDispatchPaid(p, t0, limit, t, e.size, e.now);
    if e.Submit? && v.ok {
      SubmitPaid(p, t0, t.(slice := v.slice), e.size, e.now);
    }
  }

  lemma FreshPaid(p: Params, t: Track)
    requires t == Track(Slice(0, 0, t.slice.start, t.slice.end), 0, 0) && t.slice.start <= t.slice.end
    ensures Paid(p, t.slice.start, t.slice.start + p.slice, t)
  {
    MulMono(p.bps, 0, t.slice.end - t.slice.start);
    MulMono(p.iops, 0, t.slice.end - t.slice.start);
    MulMono(p.bps, 0, p.slice);
    MulMono(p.iops, 0, p.slice);
  }

  lemma PaidBound(p: Params, t0: nat, limit: nat, t: Track, limit': nat)
    requires Paid(p, t0, limit, t) && limit <= limit'
    ensures t.bytes * p.hz <= p.bps * (limit' - t0)
    ensures t.ios * p.hz <= p.iops * (limit' - t0)
  {
    MulMono(p.bps, limit - t0, limit' - t0);
    MulMono(p.iops, limit - t0, limit' - t0);
  }

  lemma {:induction false} RunPaid(p: Params, t: Track, evs: seq<Event>)
    requires ValidParams(p) && !NoRule(p)
    requires t == Track(Slice(0, 0, t.slice.start, t.slice.end), 0, 0) && t.slice.start <= t.slice.end
    requires Timed(evs, t.slice.start)
    ensures Paid(p, t.slice.start, LastTime(t, evs) + p.slice, Run(p, t, evs))
    decreases |evs|
  {
    if evs == [] {
      FreshPaid(p, t);
    } else {
      var before := evs[..|evs| - 1];
      RunPaid(p, t, before);
      StepPaid(p, t.slice.start, LastTime(t, before) + p.slice, Run(p, t, before), evs[|evs| - 1]);
    }
  }

  /**
   The rate bound.  Through any mix of direct dispatch, queued dispatch,
   trimming, extension and renewal, what a direction dispatches from the start
   of its first slice up to any time is at most what the limits grant for that
   time plus one interval.
   */
  lemma RateBound(p: Params, t: Track, evs: seq<Event>, now: nat)
    requires ValidParams(p) && !NoRule(p)
    requires t == Track(Slice(0, 0, t.slice.start, t.slice.end), 0, 0) && t.slice.start <= t.slice.end
    requires Timed(evs, t.slice.start) && LastTime(t, evs) <= now
    ensures Run(p, t, evs).bytes * p.hz <= p.bps * (now - t.slice.start + p.slice)
    ensures Run(p, t, evs).ios * p.hz <= p.iops * (now - t.slice.start + p.slice)
  {
    hide Run, Paid, Timed, ValidParams;
    RunPaid(p, t, evs);
    PaidBound(p, t.slice.start, LastTime(t, evs) + p.slice, Run(p, t, evs), now + p.slice);
  }

  /** A group as throtl_alloc_tg zeroes it: its first slice starts at its first event. */
  lemma {:induction false} FreshGroupRun(p: Params, evs: seq<Event>)
    requires ValidParams(p) && !NoRule(p) && |evs| > 0 && Timed(evs, 1)
    ensures Run(p, Track(Slice(0, 0, 0, 0), 0, 0), evs)
         == Run(p, Track(StartNewSlice(p, evs[0].now), 0, 0), evs)
    decreases |evs|
  {
    var zero, first := Track(Slice(0, 0, 0, 0), 0, 0), Track(StartNewSlice(p, evs[0].now), 0, 0);
    var before := evs[..|evs| - 1];
    if |evs| == 1 {
      assert before == [];
      assert MayDispatch(p, zero.slice, evs[0].size, evs[0].now) == MayDispatch(p, first.slice, evs[0].size, evs[0].now);
    } else {
      FreshGroupRun(p, before);
    }
  }

  lemma RateBoundOfFreshGroup(p: Params, evs: seq<Event>, now: nat)
    requires ValidParams(p) && !NoRule(p) && |evs| > 0 && Timed(evs, 1) && evs[|evs| - 1].now <= now
    ensures var r := Run(p, Track(Slice(0, 0, 0, 0), 0, 0), evs);
            && r.bytes * p.hz <= p.bps * (now - evs[0].now + p.slice)
            && r.ios * p.hz <= p.iops * (now - evs[0].now + p.slice)
  {
    FreshGroupRun(p, evs);
    RateBound(p, Track(StartNewSlice(p, evs[0].now), 0, 0), evs, now);
  }
}
