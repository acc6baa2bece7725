/**
 Absolute deadlines and relative waits: ptw32_relmillisecs and
 pthread_win32_getabstime_np of ptw32_relmillisecs.c, in the branch that reads a
 millisecond clock. The clock is a parameter.
 */
module Timeouts {

  const NANOSEC_PER_SEC: int := 1_000_000_000
  const NANOSEC_PER_MILLISEC: int := 1_000_000
  const MILLISEC_PER_SEC: int := 1000
  const INFINITE: int := 0xFFFF_FFFF

  datatype Timespec = Timespec(sec: int, nsec: int)

  /** A clock reading: seconds and milliseconds within the second. */
  datatype Clock = Clock(time: int, millitm: int)

  /** Division as in C, toward zero. */
  function Quotient(a: int, b: int): int
    requires b > 0
  {
    if a >= 0 then a / b else -(-a / b)
  }

  /** Conversion to an unsigned 32-bit DWORD. */
  function Dword(i: int): int
  {
    i % 0x1_0000_0000
  }

  function AbsMilliseconds(t: Timespec): int
  {
    t.sec * MILLISEC_PER_SEC + Quotient(t.nsec + NANOSEC_PER_MILLISEC / 2, NANOSEC_PER_MILLISEC)
  }

  function Nanoseconds(t: Timespec): int
  {
    t.nsec + t.sec * NANOSEC_PER_SEC
  }

  function ClockMilliseconds(now: Clock): int
  {
    now.time * MILLISEC_PER_SEC + now.millitm
  }

  /** How far the deadline lies ahead of the clock, in nanoseconds. */
  function Gap(t: Timespec, now: Clock): int
  {
    Nanoseconds(t) - ClockMilliseconds(now) * NANOSEC_PER_MILLISEC
  }

  function RelMillisecs(abstime: Timespec, now: Clock): int
  {
    var absMs, nowMs := AbsMilliseconds(abstime), ClockMilliseconds(now);
    var ms :=
      if absMs > nowMs then
        var d := Dword(absMs - nowMs);
        if d == INFINITE then d - 1 else d
      else 0;
    if ms == 0 && Nanoseconds(abstime) > nowMs * NANOSEC_PER_MILLISEC then 1 else ms
  }

  function GetAbsTime(relative: Timespec, now: Clock): Timespec
  {
    var nsec := now.millitm * NANOSEC_PER_MILLISEC + relative.nsec;
    if nsec >= NANOSEC_PER_SEC
    then Timespec(now.time + 1 + relative.sec, nsec - NANOSEC_PER_SEC)
    else Timespec(now.time + relative.sec, nsec)
  }

  /** Within half a millisecond of the gap, except that smaller positive gaps become 1. */
  predicate Accurate(ms: int, gap: int)
  {
    || 2 * gap - NANOSEC_PER_MILLISEC <= 2 * ms * NANOSEC_PER_MILLISEC <= 2 * gap + NANOSEC_PER_MILLISEC
    || (ms == 1 && 0 < 2 * gap < NANOSEC_PER_MILLISEC)
  }

  /** The rounded gap that the code computes, seen from the gap itself. */
  lemma RoundedGap(abstime: Timespec, now: Clock) returns (d: int)
    requires 0 <= abstime.nsec
    ensures d == AbsMilliseconds(abstime) - ClockMilliseconds(now)
    ensures 2 * d * NANOSEC_PER_MILLISEC <= 2 * Gap(abstime, now) + NANOSEC_PER_MILLISEC
    ensures 2 * Gap(abstime, now) + NANOSEC_PER_MILLISEC < 2 * (d + 1) * NANOSEC_PER_MILLISEC
  {
    d := AbsMilliseconds(abstime) - ClockMilliseconds(now);
  }

  /** The wait is never INFINITE, and it is positive exactly if the deadline is strictly later. */
  lemma WaitIsFinite(abstime: Timespec, now: Clock)
    requires 0 <= abstime.nsec
    ensures 0 <= RelMillisecs(abstime, now) < INFINITE
    ensures RelMillisecs(abstime, now) > 0 <==> Gap(abstime, now) > 0
  {
    var d := RoundedGap(abstime, now);
  }

  /**
   The wait is accurate exactly for the deadlines that are not further ahead than a 32-bit
   count of milliseconds other than INFINITE can say: the conversion to DWORD wraps.
   */
  lemma WaitIsAccurate(abstime: Timespec, now: Clock)
    requires 0 <= abstime.nsec && Gap(abstime, now) > 0
    ensures Accurate(RelMillisecs(abstime, now), Gap(abstime, now))
            <==> 2 * Gap(abstime, now) <= (2 * (INFINITE - 1) + 1) * NANOSEC_PER_MILLISEC
  {
    var d := RoundedGap(abstime, now);
    WaitIsFinite(abstime, now);
    if 0 <= d < 0x1_0000_0000 {
      assert Dword(d) == d;
    }
  }

  /** A deadline made from an interval lies exactly that interval ahead and is normalised. */
  lemma AbsTimeIsAhead(relative: Timespec, now: Clock)
    requires 0 <= relative.nsec < NANOSEC_PER_SEC && 0 <= now.millitm < MILLISEC_PER_SEC
    ensures Gap(GetAbsTime(relative, now), now) == Nanoseconds(relative)
    ensures 0 <= GetAbsTime(relative, now).nsec < NANOSEC_PER_SEC
  {
  }

  /** Round trip: an interval of whole milliseconds, made absolute and relative again, is itself. */
  lemma IntervalRoundTrip(ms: nat, now: Clock)
    requires 0 < ms < INFINITE && 0 <= now.millitm < MILLISEC_PER_SEC
    ensures var relative := Timespec(ms / MILLISEC_PER_SEC, ms % MILLISEC_PER_SEC * NANOSEC_PER_MILLISEC);
            RelMillisecs(GetAbsTime(relative, now), now) == ms
  {
    var relative := Timespec(ms / MILLISEC_PER_SEC, ms % MILLISEC_PER_SEC * NANOSEC_PER_MILLISEC);
    AbsTimeIsAhead(relative, now);
    var t := GetAbsTime(relative, now);
    assert Nanoseconds(relative) == ms * NANOSEC_PER_MILLISEC;
    var d := RoundedGap(t, now);
    assert d == ms;
  }
}
