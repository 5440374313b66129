/** Quota observations and the test for an idle five-hour window. */
module Quota {
  import opened Clock

  const FIVE_HOURS: int := 18_000_000_000_000
  const FIVE_HOUR_MINUTES: int := 300
  const WEEKLY_MINUTES: int := 10_080
  const CONFIRM_WAIT: int := 3_000_000_000 // 3 seconds
  const MAX_GAP: int := 30_000_000_000 // 30 seconds
  const MAX_INITIAL_AGE: int := 10_000_000_000 // 10 seconds

  datatype Window = Window(minutes: int, usedPercent: real, resetAt: Time)

  datatype Observation = Observation(checkedAt: Time, fiveHour: Window, weekly: Window, allowed: bool)

  /** What the call limiter says about warming an account. */
  datatype WarmReason = Clear | RollingLimit | RecentPrewarm

  datatype CandidateReason = Candidate | WeeklyBelowThreshold | UpstreamDisallowed | ActiveFiveHourWindow

  function QuotaCandidateReason(o: Observation): CandidateReason {
    if o.weekly.usedPercent >= 95.0 then WeeklyBelowThreshold
    else if !o.allowed then UpstreamDisallowed
    else if o.fiveHour.usedPercent != 0.0 then ActiveFiveHourWindow
    else Candidate
  }

  /** The tests in their order: too little of the week left, then not allowed, then a used window. */
  lemma CandidateReasonIsExact(o: Observation)
    ensures var left := 100.0 - o.weekly.usedPercent;
            var reason := QuotaCandidateReason(o);
            && (reason.WeeklyBelowThreshold? <==> left <= 5.0)
            && (reason.UpstreamDisallowed? <==> left > 5.0 && !o.allowed)
            && (reason.ActiveFiveHourWindow? <==> left > 5.0 && o.allowed && o.fiveHour.usedPercent != 0.0)
  {
  }

  predicate PlausibleIdleReset(o: Observation) {
    4 * HOUR + 59 * MINUTE <= o.fiveHour.resetAt - o.checkedAt <= 5 * HOUR + MINUTE
  }

  predicate ConfirmedIdle(first: Observation, second: Observation) {
    var delta := second.checkedAt - first.checkedAt;
    && first.fiveHour.usedPercent == 0.0 && second.fiveHour.usedPercent == 0.0
    && first.allowed && second.allowed
    && first.weekly.usedPercent < 95.0 && second.weekly.usedPercent < 95.0
    && 2 * SECOND <= delta <= MAX_GAP
    && PlausibleIdleReset(first) && PlausibleIdleReset(second)
    && second.fiveHour.resetAt - first.fiveHour.resetAt >= delta - 2 * SECOND
  }

  /** How the upstream reports an idle account: a reset five hours after the whole second of the
      observation, which therefore moves with the clock. */
  predicate ResetFollowsClock(o: Observation) {
    o.fiveHour.resetAt == o.checkedAt / SECOND * SECOND + FIVE_HOURS
  }

  /** What each observation of a confirmed idle account shows: it is allowed, its five-hour window is unused and
      ends in five hours, give or take a minute, and more than five percent of its week are left. */
  predicate LooksIdle(o: Observation) {
    var left := o.fiveHour.resetAt - (o.checkedAt + FIVE_HOURS);
    o.allowed && o.fiveHour.usedPercent == 0.0 && 100.0 - o.weekly.usedPercent > 5.0 && -MINUTE <= left <= MINUTE
  }

  /** For resets that follow the clock the test is exact: it accepts if and only if both
      observations pass the quota gates and lie 2 to 30 seconds apart. */
  lemma IdleAccountIsAccepted(first: Observation, second: Observation)
    requires ResetFollowsClock(first) && ResetFollowsClock(second)
    ensures ConfirmedIdle(first, second) <==>
              && QuotaCandidateReason(first) == Candidate && QuotaCandidateReason(second) == Candidate
              && 2 * SECOND <= second.checkedAt - first.checkedAt <= MAX_GAP
  {
  }

  /** A window with a fixed reset passes only at the boundary of exactly two seconds ... */
  lemma FixedResetPassesOnlyAtTwoSeconds(first: Observation, second: Observation)
    requires first.fiveHour.resetAt == second.fiveHour.resetAt
    ensures ConfirmedIdle(first, second) ==> second.checkedAt - first.checkedAt == 2 * SECOND
    ensures second.checkedAt - first.checkedAt >= CONFIRM_WAIT ==> !ConfirmedIdle(first, second)
  {
  }

  /** ... and there it does pass, so the three-second wait is needed. */
  lemma FixedResetPassesAtTwoSeconds(first: Observation, second: Observation)
    requires first == Observation(100 * SECOND, Window(300, 0.0, 100 * SECOND
              + FIVE_HOURS), Window(10_080, 10.0, 0), true)
    requires second == first.(checkedAt := 102 * SECOND)
    ensures ConfirmedIdle(first, second) && first.fiveHour.resetAt == second.fiveHour.resetAt
  {
  }

  /** What the upstream may report for one window: a reset in whole seconds and the seconds left. */
  datatype UsageWindow = Missing | Usage(usedPercent: real, resetAfterSeconds: int, resetAt: int)

  datatype ParsedWindow = Invalid | Valid(window: Window)

  function AbsInt(x: int): nat {
    if x < 0 then -x else x
  }

  function UsageQuotaWindow(input: UsageWindow, minutes: int, now: Time): ParsedWindow {
    match input
    case Missing => Invalid
    case Usage(used, seconds, unix) =>
      var limit := minutes * 60;
      var nowUnix := now / SECOND;
      if used < 0.0 || used > 100.0 || seconds < 0 || seconds > limit + 60
         || unix < nowUnix - 60 || unix > nowUnix + limit + 60 then Invalid
      else if AbsInt(unix - nowUnix - seconds) > 60 then Invalid
      else Valid(Window(minutes, used, unix * SECOND))
  }

  /** A report is accepted if and only if its numbers are in range, its reset lies between a minute ago and a
      minute after the end of the window, and agrees with the seconds left within a minute; all of it counted
      from the whole second of `now`. */
  lemma AcceptanceIsExact(usedPercent: real, secondsLeft: int, resetUnix: int, minutes: int, now: Time)
    ensures UsageQuotaWindow(Missing, minutes, now) == Invalid
    ensures var second, reset := now - now % SECOND, resetUnix * SECOND;
            var parsed := UsageQuotaWindow(Usage(usedPercent, secondsLeft, resetUnix), minutes, now);
            && (parsed.Valid? <==>
                  && 0.0 <= usedPercent <= 100.0 && 0 <= secondsLeft * SECOND <= (minutes + 1) * MINUTE
                  && second - MINUTE <= reset <= second + (minutes + 1) * MINUTE
                  && -MINUTE <= reset - (second + secondsLeft * SECOND) <= MINUTE)
            && (parsed.Valid? ==> parsed.window == Window(minutes, usedPercent, reset))
  {
    assert now == now / SECOND * SECOND + now % SECOND;
  }

  /** Every accepted window carries a whole-second reset near the one implied by the seconds left. */
  lemma AcceptedWindowIsConsistent(input: UsageWindow, minutes: int, now: Time)
    requires UsageQuotaWindow(input, minutes, now).Valid?
    ensures var w := UsageQuotaWindow(input, minutes, now).window;
            && w.minutes == minutes && 0.0 <= w.usedPercent <= 100.0 && w.resetAt % SECOND == 0
            && -61 * SECOND < w.resetAt - now <= (minutes * 60 + 60) * SECOND
            && AbsInt(w.resetAt - (now + input.resetAfterSeconds * SECOND)) < 61 * SECOND
  {
    var nowUnix := now / SECOND;
    assert nowUnix * SECOND <= now < nowUnix * SECOND + SECOND;
  }
}
