/** Searching the cron schedule, and coalescing quota slots with prewarm slots. */
module Planning {
  import opened Clock
  import opened Options

  const SEARCH_BACK: int := 25 * HOUR
  const HORIZON: int := 5 * 365 * DAY // how far the cron library looks ahead, at least
  const MAX_SKIPPED: nat := 64

  /** A cron schedule, known by its `Next`: the least firing strictly after an instant, or zero. */
  datatype Cron = Cron(next: Time -> Time)

  predicate Fires(cron: Cron, at: Time) {
    at != ZERO && cron.next(at - 1) == at
  }

  /** Firings are whole minutes; `next` answers the least one, and zero only if none is near. */
  ghost predicate Valid(cron: Cron) {
    && (forall c :: cron.next(c) != ZERO ==>
          c < cron.next(c) && Fires(cron, cron.next(c)) && cron.next(c) % MINUTE == 0)
    && (forall c, at :: Fires(cron, at) && c < at && (cron.next(c) != ZERO || at <= c + HORIZON) ==>
          ZERO != cron.next(c) <= at)
  }

  /** `latestCronSlot`: the greatest firing of the last 25 hours, or zero. */
  method LatestCronSlot(cron: Cron, now: Time) returns (latest: Time, ghost steps: nat)
    requires Valid(cron)
    ensures latest == ZERO ==> forall at :: Fires(cron, at) && now - SEARCH_BACK < at ==> now < at
    ensures latest != ZERO ==>
              && Fires(cron, latest) && now - SEARCH_BACK < latest <= now
              && forall at :: Fires(cron, at) && latest < at ==> now < at
    ensures steps <= 1500
  {
    latest, steps := ZERO, 0;
    var cursor := now - SEARCH_BACK;
    while true
      invariant now - SEARCH_BACK <= cursor <= now
      invariant if latest == ZERO then cursor == now - SEARCH_BACK && steps == 0
                else latest == cursor && Fires(cron, latest) && latest % MINUTE == 0
                     && now - SEARCH_BACK < latest && now - SEARCH_BACK + (steps - 1) * MINUTE < latest
      decreases now - cursor
    {
      var next := cron.next(cursor);
      if next == ZERO || next > now {
        forall at | Fires(cron, at) && cursor < at
          ensures now < at
        {
          assert next != ZERO ==> next <= at;
        }
        return;
      }
      MinutesApart(cron, cursor, latest);
      latest := next;
      cursor := next;
      steps := steps + 1;
    }
  }

  lemma MinutesApart(cron: Cron, cursor: Time, latest: Time)
    requires Valid(cron) && cron.next(cursor) != ZERO && (latest == cursor ==> latest % MINUTE == 0)
    ensures latest == cursor ==> latest + MINUTE <= cron.next(cursor)
  {
  }

  // ----- coalescing -----

  /** The jobs that run in any case; `automatic` is the switch of all prewarm jobs. */
  datatype Schedules = Schedules(automatic: bool, jobs: seq<Cron>)

  ghost predicate AllValid(cfg: Schedules) {
    forall i :: 0 <= i < |cfg.jobs| ==> Valid(cfg.jobs[i])
  }

  /** Some prewarm job fires at this instant. */
  predicate Covered(cfg: Schedules, base: Time) {
    cfg.automatic && exists i :: 0 <= i < |cfg.jobs| && Fires(cfg.jobs[i], base)
  }

  /** Asking from one minute earlier is enough to know whether a job fires at a whole minute. */
  lemma MinuteBefore(cron: Cron, base: Time)
    requires Valid(cron) && base % MINUTE == 0 && base != ZERO
    ensures cron.next(base - MINUTE) == base <==> Fires(cron, base)
  {
    if Fires(cron, base) {
      assert ZERO != cron.next(base - MINUTE) <= base;
    }
  }

  /** `quotaCoveredByPrewarm`. */
  method QuotaCoveredByPrewarm(cfg: Schedules, base: Time) returns (covered: bool)
    requires AllValid(cfg) && base % MINUTE == 0 && base != ZERO
    ensures covered <==> Covered(cfg, base)
  {
    if !cfg.automatic {
      return false;
    }
    var i := 0;
    while i < |cfg.jobs|
      invariant 0 <= i <= |cfg.jobs|
      invariant forall j :: 0 <= j < i ==> !Fires(cfg.jobs[j], base)
    {
      MinuteBefore(cfg.jobs[i], base);
      if cfg.jobs[i].next(base - MINUTE) == base {
        return true;
      }
      i := i + 1;
    }
    return false;
  }

  /** The k-th candidate of a quota job: the base, and then firing after firing. */
  function Candidate(quota: Cron, base: Time, k: nat): Time {
    if k == 0 then base
    else
      var before := Candidate(quota, base, k - 1);
      if before == ZERO then ZERO else quota.next(before)
  }

  ghost predicate CoveredUpTo(cfg: Schedules, quota: Cron, base: Time, k: nat) {
    forall i: nat :: i < k ==> Candidate(quota, base, i) != ZERO && Covered(cfg, Candidate(quota, base, i))
  }

  lemma NothingSkipped(cfg: Schedules, quota: Cron, base: Time)
    ensures CoveredUpTo(cfg, quota, base, 0)
  {
  }

  lemma OneMoreCovered(cfg: Schedules, quota: Cron, base: Time, k: nat)
    requires CoveredUpTo(cfg, quota, base, k)
    requires Candidate(quota, base, k) != ZERO && Covered(cfg, Candidate(quota, base, k))
    ensures CoveredUpTo(cfg, quota, base, k + 1)
  {
    hide Covered, Candidate;
  }

  lemma NextIsWholeMinute(cron: Cron, at: Time)
    requires Valid(cron)
    ensures cron.next(at) % MINUTE == 0
  {
  }

  /** The loop of `planSlot` for a quota job: the base to plan, or nothing. */
  method Coalesce(cfg: Schedules, quota: Cron, base: Time) returns (planned: Option<Time>, skipped: nat)
    requires AllValid(cfg) && Valid(quota) && base % MINUTE == 0
    ensures CoveredUpTo(cfg, quota, base, skipped)
    ensures planned.Some? ==>
              && skipped <= MAX_SKIPPED && planned.value == Candidate(quota, base, skipped)
              && (planned.value == ZERO || !Covered(cfg, planned.value))
    ensures planned.None? ==> skipped == MAX_SKIPPED + 1
  {
    hide Valid, Covered, CoveredUpTo;
    var at := base;
    var count := 0;
    NothingSkipped(cfg, quota, base);
    while true
      invariant count <= MAX_SKIPPED && at == Candidate(quota, base, count) && at % MINUTE == 0
      invariant CoveredUpTo(cfg, quota, base, count)
      decreases MAX_SKIPPED - count
    {
      if at == ZERO {
        return Some(at), count;
      }
      var covered := QuotaCoveredByPrewarm(cfg, at);
      if !covered {
        return Some(at), count;
      }
      OneMoreCovered(cfg, quota, base, count);
      if count >= MAX_SKIPPED {
        return None, count + 1;
      }
      NextIsWholeMinute(quota, at);
      at := quota.next(at);
      count := count + 1;
    }
  }

  /** The candidates are all quota firings from the base on, in order: none lies between them. */
  lemma {:induction false} CandidatesAreComplete(quota: Cron, base: Time, k: nat, at: Time)
    requires Valid(quota) && Fires(quota, at) && base <= at
    requires Candidate(quota, base, k) != ZERO && at < Candidate(quota, base, k)
    ensures exists i: nat :: i < k && Candidate(quota, base, i) == at
    decreases k
  {
    if k > 0 {
      var before := Candidate(quota, base, k - 1);
      if at < before {
        CandidatesAreComplete(quota, base, k - 1, at);
      } else {
        assert before < at ==> quota.next(before) <= at;
        assert Candidate(quota, base, k - 1) == at;
      }
    }
  }

  /** So the planned slot is the first quota firing at or after the base that no prewarm slot covers:
      every earlier one is covered. */
  lemma NoUncoveredFiringIsSkipped(cfg: Schedules, quota: Cron, base: Time, k: nat, at: Time)
    requires Valid(quota) && CoveredUpTo(cfg, quota, base, k)
    requires Fires(quota, at) && base <= at && Candidate(quota, base, k) != ZERO && at < Candidate(quota, base, k)
    ensures Covered(cfg, at)
  {
    CandidatesAreComplete(quota, base, k, at);
    var i: nat :| i < k && Candidate(quota, base, i) == at;
    assert Covered(cfg, Candidate(quota, base, i));
  }

  /** The hours of the jobs: prewarm slots only in schedule hours, quota slots at any time. */
  predicate InScheduleHour(offset: int, at: Time) {
    5 <= LocalHour(offset, at) <= 23
  }

  /** Which base `planSlot` goes on with. */
  method BaseToPlan(cfg: Schedules, cron: Cron, quotaOnly: bool, offset: int,
        base: Time) returns (planned: Option<Time>)
    requires AllValid(cfg) && Valid(cron) && base % MINUTE == 0
    ensures planned.Some? && !quotaOnly ==> planned.value == base != ZERO && InScheduleHour(offset, base)
    ensures planned.Some? && quotaOnly ==>
              && planned.value != ZERO && !Covered(cfg, planned.value)
              && (planned.value == base || (base < planned.value && Fires(cron, planned.value)))
              && forall at :: Fires(cron, at) && base <= at < planned.value ==> Covered(cfg, at)
    ensures planned.None? && !quotaOnly ==> base == ZERO || !InScheduleHour(offset, base)
    ensures planned.None? && quotaOnly ==>
              CoveredUpTo(cfg, cron, base, MAX_SKIPPED + 1)
              || exists k: nat :: Candidate(cron, base, k) == ZERO && CoveredUpTo(cfg, cron, base, k)
  {
    if !quotaOnly {
      return if base == ZERO || !InScheduleHour(offset, base) then None else Some(base);
    }
    var k;
    planned, k := Coalesce(cfg, cron, base);
    if planned == Some(ZERO) {
      planned := None;
    } else if planned.Some? {
      CandidatesGrow(cron, base, k);
      forall at | Fires(cron, at) && base <= at < planned.value
        ensures Covered(cfg, at)
      {
        NoUncoveredFiringIsSkipped(cfg, cron, base, k, at);
      }
    }
  }

  lemma {:induction false} CandidatesGrow(quota: Cron, base: Time, k: nat)
    requires Valid(quota) && Candidate(quota, base, k) != ZERO
    ensures k > 0 ==> base < Candidate(quota, base, k) && Fires(quota, Candidate(quota, base, k))
  {
    if k > 1 {
      CandidatesGrow(quota, base, k - 1);
    }
  }
}
