/** `confirmIdleAfterSpacing`: spacing first, then the final pair of observations. */
module Idle {
  import opened Clock
  import opened Options
  import opened Quota
  import opened Host

  datatype IdleReason =
    | Accepted
    | Interrupted
    | FetchError
    | WriteFailed
    | Rejected(reason: CandidateReason)
    | NotConfirmed

  ghost predicate SavedSince(trace: seq<Event>, start: nat, account: string, observation: Observation) {
    exists i :: start <= i < |trace| && trace[i] == Saved(account, observation)
  }

  predicate IsEvidenceStep(e: Event) {
    e.Fetched? || e.FetchFailed? || e.Saved? || e.SaveFailed? || e.Waited?
  }

  /** From `before` to `after` the run only queried, saved and waited. */
  ghost predicate OnlyEvidence(before: seq<Event>, after: seq<Event>) {
    before <= after && forall i :: |before| <= i < |after| ==> IsEvidenceStep(after[i])
  }

  predicate LastIs(trace: seq<Event>, e: Event) {
    |trace| > 0 && trace[|trace| - 1] == e
  }

  /** The middle of `confirmIdleAfterSpacing`: an initial observation older than ten seconds is
      replaced by a saved fresh one.  The verdict is `Accepted` when the candidate still stands. */
  method RefreshIfOld(world: World, account: string, first: Observation)
    returns (observation: Observation, reason: IdleReason, ghost earlier: Observation)
    requires first.checkedAt <= world.clock
    modifies world
    ensures OnlyEvidence(old(world.trace), world.trace)
    ensures world.MovesOn()
    ensures reason.WriteFailed? ==> old(world.writeFailures) < world.writeFailures
    ensures earlier == first || SavedSince(world.trace, |old(world.trace)|, account, earlier)
    ensures reason.Accepted? ==> earlier == observation && observation.checkedAt <= world.clock
    ensures reason.Accepted? ==>
              if old(world.clock) - first.checkedAt > MAX_INITIAL_AGE
              then old(world.clock) <= observation.checkedAt && LastIs(world.trace, Saved(account, observation))
                   && QuotaCandidateReason(observation) == Candidate
              else observation == first && world.trace == old(world.trace)
    ensures reason.FetchError? ==> LastIs(world.trace, FetchFailed(account))
    ensures reason.WriteFailed? ==> LastIs(world.trace, SaveFailed(account))
    ensures reason.Rejected? ==> reason.reason == QuotaCandidateReason(observation) != Candidate
                                 && LastIs(world.trace, Saved(account, observation))
    ensures !reason.Interrupted? && !reason.NotConfirmed?
  {
    if world.clock - first.checkedAt > MAX_INITIAL_AGE {
      var refreshed := world.Fetch(account);
      if refreshed.None? {
        return first, FetchError, first;
      }
      var ok := world.SaveQuota(account, refreshed.value);
      if !ok {
        return refreshed.value, WriteFailed, first;
      }
      assert world.trace[|world.trace| - 1] == Saved(account, refreshed.value);
      var candidate := QuotaCandidateReason(refreshed.value);
      if candidate != Candidate {
        return refreshed.value, Rejected(candidate), refreshed.value;
      }
      return refreshed.value, Accepted, refreshed.value;
    }
    return first, Accepted, first;
  }

  /** The end of `confirmIdleAfterSpacing`: three seconds later the idle reset must have moved. */
  method ConfirmPair(world: World, account: string, first: Observation)
    returns (observation: Observation, reason: IdleReason)
    requires first.checkedAt <= world.clock
    modifies world
    ensures OnlyEvidence(old(world.trace), world.trace)
    ensures world.MovesOn()
    ensures reason.WriteFailed? ==> old(world.writeFailures) < world.writeFailures
    ensures reason.Accepted? || reason.NotConfirmed? ==>
              && (reason.Accepted? <==> ConfirmedIdle(first, observation))
              && observation.checkedAt - first.checkedAt >= CONFIRM_WAIT
              && old(world.clock) <= observation.checkedAt <= world.clock
              && LastIs(world.trace, Saved(account, observation))
    ensures reason.Interrupted? ==> world.stopped
    ensures reason.FetchError? ==> LastIs(world.trace, FetchFailed(account))
    ensures reason.WriteFailed? ==> LastIs(world.trace, SaveFailed(account))
    ensures !reason.Rejected?
  {
    var ok := world.Wait(CONFIRM_WAIT);
    if !ok {
      return first, Interrupted;
    }
    var second := world.Fetch(account);
    if second.None? {
      return first, FetchError;
    }
    ok := world.SaveQuota(account, second.value);
    if !ok {
      return second.value, WriteFailed;
    }
    return second.value, if ConfirmedIdle(first, second.value) then Accepted else NotConfirmed;
  }

  /** Confirms that the five-hour window of `account` is idle.  `earlier` is the first observation of
      the final pair; `observation` is the one handed back. */
  method ConfirmIdleAfterSpacing(world: World, account: string, first: Observation, spacing: int)
    returns (observation: Observation, reason: IdleReason, ghost earlier: Observation)
    requires first.checkedAt <= world.clock
    modifies world
    ensures OnlyEvidence(old(world.trace), world.trace)
    ensures world.MovesOn()
    ensures reason.WriteFailed? ==> old(world.writeFailures) < world.writeFailures
    ensures earlier == first || SavedSince(world.trace, |old(world.trace)|, account, earlier)
    ensures reason.Accepted? || reason.NotConfirmed? ==>
              && (reason.Accepted? <==> ConfirmedIdle(earlier, observation))
              && observation.checkedAt - earlier.checkedAt >= CONFIRM_WAIT
              && old(world.clock) + spacing <= observation.checkedAt <= world.clock
              && LastIs(world.trace, Saved(account, observation))
    // the spacing is waited for first
    ensures |old(world.trace)| < |world.trace| ==> world.trace[|old(world.trace)|] == Waited(spacing)
    ensures |world.trace| == |old(world.trace)| ==> reason.Interrupted?
    ensures reason.Accepted? ==> LooksIdle(earlier) && LooksIdle(observation)
    // an active window, whose reset stands still, is never accepted
    ensures reason.Accepted? ==> earlier.fiveHour.resetAt < observation.fiveHour.resetAt
    // an idle one, whose reset follows the clock, is rejected only by a gate or a gap over 30 seconds
    ensures reason.NotConfirmed? && ResetFollowsClock(earlier) && ResetFollowsClock(observation) ==>
              || QuotaCandidateReason(earlier) != Candidate || QuotaCandidateReason(observation) != Candidate
              || observation.checkedAt - earlier.checkedAt > MAX_GAP
    // every other verdict has its cause
    ensures reason.Interrupted? ==> world.stopped
    ensures reason.FetchError? ==> LastIs(world.trace, FetchFailed(account))
    ensures reason.WriteFailed? ==> LastIs(world.trace, SaveFailed(account))
    ensures reason.Rejected? ==> reason.reason == QuotaCandidateReason(observation) != Candidate
                                 && LastIs(world.trace, Saved(account, observation))
  {
    var ok := world.Wait(spacing);
    if !ok {
      return first, Interrupted, first;
    }
    observation, reason, earlier := RefreshIfOld(world, account, first);
    if !reason.Accepted? {
      return;
    }
    ghost var refreshed := world.trace;
    observation, reason := ConfirmPair(world, account, observation);
    SavedSinceGrows(refreshed, world.trace, |old(world.trace)|, account, earlier);
    if reason.NotConfirmed? && ResetFollowsClock(earlier) && ResetFollowsClock(observation) {
      IdleAccountIsAccepted(earlier, observation);
    }
  }

  lemma SavedSinceGrows(before: seq<Event>, after: seq<Event>, start: nat, account: string, observation: Observation)
    requires before <= after
    ensures SavedSince(before, start, account, observation) ==> SavedSince(after, start, account, observation)
  {
    if i :| start <= i < |before| && before[i] == Saved(account, observation) {
      assert after[i] == Saved(account, observation);
    }
  }
}
