/** `executeRun`: which accounts a run calls, when, and what its record says. */
module ExecuteRun {
  import opened Clock
  import opened Options
  import opened Quota
  import opened Host
  import opened Idle
  import opened ModelCalls

  datatype Settings = Settings(
    expected: int, // 0: any number of accounts
    spacing: int,
    allowlist: seq<string>,
    dryRun: bool,
    fallbackModel: string,
    retryCount: nat)

  datatype RunRequest = RunRequest(model: string, target: Option<string>, readOnly: bool, observeOnly: bool)

  /** Why an account is not called. */
  datatype Reason =
    | Proceed
    | RunInterrupted
    | FirstQueryFailed
    | ConfirmationFailed
    | StateWriteFailed
    | Gate(gate: CandidateReason)
    | Limited(limit: WarmReason)
    | NotSelected
    | NotConfirmedIdle
    | RefreshOnly
    | ObservedOnly
    | DryRun

  datatype Handling = SkippedFor(reason: Reason) | FailedFor(reason: Reason) | CalledModel(result: ModelResult)

  datatype AccountResult = AccountResult(account: string, wouldWarm: bool, handling: Handling)

  datatype RunError =
    | NoError
    | InventoryUnavailable
    | UnexpectedCount
    | NoEligibleAccounts
    | TargetUnavailable
    | Interrupted
    | SomeAccountsFailed
    | WriteFailed

  datatype Record = Record(
    discovered: nat,
    queried: nat,
    attempted: nat,
    succeeded: nat,
    skipped: nat,
    failed: nat,
    wouldWarm: nat,
    accounts: seq<AccountResult>,
    error: RunError,
    success: bool)

  const EMPTY := Record(0, 0, 0, 0, 0, 0, 0, [], RunError.NoError, false)

  // ----- what a run may do -----

  /** An event of admission: neither a reservation nor a call. */
  predicate IsQuiet(e: Event) {
    !e.Called? && !e.Reserved? && !e.SessionEnded? && !e.PutBack?
  }

  ghost predicate OnlyQuiet(before: seq<Event>, after: seq<Event>) {
    before <= after && forall i :: |before| <= i < |after| ==> IsQuiet(after[i])
  }

  /** Positions `j` and `k` hold saved observations of the account, three seconds apart and both idle,
      allowed and with weekly quota left; the limit was clear at `w`. */
  predicate EvidenceAt(trace: seq<Event>, start: nat, end: nat, account: string, j: nat, k: nat, w: nat) {
    && start <= j < k < w < end <= |trace|
    && trace[j].Saved? && trace[j].account == account
    && trace[k].Saved? && trace[k].account == account
    && trace[w] == WarmChecked(account, Clear)
    && ConfirmedIdle(trace[j].observation, trace[k].observation)
    && trace[k].observation.checkedAt - trace[j].observation.checkedAt >= CONFIRM_WAIT
  }

  ghost predicate Evidence(trace: seq<Event>, start: nat, end: nat, account: string) {
    exists j, k, w :: EvidenceAt(trace, start, end, account, j, k, w)
  }

  predicate MayWarm(settings: Settings, request: RunRequest, account: string) {
    && !request.readOnly && !request.observeOnly && !settings.dryRun
    && (settings.allowlist == [] || account in settings.allowlist)
  }

  ghost predicate CallsAdmitted(trace: seq<Event>, start: nat, settings: Settings, request: RunRequest) {
    forall i :: start <= i < |trace| && (trace[i].Called? || trace[i].Reserved?) ==>
      MayWarm(settings, request, trace[i].account) && Evidence(trace, start, i, trace[i].account)
  }

  /** After a session has ended, calls wait for the account spacing. */
  ghost predicate CallsSpaced(trace: seq<Event>, start: nat, spacing: int) {
    forall i, j :: start <= i < j < |trace| && trace[i].SessionEnded? && trace[j].Called? ==>
      trace[i].finishedAt + spacing <= trace[j].at
  }

  ghost predicate SessionsEnded(trace: seq<Event>, start: nat, last: Option<Time>) {
    forall i :: start <= i < |trace| && trace[i].SessionEnded? ==> last.Some? && trace[i].finishedAt <= last.value
  }

  ghost predicate NothingPutBack(trace: seq<Event>, start: nat) {
    forall i :: start <= i < |trace| ==> !trace[i].PutBack?
  }

  /** What holds of the trace after any number of accounts. */
  ghost predicate RunSoFar(trace: seq<Event>, start: nat, settings: Settings, request: RunRequest,
        last: Option<Time>, now: Time) {
    && start <= |trace|
    && CallsAdmitted(trace, start, settings, request)
    && CallsSpaced(trace, start, settings.spacing)
    && SessionsEnded(trace, start, last)
    && NothingPutBack(trace, start)
    && (last.Some? ==> last.value <= now)
  }

  lemma EvidenceStays(before: seq<Event>, after: seq<Event>, start: nat, end: nat, account: string)
    requires before <= after && end <= |before|
    ensures Evidence(before, start, end, account) ==> Evidence(after, start, end, account)
  {
    if Evidence(before, start, end, account) {
      var j, k, w :| EvidenceAt(before, start, end, account, j, k, w);
      assert EvidenceAt(after, start, end, account, j, k, w);
    }
  }

  lemma EvidenceForLater(trace: seq<Event>, start: nat, end: nat, later: nat, account: string)
    requires Evidence(trace, start, end, account) && end <= later <= |trace|
    ensures Evidence(trace, start, later, account)
  {
    var j, k, w :| EvidenceAt(trace, start, end, account, j, k, w);
    assert EvidenceAt(trace, start, later, account, j, k, w);
  }

  lemma QuietKeepsRun(before: seq<Event>, after: seq<Event>, start: nat, settings: Settings, request: RunRequest,
                      last: Option<Time>, now: Time, later: Time)
    requires RunSoFar(before, start, settings, request, last, now)
    requires OnlyQuiet(before, after) && now <= later
    ensures RunSoFar(after, start, settings, request, last, later)
  {
    hide Evidence;
    forall i | start <= i < |after| && (after[i].Called? || after[i].Reserved?)
      ensures MayWarm(settings, request, after[i].account) && Evidence(after, start, i, after[i].account)
    {
      assert i < |before| && after[i] == before[i];
      EvidenceStays(before, after, start, i, after[i].account);
    }
    forall i, j | start <= i < j < |after| && after[i].SessionEnded? && after[j].Called?
      ensures after[i].finishedAt + settings.spacing <= after[j].at
    {
      assert after[i] == before[i] && after[j] == before[j];
    }
    forall i | start <= i < |after| && after[i].SessionEnded?
      ensures last.Some? && after[i].finishedAt <= last.value
    {
      assert after[i] == before[i];
    }
    forall i | start <= i < |after|
      ensures !after[i].PutBack?
    {
      assert i < |before| ==> after[i] == before[i];
    }
  }

  lemma EndedBefore(before: seq<Event>, mine: seq<Event>, p: Session, i: nat)
    requires forall i :: 0 <= i < |mine| ==> IsStepOf(mine[i], p)
    requires i < |before + mine| && (before + mine)[i].SessionEnded?
    ensures i < |before| && (before + mine)[i] == before[i]
  {
    if i >= |before| && IsStepOf(mine[i - |before|], p) {
      assert false;
    }
  }

  /** A session that begins with evidence and after the spacing keeps what holds of the run. */
  lemma SessionKeepsRun(before: seq<Event>, mine: seq<Event>, start: nat, settings: Settings, request: RunRequest,
                        last: Option<Time>, p: Session, now: Time)
    requires RunSoFar(before, start, settings, request, last, p.since) && p.since <= now
    requires forall i :: 0 <= i < |mine| ==> IsStepOf(mine[i], p)
    requires MayWarm(settings, request, p.account) && Evidence(before, start, |before|, p.account)
    requires last.Some? ==> last.value + settings.spacing <= p.since
    ensures RunSoFar(before + mine, start, settings, request, last, now)
  {
    hide Evidence;
    var after := before + mine;
    EvidenceStays(before, after, start, |before|, p.account);
    forall i | start <= i < |after| && (after[i].Called? || after[i].Reserved?)
      ensures MayWarm(settings, request, after[i].account) && Evidence(after, start, i, after[i].account)
    {
      if i < |before| {
        assert after[i] == before[i];
        EvidenceStays(before, after, start, i, after[i].account);
      } else {
        assert after[i] == mine[i - |before|];
        EvidenceForLater(after, start, |before|, i, p.account);
      }
    }
    forall i, j | start <= i < j < |after| && after[i].SessionEnded? && after[j].Called?
      ensures after[i].finishedAt + settings.spacing <= after[j].at
    {
      EndedBefore(before, mine, p, i);
      assert j < |before| ==> after[j] == before[j];
      assert j >= |before| ==> after[j] == mine[j - |before|];
    }
    forall i | start <= i < |after| && after[i].SessionEnded?
      ensures last.Some? && after[i].finishedAt <= last.value
    {
      EndedBefore(before, mine, p, i);
    }
    forall i | start <= i < |after|
      ensures !after[i].PutBack?
    {
      assert if i < |before| then after[i] == before[i] else IsStepOf(mine[i - |before|], p);
    }
  }

  lemma EndKeepsRun(before: seq<Event>, start: nat, settings: Settings, request: RunRequest,
                    last: Option<Time>, account: string, finishedAt: Time, now: Time)
    requires RunSoFar(before, start, settings, request, last, finishedAt) && finishedAt <= now
    ensures RunSoFar(before + [SessionEnded(account, finishedAt)], start, settings, request, Some(finishedAt), now)
  {
    hide Evidence;
    var after := before + [SessionEnded(account, finishedAt)];
    forall i | start <= i < |after| && (after[i].Called? || after[i].Reserved?)
      ensures MayWarm(settings, request, after[i].account) && Evidence(after, start, i, after[i].account)
    {
      assert i < |before| && after[i] == before[i];
      EvidenceStays(before, after, start, i, after[i].account);
    }
  }

  // ----- what the record counts -----

  function Succeeded(r: AccountResult): bool {
    r.handling.CalledModel? && r.handling.result.responseReceived
  }

  function Attempts(r: AccountResult): nat {
    if r.handling.CalledModel? then r.handling.result.attempts else 0
  }

  function Tally(results: seq<AccountResult>): Record {
    if results == [] then EMPTY
    else
      var r, t := results[|results| - 1], Tally(results[..|results| - 1]);
      t.(attempted := t.attempted + if Attempts(r) > 0 then 1 else 0,
         succeeded := t.succeeded + if Succeeded(r) then 1 else 0,
         skipped := t.skipped + if r.handling.SkippedFor? then 1 else 0,
         failed := t.failed + if !Succeeded(r) && !r.handling.SkippedFor? then 1 else 0,
         wouldWarm := t.wouldWarm + if r.wouldWarm then 1 else 0)
  }

  /** The counters of the record are those of its account list. */
  predicate Counted(record: Record) {
    var t := Tally(record.accounts);
    && record.attempted == t.attempted && record.succeeded == t.succeeded
    && record.skipped == t.skipped && record.failed == t.failed
  }

  function AllAttempts(results: seq<AccountResult>): nat {
    if results == [] then 0 else AllAttempts(results[..|results| - 1]) + Attempts(results[|results| - 1])
  }

  lemma TallyAppend(results: seq<AccountResult>, r: AccountResult)
    ensures AllAttempts(results + [r]) == AllAttempts(results) + Attempts(r)
    ensures var t, u := Tally(results), Tally(results + [r]);
            && u.attempted == t.attempted + (if Attempts(r) > 0 then 1 else 0)
            && u.succeeded == t.succeeded + (if Succeeded(r) then 1 else 0)
            && u.skipped == t.skipped + (if r.handling.SkippedFor? then 1 else 0)
            && u.failed == t.failed + (if !Succeeded(r) && !r.handling.SkippedFor? then 1 else 0)
            && u.wouldWarm == t.wouldWarm + (if r.wouldWarm then 1 else 0)
  {
    assert (results + [r])[..|results|] == results;
  }

  lemma {:induction false} EveryResultCountsOnce(results: seq<AccountResult>)
    ensures Tally(results).succeeded + Tally(results).skipped + Tally(results).failed == |results|
  {
    if results != [] {
      EveryResultCountsOnce(results[..|results| - 1]);
    }
  }

  /** How many model calls of a trace were answered with success. */
  function Successes(calls: seq<Event>): nat {
    if calls == [] then 0
    else
      var last := calls[|calls| - 1];
      Successes(calls[..|calls| - 1]) + if last.Called? && Succeeds(last.reply) then 1 else 0
  }

  lemma {:induction false} SuccessesAppend(a: seq<Event>, b: seq<Event>)
    ensures Successes(a + b) == Successes(a) + Successes(b)
  {
    if b == [] {
      assert a + b == a;
    } else {
      SuccessesAppend(a, b[..|b| - 1]);
      assert (a + b)[..|a + b| - 1] == a + b[..|b| - 1];
    }
  }

  lemma {:induction false} TraceAppend(a: seq<Event>, b: seq<Event>)
    ensures CallsOf(a + b) == CallsOf(a) + CallsOf(b)
    ensures ReservationsOf(a + b) == ReservationsOf(a) + ReservationsOf(b)
  {
    if b == [] {
      assert a + b == a;
    } else {
      hide CallsOf, ReservationsOf;
      var init, last := b[..|b| - 1], b[|b| - 1];
      var call := if last.Called? then [last] else [];
      TraceAppend(a, init);
      TraceGrows(a + init, last);
      TraceGrows(init, last);
      assert b == init + [last];
      assert a + b == (a + init) + [last];
      assert CallsOf(a) + CallsOf(init) + call == CallsOf(a) + (CallsOf(init) + call);
    }
  }

  lemma {:induction false} QuietCounts(quiet: seq<Event>)
    requires forall i :: 0 <= i < |quiet| ==> !quiet[i].Called? && !quiet[i].Reserved?
    ensures CallsOf(quiet) == [] && ReservationsOf(quiet) == 0
  {
    if quiet != [] {
      QuietCounts(quiet[..|quiet| - 1]);
    }
  }

  /** A session has at most one success, and then it is its last call. */
  lemma {:induction false} OneSuccess(calls: seq<Event>, account: string, primary: string, fallback: string,
        retries: nat)
    requires CallChain(calls, account, primary, fallback, retries)
    ensures Successes(calls) == if calls != [] && Succeeds(calls[|calls| - 1].reply) then 1 else 0
  {
    if calls != [] {
      var init := calls[..|calls| - 1];
      assert CallChain(init, account, primary, fallback, retries) by {
        forall i, j | 0 <= i && j == i + 1 && j < |init|
          ensures MayFollow(primary, fallback, init[i], init[j])
        {
          assert MayFollow(primary, fallback, calls[i], calls[j]);
        }
      }
      OneSuccess(init, account, primary, fallback, retries);
      if init != [] && Succeeds(init[|init| - 1].reply) {
        ChainStops(calls, account, primary, fallback, retries, |init| - 1);
      }
    }
  }

  /** The account list agrees with what the run did: every reservation is one recorded attempt, and
      every successful answer is one recorded success. */
  ghost predicate Recorded(base: seq<Event>, trace: seq<Event>, results: seq<AccountResult>) {
    && ReservationsOf(trace) == ReservationsOf(base) + AllAttempts(results)
    && Successes(CallsOf(trace)) == Successes(CallsOf(base)) + Tally(results).succeeded
  }

  lemma QuietKeepsRecorded(base: seq<Event>, before: seq<Event>, after: seq<Event>, results: seq<AccountResult>)
    requires Recorded(base, before, results) && before <= after
    requires forall i :: |before| <= i < |after| ==> !after[i].Called? && !after[i].Reserved?
    ensures Recorded(base, after, results)
  {
    var quiet := after[|before|..];
    assert after == before + quiet;
    QuietCounts(quiet);
    TraceAppend(before, quiet);
    assert CallsOf(before) + [] == CallsOf(before);
  }

  lemma SessionRecorded(base: seq<Event>, before: seq<Event>, mine: seq<Event>, results: seq<AccountResult>,
                        r: AccountResult, p: Session, now: Time)
    requires Recorded(base, before, results) && SessionShape(mine, p, now)
    requires r.handling.CalledModel? && ResultAgrees(mine, r.handling.result)
    ensures Recorded(base, before + mine, results + [r])
  {
    TraceAppend(before, mine);
    SuccessesAppend(CallsOf(before), CallsOf(mine));
    OneSuccess(CallsOf(mine), p.account, p.primary, p.fallback, p.retries);
    TallyAppend(results, r);
  }

  // ----- why an account is not called -----

  ghost predicate Seen(trace: seq<Event>, start: nat, e: Event) {
    exists i :: start <= i < |trace| && trace[i] == e
  }

  ghost predicate SavedWithGate(trace: seq<Event>, start: nat, account: string, gate: CandidateReason) {
    exists i :: start <= i < |trace| && trace[i].Saved? && trace[i].account == account
                && QuotaCandidateReason(trace[i].observation) == gate
  }

  predicate NotIdleAt(trace: seq<Event>, start: nat, account: string, j: nat, k: nat) {
    && start <= j < k < |trace|
    && trace[j].Saved? && trace[j].account == account
    && trace[k].Saved? && trace[k].account == account
    && !ConfirmedIdle(trace[j].observation, trace[k].observation)
  }

  /** Every reason for not calling an account has its cause in the trace or in the settings. */
  ghost predicate Explained(trace: seq<Event>, start: nat, settings: Settings, request: RunRequest, account: string,
                            reason: Reason)
  {
    match reason
    case Gate(gate) => !request.readOnly && gate != Candidate && SavedWithGate(trace, start, account, gate)
    case Limited(limit) => !request.readOnly && limit != Clear && Seen(trace, start, WarmChecked(account, limit))
    case NotSelected => !request.readOnly && settings.allowlist != [] && account !in settings.allowlist
    case NotConfirmedIdle => !request.readOnly && exists j, k :: NotIdleAt(trace, start, account, j, k)
    case ConfirmationFailed => Seen(trace, start, FetchFailed(account))
    case StateWriteFailed => Seen(trace, start, SaveFailed(account))
    case RefreshOnly => request.readOnly
    case ObservedOnly => !request.readOnly && request.observeOnly && Evidence(trace, start, |trace|, account)
    case DryRun =>
      !request.readOnly && !request.observeOnly && settings.dryRun && Evidence(trace, start, |trace|, account)
    case _ => true
  }

  lemma ExplainedStays(before: seq<Event>, after: seq<Event>, start: nat, settings: Settings, request: RunRequest,
                       account: string, reason: Reason)
    requires before <= after && start <= |before| && Explained(before, start, settings, request, account, reason)
    ensures Explained(after, start, settings, request, account, reason)
  {
    match reason
    case Gate(gate) =>
      var i :| start <= i < |before| && before[i].Saved? && before[i].account == account
               && QuotaCandidateReason(before[i].observation) == gate;
      assert after[i] == before[i];
    case Limited(limit) =>
      var i :| start <= i < |before| && before[i] == WarmChecked(account, limit);
      assert after[i] == before[i];
    case NotConfirmedIdle =>
      var j, k :| NotIdleAt(before, start, account, j, k);
      assert NotIdleAt(after, start, account, j, k);
    case ConfirmationFailed =>
      var i :| start <= i < |before| && before[i] == FetchFailed(account);
      assert after[i] == before[i];
    case StateWriteFailed =>
      var i :| start <= i < |before| && before[i] == SaveFailed(account);
      assert after[i] == before[i];
    case ObservedOnly => EvidenceStays(before, after, start, |before|, account);
                         EvidenceForLater(after, start, |before|, |after|, account);
    case DryRun => EvidenceStays(before, after, start, |before|, account);
                   EvidenceForLater(after, start, |before|, |after|, account);
    case _ =>
  }

  predicate IsMode(reason: Reason) {
    reason.RefreshOnly? || reason.ObservedOnly? || reason.DryRun?
  }

  lemma LastSeen(trace: seq<Event>, start: nat, e: Event)
    requires start < |trace| && LastIs(trace, e)
    ensures Seen(trace, start, e)
  {
    assert trace[|trace| - 1] == e;
  }

  function ReasonOf(reason: IdleReason): Reason {
    match reason
    case Accepted => Proceed
    case Interrupted => RunInterrupted
    case FetchError => ConfirmationFailed
    case WriteFailed => StateWriteFailed
    case Rejected(gate) => Gate(gate)
    case NotConfirmed => NotConfirmedIdle
  }

  /** Where the pair of observations stands in the trace: the first one saved before or during the
      confirmation, the second one last. */
  lemma PairInTrace(before: seq<Event>, trace: seq<Event>, start: nat, account: string, first: Observation,
                    earlier: Observation, observation: Observation) returns (j: nat)
    requires before <= trace && start <= |before| && SavedSince(before, start, account, first)
    requires earlier == first || SavedSince(trace, |before|, account, earlier)
    requires LastIs(trace, Saved(account, observation)) && earlier.checkedAt < observation.checkedAt
    ensures start <= j < |trace| - 1 && trace[j] == Saved(account, earlier)
    ensures trace[|trace| - 1] == Saved(account, observation)
  {
    if earlier == first {
      j :| start <= j < |before| && before[j] == Saved(account, first);
      assert trace[j] == before[j];
    } else {
      j :| |before| <= j < |trace| && trace[j] == Saved(account, earlier);
    }
  }

  lemma PairDecides(before: seq<Event>, trace: seq<Event>, start: nat, account: string, first: Observation,
                    earlier: Observation, observation: Observation)
    requires before <= trace && start <= |before| && SavedSince(before, start, account, first)
    requires earlier == first || SavedSince(trace, |before|, account, earlier)
    requires LastIs(trace, Saved(account, observation))
    requires observation.checkedAt - earlier.checkedAt >= CONFIRM_WAIT
    ensures ConfirmedIdle(earlier, observation) ==>
              Evidence(trace + [WarmChecked(account, Clear)], start, |trace| + 1, account)
    ensures !ConfirmedIdle(earlier, observation) ==> exists j, k :: NotIdleAt(trace, start, account, j, k)
  {
    hide ConfirmedIdle;
    var j := PairInTrace(before, trace, start, account, first, earlier, observation);
    if ConfirmedIdle(earlier, observation) {
      assert EvidenceAt(trace + [WarmChecked(account, Clear)], start, |trace| + 1, account, j, |trace| - 1, |trace|);
    } else {
      assert NotIdleAt(trace, start, account, j, |trace| - 1);
    }
  }

  // ----- one account -----

  /** After the final pair: an idle account is subject to the limit once more. */
  method CheckLimit(world: World, settings: Settings, request: RunRequest, account: string, observation: Observation,
                    idle: bool, ghost first: Observation, ghost earlier: Observation, ghost before: seq<Event>,
                    ghost start: nat)
    returns (reason: Reason)
    requires OnlyQuiet(before, world.trace) && start <= |before| < |world.trace| && !request.readOnly
    requires SavedSince(before, start, account, first)
    requires earlier == first || SavedSince(world.trace, |before|, account, earlier)
    requires LastIs(world.trace, Saved(account, observation))
    requires observation.checkedAt - earlier.checkedAt >= CONFIRM_WAIT
    requires idle <==> ConfirmedIdle(earlier, observation)
    modifies world
    ensures world.MovesOn() && OnlyQuiet(before, world.trace) && old(world.trace) <= world.trace
    ensures reason.Proceed? ==> Evidence(world.trace, start, |world.trace|, account)
    ensures reason.Proceed? || reason.Limited? || reason.NotConfirmedIdle?
    ensures Explained(world.trace, start, settings, request, account, reason)
  {
    PairDecides(before, world.trace, start, account, first, earlier, observation);
    hide Evidence, Explained, NotIdleAt, ConfirmedIdle, SavedSince;
    if !idle {
      NotIdleExplained(world.trace, start, settings, request, account);
      return NotConfirmedIdle;
    }
    var limit := world.WarmLimit(account);
    reason := if limit != Clear then Limited(limit) else Proceed;
    LimitExplained(world.trace, start, settings, request, account, reason);
  }

  /** The confirmation of an account that passed the first gates. */
  method Confirm(world: World, settings: Settings, request: RunRequest, account: string, first: Observation,
                 last: Option<Time>, ghost start: nat)
    returns (reason: Reason)
    requires first.checkedAt <= world.clock && (last.Some? ==> last.value <= world.clock)
    requires SavedSince(world.trace, start, account, first) && !request.readOnly
    modifies world
    ensures world.MovesOn() && OnlyQuiet(old(world.trace), world.trace)
    // what is left of the spacing is waited for, and no more
    ensures |old(world.trace)| < |world.trace| ==>
              world.trace[|old(world.trace)|]
              == Waited(if last.Some? then last.value + settings.spacing - old(world.clock) else 0)
    ensures reason.Proceed? ==> Evidence(world.trace, start, |world.trace|, account)
    ensures reason.Proceed? && last.Some? ==> last.value + settings.spacing <= world.clock
    ensures reason.RunInterrupted? ==> world.stopped
    ensures reason.StateWriteFailed? ==> old(world.writeFailures) < world.writeFailures
    ensures !reason.FirstQueryFailed? && !IsMode(reason)
    ensures Explained(world.trace, start, settings, request, account, reason)
  {
    ghost var before := world.trace;
    assert start < |before|;
    hide ConfirmedIdle, Evidence, QuotaCandidateReason, ResetFollowsClock, LooksIdle, SavedSince, Explained,
      OnlyEvidence, OnlyQuiet, NotIdleAt;
    var since := world.clock;
    var spacing := if last.Some? then settings.spacing - (since - last.value) else 0;
    ghost var earlier;
    var observation, idle;
    observation, idle, earlier := ConfirmIdleAfterSpacing(world, account, first, spacing);
    reason := ReasonOf(idle);
    EvidenceIsQuiet(before, world.trace);
    if idle.Interrupted? {
      Unexplained(world.trace, start, settings, request, account, reason);
    } else if !idle.Accepted? && !idle.NotConfirmed? {
      if idle.FetchError? {
        world.PersistPerhaps(); // saveQuotaFailure
        world.PersistPerhaps(); // scheduleQuotaRetry
      }
      VerdictExplained(world.trace, start, settings, request, account, idle, observation);
    } else {
      reason := CheckLimit(world, settings, request, account, observation, idle.Accepted?, first, earlier, before,
                           start);
    }
  }

  lemma EvidenceIsQuiet(before: seq<Event>, after: seq<Event>)
    requires OnlyEvidence(before, after)
    ensures before <= after && OnlyQuiet(before, after)
  {
  }

  lemma VerdictExplained(trace: seq<Event>, start: nat, settings: Settings, request: RunRequest, account: string,
        idle: IdleReason, observation: Observation)
    requires start < |trace| && !request.readOnly && (idle.FetchError? || idle.WriteFailed? || idle.Rejected?)
    requires idle.FetchError? ==> LastIs(trace, FetchFailed(account))
    requires idle.WriteFailed? ==> LastIs(trace, SaveFailed(account))
    requires idle.Rejected? ==>
               && idle.reason == QuotaCandidateReason(observation) != Candidate
               && LastIs(trace, Saved(account, observation))
    ensures Explained(trace, start, settings, request, account, ReasonOf(idle))
  {
    hide QuotaCandidateReason;
    assert trace[|trace| - 1] == trace[|trace| - 1];
  }

  lemma NotIdleExplained(trace: seq<Event>, start: nat, settings: Settings, request: RunRequest, account: string)
    requires !request.readOnly && exists j, k :: NotIdleAt(trace, start, account, j, k)
    ensures Explained(trace, start, settings, request, account, NotConfirmedIdle)
  {
    hide NotIdleAt;
  }

  lemma LimitExplained(trace: seq<Event>, start: nat, settings: Settings, request: RunRequest, account: string,
        reason: Reason)
    requires start < |trace| && !request.readOnly
    requires reason.Proceed?
             || (reason.Limited? && reason.limit != Clear && LastIs(trace, WarmChecked(account, reason.limit)))
    ensures Explained(trace, start, settings, request, account, reason)
  {
    hide NotIdleAt;
  }

  /** The last event is the cause. */
  predicate LastExplains(trace: seq<Event>, settings: Settings, account: string, reason: Reason) {
    match reason
    case Proceed => true
    case StateWriteFailed => LastIs(trace, SaveFailed(account))
    case Limited(limit) => limit != Clear && LastIs(trace, WarmChecked(account, limit))
    case NotSelected => settings.allowlist != [] && account !in settings.allowlist
    case Gate(gate) =>
      && trace != [] && gate != Candidate
      && var last := trace[|trace| - 1];
         last.Saved? && last.account == account && QuotaCandidateReason(last.observation) == gate
    case _ => false
  }

  lemma ExplainedByLast(trace: seq<Event>, start: nat, settings: Settings, request: RunRequest, account: string,
        reason: Reason)
    requires start < |trace| && LastExplains(trace, settings, account, reason)
    requires request.readOnly ==> reason.Proceed? || reason.StateWriteFailed?
    ensures Explained(trace, start, settings, request, account, reason)
  {
    hide QuotaCandidateReason;
    assert LastIs(trace, trace[|trace| - 1]);
    LastSeen(trace, start, trace[|trace| - 1]);
  }

  /** The gates between the first observation and the confirmation; `Proceed` asks for the latter. */
  method Gates(world: World, settings: Settings, request: RunRequest, account: string, first: Observation)
    returns (reason: Reason)
    modifies world
    ensures world.MovesOn() && OnlyQuiet(old(world.trace), world.trace) && |old(world.trace)| < |world.trace|
    ensures reason.Proceed? ==>
              && world.trace[|old(world.trace)|] == Saved(account, first)
              && (!request.readOnly ==> settings.allowlist == [] || account in settings.allowlist)
    ensures reason.StateWriteFailed? ==> old(world.writeFailures) < world.writeFailures
    ensures LastExplains(world.trace, settings, account, reason)
    ensures request.readOnly ==> reason.Proceed? || reason.StateWriteFailed?
  {
    hide QuotaCandidateReason;
    var ok := world.SaveQuota(account, first);
    if !ok {
      return StateWriteFailed;
    }
    if request.target.None? {
      world.PersistPerhaps(); // clearQuotaRetry
    }
    if request.readOnly {
      return Proceed;
    }
    var gate := QuotaCandidateReason(first);
    if gate != Candidate {
      return Gate(gate);
    }
    var limit := world.WarmLimit(account);
    if limit != Clear {
      return Limited(limit);
    }
    return if settings.allowlist != [] && account !in settings.allowlist then NotSelected else Proceed;
  }

  /** The decision about an account with a first observation. */
  method AdmitObserved(world: World, settings: Settings, request: RunRequest, account: string, first: Observation,
                       last: Option<Time>, ghost start: nat)
    returns (reason: Reason)
    requires first.checkedAt <= world.clock && (last.Some? ==> last.value <= world.clock) && start <= |world.trace|
    modifies world
    ensures world.MovesOn() && OnlyQuiet(old(world.trace), world.trace)
    ensures reason.Proceed? && !request.readOnly ==>
              && Evidence(world.trace, start, |world.trace|, account)
              && (settings.allowlist == [] || account in settings.allowlist)
              && (last.Some? ==> last.value + settings.spacing <= world.clock)
    ensures reason.RunInterrupted? ==> world.stopped
    ensures reason.StateWriteFailed? ==> old(world.writeFailures) < world.writeFailures
    ensures !reason.FirstQueryFailed? && !IsMode(reason)
    ensures Explained(world.trace, start, settings, request, account, reason)
  {
    hide Evidence, Explained;
    reason := Gates(world, settings, request, account, first);
    ExplainedByLast(world.trace, start, settings, request, account, reason);
    if reason.Proceed? && !request.readOnly {
      reason := Confirm(world, settings, request, account, first, last, start);
    }
  }

  method Admit(world: World, settings: Settings, request: RunRequest, account: string, first: First,
               last: Option<Time>, ghost start: nat)
    returns (reason: Reason)
    requires first.Observed? ==> first.observation.checkedAt <= world.clock
    requires first.NotFetched? ==> world.stopped
    requires (last.Some? ==> last.value <= world.clock) && start <= |world.trace|
    modifies world
    ensures world.MovesOn() && OnlyQuiet(old(world.trace), world.trace)
    ensures reason.Proceed? && !request.readOnly ==>
              && Evidence(world.trace, start, |world.trace|, account)
              && (settings.allowlist == [] || account in settings.allowlist)
              && (last.Some? ==> last.value + settings.spacing <= world.clock)
    ensures reason.Proceed? ==> first.Observed?
    ensures reason.RunInterrupted? ==> world.stopped
    ensures reason.FirstQueryFailed? ==> first.QueryFailed?
    ensures reason.StateWriteFailed? ==> old(world.writeFailures) < world.writeFailures
    ensures !IsMode(reason) && Explained(world.trace, start, settings, request, account, reason)
  {
    hide Evidence, Explained;
    if first.Observed? {
      reason := AdmitObserved(world, settings, request, account, first.observation, last, start);
    } else {
      world.PersistPerhaps(); // saveQuotaFailure
      world.PersistPerhaps(); // scheduleQuotaRetry
      reason := if first.NotFetched? then RunInterrupted else FirstQueryFailed;
      Unexplained(world.trace, start, settings, request, account, reason);
    }
    if request.target.Some? {
      world.PersistPerhaps(); // clearQuotaRetry
    }
  }

  lemma Unexplained(trace: seq<Event>, start: nat, settings: Settings, request: RunRequest, account: string,
        reason: Reason)
    requires reason.Proceed? || reason.RunInterrupted? || reason.FirstQueryFailed?
    ensures Explained(trace, start, settings, request, account, reason)
  {
  }

  /** The modes that stop an admitted account short of its call. */
  function AfterAdmission(settings: Settings, request: RunRequest): Reason {
    if request.readOnly then RefreshOnly
    else if request.observeOnly then ObservedOnly
    else if settings.dryRun then DryRun
    else Proceed
  }

  /** What the record says of an account that is not called. */
  function Uncalled(account: string, reason: Reason, wouldWarm: bool): AccountResult {
    AccountResult(account, wouldWarm,
                  if reason.FirstQueryFailed? || reason.ConfirmationFailed? || reason.StateWriteFailed?
                  then FailedFor(reason) else SkippedFor(reason))
  }

  /** A result is honest: a skip or failure has its cause, a called account was allowed to be. */
  ghost predicate Honest(trace: seq<Event>, start: nat, settings: Settings, request: RunRequest, r: AccountResult) {
    match r.handling
    case SkippedFor(reason) =>
      && Explained(trace, start, settings, request, r.account, reason)
      && !reason.Proceed? && !reason.RunInterrupted?
      && !reason.FirstQueryFailed? && !reason.ConfirmationFailed? && !reason.StateWriteFailed?
      && (r.wouldWarm <==> reason.ObservedOnly? || reason.DryRun?)
    case FailedFor(reason) =>
      && Explained(trace, start, settings, request, r.account, reason)
      && (reason.FirstQueryFailed? || reason.ConfirmationFailed? || reason.StateWriteFailed?)
      && !r.wouldWarm
    case CalledModel(result) =>
      && MayWarm(settings, request, r.account) && r.wouldWarm
      && (result.attempts == 0 && !result.error.InterruptedCall? ==> Seen(trace, start, ReserveRefused(r.account)))
  }

  /** The run stands between two accounts: what it did so far, and what it recorded. */
  ghost predicate Standing(base: seq<Event>, trace: seq<Event>, settings: Settings, request: RunRequest,
                           last: Option<Time>, now: Time, results: seq<AccountResult>)
  {
    && base <= trace
    && RunSoFar(trace, |base|, settings, request, last, now)
    && Recorded(base, trace, results)
    && forall i :: 0 <= i < |results| ==> Honest(trace, |base|, settings, request, results[i])
  }

  lemma HonestStays(before: seq<Event>, after: seq<Event>, start: nat, settings: Settings, request: RunRequest,
        r: AccountResult)
    requires before <= after && start <= |before| && Honest(before, start, settings, request, r)
    ensures Honest(after, start, settings, request, r)
  {
    hide Explained;
    match r.handling
    case SkippedFor(reason) => ExplainedStays(before, after, start, settings, request, r.account, reason);
    case FailedFor(reason) => ExplainedStays(before, after, start, settings, request, r.account, reason);
    case CalledModel(_) => SeenStays(before, after, start, ReserveRefused(r.account));
  }

  lemma SeenStays(before: seq<Event>, after: seq<Event>, start: nat, e: Event)
    requires before <= after
    ensures Seen(before, start, e) ==> Seen(after, start, e)
  {
    if i :| start <= i < |before| && before[i] == e {
      assert after[i] == e;
    }
  }

  lemma QuietStanding(base: seq<Event>, before: seq<Event>, after: seq<Event>, settings: Settings, request: RunRequest,
                      last: Option<Time>, now: Time, later: Time, results: seq<AccountResult>)
    requires Standing(base, before, settings, request, last, now, results)
    requires OnlyQuiet(before, after) && now <= later
    ensures Standing(base, after, settings, request, last, later, results)
  {
    hide RunSoFar, Recorded, Honest;
    QuietKeepsRun(before, after, |base|, settings, request, last, now, later);
    QuietKeepsRecorded(base, before, after, results);
    forall i | 0 <= i < |results|
      ensures Honest(after, |base|, settings, request, results[i])
    {
      HonestStays(before, after, |base|, settings, request, results[i]);
    }
  }

  lemma UncalledStanding(base: seq<Event>, trace: seq<Event>, settings: Settings, request: RunRequest,
                         last: Option<Time>, now: Time, results: seq<AccountResult>, r: AccountResult)
    requires Standing(base, trace, settings, request, last, now, results)
    requires !r.handling.CalledModel? && Honest(trace, |base|, settings, request, r)
    ensures Standing(base, trace, settings, request, last, now, results + [r])
  {
    hide RunSoFar, Honest;
    TallyAppend(results, r);
  }

  lemma StepsOfShape(mine: seq<Event>, p: Session, now: Time)
    requires SessionShape(mine, p, now)
    ensures p.since <= now && forall i :: 0 <= i < |mine| ==> IsStepOf(mine[i], p)
  {
  }

  lemma SessionStanding(base: seq<Event>, before: seq<Event>, mine: seq<Event>, settings: Settings, request: RunRequest,
                        last: Option<Time>, p: Session, now: Time, results: seq<AccountResult>, r: AccountResult)
    requires Standing(base, before, settings, request, last, p.since, results) && SessionShape(mine, p, now)
    requires MayWarm(settings, request, p.account) && Evidence(before, |base|, |before|, p.account)
    requires last.Some? ==> last.value + settings.spacing <= p.since
    requires r.account == p.account && r.wouldWarm && r.handling.CalledModel? && ResultAgrees(mine, r.handling.result)
    requires Concluded(mine, p, r.handling.result.error)
    ensures Standing(base, before + mine, settings, request, last, now, results + [r])
  {
    hide RunSoFar, Recorded, Honest, SessionShape, ResultAgrees, Concluded, Evidence, IsStepOf, Explained;
    var after := before + mine;
    StepsOfShape(mine, p, now);
    SessionKeepsRun(before, mine, |base|, settings, request, last, p, now);
    SessionRecorded(base, before, mine, results, r, p, now);
    CalledIsHonest(before, mine, |base|, settings, request, r, p, now);
    forall i | 0 <= i < |results|
      ensures Honest(after, |base|, settings, request, results[i])
    {
      HonestStays(before, after, |base|, settings, request, results[i]);
    }
  }

  lemma CalledIsHonest(before: seq<Event>, mine: seq<Event>, start: nat, settings: Settings, request: RunRequest,
                       r: AccountResult, p: Session, now: Time)
    requires r.handling.CalledModel? && MayWarm(settings, request, r.account) && r.wouldWarm && r.account == p.account
    requires SessionShape(mine, p, now) && ResultAgrees(mine, r.handling.result)
    requires Concluded(mine, p, r.handling.result.error) && start <= |before|
    ensures Honest(before + mine, start, settings, request, r)
  {
    hide SessionShape, ResultAgrees, Concluded;
    var result := r.handling.result;
    if result.attempts == 0 && !result.error.InterruptedCall? {
      NoAttempt(mine, p, result, now);
      assert (before + mine)[|before| + |mine| - 1] == ReserveRefused(r.account);
    }
  }

  lemma EndStanding(base: seq<Event>, before: seq<Event>, settings: Settings, request: RunRequest, last: Option<Time>,
                    account: string, finishedAt: Time, now: Time, results: seq<AccountResult>)
    requires Standing(base, before, settings, request, last, finishedAt, results) && finishedAt <= now
    ensures Standing(base, before + [SessionEnded(account, finishedAt)], settings, request, Some(finishedAt), now,
              results)
  {
    hide RunSoFar, Recorded, Honest;
    var after := before + [SessionEnded(account, finishedAt)];
    EndKeepsRun(before, |base|, settings, request, last, account, finishedAt, now);
    QuietKeepsRecorded(base, before, after, results);
    forall i | 0 <= i < |results|
      ensures Honest(after, |base|, settings, request, results[i])
    {
      HonestStays(before, after, |base|, settings, request, results[i]);
    }
  }

  /** The model session of an admitted account. */
  method CallAccount(world: World, settings: Settings, request: RunRequest, account: string, last: Option<Time>,
                     ghost base: seq<Event>, ghost results: seq<AccountResult>)
    returns (r: AccountResult, ended: Option<Time>)
    requires settings.retryCount <= MAX_RETRIES
    requires Standing(base, world.trace, settings, request, last, world.clock, results)
    requires MayWarm(settings, request, account) && Evidence(world.trace, |base|, |world.trace|, account)
    requires last.Some? ==> last.value + settings.spacing <= world.clock
    modifies world
    ensures world.MovesOn() && old(world.trace) <= world.trace
    ensures Standing(base, world.trace, settings, request, ended, world.clock, results + [r])
    ensures r.account == account && r.wouldWarm && r.handling.CalledModel?
    ensures r.handling.result.error.InterruptedCall? ==> world.stopped
  {
    hide Standing, Evidence, SessionShape, ResultAgrees, Concluded;
    ghost var before := world.trace;
    ghost var p := Session(account, request.model, settings.fallbackModel, settings.retryCount, world.clock);
    var result;
    ghost var mine;
    result, mine := ExecuteAccountWithGuard(world, account, request.model, settings.fallbackModel, settings.retryCount);
    assert world.trace == before + mine;
    r, ended := AccountResult(account, true, CalledModel(result)), last;
    SessionStanding(base, before, mine, settings, request, last, p, world.clock, results, r);
    if result.attempts > 0 {
      ended := Some(result.finishedAt);
      world.EndSession(account, result.finishedAt);
      EndStanding(base, before + mine, settings, request, last, account, result.finishedAt, world.clock, results + [r]);
    }
  }

  /** One pass of the account loop.  No result means that the run was stopped before the account was
      decided. */
  method ProcessAccount(world: World, settings: Settings, request: RunRequest, account: string, first: First,
                        last: Option<Time>, ghost base: seq<Event>, ghost results: seq<AccountResult>)
    returns (r: Option<AccountResult>, warm: bool, interrupted: bool, ended: Option<Time>)
    requires settings.retryCount <= MAX_RETRIES
    requires first.Observed? ==> first.observation.checkedAt <= world.clock
    requires first.NotFetched? ==> world.stopped
    requires Standing(base, world.trace, settings, request, last, world.clock, results)
    modifies world
    ensures world.MovesOn() && old(world.trace) <= world.trace
    ensures Standing(base, world.trace, settings, request, ended, world.clock,
                     results + if r.Some? then [r.value] else [])
    ensures r.Some? ==> r.value.account == account && (r.value.wouldWarm == warm)
    ensures interrupted ==> world.stopped
    ensures r.None? ==> interrupted
    ensures r.Some? && r.value.handling == FailedFor(FirstQueryFailed) ==> first.QueryFailed?
    ensures r.Some? && r.value.handling == FailedFor(StateWriteFailed) ==>
              old(world.writeFailures) < world.writeFailures
  {
    hide CallsAdmitted, CallsSpaced, SessionsEnded, NothingPutBack, Recorded, Evidence, Explained;
    ghost var before, now := world.trace, world.clock;
    warm, ended := false, last;
    assert results + [] == results;
    var reason := Admit(world, settings, request, account, first, last, |base|);
    QuietStanding(base, before, world.trace, settings, request, last, now, world.clock, results);
    if reason.RunInterrupted? {
      return None, false, true, last;
    }
    if reason.Proceed? {
      reason := AfterAdmission(settings, request);
      warm := !request.readOnly;
    }
    if !reason.Proceed? {
      r, interrupted := Some(Uncalled(account, reason, warm)), false;
      ExplainModes(world.trace, |base|, settings, request, account, reason);
      UncalledStanding(base, world.trace, settings, request, last, world.clock, results, r.value);
      return;
    }
    ghost var admitted := world.clock;
    var stop := world.RunStopped();
    QuietStanding(base, world.trace, world.trace, settings, request, last, admitted, world.clock, results);
    if stop {
      return None, true, true, last;
    }
    var called;
    called, ended := CallAccount(world, settings, request, account, last, base, results);
    r, interrupted := Some(called), called.handling.result.error.InterruptedCall?;
  }

  lemma ExplainModes(trace: seq<Event>, start: nat, settings: Settings, request: RunRequest, account: string,
        reason: Reason)
    requires start <= |trace|
    requires || Explained(trace, start, settings, request, account, reason)
             || (reason == AfterAdmission(settings, request)
                 && (!request.readOnly ==> Evidence(trace, start, |trace|, account)))
    ensures Explained(trace, start, settings, request, account, reason)
  {
  }

  // ----- the whole run -----

  function WithResult(record: Record, r: AccountResult): Record {
    var called := r.handling.CalledModel?;
    record.(
      accounts := record.accounts + [r],
      attempted := record.attempted + if Attempts(r) > 0 then 1 else 0,
      succeeded := record.succeeded + if called && r.handling.result.responseReceived then 1 else 0,
      skipped := record.skipped + if r.handling.SkippedFor? then 1 else 0,
      failed := record.failed + if r.handling.FailedFor? || (called
          && !r.handling.result.responseReceived) then 1 else 0)
  }

  lemma ResultCounted(record: Record, r: AccountResult)
    requires Counted(record)
    ensures Counted(WithResult(record, r))
  {
    TallyAppend(record.accounts, r);
  }

  lemma NothingStands(base: seq<Event>, trace: seq<Event>, settings: Settings, request: RunRequest, now: Time,
        record: Record)
    requires record == EMPTY.(discovered := record.discovered, error := record.error) && OnlyQuiet(base, trace)
    ensures Standing(base, trace, settings, request, None, now, [])
    ensures Counted(record) && Tally([]) == EMPTY
  {
    hide Evidence;
    assert Standing(base, base, settings, request, None, now, []);
    QuietStanding(base, base, trace, settings, request, None, now, now, []);
  }

  /** One pass of the account loop, with its stop check. */
  method NextAccount(world: World, settings: Settings, request: RunRequest, account: string, first: First,
                     last: Option<Time>, record: Record, ghost base: seq<Event>)
    returns (next: Record, interrupted: bool, ended: Option<Time>)
    requires settings.retryCount <= MAX_RETRIES
    requires first.Observed? ==> first.observation.checkedAt <= world.clock
    requires first.NotFetched? ==> world.stopped
    requires Standing(base, world.trace, settings, request, last, world.clock, record.accounts) && Counted(record)
    modifies world
    ensures world.MovesOn() && old(world.trace) <= world.trace
    ensures Standing(base, world.trace, settings, request, ended, world.clock, next.accounts) && Counted(next)
    ensures next.discovered == record.discovered && next.error == record.error && next.success == record.success
    ensures record.accounts <= next.accounts && |next.accounts| <= |record.accounts| + 1
    ensures Tally(next.accounts).wouldWarm - Tally(record.accounts).wouldWarm <= next.wouldWarm - record.wouldWarm
    ensures interrupted ==> world.stopped
    ensures !interrupted ==>
              && |next.accounts| == |record.accounts| + 1 && next.queried == record.queried + 1
              && Tally(next.accounts).wouldWarm - Tally(record.accounts).wouldWarm == next.wouldWarm - record.wouldWarm
    ensures |record.accounts| < |next.accounts| ==>
              var r := next.accounts[|record.accounts|];
              && r.account == account
              && (r.handling == FailedFor(FirstQueryFailed) ==> first.QueryFailed?)
              && (r.handling == FailedFor(StateWriteFailed) ==> old(world.writeFailures) < world.writeFailures)
  {
    hide Standing, Tally;
    ghost var before := world.clock;
    var stop := world.RunStopped();
    QuietStanding(base, world.trace, world.trace, settings, request, last, before, world.clock, record.accounts);
    if stop {
      return record, true, last;
    }
    var r, warm;
    r, warm, interrupted, ended := ProcessAccount(world, settings, request, account, first, last, base,
        record.accounts);
    next := record.(queried := record.queried + 1, wouldWarm := record.wouldWarm + if warm then 1 else 0);
    if r.Some? {
      TallyAppend(record.accounts, r.value);
      ResultCounted(next, r.value);
      next := WithResult(next, r.value);
    } else {
      assert record.accounts + [] == record.accounts;
    }
  }

  /** The account loop. */
  method RunAccounts(world: World, settings: Settings, request: RunRequest, accounts: seq<string>, firsts: seq<First>,
                     ghost base: seq<Event>)
    returns (record: Record, ghost ended: Option<Time>)
    requires settings.retryCount <= MAX_RETRIES && |firsts| == |accounts|
    requires forall i :: 0 <= i < |firsts| && firsts[i].Observed? ==> firsts[i].observation.checkedAt <= world.clock
    requires (exists i :: 0 <= i < |firsts| && firsts[i].NotFetched?) ==> world.stopped
    requires OnlyQuiet(base, world.trace)
    modifies world
    ensures world.MovesOn() && old(world.trace) <= world.trace
    ensures Standing(base, world.trace, settings, request, ended, world.clock, record.accounts)
    ensures Counted(record) && record.discovered == |accounts| && !record.success
    ensures record.wouldWarm >= Tally(record.accounts).wouldWarm
    ensures record.error == RunError.NoError || record.error == RunError.Interrupted
    ensures record.error == RunError.Interrupted ==> world.stopped
    ensures record.error == RunError.NoError ==>
              && |record.accounts| == record.queried == |accounts|
              && record.wouldWarm == Tally(record.accounts).wouldWarm
    ensures |record.accounts| <= |accounts|
    ensures forall i :: 0 <= i < |record.accounts| ==>
              && record.accounts[i].account == accounts[i]
              && (record.accounts[i].handling == FailedFor(FirstQueryFailed) ==> firsts[i].QueryFailed?)
              && (record.accounts[i].handling == FailedFor(StateWriteFailed) ==>
                    old(world.writeFailures) < world.writeFailures)
  {
    hide Standing, Counted, Tally;
    record := EMPTY.(discovered := |accounts|);
    var last: Option<Time> := None;
    NothingStands(base, world.trace, settings, request, world.clock, record);
    var index := 0;
    var interrupted := false;
    while index < |accounts| && !interrupted
      invariant 0 <= index <= |accounts| && world.MovesOn() && old(world.trace) <= world.trace
      invariant Standing(base, world.trace, settings, request, last, world.clock, record.accounts)
      invariant Counted(record) && record.discovered == |accounts| && !record.success
      invariant record.error == RunError.NoError && (interrupted ==> world.stopped)
      invariant if interrupted then |record.accounts| <= |accounts|
                else |record.accounts| == record.queried == index
      invariant record.wouldWarm >= Tally(record.accounts).wouldWarm
      invariant !interrupted ==> record.wouldWarm == Tally(record.accounts).wouldWarm
      invariant forall i :: 0 <= i < |record.accounts| ==>
                  && record.accounts[i].account == accounts[i]
                  && (record.accounts[i].handling == FailedFor(FirstQueryFailed) ==> firsts[i].QueryFailed?)
                  && (record.accounts[i].handling == FailedFor(StateWriteFailed) ==>
                        old(world.writeFailures) < world.writeFailures)
    {
      record, interrupted, last :=
        NextAccount(world, settings, request, accounts[index], firsts[index], last, record, base);
      index := index + 1;
    }
    ended := last;
    if interrupted {
      StillCounted(record, record.(error := RunError.Interrupted));
      record := record.(error := RunError.Interrupted);
    }
  }

  lemma StillCounted(record: Record, next: Record)
    requires Counted(record) && next == record.(error := next.error, success := next.success)
    ensures Counted(next)
  {
  }

  /** The inventory admits a run: the accounts could be listed, there are as many as expected, and the
      target, if there is one, is among them. */
  predicate Passes(settings: Settings, request: RunRequest, inventory: Option<seq<string>>) {
    && inventory.Some? && inventory.value != []
    && (settings.expected > 0 ==> |inventory.value| == settings.expected)
    && (request.target.Some? ==> request.target.value in inventory.value)
  }

  /** Which error stands for which inventory. */
  predicate EarlyError(settings: Settings, request: RunRequest, inventory: Option<seq<string>>, error: RunError) {
    && (error.InventoryUnavailable? <==> inventory.None?)
    && (error.UnexpectedCount? <==> inventory.Some? && 0 < settings.expected != |inventory.value|)
    && (error.NoEligibleAccounts? <==> inventory == Some([]) && settings.expected <= 0)
    && (error.TargetUnavailable? <==>
          && inventory.Some? && inventory.value != []
          && (settings.expected > 0 ==> |inventory.value| == settings.expected)
          && request.target.Some? && request.target.value !in inventory.value)
  }

  /** How many accounts of the inventory the run is about. */
  ghost function SelectedCount(request: RunRequest, list: seq<string>): nat {
    if request.target.Some? then multiset(list)[request.target.value] else |list|
  }

  /** These are the accounts the run is about, or the first of them, in the order of the inventory. */
  ghost predicate Follows(request: RunRequest, list: seq<string>, names: seq<string>) {
    if request.target.Some? then
      && |names| <= multiset(list)[request.target.value]
      && forall i :: 0 <= i < |names| ==> names[i] == request.target.value
    else names <= list
  }

  /** Everything before the account loop: the inventory, its checks and the first queries. */
  method Prepare(world: World, settings: Settings, request: RunRequest)
    returns (accounts: seq<string>, firsts: seq<First>, error: RunError)
    modifies world
    ensures world.MovesOn()
    // nothing is listed only after a stop
    ensures world.trace == old(world.trace) ==> error.Interrupted? && accounts == []
    ensures world.trace != old(world.trace) ==>
              && |world.trace| == |old(world.trace)| + 1 && old(world.trace) <= world.trace
              && var listing := world.trace[|old(world.trace)|];
                 && listing.Listed? && EarlyError(settings, request, listing.inventory, error)
                 && (error.NoError? || error.Interrupted? <==> Passes(settings, request, listing.inventory))
                 && (if Passes(settings, request, listing.inventory)
                     then Follows(request, listing.inventory.value, accounts)
                          && |accounts| == SelectedCount(request, listing.inventory.value) > 0
                     else accounts == [])
    ensures error.NoError? ==>
              && |firsts| == |accounts|
              && (forall i :: 0 <= i < |firsts| && firsts[i].Observed? ==>
                  firsts[i].observation.checkedAt <= world.clock)
              && ((exists i :: 0 <= i < |firsts| && firsts[i].NotFetched?) ==> world.stopped)
    ensures error.Interrupted? ==> world.stopped
    ensures !error.SomeAccountsFailed? && !error.WriteFailed?
  {
    accounts, firsts := [], [];
    var stop := world.RunStopped();
    if stop {
      return accounts, firsts, RunError.Interrupted;
    }
    var listed := world.ListAccounts();
    assert world.trace[|old(world.trace)|] == Listed(listed);
    if listed.None? {
      return accounts, firsts, RunError.InventoryUnavailable;
    }
    accounts := listed.value;
    if settings.expected > 0 && |accounts| != settings.expected {
      return [], firsts, RunError.UnexpectedCount;
    }
    if accounts == [] {
      return accounts, firsts, RunError.NoEligibleAccounts;
    }
    if request.target.Some? {
      accounts := Selected(accounts, request.target.value);
      if accounts == [] {
        return accounts, firsts, RunError.TargetUnavailable;
      }
    }
    firsts := world.FetchInitial(accounts);
    stop := world.RunStopped();
    return accounts, firsts, if stop then RunError.Interrupted else RunError.NoError;
  }

  function Selected(accounts: seq<string>, target: string): (selected: seq<string>)
    ensures forall i :: 0 <= i < |selected| ==> selected[i] == target
    ensures |selected| == multiset(accounts)[target]
  {
    assert accounts != [] ==> accounts == [accounts[0]] + accounts[1..];
    if accounts == [] then []
    else (if accounts[0] == target then [target] else []) + Selected(accounts[1..], target)
  }

  /** The end of the run: the verdict, the claim of an interrupted run, the history. */
  method Close(world: World, record: Record, initialWriteFailures: nat)
    returns (closed: Record, interrupted: bool, ghost failuresSeen: nat)
    requires initialWriteFailures <= world.writeFailures
    modifies world
    ensures world.MovesOn() && old(world.writeFailures) == failuresSeen
    ensures interrupted == (record.error == RunError.Interrupted)
    ensures world.trace == old(world.trace) + if interrupted then [PutBack] else []
    ensures closed == record.(error := closed.error, success := closed.success)
    ensures closed.error == record.error || closed.error == RunError.WriteFailed
    ensures closed.error == RunError.WriteFailed ==>
              record.error == RunError.WriteFailed || initialWriteFailures < world.writeFailures
    ensures closed.error.NoError? ==> failuresSeen == initialWriteFailures
    ensures closed.success <==>
            closed.error.NoError? && record.succeeded + record.skipped == record.discovered > 0
  {
    failuresSeen := world.writeFailures;
    interrupted := record.error == RunError.Interrupted;
    closed := record;
    if world.writeFailures != initialWriteFailures && !interrupted {
      closed := closed.(error := RunError.WriteFailed);
    }
    closed := closed.(success := closed.error == RunError.NoError
                                 && record.succeeded + record.skipped == record.discovered && record.discovered > 0);
    if interrupted {
      world.PutBackClaims();
    }
    world.PersistPerhaps(); // recordNotifications
    var ok := world.Persist(); // appendRun
    if !ok {
      closed := closed.(error := RunError.WriteFailed, success := false);
    }
  }

  function Names(results: seq<AccountResult>): seq<string> {
    seq(|results|, i requires 0 <= i < |results| => results[i].account)
  }

  lemma NamesFollow(request: RunRequest, list: seq<string>, accounts: seq<string>, results: seq<AccountResult>)
    requires Follows(request, list, accounts) && |results| <= |accounts|
    requires forall i :: 0 <= i < |results| ==> results[i].account == accounts[i]
    ensures Follows(request, list, Names(results))
  {
    assert Names(results) <= accounts;
  }

  /** The run went over the whole inventory, or ended with the error that stands for it. */
  ghost predicate Covered(settings: Settings, request: RunRequest, inventory: Option<seq<string>>, record: Record) {
    if Passes(settings, request, inventory) then
      && Follows(request, inventory.value, Names(record.accounts))
      && |record.accounts| == record.discovered == record.queried == SelectedCount(request, inventory.value)
      && (record.error.NoError? || record.error.SomeAccountsFailed? || record.error.WriteFailed?)
    else
      && record.accounts == [] && record.discovered == 0
      && (record.error.WriteFailed? || EarlyError(settings, request, inventory, record.error))
  }

  /** The accounts of the record are those of the inventory, in its order.  Without a stop all of them are
      decided, and only an inventory that does not pass ends the run early. */
  ghost predicate OverInventory(trace: seq<Event>, start: nat, settings: Settings, request: RunRequest, record: Record,
                                stopped: bool)
  {
    record.accounts != [] || !stopped ==>
      && start < |trace| && trace[start].Listed?
      && (record.accounts != [] ==>
            && Passes(settings, request, trace[start].inventory)
            && Follows(request, trace[start].inventory.value, Names(record.accounts)))
      && (!stopped ==> Covered(settings, request, trace[start].inventory, record))
  }

  /** The run up to its verdict. */
  method GoOverAccounts(world: World, settings: Settings, request: RunRequest)
    returns (record: Record, ghost last: Option<Time>)
    requires settings.retryCount <= MAX_RETRIES
    modifies world
    ensures world.MovesOn()
    ensures Standing(old(world.trace), world.trace, settings, request, last, world.clock, record.accounts)
    ensures Counted(record) && !record.error.WriteFailed?
    ensures record.error.Interrupted? ==> world.stopped
    ensures record.error.NoError? || record.error.SomeAccountsFailed? ==>
              && record.discovered == |record.accounts| > 0
              && record.succeeded + record.skipped + record.failed == record.discovered
              && (record.failed > 0 <==> record.error.SomeAccountsFailed?)
    ensures OverInventory(world.trace, |old(world.trace)|, settings, request, record, world.stopped)
  {
    hide Standing, Tally, EarlyError, Passes, Follows, SelectedCount;
    ghost var base := world.trace;
    var accounts, firsts, error := Prepare(world, settings, request);
    record := EMPTY.(discovered := |accounts|, error := error);
    last := None;
    NothingStands(base, world.trace, settings, request, world.clock, record);
    if error == RunError.NoError {
      record, last := RunAccounts(world, settings, request, accounts, firsts, base);
      NamesFollow(request, world.trace[|base|].inventory.value, accounts, record.accounts);
      EveryResultCountsOnce(record.accounts);
      if record.error == RunError.NoError && record.succeeded + record.skipped != record.discovered {
        record := record.(error := RunError.SomeAccountsFailed);
      }
    }
  }

  /** One run.  Whatever the upstream answers, whichever write fails and whenever it is stopped:
      every reservation and call was admitted on evidence of this run, and spaced; the counters,
      attempts and successes of the record are those of its account list and of the trace; every
      account that was not called has its cause; the run is interrupted only after a stop, and then,
      and only then, puts its claim back, once and last; success means that every account was warmed
      or skipped and that no write had failed when the verdict was taken. */
  method ExecuteRun(world: World, settings: Settings, request: RunRequest)
    returns (record: Record, interrupted: bool, ghost failuresSeen: nat)
    requires settings.retryCount <= MAX_RETRIES
    modifies world
    ensures world.MovesOn() && old(world.trace) <= world.trace
    ensures CallsAdmitted(world.trace, |old(world.trace)|, settings, request)
    ensures CallsSpaced(world.trace, |old(world.trace)|, settings.spacing)
    ensures Recorded(old(world.trace), world.trace, record.accounts) && Counted(record)
    ensures forall i :: 0 <= i < |record.accounts| ==>
              Honest(world.trace, |old(world.trace)|, settings, request, record.accounts[i])
    ensures interrupted ==> world.stopped && LastIs(world.trace, PutBack)
    ensures forall i :: |old(world.trace)| <= i < |world.trace| && world.trace[i].PutBack? ==>
              interrupted && i == |world.trace| - 1
    ensures record.error == RunError.Interrupted ==> interrupted
    ensures interrupted ==> record.error == RunError.Interrupted || record.error == RunError.WriteFailed
    ensures record.error == RunError.WriteFailed ==> old(world.writeFailures) < world.writeFailures
    ensures record.error == RunError.NoError || record.error == RunError.SomeAccountsFailed ==>
              && record.discovered == |record.accounts| > 0
              && record.succeeded + record.skipped + record.failed == record.discovered
              && (record.failed > 0 <==> record.error == RunError.SomeAccountsFailed)
    ensures record.success <==> record.error.NoError?
    ensures record.success ==> failuresSeen == old(world.writeFailures)
    ensures old(world.writeFailures) <= failuresSeen <= world.writeFailures
    ensures OverInventory(world.trace, |old(world.trace)|, settings, request, record, world.stopped)
  {
    hide Standing, Tally, Honest, Recorded, CallsAdmitted, CallsSpaced, OverInventory, Counted;
    ghost var base := world.trace;
    var initial := world.writeFailures;
    ghost var last;
    record, last := GoOverAccounts(world, settings, request);
    ghost var worked, now, before, stopped := world.trace, world.clock, record, world.stopped;
    record, interrupted, failuresSeen := Close(world, record, initial);
    StillCounted(before, record);
    ClosedStands(base, worked, world.trace, settings, request, last, now, record.accounts);
    ClosedOverInventory(worked, world.trace, |base|, settings, request, before, record, stopped, world.stopped);
  }

  lemma ClosedOverInventory(worked: seq<Event>, trace: seq<Event>, start: nat, settings: Settings, request: RunRequest,
                            before: Record, record: Record, stopped: bool, later: bool)
    requires OverInventory(worked, start, settings, request, before, stopped) && worked <= trace && (stopped ==> later)
    requires record == before.(error := record.error, success := record.success)
    requires record.error == before.error || record.error.WriteFailed?
    ensures OverInventory(trace, start, settings, request, record, later)
  {
    hide Passes, Follows, SelectedCount, EarlyError;
  }

  /** Putting the claim back changes nothing of what was recorded and admitted. */
  lemma ClosedStands(base: seq<Event>, worked: seq<Event>, trace: seq<Event>, settings: Settings, request: RunRequest,
                     last: Option<Time>, now: Time, results: seq<AccountResult>)
    requires Standing(base, worked, settings, request, last, now, results)
    requires trace == worked || trace == worked + [PutBack]
    ensures CallsAdmitted(trace, |base|, settings, request) && CallsSpaced(trace, |base|, settings.spacing)
    ensures Recorded(base, trace, results)
    ensures forall i :: 0 <= i < |results| ==> Honest(trace, |base|, settings, request, results[i])
    ensures base <= worked && NothingPutBack(worked, |base|)
  {
    hide Recorded, Honest, Evidence;
    QuietKeepsRecorded(base, worked, trace, results);
    forall i | |base| <= i < |trace| && (trace[i].Called? || trace[i].Reserved?)
      ensures MayWarm(settings, request, trace[i].account) && Evidence(trace, |base|, i, trace[i].account)
    {
      assert i < |worked| && trace[i] == worked[i];
      EvidenceStays(worked, trace, |base|, i, trace[i].account);
    }
    forall i | 0 <= i < |results|
      ensures Honest(trace, |base|, settings, request, results[i])
    {
      HonestStays(worked, trace, |base|, settings, request, results[i]);
    }
  }
}
