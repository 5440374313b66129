/** `executeAccountWithGuard`: the model calls of one account in one run. */
module ModelCalls {
  import opened Clock
  import opened Host

  const MAX_RETRIES: nat := 3
  const BACKOFF: int := 2_000_000_000 // 2 seconds

  predicate SafeToRetryStatus(status: int) {
    status == 408 || status == 502 || status == 503 || status == 504
  }

  predicate ExplicitUnsupportedModel(status: int, namesUnsupported: bool) {
    (status == 400 || status == 404 || status == 422) && namesUnsupported
  }

  // ----- what an answer means -----

  /** The host or the upstream answered with one of the statuses after which the same model may be asked
      again. */
  predicate Retryable(reply: Reply) {
    (reply.HostError? || reply.Response?) && reply.status in {408, 502, 503, 504}
  }

  /** The answer says that the model itself is not supported. */
  predicate Unsupported(reply: Reply) {
    (reply.HostError? || reply.Response?) && reply.status in {400, 404, 422} && reply.namesUnsupported
  }

  predicate Succeeds(reply: Reply) {
    reply.Response? && reply.status / 100 == 2 && reply.validBody
  }

  datatype CallError =
    | NoError
    | InterruptedCall
    | LimitOrWriteFailed
    | ExecutionUncertain
    | DecodeFailed
    | UsageLimitOrHttp(status: int)

  /** The error that a final answer stands for. */
  predicate ErrorTells(reply: Reply, error: CallError) {
    match error
    case NoError => Succeeds(reply)
    case ExecutionUncertain => reply.Uncertain? || (reply.HostError? && reply.status <= 0)
    case DecodeFailed => reply.Undecodable?
    case UsageLimitOrHttp(status) =>
      && ((reply.HostError? && status > 0) || (reply.Response? && !Succeeds(reply)))
      && reply.status == status
    case _ => false
  }

  datatype ModelResult = ModelResult(
    model: string,
    attempts: nat,
    requestSent: bool,
    responseReceived: bool,
    fallbackUsed: bool,
    error: CallError,
    finishedAt: Time)

  // ----- the call trace -----

  /** The calls of a trace, oldest first. */
  function CallsOf(trace: seq<Event>): seq<Event> {
    if trace == [] then []
    else
      var last := trace[|trace| - 1];
      CallsOf(trace[..|trace| - 1]) + if last.Called? then [last] else []
  }

  function ReservationsOf(trace: seq<Event>): nat {
    if trace == [] then 0
    else ReservationsOf(trace[..|trace| - 1]) + if trace[|trace| - 1].Reserved? then 1 else 0
  }

  lemma TraceGrows(trace: seq<Event>, e: Event)
    ensures CallsOf(trace + [e]) == CallsOf(trace) + if e.Called? then [e] else []
    ensures ReservationsOf(trace + [e]) == ReservationsOf(trace) + if e.Reserved? then 1 else 0
  {
    assert (trace + [e])[..|trace|] == trace;
  }

  /** What may follow a call: after a transient status the same model again, no sooner than the
      growing back-off; after an explicit refusal of the configured model the fallback, once. */
  predicate CanFollow(primary: string, fallback: string, first: Event, model: string, attempt: nat, at: Time)
    requires first.Called?
  {
    || (Retryable(first.reply) && model == first.model && attempt == first.attempt + 1
        && first.at + attempt * BACKOFF <= at)
    || (Unsupported(first.reply) && first.model == primary && model == fallback != primary && attempt == 0)
  }

  predicate MayFollow(primary: string, fallback: string, first: Event, second: Event)
    requires first.Called? && second.Called?
  {
    CanFollow(primary, fallback, first, second.model, second.attempt, second.at)
  }

  /** The calls of one session, for any behaviour of the upstream. */
  ghost predicate CallChain(calls: seq<Event>, account: string, primary: string, fallback: string, retries: nat) {
    && (forall i :: 0 <= i < |calls| ==> calls[i].Called? && calls[i].account == account && calls[i].attempt <= retries)
    && (calls != [] ==> calls[0].model == primary && calls[0].attempt == 0)
    && (forall i, j :: 0 <= i && j == i + 1 && j < |calls| ==> MayFollow(primary, fallback, calls[i], calls[j]))
  }

  /** Each call comes directly after its own reservation, and only the last reservation can be left
      without a call. */
  ghost predicate EachReserved(trace: seq<Event>) {
    && (forall i :: 0 <= i < |trace| && trace[i].Called? ==> i > 0 && trace[i - 1].Reserved?)
    && (forall i :: 0 <= i < |trace| - 1 && trace[i].Reserved? ==> trace[i + 1].Called?)
  }

  /** A chain holds at most `2 * (retries + 1)` calls, whatever was answered. */
  lemma {:induction false} ChainIsBounded(
      calls: seq<Event>, account: string, primary: string, fallback: string, retries: nat)
    requires CallChain(calls, account, primary, fallback, retries)
    ensures |calls| <= 2 * (retries + 1)
  {
    if |calls| > 0 {
      ChainPosition(calls, account, primary, fallback, retries, |calls| - 1);
    }
  }

  /** A call of the configured model is preceded only by its own earlier attempts; a call of the
      fallback additionally by the attempts of the configured model. */
  lemma {:induction false} ChainPosition(
      calls: seq<Event>, account: string, primary: string, fallback: string, retries: nat, k: nat)
    requires CallChain(calls, account, primary, fallback, retries) && k < |calls|
    ensures calls[k].model == primary ==> calls[k].attempt == k
    ensures calls[k].model != primary ==>
              calls[k].model == fallback && calls[k].attempt < k <= calls[k].attempt + retries + 1
  {
    if k > 0 {
      ChainPosition(calls, account, primary, fallback, retries, k - 1);
      assert MayFollow(primary, fallback, calls[k - 1], calls[k]);
    }
  }

  /** Nothing follows a success, an uncertain callback, an undecodable answer or any other status. */
  lemma ChainStops(
      calls: seq<Event>, account: string, primary: string, fallback: string, retries: nat, i: nat)
    requires CallChain(calls, account, primary, fallback, retries) && i < |calls|
    requires Succeeds(calls[i].reply) || calls[i].reply.Uncertain? || calls[i].reply.Undecodable?
             || !(Retryable(calls[i].reply) || Unsupported(calls[i].reply))
    ensures i == |calls| - 1
  {
    var next := i + 1;
    if next < |calls| && MayFollow(primary, fallback, calls[i], calls[next]) {
      assert false;
    }
  }

  predicate IsCallStep(e: Event) {
    e.Reserved? || e.ReserveRefused? || e.Called? || e.Waited?
  }

  predicate EndsReserved(trace: seq<Event>) {
    trace != [] && trace[|trace| - 1].Reserved?
  }

  /** The parameters of one session. */
  datatype Session = Session(account: string, primary: string, fallback: string, retries: nat, since: Time)

  /** Every call and reservation of a session is one of its own account, made since it began. */
  predicate IsStepOf(e: Event, p: Session) {
    && IsCallStep(e)
    && (e.Called? || e.Reserved? ==> e.account == p.account && p.since <= e.at)
    && (e.ReserveRefused? ==> e.account == p.account)
  }

  /** What a session may have done so far, for any upstream and any moment of a stop. */
  ghost predicate SessionShape(trace: seq<Event>, p: Session, now: Time) {
    var calls := CallsOf(trace);
    && (forall i :: 0 <= i < |trace| ==> IsStepOf(trace[i], p))
    && EachReserved(trace) && p.since <= now
    && CallChain(calls, p.account, p.primary, p.fallback, p.retries)
    && ReservationsOf(trace) == |calls| + (if EndsReserved(trace) then 1 else 0)
    && (calls != [] ==> calls[|calls| - 1].at <= now)
  }

  /** The session may reserve and make this call next. */
  ghost predicate ReadyFor(trace: seq<Event>, p: Session, model: string, attempt: nat, now: Time) {
    var calls := CallsOf(trace);
    && attempt <= p.retries && !EndsReserved(trace)
    && if calls == [] then model == p.primary && attempt == 0
       else calls[|calls| - 1].Called? && CanFollow(p.primary, p.fallback, calls[|calls| - 1], model, attempt, now)
  }

  /** ... and has just reserved it. */
  ghost predicate HasReserved(trace: seq<Event>, p: Session, model: string, attempt: nat, now: Time) {
    && EndsReserved(trace) && ReadyFor(trace[..|trace| - 1], p, model, attempt, now)
  }

  lemma AfterReserve(trace: seq<Event>, e: Event, p: Session, model: string, attempt: nat, before: Time, now: Time)
    requires SessionShape(trace, p, before) && ReadyFor(trace, p, model, attempt, before)
    requires e.Reserved? && e.account == p.account && before <= e.at <= now
    ensures SessionShape(trace + [e], p, now) && HasReserved(trace + [e], p, model, attempt, now)
  {
    hide CallChain, Retryable, Unsupported, CallsOf, ReservationsOf;
    TraceGrows(trace, e);
    assert (trace + [e])[..|trace|] == trace;
    assert CallsOf(trace) + [] == CallsOf(trace);
  }

  lemma ChainExtends(calls: seq<Event>, e: Event, p: Session)
    requires CallChain(calls, p.account, p.primary, p.fallback, p.retries)
    requires e.Called? && e.account == p.account && e.attempt <= p.retries
    requires if calls == [] then e.model == p.primary && e.attempt == 0
             else calls[|calls| - 1].Called? && MayFollow(p.primary, p.fallback, calls[|calls| - 1], e)
    ensures CallChain(calls + [e], p.account, p.primary, p.fallback, p.retries)
  {
    hide CanFollow, MayFollow;
    var longer := calls + [e];
    forall i, j | 0 <= i && j == i + 1 && j < |longer|
      ensures MayFollow(p.primary, p.fallback, longer[i], longer[j])
    {
      if j < |calls| {
        assert longer[i] == calls[i] && longer[j] == calls[j];
      }
    }
  }

  lemma AfterCall(trace: seq<Event>, e: Event, p: Session, before: Time, now: Time)
    requires SessionShape(trace, p, before) && before <= now && e.Called? && before <= e.at <= now
    requires e.account == p.account && HasReserved(trace, p, e.model, e.attempt, before)
    ensures SessionShape(trace + [e], p, now) && !EndsReserved(trace + [e])
    ensures CallsOf(trace + [e]) == CallsOf(trace) + [e]
  {
    hide CallChain, CallsOf, ReservationsOf, Retryable, Unsupported;
    TraceGrows(trace, e);
    TraceGrows(trace[..|trace| - 1], trace[|trace| - 1]);
    assert trace == trace[..|trace| - 1] + [trace[|trace| - 1]];
    ChainExtends(CallsOf(trace), e, p);
  }

  lemma AfterOther(trace: seq<Event>, e: Event, p: Session, before: Time, now: Time)
    requires SessionShape(trace, p, before) && before <= now && !EndsReserved(trace)
    requires e.Waited? || e == ReserveRefused(p.account)
    ensures SessionShape(trace + [e], p, now) && !EndsReserved(trace + [e])
    ensures CallsOf(trace + [e]) == CallsOf(trace)
  {
    hide CallChain, CallsOf, ReservationsOf;
    TraceGrows(trace, e);
    assert CallsOf(trace) + [] == CallsOf(trace);
  }

  lemma ShapeLater(mine: seq<Event>, p: Session, now: Time, later: Time)
    requires SessionShape(mine, p, now) && now <= later
    ensures SessionShape(mine, p, later)
    ensures |CallsOf(mine)| <= 2 * (p.retries + 1)
  {
    ChainIsBounded(CallsOf(mine), p.account, p.primary, p.fallback, p.retries);
  }

  lemma Later(mine: seq<Event>, p: Session, model: string, attempt: nat, now: Time, later: Time)
    requires SessionShape(mine, p, now) && ReadyFor(mine, p, model, attempt, now) && now <= later
    ensures SessionShape(mine, p, later) && ReadyFor(mine, p, model, attempt, later) && !EndsReserved(mine)
  {
  }

  datatype Verdict = Again | Done(error: CallError, unsupported: bool)

  /** What the code makes of one answer. */
  function Judge(reply: Reply, attempt: nat, retries: nat): Verdict {
    match reply
    case Uncertain => Done(ExecutionUncertain, false)
    case Undecodable => Done(DecodeFailed, false)
    case HostError(status, names) =>
      if status <= 0 then Done(ExecutionUncertain, false) else JudgeStatus(status, names, attempt, retries)
    case Response(status, valid, names) =>
      if status >= 200 && status < 300 && valid then Done(NoError, false)
      else JudgeStatus(status, names, attempt, retries)
  }

  function JudgeStatus(status: int, namesUnsupported: bool, attempt: nat, retries: nat): Verdict {
    var unsupported := ExplicitUnsupportedModel(status, namesUnsupported);
    if unsupported || attempt >= retries || !SafeToRetryStatus(status) then Done(UsageLimitOrHttp(status), unsupported)
    else Again
  }

  /** The same model is tried again exactly after a transient status with a retry left; otherwise the
      verdict says what was answered. */
  predicate Decides(reply: Reply, attempt: nat, retries: nat, verdict: Verdict) {
    if Retryable(reply) && attempt < retries then verdict.Again?
    else verdict.Done? && ErrorTells(reply, verdict.error) && (verdict.unsupported <==> Unsupported(reply))
  }

  lemma JudgeIsFair(reply: Reply, attempt: nat, retries: nat)
    ensures Decides(reply, attempt, retries, Judge(reply, attempt, retries))
  {
  }

  /** After this call the session has to go on: the same model has a retry left, or the configured model
      was refused and there is a fallback. */
  predicate GoesOn(call: Event, p: Session)
    requires call.Called?
  {
    || (Retryable(call.reply) && call.attempt < p.retries)
    || (Unsupported(call.reply) && call.model == p.primary != p.fallback)
  }

  /** The calls so far do not end a session. */
  predicate Unfinished(calls: seq<Event>, p: Session) {
    calls == [] || (calls[|calls| - 1].Called? && GoesOn(calls[|calls| - 1], p))
  }

  lemma ReadyIsUnfinished(trace: seq<Event>, p: Session, model: string, attempt: nat, now: Time)
    requires ReadyFor(trace, p, model, attempt, now)
    ensures Unfinished(CallsOf(trace), p)
  {
    hide CallsOf;
  }

  /** The attempts with a model ended for a reason that the trace shows: a stop or a refused reservation
      before the session was over, or an answer that admits no further attempt. */
  predicate EndsAs(mine: seq<Event>, p: Session, model: string, verdict: Verdict) {
    verdict.Done? ==>
      if verdict.error.InterruptedCall? then Unfinished(CallsOf(mine), p)
      else
        && mine != []
        && var last := mine[|mine| - 1];
           if verdict.error.LimitOrWriteFailed? then last.ReserveRefused? && Unfinished(CallsOf(mine), p)
           else last.Called? && last.model == model && Decides(last.reply, last.attempt, p.retries, verdict)
  }

  predicate LastRefused(trace: seq<Event>) {
    trace != [] && trace[|trace| - 1].ReserveRefused?
  }

  /** The outcome of an attempt agrees with what it added to the trace of the session. */
  ghost predicate AttemptShape(
      mine: seq<Event>, after: seq<Event>, p: Session, model: string, attempt: nat, now: Time,
      verdict: Verdict, reserved: bool, sent: bool)
  {
    var calls := CallsOf(after);
    && SessionShape(after, p, now)
    && ReservationsOf(after) == ReservationsOf(mine) + (if reserved then 1 else 0)
    && |calls| == |CallsOf(mine)| + (if sent then 1 else 0)
    && (!sent ==> calls == CallsOf(mine))
    && (verdict.Again? ==> sent && ReadyFor(after, p, model, attempt + 1, now))
    && EndsAs(after, p, model, verdict)
    && (EndsReserved(after) ==> verdict == Done(InterruptedCall, false))
    && (verdict.Done? && !verdict.error.InterruptedCall? ==>
          && (verdict.error.NoError? <==> sent && Succeeds(calls[|calls| - 1].reply))
          && (verdict.unsupported <==> sent && Unsupported(calls[|calls| - 1].reply)))
    && (verdict.Done? && verdict.unsupported ==> !verdict.error.InterruptedCall? && calls[|calls| - 1].model == model)
    && (sent && (verdict.Again? || verdict.error.InterruptedCall?) ==> !Succeeds(calls[|calls| - 1].reply))
  }

  /** The world has recorded the session's events `mine` after `base`, and time only moves on. */
  twostate predicate Continues(world: World, base: seq<Event>, mine: seq<Event>, new after: seq<Event>)
    reads world
  {
    && world.trace == base + after && mine <= after && world.MovesOn()
  }

  /** The first half of an attempt: the reservation.  `granted` when the call may go out. */
  method ReserveOnce(world: World, p: Session, model: string, attempt: nat, ghost base: seq<Event>,
        ghost mine: seq<Event>)
    returns (granted: bool, verdict: Verdict, reserved: bool, ghost after: seq<Event>)
    requires world.trace == base + mine
    requires SessionShape(mine, p, world.clock) && ReadyFor(mine, p, model, attempt, world.clock)
    modifies world
    ensures Continues(world, base, mine, after)
    ensures SessionShape(after, p, world.clock)
    ensures CallsOf(after) == CallsOf(mine)
    ensures ReservationsOf(after) == ReservationsOf(mine) + (if reserved then 1 else 0)
    ensures granted ==> reserved && HasReserved(after, p, model, attempt, world.clock)
    ensures !granted ==> verdict == Done(InterruptedCall, false) || verdict == Done(LimitOrWriteFailed, false)
    ensures !granted && verdict.error.InterruptedCall? ==> world.stopped
    ensures reserved == EndsReserved(after)
    ensures reserved && !granted ==> verdict == Done(InterruptedCall, false)
    ensures !granted && verdict.error.LimitOrWriteFailed? ==> LastRefused(after)
  {
    hide SessionShape, ReadyFor, HasReserved, CallsOf, ReservationsOf;
    verdict, after := Done(InterruptedCall, false), mine;
    var stop := world.RunStopped();
    Later(mine, p, model, attempt, old(world.clock), world.clock);
    if stop {
      return false, verdict, false, mine;
    }
    ghost var before := world.clock;
    var ok := world.Reserve(p.account);
    ghost var e := world.trace[|world.trace| - 1];
    after := mine + [e];
    TraceGrows(mine, e);
    if !ok {
      AfterOther(mine, e, p, before, world.clock);
      return false, Done(LimitOrWriteFailed, false), false, after;
    }
    stop := world.RunStopped();
    AfterReserve(mine, e, p, model, attempt, before, world.clock);
    assert CallsOf(after) == CallsOf(mine) + [];
    // a persisted reservation is kept even if shutdown wins this race
    return !stop, verdict, true, after;
  }

  method PauseBeforeRetry(world: World, p: Session, duration: int, ghost base: seq<Event>, ghost mine: seq<Event>)
    returns (ok: bool, ghost after: seq<Event>)
    requires world.trace == base + mine && SessionShape(mine, p, world.clock) && !EndsReserved(mine)
    modifies world
    ensures Continues(world, base, mine, after)
    ensures SessionShape(after, p, world.clock) && !EndsReserved(after)
    ensures ReservationsOf(after) == ReservationsOf(mine) && CallsOf(after) == CallsOf(mine)
    ensures if ok then old(world.clock) + duration <= world.clock && after == mine + [Waited(duration)]
            else world.stopped
  {
    hide SessionShape, EndsReserved, CallsOf, ReservationsOf;
    ghost var before := world.clock;
    after := mine;
    ok := world.Wait(duration);
    if ok {
      ghost var e := world.trace[|world.trace| - 1];
      after := mine + [e];
      AfterOther(mine, e, p, before, world.clock);
      TraceGrows(mine, e);
    } else {
      ShapeLater(mine, p, before, world.clock);
    }
  }

  /** A call leads to the verdict on its answer, or to a stop during the pause that follows it. */
  predicate LeadsTo(call: Event, p: Session, model: string, attempt: nat, verdict: Verdict, now: Time) {
    && call.Called? && call.model == model && call.attempt == attempt
    && if Retryable(call.reply) && attempt < p.retries && !verdict.Again? then verdict == Done(InterruptedCall, false)
       else Decides(call.reply, attempt, p.retries, verdict)
            && (verdict.Again? ==> call.at + (attempt + 1) * 2 * SECOND <= now)
  }

  lemma CalledShape(mine: seq<Event>, after: seq<Event>, p: Session, model: string, attempt: nat, now: Time,
        verdict: Verdict)
    requires SessionShape(after, p, now) && !EndsReserved(after) && attempt <= p.retries
    requires ReservationsOf(after) == ReservationsOf(mine) + 1 && |CallsOf(after)| == |CallsOf(mine)| + 1
    requires LeadsTo(CallsOf(after)[|CallsOf(mine)|], p, model, attempt, verdict, now)
    requires EndsAs(after, p, model, verdict)
    ensures AttemptShape(mine, after, p, model, attempt, now, verdict, true, true)
  {
    hide SessionShape, CallsOf, ReservationsOf, EndsReserved, EndsAs;
  }

  lemma NotCalledShape(mine: seq<Event>, after: seq<Event>, p: Session, model: string, attempt: nat, now: Time,
        verdict: Verdict, reserved: bool)
    requires SessionShape(after, p, now) && CallsOf(after) == CallsOf(mine) && reserved == EndsReserved(after)
    requires ReservationsOf(after) == ReservationsOf(mine) + (if reserved then 1 else 0)
    requires verdict == Done(InterruptedCall, false) || verdict == Done(LimitOrWriteFailed, false)
    requires reserved ==> verdict == Done(InterruptedCall, false)
    requires (verdict.error.LimitOrWriteFailed? ==> LastRefused(after)) && Unfinished(CallsOf(mine), p)
    ensures AttemptShape(mine, after, p, model, attempt, now, verdict, reserved, false)
  {
    hide SessionShape, CallsOf, ReservationsOf, EndsReserved, Unfinished;
  }

  /** The second half: the call and, after a transient status, the pause before the next attempt. */
  method CallOnce(world: World, p: Session, model: string, attempt: nat, ghost base: seq<Event>, ghost mine: seq<Event>)
    returns (verdict: Verdict, ghost after: seq<Event>)
    requires world.trace == base + mine
    requires SessionShape(mine, p, world.clock) && HasReserved(mine, p, model, attempt, world.clock)
    modifies world
    ensures Continues(world, base, mine, after)
    ensures SessionShape(after, p, world.clock) && !EndsReserved(after)
    ensures ReservationsOf(after) == ReservationsOf(mine)
    ensures |CallsOf(after)| == |CallsOf(mine)| + 1
    ensures LeadsTo(CallsOf(after)[|CallsOf(mine)|], p, model, attempt, verdict, world.clock)
    ensures verdict.Again? ==> after[|after| - 1] == Waited((attempt + 1) * 2 * SECOND)
    ensures verdict == Done(InterruptedCall, false) ==> world.stopped
    ensures EndsAs(after, p, model, verdict)
  {
    hide SessionShape, HasReserved, CallsOf, ReservationsOf;
    ghost var before := world.clock;
    var reply := world.CallModel(p.account, model, attempt);
    ghost var e := world.trace[|world.trace| - 1];
    after := mine + [e];
    AfterCall(mine, e, p, before, world.clock);
    TraceGrows(mine, e);
    verdict := Judge(reply, attempt, p.retries);
    JudgeIsFair(reply, attempt, p.retries);
    if verdict.Again? {
      var ok;
      ok, after := PauseBeforeRetry(world, p, (attempt + 1) * BACKOFF, base, after);
      if !ok {
        verdict := Done(InterruptedCall, false);
      }
    }
  }

  /** One pass of the attempt loop: reserve, call, and decide whether the same model is tried again.
      `mine` is the trace of the session so far. */
  method AttemptOnce(world: World, p: Session, model: string, attempt: nat, ghost base: seq<Event>,
        ghost mine: seq<Event>)
    returns (verdict: Verdict, reserved: bool, sent: bool, ghost after: seq<Event>)
    requires world.trace == base + mine
    requires SessionShape(mine, p, world.clock) && ReadyFor(mine, p, model, attempt, world.clock)
    modifies world
    ensures Continues(world, base, mine, after)
    ensures AttemptShape(mine, after, p, model, attempt, world.clock, verdict, reserved, sent)
    ensures verdict.Done? && verdict.error.InterruptedCall? ==> world.stopped
  {
    ReadyIsUnfinished(mine, p, model, attempt, world.clock);
    assert attempt <= p.retries;
    hide SessionShape, ReadyFor, HasReserved, CallsOf, ReservationsOf, EndsReserved, EndsAs, Unfinished, LeadsTo,
      AttemptShape;
    var granted;
    granted, verdict, reserved, after := ReserveOnce(world, p, model, attempt, base, mine);
    sent := granted;
    if granted {
      verdict, after := CallOnce(world, p, model, attempt, base, after);
      CalledShape(mine, after, p, model, attempt, world.clock, verdict);
    } else {
      NotCalledShape(mine, after, p, model, attempt, world.clock, verdict, reserved);
    }
  }

  /** The attempts with one model. */
  method TryModel(world: World, p: Session, model: string, ghost base: seq<Event>, ghost mine: seq<Event>)
    returns (verdict: Verdict, attempts: nat, sent: bool, ghost after: seq<Event>)
    requires world.trace == base + mine
    requires SessionShape(mine, p, world.clock) && ReadyFor(mine, p, model, 0, world.clock)
    modifies world
    ensures Continues(world, base, mine, after)
    ensures SessionShape(after, p, world.clock)
    ensures ReservationsOf(after) == ReservationsOf(mine) + attempts
    ensures verdict.Done? && (verdict.error.InterruptedCall? ==> world.stopped)
    ensures EndsReserved(after) ==> verdict == Done(InterruptedCall, false)
    ensures EndsAs(after, p, model, verdict)
    ensures var calls := CallsOf(after);
            && |CallsOf(mine)| <= |calls| && sent == (|CallsOf(mine)| < |calls|)
            && (!sent ==> calls == CallsOf(mine))
            && (sent ==>
                  && (verdict.error.NoError? <==> Succeeds(calls[|calls| - 1].reply))
                  && (verdict.unsupported ==>
                      Unsupported(calls[|calls| - 1].reply) && calls[|calls| - 1].model == model))
            && (!sent ==> !verdict.error.NoError? && !verdict.unsupported)
  {
    hide SessionShape, CanFollow, CallsOf, ReservationsOf, Succeeds, Unsupported;
    var attempt := 0;
    attempts, sent, after := 0, false, mine;
    while true
      invariant Continues(world, base, mine, after)
      invariant SessionShape(after, p, world.clock) && ReadyFor(after, p, model, attempt, world.clock)
      invariant ReservationsOf(after) == ReservationsOf(mine) + attempts
      invariant |CallsOf(mine)| <= |CallsOf(after)| && sent == (|CallsOf(mine)| < |CallsOf(after)|)
      invariant !sent ==> CallsOf(after) == CallsOf(mine)
      invariant sent ==> !Succeeds(CallsOf(after)[|CallsOf(after)| - 1].reply)
      decreases p.retries - attempt
    {
      var reserved, called;
      verdict, reserved, called, after := AttemptOnce(world, p, model, attempt, base, after);
      attempts := attempts + if reserved then 1 else 0;
      sent := sent || called;
      if verdict.Done? {
        break;
      }
      attempt := attempt + 1;
    }
  }

  /** The result tells what the trace of the session shows. */
  ghost predicate ResultAgrees(mine: seq<Event>, result: ModelResult) {
    var calls := CallsOf(mine);
    && result.attempts == ReservationsOf(mine)
    && |calls| <= result.attempts <= |calls| + 1
    && (result.attempts == |calls| + 1 ==> result.error.InterruptedCall?)
    && (result.requestSent <==> calls != [])
    && (result.responseReceived <==>
          calls != [] && calls[|calls| - 1].Called? && Succeeds(calls[|calls| - 1].reply))
  }

  /** With `next` model names left to try, the call before was an explicit refusal. */
  ghost predicate BeforeModel(mine: seq<Event>, p: Session, model: string) {
    var calls := CallsOf(mine);
    && !EndsReserved(mine)
    && if model == p.primary then calls == []
       else model == p.fallback && calls != [] && calls[|calls| - 1].Called?
            && Unsupported(calls[|calls| - 1].reply) && calls[|calls| - 1].model == p.primary
  }

  lemma BeforeModelIsReady(mine: seq<Event>, p: Session, model: string, now: Time)
    requires SessionShape(mine, p, now) && BeforeModel(mine, p, model)
    ensures ReadyFor(mine, p, model, 0, now)
  {
  }

  lemma NothingYet(p: Session, result: ModelResult, now: Time)
    requires result.attempts == 0 && !result.requestSent && !result.responseReceived && p.since <= now
    ensures SessionShape([], p, now) && BeforeModel([], p, p.primary) && ResultAgrees([], result)
  {
  }

  lemma StillAgrees(mine: seq<Event>, result: ModelResult, next: ModelResult)
    requires ResultAgrees(mine, result)
    requires next.attempts == result.attempts && next.requestSent == result.requestSent
    requires next.responseReceived == result.responseReceived
    requires next.error == result.error || next.error.InterruptedCall?
    ensures ResultAgrees(mine, next)
  {
  }

  /** One pass of the model loop. */
  method TryNextModel(world: World, p: Session, model: string, result: ModelResult,
                      ghost base: seq<Event>, ghost mine: seq<Event>)
    returns (next: ModelResult, unsupported: bool, ghost after: seq<Event>)
    requires world.trace == base + mine && SessionShape(mine, p, world.clock)
    requires BeforeModel(mine, p, model) && ResultAgrees(mine, result) && !result.responseReceived
    modifies world
    ensures Continues(world, base, mine, after) && SessionShape(after, p, world.clock)
    ensures ResultAgrees(after, next) && (next.error.InterruptedCall? ==> world.stopped)
    ensures next.model == model && next.fallbackUsed == (model != p.primary)
    ensures EndsAs(after, p, model, Done(next.error, unsupported))
    ensures unsupported ==>
              && !next.responseReceived && !next.error.InterruptedCall?
              && (model == p.primary && p.fallback != p.primary ==> BeforeModel(after, p, p.fallback))
  {
    BeforeModelIsReady(mine, p, model, world.clock);
    var verdict, attempts, sent;
    verdict, attempts, sent, after := TryModel(world, p, model, base, mine);
    next := ModelResult(model, result.attempts + attempts, result.requestSent || sent,
                        verdict.error.NoError?, model != p.primary, verdict.error, world.clock);
    unsupported := verdict.unsupported && !next.error.InterruptedCall?;
  }

  /** The session so far, and the result so far. */
  ghost predicate Progress(mine: seq<Event>, p: Session, now: Time, result: ModelResult) {
    SessionShape(mine, p, now) && ResultAgrees(mine, result) && (result.fallbackUsed ==> p.fallback != p.primary)
    && result.model == if result.fallbackUsed then p.fallback else p.primary
  }

  lemma ProgressLater(mine: seq<Event>, p: Session, result: ModelResult, now: Time, later: Time, next: ModelResult)
    requires Progress(mine, p, now, result) && now <= later
    requires next.(error := result.error, finishedAt := result.finishedAt) == result
    requires next.error == result.error || next.error.InterruptedCall?
    ensures Progress(mine, p, later, next) && |CallsOf(mine)| <= 2 * (p.retries + 1)
  {
    ShapeLater(mine, p, now, later);
    StillAgrees(mine, result, next);
  }

  /** One pass of the model loop, with its stop check; `again` when the next model is to be tried. */
  method ModelPass(world: World, p: Session, model: string, result: ModelResult,
                   ghost base: seq<Event>, ghost mine: seq<Event>)
    returns (next: ModelResult, again: bool, ghost after: seq<Event>)
    requires world.trace == base + mine && Progress(mine, p, world.clock, result)
    requires BeforeModel(mine, p, model) && !result.responseReceived
    modifies world
    ensures Continues(world, base, mine, after) && Progress(after, p, world.clock, next)
    ensures next.error.InterruptedCall? ==> world.stopped
    ensures EndsAs(after, p, model, Done(next.error, again))
    ensures again ==> !next.responseReceived && !next.error.InterruptedCall?
    ensures again && model == p.primary != p.fallback ==> BeforeModel(after, p, p.fallback)
  {
    hide SessionShape, ResultAgrees;
    ghost var before := world.clock;
    var stop := world.RunStopped();
    ShapeLater(mine, p, before, world.clock);
    if stop {
      next := result.(error := InterruptedCall);
      ProgressLater(mine, p, result, before, world.clock, next);
      return next, false, mine;
    }
    var unsupported;
    next, unsupported, after := TryNextModel(world, p, model, result, base, mine);
    assert model == p.primary || model == p.fallback;
    again := !(next.responseReceived || !unsupported || next.error.InterruptedCall?);
  }

  /** A session ends exactly when it is over.  Unless it was stopped or refused a reservation before that,
      its last event is a call after which neither this model nor the fallback had to be asked again, and
      the error says what that call answered. */
  predicate Concluded(mine: seq<Event>, p: Session, error: CallError) {
    if error.InterruptedCall? then Unfinished(CallsOf(mine), p)
    else
      && mine != []
      && var last := mine[|mine| - 1];
         if error.LimitOrWriteFailed? then last.ReserveRefused? && Unfinished(CallsOf(mine), p)
         else last.Called? && !GoesOn(last, p) && ErrorTells(last.reply, error)
  }

  /** The calls of one account in one run.  Whatever the upstream answers and whenever the run is
      stopped, the session has the shape above, and the result tells what happened. */
  method ExecuteAccountWithGuard(world: World, account: string, jobModel: string, fallbackModel: string,
        retryCount: nat)
    returns (result: ModelResult, ghost mine: seq<Event>)
    requires retryCount <= MAX_RETRIES
    modifies world
    ensures Continues(world, old(world.trace), [], mine)
    ensures SessionShape(mine, Session(account, jobModel, fallbackModel, retryCount, old(world.clock)), world.clock)
    ensures |CallsOf(mine)| <= 2 * (retryCount + 1)
    ensures ResultAgrees(mine, result)
    ensures Concluded(mine, Session(account, jobModel, fallbackModel, retryCount, old(world.clock)), result.error)
    ensures result.error.InterruptedCall? ==> world.stopped
    ensures result.model == if result.fallbackUsed then fallbackModel else jobModel
    ensures result.fallbackUsed ==> fallbackModel != jobModel
    ensures result.finishedAt == world.clock
  {
    hide SessionShape, ResultAgrees, BeforeModel, Retryable, Unsupported, ErrorTells;
    var p := Session(account, jobModel, fallbackModel, retryCount, world.clock);
    var models := if fallbackModel != jobModel then [jobModel, fallbackModel] else [jobModel];
    result := ModelResult(jobModel, 0, false, false, false, NoError, world.clock);
    mine := [];
    NothingYet(p, result, world.clock);
    var modelIndex := 0;
    var again := true;
    while again && modelIndex < |models|
      invariant 0 <= modelIndex <= |models|
      invariant Continues(world, old(world.trace), [], mine) && Progress(mine, p, world.clock, result)
      invariant result.error.InterruptedCall? ==> world.stopped
      invariant again ==> !result.responseReceived
      invariant again && modelIndex < |models| ==> BeforeModel(mine, p, models[modelIndex])
      invariant modelIndex == 0 ==> again
      invariant modelIndex > 0 ==> EndsAs(mine, p, models[modelIndex - 1], Done(result.error, again))
    {
      result, again, mine := ModelPass(world, p, models[modelIndex], result, old(world.trace), mine);
      modelIndex := modelIndex + 1;
    }
    ProgressLater(mine, p, result, world.clock, world.clock, result.(finishedAt := world.clock));
    result := result.(finishedAt := world.clock);
  }

  /** A session reports no error if and only if its last call was answered with success, in which case it
      was not interrupted either. */
  lemma SuccessIsReported(mine: seq<Event>, p: Session, result: ModelResult, now: Time)
    requires SessionShape(mine, p, now) && ResultAgrees(mine, result) && Concluded(mine, p, result.error)
    ensures result.error.NoError? <==> result.responseReceived
    ensures result.error.NoError? <==>
              CallsOf(mine) != [] && CallsOf(mine)[|CallsOf(mine)| - 1].Called?
              && Succeeds(CallsOf(mine)[|CallsOf(mine)| - 1].reply)
  {
    hide CallChain, EachReserved;
  }

  /** A session without any attempt was refused its first reservation, or interrupted. */
  lemma NoAttempt(mine: seq<Event>, p: Session, result: ModelResult, now: Time)
    requires SessionShape(mine, p, now) && ResultAgrees(mine, result) && Concluded(mine, p, result.error)
    requires result.attempts == 0 && !result.error.InterruptedCall?
    ensures mine != [] && mine[|mine| - 1] == ReserveRefused(p.account)
  {
    hide CallChain, EachReserved, Unfinished, GoesOn;
    assert IsStepOf(mine[|mine| - 1], p);
  }
}
