/** The world a run acts on: the clock, the stop channel, the upstream and the state file.

    Nothing about the upstream, the file system or the moment of a stop is known in advance, so the
    methods answer arbitrarily within their contracts.  `trace` lists what the run did. */
module Host {
  import opened Clock
  import opened Options
  import opened Quota
  import FetchPool

  /** The answer of one model execution: a refusal by the host with an HTTP status, an uncertain
      callback, undecodable bytes, or a response.  `namesUnsupported` is a well-formed error body
      whose code says that the model is not supported. */
  datatype Reply =
    | HostError(status: int, namesUnsupported: bool)
    | Uncertain
    | Undecodable
    | Response(status: int, validBody: bool, namesUnsupported: bool)

  /** The outcome of the first query of an account. */
  datatype First = Observed(observation: Observation) | QueryFailed | NotFetched

  datatype Event =
    | Fetched(account: string, observation: Observation)
    | FetchFailed(account: string)
    | Saved(account: string, observation: Observation)
    | SaveFailed(account: string)
    | WarmChecked(account: string, reason: WarmReason)
    | Waited(duration: int)
    | Reserved(account: string, at: Time)
    | ReserveRefused(account: string)
    | Called(account: string, model: string, attempt: nat, reply: Reply, at: Time)
    | SessionEnded(account: string, finishedAt: Time)
    | PutBack // requeueInterrupted
    | Listed(inventory: Option<seq<string>>) // the host's accounts, or that it could not list them

  class World {
    var clock: Time
    var stopped: bool
    var writeFailures: nat
    var trace: seq<Event>

    constructor (clock: Time)
      ensures this.clock == clock && !stopped && writeFailures == 0 && trace == []
    {
      this.clock, this.stopped, this.writeFailures, this.trace := clock, false, 0, [];
    }

    /** What can happen at any moment: time goes by, the stop channel is closed, and a write of some
        other thread fails. */
    twostate predicate MovesOn()
      reads this
    {
      old(clock) <= clock && (old(stopped) ==> stopped) && old(writeFailures) <= writeFailures
    }

    method Pass()
      modifies this`clock, this`stopped, this`writeFailures
      ensures MovesOn()
    {
      var elapsed :| 0 <= elapsed;
      var failures :| 0 <= failures;
      var stop: bool := *;
      clock, stopped, writeFailures := clock + elapsed, stopped || stop, writeFailures + failures;
    }

    method RunStopped() returns (stop: bool)
      modifies this`clock, this`stopped, this`writeFailures
      ensures MovesOn() && stop == stopped
    {
      Pass();
      stop := stopped;
    }

    /** `waitForRun`: false as soon as the stop channel is closed. */
    method Wait(duration: int) returns (ok: bool)
      modifies this
      ensures MovesOn()
      ensures ok ==> old(clock) + duration <= clock && trace == old(trace) + [Waited(duration)]
      ensures !ok ==> stopped && trace == old(trace)
    {
      Pass();
      if stopped {
        return false;
      }
      if duration > 0 {
        var before := clock;
        Pass();
        if stopped {
          return false;
        }
        if clock < before + duration {
          clock := before + duration;
        }
      }
      trace := trace + [Waited(duration)];
      return true;
    }

    method Fetch(account: string) returns (observation: Option<Observation>)
      modifies this
      ensures MovesOn()
      ensures trace == old(trace) + [if observation.Some? then Fetched(account, observation.value)
                else FetchFailed(account)]
      ensures observation.Some? ==> old(clock) <= observation.value.checkedAt <= clock
    {
      Pass();
      var answered: bool := *;
      if answered {
        var o: Observation := *;
        observation := Some(o.(checkedAt := clock));
        trace := trace + [Fetched(account, observation.value)];
      } else {
        observation := None;
        trace := trace + [FetchFailed(account)];
      }
      Pass();
    }

    /** A write of the state file that is not part of the evidence. */
    method Persist() returns (ok: bool)
      modifies this`clock, this`stopped, this`writeFailures
      ensures MovesOn() && (!ok ==> old(writeFailures) < writeFailures)
    {
      Pass();
      ok := *;
      if !ok {
        writeFailures := writeFailures + 1;
      }
    }

    /** A bookkeeping write, or none at all; its success is not looked at. */
    method PersistPerhaps()
      modifies this`clock, this`stopped, this`writeFailures
      ensures MovesOn()
    {
      var needed: bool := *;
      if needed {
        var _ := Persist();
      }
    }

    method SaveQuota(account: string, observation: Observation) returns (ok: bool)
      modifies this
      ensures MovesOn() && (!ok ==> old(writeFailures) < writeFailures)
      ensures trace == old(trace) + [if ok then Saved(account, observation) else SaveFailed(account)]
    {
      ok := Persist();
      trace := trace + [if ok then Saved(account, observation) else SaveFailed(account)];
    }

    method WarmLimit(account: string) returns (reason: WarmReason)
      modifies this
      ensures MovesOn()
      ensures trace == old(trace) + [WarmChecked(account, reason)]
    {
      Pass();
      reason := *;
      trace := trace + [WarmChecked(account, reason)];
    }

    /** `reserveAttempt`: refused by the limit or by a failed write. */
    method Reserve(account: string) returns (ok: bool)
      modifies this
      ensures MovesOn()
      ensures ok ==> exists at :: old(clock) <= at <= clock && trace == old(trace) + [Reserved(account, at)]
      ensures !ok ==> trace == old(trace) + [ReserveRefused(account)]
    {
      Pass();
      var at := clock;
      ok := *;
      if ok {
        ok := Persist();
      }
      trace := trace + [if ok then Reserved(account, at) else ReserveRefused(account)];
    }

    method CallModel(account: string, model: string, attempt: nat) returns (reply: Reply)
      modifies this
      ensures MovesOn()
      ensures exists at :: old(clock) <= at <= clock
                && trace == old(trace) + [Called(account, model, attempt, reply, at)]
    {
      Pass();
      reply := *;
      trace := trace + [Called(account, model, attempt, reply, clock)];
      Pass();
    }

    method EndSession(account: string, finishedAt: Time)
      modifies this
      ensures MovesOn() && trace == old(trace) + [SessionEnded(account, finishedAt)]
    {
      var _ := Persist(); // recordAccountResult
      trace := trace + [SessionEnded(account, finishedAt)];
    }

    /** `requeueInterrupted`. */
    method PutBackClaims()
      modifies this
      ensures MovesOn() && trace == old(trace) + [PutBack]
    {
      PersistPerhaps();
      trace := trace + [PutBack];
    }

    /** The host's list of accounts, already filtered and sorted. */
    method ListAccounts() returns (accounts: Option<seq<string>>)
      modifies this
      ensures MovesOn() && trace == old(trace) + [Listed(accounts)]
    {
      Pass();
      accounts := *;
      trace := trace + [Listed(accounts)];
    }

    /** The first query of every account: one result per account, delivered by the worker pool.  An
        account is left out only after a stop. */
    method FetchInitial(accounts: seq<string>) returns (results: seq<First>)
      modifies this`clock, this`stopped, this`writeFailures
      ensures MovesOn() && |results| == |accounts|
      ensures forall i :: 0 <= i < |results| && results[i].Observed? ==> results[i].observation.checkedAt <= clock
      ensures (exists i :: 0 <= i < |results| && results[i].NotFetched?) ==> stopped
    {
      var before := stopped;
      var answers := PossibleAnswers(|accounts|);
      var outcomes, stop;
      ghost var started;
      outcomes, stop, started := FetchPool.FetchInitialUsagesUntil(answers, before);
      stopped := stopped || stop;
      results := seq(|outcomes|, i requires 0 <= i < |outcomes| => FirstOf(outcomes[i]));
    }

    /** What the upstream would answer to each account, and when. */
    method PossibleAnswers(count: nat) returns (answers: seq<Option<Observation>>)
      modifies this`clock, this`stopped, this`writeFailures
      ensures MovesOn() && |answers| == count
      ensures forall i :: 0 <= i < |answers| && answers[i].Some? ==> answers[i].value.checkedAt <= clock
    {
      answers := [];
      while |answers| < count
        invariant MovesOn() && |answers| <= count
        invariant forall i :: 0 <= i < |answers| && answers[i].Some? ==> answers[i].value.checkedAt <= clock
      {
        Pass();
        var o: Observation := *;
        var answered: bool := *;
        answers := answers + [if answered then Some(o.(checkedAt := clock)) else None];
      }
    }
  }

  function FirstOf(outcome: FetchPool.Outcome<Option<Observation>>): First {
    match outcome
    case Fetched(Some(observation)) => Observed(observation)
    case Fetched(None) => QueryFailed
    case _ => NotFetched
  }
}
