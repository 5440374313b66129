/** The first quota queries: one goroutine per account, three tokens, and a stop channel. */
module FetchPool {
  const TOKENS: nat := 3

  /** A worker waits for a token, holds one, is inside its fetch, or has ended.  `late`: it got its token
      after the stop channel was closed. */
  datatype Worker = Waiting | Holding(late: bool) | Fetching | Ended

  datatype Outcome<T> = Unset | Interrupted | Fetched(value: T)

  predicate Active(w: Worker) {
    w.Holding? || w.Fetching?
  }

  /** How many workers hold a token. */
  function ActiveCount(workers: seq<Worker>): nat {
    if workers == [] then 0
    else ActiveCount(workers[..|workers| - 1]) + if Active(workers[|workers| - 1]) then 1 else 0
  }

  lemma {:induction false} ActiveAfter(workers: seq<Worker>, i: nat, w: Worker)
    requires i < |workers|
    ensures ActiveCount(workers[i := w])
            == ActiveCount(workers) - (if Active(workers[i]) then 1 else 0) + (if Active(w) then 1 else 0)
  {
    var next := workers[i := w];
    if i < |workers| - 1 {
      ActiveAfter(workers[..|workers| - 1], i, w);
      assert next[..|next| - 1] == workers[..|workers| - 1][i := w];
    } else {
      assert next[..|next| - 1] == workers[..|workers| - 1];
    }
  }

  /** Steps that a worker can still take. */
  function StepsLeft(w: Worker): nat {
    match w
    case Waiting => 3
    case Holding(_) => 2
    case Fetching => 1
    case Ended => 0
  }

  function AllStepsLeft(workers: seq<Worker>): nat {
    if workers == [] then 0
    else AllStepsLeft(workers[..|workers| - 1]) + StepsLeft(workers[|workers| - 1])
  }

  lemma {:induction false} StepsAfter(workers: seq<Worker>, i: nat, w: Worker)
    requires i < |workers|
    ensures AllStepsLeft(workers[i := w]) == AllStepsLeft(workers) - StepsLeft(workers[i]) + StepsLeft(w)
  {
    var next := workers[i := w];
    if i < |workers| - 1 {
      StepsAfter(workers[..|workers| - 1], i, w);
      assert next[..|next| - 1] == workers[..|workers| - 1][i := w];
    } else {
      assert next[..|next| - 1] == workers[..|workers| - 1];
    }
  }

  /** `fetches` logs the index and the answer of every fetch that returned; `started` the indices of
      every fetch that began. */
  datatype Pool<T> = Pool(
    workers: seq<Worker>,
    free: int,
    stopped: bool,
    results: seq<Outcome<T>>,
    started: seq<nat>,
    fetches: seq<(nat, T)>)

  datatype Action<T> =
    | Stop
    | GiveUp(i: nat)            // the select takes the closed stop channel
    | TakeToken(i: nat)         // ... or a free token; with both ready it may take either
    | CheckStop(i: nat)
    | FetchReturns(i: nat, value: T)

  predicate Enabled<T>(p: Pool<T>, a: Action<T>) {
    match a
    case Stop => !p.stopped
    case GiveUp(i) => i < |p.workers| == |p.results| && p.workers[i].Waiting? && p.stopped
    case TakeToken(i) => i < |p.workers| && p.workers[i].Waiting? && p.free > 0
    case CheckStop(i) => i < |p.workers| == |p.results| && p.workers[i].Holding?
    case FetchReturns(i, _) => i < |p.workers| == |p.results| && p.workers[i].Fetching?
  }

  function Apply<T>(p: Pool<T>, a: Action<T>): Pool<T>
    requires Enabled(p, a)
  {
    match a
    case Stop => p.(stopped := true)
    case GiveUp(i) => p.(workers := p.workers[i := Ended], results := p.results[i := Interrupted])
    case TakeToken(i) => p.(workers := p.workers[i := Holding(p.stopped)], free := p.free - 1)
    case CheckStop(i) =>
      if p.stopped
      then p.(workers := p.workers[i := Ended], results := p.results[i := Interrupted], free := p.free + 1)
      else p.(workers := p.workers[i := Fetching], started := p.started + [i])
    case FetchReturns(i, value) =>
      p.(workers := p.workers[i := Ended], results := p.results[i := Fetched(value)], free := p.free + 1,
         fetches := p.fetches + [(i, value)])
  }

  ghost predicate Initial<T>(p: Pool<T>) {
    && |p.results| == |p.workers| && p.free == TOKENS && p.started == [] && p.fetches == []
    && (forall i :: 0 <= i < |p.workers| ==> p.workers[i].Waiting? && p.results[i].Unset?)
  }

  // ----- invariant -----

  ghost predicate Once(list: seq<nat>) {
    forall a, b :: 0 <= a < b < |list| ==> list[a] != list[b]
  }

  /** A result tells what its own worker did. */
  ghost predicate ResultOk<T>(p: Pool<T>, i: nat)
    requires i < |p.workers| == |p.results|
  {
    && (p.results[i].Unset? <==> !p.workers[i].Ended?)
    && (p.results[i].Interrupted? ==> p.stopped && i !in p.started)
    && (p.results[i].Fetched? ==> (i, p.results[i].value) in p.fetches)
    && (p.workers[i].Waiting? || p.workers[i].Holding? ==> i !in p.started)
    && (p.workers[i].Holding? && p.workers[i].late ==> p.stopped)
    && (p.workers[i].Fetching? ==> i in p.started)
  }

  ghost predicate Inv<T>(p: Pool<T>) {
    && |p.results| == |p.workers|
    && 0 <= p.free && p.free + ActiveCount(p.workers) == TOKENS
    && Once(p.started)
    && (forall k :: 0 <= k < |p.fetches| ==> p.fetches[k].0 in p.started)
    && (forall i :: 0 <= i < |p.workers| ==> ResultOk(p, i))
  }

  lemma {:induction false} NoneActive(workers: seq<Worker>)
    requires forall i :: 0 <= i < |workers| ==> workers[i].Waiting?
    ensures ActiveCount(workers) == 0
  {
    if workers != [] {
      NoneActive(workers[..|workers| - 1]);
    }
  }

  lemma InitialInv<T>(p: Pool<T>)
    requires Initial(p)
    ensures Inv(p)
  {
    NoneActive(p.workers);
  }

  /** A step of worker `i` that starts no fetch leaves the other workers' results alone. */
  lemma OthersStay<T>(p: Pool<T>, t: Pool<T>, i: nat)
    requires Inv(p) && i < |p.workers| && |t.workers| == |p.workers| && |t.results| == |p.results|
    requires forall k :: 0 <= k < |p.workers| && k != i ==> t.workers[k] == p.workers[k] && t.results[k] == p.results[k]
    requires (t.stopped == p.stopped) && (t.started == p.started || t.started == p.started + [i])
    requires forall f :: f in p.fetches ==> f in t.fetches
    ensures forall k :: 0 <= k < |t.workers| && k != i ==> ResultOk(t, k)
  {
    hide ActiveCount;
    forall k | 0 <= k < |t.workers| && k != i
      ensures ResultOk(t, k)
    {
      assert ResultOk(p, k);
    }
  }

  lemma GiveUpStep<T>(p: Pool<T>, i: nat)
    requires Inv(p) && Enabled(p, GiveUp(i))
    ensures Inv(Apply(p, GiveUp(i)))
  {
    hide ActiveCount;
    ActiveAfter(p.workers, i, Ended);
    assert ResultOk(p, i);
    OthersStay(p, Apply(p, GiveUp(i)), i);
  }

  lemma TakeTokenStep<T>(p: Pool<T>, i: nat)
    requires Inv(p) && Enabled(p, TakeToken(i))
    ensures Inv(Apply(p, TakeToken(i)))
  {
    hide ActiveCount;
    ActiveAfter(p.workers, i, Holding(p.stopped));
    assert ResultOk(p, i);
    OthersStay(p, Apply(p, TakeToken(i)), i);
  }

  lemma CheckStopStep<T>(p: Pool<T>, i: nat)
    requires Inv(p) && Enabled(p, CheckStop(i))
    ensures Inv(Apply(p, CheckStop(i)))
  {
    hide ActiveCount;
    ActiveAfter(p.workers, i, if p.stopped then Ended else Fetching);
    assert ResultOk(p, i);
    OthersStay(p, Apply(p, CheckStop(i)), i);
  }

  lemma FetchReturnsStep<T>(p: Pool<T>, i: nat, value: T)
    requires Inv(p) && Enabled(p, FetchReturns(i, value)) && i in p.started
    ensures Inv(Apply(p, FetchReturns(i, value)))
  {
    hide ActiveCount;
    ActiveAfter(p.workers, i, Ended);
    FetchLogged(p, i, value);
    assert ResultOk(p, i);
    OthersStay(p, Apply(p, FetchReturns(i, value)), i);
  }

  lemma FetchLogged<T>(p: Pool<T>, i: nat, value: T)
    ensures (i, value) in p.fetches + [(i, value)]
    ensures forall f :: f in p.fetches ==> f in p.fetches + [(i, value)]
  {
    assert (p.fetches + [(i, value)])[|p.fetches|] == (i, value);
  }

  lemma StopStep<T>(p: Pool<T>)
    requires Inv(p)
    ensures Inv(p.(stopped := true))
  {
    var t := p.(stopped := true);
    forall i | 0 <= i < |t.workers|
      ensures ResultOk(t, i)
    {
      assert ResultOk(p, i);
    }
  }

  lemma StepKeepsInv<T>(p: Pool<T>, a: Action<T>)
    requires Inv(p) && Enabled(p, a)
    ensures Inv(Apply(p, a))
  {
    hide ActiveCount, Once;
    match a
    case Stop => StopStep(p);
    case GiveUp(i) => GiveUpStep(p, i);
    case TakeToken(i) => TakeTokenStep(p, i);
    case CheckStop(i) => CheckStopStep(p, i);
    case FetchReturns(i, value) =>
      assert ResultOk(p, i);
      FetchReturnsStep(p, i, value);
  }

  // ----- whole runs -----

  ghost predicate IsRun<T>(states: seq<Pool<T>>, actions: seq<Action<T>>) {
    && |states| == |actions| + 1 && Initial(states[0])
    && forall k :: 0 <= k < |actions| ==>
        Enabled(states[k], actions[k]) && states[k + 1] == Apply(states[k], actions[k])
  }

  lemma {:induction false} RunInv<T>(states: seq<Pool<T>>, actions: seq<Action<T>>, n: nat)
    requires IsRun(states, actions) && n < |states|
    ensures Inv(states[n]) && |states[n].workers| == |states[0].workers|
  {
    hide Inv, Initial;
    if n == 0 {
      InitialInv(states[0]);
    } else {
      RunInv(states, actions, n - 1);
      StepKeepsInv(states[n - 1], actions[n - 1]);
      assert states[n] == Apply(states[n - 1], actions[n - 1]);
    }
  }

  function FetchingCount(workers: seq<Worker>): nat {
    if workers == [] then 0
    else FetchingCount(workers[..|workers| - 1]) + if workers[|workers| - 1].Fetching? then 1 else 0
  }

  lemma {:induction false} FetchingIsActive(workers: seq<Worker>)
    ensures FetchingCount(workers) <= ActiveCount(workers)
  {
    if workers != [] {
      FetchingIsActive(workers[..|workers| - 1]);
    }
  }

  /** For any number of accounts and any interleaving: at most three fetches at a time, each account is
      fetched at most once, its answer lands at its own index, and an account without a fetch reads
      "interrupted", which happens only after the stop. */
  lemma PoolIsSafe<T>(states: seq<Pool<T>>, actions: seq<Action<T>>, n: nat, i: nat)
    requires IsRun(states, actions) && n < |states| && i < |states[0].workers|
    ensures var p := states[n];
            && |p.results| == |p.workers| == |states[0].workers|
            && FetchingCount(p.workers) <= TOKENS
            && Once(p.started)
            && (p.workers[i].Ended? <==> !p.results[i].Unset?)
            && (p.results[i].Interrupted? ==> p.stopped && i !in p.started)
            && (p.results[i].Fetched? ==> (i, p.results[i].value) in p.fetches && i in p.started)
  {
    hide Once;
    RunInv(states, actions, n);
    FetchingIsActive(states[n].workers);
    var p := states[n];
    assert ResultOk(p, i);
    if p.results[i].Fetched? {
      var k :| 0 <= k < |p.fetches| && p.fetches[k] == (i, p.results[i].value);
      assert p.fetches[k].0 in p.started;
    }
  }

  /** The worker got its token after the stop, or has ended because of it. */
  predicate Lost<T>(p: Pool<T>, i: nat) {
    && i < |p.workers| == |p.results|
    && ((p.workers[i].Holding? && p.workers[i].late && p.stopped) || (p.workers[i].Ended? && p.results[i].Interrupted?))
    && i !in p.started
  }

  lemma LostStays<T>(p: Pool<T>, a: Action<T>, i: nat)
    requires Lost(p, i) && Enabled(p, a)
    ensures Lost(Apply(p, a), i)
  {
  }

  /** A worker that gets its token after the stop never fetches. */
  lemma {:induction false} LateWorkerNeverFetches<T>(states: seq<Pool<T>>, actions: seq<Action<T>>, n: nat, m: nat,
        i: nat)
    requires IsRun(states, actions) && n <= m < |states| && i < |states[n].workers|
    requires states[n].workers[i] == Holding(true)
    ensures Lost(states[m], i)
  {
    if m == n {
      RunInv(states, actions, n);
      assert ResultOk(states[n], i);
    } else {
      hide Lost, Inv;
      LateWorkerNeverFetches(states, actions, n, m - 1, i);
      LostStays(states[m - 1], actions[m - 1], i);
    }
  }

  // ----- termination -----

  /** Every step of a worker brings the pool closer to its end. */
  lemma StepsDecrease<T>(p: Pool<T>, a: Action<T>)
    requires Enabled(p, a) && !a.Stop?
    ensures AllStepsLeft(Apply(p, a).workers) < AllStepsLeft(p.workers)
  {
    hide AllStepsLeft;
    match a
    case GiveUp(i) => StepsAfter(p.workers, i, Ended);
    case TakeToken(i) => StepsAfter(p.workers, i, Holding(p.stopped));
    case CheckStop(i) => StepsAfter(p.workers, i, if p.stopped then Ended else Fetching);
    case FetchReturns(i, _) => StepsAfter(p.workers, i, Ended);
  }

  lemma {:induction false} SomeoneIsActive(workers: seq<Worker>) returns (i: nat)
    requires ActiveCount(workers) > 0
    ensures i < |workers| && Active(workers[i])
  {
    if Active(workers[|workers| - 1]) {
      i := |workers| - 1;
    } else {
      i := SomeoneIsActive(workers[..|workers| - 1]);
    }
  }

  /** The step that worker `i` can take. */
  function StepOf<T>(p: Pool<T>, i: nat, answer: T): Action<T>
    requires i < |p.workers|
  {
    match p.workers[i]
    case Waiting => if p.stopped then GiveUp(i) else TakeToken(i)
    case Holding(_) => CheckStop(i)
    case _ => FetchReturns(i, answer)
  }

  lemma CanGoOn<T>(p: Pool<T>, waiting: nat) returns (i: nat)
    requires Inv(p) && waiting < |p.workers| && !p.workers[waiting].Ended?
    ensures i < |p.workers| && !p.workers[i].Ended? && (p.workers[i].Waiting? ==> p.stopped || p.free > 0)
  {
    if p.workers[waiting].Waiting? && p.free == 0 {
      i := SomeoneIsActive(p.workers);
    } else {
      i := waiting;
    }
  }

  /** Until all workers have ended, one of them can go on: the pool never waits for itself. */
  lemma PoolMakesProgress<T>(p: Pool<T>, answer: T, waiting: nat) returns (i: nat)
    requires Inv(p) && waiting < |p.workers| && !p.workers[waiting].Ended?
    ensures i < |p.workers| && Enabled(p, StepOf(p, i, answer))
  {
    i := CanGoOn(p, waiting);
  }

  // ----- the method -----

  /** The pool as a scheduler that picks any worker that can go on, and closes the stop channel at any
      moment. */
  class Runner<T> {
    var workers: seq<Worker>
    var free: int
    var stopped: bool
    var results: array<Outcome<T>>
    ghost var started: seq<nat>
    ghost var fetches: seq<(nat, T)>

    constructor (n: nat, stopped: bool)
      ensures Initial(State()) && results.Length == n && fresh(results) && this.stopped == stopped
    {
      workers := seq(n, _ => Waiting);
      free, started, fetches := TOKENS, [], [];
      this.stopped := stopped;
      results := new Outcome<T>[n](_ => Unset);
      new;
      assert results[..] == seq(n, _ => Unset);
    }

    ghost function State(): Pool<T>
      reads this, results
    {
      Pool(workers, free, stopped, results[..], started, fetches)
    }

    /** One step of one worker. */
    method Step(i: nat, giveUp: bool, answer: T) returns (a: Action<T>)
      requires i < |workers| == results.Length && !workers[i].Ended?
      requires workers[i].Waiting? ==> if giveUp then stopped else free > 0
      modifies this`workers, this`free, this`started, this`fetches, results
      ensures !a.Stop? && Enabled(old(State()), a) && State() == Apply(old(State()), a)
      ensures a.FetchReturns? ==> a == FetchReturns(i, answer)
    {
      match workers[i]
      case Waiting =>
        if giveUp {
          a := GiveUp(i);
          results[i] := Interrupted;
          workers := workers[i := Ended];
        } else {
          a := TakeToken(i);
          workers, free := workers[i := Holding(stopped)], free - 1;
        }
      case Holding(_) =>
        a := CheckStop(i);
        if stopped {
          results[i] := Interrupted;
          workers, free := workers[i := Ended], free + 1;
        } else {
          workers, started := workers[i := Fetching], started + [i];
        }
      case Fetching =>
        a := FetchReturns(i, answer);
        results[i] := Fetched(answer);
        workers, free, fetches := workers[i := Ended], free + 1, fetches + [(i, answer)];
    }
  }

  ghost predicate Delivered<T>(p: Pool<T>, answers: seq<T>) {
    && |p.results| == |answers|
    && forall i :: 0 <= i < |p.results| && p.results[i].Fetched? ==> p.results[i].value == answers[i]
  }

  lemma StepDelivers<T>(p: Pool<T>, a: Action<T>, answers: seq<T>)
    requires Enabled(p, a) && Delivered(p, answers)
    requires a.FetchReturns? ==> a.i < |answers| && a.value == answers[a.i]
    ensures Delivered(Apply(p, a), answers)
  {
  }

  /** `fetchInitialUsagesUntil`, where `answers[i]` is what the query of account `i` would answer.  The
      loop ends, whatever the scheduler picks and whenever the stop comes: every index then holds the
      answer of its own query, or "interrupted" if its query was never made because of the stop.  With
      the channel closed beforehand no query is made. */
  method FetchInitialUsagesUntil<T>(answers: seq<T>, stoppedBefore: bool)
    returns (results: seq<Outcome<T>>, stopped: bool, ghost started: seq<nat>)
    ensures stoppedBefore ==> stopped && started == []
    ensures |results| == |answers| && Once(started)
    ensures forall i :: 0 <= i < |results| ==>
              if i in started then results[i] == Fetched(answers[i]) else results[i] == Interrupted && stopped
  {
    hide Inv, Enabled, Apply, Initial;
    var pool := new Runner<T>(|answers|, stoppedBefore);
    ghost var slots := pool.results;
    InitialInv(pool.State());
    Empty(pool.State(), answers);
    while exists i :: 0 <= i < |pool.workers| && !pool.workers[i].Ended?
      invariant pool.results == slots && fresh(pool) && fresh(slots) && slots.Length == |answers|
      invariant Inv(pool.State()) && |pool.workers| == |answers| && Delivered(pool.State(), answers)
      invariant stoppedBefore ==> pool.stopped && pool.started == []
      decreases AllStepsLeft(pool.workers), if pool.stopped then 0 else 1
    {
      var stop: bool := *;
      if stop && !pool.stopped {
        StopStep(pool.State());
        pool.stopped := true;
      } else {
        ghost var before := pool.State();
        ghost var waiting :| 0 <= waiting < |pool.workers| && !pool.workers[waiting].Ended?;
        ghost var next := CanGoOn(before, waiting);
        var i :| 0 <= i < |pool.workers| && !pool.workers[i].Ended?
                 && (pool.workers[i].Waiting? ==> pool.stopped || pool.free > 0);
        var either: bool := *;
        var a := pool.Step(i, pool.stopped && (either || pool.free <= 0), answers[i]);
        StepKeepsInv(before, a);
        StepsDecrease(before, a);
        StepDelivers(before, a, answers);
        SameLength(before, a);
        StoppedStartsNothing(before, a);
      }
    }
    results, stopped, started := pool.results[..], pool.stopped, pool.started;
    AllEnded(pool.State(), answers);
  }

  lemma StoppedStartsNothing<T>(p: Pool<T>, a: Action<T>)
    requires Enabled(p, a)
    ensures p.stopped ==> Apply(p, a).stopped && Apply(p, a).started == p.started
  {
  }

  lemma Empty<T>(p: Pool<T>, answers: seq<T>)
    requires Initial(p) && |p.workers| == |answers|
    ensures Delivered(p, answers)
  {
  }

  lemma SameLength<T>(p: Pool<T>, a: Action<T>)
    requires Enabled(p, a)
    ensures |Apply(p, a).workers| == |p.workers| && |Apply(p, a).results| == |p.results|
  {
  }

  lemma AllEnded<T>(p: Pool<T>, answers: seq<T>)
    requires Inv(p) && Delivered(p, answers) && forall i :: 0 <= i < |p.workers| ==> p.workers[i].Ended?
    ensures Once(p.started)
    ensures forall i :: 0 <= i < |p.results| ==>
              if i in p.started then p.results[i] == Fetched(answers[i]) else p.results[i] == Interrupted && p.stopped
  {
    hide Once;
    forall i | 0 <= i < |p.results|
      ensures if i in p.started then p.results[i] == Fetched(answers[i]) else p.results[i] == Interrupted && p.stopped
    {
      assert ResultOk(p, i);
      if p.results[i].Fetched? {
        var k :| 0 <= k < |p.fetches| && p.fetches[k] == (i, p.results[i].value);
        assert p.fetches[k].0 in p.started;
      }
    }
  }
}
