/** The one state file and the mutex in front of it.

    Any number of threads call `persistState` and `saveAccountDisplay` while others change memory
    under their own lock.  `history` lists every value memory has had since the process started, so
    a position in it is a version number. */
module Durability {
  import opened Options

  datatype Memory<D, R> = Memory(display: D, rest: R)

  /** Where a thread stands inside `persistState`: it entered at version `call`, and once it holds
      the mutex it works on a copy of memory taken at version `at`. */
  datatype Pc<D, R> = Outside | Waiting(call: nat) | Writing(call: nat, at: nat, copy: Memory<D, R>)

  datatype Store<D, R> = Store(
    history: seq<Memory<D, R>>,
    disk: Memory<D, R>,
    diskVersion: nat,
    lock: Option<nat>,
    pcs: map<nat, Pc<D, R>>)

  datatype Action<D, R> =
    | Mutate(next: R)
    | Enter(thread: nat)
    | LockAndCopy(thread: nat)
    | Finish(thread: nat, ok: bool)
    | SaveDisplay(display: D, ok: bool)
    | Crash

  function PcOf<D, R>(s: Store<D, R>, thread: nat): Pc<D, R> {
    if thread in s.pcs then s.pcs[thread] else Outside
  }

  predicate Enabled<D, R>(s: Store<D, R>, a: Action<D, R>) {
    |s.history| > 0 &&
    match a
    case Mutate(_) => true
    case Enter(thread) => PcOf(s, thread).Outside?
    case LockAndCopy(thread) => PcOf(s, thread).Waiting? && s.lock.None?
    case Finish(thread, _) => PcOf(s, thread).Writing? && s.lock == Some(thread)
    // saveAccountDisplay holds both mutexes from start to end
    case SaveDisplay(_, _) => s.lock.None?
    case Crash => true
  }

  function Now<D, R>(s: Store<D, R>): nat
    requires |s.history| > 0
  {
    |s.history| - 1
  }

  function Apply<D, R>(s: Store<D, R>, a: Action<D, R>): Store<D, R>
    requires Enabled(s, a)
  {
    var memory := s.history[Now(s)];
    match a
    case Mutate(next) => s.(history := s.history + [memory.(rest := next)])
    case Enter(thread) => s.(pcs := s.pcs[thread := Waiting(Now(s))])
    case LockAndCopy(thread) =>
      s.(lock := Some(thread), pcs := s.pcs[thread := Writing(PcOf(s, thread).call, Now(s), memory)])
    case Finish(thread, ok) =>
      var done := s.(lock := None, pcs := s.pcs[thread := Outside]);
      if ok then done.(disk := PcOf(s, thread).copy, diskVersion := PcOf(s, thread).at) else done
    case SaveDisplay(display, ok) =>
      // a failed write puts the old display back before the lock is released
      if ok then s.(history := s.history + [memory.(display := display)], disk := memory.(display := display),
                    diskVersion := |s.history|)
      else s
    case Crash => Store([s.disk], s.disk, 0, None, map[])
  }

  ghost predicate Inv<D, R>(s: Store<D, R>) {
    && |s.history| > 0
    && s.diskVersion < |s.history| && s.disk == s.history[s.diskVersion]
    && (forall t :: t in s.pcs && s.pcs[t].Waiting? ==> s.pcs[t].call < |s.history|)
    && (forall t :: t in s.pcs && s.pcs[t].Writing? ==>
          && s.lock == Some(t)
          && s.diskVersion <= s.pcs[t].at && s.pcs[t].call <= s.pcs[t].at < |s.history|
          && s.pcs[t].copy == s.history[s.pcs[t].at])
  }

  lemma InvStep<D, R>(s: Store<D, R>, a: Action<D, R>)
    requires Inv(s) && Enabled(s, a)
    ensures Inv(Apply(s, a))
  {
  }

  /** `run` is an execution: each state follows from the one before it by the listed action. */
  ghost predicate IsRun<D, R>(run: seq<Store<D, R>>, actions: seq<Action<D, R>>) {
    && |run| == |actions| + 1
    && Inv(run[0])
    && forall i :: 0 <= i < |actions| ==> Enabled(run[i], actions[i]) && run[i + 1] == Apply(run[i], actions[i])
  }

  /** Between two states of a run without a crash, memory history only grows and the file never
      goes back to an older version. */
  lemma {:induction false} DiskNeverGoesBack<D, R>(run: seq<Store<D, R>>, actions: seq<Action<D, R>>, i: nat, j: nat)
    requires IsRun(run, actions) && i <= j < |run|
    requires forall k :: i <= k < j ==> !actions[k].Crash?
    ensures Inv(run[i]) && Inv(run[j])
    ensures run[i].history <= run[j].history && run[i].diskVersion <= run[j].diskVersion
    decreases j
  {
    if j == 0 {
    } else if i == j {
      DiskPrefix(run, actions, j);
    } else {
      DiskNeverGoesBack(run, actions, i, j - 1);
      InvStep(run[j - 1], actions[j - 1]);
    }
  }

  lemma {:induction false} DiskPrefix<D, R>(run: seq<Store<D, R>>, actions: seq<Action<D, R>>, j: nat)
    requires IsRun(run, actions) && j < |run|
    ensures Inv(run[j])
  {
    if j > 0 {
      DiskPrefix(run, actions, j - 1);
      InvStep(run[j - 1], actions[j - 1]);
    }
  }

  /** A thread that entered `persistState` in state `i` and is told in step `j` that its write
      succeeded finds on disk, then and in every later state `m` before a crash, a memory value at
      least as new as the one at its call. */
  lemma {:induction false} SuccessCoversTheCall<D, R>(
      run: seq<Store<D, R>>, actions: seq<Action<D, R>>, thread: nat, i: nat, j: nat, m: nat)
    requires IsRun(run, actions) && i < j < m < |run|
    requires actions[i] == Enter(thread) && actions[j] == Finish(thread, true)
    requires forall k :: i < k < j ==> actions[k] != Enter(thread)
    requires forall k :: i <= k < m ==> !actions[k].Crash?
    ensures run[i].history <= run[m].history
    ensures Now(run[i]) <= run[m].diskVersion < |run[m].history|
    ensures run[m].disk == run[m].history[run[m].diskVersion]
  {
    DiskPrefix(run, actions, i);
    CallIsRemembered(run, actions, thread, i, j);
    DiskPrefix(run, actions, j);
    InvStep(run[j], actions[j]);
    DiskNeverGoesBack(run, actions, i, m);
    DiskNeverGoesBack(run, actions, j + 1, m);
  }

  /** Until it finishes, a thread's program counter keeps the version at which it entered. */
  lemma {:induction false} CallIsRemembered<D, R>(
      run: seq<Store<D, R>>, actions: seq<Action<D, R>>, thread: nat, i: nat, j: nat)
    requires IsRun(run, actions) && i < j < |run|
    requires actions[i] == Enter(thread)
    requires forall k :: i < k < j ==> actions[k] != Enter(thread) && !actions[k].Crash?
    ensures PcOf(run[j], thread).Outside? || PcOf(run[j], thread).call == Now(run[i])
    decreases j
  {
    if j > i + 1 {
      CallIsRemembered(run, actions, thread, i, j - 1);
    }
  }

  /** One thread's view: the bodies of `persistState` and `saveAccountDisplay`.  Whether the file
      system accepts a write is not known in advance. */
  class StateFile<D(0), R(0)> {
    var memory: Memory<D, R>
    var disk: Memory<D, R>
    var writeFailures: nat

    constructor (disk: Memory<D, R>)
      ensures memory == this.disk == disk && writeFailures == 0
    {
      this.memory, this.disk, this.writeFailures := disk, disk, 0;
    }

    method Write(copy: Memory<D, R>) returns (ok: bool)
      modifies this`disk
      ensures disk == if ok then copy else old(disk)
    {
      ok := *;
      if ok {
        disk := copy;
      }
    }

    method PersistState() returns (ok: bool)
      modifies this`disk, this`writeFailures
      ensures ok ==> disk == memory && writeFailures == old(writeFailures)
      ensures !ok ==> disk == old(disk) && writeFailures == old(writeFailures) + 1
    {
      ok := Write(memory);
      if !ok {
        writeFailures := writeFailures + 1;
      }
    }

    method SaveAccountDisplay(next: D) returns (ok: bool)
      modifies this`disk, this`memory
      ensures ok ==> memory == old(memory).(display := next) && disk == memory
      ensures !ok ==> memory == old(memory) && disk == old(disk)
    {
      var previous := memory.display;
      memory := memory.(display := next);
      ok := Write(memory);
      if !ok {
        memory := memory.(display := previous);
      }
    }
  }
}
