/** When a digest may leave the state: it is tried until it is answered, in doubt, or tried three times. */
module DigestRetry {
  import opened Clock
  import opened Options
  import opened Notifications
  import opened Delivery
  import Closing
  import Digest
  import DigestDelivery
  import Notifier

  // ----- over crashes and failed writes -----

  /** Attempts for the digest of `day` among the first `k` actions. */
  ghost function Attempts(states: seq<System>, actions: seq<Action>, k: nat, day: Time): nat
    requires k <= |actions| <= |states|
  {
    if k == 0 then 0
    else Attempts(states, actions, k - 1, day)
         + if actions[k - 1].Reserve? && states[k - 1].mem.nextDigestAt == day then 1 else 0
  }

  predicate Restarts(a: Action) {
    a.Crash? || a.Load?
  }

  /** Memory was replaced by the file after the latest attempt. */
  ghost predicate InDoubt(states: seq<System>, actions: seq<Action>, k: nat, day: Time)
    requires k <= |actions| <= |states|
  {
    exists i :: 0 <= i < k && Restarts(actions[i])
                && Attempts(states, actions, i, day) == Attempts(states, actions, k, day) > 0
  }

  predicate CountsAtMost(n: Notes, day: Time, count: nat) {
    day in n.windows ==> n.windows[day].attempts <= count && (n.windows[day].result.InProgress? ==> count > 0)
  }

  predicate IsDaily(pc: Pc, day: Time) {
    !pc.Idle? && pc.job.Daily? && pc.job.end == day
  }

  /** Each copy counts at most the attempts that were made, and no copy is ahead of memory. */
  ghost predicate TryInv(s: System, day: Time, count: nat, doubt: bool) {
    && CountsAtMost(s.mem, day, count) && CountsAtMost(s.disk, day, count)
    && s.disk.nextDigestAt <= s.mem.nextDigestAt
    && (s.write.Some? ==>
          CountsAtMost(s.write.value.copy, day, count) && s.write.value.copy.nextDigestAt <= s.mem.nextDigestAt)
    && (day in s.mem.windows && s.mem.windows[day].result.InProgress? ==> doubt || IsDaily(s.pc, day))
    && (s.pc.Handed? && s.pc.job.Daily? ==>
          s.sends != [] && s.sends[|s.sends| - 1] == DigestSend(s.pc.job.end, s.pc.job.at, None))
  }

  /** No window was attempted or marked as being sent. */
  predicate NoNewTries(n: Notes, t: Notes) {
    forall end :: end in t.windows ==>
      || (t.windows[end].attempts == 0 && t.windows[end].result.NotTried?)
      || (end in n.windows && t.windows[end].attempts == n.windows[end].attempts
          && t.windows[end].result == n.windows[end].result)
  }

  lemma NoNewTriesTwice(a: Notes, b: Notes, c: Notes)
    requires NoNewTries(a, b) && NoNewTries(b, c)
    ensures NoNewTries(a, c)
  {
  }

  /** A memory section without an attempt. */
  lemma QuietSection(s: System, mem: Notes, pc: Pc, day: Time, count: nat, doubt: bool)
    requires TryInv(s, day, count, doubt) && NoNewTries(s.mem, mem) && s.mem.nextDigestAt <= mem.nextDigestAt
    requires (s.pc.Idle? || !s.pc.job.Daily?) && !pc.Handed?
    ensures TryInv(s.(mem := mem, pc := pc), day, count, doubt)
  {
  }

  lemma ItemTriesNothing(cfg: Config, end: Time, run: Run, r: Recording, item: Item)
    requires end in r.notes.windows
    ensures NoNewTries(r.notes, RecordItem(cfg, end, run, r, item).notes)
  {
    hide FailureCategory, NextStreaks, QuietUntil, SkipReason;
  }

  lemma {:induction false} ItemsTryNothing(cfg: Config, end: Time, run: Run, r: Recording, items: seq<Item>)
    requires end in r.notes.windows
    ensures NoNewTries(r.notes, RecordItems(cfg, end, run, r, items).notes)
  {
    if items != [] {
      hide RecordItem, NoNewTries;
      var before := RecordItems(cfg, end, run, r, items[..|items| - 1]);
      ItemsTryNothing(cfg, end, run, r, items[..|items| - 1]);
      ItemTriesNothing(cfg, end, run, before, items[|items| - 1]);
      NoNewTriesTwice(r.notes, before.notes, RecordItem(cfg, end, run, before, items[|items| - 1]).notes);
    }
  }

  lemma RecordTriesNothing(cfg: Config, n: Notes, run: Run)
    ensures NoNewTries(n, Record(cfg, n, run).notes)
  {
    hide RecordItems, DigestEnd, Living;
    var start := StartRun(cfg, n, run);
    assert NoNewTries(n, start);
    ItemsTryNothing(cfg, DigestEnd(cfg.offset, cfg.digestTime, run.at), run, Recording(start, [], false, false),
                    run.items);
    NoNewTriesTwice(n, start, Record(cfg, n, run).notes);
  }

  lemma RecordStep(cfg: Config, s: System, run: Run, day: Time, count: nat, doubt: bool)
    requires AlertInv(cfg, s) && TryInv(s, day, count, doubt) && s.pc.Idle? && run.at == s.clock
    ensures TryInv(ApplyRecord(cfg, s, run), day, count, doubt)
  {
    hide Record, DigestEnd, TryInv, OnBoundaries, QueueSound, AllSettled, SentOnce;
    var t := ApplyRecord(cfg, s, run);
    RecordTriesNothing(cfg, s.mem, run);
    RecordKeepsNext(cfg, s.mem, run);
    NextIsPositive(cfg, s.mem, run.at);
    QuietSection(s, t.mem, t.pc, day, count, doubt);
  }

  lemma SetNextStep(cfg: Config, s: System, now: Time, day: Time, count: nat, doubt: bool)
    requires AlertInv(cfg, s) && TryInv(s, day, count, doubt) && s.pc.Idle? && ZERO < now
    ensures TryInv(s.(mem := WithNextDigest(cfg, s.mem, now)), day, count, doubt)
  {
    hide DigestEnd, TryInv, OnBoundaries, QueueSound, AllSettled, SentOnce;
    NextIsPositive(cfg, s.mem, now);
    QuietSection(s, WithNextDigest(cfg, s.mem, now), Idle, day, count, doubt);
  }

  lemma ReserveStep(s: System, now: Time, day: Time, count: nat, doubt: bool)
    requires TryInv(s, day, count, doubt) && s.pc.Idle?
    ensures if s.mem.nextDigestAt == day then TryInv(ApplyReserve(s, now), day, count + 1, false)
            else TryInv(ApplyReserve(s, now), day, count, doubt)
  {
  }

  lemma ClosingTriesNothing(cfg: Config, n: Notes, now: Time)
    requires OnBoundaries(cfg, n) && ZERO < n.nextDigestAt <= now
    ensures NoNewTries(n, FinishDigest(cfg, n, n.nextDigestAt, now))
    ensures now < FinishDigest(cfg, n, n.nextDigestAt, now).nextDigestAt
  {
    hide FinishDigest, DigestEnd;
    ClosingIsExact(cfg, n, now);
    DigestEndIsLeastBoundary(cfg.offset, cfg.digestTime, now);
  }

  lemma CloseStep(cfg: Config, s: System, now: Time, day: Time, count: nat, doubt: bool)
    requires TryInv(s, day, count, doubt) && s.pc.Idle? && DigestDue(s.mem, now, s.clock) && OnBoundaries(cfg, s.mem)
    ensures TryInv(s.(mem := FinishDigest(cfg, s.mem, s.mem.nextDigestAt, now)), day, count, doubt)
  {
    hide FinishDigest, TryInv, OnBoundaries;
    ClosingTriesNothing(cfg, s.mem, now);
    QuietSection(s, FinishDigest(cfg, s.mem, s.mem.nextDigestAt, now), Idle, day, count, doubt);
  }

  lemma WriteStep(cfg: Config, s: System, a: Action, day: Time, count: nat, doubt: bool)
    requires TryInv(s, day, count, doubt) && Writer(s) && Enabled(cfg, s, a) && (a.BeginWrite? || a.EndWrite?)
    ensures TryInv(Apply(cfg, s, a), day, count, doubt)
  {
  }

  lemma {:induction false} MarkingTriesNothing(n: Notes, notices: seq<Notice>, outcome: Outcome)
    ensures NoNewTries(n, n.(windows := MarkAll(n.windows, notices, outcome)))
  {
    if notices != [] {
      MarkingTriesNothing(n, notices[..|notices| - 1], outcome);
    }
  }

  /** The answer takes the mark away, whatever else happens to the window. */
  lemma AnsweredDigest(cfg: Config, n: Notes, at: Time, outcome: Outcome)
    requires OnBoundaries(cfg, n) && ZERO < n.nextDigestAt <= at && n.nextDigestAt in n.windows
    ensures var t, day := DigestAnswered(cfg, n, at, outcome), n.nextDigestAt;
            && day <= t.nextDigestAt
            && (forall end :: end in t.windows ==>
                  && end in n.windows && t.windows[end].attempts == n.windows[end].attempts
                  && if end == day then t.windows[end].result == Answered(outcome)
                     else t.windows[end].result == n.windows[end].result)
            && (day < t.nextDigestAt ==> !outcome.Failed? || n.windows[day].attempts >= 3)
  {
    hide FinishDigest, DigestEnd;
    var answered := WithDigestResult(n, n.nextDigestAt, Answered(outcome));
    assert OnBoundaries(cfg, answered);
    ClosingIsExact(cfg, answered, at);
    ClosingTriesNothing(cfg, answered, at);
  }

  lemma AnswerStep(cfg: Config, s: System, outcome: Outcome, day: Time, count: nat, doubt: bool)
    requires TryInv(s, day, count, doubt) && Writer(s) && s.pc.Handed? && OnBoundaries(cfg, s.mem)
    ensures TryInv(ApplyAnswer(cfg, s, outcome), day, count, doubt)
  {
    hide OnBoundaries, DigestAnswered, MarkAll;
    if s.pc.job.Daily? {
      if s.mem.nextDigestAt in s.mem.windows {
        AnsweredDigest(cfg, s.mem, s.pc.job.at, outcome);
      }
    } else {
      MarkingTriesNothing(s.mem, s.pc.job.notices, outcome);
    }
  }

  lemma FailureStep(s: System, day: Time, count: nat, doubt: bool)
    requires TryInv(s, day, count, doubt) && s.pc.Unsaved?
    ensures TryInv(ApplyHandleFailure(s), day, count, doubt)
  {
  }

  lemma RestartStep(s: System, write: Option<Write>, day: Time, count: nat, doubt: bool)
    requires TryInv(s, day, count, doubt) && (write == s.write || write.None?) && (s.write.Some? ==> write.None?)
    ensures TryInv(s.(mem := s.disk, write := write, pc := Idle), day, count, count > 0)
  {
  }

  function NextCount(s: System, a: Action, day: Time, count: nat): nat {
    if a.Reserve? && s.mem.nextDigestAt == day then count + 1 else count
  }

  predicate NextDoubt(s: System, a: Action, day: Time, count: nat, doubt: bool) {
    if Restarts(a) then count > 0 else doubt && !(a.Reserve? && s.mem.nextDigestAt == day)
  }

  lemma StepKeepsTries(cfg: Config, s: System, a: Action, day: Time, count: nat, doubt: bool)
    requires AlertInv(cfg, s) && TryInv(s, day, count, doubt) && Enabled(cfg, s, a)
    ensures TryInv(Apply(cfg, s, a), day, NextCount(s, a, day, count), NextDoubt(s, a, day, count, doubt))
  {
    MemIsOk(cfg, s);
    hide TryInv, QueueSound, AllSettled, JobOk, SentOnce, OnBoundaries, ApplyRecord, ApplyReserve,
      ApplyBeginWrite, ApplyEndWrite, ApplyHandleFailure, ApplyAnswer, NextDigestStep, DueNotices, WaitingNotices,
      FinishDigest;
    match a
    case Tick(to) => ClockStep(s, to, day, count, doubt);
    case RecordRun(run) => RecordStep(cfg, s, run, day, count, doubt);
    case SetNextDigest(now) => SetNextStep(cfg, s, now, day, count, doubt);
    case TakeNotices(now) => QuietSection(s, TakeDue(cfg, s.mem, now), ApplyTake(cfg, s, now).pc, day, count, doubt);
    case OpenDigest(_) => QuietSection(s, Opened(s.mem, s.mem.nextDigestAt), Idle, day, count, doubt);
    case Reserve(now) => ReserveStep(s, now, day, count, doubt);
    case CloseDigest(now) => CloseStep(cfg, s, now, day, count, doubt);
    case HandleFailure => FailureStep(s, day, count, doubt);
    case Answer(outcome) => AnswerStep(cfg, s, outcome, day, count, doubt);
    case Load => RestartStep(s, s.write, day, count, doubt);
    case Crash => RestartStep(s, None, day, count, doubt);
    case _ => WriteStep(cfg, s, a, day, count, doubt);
  }

  lemma ClockStep(s: System, to: Time, day: Time, count: nat, doubt: bool)
    requires TryInv(s, day, count, doubt)
    ensures TryInv(s.(clock := to), day, count, doubt)
  {
  }

  lemma {:induction false} RunKeepsTries(cfg: Config, states: seq<System>, actions: seq<Action>, k: nat, day: Time)
    requires IsRun(cfg, states, actions) && k <= |actions|
    ensures TryInv(states[k], day, Attempts(states, actions, k, day), InDoubt(states, actions, k, day))
  {
    hide Enabled, Apply, AlertInv;
    if k > 0 {
      hide TryInv;
      var s, a, count := states[k - 1], actions[k - 1], Attempts(states, actions, k - 1, day);
      RunKeepsTries(cfg, states, actions, k - 1, day);
      RunKeepsAlerts(cfg, states, actions, k - 1);
      StepKeepsTries(cfg, s, a, day, count, InDoubt(states, actions, k - 1, day));
      assert states[k] == Apply(cfg, s, a);
      DoubtGoesOn(states, actions, k - 1, day);
      var doubt := NextDoubt(s, a, day, count, InDoubt(states, actions, k - 1, day));
      MoreDoubt(states[k], day, NextCount(s, a, day, count), doubt, InDoubt(states, actions, k, day));
    }
  }

  lemma MoreDoubt(s: System, day: Time, count: nat, doubt: bool, more: bool)
    requires TryInv(s, day, count, doubt) && (doubt ==> more)
    ensures TryInv(s, day, count, more)
  {
  }

  lemma DoubtGoesOn(states: seq<System>, actions: seq<Action>, k: nat, day: Time)
    requires k < |actions| <= |states|
    ensures var count := Attempts(states, actions, k, day);
            NextDoubt(states[k], actions[k], day, count, InDoubt(states, actions, k, day))
            ==> InDoubt(states, actions, k + 1, day)
  {
    var count := Attempts(states, actions, k, day);
    if Restarts(actions[k]) && count > 0 {
      assert Attempts(states, actions, k + 1, day) == count;
    } else if InDoubt(states, actions, k, day) {
      var i :| 0 <= i < k && Restarts(actions[i]) && Attempts(states, actions, i, day) == count > 0;
      assert i < k + 1 && Restarts(actions[i]);
    }
  }

  /** A digest leaves the state only when it is done with: its last send was accepted or not configured, or it
      was tried three times, or a restart left it marked as being sent after its latest attempt. */
  lemma DigestLeavesWhenDone(cfg: Config, states: seq<System>, actions: seq<Action>, k: nat, day: Time)
    requires IsRun(cfg, states, actions) && k < |actions|
    requires states[k].mem.nextDigestAt == day != ZERO && states[k + 1].mem.nextDigestAt > day
    ensures var s, t, a := states[k], states[k + 1], actions[k];
            || Attempts(states, actions, k, day) >= 3
            || (&& a.Answer? && s.sends != [] && !a.outcome.Failed?
                && var last := s.sends[|s.sends| - 1];
                   last.end == day && last.answer.None?
                   && t.sends == s.sends[|s.sends| - 1 := last.(answer := Some(a.outcome))])
            || (&& a.CloseDigest? && day in s.mem.windows && s.mem.windows[day].result.InProgress?
                && InDoubt(states, actions, k, day))
  {
    var s, a := states[k], actions[k];
    assert Enabled(cfg, s, a) && states[k + 1] == Apply(cfg, s, a);
    RunKeepsTries(cfg, states, actions, k, day);
    RunKeepsAlerts(cfg, states, actions, k);
    LeavingStep(cfg, s, a, day, Attempts(states, actions, k, day), InDoubt(states, actions, k, day));
  }

  lemma LeavingStep(cfg: Config, s: System, a: Action, day: Time, count: nat, doubt: bool)
    requires AlertInv(cfg, s) && TryInv(s, day, count, doubt) && Enabled(cfg, s, a)
    requires s.mem.nextDigestAt == day != ZERO && Apply(cfg, s, a).mem.nextDigestAt > day
    ensures || count >= 3
            || (&& a.Answer? && s.sends != [] && !a.outcome.Failed?
                && var last := s.sends[|s.sends| - 1];
                   last.end == day && last.answer.None?
                   && Apply(cfg, s, a).sends == s.sends[|s.sends| - 1 := last.(answer := Some(a.outcome))])
            || (a.CloseDigest? && day in s.mem.windows && s.mem.windows[day].result.InProgress? && doubt)
  {
    MemIsOk(cfg, s);
    hide QueueSound, AllSettled, JobOk, SentOnce, OnBoundaries, DigestAnswered, FinishDigest, Record, MarkAll,
      DueNotices, WaitingNotices, DigestEnd;
    match a
    case RecordRun(run) => RecordKeepsNext(cfg, s.mem, run);
    case Answer(outcome) =>
      if s.pc.job.Daily? && s.mem.nextDigestAt in s.mem.windows {
        AnsweredDigest(cfg, s.mem, s.pc.job.at, outcome);
      }
    case _ =>
  }

  // ----- in a running process -----

  /** The digest of `day` is still to come: `attempts` were made, and the next may follow at `from`. */
  predicate Waits(n: Notes, day: Time, attempts: nat, from: Time) {
    && n.nextDigestAt == day && day in n.windows && n.windows[day].attempts == attempts
    && !n.windows[day].result.InProgress? && n.windows[day].nextAttemptAt == from
  }

  lemma SameDigestWaits(n: Notes, t: Notes, day: Time, attempts: nat, from: Time)
    requires Waits(n, day, attempts, from) && DigestDelivery.SameDigest(n, t)
    ensures Waits(t, day, attempts, from)
  {
  }

  /** Before `from`, nothing that happens touches the waiting digest, except a late recording. */
  lemma WaitingStep(cfg: Config, n: Notes, h: Closing.Happening, day: Time, attempts: nat, from: Time)
    requires Waits(n, day, attempts, from) && ZERO < day
    requires h.Ticked? ==> h.now < from
    requires h.Recorded? ==> !DigestDelivery.LateFor(n, h.run.at, day)
    ensures Waits(Closing.Next(cfg, n, h), day, attempts, from)
  {
    hide Record, MarkAll, Notifier.Flush, DigestTick, DueNotices, DigestEnd, Waits, DigestDelivery.SameDigest;
    var t := Closing.Next(cfg, n, h);
    match h
    case Ticked(now, report) =>
      var flushed := Closing.AtDigest(cfg, n, now, report);
      StartedAlready(cfg, n, now, day, attempts, from);
      Closing.FlushLeavesDigest(cfg, n, now, report.flushWritten, report.flushOutcome);
      SameDigestWaits(n, flushed, day, attempts, from);
      WaitingIsIdle(flushed, day, attempts, from, now);
      Closing.IdleTick(cfg, flushed, now, report.digestWritten, report.digestOutcome);
      SameDigestWaits(flushed, DigestTick(cfg, flushed, now, report.digestWritten, report.digestOutcome), day, attempts,
                      from);
    case Recorded(run) =>
      RecordedPunctually(cfg, n, run, day, attempts, from);
    case AlertAnswered(notices, outcome) =>
      DigestDelivery.MarkingKeepsDigest(n, notices, outcome);
      SameDigestWaits(n, t, day, attempts, from);
  }

  lemma StartedAlready(cfg: Config, n: Notes, now: Time, day: Time, attempts: nat, from: Time)
    requires Waits(n, day, attempts, from) && day != ZERO
    ensures WithNextDigest(cfg, n, now) == n
  {
  }

  lemma WaitingIsIdle(n: Notes, day: Time, attempts: nat, from: Time, now: Time)
    requires Waits(n, day, attempts, from) && now < from
    ensures now < n.nextDigestAt || NextDigestStep(n, now) == Waiting
  {
  }

  lemma RecordedPunctually(cfg: Config, n: Notes, run: Run, day: Time, attempts: nat, from: Time)
    requires Waits(n, day, attempts, from) && ZERO < day && !DigestDelivery.LateFor(n, run.at, day)
    ensures Waits(Record(cfg, n, run).notes, day, attempts, from)
  {
    hide Record;
    DigestDelivery.PunctualKeepsDigest(cfg, n, run);
    SameDigestWaits(n, Record(cfg, n, run).notes, day, attempts, from);
  }

  /** A tick that gets to the digest and has to try it, while at most one attempt was made before: a refusal or
      a failed write leaves the digest waiting for five minutes. */
  lemma RefusedDigestWaits(cfg: Config, n: Notes, now: Time, report: Notifier.TickReport)
    requires 0 <= cfg.digestTime < DAY && ZERO < n.nextDigestAt
    requires Closing.PastFlush(cfg, n, now, report) && Tries(n, now) && DigestWindow(n).attempts < 2
    requires report.digestWritten ==> report.digestOutcome.Failed?
    ensures Waits(Notifier.Tick(cfg, n, now, report), n.nextDigestAt, DigestWindow(n).attempts + 1, now + 5 * MINUTE)
  {
    hide Notifier.Flush, DigestTick, DueNotices;
    var flushed := Closing.AtDigest(cfg, n, now, report);
    Closing.FlushLeavesDigest(cfg, n, now, report.flushWritten, report.flushOutcome);
    Notifier.FlushKeepsTries(cfg, n, now, report.flushWritten, report.flushOutcome);
    DigestTickIsExact(cfg, flushed, now, report.digestWritten, report.digestOutcome);
  }

  /** The history from `i` to `j` is that of a digest waiting for its next attempt: no tick in between comes five
      minutes after the refused one, and no recording comes too late. */
  ghost predicate Quiet(states: seq<Notes>, happenings: seq<Closing.Happening>, i: nat, j: nat, from: Time, day: Time) {
    forall k :: i < k < j && k < |happenings| && k < |states| ==>
      && (happenings[k].Ticked? ==> happenings[k].now < from)
      && (happenings[k].Recorded? ==> !DigestDelivery.LateFor(states[k], happenings[k].run.at, day))
  }

  lemma {:induction false} DigestStillWaits(cfg: Config, states: seq<Notes>, happenings: seq<Closing.Happening>, i: nat,
        k: nat, j: nat, day: Time, attempts: nat, from: Time)
    requires Closing.IsHistory(cfg, states, happenings) && i < k <= j < |states| && ZERO < day
    requires Waits(states[i + 1], day, attempts, from) && Quiet(states, happenings, i, j, from, day)
    ensures Waits(states[k], day, attempts, from)
  {
    hide Waits, Closing.Next, OnBoundaries;
    if i + 1 < k {
      DigestStillWaits(cfg, states, happenings, i, k - 1, j, day, attempts, from);
      WaitingStep(cfg, states[k - 1], happenings[k - 1], day, attempts, from);
      assert states[k] == Closing.Next(cfg, states[k - 1], happenings[k - 1]);
    }
  }

  /** A digest whose first or second attempt was refused, or could not be written, is not given up.  Whatever
      else is recorded, flushed and answered, it stays with one attempt more, and the first tick that gets to it
      five minutes later tries it again. */
  lemma RefusedDigestIsTriedAgain(cfg: Config, states: seq<Notes>, happenings: seq<Closing.Happening>, i: nat, j: nat)
    requires Closing.IsHistory(cfg, states, happenings) && i < j < |happenings|
    requires happenings[i].Ticked? && happenings[j].Ticked? && happenings[i].now + 5 * MINUTE <= happenings[j].now
    requires ZERO < states[i].nextDigestAt && Tries(states[i], happenings[i].now)
    requires Closing.PastFlush(cfg, states[i], happenings[i].now, happenings[i].report)
    requires happenings[i].report.digestWritten ==> happenings[i].report.digestOutcome.Failed?
    requires DigestWindow(states[i]).attempts < 2
    requires Quiet(states, happenings, i, j, happenings[i].now + 5 * MINUTE, states[i].nextDigestAt)
    ensures states[j].nextDigestAt == states[i].nextDigestAt
    ensures DigestWindow(states[j]).attempts == DigestWindow(states[i]).attempts + 1
    ensures Tries(states[j], happenings[j].now)
  {
    hide Closing.PastFlush, Notifier.Tick, Tries, DigestWindow, OnBoundaries;
    var day, now, attempts := states[i].nextDigestAt, happenings[i].now, DigestWindow(states[i]).attempts + 1;
    assert 0 <= cfg.digestTime < DAY by {
      Digest.BoundariesHaveTime(cfg, states[0]);
    }
    RefusedDigestWaits(cfg, states[i], now, happenings[i].report);
    assert states[i + 1] == Closing.Next(cfg, states[i], happenings[i]);
    DigestStillWaits(cfg, states, happenings, i, j, j, day, attempts, now + 5 * MINUTE);
    WaitingIsTried(states[i], now, states[j], day, attempts, happenings[j].now);
  }

  lemma WaitingIsTried(before: Notes, now: Time, n: Notes, day: Time, attempts: nat, later: Time)
    requires Waits(n, day, attempts, now + 5 * MINUTE) && attempts < 3 && now + 5 * MINUTE <= later
    requires before.nextDigestAt == day && Tries(before, now)
    ensures Tries(n, later) && DigestWindow(n).attempts == attempts
  {
  }
}
