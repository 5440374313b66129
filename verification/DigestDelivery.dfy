/** How often, and when, the digest of a day is handed to the sender. */
module DigestDelivery {
  import opened Clock
  import opened Options
  import opened Notifications
  import opened Delivery
  import Digest

  // ----- digests -----

  /** How many times the digest of a window was handed over. */
  function SendCount(sends: seq<DigestSend>, end: Time): nat {
    if sends == [] then 0
    else SendCount(sends[..|sends| - 1], end) + if sends[|sends| - 1].end == end then 1 else 0
  }

  predicate Refused(send: DigestSend) {
    send.answer.Some? && send.answer.value.Failed?
  }

  /** Every send of this digest was refused, and the next one may follow at `from`. */
  ghost predicate RetryFrom(sends: seq<DigestSend>, end: Time, from: Time) {
    forall i :: 0 <= i < |sends| && sends[i].end == end ==> Refused(sends[i]) && sends[i].at + RETRY_INTERVAL <= from
  }

  /** This copy of the state will not repeat a send: the window is closed, or its attempts are counted
      and it is either marked as being sent or waits for the retry delay. */
  ghost predicate Safe(n: Notes, sends: seq<DigestSend>, end: Time) {
    || end < n.nextDigestAt
    || (&& end == n.nextDigestAt && end in n.windows
        && var w := n.windows[end];
           && SendCount(sends, end) <= w.attempts
           && (w.result.InProgress? || RetryFrom(sends, end, w.nextAttemptAt)))
  }

  ghost predicate AllSafe(n: Notes, sends: seq<DigestSend>, day: Time) {
    forall i :: 0 <= i < |sends| && sends[i].end == day ==> Safe(n, sends, sends[i].end)
  }

  ghost predicate Bounded(sends: seq<DigestSend>, day: Time) {
    && (forall i, j :: 0 <= i < j < |sends| && sends[i].end == sends[j].end == day ==>
          Refused(sends[i]) && sends[i].at + RETRY_INTERVAL <= sends[j].at)
    && SendCount(sends, day) <= MAX_ATTEMPTS
    && (forall i :: 0 <= i < |sends| ==> ZERO < sends[i].end)
  }

  /** Memory while a digest is planned: the attempt is counted and marked. */
  ghost predicate DailyReady(n: Notes, job: Job, sends: seq<DigestSend>, day: Time) {
    job.Daily? ==>
      && job.end == n.nextDigestAt && job.end in n.windows
      && (job.end == day ==>
         var w := n.windows[job.end];
         && w.result.InProgress? && SendCount(sends, job.end) < w.attempts <= MAX_ATTEMPTS
         && w.nextAttemptAt == job.at + RETRY_INTERVAL && RetryFrom(sends, job.end, job.at))
  }

  /** ... and while it is with the sender: the last send is its own. */
  ghost predicate DailyHanded(n: Notes, job: Job, sends: seq<DigestSend>, day: Time) {
    job.Daily? ==>
      && job.end == n.nextDigestAt && job.end in n.windows && sends != []
      && sends[|sends| - 1] == DigestSend(job.end, job.at, None)
      && (job.end == day ==>
         var w := n.windows[job.end];
         && w.result.InProgress? && SendCount(sends, job.end) <= w.attempts <= MAX_ATTEMPTS
         && w.nextAttemptAt == job.at + RETRY_INTERVAL
         && RetryFrom(sends[..|sends| - 1], job.end, job.at))
  }

  ghost predicate DigestInv(s: System, day: Time) {
    && Bounded(s.sends, day)
    && AllSafe(s.mem, s.sends, day) && AllSafe(s.disk, s.sends, day)
    && (s.write.Some? ==> AllSafe(s.write.value.copy, s.sends, day))
    && (s.pc.Planned? || s.pc.Persisting? || s.pc.Unsaved? ==> DailyReady(s.mem, s.pc.job, s.sends, day))
    && (s.pc.Handed? ==> DailyHanded(s.mem, s.pc.job, s.sends, day))
  }

  /** What the digest cares about. */
  predicate SameDigest(n: Notes, t: Notes) {
    && t.nextDigestAt == n.nextDigestAt
    && (n.nextDigestAt in n.windows ==>
          && n.nextDigestAt in t.windows
          && var w, v := n.windows[n.nextDigestAt], t.windows[n.nextDigestAt];
             v.attempts == w.attempts && v.result == w.result && v.nextAttemptAt == w.nextAttemptAt)
  }

  lemma SameDigestSafe(n: Notes, t: Notes, sends: seq<DigestSend>, day: Time)
    requires AllSafe(n, sends, day) && SameDigest(n, t)
    ensures AllSafe(t, sends, day)
  {
    hide SendCount, RetryFrom;
    forall i | 0 <= i < |sends| && sends[i].end == day
      ensures Safe(t, sends, sends[i].end)
    {
      assert Safe(n, sends, sends[i].end);
    }
  }

  /** A memory section that does not touch the digest. */
  lemma SameDigestStep(s: System, mem: Notes, pc: Pc, day: Time)
    requires DigestInv(s, day) && SameDigest(s.mem, mem) && s.pc.Idle? && (pc.Idle? || (pc.Planned? && !pc.job.Daily?))
    ensures DigestInv(s.(mem := mem, pc := pc), day)
  {
    hide Bounded, AllSafe, SameDigest;
    SameDigestSafe(s.mem, mem, s.sends, day);
  }

  /** A punctual recording keeps the window of the next digest, and its attempts. */
  lemma {:induction false} ItemsKeepDigest(cfg: Config, end: Time, run: Run, r: Recording, items: seq<Item>)
    requires end in r.notes.windows
    ensures SameDigest(r.notes, RecordItems(cfg, end, run, r, items).notes)
  {
    hide SameDigest, RecordItem;
    if items == [] {
      SameDigestItself(r.notes);
    } else {
      var init := items[..|items| - 1];
      var before := RecordItems(cfg, end, run, r, init);
      ItemsKeepDigest(cfg, end, run, r, init);
      ItemKeepsDigest(cfg, end, run, before, items[|items| - 1]);
      SameDigestTwice(r.notes, before.notes, RecordItem(cfg, end, run, before, items[|items| - 1]).notes);
    }
  }

  lemma SameDigestItself(n: Notes)
    ensures SameDigest(n, n)
  {
  }

  lemma SameDigestTwice(a: Notes, b: Notes, c: Notes)
    requires SameDigest(a, b) && SameDigest(b, c)
    ensures SameDigest(a, c)
  {
  }

  lemma ItemKeepsDigest(cfg: Config, end: Time, run: Run, r: Recording, item: Item)
    requires end in r.notes.windows
    ensures SameDigest(r.notes, RecordItem(cfg, end, run, r, item).notes)
  {
    hide FailureCategory, NextStreaks, QuietUntil, SkipReason;
  }

  lemma PunctualKeepsDigest(cfg: Config, n: Notes, run: Run)
    requires ZERO != n.nextDigestAt && run.at - WEEK <= n.nextDigestAt
    ensures SameDigest(n, Record(cfg, n, run).notes)
  {
    hide RecordItems, DigestEnd;
    var end := DigestEnd(cfg.offset, cfg.digestTime, run.at);
    var start := StartRun(cfg, n, run);
    assert SameDigest(n, start);
    ItemsKeepDigest(cfg, end, run, Recording(start, [], false, false), run.items);
    SameDigestTwice(n, start, Record(cfg, n, run).notes);
  }

  lemma NothingSentYet(n: Notes, sends: seq<DigestSend>, day: Time)
    requires AllSafe(n, sends, day) && Bounded(sends, day) && n.nextDigestAt == ZERO
    ensures forall i :: 0 <= i < |sends| ==> sends[i].end != day
  {
    hide SendCount, RetryFrom;
    forall i | 0 <= i < |sends|
      ensures sends[i].end != day
    {
      assert sends[i].end == day ==> Safe(n, sends, sends[i].end);
    }
  }

  /** A recording at `at` comes too late for the digest of `day`, which is still to come. */
  predicate LateFor(n: Notes, at: Time, day: Time) {
    n.nextDigestAt == day && day < at - WEEK
  }

  lemma ClosedStaysSafe(n: Notes, t: Notes, sends: seq<DigestSend>, day: Time)
    requires AllSafe(n, sends, day) && n.nextDigestAt != day && n.nextDigestAt <= t.nextDigestAt
    ensures AllSafe(t, sends, day)
  {
    hide SendCount, RetryFrom;
    forall i | 0 <= i < |sends| && sends[i].end == day
      ensures Safe(t, sends, sends[i].end)
    {
      assert Safe(n, sends, sends[i].end);
    }
  }

  lemma RecordDigest(cfg: Config, s: System, run: Run, day: Time)
    requires DigestInv(s, day) && s.pc.Idle? && !LateFor(s.mem, run.at, day)
    ensures DigestInv(ApplyRecord(cfg, s, run), day)
  {
    hide Record, Bounded, AllSafe, SameDigest;
    var t := ApplyRecord(cfg, s, run);
    if s.mem.nextDigestAt == ZERO {
      NothingSentYet(s.mem, s.sends, day);
      NotSentIsSafe(t.mem, s.sends, day);
    } else if s.mem.nextDigestAt == day {
      PunctualKeepsDigest(cfg, s.mem, run);
      SameDigestStep(s, t.mem, t.pc, day);
    } else {
      RecordKeepsNext(cfg, s.mem, run);
      ClosedStaysSafe(s.mem, t.mem, s.sends, day);
    }
  }

  lemma NotSentIsSafe(n: Notes, sends: seq<DigestSend>, day: Time)
    requires forall i :: 0 <= i < |sends| ==> sends[i].end != day
    ensures AllSafe(n, sends, day)
  {
  }

  lemma SetNextDigestStep(cfg: Config, s: System, now: Time, day: Time)
    requires DigestInv(s, day) && s.pc.Idle?
    ensures DigestInv(s.(mem := WithNextDigest(cfg, s.mem, now)), day)
  {
    hide Bounded, AllSafe, DigestEnd;
    if s.mem.nextDigestAt == ZERO {
      NothingSentYet(s.mem, s.sends, day);
      NotSentIsSafe(WithNextDigest(cfg, s.mem, now), s.sends, day);
    }
  }

  lemma OpenDigestStep(s: System, day: Time)
    requires DigestInv(s, day) && s.pc.Idle?
    ensures DigestInv(s.(mem := Opened(s.mem, s.mem.nextDigestAt)), day)
  {
    hide Bounded, AllSafe;
    SameDigestStep(s, Opened(s.mem, s.mem.nextDigestAt), Idle, day);
  }

  /** An attempt is made only when every earlier send was refused and the delay is over. */
  lemma AttemptIsSafe(n: Notes, sends: seq<DigestSend>, now: Time)
    requires AllSafe(n, sends, n.nextDigestAt) && n.nextDigestAt <= now && NextDigestStep(n, now) == Attempt
    ensures var w := Opened(n, n.nextDigestAt).windows[n.nextDigestAt];
            SendCount(sends, n.nextDigestAt) <= w.attempts < MAX_ATTEMPTS
    ensures RetryFrom(sends, n.nextDigestAt, now)
  {
    hide RetryFrom;
    NoSends(sends, n.nextDigestAt, now);
    if i :| 0 <= i < |sends| && sends[i].end == n.nextDigestAt {
      assert Safe(n, sends, sends[i].end);
      RetryLater(sends, n.nextDigestAt, n.windows[n.nextDigestAt].nextAttemptAt, now);
    }
  }

  lemma {:induction false} NoSends(sends: seq<DigestSend>, end: Time, from: Time)
    ensures (forall i :: 0 <= i < |sends| ==> sends[i].end != end) ==>
              SendCount(sends, end) == 0 && RetryFrom(sends, end, from)
  {
    if sends != [] && forall i :: 0 <= i < |sends| ==> sends[i].end != end {
      NoSends(sends[..|sends| - 1], end, from);
    }
  }

  lemma RetryLater(sends: seq<DigestSend>, end: Time, from: Time, later: Time)
    requires RetryFrom(sends, end, from) && from <= later
    ensures RetryFrom(sends, end, later)
  {
  }

  lemma ReserveDigestStep(s: System, now: Time, day: Time)
    requires DigestInv(s, day) && s.pc.Idle? && DigestDue(s.mem, now, s.clock) && NextDigestStep(s.mem, now) == Attempt
    ensures DigestInv(ApplyReserve(s, now), day)
  {
    hide Bounded, SendCount, RetryFrom, NextDigestStep;
    var t := ApplyReserve(s, now);
    if s.mem.nextDigestAt == day {
      AttemptIsSafe(s.mem, s.sends, now);
    }
    forall i | 0 <= i < |s.sends| && s.sends[i].end == day
      ensures Safe(t.mem, s.sends, s.sends[i].end)
    {
      assert Safe(s.mem, s.sends, s.sends[i].end);
    }
  }

  /** Closing moves the next digest past every window that was ever sent. */
  lemma ClosedSafe(cfg: Config, n: Notes, sends: seq<DigestSend>, now: Time, day: Time)
    requires NotAhead(n, sends, day) && OnBoundaries(cfg, n) && ZERO < n.nextDigestAt <= now
    ensures AllSafe(FinishDigest(cfg, n, n.nextDigestAt, now), sends, day)
  {
    hide SendCount, RetryFrom, FinishDigest, DigestEnd;
    ClosingIsExact(cfg, n, now);
    DigestEndIsLeastBoundary(cfg.offset, cfg.digestTime, now);
  }

  /** The digest of `day` was not sent before its turn. */
  ghost predicate NotAhead(n: Notes, sends: seq<DigestSend>, day: Time) {
    forall i :: 0 <= i < |sends| && sends[i].end == day ==> sends[i].end <= n.nextDigestAt
  }

  lemma SafeIsNotAhead(n: Notes, sends: seq<DigestSend>, day: Time)
    requires AllSafe(n, sends, day)
    ensures NotAhead(n, sends, day)
  {
    hide SendCount, RetryFrom;
    forall i | 0 <= i < |sends| && sends[i].end == day
      ensures sends[i].end <= n.nextDigestAt
    {
      assert Safe(n, sends, sends[i].end);
    }
  }

  lemma CloseDigestStep(cfg: Config, s: System, now: Time, day: Time)
    requires DigestInv(s, day) && s.pc.Idle? && DigestDue(s.mem, now, s.clock) && OnBoundaries(cfg, s.mem)
    ensures DigestInv(s.(mem := FinishDigest(cfg, s.mem, s.mem.nextDigestAt, now)), day)
  {
    hide Bounded, AllSafe, FinishDigest, OnBoundaries;
    SafeIsNotAhead(s.mem, s.sends, day);
    ClosedSafe(cfg, s.mem, s.sends, now, day);
  }

  lemma BeginDigestWrite(s: System, mine: bool, day: Time)
    requires DigestInv(s, day) && (mine ==> s.pc.Planned?)
    ensures DigestInv(ApplyBeginWrite(s, mine), day)
  {
    hide Bounded, AllSafe, DailyReady, DailyHanded;
  }

  lemma SendCountGrows(sends: seq<DigestSend>, send: DigestSend, end: Time)
    ensures SendCount(sends + [send], end) == SendCount(sends, end) + if send.end == end then 1 else 0
  {
    assert (sends + [send])[..|sends|] == sends;
  }

  /** Handing the digest over: the copy just written, which is memory, knows about it. */
  lemma DigestHanded(n: Notes, job: Job, sends: seq<DigestSend>, day: Time)
    requires job.Daily? && DailyReady(n, job, sends, day) && Bounded(sends, day) && AllSafe(n, sends, day)
              && ZERO < job.end
    ensures var next := sends + [DigestSend(job.end, job.at, None)];
            Bounded(next, day) && AllSafe(n, next, day) && DailyHanded(n, job, next, day)
  {
    hide SendCount;
    var send := DigestSend(job.end, job.at, None);
    var next := sends + [send];
    forall end {
      SendCountGrows(sends, send, end);
    }
    assert next[..|sends|] == sends;
    forall i | 0 <= i < |next| && next[i].end == day
      ensures Safe(n, next, next[i].end)
    {
      if i < |sends| {
        assert Safe(n, sends, sends[i].end);
      }
    }
  }

  lemma EndDigestWrite(s: System, ok: bool, day: Time)
    requires DigestInv(s, day) && Writer(s) && s.write.Some? && (s.write.value.mine ==> s.pc.Persisting?)
    ensures DigestInv(ApplyEndWrite(s, ok), day)
  {
    hide Bounded, AllSafe, DailyReady, DailyHanded;
    if s.write.value.mine && ok {
      if s.pc.job.Daily? {
        DigestHanded(s.mem, s.pc.job, s.sends, day);
      } else {
        NotDaily(s.mem, s.pc.job, s.sends, day);
      }
    }
  }

  lemma NotDaily(n: Notes, job: Job, sends: seq<DigestSend>, day: Time)
    requires !job.Daily?
    ensures DailyReady(n, job, sends, day) && DailyHanded(n, job, sends, day)
  {
  }

  // the answer of the sender

  lemma {:induction false} SameEndsSameCount(a: seq<DigestSend>, b: seq<DigestSend>, end: Time)
    requires |a| == |b| && forall i :: 0 <= i < |a| ==> a[i].end == b[i].end
    ensures SendCount(a, end) == SendCount(b, end)
  {
    if a != [] {
      SameEndsSameCount(a[..|a| - 1], b[..|b| - 1], end);
    }
  }

  lemma AnswerKeepsBounded(sends: seq<DigestSend>, outcome: Outcome, day: Time)
    requires Bounded(sends, day)
    ensures Bounded(WithAnswer(sends, outcome), day)
    ensures forall end :: SendCount(WithAnswer(sends, outcome), end) == SendCount(sends, end)
  {
    hide SendCount;
    forall end {
      SameEndsSameCount(WithAnswer(sends, outcome), sends, end);
    }
  }

  /** The answer of a send that was still open makes no copy less safe. */
  lemma AnswerKeepsSafe(n: Notes, sends: seq<DigestSend>, outcome: Outcome, day: Time)
    requires AllSafe(n, sends, day) && sends != [] && sends[|sends| - 1].answer.None?
    ensures AllSafe(n, WithAnswer(sends, outcome), day)
  {
    hide SendCount;
    var next := WithAnswer(sends, outcome);
    forall i | 0 <= i < |next| && next[i].end == day
      ensures Safe(n, next, next[i].end)
    {
      assert next[i].end == sends[i].end && Safe(n, sends, sends[i].end);
      SameEndsSameCount(next, sends, sends[i].end);
      if !(sends[i].end < n.nextDigestAt) && !n.windows[sends[i].end].result.InProgress? {
        assert RetryFrom(sends, sends[i].end, n.windows[sends[i].end].nextAttemptAt);
        assert sends[|sends| - 1].end != sends[i].end;
        assert RetryFrom(next, sends[i].end, n.windows[sends[i].end].nextAttemptAt);
      }
    }
  }

  /** After a refusal with attempts left, memory waits for the retry delay. */
  lemma RefusalIsSafe(n: Notes, job: Job, sends: seq<DigestSend>, outcome: Outcome, day: Time)
    requires job.Daily? && DailyHanded(n, job, sends, day) && AllSafe(n, sends, day) && outcome.Failed?
    ensures AllSafe(WithDigestResult(n, job.end, Answered(outcome)), WithAnswer(sends, outcome), day)
  {
    hide SendCount;
    var next := WithAnswer(sends, outcome);
    var t := WithDigestResult(n, job.end, Answered(outcome));
    assert job.end == day ==> RetryFrom(next, job.end, job.at + RETRY_INTERVAL) by {
      forall i | 0 <= i < |next| && next[i].end == job.end == day
        ensures Refused(next[i]) && next[i].at + RETRY_INTERVAL <= job.at + RETRY_INTERVAL
      {
        if i < |sends| - 1 {
          assert next[i] == sends[i] == sends[..|sends| - 1][i];
        }
      }
    }
    forall i | 0 <= i < |next| && next[i].end == day
      ensures Safe(t, next, next[i].end)
    {
      assert next[i].end == sends[i].end && Safe(n, sends, sends[i].end);
      SameEndsSameCount(next, sends, sends[i].end);
    }
  }

  lemma AnswerDigest(cfg: Config, s: System, outcome: Outcome, day: Time)
    requires DigestInv(s, day) && Writer(s) && s.pc.Handed? && s.pc.job.Daily? && OnBoundaries(cfg, s.mem)
    ensures DigestInv(ApplyAnswer(cfg, s, outcome), day)
  {
    hide Bounded, AllSafe, RetryFrom, SendCount, FinishDigest;
    var next := WithAnswer(s.sends, outcome);
    AnswerKeepsBounded(s.sends, outcome, day);
    AnswerKeepsSafe(s.disk, s.sends, outcome, day);
    if s.write.Some? {
      AnswerKeepsSafe(s.write.value.copy, s.sends, outcome, day);
    }
    AnsweredIsSafe(cfg, s.mem, s.pc.job, s.sends, outcome, day);
  }

  lemma AnsweredIsSafe(cfg: Config, n: Notes, job: Job, sends: seq<DigestSend>, outcome: Outcome, day: Time)
    requires job.Daily? && DailyHanded(n, job, sends, day) && AllSafe(n, sends, day) && OnBoundaries(cfg, n)
    requires ZERO < n.nextDigestAt <= job.at
    ensures AllSafe(DigestAnswered(cfg, n, job.at, outcome), WithAnswer(sends, outcome), day)
  {
    hide AllSafe, RetryFrom, SendCount, FinishDigest;
    var answered := WithDigestResult(n, job.end, Answered(outcome));
    if outcome.Accepted? || outcome.NotConfigured? || answered.windows[job.end].attempts >= MAX_ATTEMPTS {
      SafeIsNotAhead(n, sends, day);
      assert NotAhead(answered, WithAnswer(sends, outcome), day);
      ClosedSafe(cfg, answered, WithAnswer(sends, outcome), job.at, day);
    } else {
      RefusalIsSafe(n, job, sends, outcome, day);
    }
  }

  lemma {:induction false} MarkingKeepsDigest(n: Notes, notices: seq<Notice>, outcome: Outcome)
    ensures SameDigest(n, n.(windows := MarkAll(n.windows, notices, outcome)))
  {
    if notices != [] {
      MarkingKeepsDigest(n, notices[..|notices| - 1], outcome);
    }
  }

  lemma AnswerDigestStep(cfg: Config, s: System, outcome: Outcome, day: Time)
    requires DigestInv(s, day) && Writer(s) && s.pc.Handed? && OnBoundaries(cfg, s.mem)
    ensures DigestInv(ApplyAnswer(cfg, s, outcome), day)
  {
    hide Bounded, AllSafe, OnBoundaries, SameDigest;
    if s.pc.job.Daily? {
      AnswerDigest(cfg, s, outcome, day);
    } else {
      MarkingKeepsDigest(s.mem, s.pc.job.notices, outcome);
      SameDigestSafe(s.mem, ApplyAnswer(cfg, s, outcome).mem, s.sends, day);
    }
  }

  lemma DigestFailureStep(s: System, day: Time)
    requires DigestInv(s, day) && s.pc.Unsaved?
    ensures DigestInv(ApplyHandleFailure(s), day)
  {
    hide Bounded, SendCount;
    var t := ApplyHandleFailure(s);
    if s.pc.job.Daily? && s.pc.job.end == day {
      RetryLater(s.sends, s.pc.job.end, s.pc.job.at, s.pc.job.at + RETRY_INTERVAL);
    }
    hide RetryFrom;
    forall i | 0 <= i < |s.sends| && s.sends[i].end == day
      ensures Safe(t.mem, s.sends, s.sends[i].end)
    {
      assert Safe(s.mem, s.sends, s.sends[i].end);
    }
  }

  lemma ReplaceDigest(s: System, write: Option<Write>, day: Time)
    requires DigestInv(s, day) && write.None?
    ensures DigestInv(s.(mem := s.disk, write := write, pc := Idle), day)
  {
    hide Bounded, AllSafe;
  }

  lemma LoadDigest(s: System, day: Time)
    requires DigestInv(s, day) && s.pc.Idle?
    ensures DigestInv(s.(mem := s.disk), day)
  {
    hide Bounded, AllSafe;
  }

  lemma TickDigest(s: System, to: Time, day: Time)
    requires DigestInv(s, day)
    ensures DigestInv(s.(clock := to), day)
  {
    hide Bounded, AllSafe, DailyReady, DailyHanded;
  }

  lemma TakeDigest(cfg: Config, s: System, now: Time, day: Time)
    requires DigestInv(s, day) && s.pc.Idle?
    ensures DigestInv(ApplyTake(cfg, s, now), day)
  {
    hide Bounded, AllSafe, SameDigest, DueNotices, WaitingNotices;
    var t := ApplyTake(cfg, s, now);
    assert SameDigest(s.mem, t.mem) by {
      PendingIsNoDigest(s.mem, t.mem.pending);
    }
    SameDigestStep(s, t.mem, t.pc, day);
  }

  lemma PendingIsNoDigest(n: Notes, pending: seq<Notice>)
    ensures SameDigest(n, n.(pending := pending))
  {
  }

  lemma StepKeepsDigest(cfg: Config, s: System, a: Action, day: Time)
    requires AlertInv(cfg, s) && DigestInv(s, day) && Enabled(cfg, s, a)
    requires a.RecordRun? ==> !LateFor(s.mem, a.run.at, day)
    ensures DigestInv(Apply(cfg, s, a), day)
  {
    MemIsOk(cfg, s);
    hide DigestInv, QueueSound, AllSettled, JobOk, SentOnce, OnBoundaries, ApplyRecord, ApplyTake, ApplyReserve,
      ApplyBeginWrite, ApplyEndWrite, ApplyHandleFailure, ApplyAnswer, NextDigestStep, DueNotices, FinishDigest, Opened;
    match a
    case Tick(to) => TickDigest(s, to, day);
    case RecordRun(run) => RecordDigest(cfg, s, run, day);
    case SetNextDigest(now) => SetNextDigestStep(cfg, s, now, day);
    case TakeNotices(now) => TakeDigest(cfg, s, now, day);
    case OpenDigest(_) => OpenDigestStep(s, day);
    case Reserve(now) => ReserveDigestStep(s, now, day);
    case CloseDigest(now) => CloseDigestStep(cfg, s, now, day);
    case BeginWrite(mine) => BeginDigestWrite(s, mine, day);
    case EndWrite(ok) => EndDigestWrite(s, ok, day);
    case HandleFailure => DigestFailureStep(s, day);
    case Answer(outcome) => AnswerDigestStep(cfg, s, outcome, day);
    case Load => LoadDigest(s, day);
    case Crash => ReplaceDigest(s, None, day);
  }

  /** None of the first `n` actions recorded a run too late for the digest of `day`. */
  ghost predicate NeverLate(states: seq<System>, actions: seq<Action>, n: nat, day: Time) {
    forall k :: 0 <= k < n && k < |states| && k < |actions| && actions[k].RecordRun? ==>
      !LateFor(states[k].mem, actions[k].run.at, day)
  }

  lemma {:induction false} RunKeepsDigest(cfg: Config, states: seq<System>, actions: seq<Action>, i: nat, day: Time)
    requires IsRun(cfg, states, actions) && i < |states| && NeverLate(states, actions, i, day)
    ensures DigestInv(states[i], day)
  {
    hide Enabled, Apply, AlertInv;
    if i > 0 {
      hide DigestInv;
      RunKeepsDigest(cfg, states, actions, i - 1, day);
      RunKeepsAlerts(cfg, states, actions, i - 1);
      StepKeepsDigest(cfg, states[i - 1], actions[i - 1], day);
      assert states[i] == Apply(cfg, states[i - 1], actions[i - 1]);
    }
  }

  /** Whatever the sender answers, whichever writes fail and whenever the process crashes: the digest
      of a day is sent at most three times, each time at least five minutes after the one before, and
      never after a send that was accepted or whose answer is unknown, as long as no run is recorded
      more than a week after that digest while it is still to come. */
  lemma DigestsAreBounded(cfg: Config, states: seq<System>, actions: seq<Action>, n: nat, day: Time, i: nat, j: nat)
    requires IsRun(cfg, states, actions) && n < |states| && NeverLate(states, actions, n, day)
    ensures SendCount(states[n].sends, day) <= MAX_ATTEMPTS
    ensures i < j < |states[n].sends| && states[n].sends[i].end == states[n].sends[j].end == day ==>
              var first, second := states[n].sends[i], states[n].sends[j];
              && first.at + RETRY_INTERVAL <= second.at
              && first.answer.Some? && first.answer.value.Failed?
  {
    hide AllSafe, DailyReady, DailyHanded, Enabled, Apply, SendCount;
    RunKeepsDigest(cfg, states, actions, n, day);
  }

  /** Without that assumption the count of attempts can get lost with the window.  What the notes
      remember of the digest survives a recording if and only if the recording is punctual or the
      digest was not tried yet. */
  lemma LateRecordingForgetsAttempts(cfg: Config, n: Notes, run: Run)
    requires OnBoundaries(cfg, n) && n.nextDigestAt != ZERO && n.nextDigestAt in n.windows
    ensures var w := n.windows[n.nextDigestAt];
            var v := Opened(Record(cfg, n, run).notes, n.nextDigestAt).windows[n.nextDigestAt];
            (v.attempts == w.attempts && v.result == w.result && v.nextAttemptAt == w.nextAttemptAt)
            <==> Digest.Punctual(n, run.at) || (w.attempts == 0 && w.result.NotTried? && w.nextAttemptAt == ZERO)
  {
    hide Record;
    if Digest.Punctual(n, run.at) {
      PunctualKeepsDigest(cfg, n, run);
    } else {
      Digest.LateRecordDropsWindow(cfg, n, run);
    }
  }

  // ----- a digest that is sent although it must not be -----

  /** The digest of `day` must not be sent again: one of its sends was accepted or has no answer, or it was
      sent three times. */
  ghost predicate Spent(sends: seq<DigestSend>, day: Time) {
    || SendCount(sends, day) >= MAX_ATTEMPTS
    || exists i :: 0 <= i < |sends| && sends[i].end == day && !Refused(sends[i])
  }

  lemma SpentWasSent(sends: seq<DigestSend>, day: Time) returns (i: nat)
    requires Spent(sends, day)
    ensures i < |sends| && sends[i].end == day
  {
    if SendCount(sends, day) >= MAX_ATTEMPTS {
      NoSends(sends, day, ZERO);
      i :| 0 <= i < |sends| && sends[i].end == day;
    } else {
      i :| 0 <= i < |sends| && sends[i].end == day && !Refused(sends[i]);
    }
  }

  lemma SpentIsNotAttempted(n: Notes, sends: seq<DigestSend>, now: Time)
    requires AllSafe(n, sends, n.nextDigestAt) && Spent(sends, n.nextDigestAt)
    ensures n.nextDigestAt in n.windows && NextDigestStep(n, now) != Attempt
  {
    var i := SpentWasSent(sends, n.nextDigestAt);
    assert Safe(n, sends, sends[i].end);
  }

  /** A tick after a recording attempts to send a digest that must not be sent again if and only if the
      recording came too late for it. */
  lemma ForbiddenSendNeedsLateRecording(cfg: Config, s: System, run: Run, now: Time)
    requires AlertInv(cfg, s) && DigestInv(s, s.mem.nextDigestAt) && Spent(s.sends, s.mem.nextDigestAt)
    requires s.pc.Idle? && run.at == s.clock && DigestDue(s.mem, now, s.clock)
    ensures var t := ApplyRecord(cfg, s, run);
            && t.mem.nextDigestAt == s.mem.nextDigestAt && t.sends == s.sends
            && (NextDigestStep(t.mem, now) == Attempt <==> LateFor(s.mem, run.at, s.mem.nextDigestAt))
  {
    var t, day := ApplyRecord(cfg, s, run), s.mem.nextDigestAt;
    RecordKeepsNext(cfg, s.mem, run);
    MemIsOk(cfg, s);
    if LateFor(s.mem, run.at, day) {
      Digest.LateRecordDropsWindow(cfg, s.mem, run);
    } else {
      hide NextDigestStep;
      RecordDigest(cfg, s, run, day);
      SpentIsNotAttempted(t.mem, s.sends, now);
    }
  }

  /** From there it takes one successful write until the digest is with the sender again. */
  lemma AttemptIsHandedOver(cfg: Config, s: System, now: Time) returns (t: System)
    requires Reachable(cfg, s) && s.pc.Idle? && s.write.None?
    requires DigestDue(s.mem, now, s.clock) && NextDigestStep(s.mem, now) == Attempt
    ensures Reachable(cfg, t)
    ensures var mem := ReserveDigest(s.mem, now);
            && t == s.(mem := mem, disk := mem, pc := Handed(Daily(s.mem.nextDigestAt, now)), sends := t.sends)
            && t.sends == s.sends + [DigestSend(s.mem.nextDigestAt, now, None)]
  {
    hide Reachable, NextDigestStep, ReserveDigest;
    t := Reach(cfg, s, Reserve(now));
    t := Reach(cfg, t, BeginWrite(true));
    t := Reach(cfg, t, EndWrite(true));
  }

  ghost predicate Reachable(cfg: Config, s: System) {
    exists states, actions :: IsRun(cfg, states, actions) && states[|actions|] == s
  }

  lemma Reach(cfg: Config, s: System, a: Action) returns (t: System)
    requires Reachable(cfg, s) && Enabled(cfg, s, a)
    ensures t == Apply(cfg, s, a) && Reachable(cfg, t)
  {
    hide Initial, Enabled, Apply;
    t := Apply(cfg, s, a);
    var states, actions :| IsRun(cfg, states, actions) && states[|actions|] == s;
    var longer, more := states + [t], actions + [a];
    forall i | 0 <= i < |more|
      ensures Enabled(cfg, longer[i], more[i]) && longer[i + 1] == Apply(cfg, longer[i], more[i])
    {
      assert i < |actions| ==>
          Enabled(cfg, states[i], actions[i]) && states[i + 1] == Apply(cfg, states[i], actions[i]);
    }
    assert longer[0] == states[0];
    assert IsRun(cfg, longer, more);
  }

  function Start(clock: Time): System {
    System(NO_NOTES, NO_NOTES, None, clock, Idle, [], [])
  }

  lemma StartIsReachable(cfg: Config, clock: Time)
    requires 0 <= cfg.digestTime < DAY && ZERO < clock
    ensures Reachable(cfg, Start(clock))
  {
    assert IsRun(cfg, [Start(clock)], []);
  }

  function EmptyRun(at: Time): Run {
    Run(at, false, false, [])
  }

  /** A run, then its digest is handed over when it is due, and the process crashes before the answer. */
  lemma DigestIsUncertain(cfg: Config, at: Time) returns (s: System)
    requires 0 <= cfg.digestTime < DAY && ZERO < at
    ensures Reachable(cfg, s) && s.pc.Idle? && s.write.None?
    ensures var day := DigestEnd(cfg.offset, cfg.digestTime, at);
            && s.mem.nextDigestAt == day == s.clock && day in s.mem.windows && ZERO < day
            && s.mem.windows[day].result.InProgress? && s.sends == [DigestSend(day, day, None)]
  {
    hide Reachable, DigestEnd, RecordItems;
    var day := DigestEnd(cfg.offset, cfg.digestTime, at);
    DigestEndIsLeastBoundary(cfg.offset, cfg.digestTime, at);
    StartIsReachable(cfg, at);
    NothingToAnnounce(cfg, NO_NOTES, at);
    s := Reach(cfg, Start(at), RecordRun(EmptyRun(at)));
    s := Reach(cfg, s, Tick(day));
    s := AttemptIsHandedOver(cfg, s, day);
    s := Reach(cfg, s, Crash);
  }

  lemma NothingToAnnounce(cfg: Config, n: Notes, at: Time)
    ensures Record(cfg, n, EmptyRun(at)) == Recording(StartRun(cfg, n, EmptyRun(at)), [], false, false)
  {
  }

  /** So without the assumption a digest whose first send may have arrived goes out a second time.  The
      crash leaves it marked as being sent, and a tick would abandon it; but a run recorded more than a week
      later, before the first tick, drops the mark. */
  lemma UncertainDigestIsSentTwice(cfg: Config, at: Time, late: Time) returns (crashed: System, s: System)
    requires 0 <= cfg.digestTime < DAY && ZERO < at
    requires DigestEnd(cfg.offset, cfg.digestTime, at) + WEEK < late
    ensures var day := DigestEnd(cfg.offset, cfg.digestTime, at);
            && Reachable(cfg, crashed) && NextDigestStep(crashed.mem, late) == Abandon
            && Reachable(cfg, s) && s.sends == [DigestSend(day, day, None), DigestSend(day, late, None)]
  {
    hide Reachable, DigestEnd, StartRun;
    crashed := DigestIsUncertain(cfg, at);
    NothingToAnnounce(cfg, crashed.mem, late);
    s := Reach(cfg, crashed, Tick(late));
    s := Reach(cfg, s, RecordRun(EmptyRun(late)));
    assert s.mem == StartRun(cfg, crashed.mem, EmptyRun(late));
    LateRunDropsMark(cfg, crashed.mem, late);
    s := AttemptIsHandedOver(cfg, s, late);
  }

  lemma LateRunDropsMark(cfg: Config, n: Notes, late: Time)
    requires ZERO < n.nextDigestAt && n.nextDigestAt + WEEK < late && 0 <= cfg.digestTime < DAY
    ensures var t := StartRun(cfg, n, EmptyRun(late));
            t.nextDigestAt == n.nextDigestAt && NextDigestStep(t, late) == Attempt
  {
    hide DigestEnd;
    DigestEndIsLeastBoundary(cfg.offset, cfg.digestTime, late);
  }
}
