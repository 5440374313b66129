/** The notifier over memory, file, writes and crashes: what reaches the sender, and how often.

    One thread at a time runs `recordNotifications` or `processNotifications` (`notificationMu`); every
    other thread may write a copy of memory at any moment.  Only the file survives a crash. */
module Delivery {
  import opened Clock
  import opened Options
  import opened Notifications
  import Digest

  /** What the holder of `notificationMu` is about to hand to the sender, as decided at `at`. */
  datatype Job =
    | Announce(notices: seq<Notice>, at: Time)
    | Night(notices: seq<Notice>, at: Time)
    | Daily(end: Time, at: Time)

  /** A job is planned in memory, persisted, and then handed over; or its write fails. */
  datatype Pc = Idle | Planned(job: Job) | Persisting(job: Job) | Unsaved(job: Job) | Handed(job: Job)

  datatype Write = Write(mine: bool, copy: Notes)

  /** A failure alert or a digest that was handed to the sender. */
  datatype Alert = Alert(notice: Notice, at: Time)

  datatype DigestSend = DigestSend(end: Time, at: Time, answer: Option<Outcome>)

  datatype System = System(
    mem: Notes,
    disk: Notes,
    write: Option<Write>,
    clock: Time,
    pc: Pc,
    alerts: seq<Alert>,
    sends: seq<DigestSend>)

  datatype Action =
    | Tick(to: Time)
    | RecordRun(run: Run)
    | SetNextDigest(now: Time)
    | TakeNotices(now: Time)
    | OpenDigest(now: Time)
    | Reserve(now: Time)
    | CloseDigest(now: Time)
    | BeginWrite(mine: bool)
    | EndWrite(ok: bool)
    | HandleFailure
    | Answer(outcome: Outcome)
    | Load
    | Crash

  predicate Enabled(cfg: Config, s: System, a: Action) {
    match a
    case Tick(to) => s.clock <= to
    case RecordRun(run) => s.pc.Idle? && run.at == s.clock
    case SetNextDigest(now) => s.pc.Idle? && ZERO < now <= s.clock
    case TakeNotices(now) => s.pc.Idle? && ZERO < now <= s.clock && DueNotices(cfg, s.mem.pending, now) != []
    case OpenDigest(now) => s.pc.Idle? && DigestDue(s.mem, now, s.clock)
    case Reserve(now) => s.pc.Idle? && DigestDue(s.mem, now, s.clock) && NextDigestStep(s.mem, now) == Attempt
    case CloseDigest(now) =>
      && s.pc.Idle? && DigestDue(s.mem, now, s.clock)
      && (NextDigestStep(s.mem, now) == Abandon || NextDigestStep(s.mem, now) == Exhausted)
    case BeginWrite(mine) => s.write.None? && (mine ==> s.pc.Planned?)
    case EndWrite(_) => s.write.Some? && (s.write.value.mine ==> s.pc.Persisting?)
    case HandleFailure => s.pc.Unsaved?
    case Answer(_) => s.pc.Handed?
    // configure reads the file only after every run and tick has ended
    case Load => s.pc.Idle? && s.write.None?
    case Crash => true
  }

  function ApplyRecord(cfg: Config, s: System, run: Run): System {
    var r := Record(cfg, s.mem, run);
    s.(mem := r.notes, pc := if r.immediate == [] then Idle else Planned(Announce(r.immediate, run.at)))
  }

  function ApplyTake(cfg: Config, s: System, now: Time): System {
    s.(mem := TakeDue(cfg, s.mem, now), pc := Planned(Night(DueNotices(cfg, s.mem.pending, now), now)))
  }

  function ApplyReserve(s: System, now: Time): System {
    s.(mem := ReserveDigest(s.mem, now), pc := Planned(Daily(s.mem.nextDigestAt, now)))
  }

  function ApplyBeginWrite(s: System, mine: bool): System
    requires mine ==> s.pc.Planned?
  {
    s.(write := Some(Write(mine, s.mem)), pc := if mine then Persisting(s.pc.job) else s.pc)
  }

  function AlertsOf(notices: seq<Notice>, at: Time): (alerts: seq<Alert>)
    ensures |alerts| == |notices| && forall i :: 0 <= i < |notices| ==> alerts[i] == Alert(notices[i], at)
  {
    seq(|notices|, i requires 0 <= i < |notices| => Alert(notices[i], at))
  }

  /** The reservation is on disk: the job goes to the sender. */
  function Hand(s: System, job: Job): System {
    match job
    case Daily(end, at) => s.(pc := Handed(job), sends := s.sends + [DigestSend(end, at, None)])
    case _ => s.(pc := Handed(job), alerts := s.alerts + AlertsOf(job.notices, job.at))
  }

  function ApplyEndWrite(s: System, ok: bool): System
    requires s.write.Some? && (s.write.value.mine ==> s.pc.Persisting?)
  {
    var done := s.(write := None, disk := if ok then s.write.value.copy else s.disk);
    if !s.write.value.mine then done
    else if ok then Hand(done, s.pc.job)
    else done.(pc := Unsaved(s.pc.job))
  }

  function ApplyHandleFailure(s: System): System
    requires s.pc.Unsaved?
  {
    var mem := match s.pc.job
      case Announce(_, _) => s.mem
      case Night(notices, _) => PutBackNotices(s.mem, notices)
      case Daily(end, _) => if end in s.mem.windows then WithDigestResult(s.mem, end, WriteFailed) else s.mem;
    s.(mem := mem, pc := Idle)
  }

  function WithAnswer(sends: seq<DigestSend>, outcome: Outcome): seq<DigestSend> {
    if sends == [] then [] else sends[|sends| - 1 := sends[|sends| - 1].(answer := Some(outcome))]
  }

  function ApplyAnswer(cfg: Config, s: System, outcome: Outcome): System
    requires s.pc.Handed?
  {
    match s.pc.job
    case Daily(end, at) =>
      s.(mem := if s.mem.nextDigestAt in s.mem.windows then DigestAnswered(cfg, s.mem, at, outcome) else s.mem,
         sends := WithAnswer(s.sends, outcome), pc := Idle)
    case _ => s.(mem := s.mem.(windows := MarkAll(s.mem.windows, s.pc.job.notices, outcome)), pc := Idle)
  }

  function Apply(cfg: Config, s: System, a: Action): System
    requires Enabled(cfg, s, a)
  {
    match a
    case Tick(to) => s.(clock := to)
    case RecordRun(run) => ApplyRecord(cfg, s, run)
    case SetNextDigest(now) => s.(mem := WithNextDigest(cfg, s.mem, now))
    case TakeNotices(now) => ApplyTake(cfg, s, now)
    case OpenDigest(now) => s.(mem := Opened(s.mem, s.mem.nextDigestAt))
    case Reserve(now) => ApplyReserve(s, now)
    case CloseDigest(now) => s.(mem := FinishDigest(cfg, s.mem, s.mem.nextDigestAt, now))
    case BeginWrite(mine) => ApplyBeginWrite(s, mine)
    case EndWrite(ok) => ApplyEndWrite(s, ok)
    case HandleFailure => ApplyHandleFailure(s)
    case Answer(outcome) => ApplyAnswer(cfg, s, outcome)
    case Load => s.(mem := s.disk)
    case Crash => s.(mem := s.disk, write := None, pc := Idle)
  }

  // ----- the invariant of the alerts -----

  predicate Same(a: Notice, b: Notice) {
    a.key == b.key && a.end == b.end
  }

  predicate Listed(notices: seq<Notice>, x: Notice) {
    exists i :: 0 <= i < |notices| && Same(notices[i], x)
  }

  ghost predicate Distinct(notices: seq<Notice>) {
    forall i, j :: 0 <= i < j < |notices| ==> !Same(notices[i], notices[j])
  }

  /** The window of the notice is there and holds its key. */
  predicate Marked(n: Notes, x: Notice) {
    x.end in n.windows && x.key in n.windows[x.end].failures
  }

  /** A pending queue has no duplicates, and each notice has a live window holding its key. */
  ghost predicate QueueSound(n: Notes) {
    Distinct(n.pending) && forall i :: 0 <= i < |n.pending| ==> Marked(n, n.pending[i])
  }

  /** The notice cannot be announced any more: it is not queued, and its window is over or knows it. */
  ghost predicate Settled(n: Notes, x: Notice, clock: Time) {
    !Listed(n.pending, x) && (x.end <= clock || Marked(n, x))
  }

  ghost predicate AllSettled(n: Notes, alerts: seq<Alert>, clock: Time) {
    forall i :: 0 <= i < |alerts| ==> Settled(n, alerts[i].notice, clock)
  }

  ghost predicate CopyOk(cfg: Config, n: Notes, alerts: seq<Alert>, clock: Time) {
    OnBoundaries(cfg, n) && QueueSound(n) && AllSettled(n, alerts, clock) && ZERO <= n.nextDigestAt
  }

  ghost predicate NotYetSent(notices: seq<Notice>, alerts: seq<Alert>) {
    forall i, j :: 0 <= i < |notices| && 0 <= j < |alerts| ==> !Same(notices[i], alerts[j].notice)
  }

  predicate Loud(cfg: Config, at: Time) {
    ZERO < at && QuietUntil(cfg.offset, cfg.quietStart, cfg.quietEnd, at) == ZERO
  }

  /** The notices under way: alike ones neither queued nor sent before, marked in memory. */
  ghost predicate JobOk(cfg: Config, n: Notes, job: Job, alerts: seq<Alert>) {
    !job.Daily? ==>
      && Distinct(job.notices) && NotYetSent(job.notices, alerts) && Loud(cfg, job.at)
      && forall i :: 0 <= i < |job.notices| ==> Marked(n, job.notices[i]) && !Listed(n.pending, job.notices[i])
  }

  ghost predicate SentOnce(cfg: Config, alerts: seq<Alert>) {
    && (forall i, j :: 0 <= i < j < |alerts| ==> !Same(alerts[i].notice, alerts[j].notice))
    && (forall i :: 0 <= i < |alerts| ==> Loud(cfg, alerts[i].at))
  }

  ghost predicate Writer(s: System) {
    && (s.pc.Persisting? <==> s.write.Some? && s.write.value.mine)
    && (s.pc.Persisting? ==> s.write.value.copy == s.mem)
    && (!s.pc.Idle? && s.pc.job.Daily? ==> ZERO < s.mem.nextDigestAt == s.pc.job.end <= s.pc.job.at <= s.clock)
  }

  ghost predicate AlertInv(cfg: Config, s: System) {
    && ZERO < s.clock && Writer(s) && SentOnce(cfg, s.alerts)
    && CopyOk(cfg, s.mem, s.alerts, s.clock)
    && CopyOk(cfg, s.disk, s.alerts, s.clock)
    && (s.write.Some? ==> CopyOk(cfg, s.write.value.copy, s.alerts, s.clock))
    && (s.pc.Planned? || s.pc.Persisting? || s.pc.Unsaved? ==> JobOk(cfg, s.mem, s.pc.job, s.alerts))
  }

  // ----- one failure more -----

  /** What holds of a recording between two account results. */
  ghost predicate RecordingOk(r: Recording, end: Time) {
    && QueueSound(r.notes) && Distinct(r.immediate) && end in r.notes.windows
    && forall i :: 0 <= i < |r.immediate| ==>
         r.immediate[i].end == end && Marked(r.notes, r.immediate[i]) && !Listed(r.notes.pending, r.immediate[i])
  }

  /** `x` is settled, and not among the notices to be announced at once. */
  ghost predicate Past(r: Recording, x: Notice, clock: Time) {
    Settled(r.notes, x, clock) && !Listed(r.immediate, x)
  }

  lemma CountingKeepsMarks(cfg: Config, end: Time, n: Notes, item: Item)
    requires end in n.windows
    ensures var t := CountInto(cfg, end, n, item);
            && t.pending == n.pending && t.windows.Keys == n.windows.Keys
            && forall e :: e in n.windows ==> t.windows[e].failures == n.windows[e].failures
  {
    hide NextStreaks, FailureCategory, SkipReason;
  }

  lemma SameMarks(n: Notes, t: Notes)
    requires t.pending == n.pending && t.windows.Keys == n.windows.Keys
    requires forall e :: e in n.windows ==> n.windows[e].failures.Keys <= t.windows[e].failures.Keys
    ensures QueueSound(n) ==> QueueSound(t)
    ensures forall x :: Marked(n, x) ==> Marked(t, x)
    ensures forall x, clock :: Settled(n, x, clock) ==> Settled(t, x, clock)
  {
    hide Listed, Distinct;
  }

  /** A queue or list grows by a notice that was not marked before. */
  lemma ListGrows(notices: seq<Notice>, x: Notice)
    requires Distinct(notices) && !Listed(notices, x)
    ensures Distinct(notices + [x])
    ensures forall y :: Listed(notices + [x], y) <==> Listed(notices, y) || Same(x, y)
  {
    forall y
      ensures Listed(notices + [x], y) <==> Listed(notices, y) || Same(x, y)
    {
      if Listed(notices, y) {
        var i :| 0 <= i < |notices| && Same(notices[i], y);
        assert (notices + [x])[i] == notices[i];
      }
      if Same(x, y) {
        assert (notices + [x])[|notices|] == x;
      }
      if Listed(notices + [x], y) {
        var i :| 0 <= i < |notices + [x]| && Same((notices + [x])[i], y);
        assert i < |notices| ==> Same(notices[i], y);
      }
    }
  }

  lemma ListedIsMarked(n: Notes, notices: seq<Notice>, x: Notice)
    requires Listed(notices, x) && forall i :: 0 <= i < |notices| ==> Marked(n, notices[i])
    ensures Marked(n, x)
  {
    var i :| 0 <= i < |notices| && Same(notices[i], x);
    assert Marked(n, notices[i]);
  }

  /** The mark that a new failure leaves, whatever becomes of it. */
  lemma MarkAdded(n: Notes, end: Time, key: Key, mark: Mark, pending: seq<Notice>)
    requires end in n.windows && key !in n.windows[end].failures
    ensures var w := n.windows[end];
            var t := n.(windows := n.windows[end := w.(failures := w.failures[key := mark])], pending := pending);
            && (forall x :: Marked(t, x) <==> Marked(n, x) || (x.key == key && x.end == end))
            && end in t.windows
  {
  }

  lemma NoticeAdded(cfg: Config, end: Time, run: Run, r: Recording, key: Key)
    requires RecordingOk(r, end)
    ensures RecordingOk(AddNotice(cfg, end, run, r, key), end)
    ensures forall x, clock :: Past(r, x, clock) && clock < end ==> Past(AddNotice(cfg, end, run, r, key), x, clock)
  {
    hide QuietUntil, Listed, Distinct, Same;
    var n, w := r.notes, r.notes.windows[end];
    if key !in w.failures {
      var queued := Notice(key, run.at, QuietUntil(cfg.offset, cfg.quietStart, cfg.quietEnd, run.at), end);
      var sent := Notice(key, run.at, ZERO, end);
      MarkAdded(n, end, key, Manual, n.pending);
      MarkAdded(n, end, key, Sending, n.pending);
      MarkAdded(n, end, key, Queued, n.pending + [queued]);
      NewNotice(r, end, queued);
      NewNotice(r, end, sent);
      ListGrows(n.pending, queued);
      ListGrows(r.immediate, sent);
    }
  }

  /** A notice whose key its window does not hold is neither queued nor under way. */
  lemma NewNotice(r: Recording, end: Time, x: Notice)
    requires RecordingOk(r, end) && x.end == end && x.key !in r.notes.windows[end].failures
    ensures !Listed(r.notes.pending, x) && !Listed(r.immediate, x)
    ensures forall y, clock :: Past(r, y, clock) && clock < end ==> !Same(x, y)
    ensures forall i :: 0 <= i < |r.immediate| ==> !Same(x, r.immediate[i])
    ensures forall i :: 0 <= i < |r.notes.pending| ==> !Same(x, r.notes.pending[i])
  {
    hide Distinct;
    if Listed(r.notes.pending, x) {
      ListedIsMarked(r.notes, r.notes.pending, x);
    }
    if Listed(r.immediate, x) {
      ListedIsMarked(r.notes, r.immediate, x);
    }
  }

  lemma ItemRecorded(cfg: Config, end: Time, run: Run, r: Recording, item: Item)
    requires RecordingOk(r, end)
    ensures RecordingOk(RecordItem(cfg, end, run, r, item), end)
    ensures forall x, clock :: Past(r, x, clock) && clock < end ==> Past(RecordItem(cfg, end, run, r, item), x, clock)
  {
    hide CountInto, AddNotice, FailureCategory, Listed, Distinct;
    var counted := r.(notes := CountInto(cfg, end, r.notes, item));
    CountingKeepsMarks(cfg, end, r.notes, item);
    SameMarks(r.notes, counted.notes);
    var category := FailureCategory(item, StreakOf(counted.notes.streaks, item.account), cfg.streakThreshold);
    if category.Failure? {
      NoticeAdded(cfg, end, run, counted, Key(item.account, category.category));
    }
  }

  lemma {:induction false} ItemsRecorded(cfg: Config, end: Time, run: Run, r: Recording, items: seq<Item>)
    requires RecordingOk(r, end)
    ensures RecordingOk(RecordItems(cfg, end, run, r, items), end)
    ensures forall x, clock :: Past(r, x, clock) && clock < end ==> Past(RecordItems(cfg, end, run, r, items), x, clock)
  {
    hide RecordItem, QueueSound, Distinct, Listed, Marked, Past;
    if items != [] {
      var init := items[..|items| - 1];
      ItemsRecorded(cfg, end, run, r, init);
      ItemRecorded(cfg, end, run, RecordItems(cfg, end, run, r, init), items[|items| - 1]);
    }
  }

  // ----- pruning -----

  lemma {:induction false} LivingSound(pending: seq<Notice>, windows: map<Time, Window>)
    requires Distinct(pending)
    ensures Distinct(Living(pending, windows))
    ensures forall x :: Listed(Living(pending, windows), x) <==> Listed(pending, x) && x.end in windows
    ensures forall i :: 0 <= i < |Living(pending, windows)| ==>
              Living(pending, windows)[i] in pending && Living(pending, windows)[i].end in windows
  {
    if pending != [] {
      var init, last := pending[..|pending| - 1], pending[|pending| - 1];
      assert pending == init + [last];
      InitDistinct(pending);
      LivingSound(init, windows);
      hide Same, Living, Distinct, Listed;
      ListGrows(init, last);
      if last.end in windows {
        ListGrows(Living(init, windows), last);
        assert Living(pending, windows) == Living(init, windows) + [last] by {
          LivingStep(pending, windows);
        }
      } else {
        assert Living(pending, windows) == Living(init, windows) by {
          LivingStep(pending, windows);
        }
      }
    }
  }

  lemma LivingStep(pending: seq<Notice>, windows: map<Time, Window>)
    requires pending != []
    ensures var init, last := pending[..|pending| - 1], pending[|pending| - 1];
            Living(pending, windows) == if last.end in windows then Living(init, windows) + [last]
                else Living(init, windows)
  {
  }

  lemma InitDistinct(notices: seq<Notice>)
    requires notices != [] && Distinct(notices)
    ensures Distinct(notices[..|notices| - 1]) && !Listed(notices[..|notices| - 1], notices[|notices| - 1])
  {
  }

  /** Pruning windows that are over keeps the queue sound and settled notices settled. */
  lemma PruneOk(n: Notes, cutoff: Time)
    requires QueueSound(n)
    ensures QueueSound(Prune(n, cutoff))
    ensures forall x, clock :: Settled(n, x, clock) && (forall end :: end in n.windows && end < cutoff ==>
              end <= clock) ==>
              Settled(Prune(n, cutoff), x, clock)
  {
    hide Distinct, Listed;
    LivingSound(n.pending, PruneWindows(n.windows, cutoff));
  }

  lemma OpenedOk(n: Notes, end: Time)
    ensures QueueSound(n) ==> QueueSound(Opened(n, end))
    ensures forall x, clock :: Settled(n, x, clock) ==> Settled(Opened(n, end), x, clock)
  {
    hide Distinct, Listed;
  }

  /** A run may start recording: its window knows every alert of that window that was ever sent. */
  lemma RunStarts(cfg: Config, n: Notes, run: Run)
    requires QueueSound(n) && OnBoundaries(cfg, n)
    ensures var end := DigestEnd(cfg.offset, cfg.digestTime, run.at);
            && QueueSound(StartRun(cfg, n, run)) && OnBoundaries(cfg, StartRun(cfg, n, run))
            && run.at < end
            && forall x :: Settled(n, x, run.at) ==> Settled(StartRun(cfg, n, run), x, run.at)
  {
    hide Distinct, Listed, DigestEnd, Prune;
    var end := DigestEnd(cfg.offset, cfg.digestTime, run.at);
    DigestEndIsLeastBoundary(cfg.offset, cfg.digestTime, run.at);
    var first := WithNextDigest(cfg, n, run.at);
    assert QueueSound(first) && forall x :: Settled(n, x, run.at) ==> Settled(first, x, run.at);
    var pruned := Prune(first, run.at - WEEK);
    PruneOk(first, run.at - WEEK);
    PruneFields(first, run.at - WEEK);
    var started := Opened(pruned, end);
    OpenedOk(pruned, end);
    SameMarks(started, StartRun(cfg, n, run));
  }

  lemma PruneFields(n: Notes, cutoff: Time)
    ensures Prune(n, cutoff).nextDigestAt == n.nextDigestAt
    ensures Prune(n, cutoff).windows == PruneWindows(n.windows, cutoff)
  {
  }

  /** The whole memory section of a recording. */
  lemma RunRecorded(cfg: Config, n: Notes, run: Run)
    requires QueueSound(n) && OnBoundaries(cfg, n)
    ensures var r := Record(cfg, n, run);
            && RecordingOk(r, DigestEnd(cfg.offset, cfg.digestTime, run.at)) && OnBoundaries(cfg, r.notes)
            && forall x :: Settled(n, x, run.at) ==> Past(r, x, run.at)
  {
    hide RecordItems, StartRun, DigestEnd, QueueSound, Settled;
    var end := DigestEnd(cfg.offset, cfg.digestTime, run.at);
    RunStarts(cfg, n, run);
    var start := Recording(StartRun(cfg, n, run), [], false, false);
    ItemsRecorded(cfg, end, run, start, run.items);
    Digest.ItemsKeepKeys(cfg, end, run, start, run.items);
  }

  // ----- each action keeps the invariant of the alerts -----

  lemma AllPast(cfg: Config, n: Notes, run: Run, alerts: seq<Alert>)
    requires QueueSound(n) && OnBoundaries(cfg, n) && AllSettled(n, alerts, run.at)
    ensures var r := Record(cfg, n, run);
            && AllSettled(r.notes, alerts, run.at)
            && NotYetSent(r.immediate, alerts)
            && (forall i :: 0 <= i < |r.immediate| ==>
                Marked(r.notes, r.immediate[i]) && !Listed(r.notes.pending, r.immediate[i]))
            && Distinct(r.immediate) && QueueSound(r.notes) && OnBoundaries(cfg, r.notes)
  {
    hide Record, Settled, DigestEnd;
    RunRecorded(cfg, n, run);
    var r := Record(cfg, n, run);
    forall i | 0 <= i < |alerts|
      ensures Past(r, alerts[i].notice, run.at)
    {
      assert Settled(n, alerts[i].notice, run.at);
    }
  }

  lemma RecordKeepsNext(cfg: Config, n: Notes, run: Run)
    ensures Record(cfg, n, run).notes.nextDigestAt == WithNextDigest(cfg, n, run.at).nextDigestAt
  {
    hide RecordItem, DigestEnd;
    Digest.ItemsKeepKeys(cfg, DigestEnd(cfg.offset, cfg.digestTime, run.at), run,
                         Recording(StartRun(cfg, n, run), [], false, false), run.items);
  }

  /** Only what was decided outside the quiet period is announced at once. */
  lemma {:induction false} ImmediateIsLoud(cfg: Config, end: Time, run: Run, r: Recording, items: seq<Item>)
    requires end in r.notes.windows && (r.immediate != [] ==> Loud(cfg, run.at)) && ZERO < run.at
    ensures RecordItems(cfg, end, run, r, items).immediate != [] ==> Loud(cfg, run.at)
  {
    hide CountInto, FailureCategory, QuietUntil;
    if items != [] {
      ImmediateIsLoud(cfg, end, run, r, items[..|items| - 1]);
    }
  }

  lemma RecordStep(cfg: Config, s: System, run: Run)
    requires AlertInv(cfg, s) && s.pc.Idle? && run.at == s.clock
    ensures AlertInv(cfg, ApplyRecord(cfg, s, run))
  {
    hide Record, QueueSound, AllSettled, NotYetSent, Distinct, Listed, Marked, Loud, SentOnce, OnBoundaries, DigestEnd;
    AllPast(cfg, s.mem, run, s.alerts);
    RecordKeepsNext(cfg, s.mem, run);
    NextIsPositive(cfg, s.mem, run.at);
    RecordIsLoud(cfg, s.mem, run);
  }

  lemma RecordIsLoud(cfg: Config, n: Notes, run: Run)
    requires ZERO < run.at
    ensures Record(cfg, n, run).immediate != [] ==> Loud(cfg, run.at)
  {
    hide StartRun, Loud, DigestEnd;
    ImmediateIsLoud(cfg, DigestEnd(cfg.offset, cfg.digestTime, run.at), run,
                    Recording(StartRun(cfg, n, run), [], false, false), run.items);
  }

  lemma NextIsPositive(cfg: Config, n: Notes, now: Time)
    requires OnBoundaries(cfg, n) && ZERO <= n.nextDigestAt && ZERO < now
    ensures ZERO < WithNextDigest(cfg, n, now).nextDigestAt
    ensures OnBoundaries(cfg, WithNextDigest(cfg, n, now))
  {
    hide DigestEnd;
    DigestEndIsLeastBoundary(cfg.offset, cfg.digestTime, now);
  }

  lemma SetNextStep(cfg: Config, s: System, now: Time)
    requires AlertInv(cfg, s) && s.pc.Idle? && ZERO < now
    ensures AlertInv(cfg, s.(mem := WithNextDigest(cfg, s.mem, now)))
  {
    hide Distinct, Listed, DigestEnd, OnBoundaries, SentOnce;
    NextIsPositive(cfg, s.mem, now);
  }

  /** What is due is loud, and what is taken was queued and is not any more. */
  lemma {:induction false} TakenSound(cfg: Config, pending: seq<Notice>, now: Time)
    requires Distinct(pending) && ZERO < now
    ensures var due, waiting := DueNotices(cfg, pending, now), WaitingNotices(cfg, pending, now);
            && Distinct(due) && Distinct(waiting)
            && (forall x :: Listed(due, x) ==> Listed(pending, x) && !Listed(waiting, x))
            && (forall x :: Listed(waiting, x) ==> Listed(pending, x))
            && (forall i :: 0 <= i < |due| ==> due[i] in pending)
            && (forall i :: 0 <= i < |waiting| ==> waiting[i] in pending)
            && (due != [] ==> Loud(cfg, now))
  {
    hide IsDue, Same, Distinct, Listed;
    if pending == [] {
      NothingTaken(cfg, pending, now);
    } else {
      var init, last := pending[..|pending| - 1], pending[|pending| - 1];
      assert pending == init + [last];
      InitDistinct(pending);
      TakenSound(cfg, init, now);
      ListGrows(init, last);
      hide DueNotices, WaitingNotices;
      TakeStep(cfg, pending, now);
      AlikeIsListed(init, last);
      if IsDue(cfg, last, now) {
        ListGrows(DueNotices(cfg, init, now), last);
        assert WaitingNotices(cfg, pending, now) == WaitingNotices(cfg, init, now);
      } else {
        ListGrows(WaitingNotices(cfg, init, now), last);
        assert DueNotices(cfg, pending, now) == DueNotices(cfg, init, now);
      }
    }
  }

  lemma NothingTaken(cfg: Config, pending: seq<Notice>, now: Time)
    requires pending == []
    ensures DueNotices(cfg, pending, now) == [] == WaitingNotices(cfg, pending, now)
    ensures Distinct([]) && forall x :: !Listed([], x)
  {
  }

  lemma TakeStep(cfg: Config, pending: seq<Notice>, now: Time)
    requires pending != [] && ZERO < now
    ensures var init, last := pending[..|pending| - 1], pending[|pending| - 1];
            && DueNotices(cfg, pending, now) == DueNotices(cfg, init, now)
                + (if IsDue(cfg, last, now) then [last] else [])
            && WaitingNotices(cfg, pending, now)
               == WaitingNotices(cfg, init, now) + (if IsDue(cfg, last, now) then [] else [last])
            && (IsDue(cfg, last, now) ==> Loud(cfg, now))
  {
  }

  lemma AlikeIsListed(notices: seq<Notice>, x: Notice)
    requires !Listed(notices, x)
    ensures forall y :: Same(x, y) ==> !Listed(notices, y)
  {
  }

  lemma TakeStepKeeps(cfg: Config, s: System, now: Time)
    requires AlertInv(cfg, s) && s.pc.Idle? && DueNotices(cfg, s.mem.pending, now) != [] && ZERO < now
    ensures AlertInv(cfg, ApplyTake(cfg, s, now))
  {
    hide Same, Distinct, Listed, DueNotices, WaitingNotices, OnBoundaries, SentOnce, Loud;
    TakenSound(cfg, s.mem.pending, now);
    DueWasQueued(cfg, s.mem, now, s.alerts, s.clock);
    var t := ApplyTake(cfg, s, now);
    assert QueueSound(t.mem);
    assert AllSettled(t.mem, s.alerts, s.clock) by {
      forall i | 0 <= i < |s.alerts|
        ensures Settled(t.mem, s.alerts[i].notice, s.clock)
      {
        assert Settled(s.mem, s.alerts[i].notice, s.clock);
      }
    }
    assert OnBoundaries(cfg, t.mem) by {
      SameWindowsOnBoundaries(cfg, s.mem, t.mem);
    }
    assert JobOk(cfg, t.mem, t.pc.job, s.alerts);
  }

  lemma SameWindowsOnBoundaries(cfg: Config, n: Notes, t: Notes)
    requires OnBoundaries(cfg, n) && t.windows.Keys == n.windows.Keys && t.nextDigestAt == n.nextDigestAt
    ensures OnBoundaries(cfg, t)
  {
  }

  lemma DueWasQueued(cfg: Config, n: Notes, now: Time, alerts: seq<Alert>, clock: Time)
    requires QueueSound(n) && AllSettled(n, alerts, clock) && ZERO < now
    ensures var due := DueNotices(cfg, n.pending, now);
            && NotYetSent(due, alerts)
            && forall i :: 0 <= i < |due| ==> Marked(n, due[i]) && Listed(due, due[i])
  {
    hide DueNotices, WaitingNotices, Distinct, Loud;
    TakenSound(cfg, n.pending, now);
    var due := DueNotices(cfg, n.pending, now);
    forall i | 0 <= i < |due|
      ensures Marked(n, due[i]) && Listed(due, due[i])
    {
      assert Same(due[i], due[i]);
    }
    forall i, j | 0 <= i < |due| && 0 <= j < |alerts|
      ensures !Same(due[i], alerts[j].notice)
    {
      var x := alerts[j].notice;
      assert Settled(n, x, clock);
      assert Same(due[i], x) ==> Listed(due, x);
    }
  }

  /** Memory sections that leave the queue and the marks alone. */
  lemma SameMarksStep(cfg: Config, s: System, mem: Notes, pc: Pc)
    requires AlertInv(cfg, s) && !s.pc.Persisting?
    requires pc.Idle? || (pc.Planned? && pc.job.Daily? && ZERO < mem.nextDigestAt == pc.job.end <= pc.job.at <= s.clock)
    requires mem.pending == s.mem.pending && OnBoundaries(cfg, mem) && ZERO <= mem.nextDigestAt
    requires s.mem.windows.Keys <= mem.windows.Keys
    requires forall e :: e in s.mem.windows ==> s.mem.windows[e].failures.Keys <= mem.windows[e].failures.Keys
    ensures AlertInv(cfg, s.(mem := mem, pc := pc))
  {
    hide Distinct, Listed, OnBoundaries, SentOnce;
  }

  lemma OpenStep(cfg: Config, s: System)
    requires AlertInv(cfg, s) && s.pc.Idle? && s.mem.nextDigestAt != ZERO
    ensures AlertInv(cfg, s.(mem := Opened(s.mem, s.mem.nextDigestAt)))
  {
    hide QueueSound, AllSettled, SentOnce;
    SameMarksStep(cfg, s, Opened(s.mem, s.mem.nextDigestAt), Idle);
  }

  lemma ReserveStep(cfg: Config, s: System, now: Time)
    requires AlertInv(cfg, s) && s.pc.Idle? && DigestDue(s.mem, now, s.clock)
    ensures AlertInv(cfg, ApplyReserve(s, now))
  {
    hide QueueSound, AllSettled, SentOnce;
    SameMarksStep(cfg, s, ReserveDigest(s.mem, now), Planned(Daily(s.mem.nextDigestAt, now)));
  }

  /** Closing the digest drops only windows that are over. */
  lemma ClosedCopy(cfg: Config, n: Notes, alerts: seq<Alert>, now: Time, clock: Time)
    requires CopyOk(cfg, n, alerts, clock) && ZERO < n.nextDigestAt <= now <= clock
    ensures CopyOk(cfg, FinishDigest(cfg, n, n.nextDigestAt, now), alerts, clock)
  {
    hide Distinct, Listed, DigestEnd;
    ClosingIsExact(cfg, n, now);
    DigestEndIsLeastBoundary(cfg.offset, cfg.digestTime, now);
    var next := FinishDigest(cfg, n, n.nextDigestAt, now).nextDigestAt;
    var moved := n.(nextDigestAt := next);
    assert QueueSound(moved);
    PruneOk(moved, next);
    assert FinishDigest(cfg, n, n.nextDigestAt, now) == Prune(moved, next);
    forall end | end in n.windows && end < next
      ensures end <= clock
    {
      PrunedIsOver(cfg, n, now, end);
    }
    forall i | 0 <= i < |alerts|
      ensures Settled(Prune(moved, next), alerts[i].notice, clock)
    {
      assert Settled(n, alerts[i].notice, clock);
      assert Settled(moved, alerts[i].notice, clock);
    }
  }

  lemma PrunedIsOver(cfg: Config, n: Notes, now: Time, end: Time)
    requires OnBoundaries(cfg, n) && end in n.windows
    requires end < DigestEnd(cfg.offset, cfg.digestTime, now)
    ensures end <= now
  {
    hide DigestEnd;
    DigestEndIsLeastBoundary(cfg.offset, cfg.digestTime, now);
  }

  lemma CloseStep(cfg: Config, s: System, now: Time)
    requires AlertInv(cfg, s) && s.pc.Idle? && DigestDue(s.mem, now, s.clock)
    ensures AlertInv(cfg, s.(mem := FinishDigest(cfg, s.mem, s.mem.nextDigestAt, now)))
  {
    hide CopyOk, SentOnce, FinishDigest;
    MemIsOk(cfg, s);
    ClosedCopy(cfg, s.mem, s.alerts, now, s.clock);
  }

  lemma MemIsOk(cfg: Config, s: System)
    requires AlertInv(cfg, s)
    ensures CopyOk(cfg, s.mem, s.alerts, s.clock)
  {
  }

  lemma BeginStep(cfg: Config, s: System, mine: bool)
    requires AlertInv(cfg, s) && s.write.None? && (mine ==> s.pc.Planned?)
    ensures AlertInv(cfg, ApplyBeginWrite(s, mine))
  {
    hide CopyOk, SentOnce, JobOk;
  }

  lemma OtherWriteStep(cfg: Config, s: System, ok: bool)
    requires AlertInv(cfg, s) && s.write.Some? && (s.write.value.mine ==> s.pc.Persisting? && (!ok || s.pc.job.Daily?))
    ensures AlertInv(cfg, ApplyEndWrite(s, ok))
  {
    hide CopyOk, SentOnce, JobOk;
  }

  /** The notices handed over are new, and every copy of the state knows them. */
  lemma HandStep(cfg: Config, s: System)
    requires AlertInv(cfg, s) && s.write.Some? && s.write.value.mine && s.pc.Persisting? && !s.pc.job.Daily?
    ensures AlertInv(cfg, ApplyEndWrite(s, true))
  {
    hide Listed, Distinct, Same, Loud, QueueSound, OnBoundaries;
    var t := ApplyEndWrite(s, true);
    var notices, at := s.pc.job.notices, s.pc.job.at;
    NewAlerts(cfg, s.mem, s.alerts, s.pc.job, s.clock);
    assert t.disk == s.mem && t.mem == s.mem && t.alerts == s.alerts + AlertsOf(notices, at);
  }

  lemma NewAlerts(cfg: Config, n: Notes, alerts: seq<Alert>, job: Job, clock: Time)
    requires !job.Daily? && JobOk(cfg, n, job, alerts) && SentOnce(cfg, alerts) && AllSettled(n, alerts, clock)
    ensures SentOnce(cfg, alerts + AlertsOf(job.notices, job.at))
    ensures AllSettled(n, alerts + AlertsOf(job.notices, job.at), clock)
  {
    hide Listed, Same, Loud;
    var all := alerts + AlertsOf(job.notices, job.at);
    forall i, j | 0 <= i < j < |all|
      ensures !Same(all[i].notice, all[j].notice)
    {
      if j < |alerts| {
        assert all[i] == alerts[i] && all[j] == alerts[j];
      } else if i < |alerts| {
        assert all[i] == alerts[i] && all[j].notice == job.notices[j - |alerts|];
        SameIsSymmetric(alerts[i].notice, job.notices[j - |alerts|]);
      } else {
        assert all[i].notice == job.notices[i - |alerts|] && all[j].notice == job.notices[j - |alerts|];
      }
    }
    forall i | 0 <= i < |all|
      ensures Loud(cfg, all[i].at) && Settled(n, all[i].notice, clock)
    {
      if i < |alerts| {
        assert all[i] == alerts[i];
      } else {
        assert all[i] == Alert(job.notices[i - |alerts|], job.at);
      }
    }
  }

  lemma SameIsSymmetric(a: Notice, b: Notice)
    ensures Same(a, b) <==> Same(b, a)
  {
  }

  lemma EndWriteStep(cfg: Config, s: System, ok: bool)
    requires AlertInv(cfg, s) && s.write.Some?
    ensures AlertInv(cfg, ApplyEndWrite(s, ok))
  {
    hide CopyOk, SentOnce, JobOk;
    if s.write.value.mine && ok && !s.pc.job.Daily? {
      HandStep(cfg, s);
    } else {
      OtherWriteStep(cfg, s, ok);
    }
  }

  /** Notices go back where they came from. */
  lemma PutBackStep(cfg: Config, s: System)
    requires AlertInv(cfg, s) && s.pc.Unsaved? && s.pc.job.Night?
    ensures AlertInv(cfg, ApplyHandleFailure(s))
  {
    hide SentOnce, OnBoundaries, Same, Loud, Listed, Distinct;
    var notices := s.pc.job.notices;
    ListsJoin(s.mem.pending, notices);
    var t := PutBackNotices(s.mem, notices);
    SameWindowsOnBoundaries(cfg, s.mem, t);
    assert forall i :: 0 <= i < |t.pending| ==> Marked(t, t.pending[i]);
    forall i | 0 <= i < |s.alerts|
      ensures Settled(t, s.alerts[i].notice, s.clock)
    {
      var x := s.alerts[i].notice;
      assert Settled(s.mem, x, s.clock);
      NotListed(notices, x);
    }
  }

  lemma NotListed(notices: seq<Notice>, x: Notice)
    requires forall i :: 0 <= i < |notices| ==> !Same(notices[i], x)
    ensures !Listed(notices, x)
  {
  }

  lemma ListsJoin(a: seq<Notice>, b: seq<Notice>)
    requires Distinct(a) && Distinct(b) && forall i :: 0 <= i < |b| ==> !Listed(a, b[i])
    ensures Distinct(a + b)
    ensures forall x :: Listed(a + b, x) <==> Listed(a, x) || Listed(b, x)
  {
    hide Same;
    var all := a + b;
    forall i, j | 0 <= i < j < |all|
      ensures !Same(all[i], all[j])
    {
      assert i < |a| ==> all[i] == a[i];
      assert j < |a| ==> all[j] == a[j];
      assert i >= |a| ==> all[i] == b[i - |a|];
      assert j >= |a| ==> all[j] == b[j - |a|];
    }
    forall x
      ensures Listed(all, x) <==> Listed(a, x) || Listed(b, x)
    {
      if Listed(a, x) {
        var i :| 0 <= i < |a| && Same(a[i], x);
        assert all[i] == a[i];
      }
      if Listed(b, x) {
        var i :| 0 <= i < |b| && Same(b[i], x);
        assert all[|a| + i] == b[i];
      }
      if Listed(all, x) {
        var i :| 0 <= i < |all| && Same(all[i], x);
        assert if i < |a| then all[i] == a[i] else all[i] == b[i - |a|];
      }
    }
  }

  lemma HandleFailureStep(cfg: Config, s: System)
    requires AlertInv(cfg, s) && s.pc.Unsaved?
    ensures AlertInv(cfg, ApplyHandleFailure(s))
  {
    hide CopyOk, SentOnce, JobOk;
    match s.pc.job
    case Announce(_, _) =>
    case Night(_, _) => PutBackStep(cfg, s);
    case Daily(end, _) => ResultStep(cfg, s, end, WriteFailed);
  }

  lemma ResultStep(cfg: Config, s: System, end: Time, result: DigestResult)
    requires AlertInv(cfg, s) && !s.pc.Persisting?
    ensures AlertInv(cfg, s.(mem := if end in s.mem.windows then WithDigestResult(s.mem, end, result)
              else s.mem, pc := Idle))
  {
    hide QueueSound, AllSettled, SentOnce;
    SameMarksStep(cfg, s, if end in s.mem.windows then WithDigestResult(s.mem, end, result) else s.mem, Idle);
  }

  lemma {:induction false} MarkingGrows(windows: map<Time, Window>, notices: seq<Notice>, outcome: Outcome)
    ensures var t := MarkAll(windows, notices, outcome);
            && t.Keys == windows.Keys
            && forall e :: e in windows ==> windows[e].failures.Keys <= t[e].failures.Keys
  {
    if notices != [] {
      MarkingGrows(windows, notices[..|notices| - 1], outcome);
    }
  }

  lemma AnswerStep(cfg: Config, s: System, outcome: Outcome)
    requires AlertInv(cfg, s) && s.pc.Handed?
    ensures AlertInv(cfg, ApplyAnswer(cfg, s, outcome))
  {
    hide CopyOk, SentOnce, JobOk, MarkAll, FinishDigest, DigestEnd;
    match s.pc.job
    case Daily(end, at) =>
      ResultStep(cfg, s, s.mem.nextDigestAt, Answered(outcome));
      if s.mem.nextDigestAt in s.mem.windows {
        ClosedCopy(cfg, WithDigestResult(s.mem, s.mem.nextDigestAt, Answered(outcome)), s.alerts, at, s.clock);
      }
    case _ =>
      MarkedStep(cfg, s, s.pc.job.notices, outcome);
  }

  lemma MarkedStep(cfg: Config, s: System, notices: seq<Notice>, outcome: Outcome)
    requires AlertInv(cfg, s) && s.pc.Handed?
    ensures AlertInv(cfg, s.(mem := s.mem.(windows := MarkAll(s.mem.windows, notices, outcome)), pc := Idle))
  {
    hide QueueSound, AllSettled, SentOnce, MarkAll;
    MarkingGrows(s.mem.windows, notices, outcome);
    SameMarksStep(cfg, s, s.mem.(windows := MarkAll(s.mem.windows, notices, outcome)), Idle);
  }

  lemma TickStep(cfg: Config, s: System, to: Time)
    requires AlertInv(cfg, s) && s.clock <= to
    ensures AlertInv(cfg, s.(clock := to))
  {
    hide Listed, QueueSound, OnBoundaries, SentOnce, JobOk;
  }

  lemma ReplaceStep(cfg: Config, s: System, write: Option<Write>)
    requires AlertInv(cfg, s) && write.None?
    ensures AlertInv(cfg, s.(mem := s.disk, write := write, pc := Idle))
  {
    hide CopyOk, SentOnce;
  }

  lemma StepKeepsAlerts(cfg: Config, s: System, a: Action)
    requires AlertInv(cfg, s) && Enabled(cfg, s, a)
    ensures AlertInv(cfg, Apply(cfg, s, a))
  {
    hide AlertInv, ApplyRecord, ApplyTake, ApplyReserve, ApplyBeginWrite, ApplyEndWrite, ApplyHandleFailure,
      ApplyAnswer,
      NextDigestStep, DueNotices, FinishDigest, Opened;
    match a
    case Tick(to) => TickStep(cfg, s, to);
    case RecordRun(run) => RecordStep(cfg, s, run);
    case SetNextDigest(now) => SetNextStep(cfg, s, now);
    case TakeNotices(now) => TakeStepKeeps(cfg, s, now);
    case OpenDigest(_) => OpenStep(cfg, s);
    case Reserve(now) => ReserveStep(cfg, s, now);
    case CloseDigest(now) => CloseStep(cfg, s, now);
    case BeginWrite(mine) => BeginStep(cfg, s, mine);
    case EndWrite(ok) => EndWriteStep(cfg, s, ok);
    case HandleFailure => HandleFailureStep(cfg, s);
    case Answer(outcome) => AnswerStep(cfg, s, outcome);
    case Load => LoadStep(cfg, s);
    case Crash => ReplaceStep(cfg, s, None);
  }

  lemma LoadStep(cfg: Config, s: System)
    requires AlertInv(cfg, s) && s.pc.Idle? && s.write.None?
    ensures AlertInv(cfg, s.(mem := s.disk))
  {
    hide CopyOk, SentOnce;
  }

  // ----- whole runs -----

  ghost predicate Initial(s: System) {
    && s.mem == s.disk == NO_NOTES && s.write.None? && s.pc.Idle? && ZERO < s.clock
    && s.alerts == [] && s.sends == []
  }

  /** Any interleaving of recordings, ticks, writes, failed writes, restarts and crashes. */
  ghost predicate IsRun(cfg: Config, states: seq<System>, actions: seq<Action>) {
    && 0 <= cfg.digestTime < DAY
    && |states| == |actions| + 1 && Initial(states[0])
    && forall i :: 0 <= i < |actions| ==>
         Enabled(cfg, states[i], actions[i]) && states[i + 1] == Apply(cfg, states[i], actions[i])
  }

  lemma {:induction false} RunKeepsAlerts(cfg: Config, states: seq<System>, actions: seq<Action>, i: nat)
    requires IsRun(cfg, states, actions) && i < |states|
    ensures AlertInv(cfg, states[i])
  {
    hide Enabled, Apply;
    if i > 0 {
      hide AlertInv;
      RunKeepsAlerts(cfg, states, actions, i - 1);
      StepKeepsAlerts(cfg, states[i - 1], actions[i - 1]);
      assert states[i] == Apply(cfg, states[i - 1], actions[i - 1]);
    }
  }

  /** Across runs, ticks, failed writes and crashes: an alert for a window, account and category reaches
      the sender at most once, and was never decided inside the quiet period. */
  lemma AlertsAreSentOnce(cfg: Config, states: seq<System>, actions: seq<Action>, n: nat, i: nat, j: nat)
    requires IsRun(cfg, states, actions) && n < |states| && i < |states[n].alerts| && j < |states[n].alerts|
    requires 0 <= cfg.quietStart < DAY && 0 <= cfg.quietEnd < DAY && cfg.quietStart != cfg.quietEnd
    ensures i != j ==> !Same(states[n].alerts[i].notice, states[n].alerts[j].notice)
    ensures !InQuietPeriod(cfg.offset, cfg.quietStart, cfg.quietEnd, states[n].alerts[i].at)
  {
    hide CopyOk, JobOk, Enabled, Apply;
    RunKeepsAlerts(cfg, states, actions, n);
    var a, b := states[n].alerts[i], states[n].alerts[j];
    SameIsSymmetric(a.notice, b.notice);
    assert Loud(cfg, a.at);
    QuietUntilIsEndOfQuiet(cfg.offset, cfg.quietStart, cfg.quietEnd, a.at);
  }

  /** In memory and on disk, the pending queue has no duplicates, each notice in it has a live window
      that holds its key, and none of them was ever announced. */
  lemma QueueIsSound(cfg: Config, states: seq<System>, actions: seq<Action>, n: nat)
    requires IsRun(cfg, states, actions) && n < |states|
    ensures QueueSound(states[n].mem) && QueueSound(states[n].disk)
    ensures forall i :: 0 <= i < |states[n].alerts| ==>
              !Listed(states[n].mem.pending, states[n].alerts[i].notice)
              && !Listed(states[n].disk.pending, states[n].alerts[i].notice)
  {
    hide QueueSound, Listed, JobOk, SentOnce, Enabled, Apply;
    RunKeepsAlerts(cfg, states, actions, n);
    forall i | 0 <= i < |states[n].alerts|
      ensures !Listed(states[n].mem.pending, states[n].alerts[i].notice)
              && !Listed(states[n].disk.pending, states[n].alerts[i].notice)
    {
      assert Settled(states[n].mem, states[n].alerts[i].notice, states[n].clock);
      assert Settled(states[n].disk, states[n].alerts[i].notice, states[n].clock);
    }
  }

  /** An immediate alert whose write failed is not announced any more while its window lives: the mark
      stays, so later failures of the kind count as duplicates. */
  lemma FailedAlertStaysSuppressed(cfg: Config, s: System, run: Run, r: Recording, i: nat)
    requires AlertInv(cfg, s) && s.pc.Unsaved? && s.pc.job.Announce? && i < |s.pc.job.notices|
    requires r.notes == ApplyHandleFailure(s).mem
    ensures var x := s.pc.job.notices[i];
            && x.end in r.notes.windows && ApplyHandleFailure(s).pc.Idle?
            && AddNotice(cfg, x.end, run, r, x.key) == r.(deduplicated := true)
  {
    hide Distinct, Listed, CopyOk, SentOnce;
    assert Marked(s.mem, s.pc.job.notices[i]);
  }
}
