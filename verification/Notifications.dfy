/** The notification state and its memory sections: what `recordNotifications`,
    `processNotifications` and `finishDigestLocked` make of it while they hold `runtime.mu`. */
module Notifications {
  import opened Clock

  const WEEK: int := 7 * DAY
  const RETRY_INTERVAL: int := 5 * MINUTE
  const MAX_ATTEMPTS: nat := 3

  datatype Config = Config(offset: int, digestTime: int, quietStart: int, quietEnd: int, streakThreshold: nat)

  /** What a run says of one account, as far as notifications look at it. */
  datatype Item = Item(
    account: string,
    skipReason: string,
    errorCode: string,
    quotaStatus: string,
    attempts: nat,
    requestSent: bool,
    responseReceived: bool)

  datatype Run = Run(at: Time, quotaRefresh: bool, notify: bool, items: seq<Item>)

  /** The answer of the sender. */
  datatype Outcome = Accepted | NotConfigured | Failed(code: string)

  datatype Category = RequestFailed | QuotaUnknown

  datatype Key = Key(account: string, category: Category)

  datatype Mark = Manual | Queued | Sending | Sent(outcome: Outcome)

  datatype Tally = Tally(succeeded: nat, failed: nat)

  datatype DigestResult = NotTried | InProgress | Answered(outcome: Outcome) | WriteFailed

  datatype Window = Window(
    runs: nat,
    succeeded: nat,
    failed: nat,
    accounts: map<string, Tally>,
    skips: map<string, nat>,
    failures: map<Key, Mark>,
    attempts: nat,
    nextAttemptAt: Time,
    result: DigestResult)

  const EMPTY_WINDOW := Window(0, 0, 0, map[], map[], map[], 0, ZERO, NotTried)

  datatype Notice = Notice(key: Key, at: Time, dueAt: Time, end: Time)

  /** Windows are known by their end. */
  datatype Notes = Notes(
    nextDigestAt: Time,
    windows: map<Time, Window>,
    streaks: map<string, nat>,
    pending: seq<Notice>)

  const NO_NOTES := Notes(ZERO, map[], map[], [])

  // ----- one account result -----

  predicate Contains(s: string, word: string) {
    word <= s || (s != "" && Contains(s[1..], word))
  }

  predicate UnknownQuota(item: Item) {
    && item.attempts == 0
    && (|| Contains(item.skipReason, "unknown") || Contains(item.errorCode, "unknown")
        || item.quotaStatus == "unknown" || item.quotaStatus == "query_failed")
  }

  datatype MaybeCategory = NoFailure | Failure(category: Category)

  function FailureCategory(item: Item, streak: nat, threshold: nat): MaybeCategory {
    if item.attempts > 0 && !item.responseReceived && (item.errorCode != "interrupted" || item.requestSent)
    then Failure(RequestFailed)
    else if streak >= threshold then Failure(QuotaUnknown)
    else NoFailure
  }

  function StreakOf(streaks: map<string, nat>, account: string): nat {
    if account in streaks then streaks[account] else 0
  }

  function NextStreaks(streaks: map<string, nat>, item: Item): map<string, nat> {
    if UnknownQuota(item) then streaks[item.account := StreakOf(streaks, item.account) + 1]
    else streaks - {item.account}
  }

  datatype MaybeReason = NotSkipped | SkippedAs(reason: string)

  /** Successful read-only refreshes are not skipped prewarms; an unknown quota without a skip reason
      counts under its error code. */
  function SkipReason(item: Item): MaybeReason {
    if item.skipReason == "quota_refresh_only" then NotSkipped
    else if item.skipReason != "" then SkippedAs(item.skipReason)
    else if UnknownQuota(item) then SkippedAs(if item.errorCode == "" then "quota_unknown" else item.errorCode)
    else NotSkipped
  }

  function TallyOf(w: Window, account: string): Tally {
    if account in w.accounts then w.accounts[account] else Tally(0, 0)
  }

  function SkipsOf(w: Window, reason: string): nat {
    if reason in w.skips then w.skips[reason] else 0
  }

  /** The counters of a window after one more account result. */
  function CountItem(w: Window, item: Item, category: MaybeCategory): Window {
    var received := if item.responseReceived then 1 else 0;
    var failed := if category.Failure? then 1 else 0;
    var tally := TallyOf(w, item.account);
    var skip := SkipReason(item);
    w.(succeeded := w.succeeded + received,
       failed := w.failed + failed,
       accounts := w.accounts[item.account := Tally(tally.succeeded + received, tally.failed + failed)],
       skips := if skip.SkippedAs? then w.skips[skip.reason := SkipsOf(w, skip.reason) + 1] else w.skips)
  }

  // ----- one run -----

  /** `recordNotifications` between two account results. */
  datatype Recording = Recording(notes: Notes, immediate: seq<Notice>, deduplicated: bool, queued: bool)

  /** What becomes of a failure: counted only, or announced at once or after the quiet period. */
  function AddNotice(cfg: Config, end: Time, run: Run, r: Recording, key: Key): Recording
    requires end in r.notes.windows
  {
    var n := r.notes;
    var w := n.windows[end];
    if key in w.failures then r.(deduplicated := true)
    else if run.notify then
      r.(notes := n.(windows := n.windows[end := w.(failures := w.failures[key := Manual])]))
    else
      var until := QuietUntil(cfg.offset, cfg.quietStart, cfg.quietEnd, run.at);
      if until != ZERO then
        r.(notes := n.(windows := n.windows[end := w.(failures := w.failures[key := Queued])],
                       pending := n.pending + [Notice(key, run.at, until, end)]),
           queued := true)
      else
        r.(notes := n.(windows := n.windows[end := w.(failures := w.failures[key := Sending])]),
           immediate := r.immediate + [Notice(key, run.at, ZERO, end)])
  }

  function CountInto(cfg: Config, end: Time, n: Notes, item: Item): Notes
    requires end in n.windows
  {
    var streaks := NextStreaks(n.streaks, item);
    var category := FailureCategory(item, StreakOf(streaks, item.account), cfg.streakThreshold);
    n.(streaks := streaks, windows := n.windows[end := CountItem(n.windows[end], item, category)])
  }

  function RecordItem(cfg: Config, end: Time, run: Run, r: Recording, item: Item): (next: Recording)
    requires end in r.notes.windows
    ensures end in next.notes.windows
  {
    var counted := r.(notes := CountInto(cfg, end, r.notes, item));
    var category := FailureCategory(item, StreakOf(counted.notes.streaks, item.account), cfg.streakThreshold);
    if category.NoFailure? then counted
    else AddNotice(cfg, end, run, counted, Key(item.account, category.category))
  }

  function RecordItems(cfg: Config, end: Time, run: Run, r: Recording, items: seq<Item>): (next: Recording)
    requires end in r.notes.windows
    ensures end in next.notes.windows
  {
    if items == [] then r
    else RecordItem(cfg, end, run, RecordItems(cfg, end, run, r, items[..|items| - 1]), items[|items| - 1])
  }

  function PruneWindows(windows: map<Time, Window>, cutoff: Time): map<Time, Window> {
    map end | end in windows && end >= cutoff :: windows[end]
  }

  /** The notices whose window is still there. */
  function Living(pending: seq<Notice>, windows: map<Time, Window>): seq<Notice> {
    if pending == [] then []
    else Living(pending[..|pending| - 1], windows)
         + if pending[|pending| - 1].end in windows then [pending[|pending| - 1]] else []
  }

  function Prune(n: Notes, cutoff: Time): Notes {
    var windows := PruneWindows(n.windows, cutoff);
    n.(windows := windows, pending := Living(n.pending, windows))
  }

  function Opened(n: Notes, end: Time): (ready: Notes)
    ensures end in ready.windows
  {
    if end in n.windows then n else n.(windows := n.windows[end := EMPTY_WINDOW])
  }

  function WithNextDigest(cfg: Config, n: Notes, now: Time): Notes {
    if n.nextDigestAt == ZERO then n.(nextDigestAt := DigestEnd(cfg.offset, cfg.digestTime, now)) else n
  }

  function StartRun(cfg: Config, n: Notes, run: Run): (started: Notes)
    ensures DigestEnd(cfg.offset, cfg.digestTime, run.at) in started.windows
  {
    var end := DigestEnd(cfg.offset, cfg.digestTime, run.at);
    var ready := Opened(Prune(WithNextDigest(cfg, n, run.at), run.at - WEEK), end);
    var w := ready.windows[end];
    ready.(windows := ready.windows[end := w.(runs := w.runs + if run.quotaRefresh then 0 else 1)])
  }

  /** The memory section of `recordNotifications`. */
  function Record(cfg: Config, n: Notes, run: Run): Recording {
    RecordItems(cfg, DigestEnd(cfg.offset, cfg.digestTime, run.at), run,
                Recording(StartRun(cfg, n, run), [], false, false), run.items)
  }

  /** The answer of the sender goes to the marks of the announced failures. */
  function MarkAll(windows: map<Time, Window>, notices: seq<Notice>, outcome: Outcome): map<Time, Window> {
    if notices == [] then windows
    else
      var notice := notices[|notices| - 1];
      var marked := MarkAll(windows, notices[..|notices| - 1], outcome);
      if notice.end !in marked then marked
      else
        var w := marked[notice.end];
        marked[notice.end := w.(failures := w.failures[notice.key := Sent(outcome)])]
  }

  // ----- the night queue -----

  predicate IsDue(cfg: Config, notice: Notice, now: Time) {
    notice.dueAt <= now && QuietUntil(cfg.offset, cfg.quietStart, cfg.quietEnd, now) == ZERO
  }

  function DueNotices(cfg: Config, pending: seq<Notice>, now: Time): seq<Notice> {
    if pending == [] then []
    else DueNotices(cfg, pending[..|pending| - 1], now)
         + if IsDue(cfg, pending[|pending| - 1], now) then [pending[|pending| - 1]] else []
  }

  function WaitingNotices(cfg: Config, pending: seq<Notice>, now: Time): seq<Notice> {
    if pending == [] then []
    else WaitingNotices(cfg, pending[..|pending| - 1], now)
         + if IsDue(cfg, pending[|pending| - 1], now) then [] else [pending[|pending| - 1]]
  }

  function TakeDue(cfg: Config, n: Notes, now: Time): Notes {
    n.(pending := WaitingNotices(cfg, n.pending, now))
  }

  /** After a failed write the taken notices go back. */
  function PutBackNotices(n: Notes, notices: seq<Notice>): Notes {
    n.(pending := n.pending + notices)
  }

  lemma {:induction false} FailedFlushLosesNothing(cfg: Config, n: Notes, now: Time)
    ensures multiset(PutBackNotices(TakeDue(cfg, n, now), DueNotices(cfg, n.pending, now)).pending)
            == multiset(n.pending)
  {
    TakenAndLeft(cfg, n.pending, now);
  }

  lemma {:induction false} TakenAndLeft(cfg: Config, pending: seq<Notice>, now: Time)
    ensures multiset(WaitingNotices(cfg, pending, now)) + multiset(DueNotices(cfg, pending, now)) == multiset(pending)
  {
    hide IsDue;
    if pending != [] {
      var init, last := pending[..|pending| - 1], pending[|pending| - 1];
      TakenAndLeft(cfg, init, now);
      assert pending == init + [last];
      if IsDue(cfg, last, now) {
        assert WaitingNotices(cfg, pending, now) == WaitingNotices(cfg, init, now);
      } else {
        assert DueNotices(cfg, pending, now) == DueNotices(cfg, init, now);
      }
    }
  }

  /** A tick takes exactly the notices whose time has come, unless it falls into the quiet period; the others
      stay. */
  lemma {:induction false} NightQueueIsExact(cfg: Config, pending: seq<Notice>, now: Time, notice: Notice)
    requires 0 <= cfg.quietStart < DAY && 0 <= cfg.quietEnd < DAY && cfg.quietStart != cfg.quietEnd && now > ZERO
    ensures var count := multiset(pending)[notice];
            var taken := notice.dueAt <= now && !InQuietPeriod(cfg.offset, cfg.quietStart, cfg.quietEnd, now);
            && multiset(DueNotices(cfg, pending, now))[notice] == (if taken then count else 0)
            && multiset(WaitingNotices(cfg, pending, now))[notice] == (if taken then 0 else count)
  {
    hide QuietUntil, InQuietPeriod;
    if pending != [] {
      NightQueueIsExact(cfg, pending[..|pending| - 1], now, notice);
      QuietUntilIsEndOfQuiet(cfg.offset, cfg.quietStart, cfg.quietEnd, now);
      assert pending == pending[..|pending| - 1] + [pending[|pending| - 1]];
    }
  }

  /** The answer of the sender marks exactly the failures that were announced and whose windows are live. */
  lemma {:induction false} AnswerMarksExactly(windows: map<Time, Window>, notices: seq<Notice>, outcome: Outcome,
        end: Time, key: Key)
    ensures MarkAll(windows, notices, outcome).Keys == windows.Keys
    ensures end in windows ==>
              var w, v := windows[end], MarkAll(windows, notices, outcome)[end];
              var announced := exists i :: 0 <= i < |notices| && notices[i].key == key && notices[i].end == end;
              && v == w.(failures := v.failures)
              && (announced ==> key in v.failures && v.failures[key] == Sent(outcome))
              && (!announced ==> (key in v.failures <==> key in w.failures))
              && (!announced && key in w.failures ==> v.failures[key] == w.failures[key])
  {
    if notices != [] {
      AnswerMarksExactly(windows, notices[..|notices| - 1], outcome, end, key);
      assert notices == notices[..|notices| - 1] + [notices[|notices| - 1]];
    }
  }

  // ----- the digest -----

  /** The digest is due for a tick at `now`, which may lie behind the clock. */
  predicate DigestDue(n: Notes, now: Time, clock: Time) {
    ZERO < n.nextDigestAt <= now <= clock
  }

  datatype DigestStep = NotDue | Abandon | Waiting | Exhausted | Attempt

  /** What a tick does about the digest. */
  function NextDigestStep(n: Notes, now: Time): DigestStep {
    if now < n.nextDigestAt then NotDue
    else
      var w := Opened(n, n.nextDigestAt).windows[n.nextDigestAt];
      if w.result == InProgress then Abandon
      else if w.nextAttemptAt > now then Waiting
      else if w.attempts >= MAX_ATTEMPTS then Exhausted
      else Attempt
  }

  /** The reservation of an attempt; it is written before the digest is sent. */
  function ReserveDigest(n: Notes, now: Time): Notes {
    var ready := Opened(n, n.nextDigestAt);
    var w := ready.windows[n.nextDigestAt];
    ready.(windows := ready.windows[n.nextDigestAt :=
              w.(attempts := w.attempts + 1, result := InProgress, nextAttemptAt := now + RETRY_INTERVAL)])
  }

  function WithDigestResult(n: Notes, end: Time, result: DigestResult): Notes
    requires end in n.windows
  {
    n.(windows := n.windows[end := n.windows[end].(result := result)])
  }

  /** `finishDigestLocked`. */
  function FinishDigest(cfg: Config, n: Notes, end: Time, now: Time): Notes {
    var tomorrow := LocalTimeOn(cfg.offset, end + DAY, cfg.digestTime);
    var next := if tomorrow > now then tomorrow else DigestEnd(cfg.offset, cfg.digestTime, now);
    Prune(n.(nextDigestAt := next), next)
  }

  /** After the sender has answered. */
  function DigestAnswered(cfg: Config, n: Notes, now: Time, outcome: Outcome): Notes
    requires n.nextDigestAt in n.windows
  {
    var end := n.nextDigestAt;
    var answered := WithDigestResult(n, end, Answered(outcome));
    if outcome.Accepted? || outcome.NotConfigured? || answered.windows[end].attempts >= MAX_ATTEMPTS
    then FinishDigest(cfg, answered, end, now)
    else answered
  }

  /** The digest part of a tick from beginning to end: `written` tells whether the reservation reached
      the file, `outcome` what the sender answered. */
  function DigestTick(cfg: Config, n: Notes, now: Time, written: bool, outcome: Outcome): Notes {
    match NextDigestStep(n, now)
    case NotDue => n
    case Waiting => Opened(n, n.nextDigestAt)
    case Abandon => FinishDigest(cfg, Opened(n, n.nextDigestAt), n.nextDigestAt, now)
    case Exhausted => FinishDigest(cfg, Opened(n, n.nextDigestAt), n.nextDigestAt, now)
    case Attempt =>
      var reserved := ReserveDigest(n, now);
      if written then DigestAnswered(cfg, reserved, now, outcome)
      else WithDigestResult(reserved, n.nextDigestAt, WriteFailed)
  }

  // ----- what a tick has to do about the digest -----

  /** The window that the next digest is about; a missing one is empty. */
  function DigestWindow(n: Notes): Window {
    if n.nextDigestAt in n.windows then n.windows[n.nextDigestAt] else EMPTY_WINDOW
  }

  /** The digest is overdue, and its last send has no answer or its three attempts are used up. */
  predicate GivesUp(n: Notes, now: Time) {
    var w := DigestWindow(n);
    n.nextDigestAt <= now && (w.result.InProgress? || (w.nextAttemptAt <= now && w.attempts >= 3))
  }

  /** The digest is overdue, it is not being sent, fewer than three attempts were made, and the last of them is
      long enough ago. */
  predicate Tries(n: Notes, now: Time) {
    var w := DigestWindow(n);
    n.nextDigestAt <= now && !w.result.InProgress? && w.nextAttemptAt <= now && w.attempts < 3
  }

  /** The digest is closed by being given up, by an answer other than a refusal, or by its third answer.  An
      attempt that does not close it is counted, and leaves it to be tried again five minutes later; nothing
      else changes. */
  predicate DigestAdvances(n: Notes, t: Notes, now: Time, written: bool, outcome: Outcome) {
    var day, w := n.nextDigestAt, DigestWindow(n);
    if GivesUp(n, now) || (Tries(n, now) && written && (!outcome.Failed? || w.attempts == 2))
    then now < t.nextDigestAt && day !in t.windows
    else
      && t == n.(windows := t.windows) && t.windows - {day} == n.windows - {day} && n.windows.Keys <= t.windows.Keys
      && DigestWindow(t) ==
         if Tries(n, now)
         then w.(attempts := w.attempts + 1, nextAttemptAt := now + 5 * MINUTE,
                 result := if written then Answered(outcome) else WriteFailed)
         else w
  }

  lemma DigestTickIsExact(cfg: Config, n: Notes, now: Time, written: bool, outcome: Outcome)
    requires 0 <= cfg.digestTime < DAY
    ensures DigestAdvances(n, DigestTick(cfg, n, now, written, outcome), now, written, outcome)
    ensures NextDigestStep(n, now).Attempt? <==> Tries(n, now)
    ensures NextDigestStep(n, now).Abandon? || NextDigestStep(n, now).Exhausted? <==> GivesUp(n, now)
  {
    StepIsExact(n, now);
    hide FinishDigest, NextDigestStep;
    ClosingIsForward(cfg, Opened(n, n.nextDigestAt), now);
    if NextDigestStep(n, now).Attempt? {
      AttemptAdvances(cfg, n, now, written, outcome);
    } else {
      hide Tries, GivesUp;
      assert Opened(n, n.nextDigestAt).windows - {n.nextDigestAt} == n.windows - {n.nextDigestAt};
    }
  }

  lemma StepIsExact(n: Notes, now: Time)
    ensures NextDigestStep(n, now).Attempt? <==> Tries(n, now)
    ensures NextDigestStep(n, now).Abandon? || NextDigestStep(n, now).Exhausted? <==> GivesUp(n, now)
  {
  }

  lemma AttemptAdvances(cfg: Config, n: Notes, now: Time, written: bool, outcome: Outcome)
    requires 0 <= cfg.digestTime < DAY && Tries(n, now)
    ensures var reserved := ReserveDigest(n, now);
            var t := if written then DigestAnswered(cfg, reserved, now, outcome)
                     else WithDigestResult(reserved, n.nextDigestAt, WriteFailed);
            DigestAdvances(n, t, now, written, outcome)
  {
    hide FinishDigest;
    var reserved := ReserveDigest(n, now);
    ClosingIsForward(cfg, WithDigestResult(reserved, n.nextDigestAt, Answered(outcome)), now);
    assert reserved.windows - {n.nextDigestAt} == n.windows - {n.nextDigestAt};
  }

  /** Closing moves the next digest past `now` and forgets the window. */
  lemma ClosingIsForward(cfg: Config, n: Notes, now: Time)
    requires 0 <= cfg.digestTime < DAY
    ensures var t := FinishDigest(cfg, n, n.nextDigestAt, now);
            now < t.nextDigestAt && (n.nextDigestAt <= now ==> n.nextDigestAt !in t.windows)
  {
    hide DigestEnd, LocalTimeOn;
    DigestEndIsLeastBoundary(cfg.offset, cfg.digestTime, now);
  }

  /** Every window and the next digest end at a digest boundary, and every notice has its window. */
  ghost predicate OnBoundaries(cfg: Config, n: Notes) {
    && 0 <= cfg.digestTime < DAY
    && (forall end :: end in n.windows ==> IsBoundary(cfg.offset, cfg.digestTime, end))
    && (n.nextDigestAt != ZERO ==> IsBoundary(cfg.offset, cfg.digestTime, n.nextDigestAt))
  }

  lemma {:induction false} LivingExactly(pending: seq<Notice>, windows: map<Time, Window>)
    ensures forall notice :: multiset(Living(pending, windows))[notice] ==
                             if notice.end in windows then multiset(pending)[notice] else 0
  {
    if pending != [] {
      LivingExactly(pending[..|pending| - 1], windows);
      assert pending == pending[..|pending| - 1] + [pending[|pending| - 1]];
    }
  }

  /** Closing an overdue digest sets the next one to the least boundary after now, also after many
      offline days; exactly the windows that end after now survive, unchanged, and exactly their
      notices. */
  lemma ClosingIsExact(cfg: Config, n: Notes, now: Time)
    requires OnBoundaries(cfg, n) && ZERO != n.nextDigestAt <= now
    ensures var closed := FinishDigest(cfg, n, n.nextDigestAt, now);
            && closed.nextDigestAt == DigestEnd(cfg.offset, cfg.digestTime, now)
            && (forall end :: end in closed.windows <==> end in n.windows && end > now)
            && (forall end :: end in closed.windows ==> closed.windows[end] == n.windows[end])
            && (forall notice :: multiset(closed.pending)[notice] ==
                  if notice.end in n.windows && notice.end > now then multiset(n.pending)[notice] else 0)
            && closed.streaks == n.streaks && OnBoundaries(cfg, closed)
  {
    var end := n.nextDigestAt;
    NextBoundary(cfg.offset, cfg.digestTime, end);
    DigestEndIsLeastBoundary(cfg.offset, cfg.digestTime, now);
    if end + DAY > now {
      DigestEndOwnsDay(cfg.offset, cfg.digestTime, now, end + DAY);
    }
    var next := DigestEnd(cfg.offset, cfg.digestTime, now);
    LivingExactly(n.pending, PruneWindows(n.windows, next));
  }

  /** A tick that is due and past the retry delay either closes the window or uses up an attempt. */
  lemma EffectiveTick(cfg: Config, n: Notes, now: Time, written: bool, outcome: Outcome)
    requires OnBoundaries(cfg, n) && ZERO != n.nextDigestAt <= now
    requires NextDigestStep(n, now) != Waiting
    ensures var t := DigestTick(cfg, n, now, written, outcome);
            || t.nextDigestAt == DigestEnd(cfg.offset, cfg.digestTime, now)
            || (t.nextDigestAt == n.nextDigestAt && n.nextDigestAt in t.windows && OnBoundaries(cfg, t)
                && Opened(n, n.nextDigestAt).windows[n.nextDigestAt].attempts < MAX_ATTEMPTS
                && t.windows[n.nextDigestAt].attempts
                   == Opened(n, n.nextDigestAt).windows[n.nextDigestAt].attempts + 1)
  {
    ClosingIsExact(cfg, Opened(n, n.nextDigestAt), now);
    if NextDigestStep(n, now) == Attempt {
      var reserved := ReserveDigest(n, now);
      ClosingIsExact(cfg, WithDigestResult(reserved, n.nextDigestAt, Answered(outcome)), now);
    }
  }
}
