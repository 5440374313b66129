/** The notification state as the object that the runner and the scheduler update in place, proved
    against the functions of `Notifications`. */
module Notifier {
  import opened Clock
  import opened Notifications

  /** How a tick went: what was handed to the sender, and how writes and sends ended. */
  datatype TickReport = TickReport(
    flushed: seq<Notice>,
    digestSent: bool,
    flushWritten: bool,
    flushOutcome: Outcome,
    digestWritten: bool,
    digestOutcome: Outcome)

  const IDLE_TICK := TickReport([], false, false, NotConfigured, false, NotConfigured)

  /** `persistState`, as the notifier sees it. */
  method Persist() returns (ok: bool) {
    ok := *;
  }

  method Send() returns (outcome: Outcome) {
    outcome := *;
  }

  /** Go's map iteration: the keys come in any order. */
  method Pick<T>(keys: set<T>) returns (key: T)
    requires keys != {}
    ensures key in keys
  {
    key :| key in keys;
  }

  /** The night queue part of a tick, as a function of how its write and its send ended. */
  function Flush(cfg: Config, n: Notes, now: Time, written: bool, outcome: Outcome): Notes {
    var notices := DueNotices(cfg, n.pending, now);
    if notices == [] then n
    else
      var taken := TakeDue(cfg, n, now);
      if written then taken.(windows := MarkAll(taken.windows, notices, outcome))
      else PutBackNotices(taken, notices)
  }

  /** A whole tick. */
  function Tick(cfg: Config, n: Notes, now: Time, report: TickReport): Notes {
    var started := WithNextDigest(cfg, n, now);
    var flushed := Flush(cfg, started, now, report.flushWritten, report.flushOutcome);
    if DueNotices(cfg, started.pending, now) != [] && !report.flushWritten then flushed
    else DigestTick(cfg, flushed, now, report.digestWritten, report.digestOutcome)
  }

  class NotificationState {
    var nextDigestAt: Time
    var windows: map<Time, Window>
    var unknownStreaks: map<string, nat>
    var pending: seq<Notice>

    constructor ()
      ensures State() == NO_NOTES
    {
      nextDigestAt, windows, unknownStreaks, pending := ZERO, map[], map[], [];
    }

    function State(): Notes
      reads this
    {
      Notes(nextDigestAt, windows, unknownStreaks, pending)
    }

    method PruneWindowsBefore(cutoff: Time)
      modifies this
      ensures State() == Prune(old(State()), cutoff)
    {
      ghost var before := State();
      var ends: set<Time> := windows.Keys;
      while ends != {}
        invariant ends <= before.windows.Keys && State() == before.(windows := windows)
        invariant forall end :: end in windows <==> end in before.windows && (end in ends || end >= cutoff)
        invariant forall end :: end in windows ==> windows[end] == before.windows[end]
        decreases |ends|
      {
        var end := Pick(ends);
        if end < cutoff {
          windows := windows - {end};
        }
        ends := ends - {end};
      }
      assert forall end :: end in windows <==> end in before.windows && end >= cutoff;
      assert windows == PruneWindows(before.windows, cutoff);
      DropNotices();
    }

    /** Only the notices whose window is still there stay. */
    method DropNotices()
      modifies this`pending
      ensures pending == Living(old(pending), windows)
    {
      var kept: seq<Notice> := [];
      var i := 0;
      while i < |pending|
        invariant 0 <= i <= |pending| && pending == old(pending) && kept == Living(pending[..i], windows)
      {
        if pending[i].end in windows {
          kept := kept + [pending[i]];
        }
        assert pending[..i + 1][..i] == pending[..i];
        i := i + 1;
      }
      assert pending[..i] == pending;
      pending := kept;
    }

    method OpenWindow(end: Time)
      modifies this`windows
      ensures State() == Opened(old(State()), end)
    {
      if end !in windows {
        windows := windows[end := EMPTY_WINDOW];
      }
    }

    /** The counters of one account result. */
    method Count(cfg: Config, end: Time, item: Item) returns (category: MaybeCategory)
      requires end in windows
      modifies this`windows, this`unknownStreaks
      ensures State() == CountInto(cfg, end, old(State()), item) && end in windows
      ensures category == FailureCategory(item, StreakOf(unknownStreaks, item.account), cfg.streakThreshold)
    {
      hide UnknownQuota, FailureCategory;
      var w := windows[end];
      var a := TallyOf(w, item.account);
      if item.responseReceived {
        w := w.(succeeded := w.succeeded + 1);
        a := a.(succeeded := a.succeeded + 1);
      }
      if item.skipReason == "quota_refresh_only" {
      } else if item.skipReason != "" {
        w := w.(skips := w.skips[item.skipReason := SkipsOf(w, item.skipReason) + 1]);
      } else if UnknownQuota(item) {
        var reason := if item.errorCode == "" then "quota_unknown" else item.errorCode;
        w := w.(skips := w.skips[reason := SkipsOf(w, reason) + 1]);
      }
      if UnknownQuota(item) {
        unknownStreaks := unknownStreaks[item.account := StreakOf(unknownStreaks, item.account) + 1];
      } else {
        unknownStreaks := unknownStreaks - {item.account};
      }
      category := FailureCategory(item, StreakOf(unknownStreaks, item.account), cfg.streakThreshold);
      if category.Failure? {
        w := w.(failed := w.failed + 1);
        a := a.(failed := a.failed + 1);
      }
      windows := windows[end := w.(accounts := w.accounts[item.account := a])];
    }

    /** What becomes of one failure. */
    method Announce(cfg: Config, end: Time, run: Run, key: Key, immediate: seq<Notice>, deduplicated: bool,
          queued: bool)
      returns (nextImmediate: seq<Notice>, nextDeduplicated: bool, nextQueued: bool)
      requires end in windows
      modifies this`windows, this`pending
      ensures Recording(State(), nextImmediate, nextDeduplicated, nextQueued)
              == AddNotice(cfg, end, run, Recording(old(State()), immediate, deduplicated, queued), key)
    {
      nextImmediate, nextDeduplicated, nextQueued := immediate, deduplicated, queued;
      var w := windows[end];
      if key in w.failures {
        nextDeduplicated := true;
      } else if run.notify {
        windows := windows[end := w.(failures := w.failures[key := Manual])];
      } else {
        var until := QuietUntil(cfg.offset, cfg.quietStart, cfg.quietEnd, run.at);
        if until != ZERO {
          windows := windows[end := w.(failures := w.failures[key := Queued])];
          pending := pending + [Notice(key, run.at, until, end)];
          nextQueued := true;
        } else {
          windows := windows[end := w.(failures := w.failures[key := Sending])];
          nextImmediate := nextImmediate + [Notice(key, run.at, ZERO, end)];
        }
      }
    }

    /** The part of `recordNotifications` before the account results. */
    method StartRecording(cfg: Config, run: Run) returns (end: Time)
      modifies this
      ensures State() == StartRun(cfg, old(State()), run)
      ensures end == DigestEnd(cfg.offset, cfg.digestTime, run.at) && end in windows
    {
      hide Prune, DigestEnd;
      end := DigestEnd(cfg.offset, cfg.digestTime, run.at);
      if nextDigestAt == ZERO {
        nextDigestAt := end;
      }
      PruneWindowsBefore(run.at - WEEK);
      OpenWindow(end);
      if !run.quotaRefresh {
        windows := windows[end := windows[end].(runs := windows[end].runs + 1)];
      } else {
        assert windows == windows[end := windows[end].(runs := windows[end].runs + 0)];
      }
    }

    /** One account result. */
    method RecordOne(cfg: Config, end: Time, run: Run, item: Item, immediate: seq<Notice>, deduplicated: bool,
          queued: bool)
      returns (nextImmediate: seq<Notice>, nextDeduplicated: bool, nextQueued: bool)
      requires end in windows
      modifies this`windows, this`unknownStreaks, this`pending
      ensures Recording(State(), nextImmediate, nextDeduplicated, nextQueued)
              == RecordItem(cfg, end, run, Recording(old(State()), immediate, deduplicated, queued), item)
      ensures end in windows
    {
      hide CountInto, AddNotice, FailureCategory;
      nextImmediate, nextDeduplicated, nextQueued := immediate, deduplicated, queued;
      var category := Count(cfg, end, item);
      if category.Failure? {
        nextImmediate, nextDeduplicated, nextQueued :=
          Announce(cfg, end, run, Key(item.account, category.category), immediate, deduplicated, queued);
      }
    }

    /** The memory section of `recordNotifications`. */
    method RecordRun(cfg: Config, run: Run) returns (immediate: seq<Notice>, deduplicated: bool, queued: bool)
      modifies this
      ensures Recording(State(), immediate, deduplicated, queued) == Record(cfg, old(State()), run)
    {
      hide RecordItem, StartRun, DigestEnd;
      immediate, deduplicated, queued := [], false, false;
      var end := StartRecording(cfg, run);
      ghost var start := Recording(State(), [], false, false);
      var i := 0;
      while i < |run.items|
        invariant 0 <= i <= |run.items| && end in windows
        invariant Recording(State(), immediate, deduplicated, queued)
                  == RecordItems(cfg, end, run, start, run.items[..i])
      {
        assert run.items[..i + 1][..i] == run.items[..i];
        immediate, deduplicated, queued := RecordOne(cfg, end, run, run.items[i], immediate, deduplicated, queued);
        i := i + 1;
      }
      assert run.items[..i] == run.items;
    }

    /** The due notices leave the queue. */
    method TakeDueNotices(cfg: Config, now: Time) returns (notices: seq<Notice>)
      modifies this`pending
      ensures notices == DueNotices(cfg, old(pending), now)
      ensures State() == TakeDue(cfg, old(State()), now)
    {
      hide IsDue;
      notices := [];
      var waiting: seq<Notice> := [];
      var i := 0;
      while i < |pending|
        invariant 0 <= i <= |pending| && State() == old(State())
        invariant notices == DueNotices(cfg, pending[..i], now) && waiting == WaitingNotices(cfg, pending[..i], now)
      {
        assert pending[..i + 1][..i] == pending[..i];
        if IsDue(cfg, pending[i], now) {
          notices := notices + [pending[i]];
        } else {
          waiting := waiting + [pending[i]];
        }
        i := i + 1;
      }
      assert pending[..i] == pending;
      pending := waiting;
    }

    method MarkAnnounced(notices: seq<Notice>, outcome: Outcome)
      modifies this`windows
      ensures State() == old(State()).(windows := MarkAll(old(windows), notices, outcome))
    {
      var i := 0;
      while i < |notices|
        invariant 0 <= i <= |notices|
        invariant State() == old(State()).(windows := MarkAll(old(windows), notices[..i], outcome))
      {
        assert notices[..i + 1][..i] == notices[..i];
        var notice := notices[i];
        if notice.end in windows {
          var w := windows[notice.end];
          windows := windows[notice.end := w.(failures := w.failures[notice.key := Sent(outcome)])];
        }
        i := i + 1;
      }
      assert notices[..i] == notices;
    }

    method FinishDigestLocked(cfg: Config, end: Time, now: Time)
      modifies this
      ensures State() == FinishDigest(cfg, old(State()), end, now)
    {
      nextDigestAt := LocalTimeOn(cfg.offset, end + DAY, cfg.digestTime);
      if nextDigestAt <= now {
        nextDigestAt := DigestEnd(cfg.offset, cfg.digestTime, now);
      }
      PruneWindowsBefore(nextDigestAt);
    }

    /** The night queue part of `processNotifications`. */
    method FlushNightQueue(cfg: Config, now: Time) returns (flushed: seq<Notice>, written: bool, outcome: Outcome)
      modifies this
      ensures State() == Flush(cfg, old(State()), now, written, outcome)
      // notices are handed over only after their removal from the queue has been written
      ensures flushed == if written then DueNotices(cfg, old(pending), now) else []
      ensures DueNotices(cfg, old(pending), now) == [] ==> written
      // and after a failed write they are back
      ensures !written ==> windows == old(windows) && multiset(pending) == multiset(old(pending))
    {
      hide MarkAll, DueNotices;
      flushed, written, outcome := [], true, NotConfigured;
      var notices := TakeDueNotices(cfg, now);
      if notices != [] {
        written := Persist();
        if !written {
          pending := pending + notices;
          FailedFlushLosesNothing(cfg, old(State()), now);
          return;
        }
        flushed := notices;
        outcome := Send();
        MarkAnnounced(notices, outcome);
        var _ := Persist();
      } else {
        NothingDue(cfg, old(pending), now);
      }
    }

    /** The digest part of `processNotifications`. */
    method SendDigest(cfg: Config, now: Time) returns (sent: bool, written: bool, outcome: Outcome)
      modifies this
      ensures State() == DigestTick(cfg, old(State()), now, written, outcome)
      // a digest is sent only after its reservation has been written
      ensures sent == (NextDigestStep(old(State()), now).Attempt? && written)
      ensures 0 <= cfg.digestTime < DAY ==>
                && (sent <==> Tries(old(State()), now) && written)
                && DigestAdvances(old(State()), State(), now, written, outcome)
    {
      if 0 <= cfg.digestTime < DAY {
        forall written, outcome {
          DigestTickIsExact(cfg, State(), now, written, outcome);
        }
      }
      hide FinishDigest, DigestAdvances, Tries;
      sent, written, outcome := false, false, NotConfigured;
      if now < nextDigestAt {
        return;
      }
      var end := nextDigestAt;
      OpenWindow(end);
      var w := windows[end];
      if w.result == InProgress {
        // a crash after dispatch has an uncertain outcome: do not send twice
        FinishDigestLocked(cfg, end, now);
        var _ := Persist();
        return;
      }
      if w.nextAttemptAt > now {
        return;
      }
      if w.attempts >= MAX_ATTEMPTS {
        FinishDigestLocked(cfg, end, now);
        var _ := Persist();
        return;
      }
      windows := windows[end := w.(attempts := w.attempts + 1, result := InProgress, nextAttemptAt := now
          + RETRY_INTERVAL)];
      assert State() == ReserveDigest(old(State()), now);
      written := Persist();
      if !written {
        windows := windows[end := windows[end].(result := WriteFailed)];
        return;
      }
      sent := true;
      outcome := Send();
      windows := windows[end := windows[end].(result := Answered(outcome))];
      if outcome.Accepted? || outcome.NotConfigured? || windows[end].attempts >= MAX_ATTEMPTS {
        FinishDigestLocked(cfg, end, now);
      }
      var _ := Persist();
    }

    /** `processNotifications`, while the gate is open. */
    method ProcessNotifications(cfg: Config, now: Time) returns (report: TickReport)
      modifies this
      ensures State() == Tick(cfg, old(State()), now, report)
      ensures report.flushed ==
              if report.flushWritten then DueNotices(cfg, old(pending), now) else []
      // a digest that has to be tried is sent, once the night queue is out of the way and the attempt is written
      ensures 0 <= cfg.digestTime < DAY ==>
                (report.digestSent <==>
                 report.flushWritten && Tries(WithNextDigest(cfg, old(State()), now), now) && report.digestWritten)
    {
      hide Flush, DigestTick, DueNotices, NextDigestStep, Tries, DigestAdvances, DigestEnd;
      report := IDLE_TICK;
      if nextDigestAt == ZERO {
        nextDigestAt := DigestEnd(cfg.offset, cfg.digestTime, now);
        var _ := Persist();
      }
      assert State() == WithNextDigest(cfg, old(State()), now);
      var flushed, flushWritten, flushOutcome := FlushNightQueue(cfg, now);
      FlushKeepsTries(cfg, WithNextDigest(cfg, old(State()), now), now, flushWritten, flushOutcome);
      report := report.(flushed := flushed, flushWritten := flushWritten, flushOutcome := flushOutcome);
      if !flushWritten {
        return;
      }
      var sent, written, outcome := SendDigest(cfg, now);
      report := report.(digestSent := sent, digestWritten := written, digestOutcome := outcome);
    }
  }

  lemma FlushKeepsTries(cfg: Config, n: Notes, now: Time, written: bool, outcome: Outcome)
    ensures Tries(Flush(cfg, n, now, written, outcome), now) <==> Tries(n, now)
  {
    hide DueNotices, WaitingNotices, MarkAll;
    var notices, key: Key := DueNotices(cfg, n.pending, now), *;
    AnswerMarksExactly(n.windows, notices, outcome, n.nextDigestAt, key);
  }

  lemma {:induction false} NothingDue(cfg: Config, pending: seq<Notice>, now: Time)
    requires DueNotices(cfg, pending, now) == []
    ensures WaitingNotices(cfg, pending, now) == pending
  {
    hide IsDue;
    if pending != [] {
      var init, last := pending[..|pending| - 1], pending[|pending| - 1];
      assert DueNotices(cfg, init, now) == [];
      NothingDue(cfg, init, now);
      assert pending == init + [last];
    }
  }
}
