/** An overdue digest is closed after four effective ticks, whatever is recorded and flushed between. */
module Closing {
  import opened Clock
  import opened Notifications
  import opened Notifier
  import Delivery
  import DigestDelivery
  import Digest

  /** What happens to the notes of a running process: a tick, a recording, or the answer to an alert. */
  datatype Happening =
    | Ticked(now: Time, report: TickReport)
    | Recorded(run: Run)
    | AlertAnswered(notices: seq<Notice>, outcome: Outcome)

  function Next(cfg: Config, n: Notes, h: Happening): Notes {
    match h
    case Ticked(now, report) => Tick(cfg, n, now, report)
    case Recorded(run) => Record(cfg, n, run).notes
    case AlertAnswered(notices, outcome) => n.(windows := MarkAll(n.windows, notices, outcome))
  }

  /** The notes when a tick comes to the digest. */
  function AtDigest(cfg: Config, n: Notes, now: Time, report: TickReport): Notes {
    Flush(cfg, WithNextDigest(cfg, n, now), now, report.flushWritten, report.flushOutcome)
  }

  /** The night queue does not end the tick. */
  predicate PastFlush(cfg: Config, n: Notes, now: Time, report: TickReport) {
    DueNotices(cfg, WithNextDigest(cfg, n, now).pending, now) == [] || report.flushWritten
  }

  /** A tick that is due and gets past the night queue and the retry delay. */
  predicate Effective(cfg: Config, n: Notes, h: Happening) {
    && h.Ticked? && ZERO < n.nextDigestAt <= h.now
    && PastFlush(cfg, n, h.now, h.report)
    && NextDigestStep(AtDigest(cfg, n, h.now, h.report), h.now) != Waiting
  }

  ghost predicate IsHistory(cfg: Config, states: seq<Notes>, happenings: seq<Happening>) {
    && |states| == |happenings| + 1 && OnBoundaries(cfg, states[0])
    && forall i :: 0 <= i < |happenings| ==> states[i + 1] == Next(cfg, states[i], happenings[i])
  }

  /** No run is recorded more than a week after the digest of `day` while that is still to come. */
  ghost predicate NeverLate(states: seq<Notes>, happenings: seq<Happening>, day: Time) {
    forall i :: 0 <= i < |happenings| && i < |states| && happenings[i].Recorded? ==>
      !DigestDelivery.LateFor(states[i], happenings[i].run.at, day)
  }

  ghost function EffectiveCount(cfg: Config, states: seq<Notes>, happenings: seq<Happening>, k: nat): nat
    requires k <= |happenings| <= |states|
  {
    if k == 0 then 0
    else EffectiveCount(cfg, states, happenings, k - 1)
         + if Effective(cfg, states[k - 1], happenings[k - 1]) then 1 else 0
  }

  // ----- what a happening leaves alone -----

  predicate SameKeys(n: Notes, t: Notes) {
    t.windows.Keys == n.windows.Keys && t.nextDigestAt == n.nextDigestAt
  }

  lemma FlushLeavesDigest(cfg: Config, n: Notes, now: Time, written: bool, outcome: Outcome)
    ensures SameKeys(n, Flush(cfg, n, now, written, outcome))
    ensures DigestDelivery.SameDigest(n, Flush(cfg, n, now, written, outcome))
  {
    hide DueNotices, WaitingNotices, MarkAll;
    var taken := TakeDue(cfg, n, now);
    DigestDelivery.MarkingKeepsDigest(taken, DueNotices(cfg, n.pending, now), outcome);
    Delivery.MarkingGrows(taken.windows, DueNotices(cfg, n.pending, now), outcome);
  }

  lemma RecordLeavesBoundaries(cfg: Config, n: Notes, run: Run)
    requires OnBoundaries(cfg, n) && n.nextDigestAt != ZERO
    ensures OnBoundaries(cfg, Record(cfg, n, run).notes) && Record(cfg, n, run).notes.nextDigestAt == n.nextDigestAt
  {
    hide RecordItems, DigestEnd;
    var end := DigestEnd(cfg.offset, cfg.digestTime, run.at);
    DigestEndIsLeastBoundary(cfg.offset, cfg.digestTime, run.at);
    Digest.ItemsKeepKeys(cfg, end, run, Recording(StartRun(cfg, n, run), [], false, false), run.items);
  }

  /** The digest part of a tick moves the next digest forward or leaves it. */
  lemma DigestTickMovesOn(cfg: Config, n: Notes, now: Time, written: bool, outcome: Outcome)
    requires OnBoundaries(cfg, n) && ZERO < n.nextDigestAt
    ensures var t := DigestTick(cfg, n, now, written, outcome);
            OnBoundaries(cfg, t) && n.nextDigestAt <= t.nextDigestAt
  {
    hide DigestEnd, FinishDigest;
    if n.nextDigestAt <= now {
      DigestEndIsLeastBoundary(cfg.offset, cfg.digestTime, now);
      ClosingIsExact(cfg, Opened(n, n.nextDigestAt), now);
      ClosingIsExact(cfg, WithDigestResult(ReserveDigest(n, now), n.nextDigestAt, Answered(outcome)), now);
    }
  }

  /** A tick that is not effective leaves the digest alone. */
  lemma IdleTick(cfg: Config, n: Notes, now: Time, written: bool, outcome: Outcome)
    requires now < n.nextDigestAt || NextDigestStep(n, now) == Waiting
    ensures DigestDelivery.SameDigest(n, DigestTick(cfg, n, now, written, outcome))
  {
  }

  lemma NextMovesOn(cfg: Config, n: Notes, h: Happening)
    requires OnBoundaries(cfg, n) && ZERO < n.nextDigestAt
    ensures OnBoundaries(cfg, Next(cfg, n, h)) && n.nextDigestAt <= Next(cfg, n, h).nextDigestAt
  {
    hide Record, MarkAll, Flush, DigestTick, DueNotices, DigestEnd;
    match h
    case Ticked(now, report) =>
      var flushed := AtDigest(cfg, n, now, report);
      FlushLeavesDigest(cfg, n, now, report.flushWritten, report.flushOutcome);
      Delivery.SameWindowsOnBoundaries(cfg, n, flushed);
      DigestTickMovesOn(cfg, flushed, now, report.digestWritten, report.digestOutcome);
    case Recorded(run) => RecordLeavesBoundaries(cfg, n, run);
    case AlertAnswered(notices, outcome) =>
      Delivery.MarkingGrows(n.windows, notices, outcome);
      Delivery.SameWindowsOnBoundaries(cfg, n, Next(cfg, n, h));
  }

  /** The attempts counted for the digest. */
  function Attempts(n: Notes): nat {
    Opened(n, n.nextDigestAt).windows[n.nextDigestAt].attempts
  }

  lemma SameDigestSameAttempts(n: Notes, t: Notes)
    requires DigestDelivery.SameDigest(n, t)
    ensures n.nextDigestAt in n.windows ==> Attempts(t) == Attempts(n)
    ensures Attempts(n) <= Attempts(t)
  {
  }

  /** A happening closes the digest, or uses up an attempt if it is an effective tick, or leaves the
      attempts counted so far. */
  lemma AttemptsMoveOn(cfg: Config, n: Notes, h: Happening, day: Time)
    requires OnBoundaries(cfg, n) && ZERO < n.nextDigestAt == day
    requires h.Recorded? ==> !DigestDelivery.LateFor(n, h.run.at, day)
    ensures var t := Next(cfg, n, h);
            || day < t.nextDigestAt
            || (t.nextDigestAt == day && Attempts(n) <= Attempts(t)
                && (Effective(cfg, n, h) ==> Attempts(n) < MAX_ATTEMPTS && Attempts(n) + 1 <= Attempts(t)))
  {
    hide Record, MarkAll, Flush, DigestTick, DueNotices, DigestEnd, OnBoundaries, Attempts;
    var t := Next(cfg, n, h);
    match h
    case Ticked(now, report) =>
      var flushed := AtDigest(cfg, n, now, report);
      FlushLeavesDigest(cfg, n, now, report.flushWritten, report.flushOutcome);
      SameDigestSameAttempts(n, flushed);
      Delivery.SameWindowsOnBoundaries(cfg, n, flushed);
      if PastFlush(cfg, n, now, report) {
        TickMovesAttempts(cfg, flushed, now, report.digestWritten, report.digestOutcome);
      }
    case Recorded(run) =>
      RecordLeavesBoundaries(cfg, n, run);
      DigestDelivery.PunctualKeepsDigest(cfg, n, run);
      SameDigestSameAttempts(n, t);
    case AlertAnswered(notices, outcome) =>
      DigestDelivery.MarkingKeepsDigest(n, notices, outcome);
      SameDigestSameAttempts(n, t);
  }

  lemma TickMovesAttempts(cfg: Config, n: Notes, now: Time, written: bool, outcome: Outcome)
    requires OnBoundaries(cfg, n) && ZERO < n.nextDigestAt
    ensures var t := DigestTick(cfg, n, now, written, outcome);
            || n.nextDigestAt < t.nextDigestAt
            || (t.nextDigestAt == n.nextDigestAt && Attempts(n) <= Attempts(t)
                && (n.nextDigestAt <= now && NextDigestStep(n, now) != Waiting ==>
                      Attempts(n) < MAX_ATTEMPTS && Attempts(n) + 1 <= Attempts(t)))
  {
    if n.nextDigestAt <= now && NextDigestStep(n, now) != Waiting {
      hide DigestTick, NextDigestStep, OnBoundaries, DigestEnd;
      EffectiveTick(cfg, n, now, written, outcome);
      BoundaryIsLater(cfg, n, now);
    } else {
      IdleTick(cfg, n, now, written, outcome);
      SameDigestSameAttempts(n, DigestTick(cfg, n, now, written, outcome));
    }
  }

  lemma BoundaryIsLater(cfg: Config, n: Notes, now: Time)
    requires OnBoundaries(cfg, n)
    ensures now < DigestEnd(cfg.offset, cfg.digestTime, now)
  {
    DigestEndIsLeastBoundary(cfg.offset, cfg.digestTime, now);
  }

  lemma {:induction false} AttemptsAreCounted(cfg: Config, states: seq<Notes>, happenings: seq<Happening>, day: Time,
        k: nat)
    requires IsHistory(cfg, states, happenings) && NeverLate(states, happenings, day)
    requires ZERO < states[0].nextDigestAt == day && k <= |happenings|
    ensures OnBoundaries(cfg, states[k]) && day <= states[k].nextDigestAt
    ensures states[k].nextDigestAt == day ==>
              EffectiveCount(cfg, states, happenings, k) <= Attempts(states[k])
              && EffectiveCount(cfg, states, happenings, k) <= MAX_ATTEMPTS
  {
    hide Next, Effective, OnBoundaries, Attempts;
    if k > 0 {
      AttemptsAreCounted(cfg, states, happenings, day, k - 1);
      var n, h := states[k - 1], happenings[k - 1];
      assert states[k] == Next(cfg, n, h);
      NextMovesOn(cfg, n, h);
      if n.nextDigestAt == day {
        AttemptsMoveOn(cfg, n, h, day);
      }
    }
  }

  /** From any state of the notes: once four ticks have been effective, the digest that was to come is
      closed for good, whatever the sender answers, whichever writes fail, and whatever other ticks,
      night-queue flushes and recordings happen between, as long as none of these is late for it. */
  lemma ClosesAfterFourTicks(cfg: Config, states: seq<Notes>, happenings: seq<Happening>, k: nat)
    requires IsHistory(cfg, states, happenings) && ZERO < states[0].nextDigestAt && k <= |happenings|
    requires NeverLate(states, happenings, states[0].nextDigestAt)
    requires EffectiveCount(cfg, states, happenings, k) >= MAX_ATTEMPTS + 1
    ensures states[0].nextDigestAt < states[k].nextDigestAt
  {
    hide OnBoundaries, Attempts;
    AttemptsAreCounted(cfg, states, happenings, states[0].nextDigestAt, k);
  }
}
