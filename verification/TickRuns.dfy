/** A tick of the notification object is a run of the interleaved system: what holds in every run holds of the
    object as well. */
module TickRuns {
  import opened Clock
  import opened Options
  import opened Notifications
  import opened Delivery
  import opened DigestDelivery
  import Notifier

  lemma ReachableInv(cfg: Config, s: System)
    requires Reachable(cfg, s)
    ensures AlertInv(cfg, s)
  {
    var states, actions :| IsRun(cfg, states, actions) && states[|actions|] == s;
    RunKeepsAlerts(cfg, states, actions, |actions|);
  }

  /** Nothing of the notifier is under way. */
  predicate AtRest(s: System) {
    s.pc.Idle? && s.write.None?
  }

  /** A job is written, and then handed over and answered, or given back. */
  lemma JobRuns(cfg: Config, s: System, written: bool, outcome: Outcome) returns (t: System)
    requires Reachable(cfg, s) && s.pc.Planned? && s.write.None?
    ensures Reachable(cfg, t) && AtRest(t) && t.clock == s.clock
    ensures if written then
              var handed := Hand(s.(disk := s.mem), s.pc.job);
              t == ApplyAnswer(cfg, handed, outcome)
            else t == ApplyHandleFailure(s.(pc := Unsaved(s.pc.job)))
  {
    hide Reachable;
    t := Reach(cfg, s, BeginWrite(true));
    t := Reach(cfg, t, EndWrite(written));
    if written {
      t := Reach(cfg, t, Answer(outcome));
    } else {
      t := Reach(cfg, t, HandleFailure);
    }
  }

  /** The night queue part of a tick. */
  lemma FlushRuns(cfg: Config, s: System, now: Time, written: bool, outcome: Outcome) returns (t: System)
    requires Reachable(cfg, s) && AtRest(s) && ZERO < now <= s.clock
    ensures Reachable(cfg, t) && AtRest(t) && t.clock == s.clock && t.sends == s.sends
    ensures t.mem == Notifier.Flush(cfg, s.mem, now, written, outcome)
    ensures t.alerts == s.alerts + AlertsOf(if written then DueNotices(cfg, s.mem.pending, now) else [], now)
  {
    hide Reachable, DueNotices, WaitingNotices, MarkAll;
    if DueNotices(cfg, s.mem.pending, now) == [] {
      assert s.alerts + AlertsOf([], now) == s.alerts;
      return s;
    }
    t := Reach(cfg, s, TakeNotices(now));
    t := JobRuns(cfg, t, written, outcome);
    assert !written ==> s.alerts + AlertsOf([], now) == s.alerts;
  }

  /** The digest part. */
  lemma DigestRuns(cfg: Config, s: System, now: Time, written: bool, outcome: Outcome) returns (t: System)
    requires Reachable(cfg, s) && AtRest(s) && ZERO < now <= s.clock && ZERO < s.mem.nextDigestAt
    ensures Reachable(cfg, t) && AtRest(t) && t.clock == s.clock && t.alerts == s.alerts
    ensures t.mem == DigestTick(cfg, s.mem, now, written, outcome)
    ensures t.sends == s.sends + if Tries(s.mem, now) && written
                                 then [DigestSend(s.mem.nextDigestAt, now, Some(outcome))] else []
  {
    hide Reachable, FinishDigest, DigestAnswered;
    StepIsExact(s.mem, now);
    t := s;
    match NextDigestStep(s.mem, now)
    case NotDue => assert s.sends + [] == s.sends;
    case Waiting => t := Reach(cfg, s, OpenDigest(now));
    case Attempt =>
      hide NextDigestStep, Tries;
      t := Reach(cfg, s, Reserve(now));
      t := JobRuns(cfg, t, written, outcome);
    case _ =>
      t := Reach(cfg, s, OpenDigest(now));
      t := Reach(cfg, t, CloseDigest(now));
  }

  /** A whole tick, however its writes and sends end. */
  lemma TickIsRun(cfg: Config, s: System, now: Time, report: Notifier.TickReport) returns (t: System)
    requires Reachable(cfg, s) && AtRest(s) && ZERO < now <= s.clock
    ensures Reachable(cfg, t) && AtRest(t) && t.clock == s.clock
    ensures t.mem == Notifier.Tick(cfg, s.mem, now, report)
    ensures var started := WithNextDigest(cfg, s.mem, now);
            var due := DueNotices(cfg, started.pending, now);
            && t.alerts == s.alerts + AlertsOf(if report.flushWritten then due else [], now)
            && t.sends == s.sends
                          + if (due == [] || report.flushWritten) && Tries(started, now) && report.digestWritten
                            then [DigestSend(started.nextDigestAt, now, Some(report.digestOutcome))] else []
  {
    ReachableInv(cfg, s);
    NextIsPositive(cfg, s.mem, now);
    hide Reachable, AlertInv, DueNotices, Notifier.Flush, DigestTick, Tries, DigestEnd;
    t := Reach(cfg, s, SetNextDigest(now));
    var started := t.mem;
    t := FlushRuns(cfg, t, now, report.flushWritten, report.flushOutcome);
    Notifier.FlushKeepsTries(cfg, started, now, report.flushWritten, report.flushOutcome);
    FlushKeepsNext(cfg, started, now, report.flushWritten, report.flushOutcome);
    if DueNotices(cfg, started.pending, now) == [] || report.flushWritten {
      t := DigestRuns(cfg, t, now, report.digestWritten, report.digestOutcome);
    }
  }

  lemma FlushKeepsNext(cfg: Config, n: Notes, now: Time, written: bool, outcome: Outcome)
    ensures Notifier.Flush(cfg, n, now, written, outcome).nextDigestAt == n.nextDigestAt
  {
  }
}
