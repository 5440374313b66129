/** No failure is forgotten without a cause: every marked failure of a window that memory still holds is
    queued, under way, handed over, or was lost at a known step. */
module Conservation {
  import opened Clock
  import opened Options
  import opened Notifications
  import opened Delivery
  import Digest

  /** The write before an immediate alert failed; memory was replaced by the file; or the window was
      closed while the notice was still queued. */
  datatype Cause = AlertWriteFailed | Restarted | WindowClosed

  datatype Loss = Loss(notice: Notice, cause: Cause)

  /** The notices of `before` that `after` does not have. */
  function Dropped(before: seq<Notice>, after: seq<Notice>, cause: Cause): seq<Loss> {
    if before == [] then []
    else
      var last := before[|before| - 1];
      Dropped(before[..|before| - 1], after, cause) + if Listed(after, last) then [] else [Loss(last, cause)]
  }

  /** Alerts that are decided but not handed over yet. */
  predicate UnderWay(s: System) {
    !s.pc.Idle? && !s.pc.Handed? && !s.pc.job.Daily?
  }

  /** What one step loses. */
  function LossOf(cfg: Config, s: System, a: Action): seq<Loss>
    requires Enabled(cfg, s, a)
  {
    match a
    case HandleFailure => if s.pc.job.Announce? then Dropped(s.pc.job.notices, [], AlertWriteFailed) else []
    case RecordRun(_) => Dropped(s.mem.pending, Apply(cfg, s, a).mem.pending, WindowClosed)
    case CloseDigest(_) => Dropped(s.mem.pending, Apply(cfg, s, a).mem.pending, WindowClosed)
    case Answer(_) => Dropped(s.mem.pending, Apply(cfg, s, a).mem.pending, WindowClosed)
    case Load => Dropped(s.mem.pending, s.disk.pending, Restarted)
    case Crash =>
      Dropped(s.mem.pending, s.disk.pending, Restarted)
      + if UnderWay(s) then Dropped(s.pc.job.notices, s.disk.pending, Restarted) else []
    case _ => []
  }

  ghost predicate WasSent(alerts: seq<Alert>, x: Notice) {
    exists i :: 0 <= i < |alerts| && Same(alerts[i].notice, x)
  }

  ghost predicate WasLost(lost: seq<Loss>, x: Notice) {
    exists i :: 0 <= i < |lost| && Same(lost[i].notice, x)
  }

  /** The whereabouts of a failure. */
  ghost predicate Known(s: System, lost: seq<Loss>, x: Notice) {
    || Listed(s.mem.pending, x)
    || (UnderWay(s) && Listed(s.pc.job.notices, x))
    || WasSent(s.alerts, x)
    || WasLost(lost, x)
  }

  function Id(end: Time, key: Key): Notice {
    Notice(key, ZERO, ZERO, end)
  }

  /** A failure that was not consumed by manual feedback. */
  predicate Announced(n: Notes, end: Time, key: Key) {
    end in n.windows && key in n.windows[end].failures && n.windows[end].failures[key] != Manual
  }

  ghost predicate AllKnown(n: Notes, s: System, lost: seq<Loss>) {
    forall end, key :: Announced(n, end, key) ==> Listed(n.pending, Id(end, key)) || Known(s, lost, Id(end, key))
  }

  ghost predicate TraceInv(s: System, lost: seq<Loss>) {
    && AllKnown(s.mem, s, lost) && AllKnown(s.disk, s, lost)
    && (s.write.Some? ==> AllKnown(s.write.value.copy, s, lost))
    && (s.pc.Handed? && !s.pc.job.Daily? ==> forall x :: Listed(s.pc.job.notices, x) ==> WasSent(s.alerts, x))
  }

  // ----- lists -----

  lemma ListedIn(a: seq<Notice>, b: seq<Notice>, x: Notice)
    ensures Listed(a + b, x) <==> Listed(a, x) || Listed(b, x)
  {
    if Listed(a, x) {
      var i :| 0 <= i < |a| && Same(a[i], x);
      assert (a + b)[i] == a[i];
    }
    if Listed(b, x) {
      var i :| 0 <= i < |b| && Same(b[i], x);
      assert (a + b)[|a| + i] == b[i];
    }
    if Listed(a + b, x) {
      var i :| 0 <= i < |a + b| && Same((a + b)[i], x);
      assert if i < |a| then (a + b)[i] == a[i] else (a + b)[i] == b[i - |a|];
    }
  }

  lemma OneListed(notice: Notice, x: Notice)
    ensures Listed([notice], x) <==> Same(notice, x)
  {
    assert [notice][0] == notice;
  }

  lemma LossesGrow(a: seq<Loss>, b: seq<Loss>, x: Notice)
    ensures WasLost(a + b, x) <==> WasLost(a, x) || WasLost(b, x)
  {
    if WasLost(a, x) {
      var i :| 0 <= i < |a| && Same(a[i].notice, x);
      assert (a + b)[i] == a[i];
    }
    if WasLost(b, x) {
      var i :| 0 <= i < |b| && Same(b[i].notice, x);
      assert (a + b)[|a| + i] == b[i];
    }
    if WasLost(a + b, x) {
      var i :| 0 <= i < |a + b| && Same((a + b)[i].notice, x);
      assert if i < |a| then (a + b)[i] == a[i] else (a + b)[i] == b[i - |a|];
    }
  }

  lemma OneLost(loss: Loss, x: Notice)
    ensures WasLost([loss], x) <==> Same(loss.notice, x)
  {
    assert [loss][0] == loss;
  }

  /** Nothing drops out of a list unseen. */
  lemma {:induction false} DroppedIsLost(before: seq<Notice>, after: seq<Notice>, cause: Cause, x: Notice)
    ensures WasLost(Dropped(before, after, cause), x) <==> Listed(before, x) && !Listed(after, x)
  {
    if before != [] {
      var init, last := before[..|before| - 1], before[|before| - 1];
      assert before == init + [last];
      DroppedIsLost(init, after, cause, x);
      ListedIn(init, [last], x);
      OneListed(last, x);
      AlikeListed(after, last, x);
      if Listed(after, last) {
        assert Dropped(before, after, cause) == Dropped(init, after, cause);
      } else {
        LossesGrow(Dropped(init, after, cause), [Loss(last, cause)], x);
        OneLost(Loss(last, cause), x);
      }
    }
  }

  lemma AlikeListed(notices: seq<Notice>, a: Notice, b: Notice)
    ensures Same(a, b) ==> (Listed(notices, a) <==> Listed(notices, b))
  {
  }

  lemma {:induction false} TakenOrLeft(cfg: Config, pending: seq<Notice>, now: Time, x: Notice)
    requires Listed(pending, x)
    ensures Listed(WaitingNotices(cfg, pending, now), x) || Listed(DueNotices(cfg, pending, now), x)
  {
    hide IsDue;
    var init, last := pending[..|pending| - 1], pending[|pending| - 1];
    assert pending == init + [last];
    ListedIn(init, [last], x);
    if Listed(init, x) {
      TakenOrLeft(cfg, init, now, x);
    }
    hide Listed;
    ListedIn(WaitingNotices(cfg, init, now), [last], x);
    ListedIn(DueNotices(cfg, init, now), [last], x);
    ListedIn(WaitingNotices(cfg, init, now), [], x);
    ListedIn(DueNotices(cfg, init, now), [], x);
  }

  // ----- marks that a recording adds -----

  /** Every mark of the recording is an old one, or queued, or to be sent at once. */
  ghost predicate NewMarksListed(n: Notes, r: Recording) {
    forall end, key :: Announced(r.notes, end, key) ==>
      Announced(n, end, key) || Listed(r.notes.pending, Id(end, key)) || Listed(r.immediate, Id(end, key))
  }

  lemma NoticeIsListed(cfg: Config, end: Time, run: Run, r: Recording, key: Key, n: Notes)
    requires end in r.notes.windows && NewMarksListed(n, r)
    ensures NewMarksListed(n, AddNotice(cfg, end, run, r, key))
  {
    hide QuietUntil, Listed;
    var until := QuietUntil(cfg.offset, cfg.quietStart, cfg.quietEnd, run.at);
    var queued, sent := Notice(key, run.at, until, end), Notice(key, run.at, ZERO, end);
    var t := AddNotice(cfg, end, run, r, key);
    forall e, k | Announced(t.notes, e, k)
      ensures Announced(n, e, k) || Listed(t.notes.pending, Id(e, k)) || Listed(t.immediate, Id(e, k))
    {
      ListedIn(r.notes.pending, [queued], Id(e, k));
      OneListed(queued, Id(e, k));
      ListedIn(r.immediate, [sent], Id(e, k));
      OneListed(sent, Id(e, k));
      assert Announced(r.notes, e, k) || (e == end && k == key);
    }
  }

  lemma ItemIsListed(cfg: Config, end: Time, run: Run, r: Recording, item: Item, n: Notes)
    requires end in r.notes.windows && NewMarksListed(n, r)
    ensures NewMarksListed(n, RecordItem(cfg, end, run, r, item))
  {
    hide CountInto, AddNotice, FailureCategory, Listed;
    CountingKeepsMarks(cfg, end, r.notes, item);
    var counted := r.(notes := CountInto(cfg, end, r.notes, item));
    assert forall e, k :: Announced(counted.notes, e, k) ==> Announced(r.notes, e, k);
    assert NewMarksListed(n, counted);
    var category := FailureCategory(item, StreakOf(counted.notes.streaks, item.account), cfg.streakThreshold);
    if category.Failure? {
      NoticeIsListed(cfg, end, run, counted, Key(item.account, category.category), n);
    }
  }

  lemma {:induction false} ItemsAreListed(cfg: Config, end: Time, run: Run, r: Recording, items: seq<Item>, n: Notes)
    requires end in r.notes.windows && NewMarksListed(n, r)
    ensures NewMarksListed(n, RecordItems(cfg, end, run, r, items))
  {
    hide RecordItem, NewMarksListed;
    if items != [] {
      var init := items[..|items| - 1];
      ItemsAreListed(cfg, end, run, r, init, n);
      ItemIsListed(cfg, end, run, RecordItems(cfg, end, run, r, init), items[|items| - 1], n);
    }
  }

  lemma RecordingIsListed(cfg: Config, n: Notes, run: Run)
    ensures NewMarksListed(n, Record(cfg, n, run))
  {
    hide RecordItems, DigestEnd, Listed;
    var start := Recording(StartRun(cfg, n, run), [], false, false);
    assert NewMarksListed(n, start);
    ItemsAreListed(cfg, DigestEnd(cfg.offset, cfg.digestTime, run.at), run, start, run.items, n);
  }

  // ----- steps -----

  /** Whatever is known stays known. */
  ghost predicate StaysKnown(s: System, lost: seq<Loss>, t: System, more: seq<Loss>) {
    forall x :: Known(s, lost, x) ==> Known(t, more, x)
  }

  /** A copy that the step does not touch. */
  lemma CopyStaysKnown(n: Notes, s: System, lost: seq<Loss>, t: System, more: seq<Loss>)
    requires AllKnown(n, s, lost) && StaysKnown(s, lost, t, more)
    ensures AllKnown(n, t, more)
  {
    hide Known, Listed;
  }

  /** Memory after a step, given where its new marks are listed. */
  lemma MemStaysKnown(s: System, lost: seq<Loss>, t: System, more: seq<Loss>)
    requires AllKnown(s.mem, s, lost) && StaysKnown(s, lost, t, more)
    requires forall end, key :: Announced(t.mem, end, key) ==>
              Announced(s.mem, end, key) || Known(t, more, Id(end, key))
    ensures AllKnown(t.mem, t, more)
  {
    hide Listed, WasSent, WasLost, UnderWay;
    forall end, key | Announced(t.mem, end, key)
      ensures Known(t, more, Id(end, key))
    {
      assert Announced(s.mem, end, key) ==> Known(s, lost, Id(end, key));
    }
  }

  /** Memory replaced by a section while nothing is under way. */
  lemma SectionTraced(cfg: Config, s: System, a: Action, lost: seq<Loss>)
    requires Enabled(cfg, s, a) && TraceInv(s, lost)
    requires a.RecordRun? || a.SetNextDigest? || a.TakeNotices? || a.OpenDigest? || a.Reserve? || a.CloseDigest?
    ensures TraceInv(Apply(cfg, s, a), lost + LossOf(cfg, s, a))
  {
    hide Listed, WasSent, WasLost, Record, DueNotices, WaitingNotices, FinishDigest, NextDigestStep, Dropped;
    var t, more := Apply(cfg, s, a), lost + LossOf(cfg, s, a);
    forall x | Known(s, lost, x)
      ensures Known(t, more, x)
    {
      LossesGrow(lost, LossOf(cfg, s, a), x);
      if a.TakeNotices? {
        if Listed(s.mem.pending, x) {
          TakenOrLeft(cfg, s.mem.pending, a.now, x);
        }
      } else if a.RecordRun? || a.CloseDigest? {
        DroppedIsLost(s.mem.pending, t.mem.pending, WindowClosed, x);
      }
    }
    SectionMarks(cfg, s, a, lost);
    CopiesTraced(s, lost, t, more);
  }

  lemma CopiesTraced(s: System, lost: seq<Loss>, t: System, more: seq<Loss>)
    requires TraceInv(s, lost) && StaysKnown(s, lost, t, more) && AllKnown(t.mem, t, more)
    requires t.disk == s.disk && t.write == s.write && !t.pc.Handed?
    ensures TraceInv(t, more)
  {
    hide AllKnown, StaysKnown, Listed, WasSent;
    CopyStaysKnown(s.disk, s, lost, t, more);
    if s.write.Some? {
      CopyStaysKnown(s.write.value.copy, s, lost, t, more);
    }
  }

  lemma SectionMarks(cfg: Config, s: System, a: Action, lost: seq<Loss>)
    requires Enabled(cfg, s, a) && TraceInv(s, lost)
    requires a.RecordRun? || a.SetNextDigest? || a.TakeNotices? || a.OpenDigest? || a.Reserve? || a.CloseDigest?
    requires StaysKnown(s, lost, Apply(cfg, s, a), lost + LossOf(cfg, s, a))
    ensures AllKnown(Apply(cfg, s, a).mem, Apply(cfg, s, a), lost + LossOf(cfg, s, a))
  {
    hide Listed, WasSent, WasLost, Record, DueNotices, WaitingNotices, NextDigestStep, StaysKnown, LossOf, Living,
      DigestEnd;
    var t := Apply(cfg, s, a);
    if a.RecordRun? {
      RecordingIsListed(cfg, s.mem, a.run);
      NoneListed();
    }
    MemStaysKnown(s, lost, t, lost + LossOf(cfg, s, a));
  }

  lemma NoneListed()
    ensures forall x :: !Listed([], x)
  {
  }

  lemma NoLoss(lost: seq<Loss>)
    ensures lost + [] == lost
  {
  }

  lemma TickTraced(cfg: Config, s: System, to: Time, lost: seq<Loss>)
    requires TraceInv(s, lost)
    ensures TraceInv(s.(clock := to), lost)
  {
    hide Listed, WasSent, WasLost;
    var t := s.(clock := to);
    assert StaysKnown(s, lost, t, lost);
    CopyStaysKnown(s.mem, s, lost, t, lost);
    CopyStaysKnown(s.disk, s, lost, t, lost);
    if s.write.Some? {
      CopyStaysKnown(s.write.value.copy, s, lost, t, lost);
    }
  }

  lemma BeginTraced(s: System, mine: bool, lost: seq<Loss>)
    requires TraceInv(s, lost) && (mine ==> s.pc.Planned?)
    ensures TraceInv(ApplyBeginWrite(s, mine), lost)
  {
    hide Listed, WasSent, WasLost;
    var t := ApplyBeginWrite(s, mine);
    assert StaysKnown(s, lost, t, lost);
    CopyStaysKnown(s.mem, s, lost, t, lost);
    CopyStaysKnown(s.disk, s, lost, t, lost);
  }

  lemma {:induction false} HandedIsSent(alerts: seq<Alert>, notices: seq<Notice>, at: Time, x: Notice)
    ensures WasSent(alerts, x) || Listed(notices, x) ==> WasSent(alerts + AlertsOf(notices, at), x)
  {
    var all := alerts + AlertsOf(notices, at);
    if WasSent(alerts, x) {
      var i :| 0 <= i < |alerts| && Same(alerts[i].notice, x);
      assert all[i] == alerts[i];
    } else if Listed(notices, x) {
      var i :| 0 <= i < |notices| && Same(notices[i], x);
      assert all[|alerts| + i] == Alert(notices[i], at);
    }
  }

  lemma EndTraced(s: System, ok: bool, lost: seq<Loss>)
    requires TraceInv(s, lost) && s.write.Some? && (s.write.value.mine ==> s.pc.Persisting?)
    ensures TraceInv(ApplyEndWrite(s, ok), lost)
  {
    hide Listed, WasSent, WasLost;
    var t := ApplyEndWrite(s, ok);
    forall x
      ensures Known(s, lost, x) ==> Known(t, lost, x)
      ensures t.pc.Handed? && !t.pc.job.Daily? && Listed(t.pc.job.notices, x) ==> WasSent(t.alerts, x)
    {
      if s.write.value.mine && ok && !s.pc.job.Daily? {
        HandedIsSent(s.alerts, s.pc.job.notices, s.pc.job.at, x);
      }
    }
    CopyStaysKnown(s.mem, s, lost, t, lost);
    CopyStaysKnown(s.disk, s, lost, t, lost);
    CopyStaysKnown(s.write.value.copy, s, lost, t, lost);
  }

  /** A failed write loses immediate alerts and nothing else. */
  lemma FailureTraced(cfg: Config, s: System, lost: seq<Loss>)
    requires TraceInv(s, lost) && s.pc.Unsaved?
    ensures TraceInv(ApplyHandleFailure(s), lost + LossOf(cfg, s, HandleFailure))
  {
    hide Listed, WasSent, WasLost, Dropped;
    var t, loss := ApplyHandleFailure(s), LossOf(cfg, s, HandleFailure);
    NoneListed();
    forall x | Known(s, lost, x)
      ensures Known(t, lost + loss, x)
    {
      LossesGrow(lost, loss, x);
      match s.pc.job
      case Announce(notices, _) => DroppedIsLost(notices, [], AlertWriteFailed, x);
      case Night(notices, _) => ListedIn(s.mem.pending, notices, x);
      case Daily(_, _) =>
    }
    MemStaysKnown(s, lost, t, lost + loss);
    CopiesTraced(s, lost, t, lost + loss);
  }

  lemma {:induction false} MarkedOrSent(windows: map<Time, Window>, notices: seq<Notice>, outcome: Outcome,
        end: Time, key: Key)
    ensures var t := MarkAll(windows, notices, outcome);
            && t.Keys == windows.Keys
            && (end in t && key in t[end].failures && t[end].failures[key] != Manual ==>
                  || (key in windows[end].failures && windows[end].failures[key] != Manual)
                  || Listed(notices, Id(end, key)))
  {
    if notices != [] {
      var init, last := notices[..|notices| - 1], notices[|notices| - 1];
      MarkedOrSent(windows, init, outcome, end, key);
      assert notices == init + [last];
      ListedIn(init, [last], Id(end, key));
      OneListed(last, Id(end, key));
      hide Listed;
    }
  }

  lemma AnswerTraced(cfg: Config, s: System, outcome: Outcome, lost: seq<Loss>)
    requires TraceInv(s, lost) && s.pc.Handed?
    ensures TraceInv(ApplyAnswer(cfg, s, outcome), lost + LossOf(cfg, s, Answer(outcome)))
  {
    hide Listed, WasSent, WasLost, Dropped, MarkAll, FinishDigest;
    var t, loss := ApplyAnswer(cfg, s, outcome), LossOf(cfg, s, Answer(outcome));
    forall x | Known(s, lost, x)
      ensures Known(t, lost + loss, x)
    {
      LossesGrow(lost, loss, x);
      DroppedIsLost(s.mem.pending, t.mem.pending, WindowClosed, x);
    }
    AnswerMarks(cfg, s, outcome, lost);
    MemStaysKnown(s, lost, t, lost + loss);
    CopiesTraced(s, lost, t, lost + loss);
  }

  lemma AnswerMarks(cfg: Config, s: System, outcome: Outcome, lost: seq<Loss>)
    requires TraceInv(s, lost) && s.pc.Handed?
    ensures var t := ApplyAnswer(cfg, s, outcome);
            forall end, key :: Announced(t.mem, end, key) ==>
                Announced(s.mem, end, key) || WasSent(t.alerts, Id(end, key))
  {
    hide Listed, WasSent, AllKnown, MarkAll, Living, DigestEnd;
    var t := ApplyAnswer(cfg, s, outcome);
    forall end, key | Announced(t.mem, end, key)
      ensures Announced(s.mem, end, key) || WasSent(t.alerts, Id(end, key))
    {
      if !s.pc.job.Daily? {
        MarkedOrSent(s.mem.windows, s.pc.job.notices, outcome, end, key);
      }
    }
  }

  /** Memory becomes the file: what was queued or under way in memory only is lost. */
  lemma RestartTraced(cfg: Config, s: System, a: Action, lost: seq<Loss>)
    requires TraceInv(s, lost) && Enabled(cfg, s, a) && (a.Load? || a.Crash?)
    ensures TraceInv(Apply(cfg, s, a), lost + LossOf(cfg, s, a))
  {
    hide Listed, WasSent, WasLost, Dropped;
    var t, loss := Apply(cfg, s, a), LossOf(cfg, s, a);
    forall x | Known(s, lost, x)
      ensures Known(t, lost + loss, x)
    {
      var queued := Dropped(s.mem.pending, s.disk.pending, Restarted);
      var jobs := if UnderWay(s) then Dropped(s.pc.job.notices, s.disk.pending, Restarted) else [];
      LossesGrow(lost, loss, x);
      LossesGrow(queued, jobs, x);
      DroppedIsLost(s.mem.pending, s.disk.pending, Restarted, x);
      if UnderWay(s) {
        DroppedIsLost(s.pc.job.notices, s.disk.pending, Restarted, x);
      }
    }
    CopyStaysKnown(s.disk, s, lost, t, lost + loss);
  }

  lemma StepTraced(cfg: Config, s: System, a: Action, lost: seq<Loss>)
    requires TraceInv(s, lost) && Enabled(cfg, s, a)
    ensures TraceInv(Apply(cfg, s, a), lost + LossOf(cfg, s, a))
  {
    hide TraceInv, ApplyBeginWrite, ApplyEndWrite, ApplyHandleFailure, ApplyAnswer, ApplyRecord, ApplyTake,
      ApplyReserve,
      Dropped, DueNotices, NextDigestStep, FinishDigest, Opened;
    NoLoss(lost);
    match a
    case Tick(to) => TickTraced(cfg, s, to, lost);
    case BeginWrite(mine) => BeginTraced(s, mine, lost);
    case EndWrite(ok) => EndTraced(s, ok, lost);
    case HandleFailure => FailureTraced(cfg, s, lost);
    case Answer(outcome) => AnswerTraced(cfg, s, outcome, lost);
    case Load => RestartTraced(cfg, s, a, lost);
    case Crash => RestartTraced(cfg, s, a, lost);
    case _ => SectionTraced(cfg, s, a, lost);
  }

  // ----- whole runs -----

  /** What the first `n` steps of a run lost. */
  ghost function Losses(cfg: Config, states: seq<System>, actions: seq<Action>, n: nat): seq<Loss>
    requires IsRun(cfg, states, actions) && n < |states|
  {
    if n == 0 then []
    else Losses(cfg, states, actions, n - 1) + LossOf(cfg, states[n - 1], actions[n - 1])
  }

  lemma {:induction false} RunIsTraced(cfg: Config, states: seq<System>, actions: seq<Action>, n: nat)
    requires IsRun(cfg, states, actions) && n < |states|
    ensures TraceInv(states[n], Losses(cfg, states, actions, n))
  {
    hide Enabled, Apply, LossOf;
    if n > 0 {
      hide TraceInv;
      RunIsTraced(cfg, states, actions, n - 1);
      StepTraced(cfg, states[n - 1], actions[n - 1], Losses(cfg, states, actions, n - 1));
      assert states[n] == Apply(cfg, states[n - 1], actions[n - 1]);
    }
  }

  /** In every run, each failure that a live window marks and that manual feedback did not consume is
      queued, under way, was handed over, or was lost at a step that `LossOf` names. */
  lemma NoFailureIsForgotten(cfg: Config, states: seq<System>, actions: seq<Action>, n: nat, end: Time, key: Key)
    requires IsRun(cfg, states, actions) && n < |states| && Announced(states[n].mem, end, key)
    ensures Known(states[n], Losses(cfg, states, actions, n), Id(end, key))
  {
    RunIsTraced(cfg, states, actions, n);
  }

  /** A notice lost by closing was queued, and its window is gone. */
  lemma ClosedLossIsOver(cfg: Config, s: System, a: Action, x: Notice)
    requires AlertInv(cfg, s) && Enabled(cfg, s, a) && (a.RecordRun? || a.CloseDigest? || a.Answer?)
    requires WasLost(LossOf(cfg, s, a), x)
    ensures Listed(s.mem.pending, x) && x.end !in Apply(cfg, s, a).mem.windows
  {
    hide Listed, WasLost, Dropped, DigestEnd, NextDigestStep, MarkAll;
    var t := Apply(cfg, s, a);
    DroppedIsLost(s.mem.pending, t.mem.pending, WindowClosed, x);
    MemIsOk(cfg, s);
    if a.RecordRun? {
      if x.end in t.mem.windows {
        QueueOnlyGrows(cfg, s.mem, a.run, x);
      }
    } else {
      hide Distinct, JobOk, AllSettled, SentOnce;
      LivingSound(s.mem.pending, t.mem.windows);
    }
  }

  /** Recording drops a queued notice only together with its window. */
  lemma QueueOnlyGrows(cfg: Config, n: Notes, run: Run, x: Notice)
    requires QueueSound(n) && OnBoundaries(cfg, n) && Listed(n.pending, x) && x.end in Record(cfg, n, run).notes.windows
    ensures Listed(Record(cfg, n, run).notes.pending, x)
  {
    hide RecordItems, Listed, Distinct, DigestEnd;
    var end := DigestEnd(cfg.offset, cfg.digestTime, run.at);
    var start := Recording(StartRun(cfg, n, run), [], false, false);
    DigestEndIsLeastBoundary(cfg.offset, cfg.digestTime, run.at);
    Digest.ItemsKeepKeys(cfg, end, run, start, run.items);
    LivingSound(n.pending, PruneWindows(n.windows, run.at - WEEK));
    ListedIsMarked(n, n.pending, x);
    ItemsKeepQueue(cfg, end, run, start, run.items, x);
  }

  lemma {:induction false} ItemsKeepQueue(cfg: Config, end: Time, run: Run, r: Recording, items: seq<Item>, x: Notice)
    requires end in r.notes.windows && Listed(r.notes.pending, x)
    ensures Listed(RecordItems(cfg, end, run, r, items).notes.pending, x)
  {
    hide Listed, RecordItem;
    if items != [] {
      var init := items[..|items| - 1];
      var before := RecordItems(cfg, end, run, r, init);
      ItemsKeepQueue(cfg, end, run, r, init, x);
      ItemKeepsQueue(cfg, end, run, before, items[|items| - 1], x);
    }
  }

  lemma ItemKeepsQueue(cfg: Config, end: Time, run: Run, r: Recording, item: Item, x: Notice)
    requires end in r.notes.windows && Listed(r.notes.pending, x)
    ensures Listed(RecordItem(cfg, end, run, r, item).notes.pending, x)
  {
    hide Listed, CountItem, FailureCategory, NextStreaks, QuietUntil;
    var t := RecordItem(cfg, end, run, r, item).notes.pending;
    assert t == r.notes.pending + t[|r.notes.pending|..];
    ListedIn(r.notes.pending, t[|r.notes.pending|..], x);
  }
}
