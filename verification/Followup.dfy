/** Follow-up checks: one per observed reset, planned from quota observations and claimed by the
    scheduler. */
module Followup {
  import opened Clock
  import opened Options
  import opened Quota

  const FOLLOWUP_DELAY: int := 90 * SECOND
  const SEVEN_DAYS: int := 7 * DAY

  datatype Kind = FiveHour | Weekly

  /** The scheduling fields of one kind: when the next follow-up is due, for which reset, and the reset
      of the last claim. */
  datatype Plan = Plan(at: Time, reset: Time, last: Time)

  /** Two readings of the same reset can differ by up to a minute. */
  predicate SameResetPoint(a: Time, b: Time) {
    a != ZERO && b != ZERO && -MINUTE <= a - b <= MINUTE
  }

  function WindowOf(kind: Kind, o: Observation): Window {
    match kind
    case FiveHour => o.fiveHour
    case Weekly => o.weekly
  }

  /** The observation shows a used window whose reset is worth a follow-up. */
  predicate Worthwhile(kind: Kind, o: Observation) {
    var w := WindowOf(kind, o);
    var remaining := w.resetAt - o.checkedAt;
    match kind
    case FiveHour =>
      w.minutes == FIVE_HOUR_MINUTES && w.usedPercent > 0.0 && 0 < remaining <= 5 * HOUR + 10 * MINUTE
    case Weekly =>
      w.minutes == WEEKLY_MINUTES && w.usedPercent >= 95.0 && 0 < remaining <= SEVEN_DAYS + 10 * MINUTE
  }

  /** `updateFollowupPlan`, for one kind. */
  function Updated(kind: Kind, p: Plan, o: Observation): Plan {
    var reset := WindowOf(kind, o).resetAt;
    if Worthwhile(kind, o) && !SameResetPoint(reset, p.last) then p.(reset := reset, at := reset + FOLLOWUP_DELAY)
    else if SameResetPoint(p.reset, p.last) || p.at <= o.checkedAt then p.(at := ZERO)
    else p
  }

  /** After an update a plan lies after the observation, and it is never for the reset that was claimed
      last. */
  lemma UpdatedPlanIsAhead(kind: Kind, p: Plan, o: Observation)
    requires o.checkedAt > ZERO
    ensures var t := Updated(kind, p, o);
            && (t.at == ZERO || o.checkedAt < t.at)
            && (t.at != ZERO ==> !SameResetPoint(t.reset, t.last))
            && t.last == p.last
  {
  }

  /** Two instants are known and at most a minute apart. */
  predicate WithinAMinute(a: Time, b: Time) {
    ZERO !in {a, b} && a <= b + MINUTE && b <= a + MINUTE
  }

  /** An observed reset is planned for, 90 seconds later, exactly when its window is used (a weekly one: at
      least 95 percent), it is still ahead, no further than the window is long plus ten minutes, and was not
      claimed last.  Otherwise a plan that is ahead and not for the reset claimed last stays, and any other is
      dropped. */
  lemma UpdateIsExact(kind: Kind, p: Plan, o: Observation)
    ensures var w := if kind.FiveHour? then o.fiveHour else o.weekly;
            var t, left := Updated(kind, p, o), w.resetAt - o.checkedAt;
            var worth := if kind.FiveHour? then w.minutes == 300 && w.usedPercent > 0.0 && left <= 310 * MINUTE
                         else w.minutes == 10_080 && w.usedPercent >= 95.0 && left <= 10_090 * MINUTE;
            if worth && ZERO < left && !WithinAMinute(w.resetAt, p.last)
            then t == Plan(w.resetAt + 90 * SECOND, w.resetAt, p.last)
            else t == p.(at := if p.at > o.checkedAt && !WithinAMinute(p.reset, p.last) then p.at else ZERO)
  {
  }

  // ----- the fields of an account, updated in place -----

  predicate InFollowupHours(offset: int, at: Time) {
    5 <= LocalHour(offset, at) < 23
  }

  /** A planned time is due on its own local day. */
  predicate PlanDue(offset: int, at: Time, now: Time) {
    ZERO != at <= now && SameLocalDate(offset, at, now)
  }

  /** A plan is due from its time until midnight, and follow-up hours are those from 5:00 to 23:00. */
  lemma DueUntilMidnight(offset: int, at: Time, now: Time)
    ensures PlanDue(offset, at, now) <==> at != ZERO && now - (now + offset) % DAY <= at <= now
    ensures InFollowupHours(offset, at) <==> 5 * HOUR <= (at + offset) % DAY < 23 * HOUR
  {
    assert now + offset == LocalDay(offset, now) * DAY + TimeOfDay(offset, now);
    assert at + offset == LocalDay(offset, at) * DAY + TimeOfDay(offset, at);
    if now - TimeOfDay(offset, now) <= at <= now {
      assert -DAY < (LocalDay(offset, at) - LocalDay(offset, now)) * DAY < DAY;
    }
  }

  datatype Kinds = Kinds(fiveHour: bool, weekly: bool, retry: bool)

  class AccountSchedule {
    var fiveHour: Plan
    var weekly: Plan
    var retryAt: Time
    var retryStep: nat

    constructor ()
      ensures fiveHour == weekly == Plan(ZERO, ZERO, ZERO) && retryAt == ZERO && retryStep == 0
    {
      fiveHour, weekly, retryAt, retryStep := Plan(ZERO, ZERO, ZERO), Plan(ZERO, ZERO, ZERO), ZERO, 0;
    }

    method UpdateFollowupPlan(o: Observation)
      modifies this`fiveHour, this`weekly
      ensures fiveHour == Updated(FiveHour, old(fiveHour), o)
      ensures weekly == Updated(Weekly, old(weekly), o)
    {
      var fiveRemaining := o.fiveHour.resetAt - o.checkedAt;
      if o.fiveHour.minutes == FIVE_HOUR_MINUTES && o.fiveHour.usedPercent > 0.0
         && fiveRemaining > 0 && fiveRemaining <= 5 * HOUR + 10 * MINUTE
         && !SameResetPoint(o.fiveHour.resetAt, fiveHour.last)
      {
        fiveHour := fiveHour.(reset := o.fiveHour.resetAt, at := o.fiveHour.resetAt + FOLLOWUP_DELAY);
      } else if SameResetPoint(fiveHour.reset, fiveHour.last) || !(fiveHour.at > o.checkedAt) {
        fiveHour := fiveHour.(at := ZERO);
      }
      var weeklyRemaining := o.weekly.resetAt - o.checkedAt;
      if o.weekly.minutes == WEEKLY_MINUTES && o.weekly.usedPercent >= 95.0
         && weeklyRemaining > 0 && weeklyRemaining <= SEVEN_DAYS + 10 * MINUTE
         && !SameResetPoint(o.weekly.resetAt, weekly.last)
      {
        weekly := weekly.(reset := o.weekly.resetAt, at := o.weekly.resetAt + FOLLOWUP_DELAY);
      } else if SameResetPoint(weekly.reset, weekly.last) || !(weekly.at > o.checkedAt) {
        weekly := weekly.(at := ZERO);
      }
    }

    /** The claim of `processDue`: the due kinds, and the earliest of their times. */
    method Claim(offset: int, now: Time) returns (kinds: Kinds, due: Time)
      modifies this`fiveHour, this`weekly, this`retryAt
      ensures kinds.fiveHour == PlanDue(offset, old(fiveHour).at, now)
      ensures kinds.weekly == PlanDue(offset, old(weekly).at, now)
      ensures kinds.retry == PlanDue(offset, old(retryAt), now)
      ensures fiveHour == if kinds.fiveHour then Claimed(old(fiveHour)) else old(fiveHour)
      ensures weekly == if kinds.weekly then Claimed(old(weekly)) else old(weekly)
      ensures retryAt == if kinds.retry then ZERO else old(retryAt)
      // the request is due when the first of its kinds is
      ensures kinds.fiveHour ==> due <= old(fiveHour).at
      ensures kinds.weekly ==> due <= old(weekly).at
      ensures kinds.retry ==> due <= old(retryAt)
      ensures kinds.fiveHour || kinds.weekly || kinds.retry ==>
                || (kinds.fiveHour && due == old(fiveHour).at)
                || (kinds.weekly && due == old(weekly).at)
                || (kinds.retry && due == old(retryAt))
      ensures kinds == Kinds(false, false, false) ==> due == ZERO
    {
      kinds, due := Kinds(false, false, false), ZERO;
      if PlanDue(offset, fiveHour.at, now) {
        due := fiveHour.at;
        fiveHour := fiveHour.(last := fiveHour.reset, at := ZERO);
        kinds := kinds.(fiveHour := true);
      }
      if PlanDue(offset, weekly.at, now) {
        if due == ZERO || weekly.at < due {
          due := weekly.at;
        }
        weekly := weekly.(last := weekly.reset, at := ZERO);
        kinds := kinds.(weekly := true);
      }
      if PlanDue(offset, retryAt, now) {
        if due == ZERO || retryAt < due {
          due := retryAt;
        }
        retryAt := ZERO;
        kinds := kinds.(retry := true);
      }
    }

    /** `scheduleQuotaRetry`: at most two retries, after two and eight minutes, in follow-up hours. */
    method ScheduleQuotaRetry(offset: int, now: Time, tooManyRequests: bool) returns (planned: bool)
      requires now > ZERO
      modifies this`retryAt, this`retryStep
      ensures planned ==>
                && !tooManyRequests && old(retryAt) == ZERO && old(retryStep) < 2 && retryStep == old(retryStep) + 1
                && retryAt == now + (if old(retryStep) == 1 then 8 * MINUTE else 2 * MINUTE)
                && InFollowupHours(offset, now) && InFollowupHours(offset, retryAt)
      ensures !planned ==>
                && retryAt == old(retryAt) && retryStep == old(retryStep)
                && (|| tooManyRequests || old(retryAt) != ZERO || old(retryStep) >= 2 || !InFollowupHours(offset, now)
                    || !InFollowupHours(offset, now + if old(retryStep) == 1 then 8 * MINUTE else 2 * MINUTE))
    {
      if tooManyRequests || !InFollowupHours(offset, now) {
        return false;
      }
      if retryStep >= 2 || retryAt != ZERO {
        return false;
      }
      var delay := if retryStep == 1 then 8 * MINUTE else 2 * MINUTE;
      if !InFollowupHours(offset, now + delay) {
        return false;
      }
      retryAt, retryStep := now + delay, retryStep + 1;
      return true;
    }

    /** The rollback of `processDue` for one account, given its fields before the claim. */
    method RestoreAfterFailedWrite(fiveHourBefore: Plan, weeklyBefore: Plan, retryAtBefore: Time, retryStepBefore: nat)
      modifies this`fiveHour, this`weekly, this`retryAt
      ensures fiveHour == Restored(old(fiveHour), fiveHourBefore)
      ensures weekly == Restored(old(weekly), weeklyBefore)
      ensures retryAt == if retryStep == retryStepBefore then retryAtBefore else old(retryAt)
    {
      if fiveHour.last == fiveHourBefore.reset {
        fiveHour := fiveHour.(at := fiveHourBefore.at, last := fiveHourBefore.last);
      }
      if weekly.last == weeklyBefore.reset {
        weekly := weekly.(at := weeklyBefore.at, last := weeklyBefore.last);
      }
      if retryStep == retryStepBefore {
        retryAt := retryAtBefore;
      }
    }

    /** The follow-up part of `requeueInterrupted`: each kind of the request is due again. */
    method Requeue(kinds: Kinds, due: Time)
      modifies this`fiveHour, this`weekly, this`retryAt
      ensures fiveHour == if kinds.fiveHour then old(fiveHour).(at := due) else old(fiveHour)
      ensures weekly == if kinds.weekly then old(weekly).(at := due) else old(weekly)
      ensures retryAt == if kinds.retry then due else old(retryAt)
    {
      if kinds.fiveHour {
        fiveHour := fiveHour.(at := due);
      }
      if kinds.weekly {
        weekly := weekly.(at := due);
      }
      if kinds.retry {
        retryAt := due;
      }
    }

    method ClearQuotaRetry() returns (changed: bool)
      modifies this`retryAt, this`retryStep
      ensures retryAt == ZERO && retryStep == 0
      ensures changed <==> old(retryAt) != ZERO || old(retryStep) != 0
    {
      changed := retryAt != ZERO || retryStep != 0;
      retryAt, retryStep := ZERO, 0;
    }
  }

  function Claimed(p: Plan): Plan {
    p.(last := p.reset, at := ZERO)
  }

  // ----- one kind of one account, over memory, file and crashes -----

  /** How the plan came to be set again while a claim was the latest one: its write failed and it was
      rolled back, it was lost in a crash before its write succeeded, or an interruption put back the
      request of claim `request`, which may be an older one. */
  datatype Again = NotAgain | RolledBack | LostBeforeWrite | Requeued(request: nat)

  /** A claim: the reset it is for, the due time of its request, and how it was undone. */
  datatype ClaimRecord = ClaimRecord(reset: Time, due: Time, again: Again)

  datatype Pc = Idle | Claiming(before: Plan) | Persisting(before: Plan) | Unsaved(before: Plan)

  datatype Write = Write(mine: bool, copy: Plan)

  /** `live`: the claims whose requests are queued or running in this process.  `other`: the fields
      before a claim of another kind of the same account, while that claim is being written. */
  datatype System = System(
    mem: Plan,
    disk: Plan,
    write: Option<Write>,
    pc: Pc,
    other: Option<Plan>,
    live: set<nat>,
    clock: Time,
    claims: seq<ClaimRecord>)

  datatype Action =
    | Tick(to: Time)
    | Observe(o: Observation) // saved now, perhaps long after it was taken
    | Claim(offset: int, now: Time, due: Time)
    | BeginWrite(mine: bool)
    | EndWrite(ok: bool, accepted: bool)
    | RollBack
    | ClaimOther
    | OtherEnds(ok: bool)
    | Finish(k: nat)
    | Requeue(k: nat)
    | Load
    | Crash

  predicate Enabled(s: System, a: Action) {
    match a
    case Tick(to) => s.clock <= to
    case Observe(o) => ZERO < o.checkedAt <= s.clock
    case Claim(offset, now, due) =>
      && s.pc.Idle? && s.other.None? && now <= s.clock && InFollowupHours(offset, now)
      && PlanDue(offset, s.mem.at, now) && ZERO < due <= s.mem.at
    case BeginWrite(mine) => s.write.None? && (mine ==> s.pc.Claiming?)
    case EndWrite(_, _) => s.write.Some? && (s.write.value.mine ==> s.pc.Persisting?)
    case RollBack => s.pc.Unsaved?
    case ClaimOther => s.pc.Idle? && s.other.None?
    case OtherEnds(_) => s.other.Some?
    case Finish(k) => k in s.live
    case Requeue(k) => k in s.live
    // configure reads the file only after every run has finished or was put back
    case Load => s.pc.Idle? && s.write.None? && s.other.None? && s.live == {}
    case Crash => true
  }

  function SetAgain(claims: seq<ClaimRecord>, again: Again): seq<ClaimRecord> {
    if claims == [] then [] else claims[|claims| - 1 := claims[|claims| - 1].(again := again)]
  }

  /** Restores the scheduling fields only; the reset may have been observed anew meanwhile. */
  function Restored(current: Plan, before: Plan): Plan {
    if current.last == before.reset then current.(at := before.at, last := before.last) else current
  }

  /** A successful write dispatches the request; it is dropped if a request of the account is live. */
  function ApplyEndWrite(s: System, ok: bool, accepted: bool): System
    requires s.write.Some? && (s.write.value.mine ==> s.pc.Persisting?)
  {
    var done := s.(write := None, disk := if ok then s.write.value.copy else s.disk);
    if !s.write.value.mine then done
    else if !ok then done.(pc := Unsaved(s.pc.before))
    else done.(pc := Idle, live := if accepted && s.claims != [] then s.live + {|s.claims| - 1} else s.live)
  }

  /** `requeueInterrupted`: the plan is due at the time of the request, whatever reset it is now for. */
  function ApplyRequeue(s: System, k: nat): System {
    var due := if k < |s.claims| then s.claims[k].due else ZERO;
    s.(mem := s.mem.(at := due), live := s.live - {k}, claims := SetAgain(s.claims, Requeued(k)))
  }

  function Apply(kind: Kind, s: System, a: Action): System
    requires Enabled(s, a)
  {
    match a
    case Tick(to) => s.(clock := to)
    case Observe(o) => s.(mem := Updated(kind, s.mem, o))
    case Claim(_, _, due) =>
      s.(mem := Claimed(s.mem), pc := Claiming(s.mem), claims := s.claims + [ClaimRecord(s.mem.reset, due, NotAgain)])
    case BeginWrite(mine) =>
      s.(write := Some(Write(mine, s.mem)), pc := if mine then Persisting(s.pc.before) else s.pc)
    case EndWrite(ok, accepted) => ApplyEndWrite(s, ok, accepted)
    case RollBack => s.(mem := Restored(s.mem, s.pc.before), pc := Idle, claims := SetAgain(s.claims, RolledBack))
    case ClaimOther => s.(other := Some(s.mem))
    case OtherEnds(ok) => s.(mem := if ok then s.mem else Restored(s.mem, s.other.value), other := None)
    case Finish(k) => s.(live := s.live - {k})
    case Requeue(k) => ApplyRequeue(s, k)
    case Load => s.(mem := s.disk)
    case Crash =>
      s.(mem := s.disk, write := None, pc := Idle, other := None, live := {},
         claims := if s.pc.Idle? then s.claims else SetAgain(s.claims, LostBeforeWrite))
  }

  /** This copy knows the claim: a plan in it is for another reset. */
  predicate Knows(p: Plan, claims: seq<ClaimRecord>) {
    claims == [] || !claims[|claims| - 1].again.NotAgain?
    || (p.last == claims[|claims| - 1].reset && (p.at != ZERO ==> !SameResetPoint(p.reset, p.last)))
  }

  ghost predicate Apart(claims: seq<ClaimRecord>) {
    forall i, j :: 0 <= i && j == i + 1 && j < |claims| && claims[i].again.NotAgain? ==>
      !SameResetPoint(claims[j].reset, claims[i].reset)
  }

  /** Every reset that was planned is an instant. */
  predicate HasReset(p: Plan) {
    p.at != ZERO ==> p.reset > ZERO
  }

  /** What each copy knows of the claims. */
  predicate Remembered(s: System) {
    && Knows(s.mem, s.claims)
    && (s.pc.Idle? ==> Knows(s.disk, s.claims) && (s.write.Some? ==> Knows(s.write.value.copy, s.claims)))
    && (s.pc.Persisting? <==> s.write.Some? && s.write.value.mine)
    && (s.pc.Persisting? ==> Knows(s.write.value.copy, s.claims))
    && (!s.pc.Idle? ==> s.claims != [] && s.other.None? && s.pc.before.at != ZERO && s.mem.last == s.pc.before.reset)
    && (s.other.Some? ==> Knows(s.other.value, s.claims) && s.mem.last == s.other.value.last)
  }

  ghost predicate Dated(s: System) {
    && HasReset(s.mem) && HasReset(s.disk) && (s.write.Some? ==> HasReset(s.write.value.copy))
    && ((exists k :: k in s.live) || !s.pc.Idle? ==> s.mem.reset > ZERO)
    && (s.other.Some? ==> HasReset(s.other.value) && (s.other.value.reset > ZERO ==> s.mem.reset > ZERO))
  }

  /** Requests belong to claims, and a claim is undone only by a request of its own or an older one. */
  ghost predicate Recorded(s: System) {
    && (forall k :: k in s.live ==> k < |s.claims|)
    && (forall i :: 0 <= i < |s.claims| ==>
          && s.claims[i].reset > ZERO && s.claims[i].due > ZERO
          && (s.claims[i].again.Requeued? ==> s.claims[i].again.request <= i))
  }

  ghost predicate Inv(s: System) {
    Apart(s.claims) && Recorded(s) && Remembered(s) && Dated(s)
  }

  lemma ClaimKeepsApart(claims: seq<ClaimRecord>, next: ClaimRecord)
    requires Apart(claims) && next.again.NotAgain?
    requires claims != [] && claims[|claims| - 1].again.NotAgain? ==>
               !SameResetPoint(next.reset, claims[|claims| - 1].reset)
    ensures Apart(claims + [next])
  {
    var all := claims + [next];
    forall i, j | 0 <= i && j == i + 1 && j < |all| && all[i].again.NotAgain?
      ensures !SameResetPoint(all[j].reset, all[i].reset)
    {
      assert all[i] == claims[i] && (j < |claims| ==> all[j] == claims[j]);
    }
  }

  lemma AgainKeepsApart(claims: seq<ClaimRecord>, again: Again)
    requires Apart(claims) && !again.NotAgain?
    ensures Apart(SetAgain(claims, again)) && forall p :: Knows(p, SetAgain(claims, again))
  {
  }

  lemma ClaimStep(kind: Kind, s: System, a: Action)
    requires Inv(s) && Enabled(s, a) && a.Claim?
    ensures Inv(Apply(kind, s, a))
  {
    hide Apart;
    var next := ClaimRecord(s.mem.reset, a.due, NotAgain);
    ClaimKeepsApart(s.claims, next);
    assert (s.claims + [next])[|s.claims|] == next;
  }

  lemma StepKeepsInv(kind: Kind, s: System, a: Action)
    requires Inv(s) && Enabled(s, a)
    ensures Inv(Apply(kind, s, a))
  {
    hide Apart;
    match a
    case Claim(_, _, _) => ClaimStep(kind, s, a);
    case RollBack => AgainKeepsApart(s.claims, RolledBack);
    case Requeue(k) => AgainKeepsApart(s.claims, Requeued(k));
    case Crash => AgainKeepsApart(s.claims, LostBeforeWrite);
    case _ =>
  }

  /** No claim yet; a plan, if there is one, is for a known reset. */
  ghost predicate Initial(s: System) {
    && s.claims == [] && s.mem == s.disk && HasReset(s.mem) && s.write.None? && s.pc.Idle? && s.other.None?
    && s.live == {} && ZERO < s.clock
  }

  ghost predicate IsRun(kind: Kind, states: seq<System>, actions: seq<Action>) {
    && |states| == |actions| + 1 && Initial(states[0])
    && forall i :: 0 <= i < |actions| ==>
         Enabled(states[i], actions[i]) && states[i + 1] == Apply(kind, states[i], actions[i])
  }

  lemma {:induction false} RunInv(kind: Kind, states: seq<System>, actions: seq<Action>, i: nat)
    requires IsRun(kind, states, actions) && i < |states|
    ensures Inv(states[i])
  {
    hide Enabled, Apply;
    if i > 0 {
      hide Inv;
      RunInv(kind, states, actions, i - 1);
      StepKeepsInv(kind, states[i - 1], actions[i - 1]);
      assert states[i] == Apply(kind, states[i - 1], actions[i - 1]);
    }
  }

  /** Two consecutive claims of one account and kind are for resets more than a minute apart, unless,
      between the two, the first was rolled back or lost before it was written, or an interruption put
      back its request or that of an older claim. */
  lemma ConsecutiveClaimsDiffer(kind: Kind, states: seq<System>, actions: seq<Action>, n: nat, i: nat)
    requires IsRun(kind, states, actions) && n < |states| && i + 1 < |states[n].claims|
    ensures var claims := states[n].claims;
            && (claims[i].again.NotAgain? ==>
                  claims[i + 1].reset - claims[i].reset > MINUTE || claims[i].reset - claims[i + 1].reset > MINUTE)
            && (claims[i].again.Requeued? ==> claims[i].again.request <= i)
  {
    hide Enabled, Apply, Remembered, Dated;
    RunInv(kind, states, actions, n);
    var j, claims := i + 1, states[n].claims;
    assert claims[i].again.NotAgain? ==> !SameResetPoint(claims[j].reset, claims[i].reset);
  }

  /** Right after an observation, the plan is empty or lies after it, in every run. */
  lemma ObservedPlanIsAhead(kind: Kind, states: seq<System>, actions: seq<Action>, i: nat)
    requires IsRun(kind, states, actions) && i < |actions| && actions[i].Observe?
    ensures var t := states[i + 1].mem;
            t.at == ZERO || (actions[i].o.checkedAt < t.at && !SameResetPoint(t.reset, t.last))
  {
    assert Enabled(states[i], actions[i]) && states[i + 1] == Apply(kind, states[i], actions[i]);
    UpdatedPlanIsAhead(kind, states[i].mem, actions[i].o);
  }

  // ----- when a reset is planned again -----

  /** A plan is set for the reset that was claimed last. */
  predicate Repeats(p: Plan) {
    p.at != ZERO && SameResetPoint(p.reset, p.last)
  }

  /** Putting a request back plans the latest claimed reset again if and only if no other reset has been
      seen since; in particular a newer plan keeps it from doing so. */
  lemma RequeueRepeats(kind: Kind, states: seq<System>, actions: seq<Action>, n: nat, k: nat)
    requires IsRun(kind, states, actions) && n < |states| && k in states[n].live && states[n].claims != []
    requires states[n].claims[|states[n].claims| - 1].again.NotAgain?
    ensures var s, t := states[n], Apply(kind, states[n], Requeue(k)).mem;
            && t.at != ZERO && t.last == s.claims[|s.claims| - 1].reset
            && (Repeats(t) <==> SameResetPoint(s.mem.reset, s.claims[|s.claims| - 1].reset))
            && (s.mem.at != ZERO ==> !Repeats(t))
  {
    hide Apart;
    RunInv(kind, states, actions, n);
  }

  /** Rolling a claim back plans the reset claimed before it if and only if that reset was observed
      again during the failed write. */
  lemma RollBackRepeats(kind: Kind, states: seq<System>, actions: seq<Action>, n: nat)
    requires IsRun(kind, states, actions) && n < |states| && states[n].pc.Unsaved?
    ensures var s, t := states[n], Apply(kind, states[n], RollBack).mem;
            && t.at == s.pc.before.at != ZERO && t.last == s.pc.before.last
            && (Repeats(t) <==> SameResetPoint(s.mem.reset, s.pc.before.last))
  {
    hide Apart;
    RunInv(kind, states, actions, n);
  }

  /** Rolling back a claim of another kind erases a plan of this kind if and only if that plan was made
      during the failed write, on an empty one for the reset claimed last. */
  lemma OtherRollbackErases(kind: Kind, states: seq<System>, actions: seq<Action>, n: nat)
    requires IsRun(kind, states, actions) && n < |states| && states[n].other.Some? && states[n].mem.at != ZERO
    ensures var before := states[n].other.value;
            Apply(kind, states[n], OtherEnds(false)).mem.at == ZERO <==>
                before.at == ZERO && before.reset == before.last
  {
    hide Apart;
    RunInv(kind, states, actions, n);
  }

  // ----- runs in which that happens -----

  /** Some run ends in this state, and in it every observation was saved at the moment it was taken. */
  ghost predicate Reachable(kind: Kind, s: System) {
    exists states, actions :: IsFreshRun(kind, states, actions) && states[|actions|] == s
  }

  ghost predicate IsFreshRun(kind: Kind, states: seq<System>, actions: seq<Action>) {
    && IsRun(kind, states, actions)
    && forall i :: 0 <= i < |actions| && actions[i].Observe? ==> actions[i].o.checkedAt == states[i].clock
  }

  lemma Reach(kind: Kind, s: System, a: Action) returns (t: System)
    requires Reachable(kind, s) && Enabled(s, a) && (a.Observe? ==> a.o.checkedAt == s.clock)
    ensures t == Apply(kind, s, a) && Reachable(kind, t)
  {
    hide Initial, Enabled, Apply;
    t := Apply(kind, s, a);
    var states, actions :| IsFreshRun(kind, states, actions) && states[|actions|] == s;
    var longer, more := states + [t], actions + [a];
    forall i | 0 <= i < |more|
      ensures Enabled(longer[i], more[i]) && longer[i + 1] == Apply(kind, longer[i], more[i])
    {
      assert i < |actions| ==> Enabled(states[i], actions[i]) && states[i + 1] == Apply(kind, states[i], actions[i]);
    }
    assert longer[0] == states[0];
    assert IsFreshRun(kind, longer, more);
  }

  /** A time of the first day, for a zone without offset. */
  function At(hour: nat, minute: nat): Time {
    DAY + hour * HOUR + minute * MINUTE
  }

  function Seen(checkedAt: Time, resetAt: Time): Observation {
    Observation(checkedAt, Window(FIVE_HOUR_MINUTES, 1.0, resetAt), Window(0, 0.0, ZERO), true)
  }

  const NO_PLAN := Plan(ZERO, ZERO, ZERO)

  function Start(clock: Time): System {
    System(NO_PLAN, NO_PLAN, None, Idle, None, {}, clock, [])
  }

  lemma StartIsReachable(kind: Kind, clock: Time)
    requires ZERO < clock
    ensures Reachable(kind, Start(clock))
  {
    assert IsFreshRun(kind, [Start(clock)], []);
  }

  /** The plan is claimed, written and dispatched. */
  lemma ClaimAndDispatch(kind: Kind, s: System, now: Time, accepted: bool) returns (t: System)
    requires Reachable(kind, s) && s.pc.Idle? && s.other.None? && s.write.None?
    requires s.clock <= now && InFollowupHours(0, now) && PlanDue(0, s.mem.at, now) && ZERO < s.mem.at
    ensures Reachable(kind, t)
    ensures t == s.(mem := Claimed(s.mem), disk := Claimed(s.mem), clock := now,
                    live := if accepted then s.live + {|s.claims|} else s.live,
                    claims := s.claims + [ClaimRecord(s.mem.reset, s.mem.at, NotAgain)])
  {
    hide Reachable, InFollowupHours, PlanDue;
    t := Reach(kind, s, Tick(now));
    t := Reach(kind, t, Claim(0, now, s.mem.at));
    t := Reach(kind, t, BeginWrite(true));
    t := Reach(kind, t, EndWrite(true, accepted));
  }

  /** An interruption puts the only live request back; then the file is written and read again. */
  lemma PutBackAndReload(kind: Kind, s: System, k: nat) returns (t: System)
    requires Reachable(kind, s) && s.pc.Idle? && s.other.None? && s.write.None? && s.live == {k}
    ensures Reachable(kind, t)
    ensures var put := ApplyRequeue(s, k); t == put.(disk := put.mem)
  {
    hide Reachable;
    t := Reach(kind, s, Requeue(k));
    t := Reach(kind, t, BeginWrite(false));
    t := Reach(kind, t, EndWrite(true, false));
    t := Reach(kind, t, Load);
  }

  /** The request for the reset at 7:00 is still queued when the one at 12:00 is planned and claimed; the
      second request is dropped as a duplicate.  An interruption then puts the first one back, and after
      the reload the reset at 12:00, whose claim nobody put back, is claimed again. */
  lemma OlderRequestRepeatsClaim() returns (s: System)
    ensures Reachable(FiveHour, s)
    ensures s.claims == [ClaimRecord(At(7, 0), At(7, 0) + FOLLOWUP_DELAY, NotAgain),
                         ClaimRecord(At(12, 0), At(12, 0) + FOLLOWUP_DELAY, Requeued(0)),
                         ClaimRecord(At(12, 0), At(7, 0) + FOLLOWUP_DELAY, NotAgain)]
  {
    hide Reachable;
    s := TwoResets();
    s := ClaimAndDispatch(FiveHour, s, At(12, 2), false);
    s := PutBackAndReload(FiveHour, s, 0);
    s := ClaimAndDispatch(FiveHour, s, At(12, 3), true);
  }

  /** The reset at 7:00 has been claimed and its request is live; the one at 12:00 is planned. */
  lemma TwoResets() returns (s: System)
    ensures Reachable(FiveHour, s)
    ensures s == System(Plan(At(12, 0) + FOLLOWUP_DELAY, At(12, 0), At(7, 0)), Plan(ZERO, At(7, 0), At(7, 0)), None,
              Idle,
                        None, {0}, At(7, 2), [ClaimRecord(At(7, 0), At(7, 0) + FOLLOWUP_DELAY, NotAgain)])
  {
    hide Reachable;
    StartIsReachable(FiveHour, At(6, 50));
    s := Reach(FiveHour, Start(At(6, 50)), Observe(Seen(At(6, 50), At(7, 0))));
    s := ClaimAndDispatch(FiveHour, s, At(7, 2), true);
    s := Reach(FiveHour, s, Observe(Seen(At(7, 2), At(12, 0))));
  }

  /** The reset at 12:00 is claimed early, because an interruption put the request for 7:00 back after the
      plan had moved on.  Later another reset is claimed, and while that claim is being written the reset
      at 12:00 is observed again.  The write fails, and the rollback leaves a plan for 12:00, which is
      claimed a second time. */
  lemma RolledBackClaimRepeats() returns (s: System)
    ensures Reachable(FiveHour, s)
    ensures |s.claims| == 4
    ensures s.claims[1] == ClaimRecord(At(12, 0), At(7, 0) + FOLLOWUP_DELAY, NotAgain)
    ensures s.claims[2] == ClaimRecord(At(7, 10), At(7, 10) + FOLLOWUP_DELAY, RolledBack)
    ensures s.claims[3] == ClaimRecord(At(12, 0), At(7, 10) + FOLLOWUP_DELAY, NotAgain)
  {
    hide Reachable;
    s := TwoResets();
    s := PutBackAndReload(FiveHour, s, 0);
    s := ClaimAndDispatch(FiveHour, s, At(7, 3), true);
    s := Reach(FiveHour, s, Observe(Seen(At(7, 3), At(7, 10))));
    s := ClaimRolledBack(s, At(7, 12), Seen(At(7, 12), At(12, 0)));
    s := ClaimAndDispatch(FiveHour, s, At(7, 13), true);
  }

  /** A claim whose write fails while an observation is saved. */
  lemma ClaimRolledBack(s: System, now: Time, o: Observation) returns (t: System)
    requires Reachable(FiveHour, s) && s.pc.Idle? && s.other.None? && s.write.None?
    requires s.clock <= now && InFollowupHours(0, now) && PlanDue(0, s.mem.at, now) && ZERO < s.mem.at
    requires o.checkedAt == now > ZERO
    ensures Reachable(FiveHour, t)
    ensures t == s.(mem := Restored(Updated(FiveHour, Claimed(s.mem), o), s.mem), clock := now,
                    claims := s.claims + [ClaimRecord(s.mem.reset, s.mem.at, RolledBack)])
  {
    hide Reachable, InFollowupHours, PlanDue, Updated;
    t := Reach(FiveHour, s, Tick(now));
    t := Reach(FiveHour, t, Claim(0, now, s.mem.at));
    t := Reach(FiveHour, t, BeginWrite(true));
    t := Reach(FiveHour, t, Observe(o));
    t := Reach(FiveHour, t, EndWrite(false, false));
    t := Reach(FiveHour, t, RollBack);
  }

  /** The first plan of a kind, made while the claim of another kind is being written, is erased when that
      write fails. */
  lemma FirstPlanIsErased() returns (before: System, after: System)
    ensures Reachable(FiveHour, before) && before.mem.at == At(7, 0) + FOLLOWUP_DELAY
    ensures Enabled(before, OtherEnds(false)) && after == Apply(FiveHour, before, OtherEnds(false))
    ensures Reachable(FiveHour, after) && after.mem.at == ZERO
  {
    hide Reachable;
    StartIsReachable(FiveHour, At(6, 50));
    before := Reach(FiveHour, Start(At(6, 50)), ClaimOther);
    before := Reach(FiveHour, before, Observe(Seen(At(6, 50), At(7, 0))));
    after := Reach(FiveHour, before, OtherEnds(false));
  }
}
