/** What the run protocol guarantees in every reachable state, over all interleavings of the
    scheduler, the runner, the planners and `quiesce`, with failing writes and crashes. */
module RunSafety {
  import opened Clock
  import opened Options
  import opened RunProtocol
  import opened RunInvariants
  import opened RunSteps

  /** A process that has just read its state file and not opened the gate yet. */
  ghost predicate Initial(s: System) {
    && s.mem.closed && !s.mem.running && s.mem.current == None && s.mem.pending == [] && s.mem.slots == s.disk
    && s.write.None? && s.sched.SIdle? && s.runners == [] && s.life.LDrained? && s.planners == map[]
    && s.closedStops == {s.mem.stop} && s.finished == [] && s.lost == Unfinished(s) && s.plans == map[]
    && s.accepted == [] && s.launched == [] && s.setAside == []
    && s.clean && s.tainted == (s.lost != {})
  }

  /** An execution.  `WriteConsistent` only makes `Apply` defined; the invariant implies it. */
  ghost predicate IsRun(run: seq<System>, actions: seq<Action>) {
    && |run| == |actions| + 1 && Initial(run[0])
    && forall i :: 0 <= i < |actions| ==>
         WriteConsistent(run[i]) && Enabled(run[i], actions[i]) && run[i + 1] == Apply(run[i], actions[i])
  }

  lemma InitialInv(s: System)
    requires Initial(s)
    ensures Inv(s)
  {
    assert Control(s) by {
      hide Data;
    }
    InitialData(s);
  }

  lemma InitialData(s: System)
    requires Initial(s)
    ensures Data(s)
  {
    hide Control, Gate, Queue;
    forall key
      ensures Owners(s, key) == (if key in s.lost then 1 else 0)
    {
    }
  }

  lemma {:induction false} RunInv(run: seq<System>, actions: seq<Action>, i: nat)
    requires IsRun(run, actions) && i < |run|
    ensures Inv(run[i])
  {
    if i == 0 {
      InitialInv(run[0]);
    } else {
      RunInv(run, actions, i - 1);
      StepKeepsInv(run[i - 1], actions[i - 1]);
    }
  }

  /** Slot conservation: a claimed slot has exactly one owner among the scheduler, the running
      request, the queue, the list set aside by `quiesce`, the finished runs and the claims given up
      when memory was replaced; no slot ever has two. */
  lemma SlotConservation(run: seq<System>, actions: seq<Action>, i: nat, key: SlotKey)
    requires IsRun(run, actions) && i < |run|
    ensures Owners(run[i], key) <= 1
    ensures Started(run[i].mem.slots, key) ==> Owners(run[i], key) == 1
  {
    RunInv(run, actions, i);
  }

  /** No slot is run to its end twice, and a finished slot is never claimed again, although the slot
      table forgets it after 48 hours and only the file survives a crash. */
  lemma FinishedOnce(run: seq<System>, actions: seq<Action>, i: nat, key: SlotKey)
    requires IsRun(run, actions) && i < |run|
    ensures ListCount(run[i].finished, key) <= 1
    ensures ListCount(run[i].finished, key) == 1 && i < |actions| && actions[i].Claim? ==>
              key !in DueKeys(actions[i].cfg, run[i].mem.slots, actions[i].now)
  {
    RunInv(run, actions, i);
    assert Owners(run[i], key) <= 1;
    if ListCount(run[i].finished, key) == 1 && i < |actions| && actions[i].Claim? && key in run[i].mem.slots {
      OwnedIsNotDue(run[i], actions[i].cfg, key, actions[i].now);
    }
  }

  /** When `quiesce` has returned and every write since the last load succeeded, each slot that is
      claimed on disk belongs to a finished run, apart from slots past their 48 hours and claims
      given up at an earlier load.  Without any failed write or crash, nothing was ever given up. */
  lemma QuiesceReleasesClaims(run: seq<System>, actions: seq<Action>, i: nat, key: SlotKey)
    requires IsRun(run, actions) && i < |run|
    requires run[i].life.LDrained? && run[i].clean && Started(run[i].disk, key)
    ensures Expired(key, run[i].clock) || ListCount(run[i].finished, key) == 1 || key in run[i].lost
    ensures !run[i].tainted ==> Expired(key, run[i].clock) || ListCount(run[i].finished, key) == 1
  {
    RunInv(run, actions, i);
    ReopenLost(run[i]);
  }

  /** Before a request leaves the scheduler its claim is on disk, and it stays there until the
      request is put back: so a crash never makes a dispatched slot claimable. */
  lemma DispatchedClaimsAreDurable(run: seq<System>, actions: seq<Action>, i: nat, key: SlotKey)
    requires IsRun(run, actions) && i < |run|
    requires Committed(run[i], key) > 0
    ensures Settled(run[i].disk, key, run[i].clock)
    ensures Settled(ApplyCrash(run[i]).mem.slots, key, run[i].clock)
  {
    RunInv(run, actions, i);
  }

  /** At most one run executes, and only the accepted requests run, in the order of acceptance. */
  lemma SingleRunner(run: seq<System>, actions: seq<Action>, i: nat)
    requires IsRun(run, actions) && i < |run|
    ensures |run[i].runners| <= 1
    ensures run[i].runners == [] || run[i].mem.closed ==> run[i].mem.pending == []
    ensures run[i].launched <= run[i].accepted
    ensures !run[i].mem.closed ==> run[i].accepted == run[i].launched + run[i].mem.pending
  {
    hide Data, Gate, Mutex, Untainted, Initial, Enabled, Apply;
    RunInv(run, actions, i);
    var s := run[i];
    assert s.launched + s.mem.pending + s.setAside == s.launched + (s.mem.pending + s.setAside);
    if !s.mem.closed {
      assert s.accepted == s.launched + s.mem.pending + [];
    }
  }

  /** No two live requests agree in trigger, job, account and slot. */
  lemma LiveRequestsDiffer(run: seq<System>, actions: seq<Action>, i: nat, a: nat, b: nat)
    requires IsRun(run, actions) && i < |run|
    requires var live := (if run[i].mem.current.Some? then [run[i].mem.current.value] else []) + run[i].mem.pending;
             a < b < |live|
    ensures var live := (if run[i].mem.current.Some? then [run[i].mem.current.value] else []) + run[i].mem.pending;
            !SameIdentity(live[a], live[b])
  {
    RunInv(run, actions, i);
    assert Queue(run[i].mem, run[i].runners);
  }

  /** A run reports "interrupted" only while the gate is closed. */
  lemma InterruptedOnlyWhileClosed(run: seq<System>, actions: seq<Action>, i: nat)
    requires IsRun(run, actions) && i < |actions| && actions[i].Interrupt?
    ensures run[i].mem.closed
  {
    RunInv(run, actions, i);
    var s := run[i];
    assert s.runners[actions[i].index].stop == s.mem.stop;
  }

  predicate StartsNothing(s: System, t: System) {
    t.mem.closed && t.runners == [] && t.launched == s.launched
  }

  lemma SchedulerStartsNothing(s: System, a: Action)
    requires Inv(s) && Enabled(s, a) && s.mem.closed && s.runners == []
    requires a.RollBack? || a.Dispatch? || a.StartManual?
    ensures StartsNothing(s, Apply(s, a))
  {
    if a.Dispatch? && s.sched.reqs != [] {
      assert StartOutcome(s.mem, s.sched.reqs[0]).Rejected?;
    } else if a.StartManual? {
      assert StartOutcome(s.mem, a.request).Rejected?;
    }
  }

  lemma UnclaimStartsNothing(s: System, owner: Owner)
    requires AtPhase(s, owner, NeedUnclaim) && s.mem.closed && s.runners == []
    ensures StartsNothing(s, ApplyUnclaim(s, owner))
  {
  }

  lemma BeginStartsNothing(s: System, owner: Owner)
    requires WantsFile(s, owner) && s.mem.closed && s.runners == []
    ensures StartsNothing(s, ApplyBeginWrite(s, owner))
  {
  }

  lemma EndStartsNothing(s: System, ok: bool)
    requires s.write.Some? && WriteConsistent(s) && s.mem.closed && s.runners == []
    ensures StartsNothing(s, ApplyEndWrite(s, ok))
  {
  }

  /** Once `quiesce` has drained the runtime, nothing runs or starts until memory is reloaded. */
  lemma NothingStartsAfterQuiesce(s: System, a: Action)
    requires Inv(s) && Enabled(s, a) && s.mem.closed && s.runners == [] && !a.Reopen?
    ensures var t := Apply(s, a);
            t.mem.closed && t.runners == [] && (a.Crash? || t.launched == s.launched)
  {
    hide Data;
    if a.RollBack? || a.Dispatch? || a.StartManual? {
      SchedulerStartsNothing(s, a);
    } else if a.Unclaim? {
      UnclaimStartsNothing(s, a.owner);
    } else if a.BeginWrite? {
      BeginStartsNothing(s, a.owner);
    } else if a.EndWrite? {
      EndStartsNothing(s, a.ok);
    }
  }

  /** ... over any stretch of a run without a reload. */
  lemma {:induction false} NothingRunsUntilReload(run: seq<System>, actions: seq<Action>, i: nat, j: nat)
    requires IsRun(run, actions) && i <= j < |run| && run[i].mem.closed && run[i].runners == []
    requires forall k :: i <= k < j ==> !actions[k].Reopen?
    ensures run[j].mem.closed && run[j].runners == []
    ensures (forall k :: i <= k < j ==> !actions[k].Crash?) ==> run[j].launched == run[i].launched
  {
    if i < j {
      NothingRunsUntilReload(run, actions, i, j - 1);
      RunInv(run, actions, j - 1);
      hide Inv, Enabled, Apply, Initial;
      NothingStartsAfterQuiesce(run[j - 1], actions[j - 1]);
      assert run[j] == Apply(run[j - 1], actions[j - 1]);
    }
  }

  /** A plan whose own write succeeded keeps its planned time and its jitter in memory and on disk,
      whatever re-planning, reloading and crashing follows, until the slot expires. */
  lemma PersistedPlanIsKept(run: seq<System>, actions: seq<Action>, i: nat, key: SlotKey)
    requires IsRun(run, actions) && i < |run| && key in run[i].plans
    ensures KeepsPlan(run[i].mem.slots, key, run[i].plans[key], run[i].clock)
    ensures KeepsPlan(run[i].disk, key, run[i].plans[key], run[i].clock)
  {
    RunInv(run, actions, i);
  }

  /** The recorded plan itself does not change while the slot is unexpired. */
  lemma PersistedPlanIsFixed(s: System, ok: bool, key: SlotKey)
    requires Inv(s) && s.write.Some? && key in s.plans && !Expired(key, s.clock)
    ensures key in ApplyEndWrite(s, ok).plans && ApplyEndWrite(s, ok).plans[key] == s.plans[key]
  {
    if s.write.value.owner.ByPlanner? {
      var id := s.write.value.owner.id;
      assert id in s.planners;
      assert s.planners[id].key in s.plans ==> Expired(s.planners[id].key, s.clock);
    }
  }

  predicate PlansStay(s: System, t: System) {
    t.plans == s.plans && s.clock <= t.clock
  }

  lemma UnclaimKeepsPlans(s: System, owner: Owner)
    requires Requeueing(s, owner)
    ensures PlansStay(s, ApplyUnclaim(s, owner))
  {
  }

  lemma BeginKeepsPlans(s: System, owner: Owner)
    requires WantsFile(s, owner)
    ensures PlansStay(s, ApplyBeginWrite(s, owner))
  {
  }

  lemma EndKeepsClock(s: System, ok: bool)
    requires s.write.Some? && WriteConsistent(s)
    ensures ApplyEndWrite(s, ok).clock == s.clock
  {
    match s.write.value.owner
    case BySched =>
    case ByPlanner(_) =>
    case _ =>
  }

  lemma DispatchKeepsPlans(s: System)
    requires s.sched.SDispatching?
    ensures PlansStay(s, ApplyDispatch(s))
  {
    hide StartOutcome, Record;
    if s.sched.reqs != [] {
      RecordKeepsPlans(s, s.sched.reqs[0], StartOutcome(s.mem, s.sched.reqs[0]));
    }
  }

  lemma RecordKeepsPlans(s: System, request: Request, outcome: Outcome)
    ensures PlansStay(s, Record(s, request, outcome))
  {
    hide Accept;
  }

  /** Only a planner's own write records a plan. */
  lemma OnlyPlannersRecordPlans(s: System, a: Action)
    requires Enabled(s, a) && WriteConsistent(s)
    ensures s.clock <= Apply(s, a).clock
    ensures !a.EndWrite? ==> Apply(s, a).plans == s.plans
  {
    hide ApplyUnclaim, ApplyBeginWrite, ApplyEndWrite, ApplyDispatch;
    match a
    case Unclaim(owner) => UnclaimKeepsPlans(s, owner);
    case BeginWrite(owner) => BeginKeepsPlans(s, owner);
    case EndWrite(ok) => EndKeepsClock(s, ok);
    case Dispatch => DispatchKeepsPlans(s);
    case _ => OtherActionsKeepPlans(s, a);
  }

  lemma OtherActionsKeepPlans(s: System, a: Action)
    requires Enabled(s, a) && WriteConsistent(s)
    requires !a.Unclaim? && !a.BeginWrite? && !a.EndWrite? && !a.Dispatch?
    ensures PlansStay(s, Apply(s, a))
  {
    hide ApplyUnclaim, ApplyBeginWrite, ApplyEndWrite, ApplyDispatch, WriteConsistent, DueKeys, ClaimAll, SlotRequests,
      RestoreClaims, PlanSlot, UnplanSlot, Unfinished, StartOutcome, Accept, FinishRun, CloseGate, Reload;
    if a.Next? || a.StartManual? || a.Finish? || a.Interrupt? || a.ReadStop? {
      hide ApplyClaim, ApplyRollBack, ApplyCrash, ApplyClose, ApplyRequeueSaved, ApplyReopen, ApplyPlan, ApplyUnplan;
    } else {
      hide ApplyNext, Submit, ApplyFinish, ApplyInterrupt, ApplyReadStop;
    }
  }

  /** So there is one planned time and one jitter for the slot from its first durable plan until it
      expires, however often it is planned again, reloaded or recovered after a crash. */
  lemma {:induction false} PlanIsFixedUntilExpiry(run: seq<System>, actions: seq<Action>, i: nat, j: nat, key: SlotKey)
    requires IsRun(run, actions) && i <= j < |run|
    requires key in run[i].plans && !Expired(key, run[j].clock)
    ensures run[i].clock <= run[j].clock
    ensures key in run[j].plans && run[j].plans[key] == run[i].plans[key]
    ensures key in run[j].mem.slots && SamePlan(run[j].mem.slots[key], run[i].plans[key])
    ensures key in run[j].disk && SamePlan(run[j].disk[key], run[i].plans[key])
  {
    hide Inv, Enabled, Apply, Initial, WriteConsistent;
    if i < j {
      var s, a := run[j - 1], actions[j - 1];
      assert run[j] == Apply(s, a);
      OnlyPlannersRecordPlans(s, a);
      PlanIsFixedUntilExpiry(run, actions, i, j - 1, key);
      RunInv(run, actions, j - 1);
      if a.EndWrite? {
        EndWriteKeepsPlan(s, a, key);
      }
    }
    PersistedPlanIsKept(run, actions, j, key);
  }

  lemma EndWriteKeepsPlan(s: System, a: Action, key: SlotKey)
    requires Inv(s) && WriteConsistent(s) && Enabled(s, a) && a.EndWrite? && key in s.plans && !Expired(key, s.clock)
    ensures key in Apply(s, a).plans && Apply(s, a).plans[key] == s.plans[key]
  {
    hide Inv, ApplyEndWrite;
    PersistedPlanIsFixed(s, a.ok, key);
  }

  // ----- what has to happen -----

  /** A tick that claims starts every slot that is in time, and no other: each gets exactly one request. */
  lemma SlotsInTimeAreClaimed(run: seq<System>, actions: seq<Action>, i: nat, key: SlotKey)
    requires IsRun(run, actions) && i < |actions| && actions[i].Claim? && key in run[i].mem.slots
    ensures run[i + 1].sched.SClaimed? && key in run[i + 1].mem.slots
    ensures var slot, next := run[i].mem.slots[key], run[i + 1];
            if Claimable(actions[i].cfg, key, slot, actions[i].now)
            then next.mem.slots[key] == slot.(startedAt := actions[i].now)
                 && RequestFor(actions[i].cfg, key) in next.sched.reqs && ListCount(next.sched.reqs, key) == 1
            else next.mem.slots[key] == slot && ListCount(next.sched.reqs, key) == 0
  {
    hide Initial, Due, Claimable, RequestFor, SlotRequest;
    var s, a := run[i], actions[i];
    assert Enabled(s, a) && run[i + 1] == Apply(s, a);
    var slots := SlotRequests(a.cfg, a.order);
    DueIsClaimable(a.cfg, key, s.mem.slots[key], a.now);
    ClaimIsExact(a.cfg, s.mem.slots, a.now, a.order);
    ListCountAppend(slots, a.followups, key);
    ListCountSlots(a.cfg, a.order, key);
    ListCountNoSlots(a.followups, key);
    assert key in a.order <==> key in DueKeys(a.cfg, s.mem.slots, a.now);
  }

  /** While the gate is open the request of a claimed slot is never refused or dropped when it is
      dispatched: it runs at once, or it is the last in the queue. */
  lemma DispatchedSlotsAreAccepted(run: seq<System>, actions: seq<Action>, i: nat, key: SlotKey)
    requires IsRun(run, actions) && i < |actions| && actions[i].Dispatch? && !run[i].mem.closed
    requires run[i].sched.reqs != [] && run[i].sched.reqs[0].slot == Some(key)
    ensures var s, t, request := run[i], run[i + 1], run[i].sched.reqs[0];
            && t.sched == SDispatching(s.sched.reqs[1..]) && t.accepted == s.accepted + [request]
            && if s.mem.running then t.mem == s.mem.(pending := s.mem.pending + [request])
               else t.mem == s.mem.(running := true, current := Some(request))
                    && t.runners == s.runners + [Starting(request)]
  {
    RunInv(run, actions, i);
    var s := run[i];
    AcceptDispatched(s, key);
  }

  lemma AcceptDispatched(s: System, key: SlotKey)
    requires Inv(s) && s.sched.SDispatching? && !s.mem.closed
    requires s.sched.reqs != [] && s.sched.reqs[0].slot == Some(key)
    ensures var t, request := ApplyDispatch(s), s.sched.reqs[0];
            && t.sched == SDispatching(s.sched.reqs[1..]) && t.accepted == s.accepted + [request]
            && if s.mem.running then t.mem == s.mem.(pending := s.mem.pending + [request])
               else t.mem == s.mem.(running := true, current := Some(request))
                    && t.runners == s.runners + [Starting(request)]
  {
    hide Synced, Planned, OnDisk, Mutex, Order, Untainted, Queue, IsLive;
    assert Owners(s, key) <= 1;
    SlotRequestIsNotLive(s, s.sched.reqs[0], key);
  }

  /** Why the clock reading of a tick must not lag behind by more than `MAX_LAG`: a tick that lags
      by one nanosecond more finds a finished slot due, once the table has forgotten it and a
      planner has put it back. */
  lemma LaggingTickReclaims(cfg: Config, key: SlotKey, planned: Slot)
    requires cfg.jobs == map["quota-refresh" := true] && cfg.offset == 0
    requires key == SlotKey("quota-refresh", 10 * DAY + HOUR) && planned == Slot(key.base + 10 * SECOND, 10, ZERO)
    ensures var claimed := map[key := planned.(startedAt := key.base + MINUTE)];
            var now := key.base + CLAIM_AGE; // when the lagging tick read the clock
            var later := now + MAX_LAG + 1;
            var pruned := PruneSlots(claimed, later);
            && key !in DueKeys(cfg, claimed, now)
            && key !in pruned
            && key in DueKeys(cfg, pruned[key := planned], now)
  {
  }
}
