/** The inductive invariant of `RunProtocol.System`, one lemma per action.

    The quantified parts of the invariant are predicates on plain values (slot tables, multisets of
    keys), so that a step is a small fact about those values. */
module RunInvariants {
  import opened Clock
  import opened Options
  import opened RunProtocol

  // ----- facts about slot tables -----

  predicate Expired(key: SlotKey, clock: Time) {
    key.base < clock - MAX_SLOT_AGE
  }

  /** In this copy of the slot table the slot can no longer be claimed. */
  predicate Settled(slots: Slots, key: SlotKey, clock: Time) {
    Expired(key, clock) || Started(slots, key)
  }

  /** What the scheduler remembers of a claim whose write has not succeeded yet. */
  ghost predicate ClaimRecord(now: Time, previous: Slots, requests: seq<Request>, slots: Slots) {
    && now > ZERO
    && (forall key :: ListCount(requests, key) == if key in previous then 1 else 0)
    && (forall key :: key in previous ==> previous[key].startedAt == ZERO)
    && (forall key :: key in previous && Started(slots, key) ==> slots[key].startedAt == now)
  }

  predicate KeepsPlan(slots: Slots, key: SlotKey, plan: Slot, clock: Time) {
    Expired(key, clock) || (key in slots && SamePlan(slots[key], plan))
  }

  ghost predicate KeepsPlans(slots: Slots, plans: Slots, clock: Time) {
    forall key :: key in plans ==> KeepsPlan(slots, key, plans[key], clock)
  }

  ghost predicate PlansAgree(previous: Slots, plans: Slots, clock: Time) {
    forall key :: key in previous && key in plans ==> Expired(key, clock) || SamePlan(previous[key], plans[key])
  }

  ghost predicate PlannersAgree(planners: map<nat, Planner>, previous: Slots, clock: Time) {
    forall id :: id in planners && planners[id].key in previous ==>
      Expired(planners[id].key, clock) || SamePlan(previous[planners[id].key], planners[id].slot)
  }

  ghost predicate PlannersKeep(planners: map<nat, Planner>, slots: Slots, clock: Time) {
    forall id :: id in planners ==> KeepsPlan(slots, planners[id].key, planners[id].slot, clock)
  }

  ghost predicate PlannersWrote(planners: map<nat, Planner>, copy: Slots, clock: Time) {
    forall id :: id in planners && planners[id].state.PWriting? ==>
      KeepsPlan(copy, planners[id].key, planners[id].slot, clock)
  }

  ghost predicate PlannersDistinct(planners: map<nat, Planner>, plans: Slots, clock: Time) {
    && (forall id :: id in planners && planners[id].key in plans ==> Expired(planners[id].key, clock))
    && (forall a, b :: a in planners && b in planners && a != b && planners[a].key == planners[b].key ==>
          Expired(planners[a].key, clock))
  }

  // ----- the invariant -----

  /** One runner at most, and no two live requests alike. */
  ghost predicate Queue(m: Memory, runners: seq<RunPc>) {
    && |runners| == (if m.running then 1 else 0)
    && m.running == m.current.Some?
    && (m.running ==> runners[0].req == m.current.value)
    && (!m.running || m.closed ==> m.pending == [])
    && (forall i :: 0 <= i < |m.pending| ==> m.pending[i].trigger != Manual)
    && (forall i, j :: 0 <= i < j < |m.pending| ==> !SameIdentity(m.pending[i], m.pending[j]))
    && (m.running ==> forall i :: 0 <= i < |m.pending| ==> !SameIdentity(m.current.value, m.pending[i]))
  }

  /** First in, first out. */
  predicate Order(m: Memory, accepted: seq<Request>, launched: seq<Request>, setAside: seq<Request>) {
    && accepted == launched + m.pending + setAside
    && (m.closed || setAside == [])
  }

  /** A stop channel is closed exactly while the gate is, so only then is a run interrupted. */
  ghost predicate Gate(s: System) {
    && (s.mem.stop in s.closedStops <==> s.mem.closed)
    && (forall stop :: stop in s.closedStops ==> stop <= s.mem.stop)
    && (forall i :: 0 <= i < |s.runners| && s.runners[i].Executing? ==> s.runners[i].stop == s.mem.stop)
    && (forall i :: 0 <= i < |s.runners| && s.runners[i].RRequeue? ==> s.mem.closed)
    && (s.sched.SRequeue? || !s.life.LIdle? ==> s.mem.closed)
    && (Drained(s.life) ==> s.sched.SIdle? && s.runners == [] && s.planners == map[])
    && (Drained(s.life) && s.write.Some? ==> s.write.value.owner.ByLife?)
    && (s.sched.SFailed? ==> !s.clean)
    && (!s.sched.SIdle? ==>
          forall i :: 0 <= i < |s.sched.reqs| ==> s.sched.reqs[i].trigger != Manual && s.sched.reqs[i].generation == 0)
    && (forall i :: 0 <= i < |s.runners| && s.runners[i].Ending? && s.runners[i].req.slot.Some? ==>
          s.mem.closed || ListCount(s.finished, s.runners[i].req.slot.value) > 0)
  }

  predicate Claiming(sched: SchedPc) {
    sched.SClaimed? || sched.SWriting? || sched.SFailed?
  }

  /** Every claimed slot has exactly one owner, and an owned slot cannot be claimed. */
  ghost predicate Ownership(s: System) {
    && (forall key :: Owners(s, key) <= 1)
    && (forall key :: Started(s.mem.slots, key) ==> Owners(s, key) == 1)
    && (forall key :: Owners(s, key) > 0 ==> Settled(s.mem.slots, key, s.clock))
    && (Claiming(s.sched) ==> ClaimRecord(s.sched.now, s.sched.previous, s.sched.reqs, s.mem.slots))
  }

  /** The thread that is inside a write is the one that holds the file mutex. */
  ghost predicate Mutex(s: System) {
    && WriteConsistent(s)
    && (s.sched.SWriting? || AtPhase(s, BySched, InWrite) ==> HoldsMutex(s, BySched))
    && (forall i: nat :: i < |s.runners| && s.runners[i] == RRequeue(s.runners[i].req, InWrite) ==>
          HoldsMutex(s, ByRunner(i)))
    && (AtPhase(s, ByLife, InWrite) ==> HoldsMutex(s, ByLife))
    && (forall id :: id in s.planners && s.planners[id].state.PWriting? ==> HoldsMutex(s, ByPlanner(id)))
  }

  predicate HoldsMutex(s: System, owner: Owner) {
    s.write.Some? && s.write.value.owner == owner
  }

  /** The claim of every dispatched slot is on disk, and stays there. */
  ghost predicate OnDisk(s: System) {
    && (forall key :: Committed(s, key) > 0 ==> Settled(s.disk, key, s.clock))
    && (s.write.Some? ==>
          forall key :: Committed(s, key) > 0 ==> Settled(s.write.value.snapshot, key, s.clock))
    && (s.write.Some? && s.sched.SWriting? ==>
          forall key :: key in s.sched.previous ==> Settled(s.write.value.snapshot, key, s.clock))
  }

  /** `owner` has put the slot back in memory while the file still has to be written; with
      `waiting`, it has not even taken its copy. */
  function UnsyncedBy(s: System, owner: Owner, key: SlotKey, waiting: bool): nat {
    if Requeueing(s, owner) && (PhaseOf(s, owner).NeedLock? || (!waiting && PhaseOf(s, owner).InWrite?))
    then KeyCount(Requeued(s, owner), key)
    else 0
  }

  function Unsynced(s: System, key: SlotKey, waiting: bool): nat {
    UnsyncedBy(s, BySched, key, waiting) + UnsyncedBy(s, ByRunner(0), key, waiting)
        + UnsyncedBy(s, ByLife, key, waiting)
  }

  /** A claim found in this copy of the table is still in memory, or is being written away. */
  ghost predicate SyncedCopy(s: System, copy: Slots, waiting: bool) {
    forall key :: Started(copy, key) ==>
      Expired(key, s.clock) || Started(s.mem.slots, key) || Unsynced(s, key, waiting) > 0
  }

  /** While every write succeeds, a claim that is on disk but not in memory is about to leave it. */
  ghost predicate Synced(s: System) {
    s.clean ==> SyncedCopy(s, s.disk, false) && (s.write.Some? ==> SyncedCopy(s, s.write.value.snapshot, true))
  }

  /** A plan whose own write succeeded keeps its planned time and jitter everywhere. */
  ghost predicate Planned(s: System) {
    && KeepsPlans(s.mem.slots, s.plans, s.clock)
    && KeepsPlans(s.disk, s.plans, s.clock)
    && (s.write.Some? ==> KeepsPlans(s.write.value.snapshot, s.plans, s.clock))
    && (Claiming(s.sched) ==>
          && PlansAgree(s.sched.previous, s.plans, s.clock)
          && PlannersAgree(s.planners, s.sched.previous, s.clock))
    && PlannersKeep(s.planners, s.mem.slots, s.clock)
    && (s.write.Some? ==> PlannersWrote(s.planners, s.write.value.snapshot, s.clock))
    && PlannersDistinct(s.planners, s.plans, s.clock)
  }

  ghost predicate Untainted(s: System) {
    !s.tainted ==> s.clean && forall key :: key in s.lost ==> Expired(key, s.clock)
  }

  ghost predicate Control(s: System) {
    && Queue(s.mem, s.runners)
    && Order(s.mem, s.accepted, s.launched, s.setAside)
    && Gate(s) && Mutex(s) && Untainted(s)
  }

  ghost predicate Data(s: System) {
    Ownership(s) && OnDisk(s) && Synced(s) && Planned(s)
  }

  ghost predicate Inv(s: System) {
    Control(s) && Data(s)
  }

  ghost predicate SameCounts(s: System, t: System) {
    && (forall key :: Owners(t, key) == Owners(s, key))
    && (forall key :: Committed(t, key) == Committed(s, key))
    && (forall key, waiting :: Unsynced(t, key, waiting) == Unsynced(s, key, waiting))
  }

  predicate SameTables(s: System, t: System) {
    && t.mem.slots == s.mem.slots && t.disk == s.disk && t.write == s.write && t.clock == s.clock
    && t.planners == s.planners && t.plans == s.plans && t.clean == s.clean
  }

  /** A step that moves slots between owners, without touching any slot table, keeps `Data`. */
  lemma DataFrame(s: System, t: System)
    requires Data(s) && SameTables(s, t) && SameCounts(s, t)
    requires t.sched == s.sched || !Claiming(t.sched)
    ensures Data(t)
  {
  }
}
