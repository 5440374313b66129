/** Slots, the single-runner queue and the stop/reload protocol.

    `Memory` is what the runtime mutex guards; the functions on it are the critical sections of
    runtime.go and scheduler.go (class `Runtime` proves the imperative bodies equal to them).
    `System` adds the program counter of every thread, the state file with the write in flight, and
    the history the properties talk about. */
module RunProtocol {
  import opened Clock
  import opened Options

  const CLAIM_AGE: int := 4_200_000_000_000 // 70 minutes
  const MAX_SLOT_AGE: int := 172_800_000_000_000 // 48 hours
  const LATE_START: int := 120_000_000_000 // 2 minutes

  /** How far the clock reading of a tick may lie behind the clock when the tick claims. */
  const MAX_LAG: int := MAX_SLOT_AGE - CLAIM_AGE

  datatype SlotKey = SlotKey(job: string, base: Time)

  /** `startedAt` is `ZERO` until a tick claims the slot. */
  datatype Slot = Slot(plannedAt: Time, jitter: int, startedAt: Time)

  type Slots = map<SlotKey, Slot>

  datatype Trigger = Schedule | QuotaRefresh | ResetFollowup | Manual

  datatype Request = Request(generation: nat, trigger: Trigger, job: string, account: string, slot: Option<SlotKey>)

  /** The scheduled jobs; a job maps to true when it only refreshes quota. */
  datatype Config = Config(offset: int, jobs: map<string, bool>)

  datatype Memory = Memory(
    closed: bool,
    generation: nat,
    stop: nat, // identity of the current stop channel
    running: bool,
    current: Option<Request>,
    pending: seq<Request>,
    slots: Slots)

  // ----- critical sections -----

  predicate Started(slots: Slots, key: SlotKey) {
    key in slots && slots[key].startedAt != ZERO
  }

  predicate SamePlan(a: Slot, b: Slot) {
    a.plannedAt == b.plannedAt && a.jitter == b.jitter
  }

  predicate Due(cfg: Config, key: SlotKey, slot: Slot, now: Time) {
    && slot.startedAt == ZERO && slot.plannedAt <= now
    && SameLocalDate(cfg.offset, key.base, now) && now - key.base <= CLAIM_AGE
    && key.job in cfg.jobs
    && (cfg.jobs[key.job] || LocalHour(cfg.offset, key.base) != 23 || now <= key.base + LATE_START)
  }

  /** The slots that a tick at `now` has to claim: those of a configured job that are planned and unclaimed,
      on the local day of `now` and at most 70 minutes old; a prewarm slot of the last hour of the day only
      within two minutes. */
  predicate Claimable(cfg: Config, key: SlotKey, slot: Slot, now: Time) {
    var midnight := now - (now + cfg.offset) % DAY;
    var age := now - key.base;
    && key.job in cfg.jobs && slot.startedAt == ZERO && slot.plannedAt <= now
    && midnight <= key.base < midnight + DAY && age <= 70 * MINUTE
    && (cfg.jobs[key.job] || key.base < midnight + 23 * HOUR || age <= 2 * MINUTE)
  }

  /** The request of a claimed slot. */
  function RequestFor(cfg: Config, key: SlotKey): Request
    requires key.job in cfg.jobs
  {
    Request(generation := 0, trigger := if cfg.jobs[key.job] then QuotaRefresh else Schedule, job := key.job,
            account := "", slot := Some(key))
  }

  lemma DueIsClaimable(cfg: Config, key: SlotKey, slot: Slot, now: Time)
    ensures Due(cfg, key, slot, now) <==> Claimable(cfg, key, slot, now)
    ensures Due(cfg, key, slot, now) ==> key.job in cfg.jobs && SlotRequest(cfg, key) == RequestFor(cfg, key)
  {
    assert now + cfg.offset == LocalDay(cfg.offset, now) * DAY + TimeOfDay(cfg.offset, now);
    assert key.base + cfg.offset == LocalDay(cfg.offset, key.base) * DAY + TimeOfDay(cfg.offset, key.base);
    var midnight := now - TimeOfDay(cfg.offset, now);
    if midnight <= key.base < midnight + DAY {
      assert SameLocalDate(cfg.offset, key.base, now) by {
        assert -DAY < (LocalDay(cfg.offset, key.base) - LocalDay(cfg.offset, now)) * DAY < DAY;
      }
      assert key.base - midnight == TimeOfDay(cfg.offset, key.base);
    }
  }

  function DueKeys(cfg: Config, slots: Slots, now: Time): set<SlotKey> {
    set key | key in slots && Due(cfg, key, slots[key], now)
  }

  function ClaimAll(cfg: Config, slots: Slots, now: Time): Slots {
    map key | key in slots ::
      if Due(cfg, key, slots[key], now) then slots[key].(startedAt := now) else slots[key]
  }

  function SlotRequest(cfg: Config, key: SlotKey): Request {
    var quotaOnly := key.job in cfg.jobs && cfg.jobs[key.job];
    Request(0, if quotaOnly then QuotaRefresh else Schedule, key.job, "", Some(key))
  }

  function SlotRequests(cfg: Config, keys: seq<SlotKey>): seq<Request> {
    seq(|keys|, i requires 0 <= i < |keys| => SlotRequest(cfg, keys[i]))
  }

  /** Exactly the claimable slots are started, and each has exactly one request; the others stay as they
      are. */
  ghost predicate ClaimsExactly(cfg: Config, slots: Slots, now: Time, claimed: Slots, requests: seq<Request>) {
    && claimed.Keys == slots.Keys
    && (forall key :: key in slots ==>
          if Claimable(cfg, key, slots[key], now)
          then claimed[key] == slots[key].(startedAt := now) && RequestFor(cfg, key) in requests
          else claimed[key] == slots[key])
    && (forall i :: 0 <= i < |requests| ==>
          && requests[i].slot.Some? && requests[i].slot.value in slots
          && Claimable(cfg, requests[i].slot.value, slots[requests[i].slot.value], now))
    && (forall i, j :: 0 <= i < j < |requests| ==> requests[i].slot != requests[j].slot)
  }

  lemma ClaimIsExact(cfg: Config, slots: Slots, now: Time, order: seq<SlotKey>)
    requires NoDuplicates(order) && (set key | key in order) == DueKeys(cfg, slots, now)
    ensures ClaimsExactly(cfg, slots, now, ClaimAll(cfg, slots, now), SlotRequests(cfg, order))
  {
    hide Due, Claimable, SlotRequest, RequestFor;
    var requests := SlotRequests(cfg, order);
    forall key | key in slots
      ensures Due(cfg, key, slots[key], now) <==> Claimable(cfg, key, slots[key], now)
      ensures Claimable(cfg, key, slots[key], now) ==> key.job in cfg.jobs && RequestFor(cfg, key) in requests
    {
      DueIsClaimable(cfg, key, slots[key], now);
      if Due(cfg, key, slots[key], now) {
        assert key in DueKeys(cfg, slots, now);
        var i :| 0 <= i < |order| && order[i] == key;
        assert requests[i] == SlotRequest(cfg, key);
      }
    }
    forall i | 0 <= i < |requests|
      ensures requests[i].slot == Some(order[i]) && order[i] in DueKeys(cfg, slots, now)
    {
      assert order[i] in order;
      RequestOfSlot(cfg, order[i]);
    }
  }

  lemma RequestOfSlot(cfg: Config, key: SlotKey)
    ensures SlotRequest(cfg, key).slot == Some(key)
  {
  }

  /** Undo a claim whose write failed, except where the slot no longer carries this claim. */
  function RestoreClaims(slots: Slots, previous: Slots, now: Time): Slots {
    map key | key in slots ::
      if key in previous && slots[key].startedAt == now then previous[key] else slots[key]
  }

  function UnclaimSlot(slots: Slots, key: SlotKey): Slots {
    if Started(slots, key) then slots[key := slots[key].(startedAt := ZERO)] else slots
  }

  function PutBack(slots: Slots, request: Request): Slots {
    if request.slot.Some? then UnclaimSlot(slots, request.slot.value) else slots
  }

  predicate PutBackChanges(slots: Slots, request: Request) {
    if request.slot.Some? then Started(slots, request.slot.value) else request.trigger == ResetFollowup
  }

  function PruneSlots(slots: Slots, now: Time): Slots {
    map key | key in slots && key.base >= now - MAX_SLOT_AGE :: slots[key]
  }

  function PlanSlot(slots: Slots, key: SlotKey, slot: Slot, now: Time): Slots {
    PruneSlots(slots[key := slot], now)
  }

  function UnplanSlot(slots: Slots, key: SlotKey, jitter: int): Slots {
    if key in slots && slots[key].startedAt == ZERO && slots[key].jitter == jitter then slots - {key} else slots
  }

  predicate SameIdentity(a: Request, b: Request) {
    a.trigger == b.trigger && a.job == b.job && a.account == b.account && a.slot == b.slot
  }

  datatype Outcome = Rejected | Busy | Duplicate | Queued | Launched

  predicate IsLive(m: Memory, request: Request) {
    || (m.current.Some? && SameIdentity(m.current.value, request))
    || (exists i :: 0 <= i < |m.pending| && SameIdentity(m.pending[i], request))
  }

  function StartOutcome(m: Memory, request: Request): Outcome {
    if m.closed || (request.generation != 0 && request.generation != m.generation) then Rejected
    else if m.running then
      if request.trigger == Manual then Busy
      else if IsLive(m, request) then Duplicate
      else Queued
    else Launched
  }

  function StartRunJob(m: Memory, request: Request): Memory {
    Accept(m, request, StartOutcome(m, request))
  }

  function Accept(m: Memory, request: Request, outcome: Outcome): Memory {
    if outcome.Queued? then m.(pending := m.pending + [request])
    else if outcome.Launched? then m.(running := true, current := Some(request))
    else m
  }

  /** A request of the same trigger, job, account and slot runs or waits. */
  ghost predicate HasTwin(m: Memory, request: Request) {
    exists live: Request ::
      (m.current == Some(live) || live in m.pending)
      && live.trigger == request.trigger && live.job == request.job && live.account == request.account
      && live.slot == request.slot
  }

  /** What becomes of a request.  An open gate refuses only requests of an older generation; an idle runtime
      runs what it accepts at once; a busy one tells a manual caller so, drops twins, and queues the rest. */
  ghost predicate Admits(m: Memory, request: Request, outcome: Outcome, next: Memory) {
    && (outcome.Rejected? <==> m.closed || request.generation !in {0, m.generation})
    && (outcome.Launched? <==> !m.closed && request.generation in {0, m.generation} && !m.running)
    && (outcome.Busy? ==> m.running && request.trigger.Manual?)
    && (outcome.Duplicate? ==> m.running && !request.trigger.Manual? && HasTwin(m, request))
    && (outcome.Queued? ==> m.running && !request.trigger.Manual? && !HasTwin(m, request))
    && match outcome
       case Launched => next == m.(running := true, current := Some(request))
       case Queued => next == m.(pending := m.pending + [request])
       case _ => next == m
  }

  lemma StartOutcomeIsExact(m: Memory, request: Request)
    ensures Admits(m, request, StartOutcome(m, request), StartRunJob(m, request))
  {
    if i :| 0 <= i < |m.pending| && SameIdentity(m.pending[i], request) {
      assert m.pending[i] in m.pending;
    }
    if live: Request :| (m.current == Some(live) || live in m.pending) && SameIdentity(live, request) {
      assert IsLive(m, request);
    }
  }

  /** The critical section at the end of a run: take the next request or stop the runner. */
  function FinishRun(m: Memory): Memory {
    if m.pending == [] || m.closed then m.(pending := [], running := false, current := None)
    else m.(pending := m.pending[1..], current := Some(m.pending[0]))
  }

  function CloseGate(m: Memory): Memory {
    m.(closed := true, generation := m.generation + 1, pending := [])
  }

  function Reload(m: Memory, slots: Slots): Memory {
    m.(closed := false, stop := m.stop + 1, slots := slots)
  }

  // ----- threads -----

  /** Progress of one `requeueInterrupted` call. */
  datatype Phase = NeedUnclaim | NeedLock | InWrite

  datatype SchedPc =
    | SIdle
    | SClaimed(now: Time, previous: Slots, reqs: seq<Request>)
    | SWriting(now: Time, previous: Slots, reqs: seq<Request>)
    | SFailed(now: Time, previous: Slots, reqs: seq<Request>)
    | SDispatching(reqs: seq<Request>)
    | SRequeue(req: Request, phase: Phase, reqs: seq<Request>)

  /** One `runQueue` goroutine.  `stop` is the channel its run looks at. */
  datatype RunPc =
    | Starting(req: Request)
    | Executing(req: Request, stop: nat)
    | RRequeue(req: Request, phase: Phase)
    | Ending(req: Request)

  /** The thread that holds the lifecycle mutex. */
  datatype LifePc =
    | LIdle
    | LDraining(saved: seq<Request>)
    | LSaved(saved: seq<Request>)
    | LRequeue(req: Request, phase: Phase, saved: seq<Request>)
    | LDrained

  /** One `planSlot` call between inserting its slot and learning what became of its write. */
  datatype Planner = Planner(key: SlotKey, slot: Slot, state: PlanState)

  datatype PlanState = PWaiting | PWriting | PFailed

  datatype Owner = BySched | ByRunner(index: nat) | ByLife | ByPlanner(id: nat) | ByOther

  datatype Write = Write(owner: Owner, snapshot: Slots)

  datatype System = System(
    mem: Memory,
    write: Option<Write>,
    disk: Slots,
    clock: Time,
    sched: SchedPc,
    runners: seq<RunPc>,
    life: LifePc,
    planners: map<nat, Planner>,
    // history
    closedStops: set<nat>,
    finished: seq<Request>, // requests whose run ended without being interrupted
    lost: set<SlotKey>, // claimed on disk when memory was last replaced, but never finished
    plans: Slots, // plans whose own write succeeded
    accepted: seq<Request>, // accepted, started and set aside since the gate last opened
    launched: seq<Request>,
    setAside: seq<Request>,
    clean: bool, // no write failed since memory was last replaced
    tainted: bool) // some write failed, or the process crashed, at any time

  datatype Action =
    | Tick(to: Time)
    | Claim(cfg: Config, now: Time, order: seq<SlotKey>, followups: seq<Request>)
    | RollBack
    | Dispatch
    | StartManual(request: Request)
    | ReadStop(index: nat)
    | Interrupt(index: nat)
    | Finish(index: nat)
    | Next(index: nat)
    | Close
    | Drain
    | RequeueSaved
    | Return
    | Reopen
    | Unclaim(owner: Owner)
    | BeginWrite(owner: Owner)
    | EndWrite(ok: bool)
    | Plan(id: nat, key: SlotKey, slot: Slot, now: Time)
    | Unplan(id: nat)
    | Crash

  predicate NoDuplicates<T(==)>(xs: seq<T>) {
    forall i, j :: 0 <= i < j < |xs| ==> xs[i] != xs[j]
  }

  /** `owner` is inside `requeueInterrupted`. */
  predicate Requeueing(s: System, owner: Owner) {
    match owner
    case BySched => s.sched.SRequeue?
    case ByRunner(i) => i < |s.runners| && s.runners[i].RRequeue?
    case ByLife => s.life.LRequeue?
    case _ => false
  }

  function PhaseOf(s: System, owner: Owner): Phase
    requires Requeueing(s, owner)
  {
    match owner
    case BySched => s.sched.phase
    case ByRunner(i) => s.runners[i].phase
    case ByLife => s.life.phase
  }

  predicate AtPhase(s: System, owner: Owner, phase: Phase) {
    Requeueing(s, owner) && PhaseOf(s, owner) == phase
  }

  function Requeued(s: System, owner: Owner): Request
    requires Requeueing(s, owner)
  {
    match owner
    case BySched => s.sched.req
    case ByRunner(i) => s.runners[i].req
    case ByLife => s.life.req
  }

  function SetPhase(s: System, owner: Owner, phase: Phase): System
    requires Requeueing(s, owner)
  {
    match owner
    case BySched => s.(sched := s.sched.(phase := phase))
    case ByRunner(i) => s.(runners := s.runners[i := s.runners[i].(phase := phase)])
    case ByLife => s.(life := s.life.(phase := phase))
  }

  /** The requeue call returns to its caller. */
  function EndRequeue(s: System, owner: Owner): System
    requires Requeueing(s, owner)
  {
    match owner
    case BySched => s.(sched := SDispatching(s.sched.reqs))
    case ByRunner(i) => s.(runners := s.runners[i := Ending(s.runners[i].req)])
    case ByLife => s.(life := LSaved(s.life.saved))
  }

  /** `quiesce` has waited for the scheduler and the runner. */
  predicate Drained(life: LifePc) {
    life.LSaved? || life.LRequeue? || life.LDrained?
  }

  /** `owner` is about to call, or waits inside, `persistState`. */
  predicate WantsFile(s: System, owner: Owner) {
    match owner
    case BySched => s.sched.SClaimed? || AtPhase(s, owner, NeedLock)
    case ByPlanner(id) => id in s.planners && s.planners[id].state.PWaiting?
    // writes made by the scheduler and by runs for other reasons; both have stopped once drained
    case ByOther => !Drained(s.life)
    case _ => AtPhase(s, owner, NeedLock)
  }

  predicate Enabled(s: System, a: Action) {
    match a
    case Tick(to) => s.clock <= to
    case Claim(cfg, now, order, followups) =>
      && s.sched.SIdle? && !s.mem.closed
      && ZERO < now <= s.clock <= now + MAX_LAG
      && NoDuplicates(order) && (set key | key in order) == DueKeys(cfg, s.mem.slots, now)
      && (forall r :: r in followups ==> r.trigger == ResetFollowup && r.slot == None && r.generation == 0)
      && |order| + |followups| > 0
    case RollBack => s.sched.SFailed?
    case Dispatch => s.sched.SDispatching?
    case StartManual(request) => request.trigger == Manual && request.slot == None
    case ReadStop(i) => i < |s.runners| && s.runners[i].Starting?
    // a run reports "interrupted" only after it has seen its stop channel closed
    case Interrupt(i) => i < |s.runners| && s.runners[i].Executing? && s.runners[i].stop in s.closedStops
    case Finish(i) => i < |s.runners| && s.runners[i].Executing?
    case Next(i) => i < |s.runners| && s.runners[i].Ending?
    case Close => s.life.LIdle?
    case Drain => s.life.LDraining? && s.sched.SIdle? && s.planners == map[] && s.runners == [] && s.write.None?
    case RequeueSaved => s.life.LSaved?
    case Return => s.life.LDrained?
    case Reopen => s.life.LDrained?
    case Unclaim(owner) => AtPhase(s, owner, NeedUnclaim)
    case BeginWrite(owner) => s.write.None? && WantsFile(s, owner)
    case EndWrite(_) => s.write.Some?
    case Plan(id, key, slot, now) =>
      && id !in s.planners && !s.mem.closed && key !in s.mem.slots
      && slot.startedAt == ZERO && now <= s.clock
    case Unplan(id) => id in s.planners && s.planners[id].state.PFailed?
    case Crash => true
  }

  ghost predicate WriteConsistent(s: System) {
    s.write.Some? ==>
      match s.write.value.owner
      case BySched => s.sched.SWriting? || AtPhase(s, BySched, InWrite)
      case ByRunner(_) => AtPhase(s, s.write.value.owner, InWrite)
      case ByLife => AtPhase(s, ByLife, InWrite)
      case ByPlanner(id) => id in s.planners && s.planners[id].state.PWriting?
      case ByOther => true
  }

  function Unfinished(s: System): set<SlotKey> {
    set key | key in s.disk && Started(s.disk, key) && ListCount(s.finished, key) == 0
  }

  ghost function Apply(s: System, a: Action): System
    requires Enabled(s, a) && WriteConsistent(s)
  {
    match a
    case Tick(to) => s.(clock := to)
    case Claim(cfg, now, order, followups) => ApplyClaim(s, cfg, now, order, followups)
    case RollBack => ApplyRollBack(s)
    case Dispatch => ApplyDispatch(s)
    case StartManual(request) => Submit(s, request)
    case ReadStop(i) => ApplyReadStop(s, i)
    case Interrupt(i) => ApplyInterrupt(s, i)
    case Finish(i) => ApplyFinish(s, i)
    case Next(i) => ApplyNext(s, i)
    case Close => ApplyClose(s)
    case Drain => s.(life := LSaved(s.life.saved))
    case RequeueSaved => ApplyRequeueSaved(s)
    case Return => s.(life := LIdle)
    case Reopen => ApplyReopen(s)
    case Unclaim(owner) => ApplyUnclaim(s, owner)
    case BeginWrite(owner) => ApplyBeginWrite(s, owner)
    case EndWrite(ok) => ApplyEndWrite(s, ok)
    case Plan(id, key, slot, now) => ApplyPlan(s, id, key, slot, now)
    case Unplan(id) => ApplyUnplan(s, id)
    case Crash => ApplyCrash(s)
  }

  function ApplyClaim(s: System, cfg: Config, now: Time, order: seq<SlotKey>, followups: seq<Request>): System {
    var previous := map key | key in DueKeys(cfg, s.mem.slots, now) :: s.mem.slots[key];
    s.(mem := s.mem.(slots := ClaimAll(cfg, s.mem.slots, now)),
       sched := SClaimed(now, previous, SlotRequests(cfg, order) + followups))
  }

  function ApplyRollBack(s: System): System
    requires s.sched.SFailed?
  {
    s.(mem := s.mem.(slots := RestoreClaims(s.mem.slots, s.sched.previous, s.sched.now)), sched := SIdle)
  }

  function ApplyReadStop(s: System, i: nat): System
    requires i < |s.runners|
  {
    s.(runners := s.runners[i := Executing(s.runners[i].req, s.mem.stop)])
  }

  function ApplyInterrupt(s: System, i: nat): System
    requires i < |s.runners|
  {
    s.(runners := s.runners[i := RRequeue(s.runners[i].req, NeedUnclaim)])
  }

  function ApplyFinish(s: System, i: nat): System
    requires i < |s.runners|
  {
    s.(runners := s.runners[i := Ending(s.runners[i].req)], finished := s.finished + [s.runners[i].req])
  }

  function Without(runners: seq<RunPc>, i: nat): seq<RunPc>
    requires i < |runners|
  {
    runners[..i] + runners[i + 1..]
  }

  function ApplyNext(s: System, i: nat): System
    requires i < |s.runners|
  {
    if s.mem.pending == [] || s.mem.closed then StopRunner(s, i) else RunNext(s, i)
  }

  function StopRunner(s: System, i: nat): System
    requires i < |s.runners|
  {
    s.(mem := FinishRun(s.mem), runners := Without(s.runners, i))
  }

  function RunNext(s: System, i: nat): System
    requires i < |s.runners| && s.mem.pending != []
  {
    var request := s.mem.pending[0];
    s.(mem := FinishRun(s.mem), runners := s.runners[i := Starting(request)], launched := s.launched + [request])
  }

  function ApplyClose(s: System): System {
    s.(mem := CloseGate(s.mem), life := LDraining(s.mem.pending), closedStops := s.closedStops + {s.mem.stop},
       setAside := s.setAside + s.mem.pending)
  }

  function ApplyRequeueSaved(s: System): System
    requires s.life.LSaved?
  {
    if s.life.saved == [] then s.(life := LDrained)
    else s.(life := LRequeue(s.life.saved[0], NeedUnclaim, s.life.saved[1..]))
  }

  function ApplyReopen(s: System): System {
    s.(mem := Reload(s.mem, s.disk), life := LIdle, lost := Unfinished(s),
       accepted := [], launched := [], setAside := [], clean := true)
  }

  function ApplyBeginWrite(s: System, owner: Owner): System
    requires WantsFile(s, owner)
  {
    BeginPc(s, owner).(write := Some(Write(owner, s.mem.slots)))
  }

  ghost function ApplyEndWrite(s: System, ok: bool): System
    requires s.write.Some? && WriteConsistent(s)
  {
    var done := EndPc(s, s.write.value.owner, ok).(write := None);
    if ok then done.(disk := s.write.value.snapshot) else done.(clean := false, tainted := true)
  }

  function ApplyPlan(s: System, id: nat, key: SlotKey, slot: Slot, now: Time): System {
    s.(mem := s.mem.(slots := PlanSlot(s.mem.slots, key, slot, now)),
       planners := s.planners[id := Planner(key, slot, PWaiting)])
  }

  function ApplyUnplan(s: System, id: nat): System
    requires id in s.planners
  {
    var p := s.planners[id];
    s.(mem := s.mem.(slots := UnplanSlot(s.mem.slots, p.key, p.slot.jitter)), planners := s.planners - {id})
  }

  /** Only the file survives; the new process loads it with the gate still closed. */
  function ApplyCrash(s: System): System {
    s.(mem := Memory(true, s.mem.generation + 1, s.mem.stop + 1, false, None, [], s.disk),
       write := None, sched := SIdle, runners := [], life := LDrained, planners := map[],
       closedStops := s.closedStops + {s.mem.stop + 1}, lost := Unfinished(s),
       accepted := [], launched := [], setAside := [], clean := true, tainted := true)
  }

  function Submit(s: System, request: Request): System {
    Record(s, request, StartOutcome(s.mem, request))
  }

  function Record(s: System, request: Request, outcome: Outcome): System {
    var next := s.(mem := Accept(s.mem, request, outcome));
    if outcome.Queued? then next.(accepted := s.accepted + [request])
    else if outcome.Launched? then
      next.(accepted := s.accepted + [request], launched := s.launched + [request],
            runners := s.runners + [Starting(request)])
    else next
  }

  function ApplyDispatch(s: System): System
    requires s.sched.SDispatching?
  {
    if s.sched.reqs == [] then s.(sched := SIdle)
    else
      var request, rest := s.sched.reqs[0], s.sched.reqs[1..];
      if StartOutcome(s.mem, request) == Rejected then s.(sched := SRequeue(request, NeedUnclaim, rest))
      else Submit(s, request).(sched := SDispatching(rest))
  }

  /** The memory section of `requeueInterrupted`; it goes on to the file only if it changed
      something. */
  function ApplyUnclaim(s: System, owner: Owner): System
    requires Requeueing(s, owner)
  {
    var request := Requeued(s, owner);
    Advance(s.(mem := s.mem.(slots := PutBack(s.mem.slots, request))), owner, PutBackChanges(s.mem.slots, request))
  }

  function Advance(s: System, owner: Owner, changed: bool): System
    requires Requeueing(s, owner)
  {
    if changed then SetPhase(s, owner, NeedLock) else EndRequeue(s, owner)
  }

  function BeginPc(s: System, owner: Owner): System
    requires WantsFile(s, owner)
  {
    match owner
    case BySched =>
      if s.sched.SClaimed? then s.(sched := SWriting(s.sched.now, s.sched.previous, s.sched.reqs))
      else SetPhase(s, owner, InWrite)
    case ByPlanner(id) => s.(planners := s.planners[id := s.planners[id].(state := PWriting)])
    case ByOther => s
    case _ => SetPhase(s, owner, InWrite)
  }

  ghost function EndPc(s: System, owner: Owner, ok: bool): System
    requires s.write.Some? && s.write.value.owner == owner && WriteConsistent(s)
  {
    match owner
    case BySched =>
      if s.sched.SWriting? then
        if ok then s.(sched := SDispatching(s.sched.reqs))
        else s.(sched := SFailed(s.sched.now, s.sched.previous, s.sched.reqs))
      else EndRequeue(s, owner)
    case ByPlanner(id) =>
      var p := s.planners[id];
      if ok then s.(planners := s.planners - {id}, plans := s.plans[p.key := p.slot])
      else s.(planners := s.planners[id := p.(state := PFailed)])
    case ByOther => s
    case _ => EndRequeue(s, owner)
  }

  // ----- ownership -----

  function KeyCount(request: Request, key: SlotKey): nat {
    if request.slot == Some(key) then 1 else 0
  }

  function ListCount(requests: seq<Request>, key: SlotKey): nat {
    if requests == [] then 0 else KeyCount(requests[0], key) + ListCount(requests[1..], key)
  }

  lemma {:induction false} ListCountAppend(a: seq<Request>, b: seq<Request>, key: SlotKey)
    ensures ListCount(a + b, key) == ListCount(a, key) + ListCount(b, key)
  {
    if a == [] {
      assert a + b == b;
    } else {
      ListCountAppend(a[1..], b, key);
      assert (a + b)[0] == a[0] && (a + b)[1..] == a[1..] + b;
    }
  }

  lemma {:induction false} ListCountContains(requests: seq<Request>, i: nat, key: SlotKey)
    requires i < |requests| && requests[i].slot == Some(key)
    ensures ListCount(requests, key) > 0
  {
    if i > 0 {
      ListCountContains(requests[1..], i - 1, key);
    }
  }

  lemma {:induction false} ListCountSlots(cfg: Config, keys: seq<SlotKey>, key: SlotKey)
    requires NoDuplicates(keys)
    ensures ListCount(SlotRequests(cfg, keys), key) == if key in keys then 1 else 0
  {
    if keys != [] {
      ListCountSlots(cfg, keys[1..], key);
      assert SlotRequests(cfg, keys)[1..] == SlotRequests(cfg, keys[1..]);
    }
  }

  lemma {:induction false} ListCountNoSlots(requests: seq<Request>, key: SlotKey)
    requires forall r :: r in requests ==> r.slot == None
    ensures ListCount(requests, key) == 0
  {
    if requests != [] {
      ListCountNoSlots(requests[1..], key);
    }
  }

  /** Held by the scheduler between claim and dispatch. */
  function SchedCount(sched: SchedPc, key: SlotKey): nat {
    match sched
    case SIdle => 0
    case SRequeue(req, phase, reqs) => (if phase.NeedUnclaim? then KeyCount(req, key) else 0) + ListCount(reqs, key)
    case _ => ListCount(sched.reqs, key)
  }

  /** Held by a runner goroutine: its run has neither ended nor been put back. */
  function HeldCount(r: RunPc, key: SlotKey): nat {
    match r
    case Starting(req) => KeyCount(req, key)
    case Executing(req, _) => KeyCount(req, key)
    case RRequeue(req, phase) => if phase.NeedUnclaim? then KeyCount(req, key) else 0
    case Ending(_) => 0
  }

  function RunnerCount(runners: seq<RunPc>, key: SlotKey): nat {
    if runners == [] then 0 else HeldCount(runners[0], key) + RunnerCount(runners[1..], key)
  }

  /** In the list that `quiesce` took from the queue. */
  function SavedCount(life: LifePc, key: SlotKey): nat {
    match life
    case LDraining(saved) => ListCount(saved, key)
    case LSaved(saved) => ListCount(saved, key)
    case LRequeue(req, phase, saved) => (if phase.NeedUnclaim? then KeyCount(req, key) else 0) + ListCount(saved, key)
    case _ => 0
  }

  /** How many places account for the slot: the scheduler, a run, the queue, the list set aside by
      `quiesce`, the finished runs, and the claims given up when memory was replaced. */
  function Owners(s: System, key: SlotKey): nat {
    SchedCount(s.sched, key) + RunnerCount(s.runners, key) + ListCount(s.mem.pending, key)
    + SavedCount(s.life, key) + ListCount(s.finished, key) + (if key in s.lost then 1 else 0)
  }

  /** The owners whose claim is known to be on disk. */
  function Committed(s: System, key: SlotKey): nat {
    if s.sched.SClaimed? || s.sched.SWriting? || s.sched.SFailed?
    then Owners(s, key) - SchedCount(s.sched, key)
    else Owners(s, key)
  }
}
