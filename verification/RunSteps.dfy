/** Every action of `RunProtocol.System` keeps the invariant. */
module RunSteps {
  import opened Clock
  import opened Options
  import opened RunProtocol
  import opened RunInvariants

  // ----- runner goroutines -----

  lemma ReadStopControl(s: System, i: nat)
    requires Control(s) && i < |s.runners| && s.runners[i].Starting?
    ensures Control(ApplyReadStop(s, i))
  {
  }

  lemma ReadStopData(s: System, i: nat)
    requires Inv(s) && i < |s.runners| && s.runners[i].Starting?
    ensures Data(ApplyReadStop(s, i))
  {
    DataFrame(s, ApplyReadStop(s, i));
  }

  lemma InterruptControl(s: System, i: nat)
    requires Control(s) && i < |s.runners| && s.runners[i].Executing? && s.runners[i].stop in s.closedStops
    ensures Control(ApplyInterrupt(s, i))
  {
  }

  lemma InterruptData(s: System, i: nat)
    requires Inv(s) && i < |s.runners| && s.runners[i].Executing?
    ensures Data(ApplyInterrupt(s, i))
  {
    DataFrame(s, ApplyInterrupt(s, i));
  }

  lemma FinishGate(s: System, i: nat)
    requires Control(s) && i < |s.runners| && s.runners[i].Executing?
    ensures Gate(ApplyFinish(s, i))
  {
    var request := s.runners[i].req;
    if request.slot.Some? {
      ListCountAppend(s.finished, [request], request.slot.value);
    }
  }

  lemma FinishControl(s: System, i: nat)
    requires Control(s) && i < |s.runners| && s.runners[i].Executing?
    ensures Control(ApplyFinish(s, i))
  {
    FinishGate(s, i);
  }

  lemma FinishData(s: System, i: nat)
    requires Inv(s) && i < |s.runners| && s.runners[i].Executing?
    ensures Data(ApplyFinish(s, i))
  {
    var t := ApplyFinish(s, i);
    forall key
      ensures ListCount(t.finished, key) == ListCount(s.finished, key) + KeyCount(s.runners[i].req, key)
    {
      ListCountAppend(s.finished, [s.runners[i].req], key);
    }
    DataFrame(s, t);
  }

  lemma OnlyRunner(runners: seq<RunPc>)
    requires |runners| == 1
    ensures Without(runners, 0) == []
    ensures forall next :: runners[0 := next] == [next]
  {
  }

  lemma QueueNext(m: Memory, runners: seq<RunPc>)
    requires Queue(m, runners) && |runners| == 1
    ensures Queue(FinishRun(m), if m.pending == [] || m.closed then [] else [Starting(m.pending[0])])
  {
  }

  lemma OrderNext(m: Memory, accepted: seq<Request>, launched: seq<Request>, setAside: seq<Request>)
    requires Order(m, accepted, launched, setAside) && m.pending != []
    ensures accepted == (launched + [m.pending[0]]) + m.pending[1..] + setAside
  {
  }

  lemma StopGate(s: System)
    requires Gate(s) && |s.runners| == 1
    ensures Gate(StopRunner(s, 0))
  {
    OnlyRunner(s.runners);
  }

  lemma StopMutex(s: System)
    requires Mutex(s) && |s.runners| == 1 && s.runners[0].Ending?
    ensures Mutex(StopRunner(s, 0))
  {
    OnlyRunner(s.runners);
  }

  lemma StopControl(s: System)
    requires Control(s) && |s.runners| == 1 && s.runners[0].Ending? && (s.mem.pending == [] || s.mem.closed)
    ensures Control(StopRunner(s, 0))
  {
    hide Gate, Mutex;
    OnlyRunner(s.runners);
    QueueNext(s.mem, s.runners);
    StopGate(s);
    StopMutex(s);
  }

  lemma RunNextControl(s: System)
    requires Control(s) && |s.runners| == 1 && s.runners[0].Ending? && s.mem.pending != [] && !s.mem.closed
    ensures Control(RunNext(s, 0))
  {
    OnlyRunner(s.runners);
    QueueNext(s.mem, s.runners);
    OrderNext(s.mem, s.accepted, s.launched, s.setAside);
  }

  lemma NextControl(s: System, i: nat)
    requires Control(s) && i < |s.runners| && s.runners[i].Ending?
    ensures Control(ApplyNext(s, i))
  {
    if s.mem.pending == [] || s.mem.closed {
      StopControl(s);
    } else {
      RunNextControl(s);
    }
  }

  lemma StopData(s: System)
    requires Inv(s) && |s.runners| == 1 && s.runners[0].Ending? && (s.mem.pending == [] || s.mem.closed)
    ensures Data(StopRunner(s, 0))
  {
    OnlyRunner(s.runners);
    DataFrame(s, StopRunner(s, 0));
  }

  lemma RunNextData(s: System)
    requires Inv(s) && |s.runners| == 1 && s.runners[0].Ending? && s.mem.pending != [] && !s.mem.closed
    ensures Data(RunNext(s, 0))
  {
    OnlyRunner(s.runners);
    DataFrame(s, RunNext(s, 0));
  }

  lemma NextData(s: System, i: nat)
    requires Inv(s) && i < |s.runners| && s.runners[i].Ending?
    ensures Data(ApplyNext(s, i))
  {
    if s.mem.pending == [] || s.mem.closed {
      StopData(s);
    } else {
      RunNextData(s);
    }
  }

  // ----- submitting requests -----

  /** A slot request that reaches the queue is not a duplicate of a live one. */
  lemma SlotRequestIsNotLive(s: System, request: Request, key: SlotKey)
    requires Control(s) && !s.mem.closed && request.slot == Some(key) && request.trigger != Manual
    requires RunnerCount(s.runners, key) + ListCount(s.mem.pending, key) + ListCount(s.finished, key) == 0
    ensures !IsLive(s.mem, request)
  {
    if i :| 0 <= i < |s.mem.pending| && SameIdentity(s.mem.pending[i], request) {
      ListCountContains(s.mem.pending, i, key);
    }
  }

  lemma QueueSubmit(m: Memory, runners: seq<RunPc>, request: Request)
    requires Queue(m, runners)
    ensures var outcome := StartOutcome(m, request);
            Queue(Accept(m, request, outcome), if outcome.Launched? then runners + [Starting(request)] else runners)
  {
  }

  lemma OrderSubmit(m: Memory, accepted: seq<Request>, launched: seq<Request>, request: Request)
    requires Order(m, accepted, launched, [])
    ensures accepted + [request] == launched + (m.pending + [request]) + []
    ensures m.pending == [] ==> accepted + [request] == (launched + [request]) + m.pending + []
  {
  }

  lemma SubmitControl(s: System, request: Request)
    requires Control(s)
    ensures Control(Submit(s, request))
  {
    var outcome := StartOutcome(s.mem, request);
    QueueSubmit(s.mem, s.runners, request);
    if outcome.Queued? || outcome.Launched? {
      OrderSubmit(s.mem, s.accepted, s.launched, request);
    }
    RecordControl(s, request, outcome);
  }

  lemma RecordControl(s: System, request: Request, outcome: Outcome)
    requires Control(s)
    requires outcome.Queued? || outcome.Launched? ==> !s.mem.closed
    requires var t := Record(s, request, outcome);
             Queue(t.mem, t.runners) && Order(t.mem, t.accepted, t.launched, t.setAside)
    ensures Control(Record(s, request, outcome))
  {
  }

  lemma RecordCounts(s: System, request: Request, outcome: Outcome, key: SlotKey)
    requires outcome.Launched? ==> s.runners == []
    ensures Owners(Record(s, request, outcome), key) == Owners(s, key)
              + (if outcome.Queued? || outcome.Launched? then KeyCount(request, key) else 0)
  {
    if outcome.Queued? {
      ListCountAppend(s.mem.pending, [request], key);
    } else if outcome.Launched? {
      assert s.runners + [Starting(request)] == [Starting(request)] && [Starting(request)][1..] == [];
    }
  }

  lemma RecordUnsynced(s: System, request: Request, outcome: Outcome, key: SlotKey, waiting: bool)
    requires outcome.Launched? ==> s.runners == []
    ensures Unsynced(Record(s, request, outcome), key, waiting) == Unsynced(s, key, waiting)
  {
  }

  lemma RecordTables(s: System, request: Request, outcome: Outcome)
    ensures SameTables(s, Record(s, request, outcome)) && Record(s, request, outcome).sched == s.sched
  {
  }

  lemma StartManualData(s: System, request: Request)
    requires Inv(s) && request.trigger == Manual && request.slot == None
    ensures Data(Submit(s, request))
  {
    var outcome := StartOutcome(s.mem, request);
    ManualData(s, request, outcome);
  }

  lemma ManualData(s: System, request: Request, outcome: Outcome)
    requires Inv(s) && request.slot == None
    requires outcome.Launched? ==> s.runners == []
    ensures Data(Record(s, request, outcome))
  {
    forall key {
      RecordCounts(s, request, outcome, key);
    }
    forall key, waiting {
      RecordUnsynced(s, request, outcome, key, waiting);
    }
    RecordTables(s, request, outcome);
    DataFrame(s, Record(s, request, outcome));
  }

  lemma SchedControl(s: System, sched: SchedPc)
    requires Control(s) && s.sched.SDispatching?
    requires sched == SIdle || (sched.SDispatching? && s.sched.reqs != [] && sched.reqs == s.sched.reqs[1..])
             || (s.sched.reqs != [] && sched == SRequeue(s.sched.reqs[0], NeedUnclaim, s.sched.reqs[1..])
                 && s.mem.closed)
    ensures Control(s.(sched := sched))
  {
  }

  lemma DispatchControl(s: System)
    requires Control(s) && s.sched.SDispatching?
    ensures Control(ApplyDispatch(s))
  {
    if s.sched.reqs == [] {
      SchedControl(s, SIdle);
    } else {
      var request, rest := s.sched.reqs[0], s.sched.reqs[1..];
      if StartOutcome(s.mem, request).Rejected? {
        SchedControl(s, SRequeue(request, NeedUnclaim, rest));
      } else {
        SubmitControl(s, request);
        RecordTables(s, request, StartOutcome(s.mem, request));
        SchedControl(Submit(s, request), SDispatching(rest));
      }
    }
  }

  lemma DispatchData(s: System)
    requires Inv(s) && s.sched.SDispatching?
    ensures Data(ApplyDispatch(s))
  {
    hide Control, Data, StartOutcome, Record, SameCounts;
    if s.sched.reqs == [] {
      DispatchedCounts(s, SIdle);
      DataFrame(s, s.(sched := SIdle));
    } else {
      var request, rest := s.sched.reqs[0], s.sched.reqs[1..];
      var outcome := StartOutcome(s.mem, request);
      if outcome.Rejected? {
        DispatchedCounts(s, SRequeue(request, NeedUnclaim, rest));
        DataFrame(s, s.(sched := SRequeue(request, NeedUnclaim, rest)));
      } else {
        DispatchedIsAccepted(s);
        AcceptedData(s, request, outcome);
      }
    }
  }

  lemma DispatchedCounts(s: System, sched: SchedPc)
    requires s.sched.SDispatching?
    requires if s.sched.reqs == [] then sched == SIdle
             else sched == SRequeue(s.sched.reqs[0], NeedUnclaim, s.sched.reqs[1..])
    ensures SameCounts(s, s.(sched := sched))
  {
  }

  /** A claimed slot's request is not taken for a duplicate. */
  lemma DispatchedIsAccepted(s: System)
    requires Inv(s) && s.sched.SDispatching? && s.sched.reqs != []
    requires !StartOutcome(s.mem, s.sched.reqs[0]).Rejected?
    ensures var outcome := StartOutcome(s.mem, s.sched.reqs[0]);
            && (outcome.Queued? || outcome.Launched? || s.sched.reqs[0].slot == None)
            && (outcome.Launched? ==> s.runners == [])
  {
    hide OnDisk, Synced, Planned, Mutex, Order, Untainted;
    var request := s.sched.reqs[0];
    if request.slot.Some? {
      assert Owners(s, request.slot.value) <= 1;
      SlotRequestIsNotLive(s, request, request.slot.value);
    }
  }

  lemma AcceptedData(s: System, request: Request, outcome: Outcome)
    requires Inv(s) && s.sched.SDispatching? && s.sched.reqs != [] && request == s.sched.reqs[0]
    requires outcome.Launched? ==> s.runners == []
    requires outcome.Queued? || outcome.Launched? || request.slot == None
    ensures Data(Record(s, request, outcome).(sched := SDispatching(s.sched.reqs[1..])))
  {
    hide Control, Data, Record;
    forall key {
      RecordCounts(s, request, outcome, key);
    }
    forall key, waiting {
      RecordUnsynced(s, request, outcome, key, waiting);
    }
    RecordTables(s, request, outcome);
    DataFrame(s, Record(s, request, outcome).(sched := SDispatching(s.sched.reqs[1..])));
  }

  // ----- quiesce -----

  lemma QueueClose(m: Memory, runners: seq<RunPc>)
    requires Queue(m, runners)
    ensures Queue(CloseGate(m), runners)
  {
  }

  lemma OrderClose(m: Memory, accepted: seq<Request>, launched: seq<Request>, setAside: seq<Request>)
    requires Order(m, accepted, launched, setAside) && (m.closed ==> m.pending == [])
    ensures Order(CloseGate(m), accepted, launched, setAside + m.pending)
  {
  }

  lemma CloseControl(s: System)
    requires Control(s) && s.life.LIdle?
    ensures Control(ApplyClose(s))
  {
    QueueClose(s.mem, s.runners);
    OrderClose(s.mem, s.accepted, s.launched, s.setAside);
  }

  lemma CloseData(s: System)
    requires Inv(s) && s.life.LIdle?
    ensures Data(ApplyClose(s))
  {
    DataFrame(s, ApplyClose(s));
  }

  lemma LifeControl(s: System, life: LifePc)
    requires Control(s) && !s.life.LIdle? && !s.life.LRequeue?
    requires life.LRequeue? ==> life.phase.NeedUnclaim?
    requires Drained(s.life) || (s.sched.SIdle? && s.runners == [] && s.planners == map[] && s.write.None?)
    ensures Control(s.(life := life))
  {
  }

  lemma LifeData(s: System, life: LifePc)
    requires Inv(s) && !s.life.LRequeue?
    requires life.LRequeue? ==> life.phase.NeedUnclaim?
    requires forall key :: SavedCount(life, key) == SavedCount(s.life, key)
    ensures Data(s.(life := life))
  {
    DataFrame(s, s.(life := life));
  }

  lemma RequeueSavedKeepsInv(s: System)
    requires Inv(s) && s.life.LSaved?
    ensures Inv(ApplyRequeueSaved(s))
  {
    var saved := s.life.saved;
    var next := if saved == [] then LDrained else LRequeue(saved[0], NeedUnclaim, saved[1..]);
    LifeControl(s, next);
    LifeData(s, next);
  }

  lemma ReturnKeepsInv(s: System)
    requires Inv(s) && s.life.LDrained?
    ensures Inv(s.(life := LIdle))
  {
    DataFrame(s, s.(life := LIdle));
  }

  // ----- slots change hands between memory and owner -----

  lemma TickControl(s: System, to: Time)
    requires Control(s) && s.clock <= to
    ensures Control(s.(clock := to))
  {
  }

  lemma TickData(s: System, to: Time)
    requires Data(s) && s.clock <= to
    ensures Data(s.(clock := to))
  {
    hide Owners, Committed, Unsynced;
    TickCounts(s, to);
  }

  lemma TickCounts(s: System, to: Time)
    ensures SameCounts(s, s.(clock := to))
  {
  }

  /** A slot that is accounted for anywhere is never due. */
  lemma OwnedIsNotDue(s: System, cfg: Config, key: SlotKey, now: Time)
    requires Ownership(s) && s.clock <= now + MAX_LAG
    requires Owners(s, key) > 0 && key in s.mem.slots
    ensures !Due(cfg, key, s.mem.slots[key], now)
  {
    assert Settled(s.mem.slots, key, s.clock);
  }

  lemma ClaimControl(s: System, cfg: Config, now: Time, order: seq<SlotKey>, followups: seq<Request>)
    requires Control(s) && Enabled(s, Claim(cfg, now, order, followups))
    ensures Control(ApplyClaim(s, cfg, now, order, followups))
  {
  }

  /** A claim gives each due slot one owner, which it did not have before. */
  lemma ClaimCounts(s: System, cfg: Config, now: Time, order: seq<SlotKey>, followups: seq<Request>, key: SlotKey)
    requires Ownership(s) && Enabled(s, Claim(cfg, now, order, followups))
    ensures var t := ApplyClaim(s, cfg, now, order, followups);
            var due := DueKeys(cfg, s.mem.slots, now);
            && ListCount(t.sched.reqs, key) == (if key in due then 1 else 0)
            && Owners(t, key) == Owners(s, key) + (if key in due then 1 else 0)
            && Committed(t, key) == Committed(s, key)
            && (key in due ==> Owners(s, key) == 0)
  {
    ListCountAppend(SlotRequests(cfg, order), followups, key);
    ListCountSlots(cfg, order, key);
    ListCountNoSlots(followups, key);
    assert key in order <==> key in (set k | k in order);
    if key in DueKeys(cfg, s.mem.slots, now) && Owners(s, key) > 0 {
      OwnedIsNotDue(s, cfg, key, now);
    }
  }

  lemma ClaimOwnership(s: System, cfg: Config, now: Time, order: seq<SlotKey>, followups: seq<Request>)
    requires Ownership(s) && Enabled(s, Claim(cfg, now, order, followups))
    ensures Ownership(ApplyClaim(s, cfg, now, order, followups))
  {
    forall key {
      ClaimCounts(s, cfg, now, order, followups, key);
    }
  }

  lemma ClaimData(s: System, cfg: Config, now: Time, order: seq<SlotKey>, followups: seq<Request>)
    requires Inv(s) && Enabled(s, Claim(cfg, now, order, followups))
    ensures Data(ApplyClaim(s, cfg, now, order, followups))
  {
    hide Control, OnDisk, Synced, Planned, Ownership;
    ClaimOwnership(s, cfg, now, order, followups);
    forall key {
      ClaimCounts(s, cfg, now, order, followups, key);
    }
    var t := ApplyClaim(s, cfg, now, order, followups);
    ClaimOnDisk(s, t);
    ClaimSynced(s, t);
    ClaimPlanned(s, cfg, now, order, followups);
  }

  lemma ClaimOnDisk(s: System, t: System)
    requires OnDisk(s) && t == s.(mem := t.mem, sched := t.sched) && !t.sched.SWriting?
    requires forall key :: Committed(t, key) == Committed(s, key)
    ensures OnDisk(t)
  {
    hide Committed;
  }

  lemma ClaimSynced(s: System, t: System)
    requires Synced(s) && t == s.(mem := t.mem, sched := t.sched) && s.sched.SIdle? && t.sched.SClaimed?
    requires forall key :: Started(s.mem.slots, key) ==> Started(t.mem.slots, key)
    ensures Synced(t)
  {
  }

  lemma ClaimPlanned(s: System, cfg: Config, now: Time, order: seq<SlotKey>, followups: seq<Request>)
    requires Planned(s)
    ensures Planned(ApplyClaim(s, cfg, now, order, followups))
  {
  }

  lemma RollBackControl(s: System)
    requires Control(s) && s.sched.SFailed?
    ensures Control(ApplyRollBack(s))
  {
  }

  /** Rolling back takes the claim away from exactly the slots it had been given to. */
  lemma RollBackSlot(s: System, key: SlotKey)
    requires Ownership(s) && s.sched.SFailed?
    ensures var t := ApplyRollBack(s);
            && Owners(t, key) == Committed(t, key) == Committed(s, key)
            && (key in s.sched.previous ==> Owners(t, key) == 0 && !Started(t.mem.slots, key))
            && (key !in s.sched.previous ==>
                  Owners(t, key) == Owners(s, key) && (Started(t.mem.slots, key) <==> Started(s.mem.slots, key)))
  {
    assert Owners(s, key) <= 1;
  }

  lemma RollBackPlans(s: System)
    requires Planned(s) && s.sched.SFailed?
    ensures Planned(ApplyRollBack(s))
  {
  }

  lemma RollBackData(s: System)
    requires Inv(s) && s.sched.SFailed?
    ensures Data(ApplyRollBack(s))
  {
    forall key {
      RollBackSlot(s, key);
    }
    RollBackPlans(s);
  }

  // `requeueInterrupted`, for each of its three callers

  lemma AdvanceControl(s: System, owner: Owner, changed: bool)
    requires Control(s) && AtPhase(s, owner, NeedUnclaim)
    ensures Control(Advance(s, owner, changed))
  {
    match owner
    case BySched => AdvanceSchedControl(s, changed);
    case ByRunner(i) => AdvanceRunnerControl(s, changed);
    case ByLife => AdvanceLifeControl(s, changed);
  }

  lemma AdvanceSchedControl(s: System, changed: bool)
    requires Control(s) && AtPhase(s, BySched, NeedUnclaim)
    ensures Control(Advance(s, BySched, changed))
  {
  }

  lemma AdvanceRunnerControl(s: System, changed: bool)
    requires Control(s) && AtPhase(s, ByRunner(0), NeedUnclaim)
    ensures Control(Advance(s, ByRunner(0), changed))
  {
    OnlyRunner(s.runners);
  }

  lemma AdvanceLifeControl(s: System, changed: bool)
    requires Control(s) && AtPhase(s, ByLife, NeedUnclaim)
    ensures Control(Advance(s, ByLife, changed))
  {
  }

  lemma SlotsControl(s: System, slots: Slots)
    requires Control(s)
    ensures Control(s.(mem := s.mem.(slots := slots)))
  {
  }

  lemma UnclaimControl(s: System, owner: Owner)
    requires Control(s) && AtPhase(s, owner, NeedUnclaim)
    ensures Control(ApplyUnclaim(s, owner))
  {
    var slots := PutBack(s.mem.slots, Requeued(s, owner));
    SlotsControl(s, slots);
    AdvanceControl(s.(mem := s.mem.(slots := slots)), owner, PutBackChanges(s.mem.slots, Requeued(s, owner)));
  }

  /** The caller gives its slot up, and owes the file a write if it changed memory. */
  ghost predicate GivesUp(s: System, t: System, request: Request, changed: bool, key: SlotKey) {
    var mine := KeyCount(request, key);
    && Owners(t, key) == Owners(s, key) - mine
    && Committed(t, key) == Committed(s, key) - mine
    && Unsynced(t, key, true) == Unsynced(s, key, true) + (if changed then mine else 0)
    && Unsynced(t, key, false) == Unsynced(s, key, false) + (if changed then mine else 0)
  }

  lemma AdvanceSchedCounts(s: System, changed: bool, key: SlotKey)
    requires AtPhase(s, BySched, NeedUnclaim)
    ensures GivesUp(s, Advance(s, BySched, changed), s.sched.req, changed, key)
  {
  }

  lemma AdvanceRunnerCounts(s: System, changed: bool, key: SlotKey)
    requires AtPhase(s, ByRunner(0), NeedUnclaim) && |s.runners| == 1
    ensures GivesUp(s, Advance(s, ByRunner(0), changed), s.runners[0].req, changed, key)
  {
    OnlyRunner(s.runners);
    if changed {
      RunnerPcCounts(s, RRequeue(s.runners[0].req, NeedLock), key);
    } else {
      RunnerPcCounts(s, Ending(s.runners[0].req), key);
    }
  }

  lemma RunnerPcCounts(s: System, r: RunPc, key: SlotKey)
    requires |s.runners| == 1 && AtPhase(s, ByRunner(0), NeedUnclaim)
    requires r == RRequeue(s.runners[0].req, NeedLock) || r.Ending?
    ensures GivesUp(s, s.(runners := [r]), s.runners[0].req, r.RRequeue?, key)
  {
    assert [r][1..] == [] && s.runners[1..] == [];
  }

  lemma AdvanceLifeCounts(s: System, changed: bool, key: SlotKey)
    requires AtPhase(s, ByLife, NeedUnclaim)
    ensures GivesUp(s, Advance(s, ByLife, changed), s.life.req, changed, key)
  {
  }

  lemma AdvanceCounts(s: System, owner: Owner, changed: bool, key: SlotKey)
    requires Queue(s.mem, s.runners) && AtPhase(s, owner, NeedUnclaim)
    ensures GivesUp(s, Advance(s, owner, changed), Requeued(s, owner), changed, key)
  {
    match owner
    case BySched => AdvanceSchedCounts(s, changed, key);
    case ByRunner(i) => AdvanceRunnerCounts(s, changed, key);
    case ByLife => AdvanceLifeCounts(s, changed, key);
  }

  /** What `Advance` leaves alone. */
  predicate SameExceptPcs(s: System, t: System) {
    && t.mem == s.mem && t.disk == s.disk && t.write == s.write && t.clock == s.clock
    && t.planners == s.planners && t.plans == s.plans && t.clean == s.clean
    && (t.sched == s.sched || (!Claiming(s.sched) && !Claiming(t.sched)))
  }

  lemma AdvanceFrame(s: System, owner: Owner, changed: bool)
    requires Requeueing(s, owner)
    ensures SameExceptPcs(s, Advance(s, owner, changed))
  {
  }

  ghost predicate AllGiveUp(s: System, t: System, request: Request, changed: bool) {
    && (forall key :: Owners(t, key) == Owners(s, key) - KeyCount(request, key))
    && (forall key :: Committed(t, key) == Committed(s, key) - KeyCount(request, key))
    && (forall key, waiting :: Unsynced(t, key, waiting) ==
          Unsynced(s, key, waiting) + if changed then KeyCount(request, key) else 0)
  }

  // taking a slot's claim away when its only owner gives it up

  lemma GiveUpOwnership(s: System, t: System, request: Request)
    requires Ownership(s) && AllGiveUp(s, t, request, PutBackChanges(s.mem.slots, request))
    requires SameExceptPcs(s.(mem := s.mem.(slots := PutBack(s.mem.slots, request))), t)
    ensures Ownership(t)
  {
  }

  lemma GiveUpOnDisk(s: System, t: System, request: Request)
    requires OnDisk(s) && AllGiveUp(s, t, request, PutBackChanges(s.mem.slots, request))
    requires SameExceptPcs(s.(mem := s.mem.(slots := PutBack(s.mem.slots, request))), t)
    ensures OnDisk(t)
  {
  }

  lemma GiveUpSynced(s: System, t: System, request: Request)
    requires Synced(s) && AllGiveUp(s, t, request, PutBackChanges(s.mem.slots, request))
    requires SameExceptPcs(s.(mem := s.mem.(slots := PutBack(s.mem.slots, request))), t)
    ensures Synced(t)
  {
  }

  lemma GiveUpPlanned(s: System, t: System, request: Request)
    requires Planned(s)
    requires SameExceptPcs(s.(mem := s.mem.(slots := PutBack(s.mem.slots, request))), t)
    ensures Planned(t)
  {
  }

  lemma SlotsCounts(s: System, slots: Slots)
    ensures SameCounts(s, s.(mem := s.mem.(slots := slots)))
  {
  }

  lemma AllAdvance(s: System, owner: Owner, changed: bool)
    requires Queue(s.mem, s.runners) && AtPhase(s, owner, NeedUnclaim)
    ensures AllGiveUp(s, Advance(s, owner, changed), Requeued(s, owner), changed)
  {
    var t := Advance(s, owner, changed);
    forall key
      ensures Owners(t, key) == Owners(s, key) - KeyCount(Requeued(s, owner), key)
      ensures Committed(t, key) == Committed(s, key) - KeyCount(Requeued(s, owner), key)
    {
      AdvanceCounts(s, owner, changed, key);
    }
    forall key, waiting
      ensures Unsynced(t, key, waiting) ==
              Unsynced(s, key, waiting) + if changed then KeyCount(Requeued(s, owner), key) else 0
    {
      AdvanceCounts(s, owner, changed, key);
    }
  }

  lemma UnclaimData(s: System, owner: Owner)
    requires Inv(s) && AtPhase(s, owner, NeedUnclaim)
    ensures Data(ApplyUnclaim(s, owner))
  {
    var request := Requeued(s, owner);
    var changed := PutBackChanges(s.mem.slots, request);
    var m := s.(mem := s.mem.(slots := PutBack(s.mem.slots, request)));
    var t := Advance(m, owner, changed);
    SlotsCounts(s, PutBack(s.mem.slots, request));
    AdvanceFrame(m, owner, changed);
    AllAdvance(m, owner, changed);
    GiveUpOwnership(s, t, request);
    GiveUpOnDisk(s, t, request);
    GiveUpSynced(s, t, request);
    GiveUpPlanned(s, t, request);
  }

  // ----- the file -----

  lemma BeginSchedControl(s: System)
    requires Control(s) && s.write.None? && WantsFile(s, BySched)
    ensures Control(ApplyBeginWrite(s, BySched))
  {
    hide Queue, Order, Expired;
  }

  lemma BeginRunnerControl(s: System)
    requires Control(s) && s.write.None? && WantsFile(s, ByRunner(0))
    ensures Control(ApplyBeginWrite(s, ByRunner(0)))
  {
    OnlyRunner(s.runners);
  }

  lemma BeginLifeControl(s: System)
    requires Control(s) && s.write.None? && WantsFile(s, ByLife)
    ensures Control(ApplyBeginWrite(s, ByLife))
  {
  }

  lemma BeginPlannerControl(s: System, id: nat)
    requires Control(s) && s.write.None? && WantsFile(s, ByPlanner(id))
    ensures Control(ApplyBeginWrite(s, ByPlanner(id)))
  {
  }

  lemma BeginOtherControl(s: System)
    requires Control(s) && s.write.None? && WantsFile(s, ByOther)
    ensures Control(ApplyBeginWrite(s, ByOther))
  {
  }

  lemma BeginControl(s: System, owner: Owner)
    requires Control(s) && s.write.None? && WantsFile(s, owner)
    ensures Control(ApplyBeginWrite(s, owner))
  {
    match owner
    case BySched => BeginSchedControl(s);
    case ByRunner(_) => BeginRunnerControl(s);
    case ByLife => BeginLifeControl(s);
    case ByPlanner(id) => BeginPlannerControl(s, id);
    case ByOther => BeginOtherControl(s);
  }

  predicate SamePlanners(a: map<nat, Planner>, b: map<nat, Planner>) {
    && a.Keys == b.Keys
    && forall id :: id in a ==> a[id].key == b[id].key && a[id].slot == b[id].slot
  }

  /** The thread now holds a copy of memory; nothing else has changed. */
  ghost predicate TookCopy(s: System, t: System) {
    && t.mem == s.mem && t.disk == s.disk && t.clock == s.clock && t.plans == s.plans && t.clean == s.clean
    && t.write.Some? && t.write.value.snapshot == s.mem.slots
    && SamePlanners(t.planners, s.planners)
    && Claiming(t.sched) == Claiming(s.sched)
    && (Claiming(s.sched) ==> t.sched.now == s.sched.now && t.sched.previous == s.sched.previous
                              && t.sched.reqs == s.sched.reqs)
    && (forall key :: Owners(t, key) == Owners(s, key))
    && (forall key :: Committed(t, key) == Committed(s, key))
    && (forall key :: Unsynced(t, key, false) == Unsynced(s, key, false))
  }

  lemma TookCopyData(s: System, t: System)
    requires Data(s) && TookCopy(s, t)
    ensures Data(t)
  {
  }

  lemma BeginClaimCopy(s: System)
    requires s.sched.SClaimed?
    ensures TookCopy(s, ApplyBeginWrite(s, BySched))
  {
  }

  lemma BeginSchedCopy(s: System)
    requires AtPhase(s, BySched, NeedLock)
    ensures TookCopy(s, ApplyBeginWrite(s, BySched))
  {
  }

  lemma BeginRunnerCopy(s: System)
    requires |s.runners| == 1 && WantsFile(s, ByRunner(0))
    ensures TookCopy(s, ApplyBeginWrite(s, ByRunner(0)))
  {
    OnlyRunner(s.runners);
  }

  lemma BeginLifeCopy(s: System)
    requires WantsFile(s, ByLife)
    ensures TookCopy(s, ApplyBeginWrite(s, ByLife))
  {
  }

  lemma BeginPlannerCopy(s: System, id: nat)
    requires WantsFile(s, ByPlanner(id))
    ensures TookCopy(s, ApplyBeginWrite(s, ByPlanner(id)))
  {
  }

  lemma BeginOtherCopy(s: System)
    requires WantsFile(s, ByOther)
    ensures TookCopy(s, ApplyBeginWrite(s, ByOther))
  {
  }

  lemma BeginData(s: System, owner: Owner)
    requires Inv(s) && s.write.None? && WantsFile(s, owner)
    ensures Data(ApplyBeginWrite(s, owner))
  {
    match owner {
      case BySched =>
        if s.sched.SClaimed? {
          BeginClaimCopy(s);
        } else {
          BeginSchedCopy(s);
        }
      case ByRunner(_) => BeginRunnerCopy(s);
      case ByLife => BeginLifeCopy(s);
      case ByPlanner(id) => BeginPlannerCopy(s, id);
      case ByOther => BeginOtherCopy(s);
    }
    TookCopyData(s, ApplyBeginWrite(s, owner));
  }

  ghost predicate WriterReady(s: System, owner: Owner) {
    s.write.Some? && s.write.value.owner == owner && WriteConsistent(s)
  }

  lemma EndClaimControl(s: System, ok: bool)
    requires Control(s) && WriterReady(s, BySched) && s.sched.SWriting?
    ensures Control(ApplyEndWrite(s, ok))
  {
  }

  lemma EndSchedControl(s: System, ok: bool)
    requires Control(s) && WriterReady(s, BySched) && s.sched.SRequeue?
    ensures Control(ApplyEndWrite(s, ok))
  {
  }

  lemma EndRunnerControl(s: System, ok: bool)
    requires Control(s) && WriterReady(s, ByRunner(0))
    ensures Control(ApplyEndWrite(s, ok))
  {
    OnlyRunner(s.runners);
  }

  lemma EndLifeControl(s: System, ok: bool)
    requires Control(s) && WriterReady(s, ByLife)
    ensures Control(ApplyEndWrite(s, ok))
  {
  }

  lemma EndPlannerControl(s: System, id: nat, ok: bool)
    requires Control(s) && WriterReady(s, ByPlanner(id))
    ensures Control(ApplyEndWrite(s, ok))
  {
  }

  lemma EndOtherControl(s: System, ok: bool)
    requires Control(s) && WriterReady(s, ByOther)
    ensures Control(ApplyEndWrite(s, ok))
  {
  }

  lemma EndControl(s: System, ok: bool)
    requires Control(s) && s.write.Some?
    ensures Control(ApplyEndWrite(s, ok))
  {
    match s.write.value.owner
    case BySched =>
      if s.sched.SWriting? {
        EndClaimControl(s, ok);
      } else {
        EndSchedControl(s, ok);
      }
    case ByRunner(_) => EndRunnerControl(s, ok);
    case ByLife => EndLifeControl(s, ok);
    case ByPlanner(id) => EndPlannerControl(s, id, ok);
    case ByOther => EndOtherControl(s, ok);
  }

  /** The write failed: the file is as before, and memory too. */
  ghost predicate WriteFailed(s: System, t: System) {
    && t.mem == s.mem && t.disk == s.disk && t.clock == s.clock && t.plans == s.plans && !t.clean
    && t.write.None? && SamePlanners(t.planners, s.planners)
    && Claiming(t.sched) == Claiming(s.sched)
    && (Claiming(s.sched) ==> t.sched.now == s.sched.now && t.sched.previous == s.sched.previous
                              && t.sched.reqs == s.sched.reqs)
    && (forall key :: Owners(t, key) == Owners(s, key))
    && (forall key :: Committed(t, key) == Committed(s, key))
  }

  lemma WriteFailedData(s: System, t: System)
    requires Data(s) && WriteFailed(s, t)
    ensures Data(t)
  {
  }

  /** The write succeeded: the file is the writer's copy. */
  ghost predicate WriteLanded(s: System, t: System) {
    && s.write.Some? && t.disk == s.write.value.snapshot && t.write.None?
    && t.mem == s.mem && t.clock == s.clock && t.clean == s.clean
    && (t.sched == s.sched
        || (!Claiming(t.sched) && (Claiming(s.sched) ==> s.sched.SWriting?)))
    && (forall key :: Owners(t, key) == Owners(s, key))
    && (forall key :: Unsynced(t, key, false) >= Unsynced(s, key, true))
  }

  lemma WriteLandedData(s: System, t: System)
    requires Data(s) && WriteLanded(s, t)
    ensures Ownership(t) && OnDisk(t) && Synced(t)
    ensures t.planners == s.planners && t.plans == s.plans ==> Planned(t)
  {
  }

  lemma EndClaimLanded(s: System)
    requires WriterReady(s, BySched) && s.sched.SWriting?
    ensures WriteLanded(s, ApplyEndWrite(s, true))
  {
  }

  lemma EndClaimFailed(s: System)
    requires WriterReady(s, BySched) && s.sched.SWriting?
    ensures WriteFailed(s, ApplyEndWrite(s, false))
  {
  }

  lemma EndSchedLanded(s: System)
    requires WriterReady(s, BySched) && s.sched.SRequeue?
    ensures WriteLanded(s, ApplyEndWrite(s, true))
  {
  }

  lemma EndSchedFailed(s: System)
    requires WriterReady(s, BySched) && s.sched.SRequeue?
    ensures WriteFailed(s, ApplyEndWrite(s, false))
  {
  }

  lemma EndRunnerLanded(s: System)
    requires WriterReady(s, ByRunner(0)) && |s.runners| == 1
    ensures WriteLanded(s, ApplyEndWrite(s, true))
  {
    OnlyRunner(s.runners);
  }

  lemma EndRunnerFailed(s: System)
    requires WriterReady(s, ByRunner(0)) && |s.runners| == 1
    ensures WriteFailed(s, ApplyEndWrite(s, false))
  {
    OnlyRunner(s.runners);
  }

  lemma EndLifeLanded(s: System)
    requires WriterReady(s, ByLife)
    ensures WriteLanded(s, ApplyEndWrite(s, true))
  {
  }

  lemma EndLifeFailed(s: System)
    requires WriterReady(s, ByLife)
    ensures WriteFailed(s, ApplyEndWrite(s, false))
  {
  }

  lemma EndPlannerLanded(s: System, id: nat)
    requires WriterReady(s, ByPlanner(id))
    ensures WriteLanded(s, ApplyEndWrite(s, true))
  {
  }

  lemma EndPlannerFailed(s: System, id: nat)
    requires WriterReady(s, ByPlanner(id))
    ensures WriteFailed(s, ApplyEndWrite(s, false))
  {
  }

  lemma EndOtherLanded(s: System)
    requires WriterReady(s, ByOther)
    ensures WriteLanded(s, ApplyEndWrite(s, true))
  {
  }

  lemma EndOtherFailed(s: System)
    requires WriterReady(s, ByOther)
    ensures WriteFailed(s, ApplyEndWrite(s, false))
  {
  }

  /** A plan is remembered as durable when its own write succeeds. */
  lemma EndPlannerPlans(s: System, id: nat)
    requires Data(s) && WriterReady(s, ByPlanner(id))
    ensures Planned(ApplyEndWrite(s, true))
  {
  }

  /** The thread that the mutex says is writing is at its writing step. */
  lemma WriterIsReady(s: System)
    requires Control(s) && s.write.Some?
    ensures var owner := s.write.value.owner;
            && WriterReady(s, owner)
            && (owner.BySched? ==> s.sched.SWriting? || s.sched.SRequeue?)
            && (owner.ByRunner? ==> owner == ByRunner(0) && |s.runners| == 1)
  {
    hide Order, Gate, Untainted;
  }

  lemma EndKeepsPlans(s: System, ok: bool)
    requires s.write.Some? && WriteConsistent(s) && !s.write.value.owner.ByPlanner?
    ensures var t := ApplyEndWrite(s, ok); t.planners == s.planners && t.plans == s.plans
  {
  }

  lemma EndLanded(s: System)
    requires s.write.Some? && WriterReady(s, s.write.value.owner)
    requires s.write.value.owner.BySched? ==> s.sched.SWriting? || s.sched.SRequeue?
    requires s.write.value.owner.ByRunner? ==> s.write.value.owner == ByRunner(0) && |s.runners| == 1
    ensures WriteLanded(s, ApplyEndWrite(s, true))
  {
    hide WriteLanded;
    match s.write.value.owner
    case BySched =>
      if s.sched.SWriting? {
        EndClaimLanded(s);
      } else {
        EndSchedLanded(s);
      }
    case ByRunner(_) => EndRunnerLanded(s);
    case ByLife => EndLifeLanded(s);
    case ByPlanner(id) => EndPlannerLanded(s, id);
    case ByOther => EndOtherLanded(s);
  }

  lemma EndFailed(s: System)
    requires s.write.Some? && WriterReady(s, s.write.value.owner)
    requires s.write.value.owner.BySched? ==> s.sched.SWriting? || s.sched.SRequeue?
    requires s.write.value.owner.ByRunner? ==> s.write.value.owner == ByRunner(0) && |s.runners| == 1
    ensures WriteFailed(s, ApplyEndWrite(s, false))
  {
    hide WriteFailed;
    match s.write.value.owner
    case BySched =>
      if s.sched.SWriting? {
        EndClaimFailed(s);
      } else {
        EndSchedFailed(s);
      }
    case ByRunner(_) => EndRunnerFailed(s);
    case ByLife => EndLifeFailed(s);
    case ByPlanner(id) => EndPlannerFailed(s, id);
    case ByOther => EndOtherFailed(s);
  }

  lemma EndData(s: System, ok: bool)
    requires Inv(s) && s.write.Some?
    ensures Data(ApplyEndWrite(s, ok))
  {
    hide Control, Ownership, OnDisk, Synced, Planned, WriteLanded, WriteFailed, ApplyEndWrite;
    WriterIsReady(s);
    if ok {
      EndLanded(s);
      WriteLandedData(s, ApplyEndWrite(s, ok));
      if s.write.value.owner.ByPlanner? {
        EndPlannerPlans(s, s.write.value.owner.id);
      } else {
        EndKeepsPlans(s, ok);
      }
    } else {
      EndFailed(s);
      WriteFailedData(s, ApplyEndWrite(s, ok));
    }
  }

  // ----- planning -----

  lemma PlanControl(s: System, id: nat, key: SlotKey, slot: Slot, now: Time)
    requires Control(s) && Enabled(s, Plan(id, key, slot, now))
    ensures Control(ApplyPlan(s, id, key, slot, now))
  {
  }

  lemma PlanCounts(s: System, id: nat, key: SlotKey, slot: Slot, now: Time)
    ensures SameCounts(s, ApplyPlan(s, id, key, slot, now))
  {
  }

  lemma PlanTables(s: System, id: nat, key: SlotKey, slot: Slot, now: Time)
    requires Ownership(s) && Planned(s) && id !in s.planners && key !in s.mem.slots && now <= s.clock
    ensures Planned(ApplyPlan(s, id, key, slot, now))
  {
    hide Ownership, KeepsPlans, PlansAgree, PlannersAgree, PlannersKeep, PlannersWrote, PlannersDistinct;
    PlanKeepsPlans(s.mem.slots, s.plans, key, slot, now, s.clock);
    PlanKeepsPlanners(s.planners, id, s.mem.slots, s.plans, key, slot, now, s.clock);
    if s.write.Some? {
      NewPlannerHasNotWritten(s.planners, id, s.write.value.snapshot, key, slot, s.clock);
    }
    if Claiming(s.sched) {
      if key in s.sched.previous {
        ForgottenClaimIsExpired(s, key);
      }
      NewPlannerAgrees(s.planners, id, s.sched.previous, key, slot, s.clock);
    }
  }

  lemma PlanKeepsPlans(slots: Slots, plans: Slots, key: SlotKey, slot: Slot, now: Time, clock: Time)
    requires KeepsPlans(slots, plans, clock) && key !in slots && now <= clock
    ensures KeepsPlans(PlanSlot(slots, key, slot, now), plans, clock)
  {
  }

  lemma PlanKeepsPlanners(planners: map<nat, Planner>, id: nat, slots: Slots, plans: Slots, key: SlotKey, slot: Slot,
                          now: Time, clock: Time)
    requires KeepsPlans(slots, plans, clock) && PlannersKeep(planners, slots, clock)
    requires PlannersDistinct(planners, plans, clock) && id !in planners && key !in slots && now <= clock
    ensures PlannersKeep(planners[id := Planner(key, slot, PWaiting)], PlanSlot(slots, key, slot, now), clock)
    ensures PlannersDistinct(planners[id := Planner(key, slot, PWaiting)], plans, clock)
  {
  }

  lemma NewPlannerHasNotWritten(planners: map<nat, Planner>, id: nat, copy: Slots, key: SlotKey, slot: Slot,
        clock: Time)
    requires PlannersWrote(planners, copy, clock)
    ensures PlannersWrote(planners[id := Planner(key, slot, PWaiting)], copy, clock)
  {
  }

  lemma NewPlannerAgrees(planners: map<nat, Planner>, id: nat, previous: Slots, key: SlotKey, slot: Slot, clock: Time)
    requires PlannersAgree(planners, previous, clock) && (key in previous ==> Expired(key, clock))
    ensures PlannersAgree(planners[id := Planner(key, slot, PWaiting)], previous, clock)
  {
  }

  lemma ForgottenClaimIsExpired(s: System, key: SlotKey)
    requires Ownership(s) && Claiming(s.sched) && key in s.sched.previous && key !in s.mem.slots
    ensures Expired(key, s.clock)
  {
    assert Owners(s, key) > 0;
  }

  lemma PlanOwnership(s: System, id: nat, key: SlotKey, slot: Slot, now: Time)
    requires Ownership(s) && key !in s.mem.slots && slot.startedAt == ZERO && now <= s.clock
    ensures Ownership(ApplyPlan(s, id, key, slot, now))
  {
    PlanCounts(s, id, key, slot, now);
  }

  lemma PlanData(s: System, id: nat, key: SlotKey, slot: Slot, now: Time)
    requires Inv(s) && Enabled(s, Plan(id, key, slot, now))
    ensures Data(ApplyPlan(s, id, key, slot, now))
  {
    PlanCounts(s, id, key, slot, now);
    PlanOwnership(s, id, key, slot, now);
    PlanTables(s, id, key, slot, now);
  }

  lemma UnplanControl(s: System, id: nat)
    requires Control(s) && id in s.planners && s.planners[id].state.PFailed?
    ensures Control(ApplyUnplan(s, id))
  {
  }

  lemma UnplanTables(s: System, id: nat)
    requires Planned(s) && id in s.planners && s.planners[id].state.PFailed?
    ensures Planned(ApplyUnplan(s, id))
  {
  }

  lemma UnplanCounts(s: System, id: nat)
    requires id in s.planners
    ensures SameCounts(s, ApplyUnplan(s, id))
  {
  }

  lemma UnplanData(s: System, id: nat)
    requires Inv(s) && id in s.planners && s.planners[id].state.PFailed?
    ensures Data(ApplyUnplan(s, id))
  {
    UnplanCounts(s, id);
    UnplanTables(s, id);
  }

  // ----- replacing memory by the file -----

  /** Every claim found on disk is that of a finished run, or is given up. */
  lemma ReplaceOwnership(s: System, t: System)
    requires Ownership(s) && OnDisk(s) && !Claiming(t.sched)
    requires t.mem.slots == t.disk == s.disk && t.clock == s.clock && t.lost == Unfinished(s)
    requires forall key :: Owners(t, key) == ListCount(s.finished, key) + if key in t.lost then 1 else 0
    ensures Ownership(t) && (t.write.None? ==> OnDisk(t))
  {
    forall key
      ensures ListCount(s.finished, key) <= 1 && ListCount(s.finished, key) <= Committed(s, key)
    {
      assert Owners(s, key) <= 1;
    }
  }

  lemma ReopenUntainted(s: System)
    requires Inv(s) && s.life.LDrained?
    ensures Untainted(ApplyReopen(s))
  {
    if s.clean {
      ReopenLost(s);
    }
  }

  lemma ReopenControl(s: System)
    requires Control(s) && s.life.LDrained? && Untainted(ApplyReopen(s))
    ensures Control(ApplyReopen(s))
  {
  }

  /** When `quiesce` has returned and every write succeeded, a claim on disk is that of a finished
      run, unless it was given up earlier or the slot has expired. */
  lemma ReopenLost(s: System)
    requires Inv(s) && s.life.LDrained? && s.clean
    ensures forall key :: Started(s.disk, key) ==>
              Expired(key, s.clock) || ListCount(s.finished, key) == 1 || key in s.lost
  {
    forall key | Started(s.disk, key) && !Expired(key, s.clock)
      ensures ListCount(s.finished, key) == 1 || key in s.lost
    {
      assert Unsynced(s, key, false) == 0;
      assert Started(s.mem.slots, key);
      assert Owners(s, key) == 1;
    }
  }

  lemma ReopenData(s: System)
    requires Inv(s) && s.life.LDrained?
    ensures Data(ApplyReopen(s))
  {
    ReplaceOwnership(s, ApplyReopen(s));
  }

  lemma CrashControl(s: System)
    requires Control(s)
    ensures Control(ApplyCrash(s))
  {
  }

  lemma CrashData(s: System)
    requires Inv(s)
    ensures Data(ApplyCrash(s))
  {
    ReplaceOwnership(s, ApplyCrash(s));
  }

  // ----- all of them -----

  predicate SchedulerAction(a: Action) {
    a.Claim? || a.RollBack? || a.Dispatch? || a.StartManual?
  }

  predicate RunnerAction(a: Action) {
    a.ReadStop? || a.Interrupt? || a.Finish? || a.Next?
  }

  predicate LifecycleAction(a: Action) {
    a.Close? || a.Drain? || a.RequeueSaved? || a.Return? || a.Reopen?
  }

  predicate FileAction(a: Action) {
    a.Unclaim? || a.BeginWrite? || a.EndWrite?
  }

  predicate PlannerAction(a: Action) {
    a.Plan? || a.Unplan?
  }

  lemma SchedulerStep(s: System, a: Action)
    requires Inv(s) && Enabled(s, a) && SchedulerAction(a)
    ensures Inv(Apply(s, a))
  {
    hide Control, Data;
    match a
    case Claim(cfg, now, order, followups) =>
      ClaimControl(s, cfg, now, order, followups);
      ClaimData(s, cfg, now, order, followups);
    case RollBack =>
      RollBackControl(s);
      RollBackData(s);
    case Dispatch =>
      DispatchControl(s);
      DispatchData(s);
    case StartManual(request) =>
      SubmitControl(s, request);
      StartManualData(s, request);
  }

  lemma RunnerStep(s: System, a: Action)
    requires Inv(s) && Enabled(s, a) && RunnerAction(a)
    ensures Inv(Apply(s, a))
  {
    hide Control, Data;
    match a
    case ReadStop(i) =>
      ReadStopControl(s, i);
      ReadStopData(s, i);
    case Interrupt(i) =>
      InterruptControl(s, i);
      InterruptData(s, i);
    case Finish(i) =>
      FinishControl(s, i);
      FinishData(s, i);
    case Next(i) =>
      NextControl(s, i);
      NextData(s, i);
  }

  lemma LifecycleStep(s: System, a: Action)
    requires Inv(s) && Enabled(s, a) && LifecycleAction(a)
    ensures Inv(Apply(s, a))
  {
    hide Control, Data;
    match a
    case Close =>
      CloseControl(s);
      CloseData(s);
    case Drain =>
      LifeControl(s, LSaved(s.life.saved));
      LifeData(s, LSaved(s.life.saved));
    case RequeueSaved => RequeueSavedKeepsInv(s);
    case Return => ReturnKeepsInv(s);
    case Reopen =>
      ReopenUntainted(s);
      ReopenControl(s);
      ReopenData(s);
  }

  lemma FileStep(s: System, a: Action)
    requires Inv(s) && Enabled(s, a) && FileAction(a)
    ensures Inv(Apply(s, a))
  {
    hide Control, Data;
    match a
    case Unclaim(owner) =>
      UnclaimControl(s, owner);
      UnclaimData(s, owner);
    case BeginWrite(owner) =>
      BeginControl(s, owner);
      BeginData(s, owner);
    case EndWrite(ok) =>
      EndControl(s, ok);
      EndData(s, ok);
  }

  lemma PlannerStep(s: System, a: Action)
    requires Inv(s) && Enabled(s, a) && PlannerAction(a)
    ensures Inv(Apply(s, a))
  {
    hide Control, Data;
    match a
    case Plan(id, key, slot, now) =>
      PlanControl(s, id, key, slot, now);
      PlanData(s, id, key, slot, now);
    case Unplan(id) =>
      UnplanControl(s, id);
      UnplanData(s, id);
  }

  lemma EnvironmentStep(s: System, a: Action)
    requires Inv(s) && Enabled(s, a) && (a.Tick? || a.Crash?)
    ensures Inv(Apply(s, a))
  {
    hide Control, Data;
    match a
    case Tick(to) =>
      TickControl(s, to);
      TickData(s, to);
    case Crash =>
      CrashControl(s);
      CrashData(s);
  }

  lemma StepKeepsInv(s: System, a: Action)
    requires Inv(s) && Enabled(s, a)
    ensures Inv(Apply(s, a))
  {
    hide Inv;
    if SchedulerAction(a) {
      SchedulerStep(s, a);
    } else if RunnerAction(a) {
      RunnerStep(s, a);
    } else if LifecycleAction(a) {
      LifecycleStep(s, a);
    } else if FileAction(a) {
      FileStep(s, a);
    } else if PlannerAction(a) {
      PlannerStep(s, a);
    } else {
      EnvironmentStep(s, a);
    }
  }
}
