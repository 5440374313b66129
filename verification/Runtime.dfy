/** The runtime object: the fields its mutex guards, and its critical sections as methods.

    Each method is one stretch of code between lock and unlock.  Its contract equates the new field
    values with the function of `RunProtocol` that the interleaved system is built from. */
module RuntimeObject {
  import opened Clock
  import opened Options
  import opened RunProtocol

  class Runtime {
    var closed: bool
    var generation: nat
    var stop: nat
    var running: bool
    var current: Option<Request>
    var pending: seq<Request>
    var slots: Slots
    var closedStops: set<nat> // the stop channels closed so far; the current one is `stop`
    var scheduled: bool // cron and scheduler are attached

    ghost function View(): Memory
      reads this
    {
      Memory(closed, generation, stop, running, current, pending, slots)
    }

    constructor (slots: Slots)
      ensures View() == Memory(true, 1, 0, false, None, [], slots)
      ensures closedStops == {0} && !scheduled
    {
      this.closed, this.generation, this.stop := true, 1, 0;
      this.running, this.current, this.pending := false, None, [];
      this.slots, this.closedStops, this.scheduled := slots, {0}, false;
    }

    /** The search for a live request with the same identity. */
    method FindLive(request: Request) returns (live: bool)
      ensures live == IsLive(View(), request)
    {
      if current.Some? && SameIdentity(current.value, request) {
        return true;
      }
      for i := 0 to |pending|
        invariant forall j :: 0 <= j < i ==> !SameIdentity(pending[j], request)
      {
        if SameIdentity(pending[i], request) {
          return true;
        }
      }
      return false;
    }

    method StartJob(request: Request) returns (outcome: Outcome)
      modifies this`running, this`current, this`pending
      ensures outcome == StartOutcome(old(View()), request)
      ensures View() == StartRunJob(old(View()), request)
      ensures Admits(old(View()), request, outcome, View())
    {
      StartOutcomeIsExact(View(), request);
      if closed || (request.generation != 0 && request.generation != generation) {
        return Rejected;
      }
      if running {
        if request.trigger == Manual {
          return Busy;
        }
        var live := FindLive(request);
        if live {
          return Duplicate;
        }
        pending := pending + [request];
        return Queued;
      }
      running := true;
      current := Some(request);
      return Launched;
    }

    /** The end of one run in `runQueue`: the next request, or none when the goroutine returns. */
    method EndRun() returns (next: Option<Request>)
      modifies this`running, this`current, this`pending
      ensures View() == FinishRun(old(View()))
      ensures next == current
      ensures if closed || old(pending) == [] then next == None && !running && pending == []
              else running == old(running) && [next.value] + pending == old(pending)
    {
      if pending == [] || closed {
        pending := [];
        running := false;
        current := None;
        return None;
      }
      current := Some(pending[0]);
      pending := pending[1..];
      return current;
    }

    /** The memory section of `quiesce`. */
    method Shut() returns (saved: seq<Request>)
      requires closed ==> stop in closedStops
      modifies this`closed, this`generation, this`pending, this`closedStops, this`scheduled
      ensures View() == CloseGate(old(View())) && saved == old(pending)
      ensures closed && generation == old(generation) + 1 && pending == []
      ensures closedStops == old(closedStops) + {stop} && !scheduled
    {
      if !closed {
        closedStops := closedStops + {stop};
      }
      scheduled := false;
      closed := true;
      generation := generation + 1;
      saved := pending;
      pending := [];
    }

    /** The memory section of `requeueInterrupted`; `changed` asks for a write. */
    method Requeue(request: Request) returns (changed: bool)
      modifies this`slots
      ensures changed == PutBackChanges(old(slots), request)
      ensures slots == PutBack(old(slots), request)
      ensures slots.Keys == old(slots).Keys
      ensures forall key :: key in slots ==>
                slots[key] == if request.slot == Some(key) then old(slots)[key].(startedAt := ZERO) else old(slots)[key]
    {
      match request.slot
      case Some(key) =>
        if key in slots && slots[key].startedAt != ZERO {
          slots := slots[key := slots[key].(startedAt := ZERO)];
          return true;
        }
        return false;
      case None =>
        return request.trigger == ResetFollowup;
    }

    /** The end of `configure`; `schedule` when there is anything to schedule. */
    method Load(disk: Slots, schedule: bool)
      modifies this`closed, this`stop, this`slots, this`scheduled
      ensures View() == Reload(old(View()), disk) && scheduled == schedule
      ensures !closed && stop == old(stop) + 1 && slots == disk
    {
      scheduled := schedule;
      slots := disk;
      closed := false;
      stop := stop + 1;
    }

    /** The claiming loop of `processDue`, over the slots in whatever order the map yields them. */
    method ClaimDue(cfg: Config, now: Time) returns (previous: Slots, requests: seq<Request>, ghost order: seq<SlotKey>)
      modifies this`slots
      ensures slots == ClaimAll(cfg, old(slots), now)
      ensures NoDuplicates(order) && (set key | key in order) == DueKeys(cfg, old(slots), now)
      ensures requests == SlotRequests(cfg, order)
      ensures previous == map key | key in DueKeys(cfg, old(slots), now) :: old(slots)[key]
      ensures ClaimsExactly(cfg, old(slots), now, slots, requests)
    {
      hide Due, SlotRequest, ClaimsExactly;
      previous, requests, order := map[], [], [];
      var todo := slots.Keys;
      while todo != {}
        invariant todo <= old(slots).Keys == slots.Keys
        invariant forall key :: key in todo ==> slots[key] == old(slots)[key]
        invariant forall key :: key in slots && key !in todo ==>
                    slots[key] == if Due(cfg, key, old(slots)[key], now) then old(slots)[key].(startedAt := now)
                                  else old(slots)[key]
        invariant NoDuplicates(order)
        invariant forall key :: key in order <==> key in DueKeys(cfg, old(slots), now) && key !in todo
        invariant requests == SlotRequests(cfg, order)
        invariant forall key :: key in previous <==> key in DueKeys(cfg, old(slots), now) && key !in todo
        invariant forall key :: key in previous ==> previous[key] == old(slots)[key]
        decreases todo
      {
        var key :| key in todo;
        todo := todo - {key};
        if Due(cfg, key, slots[key], now) {
          previous := previous[key := slots[key]];
          slots := slots[key := slots[key].(startedAt := now)];
          requests := requests + [SlotRequest(cfg, key)];
          order := order + [key];
        }
      }
      ClaimIsExact(cfg, old(slots), now, order);
    }

    /** The rollback loop of `processDue` after a failed write. */
    method RollBackClaims(previous: Slots, now: Time)
      modifies this`slots
      ensures slots == RestoreClaims(old(slots), previous, now)
      ensures slots.Keys == old(slots).Keys
      ensures forall key :: key in slots ==>
                slots[key] == if key in previous && old(slots)[key].startedAt == now then previous[key]
                              else old(slots)[key]
    {
      var todo := previous.Keys;
      while todo != {}
        invariant todo <= previous.Keys && slots.Keys == old(slots).Keys
        invariant forall key :: key in slots ==>
                    slots[key] == if key in previous && key !in todo && old(slots)[key].startedAt == now
                                  then previous[key] else old(slots)[key]
        decreases todo
      {
        var key :| key in todo;
        todo := todo - {key};
        if key in slots && slots[key].startedAt == now {
          slots := slots[key := previous[key]];
        }
      }
    }

    /** The memory section of `planSlot`: insert the slot unless the gate is closed or it is known
        already, then forget the slots past their age. */
    method Insert(key: SlotKey, slot: Slot, now: Time) returns (inserted: bool)
      modifies this`slots
      ensures inserted == (!closed && key !in old(slots))
      ensures slots == if inserted then PlanSlot(old(slots), key, slot, now) else old(slots)
      ensures inserted ==>
                forall k :: k in slots <==> (k == key || k in old(slots)) && now - 48 * HOUR <= k.base
      ensures forall k :: k in slots ==> slots[k] == if inserted && k == key then slot else old(slots)[k]
    {
      if closed || key in slots {
        return false;
      }
      slots := slots[key := slot];
      var todo := slots.Keys;
      ghost var inserting := slots;
      while todo != {}
        invariant todo <= inserting.Keys && slots.Keys <= inserting.Keys
        invariant forall k :: k in inserting ==> (k in slots <==> k in todo || k.base >= now - MAX_SLOT_AGE)
        invariant forall k :: k in slots ==> slots[k] == inserting[k]
        decreases todo
      {
        var stale :| stale in todo;
        todo := todo - {stale};
        if stale.base < now - MAX_SLOT_AGE {
          slots := slots - {stale};
        }
      }
      return true;
    }

    /** What `planSlot` does when its write failed. */
    method Remove(key: SlotKey, jitter: int)
      modifies this`slots
      ensures slots == UnplanSlot(old(slots), key, jitter)
      ensures forall k :: k in slots <==>
                k in old(slots) && !(k == key && old(slots)[k].startedAt == ZERO && old(slots)[k].jitter == jitter)
      ensures forall k :: k in slots ==> slots[k] == old(slots)[k]
    {
      if key in slots && slots[key].startedAt == ZERO && slots[key].jitter == jitter {
        slots := slots - {key};
      }
    }
  }
}
