/** The rolling 24-hour limit and the five-hour cooldown of model calls.

    The state machine follows one account: its entry in memory, in the copy a writer holds, and on
    disk.  Sessions of other accounts only appear as further writers of the same file. */
module Limiter {
  import opened Clock
  import opened Options
  import opened Quota

  const LIMIT: nat := 5
  const COOLDOWN: int := 18_000_000_000_000 // 5 hours

  datatype Account = Account(attempts: seq<Time>, lastPrewarmAt: Time)

  predicate IsRecent(at: Time, now: Time) {
    at != ZERO && at > now - DAY && at <= now + MINUTE
  }

  function RecentAttempts(times: seq<Time>, now: Time): seq<Time> {
    if times == [] then []
    else if IsRecent(times[0], now) then [times[0]] + RecentAttempts(times[1..], now)
    else RecentAttempts(times[1..], now)
  }

  function WarmLimitReason(account: Account, now: Time): WarmReason {
    if |RecentAttempts(account.attempts, now)| >= LIMIT then RollingLimit
    else if account.lastPrewarmAt != ZERO && now < account.lastPrewarmAt + COOLDOWN then RecentPrewarm
    else Clear
  }

  function Reserve(account: Account, now: Time): Option<Account> {
    var recent := RecentAttempts(account.attempts, now);
    if |recent| >= LIMIT then None else Some(Account(recent + [now], now))
  }

  // ----- what the filter keeps -----

  /** The filter keeps each time with its multiplicity, or drops it altogether. */
  lemma {:induction false} RecentCount(times: seq<Time>, now: Time, at: Time)
    ensures multiset(RecentAttempts(times, now))[at] == if IsRecent(at, now) then multiset(times)[at] else 0
  {
    if times != [] {
      RecentCount(times[1..], now, at);
      assert times == [times[0]] + times[1..];
    }
  }

  /** The reservations of the last 24 hours, with a minute of tolerance for clocks that run ahead. */
  ghost function RecentPositions(times: seq<Time>, now: Time): set<int> {
    set i | 0 <= i < |times| && times[i] != ZERO && now - 24 * HOUR < times[i] <= now + 60 * SECOND
  }

  lemma {:induction false} RecentAppend(times: seq<Time>, at: Time, now: Time)
    ensures RecentAttempts(times + [at], now)
            == RecentAttempts(times, now) + if IsRecent(at, now) then [at] else []
  {
    if times == [] {
      assert [] + [at] == [at];
    } else {
      RecentAppend(times[1..], at, now);
      assert (times + [at])[1..] == times[1..] + [at];
    }
  }

  lemma {:induction false} RecentIsCounted(times: seq<Time>, now: Time)
    ensures |RecentAttempts(times, now)| == |RecentPositions(times, now)|
  {
    if times != [] {
      var n := |times| - 1;
      RecentIsCounted(times[..n], now);
      RecentAppend(times[..n], times[n], now);
      assert times == times[..n] + [times[n]];
      PositionsGrow(times, now);
    }
  }

  lemma PositionsGrow(times: seq<Time>, now: Time)
    requires times != []
    ensures var n := |times| - 1;
            |RecentPositions(times, now)|
            == |RecentPositions(times[..n], now)| + if IsRecent(times[n], now) then 1 else 0
  {
    var n := |times| - 1;
    var last := if IsRecent(times[n], now) then {n} else {};
    assert RecentPositions(times, now) == RecentPositions(times[..n], now) + last;
  }

  /** An account may be warmed if and only if it has fewer than five reservations of the last 24 hours and its
      last session ended five hours ago or more. */
  lemma WarmLimitIsExact(account: Account, now: Time)
    ensures WarmLimitReason(account, now).RollingLimit? <==> |RecentPositions(account.attempts, now)| >= 5
    ensures WarmLimitReason(account, now).Clear? <==>
              && |RecentPositions(account.attempts, now)| < 5
              && (account.lastPrewarmAt == ZERO || account.lastPrewarmAt + 5 * HOUR <= now)
  {
    RecentIsCounted(account.attempts, now);
  }

  /** A reservation is refused only by the rolling limit; a granted one is added to the recent ones. */
  lemma ReserveIsExact(account: Account, now: Time)
    ensures Reserve(account, now).Some? <==> |RecentPositions(account.attempts, now)| < 5
    ensures Reserve(account, now).Some? ==>
              && Reserve(account, now).value.lastPrewarmAt == now
              && |Reserve(account, now).value.attempts| == |RecentPositions(account.attempts, now)| + 1
              && forall at ::
                   multiset(Reserve(account, now).value.attempts)[at]
                   == (if at != ZERO && now - 24 * HOUR < at <= now + 60 * SECOND then multiset(account.attempts)[at]
                       else 0) + if at == now then 1 else 0
  {
    RecentIsCounted(account.attempts, now);
    if Reserve(account, now).Some? {
      forall at
        ensures multiset(RecentAttempts(account.attempts, now) + [now])[at]
                == (if IsRecent(at, now) then multiset(account.attempts)[at] else 0) + if at == now then 1 else 0
      {
        RecentCount(account.attempts, now, at);
      }
    }
  }

  lemma SubsetSize(a: multiset<Time>, b: multiset<Time>)
    requires a <= b
    ensures |a| <= |b|
  {
    assert b == a + (b - a);
  }

  // ----- the state machine -----

  /** One `executeAccountWithGuard` session.  `seen` is the clock at its latest step. */
  datatype Pc =
    | Idle
    | Ready(calls: nat, seen: Time)
    | Reserved(calls: nat, at: Time) // in memory, waiting for the file
    | InWrite(calls: nat, at: Time)
    | Granted(calls: nat, at: Time)
    | Refused(calls: nat, seen: Time)

  datatype Write = Write(mine: bool, copy: Account)

  datatype State = State(
    mem: Account,
    write: Option<Write>,
    disk: Account,
    clock: Time,
    pc: Pc,
    session: nat,
    calls: seq<Time>, // reservation times of all model calls ever made
    sessions: seq<nat>) // and the session of each

  datatype Action =
    | Tick(to: Time)
    | Check
    | ReserveAttempt
    | BeginWrite(mine: bool)
    | EndWrite(ok: bool)
    | MakeCall
    | SkipCall
    | EndSession(finishedAt: Time)
    | Load(imported: seq<Time>)
    | Crash(imported: seq<Time>)

  predicate Enabled(s: State, a: Action) {
    match a
    case Tick(to) => s.clock <= to
    case Check => s.pc.Idle? && WarmLimitReason(s.mem, s.clock) == Clear
    case ReserveAttempt => s.pc.Ready?
    case BeginWrite(mine) => s.write.None? && (mine ==> s.pc.Reserved?)
    case EndWrite(_) => s.write.Some? && (s.write.value.mine ==> s.pc.InWrite?)
    case MakeCall => s.pc.Granted?
    case SkipCall => s.pc.Granted?
    case EndSession(finishedAt) => (s.pc.Ready? || s.pc.Refused?) && s.pc.seen <= finishedAt <= s.clock
    // configure reads the file only after every run and write has ended
    case Load(_) => s.pc.Idle? && s.write.None?
    case Crash(_) => true
  }

  /** `readState`; an account without reservations may get times imported from old run records. */
  function ReadAccount(disk: Account, imported: seq<Time>): Account {
    if disk.attempts == [] then disk.(attempts := imported) else disk
  }

  function Apply(s: State, a: Action): State
    requires Enabled(s, a)
  {
    match a
    case Tick(to) => s.(clock := to)
    case Check => s.(pc := Ready(0, s.clock), session := s.session + 1)
    case ReserveAttempt => ApplyReserve(s)
    case BeginWrite(mine) => ApplyBeginWrite(s, mine)
    case EndWrite(ok) => ApplyEndWrite(s, ok)
    case MakeCall => ApplyMakeCall(s)
    // shutdown wins the race: the reservation stays, the call is not made
    case SkipCall => s.(pc := Refused(s.pc.calls + 1, s.clock))
    case EndSession(finishedAt) =>
      // recordAccountResult runs only when a reservation was granted
      s.(pc := Idle, mem := if s.pc.calls > 0 then s.mem.(lastPrewarmAt := finishedAt) else s.mem)
    case Load(imported) => s.(mem := ReadAccount(s.disk, imported))
    case Crash(imported) => s.(mem := ReadAccount(s.disk, imported), write := None, pc := Idle)
  }

  function ApplyReserve(s: State): State
    requires s.pc.Ready?
  {
    match Reserve(s.mem, s.clock)
    case None => s.(pc := Refused(s.pc.calls, s.clock))
    case Some(account) => s.(mem := account, pc := Reserved(s.pc.calls, s.clock))
  }

  function ApplyBeginWrite(s: State, mine: bool): State
    requires mine ==> s.pc.Reserved?
  {
    s.(write := Some(Write(mine, s.mem)), pc := if mine then InWrite(s.pc.calls, s.pc.at) else s.pc)
  }

  function ApplyMakeCall(s: State): State
    requires s.pc.Granted?
  {
    s.(calls := s.calls + [s.pc.at], sessions := s.sessions + [s.session], pc := Ready(s.pc.calls + 1, s.clock))
  }

  function ApplyEndWrite(s: State, ok: bool): State
    requires s.write.Some? && (s.write.value.mine ==> s.pc.InWrite?)
  {
    var pc := if !s.write.value.mine then s.pc
              else if ok then Granted(s.pc.calls, s.pc.at)
              else Refused(s.pc.calls, s.clock);
    s.(write := None, disk := if ok then s.write.value.copy else s.disk, pc := pc)
  }

  // ----- invariant -----

  predicate Pending(pc: Pc) {
    pc.Reserved? || pc.InWrite? || pc.Granted?
  }

  /** Reservation times of the calls made, and of the reservation under way. */
  function Reservations(s: State): seq<Time> {
    if Pending(s.pc) then s.calls + [s.pc.at] else s.calls
  }

  /** ... as far as the copy of a writer must know them ... */
  function KnownToCopy(s: State, mine: bool): seq<Time> {
    if s.pc.Granted? || (mine && s.pc.InWrite?) then s.calls + [s.pc.at] else s.calls
  }

  /** ... and the file. */
  function KnownToDisk(s: State): seq<Time> {
    if s.pc.Granted? then s.calls + [s.pc.at] else s.calls
  }

  ghost predicate Ordered(times: seq<Time>, clock: Time) {
    && (forall i, j :: 0 <= i < j < |times| ==> times[i] <= times[j])
    && (forall i :: 0 <= i < |times| ==> ZERO < times[i] <= clock)
  }

  /** Entries five positions apart are a day apart. */
  ghost predicate Spaced(times: seq<Time>) {
    forall i, j :: 0 <= i && j == i + LIMIT && j < |times| ==> times[i] + DAY <= times[j]
  }

  /** `account` remembers each of `times` that is younger than a day, and the latest of all. */
  ghost predicate Covers(account: Account, times: seq<Time>, clock: Time) {
    && (forall at :: at > clock - DAY ==> multiset(times)[at] <= multiset(account.attempts)[at])
    && (times != [] ==> times[|times| - 1] <= account.lastPrewarmAt)
  }

  /** Calls of different sessions are a cooldown apart. */
  ghost predicate Separated(calls: seq<Time>, sessions: seq<nat>) {
    && |calls| == |sessions|
    && forall i, j :: 0 <= i < j < |calls| ==> sessions[i] == sessions[j] || calls[i] + COOLDOWN <= calls[j]
  }

  /** At `now`, session `session` is allowed to make a call. */
  ghost predicate MayCall(calls: seq<Time>, sessions: seq<nat>, session: nat, now: Time) {
    && |calls| == |sessions|
    && forall i :: 0 <= i < |calls| && sessions[i] != session ==> calls[i] + COOLDOWN <= now
  }

  ghost predicate Cooled(s: State) {
    && Separated(s.calls, s.sessions)
    && (forall i :: 0 <= i < |s.sessions| ==> s.sessions[i] <= s.session)
    && (!s.pc.Idle? ==> MayCall(s.calls, s.sessions, s.session, if Pending(s.pc) then s.pc.at else s.clock))
  }

  predicate WriterMatches(s: State) {
    && (s.pc.InWrite? <==> s.write.Some? && s.write.value.mine)
    && (Pending(s.pc) ==> ZERO < s.pc.at <= s.clock)
    && (s.pc.Ready? || s.pc.Refused? ==>
          s.pc.seen <= s.clock && (s.calls != [] ==> s.calls[|s.calls| - 1] <= s.pc.seen))
    && ZERO < s.clock
  }

  /** The limit holds, and each copy of the account knows enough to keep it. */
  ghost predicate Limited(s: State) {
    && Ordered(Reservations(s), s.clock) && Spaced(Reservations(s))
    && Covers(s.mem, Reservations(s), s.clock)
    && Covers(s.disk, KnownToDisk(s), s.clock)
    && (s.write.Some? ==> Covers(s.write.value.copy, KnownToCopy(s, s.write.value.mine), s.clock))
  }

  ghost predicate Inv(s: State) {
    WriterMatches(s) && Limited(s) && Cooled(s)
  }

  /** Five reservations within the last day fill the limit. */
  lemma FullWindow(account: Account, times: seq<Time>, now: Time)
    requires Ordered(times, now) && Covers(account, times, now)
    requires |times| >= LIMIT && times[|times| - LIMIT] > now - DAY
    ensures |RecentAttempts(account.attempts, now)| >= LIMIT
  {
    var last := times[|times| - LIMIT..];
    assert times == times[..|times| - LIMIT] + last;
    forall at
      ensures multiset(last)[at] <= multiset(RecentAttempts(account.attempts, now))[at]
    {
      RecentCount(account.attempts, now, at);
      if at in multiset(last) {
        assert at in last;
      }
    }
    SubsetSize(multiset(last), multiset(RecentAttempts(account.attempts, now)));
    assert |multiset(last)| == |last|;
  }

  lemma ReserveKeepsSpacing(account: Account, times: seq<Time>, now: Time)
    requires ZERO < now && Ordered(times, now) && Spaced(times) && Covers(account, times, now)
    requires |RecentAttempts(account.attempts, now)| < LIMIT
    ensures Ordered(times + [now], now) && Spaced(times + [now])
  {
    if |times| >= LIMIT && times[|times| - LIMIT] > now - DAY {
      FullWindow(account, times, now);
    }
    var next := times + [now];
    forall i, j | 0 <= i && j == i + LIMIT && j < |next|
      ensures next[i] + DAY <= next[j]
    {
      assert next[i] == times[i];
      if j < |times| {
        assert times[i] + DAY <= times[j];
      }
    }
  }

  lemma PruningKeepsCover(attempts: seq<Time>, times: seq<Time>, now: Time, at: Time)
    requires Ordered(times, now) && at > now - DAY
    requires multiset(times)[at] <= multiset(attempts)[at]
    ensures multiset(times)[at] <= multiset(RecentAttempts(attempts, now))[at]
  {
    RecentCount(attempts, now, at);
    if at in multiset(times) {
      assert at in times;
    }
  }

  /** A granted reservation keeps the spacing, and memory knows it together with all older ones. */
  lemma ReserveKeepsCover(account: Account, times: seq<Time>, now: Time)
    requires ZERO < now && Ordered(times, now) && Spaced(times) && Covers(account, times, now)
    requires Reserve(account, now).Some?
    ensures Ordered(times + [now], now) && Spaced(times + [now])
    ensures Covers(Reserve(account, now).value, times + [now], now)
  {
    ReserveKeepsSpacing(account, times, now);
    forall at | at > now - DAY
      ensures multiset(times + [now])[at] <= multiset(RecentAttempts(account.attempts, now) + [now])[at]
    {
      PruningKeepsCover(account.attempts, times, now, at);
    }
  }

  /** Dropping the reservation under way keeps what was known. */
  lemma CoversShorter(account: Account, times: seq<Time>, at: Time, clock: Time)
    requires Covers(account, times + [at], clock) && Ordered(times + [at], clock)
    ensures Covers(account, times, clock) && Ordered(times, clock)
  {
    assert forall i :: 0 <= i < |times| ==> (times + [at])[i] == times[i];
    assert (times + [at])[|times|] == at;
  }

  lemma CoversLater(account: Account, times: seq<Time>, clock: Time, later: Time)
    requires Covers(account, times, clock) && clock <= later
    ensures Covers(account, times, later)
  {
  }

  lemma MayCallLater(calls: seq<Time>, sessions: seq<nat>, session: nat, now: Time, later: Time)
    requires MayCall(calls, sessions, session, now) && now <= later
    ensures MayCall(calls, sessions, session, later)
  {
  }

  lemma SpacedShorter(times: seq<Time>, at: Time)
    requires Spaced(times + [at])
    ensures Spaced(times)
  {
    forall i, j | 0 <= i && j == i + LIMIT && j < |times|
      ensures times[i] + DAY <= times[j]
    {
      assert (times + [at])[i] == times[i] && (times + [at])[j] == times[j];
    }
  }

  /** The last call is not later than the reservation under way, nor than the clock. */
  lemma LastCallIsPast(s: State)
    requires Limited(s) && s.calls != []
    ensures s.calls[|s.calls| - 1] <= if Pending(s.pc) then s.pc.at else s.clock
  {
    var times := Reservations(s);
    assert times[|s.calls| - 1] == s.calls[|s.calls| - 1];
    if Pending(s.pc) {
      assert times[|s.calls|] == s.pc.at;
    }
  }

  lemma ReserveStep(s: State)
    requires Inv(s) && s.pc.Ready?
    ensures Inv(ApplyReserve(s))
  {
    if Reserve(s.mem, s.clock).Some? {
      ReserveKeepsCover(s.mem, s.calls, s.clock);
    } else if s.calls != [] {
      LastCallIsPast(s);
    }
  }

  lemma BeginWriteStep(s: State, mine: bool)
    requires Inv(s) && s.write.None? && (mine ==> s.pc.Reserved?)
    ensures Inv(ApplyBeginWrite(s, mine))
  {
    if Pending(s.pc) {
      CoversShorter(s.mem, s.calls, s.pc.at, s.clock);
    }
  }

  lemma GrantStep(s: State)
    requires Inv(s) && s.pc.InWrite?
    ensures Inv(ApplyEndWrite(s, true))
  {
  }

  /** The reservation under way comes to nothing, but every copy keeps what it knew of the calls. */
  lemma WithoutPending(s: State)
    requires Limited(s) && Pending(s.pc)
    ensures Ordered(s.calls, s.clock) && Spaced(s.calls)
    ensures Covers(s.mem, s.calls, s.clock) && Covers(s.disk, s.calls, s.clock)
    ensures s.write.Some? ==> Covers(s.write.value.copy, s.calls, s.clock)
  {
    SpacedShorter(s.calls, s.pc.at);
    CoversShorter(s.mem, s.calls, s.pc.at, s.clock);
    if s.pc.Granted? {
      CoversShorter(s.disk, s.calls, s.pc.at, s.clock);
    }
    if s.write.Some? && KnownToCopy(s, s.write.value.mine) != s.calls {
      CoversShorter(s.write.value.copy, s.calls, s.pc.at, s.clock);
    }
  }

  lemma RefusedLimited(s: State, t: State)
    requires Limited(s) && Pending(s.pc)
    requires t == s.(pc := t.pc, write := t.write) && t.pc.Refused?
    requires t.write.Some? ==> t.write == s.write && !t.write.value.mine
    ensures Limited(t)
  {
    WithoutPending(s);
  }

  lemma RefusedCooled(s: State, t: State)
    requires Cooled(s) && Pending(s.pc) && s.pc.at <= s.clock
    requires t == s.(pc := t.pc, write := t.write) && t.pc.Refused?
    ensures Cooled(t)
  {
    MayCallLater(s.calls, s.sessions, s.session, s.pc.at, s.clock);
  }

  lemma RefuseStep(s: State)
    requires Inv(s) && s.pc.InWrite?
    ensures Inv(ApplyEndWrite(s, false))
  {
    var t := ApplyEndWrite(s, false);
    if s.calls != [] {
      LastCallIsPast(s);
    }
    RefusedLimited(s, t);
    RefusedCooled(s, t);
  }

  lemma OtherWriteStep(s: State, ok: bool)
    requires Inv(s) && s.write.Some? && !s.write.value.mine
    ensures Inv(ApplyEndWrite(s, ok))
  {
  }

  lemma EndWriteStep(s: State, ok: bool)
    requires Inv(s) && s.write.Some?
    ensures Inv(ApplyEndWrite(s, ok))
  {
    if !s.write.value.mine {
      OtherWriteStep(s, ok);
    } else if ok {
      GrantStep(s);
    } else {
      RefuseStep(s);
    }
  }

  lemma MakeCallStep(s: State)
    requires Inv(s) && s.pc.Granted?
    ensures Inv(ApplyMakeCall(s))
  {
    var t := ApplyMakeCall(s);
    assert Limited(t) by {
      hide Covers, Ordered, Spaced;
      assert Reservations(t) == Reservations(s) && KnownToDisk(t) == KnownToDisk(s);
    }
    hide Limited;
    CalledIsCooled(s);
  }

  lemma CalledIsCooled(s: State)
    requires Cooled(s) && s.pc.Granted? && s.pc.at <= s.clock
    ensures Cooled(ApplyMakeCall(s))
  {
  }

  lemma SkipCallStep(s: State)
    requires Inv(s) && s.pc.Granted?
    ensures Inv(s.(pc := Refused(s.pc.calls + 1, s.clock)))
  {
    var t := s.(pc := Refused(s.pc.calls + 1, s.clock));
    if s.calls != [] {
      LastCallIsPast(s);
    }
    RefusedLimited(s, t);
    RefusedCooled(s, t);
  }

  /** Without a reservation under way the limit does not look at the session. */
  lemma SessionChangeLimited(s: State, t: State)
    requires Limited(s) && t == s.(pc := t.pc, session := t.session)
    requires !Pending(s.pc) && !Pending(t.pc)
    ensures Limited(t)
  {
    hide Covers, Ordered, Spaced;
  }

  /** A session may start only when every earlier call is a cooldown old. */
  lemma CheckStep(s: State)
    requires Inv(s) && s.pc.Idle? && WarmLimitReason(s.mem, s.clock) == Clear
    ensures Inv(s.(pc := Ready(0, s.clock), session := s.session + 1))
  {
    hide Limited, RecentAttempts;
    SessionChangeLimited(s, s.(pc := Ready(0, s.clock), session := s.session + 1));
    CheckedCalls(s);
  }

  /** Memory knows the latest call, so a clear check means that all calls are a cooldown old. */
  lemma CheckedCalls(s: State)
    requires Limited(s) && s.pc.Idle? && WarmLimitReason(s.mem, s.clock) == Clear
    ensures forall i :: 0 <= i < |s.calls| ==> s.calls[i] + COOLDOWN <= s.clock
    ensures s.calls != [] ==> s.calls[|s.calls| - 1] <= s.clock
  {
    hide Spaced, RecentAttempts;
    assert Reservations(s) == s.calls;
    forall i | 0 <= i < |s.calls|
      ensures s.calls[i] + COOLDOWN <= s.clock
    {
      assert s.calls[i] <= s.calls[|s.calls| - 1] <= s.mem.lastPrewarmAt;
      assert s.calls[i] > ZERO;
    }
  }

  lemma EndSessionStep(s: State, mem: Account)
    requires Inv(s) && (s.pc.Ready? || s.pc.Refused?)
    requires mem == s.mem || (mem.attempts == s.mem.attempts && s.pc.seen <= mem.lastPrewarmAt)
    ensures Inv(s.(pc := Idle, mem := mem))
  {
    hide Ordered, Spaced, Separated, MayCall;
    assert Reservations(s.(pc := Idle, mem := mem)) == Reservations(s) == s.calls;
  }

  /** What the file knows includes every call. */
  lemma DiskKnowsCalls(s: State)
    requires Limited(s)
    ensures Ordered(s.calls, s.clock) && Spaced(s.calls) && Covers(s.disk, s.calls, s.clock)
  {
    hide Ordered, Spaced, Covers;
    if Pending(s.pc) {
      WithoutPending(s);
    }
  }

  lemma ImportKeepsCover(disk: Account, mem: Account, calls: seq<Time>, clock: Time)
    requires Covers(disk, calls, clock)
    requires mem == disk || (disk.attempts == [] && mem.lastPrewarmAt == disk.lastPrewarmAt)
    ensures Covers(mem, calls, clock)
  {
  }

  /** Only what the file knows survives. */
  lemma ReplaceStep(s: State, mem: Account)
    requires Inv(s) && (mem == s.disk || (s.disk.attempts == [] && mem.lastPrewarmAt == s.disk.lastPrewarmAt))
    ensures Inv(s.(mem := mem, write := None, pc := Idle))
  {
    DiskKnowsCalls(s);
    ImportKeepsCover(s.disk, mem, s.calls, s.clock);
    hide Ordered, Spaced, Separated, MayCall, Covers;
    var t := s.(mem := mem, write := None, pc := Idle);
    assert Reservations(t) == KnownToDisk(t) == s.calls;
  }

  lemma OrderedLater(times: seq<Time>, clock: Time, later: Time)
    requires Ordered(times, clock) && clock <= later
    ensures Ordered(times, later)
  {
  }

  lemma TickLimited(s: State, to: Time)
    requires Limited(s) && s.clock <= to
    ensures Limited(s.(clock := to))
  {
    var t := s.(clock := to);
    assert Reservations(t) == Reservations(s) && KnownToDisk(t) == KnownToDisk(s);
    OrderedLater(Reservations(s), s.clock, to);
    CoversLater(s.mem, Reservations(s), s.clock, to);
    CoversLater(s.disk, KnownToDisk(s), s.clock, to);
    if s.write.Some? {
      CoversLater(s.write.value.copy, KnownToCopy(s, s.write.value.mine), s.clock, to);
    }
  }

  lemma TickCooled(s: State, to: Time)
    requires Cooled(s) && s.clock <= to
    ensures Cooled(s.(clock := to))
  {
    if !s.pc.Idle? && !Pending(s.pc) {
      MayCallLater(s.calls, s.sessions, s.session, s.clock, to);
    }
  }

  lemma TickStep(s: State, to: Time)
    requires Inv(s) && s.clock <= to
    ensures Inv(s.(clock := to))
  {
    TickLimited(s, to);
    TickCooled(s, to);
  }

  lemma SessionStep(s: State, a: Action)
    requires Inv(s) && Enabled(s, a) && (a.Check? || a.ReserveAttempt? || a.EndSession?)
    ensures Inv(Apply(s, a))
  {
    hide Limited, Cooled, WriterMatches;
    match a
    case Check => CheckStep(s);
    case ReserveAttempt => ReserveStep(s);
    case EndSession(finishedAt) =>
      EndSessionStep(s, if s.pc.calls > 0 then s.mem.(lastPrewarmAt := finishedAt) else s.mem);
  }

  lemma StepKeepsInv(s: State, a: Action)
    requires Inv(s) && Enabled(s, a)
    ensures Inv(Apply(s, a))
  {
    hide Inv;
    match a
    case Tick(to) => TickStep(s, to);
    case BeginWrite(mine) => BeginWriteStep(s, mine);
    case EndWrite(ok) => EndWriteStep(s, ok);
    case MakeCall => MakeCallStep(s);
    case SkipCall => SkipCallStep(s);
    case Load(imported) => ReplaceStep(s, ReadAccount(s.disk, imported));
    case Crash(imported) => ReplaceStep(s, ReadAccount(s.disk, imported));
    case _ => SessionStep(s, a);
  }

  // ----- what holds over whole runs -----

  /** No call has been made yet, and the file has nothing to forget. */
  ghost predicate Initial(s: State) {
    && s.mem == s.disk && s.write.None? && s.pc.Idle? && s.calls == [] && s.sessions == []
    && s.session == 0 && ZERO < s.clock
  }

  ghost predicate IsRun(run: seq<State>, actions: seq<Action>) {
    && |run| == |actions| + 1 && Initial(run[0])
    && forall i :: 0 <= i < |actions| ==> Enabled(run[i], actions[i]) && run[i + 1] == Apply(run[i], actions[i])
  }

  lemma {:induction false} RunInv(run: seq<State>, actions: seq<Action>, i: nat)
    requires IsRun(run, actions) && i < |run|
    ensures Inv(run[i])
  {
    if i > 0 {
      RunInv(run, actions, i - 1);
      StepKeepsInv(run[i - 1], actions[i - 1]);
    }
  }

  /** Any two calls five positions apart in the whole history of the account are at least 24 hours
      apart, across runs, reloads, failed writes and crashes. */
  lemma RollingLimitHolds(run: seq<State>, actions: seq<Action>, n: nat, i: nat)
    requires IsRun(run, actions) && n < |run| && i + LIMIT < |run[n].calls|
    ensures run[n].calls[i] + DAY <= run[n].calls[i + LIMIT]
  {
    RunInv(run, actions, n);
    if Pending(run[n].pc) {
      WithoutPending(run[n]);
    }
  }

  /** A call of a later session comes at least five hours after every call of an earlier one. */
  lemma CooldownHolds(run: seq<State>, actions: seq<Action>, n: nat, i: nat, j: nat)
    requires IsRun(run, actions) && n < |run| && i < j < |run[n].calls|
    ensures |run[n].sessions| == |run[n].calls|
    ensures run[n].sessions[i] != run[n].sessions[j] ==> run[n].calls[i] + COOLDOWN <= run[n].calls[j]
  {
    RunInv(run, actions, n);
  }

  /** A reservation reaches the file before its call is made, so a crash cannot undo it. */
  lemma ReservationSurvivesCrash(s: State, imported: seq<Time>)
    requires Inv(s) && s.pc.Granted?
    ensures var restarted := ReadAccount(s.disk, imported);
            && s.pc.at <= restarted.lastPrewarmAt
            && (s.pc.at > s.clock - DAY ==> s.pc.at in restarted.attempts)
  {
    var times := s.calls + [s.pc.at];
    assert times[|times| - 1] == s.pc.at;
    if s.pc.at > s.clock - DAY {
      assert multiset(times)[s.pc.at] > 0;
      assert s.pc.at in multiset(s.disk.attempts);
    }
  }

  // ----- the imperative bodies -----

  /** The account table of the runtime state, as far as the limiter uses it. */
  class AccountTable {
    var accounts: map<string, Account>

    constructor ()
      ensures accounts == map[]
    {
      accounts := map[];
    }

    function Lookup(name: string): Account
      reads this
    {
      if name in accounts then accounts[name] else Account([], ZERO)
    }

    method FilterRecent(times: seq<Time>, now: Time) returns (kept: seq<Time>)
      ensures kept == RecentAttempts(times, now)
    {
      kept := [];
      for i := 0 to |times|
        invariant kept + RecentAttempts(times[i..], now) == RecentAttempts(times, now)
      {
        assert times[i..] == [times[i]] + times[i + 1..];
        if IsRecent(times[i], now) {
          kept := kept + [times[i]];
        }
      }
    }

    method LimitReasonOf(name: string, now: Time) returns (reason: WarmReason)
      ensures reason == WarmLimitReason(Lookup(name), now)
    {
      var window := Lookup(name);
      var recent := FilterRecent(window.attempts, now);
      if |recent| >= LIMIT {
        return RollingLimit;
      }
      if window.lastPrewarmAt != ZERO && now < window.lastPrewarmAt + COOLDOWN {
        return RecentPrewarm;
      }
      return Clear;
    }

    /** The memory section of `reserveAttempt`. */
    method ReserveInMemory(name: string, now: Time) returns (reserved: bool)
      modifies this
      ensures reserved == Reserve(old(Lookup(name)), now).Some?
      ensures accounts == if reserved then old(accounts)[name := Reserve(old(Lookup(name)), now).value]
                          else old(accounts)
    {
      var window := Lookup(name);
      var recent := FilterRecent(window.attempts, now);
      if |recent| >= LIMIT {
        return false;
      }
      accounts := accounts[name := Account(recent + [now], now)];
      return true;
    }

    /** The part of `recordAccountResult` the limiter depends on. */
    method RecordResult(name: string, finishedAt: Time)
      modifies this
      ensures accounts == old(accounts)[name := old(Lookup(name)).(lastPrewarmAt := finishedAt)]
    {
      accounts := accounts[name := Lookup(name).(lastPrewarmAt := finishedAt)];
    }
  }
}
