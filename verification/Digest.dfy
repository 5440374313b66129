/** The incremental digest equals a recount of the full log of runs. */
module Digest {
  import opened Clock
  import opened Notifications
  import opened Results

  /** One account result of the log. */
  datatype Entry = Entry(at: Time, item: Item)

  function Entries(at: Time, items: seq<Item>): seq<Entry> {
    if items == [] then [] else Entries(at, items[..|items| - 1]) + [Entry(at, items[|items| - 1])]
  }

  function Flat(log: seq<Run>): seq<Entry> {
    if log == [] then []
    else Flat(log[..|log| - 1]) + Entries(log[|log| - 1].at, log[|log| - 1].items)
  }

  predicate InWindow(at: Time, end: Time) {
    end - DAY <= at < end
  }

  /** The length of the suffix of unknown results of an account. */
  function Streak(seen: seq<Entry>, account: string): nat {
    if seen == [] then 0
    else
      var last, before := seen[|seen| - 1], seen[..|seen| - 1];
      if last.item.account != account then Streak(before, account)
      else if UnknownQuota(last.item) then Streak(before, account) + 1
      else 0
  }

  function ItemsOf(seen: seq<Entry>, account: string): seq<Item> {
    if seen == [] then []
    else
      var last := seen[|seen| - 1].item;
      ItemsOf(seen[..|seen| - 1], account) + if last.account == account then [last] else []
  }

  lemma {:induction false} StreakIsSuffix(seen: seq<Entry>, account: string)
    ensures var mine, k := ItemsOf(seen, account), Streak(seen, account);
            && k <= |mine|
            && (forall i :: |mine| - k <= i < |mine| ==> Unknown(mine[i]))
            && (k < |mine| ==> !Unknown(mine[|mine| - k - 1]))
  {
    hide UnknownQuota, Unknown;
    if seen != [] {
      StreakIsSuffix(seen[..|seen| - 1], account);
      UnknownIsExact(seen[|seen| - 1].item);
    }
  }

  /** What a window counts. */
  datatype Metric =
    | SucceededTotal
    | FailedTotal
    | AccountSucceeded(account: string)
    | AccountFailed(account: string)
    | Skips(reason: string)

  function Value(w: Window, m: Metric): nat {
    match m
    case SucceededTotal => w.succeeded
    case FailedTotal => w.failed
    case AccountSucceeded(account) => TallyOf(w, account).succeeded
    case AccountFailed(account) => TallyOf(w, account).failed
    case Skips(reason) => SkipsOf(w, reason)
  }

  /** Whether one result counts, given the category of its failure. */
  predicate Scores(item: Item, category: MaybeCategory, m: Metric) {
    match m
    case SucceededTotal => item.responseReceived
    case FailedTotal => category.Failure?
    case AccountSucceeded(account) => item.account == account && item.responseReceived
    case AccountFailed(account) => item.account == account && category.Failure?
    case Skips(reason) => SkipReason(item) == SkippedAs(reason)
  }

  /** The number of results of the log that fall into the window and count; the failure category looks
      at the account's streak at that point of the log. */
  function Recount(seen: seq<Entry>, threshold: nat, end: Time, m: Metric): nat {
    if seen == [] then 0
    else
      var last := seen[|seen| - 1];
      var category := FailureCategory(last.item, Streak(seen, last.item.account), threshold);
      Recount(seen[..|seen| - 1], threshold, end, m)
      + if InWindow(last.at, end) && Scores(last.item, category, m) then 1 else 0
  }

  function RunCount(log: seq<Run>, end: Time): nat {
    if log == [] then 0
    else
      var last := log[|log| - 1];
      RunCount(log[..|log| - 1], end) + if InWindow(last.at, end) && !last.quotaRefresh then 1 else 0
  }

  // ----- the results that a window is about, over the fields of the log -----

  /** With this result the account has had at least `threshold` unknown results in a row. */
  ghost predicate EndsUnknownStreak(seen: seq<Entry>, i: nat, threshold: nat)
    requires i < |seen|
  {
    var mine := ItemsOf(seen[..i + 1], seen[i].item.account);
    |mine| >= threshold && forall j :: |mine| - threshold <= j < |mine| ==> Unknown(mine[j])
  }

  /** The result is a failure of this category. */
  ghost predicate FailsAs(seen: seq<Entry>, i: nat, threshold: nat, category: Category)
    requires i < |seen|
  {
    match category
    case RequestFailed => FailedRequest(seen[i].item)
    case QuotaUnknown => !FailedRequest(seen[i].item) && EndsUnknownStreak(seen, i, threshold)
  }

  ghost predicate IsCounted(seen: seq<Entry>, i: nat, threshold: nat, m: Metric)
    requires i < |seen|
  {
    var item := seen[i].item;
    match m
    case SucceededTotal => item.responseReceived
    case FailedTotal => FailedRequest(item) || EndsUnknownStreak(seen, i, threshold)
    case AccountSucceeded(account) => item.account == account && item.responseReceived
    case AccountFailed(account) =>
      item.account == account && (FailedRequest(item) || EndsUnknownStreak(seen, i, threshold))
    case Skips(reason) => IsSkip(item, reason)
  }

  /** The results that belong to the window and count. */
  ghost function ResultsIn(seen: seq<Entry>, threshold: nat, end: Time, m: Metric): set<nat> {
    set i: nat | i < |seen| && end - DAY <= seen[i].at < end && IsCounted(seen, i, threshold, m)
  }

  /** The runs that belong to the window, apart from quota refreshes. */
  ghost function RunsIn(log: seq<Run>, end: Time): set<nat> {
    set i: nat | i < |log| && end - DAY <= log[i].at < end && !log[i].quotaRefresh
  }

  lemma StreakReaches(seen: seq<Entry>, threshold: nat)
    requires seen != []
    ensures Streak(seen, seen[|seen| - 1].item.account) >= threshold <==>
            EndsUnknownStreak(seen, |seen| - 1, threshold)
  {
    hide Unknown;
    var n := |seen| - 1;
    assert seen[..n + 1] == seen;
    StreakIsSuffix(seen, seen[n].item.account);
  }

  /** The category given to a result at the end of the log. */
  lemma LastFails(seen: seq<Entry>, threshold: nat)
    requires seen != []
    ensures var last := seen[|seen| - 1].item;
            var category := FailureCategory(last, Streak(seen, last.account), threshold);
            && (category.Failure? <==> FailedRequest(last) || EndsUnknownStreak(seen, |seen| - 1, threshold))
            && forall c: Category :: category == Failure(c) <==> FailsAs(seen, |seen| - 1, threshold, c)
  {
    hide FailureCategory, FailedRequest, EndsUnknownStreak;
    var last := seen[|seen| - 1].item;
    StreakReaches(seen, threshold);
    CategoryIsExact(last, Streak(seen, last.account), threshold);
    var category := FailureCategory(last, Streak(seen, last.account), threshold);
    if category.Failure? {
      match category.category
      case RequestFailed =>
      case QuotaUnknown =>
    }
    forall c: Category
      ensures category == Failure(c) <==> FailsAs(seen, |seen| - 1, threshold, c)
    {
      match c
      case RequestFailed =>
      case QuotaUnknown =>
    }
  }

  lemma LastCounts(seen: seq<Entry>, threshold: nat, m: Metric)
    requires seen != []
    ensures var last := seen[|seen| - 1].item;
            Scores(last, FailureCategory(last, Streak(seen, last.account), threshold), m)
            <==> IsCounted(seen, |seen| - 1, threshold, m)
  {
    hide FailureCategory, EndsUnknownStreak, FailedRequest, IsSkip, SkipReason;
    LastFails(seen, threshold);
    if m.Skips? {
      SkipIsExact(seen[|seen| - 1].item, m.reason);
    }
  }

  lemma {:induction false} RecountIsExact(seen: seq<Entry>, threshold: nat, end: Time, m: Metric)
    ensures Recount(seen, threshold, end, m) == |ResultsIn(seen, threshold, end, m)|
  {
    hide FailureCategory, Scores, IsCounted, Streak, ResultsIn;
    if seen == [] {
      assert ResultsIn(seen, threshold, end, m) == {} by {
        NoResults(seen, threshold, end, m);
      }
    } else {
      RecountIsExact(seen[..|seen| - 1], threshold, end, m);
      LastCounts(seen, threshold, m);
      ResultsGrow(seen, threshold, end, m);
    }
  }

  lemma NoResults(seen: seq<Entry>, threshold: nat, end: Time, m: Metric)
    requires seen == []
    ensures ResultsIn(seen, threshold, end, m) == {}
  {
  }

  lemma ResultsGrow(seen: seq<Entry>, threshold: nat, end: Time, m: Metric)
    requires seen != []
    ensures var n := |seen| - 1;
            |ResultsIn(seen, threshold, end, m)| == |ResultsIn(seen[..n], threshold, end, m)|
              + if end - DAY <= seen[n].at < end && IsCounted(seen, n, threshold, m) then 1 else 0
  {
    hide IsCounted, ResultsIn;
    var n := |seen| - 1;
    var last: set<nat> := if end - DAY <= seen[n].at < end && IsCounted(seen, n, threshold, m) then {n} else {};
    var before := ResultsIn(seen[..n], threshold, end, m);
    forall i: nat
      ensures i in ResultsIn(seen, threshold, end, m) <==> i in before + last
    {
      IsResult(seen, threshold, end, m, i);
      IsResult(seen[..n], threshold, end, m, i);
      if i < n {
        SameBefore(seen[..n], seen, i, threshold, m);
      }
    }
    IsResult(seen[..n], threshold, end, m, n);
    assert ResultsIn(seen, threshold, end, m) == before + last;
  }

  lemma IsResult(seen: seq<Entry>, threshold: nat, end: Time, m: Metric, i: nat)
    ensures i in ResultsIn(seen, threshold, end, m) <==>
            i < |seen| && end - DAY <= seen[i].at < end && IsCounted(seen, i, threshold, m)
  {
    hide IsCounted;
  }

  lemma SameBefore(init: seq<Entry>, seen: seq<Entry>, i: nat, threshold: nat, m: Metric)
    requires init <= seen && i < |init|
    ensures IsCounted(init, i, threshold, m) <==> IsCounted(seen, i, threshold, m)
  {
    assert init[..i + 1] == seen[..i + 1];
  }

  lemma {:induction false} RunCountIsExact(log: seq<Run>, end: Time)
    ensures RunCount(log, end) == |RunsIn(log, end)|
  {
    if log != [] {
      var n := |log| - 1;
      RunCountIsExact(log[..n], end);
      var last: set<nat> := if InWindow(log[n].at, end) && !log[n].quotaRefresh then {n} else {};
      assert RunsIn(log, end) == RunsIn(log[..n], end) + last;
    }
  }

  // ----- agreement -----

  ghost predicate StreaksAgree(n: Notes, seen: seq<Entry>) {
    forall account :: StreakOf(n.streaks, account) == Streak(seen, account)
  }

  ghost predicate WindowAgrees(w: Window, seen: seq<Entry>, threshold: nat, end: Time) {
    forall m :: Value(w, m) == Recount(seen, threshold, end, m)
  }

  ghost predicate CountsAgree(n: Notes, seen: seq<Entry>, threshold: nat, from: Time) {
    forall end :: end in n.windows && from <= end ==> WindowAgrees(n.windows[end], seen, threshold, end)
  }

  ghost predicate RunsAgree(n: Notes, log: seq<Run>, from: Time) {
    forall end :: end in n.windows && from <= end ==> n.windows[end].runs == RunCount(log, end)
  }

  /** A run whose window is gone lies before the next digest. */
  ghost predicate NothingForgotten(cfg: Config, n: Notes, log: seq<Run>, from: Time) {
    && (log != [] ==> n.nextDigestAt != ZERO)
    && forall i :: 0 <= i < |log| ==>
         var end := DigestEnd(cfg.offset, cfg.digestTime, log[i].at);
         end in n.windows || end < n.nextDigestAt || end < from
  }

  ghost predicate Timely(cfg: Config, n: Notes, log: seq<Run>, clock: Time) {
    && (forall i :: 0 <= i < |log| ==> log[i].at <= clock)
    && n.nextDigestAt <= DigestEnd(cfg.offset, cfg.digestTime, clock)
    && ZERO < clock
  }

  ghost predicate Accurate(cfg: Config, n: Notes, log: seq<Run>, clock: Time, from: Time) {
    && OnBoundaries(cfg, n) && Timely(cfg, n, log, clock)
    && StreaksAgree(n, Flat(log)) && CountsAgree(n, Flat(log), cfg.streakThreshold, from) && RunsAgree(n, log, from)
    && NothingForgotten(cfg, n, log, from)
  }

  // ----- one result -----

  lemma StreakStep(streaks: map<string, nat>, seen: seq<Entry>, e: Entry, account: string)
    requires StreakOf(streaks, account) == Streak(seen, account)
    requires StreakOf(streaks, e.item.account) == Streak(seen, e.item.account)
    ensures StreakOf(NextStreaks(streaks, e.item), account) == Streak(seen + [e], account)
  {
    hide UnknownQuota;
    assert (seen + [e])[..|seen|] == seen;
  }

  lemma CountStep(w: Window, item: Item, category: MaybeCategory, m: Metric)
    ensures Value(CountItem(w, item, category), m) == Value(w, m) + if Scores(item, category, m) then 1 else 0
  {
    hide SkipReason;
  }

  lemma RecountStep(seen: seq<Entry>, e: Entry, threshold: nat, end: Time, m: Metric)
    ensures Recount(seen + [e], threshold, end, m) == Recount(seen, threshold, end, m)
              + (if InWindow(e.at, end)
                    && Scores(e.item, FailureCategory(e.item, Streak(seen + [e], e.item.account), threshold), m)
                 then 1 else 0)
  {
    hide Scores, FailureCategory, Streak;
    assert (seen + [e])[..|seen|] == seen;
  }

  /** The part of the notes that the digest is about. */
  predicate SameCounts(a: Window, b: Window) {
    a.runs == b.runs && a.succeeded == b.succeeded && a.failed == b.failed && a.accounts == b.accounts
        && a.skips == b.skips
  }

  predicate SameWindows(n: Notes, t: Notes) {
    && t.windows.Keys == n.windows.Keys
    && forall end :: end in n.windows ==> SameCounts(n.windows[end], t.windows[end])
  }

  lemma SameCountsAgree(n: Notes, t: Notes, seen: seq<Entry>, threshold: nat, from: Time)
    requires CountsAgree(n, seen, threshold, from) && SameWindows(n, t)
    ensures CountsAgree(t, seen, threshold, from)
  {
    hide Recount;
    forall end | end in t.windows && from <= end
      ensures WindowAgrees(t.windows[end], seen, threshold, end)
    {
      assert WindowAgrees(n.windows[end], seen, threshold, end);
      forall m
        ensures Value(t.windows[end], m) == Recount(seen, threshold, end, m)
      {
        assert Value(t.windows[end], m) == Value(n.windows[end], m);
      }
    }
  }

  lemma NoticeKeepsCounts(cfg: Config, end: Time, run: Run, r: Recording, key: Key)
    requires end in r.notes.windows
    ensures var t := AddNotice(cfg, end, run, r, key).notes;
            SameWindows(r.notes, t) && t.streaks == r.notes.streaks && t.nextDigestAt == r.notes.nextDigestAt
  {
    hide QuietUntil;
  }

  /** One result: its window counts it, the other windows do not. */
  lemma CountIntoAgrees(cfg: Config, end: Time, n: Notes, seen: seq<Entry>, e: Entry, from: Time)
    requires end in n.windows && OnBoundaries(cfg, n) && end == DigestEnd(cfg.offset, cfg.digestTime, e.at)
    requires StreaksAgree(n, seen) && CountsAgree(n, seen, cfg.streakThreshold, from)
    ensures var t := CountInto(cfg, end, n, e.item);
            && StreaksAgree(t, seen + [e]) && CountsAgree(t, seen + [e], cfg.streakThreshold, from)
            && t.windows.Keys == n.windows.Keys && t.nextDigestAt == n.nextDigestAt
            && t.windows[end].runs == n.windows[end].runs
  {
    hide Recount, Streak, CountItem, Scores, FailureCategory, NextStreaks, DigestEnd, Value;
    var t := CountInto(cfg, end, n, e.item);
    forall account
      ensures StreakOf(t.streaks, account) == Streak(seen + [e], account)
    {
      StreakStep(n.streaks, seen, e, account);
    }
    var category := FailureCategory(e.item, Streak(seen + [e], e.item.account), cfg.streakThreshold);
    CountItemKeepsRuns(n.windows[end], e.item, category);
    forall other | other in t.windows && from <= other
      ensures WindowAgrees(t.windows[other], seen + [e], cfg.streakThreshold, other)
    {
      DigestEndOwnsDay(cfg.offset, cfg.digestTime, e.at, other);
      assert WindowAgrees(n.windows[other], seen, cfg.streakThreshold, other);
      forall m
        ensures Value(t.windows[other], m) == Recount(seen + [e], cfg.streakThreshold, other, m)
      {
        RecountStep(seen, e, cfg.streakThreshold, other, m);
        CountStep(n.windows[end], e.item, category, m);
      }
    }
  }

  lemma CountItemKeepsRuns(w: Window, item: Item, category: MaybeCategory)
    ensures CountItem(w, item, category).runs == w.runs
  {
  }

  lemma ItemAgrees(cfg: Config, end: Time, run: Run, r: Recording, seen: seq<Entry>, item: Item, from: Time)
    requires end in r.notes.windows && OnBoundaries(cfg, r.notes)
    requires end == DigestEnd(cfg.offset, cfg.digestTime, run.at)
    requires StreaksAgree(r.notes, seen) && CountsAgree(r.notes, seen, cfg.streakThreshold, from)
    ensures var t := RecordItem(cfg, end, run, r, item).notes;
            && StreaksAgree(t, seen + [Entry(run.at, item)])
            && CountsAgree(t, seen + [Entry(run.at, item)], cfg.streakThreshold, from)
            && t.windows.Keys == r.notes.windows.Keys && t.nextDigestAt == r.notes.nextDigestAt
            && (forall other :: other in t.windows ==> t.windows[other].runs == r.notes.windows[other].runs)
  {
    hide DigestEnd, AddNotice, FailureCategory, StreaksAgree, CountsAgree;
    var e := Entry(run.at, item);
    CountIntoAgrees(cfg, end, r.notes, seen, e, from);
    var counted := r.(notes := CountInto(cfg, end, r.notes, item));
    var category := FailureCategory(item, StreakOf(counted.notes.streaks, item.account), cfg.streakThreshold);
    if category.Failure? {
      var key := Key(item.account, category.category);
      NoticeKeepsCounts(cfg, end, run, counted, key);
      var t := AddNotice(cfg, end, run, counted, key).notes;
      SameCountsAgree(counted.notes, t, seen + [e], cfg.streakThreshold, from);
      SameStreaks(counted.notes, t, seen + [e]);
    }
  }

  lemma SameStreaks(n: Notes, t: Notes, seen: seq<Entry>)
    requires StreaksAgree(n, seen) && t.streaks == n.streaks
    ensures StreaksAgree(t, seen)
  {
  }

  lemma {:induction false} ItemsAgree(cfg: Config, end: Time, run: Run, r: Recording, seen: seq<Entry>,
        items: seq<Item>, from: Time)
    requires end in r.notes.windows && OnBoundaries(cfg, r.notes)
    requires end == DigestEnd(cfg.offset, cfg.digestTime, run.at)
    requires StreaksAgree(r.notes, seen) && CountsAgree(r.notes, seen, cfg.streakThreshold, from)
    ensures var t := RecordItems(cfg, end, run, r, items).notes;
            && StreaksAgree(t, seen + Entries(run.at, items))
            && CountsAgree(t, seen + Entries(run.at, items), cfg.streakThreshold, from)
            && t.windows.Keys == r.notes.windows.Keys && t.nextDigestAt == r.notes.nextDigestAt
            && (forall other :: other in t.windows ==> t.windows[other].runs == r.notes.windows[other].runs)
  {
    hide DigestEnd, RecordItem, StreaksAgree, CountsAgree;
    if items == [] {
      assert seen + Entries(run.at, items) == seen;
    } else {
      var init, last := items[..|items| - 1], items[|items| - 1];
      ItemsAgree(cfg, end, run, r, seen, init, from);
      ItemAgrees(cfg, end, run, RecordItems(cfg, end, run, r, init), seen + Entries(run.at, init), last, from);
      assert seen + Entries(run.at, items) == (seen + Entries(run.at, init)) + [Entry(run.at, last)];
    }
  }

  // ----- one run -----

  lemma {:induction false} RecountEntries(seen: seq<Entry>, at: Time, items: seq<Item>, threshold: nat, end: Time,
        m: Metric)
    requires !InWindow(at, end)
    ensures Recount(seen + Entries(at, items), threshold, end, m) == Recount(seen, threshold, end, m)
  {
    hide Scores, FailureCategory, Streak;
    if items == [] {
      assert seen + Entries(at, items) == seen;
    } else {
      var init, e := items[..|items| - 1], Entry(at, items[|items| - 1]);
      RecountEntries(seen, at, init, threshold, end, m);
      RecountStep(seen + Entries(at, init), e, threshold, end, m);
      assert seen + Entries(at, items) == (seen + Entries(at, init)) + [e];
    }
  }

  /** A window in which no run of the log was finished counts nothing. */
  lemma {:induction false} NothingToCount(log: seq<Run>, threshold: nat, end: Time)
    requires forall i :: 0 <= i < |log| ==> !InWindow(log[i].at, end)
    ensures RunCount(log, end) == 0 && forall m :: Recount(Flat(log), threshold, end, m) == 0
  {
    if log != [] {
      var init, last := log[..|log| - 1], log[|log| - 1];
      assert forall i :: 0 <= i < |init| ==> init[i] == log[i];
      NothingToCount(init, threshold, end);
      forall m
        ensures Recount(Flat(log), threshold, end, m) == 0
      {
        RecountEntries(Flat(init), last.at, last.items, threshold, end, m);
      }
    }
  }

  lemma FreshWindowAgrees(cfg: Config, n: Notes, log: seq<Run>, end: Time, from: Time)
    requires OnBoundaries(cfg, n) && IsBoundary(cfg.offset, cfg.digestTime, end)
    requires NothingForgotten(cfg, n, log, from) && end !in n.windows && n.nextDigestAt <= end && from <= end
    ensures RunCount(log, end) == 0 && WindowAgrees(EMPTY_WINDOW, Flat(log), cfg.streakThreshold, end)
  {
    hide Recount, DigestEnd;
    forall i | 0 <= i < |log|
      ensures !InWindow(log[i].at, end)
    {
      DigestEndOwnsDay(cfg.offset, cfg.digestTime, log[i].at, end);
    }
    NothingToCount(log, cfg.streakThreshold, end);
  }

  lemma OpeningKeepsAccuracy(cfg: Config, n: Notes, log: seq<Run>, clock: Time, end: Time, from: Time)
    requires Accurate(cfg, n, log, clock, from)
    requires IsBoundary(cfg.offset, cfg.digestTime, end) && n.nextDigestAt <= end
    ensures Accurate(cfg, Opened(n, end), log, clock, from)
  {
    hide Recount, DigestEnd, WindowAgrees, RunCount;
    if end !in n.windows && from <= end {
      FreshWindowAgrees(cfg, n, log, end, from);
    }
  }

  lemma TimePasses(cfg: Config, n: Notes, log: seq<Run>, clock: Time, later: Time, from: Time)
    requires Accurate(cfg, n, log, clock, from) && clock <= later
    ensures Accurate(cfg, n, log, later, from)
  {
    hide StreaksAgree, CountsAgree, RunsAgree, NothingForgotten, OnBoundaries, DigestEnd;
    BoundariesHaveTime(cfg, n);
    DigestEndMonotone(cfg.offset, cfg.digestTime, clock, later);
  }

  lemma BoundariesHaveTime(cfg: Config, n: Notes)
    requires OnBoundaries(cfg, n)
    ensures 0 <= cfg.digestTime < DAY
  {
  }

  /** Pruning what lies before the next digest forgets nothing that will be reported. */
  lemma PruningKeepsAccuracy(cfg: Config, n: Notes, log: seq<Run>, clock: Time, cutoff: Time, from: Time)
    requires Accurate(cfg, n, log, clock, from) && (log == [] || cutoff <= n.nextDigestAt || cutoff <= from)
    ensures Accurate(cfg, Prune(n, cutoff), log, clock, from)
  {
    hide WindowAgrees, StreaksAgree, RunCount, DigestEnd;
    assert StreaksAgree(Prune(n, cutoff), Flat(log)) by {
      SameStreaks(n, Prune(n, cutoff), Flat(log));
    }
  }

  lemma FirstDigest(cfg: Config, n: Notes, log: seq<Run>, clock: Time, now: Time, from: Time)
    requires Accurate(cfg, n, log, clock, from) && now <= clock
    ensures Accurate(cfg, WithNextDigest(cfg, n, now), log, clock, from)
    ensures WithNextDigest(cfg, n, now).nextDigestAt == ZERO ==> DigestEnd(cfg.offset, cfg.digestTime, now) == ZERO
  {
    hide WindowAgrees, StreaksAgree, RunCount, DigestEnd;
    if n.nextDigestAt == ZERO {
      DigestEndIsLeastBoundary(cfg.offset, cfg.digestTime, now);
      DigestEndMonotone(cfg.offset, cfg.digestTime, now, clock);
      SameStreaks(n, WithNextDigest(cfg, n, now), Flat(log));
    }
  }

  /** Counting the run itself. */
  lemma RunCounted(cfg: Config, n: Notes, log: seq<Run>, run: Run, from: Time)
    requires OnBoundaries(cfg, n) && RunsAgree(n, log, from)
    requires DigestEnd(cfg.offset, cfg.digestTime, run.at) in n.windows
    ensures var end := DigestEnd(cfg.offset, cfg.digestTime, run.at);
            var w := n.windows[end];
            RunsAgree(n.(windows := n.windows[end := w.(runs := w.runs + if run.quotaRefresh then 0 else 1)]), log
                + [run], from)
  {
    hide DigestEnd;
    assert (log + [run])[..|log|] == log;
    forall other | other in n.windows
      ensures InWindow(run.at, other) <==> other == DigestEnd(cfg.offset, cfg.digestTime, run.at)
    {
      DigestEndOwnsDay(cfg.offset, cfg.digestTime, run.at, other);
    }
  }

  /** A run is recorded at `at` while the next digest is at most a week overdue. */
  predicate Punctual(n: Notes, at: Time) {
    n.nextDigestAt == ZERO || at - WEEK <= n.nextDigestAt
  }

  /** ... or at most a week after `from`: the recording forgets no window that ends at `from` or later and
      is still to be reported. */
  predicate Harmless(n: Notes, at: Time, from: Time) {
    Punctual(n, at) || at - WEEK <= from
  }

  lemma ReadyForRun(cfg: Config, n: Notes, log: seq<Run>, run: Run, from: Time)
    requires Accurate(cfg, n, log, run.at, from) && Harmless(n, run.at, from)
    ensures var end := DigestEnd(cfg.offset, cfg.digestTime, run.at);
            var t := Opened(Prune(WithNextDigest(cfg, n, run.at), run.at - WEEK), end);
            Accurate(cfg, t, log, run.at, from) && ZERO != t.nextDigestAt <= end
  {
    hide WindowAgrees, StreaksAgree, RunsAgree, CountsAgree, NothingForgotten, DigestEnd, Recount;
    BoundariesHaveTime(cfg, n);
    DigestEndIsLeastBoundary(cfg.offset, cfg.digestTime, run.at);
    FirstDigest(cfg, n, log, run.at, run.at, from);
    var m := WithNextDigest(cfg, n, run.at);
    PruningKeepsAccuracy(cfg, m, log, run.at, run.at - WEEK, from);
    OpeningKeepsAccuracy(cfg, Prune(m, run.at - WEEK), log, run.at, DigestEnd(cfg.offset, cfg.digestTime, run.at),
        from);
  }

  /** Before the first account result is looked at, only the run itself has been counted. */
  lemma RunStarted(cfg: Config, n: Notes, log: seq<Run>, run: Run, from: Time)
    requires Accurate(cfg, n, log, run.at, from) && Harmless(n, run.at, from)
    ensures var t := StartRun(cfg, n, run);
            && OnBoundaries(cfg, t) && Timely(cfg, t, log + [run], run.at)
            && StreaksAgree(t, Flat(log)) && CountsAgree(t, Flat(log), cfg.streakThreshold, from)
            && RunsAgree(t, log + [run], from) && NothingForgotten(cfg, t, log + [run], from)
  {
    hide StreaksAgree, CountsAgree, RunsAgree, DigestEnd, Opened, Prune, WithNextDigest;
    var end := DigestEnd(cfg.offset, cfg.digestTime, run.at);
    var m := Opened(Prune(WithNextDigest(cfg, n, run.at), run.at - WEEK), end);
    ReadyForRun(cfg, n, log, run, from);
    var t := StartRun(cfg, n, run);
    RunCounted(cfg, m, log, run, from);
    assert SameButRuns(m, t);
    SameButRunsAgree(m, t, Flat(log), cfg.streakThreshold, from);
  }

  lemma SameKeysRemembered(cfg: Config, n: Notes, t: Notes, log: seq<Run>, clock: Time, from: Time)
    requires t.windows.Keys == n.windows.Keys && t.nextDigestAt == n.nextDigestAt
    requires OnBoundaries(cfg, n) && Timely(cfg, n, log, clock) && NothingForgotten(cfg, n, log, from)
    ensures OnBoundaries(cfg, t) && Timely(cfg, t, log, clock) && NothingForgotten(cfg, t, log, from)
  {
    hide DigestEnd, IsBoundary;
  }

  lemma SameRunsAgree(n: Notes, t: Notes, log: seq<Run>, from: Time)
    requires RunsAgree(n, log, from) && t.windows.Keys == n.windows.Keys
    requires forall end :: end in t.windows ==> t.windows[end].runs == n.windows[end].runs
    ensures RunsAgree(t, log, from)
  {
  }

  /** Recording a run keeps the digest exact. */
  lemma RecordKeepsAccuracy(cfg: Config, n: Notes, log: seq<Run>, run: Run, from: Time)
    requires Accurate(cfg, n, log, run.at, from) && Harmless(n, run.at, from)
    ensures Accurate(cfg, Record(cfg, n, run).notes, log + [run], run.at, from)
  {
    hide StreaksAgree, CountsAgree, RunsAgree, NothingForgotten, Timely, OnBoundaries, DigestEnd, RecordItems,
      StartRun, Flat;
    var end := DigestEnd(cfg.offset, cfg.digestTime, run.at);
    RunStarted(cfg, n, log, run, from);
    var started, t := StartRun(cfg, n, run), Record(cfg, n, run).notes;
    ItemsAgree(cfg, end, run, Recording(started, [], false, false), Flat(log), run.items, from);
    SameKeysRemembered(cfg, started, t, log + [run], run.at, from);
    SameRunsAgree(started, t, log + [run], from);
    FlatGrows(log, run);
  }

  lemma FlatGrows(log: seq<Run>, run: Run)
    ensures Flat(log + [run]) == Flat(log) + Entries(run.at, run.items)
  {
    assert (log + [run])[..|log|] == log;
  }

  predicate SameButRuns(n: Notes, t: Notes) {
    && t.windows.Keys == n.windows.Keys && t.streaks == n.streaks && t.nextDigestAt == n.nextDigestAt
    && forall end :: end in n.windows ==> t.windows[end] == n.windows[end].(runs := t.windows[end].runs)
  }

  lemma SameButRunsAgree(n: Notes, t: Notes, seen: seq<Entry>, threshold: nat, from: Time)
    requires SameButRuns(n, t) && StreaksAgree(n, seen) && CountsAgree(n, seen, threshold, from)
    ensures StreaksAgree(t, seen) && CountsAgree(t, seen, threshold, from)
  {
    hide Recount;
    forall end | end in t.windows && from <= end
      ensures WindowAgrees(t.windows[end], seen, threshold, end)
    {
      assert WindowAgrees(n.windows[end], seen, threshold, end);
      forall m
        ensures Value(t.windows[end], m) == Recount(seen, threshold, end, m)
      {
        assert Value(t.windows[end], m) == Value(n.windows[end], m);
      }
    }
  }

  // ----- all memory sections -----

  /** The memory sections of the notifier.  `now` is the instant the tick was given, which may lie
      behind the clock. */
  datatype Section =
    | RecordRun(run: Run)
    | SetNextDigest(now: Time)
    | TakeNotices(now: Time)
    | RestoreNotices(notices: seq<Notice>)
    | MarkNotices(notices: seq<Notice>, outcome: Outcome)
    | OpenDigest(now: Time)
    | Reserve(now: Time)
    | ReserveFailed
    | Answer(now: Time, outcome: Outcome)
    | CloseDigest(now: Time)

  predicate Enabled(n: Notes, clock: Time, s: Section) {
    match s
    case RecordRun(run) => run.at == clock
    case SetNextDigest(now) => ZERO < now <= clock
    case OpenDigest(now) => DigestDue(n, now, clock)
    case Reserve(now) => DigestDue(n, now, clock) && NextDigestStep(n, now) == Attempt
    case ReserveFailed => n.nextDigestAt in n.windows
    case Answer(now, _) => DigestDue(n, now, clock) && n.nextDigestAt in n.windows
    case CloseDigest(now) => DigestDue(n, now, clock) && n.nextDigestAt in n.windows
    case _ => true
  }

  function Apply(cfg: Config, n: Notes, clock: Time, s: Section): Notes
    requires Enabled(n, clock, s)
  {
    match s
    case RecordRun(run) => Record(cfg, n, run).notes
    case SetNextDigest(now) => WithNextDigest(cfg, n, now)
    case TakeNotices(now) => TakeDue(cfg, n, now)
    case RestoreNotices(notices) => PutBackNotices(n, notices)
    case MarkNotices(notices, outcome) => n.(windows := MarkAll(n.windows, notices, outcome))
    case OpenDigest(now) => Opened(n, n.nextDigestAt)
    case Reserve(now) => ReserveDigest(n, now)
    case ReserveFailed => WithDigestResult(n, n.nextDigestAt, WriteFailed)
    case Answer(now, outcome) => DigestAnswered(cfg, n, now, outcome)
    case CloseDigest(now) => FinishDigest(cfg, n, n.nextDigestAt, now)
  }

  lemma {:induction false} MarkingKeepsCounts(windows: map<Time, Window>, notices: seq<Notice>, outcome: Outcome)
    ensures var t := MarkAll(windows, notices, outcome);
            && t.Keys == windows.Keys && forall end :: end in windows ==> SameCounts(windows[end], t[end])
  {
    if notices != [] {
      MarkingKeepsCounts(windows, notices[..|notices| - 1], outcome);
    }
  }

  lemma SameCountsAccurate(cfg: Config, n: Notes, t: Notes, log: seq<Run>, clock: Time, from: Time)
    requires Accurate(cfg, n, log, clock, from)
    requires SameWindows(n, t) && t.streaks == n.streaks && t.nextDigestAt == n.nextDigestAt
    ensures Accurate(cfg, t, log, clock, from)
  {
    hide StreaksAgree, CountsAgree, RunsAgree, NothingForgotten, Timely, OnBoundaries, Flat;
    SameCountsAgree(n, t, Flat(log), cfg.streakThreshold, from);
    SameStreaks(n, t, Flat(log));
    SameRunsAgree(n, t, log, from);
    SameKeysRemembered(cfg, n, t, log, clock, from);
  }

  lemma ClosingKeepsAccuracy(cfg: Config, n: Notes, log: seq<Run>, clock: Time, now: Time, from: Time)
    requires Accurate(cfg, n, log, clock, from) && DigestDue(n, now, clock)
    ensures Accurate(cfg, FinishDigest(cfg, n, n.nextDigestAt, now), log, clock, from)
  {
    hide StreaksAgree, WindowAgrees, RunCount, DigestEnd, FinishDigest, OnBoundaries, Flat;
    var t := FinishDigest(cfg, n, n.nextDigestAt, now);
    BoundariesHaveTime(cfg, n);
    ClosingIsExact(cfg, n, now);
    DigestEndIsLeastBoundary(cfg.offset, cfg.digestTime, now);
    DigestEndMonotone(cfg.offset, cfg.digestTime, now, clock);
    SameStreaks(n, t, Flat(log));
    forall i | 0 <= i < |log|
      ensures var end := DigestEnd(cfg.offset, cfg.digestTime, log[i].at);
              end in t.windows || end < t.nextDigestAt || end < from
    {
      assert DigestEnd(cfg.offset, cfg.digestTime, log[i].at) <= now
             || DigestEnd(cfg.offset, cfg.digestTime, log[i].at) > now;
    }
  }

  /** Every section keeps the windows from `from` on exact; recording does when it is harmless to them. */
  lemma SectionKeepsAccuracy(cfg: Config, n: Notes, log: seq<Run>, clock: Time, s: Section, from: Time)
    requires Accurate(cfg, n, log, clock, from) && Enabled(n, clock, s)
    requires s.RecordRun? ==> Harmless(n, s.run.at, from)
    ensures Accurate(cfg, Apply(cfg, n, clock, s), if s.RecordRun? then log + [s.run] else log, clock, from)
  {
    hide Accurate;
    match s
    case RecordRun(run) => RecordKeepsAccuracy(cfg, n, log, run, from);
    case SetNextDigest(now) => FirstDigest(cfg, n, log, clock, now, from);
    case TakeNotices(now) => SameCountsAccurate(cfg, n, TakeDue(cfg, n, now), log, clock, from);
    case RestoreNotices(notices) => SameCountsAccurate(cfg, n, PutBackNotices(n, notices), log, clock, from);
    case MarkNotices(notices, outcome) =>
      MarkingKeepsCounts(n.windows, notices, outcome);
      SameCountsAccurate(cfg, n, n.(windows := MarkAll(n.windows, notices, outcome)), log, clock, from);
    case OpenDigest(now) => DigestOpens(cfg, n, log, clock, from);
    case Reserve(now) =>
      DigestOpens(cfg, n, log, clock, from);
      SameCountsAccurate(cfg, Opened(n, n.nextDigestAt), ReserveDigest(n, now), log, clock, from);
    case ReserveFailed => SameCountsAccurate(cfg, n, WithDigestResult(n, n.nextDigestAt, WriteFailed), log, clock,
        from);
    case Answer(now, outcome) =>
      var answered := WithDigestResult(n, n.nextDigestAt, Answered(outcome));
      SameCountsAccurate(cfg, n, answered, log, clock, from);
      ClosingKeepsAccuracy(cfg, answered, log, clock, now, from);
    case CloseDigest(now) => ClosingKeepsAccuracy(cfg, n, log, clock, now, from);
  }

  lemma DigestOpens(cfg: Config, n: Notes, log: seq<Run>, clock: Time, from: Time)
    requires Accurate(cfg, n, log, clock, from) && n.nextDigestAt != ZERO
    ensures Accurate(cfg, Opened(n, n.nextDigestAt), log, clock, from)
  {
    hide StreaksAgree, CountsAgree, RunsAgree, NothingForgotten, Timely;
    OpeningKeepsAccuracy(cfg, n, log, clock, n.nextDigestAt, from);
  }

  // ----- whole histories -----

  datatype State = State(notes: Notes, log: seq<Run>, clock: Time)

  datatype Step = Step(to: Time, section: Section)

  predicate StepEnabled(s: State, step: Step) {
    s.clock <= step.to && Enabled(s.notes, step.to, step.section)
  }

  function After(cfg: Config, s: State, step: Step): State
    requires StepEnabled(s, step)
  {
    State(Apply(cfg, s.notes, step.to, step.section),
          if step.section.RecordRun? then s.log + [step.section.run] else s.log, step.to)
  }

  /** A crash-free history of recordings and ticks, in any order. */
  ghost predicate IsHistory(cfg: Config, states: seq<State>, steps: seq<Step>) {
    && 0 <= cfg.digestTime < DAY
    && |states| == |steps| + 1 && states[0].notes == NO_NOTES && states[0].log == [] && ZERO < states[0].clock
    && forall i :: 0 <= i < |steps| ==>
        StepEnabled(states[i], steps[i]) && states[i + 1] == After(cfg, states[i], steps[i])
  }

  /** Among the first `i` steps no recording was harmful to windows that end at `from` or later. */
  ghost predicate NoHarm(states: seq<State>, steps: seq<Step>, i: nat, from: Time) {
    forall k :: 0 <= k < i && k < |states| && k < |steps| && steps[k].section.RecordRun? ==>
      Harmless(states[k].notes, steps[k].section.run.at, from)
  }

  lemma {:induction false} HistoryIsAccurate(cfg: Config, states: seq<State>, steps: seq<Step>, i: nat, from: Time)
    requires IsHistory(cfg, states, steps) && i < |states| && NoHarm(states, steps, i, from)
    ensures Accurate(cfg, states[i].notes, states[i].log, states[i].clock, from)
  {
    hide DigestEnd, Apply;
    if i == 0 {
      DigestEndIsLeastBoundary(cfg.offset, cfg.digestTime, states[0].clock);
    } else {
      hide Accurate;
      HistoryIsAccurate(cfg, states, steps, i - 1, from);
      var s, step := states[i - 1], steps[i - 1];
      assert StepEnabled(s, step) && states[i] == After(cfg, s, step);
      TimePasses(cfg, s.notes, s.log, s.clock, step.to, from);
      SectionKeepsAccuracy(cfg, s.notes, s.log, step.to, step.section, from);
    }
  }

  lemma {:induction false} ClocksGrow(cfg: Config, states: seq<State>, steps: seq<Step>, k: nat, i: nat)
    requires IsHistory(cfg, states, steps) && k <= i < |states|
    ensures states[k].clock <= states[i].clock
    ensures k < i && steps[k].section.RecordRun? ==> steps[k].section.run.at <= states[i].clock
  {
    hide Apply;
    if k < i {
      ClocksGrow(cfg, states, steps, k, i - 1);
      assert StepEnabled(states[i - 1], steps[i - 1]) && states[i] == After(cfg, states[i - 1], steps[i - 1]);
    }
  }

  lemma StreaksAlwaysAgree(cfg: Config, states: seq<State>, steps: seq<Step>, i: nat)
    requires IsHistory(cfg, states, steps) && i < |states|
    ensures StreaksAgree(states[i].notes, Flat(states[i].log))
  {
    hide IsHistory, CountsAgree, RunsAgree, NothingForgotten;
    forall k | 0 <= k < i && k < |states| && k < |steps| && steps[k].section.RecordRun?
      ensures Harmless(states[k].notes, steps[k].section.run.at, states[i].clock)
    {
      ClocksGrow(cfg, states, steps, k, i);
    }
    HistoryIsAccurate(cfg, states, steps, i, states[i].clock);
  }

  /** At every step, each retained window, and the one a digest would be sent for, counts exactly the runs and
      the results of the full log that belong to it: successes, failures, per account and per skip reason,
      unless some run was recorded more than a week after the window's end and after that of a digest still to
      come. */
  lemma DigestEqualsRecount(cfg: Config, states: seq<State>, steps: seq<Step>, i: nat, end: Time, account: string,
        reason: string)
    requires IsHistory(cfg, states, steps) && i < |states| && NoHarm(states, steps, i, end)
    requires var n := states[i].notes; end in n.windows || ZERO != n.nextDigestAt == end
    ensures var w, seen := Opened(states[i].notes, end).windows[end], Flat(states[i].log);
            && w.runs == |RunsIn(states[i].log, end)|
            && w.succeeded == |ResultsIn(seen, cfg.streakThreshold, end, SucceededTotal)|
            && w.failed == |ResultsIn(seen, cfg.streakThreshold, end, FailedTotal)|
            && TallyOf(w, account).succeeded == |ResultsIn(seen, cfg.streakThreshold, end, AccountSucceeded(account))|
            && TallyOf(w, account).failed == |ResultsIn(seen, cfg.streakThreshold, end, AccountFailed(account))|
            && SkipsOf(w, reason) == |ResultsIn(seen, cfg.streakThreshold, end, Skips(reason))|
  {
    hide Recount, Flat, NothingForgotten, Timely, StreaksAgree, RunCount, ResultsIn, RunsIn;
    var n, seen := states[i].notes, Flat(states[i].log);
    HistoryIsAccurate(cfg, states, steps, i, end);
    if end !in n.windows {
      DigestOpens(cfg, n, states[i].log, states[i].clock, end);
    }
    var w := Opened(n, end).windows[end];
    RunCountIsExact(states[i].log, end);
    WindowCounts(w, seen, cfg.streakThreshold, end, SucceededTotal);
    WindowCounts(w, seen, cfg.streakThreshold, end, FailedTotal);
    WindowCounts(w, seen, cfg.streakThreshold, end, AccountSucceeded(account));
    WindowCounts(w, seen, cfg.streakThreshold, end, AccountFailed(account));
    WindowCounts(w, seen, cfg.streakThreshold, end, Skips(reason));
  }

  lemma WindowCounts(w: Window, seen: seq<Entry>, threshold: nat, end: Time, m: Metric)
    requires WindowAgrees(w, seen, threshold, end)
    ensures Value(w, m) == |ResultsIn(seen, threshold, end, m)|
  {
    hide ResultsIn, Value, Recount;
    RecountIsExact(seen, threshold, end, m);
  }

  /** At every step of every history the streak of an account is the number of its latest results that were
      unknown, back to the last one that was not. */
  lemma StreaksCountUnknowns(cfg: Config, states: seq<State>, steps: seq<Step>, i: nat, account: string)
    requires IsHistory(cfg, states, steps) && i < |states|
    ensures var mine, streak := ItemsOf(Flat(states[i].log), account), StreakOf(states[i].notes.streaks, account);
            && streak <= |mine|
            && (forall j :: |mine| - streak <= j < |mine| ==> Unknown(mine[j]))
            && (streak < |mine| ==> !Unknown(mine[|mine| - streak - 1]))
  {
    hide Unknown, Flat;
    StreaksAlwaysAgree(cfg, states, steps, i);
    StreakIsSuffix(Flat(states[i].log), account);
  }

  // ----- a recording that comes too late -----

  ghost predicate CountsNothing(w: Window) {
    w.runs == 0 && forall m :: Value(w, m) == 0
  }

  /** The digest that is still to come, for the window `n.nextDigestAt`, is exact. */
  ghost predicate DigestExact(cfg: Config, n: Notes, log: seq<Run>) {
    var w := Opened(n, n.nextDigestAt).windows[n.nextDigestAt];
    && w.runs == RunCount(log, n.nextDigestAt)
    && WindowAgrees(w, Flat(log), cfg.streakThreshold, n.nextDigestAt)
  }

  /** Without the assumption the digest can lose counts: recording a run more than a week after a
      digest that is still to come drops its window, and the tick that follows reports an empty one.
      The digest is exact if and only if the run was punctual or the window had counted nothing. */
  lemma LateRecording(cfg: Config, n: Notes, log: seq<Run>, run: Run)
    requires Accurate(cfg, n, log, run.at, n.nextDigestAt) && n.nextDigestAt != ZERO && n.nextDigestAt in n.windows
    ensures DigestExact(cfg, Record(cfg, n, run).notes, log + [run])
            <==> Punctual(n, run.at) || CountsNothing(n.windows[n.nextDigestAt])
  {
    hide Recount, Record, WindowAgrees, Flat, RunCount, NothingForgotten, Timely, StreaksAgree;
    var t, next := Record(cfg, n, run).notes, n.nextDigestAt;
    if Punctual(n, run.at) {
      RecordKeepsAccuracy(cfg, n, log, run, next);
      RecordKeepsNext(cfg, n, run);
      DigestOpens(cfg, t, log + [run], run.at, next);
    } else {
      LateRecordDropsWindow(cfg, n, run);
      LateRunIsElsewhere(cfg, n, log, run);
      EmptyCounts(n.windows[next], log, cfg.streakThreshold, next);
      EmptyAgrees(log + [run], cfg.streakThreshold, next);
    }
  }

  lemma RecordKeepsNext(cfg: Config, n: Notes, run: Run)
    requires n.nextDigestAt != ZERO
    ensures Record(cfg, n, run).notes.nextDigestAt == n.nextDigestAt
  {
    hide RecordItem;
    ItemsKeepKeys(cfg, DigestEnd(cfg.offset, cfg.digestTime, run.at), run,
                  Recording(StartRun(cfg, n, run), [], false, false), run.items);
  }

  lemma {:induction false} ItemsKeepKeys(cfg: Config, end: Time, run: Run, r: Recording, items: seq<Item>)
    requires end in r.notes.windows
    ensures var t := RecordItems(cfg, end, run, r, items).notes;
            t.windows.Keys == r.notes.windows.Keys && t.nextDigestAt == r.notes.nextDigestAt
  {
    hide QuietUntil, CountItem, NextStreaks, FailureCategory;
    if items != [] {
      ItemsKeepKeys(cfg, end, run, r, items[..|items| - 1]);
    }
  }

  lemma LateRecordDropsWindow(cfg: Config, n: Notes, run: Run)
    requires OnBoundaries(cfg, n) && n.nextDigestAt != ZERO && n.nextDigestAt < run.at - WEEK
    ensures var t := Record(cfg, n, run).notes;
            t.nextDigestAt == n.nextDigestAt && n.nextDigestAt !in t.windows
  {
    hide RecordItem, DigestEnd;
    DigestEndIsLeastBoundary(cfg.offset, cfg.digestTime, run.at);
    RecordKeepsNext(cfg, n, run);
    ItemsKeepKeys(cfg, DigestEnd(cfg.offset, cfg.digestTime, run.at), run,
                  Recording(StartRun(cfg, n, run), [], false, false), run.items);
  }

  /** The late run itself belongs to another window. */
  lemma LateRunIsElsewhere(cfg: Config, n: Notes, log: seq<Run>, run: Run)
    requires n.nextDigestAt < run.at - WEEK
    ensures RunCount(log + [run], n.nextDigestAt) == RunCount(log, n.nextDigestAt)
    ensures forall m :: Recount(Flat(log + [run]), cfg.streakThreshold, n.nextDigestAt, m)
                        == Recount(Flat(log), cfg.streakThreshold, n.nextDigestAt, m)
  {
    assert (log + [run])[..|log|] == log;
    FlatGrows(log, run);
    forall m {
      RecountEntries(Flat(log), run.at, run.items, cfg.streakThreshold, n.nextDigestAt, m);
    }
  }

  ghost predicate NothingCounted(log: seq<Run>, threshold: nat, end: Time) {
    RunCount(log, end) == 0 && forall m :: Recount(Flat(log), threshold, end, m) == 0
  }

  lemma EmptyCounts(w: Window, log: seq<Run>, threshold: nat, end: Time)
    requires w.runs == RunCount(log, end) && WindowAgrees(w, Flat(log), threshold, end)
    ensures CountsNothing(w) <==> NothingCounted(log, threshold, end)
  {
    hide Value, Recount, RunCount, Flat;
    if CountsNothing(w) {
      forall m
        ensures Recount(Flat(log), threshold, end, m) == 0
      {
        assert Value(w, m) == 0;
      }
    }
    if NothingCounted(log, threshold, end) {
      forall m
        ensures Value(w, m) == 0
      {
        assert Recount(Flat(log), threshold, end, m) == 0;
      }
    }
  }

  lemma EmptyAgrees(log: seq<Run>, threshold: nat, end: Time)
    ensures RunCount(log, end) == 0 && WindowAgrees(EMPTY_WINDOW, Flat(log), threshold, end)
            <==> NothingCounted(log, threshold, end)
  {
    hide Recount, RunCount, Flat;
    forall m
      ensures Value(EMPTY_WINDOW, m) == 0
    {
    }
  }

  /** For instance: a run, and no further recording or tick until a week after its digest was due.  The
      run is missing from its digest. */
  lemma LateRunLosesTheDigest(cfg: Config, first: Run, late: Run)
    requires 0 <= cfg.digestTime < DAY && ZERO < first.at && !first.quotaRefresh
    requires DigestEnd(cfg.offset, cfg.digestTime, first.at) < late.at - WEEK
    ensures var n := Record(cfg, NO_NOTES, first).notes;
            !DigestExact(cfg, Record(cfg, n, late).notes, [first, late])
  {
    hide Recount, Record, WindowAgrees, NothingForgotten, RecordItems, StreaksAgree, CountsAgree;
    var n, end := Record(cfg, NO_NOTES, first).notes, DigestEnd(cfg.offset, cfg.digestTime, first.at);
    DigestEndIsLeastBoundary(cfg.offset, cfg.digestTime, first.at);
    DigestEndIsLeastBoundary(cfg.offset, cfg.digestTime, late.at);
    DigestEndOwnsDay(cfg.offset, cfg.digestTime, first.at, end);
    NoNotesAreAccurate(cfg, first.at, end);
    RecordKeepsAccuracy(cfg, NO_NOTES, [], first, end);
    FirstRecord(cfg, first);
    assert [] + [first] == [first] && [first] + [late] == [first, late];
    TimePasses(cfg, n, [first], first.at, late.at, end);
    LateRecording(cfg, n, [first], late);
    assert RunCount([first], end) == 1 by {
      assert [first][..0] == [];
    }
  }

  lemma NoNotesAreAccurate(cfg: Config, clock: Time, from: Time)
    requires 0 <= cfg.digestTime < DAY && ZERO < clock
    ensures Accurate(cfg, NO_NOTES, [], clock, from)
  {
    hide DigestEnd;
    DigestEndIsLeastBoundary(cfg.offset, cfg.digestTime, clock);
  }

  lemma FirstRecord(cfg: Config, run: Run)
    requires 0 <= cfg.digestTime < DAY && ZERO < run.at
    ensures var n := Record(cfg, NO_NOTES, run).notes;
            && n.nextDigestAt == DigestEnd(cfg.offset, cfg.digestTime, run.at)
            && n.nextDigestAt in n.windows
  {
    hide RecordItem, DigestEnd;
    DigestEndIsLeastBoundary(cfg.offset, cfg.digestTime, run.at);
    ItemsKeepKeys(cfg, DigestEnd(cfg.offset, cfg.digestTime, run.at), run,
                  Recording(StartRun(cfg, NO_NOTES, run), [], false, false), run.items);
  }

  // ----- totals are the sums over accounts -----

  function Amount(tally: Tally, failed: bool): nat {
    if failed then tally.failed else tally.succeeded
  }

  ghost function Sum(accounts: map<string, Tally>, failed: bool): nat
    decreases |accounts|
  {
    if accounts == map[] then 0
    else
      var account :| account in accounts;
      Amount(accounts[account], failed) + Sum(accounts - {account}, failed)
  }

  lemma {:induction false} SumWithout(accounts: map<string, Tally>, failed: bool, account: string)
    requires account in accounts
    ensures Sum(accounts, failed) == Amount(accounts[account], failed) + Sum(accounts - {account}, failed)
    decreases |accounts|
  {
    var chosen :| chosen in accounts && Sum(accounts, failed) == Amount(accounts[chosen], failed)
        + Sum(accounts - {chosen}, failed);
    if chosen != account {
      SumWithout(accounts - {chosen}, failed, account);
      SumWithout(accounts - {account}, failed, chosen);
      assert accounts - {chosen} - {account} == accounts - {account} - {chosen};
    }
  }

  lemma SumUpdate(accounts: map<string, Tally>, failed: bool, account: string, tally: Tally)
    ensures Sum(accounts[account := tally], failed)
            == Sum(accounts, failed) - (if account in accounts then Amount(accounts[account], failed) else 0)
               + Amount(tally, failed)
  {
    SumWithout(accounts[account := tally], failed, account);
    assert accounts[account := tally] - {account} == accounts - {account};
    if account in accounts {
      SumWithout(accounts, failed, account);
    } else {
      assert accounts - {account} == accounts;
    }
  }

  ghost predicate AddsUp(w: Window) {
    w.succeeded == Sum(w.accounts, false) && w.failed == Sum(w.accounts, true)
  }

  ghost predicate AllAddUp(n: Notes) {
    forall end :: end in n.windows ==> AddsUp(n.windows[end])
  }

  lemma CountItemAddsUp(w: Window, item: Item, category: MaybeCategory)
    requires AddsUp(w)
    ensures AddsUp(CountItem(w, item, category))
  {
    hide SkipReason, Sum;
    var tally := CountItem(w, item, category).accounts[item.account];
    SumUpdate(w.accounts, false, item.account, tally);
    SumUpdate(w.accounts, true, item.account, tally);
  }

  lemma RecordItemAddsUp(cfg: Config, end: Time, run: Run, r: Recording, item: Item)
    requires end in r.notes.windows && AllAddUp(r.notes)
    ensures AllAddUp(RecordItem(cfg, end, run, r, item).notes)
  {
    hide Sum, CountItem, FailureCategory, NextStreaks, AddNotice;
    var counted := r.(notes := CountInto(cfg, end, r.notes, item));
    var category := FailureCategory(item, StreakOf(counted.notes.streaks, item.account), cfg.streakThreshold);
    CountItemAddsUp(r.notes.windows[end], item, category);
    if category.Failure? {
      NoticeKeepsCounts(cfg, end, run, counted, Key(item.account, category.category));
    }
  }

  lemma {:induction false} RecordItemsAddUp(cfg: Config, end: Time, run: Run, r: Recording, items: seq<Item>)
    requires end in r.notes.windows && AllAddUp(r.notes)
    ensures AllAddUp(RecordItems(cfg, end, run, r, items).notes)
  {
    hide AllAddUp, RecordItem;
    if items != [] {
      var init := items[..|items| - 1];
      RecordItemsAddUp(cfg, end, run, r, init);
      RecordItemAddsUp(cfg, end, run, RecordItems(cfg, end, run, r, init), items[|items| - 1]);
    }
  }

  /** The totals of every window are the sums over its accounts, after any section. */
  lemma SectionKeepsSums(cfg: Config, n: Notes, clock: Time, s: Section)
    requires AllAddUp(n) && Enabled(n, clock, s)
    ensures AllAddUp(Apply(cfg, n, clock, s))
  {
    hide RecordItems, DigestEnd, NextDigestStep, Living;
    assert AddsUp(EMPTY_WINDOW);
    hide Sum;
    match s
    case RecordRun(run) =>
      var started := StartRun(cfg, n, run);
      RecordItemsAddUp(cfg, DigestEnd(cfg.offset, cfg.digestTime, run.at), run, Recording(started, [], false, false),
          run.items);
    case MarkNotices(notices, outcome) => MarkingKeepsCounts(n.windows, notices, outcome);
    case _ =>
  }

  /** In every history the digest's totals are the sums over its accounts. */
  lemma {:induction false} TotalsAreSums(cfg: Config, states: seq<State>, steps: seq<Step>, i: nat)
    requires IsHistory(cfg, states, steps) && i < |states|
    ensures AllAddUp(states[i].notes)
  {
    hide Apply, AddsUp;
    if i > 0 {
      TotalsAreSums(cfg, states, steps, i - 1);
      assert StepEnabled(states[i - 1], steps[i - 1]) && states[i] == After(cfg, states[i - 1], steps[i - 1]);
      SectionKeepsSums(cfg, states[i - 1].notes, steps[i - 1].to, steps[i - 1].section);
    }
  }
}
