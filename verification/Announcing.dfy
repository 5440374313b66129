/** Which failures a recording announces, and how. */
module Announcing {
  import opened Clock
  import opened Notifications
  import opened Results
  import opened Digest

  /** How a failure of this window was announced: consumed by manual feedback, queued until the end of
      the quiet period, or to be sent at once. */
  predicate AnnouncedAs(cfg: Config, end: Time, run: Run, r: Recording, key: Key) {
    && end in r.notes.windows && key in r.notes.windows[end].failures
    && var mark := r.notes.windows[end].failures[key];
       var until := QuietUntil(cfg.offset, cfg.quietStart, cfg.quietEnd, run.at);
       if run.notify then mark == Manual
       else if until != ZERO then mark == Queued && Notice(key, run.at, until, end) in r.notes.pending
       else mark == Sending && Notice(key, run.at, ZERO, end) in r.immediate
  }

  /** One of the results from position `from` on is a failure with this key. */
  ghost predicate FailsWith(seen: seq<Entry>, from: nat, threshold: nat, key: Key) {
    exists i: nat :: from <= i < |seen| && seen[i].item.account == key.account
                     && FailsAs(seen, i, threshold, key.category)
  }

  predicate SameMark(r: Recording, t: Recording, end: Time, key: Key)
    requires end in r.notes.windows && end in t.notes.windows
  {
    key in r.notes.windows[end].failures ==>
      key in t.notes.windows[end].failures
      && t.notes.windows[end].failures[key] == r.notes.windows[end].failures[key]
  }

  lemma NoticeAnnounces(cfg: Config, end: Time, run: Run, r: Recording, added: Key, key: Key)
    requires end in r.notes.windows
    ensures var t := AddNotice(cfg, end, run, r, added);
            && t.notes.streaks == r.notes.streaks && end in t.notes.windows && SameMark(r, t, end, key)
            && (key in t.notes.windows[end].failures <==> key in r.notes.windows[end].failures || key == added)
            && (AnnouncedAs(cfg, end, run, r, key) ==> AnnouncedAs(cfg, end, run, t, key))
            && (key !in r.notes.windows[end].failures && key == added ==> AnnouncedAs(cfg, end, run, t, key))
  {
    hide QuietUntil;
  }

  lemma ItemAnnounces(cfg: Config, end: Time, run: Run, r: Recording, item: Item, key: Key)
    requires end in r.notes.windows
    ensures var t := RecordItem(cfg, end, run, r, item);
            var fails := item.account == key.account
                         && FailureCategory(item, StreakOf(t.notes.streaks, item.account), cfg.streakThreshold)
                            == Failure(key.category);
            && t.notes.streaks == NextStreaks(r.notes.streaks, item) && SameMark(r, t, end, key)
            && (key in t.notes.windows[end].failures <==> key in r.notes.windows[end].failures || fails)
            && (AnnouncedAs(cfg, end, run, r, key) ==> AnnouncedAs(cfg, end, run, t, key))
            && (key !in r.notes.windows[end].failures && fails ==> AnnouncedAs(cfg, end, run, t, key))
  {
    hide QuietUntil, FailureCategory, NextStreaks, SkipReason, AddNotice;
    var counted := r.(notes := CountInto(cfg, end, r.notes, item));
    var category := FailureCategory(item, StreakOf(counted.notes.streaks, item.account), cfg.streakThreshold);
    if category.Failure? {
      NoticeAnnounces(cfg, end, run, counted, Key(item.account, category.category), key);
    }
  }

  lemma StreaksGoOn(n: Notes, t: Notes, seen: seq<Entry>, e: Entry)
    requires StreaksAgree(n, seen) && t.streaks == NextStreaks(n.streaks, e.item)
    ensures StreaksAgree(t, seen + [e])
  {
    hide NextStreaks, Streak;
    forall account
      ensures StreakOf(t.streaks, account) == Streak(seen + [e], account)
    {
      StreakStep(n.streaks, seen, e, account);
    }
  }

  lemma OneMoreResult(seen: seq<Entry>, from: nat, threshold: nat, e: Entry, key: Key)
    requires from <= |seen|
    ensures FailsWith(seen + [e], from, threshold, key) <==>
              || FailsWith(seen, from, threshold, key)
              || (e.item.account == key.account
                  && FailureCategory(e.item, Streak(seen + [e], e.item.account), threshold) == Failure(key.category))
  {
    hide FailureCategory, FailsAs, Streak, FailsWith;
    LastFails(seen + [e], threshold);
    FailsBeforeOrLast(seen, from, threshold, e, key);
  }

  lemma FailsBeforeOrLast(seen: seq<Entry>, from: nat, threshold: nat, e: Entry, key: Key)
    requires from <= |seen|
    ensures FailsWith(seen + [e], from, threshold, key) <==>
              || FailsWith(seen, from, threshold, key)
              || (e.item.account == key.account && FailsAs(seen + [e], |seen|, threshold, key.category))
  {
    hide FailsAs;
    var longer := seen + [e];
    assert longer[|seen|] == e;
    forall i: nat | i < |seen|
      ensures longer[i] == seen[i]
      ensures FailsAs(longer, i, threshold, key.category) <==> FailsAs(seen, i, threshold, key.category)
    {
      FailsAsBefore(seen, longer, i, threshold, key.category);
    }
    if i: nat :| from <= i < |seen| && seen[i].item.account == key.account
                 && FailsAs(seen, i, threshold, key.category)
    {
      assert longer[i].item.account == key.account && FailsAs(longer, i, threshold, key.category);
    }
  }

  lemma FailsAsBefore(seen: seq<Entry>, longer: seq<Entry>, i: nat, threshold: nat, category: Category)
    requires seen <= longer && i < |seen|
    ensures FailsAs(longer, i, threshold, category) <==> FailsAs(seen, i, threshold, category)
  {
    assert longer[..i + 1] == seen[..i + 1];
  }

  /** What a recording does about one key that its window may know already. */
  lemma {:induction false} ItemsAnnounce(cfg: Config, end: Time, run: Run, r: Recording, seen: seq<Entry>,
        items: seq<Item>, key: Key)
    requires end in r.notes.windows && StreaksAgree(r.notes, seen)
    ensures var t, log := RecordItems(cfg, end, run, r, items), seen + Entries(run.at, items);
            && StreaksAgree(t.notes, log) && SameMark(r, t, end, key)
            && (key !in r.notes.windows[end].failures ==>
                  && (key in t.notes.windows[end].failures <==> FailsWith(log, |seen|, cfg.streakThreshold, key))
                  && (key in t.notes.windows[end].failures ==> AnnouncedAs(cfg, end, run, t, key)))
  {
    hide RecordItem, AnnouncedAs, FailureCategory, StreaksAgree, FailsAs, NextStreaks;
    if items == [] {
      assert seen + Entries(run.at, items) == seen;
    } else {
      var init, last := items[..|items| - 1], items[|items| - 1];
      var before, log, e := RecordItems(cfg, end, run, r, init), seen + Entries(run.at, init), Entry(run.at, last);
      ItemsAnnounce(cfg, end, run, r, seen, init, key);
      ItemAnnounces(cfg, end, run, before, last, key);
      assert seen + Entries(run.at, items) == log + [e];
      var t := RecordItem(cfg, end, run, before, last);
      StreaksGoOn(before.notes, t.notes, log, e);
      OneMoreResult(log, |seen|, cfg.streakThreshold, e, key);
      StreakAgrees(t.notes, log + [e], last.account);
    }
  }

  lemma StreakAgrees(n: Notes, seen: seq<Entry>, account: string)
    requires StreaksAgree(n, seen)
    ensures StreakOf(n.streaks, account) == Streak(seen, account)
  {
  }

  /** The window of a run is never forgotten when the run begins. */
  lemma StartKeepsMarks(cfg: Config, n: Notes, run: Run, key: Key)
    requires 0 <= cfg.digestTime < DAY
    ensures var end, t := DigestEnd(cfg.offset, cfg.digestTime, run.at), StartRun(cfg, n, run);
            && t.streaks == n.streaks
            && t.windows[end].failures == if end in n.windows then n.windows[end].failures else map[]
  {
    hide DigestEnd, Living;
    DigestEndIsLeastBoundary(cfg.offset, cfg.digestTime, run.at);
  }

  /** The marks of a window after a recording, in any history.  A mark that was there stays.  A new mark is set
      exactly for the failures among the results of the run: requests that failed, and results that end at least
      `streakThreshold` unknown ones in a row.  And each new failure is announced as its mark says. */
  lemma EveryFailureIsAnnounced(cfg: Config, states: seq<State>, steps: seq<Step>, i: nat, key: Key)
    requires IsHistory(cfg, states, steps) && i < |steps| && steps[i].section.RecordRun?
    ensures var n, run := states[i].notes, steps[i].section.run;
            var r, end := Record(cfg, n, run), DigestEnd(cfg.offset, cfg.digestTime, run.at);
            var known := if end in n.windows then n.windows[end].failures else map[];
            var log := Flat(states[i].log) + Entries(run.at, run.items);
            && states[i + 1].notes == r.notes && end in r.notes.windows
            && var marks := r.notes.windows[end].failures;
               && (key in known ==> key in marks && marks[key] == known[key])
               && (key !in known ==>
                     && (key in marks <==> FailsWith(log, |Flat(states[i].log)|, cfg.streakThreshold, key))
                     && (key in marks ==> AnnouncedAs(cfg, end, run, r, key)))
  {
    hide DigestEnd, RecordItems, StartRun, AnnouncedAs, FailsWith, StreaksAgree, Flat;
    var n, run := states[i].notes, steps[i].section.run;
    assert states[i + 1] == After(cfg, states[i], steps[i]);
    var end, start := DigestEnd(cfg.offset, cfg.digestTime, run.at), StartRun(cfg, n, run);
    StreaksAlwaysAgree(cfg, states, steps, i);
    StartKeepsMarks(cfg, n, run, key);
    SameStreaks(n, start, Flat(states[i].log));
    ItemsAnnounce(cfg, end, run, Recording(start, [], false, false), Flat(states[i].log), run.items, key);
  }

  /** So a run whose sessions were all answered announces nothing. */
  lemma AnsweredRunIsSilent(cfg: Config, states: seq<State>, steps: seq<Step>, i: nat, key: Key)
    requires IsHistory(cfg, states, steps) && i < |steps| && steps[i].section.RecordRun? && cfg.streakThreshold > 0
    requires forall k :: 0 <= k < |steps[i].section.run.items| ==>
               steps[i].section.run.items[k].attempts > 0 && steps[i].section.run.items[k].responseReceived
    ensures var n, run := states[i].notes, steps[i].section.run;
            var r, end := Record(cfg, n, run), DigestEnd(cfg.offset, cfg.digestTime, run.at);
            end in r.notes.windows && (key in r.notes.windows[end].failures ==>
                                         end in n.windows && key in n.windows[end].failures)
  {
    hide DigestEnd, AnnouncedAs, Record, Flat, Enabled, Apply;
    EveryFailureIsAnnounced(cfg, states, steps, i, key);
    var run, before := steps[i].section.run, Flat(states[i].log);
    var log := before + Entries(run.at, run.items);
    EntriesAre(run.at, run.items);
    if j: nat :| |before| <= j < |log| && log[j].item.account == key.account
                 && FailsAs(log, j, cfg.streakThreshold, key.category) {
      assert log[j].item == run.items[j - |before|];
      LastOfMine(log[..j + 1]);
    }
  }

  lemma {:induction false} EntriesAre(at: Time, items: seq<Item>)
    ensures |Entries(at, items)| == |items|
    ensures forall i :: 0 <= i < |items| ==> Entries(at, items)[i] == Entry(at, items[i])
  {
    if items != [] {
      EntriesAre(at, items[..|items| - 1]);
    }
  }

  lemma LastOfMine(seen: seq<Entry>)
    requires seen != []
    ensures var last := seen[|seen| - 1].item;
            var mine := ItemsOf(seen, last.account);
            mine != [] && mine[|mine| - 1] == last
  {
  }
}
