/** What the result of an account means for the notifier, stated over its fields. */
module Results {
  import opened Notifications

  /** `word` occurs somewhere in `s`. */
  ghost predicate Mentions(s: string, word: string) {
    exists i :: 0 <= i <= |s| && word <= s[i..]
  }

  /** Nothing was attempted, because the quota could not be learned. */
  ghost predicate Unknown(item: Item) {
    && item.attempts == 0
    && (|| Mentions(item.skipReason, "unknown") || Mentions(item.errorCode, "unknown")
        || item.quotaStatus in {"unknown", "query_failed"})
  }

  /** An attempt was made, no answer came, and it was not an interruption before anything was sent. */
  predicate FailedRequest(item: Item) {
    && item.attempts > 0 && !item.responseReceived
    && !(item.errorCode == "interrupted" && !item.requestSent)
  }

  /** The reason under which the result counts as a skip.  A refresh that only reads is none. */
  ghost predicate IsSkip(item: Item, reason: string) {
    || (item.skipReason == reason && reason !in {"", "quota_refresh_only"})
    || (item.skipReason == "" && Unknown(item)
        && (item.errorCode == reason != "" || (item.errorCode == "" && reason == "quota_unknown")))
  }

  lemma {:induction false} ContainsIsMentions(s: string, word: string)
    ensures Contains(s, word) <==> Mentions(s, word)
  {
    if s == [] {
      assert s[0..] == s;
    } else {
      var rest := s[1..];
      ContainsIsMentions(rest, word);
      assert s[0..] == s;
      assert forall i :: 0 <= i <= |rest| ==> rest[i..] == s[i + 1..];
      if Mentions(s, word) {
        var i :| 0 <= i <= |s| && word <= s[i..];
        assert i > 0 ==> word <= rest[i - 1..];
      }
    }
  }

  lemma UnknownIsExact(item: Item)
    ensures UnknownQuota(item) <==> Unknown(item)
  {
    ContainsIsMentions(item.skipReason, "unknown");
    ContainsIsMentions(item.errorCode, "unknown");
  }

  lemma CategoryIsExact(item: Item, streak: nat, threshold: nat)
    ensures FailureCategory(item, streak, threshold) == Failure(RequestFailed) <==> FailedRequest(item)
    ensures FailureCategory(item, streak, threshold) == Failure(QuotaUnknown) <==>
              !FailedRequest(item) && streak >= threshold
  {
  }

  lemma SkipIsExact(item: Item, reason: string)
    ensures SkipReason(item) == SkippedAs(reason) <==> IsSkip(item, reason)
  {
    hide Unknown, UnknownQuota;
    UnknownIsExact(item);
  }
}
