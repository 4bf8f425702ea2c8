/**
 * The cleanup run after every insertion: three passes in a fixed order,
 * each on the result of the one before — age, then count, then token budget.
 */
module Eviction {
  import opened Records
  import opened Tokens
  import opened Sequences

  /** The token budget every store uses. */
  const TokenLimit: int := 7168

  /** The eviction settings of one store: maximum age (in `Instant` units), count cap, token budget. */
  datatype Limits = Limits(maxAge: int, maxMessages: int, tokenLimit: int)

  /** A record survives the age pass when its age is at most `maxAge` (the bound is inclusive). */
  predicate Fresh(r: Record, now: Instant, maxAge: int)
  {
    now - r.timestamp <= maxAge
  }

  /** Timestamps never decrease along the log. */
  ghost predicate Chronological(log: seq<Record>)
  {
    forall i, j :: 0 <= i < j < |log| ==> log[i].timestamp <= log[j].timestamp
  }

  // ---------------------------------------------------------------- age pass

  /** The age pass: the records young enough at `now`, in their original order. */
  function AgeFilter(log: seq<Record>, now: Instant, maxAge: int): (kept: seq<Record>)
    ensures |kept| <= |log|
    ensures forall i :: 0 <= i < |kept| ==> Fresh(kept[i], now, maxAge)
    decreases |log|
  {
    if log == [] then []
    else (if Fresh(log[0], now, maxAge) then [log[0]] else []) + AgeFilter(log[1..], now, maxAge)
  }

  /** The survivors are exactly the records of the log that are young enough. */
  lemma {:induction false} AgeFilterMembers(log: seq<Record>, now: Instant, maxAge: int)
    ensures forall r :: r in AgeFilter(log, now, maxAge) <==> r in log && Fresh(r, now, maxAge)
    decreases |log|
  {
    if log != [] {
      AgeFilterMembers(log[1..], now, maxAge);
      assert log == [log[0]] + log[1..];
    }
  }

  /** The age pass treats each record on its own: it distributes over concatenation. */
  lemma {:induction false} AgeFilterAppend(a: seq<Record>, b: seq<Record>, now: Instant, maxAge: int)
    ensures AgeFilter(a + b, now, maxAge) == AgeFilter(a, now, maxAge) + AgeFilter(b, now, maxAge)
    decreases |a|
  {
    if a == [] {
      assert a + b == b;
    } else {
      assert (a + b)[1..] == a[1..] + b;
      AgeFilterAppend(a[1..], b, now, maxAge);
    }
  }

  /** The survivors keep their relative order. */
  lemma {:induction false} AgeFilterSubsequence(log: seq<Record>, now: Instant, maxAge: int)
    ensures IsSubsequence(AgeFilter(log, now, maxAge), log)
    decreases |log|
  {
    if log != [] {
      AgeFilterSubsequence(log[1..], now, maxAge);
      if !Fresh(log[0], now, maxAge) {
        assert AgeFilter(log, now, maxAge) == AgeFilter(log[1..], now, maxAge);
        SubsequenceOfTail(AgeFilter(log, now, maxAge), log);
      }
    }
  }

  /** A log whose records are all young enough passes unchanged. */
  lemma {:induction false} AgeFilterKeepsAllFresh(log: seq<Record>, now: Instant, maxAge: int)
    requires forall i :: 0 <= i < |log| ==> Fresh(log[i], now, maxAge)
    ensures AgeFilter(log, now, maxAge) == log
    decreases |log|
  {
    if log != [] {
      AgeFilterKeepsAllFresh(log[1..], now, maxAge);
    }
  }

  /** On a chronological log the age pass only drops records from the front. */
  lemma {:induction false} AgeFilterChronological(log: seq<Record>, now: Instant, maxAge: int)
    requires Chronological(log)
    ensures IsSuffix(AgeFilter(log, now, maxAge), log)
    decreases |log|
  {
    if log == [] {
    } else if Fresh(log[0], now, maxAge) {
      assert forall i :: 0 <= i < |log| ==> log[0].timestamp <= log[i].timestamp;
      AgeFilterKeepsAllFresh(log, now, maxAge);
    } else {
      AgeFilterChronological(log[1..], now, maxAge);
      SuffixTransitive(AgeFilter(log[1..], now, maxAge), log[1..], log);
    }
  }

  // -------------------------------------------------------------- count pass

  function Min(a: int, b: int): int { if a <= b then a else b }
  function Max(a: int, b: int): int { if a <= b then b else a }

  /** The slice `s[start:]` with the host language's rules: a negative start counts from the end, both clamp. */
  function SliceFrom<T>(s: seq<T>, start: int): (r: seq<T>)
    ensures IsSuffix(r, s)
    ensures 0 <= start <= |s| ==> |r| == |s| - start
    ensures -|s| <= start < 0 ==> |r| == -start
    ensures start > |s| ==> r == []
    ensures start < -|s| ==> r == s
  {
    if start >= 0 then s[Min(start, |s|)..] else s[Max(|s| + start, 0)..]
  }

  /**
   * The count pass: a log longer than `maxMessages` keeps its last
   * `maxMessages` records. As written it slices from `-maxMessages`, so 0
   * keeps everything and a negative cap drops that many from the front.
   */
  function CountCap(log: seq<Record>, maxMessages: int): (capped: seq<Record>)
    ensures IsSuffix(capped, log)
    ensures maxMessages > 0 ==> |capped| == Min(|log|, maxMessages)
    ensures maxMessages == 0 ==> capped == log
    ensures maxMessages < 0 ==> |capped| == Max(|log| + maxMessages, 0)
  {
    if |log| > maxMessages then SliceFrom(log, -maxMessages) else log
  }

  // -------------------------------------------------------------- token pass

  /**
   * The token pass: while the estimate exceeds the budget, drop the oldest
   * record; stop on an empty log.
   */
  function TokenTrim(log: seq<Record>, limit: int, counter: Counter): (trimmed: seq<Record>)
    ensures IsSuffix(trimmed, log)
    ensures trimmed == [] || TotalTokens(Contents(trimmed), counter) <= limit
    decreases |log|
  {
    if TotalTokens(Contents(log), counter) > limit then
      if log == [] then [] else TokenTrim(log[1..], limit, counter)
    else log
  }

  /** The token pass removes no more than it must: every longer suffix is over budget. */
  lemma {:induction false} TokenTrimFirstFit(log: seq<Record>, limit: int, counter: Counter)
    ensures var trimmed := TokenTrim(log, limit, counter);
      forall j :: 0 <= j < |log| - |trimmed| ==> TotalTokens(Contents(log[j..]), counter) > limit
    decreases |log|
  {
    var trimmed := TokenTrim(log, limit, counter);
    if TotalTokens(Contents(log), counter) > limit && log != [] {
      TokenTrimFirstFit(log[1..], limit, counter);
      forall j | 1 <= j < |log| - |trimmed|
        ensures TotalTokens(Contents(log[j..]), counter) > limit
      {
        assert log[j..] == log[1..][j - 1..];
      }
    }
  }

  /** With a budget of at least zero the token pass always ends within budget. */
  lemma TokenTrimWithinBudget(log: seq<Record>, limit: int, counter: Counter)
    requires limit >= 0
    ensures TotalTokens(Contents(TokenTrim(log, limit, counter)), counter) <= limit
  {
  }

  // ----------------------------------------------------------------- cleanup

  /**
   * The whole cleanup of one channel's log: the token pass on the count pass
   * on the age pass. It never adds records, a positive cap bounds the length,
   * and what is left is empty or within the budget.
   */
  function Cleanup(log: seq<Record>, now: Instant, limits: Limits, counter: Counter): (r: seq<Record>)
    ensures |r| <= |log|
    ensures limits.maxMessages > 0 ==> |r| <= limits.maxMessages
    ensures r == [] || TotalTokens(Contents(r), counter) <= limits.tokenLimit
  {
    TokenTrim(CountCap(AgeFilter(log, now, limits.maxAge), limits.maxMessages), limits.tokenLimit, counter)
  }

  /** Elements of a suffix are elements of the whole. */
  lemma SuffixMembers(a: seq<Record>, b: seq<Record>)
    requires IsSuffix(a, b)
    ensures forall x :: x in a ==> x in b
  {
    forall x | x in a ensures x in b {
      var i :| 0 <= i < |a| && a[i] == x;
      assert b[|b| - |a| + i] == x;
    }
  }

  /** After cleanup every bound holds and the survivors are in their original order. */
  lemma CleanupBounds(log: seq<Record>, now: Instant, limits: Limits, counter: Counter)
    ensures var r := Cleanup(log, now, limits, counter);
      && (forall x :: x in r ==> x in log && Fresh(x, now, limits.maxAge))
      && (limits.maxMessages > 0 ==> |r| <= limits.maxMessages)
      && (r == [] || TotalTokens(Contents(r), counter) <= limits.tokenLimit)
      && (limits.tokenLimit >= 0 ==> TotalTokens(Contents(r), counter) <= limits.tokenLimit)
      && IsSubsequence(r, log)
  {
    var kept := AgeFilter(log, now, limits.maxAge);
    var capped := CountCap(kept, limits.maxMessages);
    var r := TokenTrim(capped, limits.tokenLimit, counter);
    SuffixTransitive(r, capped, kept);
    SuffixMembers(r, kept);
    AgeFilterMembers(log, now, limits.maxAge);
    AgeFilterSubsequence(log, now, limits.maxAge);
    SuffixOfSubsequence(r, kept, log);
  }

  /** On a chronological log cleanup only drops records from the front, and the result stays chronological. */
  lemma CleanupChronological(log: seq<Record>, now: Instant, limits: Limits, counter: Counter)
    requires Chronological(log)
    ensures var r := Cleanup(log, now, limits, counter);
      IsSuffix(r, log) && Chronological(r)
  {
    var kept := AgeFilter(log, now, limits.maxAge);
    var capped := CountCap(kept, limits.maxMessages);
    var r := TokenTrim(capped, limits.tokenLimit, counter);
    AgeFilterChronological(log, now, limits.maxAge);
    SuffixTransitive(r, capped, kept);
    SuffixTransitive(r, kept, log);
    forall i, j | 0 <= i < j < |r| ensures r[i].timestamp <= r[j].timestamp {
      assert r[i] == log[|log| - |r| + i] && r[j] == log[|log| - |r| + j];
    }
  }

  /**
   * Recent records are never evicted in favour of older ones: when the last
   * records of the log are all young enough, the result is a suffix of the
   * older survivors followed by those records.
   */
  lemma CleanupKeepsFreshTail(log: seq<Record>, tail: seq<Record>, now: Instant, limits: Limits, counter: Counter)
    requires forall i :: 0 <= i < |tail| ==> Fresh(tail[i], now, limits.maxAge)
    ensures IsSuffix(Cleanup(log + tail, now, limits, counter), AgeFilter(log, now, limits.maxAge) + tail)
  {
    var kept := AgeFilter(log + tail, now, limits.maxAge);
    AgeFilterAppend(log, tail, now, limits.maxAge);
    AgeFilterKeepsAllFresh(tail, now, limits.maxAge);
    var capped := CountCap(kept, limits.maxMessages);
    SuffixTransitive(TokenTrim(capped, limits.tokenLimit, counter), capped, kept);
  }

  /** The record just appended is either the last survivor or the log ends up empty. */
  lemma CleanupKeepsNewest(log: seq<Record>, x: Record, now: Instant, limits: Limits, counter: Counter)
    requires Fresh(x, now, limits.maxAge)
    ensures var r := Cleanup(log + [x], now, limits, counter);
      r == [] || r[|r| - 1] == x
  {
    CleanupKeepsFreshTail(log, [x], now, limits, counter);
  }
}
