/**
 * The per-channel store as a value: a map from channel id to its log,
 * where a channel without an entry has an empty log. The class in module
 * Manager is specified by these functions.
 */
module Store {
  import opened Wrappers
  import opened Records
  import opened Tokens
  import opened Eviction
  import opened Sequences

  type Conversations = map<int, seq<Record>>

  /** A channel's log; a channel never written to has the empty log. */
  function LogOf(m: Conversations, channelId: int): seq<Record>
  {
    if channelId in m then m[channelId] else []
  }

  /** The store after one message is appended to a channel and that channel is cleaned up. */
  function Added(m: Conversations, channelId: int, callerRole: string, content: string,
                 stamp: Instant, now: Instant, limits: Limits, counter: Counter): (m': Conversations)
    ensures m'.Keys == m.Keys + {channelId}
    ensures forall c :: c != channelId ==> LogOf(m', c) == LogOf(m, c)
  {
    m[channelId := Cleanup(LogOf(m, channelId) + [Record(RoleFor(callerRole), content, stamp)], now, limits, counter)]
  }

  /** The log an insertion leaves in its channel. */
  lemma AddedLog(m: Conversations, channelId: int, callerRole: string, content: string,
                 stamp: Instant, now: Instant, limits: Limits, counter: Counter)
    ensures LogOf(Added(m, channelId, callerRole, content, stamp, now, limits, counter), channelId)
         == Cleanup(LogOf(m, channelId) + [Record(RoleFor(callerRole), content, stamp)], now, limits, counter)
  {
  }

  /**
   * The store after a reset: every channel empty when no id is given,
   * otherwise only that channel empty and every other log as it was.
   */
  function Cleared(m: Conversations, channelId: Option<int>): (m': Conversations)
    ensures forall c :: LogOf(m', c) == if channelId == None || channelId == Some(c) then [] else LogOf(m, c)
    ensures channelId.None? ==> m' == map[]
    ensures channelId.Some? ==> m'.Keys == m.Keys
  {
    match channelId
    case None => map[]
    case Some(c) => if c in m then m[c := []] else m
  }

  /** Resetting an unknown channel changes nothing. */
  lemma ClearUnknownIsNoOp(m: Conversations, channelId: int)
    requires channelId !in m
    ensures Cleared(m, Some(channelId)) == m
  {
  }

  /** A reset repeated is the same reset. */
  lemma ClearIdempotent(m: Conversations, channelId: Option<int>)
    ensures Cleared(Cleared(m, channelId), channelId) == Cleared(m, channelId)
  {
  }

  /**
   * What one insertion guarantees for its channel: the appended record is
   * the only new one, it is last unless everything was evicted, and the
   * age, count and token bounds hold.
   */
  lemma AddedBounds(m: Conversations, channelId: int, callerRole: string, content: string,
                    stamp: Instant, now: Instant, limits: Limits, counter: Counter)
    ensures var log := LogOf(Added(m, channelId, callerRole, content, stamp, now, limits, counter), channelId);
      var x := Record(RoleFor(callerRole), content, stamp);
      && IsSubsequence(log, LogOf(m, channelId) + [x])
      && (forall r :: r in log ==> Fresh(r, now, limits.maxAge))
      && (limits.maxMessages > 0 ==> |log| <= limits.maxMessages)
      && (log == [] || TotalTokens(Contents(log), counter) <= limits.tokenLimit)
      && (Fresh(x, now, limits.maxAge) ==> log == [] || log[|log| - 1] == x)
  {
    var x := Record(RoleFor(callerRole), content, stamp);
    CleanupBounds(LogOf(m, channelId) + [x], now, limits, counter);
    if Fresh(x, now, limits.maxAge) {
      CleanupKeepsNewest(LogOf(m, channelId), x, now, limits, counter);
    }
  }

  /** The backend sees a history within the token budget after every insertion. */
  lemma AddedHistoryWithinBudget(m: Conversations, channelId: int, callerRole: string, content: string,
                                 stamp: Instant, now: Instant, limits: Limits, counter: Counter)
    requires limits.tokenLimit >= 0
    ensures var log := LogOf(Added(m, channelId, callerRole, content, stamp, now, limits, counter), channelId);
      TotalTokens(TurnTexts(FormatHistory(log)), counter) <= limits.tokenLimit
  {
    var log := LogOf(Added(m, channelId, callerRole, content, stamp, now, limits, counter), channelId);
    FormatHistoryTexts(log);
    CleanupBounds(LogOf(m, channelId) + [Record(RoleFor(callerRole), content, stamp)], now, limits, counter);
  }

  /** When the clock does not run backwards, every log stays chronological. */
  lemma AddedKeepsChronological(m: Conversations, channelId: int, callerRole: string, content: string,
                                stamp: Instant, now: Instant, limits: Limits, counter: Counter)
    requires Chronological(LogOf(m, channelId))
    requires forall r :: r in LogOf(m, channelId) ==> r.timestamp <= stamp
    ensures Chronological(LogOf(Added(m, channelId, callerRole, content, stamp, now, limits, counter), channelId))
  {
    var log := LogOf(m, channelId) + [Record(RoleFor(callerRole), content, stamp)];
    assert forall i :: 0 <= i < |log| - 1 ==> log[i] in LogOf(m, channelId);
    CleanupChronological(log, now, limits, counter);
  }
}
