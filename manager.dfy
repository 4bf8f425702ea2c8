/** The stateful store object of the chat service. */
module Manager {
  import opened Wrappers
  import opened Records
  import opened Tokens
  import opened Eviction
  import opened Store

  /**
   * Keeps one log per channel and cleans a channel up after every message
   * added to it. The settings are fixed at construction.
   */
  class ConversationManager {
    var conversations: Conversations
    const maxAge: int
    const maxMessages: int
    const tokenLimit: int

    constructor (maxAgeMinutes: int := 60, maxMessages: int := 30)
      ensures conversations == map[]
      ensures this.maxAge == maxAgeMinutes * MicrosPerMinute
      ensures this.maxMessages == maxMessages
      ensures tokenLimit == TokenLimit
    {
      conversations := map[];
      this.maxAge := maxAgeMinutes * MicrosPerMinute;
      this.maxMessages := maxMessages;
      tokenLimit := TokenLimit;
    }

    function Settings(): Limits
    {
      Limits(maxAge, maxMessages, tokenLimit)
    }

    function Log(channelId: int): seq<Record>
      reads this
    {
      LogOf(conversations, channelId)
    }

    /**
     * Appends one record (role mapped, `stamp` read from the clock) to the
     * channel's log, then cleans that channel up at time `now`.
     */
    method AddMessage(channelId: int, role: string, content: string, stamp: Instant, now: Instant, counter: Counter)
      modifies this
      ensures conversations == Added(old(conversations), channelId, role, content, stamp, now, Settings(), counter)
    {
      var appended := LogOf(conversations, channelId) + [Record(RoleFor(role), content, stamp)];
      conversations := conversations[channelId := appended];
      assert LogOf(conversations, channelId) == appended;
      CleanupConversation(channelId, now, counter);
    }

    /** Empties one channel's log, or drops every log when no id is given. */
    method ClearConversation(channelId: Option<int> := None)
      modifies this
      ensures conversations == Cleared(old(conversations), channelId)
    {
      match channelId
      case None =>
        conversations := map[];
      case Some(c) =>
        if c in conversations {
          conversations := conversations[c := []];
        }
    }

    /** The channel's log as backend turns, oldest first; empty for an unknown channel. */
    function GetFormattedHistory(channelId: int): (h: seq<Turn>)
      reads this
      ensures channelId !in conversations ==> h == []
      ensures |h| == |Log(channelId)|
      ensures forall i :: 0 <= i < |h| ==> h[i] == Turn(Log(channelId)[i].role, [Log(channelId)[i].content])
    {
      FormatHistory(Log(channelId))
    }

    /** The estimate for the channel's current contents. */
    function CalculateTotalTokens(channelId: int, counter: Counter): (n: int)
      reads this
      ensures Log(channelId) == [] ==> n == 0
      ensures Log(channelId) != [] && counter(Contents(Log(channelId))).Some? ==> n == counter(Contents(Log(channelId))).value
      ensures counter(Contents(Log(channelId))).None? ==> n == SumLengths(Contents(Log(channelId)))
    {
      SumLengthsIsConcatLength(Contents(Log(channelId)));
      TotalTokens(Contents(Log(channelId)), counter)
    }

    /**
     * The three passes on one channel: keep the records young enough at
     * `now`, keep at most the last `maxMessages`, then drop the oldest until
     * the estimate is within `tokenLimit` or the log is empty.
     */
    method CleanupConversation(channelId: int, now: Instant, counter: Counter)
      modifies this
      ensures conversations == old(conversations)[channelId := Cleanup(LogOf(old(conversations), channelId), now, Settings(), counter)]
    {
      var log := AgeFilter(Log(channelId), now, maxAge);
      conversations := conversations[channelId := log];
      if |log| > maxMessages {
        log := SliceFrom(log, -maxMessages);
        conversations := conversations[channelId := log];
      }
      ghost var capped := log;
      assert capped == CountCap(AgeFilter(LogOf(old(conversations), channelId), now, maxAge), maxMessages);
      while CalculateTotalTokens(channelId, counter) > tokenLimit
        invariant conversations == old(conversations)[channelId := log]
        invariant TokenTrim(log, tokenLimit, counter) == TokenTrim(capped, tokenLimit, counter)
        decreases |log|
      {
        if log == [] {
          break;
        }
        log := log[1..];
        conversations := conversations[channelId := log];
      }
      assert log == TokenTrim(capped, tokenLimit, counter);
    }
  }
}
