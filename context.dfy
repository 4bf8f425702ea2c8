/**
 * Building the backend context for one chat turn: the store's short-term
 * history followed by the recent platform messages, and the store update
 * made once the backend has replied.
 */
module Context {
  import opened Wrappers
  import opened Records
  import opened Tokens
  import opened Sequences
  import opened Eviction
  import opened Store
  import opened Manager

  /** One message as the platform delivers it: whether a bot wrote it, and its cleaned, stripped text. */
  datatype PlatformMessage = PlatformMessage(authorIsBot: bool, text: string)

  /** Bot authors become the backend's "model" role, everyone else "user". */
  function PlatformRole(authorIsBot: bool): (r: Role)
    ensures r == Model <==> authorIsBot
  {
    if authorIsBot then Model else User
  }

  /** The backend turn for one fetched message: its role by author, its text as the only part. */
  function ToTurn(m: PlatformMessage): (t: Turn)
    ensures t.role == Model <==> m.authorIsBot
    ensures t.parts == [m.text]
  {
    Turn(PlatformRole(m.authorIsBot), [m.text])
  }

  /** The fetch loop: every message with text, as a turn, in delivery order (newest first). */
  function Collected(fetched: seq<PlatformMessage>): (h: seq<Turn>)
    ensures |h| <= |fetched|
    ensures forall i :: 0 <= i < |h| ==> |h[i].parts| == 1 && h[i].parts[0] != ""
    decreases |fetched|
  {
    if fetched == [] then []
    else (if fetched[0].text == "" then [] else [ToTurn(fetched[0])]) + Collected(fetched[1..])
  }

  /**
   * The recent platform history as backend turns, oldest first: exactly
   * the messages with text, with "model" for bot authors.
   */
  function ContextualHistory(fetched: seq<PlatformMessage>): (h: seq<Turn>)
    ensures |h| <= |fetched|
    ensures forall i :: 0 <= i < |h| ==> |h[i].parts| == 1 && h[i].parts[0] != ""
  {
    Reversed(Collected(fetched))
  }

  lemma {:induction false} CollectedMembers(fetched: seq<PlatformMessage>)
    ensures forall t :: t in Collected(fetched) <==> exists m :: m in fetched && m.text != "" && t == ToTurn(m)
    decreases |fetched|
  {
    if fetched != [] {
      CollectedMembers(fetched[1..]);
      assert fetched == [fetched[0]] + fetched[1..];
    }
  }

  /** Exactly the messages with text reach the output: a message becomes a turn if and only if its text is not empty. */
  lemma ContextualHistoryMembers(fetched: seq<PlatformMessage>)
    ensures forall m :: m in fetched && m.text != "" ==> ToTurn(m) in ContextualHistory(fetched)
    ensures forall t :: t in ContextualHistory(fetched) ==> exists m :: m in fetched && m.text != "" && t == ToTurn(m)
  {
    var collected := Collected(fetched);
    var h := Reversed(collected);
    CollectedMembers(fetched);
    forall t ensures t in h <==> t in collected {
      assert t in h <==> t in multiset(h);
      assert t in collected <==> t in multiset(collected);
    }
  }

  lemma {:induction false} CollectedAppend(a: seq<PlatformMessage>, b: seq<PlatformMessage>)
    ensures Collected(a + b) == Collected(a) + Collected(b)
    decreases |a|
  {
    if a == [] {
      assert a + b == b;
    } else {
      assert (a + b)[1..] == a[1..] + b;
      CollectedAppend(a[1..], b);
    }
  }

  /**
   * The transform is pinned down by two facts: a single message becomes
   * its turn or nothing, and a longer delivery is handled piecewise in
   * reverse order.
   */
  lemma ContextualHistoryAppend(a: seq<PlatformMessage>, b: seq<PlatformMessage>)
    ensures ContextualHistory(a + b) == ContextualHistory(b) + ContextualHistory(a)
  {
    CollectedAppend(a, b);
    ReversedAppend(Collected(a), Collected(b));
  }

  lemma ContextualHistorySingle(m: PlatformMessage)
    ensures ContextualHistory([m]) == if m.text == "" then [] else [Turn(if m.authorIsBot then Model else User, [m.text])]
  {
    assert [m][1..] == [];
  }

  lemma {:induction false} CollectedAllText(fetched: seq<PlatformMessage>)
    requires forall i :: 0 <= i < |fetched| ==> fetched[i].text != ""
    ensures var h := Collected(fetched);
      |h| == |fetched| && forall i :: 0 <= i < |h| ==> h[i] == ToTurn(fetched[i])
    decreases |fetched|
  {
    if fetched != [] {
      CollectedAllText(fetched[1..]);
    }
  }

  /** When every message has text, the output is the delivery reversed, one turn per message. */
  lemma ContextualHistoryAllText(fetched: seq<PlatformMessage>)
    requires forall i :: 0 <= i < |fetched| ==> fetched[i].text != ""
    ensures var h := ContextualHistory(fetched);
      |h| == |fetched| && forall i :: 0 <= i < |h| ==> h[i] == ToTurn(fetched[|fetched| - 1 - i])
  {
    CollectedAllText(fetched);
  }

  /**
   * The context handed to the backend: the short-term history of `log`
   * followed by the platform history, verbatim and without removing
   * duplicates — every turn occurs as often as in both parts together.
   */
  function AssembleContext(log: seq<Record>, fetched: seq<PlatformMessage>): (c: seq<Turn>)
    ensures |c| == |log| + |ContextualHistory(fetched)|
    ensures forall i :: 0 <= i < |log| ==> c[i] == Turn(log[i].role, [log[i].content])
    ensures c[|log|..] == ContextualHistory(fetched)
    ensures multiset(c) == multiset(FormatHistory(log)) + multiset(ContextualHistory(fetched))
  {
    FormatHistory(log) + ContextualHistory(fetched)
  }

  /**
   * One chat turn after dispatch: build the context from the platform
   * messages and the store, then, only if the backend replied (`reply` is
   * `Some`, possibly with empty text), append the user's message and then
   * the reply. A failed backend call leaves the store untouched.
   */
  method RespondToMessage(manager: ConversationManager, channelId: int, userInput: string,
                          fetched: seq<PlatformMessage>, reply: Option<string>,
                          userStamp: Instant, userNow: Instant, replyStamp: Instant, replyNow: Instant,
                          counter: Counter)
    returns (context: seq<Turn>)
    modifies manager
    ensures context == AssembleContext(old(manager.Log(channelId)), fetched)
    ensures reply.None? ==> manager.conversations == old(manager.conversations)
    ensures reply.Some? ==> (manager.conversations ==
      Added(Added(old(manager.conversations), channelId, "user", userInput, userStamp, userNow, manager.Settings(), counter),
            channelId, "assistant", reply.value, replyStamp, replyNow, manager.Settings(), counter))
  {
    var platformHistory := ContextualHistory(fetched);
    var shortTermHistory := manager.GetFormattedHistory(channelId);
    context := shortTermHistory + platformHistory;
    if reply.Some? {
      manager.AddMessage(channelId, "user", userInput, userStamp, userNow, counter);
      manager.AddMessage(channelId, "assistant", reply.value, replyStamp, replyNow, counter);
    }
  }

  /** The log ends with the reply, preceded by the user's message when two or more records remain. */
  ghost predicate EndsWithExchange(log: seq<Record>, u: Record, a: Record)
  {
    && (log == [] || log[|log| - 1] == a)
    && (|log| >= 2 ==> log[|log| - 2..] == [u, a])
  }

  /**
   * After a successful turn, with both messages still young enough at the
   * second cleanup, the channel's log ends with the user's message followed
   * by the reply, as far as eviction left anything.
   */
  lemma ExchangeOrder(m: Conversations, channelId: int, userInput: string, replyText: string,
                      userStamp: Instant, userNow: Instant, replyStamp: Instant, replyNow: Instant,
                      limits: Limits, counter: Counter)
    requires userNow - userStamp <= limits.maxAge
    requires replyNow - userStamp <= limits.maxAge
    requires replyNow - replyStamp <= limits.maxAge
    ensures var log := LogOf(Added(Added(m, channelId, "user", userInput, userStamp, userNow, limits, counter),
                                   channelId, "assistant", replyText, replyStamp, replyNow, limits, counter), channelId);
      var u, a := Record(User, userInput, userStamp), Record(Model, replyText, replyStamp);
      EndsWithExchange(log, u, a)
  {
    var u, a := Record(User, userInput, userStamp), Record(Model, replyText, replyStamp);
    var m1 := Added(m, channelId, "user", userInput, userStamp, userNow, limits, counter);
    AddedLog(m, channelId, "user", userInput, userStamp, userNow, limits, counter);
    AddedLog(m1, channelId, "assistant", replyText, replyStamp, replyNow, limits, counter);
    assert RoleFor("user") == User && RoleFor("assistant") == Model;
    CleanupKeepsNewest(LogOf(m, channelId), u, userNow, limits, counter);
    SecondCleanupKeepsPair(LogOf(m1, channelId), u, a, replyNow, limits, counter);
  }

  /** The second cleanup of a turn, on a log that ends with the user's message or is empty. */
  lemma SecondCleanupKeepsPair(first: seq<Record>, u: Record, a: Record, now: Instant, limits: Limits, counter: Counter)
    requires first == [] || first[|first| - 1] == u
    requires Fresh(u, now, limits.maxAge) && Fresh(a, now, limits.maxAge)
    ensures var log := Cleanup(first + [a], now, limits, counter);
      EndsWithExchange(log, u, a)
  {
    if first == [] {
      CleanupOfSingle(first + [a], u, a, now, limits, counter);
    } else {
      AppendAfterLast(first, u, a);
      CleanupOfPair(first + [a], first[..|first| - 1], u, a, now, limits, counter);
    }
  }

  lemma CleanupOfSingle(whole: seq<Record>, u: Record, a: Record, now: Instant, limits: Limits, counter: Counter)
    requires whole == [a] && Fresh(a, now, limits.maxAge)
    ensures var log := Cleanup(whole, now, limits, counter);
      EndsWithExchange(log, u, a)
  {
    assert whole == [] + [a];
    CleanupKeepsFreshTail([], [a], now, limits, counter);
    SuffixOfAppend(Cleanup(whole, now, limits, counter), AgeFilter([], now, limits.maxAge), [a]);
  }

  lemma CleanupOfPair(whole: seq<Record>, older: seq<Record>, u: Record, a: Record, now: Instant, limits: Limits, counter: Counter)
    requires whole == older + [u, a]
    requires Fresh(u, now, limits.maxAge) && Fresh(a, now, limits.maxAge)
    ensures var log := Cleanup(whole, now, limits, counter);
      EndsWithExchange(log, u, a)
  {
    CleanupKeepsFreshTail(older, [u, a], now, limits, counter);
    SuffixEndsWithPair(Cleanup(whole, now, limits, counter), AgeFilter(older, now, limits.maxAge), u, a);
  }
}
