# Conversation memory of a chat bot, in Dafny

This project models the conversation memory of a one-file chat bot (`main.py`).
The bot keeps a short log of recent messages for each channel. It merges that log
with the last few messages fetched from the chat platform and hands the result to
a generative backend as the chat history.

The model has these parts:

- **Records** (`records.dfy`): a stored message is a record `{role, content, timestamp}`. The backend has two roles, `user` and `model`. The caller's role is mapped onto them: `"assistant"` becomes `model`, anything else becomes `user`. The history handed out for a log is a list of `{role, parts: [content]}` turns.
- **Tokens** (`tokens.dfy`): the token estimate of a log's texts. An empty list gives 0 and the counter is never asked. Otherwise the backend's counting call decides. That call is a parameter `Counter = seq<string> -> Option<int>`, where `None` means the call raised. When it raises, the estimate is the sum of the texts' character counts. The result is tagged `NotCounted`, `Counted(n)` or `Fallback(n)`, so it shows which path was taken.
- **Eviction** (`eviction.dfy`): the cleanup run after every insertion. It applies three passes, each to the previous pass's result:
  - **Age:** keep the records whose age `now - timestamp` is at most the maximum age. The bound is inclusive.
  - **Count:** when the log is longer than `max_messages`, slice it by Python's rules from `-max_messages`. A positive cap therefore keeps the newest `max_messages` records, 0 keeps everything, and a negative cap drops that many records from the front.
  - **Token budget:** while the estimate exceeds the budget (7168), drop the oldest record, and stop on an empty log.
  
  Each pass is a function. The lemmas cover the bounds, order preservation, suffix properties and minimal eviction.
- **Store** (`store.dfy`): the per-channel map as a value. A missing channel has the empty log. It has two functions, one for a store after an insertion and one for a store after a reset, and the lemmas about them.
- **Manager** (`manager.dfy`): the `ConversationManager` class. It has the map field `conversations` and the constant settings. Its methods `AddMessage`, `ClearConversation` and `CleanupConversation` are each specified by the Store and Eviction functions. `CleanupConversation` contains the token-trimming `while` loop. `GetFormattedHistory` is a read-only function.
- **Context** (`context.dfy`): the transform of fetched platform messages and the assembly of one turn's context. Platform messages arrive newest first. The transform drops messages with no text, maps bot authors to `model` and everyone else to `user`, and reverses the result to oldest first. The context is the stored history followed by that list, with nothing removed. `RespondToMessage` models the handling of a turn at `main.py:138-147`: build the context, then append the user's turn and the reply only if the backend answered.

Time is an `int` count of microseconds. Each `add_message` reads the clock twice: once for the record's timestamp and once at the start of cleanup. Both readings are parameters (`stamp`, `now`).

## Model

| member | source | states |
|---|---|---|
| `Records.RoleFor` | main.py:42 | The stored role is `model` exactly when the caller's role is `"assistant"`, and `user` for every other string. |
| `Records.Contents` | main.py:72 | The texts of a log are its records' contents, one per record, in log order. |
| `Records.FormatHistory` | main.py:56-57 | The history has one turn per record, in log order. Each turn carries that record's role and has the record's content as its only part. |
| `Records.FormatHistoryTexts` | main.py:56-57 | Flattening the history's parts gives back exactly the log's contents, in order. |
| `Records.FormatHistoryAppend` | main.py:56-57 | The projection commutes with appending records to the log. |
| `Tokens.EstimateTokens` | main.py:71-78 | The estimate is `NotCounted` exactly for an empty list. It is `Counted` exactly when the list is non-empty and the counter answers, and then it carries the counter's value. Otherwise it is `Fallback`, with the character count of the concatenated texts. |
| `Tokens.TotalTokens` | main.py:71-78 | The estimate is 0 for no texts and the counter's value when the counter answers. When the counter fails, it is the length of the concatenated texts. |
| `Tokens.SumLengths` | main.py:78 | The fallback sum is 0 for no texts and at least the length of every single text. `Tokens.SumLengthsIsConcatLength` proves it equals the length of the concatenation. |
| `Tokens.SumLengthsIsConcatLength` | main.py:78 | The fallback sum of lengths equals the length of the concatenation of all texts. |
| `Tokens.FallbackExample` | main.py:74-78 | When the counter fails on `["ab", "cde"]`, the estimate is 5. |
| `Eviction.AgeFilter` | main.py:60-64 | No output is longer than its input, and every surviving record satisfies `now - timestamp <= max_age`. |
| `Eviction.AgeFilterMembers` | main.py:61-64 | A record survives the age pass if and only if it is in the log and young enough. |
| `Eviction.AgeFilterAppend` | main.py:61-64 | The age pass distributes over concatenation, so it keeps the survivors' relative order and judges each record on its own. |
| `Eviction.AgeFilterSubsequence` | main.py:61-64 | The survivors form a subsequence of the log. |
| `Eviction.AgeFilterKeepsAllFresh` | main.py:61-64 | A log whose records are all young enough passes unchanged. |
| `Eviction.AgeFilterChronological` | main.py:61-64 | On a log with non-decreasing timestamps, the age pass only drops records from the front, so the result is a suffix. |
| `Eviction.SliceFrom` | main.py:66 | Python's `s[start:]` gives a suffix of `s`. Its length is `len - start` for a start in range and `-start` for a negative start in range. A start past the end gives the empty list. A start before the beginning gives the whole list. |
| `Eviction.CountCap` | main.py:65-66 | The count pass gives a suffix of its input. With a positive cap, its length is `min(len, cap)`. A cap of 0 leaves the log unchanged. A negative cap `c` leaves `max(len + c, 0)` records. |
| `Eviction.TokenTrim` | main.py:67-69 | The token pass gives a suffix of the post-count log, and the result is empty or within the budget. |
| `Eviction.TokenTrimFirstFit` | main.py:67-69 | The token pass drops no more than it must: every longer suffix of its input is over the budget. |
| `Eviction.TokenTrimWithinBudget` | main.py:67-69 | With a budget of at least zero, the result is always within the budget. |
| `Eviction.Cleanup` | main.py:59-69 | Cleanup never adds records, keeps at most `max_messages` records for a positive cap, and leaves a log that is empty or within the budget. Membership, freshness and order are proved by `Eviction.CleanupBounds`, `Eviction.CleanupChronological` and `Eviction.CleanupKeepsFreshTail`. |
| `Eviction.CleanupBounds` | main.py:59-69 | After cleanup, every record is young enough. The log has at most `max_messages` records when the cap is positive, and its estimate is within the budget (unless it is empty). The survivors form a subsequence of the original log. |
| `Eviction.CleanupChronological` | main.py:59-69 | On a chronological log, cleanup gives a chronological suffix. |
| `Eviction.CleanupKeepsFreshTail` | main.py:59-69 | When the newest records are young enough, the result is a suffix of the older survivors followed by those records. Recent records are never evicted in favour of older ones. |
| `Eviction.CleanupKeepsNewest` | main.py:43-48 | The record just appended, if young enough, is the last record after cleanup, unless cleanup emptied the log. |
| `Store.Added` | main.py:41-48 | An insertion adds the channel's key to the store and leaves every other channel's log unchanged. |
| `Store.AddedBounds` | main.py:41-69 | After an insertion, the channel's log is a subsequence of the old log plus the new record. The age, count and token bounds hold, and a young-enough new record is last unless the log was emptied. |
| `Store.AddedHistoryWithinBudget` | main.py:41-69 | After an insertion, the estimate of the texts in the channel's formatted history is within a non-negative budget. |
| `Store.AddedKeepsChronological` | main.py:43-47 | If the clock never runs backwards, a chronological log stays chronological after an insertion. |
| `Store.Cleared` | main.py:50-54 | With no id, every channel's log is empty and the map is empty. With an id, that channel's log is empty, every other log is unchanged, and no key is added or removed. |
| `Store.ClearUnknownIsNoOp` | main.py:53-54 | Resetting a channel that has no log changes nothing. |
| `Store.ClearIdempotent` | main.py:50-54 | Resetting twice gives the same store as resetting once. |
| `Manager.ConversationManager.constructor` | main.py:35-39 | A new manager has no logs, a maximum age of `max_age_minutes` minutes, the given count cap and a token budget of 7168. The defaults are 60 and 30. |
| `Manager.ConversationManager.AddMessage` | main.py:41-48 | The new store is the old store with the mapped record appended to the channel and that channel cleaned up. |
| `Manager.ConversationManager.ClearConversation` | main.py:50-54 | The new store is the old store reset for the given id, or for all channels when no id is given. |
| `Manager.ConversationManager.GetFormattedHistory` | main.py:56-57 | The result is empty for an unknown channel. Otherwise it is one `{role, [content]}` turn per record, in log order. |
| `Manager.ConversationManager.CalculateTotalTokens` | main.py:71-78 | The channel's estimate is 0 for an empty or unknown channel, the counter's value when it answers, and the sum of the texts' lengths when it fails. It is the guard of the trimming loop in `CleanupConversation`. |
| `Manager.ConversationManager.CleanupConversation` | main.py:59-69 | Only the channel's own log changes, and it becomes its cleanup. The trimming loop terminates because each iteration drops a record or breaks. |
| `Context.PlatformRole` | main.py:97 | A fetched message's role is `model` exactly when its author is a bot. |
| `Context.ToTurn` | main.py:97-98 | A fetched message becomes a turn whose role is `model` exactly for a bot author and whose only part is the message's text. |
| `Context.Collected` | main.py:93-98 | The collecting loop yields at most one turn per message, and every turn has exactly one non-empty part. |
| `Context.CollectedMembers` | main.py:93-98 | A turn is collected if and only if it comes from a fetched message with text. |
| `Context.ContextualHistory` | main.py:92-99 | The fetched history has at most as many turns as fetched messages, so at most the 5 asked for at main.py:138, and each turn has exactly one non-empty part. |
| `Context.ContextualHistoryMembers` | main.py:92-99 | Every fetched message with text appears as its turn, and every turn comes from such a message. |
| `Context.ContextualHistoryAppend` | main.py:92-99 | The transform reverses concatenation: the history of `a + b` is the history of `b` followed by the history of `a`. |
| `Context.ContextualHistorySingle` | main.py:95-98 | A single message gives nothing when its text is empty. Otherwise it gives one turn, `model` for a bot author and `user` for anyone else. |
| `Context.ContextualHistoryAllText` | main.py:92-99 | When every message has text, the output is the delivery reversed, one turn per message. |
| `Context.AssembleContext` | main.py:139-140 | The context is the stored history, verbatim, followed by the fetched history. Its length is the sum of the two lengths, and each turn occurs as often as in both parts together, so nothing is deduplicated. |
| `Context.RespondToMessage` | main.py:138-147 | The context is built from the store as it was before the turn. If the backend fails, the store is unchanged. If it replies, even with empty text, the user's message and then the reply are added. |
| `Context.ExchangeOrder` | main.py:146-147 | After a successful turn, when both messages are still young enough, the channel's log ends with the reply. When two or more records remain, the reply is preceded by the user's message. |
| `Context.SecondCleanupKeepsPair` | main.py:147 | The second insertion of a turn, on a log that is empty or ends with the user's message, leaves the log ending with the user's message followed by the reply, as far as anything remains. |

## Left out

- Discord wiring is not modelled because it is platform I/O and event registration. This covers the client, `on_ready`, the author, channel and empty-input guards at the top of `on_message`, the `!reset` command, replies and typing, and `client.run` (main.py:101-128, main.py:148-163). The reset itself is `ClearConversation`.
- Concurrency between events that interleave at an `await` is not modelled. Each operation is taken as atomic.
- `google_search` and the `!search` / `!research` prompt branch (main.py:80-90, main.py:130-136) are not modelled. They are an HTTP call and prompt-string glue.
- Backend configuration and calls (main.py:30-32, main.py:134, main.py:142-143) are foreign library calls. Token counting is the `Counter` parameter. Generation is the `reply: Option<string>` parameter of `RespondToMessage`, where `None` means the call (or reading `.text`) raised.
- Loading the environment and `.env` (main.py:11-28) is process startup and is not modelled.
- `datetime.now` is not modelled: clock readings are parameters. Non-integer `max_age_minutes` values are not modelled, because the settings are integers.
- The `defaultdict` side effect is not modelled: reading an unknown channel does not create an empty entry. A missing key behaves as an empty log (`Store.LogOf`).
- `clean_content`, `strip()` and `channel.history` are not modelled. Fetched messages are given as already-stripped `(authorIsBot, text)` pairs, newest first. The user's input and the reply text are likewise taken as already stripped.
- The warning logged when the counter fails is not modelled, because it is only logging output.
- Tokens.TotalTokens: the counter is a function of the texts, so the model does not capture a counting call that answers differently on repeated calls with the same texts. The loop terminates either way.
- Store.AddedKeepsChronological: the code does not guarantee non-decreasing timestamps, since the wall clock may step back. The lemma therefore takes a non-decreasing clock as a precondition.

## Notes on the code

- Timestamps come from the wall clock (main.py:46, main.py:60). A log stays in time order only if that clock never steps back. The model proves the order property under that condition (`Store.AddedKeepsChronological`).
- The count pass slices with `[-max_messages:]` (main.py:66). That bounds the length by `max_messages` only for a positive cap: 0 keeps the whole log, and a negative cap drops records from the front. The model follows the slice exactly (`Eviction.CountCap`).
- The counting call receives the list of texts, not one joined string (main.py:75). Its fallback, the sum of the lengths, equals the length of the joined texts (`Tokens.SumLengthsIsConcatLength`).
- The `break` on an empty log at main.py:68 cannot be reached with the fixed budget of 7168, because an empty log is estimated at 0. It matters only for a negative budget. The model keeps it, and `Eviction.TokenTrimWithinBudget` shows that the log always ends within a non-negative budget.
- The fetched history marks a message `model` when its author is any bot (`message.author.bot`, main.py:97), not only when this bot wrote it. Another bot's messages therefore reach the backend as the model's own turns (`Context.PlatformRole`).
