/**
 * The values the conversation memory stores and hands out: one stored
 * record per message, and the `{role, parts}` turn the chat backend takes.
 */
module Records {

  /** A UTC instant, in microseconds (the resolution of a `datetime`). */
  type Instant = int

  /** Length of one minute in the unit of `Instant`. */
  const MicrosPerMinute: int := 60_000_000

  /** The two roles the chat backend knows: "user" and "model". */
  datatype Role = User | Model

  /** One stored message: its backend role, its text and when it was added. */
  datatype Record = Record(role: Role, content: string, timestamp: Instant)

  /** One entry of a chat history handed to the backend: a role and its text parts. */
  datatype Turn = Turn(role: Role, parts: seq<string>)

  /** The caller's role vocabulary mapped onto the backend's two roles. */
  function RoleFor(callerRole: string): (r: Role)
    ensures r == Model <==> callerRole == "assistant"
    ensures r == User <==> callerRole != "assistant"
  {
    if callerRole == "assistant" then Model else User
  }

  /** The texts of a log, oldest first. */
  function Contents(log: seq<Record>): (texts: seq<string>)
    ensures |texts| == |log|
    ensures forall i :: 0 <= i < |log| ==> texts[i] == log[i].content
  {
    seq(|log|, i requires 0 <= i < |log| => log[i].content)
  }

  /** The backend turn for one stored record. */
  function FormatRecord(r: Record): Turn
  {
    Turn(r.role, [r.content])
  }

  /** The read-only projection of a log as the backend's history. */
  function FormatHistory(log: seq<Record>): (h: seq<Turn>)
    ensures |h| == |log|
    ensures forall i :: 0 <= i < |log| ==> h[i].role == log[i].role && h[i].parts == [log[i].content]
  {
    seq(|log|, i requires 0 <= i < |log| => FormatRecord(log[i]))
  }

  /** All text parts of a history, in order. */
  function TurnTexts(h: seq<Turn>): seq<string>
  {
    if h == [] then [] else h[0].parts + TurnTexts(h[1..])
  }

  /** The projection loses no text: its parts are exactly the log's contents, in order. */
  lemma {:induction false} FormatHistoryTexts(log: seq<Record>)
    ensures TurnTexts(FormatHistory(log)) == Contents(log)
  {
    if log != [] {
      assert FormatHistory(log)[1..] == FormatHistory(log[1..]);
      FormatHistoryTexts(log[1..]);
      assert Contents(log) == [log[0].content] + Contents(log[1..]);
    }
  }

  /** The projection commutes with appending records. */
  lemma FormatHistoryAppend(a: seq<Record>, b: seq<Record>)
    ensures FormatHistory(a + b) == FormatHistory(a) + FormatHistory(b)
  {
    assert forall i :: 0 <= i < |a + b| ==> FormatHistory(a + b)[i] == (FormatHistory(a) + FormatHistory(b))[i];
  }
}
