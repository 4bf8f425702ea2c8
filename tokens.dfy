/**
 * Token estimation for a channel log: the backend's counting call when it
 * answers, the total character count when it fails, zero for no texts.
 */
module Tokens {
  import opened Wrappers

  /**
   * The backend's token counting call over a list of texts: `Some(n)` when
   * it returns a count, `None` when it raises.
   */
  type Counter = seq<string> -> Option<int>

  /** The heuristic fallback: the sum of the texts' character counts. */
  function SumLengths(texts: seq<string>): (n: nat)
    ensures texts == [] ==> n == 0
    ensures forall i :: 0 <= i < |texts| ==> |texts[i]| <= n
  {
    if texts == [] then 0 else |texts[0]| + SumLengths(texts[1..])
  }

  /** All texts joined into one. */
  function Concat(texts: seq<string>): string
  {
    if texts == [] then [] else texts[0] + Concat(texts[1..])
  }

  /** The fallback is the character count of the concatenated texts. */
  lemma {:induction false} SumLengthsIsConcatLength(texts: seq<string>)
    ensures SumLengths(texts) == |Concat(texts)|
  {
    if texts != [] {
      SumLengthsIsConcatLength(texts[1..]);
    }
  }

  /** Which way an estimate was obtained, and its value. */
  datatype Estimate = NotCounted | Counted(tokens: int) | Fallback(tokens: int)
  {
    function Value(): int
    {
      match this
      case NotCounted => 0
      case Counted(n) => n
      case Fallback(n) => n
    }
  }

  /**
   * The estimator: no call at all for an empty list, the counter's answer
   * when it gives one, and the character count when it fails.
   */
  function EstimateTokens(texts: seq<string>, counter: Counter): (e: Estimate)
    ensures e.NotCounted? <==> texts == []
    ensures e.Counted? <==> texts != [] && counter(texts).Some?
    ensures e.Counted? ==> e.tokens == counter(texts).value
    ensures e.Fallback? ==> e.tokens == |Concat(texts)| && e.tokens >= 0
  {
    if texts == [] then NotCounted
    else match counter(texts)
      case Some(n) => Counted(n)
      case None => SumLengthsIsConcatLength(texts); Fallback(SumLengths(texts))
  }

  /** The number the trimming loop compares with the budget. */
  function TotalTokens(texts: seq<string>, counter: Counter): (n: int)
    ensures texts == [] ==> n == 0
    ensures texts != [] && counter(texts).Some? ==> n == counter(texts).value
    ensures texts != [] && counter(texts).None? ==> n == |Concat(texts)|
  {
    EstimateTokens(texts, counter).Value()
  }

  /** A failing counter on ["ab", "cde"] gives 5, the 2 + 3 characters. */
  lemma FallbackExample(counter: Counter)
    requires counter(["ab", "cde"]).None?
    ensures TotalTokens(["ab", "cde"], counter) == 5
  {
    assert Concat(["ab", "cde"]) == "abcde" by {
      assert ["ab", "cde"][1..] == ["cde"];
      assert ["cde"][1..] == [];
    }
  }
}
