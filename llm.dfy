/**
 * The placeholder suggestion builder: a fixed summary and four fixed gift
 * ideas, each stamped with the budget. The answers are not consulted.
 */
module Llm {
  import opened Json
  import opened Decimal

  /** The summary returned for every input. */
  const Summary: string := "Based on your responses, it seems like your recipient is creative, tech-savvy, and appreciates meaningful experiences. They have a strong connection to music and enjoy both practical and sentimental gifts. Here are some suggestions that align with their interests and your budget:"

  /** The gift idea at each of the four positions, before the budget stamp. */
  const Ideas: seq<string> := [
    "A high-quality digital drawing tablet",
    "Concert tickets for their favorite band's next tour",
    "A custom photo album of your shared memories",
    "A premium subscription to their favorite creative software"
  ]

  /** The f-string `"<idea> (within ${budget} budget)"`. */
  function Stamped(idea: string, budget: int): string {
    idea + " (within $" + IntText(budget) + " budget)"
  }

  /**
   * `process_answers(answers, budget)`: an object with the keys `summary` and
   * `suggestions`; the summary is the constant text and the suggestions are
   * the four ideas in order, each followed by the budget's decimal text.
   */
  function ProcessAnswers(answers: map<string, Value>, budget: int): (r: Value)
    ensures r.JObject? && r.fields.Keys == {"summary", "suggestions"}
    ensures r.fields["summary"] == JStr(Summary)
    ensures r.fields["suggestions"].JList? && |r.fields["suggestions"].items| == 4
    ensures forall i | 0 <= i < 4 ::
      r.fields["suggestions"].items[i] == JStr(Ideas[i] + " (within $" + IntText(budget) + " budget)")
  {
    JObject(map[
      "summary" := JStr(Summary),
      "suggestions" := JList([
        JStr(Stamped(Ideas[0], budget)),
        JStr(Stamped(Ideas[1], budget)),
        JStr(Stamped(Ideas[2], budget)),
        JStr(Stamped(Ideas[3], budget))
      ])
    ])
  }

  /** The answers are ignored: the same budget gives the same result whatever was answered. */
  lemma ProcessAnswersIgnoresAnswers(a1: map<string, Value>, a2: map<string, Value>, budget: int)
    ensures ProcessAnswers(a1, budget) == ProcessAnswers(a2, budget)
  {
  }

  lemma StampedInjective(idea: string, b1: int, b2: int)
    requires Stamped(idea, b1) == Stamped(idea, b2)
    ensures b1 == b2
  {
    var s1, s2 := Stamped(idea, b1), Stamped(idea, b2);
    var k := |idea + " (within $"|;
    assert |IntText(b1)| == |IntText(b2)|;
    assert IntText(b1) == s1[k .. k + |IntText(b1)|];
    assert IntText(b2) == s2[k .. k + |IntText(b2)|];
    IntTextInjective(b1, b2);
  }

  /** The budget is recoverable from the result: different budgets give different results. */
  lemma ProcessAnswersDeterminesBudget(a1: map<string, Value>, b1: int, a2: map<string, Value>, b2: int)
    requires ProcessAnswers(a1, b1) == ProcessAnswers(a2, b2)
    ensures b1 == b2
  {
    var r1, r2 := ProcessAnswers(a1, b1), ProcessAnswers(a2, b2);
    assert r1.fields["suggestions"].items[0] == r2.fields["suggestions"].items[0];
    StampedInjective(Ideas[0], b1, b2);
  }
}
