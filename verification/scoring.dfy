/**
  The title classifiers of ingest.py (lines 113-146): the AI relevance score
  and the funding flag with its money pattern. Both work on the lower-cased
  title, and `kw in t` is a plain substring test.
 */
module Scoring {
  import opened Wrappers
  import opened Text

  const AI_KEYWORDS: seq<string> := [
    "ai", "agent", "agents", "llm", "model", "models", "foundation",
    "gemini", "claude", "openai", "anthropic", "copilot",
    "reinforcement learning", "rl", "neural", "transformer", "inference",
    "vector", "embedding", "orchestration"
  ]

  const FUNDING_KEYWORDS: seq<string> := [
    "raises", "raised", "funding", "series a", "series b", "series c", "seed",
    "round", "valuation", "backed", "led by"
  ]

  /** The four alternatives of `(\$|usd|€|£)`. */
  const CURRENCIES: seq<string> := ["$", "usd", "\U{20AC}", "\U{A3}"]

  // ---------- score_ai ----------

  /** How many of `keywords` occur in `t`. */
  function Hits(keywords: seq<string>, t: string): (n: nat)
    ensures n <= |keywords|
  {
    if keywords == [] then 0
    else Hits(keywords[..|keywords| - 1], t) + (if Contains(t, keywords[|keywords| - 1]) then 1 else 0)
  }

  /** The standalone-"ai" test of ingest.py:136, on the lower-cased title. */
  predicate AiBonus(t: string) {
    Contains(" " + t + " ", " ai ") || StartsWith(t, "ai ") || EndsWith(t, " ai")
  }

  /** score_ai: 2 per keyword found in the lower-cased title, 2 more for a standalone "ai"; always even, at most 42. */
  function AiScore(title: string): (r: nat)
    ensures r % 2 == 0
    ensures r <= 2 * |AI_KEYWORDS| + 2
  {
    var t := Lower(title);
    2 * Hits(AI_KEYWORDS, t) + (if AiBonus(t) then 2 else 0)
  }

  method ScoreAi(title: string) returns (score: nat)
    ensures score == AiScore(title)
  {
    var t := Lower(title);
    score := 0;
    for k := 0 to |AI_KEYWORDS|
      invariant score == 2 * Hits(AI_KEYWORDS[..k], t)
    {
      if Contains(t, AI_KEYWORDS[k]) {
        score := score + 2;
      }
      assert AI_KEYWORDS[..k + 1][..k] == AI_KEYWORDS[..k];
    }
    assert AI_KEYWORDS[..|AI_KEYWORDS|] == AI_KEYWORDS;
    if AiBonus(t) {
      score := score + 2;
    }
  }

  lemma {:induction false} HitsPositive(keywords: seq<string>, t: string)
    ensures Hits(keywords, t) > 0 <==> exists k | k in keywords :: Contains(t, k)
  {
    if keywords != [] {
      var init := keywords[..|keywords| - 1];
      HitsPositive(init, t);
      assert keywords == init + [keywords[|keywords| - 1]];
      assert forall k :: k in keywords <==> k in init || k == keywords[|keywords| - 1];
    }
  }

  /** startswith("ai ") and endswith(" ai") add nothing to the padded test: the bonus is " ai " inside " " + t + " ". */
  lemma AiBonusIsPaddedMatch(t: string)
    ensures AiBonus(t) <==> Contains(" " + t + " ", " ai ")
  {
    var p := " " + t + " ";
    if StartsWith(t, "ai ") {
      assert p[0..4] == " " + t[0..3];
      assert OccursAt(p, " ai ", 0);
    }
    if EndsWith(t, " ai") {
      var n := |t|;
      assert p[n - 2..n + 2] == t[n - 3..] + " ";
      assert OccursAt(p, " ai ", n - 2);
    }
  }

  /** A standalone "ai" is also an occurrence of the keyword "ai". */
  lemma AiBonusHasKeyword(t: string)
    requires AiBonus(t)
    ensures Contains(t, "ai")
  {
    AiBonusIsPaddedMatch(t);
    var p := " " + t + " ";
    var i :| 0 <= i <= |p| - 4 && OccursAt(p, " ai ", i);
    assert p[i + 1] == 'a' && p[i + 2] == 'i';
    assert p[|p| - 1] == ' ';
    assert 1 <= i + 1 && i + 2 <= |t|;
    assert t[i] == p[i + 1] && t[i + 1] == p[i + 2];
    assert OccursAt(t, "ai", i);
  }

  /** A title passes the `s > 0` filter exactly when some keyword is a substring: the bonus never decides it. */
  lemma AiScorePositive(title: string)
    ensures AiScore(title) > 0 <==> exists k | k in AI_KEYWORDS :: Contains(Lower(title), k)
  {
    var t := Lower(title);
    HitsPositive(AI_KEYWORDS, t);
    if AiBonus(t) {
      AiBonusHasKeyword(t);
      assert AI_KEYWORDS[0] == "ai";
    }
  }

  /** "ai" is matched as a plain substring, so "aid" and "said" still score. */
  lemma SaidStillScores()
    ensures AiScore("This contains aid and said") > 0
  {
    var t := Lower("This contains aid and said");
    assert t[14] == 'a' && t[15] == 'i';
    assert t[14..16] == "ai";
    assert OccursAt(t, "ai", 14);
    assert Contains(t, "ai");
    assert AI_KEYWORDS[0] == "ai";
    AiScorePositive("This contains aid and said");
  }

  // ---------- is_funding ----------

  /** Where the `(\$|usd|€|£)` token starting at i ends. */
  function CurrencyEnd(t: string, i: nat): Option<nat> {
    if i < |t| && (t[i] == '$' || t[i] == '\U{20AC}' || t[i] == '\U{A3}') then Some(i + 1)
    else if OccursAt(t, "usd", i) then Some(i + 3)
    else None
  }

  /** `\s?\d` from j: the greedy optional space is given back when no digit follows it. */
  function FirstDigit(t: string, j: nat): Option<nat> {
    if j + 1 < |t| && IsSpace(t[j]) && IsDigit(t[j + 1]) then Some(j + 1)
    else if j < |t| && IsDigit(t[j]) then Some(j)
    else None
  }

  /** The end of the maximal run of digits starting at j (`\d+` or `\d*`, greedy). */
  function DigitsEnd(t: string, j: nat): (e: nat)
    requires j <= |t|
    ensures j <= e <= |t|
    ensures forall k :: j <= k < e ==> IsDigit(t[k])
    decreases |t| - j
  {
    if j < |t| && IsDigit(t[j]) then DigitsEnd(t, j + 1) else j
  }

  /** `(\.\d+)?` at e. */
  function FractionEnd(t: string, e: nat): (f: nat)
    requires e <= |t|
    ensures e <= f <= |t|
  {
    if e + 1 < |t| && t[e] == '.' && IsDigit(t[e + 1]) then DigitsEnd(t, e + 1) else e
  }

  /** `\s?(m|million|b|billion)?` at f; the ordered alternation settles on the one-letter forms. */
  function SuffixEnd(t: string, f: nat): (g: nat)
    requires f <= |t|
    ensures f <= g <= |t|
  {
    var h := if f < |t| && IsSpace(t[f]) then f + 1 else f;
    if h < |t| && (t[h] == 'm' || t[h] == 'b') then h + 1 else h
  }

  /** The end of the match of _money_re (ingest.py:127) starting at i, if there is one. */
  function MoneyMatchAt(t: string, i: nat): (r: Option<nat>)
    ensures r.Some? ==> i < r.value <= |t|
  {
    match CurrencyEnd(t, i)
    case None => None
    case Some(c) =>
      match FirstDigit(t, c)
      case None => None
      case Some(d) => Some(SuffixEnd(t, FractionEnd(t, DigitsEnd(t, d + 1))))  // `\d+`: the digit at d, then `\d*`
  }

  /** `_money_re.search(t)` succeeds. */
  predicate MoneySearch(t: string) {
    exists i | 0 <= i <= |t| :: MoneyMatchAt(t, i).Some?
  }

  /** A currency token at i, then at most one whitespace character, then a digit. */
  ghost predicate CurrencyThenDigit(t: string, i: nat) {
    exists c | c in CURRENCIES :: OccursAt(t, c, i) && DigitNear(t, i + |c|)
  }

  /** A digit at e, or one whitespace character at e and a digit after it. */
  predicate DigitNear(t: string, e: nat) {
    (e < |t| && IsDigit(t[e])) || (e + 1 < |t| && IsSpace(t[e]) && IsDigit(t[e + 1]))
  }

  /** The decimal part and the magnitude suffix are optional: they never decide whether the pattern matches. */
  lemma MoneyMatchIff(t: string, i: nat)
    ensures MoneyMatchAt(t, i).Some? <==> CurrencyThenDigit(t, i)
  {
    if CurrencyThenDigit(t, i) {
      CurrencyThenDigitMatches(t, i);
    }
    if MoneyMatchAt(t, i).Some? {
      MatchHasCurrencyThenDigit(t, i);
    }
  }

  lemma CurrencyThenDigitMatches(t: string, i: nat)
    requires CurrencyThenDigit(t, i)
    ensures MoneyMatchAt(t, i).Some?
  {
    var c :| c in CURRENCIES && OccursAt(t, c, i) && DigitNear(t, i + |c|);
    CurrencyTokenEnd(t, i, c);
    DigitAfter(t, i, i + |c|);
  }

  /** `\s?\d` matches at e, where the currency group ended, when a digit follows directly or after one whitespace character. */
  lemma DigitAfter(t: string, i: nat, e: nat)
    requires CurrencyEnd(t, i) == Some(e) && DigitNear(t, e)
    ensures MoneyMatchAt(t, i).Some?
  {
    assert FirstDigit(t, e).Some?;
  }

  /** A currency token at i is where the `(\$|usd|€|£)` group matches. */
  lemma CurrencyTokenEnd(t: string, i: nat, c: string)
    requires c in CURRENCIES && OccursAt(t, c, i)
    ensures CurrencyEnd(t, i) == Some(i + |c|)
  {
    if c != "usd" {
      assert t[i] == t[i..i + |c|][0] == c[0];
    }
  }

  lemma MatchHasCurrencyThenDigit(t: string, i: nat)
    requires MoneyMatchAt(t, i).Some?
    ensures CurrencyThenDigit(t, i)
  {
    var c := CurrencyToken(t, i);
    assert FirstDigit(t, i + |c|).Some?;
    assert DigitNear(t, i + |c|);
  }

  /** The currency string the `(\$|usd|€|£)` group matched at i. */
  lemma CurrencyToken(t: string, i: nat) returns (c: string)
    requires CurrencyEnd(t, i).Some?
    ensures c in CURRENCIES && OccursAt(t, c, i) && CurrencyEnd(t, i) == Some(i + |c|)
  {
    if CurrencyEnd(t, i) == Some(i + 3) && !(i < |t| && (t[i] == '$' || t[i] == '\U{20AC}' || t[i] == '\U{A3}')) {
      c := "usd";
    } else {
      c := [t[i]];
      assert t[i..i + 1] == c;
    }
  }


  /** is_funding: a funding keyword occurs in the lower-cased title, or the money pattern matches somewhere in it. */
  predicate IsFunding(title: string) {
    var t := Lower(title);
    (exists k | k in FUNDING_KEYWORDS :: Contains(t, k)) || MoneySearch(t)
  }

  lemma IsFundingIff(title: string)
    ensures IsFunding(title) <==>
      || (exists k | k in FUNDING_KEYWORDS :: Contains(Lower(title), k))
      || (exists i: nat | i <= |title| :: CurrencyThenDigit(Lower(title), i))
  {
    var t := Lower(title);
    if MoneySearch(t) {
      var i :| 0 <= i <= |t| && MoneyMatchAt(t, i).Some?;
      MoneyMatchIff(t, i);
    }
    if exists i: nat | i <= |title| :: CurrencyThenDigit(t, i) {
      var i: nat :| i <= |title| && CurrencyThenDigit(t, i);
      MoneyMatchIff(t, i);
    }
  }

  /** The headline used as the boundary case: two AI points (keyword and standalone "ai") and a funding hit. */
  lemma HeadlineExample()
    ensures AiScore("AI startup raises $50M") >= 4
    ensures IsFunding("AI startup raises $50M")
  {
    HeadlineScores(Lower("AI startup raises $50M"));
    HeadlineFunding(Lower("AI startup raises $50M"));
  }

  lemma HeadlineScores(t: string)
    requires t == Lower("AI startup raises $50M")
    ensures 2 * Hits(AI_KEYWORDS, t) + (if AiBonus(t) then 2 else 0) >= 4
  {
    assert t[..2] == "ai";
    assert OccursAt(t, "ai", 0);
    assert Contains(t, "ai") && AI_KEYWORDS[0] == "ai";
    HitsPositive(AI_KEYWORDS, t);
    assert t[..3] == "ai ";
    assert StartsWith(t, "ai ");
  }

  lemma HeadlineFunding(t: string)
    requires t == Lower("AI startup raises $50M")
    ensures exists k | k in FUNDING_KEYWORDS :: Contains(t, k)
  {
    assert t[11..17] == "raises";
    assert OccursAt(t, "raises", 11);
    assert Contains(t, "raises");
    assert FUNDING_KEYWORDS[0] == "raises";
  }
}
