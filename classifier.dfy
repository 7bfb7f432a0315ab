/**
 * Intent detection by keyword: the query is lower-cased and six keyword
 * groups are tried in a fixed order; the first group with a keyword occurring
 * anywhere in the query (plain substring, no word boundaries) decides.
 */
module Classifier {
  import opened Text

  datatype Intent = Greeting | Sustainability | Trending | AdviceBuy | Compare | Goodbye | Unknown

  const SustainabilityKeywords: seq<string> := ["sustain", "eco", "green", "environment", "energy"]
  const TrendingKeywords: seq<string> := ["trend", "trending", "up", "growing", "rise", "rising"]
  const AdviceBuyKeywords: seq<string> := ["buy", "invest", "long-term", "hold", "should i buy"]
  const CompareKeywords: seq<string> := ["compare", "which is better", "vs", "versus"]
  const GreetingKeywords: seq<string> := ["help", "hello", "hi", "hey"]
  const GoodbyeKeywords: seq<string> := ["bye", "exit", "quit", "thanks", "thank"]

  /** Some keyword of the group occurs in `q`. */
  predicate MentionsAny(q: string, keywords: seq<string>)
  {
    exists k :: k in keywords && Contains(q, k)
  }

  /** `classify_query`. */
  function Classify(query: string): Intent
  {
    var q := Lower(query);
    if MentionsAny(q, SustainabilityKeywords) then Sustainability
    else if MentionsAny(q, TrendingKeywords) then Trending
    else if MentionsAny(q, AdviceBuyKeywords) then AdviceBuy
    else if MentionsAny(q, CompareKeywords) then Compare
    else if MentionsAny(q, GreetingKeywords) then Greeting
    else if MentionsAny(q, GoodbyeKeywords) then Goodbye
    else Unknown
  }

  /** The priority order of the groups, as a table: group `g` is tried before group `g + 1`. */
  const Groups: seq<(Intent, seq<string>)> := [
    (Sustainability, SustainabilityKeywords),
    (Trending, TrendingKeywords),
    (AdviceBuy, AdviceBuyKeywords),
    (Compare, CompareKeywords),
    (Greeting, GreetingKeywords),
    (Goodbye, GoodbyeKeywords)
  ]

  /** Group `g` is the first group of the table with a keyword in `q`. */
  ghost predicate FirstMatchingGroup(q: string, g: int)
  {
    && 0 <= g < |Groups|
    && MentionsAny(q, Groups[g].1)
    && forall h :: 0 <= h < g ==> !MentionsAny(q, Groups[h].1)
  }

  /** Every keyword is written in lower case, so it can match a lowered query. */
  lemma KeywordsAreLower(g: int, k: string)
    requires 0 <= g < |Groups| && k in Groups[g].1
    ensures IsLower(k)
  {
  }

  /** The query's intent is the label of the first group that has a keyword in the lowered query. */
  lemma ClassifyIsFirstMatch(query: string, g: int)
    requires FirstMatchingGroup(Lower(query), g)
    ensures Classify(query) == Groups[g].0
  {
    var q := Lower(query);
    if g > 0 { assert !MentionsAny(q, Groups[0].1); }
    if g > 1 { assert !MentionsAny(q, Groups[1].1); }
    if g > 2 { assert !MentionsAny(q, Groups[2].1); }
    if g > 3 { assert !MentionsAny(q, Groups[3].1); }
    if g > 4 { assert !MentionsAny(q, Groups[4].1); }
  }

  /** `"unknown"` is returned exactly when no keyword of any group occurs in the lowered query. */
  lemma ClassifyUnknown(query: string)
    ensures Classify(query) == Unknown <==> forall g :: 0 <= g < |Groups| ==> !MentionsAny(Lower(query), Groups[g].1)
  {
    var q := Lower(query);
    if Classify(query) == Unknown {
      forall g | 0 <= g < |Groups| ensures !MentionsAny(q, Groups[g].1) {
        assert g == 0 || g == 1 || g == 2 || g == 3 || g == 4 || g == 5;
      }
    } else {
      ClassifyKnown(query);
    }
  }

  /** A recognised intent is always the label of the first group that matched. */
  lemma ClassifyKnown(query: string)
    requires Classify(query) != Unknown
    ensures exists g :: FirstMatchingGroup(Lower(query), g) && Groups[g].0 == Classify(query)
  {
    var q := Lower(query);
    var g := if MentionsAny(q, Groups[0].1) then 0
      else if MentionsAny(q, Groups[1].1) then 1
      else if MentionsAny(q, Groups[2].1) then 2
      else if MentionsAny(q, Groups[3].1) then 3
      else if MentionsAny(q, Groups[4].1) then 4
      else 5;
    assert FirstMatchingGroup(q, g);
  }

  /** Lower-casing the query first changes nothing: classification ignores case. */
  lemma ClassifyIgnoresCase(query: string)
    ensures Classify(query) == Classify(Lower(query))
  {
    LowerIsLower(query);
  }

  function Rank(intent: Intent): int
  {
    match intent
    case Sustainability => 0
    case Trending => 1
    case AdviceBuy => 2
    case Compare => 3
    case Greeting => 4
    case Goodbye => 5
    case Unknown => 6
  }

  /**
   * A query holding a keyword of group `g` in any letter case (so that the
   * lowered query holds it) is classified by group `g` or by a group tried
   * before it; so any query mentioning a sustainability keyword is a
   * sustainability query.
   */
  lemma KeywordBoundsIntent(query: string, g: int, k: string)
    requires 0 <= g < |Groups| && k in Groups[g].1 && Contains(Lower(query), k)
    ensures Rank(Classify(query)) <= g
    ensures g == 0 ==> Classify(query) == Sustainability
  {
    assert MentionsAny(Lower(query), Groups[g].1);
  }
}
