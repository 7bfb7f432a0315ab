/**
 * `generate_response`: classify the query once, then answer by the rule of
 * its intent. A reply records which branch fired and which coins it names;
 * `Render` spells it as the source's f-strings do.
 */
module Responder {
  import opened Wrappers
  import opened Text
  import opened Dataset
  import opened Rules
  import opened Classifier

  const BotName: string := "CryptoBuddy"

  /** The two greetings `random.choice` picks from. */
  const GreetingTexts: seq<string> := [
    "Hey! I'm " + BotName + ". How can I help you find green & growing crypto today?",
    "Hello! Ask me about trending coins, sustainability, or long-term picks."
  ]

  /** The two farewells `random.choice` picks from. */
  const FarewellTexts: seq<string> := [
    "Goodbye! Trade safe and remember to do your own research. \U{1F44B}",
    "See you! Keep learning and manage your risk."
  ]

  datatype Reply =
    | Welcome(text: string)
    | SustainabilityPick(coin: Entry)
    | TrendingUp(names: seq<string>)
    | NoneTrending
    | BuyGrowth(coin: Entry)       // profitability pick, rising with a high cap
    | BuyBalanced(coin: Entry)     // sustainability pick, rising
    | BuyByProfit(coin: Entry)     // profitability pick, the generic fallback
    | Comparison(first: Entry, second: Entry)
    | AskForTwoNames
    | Farewell(text: string)
    | Help

  /** `max` of an empty table raises `ValueError`; nothing else in the responder can fail. */
  datatype Failure = EmptyTable

  /** Which replies each intent can produce. */
  predicate Answers(intent: Intent, reply: Reply)
  {
    match intent
    case Greeting => reply.Welcome?
    case Sustainability => reply.SustainabilityPick?
    case Trending => reply.TrendingUp? || reply.NoneTrending?
    case AdviceBuy => reply.BuyGrowth? || reply.BuyBalanced? || reply.BuyByProfit?
    case Compare => reply.Comparison? || reply.AskForTwoNames?
    case Goodbye => reply.Farewell?
    case Unknown => reply.Help?
  }

  /** The entry's name occurs in the query once both are lowered. */
  function Mentioned(query: string): Entry -> bool
  {
    (e: Entry) => Contains(Lower(query), Lower(e.0))
  }

  /** `names_found`: the table's names that occur in the query, ignoring case, in table order. */
  function NamesFound(db: seq<Entry>, query: string): (names: seq<string>)
    ensures IsOrderedSelection(db, Mentioned(query), names)
    ensures forall n :: n in names ==> n in Names(db)
  {
    SelectIsOrderedSelection(db, Mentioned(query));
    Select(db, Mentioned(query))
  }

  /** `generate_response`; `secondChoice` stands for the outcome of `random.choice`. */
  function GenerateResponse(db: Db, query: string, secondChoice: bool): (r: Result<Reply, Failure>)
    ensures r.Err? <==> |db| == 0 && Classify(query) in {Sustainability, AdviceBuy}
    ensures r.Ok? ==> Answers(Classify(query), r.value)
  {
    match Classify(query)
    case Greeting =>
      Ok(Welcome(GreetingTexts[if secondChoice then 1 else 0]))
    case Sustainability =>
      (match BestBySustainability(db)
       case None => Err(EmptyTable)
       case Some(best) => Ok(SustainabilityPick(best)))
    case Trending =>
      var trending := FilterTrendingUp(db);
      if |trending| > 0 then Ok(TrendingUp(trending)) else Ok(NoneTrending)
    case AdviceBuy =>
      (match BestByProfitability(db)
       case None => Err(EmptyTable)
       case Some(profit) =>
         if profit.1.trend == Rising && profit.1.cap == High then Ok(BuyGrowth(profit))
         else
           var sustainable := BestBySustainability(db).value;
           if sustainable.1.trend == Rising then Ok(BuyBalanced(sustainable))
           else Ok(BuyByProfit(profit)))
    case Compare =>
      var found := NamesFound(db, query);
      if |found| >= 2 then
        Ok(Comparison((found[0], Lookup(db, found[0])), (found[1], Lookup(db, found[1]))))
      else Ok(AskForTwoNames)
    case Goodbye =>
      Ok(Farewell(FarewellTexts[if secondChoice then 1 else 0]))
    case Unknown =>
      Ok(Help)
  }

  /** The line of a two-coin comparison; it opens with the coin's name. */
  function CompareLine(e: Entry): (line: string)
    ensures |line| > |e.0| && line[..|e.0|] == e.0
  {
    e.0 + CompareDetails(e)
  }

  function CompareDetails(e: Entry): string
  {
    " (" + e.1.symbol + "): trend=" + TrendLabel(e.1.trend)
      + ", market_cap=" + LevelLabel(e.1.cap)
      + ", sustainability=" + TenthsText(e.1.score) + "/10"
  }

  const TrendingPrefix: string := "Coins trending up right now: "
  const TrendingSuffix: string := ". Consider market cap and risk before acting."

  /** The reply as the source spells it. */
  function Render(reply: Reply): string
  {
    match reply
    case Welcome(text) => text
    case SustainabilityPick((name, d)) =>
      "Top sustainability pick: " + name + (" (" + d.symbol + ").\n"
        + "Sustainability score: " + TenthsText(d.score) + "/10.\n"
        + "Why: " + LevelLabel(d.energy) + " energy use \U{2014} " + d.notes)
    case TrendingUp(names) =>
      TrendingPrefix + Join(names, ", ") + TrendingSuffix
    case NoneTrending =>
      "I don't see any coins with a 'rising' trend in my sample dataset."
    case BuyGrowth((name, d)) =>
      "For long-term growth, I recommend checking out " + name + (" (" + d.symbol + "). "
        + "It's trending " + TrendLabel(d.trend) + " with " + LevelLabel(d.cap) + " market cap. "
        + "Remember: this is NOT financial advice \U{2014} do your own research.")
    case BuyBalanced((name, d)) =>
      name + (" (" + d.symbol + ") looks like a strong long-term pick for a "
        + "balance of growth + sustainability. But crypto is risky \U{2014} DYOR.")
    case BuyByProfit((name, d)) =>
      "My top pick by simple profitability rules is " + name + (" (" + d.symbol + "). "
        + "Use proper risk management and consider diversification.")
    case Comparison(a, b) =>
      CompareLine(a) + ("\n" + CompareLine(b))
    case AskForTwoNames =>
      "Tell me two coin names to compare (e.g., 'Compare Bitcoin and Cardano')."
    case Farewell(text) => text
    case Help =>
      "I didn't quite catch that. Try asking: 'Which crypto is trending up?', "
        + "'What's the most sustainable coin?', or 'Which should I buy for long-term growth?'"
  }

  /** The trending reply names every coin it lists. */
  lemma TrendingTextListsEveryName(names: seq<string>, k: nat)
    requires k < |names|
    ensures Contains(Render(TrendingUp(names)), names[k])
  {
    JoinMentionsEach(names, ", ", k);
    ContainsInConcat(TrendingPrefix, Join(names, ", "), names[k]);
    ContainsInConcat(TrendingPrefix + Join(names, ", "), TrendingSuffix, names[k]);
  }

  // Each reply about one or two coins names them in its text.

  lemma PickNamesCoin(coin: Entry)
    ensures Contains(Render(SustainabilityPick(coin)), coin.0)
  {
    var (name, d) := coin;
    ContainsMiddle("Top sustainability pick: ", name, " (" + d.symbol + ").\n"
      + "Sustainability score: " + TenthsText(d.score) + "/10.\n"
      + "Why: " + LevelLabel(d.energy) + " energy use \U{2014} " + d.notes);
  }

  lemma GrowthNamesCoin(coin: Entry)
    ensures Contains(Render(BuyGrowth(coin)), coin.0)
  {
    var (name, d) := coin;
    ContainsMiddle("For long-term growth, I recommend checking out ", name, " (" + d.symbol + "). "
      + "It's trending " + TrendLabel(d.trend) + " with " + LevelLabel(d.cap) + " market cap. "
      + "Remember: this is NOT financial advice \U{2014} do your own research.");
  }

  lemma BalancedNamesCoin(coin: Entry)
    ensures Contains(Render(BuyBalanced(coin)), coin.0)
  {
    var (name, d) := coin;
    ContainsMiddle("", name, " (" + d.symbol + ") looks like a strong long-term pick for a "
      + "balance of growth + sustainability. But crypto is risky \U{2014} DYOR.");
    assert "" + name == name;
  }

  lemma ProfitNamesCoin(coin: Entry)
    ensures Contains(Render(BuyByProfit(coin)), coin.0)
  {
    var (name, d) := coin;
    ContainsMiddle("My top pick by simple profitability rules is ", name, " (" + d.symbol + "). "
      + "Use proper risk management and consider diversification.");
  }

  lemma ComparisonNamesCoins(x: Entry, y: Entry)
    ensures Contains(Render(Comparison(x, y)), x.0)
    ensures Contains(Render(Comparison(x, y)), y.0)
  {
    CompareLineNamesCoin(x);
    CompareLineNamesCoin(y);
    ContainsInConcat("\n", CompareLine(y), y.0);
    ContainsInConcat(CompareLine(x), "\n" + CompareLine(y), x.0);
    ContainsInConcat(CompareLine(x), "\n" + CompareLine(y), y.0);
  }

  lemma CompareLineNamesCoin(e: Entry)
    ensures Contains(CompareLine(e), e.0)
  {
    ContainsMiddle("", e.0, CompareDetails(e));
    assert "" + e.0 == e.0;
  }

  /** Greetings and farewells are always one of their two fixed texts. */
  lemma CannedReplies(db: Db, query: string, secondChoice: bool)
    requires Classify(query) in {Greeting, Goodbye}
    ensures var r := GenerateResponse(db, query, secondChoice).value;
      (Classify(query) == Greeting ==> r.Welcome? && r.text in GreetingTexts)
      && (Classify(query) == Goodbye ==> r.Farewell? && r.text in FarewellTexts)
  {
  }

  /** A sustainability query names the first coin with the highest score. */
  lemma SustainabilityReply(db: Db, query: string, secondChoice: bool)
    requires Classify(query) == Sustainability && |db| > 0
    ensures var r := GenerateResponse(db, query, secondChoice);
      r.Ok? && r.value.SustainabilityPick?
      && exists i :: IsFirstMax(db, SustainabilityScore, i) && db[i] == r.value.coin
  {
  }

  /** A trending query lists exactly the rising coins in table order, or says there are none. */
  lemma TrendingReply(db: Db, query: string, secondChoice: bool)
    requires Classify(query) == Trending
    ensures var r := GenerateResponse(db, query, secondChoice).value;
      (r.TrendingUp? && |r.names| > 0 && IsOrderedSelection(db, IsRising, r.names))
      || (r.NoneTrending? && forall e :: e in db ==> e.1.trend != Rising)
  {
    var names := FilterTrendingUp(db);
    if |names| == 0 {
      var idx :| SelectedAt(db, IsRising, names, idx);
      forall e | e in db ensures e.1.trend != Rising {
        var i :| 0 <= i < |db| && db[i] == e;
        assert !(i in idx);
      }
    }
  }

  /**
   * Buy advice, tier by tier: a rising high-cap coin if the table has one
   * (the first of them); otherwise the most sustainable coin when it is
   * rising; otherwise the most profitable coin, the first of them on a tie.
   */
  lemma BuyAdviceTiers(db: Db, query: string, secondChoice: bool)
    requires Classify(query) == AdviceBuy && |db| > 0
    ensures var r := GenerateResponse(db, query, secondChoice).value;
      var growthExists := exists e :: e in db && e.1.trend == Rising && e.1.cap == High;
      var sustainable := BestBySustainability(db).value;
      && (r.BuyGrowth? <==> growthExists)
      && (r.BuyBalanced? <==> !growthExists && sustainable.1.trend == Rising)
      && (r.BuyByProfit? <==> !growthExists && sustainable.1.trend != Rising)
      && (r.BuyGrowth? ==>
            r.coin.1.trend == Rising && r.coin.1.cap == High
            && exists i :: 0 <= i < |db| && db[i] == r.coin
                 && forall j :: 0 <= j < i ==> !(db[j].1.trend == Rising && db[j].1.cap == High))
      && (r.BuyBalanced? ==>
            r.coin == sustainable && r.coin in db
            && forall e :: e in db ==> e.1.score <= r.coin.1.score)
      && (r.BuyByProfit? ==>
            r.coin == BestByProfitability(db).value
            && r.coin in db
            && exists i :: IsFirstMax(db, Profitability, i) && db[i] == r.coin)
  {
    ProfitPickIsFirstRisingHigh(db);
  }

  /**
   * A compare query reports the first two coins the query mentions, in table
   * order, with their own records; with fewer than two it asks for two names.
   */
  lemma CompareReply(db: Db, query: string, secondChoice: bool)
    requires Classify(query) == Compare
    ensures var r := GenerateResponse(db, query, secondChoice).value;
      var found := NamesFound(db, query);
      && IsOrderedSelection(db, Mentioned(query), found)
      && (|found| >= 2 ==>
            r.Comparison? && r.first.0 == found[0] && r.second.0 == found[1]
            && r.first in db && r.second in db)
      && (|found| < 2 ==> r.AskForTwoNames?)
  {
    var found := NamesFound(db, query);
    if |found| >= 2 {
      var i :| 0 <= i < |db| && db[i] == (found[0], Lookup(db, found[0]));
      var j :| 0 <= j < |db| && db[j] == (found[1], Lookup(db, found[1]));
    }
  }

  /** Anything unrecognised gets the fixed help text. */
  lemma UnknownReply(db: Db, query: string, secondChoice: bool)
    requires Classify(query) == Unknown
    ensures GenerateResponse(db, query, secondChoice) == Ok(Help)
  {
  }
}
