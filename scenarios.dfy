/** What the shipped table and a few sample queries come to. */
module Scenarios {
  import opened Wrappers
  import opened Text
  import opened Dataset
  import opened Rules
  import opened Classifier
  import opened Responder

  /** Cardano (8.0) is the most sustainable coin of the shipped table. */
  lemma ShippedSustainabilityPick()
    ensures BestBySustainability(CryptoDb) == Some(CryptoDb[2])
    ensures CryptoDb[2].0 == "Cardano" && CryptoDb[2].1.score == 80
  {
    var db := CryptoDb;
    forall j | 0 <= j < |db| ensures SustainabilityScore(db[j]) <= SustainabilityScore(db[2]) {
      assert j == 0 || j == 1 || j == 2 || j == 3 || j == 4;
    }
    assert IsFirstMax(db, SustainabilityScore, 2);
    var i :| IsFirstMax(db, SustainabilityScore, i) && db[i] == BestBySustainability(db).value;
    FirstMaxUnique(db, SustainabilityScore, i, 2);
  }

  /** Bitcoin, rising with a high cap, is the most profitable coin of the shipped table. */
  lemma ShippedProfitPick()
    ensures BestByProfitability(CryptoDb) == Some(CryptoDb[0])
    ensures CryptoDb[0].0 == "Bitcoin" && CryptoDb[0].1.trend == Rising && CryptoDb[0].1.cap == High
  {
    var db := CryptoDb;
    forall j | 0 <= j < |db| ensures Profitability(db[j]) <= Profitability(db[0]) {
      ProfitabilityTop(db[j]);
    }
    assert IsFirstMax(db, Profitability, 0);
    var i :| IsFirstMax(db, Profitability, i) && db[i] == BestByProfitability(db).value;
    FirstMaxUnique(db, Profitability, i, 0);
  }

  /** Bitcoin and Cardano, in that order, are the rising coins of the shipped table. */
  lemma ShippedTrending()
    ensures FilterTrendingUp(CryptoDb) == ["Bitcoin", "Cardano"]
  {
    var db := CryptoDb;
    assert Select(db[5..], IsRising) == [];
    assert Select(db[4..], IsRising) == [];
    assert Select(db[3..], IsRising) == [];
    assert Select(db[2..], IsRising) == ["Cardano"];
    assert Select(db[1..], IsRising) == ["Cardano"];
  }

  lemma ShippedNames()
    ensures CryptoDb[0].0 == "Bitcoin" && CryptoDb[2].0 == "Cardano"
  {
  }

  /** On the shipped table every buy question gets the first tier: Bitcoin. */
  lemma ShippedBuyAdvice(query: string, secondChoice: bool)
    requires Classify(query) == AdviceBuy
    ensures GenerateResponse(CryptoDb, query, secondChoice) == Ok(BuyGrowth(CryptoDb[0]))
  {
    ShippedProfitPick();
  }
}

/** The sample conversations: which intent each query gets and what is answered. */
module Conversations {
  import opened Wrappers
  import opened Text
  import opened Dataset
  import opened Rules
  import opened Classifier
  import opened Responder
  import opened Scenarios

  const SustainableQuestion: string := "What's the most sustainable coin?"
  const MixedQuestion: string := "green trending coin"
  const ShoutedQuestion: string := "GREEN coin"
  const TrendingQuestion: string := "Which crypto is trending up?"
  const TrendingLowered: string := "which crypto is trending up?"
  const CompareRequest: string := "Compare Bitcoin and Cardano"
  const CompareLowered: string := "compare bitcoin and cardano"
  const CompareWord: string := "compare"
  const CompareNames: string := "bitcoin and cardano"
  const Gibberish: string := "asdkfjasldkf"

  /** "What's the most sustainable coin?" names Cardano. */
  lemma SustainableQuery()
    ensures Classify(SustainableQuestion) == Sustainability
    ensures GenerateResponse(CryptoDb, SustainableQuestion, false) == Ok(SustainabilityPick(CryptoDb[2]))
  {
    SustainableQuestionHoldsKeyword();
    KeywordBoundsIntent(SustainableQuestion, 0, "sustain");
    ShippedSustainabilityPick();
  }

  lemma SustainableQuestionHoldsKeyword()
    ensures Contains(Lower(SustainableQuestion), "sustain")
  {
    var q := Lower(SustainableQuestion);
    assert q[16..23] == "sustain";
    ContainsAt(q, "sustain", 16);
  }

  /** A query with both a sustainability and a trending keyword is a sustainability query. */
  lemma PriorityOfSustainability()
    ensures Classify(MixedQuestion) == Sustainability
  {
    var q := Lower(MixedQuestion);
    assert q[0..5] == "green";
    ContainsAt(q, "green", 0);
    KeywordBoundsIntent(MixedQuestion, 0, "green");
  }

  /** Upper-case keywords count too: "GREEN coin" is a sustainability query. */
  lemma ShoutedKeyword()
    ensures Classify(ShoutedQuestion) == Sustainability
  {
    var q := Lower(ShoutedQuestion);
    assert q[0..5] == "green";
    ContainsAt(q, "green", 0);
    KeywordBoundsIntent(ShoutedQuestion, 0, "green");
  }

  lemma TrendingQuestionFacts()
    ensures Lower(TrendingQuestion) == TrendingLowered
    ensures forall c :: c in "av" ==> c !in TrendingLowered
  {
  }

  lemma TrendingQuestionNoEco()
    ensures !Contains(TrendingLowered, "eco")
  {
    assert TrendingLowered == "which crypto is t" + ['r'] + "ending up?";
    MissingChar("which crypto is t", "eco", 'e');
    MissingChar("ending up?", "eco", 'o');
    SplitAtSeparator("which crypto is t", 'r', "ending up?", "eco");
  }

  lemma TrendingQuestionNoGreenNorEnergy()
    ensures !Contains(TrendingLowered, "green")
    ensures !Contains(TrendingLowered, "energy")
  {
    assert TrendingLowered == "which crypto is tren" + ['d'] + "ing up?";
    MissingChar("which crypto is tren", "green", 'g');
    MissingChar("ing up?", "green", 'e');
    SplitAtSeparator("which crypto is tren", 'd', "ing up?", "green");
    MissingChar("which crypto is tren", "energy", 'g');
    MissingChar("ing up?", "energy", 'e');
    SplitAtSeparator("which crypto is tren", 'd', "ing up?", "energy");
  }

  /** No sustainability keyword occurs in the lowered trending question. */
  lemma TrendingQuestionNoSustainabilityKeyword()
    ensures !MentionsAny(TrendingLowered, SustainabilityKeywords)
  {
    var q := TrendingLowered;
    TrendingQuestionFacts();
    MissingChar(q, "sustain", 'a');
    TrendingQuestionNoEco();
    TrendingQuestionNoGreenNorEnergy();
    MissingChar(q, "environment", 'v');
  }

  /** "Which crypto is trending up?" lists Bitcoin and Cardano. */
  lemma TrendingQuery()
    ensures Classify(TrendingQuestion) == Trending
    ensures GenerateResponse(CryptoDb, TrendingQuestion, false) == Ok(TrendingUp(["Bitcoin", "Cardano"]))
  {
    var q := TrendingLowered;
    TrendingQuestionFacts();
    TrendingQuestionNoSustainabilityKeyword();
    assert q[16..21] == "trend";
    ContainsAt(q, "trend", 16);
    assert MentionsAny(q, TrendingKeywords);
    ShippedTrending();
  }

  lemma CompareRequestFacts()
    ensures Lower(CompareRequest) == CompareLowered
    ensures forall c :: c in "sglhuv" ==> c !in CompareLowered
  {
    CompareRequestLowered();
    CompareRequestLacks();
  }

  lemma CompareRequestLowered()
    ensures Lower(CompareRequest) == CompareLowered
  {
  }

  lemma CompareRequestLacks()
    ensures forall c :: c in "sglhuv" ==> c !in CompareLowered
  {
  }

  lemma CompareLoweredWords()
    ensures CompareLowered == CompareWord + [' '] + CompareNames
  {
  }

  lemma CompareWordNoEco()
    ensures !Contains(CompareWord, "eco")
  {
    assert CompareWord == "compa" + ['r'] + "e";
    MissingChar("compa", "eco", 'e');
    MissingChar("e", "eco", 'c');
    SplitAtSeparator("compa", 'r', "e", "eco");
  }

  lemma CompareRequestNoEco()
    ensures !Contains(CompareLowered, "eco")
  {
    CompareLoweredWords();
    CompareWordNoEco();
    MissingChar(CompareNames, "eco", 'e');
    SplitAtSeparator(CompareWord, ' ', CompareNames, "eco");
  }

  lemma CompareRequestNoTrend()
    ensures !Contains(CompareLowered, "trend")
  {
    CompareLoweredWords();
    MissingChar(CompareWord, "trend", 't');
    MissingChar(CompareNames, "trend", 'e');
    SplitAtSeparator(CompareWord, ' ', CompareNames, "trend");
  }

  /** None of the groups tried before `compare` has a keyword in the lowered compare request. */
  lemma CompareRequestNoEarlierKeyword()
    ensures !MentionsAny(CompareLowered, SustainabilityKeywords)
    ensures !MentionsAny(CompareLowered, TrendingKeywords)
    ensures !MentionsAny(CompareLowered, AdviceBuyKeywords)
  {
    CompareRequestNoSustainabilityKeyword();
    CompareRequestNoTrendingKeyword();
    CompareRequestNoBuyKeyword();
  }

  lemma CompareRequestNoSustainabilityKeyword()
    ensures !MentionsAny(CompareLowered, SustainabilityKeywords)
  {
    var q := CompareLowered;
    CompareRequestFacts();
    MissingChar(q, "sustain", 's');
    CompareRequestNoEco();
    MissingChar(q, "green", 'g');
    MissingChar(q, "environment", 'v');
    MissingChar(q, "energy", 'g');
  }

  lemma CompareRequestNoTrendingKeyword()
    ensures !MentionsAny(CompareLowered, TrendingKeywords)
  {
    var q := CompareLowered;
    CompareRequestFacts();
    CompareRequestNoTrend();
    MissingChar(q, "trending", 'g');
    MissingChar(q, "up", 'u');
    MissingChar(q, "growing", 'g');
    MissingChar(q, "rise", 's');
    MissingChar(q, "rising", 's');
  }

  lemma CompareRequestNoBuyKeyword()
    ensures !MentionsAny(CompareLowered, AdviceBuyKeywords)
  {
    var q := CompareLowered;
    CompareRequestFacts();
    MissingChar(q, "buy", 'u');
    MissingChar(q, "invest", 'v');
    MissingChar(q, "long-term", 'l');
    MissingChar(q, "hold", 'h');
    MissingChar(q, "should i buy", 's');
  }

  /** Of the shipped names, the compare request mentions Bitcoin and Cardano only. */
  lemma CompareRequestNames()
    ensures NamesFound(CryptoDb, CompareRequest) == ["Bitcoin", "Cardano"]
  {
    var db := CryptoDb;
    var keep := Mentioned(CompareRequest);
    CompareRequestMentions();
    CompareRequestSkips();
    assert Select(db[5..], keep) == [];
    assert Select(db[4..], keep) == [];
    assert Select(db[3..], keep) == [];
    assert Select(db[2..], keep) == ["Cardano"];
    assert Select(db[1..], keep) == ["Cardano"];
  }

  lemma CompareRequestMentions()
    ensures Mentioned(CompareRequest)(CryptoDb[0])
    ensures Mentioned(CompareRequest)(CryptoDb[2])
  {
    ShippedNames();
    CompareRequestLowered();
    CompareMentionsBitcoin();
    CompareMentionsCardano();
  }

  lemma CompareMentionsBitcoin()
    ensures Contains(CompareLowered, Lower("Bitcoin"))
  {
    assert Lower("Bitcoin") == "bitcoin";
    assert CompareLowered[8..15] == "bitcoin";
    ContainsAt(CompareLowered, "bitcoin", 8);
  }

  lemma CompareMentionsCardano()
    ensures Contains(CompareLowered, Lower("Cardano"))
  {
    assert Lower("Cardano") == "cardano";
    assert CompareLowered[20..27] == "cardano";
    ContainsAt(CompareLowered, "cardano", 20);
  }

  lemma CompareRequestSkips()
    ensures !Mentioned(CompareRequest)(CryptoDb[1])
    ensures !Mentioned(CompareRequest)(CryptoDb[3])
    ensures !Mentioned(CompareRequest)(CryptoDb[4])
  {
    var q := CompareLowered;
    CompareRequestFacts();
    assert Lower("Ethereum") == "ethereum";
    MissingChar(q, "ethereum", 'h');
    assert Lower("Solana") == "solana";
    MissingChar(q, "solana", 's');
    assert Lower("Polkadot") == "polkadot";
    MissingChar(q, "polkadot", 'l');
  }

  /** "Compare Bitcoin and Cardano" compares Bitcoin, then Cardano. */
  lemma CompareQuery()
    ensures Classify(CompareRequest) == Compare
    ensures GenerateResponse(CryptoDb, CompareRequest, false) == Ok(Comparison(CryptoDb[0], CryptoDb[2]))
  {
    CompareRequestIntent();
    CompareRequestNames();
    ShippedNames();
    LookupFindsEntry(CryptoDb, 0);
    LookupFindsEntry(CryptoDb, 2);
  }

  lemma CompareRequestIntent()
    ensures Classify(CompareRequest) == Compare
  {
    var q := CompareLowered;
    CompareRequestLowered();
    CompareRequestNoEarlierKeyword();
    assert q[0..7] == "compare";
    ContainsAt(q, "compare", 0);
    assert MentionsAny(q, CompareKeywords);
  }

  lemma GibberishFacts()
    ensures Lower(Gibberish) == Gibberish
    ensures forall c :: c in "uegtrbiohcwvq" ==> c !in Gibberish
  {
  }

  /** Gibberish holds no keyword at all and gets the help text. */
  lemma GibberishQuery()
    ensures Classify(Gibberish) == Unknown
    ensures GenerateResponse(CryptoDb, Gibberish, false) == Ok(Help)
  {
    GibberishFacts();
    GibberishEarlyGroups();
    GibberishLateGroups();
  }

  lemma GibberishEarlyGroups()
    ensures !MentionsAny(Gibberish, SustainabilityKeywords)
    ensures !MentionsAny(Gibberish, TrendingKeywords)
    ensures !MentionsAny(Gibberish, AdviceBuyKeywords)
  {
    var q := Gibberish;
    GibberishFacts();
    MissingChar(q, "sustain", 'u');
    MissingChar(q, "eco", 'e');
    MissingChar(q, "green", 'g');
    MissingChar(q, "environment", 'e');
    MissingChar(q, "energy", 'e');
    GibberishNoTrendingNorBuyKeyword();
  }

  lemma GibberishNoTrendingNorBuyKeyword()
    ensures !MentionsAny(Gibberish, TrendingKeywords)
    ensures !MentionsAny(Gibberish, AdviceBuyKeywords)
  {
    var q := Gibberish;
    GibberishFacts();
    MissingChar(q, "trend", 't');
    MissingChar(q, "trending", 't');
    MissingChar(q, "up", 'u');
    MissingChar(q, "growing", 'g');
    MissingChar(q, "rise", 'r');
    MissingChar(q, "rising", 'r');
    GibberishNoBuyKeyword();
  }

  lemma GibberishNoBuyKeyword()
    ensures !MentionsAny(Gibberish, AdviceBuyKeywords)
  {
    var q := Gibberish;
    GibberishFacts();
    MissingChar(q, "buy", 'b');
    MissingChar(q, "invest", 'i');
    MissingChar(q, "long-term", 'o');
    MissingChar(q, "hold", 'h');
    MissingChar(q, "should i buy", 'h');
  }

  lemma GibberishLateGroups()
    ensures !MentionsAny(Gibberish, CompareKeywords)
    ensures !MentionsAny(Gibberish, GreetingKeywords)
    ensures !MentionsAny(Gibberish, GoodbyeKeywords)
  {
    var q := Gibberish;
    GibberishFacts();
    MissingChar(q, "compare", 'c');
    MissingChar(q, "which is better", 'w');
    MissingChar(q, "vs", 'v');
    MissingChar(q, "versus", 'v');
    GibberishNoGreetingNorGoodbyeKeyword();
  }

  lemma GibberishNoGreetingNorGoodbyeKeyword()
    ensures !MentionsAny(Gibberish, GreetingKeywords)
    ensures !MentionsAny(Gibberish, GoodbyeKeywords)
  {
    var q := Gibberish;
    GibberishFacts();
    MissingChar(q, "help", 'h');
    MissingChar(q, "hello", 'h');
    MissingChar(q, "hi", 'h');
    MissingChar(q, "hey", 'h');
    MissingChar(q, "bye", 'b');
    MissingChar(q, "exit", 'e');
    MissingChar(q, "quit", 'q');
    MissingChar(q, "thanks", 't');
    MissingChar(q, "thank", 't');
  }
}
