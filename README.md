# CryptoBuddy, modelled in Dafny

CryptoBuddy is a small rule-based chatbot (`cryptobuddy.py`). It answers
questions about five coins kept in a fixed table (`crypto_db`). Each coin has
a symbol, a price trend, a market cap, an energy use, a sustainability score
and a note. A query is lower-cased and sorted into one of seven intents by
keyword search. The groups are tried in a fixed priority order and the first
group that matches wins. The answer then comes from one of three selection
rules, or from a fixed text:

- the most sustainable coin (highest score, first one on ties);
- the most profitable coin (trend weight 0.6, cap weight 0.4, first on ties);
- the coins trending up, in table order.

Buy advice has three tiers. A compare query looks for coin names in the query.

The model is pure, as the source is. The source has no class and no
mutable state apart from the console loop, which is left out.

- `wrappers.dfy`: `Option` and `Result`.
- `text.dfy` (module `Text`): ASCII lower-casing, the substring test, `join`,
  and the one-decimal rendering of scores.
- `dataset.dfy` (module `Dataset`): the coin record, the table as a sequence
  of `(name, record)` pairs with distinct names (`Db`), and the shipped table.
- `rules.dfy` (module `Rules`): Python's `max` with first-maximum semantics,
  the two selection rules, and the rising-coin filter with its specification
  (`IsOrderedSelection`).
- `classifier.dfy` (module `Classifier`): the six keyword groups and the
  intent classifier.
- `responder.dfy` (module `Responder`): the reply chosen for each intent,
  and its rendering as text.
- `scenarios.dfy` (modules `Scenarios` and `Conversations`): what the
  shipped table and some sample queries come to.

Modelling choices:

- The source reads the global table. `GenerateResponse` takes the table as a
  parameter `db`, so every property holds for any table with distinct names
  whose labels are stored canonically (a known label always as its own
  constructor, never inside `OtherTrend` or `OtherLevel`).
  The `Scenarios` lemmas then fix `db` to the shipped table.
- Scores are integers in tenths (`8.0` is `80`). The profitability score is
  ten times the source's, `6 * trend + 4 * cap`. The nine possible float
  values of the source's score are at least 0.2 apart, and they are ordered
  as the integer scores are. So the choice of `max` is the same.
- A trend or level label outside the known ones is kept as `OtherTrend` or
  `OtherLevel`, so the default weight 1 of the weight tables is modelled.
- Python's `max` on an empty table raises `ValueError`. Here that is `None`
  from the selection rules, and `Err(EmptyTable)` from `GenerateResponse`.
- `random.choice` between two fixed texts becomes a `secondChoice: bool`
  parameter.
- The compare branch lower-cases both the coin name and the query before the
  substring test (`cryptobuddy.py:132`). The model follows this code.

## Model

| member | source | states |
|---|---|---|
| Dataset.ShippedEntries | cryptobuddy.py:10-51 | the shipped table of five coins is well formed: its names are distinct and each label has its canonical constructor |
| Dataset.Lookup | cryptobuddy.py:135 | looking up a name that is in the table returns a record stored under that name |
| Dataset.LookupFindsEntry | cryptobuddy.py:135 | since names are distinct, looking up the name of entry `i` returns entry `i`'s own record |
| Rules.FirstMaxIndex | cryptobuddy.py:56 | the left-to-right scan of `max` ends at an entry whose key no entry exceeds, and every earlier entry's key is strictly smaller |
| Rules.MaxBy | cryptobuddy.py:71 | `max` gives nothing exactly when the table is empty; otherwise it gives the entry at a first-maximum index |
| Rules.BestBySustainability | cryptobuddy.py:54-56 | nothing iff the table is empty; otherwise an entry of the table whose score no entry exceeds and that comes first among the entries with that score |
| Rules.BestByProfitability | cryptobuddy.py:58-72 | nothing iff the table is empty; otherwise an entry of the table whose profitability no entry exceeds, first among ties |
| Rules.TrendWeight | cryptobuddy.py:65 | the trend weight is bounded by 1 and 3; the body gives rising, stable and falling 3, 2 and 1, and any other label 1 (line 69) |
| Rules.CapWeight | cryptobuddy.py:66 | the market-cap weight is bounded by 1 and 3; the body gives high, medium and low 3, 2 and 1, and any other label 1 (line 70) |
| Rules.Profitability | cryptobuddy.py:67-70 | the score, in tenths, lies between 10 and 30 (1.0 to 3.0); `ProfitabilityTop` and `ProfitabilityDistinguishesWeights` give its maximum and its ties |
| Rules.ProfitabilityDistinguishesWeights | cryptobuddy.py:65-70 | two entries have the same profitability only when their trend weights and their cap weights are both equal |
| Rules.ProfitabilityTop | cryptobuddy.py:65-70 | profitability is at most 30 (3.0 in the source) and reaches it exactly for a rising coin with a high cap |
| Rules.ProfitPickIsFirstRisingHigh | cryptobuddy.py:65-72 | the profitability pick is rising with a high cap iff some entry is; then it is the first such entry of the table |
| Rules.Select | cryptobuddy.py:75 | a list comprehension over the table lists at most as many names as the table has, all of them names of the table |
| Rules.SelectIsOrderedSelection | cryptobuddy.py:75 | the comprehension lists the names of exactly the entries the condition accepts, once each, in table order |
| Rules.FilterTrendingUp | cryptobuddy.py:74-75 | the result is exactly the names of the rising coins, in table order |
| Classifier.Classify | cryptobuddy.py:78-93 | no contract of its own; characterised by `ClassifyIsFirstMatch`, `ClassifyKnown`, `ClassifyUnknown` and `ClassifyIgnoresCase` |
| Classifier.KeywordsAreLower | cryptobuddy.py:80-91 | every keyword of every group is lower case, so it can match a lowered query |
| Classifier.ClassifyIsFirstMatch | cryptobuddy.py:78-91 | the intent is the label of the first group, in priority order, that has a keyword in the lowered query |
| Classifier.ClassifyKnown | cryptobuddy.py:78-91 | any intent other than unknown is the label of the first group that matched |
| Classifier.ClassifyUnknown | cryptobuddy.py:78-93 | the intent is unknown iff no keyword of any group occurs in the lowered query |
| Classifier.ClassifyIgnoresCase | cryptobuddy.py:79 | a query and its lower-cased form get the same intent |
| Classifier.KeywordBoundsIntent | cryptobuddy.py:79-91 | a query whose lowered form holds a keyword of group `g` (the keyword in any letter case) is classified by group `g` or an earlier one; a sustainability keyword always gives the sustainability intent |
| Text.Lower | cryptobuddy.py:79 | keeps the length and changes nothing but upper-case ASCII letters; `LowerIsLower` adds that the result is lower case and that lowering twice changes nothing |
| Text.Contains | cryptobuddy.py:80 | no contract of its own (the substring test); characterised by `ContainsAt`, `MissingChar` and `SplitAtSeparator` |
| Text.Join | cryptobuddy.py:111 | no contract of its own; characterised by `JoinMentionsEach` |
| Text.NatText | cryptobuddy.py:106 | the decimal digits of a whole number: at least one character, each a digit; `NatTextValue` proves they spell the number |
| Text.NatTextValue | cryptobuddy.py:106 | reading the printed digits back (`DigitsValue`) gives the number printed |
| Text.TenthsText | cryptobuddy.py:106 | a score prints as at least three characters ending in `.` and one digit, starts with `-` exactly when it is negative, and reads back (`ParseTenths`) as the score it prints (also lines 137-138) |
| Text.TenthsTextExamples | cryptobuddy.py:106 | the shipped scores 8.0, 7.5 and 3.0 print as "8.0", "7.5" and "3.0" |
| Text.ContainsLowered | cryptobuddy.py:79 | a substring stays a substring once both texts are lowered |
| Text.JoinMentionsEach | cryptobuddy.py:111 | the `", "`-joined list contains each of its parts |
| Responder.NamesFound | cryptobuddy.py:132 | the names found are the names of exactly the entries whose lowered name occurs in the lowered query, once each, in table order |
| Responder.GenerateResponse | cryptobuddy.py:96-148 | fails only when the table is empty and the intent needs `max` (sustainability or buy advice); otherwise the reply is of a kind its intent can produce |
| Responder.Render | cryptobuddy.py:98-148 | no contract of its own (the reply texts); characterised by `TrendingTextListsEveryName` and the `…NamesCoin` lemmas |
| Responder.CompareLine | cryptobuddy.py:137-138 | a comparison line opens with the coin's name |
| Responder.PickNamesCoin | cryptobuddy.py:105-107 | the sustainability reply names its coin |
| Responder.GrowthNamesCoin | cryptobuddy.py:119-121 | the first-tier buy reply names its coin |
| Responder.BalancedNamesCoin | cryptobuddy.py:125-126 | the second-tier buy reply names its coin |
| Responder.ProfitNamesCoin | cryptobuddy.py:128-129 | the third-tier buy reply names its coin |
| Responder.ComparisonNamesCoins | cryptobuddy.py:136-140 | the comparison names both coins it compares |
| Responder.CannedReplies | cryptobuddy.py:98-102 | a greeting answers with one of the two greeting texts, and a goodbye with one of the two farewell texts (lines 143-145) |
| Responder.SustainabilityReply | cryptobuddy.py:103-107 | on a non-empty table, a sustainability query names a first entry with the highest score |
| Responder.TrendingReply | cryptobuddy.py:108-113 | a trending query lists exactly the rising coins in table order, or, when no coin is rising, gives the no-rising-coin reply |
| Responder.TrendingTextListsEveryName | cryptobuddy.py:111 | the rendered trending reply contains the name of every coin it lists |
| Responder.BuyAdviceTiers | cryptobuddy.py:114-129 | first tier iff some coin is rising with a high cap, and then it is the first such coin; second tier iff there is none and the most sustainable coin is rising, and then it is that coin; third tier otherwise, and then it is the profitability pick itself: the first coin of top profitability (lines 71, 128) |
| Responder.CompareReply | cryptobuddy.py:130-142 | with two or more coins named in the query, the first two in table order are compared with their own records; with fewer, the reply asks for two names |
| Responder.UnknownReply | cryptobuddy.py:146-148 | an unknown intent always gets the fixed help text |
| Scenarios.ShippedSustainabilityPick | cryptobuddy.py:27-34 | on the shipped table the sustainability pick is Cardano, score 8.0 |
| Scenarios.ShippedProfitPick | cryptobuddy.py:11-18 | on the shipped table the profitability pick is Bitcoin, rising with a high cap |
| Scenarios.ShippedTrending | cryptobuddy.py:74-75 | on the shipped table the rising coins are Bitcoin then Cardano |
| Scenarios.ShippedBuyAdvice | cryptobuddy.py:118-121 | on the shipped table every buy query gets the first tier, naming Bitcoin |
| Conversations.SustainableQuery | cryptobuddy.py:103-107 | "What's the most sustainable coin?" is a sustainability query answered with Cardano |
| Conversations.PriorityOfSustainability | cryptobuddy.py:80-83 | "green trending coin" is a sustainability query, although it also holds a trending keyword |
| Conversations.ShoutedKeyword | cryptobuddy.py:79-81 | "GREEN coin" is a sustainability query: the keyword counts in upper case too |
| Conversations.TrendingQuery | cryptobuddy.py:108-111 | "Which crypto is trending up?" is a trending query answered with Bitcoin and Cardano |
| Conversations.CompareRequestNames | cryptobuddy.py:132 | the names found in "Compare Bitcoin and Cardano" are Bitcoin then Cardano |
| Conversations.CompareQuery | cryptobuddy.py:130-140 | "Compare Bitcoin and Cardano" is a compare query that compares Bitcoin with Cardano |
| Conversations.GibberishQuery | cryptobuddy.py:146-148 | "asdkfjasldkf" holds no keyword and gets the help text |

## Left out

- `chat_loop` and the `__main__` guard: console input and output. The loop
  prompts again on blank input and stops after a goodbye query. These steps
  are not modelled.
- `random.choice`: the choice is the `secondChoice` parameter, so no
  distribution is modelled.
- Floating point: scores are integer tenths. `TenthsText` renders them with
  one decimal, as Python prints these values. Other float formats are not
  modelled.
- `str.lower`: only ASCII letters are lowered. Other Unicode case mappings
  are not modelled.
- `textwrap.fill` of the printed reply: part of the console loop.
- `BOT_TONE`: defined but never read by the code.
- Responder.Render: the reply texts are written out, and the lemmas prove
  which names each text contains. The full text of a reply on the shipped
  table is not stated as a lemma.
