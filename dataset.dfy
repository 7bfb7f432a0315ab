/**
 * The fixed table of coins the responder answers from (`crypto_db`). A Python
 * dict keeps insertion order and unique keys; here it is a sequence of
 * (name, record) pairs whose names are distinct, in the dict's order.
 */
module Dataset {

  /** `price_trend`. `OtherTrend` stands for any label other than the three named ones. */
  datatype Trend = Rising | Stable | Falling | OtherTrend(text: string)

  /** `market_cap` and `energy_use`. `OtherLevel` stands for any other label. */
  datatype Level = High | Medium | Low | OtherLevel(text: string)

  /**
   * One coin's attributes. `score` is `sustainability_score` in tenths
   * (3.0 is 30, 7.5 is 75): every score in the table has one decimal.
   */
  datatype Record = Record(
    symbol: string,
    trend: Trend,
    cap: Level,
    energy: Level,
    score: int,
    notes: string)

  type Entry = (string, Record)

  function TrendLabel(t: Trend): string
  {
    match t
    case Rising => "rising"
    case Stable => "stable"
    case Falling => "falling"
    case OtherTrend(text) => text
  }

  function LevelLabel(l: Level): string
  {
    match l
    case High => "high"
    case Medium => "medium"
    case Low => "low"
    case OtherLevel(text) => text
  }

  /** The label a record field holds decides its constructor: no `OtherTrend("rising")`. */
  predicate Canonical(r: Record)
  {
    && (r.trend.OtherTrend? ==> r.trend.text !in ["rising", "stable", "falling"])
    && (r.cap.OtherLevel? ==> r.cap.text !in ["high", "medium", "low"])
    && (r.energy.OtherLevel? ==> r.energy.text !in ["high", "medium", "low"])
  }

  /** What a dict from names to records guarantees: no name twice, labels read back faithfully. */
  predicate WellFormed(db: seq<Entry>)
  {
    && (forall i, j :: 0 <= i < j < |db| ==> db[i].0 != db[j].0)
    && (forall i :: 0 <= i < |db| ==> Canonical(db[i].1))
  }

  type Db = db: seq<Entry> | WellFormed(db) witness []

  function Names(db: seq<Entry>): (names: seq<string>)
    ensures |names| == |db|
    ensures forall i :: 0 <= i < |db| ==> names[i] == db[i].0
  {
    seq(|db|, i requires 0 <= i < |db| => db[i].0)
  }

  /**
   * `db[name]`. Callers only look up names they found in the table, so the
   * `KeyError` path is never taken.
   */
  function Lookup(db: seq<Entry>, name: string): (r: Record)
    requires name in Names(db)
    ensures exists i :: 0 <= i < |db| && db[i] == (name, r)
  {
    if db[0].0 == name then db[0].1
    else
      assert name in Names(db[1..]) by {
        var i :| 0 <= i < |db| && Names(db)[i] == name;
        assert Names(db[1..])[i - 1] == name;
      }
      Lookup(db[1..], name)
  }

  /** With distinct names, looking up an entry's name gives that entry's record. */
  lemma LookupFindsEntry(db: Db, i: nat)
    requires i < |db|
    ensures Lookup(db, db[i].0) == db[i].1
  {
    assert Names(db)[i] == db[i].0;
    var j :| 0 <= j < |db| && db[j] == (db[i].0, Lookup(db, db[i].0));
  }

  // The `notes` texts, kept apart so that the table itself stays small.
  const BitcoinNotes: string := "Largest market cap; energy-intensive proof-of-work."
  const EthereumNotes: string := "Smart contracts leader; moving to greener consensus (historical)."
  const CardanoNotes: string := "Paper-driven design; proof-of-stake, energy-efficient."
  const SolanaNotes: string := "Fast network, but has had outages in the past."
  const PolkadotNotes: string := "Interoperability focused; proof-of-stake."

  /** The table as shipped, in its insertion order. */
  const CryptoDb: Db := ShippedEntries()

  function ShippedEntries(): (db: seq<Entry>)
    ensures WellFormed(db)
  {
    var db := [
      ("Bitcoin", Record("BTC", Rising, High, High, 30, BitcoinNotes)),
      ("Ethereum", Record("ETH", Stable, High, Medium, 60, EthereumNotes)),
      ("Cardano", Record("ADA", Rising, Medium, Low, 80, CardanoNotes)),
      ("Solana", Record("SOL", Falling, Medium, Low, 70, SolanaNotes)),
      ("Polkadot", Record("DOT", Stable, Medium, Low, 75, PolkadotNotes))
    ];
    assert forall i, j :: 0 <= i < j < |db| ==> db[i].0[0] != db[j].0[0] by {
      forall i, j | 0 <= i < j < |db| ensures db[i].0[0] != db[j].0[0] {
        assert i == 0 || i == 1 || i == 2 || i == 3;
        assert j == 1 || j == 2 || j == 3 || j == 4;
      }
    }
    db
  }
}
