/**
 * The three selection rules over the table: the most sustainable coin, the
 * most profitable coin by a weighted trend/cap score, and the coins whose
 * trend is rising.
 */
module Rules {
  import opened Wrappers
  import opened Dataset

  /**
   * `i` is where Python's `max(items, key=key)` stops: no entry has a larger
   * key, and every entry before `i` has a strictly smaller one (ties keep the
   * first maximal entry).
   */
  ghost predicate IsFirstMax(db: seq<Entry>, key: Entry -> int, i: int)
  {
    && 0 <= i < |db|
    && (forall j :: 0 <= j < |db| ==> key(db[j]) <= key(db[i]))
    && (forall j :: 0 <= j < i ==> key(db[j]) < key(db[i]))
  }

  /**
   * The left-to-right scan of `max`: the best so far is replaced only by a
   * strictly larger key.
   */
  function FirstMaxIndex(db: seq<Entry>, key: Entry -> int): (m: nat)
    requires |db| > 0
    ensures IsFirstMax(db, key, m)
    decreases |db|
  {
    if |db| == 1 then 0
    else
      var m' := FirstMaxIndex(db[..|db| - 1], key);
      if key(db[|db| - 1]) > key(db[m']) then |db| - 1 else m'
  }

  /** The first maximal entry is the only index meeting the specification. */
  lemma FirstMaxUnique(db: seq<Entry>, key: Entry -> int, i: int, j: int)
    requires IsFirstMax(db, key, i) && IsFirstMax(db, key, j)
    ensures i == j
  {
    assert key(db[i]) == key(db[j]);
  }

  /** Python's `max` over the table by `key`; `None` is the `ValueError` an empty table raises. */
  function MaxBy(db: seq<Entry>, key: Entry -> int): (r: Option<Entry>)
    ensures r.None? <==> |db| == 0
    ensures r.Some? ==> exists i :: IsFirstMax(db, key, i) && db[i] == r.value
  {
    if |db| == 0 then None else Some(db[FirstMaxIndex(db, key)])
  }

  function SustainabilityScore(e: Entry): int
  {
    e.1.score
  }

  /** `best_by_sustainability`. */
  function BestBySustainability(db: seq<Entry>): (r: Option<Entry>)
    ensures r.None? <==> |db| == 0
    ensures r.Some? ==> r.value in db
    ensures r.Some? ==> forall e :: e in db ==> e.1.score <= r.value.1.score
    ensures r.Some? ==> exists i :: IsFirstMax(db, SustainabilityScore, i) && db[i] == r.value
  {
    MaxBy(db, SustainabilityScore)
  }

  /** The trend weight; a label outside the weight table counts 1. */
  function TrendWeight(t: Trend): (w: int)
    ensures 1 <= w <= 3
  {
    match t
    case Rising => 3
    case Stable => 2
    case Falling => 1
    case OtherTrend(_) => 1
  }

  /** The market-cap weight; a label outside the weight table counts 1. */
  function CapWeight(l: Level): (w: int)
    ensures 1 <= w <= 3
  {
    match l
    case High => 3
    case Medium => 2
    case Low => 1
    case OtherLevel(_) => 1
  }

  /** The profitability score (trend weight 0.6, cap weight 0.4), times ten so it stays an integer. */
  function Profitability(e: Entry): (p: int)
    ensures 10 <= p <= 30
  {
    6 * TrendWeight(e.1.trend) + 4 * CapWeight(e.1.cap)
  }

  /**
   * Scaling by ten loses nothing: two records score the same exactly when
   * their trend weights and their cap weights agree, so ties among the nine
   * weight combinations are the ties of the source's float score.
   */
  lemma ProfitabilityDistinguishesWeights(a: Entry, b: Entry)
    ensures Profitability(a) == Profitability(b)
        <==> TrendWeight(a.1.trend) == TrendWeight(b.1.trend) && CapWeight(a.1.cap) == CapWeight(b.1.cap)
  {
  }

  /** A record scores at most 30, and exactly 30 when it is rising with a high cap. */
  lemma ProfitabilityTop(e: Entry)
    ensures Profitability(e) <= 30
    ensures Profitability(e) == 30 <==> e.1.trend == Rising && e.1.cap == High
  {
  }

  /** `best_by_profitability`. */
  function BestByProfitability(db: seq<Entry>): (r: Option<Entry>)
    ensures r.None? <==> |db| == 0
    ensures r.Some? ==> r.value in db
    ensures r.Some? ==> forall e :: e in db ==> Profitability(e) <= Profitability(r.value)
    ensures r.Some? ==> exists i :: IsFirstMax(db, Profitability, i) && db[i] == r.value
  {
    MaxBy(db, Profitability)
  }

  /**
   * The profitability pick is rising with a high cap exactly when the table
   * holds such a coin, and then it is the first such coin.
   */
  lemma ProfitPickIsFirstRisingHigh(db: seq<Entry>)
    requires |db| > 0
    ensures var p := BestByProfitability(db).value;
      (p.1.trend == Rising && p.1.cap == High)
      <==> exists e :: e in db && e.1.trend == Rising && e.1.cap == High
    ensures var p := BestByProfitability(db).value;
      p.1.trend == Rising && p.1.cap == High ==>
        exists i :: 0 <= i < |db| && db[i] == p
          && forall j :: 0 <= j < i ==> !(db[j].1.trend == Rising && db[j].1.cap == High)
  {
    var p := BestByProfitability(db).value;
    var i :| IsFirstMax(db, Profitability, i) && db[i] == p;
    ProfitabilityTop(p);
    if e :| e in db && e.1.trend == Rising && e.1.cap == High {
      ProfitabilityTop(e);
    }
    forall j | 0 <= j < i
      ensures !(db[j].1.trend == Rising && db[j].1.cap == High)
    {
      ProfitabilityTop(db[j]);
    }
  }

  predicate IsRising(e: Entry)
  {
    e.1.trend == Rising
  }

  /** The names of the entries `keep` accepts, in table order (a list comprehension). */
  function Select(db: seq<Entry>, keep: Entry -> bool): (names: seq<string>)
    ensures |names| <= |db|
    ensures forall n :: n in names ==> n in Names(db)
    decreases |db|
  {
    if |db| == 0 then []
    else
      var rest := Select(db[1..], keep);
      assert forall n :: n in rest ==> n in Names(db) by {
        forall n | n in rest ensures n in Names(db) {
          var k :| 0 <= k < |db| - 1 && Names(db[1..])[k] == n;
          assert Names(db)[k + 1] == n;
        }
      }
      (if keep(db[0]) then [db[0].0] else []) + rest
  }

  /**
   * `names` lists, in table order and once each, the names of exactly the
   * entries `keep` accepts: `idx` gives, for each listed name, the increasing
   * position of its entry.
   */
  ghost predicate SelectedAt(db: seq<Entry>, keep: Entry -> bool, names: seq<string>, idx: seq<int>)
  {
    && |idx| == |names|
    && (forall k :: 0 <= k < |idx| ==> 0 <= idx[k] < |db| && db[idx[k]].0 == names[k])
    && (forall k, l :: 0 <= k < l < |idx| ==> idx[k] < idx[l])
    && (forall i :: 0 <= i < |db| ==> (keep(db[i]) <==> i in idx))
  }

  ghost predicate IsOrderedSelection(db: seq<Entry>, keep: Entry -> bool, names: seq<string>)
  {
    exists idx :: SelectedAt(db, keep, names, idx)
  }

  function Shift(idx: seq<int>): (r: seq<int>)
    ensures |r| == |idx| && forall k :: 0 <= k < |idx| ==> r[k] == idx[k] + 1
  {
    seq(|idx|, k requires 0 <= k < |idx| => idx[k] + 1)
  }

  function ConsIndexes(keepHead: bool, idx': seq<int>): seq<int>
  {
    (if keepHead then [0] else []) + Shift(idx')
  }

  /** Putting one entry in front of a selection keeps it a selection. */
  lemma SelectedAtCons(db: seq<Entry>, keep: Entry -> bool, rest: seq<string>, idx': seq<int>)
    requires |db| > 0 && SelectedAt(db[1..], keep, rest, idx')
    ensures SelectedAt(db, keep, (if keep(db[0]) then [db[0].0] else []) + rest, ConsIndexes(keep(db[0]), idx'))
  {
    var names := (if keep(db[0]) then [db[0].0] else []) + rest;
    var idx := ConsIndexes(keep(db[0]), idx');
    ConsPositions(db, keep, rest, idx');
    ConsIncreasing(keep(db[0]), idx');
    ConsMembership(db, keep, rest, idx');
  }

  lemma ConsPositions(db: seq<Entry>, keep: Entry -> bool, rest: seq<string>, idx': seq<int>)
    requires |db| > 0 && SelectedAt(db[1..], keep, rest, idx')
    ensures var names := (if keep(db[0]) then [db[0].0] else []) + rest;
      var idx := ConsIndexes(keep(db[0]), idx');
      |idx| == |names| && forall k :: 0 <= k < |idx| ==> 0 <= idx[k] < |db| && db[idx[k]].0 == names[k]
  {
    var names := (if keep(db[0]) then [db[0].0] else []) + rest;
    var idx := ConsIndexes(keep(db[0]), idx');
    var h := if keep(db[0]) then 1 else 0;
    forall k | 0 <= k < |idx| ensures 0 <= idx[k] < |db| && db[idx[k]].0 == names[k] {
      if k >= h {
        assert idx[k] == idx'[k - h] + 1 && names[k] == rest[k - h];
        assert db[idx[k]] == db[1..][idx'[k - h]];
      }
    }
  }

  lemma ConsIncreasing(keepHead: bool, idx': seq<int>)
    requires forall k :: 0 <= k < |idx'| ==> 0 <= idx'[k]
    requires forall k, l :: 0 <= k < l < |idx'| ==> idx'[k] < idx'[l]
    ensures var idx := ConsIndexes(keepHead, idx');
      forall k, l :: 0 <= k < l < |idx| ==> idx[k] < idx[l]
  {
    var idx := ConsIndexes(keepHead, idx');
    var h := if keepHead then 1 else 0;
    forall k, l | 0 <= k < l < |idx| ensures idx[k] < idx[l] {
      assert idx[l] == idx'[l - h] + 1;
      if k >= h {
        assert idx[k] == idx'[k - h] + 1;
      }
    }
  }

  lemma ShiftMembership(idx': seq<int>, i: int)
    ensures i in Shift(idx') <==> i - 1 in idx'
  {
    if i - 1 in idx' {
      var k :| 0 <= k < |idx'| && idx'[k] == i - 1;
      assert Shift(idx')[k] == i;
    }
  }

  lemma ConsMembership(db: seq<Entry>, keep: Entry -> bool, rest: seq<string>, idx': seq<int>)
    requires |db| > 0 && SelectedAt(db[1..], keep, rest, idx')
    ensures var idx := ConsIndexes(keep(db[0]), idx');
      forall i :: 0 <= i < |db| ==> (keep(db[i]) <==> i in idx)
  {
    var idx := ConsIndexes(keep(db[0]), idx');
    forall i | 0 <= i < |db| ensures keep(db[i]) <==> i in idx {
      ShiftMembership(idx', i);
      assert i in idx <==> (keep(db[0]) && i == 0) || i in Shift(idx');
      if i > 0 {
        assert db[i] == db[1..][i - 1];
      }
    }
  }

  /** `Select` meets its specification. */
  lemma {:induction false} SelectIsOrderedSelection(db: seq<Entry>, keep: Entry -> bool)
    ensures IsOrderedSelection(db, keep, Select(db, keep))
    decreases |db|
  {
    if |db| == 0 {
      assert SelectedAt(db, keep, [], []);
    } else {
      SelectIsOrderedSelection(db[1..], keep);
      var idx' :| SelectedAt(db[1..], keep, Select(db[1..], keep), idx');
      SelectedAtCons(db, keep, Select(db[1..], keep), idx');
    }
  }

  /** `filter_trending_up`. */
  function FilterTrendingUp(db: seq<Entry>): (names: seq<string>)
    ensures IsOrderedSelection(db, IsRising, names)
  {
    SelectIsOrderedSelection(db, IsRising);
    Select(db, IsRising)
  }
}
