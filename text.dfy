/**
 * The string operations the responder relies on: lower-casing (ASCII only),
 * Python's substring test `k in s`, `sep.join(parts)`, and the rendering of
 * a score kept in tenths the way Python prints a one-decimal float.
 */
module Text {

  /** `str.lower` on one character, restricted to ASCII letters. */
  function LowerChar(c: char): char
  {
    if 'A' <= c <= 'Z' then (c as int + 32) as char else c
  }

  /** `str.lower` on a whole string. */
  function Lower(s: string): (r: string)
    ensures |r| == |s|
    ensures forall i :: 0 <= i < |s| && !('A' <= s[i] <= 'Z') ==> r[i] == s[i]
  {
    seq(|s|, i requires 0 <= i < |s| => LowerChar(s[i]))
  }

  /** A string is already lower case when lower-casing leaves it as it is. */
  predicate IsLower(s: string)
  {
    forall i :: 0 <= i < |s| ==> !('A' <= s[i] <= 'Z')
  }

  lemma LowerIsLower(s: string)
    ensures IsLower(Lower(s))
    ensures Lower(Lower(s)) == Lower(s)
  {
  }

  lemma LowerOfLower(s: string)
    requires IsLower(s)
    ensures Lower(s) == s
  {
  }

  /** `needle` occurs in `hay` starting at position `i`. */
  predicate OccursAt(hay: string, needle: string, i: int)
  {
    0 <= i && i + |needle| <= |hay| && hay[i..i + |needle|] == needle
  }

  /** Python's `needle in hay` on strings: the needle occurs somewhere in the hay. */
  predicate Contains(hay: string, needle: string)
  {
    exists i | 0 <= i <= |hay| - |needle| :: OccursAt(hay, needle, i)
  }

  lemma ContainsAt(hay: string, needle: string, i: int)
    requires OccursAt(hay, needle, i)
    ensures Contains(hay, needle)
  {
  }

  /** Lower-casing both sides keeps an occurrence where it was. */
  lemma ContainsLowered(hay: string, needle: string)
    requires Contains(hay, needle)
    ensures Contains(Lower(hay), Lower(needle))
  {
    var i: int :| OccursAt(hay, needle, i);
      assert OccursAt(hay, needle, i);
    assert Lower(hay)[i..i + |needle|] == Lower(needle);
    ContainsAt(Lower(hay), Lower(needle), i);
  }

  /** An occurrence in either half of a concatenation is an occurrence in the whole. */
  lemma ContainsInConcat(a: string, b: string, needle: string)
    requires Contains(a, needle) || Contains(b, needle)
    ensures Contains(a + b, needle)
  {
    if Contains(a, needle) {
      var i: int :| OccursAt(a, needle, i);
      assert OccursAt(a, needle, i);
      assert (a + b)[i..i + |needle|] == a[i..i + |needle|];
      ContainsAt(a + b, needle, i);
    } else {
      var i: int :| OccursAt(b, needle, i);
      assert OccursAt(b, needle, i);
      assert (a + b)[|a| + i..|a| + i + |needle|] == b[i..i + |needle|];
      ContainsAt(a + b, needle, |a| + i);
    }
  }

  /** A needle holding a character the hay lacks does not occur in it. */
  lemma MissingChar(hay: string, needle: string, c: char)
    requires c in needle && c !in hay
    ensures !Contains(hay, needle)
  {
  }

  /**
   * A separator character the needle lacks splits the search: an occurrence
   * in `a + [sep] + b` lies wholly in `a` or wholly in `b`.
   */
  lemma SplitAtSeparator(a: string, sep: char, b: string, needle: string)
    requires sep !in needle
    requires !Contains(a, needle) && !Contains(b, needle)
    ensures !Contains(a + [sep] + b, needle)
  {
    var hay := a + [sep] + b;
    forall i | 0 <= i <= |hay| - |needle| ensures !OccursAt(hay, needle, i) {
      if i + |needle| <= |a| {
        assert hay[i..i + |needle|] == a[i..i + |needle|];
        assert !OccursAt(a, needle, i);
      } else if i <= |a| {
        assert hay[i..i + |needle|][|a| - i] == sep;
      } else {
        assert hay[i..i + |needle|] == b[i - |a| - 1..i - |a| - 1 + |needle|];
        assert !OccursAt(b, needle, i - |a| - 1);
      }
    }
  }

  /** A text contains whatever stands in its middle. */
  lemma ContainsMiddle(a: string, needle: string, b: string)
    ensures Contains(a + needle + b, needle)
  {
    assert (a + needle + b)[|a|..|a| + |needle|] == needle;
    ContainsAt(a + needle + b, needle, |a|);
  }

  /** Python's `sep.join(parts)`. */
  function Join(parts: seq<string>, sep: string): string
    decreases |parts|
  {
    if |parts| == 0 then ""
    else if |parts| == 1 then parts[0]
    else parts[0] + sep + Join(parts[1..], sep)
  }

  /** Every part appears in the joined string. */
  lemma {:induction false} JoinMentionsEach(parts: seq<string>, sep: string, k: nat)
    requires k < |parts|
    ensures Contains(Join(parts, sep), parts[k])
    decreases |parts|
  {
    if |parts| == 1 {
      ContainsAt(parts[0], parts[0], 0);
    } else if k == 0 {
      ContainsAt(parts[0], parts[0], 0);
      ContainsInConcat(parts[0], sep, parts[0]);
      ContainsInConcat(parts[0] + sep, Join(parts[1..], sep), parts[0]);
    } else {
      JoinMentionsEach(parts[1..], sep, k - 1);
      ContainsInConcat(parts[0] + sep, Join(parts[1..], sep), parts[k]);
    }
  }

  function DigitChar(d: int): char
    requires 0 <= d < 10
  {
    ('0' as int + d) as char
  }

  /** The value of a decimal digit character. */
  function DigitValue(c: char): int
  {
    c as int - '0' as int
  }

  /** The number a string of decimal digits spells, read as `int(t)` reads it. */
  function DigitsValue(t: string): int
    decreases |t|
  {
    if |t| == 0 then 0 else DigitsValue(t[..|t| - 1]) * 10 + DigitValue(t[|t| - 1])
  }

  /** Decimal digits of a natural number, as `str(n)` gives them. */
  function NatText(n: nat): (t: string)
    ensures |t| >= 1
    ensures forall i :: 0 <= i < |t| ==> '0' <= t[i] <= '9'
  {
    if n < 10 then [DigitChar(n)] else NatText(n / 10) + [DigitChar(n % 10)]
  }

  /** Reading the digits back gives the number: `int(str(n)) == n`. */
  lemma {:induction false} NatTextValue(n: nat)
    ensures DigitsValue(NatText(n)) == n
  {
    var t := NatText(n);
    if n < 10 {
      assert t[..|t| - 1] == [];
    } else {
      NatTextValue(n / 10);
      assert t[..|t| - 1] == NatText(n / 10);
    }
  }

  /** The number of tenths a printed one-decimal score stands for. */
  function ParseTenths(s: string): int
    requires |s| >= 3
  {
    if s[0] == '-' then -(DigitsValue(s[1..|s| - 2]) * 10 + DigitValue(s[|s| - 1]))
    else DigitsValue(s[..|s| - 2]) * 10 + DigitValue(s[|s| - 1])
  }

  /**
   * `str(x)` of a float holding a whole number of tenths, e.g. 30 -> "3.0",
   * 75 -> "7.5": Python prints such a value with exactly one decimal, and
   * reading the text back gives the score.
   */
  function TenthsText(tenths: int): (s: string)
    ensures |s| >= 3 && s[|s| - 2] == '.'
    ensures '0' <= s[|s| - 1] <= '9'
    ensures s[0] == '-' <==> tenths < 0
    ensures ParseTenths(s) == tenths
    decreases if tenths < 0 then 1 else 0
  {
    if tenths < 0 then
      var t := TenthsText(-tenths);
      assert ("-" + t)[1..|t| - 1] == t[..|t| - 2];
      "-" + t
    else
      NatTextValue(tenths / 10);
      var t := NatText(tenths / 10) + "." + [DigitChar(tenths % 10)];
      assert t[..|t| - 2] == NatText(tenths / 10);
      t
  }

  /** Scores of the shipped table print as Python prints them. */
  lemma TenthsTextExamples()
    ensures TenthsText(80) == "8.0" && TenthsText(75) == "7.5" && TenthsText(30) == "3.0"
  {
  }
}
