/** Optional values, as the bot's replies and parses use them. */
module Wrappers {
  datatype Option<+T> = None | Some(value: T)
}

/**
 * The string operations the handlers rely on: joining the command arguments
 * with single spaces, and writing a natural number in decimal as an f-string
 * does. Each comes with its inverse (splitting, parsing) and the round trip
 * that ties the two together.
 */
module Text {
  // ----- Joining and splitting -----

  /** `sep.join(parts)`: the parts with `sep` between consecutive ones. */
  function Join(parts: seq<string>, sep: string): string
    decreases |parts|
  {
    if |parts| == 0 then ""
    else if |parts| == 1 then parts[0]
    else parts[0] + sep + Join(parts[1..], sep)
  }

  /** The position of the first occurrence of `c` in `s`. */
  function IndexOf(s: string, c: char): (i: nat)
    requires c in s
    ensures i < |s| && s[i] == c && c !in s[..i]
  {
    if s[0] == c then 0
    else
      assert c in s[1..] by { assert s == [s[0]] + s[1..]; }
      var j := IndexOf(s[1..], c);
      assert s[..j + 1] == [s[0]] + s[1..][..j];
      j + 1
  }

  /** `s.split(c)`: the pieces of `s` between occurrences of `c`; never empty. */
  function Split(s: string, c: char): (r: seq<string>)
    ensures |r| >= 1
    ensures forall k :: 0 <= k < |r| ==> c !in r[k]
    decreases |s|
  {
    if c !in s then [s]
    else
      var i := IndexOf(s, c);
      [s[..i]] + Split(s[i + 1..], c)
  }

  /** Joining with a non-empty separator gives "" exactly for no parts or one empty part. */
  lemma JoinEmptyIff(parts: seq<string>, sep: string)
    requires sep != ""
    ensures Join(parts, sep) == "" <==> parts == [] || parts == [""]
  {
  }

  /** The length of a join: every part once, and the separator between consecutive parts. */
  function TotalLength(parts: seq<string>): nat
  {
    if parts == [] then 0 else |parts[0]| + TotalLength(parts[1..])
  }

  lemma {:induction false} JoinLength(parts: seq<string>, sep: string)
    requires parts != []
    ensures |Join(parts, sep)| == TotalLength(parts) + (|parts| - 1) * |sep|
    decreases |parts|
  {
    if |parts| >= 2 {
      JoinLength(parts[1..], sep);
    }
  }

  /** Splitting `p + [c] + r`, with no `c` in `p`, gives `p` and then the pieces of `r`. */
  lemma SplitAfterPrefix(p: string, c: char, r: string)
    requires c !in p
    ensures Split(p + [c] + r, c) == [p] + Split(r, c)
  {
    var s := p + [c] + r;
    assert s[..|p|] == p && s[|p|] == c;
    var i := IndexOf(s, c);
    assert i <= |p| ==> s[..i] == p[..i];
    assert i == |p|;
    assert s[i + 1..] == r;
  }

  /** Splitting at the separator undoes joining, for parts that do not contain it. */
  lemma {:induction false} SplitJoin(parts: seq<string>, c: char)
    requires parts != []
    requires forall k :: 0 <= k < |parts| ==> c !in parts[k]
    ensures Split(Join(parts, [c]), c) == parts
    decreases |parts|
  {
    if |parts| >= 2 {
      var rest := Join(parts[1..], [c]);
      assert Join(parts, [c]) == parts[0] + [c] + rest;
      SplitAfterPrefix(parts[0], c, rest);
      SplitJoin(parts[1..], c);
      assert parts == [parts[0]] + parts[1..];
    }
  }

  // ----- Decimal numerals -----

  predicate IsDigit(c: char)
  {
    '0' <= c <= '9'
  }

  predicate AllDigits(s: string)
  {
    forall k :: 0 <= k < |s| ==> IsDigit(s[k])
  }

  function DigitChar(d: nat): (c: char)
    requires d < 10
    ensures IsDigit(c) && c as int - '0' as int == d
  {
    ('0' as int + d) as char
  }

  function DigitValue(c: char): nat
    requires IsDigit(c)
  {
    c as int - '0' as int
  }

  /** How Python writes a non-negative int: decimal, no sign, no leading zero. */
  function NatToString(n: nat): (r: string)
    ensures r != [] && AllDigits(r)
    ensures r[0] == '0' ==> r == "0"
    decreases n
  {
    if n < 10 then [DigitChar(n)]
    else NatToString(n / 10) + [DigitChar(n % 10)]
  }

  /** A numeral as Python writes one: digits only, at least one, no leading zero. */
  predicate IsNumeral(s: string)
  {
    s != [] && AllDigits(s) && (s[0] == '0' ==> s == "0")
  }

  /** The value of a string of decimal digits, most significant first. */
  function DigitsValue(s: string): nat
    requires AllDigits(s)
    decreases |s|
  {
    if s == [] then 0
    else DigitsValue(s[..|s| - 1]) * 10 + DigitValue(s[|s| - 1])
  }

  /** Reading the numeral back gives the number. */
  lemma {:induction false} DigitsValueOfNatToString(n: nat)
    ensures DigitsValue(NatToString(n)) == n
    decreases n
  {
    if n >= 10 {
      var s := NatToString(n);
      assert s[..|s| - 1] == NatToString(n / 10);
      DigitsValueOfNatToString(n / 10);
    }
  }

  /** Digits that do not start with '0' have a value of at least one. */
  lemma {:induction false} DigitsValuePositive(s: string)
    requires s != [] && AllDigits(s) && s[0] != '0'
    ensures DigitsValue(s) >= 1
    decreases |s|
  {
    if |s| >= 2 {
      var p := s[..|s| - 1];
      assert p[0] == s[0];
      DigitsValuePositive(p);
    }
  }

  /** A numeral is the one Python writes for its value: writing numbers is onto the numerals. */
  lemma {:induction false} NatToStringOfDigitsValue(s: string)
    requires IsNumeral(s)
    ensures NatToString(DigitsValue(s)) == s
    decreases |s|
  {
    if |s| >= 2 {
      var p := s[..|s| - 1];
      assert p[0] == s[0] && s[0] != '0';
      DigitsValuePositive(p);
      NatToStringOfDigitsValue(p);
      var d := DigitValue(s[|s| - 1]);
      var n := DigitsValue(s);
      assert n == DigitsValue(p) * 10 + d && d < 10;
      assert n / 10 == DigitsValue(p) && n % 10 == d;
      assert DigitChar(d) == s[|s| - 1];
      assert s == p + [s[|s| - 1]];
    }
  }

  /** Number of decimal digits at the front of `s`. */
  function DigitRun(s: string): (k: nat)
    ensures k <= |s| && AllDigits(s[..k])
    ensures k < |s| ==> !IsDigit(s[k])
    decreases |s|
  {
    if s == [] || !IsDigit(s[0]) then 0
    else
      var k := DigitRun(s[1..]);
      assert s[..k + 1] == [s[0]] + s[1..][..k];
      k + 1
  }

  /** The digit run of digits followed by a non-digit stops at that non-digit. */
  lemma {:induction false} DigitRunOfPrefix(a: string, b: string)
    requires AllDigits(a)
    requires b != [] && !IsDigit(b[0])
    ensures DigitRun(a + b) == |a|
    decreases |a|
  {
    if a != [] {
      assert (a + b)[0] == a[0] && (a + b)[1..] == a[1..] + b;
      assert AllDigits(a[1..]) by {
        forall k | 0 <= k < |a| - 1 ensures IsDigit(a[1..][k]) { assert a[1..][k] == a[k + 1]; }
      }
      DigitRunOfPrefix(a[1..], b);
    }
  }

  // ----- Substrings -----

  /** `sub in s`, Python's substring test. */
  ghost predicate Contains(s: string, sub: string)
  {
    exists i :: OccursAt(s, sub, i)
  }

  /** `sub` occurs in `s` starting at position `i`. */
  predicate OccursAt(s: string, sub: string, i: int)
  {
    0 <= i <= |s| - |sub| && s[i..i + |sub|] == sub
  }
}
