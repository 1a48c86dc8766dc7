/**
 * String helpers the grounding script and the Python wrappers rely on:
 * decimal rendering of integers, String.split / Array.join on one
 * character, ASCII lower-casing, and two facts about sequences.
 */
module Text {

  /** The decimal digit character for `d`. */
  function DigitChar(d: nat): (c: char)
    requires d < 10
    ensures '0' <= c <= '9' && c as int - '0' as int == d
  {
    ('0' as int + d) as char
  }

  predicate IsDigits(s: string) {
    forall i :: 0 <= i < |s| ==> '0' <= s[i] <= '9'
  }

  /** Decimal rendering of a natural number, as `String(n)` in JavaScript and `str(n)` in Python give it. */
  function NatToString(n: nat): (s: string)
    ensures |s| > 0 && IsDigits(s)
  {
    if n < 10 then [DigitChar(n)] else NatToString(n / 10) + [DigitChar(n % 10)]
  }

  /** The value of a string of decimal digits: the reading that `NatToString` must invert. */
  function DigitsValue(s: string): nat
    requires IsDigits(s)
  {
    if s == [] then 0 else DigitsValue(s[..|s| - 1]) * 10 + (s[|s| - 1] as int - '0' as int)
  }

  lemma {:induction false} NatToStringRoundTrip(n: nat)
    ensures DigitsValue(NatToString(n)) == n
  {
    if n >= 10 {
      var s := NatToString(n);
      assert s[..|s| - 1] == NatToString(n / 10);
      NatToStringRoundTrip(n / 10);
    }
  }

  /** Decimal rendering of any integer, with a leading '-' for negatives, as Python's `str` gives it. */
  function IntToString(i: int): (s: string)
    ensures |s| > 0
  {
    if i < 0 then "-" + NatToString(-i) else NatToString(i)
  }

  /** The rendering starts with '-' exactly for negative integers. */
  lemma IntToStringSign(i: int)
    ensures IntToString(i)[0] == '-' <==> i < 0
  {
  }

  /** Distinct integers are rendered differently, so an id can be read back from a message. */
  lemma IntToStringInjective(a: int, b: int)
    requires IntToString(a) == IntToString(b)
    ensures a == b
  {
    IntToStringSign(a);
    IntToStringSign(b);
    if a < 0 {
      assert NatToString(-a) == IntToString(a)[1..];
      assert NatToString(-b) == IntToString(b)[1..];
      NatToStringRoundTrip(-a);
      NatToStringRoundTrip(-b);
    } else {
      NatToStringRoundTrip(a);
      NatToStringRoundTrip(b);
    }
  }

  /** JavaScript's `s.split(c)` for a one-character separator: the empty string gives `[""]`,
      and adjacent separators give empty parts. */
  function Split(s: string, c: char): (parts: seq<string>)
    ensures |parts| > 0
    ensures forall p | p in parts :: c !in p
  {
    if s == [] then [[]]
    else
      var rest := Split(s[1..], c);
      if s[0] == c then [[]] + rest
      else [[s[0]] + rest[0]] + rest[1..]
  }

  /** JavaScript's `parts.join(d)` and Python's `d.join(parts)`. */
  function Join(parts: seq<string>, d: char): string
  {
    if |parts| == 0 then []
    else if |parts| == 1 then parts[0]
    else parts[0] + [d] + Join(parts[1..], d)
  }

  lemma JoinCons(p: string, ps: seq<string>, d: char)
    requires |ps| > 0
    ensures Join([p] + ps, d) == p + [d] + Join(ps, d)
  {
    assert ([p] + ps)[1..] == ps;
  }

  /** Concatenation is associative. */
  lemma AppendAssoc<T>(a: seq<T>, b: seq<T>, c: seq<T>)
    ensures a + (b + c) == (a + b) + c
  {
  }

  /** A prefix of a prefix is a prefix of the whole. */
  lemma PrefixOfPrefix<T>(s: seq<T>, i: nat, j: nat)
    requires i <= j <= |s|
    ensures s[..j][..i] == s[..i]
  {
  }

  /** Every occurrence of `c` in `s` replaced by `d`, position by position. */
  function Replace(s: string, c: char, d: char): string
  {
    seq(|s|, i requires 0 <= i < |s| => if s[i] == c then d else s[i])
  }

  /** Splitting on `c` and joining with `d` replaces each `c` by `d` and changes nothing else. */
  lemma {:induction false} JoinOfSplit(s: string, c: char, d: char)
    ensures Join(Split(s, c), d) == Replace(s, c, d)
  {
    if s != [] {
      JoinOfSplit(s[1..], c, d);
      var rest := Split(s[1..], c);
      assert Replace(s, c, d) == [if s[0] == c then d else s[0]] + Replace(s[1..], c, d);
      if s[0] == c {
        assert ([[]] + rest)[1..] == rest;
      } else if |rest| > 1 {
        var parts := [[s[0]] + rest[0]] + rest[1..];
        assert parts[1..] == rest[1..];
        assert Join(parts, d) == ([s[0]] + rest[0]) + [d] + Join(rest[1..], d);
        assert Join(rest, d) == rest[0] + [d] + Join(rest[1..], d);
      }
    }
  }

  lemma {:induction false} SplitAfterPlainPrefix(p: string, t: string, c: char)
    requires c !in p
    ensures Split(p + t, c) == [p + Split(t, c)[0]] + Split(t, c)[1..]
  {
    if p == [] {
      assert p + t == t;
      var parts := Split(t, c);
      assert p + parts[0] == parts[0];
      assert parts == [parts[0]] + parts[1..];
    } else {
      assert (p + t)[0] == p[0];
      assert (p + t)[1..] == p[1..] + t;
      SplitAfterPlainPrefix(p[1..], t, c);
      assert [p[0]] + (p[1..] + Split(t, c)[0]) == p + Split(t, c)[0];
    }
  }

  /** Joining parts that do not contain `c` with `c` and splitting on `c` gives the parts back. */
  lemma {:induction false} SplitOfJoin(parts: seq<string>, c: char)
    requires |parts| > 0
    requires forall p | p in parts :: c !in p
    ensures Split(Join(parts, c), c) == parts
  {
    if |parts| == 1 {
      SplitAfterPlainPrefix(parts[0], [], c);
      assert parts[0] + [] == parts[0];
      assert parts == [parts[0]];
    } else {
      var t := Join(parts[1..], c);
      SplitOfJoin(parts[1..], c);
      assert Join(parts, c) == parts[0] + ([c] + t);
      assert ([c] + t)[1..] == t;
      assert Split([c] + t, c) == [[]] + parts[1..];
      SplitAfterPlainPrefix(parts[0], [c] + t, c);
      assert parts[0] + [] == parts[0];
      assert parts == [parts[0]] + parts[1..];
    }
  }

  /** The parts of a split hold only characters of the string split. */
  lemma {:induction false} SplitKeepsAbsent(s: string, c: char, x: char)
    requires x !in s
    ensures forall p | p in Split(s, c) :: x !in p
  {
    if s != [] {
      assert x !in s[1..] by {
        forall i | 0 <= i < |s[1..]| ensures s[1..][i] != x { assert s[1..][i] == s[i + 1]; }
      }
      SplitKeepsAbsent(s[1..], c, x);
      var rest := Split(s[1..], c);
      if s[0] != c {
        assert x !in rest[0];
        assert x !in [s[0]] + rest[0];
      }
    }
  }

  function LowerChar(ch: char): char {
    if 'A' <= ch <= 'Z' then (ch as int + 32) as char else ch
  }

  /** `String.prototype.toLowerCase` on the ASCII letters. */
  function LowerAscii(s: string): (r: string)
    ensures |r| == |s|
    ensures forall i :: 0 <= i < |s| && !('A' <= s[i] <= 'Z') ==> r[i] == s[i]
    ensures forall i :: 0 <= i < |s| && 'A' <= s[i] <= 'Z' ==> 'a' <= r[i] <= 'z'
  {
    seq(|s|, i requires 0 <= i < |s| => LowerChar(s[i]))
  }
}
