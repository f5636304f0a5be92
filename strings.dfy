/**
 * String helpers shared by the keyword classifiers, the route handlers and the card form:
 * ASCII case mapping, substring search as Python's `in` and `split` use it, decimal digits.
 */
module Strings {
  import opened Wrappers

  predicate IsDigit(c: char)
  {
    '0' <= c <= '9'
  }

  predicate AllDigits(s: string)
  {
    forall i :: 0 <= i < |s| ==> IsDigit(s[i])
  }

  function LowerChar(c: char): char
  {
    if 'A' <= c <= 'Z' then (c as int + 32) as char else c
  }

  function UpperChar(c: char): char
  {
    if 'a' <= c <= 'z' then (c as int - 32) as char else c
  }

  /** str.lower() on the ASCII letters. */
  function Lower(s: string): (r: string)
    ensures |r| == |s|
    ensures forall i :: 0 <= i < |s| ==> r[i] == LowerChar(s[i])
  {
    seq(|s|, i requires 0 <= i < |s| => LowerChar(s[i]))
  }

  /** str.upper() on the ASCII letters. */
  function Upper(s: string): (r: string)
    ensures |r| == |s|
    ensures forall i :: 0 <= i < |s| ==> r[i] == UpperChar(s[i])
  {
    seq(|s|, i requires 0 <= i < |s| => UpperChar(s[i]))
  }

  lemma LowerConcat(a: string, b: string)
    ensures Lower(a + b) == Lower(a) + Lower(b)
  {
  }

  /** Lower-casing forgets an upper-casing. */
  lemma LowerOfUpper(s: string)
    ensures Lower(Upper(s)) == Lower(s)
  {
  }

  /** `sep` occurs in `s` starting at index `j`. */
  predicate MatchAt(s: string, sep: string, j: nat)
  {
    j + |sep| <= |s| && s[j..j + |sep|] == sep
  }

  /** First occurrence of `sep` in `s` at or after index `k`. */
  function FindFrom(s: string, sep: string, k: nat): (r: Option<nat>)
    ensures r.Some? ==> k <= r.value && MatchAt(s, sep, r.value)
    ensures r.Some? ==> forall j: nat :: k <= j < r.value ==> !MatchAt(s, sep, j)
    ensures r.None? ==> forall j: nat :: k <= j ==> !MatchAt(s, sep, j)
    decreases |s| - k
  {
    if k + |sep| > |s| then None
    else if MatchAt(s, sep, k) then Some(k)
    else FindFrom(s, sep, k + 1)
  }

  /** Position of the first occurrence of `sep` in `s`, as str.find (None for -1). */
  function Find(s: string, sep: string): (r: Option<nat>)
    ensures r.Some? ==> MatchAt(s, sep, r.value)
    ensures r.Some? ==> forall j: nat :: j < r.value ==> !MatchAt(s, sep, j)
    ensures r.None? ==> forall j: nat :: !MatchAt(s, sep, j)
  {
    FindFrom(s, sep, 0)
  }

  /** Python's `sub in s`. */
  predicate Contains(s: string, sub: string)
  {
    Find(s, sub).Some?
  }

  /** A string without some character of `sub` cannot contain `sub`. */
  lemma MissingCharNotContained(s: string, sub: string, k: nat)
    requires k < |sub| && sub[k] !in s
    ensures !Contains(s, sub)
  {
  }

  /** A string that starts with `sep` has its first occurrence at 0. */
  lemma FindAtStart(sep: string, rest: string)
    ensures Find(sep + rest, sep) == Some(0)
  {
    assert MatchAt(sep + rest, sep, 0) by {
      assert (sep + rest)[0..|sep|] == sep;
    }
  }

  /** When the first character of `sep` is not in `p`, the first occurrence of `sep` in `p + sep` is right after `p`. */
  lemma FindAfterPrefix(p: string, sep: string, rest: string)
    requires |sep| > 0 && sep[0] !in p
    ensures Find(p + sep + rest, sep) == Some(|p|)
  {
    var s := p + sep + rest;
    assert MatchAt(s, sep, |p|) by {
      assert s[|p|..|p| + |sep|] == sep;
    }
  }

  /** s.split(sep)[0]: the text before the first occurrence, or all of `s`. */
  function BeforeFirst(s: string, sep: string): string
  {
    match Find(s, sep)
    case Some(i) => s[..i]
    case None => s
  }

  /** s.split(sep)[1]: the text between the first and second occurrences; None where Python raises IndexError. */
  function SecondPiece(s: string, sep: string): Option<string>
  {
    match Find(s, sep)
    case Some(i) => Some(BeforeFirst(s[i + |sep|..], sep))
    case None => None
  }

  /** Keeps the ASCII digits, in order (a /\D/g or /[^0-9]/g replace). */
  function DigitsOnly(s: string): (r: string)
    ensures AllDigits(r) && |r| <= |s|
  {
    if s == [] then []
    else DigitsOnly(s[..|s| - 1]) + (if IsDigit(s[|s| - 1]) then [s[|s| - 1]] else [])
  }

  /** Every digit is kept as often as it occurs, and nothing else is kept. */
  lemma {:induction false} DigitsOnlyCounts(s: string, c: char)
    ensures multiset(DigitsOnly(s))[c] == if IsDigit(c) then multiset(s)[c] else 0
  {
    if s != [] {
      DigitsOnlyCounts(s[..|s| - 1], c);
      assert s == s[..|s| - 1] + [s[|s| - 1]];
    }
  }

  /** One character is kept exactly when it is a digit; with DigitsOnlyConcat this fixes the order. */
  lemma DigitsOnlySingle(c: char)
    ensures DigitsOnly([c]) == if IsDigit(c) then [c] else []
  {
    assert [c][..0] == [];
  }

  lemma {:induction false} DigitsOnlyConcat(a: string, b: string)
    ensures DigitsOnly(a + b) == DigitsOnly(a) + DigitsOnly(b)
    decreases |b|
  {
    if b == [] {
      assert a + b == a;
    } else {
      assert (a + b)[..|a + b| - 1] == a + b[..|b| - 1];
      DigitsOnlyConcat(a, b[..|b| - 1]);
    }
  }

  /** Filtering a string of digits changes nothing. */
  lemma {:induction false} DigitsOnlyOfDigits(s: string)
    requires AllDigits(s)
    ensures DigitsOnly(s) == s
  {
    if s != [] {
      DigitsOnlyOfDigits(s[..|s| - 1]);
      assert s == s[..|s| - 1] + [s[|s| - 1]];
    }
  }

  /** A string of digits holds no other character. */
  lemma NoDigitIsLetter(s: string, c: char)
    requires AllDigits(s) && !IsDigit(c)
    ensures c !in s
  {
  }

  function DigitChar(d: nat): (c: char)
    requires d < 10
    ensures IsDigit(c)
  {
    ('0' as int + d) as char
  }

  function DigitValue(c: char): (d: nat)
    requires IsDigit(c)
    ensures d < 10
  {
    c as int - '0' as int
  }

  /** The decimal numeral of a natural number, as str(n). */
  function NatToString(n: nat): (s: string)
    ensures |s| > 0 && AllDigits(s)
  {
    if n < 10 then [DigitChar(n)] else NatToString(n / 10) + [DigitChar(n % 10)]
  }

  /** The value of a string of decimal digits. */
  function DigitsValue(s: string): nat
    requires AllDigits(s)
  {
    if s == [] then 0 else DigitsValue(s[..|s| - 1]) * 10 + DigitValue(s[|s| - 1])
  }

  /** int(s) for an optional sign followed by ASCII digits; None where Python raises ValueError. */
  function ParseInt(s: string): Option<int>
  {
    if |s| > 0 && AllDigits(s) then Some(DigitsValue(s) as int)
    else if |s| > 1 && s[0] == '-' && AllDigits(s[1..]) then Some(0 - DigitsValue(s[1..]) as int)
    else if |s| > 1 && s[0] == '+' && AllDigits(s[1..]) then Some(DigitsValue(s[1..]))
    else None
  }

  /** Reading back a numeral gives the number. */
  lemma {:induction false} ParseNatToString(n: nat)
    ensures ParseInt(NatToString(n)) == Some(n)
  {
    DigitsValueOfNatToString(n);
  }

  lemma {:induction false} DigitsValueOfNatToString(n: nat)
    ensures DigitsValue(NatToString(n)) == n
  {
    var s := NatToString(n);
    if n >= 10 {
      DigitsValueOfNatToString(n / 10);
      assert s[..|s| - 1] == NatToString(n / 10);
    }
  }
}
