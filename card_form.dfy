/**
 * The card form of the CMI payment modal (frontend/components/CMIModal.tsx): the validator
 * run on submit and the input formatters that run on every keystroke.
 */
module CardForm {
  import opened Wrappers
  import opened Strings

  /** The characters JavaScript's `\s` matches. */
  predicate IsJsSpace(c: char)
  {
    c == ' ' || c == '\t' || c == '\n' || c == '\r' || c == '\U{000B}' || c == '\U{000C}'
    || c == '\U{00A0}' || c == '\U{1680}' || ('\U{2000}' <= c <= '\U{200A}')
    || c == '\U{2028}' || c == '\U{2029}' || c == '\U{202F}' || c == '\U{205F}'
    || c == '\U{3000}' || c == '\U{FEFF}'
  }

  /** `replace(/\s/g, '')` (and `/\s+/g`, which removes the same characters). */
  function StripSpaces(s: string): (r: string)
    ensures |r| <= |s|
    ensures forall i :: 0 <= i < |r| ==> !IsJsSpace(r[i])
  {
    if s == [] then []
    else StripSpaces(s[..|s| - 1]) + (if IsJsSpace(s[|s| - 1]) then [] else [s[|s| - 1]])
  }

  lemma {:induction false} StripSpacesConcat(a: string, b: string)
    ensures StripSpaces(a + b) == StripSpaces(a) + StripSpaces(b)
    decreases |b|
  {
    if b == [] {
      assert a + b == a;
    } else {
      assert (a + b)[..|a + b| - 1] == a + b[..|b| - 1];
      StripSpacesConcat(a, b[..|b| - 1]);
    }
  }

  /** One character is dropped exactly when it is whitespace; with StripSpacesConcat this fixes the order. */
  lemma StripSpacesSingle(c: char)
    ensures StripSpaces([c]) == if IsJsSpace(c) then [] else [c]
  {
    assert [c][..0] == [];
  }

  /** A string without whitespace is left as it is. */
  lemma {:induction false} StripSpacesOfNoSpace(s: string)
    requires forall i :: 0 <= i < |s| ==> !IsJsSpace(s[i])
    ensures StripSpaces(s) == s
  {
    if s != [] {
      StripSpacesOfNoSpace(s[..|s| - 1]);
      assert s == s[..|s| - 1] + [s[|s| - 1]];
    }
  }

  /**
   * `match(/.{1,4}/g).join(' ')` on a string of digits: blocks of four separated by single
   * spaces, the last block holding one to four digits.
   */
  function Groups(v: string): (r: string)
    requires AllDigits(v)
    ensures |r| == 0 <==> |v| == 0
    ensures forall i :: 0 <= i < |r| ==> (r[i] == ' ' <==> i % 5 == 4)
    ensures forall i :: 0 <= i < |r| ==> r[i] == ' ' || IsDigit(r[i])
    ensures |r| > 0 ==> r[|r| - 1] != ' '
  {
    if |v| <= 4 then v
    else
      var rest := Groups(v[4..]);
      var r := v[..4] + " " + rest;
      assert forall i :: 5 <= i < |r| ==> r[i] == rest[i - 5];
      r
  }

  /** Removing the spaces gives back the digits. */
  lemma {:induction false} StripGroups(v: string)
    requires AllDigits(v)
    ensures StripSpaces(Groups(v)) == v
    decreases |v|
  {
    NoDigitIsLetter(v, ' ');
    if |v| <= 4 {
      StripSpacesOfNoSpace(v);
    } else {
      StripGroups(v[4..]);
      StripSpacesConcat(v[..4] + " ", Groups(v[4..]));
      StripSpacesConcat(v[..4], " ");
      StripSpacesOfNoSpace(v[..4]);
      assert v == v[..4] + v[4..];
    }
  }

  /** Filtering the digits of the grouped text gives back the digits. */
  lemma {:induction false} DigitsOfGroups(v: string)
    requires AllDigits(v)
    ensures DigitsOnly(Groups(v)) == v
    decreases |v|
  {
    if |v| <= 4 {
      DigitsOnlyOfDigits(v);
    } else {
      DigitsOfGroups(v[4..]);
      DigitsOnlyConcat(v[..4] + " ", Groups(v[4..]));
      DigitsOnlyConcat(v[..4], " ");
      DigitsOnlyOfDigits(v[..4]);
      assert DigitsOnly(" ") == "";
      assert v == v[..4] + v[4..];
    }
  }

  /** formatCardNumber: strip whitespace, keep the digits, group them by four. */
  function FormatCardNumber(val: string): (r: string)
    ensures forall i :: 0 <= i < |r| ==> r[i] == ' ' || IsDigit(r[i])
    ensures forall i :: 0 <= i < |r| ==> (r[i] == ' ' <==> i % 5 == 4)
    ensures |r| > 0 ==> r[|r| - 1] != ' '
  {
    Groups(DigitsOnly(StripSpaces(val)))
  }

  /** The grouped number, with spaces removed, is the digits that were typed, in order. */
  lemma {:induction false} FormattedNumberKeepsDigits(val: string)
    ensures StripSpaces(FormatCardNumber(val)) == DigitsOnly(val)
  {
    StripGroups(DigitsOnly(StripSpaces(val)));
    DigitsIgnoreSpaces(val);
  }

  /** Whitespace is never a digit, so stripping it first changes nothing for the digit filter. */
  lemma {:induction false} DigitsIgnoreSpaces(s: string)
    ensures DigitsOnly(StripSpaces(s)) == DigitsOnly(s)
  {
    if s != [] {
      var init := s[..|s| - 1];
      var last := s[|s| - 1];
      DigitsIgnoreSpaces(init);
      var tail := if IsJsSpace(last) then [] else [last];
      DigitsOnlyConcat(StripSpaces(init), tail);
      if IsJsSpace(last) {
        assert StripSpaces(init) + tail == StripSpaces(init);
      }
    }
  }

  /** Formatting an already formatted number changes nothing. */
  lemma {:induction false} FormatCardNumberIdempotent(val: string)
    ensures FormatCardNumber(FormatCardNumber(val)) == FormatCardNumber(val)
  {
    var v := DigitsOnly(StripSpaces(val));
    StripGroups(v);
    DigitsOnlyOfDigits(v);
  }

  /** The expiry formatter: keep the digits; past two digits, insert '/' and keep two more. */
  function FormatExpiry(input: string): (r: string)
    ensures |r| <= 5
    ensures forall i :: 0 <= i < |r| && i != 2 ==> IsDigit(r[i])
    ensures |DigitsOnly(input)| > 2 ==> |r| >= 4 && r[2] == '/'
    ensures |DigitsOnly(input)| <= 2 ==> r == DigitsOnly(input)
    ensures DigitsOnly(r) == DigitsOnly(input)[..if |DigitsOnly(input)| < 4 then |DigitsOnly(input)| else 4]
  {
    var v := DigitsOnly(input);
    if |v| > 2 then
      var w := v[2..if |v| < 4 then |v| else 4];
      DigitsAroundSlash(v[..2], w);
      assert v[..2] + w == v[..if |v| < 4 then |v| else 4];
      v[..2] + "/" + w
    else
      DigitsOnlyOfDigits(v);
      assert v[..|v|] == v;
      v
  }

  /** The digit filter drops the slash between two runs of digits. */
  lemma {:induction false} DigitsAroundSlash(a: string, b: string)
    requires AllDigits(a) && AllDigits(b)
    ensures DigitsOnly(a + "/" + b) == a + b
  {
    DigitsOnlyConcat(a + "/", b);
    DigitsOnlyConcat(a, "/");
    DigitsOnlyOfDigits(a);
    DigitsOnlyOfDigits(b);
    assert DigitsOnly("/") == "";
  }

  /** Reformatting a formatted expiry changes nothing. */
  lemma {:induction false} FormatExpiryIdempotent(input: string)
    ensures FormatExpiry(FormatExpiry(input)) == FormatExpiry(input)
  {
    var v := DigitsOnly(input);
    var f := FormatExpiry(input);
    if |v| > 2 {
      var k := if |v| < 4 then |v| else 4;
      var u := DigitsOnly(f);
      assert u == v[..k];
      assert u[..2] == v[..2] && u[2..] == v[2..k];
      assert FormatExpiry(f) == u[..2] + "/" + u[2..];
    } else {
      DigitsOnlyOfDigits(v);
    }
  }

  /** The CVV field keeps only the digits typed, in the order typed. */
  function FilterCvv(input: string): (r: string)
    ensures r == DigitsOnly(input)
    ensures AllDigits(r) && |r| <= |input|
    ensures forall c :: multiset(r)[c] == if IsDigit(c) then multiset(input)[c] else 0
    ensures AllDigits(input) ==> r == input
  {
    var r := DigitsOnly(input);
    forall c
      ensures multiset(r)[c] == if IsDigit(c) then multiset(input)[c] else 0
    {
      DigitsOnlyCounts(input, c);
    }
    assert AllDigits(input) ==> r == input by {
      if AllDigits(input) {
        DigitsOnlyOfDigits(input);
      }
    }
    r
  }

  datatype CardDetails = CardDetails(cardName: string, cardNumber: string, expiry: string, cvv: string)

  /** The errors record; a present field carries the message shown under the input. */
  datatype FormErrors = FormErrors(cardName: Option<string>, cardNumber: Option<string>,
                                   expiry: Option<string>, cvv: Option<string>)

  /** `/^\d{2}\/\d{2}$/`. */
  predicate ExpiryFormatOk(s: string)
  {
    |s| == 5 && IsDigit(s[0]) && IsDigit(s[1]) && s[2] == '/' && IsDigit(s[3]) && IsDigit(s[4])
  }

  predicate NoErrors(e: FormErrors)
  {
    e.cardName.None? && e.cardNumber.None? && e.expiry.None? && e.cvv.None?
  }

  /** validate: four independent checks; the form is valid exactly when none of them fails. */
  function Validate(f: CardDetails): (r: (bool, FormErrors))
    ensures r.1.cardName.Some? <==> f.cardName == ""
    ensures r.1.cardNumber.Some? <==> |StripSpaces(f.cardNumber)| != 16
    ensures r.1.expiry.Some? <==> !ExpiryFormatOk(f.expiry)
    ensures r.1.cvv.Some? <==> |f.cvv| != 3
    ensures r.0 <==> NoErrors(r.1)
  {
    var errors := FormErrors(
      if f.cardName == "" then Some("Nom obligatoire") else None,
      if |StripSpaces(f.cardNumber)| != 16 then Some("16 chiffres requis") else None,
      if !ExpiryFormatOk(f.expiry) then Some("Format MM/YY requis") else None,
      if |f.cvv| != 3 then Some("3 chiffres requis") else None);
    (NoErrors(errors), errors)
  }

  /**
   * A form filled through the formatters passes validation exactly when a name was given and
   * 16 card digits, at least 4 expiry digits and 3 CVV digits were typed.
   */
  lemma {:induction false} FormattedFormValid(name: string, number: string, expiry: string, cvv: string)
    ensures Validate(CardDetails(name, FormatCardNumber(number), FormatExpiry(expiry), FilterCvv(cvv))).0
            <==> name != "" && |DigitsOnly(number)| == 16 && |DigitsOnly(expiry)| >= 4 && |DigitsOnly(cvv)| == 3
  {
    FormattedNumberKeepsDigits(number);
    var v := DigitsOnly(expiry);
    var r := FormatExpiry(expiry);
    if |v| >= 4 {
      assert |r| == 5;
    } else if |v| > 2 {
      assert |r| < 5;
    }
  }
}
