/**
 Exact amounts as text (lib/portfolio-history.ts, `historyCents`, `historyMoney`): writing a
 number of cents and reading it back loses nothing.
 */
module HistoryMoney {
  import opened Common

  predicate IsDigit(c: char) { '0' <= c <= '9' }

  function DigitValue(c: char): nat
    requires IsDigit(c)
  {
    c as nat - '0' as nat
  }

  predicate AllDigits(s: string) { forall c :: c in s ==> IsDigit(c) }

  /** The number a run of digits denotes. */
  function Number(s: string): nat
    requires AllDigits(s)
  {
    if |s| == 0 then 0 else Number(s[..|s| - 1]) * 10 + DigitValue(s[|s| - 1])
  }

  function DigitChar(d: nat): char
    requires d < 10
  {
    ('0' as nat + d) as char
  }

  /** Decimal digits without leading zeros. */
  function Digits(n: nat): (s: string)
    ensures |s| > 0 && AllDigits(s)
  {
    if n < 10 then [DigitChar(n)] else Digits(n / 10) + [DigitChar(n % 10)]
  }

  lemma {:induction false} NumberOfDigits(n: nat)
    ensures Number(Digits(n)) == n
  {
    if n >= 10 {
      NumberOfDigits(n / 10);
      var front := Digits(n / 10);
      assert (front + [DigitChar(n % 10)])[..|front|] == front;
    } else {
      assert [DigitChar(n)][..0] == [];
    }
  }

  function TwoDigits(n: nat): (s: string)
    requires n < 100
    ensures |s| == 2 && AllDigits(s)
  {
    [DigitChar(n / 10), DigitChar(n % 10)]
  }

  lemma NumberOfTwo(n: nat)
    requires n < 100
    ensures Number(TwoDigits(n)) == n
  {
    var s := TwoDigits(n);
    var tens := [DigitChar(n / 10)];
    assert tens[..0] == [];
    assert Number(tens) == n / 10;
    assert s[..1] == tens;
  }

  function Unsigned(n: nat): string { Digits(n / 100) + "." + TwoDigits(n % 100) }

  /** `historyMoney`. */
  function Money(cents: int): string { if cents < 0 then "-" + Unsigned(-cents) else Unsigned(cents) }

  /** The position of the first decimal point, or the length. */
  function Point(s: string): (k: nat)
    ensures k <= |s| && (k < |s| ==> s[k] == '.') && forall i :: 0 <= i < k ==> s[i] != '.'
  {
    if |s| == 0 || s[0] == '.' then 0 else 1 + Point(s[1..])
  }

  /** Digits, optionally a point and one or two digits; the fraction is padded to cents. */
  function UnsignedCents(s: string): Option<nat> {
    var k := Point(s);
    var whole := s[..k];
    if |whole| == 0 || !AllDigits(whole) then None
    else if k == |s| then Some(Number(whole) * 100)
    else
      var fraction := s[k + 1..];
      if !AllDigits(fraction) || |fraction| == 0 || |fraction| > 2 then None
      else Some(Number(whole) * 100 + (if |fraction| == 1 then Number(fraction) * 10 else Number(fraction)))
  }

  /** `historyCents`; text in any other form is an error. */
  function Cents(s: string): Option<int> {
    var negative := |s| > 0 && s[0] == '-';
    var body := UnsignedCents(if negative then s[1..] else s);
    if body.None? then None else Some(if negative then 0 - body.value as int else body.value)
  }

  lemma UnsignedRoundTrip(n: nat)
    ensures UnsignedCents(Unsigned(n)) == Some(n) && Unsigned(n)[0] != '-'
  {
    var whole, fraction := Digits(n / 100), TwoDigits(n % 100);
    var s := Unsigned(n);
    assert s == whole + ['.'] + fraction;
    assert forall i :: 0 <= i < |whole| ==> s[i] == whole[i] && whole[i] in whole;
    assert s[|whole|] == '.';
    assert Point(s) == |whole|;
    assert s[..|whole|] == whole && s[|whole| + 1..] == fraction;
    NumberOfDigits(n / 100);
    NumberOfTwo(n % 100);
  }

  /** Every amount survives being written and read. */
  lemma MoneyRoundTrip(cents: int)
    ensures Cents(Money(cents)) == Some(cents)
  {
    hide UnsignedCents, Unsigned;
    UnsignedRoundTrip(if cents < 0 then -cents else cents);
    if cents < 0 { assert Money(cents)[1..] == Unsigned(-cents); }
  }

  // --- The form of an amount ----------------------------------------------------------------------

  /** An optional sign, digits, and optionally a point with one or two digits. */
  ghost predicate HasForm(s: string, negative: bool, whole: string, fraction: string) {
    && |whole| > 0 && AllDigits(whole) && |fraction| <= 2 && AllDigits(fraction)
    && s == (if negative then "-" else "") + whole + (if fraction == "" then "" else "." + fraction)
  }

  /** The cents it denotes: one digit after the point is tens of cents. */
  function Denotes(negative: bool, whole: string, fraction: string): int
    requires AllDigits(whole) && AllDigits(fraction) && |fraction| <= 2
  {
    var cents := 100 * Number(whole) + (if |fraction| == 1 then 10 * Number(fraction) else Number(fraction));
    if negative then -cents else cents
  }

  lemma PointIs(whole: string, rest: string)
    requires AllDigits(whole) && (rest == "" || rest[0] == '.')
    ensures Point(whole + rest) == |whole|
  {
    var s := whole + rest;
    forall i | 0 <= i < |whole| ensures s[i] != '.' {
      assert s[i] == whole[i] && whole[i] in whole && IsDigit(whole[i]);
    }
    if rest != "" { assert s[|whole|] == '.'; }
  }

  lemma UnsignedForm(whole: string, fraction: string)
    requires |whole| > 0 && AllDigits(whole) && |fraction| <= 2 && AllDigits(fraction)
    ensures UnsignedCents(whole + (if fraction == "" then "" else "." + fraction)) ==
            Some(Denotes(false, whole, fraction))
  {
    var rest := if fraction == "" then "" else "." + fraction;
    var s := whole + rest;
    PointIs(whole, rest);
    assert s[..|whole|] == whole;
    if fraction != "" { assert s[|whole| + 1..] == fraction; }
  }

  /** Text of that form is read as the cents it denotes. */
  lemma FormIsRead(s: string, negative: bool, whole: string, fraction: string)
    requires HasForm(s, negative, whole, fraction)
    ensures Cents(s) == Some(Denotes(negative, whole, fraction))
  {
    UnsignedForm(whole, fraction);
    hide UnsignedCents, Number;
    var body := whole + (if fraction == "" then "" else "." + fraction);
    if negative {
      assert s == "-" + body && s[1..] == body;
    } else {
      assert s == body && s[0] == whole[0] && whole[0] in whole && IsDigit(whole[0]);
    }
  }

  /** Text of any other form is refused. */
  lemma OnlyFormIsRead(s: string)
    ensures Cents(s).Some? <==> exists negative, whole, fraction :: HasForm(s, negative, whole, fraction)
  {
    hide *;
    if Cents(s).Some? { var negative, whole, fraction := ReadHasForm(s); }
    if negative, whole, fraction :| HasForm(s, negative, whole, fraction) { FormIsRead(s, negative, whole, fraction); }
  }

  lemma ReadHasForm(s: string) returns (negative: bool, whole: string, fraction: string)
    requires Cents(s).Some?
    ensures HasForm(s, negative, whole, fraction)
  {
    negative := |s| > 0 && s[0] == '-';
    whole, fraction := UnsignedParts(if negative then s[1..] else s);
    hide UnsignedCents, AllDigits, Cents;
    JoinSign(s, negative, whole, if fraction == "" then "" else "." + fraction);
  }

  lemma JoinSign(s: string, negative: bool, whole: string, rest: string)
    requires negative ==> |s| > 0 && s[0] == '-'
    requires (if negative then s[1..] else s) == whole + rest
    ensures s == (if negative then "-" else "") + whole + rest
  {
    if negative {
      assert s == [s[0]] + s[1..];
      assert "-" + (whole + rest) == "-" + whole + rest;
    } else {
      assert "" + whole == whole;
    }
  }

  lemma UnsignedParts(s: string) returns (whole: string, fraction: string)
    requires UnsignedCents(s).Some?
    ensures |whole| > 0 && AllDigits(whole) && |fraction| <= 2 && AllDigits(fraction)
    ensures s == whole + (if fraction == "" then "" else "." + fraction)
  {
    hide Number;
    var k := Point(s);
    whole, fraction := s[..k], if k == |s| then "" else s[k + 1..];
    assert k < |s| ==> s == s[..k] + [s[k]] + s[k + 1..];
  }

  /** Written amounts have that form, with both digits, no needless zero, and a sign only below zero. */
  lemma MoneyHasForm(cents: int)
    ensures exists whole, fraction ::
              HasForm(Money(cents), cents < 0, whole, fraction) && |fraction| == 2 && (|whole| > 1 ==> whole[0] != '0')
  {
    var n: nat := if cents < 0 then -cents else cents;
    var whole, fraction := Digits(n / 100), TwoDigits(n % 100);
    NoLeadingZero(n / 100);
    assert HasForm(Money(cents), cents < 0, whole, fraction);
  }

  lemma {:induction false} NoLeadingZero(n: nat)
    ensures n > 0 ==> Digits(n)[0] != '0'
    ensures |Digits(n)| > 1 ==> Digits(n)[0] != '0'
  {
    if n >= 10 {
      NoLeadingZero(n / 10);
      assert Digits(n)[0] == Digits(n / 10)[0];
    }
  }
}
