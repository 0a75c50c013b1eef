/**
 * Conversions between integer cents and the Brazilian "1234,56" text form of an
 * amount. Amounts are exact here: the text form is what `toFixed(2)` prints for
 * moderate magnitudes, and the parse reads the decimal exactly before rounding.
 */
module AccountsUtils {
  import opened Wrappers
  import opened Js

  /** The two digits of `n % 100`, zero-padded. */
  function TwoDigits(n: nat): (r: string)
    ensures |r| == 2 && AllDigits(r)
    ensures DigitsValue(r) == n % 100
  {
    var r := [DigitChar((n % 100) / 10), DigitChar(n % 10)];
    assert r[..1] == [r[0]] && [r[0]][..0] == [];
    assert DigitsValue(r[..1]) == (n % 100) / 10;
    assert DigitsValue(r) == (n % 100) / 10 * 10 + n % 10;
    r
  }

  function Abs(c: int): nat {
    if c < 0 then -c else c
  }

  /** `centsToCurrency(c)`: `(c / 100).toFixed(2)` with its '.' turned into ','. */
  function CentsToCurrency(c: int): (r: string)
    ensures r == (if c < 0 then "-" else "") + NatToString(Abs(c) / 100) + "," + TwoDigits(Abs(c))
    ensures '.' !in r
  {
    (if c < 0 then "-" else "") + NatToString(Abs(c) / 100) + "," + TwoDigits(Abs(c))
  }

  /** `formatCurrency(c)`. */
  function FormatCurrency(c: int): (r: string)
    ensures r == "R$ " + CentsToCurrency(c)
  {
    "R$ " + CentsToCurrency(c)
  }

  /** The characters `/[^\d.-]/g` does not remove. */
  predicate IsNumericChar(c: char) {
    IsDigit(c) || c == '.' || c == '-'
  }

  /** `s.replace(/[^\d.-]/g, '')`. */
  function KeepNumeric(s: string): (r: string)
    ensures |r| <= |s|
    ensures forall i :: 0 <= i < |r| ==> IsNumericChar(r[i])
    ensures (forall i :: 0 <= i < |s| ==> IsNumericChar(s[i])) ==> r == s
  {
    if s == [] then []
    else if IsNumericChar(s[0]) then [s[0]] + KeepNumeric(s[1..])
    else KeepNumeric(s[1..])
  }

  /** `KeepNumeric` drops only the other characters: every digit, '.' and '-' of `s` is kept,
      as often as it occurs there, and in the same order. */
  lemma {:induction false} KeepNumericKeepsEveryNumericChar(s: string)
    ensures forall c :: IsNumericChar(c) ==> multiset(KeepNumeric(s))[c] == multiset(s)[c]
    ensures IsSubsequence(KeepNumeric(s), s)
  {
    if s != [] {
      KeepNumericKeepsEveryNumericChar(s[1..]);
      assert s == [s[0]] + s[1..];
      var r := KeepNumeric(s);
      if !IsNumericChar(s[0]) && r != [] {
        assert IsNumericChar(r[0]);
      }
    }
  }

  /** The cleaned text `currencyToCents` hands to `parseFloat`. */
  function CleanedAmount(value: string): (r: string)
    ensures r != []
    ensures forall i :: 0 <= i < |r| ==> IsNumericChar(r[i])
  {
    var numeric := KeepNumeric(ReplaceFirst(value, ',', '.'));
    if numeric == [] then "0" else numeric
  }

  /** `Math.round(x)` for `x = num / den`, `den > 0`: the nearest integer, halves rounded up. */
  function RoundHalfUp(num: int, den: nat): int
    requires den > 0
  {
    (2 * num + den) / (2 * den)
  }

  /** `Math.round(parseFloat(text) * 100)` for a decimal reading. */
  function DecimalCents(d: FloatReading): int
    requires d.Decimal? && AllDigits(d.intDigits) && AllDigits(d.fracDigits)
  {
    var magnitude := DigitsValue(d.intDigits + d.fracDigits) * 100;
    RoundHalfUp(if d.negative then -magnitude else magnitude, Pow10(|d.fracDigits|))
  }

  /** `currencyToCents(value)`; `None` is NaN. */
  function CurrencyToCents(value: string): (r: Option<int>)
    ensures r.None? <==> !ParseFloat(CleanedAmount(value)).Decimal?
    ensures r.Some? ==> r.value == DecimalCents(ParseFloat(CleanedAmount(value)))
  {
    var d := ParseFloat(CleanedAmount(value));
    if d.Decimal? then Some(DecimalCents(d)) else None
  }

  /** The cleaned text never spells `Infinity`, so the parse is a decimal or NaN. */
  lemma CleanedNeverInfinite(value: string)
    ensures !ParseFloat(CleanedAmount(value)).Infinity?
  {
    var c := CleanedAmount(value);
    var t := TrimStart(c);
    var u := SignStripped(t);
    assert t == c[|c| - |t|..];
    if u != [] {
      var k := |c| - |u|;
      assert u == c[k..];
      assert IsNumericChar(c[k]);
      assert u[0] != "Infinity"[0];
    }
  }

  /** A digit string alone parses as that whole number. */
  lemma {:induction false} ParseDigitsText(ip: string)
    requires AllDigits(ip) && ip != []
    ensures ParseFloat(ip) == Decimal(false, ip, [])
  {
    DigitNotWhiteSpace(ip[0]);
    assert TrimStart(ip) == ip;
    assert SignStripped(ip) == ip;
    DigitPrefixOfDigitsThen(ip, []);
    assert ip + [] == ip;
  }

  /** An empty or letters-only value reads as zero cents. */
  lemma NoNumberIsZero(value: string)
    requires KeepNumeric(ReplaceFirst(value, ',', '.')) == []
    ensures CurrencyToCents(value) == Some(0)
  {
    assert CleanedAmount(value) == "0";
    ParseDigitsText("0");
    assert DigitsValue("0") == 0 by {
      assert "0"[..0] == [];
    }
  }

  /** Digits, then '.', then more digits parse as the decimal they spell. */
  lemma {:induction false} ParseDecimalText(ip: string, fp: string)
    requires AllDigits(ip) && AllDigits(fp) && ip != []
    ensures ParseFloat(ip + "." + fp) == Decimal(false, ip, fp)
  {
    var s := ip + "." + fp;
    DigitNotWhiteSpace(s[0]);
    assert TrimStart(s) == s;
    assert SignStripped(s) == s;
    assert s == ip + ("." + fp);
    DigitPrefixOfDigitsThen(ip, "." + fp);
    assert s[|ip|..] == "." + fp;
    assert ("." + fp)[1..] == fp;
    DigitPrefixOfDigitsThen(fp, []);
    assert fp + [] == fp;
  }

  /** The same with a leading '-'. */
  lemma {:induction false} ParseNegativeDecimalText(ip: string, fp: string)
    requires AllDigits(ip) && AllDigits(fp) && ip != []
    ensures ParseFloat("-" + ip + "." + fp) == Decimal(true, ip, fp)
  {
    var u := ip + "." + fp;
    assert "-" + ip + "." + fp == "-" + u;
    ParseDecimalText(ip, fp);
    ParseFloatNegated(u);
  }

  /** The text of a positive amount starts and ends with a digit, so `trim` keeps it whole. */
  lemma PositiveCurrencyTrimmed(c: int)
    requires c > 0
    ensures Trim(CentsToCurrency(c)) == CentsToCurrency(c)
  {
    var t := CentsToCurrency(c);
    var q := NatToString(Abs(c) / 100);
    var r := TwoDigits(Abs(c));
    assert t == q + "," + r;
    assert t[0] == q[0] && t[|t| - 1] == r[1];
    DigitNotWhiteSpace(q[0]);
    DigitNotWhiteSpace(r[1]);
    TrimOfNonBlankEnds(t);
  }

  /** The text of an amount, cleaned for `parseFloat`: the ',' has become '.'. */
  lemma CentsTextCleaned(c: int)
    ensures CleanedAmount(CentsToCurrency(c)) ==
      (if c < 0 then "-" else "") + NatToString(Abs(c) / 100) + "." + TwoDigits(Abs(c))
  {
    var q := NatToString(Abs(c) / 100);
    var f := TwoDigits(Abs(c));
    var sign: string := if c < 0 then "-" else "";
    assert forall i :: 0 <= i < |sign + q| ==> (sign + q)[i] != ',';
    ReplaceFirstAfter(sign + q, f);
    var replaced := sign + q + "." + f;
    assert forall i :: 0 <= i < |replaced| ==> IsNumericChar(replaced[i]);
  }

  /** The exact rounding step of the round trip. */
  lemma DecimalCentsOfAmount(c: int)
    ensures DecimalCents(Decimal(c < 0, NatToString(Abs(c) / 100), TwoDigits(Abs(c)))) == c
  {
    var q := NatToString(Abs(c) / 100);
    var f := TwoDigits(Abs(c));
    DigitsValueAppend(q, f);
    DigitsValueOfNatToString(Abs(c) / 100);
    assert DigitsValue(q + f) == Abs(c) / 100 * 100 + Abs(c) % 100;
    assert Pow10(2) == 100;
    var num := if c < 0 then -(Abs(c) * 100) else Abs(c) * 100;
    assert num == 100 * c;
    assert (200 * c + 100) / 200 == c;
  }

  /** Reading back the text of an amount gives the amount: `currencyToCents` undoes
      `centsToCurrency` for every integer number of cents. */
  lemma CurrencyRoundTrip(c: int)
    ensures CurrencyToCents(CentsToCurrency(c)) == Some(c)
  {
    var q := NatToString(Abs(c) / 100);
    var f := TwoDigits(Abs(c));
    CentsTextCleaned(c);
    if c < 0 {
      ParseNegativeDecimalText(q, f);
    } else {
      assert "" + q + "." + f == q + "." + f;
      ParseDecimalText(q, f);
    }
    DecimalCentsOfAmount(c);
  }

  /** Replacing the first ',' when the only ',' follows a comma-free prefix. */
  lemma {:induction false} ReplaceFirstAfter(p: string, f: string)
    requires ',' !in p
    ensures ReplaceFirst(p + "," + f, ',', '.') == p + "." + f
    decreases |p|
  {
    if p == [] {
      assert p + "," + f == [','] + f;
    } else {
      assert (p + "," + f)[1..] == p[1..] + "," + f;
      ReplaceFirstAfter(p[1..], f);
      assert p + "." + f == [p[0]] + (p[1..] + "." + f);
    }
  }

  /** Digits, ',' and two digits: no surrounding blanks, and the ',' is the first one. */
  lemma UnsignedTextShape(q: string, f: string)
    requires AllDigits(q) && q != [] && AllDigits(f) && |f| == 2
    ensures Trim(q + "," + f) == q + "," + f
    ensures ReplaceFirst(q + "," + f, ',', '.') == q + "." + f
  {
    var text := q + "," + f;
    assert text[|text| - 1] == f[1];
    assert text[0] == q[0];
    DigitNotWhiteSpace(f[1]);
    DigitNotWhiteSpace(q[0]);
    TrimOfNonBlankEnds(text);
    assert forall i :: 0 <= i < |q| ==> q[i] != ',';
    ReplaceFirstAfter(q, f);
  }

  /** The same with a leading '-'. */
  lemma SignedTextShape(q: string, f: string)
    requires AllDigits(q) && q != [] && AllDigits(f) && |f| == 2
    ensures Trim("-" + q + "," + f) == "-" + q + "," + f
    ensures ReplaceFirst("-" + q + "," + f, ',', '.') == "-" + q + "." + f
  {
    var text := "-" + q + "," + f;
    assert text[|text| - 1] == f[1];
    DigitNotWhiteSpace(f[1]);
    TrimOfNonBlankEnds(text);
    assert forall i :: 0 <= i < |"-" + q| ==> ("-" + q)[i] != ',';
    ReplaceFirstAfter("-" + q, f);
  }

  /** For text with no surrounding blanks the amount check is the check on what
      `parseFloat` reads once the first ',' has become '.'. */
  lemma AmountCheckOfReading(text: string, u: string, d: FloatReading)
    requires Trim(text) == text && text != []
    requires ReplaceFirst(text, ',', '.') == u && ParseFloat(u) == d
    ensures BlankOrNonNegativeAmount(Some(text)) == NonNegativeNumber(d)
  {
  }

  /** Text that reads as an unsigned decimal passes the amount check. */
  lemma UnsignedReadingAccepted(text: string, u: string, q: string, f: string)
    requires Trim(text) == text && text != []
    requires ReplaceFirst(text, ',', '.') == u && ParseFloat(u) == Decimal(false, q, f)
    ensures BlankOrNonNegativeAmount(Some(text))
  {
  }

  /** The unsigned text of an amount passes the amount fields' check. */
  lemma UnsignedAmountTextAccepted(q: string, f: string)
    requires AllDigits(q) && q != [] && AllDigits(f) && |f| == 2
    ensures BlankOrNonNegativeAmount(Some(q + "," + f))
  {
    UnsignedTextShape(q, f);
    ParseDecimalText(q, f);
    UnsignedReadingAccepted(q + "," + f, q + "." + f, q, f);
  }

  /** The signed text of an amount with a non-zero digit fails the amount fields' check. */
  lemma SignedAmountTextRejected(q: string, f: string)
    requires AllDigits(q) && q != [] && AllDigits(f) && |f| == 2
    requires exists i :: 0 <= i < |q + f| && (q + f)[i] != '0'
    ensures !BlankOrNonNegativeAmount(Some("-" + q + "," + f))
  {
    SignedTextShape(q, f);
    ParseNegativeDecimalText(q, f);
    AmountCheckOfReading("-" + q + "," + f, "-" + q + "." + f, Decimal(true, q, f));
  }

  /** The text of an amount passes the amount fields' check exactly when the amount is not
      negative: a negative amount prints with a '-' that `parseFloat` reads back. */
  lemma AmountTextValidIff(c: int)
    ensures BlankOrNonNegativeAmount(Some(CentsToCurrency(c))) <==> c >= 0
  {
    var q := NatToString(Abs(c) / 100);
    var f := TwoDigits(Abs(c));
    if c < 0 {
      NegativeAmountDigits(c);
      SignedAmountTextRejected(q, f);
    } else {
      assert CentsToCurrency(c) == q + "," + f;
      UnsignedAmountTextAccepted(q, f);
    }
  }

  /** The digits of a negative amount are not all zeros. */
  lemma NegativeAmountDigits(c: int)
    requires c < 0
    ensures var ds := NatToString(Abs(c) / 100) + TwoDigits(Abs(c));
      exists i :: 0 <= i < |ds| && ds[i] != '0'
  {
    var ds := NatToString(Abs(c) / 100) + TwoDigits(Abs(c));
    DigitsValueAppend(NatToString(Abs(c) / 100), TwoDigits(Abs(c)));
    DigitsValueOfNatToString(Abs(c) / 100);
    assert DigitsValue(ds) == Abs(c);
    if forall i :: 0 <= i < |ds| ==> ds[i] == '0' {
      AllZerosValue(ds);
      assert false;
    }
  }
}
