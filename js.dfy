/**
 * The pieces of JavaScript's built-in string and number behaviour that the
 * application code relies on: `trim`, truthiness of strings, `split` on one
 * character, `parseInt`, rendering of integers, `padStart`, and the character
 * classes the regular expressions `\d` and `\D` use.
 *
 * Strings are sequences of `char`; a JavaScript length counts UTF-16 code units,
 * which agrees with `|s|` for every character outside the astral planes.
 */
module Js {
  import opened Wrappers

  // ---------------------------------------------------------------- whitespace

  /** The WhiteSpace and LineTerminator code points of ECMA-262 (sections 12.2 and 12.3),
      which `String.prototype.trim` strips and `parseInt` skips. */
  predicate IsWhiteSpace(c: char) {
    || c == '\t' || c == '\n' || c == '\U{000B}' || c == '\U{000C}' || c == '\r' || c == ' '
    || c == '\U{00A0}' || c == '\U{1680}' || ('\U{2000}' <= c <= '\U{200A}')
    || c == '\U{2028}' || c == '\U{2029}' || c == '\U{202F}' || c == '\U{205F}'
    || c == '\U{3000}' || c == '\U{FEFF}'
  }

  predicate AllWhiteSpace(s: string) {
    forall i :: 0 <= i < |s| ==> IsWhiteSpace(s[i])
  }

  /** `s.trimStart()`: drops the leading whitespace and nothing else. */
  function TrimStart(s: string): (r: string)
    ensures |r| <= |s| && r == s[|s| - |r|..]
    ensures r == [] || !IsWhiteSpace(r[0])
    ensures AllWhiteSpace(s[..|s| - |r|])
  {
    if s != [] && IsWhiteSpace(s[0]) then TrimStart(s[1..]) else s
  }

  /** `s.trimEnd()`: drops the trailing whitespace and nothing else. */
  function TrimEnd(s: string): (r: string)
    ensures |r| <= |s| && r == s[..|r|]
    ensures r == [] || !IsWhiteSpace(r[|r| - 1])
    ensures AllWhiteSpace(s[|r|..])
  {
    if s != [] && IsWhiteSpace(s[|s| - 1]) then TrimEnd(s[..|s| - 1]) else s
  }

  /** `s.trim()`: `trimStart` then `trimEnd`, so what it removes is whitespace at either end. */
  function Trim(s: string): (r: string)
  {
    TrimEnd(TrimStart(s))
  }

  /** A prefix `r` of `t` that does not end in a blank, where `t` does not start with one,
      has non-blank ends. */
  lemma {:induction false} NonBlankEnds(t: string, r: string)
    requires |r| <= |t| && r == t[..|r|]
    requires t == [] || !IsWhiteSpace(t[0])
    requires r == [] || !IsWhiteSpace(r[|r| - 1])
    ensures r == [] || (!IsWhiteSpace(r[0]) && !IsWhiteSpace(r[|r| - 1]))
  {
    if r != [] {
      assert r[0] == t[0];
    }
  }

  /** `s.trim()` starts and ends with a non-blank character. */
  lemma {:induction false} TrimEndsNonBlank(s: string)
    ensures Trim(s) == [] || (!IsWhiteSpace(Trim(s)[0]) && !IsWhiteSpace(Trim(s)[|Trim(s)| - 1]))
  {
    var t := TrimStart(s);
    assert Trim(s) == TrimEnd(t);
    NonBlankEnds(t, TrimEnd(t));
  }

  /** `s.trim() === ''` exactly when every character of `s` is whitespace. */
  lemma {:induction false} BlankIffAllWhiteSpace(s: string)
    ensures Trim(s) == [] <==> AllWhiteSpace(s)
  {
    var t := TrimStart(s);
    if t == [] {
      assert s[..|s|] == s;
    } else {
      assert !IsWhiteSpace(s[|s| - |t|]);
    }
  }

  /** The truthiness of an optional string: present and not empty. */
  predicate Truthy(o: Option<string>) {
    o.Some? && o.value != []
  }

  /** `!val || val.trim() === ''`: absent, empty or all whitespace. */
  predicate IsBlank(o: Option<string>) {
    o.None? || Trim(o.value) == []
  }

  /** `a || b` on optional strings. */
  function Or(a: Option<string>, b: Option<string>): (r: Option<string>)
    ensures Truthy(a) ==> r == a
    ensures !Truthy(a) ==> r == b
  {
    if Truthy(a) then a else b
  }

  // ---------------------------------------------------------------- digits

  /** `\d` in a regular expression without the `u` flag. */
  predicate IsDigit(c: char) {
    '0' <= c <= '9'
  }

  predicate AllDigits(s: string) {
    forall i :: 0 <= i < |s| ==> IsDigit(s[i])
  }

  function DigitValue(c: char): nat
    requires IsDigit(c)
  {
    (c as int) - ('0' as int)
  }

  function DigitChar(d: nat): (c: char)
    requires d < 10
    ensures IsDigit(c) && DigitValue(c) == d
  {
    ((d + '0' as int) as char)
  }

  /** The decimal value of a string of digits. */
  function DigitsValue(ds: string): nat
    requires AllDigits(ds)
  {
    if ds == [] then 0 else DigitsValue(ds[..|ds| - 1]) * 10 + DigitValue(ds[|ds| - 1])
  }

  /** The longest prefix of `s` made of digits. */
  function DigitPrefix(s: string): (r: string)
    ensures r <= s && AllDigits(r)
    ensures |r| < |s| ==> !IsDigit(s[|r|])
  {
    if s != [] && IsDigit(s[0]) then [s[0]] + DigitPrefix(s[1..]) else []
  }

  /** `r` can be obtained from `s` by deleting characters: the characters of `r` occur in `s`
      in the same order. */
  predicate IsSubsequence(r: string, s: string)
    decreases |s|
  {
    r == [] || (s != [] && if r[0] == s[0] then IsSubsequence(r[1..], s[1..]) else IsSubsequence(r, s[1..]))
  }

  /** `s.replace(/\D/g, '')`: the digits of `s`, in order. */
  function KeepDigits(s: string): (r: string)
    ensures AllDigits(r) && |r| <= |s|
    ensures AllDigits(s) ==> r == s
  {
    if s == [] then []
    else if IsDigit(s[0]) then [s[0]] + KeepDigits(s[1..])
    else KeepDigits(s[1..])
  }

  /** `KeepDigits` drops only non-digits: every digit of `s` is kept, as often as it occurs
      there, and in the same order. */
  lemma {:induction false} KeepDigitsKeepsEveryDigit(s: string)
    ensures forall c :: IsDigit(c) ==> multiset(KeepDigits(s))[c] == multiset(s)[c]
    ensures IsSubsequence(KeepDigits(s), s)
  {
    if s != [] {
      KeepDigitsKeepsEveryDigit(s[1..]);
      assert s == [s[0]] + s[1..];
      var r := KeepDigits(s);
      if !IsDigit(s[0]) && r != [] {
        assert IsDigit(r[0]);
      }
    }
  }

  /** The decimal rendering of a natural number, as `String(n)` gives it (no leading zeros). */
  function NatToString(n: nat): (r: string)
    ensures AllDigits(r) && r != []
    ensures r[0] == '0' ==> n == 0
  {
    if n < 10 then [DigitChar(n)] else NatToString(n / 10) + [DigitChar(n % 10)]
  }

  /** `String(i)` for an integer `i`. */
  function IntToString(i: int): (r: string)
    ensures i < 0 ==> r == "-" + NatToString(-i)
    ensures i >= 0 ==> r == NatToString(i)
  {
    if i < 0 then "-" + NatToString(-i) else NatToString(i)
  }

  lemma {:induction false} DigitsValueOfNatToString(n: nat)
    ensures DigitsValue(NatToString(n)) == n
  {
    if n >= 10 {
      var s := NatToString(n / 10) + [DigitChar(n % 10)];
      assert s[..|s| - 1] == NatToString(n / 10);
      DigitsValueOfNatToString(n / 10);
    }
  }

  lemma {:induction false} DigitsValueAppend(a: string, b: string)
    requires AllDigits(a) && AllDigits(b)
    ensures AllDigits(a + b)
    ensures DigitsValue(a + b) == DigitsValue(a) * Pow10(|b|) + DigitsValue(b)
    decreases |b|
  {
    if b != [] {
      var ab := a + b;
      var b' := b[..|b| - 1];
      assert ab[..|ab| - 1] == a + b';
      assert ab[|ab| - 1] == b[|b| - 1];
      DigitsValueAppend(a, b');
      ShiftDigit(DigitsValue(a), Pow10(|b'|), DigitsValue(b'), DigitValue(b[|b| - 1]));
    } else {
      assert a + b == a;
    }
  }

  /** Appending one digit to `x * p + y` multiplies by ten and adds the digit. */
  lemma ShiftDigit(x: int, p: int, y: int, d: int)
    ensures (x * p + y) * 10 + d == x * (10 * p) + (y * 10 + d)
  {
  }

  function Pow10(k: nat): (r: nat)
    ensures r >= 1
  {
    if k == 0 then 1 else 10 * Pow10(k - 1)
  }

  /** The digit prefix of a digit string followed by a non-digit is that digit string. */
  lemma {:induction false} DigitPrefixOfDigitsThen(ds: string, rest: string)
    requires AllDigits(ds)
    requires rest == [] || !IsDigit(rest[0])
    ensures DigitPrefix(ds + rest) == ds
  {
    if ds != [] {
      assert (ds + rest)[1..] == ds[1..] + rest;
      DigitPrefixOfDigitsThen(ds[1..], rest);
    }
  }

  // ---------------------------------------------------------------- parseInt

  /** `parseInt(s, 10)`: skips leading whitespace, reads an optional sign and the
      longest run of digits; NaN (here `None`) when there is no digit. For a string of
      digits only, `parseInt(s)` without a radix reads it the same way. */
  function ParseInt(s: string): (r: Option<int>)
    ensures r.None? <==> DigitPrefix(SignStripped(TrimStart(s))) == []
  {
    var t := TrimStart(s);
    var ds := DigitPrefix(SignStripped(t));
    var v: int := if ds == [] then 0 else DigitsValue(ds);
    if ds == [] then None
    else if t[0] == '-' then Some(-v)
    else Some(v)
  }

  /** The string after one leading `+` or `-`. */
  function SignStripped(t: string): (u: string)
    ensures u == t || (t != [] && (t[0] == '+' || t[0] == '-') && u == t[1..])
  {
    if t != [] && (t[0] == '+' || t[0] == '-') then t[1..] else t
  }

  lemma DigitNotWhiteSpace(c: char)
    requires IsDigit(c)
    ensures !IsWhiteSpace(c) && c != '+' && c != '-'
  {
  }

  /** Reading back a rendered natural number gives the number. */
  lemma ParseIntOfNatToString(n: nat)
    ensures ParseInt(NatToString(n)) == Some(n)
  {
    var s := NatToString(n);
    DigitNotWhiteSpace(s[0]);
    assert TrimStart(s) == s;
    assert SignStripped(s) == s;
    DigitPrefixOfDigitsThen(s, []);
    assert s + [] == s;
    DigitsValueOfNatToString(n);
  }

  // ---------------------------------------------------------------- split

  /** The number of occurrences of `c` in `s`. */
  function Count(s: string, c: char): nat
  {
    if s == [] then 0 else (if s[0] == c then 1 else 0) + Count(s[1..], c)
  }

  /** `s.split(sep)` for a one-character separator: the pieces between separators, in order. */
  function Split(s: string, sep: char): (parts: seq<string>)
    ensures |parts| == Count(s, sep) + 1
    ensures forall i :: 0 <= i < |parts| ==> sep !in parts[i]
  {
    if s == [] then [[]]
    else
      var rest := Split(s[1..], sep);
      if s[0] == sep then [[]] + rest else [[s[0]] + rest[0]] + rest[1..]
  }

  /** `parts.join(sep)`. */
  function Join(parts: seq<string>, sep: char): string
  {
    if parts == [] then []
    else if |parts| == 1 then parts[0]
    else parts[0] + [sep] + Join(parts[1..], sep)
  }

  /** Splitting and joining again gives back the original string. */
  lemma {:induction false} JoinSplit(s: string, sep: char)
    ensures Join(Split(s, sep), sep) == s
  {
    if s != [] {
      var rest := Split(s[1..], sep);
      JoinSplit(s[1..], sep);
      if s[0] == sep {
        assert Split(s, sep)[1..] == rest;
      } else {
        var parts := Split(s, sep);
        if |rest| == 1 {
          assert parts == [[s[0]] + rest[0]];
        } else {
          assert parts[1..] == rest[1..];
          assert Join(rest, sep) == rest[0] + [sep] + Join(rest[1..], sep);
        }
      }
    }
  }

  /** The text before the first occurrence of `sep` (all of `s` when there is none). */
  function Before(s: string, sep: char): (r: string)
    ensures r <= s && sep !in r
    ensures |r| < |s| ==> s[|r|] == sep
  {
    if s == [] || s[0] == sep then [] else [s[0]] + Before(s[1..], sep)
  }

  /** `s.split(sep)[0]` is the text before the first separator. */
  lemma {:induction false} SplitFirst(s: string, sep: char)
    ensures Split(s, sep)[0] == Before(s, sep)
  {
    if s != [] && s[0] != sep {
      SplitFirst(s[1..], sep);
    }
  }

  // ---------------------------------------------------------------- other string helpers

  /** `s.padStart(n, [c])`. */
  function PadStart(s: string, n: nat, c: char): (r: string)
    ensures |r| == if |s| >= n then |s| else n
    ensures r[|r| - |s|..] == s
    ensures forall i :: 0 <= i < |r| - |s| ==> r[i] == c
  {
    if |s| >= n then s else [c] + PadStart(s, n - 1, c)
  }

  /** `s.replace(a, b)` with a one-character pattern: only the first `a` is replaced. */
  function ReplaceFirst(s: string, a: char, b: char): (r: string)
    ensures |r| == |s|
    ensures a !in s ==> r == s
  {
    if s == [] then []
    else if s[0] == a then [b] + s[1..]
    else [s[0]] + ReplaceFirst(s[1..], a, b)
  }

  /** `c.toUpperCase()` on the ASCII letters; every other character is kept. */
  function ToUpperAscii(c: char): char
  {
    if 'a' <= c <= 'z' then (c as int - 32) as char else c
  }

  function UpperAscii(s: string): (r: string)
    ensures |r| == |s|
    ensures forall i :: 0 <= i < |s| ==> r[i] == ToUpperAscii(s[i])
  {
    if s == [] then [] else [ToUpperAscii(s[0])] + UpperAscii(s[1..])
  }

  /** A string that starts and ends with a non-blank character is its own trim. */
  lemma TrimOfNonBlankEnds(s: string)
    requires s != [] && !IsWhiteSpace(s[0]) && !IsWhiteSpace(s[|s| - 1])
    ensures TrimStart(s) == s && TrimEnd(s) == s && Trim(s) == s
  {
  }

  /** `s.trim()` is idempotent. */
  lemma TrimTwice(s: string)
    ensures Trim(Trim(s)) == Trim(s)
  {
    var t := TrimStart(s);
    var r := TrimEnd(t);
    assert r == [] || r[0] == t[0];
    assert TrimStart(r) == r;
  }

  // ---------------------------------------------------------------- parseFloat

  /** What `parseFloat` reads from the front of a string: nothing (NaN), an infinity, or a
      decimal with its sign, integer digits and fraction digits. The exponent part is not
      read: it changes neither whether the result is NaN nor its sign. */
  datatype FloatReading =
    | NotANumber
    | Infinity(negative: bool)
    | Decimal(negative: bool, intDigits: string, fracDigits: string)

  /** `parseFloat(s)`: skips leading whitespace, reads an optional sign, then the number. */
  function ParseFloat(s: string): (r: FloatReading)
    ensures r.Decimal? ==> AllDigits(r.intDigits) && AllDigits(r.fracDigits) && r.intDigits + r.fracDigits != []
    ensures r.Decimal? ==> r.intDigits == DigitPrefix(SignStripped(TrimStart(s)))
    ensures r.NotANumber? ==> DigitPrefix(SignStripped(TrimStart(s))) == []
    ensures r.Infinity? <==> "Infinity" <= SignStripped(TrimStart(s))
  {
    var t := TrimStart(s);
    ReadNumber(SignStripped(t), t != [] && t[0] == '-')
  }

  /** What `parseFloat` reads after the sign: `Infinity`, or the longest `digits[.digits]`
      prefix with at least one digit. */
  function ReadNumber(u: string, negative: bool): (r: FloatReading)
    ensures r.Infinity? <==> "Infinity" <= u
    ensures r.Decimal? ==> AllDigits(r.intDigits) && AllDigits(r.fracDigits) && r.intDigits + r.fracDigits != []
    ensures r.Decimal? ==> r.intDigits == DigitPrefix(u) && r.negative == negative
    ensures r.NotANumber? ==> DigitPrefix(u) == []
    ensures !r.NotANumber? ==> r.negative == negative
  {
    if "Infinity" <= u then Infinity(negative)
    else
      var ip := DigitPrefix(u);
      var rest := u[|ip|..];
      var fp := if rest != [] && rest[0] == '.' then DigitPrefix(rest[1..]) else [];
      if ip + fp == [] then NotANumber else Decimal(negative, ip, fp)
  }

  /** A leading '-' before a number only flips the sign of what `parseFloat` reads. */
  lemma ParseFloatNegated(u: string)
    requires u != [] && IsDigit(u[0])
    ensures ParseFloat(u).Decimal?
    ensures ParseFloat("-" + u) == ParseFloat(u).(negative := true)
  {
    var s := "-" + u;
    DigitNotWhiteSpace(u[0]);
    assert TrimStart(u) == u && SignStripped(u) == u;
    assert s[0] == '-' && s[1..] == u;
    assert TrimStart(s) == s;
    assert SignStripped(s) == u;
    assert ParseFloat(s) == ReadNumber(u, true);
    assert ParseFloat(u) == ReadNumber(u, false);
    assert DigitPrefix(u) != [];
  }

  /** `!isNaN(x) && x >= 0` on the reading: negative zero counts as non-negative. */
  predicate NonNegativeNumber(r: FloatReading) {
    match r
    case NotANumber => false
    case Infinity(negative) => !negative
    case Decimal(negative, ip, fp) => !negative || forall i :: 0 <= i < |ip + fp| ==> (ip + fp)[i] == '0'
  }

  /** The amount fields' check: blank, or a number `parseFloat` reads as non-negative once the
      first ',' of the trimmed value has become '.'. */
  predicate BlankOrNonNegativeAmount(v: Option<string>) {
    IsBlank(v) || NonNegativeNumber(ParseFloat(ReplaceFirst(Trim(v.value), ',', '.')))
  }

  /** A string of zeros reads as zero. */
  lemma {:induction false} AllZerosValue(ds: string)
    requires forall i :: 0 <= i < |ds| ==> ds[i] == '0'
    ensures AllDigits(ds) && DigitsValue(ds) == 0
    decreases |ds|
  {
    if ds != [] {
      AllZerosValue(ds[..|ds| - 1]);
    }
  }
}
