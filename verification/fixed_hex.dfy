/** The fixed-width hexadecimal codec of the framing protocols.

    `to_fixed_hex` prints with the format `%0*llX` and rejects a result of another
    length.  `from_fixed_hex` checks the length and reads with `std::stoull(s, &idx,
    16)`, which also skips white space and accepts a sign and an `0x` prefix
    (sections 7.21.6.1 and 7.22.1.4 of ISO/IEC 9899:2011).  The width is a
    compile-time option from 1 to 256.
 */
module FixedHex {
  import opened Wrappers

  /** `NETWORK_FIXED_HEX_SIZE` */
  type Width = w: nat | 1 <= w <= 256 witness 16

  const INT64_LIMIT: int := 0x8000_0000_0000_0000

  /** What `numeric::as_integer` returns. */
  type Integer = n: int | -0x8000_0000_0000_0000 <= n < 0x8000_0000_0000_0000

  const UINT64_LIMIT: int := 0x1_0000_0000_0000_0000

  function Pow16(n: nat): (p: nat)
    ensures p >= 1
  {
    if n == 0 then 1 else 16 * Pow16(n - 1)
  }

  // --- Digits -------------------------------------------------------------------------

  function DigitChar(d: nat): (c: char)
    requires d < 16
    ensures IsHex(c) && DigitValue(c) == d && UpperChar(c) == c
  {
    if d < 10 then '0' + d as char else 'A' + (d - 10) as char
  }

  /** The digits of both cases and their values. */
  lemma DigitTable(d: nat)
    requires d < 16
    ensures var (upper, lower) := ("0123456789ABCDEF"[d], "0123456789abcdef"[d]);
            && DigitChar(d) == upper && IsHex(upper) && IsHex(lower)
            && DigitValue(upper) == d && DigitValue(lower) == d && UpperChar(lower) == upper
  {
  }

  /** There are no other digits, and the white space is that of the C locale. */
  lemma CharacterTable(c: char)
    ensures IsHex(c) <==> exists d :: 0 <= d < 16 && ("0123456789ABCDEF"[d] == c || "0123456789abcdef"[d] == c)
    ensures IsSpace(c) <==> c == ' ' || 9 <= c as int <= 13
  {
    if IsHex(c) {
      var d := DigitValue(c);
      DigitTable(d);
      assert "0123456789ABCDEF"[d] == c || "0123456789abcdef"[d] == c;
    }
    forall d | 0 <= d < 16 ensures IsHex("0123456789ABCDEF"[d]) && IsHex("0123456789abcdef"[d]) {
      DigitTable(d);
    }
  }

  predicate IsHex(c: char) {
    '0' <= c <= '9' || 'A' <= c <= 'F' || 'a' <= c <= 'f'
  }

  function DigitValue(c: char): (d: nat)
    requires IsHex(c)
    ensures d < 16
  {
    if '0' <= c <= '9' then (c - '0') as nat
    else if 'A' <= c <= 'F' then (c - 'A') as nat + 10
    else (c - 'a') as nat + 10
  }

  function UpperChar(c: char): char {
    if 'a' <= c <= 'f' then 'A' + (c - 'a') else c
  }

  function Upper(s: string): (u: string)
    ensures |u| == |s|
  {
    seq(|s|, i requires 0 <= i < |s| => UpperChar(s[i]))
  }

  predicate AllHex(s: string) {
    forall i | 0 <= i < |s| :: IsHex(s[i])
  }

  /** The number that a string of digits denotes, most significant digit first. */
  function Value(s: string): (v: nat)
    requires AllHex(s)
  {
    if s == [] then 0 else 16 * Value(s[..|s| - 1]) + DigitValue(s[|s| - 1])
  }

  // --- Encoding -------------------------------------------------------------------------

  /** The digits of `%llX`: at least one, no leading zeros. */
  function Digits(v: nat): (s: string)
    ensures s != []
  {
    if v < 16 then [DigitChar(v)] else Digits(v / 16) + [DigitChar(v % 16)]
  }

  function Zeros(n: nat): (s: string)
    ensures |s| == n
  {
    seq(n, _ => '0')
  }

  /** `snprintf("%0*llX", w, v)` */
  function Printed(w: nat, v: nat): string {
    var d := Digits(v);
    if |d| < w then Zeros(w - |d|) + d else d
  }

  function ToFixedHex(w: Width, n: Integer): Option<string> {
    if n < 0 then None
    else
      var s := Printed(w, n);
      if |s| != w then None else Some(s)
  }

  // --- Decoding ---------------------------------------------------------------------------

  predicate IsSpace(c: char) {
    c == ' ' || c == '\t' || c == '\n' || c == '\r' || c == 11 as char || c == 12 as char
  }

  predicate AllSpace(s: string) {
    forall i | 0 <= i < |s| :: IsSpace(s[i])
  }

  function SkipSpace(s: string, i: nat): (j: nat)
    requires i <= |s|
    ensures i <= j <= |s| && AllSpace(s[i..j])
    ensures j < |s| ==> !IsSpace(s[j])
    decreases |s| - i
  {
    if i < |s| && IsSpace(s[i]) then SkipSpace(s, i + 1) else i
  }

  /** The end of the longest run of digits from `i`. */
  function SkipDigits(s: string, i: nat): (j: nat)
    requires i <= |s|
    ensures i <= j <= |s| && AllHex(s[i..j])
    ensures j < |s| ==> !IsHex(s[j])
    decreases |s| - i
  {
    if i < |s| && IsHex(s[i]) then
      var j := SkipDigits(s, i + 1);
      assert s[i..j] == [s[i]] + s[i + 1..j];
      j
    else i
  }

  function SkipSign(s: string, i: nat): (j: nat)
    requires i <= |s|
    ensures i <= j <= |s| && IsSign(s[i..j])
  {
    if i < |s| && (s[i] == '+' || s[i] == '-') then i + 1 else i
  }

  predicate IsSign(s: string) { s == "" || s == "+" || s == "-" }

  /** The value of a number behind a sign. */
  function Signed(sign: string, v: nat): nat
    requires v < UINT64_LIMIT
  {
    if sign == "-" && v != 0 then UINT64_LIMIT - v else v
  }

  function SkipPrefix(s: string, j: nat): (k: nat)
    requires j <= |s|
    ensures j <= k <= |s| && IsPrefix(s[j..k])
  {
    if j + 2 < |s| && s[j] == '0' && (s[j + 1] == 'x' || s[j + 1] == 'X') && IsHex(s[j + 2]) then
      assert s[j..j + 2] == [s[j], s[j + 1]];
      j + 2
    else j
  }

  predicate IsPrefix(s: string) { s == "" || s == "0x" || s == "0X" }

  /** A number and the position after it. */
  datatype Parsed = Parsed(value: nat, idx: nat)

  /** `std::stoull(s, &idx, 16)`: a sign before an unsigned number negates it modulo
      2^64; a number of 2^64 or more, or none at all, throws.  An `0x` that no digit
      follows is the number zero followed by an `x`. */
  function Stoull(s: string): Option<Parsed> {
    var i := SkipSpace(s, 0);
    var j := SkipSign(s, i);
    var k := SkipPrefix(s, j);
    var end := SkipDigits(s, k);
    if end == k then None
    else
      var v := Value(s[k..end]);
      if v >= UINT64_LIMIT then None else Some(Parsed(Signed(s[i..j], v), end))
  }

  function FromFixedHex(w: Width, s: string): Option<nat> {
    if |s| != w then None
    else
      match Stoull(s)
      case None => None
      case Some(p) => if p.idx != |s| then None else Some(p.value)
  }

  // --- Values of digit strings --------------------------------------------------------------

  lemma ValueAppend(s: string, c: char)
    requires AllHex(s) && IsHex(c)
    ensures AllHex(s + [c]) && Value(s + [c]) == 16 * Value(s) + DigitValue(c)
  {
    assert (s + [c])[..|s|] == s;
  }

  lemma {:induction false} ZerosValue(n: nat, s: string)
    requires AllHex(s)
    ensures AllHex(Zeros(n) + s) && Value(Zeros(n) + s) == Value(s)
    decreases n, |s|
  {
    if s != [] {
      var init, last := s[..|s| - 1], s[|s| - 1];
      ZerosValue(n, init);
      ValueAppend(Zeros(n) + init, last);
      assert Zeros(n) + s == (Zeros(n) + init) + [last];
    } else if n > 0 {
      ZerosValue(n - 1, []);
      assert Zeros(n) + [] == (Zeros(n - 1) + []) + ['0'];
      ValueAppend(Zeros(n - 1) + [], '0');
    } else {
      assert Zeros(0) + [] == [];
    }
  }

  lemma {:induction false} ValueBound(s: string)
    requires AllHex(s)
    ensures Value(s) < Pow16(|s|)
    decreases |s|
  {
    if s != [] {
      ValueBound(s[..|s| - 1]);
    }
  }

  /** The digits of a number denote it, and there are no more of them than needed. */
  lemma {:induction false} DigitsOf(v: nat)
    ensures AllHex(Digits(v)) && Value(Digits(v)) == v && Upper(Digits(v)) == Digits(v)
    ensures |Digits(v)| > 1 ==> Pow16(|Digits(v)| - 1) <= v
    decreases v
  {
    if v >= 16 {
      DigitsOf(v / 16);
      ValueAppend(Digits(v / 16), DigitChar(v % 16));
      assert Upper(Digits(v)) == Upper(Digits(v / 16)) + [DigitChar(v % 16)];
    } else {
      assert Digits(v)[..0] == [];
    }
  }

  lemma {:induction false} Pow16Monotone(m: nat, n: nat)
    requires m <= n
    ensures Pow16(m) <= Pow16(n)
    decreases n
  {
    if m < n {
      Pow16Monotone(m, n - 1);
    }
  }

  /** Strings of one length with one value are the same, up to the case of letters. */
  lemma {:induction false} ValueInjective(s: string, t: string)
    requires AllHex(s) && AllHex(t) && |s| == |t| && Value(s) == Value(t)
    ensures Upper(s) == Upper(t)
    decreases |s|
  {
    if s != [] {
      var (a, b) := (s[|s| - 1], t[|t| - 1]);
      LastDigit(Value(s[..|s| - 1]), DigitValue(a), Value(t[..|t| - 1]), DigitValue(b));
      ValueInjective(s[..|s| - 1], t[..|t| - 1]);
      SameDigit(a, b);
      UpperSplit(s);
      UpperSplit(t);
    }
  }

  lemma LastDigit(x: nat, a: nat, y: nat, b: nat)
    requires a < 16 && b < 16 && 16 * x + a == 16 * y + b
    ensures x == y && a == b
  {
  }

  lemma UpperSplit(s: string)
    requires s != []
    ensures Upper(s) == Upper(s[..|s| - 1]) + [UpperChar(s[|s| - 1])]
  {
  }

  lemma SameDigit(a: char, b: char)
    requires IsHex(a) && IsHex(b) && DigitValue(a) == DigitValue(b)
    ensures UpperChar(a) == UpperChar(b)
  {
  }

  // --- The codec ---------------------------------------------------------------------------------

  /** A number is accepted exactly when it is not negative and fits the width; the
      output has the width, consists of upper-case digits and denotes the number. */
  lemma Encodes(w: Width, n: Integer)
    ensures ToFixedHex(w, n).Some? <==> 0 <= n < Pow16(w)
    ensures ToFixedHex(w, n).Some? ==>
              var s := ToFixedHex(w, n).value; |s| == w && AllHex(s) && Upper(s) == s && Value(s) == n
  {
    if n >= 0 {
      FitsWidth(w, n);
      if n < Pow16(w) {
        PrintedOf(w, n);
      }
    }
  }

  lemma FitsWidth(w: nat, v: nat)
    requires w >= 1
    ensures |Digits(v)| <= w <==> v < Pow16(w)
  {
    var d := Digits(v);
    DigitsOf(v);
    ValueBound(d);
    if |d| <= w {
      Pow16Monotone(|d|, w);
    } else {
      Pow16Monotone(w, |d| - 1);
    }
  }

  lemma PrintedOf(w: nat, v: nat)
    requires |Digits(v)| <= w
    ensures var s := Printed(w, v); |s| == w && AllHex(s) && Upper(s) == s && Value(s) == v
  {
    DigitsOf(v);
    PrintedShape(w, v);
    Pads(w - |Digits(v)|, Digits(v));
    assert |Printed(w, v)| == w;
  }

  lemma PrintedShape(w: nat, v: nat)
    requires |Digits(v)| <= w
    ensures Printed(w, v) == Zeros(w - |Digits(v)|) + Digits(v)
  {
    if |Digits(v)| == w {
      assert Zeros(0) + Digits(v) == Digits(v);
    }
  }

  /** Padding with zeros changes neither the value nor the case. */
  lemma Pads(n: nat, d: string)
    requires AllHex(d) && Upper(d) == d
    ensures var s := Zeros(n) + d; AllHex(s) && Upper(s) == s && Value(s) == Value(d)
    ensures n == 0 ==> Zeros(n) + d == d
  {
    ZerosValue(n, d);
    forall i | 0 <= i < n + |d| ensures Upper(Zeros(n) + d)[i] == (Zeros(n) + d)[i] {
      if i >= n {
        assert Upper(d)[i - n] == d[i - n];
      }
    }
  }

  /** Decoding takes a string of digits of the right length at its value. */
  lemma Decodes(w: Width, s: string)
    requires |s| == w && AllHex(s)
    ensures FromFixedHex(w, s) == if Value(s) < UINT64_LIMIT then Some(Value(s)) else None
  {
    assert Text(Form("", "", "", s)) == s;
    AcceptsForm(w, Form("", "", "", s));
  }

  /** Round trip, for every width and every number that can be encoded. */
  lemma RoundTrip(w: Width, n: Integer)
    requires ToFixedHex(w, n).Some?
    ensures FromFixedHex(w, ToFixedHex(w, n).value) == Some(n)
  {
    Encodes(w, n);
    Decodes(w, ToFixedHex(w, n).value);
  }

  /** The other way round: a string that decodes to a 63-bit number is reproduced,
      up to the case of its letters, exactly when it consists of digits. */
  lemma Canonical(w: Width, s: string)
    requires FromFixedHex(w, s).Some? && FromFixedHex(w, s).value < INT64_LIMIT
    ensures ToFixedHex(w, FromFixedHex(w, s).value) == Some(Upper(s)) <==> AllHex(s)
  {
    var v := FromFixedHex(w, s).value;
    Encodes(w, v);
    if AllHex(s) {
      Decodes(w, s);
      ValueBound(s);
      ValueInjective(s, ToFixedHex(w, v).value);
    }
    if ToFixedHex(w, v) == Some(Upper(s)) {
      forall i | 0 <= i < |s| ensures IsHex(s[i]) {
        assert IsHex(Upper(s)[i]);
      }
    }
  }

  /** White space, a sign, a prefix and digits; each of the first three may be empty. */
  datatype Form = Form(spaces: string, sign: string, prefix: string, digits: string)

  predicate WellFormed(f: Form) {
    && AllSpace(f.spaces)
    && IsSign(f.sign) && IsPrefix(f.prefix)
    && f.digits != "" && AllHex(f.digits)
  }

  function Text(f: Form): string {
    f.spaces + f.sign + f.prefix + f.digits
  }

  /** What the form denotes; a minus sign wraps around, and 2^64 is too large. */
  function Meaning(f: Form): Option<nat>
    requires WellFormed(f)
  {
    if Value(f.digits) < UINT64_LIMIT then Some(Signed(f.sign, Value(f.digits))) else None
  }

  lemma {:induction false} SkipsSpace(spaces: string, rest: string, i: nat)
    requires i <= |spaces| && AllSpace(spaces)
    requires rest != "" && !IsSpace(rest[0])
    ensures SkipSpace(spaces + rest, i) == |spaces|
    decreases |spaces| - i
  {
    if i < |spaces| {
      assert (spaces + rest)[i] == spaces[i];
      SkipsSpace(spaces, rest, i + 1);
    } else {
      assert (spaces + rest)[i] == rest[0];
    }
  }

  lemma SkipsSign(s: string, i: nat, sign: string, rest: string)
    requires i <= |s| && s[i..] == sign + rest && IsSign(sign)
    requires rest != "" && IsHex(rest[0])
    ensures var j := i + |sign|; j <= |s| && SkipSign(s, i) == j && s[i..j] == sign && s[j..] == rest
  {
    assert s[i] == (sign + rest)[0];
    assert s[i..i + |sign|] == s[i..][..|sign|] && s[i + |sign|..] == s[i..][|sign|..];
  }

  lemma SkipsPrefix(s: string, j: nat, prefix: string, digits: string)
    requires j <= |s| && s[j..] == prefix + digits && IsPrefix(prefix)
    requires AllHex(digits) && digits != ""
    ensures var k := j + |prefix|; k <= |s| && SkipPrefix(s, j) == k && s[k..] == digits
  {
    assert forall i | 0 <= i < |prefix| + |digits| :: s[j + i] == (prefix + digits)[i];
    assert s[j + |prefix|..] == s[j..][|prefix|..];
  }

  /** Every form of the right length is decoded to its meaning, */
  lemma AcceptsForm(w: Width, f: Form)
    requires WellFormed(f) && |Text(f)| == w
    ensures FromFixedHex(w, Text(f)) == Meaning(f)
  {
    ParsesForm(f, Text(f));
  }

  lemma ParsesForm(f: Form, s: string)
    requires WellFormed(f) && s == Text(f)
    ensures match Meaning(f) case Some(v) => Stoull(s) == Some(Parsed(v, |s|)) case None => Stoull(s) == None
  {
    var i := |f.spaces|;
    var k := i + |f.sign| + |f.prefix|;
    BodyOf(f, s);
    NumberOf(f, s, i);
    SkipsRest(s, k, f.digits);
    ParsedAt(s, i, i + |f.sign|, k);
  }

  lemma ParsedAt(s: string, i: nat, j: nat, k: nat)
    requires i <= |s| && SkipSpace(s, 0) == i && SkipSign(s, i) == j && SkipPrefix(s, j) == k
    requires k < |s| && SkipDigits(s, k) == |s|
    ensures AllHex(s[k..|s|])
    ensures Stoull(s) == if Value(s[k..|s|]) < UINT64_LIMIT then Some(Parsed(Signed(s[i..j], Value(s[k..|s|])), |s|)) else None
  {
  }

  lemma NumberOf(f: Form, s: string, i: nat)
    requires WellFormed(f) && i <= |s| && s[i..] == f.sign + (f.prefix + f.digits)
    ensures |s| == i + |f.sign| + |f.prefix| + |f.digits|
    ensures SkipSign(s, i) == i + |f.sign| && s[i..i + |f.sign|] == f.sign
    ensures SkipPrefix(s, i + |f.sign|) == i + |f.sign| + |f.prefix|
    ensures s[i + |f.sign| + |f.prefix|..] == f.digits
  {
    NumberStarts(f);
    SkipsSign(s, i, f.sign, f.prefix + f.digits);
    SkipsPrefix(s, i + |f.sign|, f.prefix, f.digits);
  }

  lemma NumberStarts(f: Form)
    requires WellFormed(f)
    ensures var number := f.prefix + f.digits; number != "" && IsHex(number[0])
  {
  }

  lemma BodyOf(f: Form, s: string)
    requires WellFormed(f) && s == Text(f)
    ensures s[|f.spaces|..] == f.sign + (f.prefix + f.digits) && SkipSpace(s, 0) == |f.spaces|
  {
    var body := f.sign + (f.prefix + f.digits);
    assert s == f.spaces + body;
    SkipsSpace(f.spaces, body, 0);
  }

  /** and nothing else is. */
  lemma AcceptsOnlyForms(w: Width, s: string) returns (f: Form)
    requires FromFixedHex(w, s).Some?
    ensures WellFormed(f) && Text(f) == s && |s| == w && Meaning(f).Some?
  {
    var i := SkipSpace(s, 0);
    var j := SkipSign(s, i);
    var k := SkipPrefix(s, j);
    f := Form(s[0..i], s[i..j], s[j..k], s[k..|s|]);
    FourParts(s, i, j, k);
  }

  lemma FourParts(s: string, i: nat, j: nat, k: nat)
    requires i <= j <= k <= |s|
    ensures s[0..i] + s[i..j] + s[j..k] + s[k..|s|] == s
  {
  }

  /** The accepted language: a string decodes exactly when it has the right length and
      one of the forms, with a number below 2^64. */
  lemma Accepted(w: Width, s: string)
    ensures FromFixedHex(w, s).Some? <==> |s| == w && exists f :: WellFormed(f) && Text(f) == s && Meaning(f).Some?
  {
    if FromFixedHex(w, s).Some? {
      var f := AcceptsOnlyForms(w, s);
    }
    if |s| == w && exists f :: WellFormed(f) && Text(f) == s && Meaning(f).Some? {
      var f :| WellFormed(f) && Text(f) == s && Meaning(f).Some?;
      AcceptsForm(w, f);
    }
  }

  /** What decoding accepts beyond strings of digits.  Leading space is skipped, */
  lemma AcceptsSpace(w: Width, c: char, h: string)
    requires |h| == w - 1 && AllHex(h) && h != [] && IsSpace(c)
    ensures FromFixedHex(w, [c] + h) == if Value(h) < UINT64_LIMIT then Some(Value(h)) else None
  {
    assert Text(Form([c], "", "", h)) == [c] + h;
    AcceptsForm(w, Form([c], "", "", h));
  }

  /** a sign is read, where a minus sign wraps around, */
  lemma AcceptsSign(w: Width, c: char, h: string)
    requires |h| == w - 1 && AllHex(h) && h != [] && (c == '+' || c == '-')
    ensures FromFixedHex(w, [c] + h)
         == if Value(h) >= UINT64_LIMIT then None
            else if c == '-' && Value(h) != 0 then Some(UINT64_LIMIT - Value(h)) else Some(Value(h))
  {
    SignOf(c);
    SignedDigits(w, [c], h);
  }

  lemma SignOf(c: char)
    requires c == '+' || c == '-'
    ensures IsSign([c]) && ([c] == "-" <==> c == '-')
  {
    assert [c] == if c == '-' then "-" else "+";
    assert "+"[0] != "-"[0];
  }

  lemma SignedDigits(w: Width, sign: string, h: string)
    requires |sign + h| == w && IsSign(sign) && AllHex(h) && h != []
    ensures FromFixedHex(w, sign + h) == if Value(h) >= UINT64_LIMIT then None else Some(Signed(sign, Value(h)))
  {
    var f := Form("", sign, "", h);
    assert Text(f) == sign + h;
    AcceptsForm(w, f);
  }

  /** and a prefix is skipped if a digit follows it. */
  lemma AcceptsPrefix(w: Width, x: char, h: string)
    requires |h| == w - 2 && AllHex(h) && (x == 'x' || x == 'X')
    ensures FromFixedHex(w, ['0', x] + h) == if h != [] && Value(h) < UINT64_LIMIT then Some(Value(h)) else None
  {
    if h == [] {
      BarePrefix(x);
    } else {
      assert Text(Form("", "", ['0', x], h)) == ['0', x] + h;
      AcceptsForm(w, Form("", "", ['0', x], h));
    }
  }

  /** A prefix that no digit follows ends the number after its zero. */
  lemma BarePrefix(x: char)
    requires x == 'x' || x == 'X'
    ensures Stoull(['0', x]) == Some(Parsed(0, 1))
  {
    var s := ['0', x];
    assert SkipDigits(s, 1) == 1;
    assert s[0..1] == ['0'] && Value(s[0..1]) == 0 by { ValueAppend([], '0'); }
  }

  lemma {:induction false} SkipsRest(s: string, k: nat, h: string)
    requires k <= |s| && s[k..] == h && AllHex(h)
    ensures SkipDigits(s, k) == |s| && s[k..|s|] == h
    decreases |h|
  {
    if h != [] {
      assert s[k] == h[0];
      assert s[k + 1..] == h[1..];
      SkipsRest(s, k + 1, h[1..]);
    }
  }
}
