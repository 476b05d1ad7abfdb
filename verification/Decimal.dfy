/** Decimal-string arithmetic of the policy engine: money travels as `numeric(14,2)` text and is compared,
    added and subtracted as a pair of 64-bit integers.

    The independent reading of a decimal text is `FloorCents`: the exact rational value, floored to cents. */
module Decimal {
  const MAX_INT64 := 0x7FFF_FFFF_FFFF_FFFF
  const MIN_INT64 := -0x8000_0000_0000_0000

  // ---------- digits and powers ----------

  predicate IsDigit(c: char) {
    '0' <= c <= '9'
  }

  predicate AllDigits(s: string) {
    forall i :: 0 <= i < |s| ==> IsDigit(s[i])
  }

  function DigitsValue(s: string): nat
    requires AllDigits(s)
  {
    if s == "" then 0
    else DigitsValue(s[..|s| - 1]) * 10 + (s[|s| - 1] as int - '0' as int)
  }

  function Digit(d: nat): char
    requires d < 10
  {
    ('0' as int + d) as char
  }

  /** strconv.FormatInt on a non-negative number. */
  function NatText(n: nat): (s: string)
    ensures |s| >= 1 && AllDigits(s)
  {
    if n < 10 then [Digit(n)] else NatText(n / 10) + [Digit(n % 10)]
  }

  function FormatInt(v: int): string {
    if v < 0 then "-" + NatText(-v) else NatText(v)
  }

  function Zeros(n: nat): (s: string)
    ensures |s| == n && AllDigits(s)
  {
    seq(n, _ => '0')
  }

  lemma {:induction false} NatTextValue(n: nat)
    ensures DigitsValue(NatText(n)) == n
  {
    if n >= 10 {
      NatTextValue(n / 10);
      var s := NatText(n);
      assert s[..|s| - 1] == NatText(n / 10);
    } else {
      assert NatText(n)[..0] == "";
    }
  }

  /** Appending two digits shifts a value by a factor of 100. */
  lemma AppendTwoDigits(a: string, f: string)
    requires AllDigits(a) && AllDigits(f) && |f| == 2
    ensures AllDigits(a + f)
    ensures DigitsValue(a + f) == DigitsValue(a) * 100 + DigitsValue(f)
    ensures DigitsValue(f) < 100
  {
    assert a + f == a + [f[0]] + [f[1]];
    assert (a + [f[0]] + [f[1]])[..|a| + 1] == a + [f[0]];
    assert (a + [f[0]])[..|a|] == a;
    assert f[..1][..0] == "";
    assert DigitsValue(f) == DigitsValue(f[..1]) * 10 + (f[1] as int - '0' as int);
    assert DigitsValue(f[..1]) == f[0] as int - '0' as int;
  }

  // ---------- int64 ----------

  /** Two's-complement wrap-around of one int64 addition, subtraction or negation. */
  function Wrap64(x: int): (w: int)
    requires 2 * MIN_INT64 <= x <= 2 * MAX_INT64 + 1
    ensures MIN_INT64 <= w <= MAX_INT64
  {
    if x > MAX_INT64 then x - 0x1_0000_0000_0000_0000
    else if x < MIN_INT64 then x + 0x1_0000_0000_0000_0000
    else x
  }

  /** strconv.ParseInt(s, 10, 64) with the error ignored: a syntax error yields 0, a range error saturates. */
  function ParseInt64(s: string): (v: int)
    ensures MIN_INT64 <= v <= MAX_INT64
  {
    var negative := s != "" && s[0] == '-';
    var body := if s != "" && (s[0] == '-' || s[0] == '+') then s[1..] else s;
    if body == "" || !AllDigits(body) then 0
    else
      var magnitude: int := DigitsValue(body);
      if negative then (if magnitude > -MIN_INT64 then MIN_INT64 else -magnitude)
      else if magnitude > MAX_INT64 then MAX_INT64
      else magnitude
  }

  // ---------- split and format ----------

  /** strings.IndexByte(s, '.'), or |s| where Go answers -1. */
  function DotIndex(s: string): (i: nat)
    ensures i <= |s|
    ensures i < |s| ==> s[i] == '.'
    ensures forall j :: 0 <= j < i ==> s[j] != '.'
  {
    if s == "" || s[0] == '.' then 0 else 1 + DotIndex(s[1..])
  }

  function IntPart(s: string): string {
    s[..DotIndex(s)]
  }

  function FracPart(s: string): string {
    if DotIndex(s) < |s| then s[DotIndex(s) + 1..] else ""
  }

  /** The first two fraction digits, padded on the right. */
  function Frac2(frac: string): (f: string)
    ensures |f| == 2
  {
    if |frac| >= 2 then frac[..2] else frac + Zeros(2 - |frac|)
  }

  lemma TwoCharacters(f: string)
    requires |f| == 2
    ensures -9 <= ParseInt64(f) <= 99
  {
    if AllDigits(f) {
      AppendTwoDigits("", f);
      assert "" + f == f;
    } else if AllDigits(f[1..]) {
      assert DigitsValue(f[1..]) == f[1] as int - '0' as int by {
        assert f[1..][..0] == "";
      }
    }
  }

  function Split(s: string): (p: (int, int))
    ensures MIN_INT64 <= p.0 <= MAX_INT64 && -9 <= p.1 <= 99
  {
    TwoCharacters(Frac2(FracPart(s)));
    (ParseInt64(IntPart(s)), ParseInt64(Frac2(FracPart(s))))
  }

  method SplitDecimal(s: string) returns (whole: int, cents: int)
    ensures (whole, cents) == Split(s)
  {
    hide ParseInt64, DotIndex;
    var intPart, fracPart := s, "";
    var i := DotIndex(s);
    if i < |s| {
      intPart, fracPart := s[..i], s[i + 1..];
    }
    ghost var frac := fracPart;
    if |fracPart| > 2 {
      fracPart := fracPart[..2];
    }
    while |fracPart| < 2
      invariant |fracPart| <= 2
      invariant |frac| > 2 ==> fracPart == frac[..2]
      invariant |frac| <= 2 ==> |fracPart| >= |frac| && fracPart == frac + Zeros(|fracPart| - |frac|)
    {
      fracPart := fracPart + "0";
    }
    assert fracPart == Frac2(frac);
    assert intPart == IntPart(s);
    whole, cents := ParseInt64(intPart), ParseInt64(fracPart);
  }

  function PadText(s: string): string {
    if |s| < 2 then Zeros(2 - |s|) + s else s
  }

  method Pad2(v: int) returns (s: string)
    ensures s == PadText(FormatInt(v))
  {
    s := FormatInt(v);
    ghost var t := s;
    while |s| < 2
      invariant |t| <= |s|
      invariant |t| >= 2 ==> s == t
      invariant |t| < 2 ==> |s| <= 2 && s == Zeros(|s| - |t|) + t
    {
      s := "0" + s;
    }
  }

  function Format(whole: int, cents: int): string
    requires MIN_INT64 <= whole <= MAX_INT64 && MIN_INT64 <= cents <= MAX_INT64
  {
    var sign := if whole < 0 || cents < 0 then "-" else "";
    var w := if whole < 0 then Wrap64(-whole) else whole;
    var c := if cents < 0 then Wrap64(-cents) else cents;
    sign + FormatInt(w) + "." + PadText(FormatInt(c))
  }

  method FormatDecimal(whole: int, cents: int) returns (s: string)
    requires MIN_INT64 <= whole <= MAX_INT64 && MIN_INT64 <= cents <= MAX_INT64
    ensures s == Format(whole, cents)
  {
    var sign, w, c := "", whole, cents;
    if w < 0 || c < 0 {
      sign := "-";
      if w < 0 {
        w := Wrap64(-w);
      }
      if c < 0 {
        c := Wrap64(-c);
      }
    }
    var padded := Pad2(c);
    s := sign + FormatInt(w) + "." + padded;
  }

  // ---------- compare, add, subtract ----------

  function CompareNumeric(a: string, b: string): (r: int)
    ensures r == -1 || r == 0 || r == 1
  {
    var ((aw, ac), (bw, bc)) := (Split(a), Split(b));
    if aw != bw then (if aw < bw then -1 else 1)
    else if ac != bc then (if ac < bc then -1 else 1)
    else 0
  }

  /** Go's truncating division by 100 and its remainder. */
  function Quot100(c: int): int {
    if c >= 0 then c / 100 else -((-c) / 100)
  }

  function Rem100(c: int): int {
    c - 100 * Quot100(c)
  }

  /** Go's division truncates toward zero: quotient and remainder change sign with the dividend. */
  lemma DivisionTruncates(c: nat)
    ensures Quot100(c) == c / 100 && Rem100(c) == c % 100
    ensures Quot100(0 - c) == 0 - c / 100 && Rem100(0 - c) == 0 - c % 100
  {
  }

  function AddPairs(aw: int, ac: int, bw: int, bc: int): string
    requires MIN_INT64 <= aw <= MAX_INT64 && MIN_INT64 <= bw <= MAX_INT64 && -9 <= ac <= 99 && -9 <= bc <= 99
  {
    var c := ac + bc;
    Format(Wrap64(Wrap64(aw + bw) + Quot100(c)), Rem100(c))
  }

  function AddNumeric(a: string, b: string): string {
    AddPairs(Split(a).0, Split(a).1, Split(b).0, Split(b).1)
  }

  function SubtractPairs(aw: int, ac: int, bw: int, bc: int): string
    requires MIN_INT64 <= aw <= MAX_INT64 && MIN_INT64 <= bw <= MAX_INT64 && -9 <= ac <= 99 && -9 <= bc <= 99
  {
    var c := ac - bc;
    if c < 0 then Format(Wrap64(Wrap64(aw - bw) - 1), c + 100) else Format(Wrap64(aw - bw), c)
  }

  function SubtractText(a: string, b: string): string {
    SubtractPairs(Split(a).0, Split(a).1, Split(b).0, Split(b).1)
  }

  method SubtractNumeric(a: string, b: string) returns (s: string)
    ensures s == SubtractText(a, b)
  {
    var aw, ac := SplitDecimal(a);
    var bw, bc := SplitDecimal(b);
    assert SubtractText(a, b) == SubtractPairs(aw, ac, bw, bc);
    var w, c := Wrap64(aw - bw), ac - bc;
    if c < 0 {
      w := Wrap64(w - 1);
      c := c + 100;
    }
    s := FormatDecimal(w, c);
  }

  // ---------- signs ----------

  /** A sign in front of a decimal text with integer digits: plus changes nothing, minus negates the whole part only. */
  lemma SplitSigned(s: string)
    requires AllDigits(IntPart(s)) && IntPart(s) != "" && DigitsValue(IntPart(s)) <= MAX_INT64
    ensures Split("+" + s) == Split(s)
    ensures Split("-" + s) == (-Split(s).0, Split(s).1)
  {
    hide DigitsValue, AllDigits, DotIndex, IntPart, FracPart, ParseInt64, Frac2;
    SignedParts('+', s);
    SignedParts('-', s);
    SignedInt(IntPart(s));
  }

  lemma SignedParts(sign: char, s: string)
    requires sign == '+' || sign == '-'
    ensures IntPart([sign] + s) == [sign] + IntPart(s) && FracPart([sign] + s) == FracPart(s)
  {
    var t := [sign] + s;
    assert t[1..] == s && DotIndex(t) == 1 + DotIndex(s);
  }

  lemma SignedInt(i: string)
    requires i != "" && AllDigits(i) && DigitsValue(i) <= MAX_INT64
    ensures ParseInt64("+" + i) == ParseInt64(i) && ParseInt64("-" + i) == -ParseInt64(i)
  {
    hide DigitsValue;
    assert IsDigit(i[0]);
    assert ("+" + i)[1..] == i && ("-" + i)[1..] == i;
  }

  // ---------- the exact reading ----------

  /** A non-negative decimal text: digits, optionally a point and more digits. */
  predicate IsDecimal(s: string) {
    AllDigits(IntPart(s)) && AllDigits(FracPart(s))
  }

  /** floor(n / 10^k): one division by ten at a time. */
  function DropDigits(n: nat, k: nat): nat {
    if k == 0 then n else DropDigits(n / 10, k - 1)
  }

  /** The exact value of a decimal text, floored to cents: floor(100 * N / 10^k) for a text whose digits read N, with
      k of them after the point. */
  function FloorCents(s: string): nat
    requires IsDecimal(s)
  {
    DropDigits(100 * DigitsValue(IntPart(s) + FracPart(s)), |FracPart(s)|)
  }

  /** The value's whole part is representable as int64. */
  predicate Fits64(cents: nat) {
    cents < (MAX_INT64 + 1) * 100
  }

  /** A text the int64 code can read exactly. */
  predicate Readable(s: string) {
    IsDecimal(s) && Fits64(FloorCents(s))
  }

  /** PostgreSQL's text of a non-negative numeric with two decimals. */
  function MoneyText(cents: nat): string {
    NatText(cents / 100) + "." + PadText(NatText(cents % 100))
  }

  function Sign(x: int): int {
    if x < 0 then -1 else if x == 0 then 0 else 1
  }

  lemma {:induction false} DropsLastDigits(s: string, k: nat)
    requires AllDigits(s) && k <= |s|
    ensures DropDigits(DigitsValue(s), k) == DigitsValue(s[..|s| - k])
  {
    if k == 0 {
      assert s[..|s|] == s;
    } else {
      DropsLastDigits(s[..|s| - 1], k - 1);
      assert s[..|s| - 1][..|s| - k] == s[..|s| - k];
    }
  }

  lemma DropHundred(n: nat, k: nat)
    ensures k >= 2 ==> DropDigits(100 * n, k) == DropDigits(n, k - 2)
    ensures k == 1 ==> DropDigits(100 * n, k) == 10 * n
    ensures k == 0 ==> DropDigits(100 * n, k) == 100 * n
  {
    if k >= 2 {
      assert DropDigits(100 * n, k) == DropDigits(10 * n, k - 1) == DropDigits(n, k - 2);
    } else if k == 1 {
      assert DropDigits(100 * n, 1) == DropDigits(10 * n, 0);
    }
  }

  lemma AppendZero(s: string)
    requires AllDigits(s)
    ensures AllDigits(s + "0") && DigitsValue(s + "0") == 10 * DigitsValue(s)
  {
    assert (s + "0")[..|s|] == s;
  }

  /** Flooring the exact value reads the integer digits and the first two padded fraction digits. */
  lemma FloorCentsByParts(s: string)
    requires IsDecimal(s)
    ensures AllDigits(Frac2(FracPart(s))) && DigitsValue(Frac2(FracPart(s))) < 100
    ensures FloorCents(s) == DigitsValue(IntPart(s)) * 100 + DigitsValue(Frac2(FracPart(s)))
  {
    hide DigitsValue, DropDigits, IntPart, FracPart;
    var i, f := IntPart(s), FracPart(s);
    AppendTwoDigits(i, Frac2(f));
    DropHundred(DigitsValue(i + f), |f|);
    if |f| >= 2 {
      DropsLastDigits(i + f, |f| - 2);
      assert (i + f)[..|i| + 2] == i + f[..2];
    } else if |f| == 1 {
      AppendZero(i + f);
      assert Frac2(f) == f + "0" && i + (f + "0") == i + f + "0";
    } else {
      AppendZero(i);
      AppendZero(i + "0");
      assert Frac2(f) == "00" && i + f == i && i + "00" == i + "0" + "0";
    }
  }

  /** splitDecimal reads a decimal text exactly if and only if its whole part fits in int64. */
  lemma SplitIsFloor(s: string)
    requires IsDecimal(s)
    ensures 0 <= Split(s).0 && 0 <= Split(s).1 < 100
    ensures Split(s).0 * 100 + Split(s).1 == FloorCents(s) <==> Fits64(FloorCents(s))
  {
    FloorCentsByParts(s);
    var i, f2 := IntPart(s), Frac2(FracPart(s));
    assert i != "" ==> IsDigit(i[0]);
    assert IsDigit(f2[0]);
    assert i == "" ==> DigitsValue(i) == 0;
  }

  /** compareNumeric is the order of the values floored to cents. */
  lemma CompareIsOrder(a: string, b: string)
    requires Readable(a) && Readable(b)
    ensures CompareNumeric(a, b) == Sign(FloorCents(a) - FloorCents(b))
  {
    SplitIsFloor(a);
    SplitIsFloor(b);
  }

  lemma PaddedCents(c: nat)
    requires c < 100
    ensures var p := PadText(NatText(c)); |p| == 2 && AllDigits(p) && DigitsValue(p) == c
  {
    NatTextValue(c);
    if c < 10 {
      assert NatText(c) == [Digit(c)];
      AppendTwoDigits("", "0" + NatText(c));
      assert PadText(NatText(c)) == "0" + NatText(c) == "" + ("0" + NatText(c));
      assert (NatText(c))[..0] == "" && ("0" + NatText(c))[..1] == "0" && "0"[..0] == "";
    } else {
      assert |NatText(c / 10)| == 1;
    }
  }

  lemma MoneyTextParts(n: nat)
    ensures IntPart(MoneyText(n)) == NatText(n / 100)
    ensures FracPart(MoneyText(n)) == PadText(NatText(n % 100))
  {
    var w, s := NatText(n / 100), MoneyText(n);
    assert s[|w|] == '.';
    assert forall j :: 0 <= j < |w| ==> s[j] == w[j] && s[j] != '.';
    assert DotIndex(s) == |w|;
  }

  /** The database's text of an amount reads back as that amount. */
  lemma MoneyTextValue(n: nat)
    ensures IsDecimal(MoneyText(n)) && FloorCents(MoneyText(n)) == n
  {
    MoneyTextParts(n);
    PaddedCents(n % 100);
    NatTextValue(n / 100);
    FloorCentsByParts(MoneyText(n));
  }

  lemma CentsOfPair(whole: nat, cents: nat)
    requires cents < 100
    ensures (whole * 100 + cents) / 100 == whole && (whole * 100 + cents) % 100 == cents
  {
  }

  lemma FormatCanonical(whole: nat, cents: nat)
    requires whole <= MAX_INT64 && cents < 100
    ensures Format(whole, cents) == MoneyText(whole * 100 + cents)
  {
    CentsOfPair(whole, cents);
  }

  lemma FormatMinus(whole: int, cents: int)
    requires 0 <= whole <= MAX_INT64 && 0 <= cents < 100 && (whole > 0 || cents > 0)
    ensures Format(-whole, -cents) == "-" + Format(whole, cents)
  {
    hide FormatInt, PadText;
  }

  /** A negative amount is shown with one minus sign before the text of its magnitude. */
  lemma FormatNegative(whole: int, cents: int)
    requires 0 <= whole <= MAX_INT64 && 0 <= cents < 100 && (whole > 0 || cents > 0)
    ensures Format(-whole, -cents) == "-" + MoneyText(whole * 100 + cents)
  {
    hide Format, MoneyText;
    FormatMinus(whole, cents);
    FormatCanonical(whole, cents);
  }

  lemma SamePair(w: int, c: int, w': int, c': int)
    requires 0 <= c < 100 && 0 <= c' < 100 && w * 100 + c == w' * 100 + c'
    ensures w == w' && c == c'
  {
  }

  lemma MoneyTextSplit(n: nat)
    requires Fits64(n)
    ensures 0 <= Split(MoneyText(n)).0 && 0 <= Split(MoneyText(n)).1 < 100
    ensures Split(MoneyText(n)).0 * 100 + Split(MoneyText(n)).1 == n
  {
    MoneyTextValue(n);
    SplitIsFloor(MoneyText(n));
  }

  /** splitDecimal undoes formatDecimal on every non-negative int64 amount. */
  lemma SplitUndoesFormat(whole: int, cents: int)
    requires 0 <= whole <= MAX_INT64 && 0 <= cents < 100
    ensures Split(Format(whole, cents)) == (whole, cents)
  {
    var s := Format(whole, cents);
    assert s == MoneyText(whole * 100 + cents) by { FormatCanonical(whole, cents); }
    MoneyTextSplit(whole * 100 + cents);
    SamePair(Split(s).0, Split(s).1, whole, cents);
  }

  lemma MoneyTextFirst(n: nat)
    ensures MoneyText(n) != "" && MoneyText(n)[0] != '-'
  {
    assert MoneyText(n)[0] == NatText(n / 100)[0];
  }

  lemma NegativeFormat(whole: int, cents: int)
    requires MIN_INT64 <= whole < 0 && MIN_INT64 <= cents <= MAX_INT64
    ensures Format(whole, cents) != "" && Format(whole, cents)[0] == '-'
  {
  }

  lemma AddPairsResult(xw: nat, xc: nat, yw: nat, yc: nat, w: nat, c: nat)
    requires xw <= MAX_INT64 && yw <= MAX_INT64 && xc < 100 && yc < 100 && c < 100
    requires w * 100 + c == (xw + yw) * 100 + xc + yc
    ensures w <= MAX_INT64 ==> AddPairs(xw, xc, yw, yc) == Format(w, c)
    ensures w > MAX_INT64 ==> AddPairs(xw, xc, yw, yc) != "" && AddPairs(xw, xc, yw, yc)[0] == '-'
  {
    assert Quot100(xc + yc) == w - xw - yw;
    if w > MAX_INT64 {
      NegativeFormat(w - 0x1_0000_0000_0000_0000, c);
    }
  }

  lemma AddIsFormat(a: string, b: string, w: nat, c: nat)
    requires Readable(a) && Readable(b) && c < 100 && w * 100 + c == FloorCents(a) + FloorCents(b)
    ensures w <= MAX_INT64 ==> AddNumeric(a, b) == Format(w, c)
    ensures w > MAX_INT64 ==> AddNumeric(a, b) != "" && AddNumeric(a, b)[0] == '-'
  {
    SplitIsFloor(a);
    SplitIsFloor(b);
    AddPairsResult(Split(a).0, Split(a).1, Split(b).0, Split(b).1, w, c);
  }

  /** addNumeric yields the canonical text of the exact sum if and only if the sum's whole part fits in int64;
      otherwise its result is a negative text. */
  lemma AddIsExactIff(a: string, b: string, whole: nat, cents: nat)
    requires Readable(a) && Readable(b)
    requires cents < 100 && whole * 100 + cents == FloorCents(a) + FloorCents(b)
    ensures AddNumeric(a, b) == MoneyText(whole * 100 + cents) <==> whole <= MAX_INT64
    ensures whole > MAX_INT64 ==> AddNumeric(a, b) != "" && AddNumeric(a, b)[0] == '-'
  {
    AddIsFormat(a, b, whole, cents);
    if whole <= MAX_INT64 {
      FormatCanonical(whole, cents);
    } else {
      MoneyTextFirst(whole * 100 + cents);
    }
  }

  lemma FormatOfTotal(n: nat, w: nat, c: nat)
    requires n == w * 100 + c && c < 100 && w <= MAX_INT64
    ensures Format(w, c) == MoneyText(n)
  {
    FormatCanonical(w, c);
  }

  /** The in-range half of AddIsExactIff, by the sum in cents. */
  lemma AddExact(a: string, b: string, sum: nat)
    requires Readable(a) && Readable(b) && sum == FloorCents(a) + FloorCents(b) && Fits64(sum)
    ensures AddNumeric(a, b) == MoneyText(sum)
  {
    var w, c := sum / 100, sum % 100;
    assert AddNumeric(a, b) == Format(w, c) by { AddIsFormat(a, b, w, c); }
    assert Format(w, c) == MoneyText(sum) by { FormatOfTotal(sum, w, c); }
  }

  lemma SubtractPairsExact(xw: nat, xc: nat, yw: nat, yc: nat, diff: int)
    requires xw <= MAX_INT64 && yw <= MAX_INT64 && xc < 100 && yc < 100
    requires diff == (xw * 100 + xc) - (yw * 100 + yc)
    ensures var s := SubtractPairs(xw, xc, yw, yc);
      && s != ""
      && (if diff >= 0 then s == MoneyText(diff) && s[0] != '-' else s[0] == '-')
  {
    var w := if xc < yc then xw - yw - 1 else xw - yw;
    var c := if xc < yc then xc - yc + 100 else xc - yc;
    if diff >= 0 {
      FormatCanonical(w, c);
      MoneyTextFirst(diff);
    } else {
      NegativeFormat(w, c);
    }
  }

  /** subtractNumeric is exact when it may be called, and otherwise always shows a minus sign. */
  lemma SubtractIsExact(a: string, b: string, diff: int)
    requires Readable(a) && Readable(b) && diff == FloorCents(a) - FloorCents(b)
    ensures SubtractText(a, b) != ""
    ensures if diff >= 0 then SubtractText(a, b) == MoneyText(diff) else SubtractText(a, b)[0] == '-'
    ensures diff >= 0 ==> SubtractText(a, b)[0] != '-'
  {
    SplitIsFloor(a);
    SplitIsFloor(b);
    SubtractPairsExact(Split(a).0, Split(a).1, Split(b).0, Split(b).1, diff);
  }

  lemma ZeroText()
    ensures MoneyText(0) == "0.00"
  {
    assert NatText(0) == "0";
  }

  /** What is left of a limit, never below zero. */
  function Left(limit: nat, spent: nat): nat {
    if limit < spent then 0 else limit - spent
  }

  /** The "remaining" figure of a limit violation, as the submit handler clamps it. */
  function RemainingText(limit: string, spent: string): string {
    var remaining := SubtractText(limit, spent);
    if remaining != "" && (remaining[0] == '-' || remaining == "0.00") then "0.00" else remaining
  }

  /** The reported figure is the canonical text of max(0, limit - spent). */
  lemma RemainingIsClamped(limit: string, spent: string)
    requires Readable(limit) && Readable(spent)
    ensures RemainingText(limit, spent) == MoneyText(Left(FloorCents(limit), FloorCents(spent)))
  {
    hide MoneyText, SubtractText, FloorCents, IsDecimal;
    SubtractIsExact(limit, spent, FloorCents(limit) - FloorCents(spent));
    ZeroText();
  }

  /** Different amounts have different texts. */
  lemma MoneyTextInjective(m: nat, n: nat)
    requires MoneyText(m) == MoneyText(n)
    ensures m == n
  {
    MoneyTextValue(m);
    MoneyTextValue(n);
  }
}
