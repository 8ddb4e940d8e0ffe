// Reported costs: a decimal text, rounded up to millionths of a dollar.
module ReportedCost {
  import opened Options

  const SCALE := 6
  const MAX_INTEGER_DIGITS := 6
  const MAX_INPUT_LENGTH := 64

  predicate Digit(c: char) { '0' <= c <= '9' }

  predicate Digits(s: string) { forall i :: 0 <= i < |s| ==> Digit(s[i]) }

  function Power10(n: nat): (p: nat)
    ensures p > 0
  {
    if n == 0 then 1 else 10 * Power10(n - 1)
  }

  // The number a string of digits stands for.
  function Int(s: string): nat
    requires Digits(s)
  {
    if |s| == 0 then 0 else 10 * Int(s[..|s| - 1]) + (s[|s| - 1] as int - '0' as int)
  }

  function ToText(n: nat): (s: string)
    ensures |s| > 0 && Digits(s)
  {
    if n < 10 then [(n + '0' as int) as char] else ToText(n / 10) + [(n % 10 + '0' as int) as char]
  }

  function Zeros(n: nat): (s: string)
    ensures |s| == n && Digits(s) && forall i :: 0 <= i < |s| ==> s[i] == '0'
  {
    seq(n, _ => '0')
  }

  function PadStart(s: string, width: nat): string { Zeros(if |s| < width then width - |s| else 0) + s }

  function PadEnd(s: string, width: nat): string { s + Zeros(if |s| < width then width - |s| else 0) }

  function TrimZeros(s: string): (t: string)
    ensures t <= s && (t == [] || t[|t| - 1] != '0') && forall i :: |t| <= i < |s| ==> s[i] == '0'
  {
    if |s| > 0 && s[|s| - 1] == '0' then TrimZeros(s[..|s| - 1]) else s
  }

  function Dot(s: string): (n: nat)
    ensures n <= |s| && (n < |s| ==> s[n] == '.') && forall i :: 0 <= i < n ==> s[i] != '.'
  {
    if |s| == 0 || s[0] == '.' then 0 else 1 + Dot(s[1..])
  }

  function Integer(s: string): string { s[..Dot(s)] }

  function Fraction(s: string): string { if Dot(s) == |s| then "" else s[Dot(s) + 1..] }

  // Plain decimal notation: digits, and behind a point at least one more.
  predicate PlainDecimal(s: string) {
    Digits(Integer(s)) && |Integer(s)| > 0 && Digits(Fraction(s)) && (Dot(s) < |s| ==> |Fraction(s)| > 0)
  }

  function Micros(integer: string, fraction: string): nat
    requires Digits(integer) && Digits(fraction)
  {
    Int(integer + PadEnd(Kept(fraction), SCALE)) + if NonZero(fraction[|Kept(fraction)|..]) then 1 else 0
  }

  function Kept(fraction: string): (kept: string)
    ensures kept <= fraction && |kept| <= SCALE
  {
    if |fraction| < SCALE then fraction else fraction[..SCALE]
  }

  predicate NonZero(s: string) { exists i :: 0 <= i < |s| && s[i] != '0' }

  // The one text of an amount of millionths.
  function Format(micros: nat): string {
    var digits := PadStart(ToText(micros), SCALE + 1);
    var whole, decimals := digits[..|digits| - SCALE], TrimZeros(digits[|digits| - SCALE..]);
    if decimals == "" then whole else whole + "." + decimals
  }

  function WholeDigits(micros: nat): nat { |PadStart(ToText(micros), SCALE + 1)| - SCALE }

  function Parse(value: string): Option<string> {
    if |value| > MAX_INPUT_LENGTH || !PlainDecimal(value) then None
    else
      var micros := Micros(Integer(value), Fraction(value));
      if WholeDigits(micros) > MAX_INTEGER_DIGITS then None else Some(Format(micros))
  }

  /* ---- numbers and their texts ---- */

  lemma {:induction false} IntAppends(a: string, b: string)
    requires Digits(a) && Digits(b)
    ensures Digits(a + b) && Int(a + b) == Int(a) * Power10(|b|) + Int(b)
  {
    if |b| == 0 {
      assert a + b == a;
    } else {
      var c := b[|b| - 1] as int - '0' as int;
      assert (a + b)[..|a + b| - 1] == a + b[..|b| - 1] && (a + b)[|a + b| - 1] == b[|b| - 1];
      IntAppends(a, b[..|b| - 1]);
      Horner(Int(a), Power10(|b| - 1), Int(b[..|b| - 1]), c);
    }
  }

  lemma Horner(a: nat, p: nat, b: nat, c: int)
    ensures 10 * (a * p + b) + c == a * (10 * p) + (10 * b + c)
  {
    assert a * (10 * p) == 10 * (a * p);
  }

  lemma {:induction false} IntBounded(s: string)
    requires Digits(s)
    ensures Int(s) < Power10(|s|)
  {
    if |s| > 0 { IntBounded(s[..|s| - 1]); }
  }

  lemma {:induction false} IntZero(s: string)
    requires Digits(s)
    ensures Int(s) == 0 <==> forall i :: 0 <= i < |s| ==> s[i] == '0'
  {
    if |s| > 0 {
      IntZero(s[..|s| - 1]);
      if Int(s) == 0 { assert forall i :: 0 <= i < |s| - 1 ==> s[i] == s[..|s| - 1][i]; }
    }
  }

  lemma {:induction false} TextReads(n: nat)
    ensures Int(ToText(n)) == n
    ensures Power10(|ToText(n)| - 1) <= n || n == 0
    ensures n == 0 ==> ToText(n) == "0"
  {
    if n >= 10 {
      TextReads(n / 10);
      assert ToText(n)[..|ToText(n)| - 1] == ToText(n / 10);
    }
  }

  lemma {:induction false} Power10Adds(a: nat, b: nat)
    ensures Power10(a + b) == Power10(a) * Power10(b)
  {
    if a > 0 { Power10Adds(a - 1, b); }
  }

  lemma {:induction false} Power10Grows(a: nat, b: nat)
    requires a < b
    ensures 10 * Power10(a) <= Power10(b)
  {
    if a + 1 < b { Power10Grows(a, b - 1); }
  }

  // A number has at most d digits exactly when it is below ten to the d.
  lemma TextLength(n: nat, d: nat)
    requires d > 0
    ensures |ToText(n)| <= d <==> n < Power10(d)
  {
    var s := ToText(n);
    TextReads(n);
    IntBounded(s);
    if |s| < d { Power10Grows(|s|, d); }
    if |s| > d + 1 { Power10Grows(d, |s| - 1); }
  }

  lemma PaddedReads(n: nat, width: nat)
    ensures Digits(PadStart(ToText(n), width)) && Int(PadStart(ToText(n), width)) == n
  {
    TextReads(n);
    var zeros := Zeros(if |ToText(n)| < width then width - |ToText(n)| else 0);
    IntZero(zeros);
    IntAppends(zeros, ToText(n));
  }

  /* ---- rounding up ---- */

  // q is n / d rounded up.
  predicate Ceiling(q: nat, n: nat, d: nat) { n <= q * d < n + d }

  lemma CeilingUnique(p: nat, q: nat, n: nat, d: nat)
    requires Ceiling(p, n, d) && Ceiling(q, n, d)
    ensures p == q
  {
    Times(p, q, d);
    Times(q, p, d);
  }

  lemma Times(p: nat, q: nat, d: nat)
    ensures p < q ==> p * d + d <= q * d
    ensures p <= q ==> p * d <= q * d
  {
    if p < q {
      var k: nat := q - p - 1;
      assert q * d == p * d + d + k * d;
    }
  }

  // The value of a plain decimal is its digits over this power of ten.
  function Numerator(s: string): nat
    requires PlainDecimal(s)
  {
    IntAppends(Integer(s), Fraction(s));
    Int(Integer(s) + Fraction(s))
  }

  function Denominator(s: string): (d: nat)
    ensures d > 0
  {
    Power10(|Fraction(s)|)
  }

  // The millionths kept are the value rounded up: never less than reported, and less than one millionth more.
  lemma MicrosRoundUp(integer: string, fraction: string)
    requires Digits(integer) && Digits(fraction)
    ensures Digits(integer + fraction) && Ceiling(Micros(integer, fraction), Int(integer + fraction) * Power10(SCALE), Power10(|fraction|))
  {
    IntAppends(integer, fraction);
    if |fraction| <= SCALE { ShortFraction(integer, fraction); } else { LongFraction(integer, fraction); }
  }

  lemma ShortFraction(integer: string, fraction: string)
    requires Digits(integer) && Digits(fraction) && |fraction| <= SCALE && Digits(integer + fraction)
    ensures Ceiling(Micros(integer, fraction), Int(integer + fraction) * Power10(SCALE), Power10(|fraction|))
  {
    hide Int, Power10, Micros;
    IntAppends(integer, PadEnd(fraction, SCALE));
    ShortMicros(integer, fraction);
  }

  lemma LongFraction(integer: string, fraction: string)
    requires Digits(integer) && Digits(fraction) && |fraction| > SCALE && Digits(integer + fraction)
    ensures Ceiling(Micros(integer, fraction), Int(integer + fraction) * Power10(SCALE), Power10(|fraction|))
  {
    hide Int, Power10, Ceiling;
    var kept, dropped := Kept(fraction), fraction[SCALE..];
    assert integer + fraction == (integer + kept) + dropped;
    assert integer + PadEnd(kept, SCALE) == integer + kept;
    IntAppends(integer + kept, dropped);
    IntBounded(dropped);
    IntZero(dropped);
    Power10Adds(|dropped|, SCALE);
    Dropped(Int(integer + kept), Int(dropped), Power10(|dropped|), Power10(SCALE));
    assert fraction[|kept|..] == dropped && PadEnd(kept, SCALE) == kept;
    assert NonZero(dropped) <==> Int(dropped) != 0;
    assert Micros(integer, fraction) == Int(integer + kept) + if Int(dropped) == 0 then 0 else 1;
    assert |fraction| == |dropped| + SCALE;
  }

  lemma Dropped(n: nat, r: nat, d: nat, s: nat)
    requires r < d && s > 0
    ensures Ceiling(n + if r == 0 then 0 else 1, (n * d + r) * s, d * s)
  {
    var q := n + if r == 0 then 0 else 1;
    assert q * (d * s) == (q * d) * s;
    assert n * d + r <= q * d < n * d + r + d by { assert q * d == n * d + if r == 0 then 0 else d; }
    Scaled(n * d + r, q * d, d, s);
  }

  lemma Scaled(a: nat, b: nat, d: nat, s: nat)
    requires a <= b < a + d && s > 0
    ensures a * s <= b * s < a * s + d * s
  {
    assert (a + d - b) * s > 0;
    assert (b - a) * s >= 0;
  }

  // Which inputs are accepted, and what for: exactly the plain decimals of at most 64 characters whose value, rounded up to
  // millionths, stays below one million; and the answer is the one text of that rounded value.
  lemma ParseRoundsUp(value: string, micros: nat)
    requires PlainDecimal(value) && Ceiling(micros, Numerator(value) * Power10(SCALE), Denominator(value))
    ensures Parse(value) == if |value| <= MAX_INPUT_LENGTH && micros < Power10(SCALE + MAX_INTEGER_DIGITS) then Some(Format(micros)) else None
  {
    MicrosRoundUp(Integer(value), Fraction(value));
    CeilingUnique(micros, Micros(Integer(value), Fraction(value)), Numerator(value) * Power10(SCALE), Denominator(value));
    TextLength(micros, SCALE + MAX_INTEGER_DIGITS);
  }

  // Accepted is exactly what is short enough, plain, and at most 999999.999999.
  lemma ParseAcceptsExactly(value: string)
    ensures Parse(value).Some? <==>
              && |value| <= MAX_INPUT_LENGTH && PlainDecimal(value)
              && Numerator(value) * Power10(SCALE) <= (Power10(SCALE + MAX_INTEGER_DIGITS) - 1) * Denominator(value)
  {
    hide Power10, Integer, Fraction;
    if PlainDecimal(value) {
      var micros, n, d := Micros(Integer(value), Fraction(value)), Numerator(value) * Power10(SCALE), Denominator(value);
      MicrosRoundUp(Integer(value), Fraction(value));
      ParseRoundsUp(value, micros);
      CeilingBelow(micros, n, d, Power10(SCALE + MAX_INTEGER_DIGITS) - 1);
    }
  }

  lemma CeilingBelow(q: nat, n: nat, d: nat, limit: nat)
    requires Ceiling(q, n, d) && d > 0
    ensures q <= limit <==> n <= limit * d
  {
    Times(q, limit, d);
    Times(limit, q, d);
  }

  // A larger value is never kept as a smaller amount.
  lemma ParseIsMonotone(a: string, b: string)
    requires PlainDecimal(a) && PlainDecimal(b) && |a| <= MAX_INPUT_LENGTH && Parse(b).Some?
    requires Numerator(a) * Denominator(b) <= Numerator(b) * Denominator(a)
    ensures Micros(Integer(a), Fraction(a)) <= Micros(Integer(b), Fraction(b)) && Parse(a).Some?
  {
    var p, q := Micros(Integer(a), Fraction(a)), Micros(Integer(b), Fraction(b));
    MicrosRoundUp(Integer(a), Fraction(a));
    MicrosRoundUp(Integer(b), Fraction(b));
    CeilingsOrdered(p, q, Numerator(a), Denominator(a), Numerator(b), Denominator(b), Power10(SCALE));
    ParseRoundsUp(a, p);
    ParseRoundsUp(b, q);
  }

  lemma CeilingsOrdered(p: nat, q: nat, n: nat, d: nat, m: nat, e: nat, s: nat)
    requires d > 0 && e > 0 && s > 0 && Ceiling(p, n * s, d) && Ceiling(q, m * s, e) && n * e <= m * d
    ensures p <= q
  {
    Times(n * e, m * d, s);
    Times(m * s, q * e, d);
    Swap(n, s, e);
    Swap(m, d, s);
    Swap(q, e, d);
    Cancel(n * s, q * d, e);
    Times(q, p, d);
  }

  lemma Swap(a: nat, b: nat, c: nat)
    ensures (a * b) * c == (a * c) * b
  {
    assert (a * b) * c == a * (b * c);
  }

  lemma Cancel(a: nat, b: nat, c: nat)
    requires c > 0 && a * c <= b * c
    ensures a <= b
  {
    Times(b, a, c);
  }

  /* ---- one text for every amount ---- */

  // A text put together from a whole part and decimals is read back as these.
  lemma DottedParts(whole: string, decimals: string)
    requires Digits(whole) && Digits(decimals) && |whole| > 0
    ensures var text := if decimals == "" then whole else whole + "." + decimals;
            PlainDecimal(text) && Integer(text) == whole && Fraction(text) == decimals
  {
    var text := if decimals == "" then whole else whole + "." + decimals;
    assert forall i :: 0 <= i < |whole| ==> text[i] == whole[i] && Digit(whole[i]);
    if decimals != "" { assert text[|whole|] == '.'; }
    assert Dot(text) == |whole|;
    if decimals != "" { assert text[|whole| + 1..] == decimals; }
    assert text[..|whole|] == whole;
  }

  lemma TrimmedPads(s: string)
    ensures PadEnd(TrimZeros(s), |s|) == s
  {}

  lemma FormatParts(micros: nat)
    ensures var digits := PadStart(ToText(micros), SCALE + 1); var cut := |digits| - SCALE;
            var decimals := TrimZeros(digits[cut..]);
            && cut > 0 && Digits(digits) && |decimals| <= SCALE
            && PlainDecimal(Format(micros)) && Integer(Format(micros)) == digits[..cut] && Fraction(Format(micros)) == decimals
            && PadEnd(decimals, SCALE) == digits[cut..]
  {
    hide PlainDecimal, Integer, Fraction, Int, PadEnd, ToText;
    PaddedReads(micros, SCALE + 1);
    var digits := PadStart(ToText(micros), SCALE + 1);
    var cut := |digits| - SCALE;
    TrimmedPads(digits[cut..]);
    DottedParts(digits[..cut], TrimZeros(digits[cut..]));
  }

  // The text of an amount reads as exactly that amount.
  lemma FormatReads(micros: nat)
    ensures PlainDecimal(Format(micros)) && Micros(Integer(Format(micros)), Fraction(Format(micros))) == micros
    ensures Numerator(Format(micros)) * Power10(SCALE) == micros * Denominator(Format(micros))
  {
    hide PlainDecimal, Integer, Fraction, Int, Format, PadStart, ToText, Power10;
    FormatParts(micros);
    PaddedReads(micros, SCALE + 1);
    var digits := PadStart(ToText(micros), SCALE + 1);
    var cut := |digits| - SCALE;
    var whole, decimals := digits[..cut], Fraction(Format(micros));
    assert whole + PadEnd(decimals, SCALE) == digits;
    ShortMicros(whole, decimals);
  }

  lemma ShortMicros(whole: string, decimals: string)
    requires Digits(whole) && Digits(decimals) && |decimals| <= SCALE && Digits(whole + decimals) && Digits(whole + PadEnd(decimals, SCALE))
    ensures Micros(whole, decimals) == Int(whole + PadEnd(decimals, SCALE))
    ensures Int(whole + decimals) * Power10(SCALE) == Int(whole + PadEnd(decimals, SCALE)) * Power10(|decimals|)
  {
    hide Int, Power10;
    var k := SCALE - |decimals|;
    assert Kept(decimals) == decimals && decimals[|decimals|..] == [];
    assert whole + PadEnd(decimals, SCALE) == (whole + decimals) + Zeros(k);
    IntAppends(whole + decimals, Zeros(k));
    IntZero(Zeros(k));
    Power10Adds(k, |decimals|);
    Regroup(Int(whole + decimals), Power10(k), Power10(|decimals|));
  }

  lemma Regroup(n: nat, a: nat, b: nat)
    ensures n * (a * b) == n * a * b
  {}

  // Reading an accepted amount again changes nothing, and different amounts have different texts.
  lemma ParseIsIdempotent(value: string)
    requires Parse(value).Some?
    ensures Parse(Parse(value).value) == Parse(value)
  {
    var micros := Micros(Integer(value), Fraction(value));
    FormatReads(micros);
    FormatParts(micros);
    assert |Format(micros)| <= MAX_INTEGER_DIGITS + 1 + SCALE;
  }

  lemma FormatIsCanonical(a: nat, b: nat)
    ensures Format(a) == Format(b) <==> a == b
  {
    FormatReads(a);
    FormatReads(b);
  }
}
