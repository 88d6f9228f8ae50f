/**
 Printing a price with dots between groups of three digits, and reading it back.
 A number is `mantissa / 10^scale`, in the decimal form JavaScript prints it.
 */
module Price {
  import opened Prelude

  // ---------------------------------------------------------- decimal text

  predicate AllDigits(t: string) {
    forall k :: 0 <= k < |t| ==> IsDigit(t[k])
  }

  /** The decimal digits of a number, with leading zeros up to the width. */
  function Digits(n: nat, width: nat): (digits: string)
    ensures AllDigits(digits) && |digits| >= 1 && |digits| >= width
  {
    var last := [('0' as int + n % 10) as char];
    if n < 10 && width <= 1 then last else Digits(n / 10, if width == 0 then 0 else width - 1) + last
  }

  /** The number that a text of digits stands for. */
  function Value(digits: string): nat
    requires AllDigits(digits)
  {
    if digits == "" then 0
    else Value(digits[..|digits| - 1]) * 10 + (digits[|digits| - 1] as int - '0' as int)
  }

  lemma {:induction false} DigitsValue(n: nat, width: nat)
    ensures Value(Digits(n, width)) == n
  {
    var digits := Digits(n, width);
    if !(n < 10 && width <= 1) {
      var rest := if width == 0 then 0 else width - 1;
      DigitsValue(n / 10, rest);
      assert digits[..|digits| - 1] == Digits(n / 10, rest);
    }
  }

  lemma DigitsPush(n: nat, d: nat)
    requires n > 0 && d < 10
    ensures Digits(10 * n + d, 0) == Digits(n, 0) + [('0' as int + d) as char]
  {
    assert (10 * n + d) / 10 == n && (10 * n + d) % 10 == d;
  }

  /** Texts without a leading zero are the ones that positive numbers print to. */
  lemma {:induction false} ValueDigits(digits: string)
    requires AllDigits(digits) && digits != "" && digits[0] != '0'
    ensures Digits(Value(digits), 0) == digits && Value(digits) > 0
  {
    var front, last := digits[..|digits| - 1], digits[|digits| - 1];
    var d := last as int - '0' as int;
    assert ('0' as int + d) as char == last;
    if front == "" {
      assert Value(front) == 0;
      assert digits == [last];
    } else {
      ValueDigits(front);
      DigitsPush(Value(front), d);
    }
  }

  datatype Number = Number(mantissa: int, scale: nat)

  function Power(n: nat): nat {
    if n == 0 then 1 else 10 * Power(n - 1)
  }

  lemma {:induction false} PowerGrows(n: nat)
    ensures Power(n) >= 1 && (n > 0 ==> Power(n) >= 10)
  {
    if n > 0 {
      PowerGrows(n - 1);
    }
  }

  function Magnitude(n: int): nat {
    if n < 0 then -n else n
  }

  function Sign(n: int): string {
    if n < 0 then "-" else ""
  }

  /** `toString()`, for numbers printed without an exponent. */
  function ToString(price: Number): string {
    var digits := Digits(Magnitude(price.mantissa), price.scale + 1);
    Sign(price.mantissa)
    + if price.scale == 0 then digits
      else digits[..|digits| - price.scale] + "." + digits[|digits| - price.scale..]
  }

  // -------------------------------------------------- the regular expression

  predicate IsWord(c: char) {
    IsDigit(c) || 'a' <= c <= 'z' || 'A' <= c <= 'Z' || c == '_'
  }

  predicate WordAt(t: string, p: int) {
    0 <= p < |t| && IsWord(t[p])
  }

  /** `\B(?=(\d{3})+(?!\d))` matches the empty text at `p`. */
  ghost predicate Matches(t: string, p: nat) {
    && (WordAt(t, p - 1) <==> WordAt(t, p))
    && exists k: nat :: ThreesAt(t, p, k)
  }

  /** From `p` there are `k` times three digits, at least once, and then no digit. */
  ghost predicate ThreesAt(t: string, p: nat, k: nat) {
    && k >= 1 && p + 3 * k <= |t|
    && AllDigits(t[p..p + 3 * k])
    && !(p + 3 * k < |t| && IsDigit(t[p + 3 * k]))
  }

  /** The number of digits from `p` up to the next other character. */
  function DigitRun(t: string, p: nat): (run: nat)
    requires p <= |t|
    ensures p + run <= |t| && AllDigits(t[p..p + run]) && !(p + run < |t| && IsDigit(t[p + run]))
    decreases |t| - p
  {
    if p < |t| && IsDigit(t[p]) then
      var rest := DigitRun(t, p + 1);
      assert t[p..p + 1 + rest] == [t[p]] + t[p + 1..p + 1 + rest];
      1 + rest
    else 0
  }

  /** A dot goes where the digits to come are a positive multiple of three, and not in front of them all. */
  predicate Cut(t: string, p: nat)
    requires p <= |t|
  {
    && (WordAt(t, p - 1) <==> WordAt(t, p))
    && DigitRun(t, p) > 0 && DigitRun(t, p) % 3 == 0
  }

  lemma CutIsMatch(t: string, p: nat)
    requires p <= |t|
    ensures Cut(t, p) <==> Matches(t, p)
  {
    var run := DigitRun(t, p);
    if run > 0 && run % 3 == 0 {
      assert ThreesAt(t, p, run / 3);
    }
    forall k: nat | ThreesAt(t, p, k)
      ensures run == 3 * k
    {
      RunIs(t, p, 3 * k);
    }
  }

  lemma {:induction false} RunIs(t: string, p: nat, n: nat)
    requires p + n <= |t| && AllDigits(t[p..p + n]) && !(p + n < |t| && IsDigit(t[p + n]))
    ensures DigitRun(t, p) == n
    decreases n
  {
    if n > 0 {
      assert IsDigit(t[p..p + n][0]);
      assert t[p + 1..p + n] == t[p..p + n][1..];
      RunIs(t, p + 1, n - 1);
    }
  }

  /** The text from `p` on, with a dot put in at every match. */
  function Dotted(t: string, p: nat): string
    requires p <= |t|
    decreases |t| - p
  {
    if p == |t| then ""
    else (if Cut(t, p) then "." else "") + [t[p]] + Dotted(t, p + 1)
  }

  // ------------------------------------------------------ printing and reading

  /** `formatPrice`. */
  function FormatPrice(price: Option<Number>): string {
    if price == None || price.value.mantissa == 0 then "" else Dotted(ToString(price.value), 0)
  }

  function WithoutDots(t: string): string {
    if t == "" then ""
    else (if t[0] == '.' then "" else [t[0]]) + WithoutDots(t[1..])
  }

  /** `parseFloat` of a text without dots: a sign and the digits up to the first other character. */
  function ParseFloat(t: string): Option<int> {
    var start := if t != "" && t[0] in {'-', '+'} then 1 else 0;
    var run := DigitRun(t, start);
    if run == 0 then None
    else
      var value: int := Value(t[start..start + run]);
      Some(if t[0] == '-' then -value else value)
  }

  /** `parsePrice`. */
  function ParsePrice(text: Option<string>): Option<int> {
    if text == None || text.value == "" then None else ParseFloat(WithoutDots(text.value))
  }

  // ----------------------------------------------------------- the round trip

  lemma {:induction false} WithoutDotsConcat(a: string, b: string)
    ensures WithoutDots(a + b) == WithoutDots(a) + WithoutDots(b)
  {
    if a == "" {
      assert a + b == b;
    } else {
      assert (a + b)[1..] == a[1..] + b;
      WithoutDotsConcat(a[1..], b);
    }
  }

  lemma {:induction false} NoDots(t: string)
    requires forall k :: 0 <= k < |t| ==> t[k] != '.'
    ensures WithoutDots(t) == t
  {
    if t != "" {
      NoDots(t[1..]);
    }
  }

  /** Taking the dots out undoes putting them in, on any text. */
  lemma {:induction false} DotsUndo(t: string, p: nat)
    requires p <= |t|
    ensures WithoutDots(Dotted(t, p)) == WithoutDots(t[p..])
    decreases |t| - p
  {
    if p < |t| {
      DotsUndo(t, p + 1);
      var dot := if Cut(t, p) then "." else "";
      WithoutDotsConcat(dot + [t[p]], Dotted(t, p + 1));
      WithoutDotsConcat(dot, [t[p]]);
      WithoutDotsConcat([t[p]], t[p + 1..]);
      assert t[p..] == [t[p]] + t[p + 1..];
      assert WithoutDots(".") == "";
    }
  }

  lemma DotInside(a: string, b: string)
    requires AllDigits(a) && AllDigits(b)
    ensures WithoutDots(a + "." + b) == a + b
  {
    WithoutDotsConcat(a + ".", b);
    WithoutDotsConcat(a, ".");
    NoDots(a);
    NoDots(b);
    assert WithoutDots(".") == "";
  }

  /** Without its dot, a number prints as its mantissa does, with zeros in front. */
  lemma TextWithoutDots(price: Number)
    ensures WithoutDots(ToString(price)) == Sign(price.mantissa) + Digits(Magnitude(price.mantissa), price.scale + 1)
  {
    var sign, digits := Sign(price.mantissa), Digits(Magnitude(price.mantissa), price.scale + 1);
    var k := |digits| - price.scale;
    var body := if price.scale == 0 then digits else digits[..k] + "." + digits[k..];
    NoDots(sign);
    WithoutDotsConcat(sign, body);
    if price.scale == 0 {
      NoDots(digits);
    } else {
      DotInside(digits[..k], digits[k..]);
      assert digits[..k] + digits[k..] == digits;
    }
  }

  function Negated(n: int): int {
    -n
  }

  lemma ParseDigits(digits: string)
    requires AllDigits(digits) && digits != ""
    ensures ParseFloat(digits) == Some(Value(digits))
  {
    assert digits[0..|digits|] == digits;
    RunIs(digits, 0, |digits|);
    assert IsDigit(digits[0]);
  }

  lemma ParseNegated(t: string, digits: string)
    requires AllDigits(digits) && digits != "" && t != "" && t[0] == '-' && t[1..] == digits
    ensures ParseFloat(t) == Some(Negated(Value(digits)))
  {
    WholeRun(t, 1);
    assert t[1..1 + |digits|] == digits;
  }

  lemma ParseSigned(n: int, width: nat)
    ensures ParseFloat(Sign(n) + Digits(Magnitude(n), width)) == Some(n)
  {
    var digits := Digits(Magnitude(n), width);
    DigitsValue(Magnitude(n), width);
    if n < 0 {
      ParseNegated(Sign(n) + digits, digits);
    } else {
      ParseDigits(digits);
      assert Sign(n) + digits == digits;
    }
  }

  lemma WholeRun(t: string, p: nat)
    requires p <= |t| && AllDigits(t[p..])
    ensures DigitRun(t, p) == |t| - p
  {
    assert t[p..] == t[p..p + (|t| - p)];
    RunIs(t, p, |t| - p);
  }

  /** What is read back is the mantissa. */
  lemma ReadsMantissa(price: Number)
    ensures ParsePrice(Some(FormatPrice(Some(price)))) == if price.mantissa == 0 then None else Some(price.mantissa)
  {
    if price.mantissa != 0 {
      var t := ToString(price);
      DotsUndo(t, 0);
      assert t[0..] == t;
      TextWithoutDots(price);
      ParseSigned(price.mantissa, price.scale + 1);
    }
  }

  lemma {:induction false} ValueSplit(digits: string, k: nat)
    requires AllDigits(digits) && k <= |digits|
    ensures Value(digits) == Value(digits[..|digits| - k]) * Power(k) + Value(digits[|digits| - k..])
    decreases k
  {
    if k == 0 {
      assert digits[..|digits|] == digits;
    } else {
      var front := digits[..|digits| - 1];
      ValueSplit(front, k - 1);
      var whole, rest := digits[..|digits| - k], digits[|digits| - k..];
      assert front[..|front| - (k - 1)] == whole && front[|front| - (k - 1)..] == rest[..k - 1];
      Tenfold(Value(whole), Power(k - 1));
    }
  }

  lemma Tenfold(a: nat, power: nat)
    ensures a * (10 * power) == 10 * (a * power)
  {
  }

  /** The point is in the right place: what is printed before and after it stands for the number. */
  lemma TextDenotes(price: Number) returns (whole: string, fraction: string)
    requires price.scale > 0
    ensures AllDigits(whole) && AllDigits(fraction) && whole != "" && |fraction| == price.scale
    ensures ToString(price) == (if price.mantissa < 0 then "-" else "") + whole + "." + fraction
    ensures Value(whole) * Power(price.scale) + Value(fraction) == if price.mantissa < 0 then -price.mantissa else price.mantissa
  {
    var digits := Digits(Magnitude(price.mantissa), price.scale + 1);
    whole, fraction := digits[..|digits| - price.scale], digits[|digits| - price.scale..];
    ValueSplit(digits, price.scale);
    DigitsValue(Magnitude(price.mantissa), price.scale + 1);
    Regroup(Sign(price.mantissa), whole, "." + fraction);
    Regroup(Sign(price.mantissa) + whole, ".", fraction);
    assert whole + ("." + fraction) == whole + "." + fraction;
  }

  function AsReal(price: Number): real {
    PowerGrows(price.scale);
    price.mantissa as real / Power(price.scale) as real
  }

  /** A price survives printing and reading exactly if it is a whole number other than zero. */
  lemma RoundTrip(price: Number)
    ensures var back := ParsePrice(Some(FormatPrice(Some(price))));
            (back.Some? && back.value as real == AsReal(price)) <==> (price.mantissa != 0 && price.scale == 0)
  {
    ReadsMantissa(price);
    PowerGrows(price.scale);
    var m, power := price.mantissa as real, Power(price.scale) as real;
    if m != 0.0 {
      SameQuotient(m, power);
    }
  }

  lemma SameQuotient(m: real, power: real)
    requires m != 0.0 && power >= 1.0
    ensures m / power == m <==> power == 1.0
  {
    assert (m / power) * power == m;
    assert m / power == m ==> m * power == m;
    assert m * (power - 1.0) == m * power - m;
  }

  // ---------------------------------------------------------------- the groups

  /** Groups of exactly three digits after a first group of one to three. */
  function Grouped(digits: string): string {
    if |digits| <= 3 then digits
    else Grouped(digits[..|digits| - 3]) + "." + digits[|digits| - 3..]
  }

  lemma DigitCut(digits: string, p: nat)
    requires AllDigits(digits) && p <= |digits|
    ensures Cut(digits, p) <==> 0 < p < |digits| && (|digits| - p) % 3 == 0
  {
    assert AllDigits(digits[p..]);
    WholeRun(digits, p);
  }

  lemma {:induction false} LastGroup(digits: string, p: nat)
    requires AllDigits(digits) && p <= |digits| && |digits| - p < 3
    ensures Dotted(digits, p) == digits[p..]
    decreases |digits| - p
  {
    if p < |digits| {
      DigitCut(digits, p);
      LastGroup(digits, p + 1);
    }
  }

  lemma DottedStep(t: string, p: nat)
    requires p < |t|
    ensures Dotted(t, p) == (if Cut(t, p) then "." else "") + [t[p]] + Dotted(t, p + 1)
  {
  }

  lemma SameCuts(digits: string, front: string, p: nat)
    requires AllDigits(digits) && |digits| > 3 && front == digits[..|digits| - 3] && p < |front|
    ensures Cut(digits, p) <==> Cut(front, p)
  {
    DigitCut(digits, p);
    DigitCut(front, p);
    assert |digits| - p == |front| - p + 3;
  }

  lemma GroupStart(digits: string, p: nat)
    requires AllDigits(digits) && |digits| > 3 && p == |digits| - 3
    ensures Dotted(digits, p) == "." + digits[p..]
  {
    DigitCut(digits, p);
    LastGroup(digits, p + 1);
    DottedStep(digits, p);
    assert "." + [digits[p]] + digits[p + 1..] == "." + digits[p..];
  }

  /** Cutting the last group off a run of digits changes nothing in front of it. */
  lemma {:induction false} GroupOff(digits: string, front: string, last: string, p: nat)
    requires AllDigits(digits) && |last| == 3 && front != "" && digits == front + last && p <= |front|
    ensures Dotted(digits, p) == Dotted(front, p) + ("." + last)
    decreases |front| - p
  {
    if p == |front| {
      GroupStart(digits, p);
      assert digits[p..] == last && Dotted(front, p) == "";
    } else {
      GroupOff(digits, front, last, p + 1);
      assert front == digits[..|digits| - 3];
      SameCuts(digits, front, p);
      DottedStep(digits, p);
      DottedStep(front, p);
      Regroup((if Cut(front, p) then "." else "") + [digits[p]], Dotted(front, p + 1), "." + last);
    }
  }

  lemma Regroup(a: string, b: string, c: string)
    ensures a + (b + c) == a + b + c
  {
  }

  lemma {:induction false} DottedIsGrouped(digits: string)
    requires AllDigits(digits)
    ensures Dotted(digits, 0) == Grouped(digits)
  {
    if |digits| > 3 {
      var front, last := digits[..|digits| - 3], digits[|digits| - 3..];
      GroupOff(digits, front, last, 0);
      Regroup(Dotted(front, 0), ".", last);
      DottedIsGrouped(digits[..|digits| - 3]);
    } else if |digits| == 3 {
      DigitCut(digits, 0);
      LastGroup(digits, 1);
      assert digits == [digits[0]] + digits[1..];
    } else {
      LastGroup(digits, 0);
      assert digits[0..] == digits;
    }
  }

  lemma {:induction false} AfterSign(digits: string, p: nat)
    requires AllDigits(digits) && p <= |digits|
    ensures Dotted("-" + digits, p + 1) == Dotted(digits, p)
    decreases |digits| - p
  {
    var t := "-" + digits;
    if p < |digits| {
      assert t[p + 1..] == digits[p..];
      WholeRun(t, p + 1);
      WholeRun(digits, p);
      AfterSign(digits, p + 1);
    }
  }

  /** A whole price prints as its sign and its grouped digits. */
  lemma WholePricesAreGrouped(n: int)
    requires n != 0
    ensures FormatPrice(Some(Number(n, 0))) == Sign(n) + Grouped(Digits(Magnitude(n), 1))
  {
    var digits := Digits(Magnitude(n), 1);
    DottedIsGrouped(digits);
    if n < 0 {
      var t := "-" + digits;
      AfterSign(digits, 0);
      assert DigitRun(t, 0) == 0;
    } else {
      assert "" + digits == digits;
    }
  }

  /** The dots are at every fourth place from the end, and nowhere else. */
  lemma {:induction false} DotsInPlace(digits: string, i: nat)
    requires AllDigits(digits) && i < |Grouped(digits)|
    ensures var text := Grouped(digits);
            if (|text| - i) % 4 == 0 then text[i] == '.' else IsDigit(text[i])
    decreases |digits|
  {
    if |digits| > 3 {
      var front, last := digits[..|digits| - 3], digits[|digits| - 3..];
      if i < |Grouped(front)| {
        DotsInPlace(front, i);
      } else if i > |Grouped(front)| {
        assert Grouped(digits)[i] == last[i - |Grouped(front)| - 1];
      }
    } else {
      assert Grouped(digits)[i] == digits[i];
    }
  }

  /** The first group is not empty. */
  lemma {:induction false} FirstGroup(digits: string)
    requires AllDigits(digits) && digits != ""
    ensures Grouped(digits) != "" && Grouped(digits)[0] == digits[0] && IsDigit(digits[0])
    decreases |digits|
  {
    if |digits| > 3 {
      FirstGroup(digits[..|digits| - 3]);
    }
  }

  /** Reading a grouped text without leading zeros and printing it again gives the text back. */
  lemma PrintsWhatItRead(digits: string)
    requires AllDigits(digits) && digits != "" && digits[0] != '0'
    ensures ParsePrice(Some(Grouped(digits))) == Some(Value(digits))
    ensures FormatPrice(Some(Number(Value(digits), 0))) == Grouped(digits)
  {
    ValueDigits(digits);
    assert Digits(Value(digits), 1) == digits by {
      WidthOne(Value(digits));
    }
    WholePricesAreGrouped(Value(digits));
    assert "" + Grouped(digits) == Grouped(digits);
    ReadsMantissa(Number(Value(digits), 0));
  }

  lemma WidthOne(n: nat)
    ensures Digits(n, 1) == Digits(n, 0)
  {
  }
}
