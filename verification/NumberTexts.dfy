/**
  Numbers as JSON.stringify writes them, and that no two numbers share a text.
 */
module NumberTexts {
  import opened Wrappers
  import opened JsText
  import opened JsonObjects

  const MINUS: CodeUnit := 45
  const PLUS: CodeUnit := 43
  const DOT: CodeUnit := 46
  const EXPONENT: CodeUnit := 101

  function Zeros(n: nat): (t: Text)
    ensures |t| == n && forall i :: 0 <= i < n ==> t[i] == ZERO
  {
    if n == 0 then [] else Zeros(n - 1) + [ZERO]
  }

  function DigitsOf(n: nat): (t: Text)
    ensures t != []
  {
    if n < 10 then [(48 + n) as CodeUnit] else DigitsOf(n / 10) + [(48 + n % 10) as CodeUnit]
  }

  // ------------------------------------------------------------ the shape of a number

  /** The digits of a number, read as one numeral. */
  function Significant(n: Number): nat
    requires n.Decimal?
  {
    n.front * 10 + n.last as int
  }

  /** The digits of a number, as a text. */
  function Row(n: Number): (t: Text)
    requires n.Decimal?
    ensures t != []
  {
    DigitsOf(Significant(n))
  }

  datatype Shape = Whole | Mixed | Small | Scientific

  function ShapeOf(n: Number): Shape
    requires n.Decimal?
  {
    if |Row(n)| <= n.point <= 21 then Whole
    else if 0 < n.point <= 21 then Mixed
    else if -6 < n.point <= 0 then Small
    else Scientific
  }

  /** The digits before the point. */
  function IntPart(n: Number): Text {
    if n.Zero? then [ZERO]
    else
      match ShapeOf(n)
      case Whole => Row(n) + Zeros(n.point - |Row(n)|)
      case Mixed => Row(n)[..n.point]
      case Small => [ZERO]
      case Scientific => Row(n)[..1]
  }

  /** The digits behind the point; none means that there is no point. */
  function Fraction(n: Number): Text {
    if n.Zero? then []
    else
      match ShapeOf(n)
      case Whole => []
      case Mixed => Row(n)[n.point..]
      case Small => Zeros(-n.point) + Row(n)
      case Scientific => Row(n)[1..]
  }

  function ExponentOf(n: Number): Option<int> {
    if n.Decimal? && ShapeOf(n).Scientific? then Some(n.point - 1) else None
  }

  predicate Negative(n: Number) { n.Decimal? && n.negative }

  function FractionText(f: Text, rest: Text): Text { if f == [] then rest else [DOT] + (f + rest) }

  function ExponentText(e: Option<int>, rest: Text): Text {
    if e == None then rest
    else [EXPONENT, if e.value < 0 then MINUS else PLUS] + (DigitsOf(if e.value < 0 then -e.value else e.value) + rest)
  }

  function BodyText(n: Number, rest: Text): Text {
    IntPart(n) + FractionText(Fraction(n), ExponentText(ExponentOf(n), rest))
  }

  /** The number's text, followed by rest. */
  function NumberText(n: Number, rest: Text): Text {
    if Negative(n) then [MINUS] + BodyText(n, rest) else BodyText(n, rest)
  }

  // ------------------------------------------------------------ reading a text back

  /** The text does not go on with a part of a number. */
  predicate Ends(t: Text) { t == [] || !(ZERO <= t[0] <= NINE || t[0] == DOT || t[0] == EXPONENT) }

  predicate NoDigit(t: Text) { t == [] || !(ZERO <= t[0] <= NINE) }

  lemma Cons(a: CodeUnit, x: Text, b: CodeUnit, y: Text)
    requires [a] + x == [b] + y
    ensures a == b && x == y
  {
    assert ([a] + x)[0] == a && ([a] + x)[1..] == x;
    assert ([b] + y)[0] == b && ([b] + y)[1..] == y;
  }

  lemma SameSplit(a: Text, r: Text, b: Text, q: Text)
    requires a + r == b + q && |a| == |b|
    ensures a == b && r == q
  {
    assert (a + r)[..|a|] == a && (b + q)[..|b|] == b;
    assert (a + r)[|a|..] == r && (b + q)[|b|..] == q;
  }

  lemma DigitRun(a: Text, r: Text, b: Text, q: Text)
    requires Digits(a) && NoDigit(q) && a + r == b + q
    ensures |a| <= |b|
  {
    var x := a + r;
    assert x == b + q;
    assert forall k :: 0 <= k < |a| ==> ZERO <= x[k] <= NINE;
    assert q != [] ==> x[|b|] == q[0];
  }

  lemma DigitsAreUnique(a: Text, r: Text, b: Text, q: Text)
    requires Digits(a) && Digits(b) && NoDigit(r) && NoDigit(q) && a + r == b + q
    ensures a == b && r == q
  {
    DigitRun(a, r, b, q);
    DigitRun(b, q, a, r);
    SameSplit(a, r, b, q);
  }

  lemma {:induction false} DigitsOfMeaning(n: nat)
    ensures Digits(DigitsOf(n)) && DigitsOf(n) != [] && Value(DigitsOf(n)) == n
  {
    if n >= 10 {
      DigitsOfMeaning(n / 10);
      assert DigitsOf(n)[..|DigitsOf(n)| - 1] == DigitsOf(n / 10);
    } else {
      assert DigitsOf(n)[..0] == [];
    }
  }

  lemma {:induction false} NoLeadingZero(n: nat)
    requires n > 0
    ensures DigitsOf(n)[0] != ZERO
  {
    if n >= 10 {
      NoLeadingZero(n / 10);
      assert DigitsOf(n)[0] == DigitsOf(n / 10)[0];
    }
  }

  lemma RowIsTight(n: Number)
    requires n.Decimal?
    ensures Digits(Row(n)) && Row(n)[0] != ZERO && Row(n)[|Row(n)| - 1] != ZERO && Value(Row(n)) == Significant(n)
  {
    DigitsOfMeaning(Significant(n));
    NoLeadingZero(Significant(n));
  }

  lemma ExponentIsUnique(e: Option<int>, r: Text, f: Option<int>, q: Text)
    requires ExponentText(e, r) == ExponentText(f, q) && Ends(r) && Ends(q)
    ensures e == f && r == q
  {
    if e.Some? && f.Some? {
      var m := if e.value < 0 then -e.value else e.value;
      var n := if f.value < 0 then -f.value else f.value;
      DigitsOfMeaning(m);
      DigitsOfMeaning(n);
      SameSplit([EXPONENT, if e.value < 0 then MINUS else PLUS], DigitsOf(m) + r,
                [EXPONENT, if f.value < 0 then MINUS else PLUS], DigitsOf(n) + q);
      SameSigns(if e.value < 0 then MINUS else PLUS, if f.value < 0 then MINUS else PLUS);
      DigitsAreUnique(DigitsOf(m), r, DigitsOf(n), q);
    }
  }

  lemma SameSigns(a: CodeUnit, b: CodeUnit)
    requires [EXPONENT, a] == [EXPONENT, b]
    ensures a == b
  {
    assert [EXPONENT, a][1] == [EXPONENT, b][1];
  }

  lemma ExponentStart(e: Option<int>, r: Text)
    requires Ends(r)
    ensures NoDigit(ExponentText(e, r)) && (ExponentText(e, r) != [] ==> ExponentText(e, r)[0] != DOT)
  {}

  lemma FractionIsUnique(f: Text, x: Text, g: Text, y: Text)
    requires Digits(f) && Digits(g) && FractionText(f, x) == FractionText(g, y)
    requires NoDigit(x) && NoDigit(y) && (x != [] ==> x[0] != DOT) && (y != [] ==> y[0] != DOT)
    ensures f == g && x == y
  {
    if f != [] && g != [] {
      Cons(DOT, f + x, DOT, g + y);
      DigitsAreUnique(f, x, g, y);
    }
  }

  lemma PartsAreDigits(n: Number)
    ensures Digits(IntPart(n)) && Digits(Fraction(n)) && IntPart(n) != []
  {
    if n.Decimal? {
      RowIsTight(n);
      match ShapeOf(n)
      case Whole => DigitsConcat(Row(n), Zeros(n.point - |Row(n)|));
      case Mixed => DigitsCut(Row(n), n.point);
      case Small => DigitsConcat(Zeros(-n.point), Row(n));
      case Scientific => DigitsCut(Row(n), 1);
    }
  }

  lemma DigitsConcat(a: Text, b: Text)
    requires Digits(a) && Digits(b)
    ensures Digits(a + b)
  {}

  lemma DigitsCut(a: Text, k: nat)
    requires Digits(a) && k <= |a|
    ensures Digits(a[..k]) && Digits(a[k..])
  {
    forall i | 0 <= i < |a[k..]|
      ensures ZERO <= a[k..][i] <= NINE
    {
      assert a[k..][i] == a[k + i];
    }
  }

  /** The three parts of a number, and what follows it, can be read off the text. */
  lemma BodyIsUnique(n: Number, r: Text, m: Number, q: Text)
    requires BodyText(n, r) == BodyText(m, q) && Ends(r) && Ends(q)
    ensures IntPart(n) == IntPart(m) && Fraction(n) == Fraction(m) && ExponentOf(n) == ExponentOf(m) && r == q
  {
    var x, y := ExponentText(ExponentOf(n), r), ExponentText(ExponentOf(m), q);
    PartsAreDigits(n);
    PartsAreDigits(m);
    ExponentStart(ExponentOf(n), r);
    ExponentStart(ExponentOf(m), q);
    DigitsAreUnique(IntPart(n), FractionText(Fraction(n), x), IntPart(m), FractionText(Fraction(m), y));
    FractionIsUnique(Fraction(n), x, Fraction(m), y);
    ExponentIsUnique(ExponentOf(n), r, ExponentOf(m), q);
  }

  // ------------------------------------------------------------ the parts determine the number

  /** The digits of a decimal lie among the digits of its text, with zeros before and behind. */
  function Lead(n: Number): nat { if n.Decimal? && ShapeOf(n).Small? then 1 - n.point else 0 }
  function Trail(n: Number): nat { if n.Decimal? && ShapeOf(n).Whole? then n.point - |Row(n)| else 0 }

  lemma DigitsWithin(n: Number)
    requires n.Decimal?
    ensures IntPart(n) + Fraction(n) == Padded(Lead(n), Row(n), Trail(n))
    ensures n.point == |IntPart(n)| - Lead(n) + (if ExponentOf(n).Some? then ExponentOf(n).value else 0)
  {
    match ShapeOf(n)
    case Whole => PaddedBehind(Row(n), n.point - |Row(n)|);
    case Mixed => PaddedSplit(Row(n), n.point);
    case Small => PaddedBefore(Row(n), -n.point);
    case Scientific => PaddedSplit(Row(n), 1);
  }

  function Padded(z: nat, d: Text, t: nat): Text { Zeros(z) + d + Zeros(t) }

  lemma PaddedBehind(d: Text, t: nat)
    ensures d + Zeros(t) + [] == Padded(0, d, t)
  {}

  lemma PaddedSplit(d: Text, k: nat)
    requires k <= |d|
    ensures d[..k] + d[k..] == Padded(0, d, 0)
  {}

  lemma PaddedBefore(d: Text, z: nat)
    ensures [ZERO] + (Zeros(z) + d) == Padded(z + 1, d, 0)
  {
    assert [ZERO] + Zeros(z) == Zeros(z + 1);
  }

  lemma PaddedAt(z: nat, d: Text, t: nat, k: nat)
    requires k < |Padded(z, d, t)|
    ensures |Padded(z, d, t)| == z + |d| + t
    ensures Padded(z, d, t)[k] == if z <= k < z + |d| then d[k - z] else ZERO
  {}

  lemma StripIsUnique(z: nat, d: Text, t: nat, y: nat, e: Text, s: nat)
    requires Padded(z, d, t) == Padded(y, e, s)
    requires d != [] && d[0] != ZERO && d[|d| - 1] != ZERO && e != [] && e[0] != ZERO && e[|e| - 1] != ZERO
    ensures z == y && d == e
  {
    StripStart(z, d, t, y, e, s);
    StripStart(y, e, s, z, d, t);
    StripEnd(z, d, t, y, e, s);
    StripEnd(y, e, s, z, d, t);
    PaddedMiddle(z, d, t);
    PaddedMiddle(y, e, s);
  }

  lemma PaddedMiddle(z: nat, d: Text, t: nat)
    ensures |Padded(z, d, t)| == z + |d| + t && Padded(z, d, t)[z..z + |d|] == d
  {}

  lemma StripStart(z: nat, d: Text, t: nat, y: nat, e: Text, s: nat)
    requires Padded(z, d, t) == Padded(y, e, s) && d != [] && d[0] != ZERO
    ensures y <= z
  {
    PaddedAt(z, d, t, z);
    PaddedAt(y, e, s, z);
  }

  lemma StripEnd(z: nat, d: Text, t: nat, y: nat, e: Text, s: nat)
    requires Padded(z, d, t) == Padded(y, e, s) && d != [] && d[|d| - 1] != ZERO
    ensures z + |d| <= y + |e|
  {
    PaddedAt(z, d, t, z + |d| - 1);
    PaddedAt(y, e, s, z + |d| - 1);
  }

  lemma PartsDetermine(n: Number, m: Number)
    requires IntPart(n) == IntPart(m) && Fraction(n) == Fraction(m) && ExponentOf(n) == ExponentOf(m)
    requires Negative(n) == Negative(m)
    ensures n == m
  {
    if n.Decimal? && m.Decimal? {
      DigitsWithin(n);
      DigitsWithin(m);
      RowIsTight(n);
      RowIsTight(m);
      StripIsUnique(Lead(n), Row(n), Trail(n), Lead(m), Row(m), Trail(m));
    } else if n.Decimal? {
      DecimalIsNotZero(n, m);
    } else if m.Decimal? {
      DecimalIsNotZero(m, n);
    }
  }

  lemma DecimalIsNotZero(n: Number, z: Number)
    requires n.Decimal? && z.Zero?
    ensures IntPart(n) + Fraction(n) != IntPart(z) + Fraction(z)
  {
    DigitsWithin(n);
    RowIsTight(n);
    PaddedAt(Lead(n), Row(n), Trail(n), Lead(n));
  }

  lemma NumberStart(n: Number, r: Text)
    ensures NumberText(n, r) != []
    ensures NumberText(n, r)[0] == MINUS || ZERO <= NumberText(n, r)[0] <= NINE
    ensures if Negative(n) then NumberText(n, r)[0] == MINUS else ZERO <= NumberText(n, r)[0] <= NINE
  {
    PartsAreDigits(n);
    if !Negative(n) {
      assert NumberText(n, r)[0] == IntPart(n)[0];
    }
  }

  /** No two numbers share a text, whatever follows it. */
  lemma NumberIsUnique(n: Number, r: Text, m: Number, q: Text)
    requires NumberText(n, r) == NumberText(m, q) && Ends(r) && Ends(q)
    ensures n == m && r == q
  {
    NumberStart(n, r);
    NumberStart(m, q);
    if Negative(n) {
      Cons(MINUS, BodyText(n, r), MINUS, BodyText(m, q));
    }
    BodyIsUnique(n, r, m, q);
    PartsDetermine(n, m);
  }
}
