/**
 * Exact decimal strings (internal/units/eth.go): conversion between an unsigned
 * decimal amount and its canonical integer at scale 10^18, and the string order
 * by which the metric extremes are read from SQLite.
 */
module Units {
  import opened Results

  const DECIMALS: nat := 18
  const MAX_DIGITS: nat := 256
  /** unitsPerCurrency: 10^18. */
  const UNIT: nat := 1_000_000_000_000_000_000

  datatype UnitsError = Required | NotADecimal | TooManyPlaces | TooManyDigits | NotUnits

  // ---- Digit strings and their values ----

  predicate IsDigit(c: char) { '0' <= c <= '9' }

  predicate AllDigits(s: string) {
    forall i :: 0 <= i < |s| ==> IsDigit(s[i])
  }

  predicate Digits(s: string) {
    s != "" && AllDigits(s)
  }

  /** The form big.Int.String() prints: no leading zero. */
  predicate Canonical(s: string) {
    Digits(s) && (|s| > 1 ==> s[0] != '0')
  }

  function Digit(c: char): nat
    requires IsDigit(c)
  {
    c as int - '0' as int
  }

  /** n times 10^k, which avoids products of two unknowns. */
  function Shift(n: nat, k: nat): nat {
    if k == 0 then n else 10 * Shift(n, k - 1)
  }

  /** The number a digit string denotes; the empty string denotes 0. */
  function Value(s: string): nat
    requires AllDigits(s)
  {
    if s == "" then 0 else Value(s[..|s| - 1]) * 10 + Digit(s[|s| - 1])
  }

  /** big.Int.String() of a nonnegative number. */
  function Text(n: nat): (s: string)
    ensures Canonical(s) && Value(s) == n
  {
    if n < 10 then
      [('0' as int + n) as char]
    else
      Text(n / 10) + [('0' as int + n % 10) as char]
  }

  function Zeros(n: nat): (s: string)
    ensures |s| == n && forall i :: 0 <= i < n ==> s[i] == '0'
  {
    seq(n, _ => '0')
  }

  function TrimLeft(s: string): string {
    if s != "" && s[0] == '0' then TrimLeft(s[1..]) else s
  }

  function OrZero(s: string): string {
    if s == "" then "0" else s
  }

  function TrimRight(s: string): string {
    if s != "" && s[|s| - 1] == '0' then TrimRight(s[..|s| - 1]) else s
  }

  lemma {:induction false} ShiftSum(n: nat, a: nat, b: nat)
    ensures Shift(n, a + b) == Shift(Shift(n, a), b)
  {
    if b > 0 { ShiftSum(n, a, b - 1); }
  }

  lemma {:induction false} ShiftAdd(m: nat, n: nat, k: nat)
    ensures Shift(m + n, k) == Shift(m, k) + Shift(n, k)
  {
    if k > 0 { ShiftAdd(m, n, k - 1); }
  }

  lemma {:induction false} ShiftZero(k: nat)
    ensures Shift(0, k) == 0
  {
    if k > 0 { ShiftZero(k - 1); }
  }

  lemma {:induction false} ShiftGrows(n: nat, a: nat, b: nat)
    requires a <= b
    ensures Shift(n, a) <= Shift(n, b)
  {
    if a < b { ShiftGrows(n, a, b - 1); }
  }

  lemma {:induction false} ShiftOrder(m: nat, n: nat, k: nat)
    requires m < n
    ensures Shift(m, k) + Shift(1, k) <= Shift(n, k)
  {
    if k > 0 { ShiftOrder(m, n, k - 1); }
  }

  lemma {:induction false} ValueBound(s: string)
    requires AllDigits(s)
    ensures Value(s) < Shift(1, |s|)
  {
    if s != "" { ValueBound(s[..|s| - 1]); }
  }

  lemma {:induction false} ValueConcat(a: string, b: string)
    requires AllDigits(a) && AllDigits(b)
    ensures AllDigits(a + b) && Value(a + b) == Shift(Value(a), |b|) + Value(b)
  {
    if b == "" {
      assert a + b == a;
    } else {
      ValueConcat(a, b[..|b| - 1]);
      assert (a + b)[..|a + b| - 1] == a + b[..|b| - 1];
    }
  }

  lemma {:induction false} ValueZeros(s: string)
    requires forall i :: 0 <= i < |s| ==> s[i] == '0'
    ensures AllDigits(s) && Value(s) == 0
  {
    if s != "" { ValueZeros(s[..|s| - 1]); }
  }

  /** A nonzero leading digit bounds the value from below. */
  lemma {:induction false} CanonicalBound(s: string)
    requires Canonical(s) && s != "0"
    ensures Value(s) >= Shift(1, |s| - 1)
  {
    if |s| > 1 {
      var t := s[..|s| - 1];
      assert t[0] == s[0];
      CanonicalBound(t);
    }
  }

  lemma {:induction false} SameValueSameText(a: string, b: string)
    requires Canonical(a) && Canonical(b) && Value(a) == Value(b)
    ensures a == b
  {
    if |a| < |b| {
      LongerIsLarger(a, b);
    } else if |b| < |a| {
      LongerIsLarger(b, a);
    } else {
      SameLengthSameValue(a, b);
    }
  }

  lemma {:induction false} SameLengthSameValue(a: string, b: string)
    requires |a| == |b| && AllDigits(a) && AllDigits(b) && Value(a) == Value(b)
    ensures a == b
  {
    if a != "" {
      var p, q := a[..|a| - 1], b[..|b| - 1];
      assert Value(p) == Value(q) && Digit(a[|a| - 1]) == Digit(b[|b| - 1]);
      hide Value;
      SameLengthSameValue(p, q);
      assert a == p + [a[|a| - 1]] && b == q + [b[|b| - 1]];
    }
  }

  lemma LongerIsLarger(a: string, b: string)
    requires Canonical(a) && Canonical(b) && |a| < |b|
    ensures Value(a) < Value(b)
  {
    ValueBound(a);
    CanonicalBound(b);
    ShiftGrows(1, |a|, |b| - 1);
  }

  /** Trimming leading zeros, with "0" for nothing left, is canonicalisation. */
  lemma TrimmedText(s: string)
    requires Digits(s)
    ensures Canonical(OrZero(TrimLeft(s))) && Value(OrZero(TrimLeft(s))) == Value(s)
  {
    TrimKeepsValue(s);
  }

  lemma {:induction false} TrimKeepsValue(s: string)
    requires AllDigits(s)
    ensures AllDigits(TrimLeft(s)) && Value(TrimLeft(s)) == Value(s)
    ensures TrimLeft(s) != "" ==> TrimLeft(s)[0] != '0'
  {
    if s != "" && s[0] == '0' {
      assert s == s[..1] + s[1..];
      ValueConcat(s[..1], s[1..]);
      ValueZeros(s[..1]);
      ShiftZero(|s| - 1);
      TrimKeepsValue(s[1..]);
    }
  }

  // ---- The two conversions ----

  /** strings.Split(value, "."). */
  function Split(s: string): (parts: seq<string>)
    ensures |parts| >= 1
  {
    if '.' !in s then [s] else
      var i := IndexOfDot(s);
      [s[..i]] + Split(s[i + 1..])
  }

  function IndexOfDot(s: string): (i: nat)
    requires '.' in s
    ensures i < |s| && s[i] == '.' && '.' !in s[..i]
  {
    if s[0] == '.' then 0 else
      var i := 1 + IndexOfDot(s[1..]);
      assert s[..i] == [s[0]] + s[1..][..i - 1];
      i
  }

  function DecimalToUnits(value: string): Result<string, UnitsError> {
    if value == "" then Err(Required) else
      var parts := Split(value);
      if |parts| > 2 || parts[0] == "" || (|parts| == 2 && parts[1] == "") then Err(NotADecimal) else
        if !Digits(parts[0]) || (|parts| == 2 && !Digits(parts[1])) then Err(NotADecimal) else
          var fraction := if |parts| == 2 then parts[1] else "";
          if |fraction| > DECIMALS then Err(TooManyPlaces) else
            var whole := OrZero(TrimLeft(parts[0]));
            var digits := OrZero(TrimLeft(whole + fraction + Zeros(DECIMALS - |fraction|)));
            if |digits| > MAX_DIGITS then Err(TooManyDigits) else Ok(digits)
  }

  function UnitsToDecimal(value: string): Result<string, UnitsError> {
    var negative := value != "" && value[0] == '-';
    var unsigned := if negative then value[1..] else value;
    if unsigned == "" || !Digits(unsigned) || (|unsigned| > 1 && unsigned[0] == '0') then Err(NotUnits) else
      var n := Value(unsigned);
      var out := Unsigned(n);
      Ok(if negative && n != 0 then "-" + out else out)
  }

  /** The decimal UnitsToDecimal prints for a nonnegative number of units. */
  function Unsigned(n: nat): string {
    var whole, remainder := n / UNIT, n % UNIT;
    if remainder == 0 then Text(whole) else
      RemainderFits(remainder);
      Text(whole) + "." + TrimRight(Zeros(DECIMALS - |Text(remainder)|) + Text(remainder))
  }

  lemma UnitIsPower(n: nat)
    ensures Shift(n, DECIMALS) == n * UNIT
  {
    Shift9(n);
    Shift9(Shift(n, 9));
    ShiftSum(n, 9, 9);
  }

  lemma Shift9(n: nat)
    ensures Shift(n, 9) == n * 1_000_000_000
  {
    assert Shift(n, 2) == 10 * Shift(n, 1) == n * 100;
    assert Shift(n, 4) == 10 * Shift(n, 3) == n * 10_000;
    assert Shift(n, 6) == 10 * Shift(n, 5) == n * 1_000_000;
    assert Shift(n, 8) == 10 * Shift(n, 7) == n * 100_000_000;
  }

  lemma RemainderFits(r: nat)
    requires 0 < r < UNIT
    ensures |Text(r)| <= DECIMALS
  {
    var t := Text(r);
    if |t| > DECIMALS {
      CanonicalBound(t);
      ShiftGrows(1, DECIMALS, |t| - 1);
      UnitIsPower(1);
    }
  }

  // ---- What a decimal means, independently of the conversions ----

  /** digits, or digits "." digits. */
  predicate Decimal(d: string) {
    if '.' in d then
      var i := IndexOfDot(d);
      Digits(d[..i]) && Digits(d[i + 1..])
    else
      Digits(d)
  }

  function Whole(d: string): string {
    if '.' in d then d[..IndexOfDot(d)] else d
  }

  function Fraction(d: string): string {
    if '.' in d then d[IndexOfDot(d) + 1..] else ""
  }

  /** The amount in units of 10^-18. */
  function Worth(d: string): nat
    requires Decimal(d) && |Fraction(d)| <= DECIMALS
  {
    Shift(Value(Whole(d)), DECIMALS) + Shift(Value(Fraction(d)), DECIMALS - |Fraction(d)|)
  }

  /** No redundant zero on either side, at most 18 places. */
  predicate CanonicalDecimal(d: string) {
    Decimal(d) && Canonical(Whole(d)) && |Fraction(d)| <= DECIMALS &&
    (Fraction(d) != "" ==> Fraction(d)[|Fraction(d)| - 1] != '0')
  }

  lemma DotSplit(a: string, b: string)
    requires '.' !in a
    ensures '.' in a + "." + b && IndexOfDot(a + "." + b) == |a|
    ensures (a + "." + b)[..|a|] == a && (a + "." + b)[|a| + 1..] == b
  {
    var s := a + "." + b;
    assert s[|a|] == '.';
    FirstDot(s, |a|);
  }

  lemma FirstDot(s: string, i: nat)
    requires i < |s| && s[i] == '.' && '.' !in s[..i]
    ensures '.' in s && IndexOfDot(s) == i
  {
    if i > 0 {
      assert s[0] == s[..i][0];
      assert s[..i] == [s[0]] + s[1..][..i - 1];
      FirstDot(s[1..], i - 1);
    }
  }

  lemma NoDotInDigits(s: string)
    requires '.' in s
    ensures !Digits(s)
  {
    var i :| 0 <= i < |s| && s[i] == '.';
  }

  /**
   * DecimalToUnits accepts exactly the unsigned decimals with at most 18 places
   * whose units have at most 256 digits, and answers those units canonically.
   */
  lemma DecimalToUnitsMeaning(d: string)
    ensures DecimalToUnits(d).Ok? <==>
            Decimal(d) && |Fraction(d)| <= DECIMALS && |Text(Worth(d))| <= MAX_DIGITS
    ensures DecimalToUnits(d).Ok? ==> DecimalToUnits(d).value == Text(Worth(d))
  {
    if '.' in d { WithPoint(d); } else { WithoutPoint(d); }
  }

  lemma WithoutPoint(d: string)
    requires '.' !in d
    ensures DecimalToUnits(d).Ok? <==> Decimal(d) && |Text(Worth(d))| <= MAX_DIGITS
    ensures DecimalToUnits(d).Ok? ==> DecimalToUnits(d).value == Text(Worth(d))
  {
    hide Text;
    assert Split(d) == [d];
    if Digits(d) {
      UnitsOf(d, "", Zeros(DECIMALS));
      ShiftZero(DECIMALS);
      OnlyText(Worth(d));
    }
  }

  lemma OnlyText(n: nat)
    ensures forall s :: IsText(s, n) ==> s == Text(n)
  {
    forall s | IsText(s, n) ensures s == Text(n) { SameValueSameText(s, Text(n)); }
  }

  lemma WithPoint(d: string)
    requires '.' in d
    ensures DecimalToUnits(d).Ok? <==>
            Decimal(d) && |Fraction(d)| <= DECIMALS && |Text(Worth(d))| <= MAX_DIGITS
    ensures DecimalToUnits(d).Ok? ==> DecimalToUnits(d).value == Text(Worth(d))
  {
    hide Shift, Value, TrimLeft, Text;
    var whole, rest := Whole(d), Fraction(d);
    assert Split(d) == [whole] + Split(rest);
    if '.' in rest {
      NoDotInDigits(rest);
      assert |Split(rest)| >= 2;
    } else {
      assert Split(rest) == [rest];
      if Decimal(d) && |rest| <= DECIMALS {
        UnitsOf(whole, rest, Zeros(DECIMALS - |rest|));
        OnlyText(Worth(d));
      }
    }
  }

  lemma UnitsOf(whole: string, fraction: string, z: string)
    requires Digits(whole) && AllDigits(fraction) && forall i :: 0 <= i < |z| ==> z[i] == '0'
    ensures var w := OrZero(TrimLeft(whole));
            IsText(OrZero(TrimLeft(w + fraction + z)),
                   Shift(Value(whole), |fraction| + |z|) + Shift(Value(fraction), |z|))
  {
    TrimmedText(whole);
    var w := OrZero(TrimLeft(whole));
    Concatenated(w, fraction, z);
    TrimmedText(w + fraction + z);
  }

  predicate IsText(s: string, n: nat) {
    Canonical(s) && Value(s) == n
  }

  lemma Concatenated(w: string, f: string, z: string)
    requires Digits(w) && AllDigits(f) && forall i :: 0 <= i < |z| ==> z[i] == '0'
    ensures Digits(w + f + z)
    ensures Value(w + f + z) == Shift(Value(w), |f| + |z|) + Shift(Value(f), |z|)
  {
    ValueZeros(z);
    ValueConcat(w, f);
    ValueConcat(w + f, z);
    ShiftAdd(Shift(Value(w), |f|), Value(f), |z|);
    ShiftSum(Value(w), |f|, |z|);
  }

  /** Printing units gives the canonical decimal of the same worth. */
  lemma UnsignedMeaning(n: nat)
    ensures CanonicalDecimal(Unsigned(n)) && Worth(Unsigned(n)) == n
  {
    hide Shift, Value, TrimLeft, TrimRight, Zeros, Split, IndexOfDot, Decimal, Whole, Fraction, CanonicalDecimal, Worth;
    var whole, r := n / UNIT, n % UNIT;
    UnitIsPower(whole);
    if r == 0 {
      Printed(Text(whole), "");
      EmptyFraction();
    } else {
      RemainderFits(r);
      RemainderText(r, DECIMALS);
      Printed(Text(whole), TrimRight(Zeros(DECIMALS - |Text(r)|) + Text(r)));
    }
  }

  lemma EmptyFraction()
    ensures Shift(Value(""), DECIMALS) == 0
  {
    ShiftZero(DECIMALS);
  }

  /** The decimal made of a canonical whole part and a trimmed fraction. */
  lemma Printed(w: string, f: string)
    requires Canonical(w) && AllDigits(f) && |f| <= DECIMALS && (f != "" ==> f[|f| - 1] != '0')
    ensures var d := if f == "" then w else w + "." + f;
            CanonicalDecimal(d) && Worth(d) == Shift(Value(w), DECIMALS) + Shift(Value(f), DECIMALS - |f|)
  {
    hide Shift, Value;
    if '.' in w { NoDotInDigits(w); }
    if f != "" { DotSplit(w, f); }
  }

  lemma RemainderText(r: nat, places: nat)
    requires r > 0 && |Text(r)| <= places
    ensures var f := TrimRight(Zeros(places - |Text(r)|) + Text(r));
            Digits(f) && |f| <= places && f[|f| - 1] != '0' && Shift(Value(f), places - |f|) == r
  {
    var z := Zeros(places - |Text(r)|);
    ValueZeros(z);
    ShiftZero(|Text(r)|);
    ValueConcat(z, Text(r));
    TrimRightShifts(z + Text(r));
  }

  /** Dropping trailing zeros divides by the matching power of ten. */
  lemma {:induction false} TrimRightShifts(s: string)
    requires AllDigits(s) && Value(s) > 0
    ensures var f := TrimRight(s);
            Digits(f) && |f| <= |s| && f[|f| - 1] != '0' && Shift(Value(f), |s| - |f|) == Value(s)
  {
    if s[|s| - 1] == '0' {
      TrimRightShifts(s[..|s| - 1]);
    }
  }

  /** A canonical decimal is the only one of its worth. */
  lemma CanonicalDecimalUnique(c: string, d: string)
    requires CanonicalDecimal(c) && CanonicalDecimal(d) && Worth(c) == Worth(d)
    ensures c == d
  {
    var f, g := Fraction(c), Fraction(d);
    LeadingPart(Value(Whole(c)), Value(Padded(f)), Value(Whole(d)), Value(Padded(g)), DECIMALS);
    SameValueSameText(Whole(c), Whole(d));
    SameLengthSameValue(Padded(f), Padded(g));
    SamePadding(f, g);
    Reassembled(c);
    Reassembled(d);
  }

  /** Comparing shifted sums compares the leading parts, then the trailing ones. */
  lemma LeadingPart(a: nat, r: nat, b: nat, q: nat, k: nat)
    requires r < Shift(1, k) && q < Shift(1, k)
    ensures Shift(a, k) + r < Shift(b, k) + q <==> a < b || (a == b && r < q)
    ensures Shift(a, k) + r == Shift(b, k) + q <==> a == b && r == q
  {
    if a < b { ShiftOrder(a, b, k); }
    if b < a { ShiftOrder(b, a, k); }
  }

  ghost function Padded(f: string): (x: string)
    requires |f| <= DECIMALS && AllDigits(f)
    ensures |x| == DECIMALS && AllDigits(x) && Value(x) == Shift(Value(f), DECIMALS - |f|)
    ensures Value(x) < Shift(1, DECIMALS)
    ensures x == f + Zeros(DECIMALS - |f|)
  {
    var z := Zeros(DECIMALS - |f|);
    ValueZeros(z);
    ValueConcat(f, z);
    ValueBound(f + z);
    f + z
  }

  lemma NotShorter(f: string, g: string)
    requires |f| <= DECIMALS && |g| <= DECIMALS
    requires g != "" ==> g[|g| - 1] != '0'
    requires f + Zeros(DECIMALS - |f|) == g + Zeros(DECIMALS - |g|)
    ensures |g| <= |f|
  {
    var x := f + Zeros(DECIMALS - |f|);
    if g != "" {
      assert x[|g| - 1] == g[|g| - 1];
    }
  }

  lemma SamePadding(f: string, g: string)
    requires |f| <= DECIMALS && |g| <= DECIMALS && AllDigits(f) && AllDigits(g)
    requires f != "" ==> f[|f| - 1] != '0'
    requires g != "" ==> g[|g| - 1] != '0'
    requires Padded(f) == Padded(g)
    ensures f == g
  {
    var x := f + Zeros(DECIMALS - |f|);
    var y := g + Zeros(DECIMALS - |g|);
    assert x == y;
    NotShorter(f, g);
    NotShorter(g, f);
    assert f == x[..|f|] && g == y[..|g|];
  }

  lemma Reassembled(d: string)
    requires Decimal(d)
    ensures d == if Fraction(d) == "" then Whole(d) else Whole(d) + "." + Fraction(d)
  {
  }

  // ---- Round trips ----

  /**
   * An accepted decimal has at most 18 places, and its units are its whole part times
   * 10^18 and its places filled up with zeros to 18.
   */
  lemma UnitsOfDecimal(d: string)
    ensures DecimalToUnits(d).Ok? ==>
              && Decimal(d) && |Fraction(d)| <= 18
              && Canonical(DecimalToUnits(d).value) && |DecimalToUnits(d).value| <= 256
              && Value(DecimalToUnits(d).value) / 1_000_000_000_000_000_000 == Value(Whole(d))
              && Value(DecimalToUnits(d).value) % 1_000_000_000_000_000_000 == Shift(Value(Fraction(d)), 18 - |Fraction(d)|)
    ensures DecimalToUnits(d).Err? ==> !Decimal(d) || |Fraction(d)| > 18 || |Text(Worth(d))| > 256
  {
    hide *;
    DecimalToUnitsMeaning(d);
    Limits();
    if DecimalToUnits(d).Ok? { WorthSplits(d); }
  }

  lemma Limits()
    ensures DECIMALS == 18 && MAX_DIGITS == 256
  {
  }

  lemma WorthSplits(d: string)
    requires Decimal(d) && |Fraction(d)| <= DECIMALS
    ensures Worth(d) / 1_000_000_000_000_000_000 == Value(Whole(d))
    ensures Worth(d) % 1_000_000_000_000_000_000 == Shift(Value(Fraction(d)), DECIMALS - |Fraction(d)|)
  {
    var f := Fraction(d);
    ValueBound(f);
    hide Value, Decimal, Whole, Fraction;
    FilledUp(Value(f), |f|);
    UnitIsPower(Value(Whole(d)));
    hide Shift;
    Divided(Value(Whole(d)), Shift(Value(f), DECIMALS - |f|));
  }

  /** Less than a power of ten, filled up with zeros to 18 places, is less than 10^18. */
  lemma FilledUp(n: nat, places: nat)
    requires places <= DECIMALS && n < Shift(1, places)
    ensures Shift(n, DECIMALS - places) < 1_000_000_000_000_000_000
  {
    ShiftOrder(n, Shift(1, places), DECIMALS - places);
    PositiveShift(DECIMALS - places);
    ShiftSum(1, places, DECIMALS - places);
    UnitIsPower(1);
    hide Shift;
  }

  lemma Divided(n: nat, r: nat)
    requires r < 1_000_000_000_000_000_000
    ensures (n * 1_000_000_000_000_000_000 + r) / 1_000_000_000_000_000_000 == n && (n * 1_000_000_000_000_000_000 + r) % 1_000_000_000_000_000_000 == r
  {
  }

  lemma {:induction false} PositiveShift(k: nat)
    ensures Shift(1, k) > 0
  {
    if k > 0 { PositiveShift(k - 1); }
  }

  /** Units to decimal to units is the identity on canonical amounts of at most 256 digits. */
  lemma UnitsRoundTrip(u: string)
    requires Canonical(u) && |u| <= MAX_DIGITS
    ensures UnitsToDecimal(u).Ok? && DecimalToUnits(UnitsToDecimal(u).value) == Ok(u)
  {
    assert u[0] != '-';
    UnsignedMeaning(Value(u));
    DecimalToUnitsMeaning(Unsigned(Value(u)));
    SameValueSameText(u, Text(Value(u)));
  }

  /** Decimal to units to decimal is the canonical form of the decimal, at the same worth. */
  lemma DecimalRoundTrip(d: string)
    requires DecimalToUnits(d).Ok?
    ensures Decimal(d) && |Fraction(d)| <= DECIMALS
    ensures var u := DecimalToUnits(d).value;
            UnitsToDecimal(u).Ok? &&
            var c := UnitsToDecimal(u).value;
            CanonicalDecimal(c) && Worth(c) == Worth(d) && (CanonicalDecimal(d) ==> c == d)
  {
    DecimalToUnitsMeaning(d);
    var u := Text(Worth(d));
    assert u[0] != '-';
    UnsignedMeaning(Worth(d));
    if CanonicalDecimal(d) { CanonicalDecimalUnique(Unsigned(Worth(d)), d); }
  }

  /** A signed canonical amount prints as its sign before the decimal of its magnitude. */
  lemma SignedToDecimal(s: string)
    requires SignedCanonical(s)
    ensures UnitsToDecimal(s).Ok?
    ensures var c := UnitsToDecimal(s).value;
            if SignedValue(s) < 0 then c != "" && c[0] == '-' && CanonicalDecimal(c[1..]) && SignedValue(s) == 0 - Worth(c[1..])
            else CanonicalDecimal(c) && Worth(c) == SignedValue(s)
  {
    if s[0] == '-' {
      var u := s[1..];
      ValuePositive(u);
      UnsignedMeaning(Value(u));
      assert ("-" + Unsigned(Value(u)))[1..] == Unsigned(Value(u));
    } else {
      UnsignedMeaning(Value(s));
    }
  }

  lemma ValuePositive(u: string)
    requires Canonical(u) && u != "0"
    ensures Value(u) > 0
  {
    CanonicalBound(u);
  }

  // ---- Extremes by string order (internal/store/metrics.go) ----

  /** What signedBalance accepts: the canonical form of any integer. */
  predicate SignedCanonical(s: string) {
    if s != "" && s[0] == '-' then Canonical(s[1..]) && s[1..] != "0" else Canonical(s)
  }

  function SignedValue(s: string): int
    requires SignedCanonical(s)
  {
    if s[0] == '-' then -(Value(s[1..]) as int) else Value(s)
  }

  /** SQLite's BINARY collation. */
  predicate Lex(a: string, b: string) {
    b != "" && (a == "" || a[0] < b[0] || (a[0] == b[0] && Lex(a[1..], b[1..])))
  }

  /** ORDER BY length(balance_units), balance_units. */
  predicate Shorter(a: string, b: string) {
    |a| < |b| || (|a| == |b| && Lex(a, b))
  }

  lemma {:induction false} LexSuffix(p: string, a: string, b: string)
    ensures Lex(p + a, p + b) <==> Lex(a, b)
  {
    if p == "" {
      assert p + a == a && p + b == b;
    } else {
      assert (p + a)[1..] == p[1..] + a && (p + b)[1..] == p[1..] + b;
      LexSuffix(p[1..], a, b);
    }
  }

  /** On equal lengths the lexicographic order of digits is the numeric order. */
  lemma {:induction false} LexIsNumeric(a: string, b: string)
    requires |a| == |b| && AllDigits(a) && AllDigits(b)
    ensures Lex(a, b) <==> Value(a) < Value(b)
  {
    if a != "" {
      var x, y := a[1..], b[1..];
      LexIsNumeric(x, y);
      ValueConcat(a[..1], x);
      ValueConcat(b[..1], y);
      assert a == a[..1] + x && b == b[..1] + y;
      assert Value(a[..1][..0]) == 0 && Value(b[..1][..0]) == 0;
      assert Value(a[..1]) == Digit(a[0]) && Value(b[..1]) == Digit(b[0]);
      ValueBound(x);
      ValueBound(y);
      LeadingPart(Digit(a[0]), Value(x), Digit(b[0]), Value(y), |x|);
    }
  }

  /** (length, text) order on canonical unsigned amounts is the numeric order. */
  lemma ShorterIsSmaller(a: string, b: string)
    requires Canonical(a) && Canonical(b)
    ensures Shorter(a, b) <==> Value(a) < Value(b)
  {
    if |a| == |b| {
      LexIsNumeric(a, b);
    } else if |a| < |b| {
      LongerIsLarger(a, b);
    } else {
      LongerIsLarger(b, a);
    }
  }

  /** The same order on negative amounts is the reverse numeric order. */
  lemma ShorterIsLargerWhenNegative(a: string, b: string)
    requires SignedCanonical(a) && SignedCanonical(b) && a[0] == '-' && b[0] == '-'
    ensures Shorter(a, b) <==> SignedValue(a) > SignedValue(b)
  {
    assert a == "-" + a[1..] && b == "-" + b[1..];
    LexSuffix("-", a[1..], b[1..]);
    ShorterIsSmaller(a[1..], b[1..]);
  }

  /** The row a query's ORDER BY ... LIMIT 1 returns: descending among negatives, ascending otherwise. */
  ghost predicate Selected(rows: set<string>, negative: bool, r: string) {
    r in rows && forall x :: x in rows ==> if negative then !Shorter(r, x) else !Shorter(x, r)
  }

  lemma {:induction false} SelectedExists(rows: set<string>, negative: bool)
    requires rows != {}
    requires forall x :: x in rows ==> SignedCanonical(x) && (negative <==> x[0] == '-')
    ensures exists r :: Selected(rows, negative, r)
  {
    var k :| k in rows;
    var rest := rows - {k};
    if rest == {} {
      LexIrreflexive(k);
      assert rows == {k};
      assert Selected(rows, negative, k);
    } else {
      SelectedExists(rest, negative);
      var r :| Selected(rest, negative, r);
      var best := if negative then (if Shorter(r, k) then k else r) else (if Shorter(k, r) then k else r);
      forall x | x in rows ensures if negative then !Shorter(best, x) else !Shorter(x, best) {
        Numeric(k, r, negative);
        Numeric(r, k, negative);
        Numeric(best, x, negative);
        Numeric(x, best, negative);
        Numeric(r, x, negative);
        Numeric(x, r, negative);
      }
      assert Selected(rows, negative, best);
    }
  }

  lemma LexIrreflexive(s: string)
    ensures !Lex(s, s)
  {
    if s != "" { LexIrreflexive(s[1..]); }
  }

  lemma Numeric(a: string, b: string, negative: bool)
    requires SignedCanonical(a) && SignedCanonical(b)
    requires (negative <==> a[0] == '-') && (negative <==> b[0] == '-')
    ensures Shorter(a, b) <==> if negative then SignedValue(a) > SignedValue(b) else SignedValue(a) < SignedValue(b)
  {
    if negative { ShorterIsLargerWhenNegative(a, b); } else { ShorterIsSmaller(a, b); }
  }

  /**
   * metricExtreme over the balance strings tracked for one account kind and
   * currency: the numeric minimum, or only the most negative one on request.
   */
  method MetricExtreme(rows: set<string>, minimum: bool) returns (extreme: Option<int>)
    requires forall x :: x in rows ==> SignedCanonical(x)
    ensures extreme.None? <==> forall x :: x in rows ==> !minimum && SignedValue(x) >= 0
    ensures extreme.Some? ==>
              (exists x :: x in rows && SignedValue(x) == extreme.value) &&
              forall x :: x in rows ==> extreme.value <= SignedValue(x)
  {
    var queries := if minimum then [true, false] else [true];
    var i := 0;
    while i < |queries|
      invariant 0 <= i <= |queries|
      invariant i >= 1 ==> forall x :: x in rows ==> x[0] != '-'
      invariant i == 2 ==> rows == {}
    {
      var negative := queries[i];
      var found := set r | r in rows && (r[0] == '-') == negative;
      if found != {} {
        SelectedExists(found, negative);
        var r :| r in found && forall x :: x in found ==> if negative then !Shorter(r, x) else !Shorter(x, r);
        forall x | x in rows ensures SignedValue(r) <= SignedValue(x) {
          if x in found {
            Numeric(r, x, negative);
            Numeric(x, r, negative);
          } else if negative {
            assert SignedValue(r) <= 0 <= SignedValue(x);
          }
        }
        if negative { ValuePositive(r[1..]); }
        return Some(SignedValue(r));
      }
      assert forall x :: x in rows && (x[0] == '-') == negative ==> x in found;
      i := i + 1;
    }
    return None;
  }
}
