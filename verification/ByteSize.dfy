/** Byte quantities as text: the printer, the parser with its ordered suffix table, and the
    floating-point step between them. */
module ByteSize {
  import opened Wrappers
  import opened Text
  import opened Powers

  const TWO_53: int := 0x20_0000_0000_0000

  // ---------------------------------------------------------------- 53 bits of precision

  /** The multiple of unit nearest to n, the even one when two are. */
  function Nearest(n: nat, unit: nat): nat
    requires unit > 0
  {
    var q, r := n / unit, n % unit;
    if 2 * r < unit || (2 * r == unit && q % 2 == 0) then q * unit else (q + 1) * unit
  }

  /** n as a float64 of at least this unit in the last place. */
  function RoundFrom(n: nat, unit: nat): nat
    requires unit > 0
    decreases n - TWO_53 * unit
  {
    if n < TWO_53 * unit then Nearest(n, unit) else RoundFrom(n, 2 * unit)
  }

  function Round(n: nat): nat {
    RoundFrom(n, 1)
  }

  lemma {:induction false} PowMultiple(j: nat, e: nat)
    requires j <= e
    ensures exists k: nat :: Pow2(e) == k * Pow2(j)
    decreases e
  {
    if j == e {
      assert Pow2(e) == 1 * Pow2(j);
    } else {
      PowMultiple(j, e - 1);
      var k: nat :| Pow2(e - 1) == k * Pow2(j);
      assert Pow2(e) == (2 * k) * Pow2(j);
    }
  }

  lemma NearestOfMultiple(q: nat, unit: nat)
    requires unit > 0
    ensures Nearest(q * unit, unit) == q * unit
  {
    var n := q * unit;
    var d, r := n / unit, n % unit;
    assert n == d * unit + r;
    assert (q - d) * unit == r;
    SmallMultiple(q - d, unit);
  }

  lemma Regroup(a: nat, b: nat, c: nat)
    ensures a * (b * c) == (a * b) * c
  {
  }

  lemma ScalesUp(a: nat, b: nat, c: nat)
    requires a < b && c > 0
    ensures a * c < b * c
  {
  }

  lemma {:induction false} RoundFromIsExact(m: nat, e: nat, j: nat)
    requires m < TWO_53 && j <= e
    ensures RoundFrom(m * Pow2(e), Pow2(j)) == m * Pow2(e)
    decreases e - j
  {
    var n := m * Pow2(e);
    if n < TWO_53 * Pow2(j) {
      PowMultiple(j, e);
      var k: nat :| Pow2(e) == k * Pow2(j);
      Regroup(m, k, Pow2(j));
      NearestOfMultiple(m * k, Pow2(j));
    } else {
      ScalesUp(m, TWO_53, Pow2(e));
      RoundFromIsExact(m, e, j + 1);
    }
  }

  /** A number of at most 53 significant bits is a float64 as it stands. */
  lemma RoundIsExact(m: nat, e: nat)
    requires m < TWO_53
    ensures Round(m * Pow2(e)) == m * Pow2(e)
  {
    RoundFromIsExact(m, e, 0);
  }

  /** strconv.ParseFloat, float64 multiplication by a unit's scale, and conversion to int64. */
  datatype Floats = Floats(parse: string -> Option<real>, times: (real, int) -> real, truncate: real -> int)

  /** Well inside what a float64 can hold. */
  const FLOAT_RANGE: int := TWO_63 * TWO_63

  /** Correctly rounded on whole numbers; nothing is said of other numerals. */
  ghost predicate Ieee(f: Floats) {
    && (forall s | s != [] && AllDigits(s) && Value(s) < FLOAT_RANGE :: f.parse(s) == Some(Round(Value(s)) as real))
    && (forall n: nat, scale: nat | n * scale < FLOAT_RANGE :: f.times(n as real, scale) == Round(n * scale) as real)
    && (forall x: real | 0.0 <= x < TWO_63 as real :: f.truncate(x) == x.Floor)
  }

  lemma IeeeIsPossible() returns (f: Floats)
    ensures Ieee(f)
  {
    f := Floats((s: string) => if AllDigits(s) then Some(Round(Value(s)) as real) else None,
                (x: real, scale: int) => if x >= 0.0 && scale >= 0 then Round(x.Floor * scale) as real else x,
                (x: real) => x.Floor);
    forall n: nat, scale: nat
      ensures f.times(n as real, scale) == Round(n * scale) as real
    {
      assert (n as real).Floor == n;
    }
  }

  datatype Unit = Unit(suffix: string, scale: nat)

  /** In the order they are tried. */
  const UNITS: seq<Unit> := [
    Unit("KIB", 0x400), Unit("MIB", 0x10_0000), Unit("GIB", 0x4000_0000), Unit("TIB", 0x100_0000_0000),
    Unit("KB", 1_000), Unit("MB", 1_000_000), Unit("GB", 1_000_000_000), Unit("TB", 1_000_000_000_000),
    Unit("K", 0x400), Unit("M", 0x10_0000), Unit("G", 0x4000_0000), Unit("T", 0x100_0000_0000),
    Unit("B", 1)]

  function Print(b: int): string {
    if b >= 0x4000_0000 && b % 0x4000_0000 == 0 then Decimal(b / 0x4000_0000) + "GiB"
    else if b >= 0x10_0000 && b % 0x10_0000 == 0 then Decimal(b / 0x10_0000) + "MiB"
    else if b >= 0x400 && b % 0x400 == 0 then Decimal(b / 0x400) + "KiB"
    else if b >= 0 then Decimal(b)
    else "-" + Decimal(-b)
  }

  datatype Error = Empty | BadNumber | Negative

  /** strconv.ParseInt in base 10, then the sign check. */
  function ParseWhole(s: string): Result<int, Error> {
    var signed := s != [] && (s[0] == '+' || s[0] == '-');
    var digits := if signed then s[1..] else s;
    if digits == [] || !AllDigits(digits) then Err(BadNumber)
    else
      var magnitude: int := Value(digits);
      var v := if signed && s[0] == '-' then -magnitude else magnitude;
      if !(-TWO_63 <= v < TWO_63) then Err(BadNumber)
      else if v < 0 then Err(Negative)
      else Ok(v)
  }

  function NumberPart(upper: string, unit: Unit): string
    requires HasSuffix(upper, unit.suffix)
  {
    Trim(upper[..|upper| - |unit.suffix|])
  }

  /** A bare suffix is not a size. */
  predicate Matches(upper: string, unit: Unit) {
    HasSuffix(upper, unit.suffix) && NumberPart(upper, unit) != []
  }

  function Scaled(f: Floats, number: string, scale: nat): Result<int, Error> {
    match f.parse(number)
    case None => Err(BadNumber)
    case Some(v) => if v < 0.0 then Err(Negative) else Ok(f.truncate(f.times(v, scale)))
  }

  /** From the k-th unit of the table on. */
  function ParseFrom(f: Floats, upper: string, k: nat): Result<int, Error>
    requires k <= |UNITS|
    decreases |UNITS| - k
  {
    if k == |UNITS| then ParseWhole(upper)
    else if Matches(upper, UNITS[k]) then Scaled(f, NumberPart(upper, UNITS[k]), UNITS[k].scale)
    else ParseFrom(f, upper, k + 1)
  }

  function Parse(f: Floats, text: string): Result<int, Error> {
    if Trim(text) == [] then Err(Empty) else ParseFrom(f, ToUpper(Trim(text)), 0)
  }

  class Size {
    var bytes: int

    constructor (bytes: int)
      ensures this.bytes == bytes
    {
      this.bytes := bytes;
    }

    /** A rejected text leaves the value as it was. */
    method UnmarshalText(f: Floats, text: string) returns (error: Option<Error>)
      modifies this
      ensures match Parse(f, text)
              case Ok(v) => error == None && bytes == v
              case Err(e) => error == Some(e) && bytes == old(bytes)
    {
      hide ParseWhole, Trim, ToUpper, NumberPart;
      var raw := Trim(text);
      if raw == [] {
        return Some(Empty);
      }
      var upper := ToUpper(raw);
      var k := 0;
      while k < |UNITS|
        invariant 0 <= k <= |UNITS| && bytes == old(bytes)
        invariant ParseFrom(f, upper, 0) == ParseFrom(f, upper, k)
      {
        if Matches(upper, UNITS[k]) {
          match Scaled(f, NumberPart(upper, UNITS[k]), UNITS[k].scale)
          case Ok(v) =>
            bytes := v;
            return None;
          case Err(e) =>
            return Some(e);
        }
        k := k + 1;
      }
      match ParseWhole(upper)
      case Ok(v) =>
        bytes := v;
        error := None;
      case Err(e) => error := Some(e);
    }
  }

  // ---------------------------------------------------------------- one count, one unit

  predicate IsLetter(c: char) {
    'A' <= c <= 'Z'
  }

  predicate AllLetters(s: string) {
    forall i | 0 <= i < |s| :: IsLetter(s[i])
  }

  lemma UnitsAreLetters(k: nat)
    requires k < |UNITS|
    ensures UNITS[k].suffix != [] && AllLetters(UNITS[k].suffix) && UNITS[k].scale > 0
  {
  }

  /** Longest suffix first. */
  lemma EarlierUnitsAreLonger(j: nat, k: nat)
    requires j < k < |UNITS|
    ensures |UNITS[j].suffix| >= |UNITS[k].suffix|
    ensures UNITS[j].suffix != UNITS[k].suffix
  {
  }

  /** What does not end in a letter, with one suffix, does not end in another that is as long or
      longer. */
  lemma EndsOnlyInItsUnit(head: string, own: string, other: string)
    requires head != [] && !IsLetter(head[|head| - 1]) && AllLetters(other)
    requires |other| >= |own| && other != own
    ensures !HasSuffix(head + own, other)
  {
    var s := head + own;
    if |s| >= |other| {
      var tail := s[|s| - |other|..];
      if |other| > |own| {
        var i := |other| - |own| - 1;
        assert tail[i] == head[|head| - 1] && IsLetter(other[i]);
      } else {
        assert tail == own;
      }
    }
  }

  lemma {:induction false} SkipsEarlierUnits(f: Floats, head: string, k: nat, j: nat)
    requires head != [] && !IsLetter(head[|head| - 1]) && j <= k < |UNITS|
    ensures ParseFrom(f, head + UNITS[k].suffix, j) == ParseFrom(f, head + UNITS[k].suffix, k)
    decreases k - j
  {
    if j < k {
      UnitsAreLetters(j);
      EarlierUnitsAreLonger(j, k);
      EndsOnlyInItsUnit(head, UNITS[k].suffix, UNITS[j].suffix);
      SkipsEarlierUnits(f, head, k, j + 1);
    }
  }

  /** Every unit of the table is recognised for what it is: a count followed by a suffix is
      scaled by that suffix's unit, with float64 rounding before and after. */
  lemma CountParses(f: Floats, d: string, k: nat)
    requires Ieee(f) && d != [] && AllDigits(d) && k < |UNITS|
    requires Value(d) < FLOAT_RANGE && Round(Value(d)) * UNITS[k].scale < FLOAT_RANGE
    requires Round(Round(Value(d)) * UNITS[k].scale) < TWO_63
    ensures ParseFrom(f, d + UNITS[k].suffix, 0) == Ok(Round(Round(Value(d)) * UNITS[k].scale))
  {
    var suffix, scale := UNITS[k].suffix, UNITS[k].scale;
    var upper := d + suffix;
    SkipsEarlierUnits(f, d, k, 0);
    assert upper[|d|..] == suffix && upper[..|d|] == d;
    TrimNothing(d);
    assert Matches(upper, UNITS[k]) && NumberPart(upper, UNITS[k]) == d;
    ScaledCount(f, d, scale);
    hide Scaled, ParseWhole, Matches, NumberPart;
  }

  lemma ScaledCount(f: Floats, d: string, scale: nat)
    requires Ieee(f) && d != [] && AllDigits(d) && Value(d) < FLOAT_RANGE && Round(Value(d)) * scale < FLOAT_RANGE
    requires Round(Round(Value(d)) * scale) < TWO_63
    ensures Scaled(f, d, scale) == Ok(Round(Round(Value(d)) * scale))
  {
    var r, p := Round(Value(d)), Round(Round(Value(d)) * scale);
    hide Round, Value;
    assert f.parse(d) == Some(r as real);
    assert f.times(r as real, scale) == p as real;
    assert (p as real).Floor == p;
  }

  // ---------------------------------------------------------------- what a suffix means

  function Power(base: nat, i: nat): nat {
    if i == 0 then 1 else base * Power(base, i - 1)
  }

  const PREFIXES: seq<string> := ["", "K", "M", "G", "T"]

  /** IEC suffixes are powers of 1024, and so are the bare letters; SI suffixes are powers of 1000;
      B is one byte; in any case of letters. */
  ghost predicate Means(suffix: string, scale: nat) {
    || (SameUpToCase(suffix, "B") && scale == 1)
    || exists i :: 1 <= i <= 4 && PrefixMeans(PREFIXES[i], i, suffix, scale)
  }

  predicate PrefixMeans(prefix: string, i: nat, suffix: string, scale: nat) {
    || ((SameUpToCase(suffix, prefix + "iB") || SameUpToCase(suffix, prefix)) && scale == Power(1024, i))
    || (SameUpToCase(suffix, prefix + "B") && scale == Power(1000, i))
  }

  lemma PowersAre()
    ensures Power(1024, 1) == 0x400 && Power(1024, 2) == 0x10_0000 && Power(1024, 3) == 0x4000_0000
    ensures Power(1024, 4) == 0x100_0000_0000
    ensures Power(1000, 1) == 1_000 && Power(1000, 2) == 1_000_000 && Power(1000, 3) == 1_000_000_000
    ensures Power(1000, 4) == 1_000_000_000_000
  {
    assert Power(1024, 1) == 0x400 && Power(1000, 1) == 1_000;
    assert Power(1024, 2) == 0x10_0000 && Power(1000, 2) == 1_000_000;
    assert Power(1024, 3) == 0x4000_0000 && Power(1000, 3) == 1_000_000_000;
  }

  lemma CaseOf(suffix: string, printed: string, upper: string)
    requires SameUpToCase(suffix, printed) && ToUpper(printed) == upper
    ensures ToUpper(suffix) == upper
  {
    UpperIs(suffix, printed);
  }

  lemma PrefixUnit(i: nat, suffix: string, scale: nat) returns (k: nat)
    requires 1 <= i <= 4 && PrefixMeans(PREFIXES[i], i, suffix, scale)
    ensures k < |UNITS| && ToUpper(suffix) == UNITS[k].suffix && UNITS[k].scale == scale
  {
    PowersAre();
    var prefix := PREFIXES[i];
    hide ToUpper, SameUpToCase, Power;
    if SameUpToCase(suffix, prefix + "iB") && scale == Power(1024, i) {
      k := i - 1;
      UppersOf(i);
      CaseOf(suffix, prefix + "iB", UNITS[k].suffix);
    } else if SameUpToCase(suffix, prefix) && scale == Power(1024, i) {
      k := i + 7;
      UppersOf(i);
      CaseOf(suffix, prefix, UNITS[k].suffix);
    } else {
      k := i + 3;
      UppersOf(i);
      CaseOf(suffix, prefix + "B", UNITS[k].suffix);
    }
  }

  lemma UppersOf(i: nat)
    requires 1 <= i <= 4
    ensures ToUpper(PREFIXES[i] + "iB") == UNITS[i - 1].suffix && ToUpper(PREFIXES[i] + "B") == UNITS[i + 3].suffix
    ensures ToUpper(PREFIXES[i]) == UNITS[i + 7].suffix
  {
  }

  /** The unit of the table that a suffix names. */
  lemma UnitOf(suffix: string, scale: nat) returns (k: nat)
    requires Means(suffix, scale)
    ensures k < |UNITS| && ToUpper(suffix) == UNITS[k].suffix && UNITS[k].scale == scale
  {
    if SameUpToCase(suffix, "B") && scale == 1 {
      k := 12;
      assert ToUpper("B") == "B";
      CaseOf(suffix, "B", "B");
    } else {
      var i :| 1 <= i <= 4 && PrefixMeans(PREFIXES[i], i, suffix, scale);
      k := PrefixUnit(i, suffix, scale);
    }
  }

  lemma DigitsAndBlanksHaveNoCase(s: string)
    requires forall i | 0 <= i < |s| :: IsDigit(s[i]) || Blank([s[i]])
    ensures ToUpper(s) == s
  {
    forall i | 0 <= i < |s|
      ensures Upper(s[i]) == s[i]
    {
      assert Blank([s[i]]) ==> [s[i]][0] as int <= 32;
    }
  }

  lemma UpperOfParts(a: string, b: string)
    ensures ToUpper(a + b) == ToUpper(a) + ToUpper(b)
  {
  }

  lemma LettersAreTight(suffix: string, upper: string)
    requires ToUpper(suffix) == upper && upper != "" && AllLetters(upper)
    ensures suffix != "" && !Blank(suffix[|suffix| - 1..])
  {
    var c := suffix[|suffix| - 1];
    assert ToUpper(suffix)[|suffix| - 1] == Upper(c) && IsLetter(Upper(c));
    assert suffix[|suffix| - 1..] == [c] && [c][0] == c;
  }

  lemma CoreOf(d: string, gap: string, suffix: string, upper: string)
    requires d != [] && AllDigits(d) && Blank(gap) && ToUpper(suffix) == upper && upper != "" && AllLetters(upper)
    ensures Tight(d + gap + suffix) && ToUpper(d + gap + suffix) == d + gap + upper && Trim(d + gap) == d
  {
    var core := d + gap + suffix;
    LettersAreTight(suffix, upper);
    assert core[|core| - 1..] == suffix[|suffix| - 1..];
    assert core[..1] == [d[0]] && [d[0]][0] == d[0];
    UpperOfParts(d + gap, suffix);
    forall i | 0 <= i < |d + gap|
      ensures IsDigit((d + gap)[i]) || Blank([(d + gap)[i]])
    {
      assert i >= |d| ==> (d + gap)[i] == gap[i - |d|];
    }
    DigitsAndBlanksHaveNoCase(d + gap);
    assert d[|d| - 1..] == [d[|d| - 1]] && d[..1] == [d[0]] && [d[|d| - 1]][0] == d[|d| - 1];
    assert Blank("") && "" + d + gap == d + gap;
    TrimUnique(d + gap, "", d, gap);
  }

  /** A count and a suffix, with blanks around and between them, is the count times what the
      suffix means, with float64 rounding before and after. */
  lemma SuffixedCount(f: Floats, left: string, d: string, gap: string, suffix: string, right: string, scale: nat)
    requires Ieee(f) && d != [] && AllDigits(d) && Means(suffix, scale) && Blank(left) && Blank(gap) && Blank(right)
    requires Value(d) < FLOAT_RANGE && Round(Value(d)) * scale < FLOAT_RANGE && Round(Round(Value(d)) * scale) < TWO_63
    ensures Parse(f, left + d + gap + suffix + right) == Ok(Round(Round(Value(d)) * scale))
  {
    ScaledCount(f, d, scale);
    hide Means, ToUpper, Trim, Tight, Blank, Round, Value, Ieee, Scaled, ParseFrom, Parse, AllDigits;
    SuffixedParses(f, left, d, gap, suffix, right, scale);
  }

  lemma SuffixedParses(f: Floats, left: string, d: string, gap: string, suffix: string, right: string, scale: nat)
    requires d != [] && AllDigits(d) && Means(suffix, scale) && Blank(left) && Blank(gap) && Blank(right)
    ensures Parse(f, left + d + gap + suffix + right) == Scaled(f, d, scale)
  {
    hide Means, ToUpper, Trim, Tight, Blank, Scaled, ParseFrom, Parse, AllDigits;
    var k := UnitOf(suffix, scale);
    var core, text := d + gap + suffix, left + d + gap + suffix + right;
    UnitIsLetters(k);
    CoreOf(d, gap, suffix, UNITS[k].suffix);
    GapParses(f, d, gap, k);
    assert text == left + core + right;
    ParseOfCore(f, text, left, core, right);
  }

  lemma UnitIsLetters(k: nat)
    requires k < |UNITS|
    ensures UNITS[k].suffix != "" && AllLetters(UNITS[k].suffix)
  {
    UnitsAreLetters(k);
  }

  lemma ParseOfCore(f: Floats, text: string, left: string, core: string, right: string)
    requires text == left + core + right && Blank(left) && Blank(right) && Tight(core) && core != []
    ensures Parse(f, text) == ParseFrom(f, ToUpper(core), 0)
  {
    hide ToUpper, Trim, Tight, Blank, ParseFrom;
    TrimUnique(text, left, core, right);
  }

  lemma GapParses(f: Floats, d: string, gap: string, k: nat)
    requires d != [] && AllDigits(d) && Blank(gap) && k < |UNITS| && Trim(d + gap) == d
    ensures ParseFrom(f, d + gap + UNITS[k].suffix, 0) == Scaled(f, d, UNITS[k].scale)
  {
    EndsInNoLetter(d, gap);
    hide Trim, Blank, Scaled, ParseWhole;
    SkipsEarlierUnits(f, d + gap, k, 0);
    var own, upper := UNITS[k].suffix, d + gap + UNITS[k].suffix;
    assert upper[|upper| - |own|..] == own && upper[..|upper| - |own|] == d + gap;
    assert Matches(upper, UNITS[k]) && NumberPart(upper, UNITS[k]) == d;
    hide Matches, NumberPart;
  }

  lemma EndsInNoLetter(d: string, gap: string)
    requires d != [] && AllDigits(d) && Blank(gap)
    ensures !IsLetter((d + gap)[|d + gap| - 1])
  {
    var s := d + gap;
    assert gap != "" ==> s[|s| - 1] == gap[|gap| - 1];
    assert gap == "" ==> s == d;
  }

  /** What is printed is the count of the largest binary unit, up to GiB, that goes into the size
      without remainder. */
  lemma PrintIs(b: nat) returns (n: nat, i: nat)
    ensures i <= 3 && b == n * Power(1024, i) && (i > 0 ==> n > 0)
    ensures Print(b) == Decimal(n) + ["", "KiB", "MiB", "GiB"][i]
    ensures forall j | i < j <= 3 :: b == 0 || b % Power(1024, j) != 0
  {
    PowersAre();
    hide Decimal, Power;
    if b >= 0x4000_0000 && b % 0x4000_0000 == 0 {
      n, i := b / 0x4000_0000, 3;
    } else if b >= 0x10_0000 && b % 0x10_0000 == 0 {
      n, i := b / 0x10_0000, 2;
    } else if b >= 0x400 && b % 0x400 == 0 {
      n, i := b / 0x400, 1;
    } else {
      n, i := b, 0;
      One();
      assert Decimal(b) + "" == Decimal(b);
    }
  }

  lemma One()
    ensures Power(1024, 0) == 1
  {
  }

  // ---------------------------------------------------------------- plain numbers

  lemma {:induction false} NoUnitIn(f: Floats, s: string, k: nat)
    requires s != [] && IsDigit(s[|s| - 1]) && k <= |UNITS|
    ensures ParseFrom(f, s, k) == ParseWhole(s)
    decreases |UNITS| - k
  {
    if k < |UNITS| {
      UnitsAreLetters(k);
      var suffix := UNITS[k].suffix;
      if |s| >= |suffix| {
        assert s[|s| - |suffix|..][|suffix| - 1] == s[|s| - 1] && IsLetter(suffix[|suffix| - 1]);
      }
      NoUnitIn(f, s, k + 1);
    }
  }

  lemma SignedCore(sign: string, d: string)
    requires sign in {"", "+", "-"} && d != [] && AllDigits(d)
    ensures Tight(sign + d) && ToUpper(sign + d) == sign + d && IsDigit((sign + d)[|sign + d| - 1])
  {
    var s := sign + d;
    assert s[|s| - 1] == d[|d| - 1] && s[|s| - 1..] == [d[|d| - 1]] && [d[|d| - 1]][0] == d[|d| - 1];
    assert s[..1] == [s[0]] && [s[0]][0] == s[0];
    assert sign == "" ==> s == d;
    forall i | 0 <= i < |s|
      ensures Upper(s[i]) == s[i]
    {
      assert i >= |sign| ==> s[i] == d[i - |sign|];
    }
  }

  lemma WholeNumber(sign: string, d: string)
    requires sign in {"", "+", "-"} && d != [] && AllDigits(d)
    ensures var v: int := if sign == "-" then 0 - Value(d) else Value(d);
            ParseWhole(sign + d)
            == if v < -TWO_63 || v >= TWO_63 then Err(BadNumber) else if v < 0 then Err(Negative) else Ok(v)
  {
    var s := sign + d;
    if sign == "" {
      assert s == d;
    } else {
      assert s[0] == sign[0] && s[1..] == d;
    }
  }

  /** A number without a suffix, blanks around it and a sign allowed, is taken as it is; a negative
      one is refused, and so is one that no int64 holds. */
  lemma PlainNumber(f: Floats, left: string, sign: string, d: string, right: string)
    requires sign in {"", "+", "-"} && d != [] && AllDigits(d) && Blank(left) && Blank(right)
    ensures var v: int := if sign == "-" then 0 - Value(d) else Value(d);
            Parse(f, left + (sign + d) + right)
            == if v < -TWO_63 || v >= TWO_63 then Err(BadNumber) else if v < 0 then Err(Negative) else Ok(v)
  {
    SignedCore(sign, d);
    WholeNumber(sign, d);
    hide ParseWhole, ParseFrom, ToUpper, Trim, Tight, Blank, Value, Parse;
    NoUnitIn(f, sign + d, 0);
    ParseOfCore(f, left + (sign + d) + right, left, sign + d, right);
  }

  /** Blanks alone are no size. */
  lemma NothingIsEmpty(f: Floats, text: string)
    requires Blank(text)
    ensures Parse(f, text) == Err(Empty)
  {
    AllBlankGoes(text);
  }

  // ---------------------------------------------------------------- the round trip

  lemma PrintedCount(f: Floats, q: nat, printed: string, k: nat, e: nat)
    requires Ieee(f) && q < TWO_53 && k < |UNITS| && UNITS[k].scale == Pow2(e) && q * Pow2(e) < TWO_63
    requires |printed| == |UNITS[k].suffix| && ToUpper(printed) == UNITS[k].suffix && NoSpaces(printed)
    ensures Parse(f, Decimal(q) + printed) == Ok(q * Pow2(e))
  {
    var d, text := Decimal(q), Decimal(q) + printed;
    UnitsAreLetters(k);
    TrimNothing(text);
    assert ToUpper(text) == d + UNITS[k].suffix;
    DecimalValue(q);
    RoundIsExact(q, 0);
    RoundIsExact(q, e);
    CountParses(f, d, k);
  }

  predicate NoSpaces(s: string) {
    forall i | 0 <= i < |s| :: !IsSpace(s[i])
  }

  lemma ScalesArePowers()
    ensures Pow2(10) == 0x400 && Pow2(20) == 0x10_0000 && Pow2(30) == 0x4000_0000
  {
    assert Pow2(10) == 0x400;
    assert Pow2(20) == 0x10_0000;
  }

  lemma {:induction false} PowAtLeast(e: nat)
    requires e >= 10
    ensures Pow2(e) >= 0x400
  {
    if e == 10 {
      ScalesArePowers();
    } else {
      PowAtLeast(e - 1);
    }
  }

  lemma WholeUnits(b: int, scale: nat)
    requires 0 <= b < TWO_63 && scale >= 0x400 && b % scale == 0
    ensures 0 <= b / scale < TWO_53 && (b / scale) * scale == b
  {
    var q := b / scale;
    assert b == q * scale;
    assert q * scale >= q * 0x400;
  }

  lemma PrintedUnit(f: Floats, b: int, printed: string, k: nat, e: nat)
    requires Ieee(f) && 0 <= b < TWO_63 && k < |UNITS| && UNITS[k].scale == Pow2(e) && e >= 10 && b % Pow2(e) == 0
    requires |printed| == |UNITS[k].suffix| && ToUpper(printed) == UNITS[k].suffix && NoSpaces(printed)
    ensures b / Pow2(e) >= 0 && Parse(f, Decimal(b / Pow2(e)) + printed) == Ok(b)
  {
    hide Parse, Pow2, Decimal, ToUpper;
    PowAtLeast(e);
    WholeUnits(b, Pow2(e));
    PrintedCount(f, b / Pow2(e), printed, k, e);
  }

  lemma PrintedPlain(f: Floats, b: int)
    requires 0 <= b < TWO_63
    ensures Parse(f, Decimal(b)) == Ok(b)
  {
    var d := Decimal(b);
    TrimNothing(d);
    assert ToUpper(d) == d;
    NoUnitIn(f, d, 0);
    DecimalValue(b);
  }

  lemma PrintedLetters()
    ensures ToUpper("GiB") == UNITS[2].suffix && ToUpper("MiB") == UNITS[1].suffix && ToUpper("KiB") == UNITS[0].suffix
  {
  }

  lemma PrintedScaled(f: Floats, b: int, k: nat)
    requires Ieee(f) && 0 <= b < TWO_63 && k < 3 && b % UNITS[k].scale == 0
    ensures b / UNITS[k].scale >= 0
    ensures Parse(f, Decimal(b / UNITS[k].scale) + ["KiB", "MiB", "GiB"][k]) == Ok(b)
  {
    ScalesArePowers();
    PrintedLetters();
    hide Parse, Pow2, Decimal, ToUpper, Ieee;
    PrintedUnit(f, b, ["KiB", "MiB", "GiB"][k], k, 10 * (k + 1));
  }

  /** Whatever size is printed reads back as itself. */
  lemma RoundTrip(f: Floats, b: int)
    requires Ieee(f) && 0 <= b < TWO_63
    ensures Parse(f, Print(b)) == Ok(b)
  {
    hide Parse, Pow2, Decimal, Ieee;
    if b >= 0x4000_0000 && b % 0x4000_0000 == 0 {
      PrintedScaled(f, b, 2);
    } else if b >= 0x10_0000 && b % 0x10_0000 == 0 {
      PrintedScaled(f, b, 1);
    } else if b >= 0x400 && b % 0x400 == 0 {
      PrintedScaled(f, b, 0);
    } else {
      PrintedPlain(f, b);
    }
  }

  // ---------------------------------------------------------------- which counts are exact

  /** A number of at most 53 significant bits: what a float64 holds without rounding. */
  ghost predicate Representable(n: nat) {
    exists m: nat, e: nat :: Halves(n, m, e)
  }

  predicate Halves(n: nat, m: nat, e: nat) {
    m < TWO_53 && n == m * Pow2(e)
  }

  lemma MultipleIsRepresentable(q: nat, j: nat)
    requires q <= TWO_53
    ensures Representable(q * Pow2(j))
  {
    if q < TWO_53 {
      assert Halves(q * Pow2(j), q, j);
    } else {
      assert TWO_53 * Pow2(j) == (TWO_53 / 2) * Pow2(j + 1);
      assert Halves(q * Pow2(j), TWO_53 / 2, j + 1);
    }
  }

  lemma QuotientBelow(n: nat, unit: nat)
    requires unit > 0 && n < TWO_53 * unit
    ensures n / unit < TWO_53
  {
    var q := n / unit;
    assert n == q * unit + n % unit;
    if q >= TWO_53 {
      NotBelow(q, TWO_53, unit);
    }
  }

  lemma NearestIsRepresentable(n: nat, j: nat)
    requires n < TWO_53 * Pow2(j)
    ensures Representable(Nearest(n, Pow2(j)))
  {
    hide Representable, Pow2;
    var q := n / Pow2(j);
    QuotientBelow(n, Pow2(j));
    MultipleIsRepresentable(q, j);
    MultipleIsRepresentable(q + 1, j);
  }

  lemma NotBelow(a: nat, b: nat, c: nat)
    requires a >= b
    ensures a * c >= b * c
  {
  }

  lemma {:induction false} RoundedIsRepresentable(n: nat, j: nat)
    ensures Representable(RoundFrom(n, Pow2(j)))
    decreases n - TWO_53 * Pow2(j)
  {
    hide Representable, Nearest;
    if n < TWO_53 * Pow2(j) {
      NearestIsRepresentable(n, j);
    } else {
      RoundedIsRepresentable(n, j + 1);
    }
  }

  lemma RepresentableIsExact(n: nat)
    requires Representable(n)
    ensures Round(n) == n
  {
    var m: nat, e: nat :| Halves(n, m, e);
    RoundIsExact(m, e);
  }

  lemma OddTimesOdd(a: nat, b: nat)
    requires a % 2 == 1 && b % 2 == 1
    ensures (a * b) % 2 == 1
  {
    var x, y := a / 2, b / 2;
    assert a == 2 * x + 1 && b == 2 * y + 1;
    assert a * b == 2 * (2 * x * y + x + y) + 1;
  }

  lemma DoubleIsRepresentable(h: nat)
    requires Representable(h)
    ensures Representable(2 * h)
  {
    var k: nat, f: nat :| Halves(h, k, f);
    assert k * Pow2(f + 1) == 2 * (k * Pow2(f));
    assert Halves(2 * h, k, f + 1);
  }

  lemma HalfOfProduct(h: nat, c: nat, m: nat, e: nat)
    requires e > 0 && (2 * h) * c == m * Pow2(e)
    ensures h * c == m * Pow2(e - 1)
  {
    assert (2 * h) * c == 2 * (h * c);
    assert m * Pow2(e) == 2 * (m * Pow2(e - 1));
  }

  lemma SmallFactor(v: nat, scale: nat)
    requires scale > 0 && v * scale < TWO_53
    ensures Halves(v, v, 0)
  {
    NotBelow(scale, 1, v);
    assert v * scale == scale * v;
  }

  lemma EvenProduct(v: nat, scale: nat, m: nat, e: nat)
    requires e > 0 && v * scale == m * Pow2(e) && v % 2 == 1
    ensures scale % 2 == 0
  {
    assert m * Pow2(e) == 2 * (m * Pow2(e - 1));
    if scale % 2 == 1 {
      OddTimesOdd(v, scale);
    }
  }

  /** A factor of a number of 53 significant bits has no more. */
  lemma {:induction false} FactorIsRepresentable(v: nat, scale: nat, m: nat, e: nat)
    requires scale > 0 && Halves(v * scale, m, e)
    ensures Representable(v)
    decreases e
  {
    hide Pow2;
    if e == 0 {
      assert Pow2(0) == 1 by { PowZero(); }
      SmallFactor(v, scale);
    } else if v % 2 == 0 {
      var h := v / 2;
      assert v == 2 * h;
      HalfOfProduct(h, scale, m, e);
      FactorIsRepresentable(h, scale, m, e - 1);
      DoubleIsRepresentable(h);
    } else {
      EvenProduct(v, scale, m, e);
      var s := scale / 2;
      assert scale == 2 * s;
      Commutes(v, scale);
      HalfOfProduct(s, v, m, e);
      Commutes(v, s);
      FactorIsRepresentable(v, s, m, e - 1);
    }
  }

  lemma PowZero()
    ensures Pow2(0) == 1
  {
  }

  lemma Commutes(a: nat, b: nat)
    ensures a * b == b * a
  {
  }

  /** A count with a suffix is read exactly if and only if the size it names has at most 53
      significant bits; then the count itself has no more. Otherwise float64 rounds it. */
  lemma CountIsExactIff(f: Floats, d: string, k: nat)
    requires Ieee(f) && d != [] && AllDigits(d) && k < |UNITS|
    requires Value(d) < FLOAT_RANGE && Round(Value(d)) * UNITS[k].scale < FLOAT_RANGE
    requires Round(Round(Value(d)) * UNITS[k].scale) < TWO_63
    ensures ParseFrom(f, d + UNITS[k].suffix, 0) == Ok(Value(d) * UNITS[k].scale)
            <==> Representable(Value(d) * UNITS[k].scale)
  {
    CountParses(f, d, k);
    UnitsAreLetters(k);
    ScaledIsExactIff(Value(d), UNITS[k].scale);
    hide Representable, Round, Value, ParseFrom;
  }

  lemma ScaledIsExactIff(v: nat, scale: nat)
    requires scale > 0
    ensures Round(Round(v) * scale) == v * scale <==> Representable(v * scale)
  {
    if Representable(v * scale) {
      var m: nat, e: nat :| Halves(v * scale, m, e);
      FactorIsRepresentable(v, scale, m, e);
      RepresentableIsExact(v);
      RepresentableIsExact(v * scale);
    }
    RoundedIsRepresentable(Round(v) * scale, 0);
    hide Representable, Halves, RoundFrom;
  }

  lemma JustAbove()
    ensures Round(TWO_53 + 1) == TWO_53 && Round(TWO_53) == TWO_53
  {
    assert RoundFrom(TWO_53 + 1, 2) == Nearest(TWO_53 + 1, 2) == TWO_53;
    assert RoundFrom(TWO_53, 2) == Nearest(TWO_53, 2) == TWO_53;
  }

  /** Above 2^53 a count with a suffix is no longer exact, even in bytes. */
  lemma LargeCountIsRounded(f: Floats, text: string)
    requires Ieee(f) && text == Decimal(TWO_53 + 1) + "B"
    ensures Parse(f, text) == Ok(TWO_53) && ParseWhole(Decimal(TWO_53 + 1)) == Ok(TWO_53 + 1)
  {
    var d := Decimal(TWO_53 + 1);
    DecimalValue(TWO_53 + 1);
    JustAbove();
    UnitsAreLetters(12);
    TrimNothing(text);
    assert ToUpper(text) == d + UNITS[12].suffix;
    CountParses(f, d, 12);
  }
}
