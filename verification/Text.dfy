/** Text as the Go standard library treats it, over ASCII. */
module Text {

  predicate IsSpace(c: char) {
    c in {' ', '\t', '\n', '\r', 11 as char, 12 as char}
  }

  function TrimLeft(s: string): string {
    if s != [] && IsSpace(s[0]) then TrimLeft(s[1..]) else s
  }

  function TrimRight(s: string): string {
    if s != [] && IsSpace(s[|s| - 1]) then TrimRight(s[..|s| - 1]) else s
  }

  /** strings.TrimSpace */
  function Trim(s: string): string {
    TrimRight(TrimLeft(s))
  }

  /** White space of ASCII, by code point. */
  predicate Blank(s: string) {
    forall i | 0 <= i < |s| :: s[i] as int == 32 || 9 <= s[i] as int <= 13
  }

  /** Blanks at neither end. */
  predicate Tight(s: string) {
    s != "" ==> !Blank(s[..1]) && !Blank(s[|s| - 1..])
  }

  lemma {:induction false} TrimLeftIs(s: string) returns (left: string)
    ensures s == left + TrimLeft(s) && Blank(left) && (TrimLeft(s) != "" ==> !Blank(TrimLeft(s)[..1]))
  {
    left := "";
    if s != [] && IsSpace(s[0]) {
      left := TrimLeftIs(s[1..]);
      left := [s[0]] + left;
    }
  }

  lemma {:induction false} TrimRightIs(s: string) returns (right: string)
    ensures s == TrimRight(s) + right && Blank(right)
    ensures TrimRight(s) != "" ==> !Blank(TrimRight(s)[|TrimRight(s)| - 1..])
  {
    right := "";
    if s != [] && IsSpace(s[|s| - 1]) {
      right := TrimRightIs(s[..|s| - 1]);
      right := right + [s[|s| - 1]];
    }
  }

  /** Trimming takes blanks off both ends, and leaves none there. */
  lemma TrimIs(s: string) returns (left: string, right: string)
    ensures s == left + Trim(s) + right && Blank(left) && Blank(right) && Tight(Trim(s))
  {
    left := TrimLeftIs(s);
    right := TrimRightIs(TrimLeft(s));
    hide TrimLeft, TrimRight, Blank;
    if Trim(s) != "" {
      assert Trim(s)[..1] == TrimLeft(s)[..1];
    }
  }

  /** There is one way to do that. */
  lemma TrimUnique(s: string, left: string, core: string, right: string)
    requires s == left + core + right && Blank(left) && Blank(right) && Tight(core)
    ensures Trim(s) == core
  {
    LeftBlanksGo(left, core + right);
    assert left + (core + right) == s;
    RightBlanksGo(core, right);
  }

  lemma {:induction false} LeftBlanksGo(left: string, s: string)
    requires Blank(left)
    ensures TrimLeft(left + s) == TrimLeft(s)
  {
    if left != "" {
      assert (left + s)[1..] == left[1..] + s;
      LeftBlanksGo(left[1..], s);
    } else {
      assert left + s == s;
    }
  }

  lemma {:induction false} RightBlanksGo(core: string, right: string)
    requires Blank(right) && Tight(core)
    ensures TrimRight(TrimLeft(core + right)) == core
  {
    if right == "" {
      assert core + right == core;
    } else if core == "" {
      AllBlankGoes(core + right);
    } else {
      var n := |right| - 1;
      var s := core + right;
      assert s[..|s| - 1] == core + right[..n];
      RightBlanksGo(core, right[..n]);
    }
  }

  lemma {:induction false} AllBlankGoes(s: string)
    requires Blank(s)
    ensures Trim(s) == ""
  {
    if s != "" {
      AllBlankGoes(s[1..]);
    }
  }

  /** The same letter, whatever its case. */
  predicate SameLetter(c: char, d: char) {
    c == d || ('A' <= c <= 'Z' && d as int == c as int + 32) || ('A' <= d <= 'Z' && c as int == d as int + 32)
  }

  predicate SameUpToCase(s: string, u: string) {
    |s| == |u| && forall i | 0 <= i < |s| :: SameLetter(s[i], u[i])
  }

  lemma LettersFold(c: char, d: char)
    ensures Lower(c) == Lower(d) <==> SameLetter(c, d)
    ensures Upper(c) == Upper(d) <==> SameLetter(c, d)
  {
  }

  /** Lowering both sides compares them up to case. */
  lemma LowerIs(s: string, u: string)
    ensures ToLower(s) == ToLower(u) <==> SameUpToCase(s, u)
  {
    if |s| == |u| {
      var a, b := ToLower(s), ToLower(u);
      forall i | 0 <= i < |s|
        ensures a[i] == b[i] <==> SameLetter(s[i], u[i])
      {
        LettersFold(s[i], u[i]);
      }
      if a == b {
        assert forall i | 0 <= i < |s| :: a[i] == b[i];
      }
    }
  }

  /** And so does raising them. */
  lemma UpperIs(s: string, u: string)
    ensures ToUpper(s) == ToUpper(u) <==> SameUpToCase(s, u)
  {
    if |s| == |u| {
      var a, b := ToUpper(s), ToUpper(u);
      forall i | 0 <= i < |s|
        ensures a[i] == b[i] <==> SameLetter(s[i], u[i])
      {
        LettersFold(s[i], u[i]);
      }
      if a == b {
        assert forall i | 0 <= i < |s| :: a[i] == b[i];
      }
    }
  }

  lemma TrimNothing(s: string)
    requires s != [] ==> !IsSpace(s[0]) && !IsSpace(s[|s| - 1])
    ensures Trim(s) == s
  {
  }

  function Upper(c: char): char {
    if 'a' <= c <= 'z' then 'A' + (c - 'a') else c
  }

  function Lower(c: char): char {
    if 'A' <= c <= 'Z' then 'a' + (c - 'A') else c
  }

  function ToUpper(s: string): (u: string)
    ensures |u| == |s|
  {
    seq(|s|, i requires 0 <= i < |s| => Upper(s[i]))
  }

  function ToLower(s: string): (l: string)
    ensures |l| == |s|
  {
    seq(|s|, i requires 0 <= i < |s| => Lower(s[i]))
  }

  predicate HasSuffix(s: string, suffix: string) {
    |s| >= |suffix| && s[|s| - |suffix|..] == suffix
  }

  // ---------------------------------------------------------------- decimal numerals

  predicate IsDigit(c: char) {
    '0' <= c <= '9'
  }

  predicate AllDigits(s: string) {
    forall i | 0 <= i < |s| :: IsDigit(s[i])
  }

  function Digit(d: nat): (c: char)
    requires d < 10
    ensures IsDigit(c) && (c as int) - ('0' as int) == d
  {
    '0' + d as char
  }

  function Decimal(n: nat): (s: string)
    ensures s != [] && AllDigits(s)
  {
    if n < 10 then [Digit(n)] else Decimal(n / 10) + [Digit(n % 10)]
  }

  function Value(s: string): nat
    requires AllDigits(s)
  {
    if s == [] then 0 else 10 * Value(s[..|s| - 1]) + (s[|s| - 1] as int - '0' as int)
  }

  lemma {:induction false} DecimalValue(n: nat)
    ensures Value(Decimal(n)) == n
  {
    if n < 10 {
      assert [Digit(n)][..0] == [];
    } else {
      DecimalValue(n / 10);
      assert Decimal(n)[..|Decimal(n)| - 1] == Decimal(n / 10);
    }
  }
}
