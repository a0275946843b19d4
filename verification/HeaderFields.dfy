/** HEADER.FIELDS and HEADER.FIELDS.NOT (section 6.4.5 of RFC 3501): keeping or dropping the
    named fields of a header block, continuation lines included. */
module HeaderFields {
  import opened Wrappers
  import opened Text

  const CRLF: string := "\r\n"

  // ---------------------------------------------------------------- lines

  predicate BreakAt(s: string, i: nat) {
    i + 1 < |s| && s[i] == '\r' && s[i + 1] == '\n'
  }

  /** Where the first line ends, or the length when there is no line break. */
  function FirstBreak(s: string, from: nat): (i: nat)
    requires from <= |s|
    ensures from <= i <= |s| && (i < |s| ==> BreakAt(s, i))
    ensures forall k | from <= k < i :: !BreakAt(s, k)
    decreases |s| - from
  {
    if from == |s| || BreakAt(s, from) then from else FirstBreak(s, from + 1)
  }

  /** strings.Split on CRLF. */
  function Split(s: string): (lines: seq<string>)
    ensures lines != []
    decreases |s|
  {
    var i := FirstBreak(s, 0);
    if i == |s| then [s] else [s[..i]] + Split(s[i + 2..])
  }

  function Join(lines: seq<string>): string {
    if lines == [] then "" else if |lines| == 1 then lines[0] else lines[0] + CRLF + Join(lines[1..])
  }

  predicate OneLine(s: string) {
    forall i | 0 <= i < |s| :: !BreakAt(s, i)
  }

  predicate AllOneLine(lines: seq<string>) {
    forall i | 0 <= i < |lines| :: OneLine(lines[i])
  }

  lemma {:induction false} SplitGivesLines(s: string)
    ensures AllOneLine(Split(s)) && Join(Split(s)) == s
    decreases |s|
  {
    var i := FirstBreak(s, 0);
    if i < |s| {
      SplitGivesLines(s[i + 2..]);
      var rest := Split(s[i + 2..]);
      assert ([s[..i]] + rest)[1..] == rest;
      assert s == s[..i] + CRLF + s[i + 2..];
      assert forall k | 0 <= k < i :: BreakAt(s[..i], k) ==> BreakAt(s, k);
    }
  }

  lemma SplitOffLine(line: string, rest: string)
    requires OneLine(line)
    ensures Split(line + CRLF + rest) == [line] + Split(rest)
  {
    var s := line + CRLF + rest;
    var n := |line|;
    assert BreakAt(s, n);
    forall k | 0 <= k < n
      ensures !BreakAt(s, k)
    {
      assert BreakAt(s, k) ==> k + 1 < n && BreakAt(line, k);
    }
    var i := FirstBreak(s, 0);
    assert i == n;
    assert s[..n] == line && s[n + 2..] == rest;
  }

  /** Splitting undoes joining. */
  lemma {:induction false} SplitOfJoin(lines: seq<string>)
    requires lines != [] && AllOneLine(lines)
    ensures Split(Join(lines)) == lines
  {
    if |lines| > 1 {
      SplitOffLine(lines[0], Join(lines[1..]));
      SplitOfJoin(lines[1..]);
    } else {
      var i := FirstBreak(lines[0], 0);
    }
  }

  // ---------------------------------------------------------------- fields

  predicate Continues(line: string) {
    line != "" && (line[0] == ' ' || line[0] == '\t')
  }

  predicate Starts(line: string) {
    line != "" && !Continues(line) && ':' in line
  }

  function Before(s: string, c: char): string {
    if s == "" || s[0] == c then "" else [s[0]] + Before(s[1..], c)
  }

  /** The field name as it is compared. */
  function Name(line: string): string {
    ToLower(Trim(Before(line, ':')))
  }

  function LastStart(lines: seq<string>, n: nat): (j: Option<nat>)
    requires n <= |lines|
    ensures j.Some? ==> j.value < n && Starts(lines[j.value]) && forall k | j.value < k < n :: !Starts(lines[k])
    ensures j.None? ==> forall k | 0 <= k < n :: !Starts(lines[k])
  {
    if n == 0 then None else if Starts(lines[n - 1]) then Some(n - 1) else LastStart(lines, n - 1)
  }

  /** The line that opens the field line i belongs to, if it belongs to one. */
  function Owner(lines: seq<string>, i: nat): (j: Option<nat>)
    requires i < |lines|
  {
    if Starts(lines[i]) then Some(i) else if Continues(lines[i]) then LastStart(lines, i) else None
  }

  predicate Chosen(line: string, wanted: set<string>, exclude: bool) {
    (Name(line) in wanted) != exclude
  }

  predicate Kept(lines: seq<string>, i: nat, wanted: set<string>, exclude: bool)
    requires i < |lines|
  {
    var j := Owner(lines, i);
    j.Some? && Chosen(lines[j.value], wanted, exclude)
  }

  /** The kept lines among the first n. */
  function Filter(lines: seq<string>, n: nat, wanted: set<string>, exclude: bool): seq<string>
    requires n <= |lines|
  {
    if n == 0 then []
    else Filter(lines, n - 1, wanted, exclude) + if Kept(lines, n - 1, wanted, exclude) then [lines[n - 1]] else []
  }

  function Render(lines: seq<string>): string {
    if lines == [] then "" else Render(lines[..|lines| - 1]) + lines[|lines| - 1] + CRLF
  }

  function Names(fields: seq<string>): set<string> {
    set i | 0 <= i < |fields| :: ToLower(fields[i])
  }

  function Selected(header: string, wanted: set<string>, exclude: bool): string {
    var lines := Split(header);
    Render(Filter(lines, |lines|, wanted, exclude)) + CRLF
  }

  /** The lines of the named fields, or of the others, and the closing blank line. */
  method SelectHeaderFields(header: string, fields: seq<string>, exclude: bool)
    returns (out: string, ghost marks: seq<bool>)
    ensures out == Selected(header, Names(fields), exclude)
    ensures IsSelection(Split(header), fields, exclude, marks) && out == Picked(Split(header), marks) + "\r\n"
  {
    var wanted: set<string> := {};
    for i := 0 to |fields|
      invariant wanted == Names(fields[..i])
    {
      NextName(fields, i);
      wanted := wanted + {ToLower(fields[i])};
    }
    assert fields[..|fields|] == fields;

    out := "";
    var keep := false;
    var lines := Split(header);
    ghost var kept: seq<string> := [];
    hide Split, Name, Names, ToLower, IsSelection, Picked, Render;
    RenderNothing();
    for i := 0 to |lines|
      invariant kept == Filter(lines, i, wanted, exclude) && out == Render(kept)
      invariant keep <==> LastStart(lines, i).Some? && Chosen(lines[LastStart(lines, i).value], wanted, exclude)
    {
      var line := lines[i];
      if line == "" {
        continue;
      }
      if Continues(line) {
        if keep {
          out := out + line + CRLF;
          RenderOne(kept, line);
          kept := kept + [line];
        }
        continue;
      }
      if ':' !in line {
        continue;
      }
      keep := (Name(line) in wanted) != exclude;
      if keep {
        out := out + line + CRLF;
        RenderOne(kept, line);
        kept := kept + [line];
      }
    }
    out := out + CRLF;
    marks := SelectedPicks(header, fields, exclude);
  }

  lemma NextName(fields: seq<string>, i: nat)
    requires i < |fields|
    ensures Names(fields[..i + 1]) == Names(fields[..i]) + {ToLower(fields[i])}
  {
    assert forall k | 0 <= k < i :: fields[..i + 1][k] == fields[..i][k] == fields[k];
    assert fields[..i + 1][i] == fields[i];
  }

  lemma RenderNothing()
    ensures Render([]) == ""
  {
  }

  lemma RenderOne(kept: seq<string>, line: string)
    ensures Render(kept + [line]) == Render(kept) + line + CRLF
  {
    assert (kept + [line])[..|kept|] == kept;
  }

  // ---------------------------------------------------------------- what a selection keeps

  /** A line that opens a field: a colon, and no blank in front. */
  predicate Opens(line: string) {
    line != "" && line[0] != ' ' && line[0] != '\t' && ':' in line
  }

  /** Line j opens the field of line i: they are the same, or line i is folded and no other field
      opens in between. */
  ghost predicate Heads(lines: seq<string>, j: nat, i: nat) {
    && j <= i < |lines| && Opens(lines[j])
    && (j < i ==> lines[i] != "" && (lines[i][0] == ' ' || lines[i][0] == '\t'))
    && forall k | j < k < i :: !Opens(lines[k])
  }

  /** t is s without the blanks around it. */
  ghost predicate IsCore(s: string, t: string) {
    exists a: nat, b: nat :: CoreAt(s, t, a, b)
  }

  predicate CoreAt(s: string, t: string, a: nat, b: nat) {
    a <= b <= |s| && t == s[a..b] && Blank(s[..a]) && Blank(s[b..]) && Tight(t)
  }

  /** What stands before the first colon, without the blanks around it. */
  ghost predicate IsName(line: string, name: string) {
    exists c: nat :: ColonAt(line, c) && IsCore(line[..c], name)
  }

  predicate ColonAt(line: string, c: nat) {
    c < |line| && line[c] == ':' && ':' !in line[..c]
  }

  /** Its name is one of these, whatever the case. */
  ghost predicate AskedFor(line: string, fields: seq<string>) {
    exists name, i :: 0 <= i < |fields| && IsName(line, name) && SameUpToCase(name, fields[i])
  }

  /** Line i is of a field that was asked for, or with exclude of another. */
  ghost predicate OfChosen(lines: seq<string>, i: nat, fields: seq<string>, exclude: bool) {
    exists j: nat :: Heads(lines, j, i) && (AskedFor(lines[j], fields) <==> !exclude)
  }

  /** The lines of the fields asked for, or of the others. */
  ghost predicate IsSelection(lines: seq<string>, fields: seq<string>, exclude: bool, marks: seq<bool>) {
    && |marks| == |lines|
    && forall i: nat | i < |lines| :: marks[i] <==> OfChosen(lines, i, fields, exclude)
  }

  /** The marked lines, each with its line break. */
  function Picked(lines: seq<string>, marks: seq<bool>): string
    requires |marks| == |lines|
  {
    if lines == [] then ""
    else
      var n := |lines| - 1;
      Picked(lines[..n], marks[..n]) + if marks[n] then lines[n] + "\r\n" else ""
  }

  lemma {:induction false} BeforeIs(s: string, c: nat)
    requires c < |s| && s[c] == ':' && ':' !in s[..c]
    ensures Before(s, ':') == s[..c]
  {
    if c > 0 {
      assert s[..c][0] == s[0];
      assert s[1..][..c - 1] == s[..c][1..];
      BeforeIs(s[1..], c - 1);
    }
  }

  lemma {:induction false} FirstColon(s: string) returns (c: nat)
    requires ':' in s
    ensures c < |s| && s[c] == ':' && ':' !in s[..c]
  {
    c := 0;
    if s[0] != ':' {
      c := FirstColon(s[1..]);
      assert s[..c + 1] == [s[0]] + s[1..][..c];
      c := c + 1;
    }
  }

  lemma TrimmedIsCore(s: string)
    ensures IsCore(s, Trim(s))
  {
    var left, right := TrimIs(s);
    hide Trim, Blank, Tight;
    var a, b := |left|, |left| + |Trim(s)|;
    assert s[..a] == left && s[a..b] == Trim(s) && s[b..] == right;
    assert CoreAt(s, Trim(s), a, b);
  }

  lemma CoreIsTrimmed(s: string, t: string)
    requires IsCore(s, t)
    ensures t == Trim(s)
  {
    hide Trim, Blank, Tight;
    var a: nat, b: nat :| CoreAt(s, t, a, b);
    assert s == s[..a] + t + s[b..];
    TrimUnique(s, s[..a], t, s[b..]);
  }

  lemma OneFirstColon(line: string, c: nat, d: nat)
    requires ColonAt(line, c) && ColonAt(line, d)
    ensures c == d
  {
  }

  lemma NameIs(line: string, name: string)
    requires ':' in line
    ensures IsName(line, name) <==> name == Trim(Before(line, ':'))
  {
    var c := FirstColon(line);
    BeforeIs(line, c);
    assert ColonAt(line, c);
    hide IsCore, Trim, Before, ColonAt;
    TrimmedIsCore(line[..c]);
    if IsName(line, name) {
      var d: nat :| ColonAt(line, d) && IsCore(line[..d], name);
      OneFirstColon(line, c, d);
      CoreIsTrimmed(line[..c], name);
    }
  }

  lemma AskedForIff(line: string, fields: seq<string>)
    requires ':' in line
    ensures AskedFor(line, fields) <==> Name(line) in Names(fields)
  {
    var name := Trim(Before(line, ':'));
    NameIs(line, name);
    hide IsName, SameUpToCase, Before, Trim, ToLower;
    forall i | 0 <= i < |fields|
      ensures ToLower(name) == ToLower(fields[i]) <==> SameUpToCase(name, fields[i])
    {
      LowerIs(name, fields[i]);
    }
    if AskedFor(line, fields) {
      var other, i :| 0 <= i < |fields| && IsName(line, other) && SameUpToCase(other, fields[i]);
      NameIs(line, other);
      assert ToLower(fields[i]) in Names(fields);
    }
  }

  /** Which line heads line i, if any. */
  lemma HeadIsOwner(lines: seq<string>, i: nat, j: nat)
    requires i < |lines|
    ensures Heads(lines, j, i) <==> Owner(lines, i) == Some(j)
  {
    if Continues(lines[i]) {
      var last := LastStart(lines, i);
      assert forall k | 0 <= k < |lines| :: Opens(lines[k]) <==> Starts(lines[k]);
    }
  }

  lemma KeptIsSelected(lines: seq<string>, i: nat, fields: seq<string>, exclude: bool)
    requires i < |lines|
    ensures Kept(lines, i, Names(fields), exclude) <==> OfChosen(lines, i, fields, exclude)
  {
    var j := Owner(lines, i);
    if j.Some? {
      HeadIsOwner(lines, i, j.value);
      AskedForIff(lines[j.value], fields);
    }
    forall k: nat | Heads(lines, k, i)
      ensures j == Some(k)
    {
      HeadIsOwner(lines, i, k);
    }
    hide Heads, AskedFor, Name, Names, Owner;
  }

  lemma {:induction false} FilterPicks(lines: seq<string>, n: nat, wanted: set<string>, exclude: bool, marks: seq<bool>)
    requires n <= |lines| == |marks| && forall i | 0 <= i < |lines| :: marks[i] == Kept(lines, i, wanted, exclude)
    ensures Render(Filter(lines, n, wanted, exclude)) == Picked(lines[..n], marks[..n])
  {
    hide Kept, Render;
    RenderNothing();
    if n > 0 {
      FilterPicks(lines, n - 1, wanted, exclude, marks);
      PickNext(lines, n - 1, marks);
      hide Picked;
      var before := Filter(lines, n - 1, wanted, exclude);
      RenderOne(before, lines[n - 1]);
      assert before + [] == before;
    }
  }

  lemma PickNext(lines: seq<string>, n: nat, marks: seq<bool>)
    requires n < |lines| == |marks|
    ensures Picked(lines[..n + 1], marks[..n + 1])
            == Picked(lines[..n], marks[..n]) + if marks[n] then lines[n] + CRLF else ""
  {
    assert lines[..n + 1][..n] == lines[..n] && marks[..n + 1][..n] == marks[..n];
  }

  /** The selection in terms of the bytes asked for and sent. */
  lemma SelectedPicks(header: string, fields: seq<string>, exclude: bool) returns (marks: seq<bool>)
    ensures IsSelection(Split(header), fields, exclude, marks)
    ensures Selected(header, Names(fields), exclude) == Picked(Split(header), marks) + "\r\n"
  {
    hide Split, Kept, OfChosen, Names;
    var lines := Split(header);
    marks := seq(|lines|, i requires 0 <= i < |lines| => Kept(lines, i, Names(fields), exclude));
    forall i: nat | i < |lines|
      ensures marks[i] <==> OfChosen(lines, i, fields, exclude)
    {
      KeptIsSelected(lines, i, fields, exclude);
    }
    FilterPicks(lines, |lines|, Names(fields), exclude, marks);
    assert lines[..|lines|] == lines && marks[..|lines|] == marks;
  }

  // ---------------------------------------------------------------- the two selections partition

  /** A line that belongs to a field is kept by exactly one of the two selections, and any
      other line by neither. */
  lemma SelectionsPartition(lines: seq<string>, i: nat, wanted: set<string>)
    requires i < |lines|
    ensures Owner(lines, i).Some? <==> Kept(lines, i, wanted, false) || Kept(lines, i, wanted, true)
    ensures !(Kept(lines, i, wanted, false) && Kept(lines, i, wanted, true))
  {
  }

  /** Which of the kept lines come from the first selection; merging by it restores the order. */
  function Merge(kept: seq<string>, dropped: seq<string>, fromKept: seq<bool>): seq<string> {
    if fromKept == [] then []
    else
      var n := |fromKept| - 1;
      if fromKept[n] && kept != [] then Merge(kept[..|kept| - 1], dropped, fromKept[..n]) + [kept[|kept| - 1]]
      else if !fromKept[n] && dropped != [] then
        Merge(kept, dropped[..|dropped| - 1], fromKept[..n]) + [dropped[|dropped| - 1]]
      else []
  }

  function OwnedLines(lines: seq<string>, n: nat): seq<string>
    requires n <= |lines|
  {
    if n == 0 then [] else OwnedLines(lines, n - 1) + if Owner(lines, n - 1).Some? then [lines[n - 1]] else []
  }

  function Marks(lines: seq<string>, n: nat, wanted: set<string>): seq<bool>
    requires n <= |lines|
  {
    if n == 0 then []
    else Marks(lines, n - 1, wanted) + if Owner(lines, n - 1).Some? then [Kept(lines, n - 1, wanted, false)] else []
  }

  /** Together, in order, the two selections are exactly the lines that belong to fields. */
  lemma {:induction false} SelectionsMerge(lines: seq<string>, n: nat, wanted: set<string>)
    requires n <= |lines|
    ensures Merge(Filter(lines, n, wanted, false), Filter(lines, n, wanted, true), Marks(lines, n, wanted))
            == OwnedLines(lines, n)
  {
    if n > 0 {
      SelectionsMerge(lines, n - 1, wanted);
      SelectionsPartition(lines, n - 1, wanted);
      hide Owner, Kept, Merge;
      var kept, dropped := Filter(lines, n - 1, wanted, false), Filter(lines, n - 1, wanted, true);
      var marks := Marks(lines, n - 1, wanted);
      MergeNext(kept, dropped, marks, lines[n - 1]);
      assert kept + [] == kept && dropped + [] == dropped && marks + [] == marks;
    }
  }

  lemma MergeNext(kept: seq<string>, dropped: seq<string>, marks: seq<bool>, line: string)
    ensures Merge(kept + [line], dropped, marks + [true]) == Merge(kept, dropped, marks) + [line]
    ensures Merge(kept, dropped + [line], marks + [false]) == Merge(kept, dropped, marks) + [line]
  {
    assert (kept + [line])[..|kept|] == kept && (dropped + [line])[..|dropped|] == dropped;
    assert (marks + [true])[..|marks|] == marks && (marks + [false])[..|marks|] == marks;
  }

  // ---------------------------------------------------------------- selecting twice

  /** Every line of a selection would be kept again. */
  ghost predicate AllKept(kept: seq<string>, wanted: set<string>, exclude: bool) {
    forall i | 0 <= i < |kept| :: Kept(kept, i, wanted, exclude)
  }

  /** If the field under way in the header is a chosen one, it is under way in the selection. */
  ghost predicate SameField(lines: seq<string>, n: nat, kept: seq<string>, wanted: set<string>, exclude: bool)
    requires n <= |lines|
  {
    LastStart(lines, n).Some? && Chosen(lines[LastStart(lines, n).value], wanted, exclude) ==>
      && LastStart(kept, |kept|).Some?
      && kept[LastStart(kept, |kept|).value] == lines[LastStart(lines, n).value]
  }

  lemma {:induction false} LastStartOfPrefix(a: seq<string>, b: seq<string>, n: nat)
    requires n <= |a|
    ensures LastStart(a + b, n) == LastStart(a, n)
  {
    if n > 0 {
      LastStartOfPrefix(a, b, n - 1);
    }
  }

  lemma KeptInPrefix(a: seq<string>, b: seq<string>, i: nat, wanted: set<string>, exclude: bool)
    requires i < |a|
    ensures Kept(a + b, i, wanted, exclude) <==> Kept(a, i, wanted, exclude)
  {
    LastStartOfPrefix(a, b, i);
  }

  lemma AppendKept(kept: seq<string>, line: string, wanted: set<string>, exclude: bool)
    requires AllKept(kept, wanted, exclude)
    requires Kept(kept + [line], |kept|, wanted, exclude)
    ensures AllKept(kept + [line], wanted, exclude)
  {
    forall i | 0 <= i < |kept|
      ensures Kept(kept + [line], i, wanted, exclude)
    {
      KeptInPrefix(kept, [line], i, wanted, exclude);
    }
  }

  lemma {:induction false} SelectionIsKept(lines: seq<string>, n: nat, wanted: set<string>, exclude: bool)
    requires n <= |lines|
    ensures AllKept(Filter(lines, n, wanted, exclude), wanted, exclude)
    ensures SameField(lines, n, Filter(lines, n, wanted, exclude), wanted, exclude)
  {
    if n > 0 {
      SelectionIsKept(lines, n - 1, wanted, exclude);
      var before, line := Filter(lines, n - 1, wanted, exclude), lines[n - 1];
      hide Chosen, Filter;
      if Kept(lines, n - 1, wanted, exclude) {
        LastStartOfPrefix(before, [line], |before|);
        assert (before + [line])[|before|] == line;
        AppendKept(before, line, wanted, exclude);
        assert Filter(lines, n, wanted, exclude) == before + [line];
      } else {
        assert before + [] == before;
      }
    }
  }

  /** Filtering keeps a prefix in which every line is kept. */
  lemma {:induction false} FilterOfKept(kept: seq<string>, rest: seq<string>, n: nat, wanted: set<string>,
                                        exclude: bool)
    requires AllKept(kept, wanted, exclude) && n <= |kept|
    ensures Filter(kept + rest, n, wanted, exclude) == kept[..n]
  {
    if n > 0 {
      FilterOfKept(kept, rest, n - 1, wanted, exclude);
      KeptInPrefix(kept, rest, n - 1, wanted, exclude);
      assert kept[..n] == kept[..n - 1] + [kept[n - 1]];
    }
  }

  lemma {:induction false} FilterGivesLines(lines: seq<string>, n: nat, wanted: set<string>, exclude: bool)
    requires n <= |lines| && AllOneLine(lines)
    ensures AllOneLine(Filter(lines, n, wanted, exclude))
  {
    if n > 0 {
      FilterGivesLines(lines, n - 1, wanted, exclude);
    }
  }

  lemma {:induction false} RenderFirst(lines: seq<string>)
    requires lines != []
    ensures Render(lines) == lines[0] + CRLF + Render(lines[1..])
  {
    var n := |lines| - 1;
    if n > 0 {
      RenderFirst(lines[..n]);
      assert lines[1..][..n - 1] == lines[..n][1..];
    } else {
      assert lines[..0] == [] && lines[1..] == [];
    }
  }

  /** A rendered block splits back into its lines, and two empty ones. */
  lemma {:induction false} SplitOfRender(lines: seq<string>)
    requires AllOneLine(lines)
    ensures Split(Render(lines) + CRLF) == lines + ["", ""]
  {
    if lines == [] {
      SplitOffLine("", "");
      assert "" + CRLF + "" == Render(lines) + CRLF;
    } else {
      RenderFirst(lines);
      SplitOfRender(lines[1..]);
      assert OneLine(lines[0]);
      hide Render, Split, OneLine, AllOneLine;
      SplitOffLine(lines[0], Render(lines[1..]) + CRLF);
      Reassociate(lines[0], Render(lines[1..]));
      PutBack(lines, ["", ""]);
    }
  }

  lemma PutBack(lines: seq<string>, end: seq<string>)
    requires lines != []
    ensures [lines[0]] + (lines[1..] + end) == lines + end
  {
  }

  lemma Reassociate(line: string, rest: string)
    ensures line + CRLF + rest + CRLF == line + CRLF + (rest + CRLF)
  {
  }

  lemma SkipsBlank(lines: seq<string>, n: nat, wanted: set<string>, exclude: bool)
    requires n < |lines| && lines[n] == ""
    ensures Filter(lines, n + 1, wanted, exclude) == Filter(lines, n, wanted, exclude)
  {
    assert Filter(lines, n, wanted, exclude) + [] == Filter(lines, n, wanted, exclude);
  }

  /** Each selection is idempotent, on the bytes it sends. */
  lemma SelectingTwice(header: string, wanted: set<string>, exclude: bool)
    ensures Selected(Selected(header, wanted, exclude), wanted, exclude) == Selected(header, wanted, exclude)
  {
    var lines := Split(header);
    var kept := Filter(lines, |lines|, wanted, exclude);
    var again := kept + ["", ""];
    SplitGivesLines(header);
    FilterGivesLines(lines, |lines|, wanted, exclude);
    SplitOfRender(kept);
    SelectionIsKept(lines, |lines|, wanted, exclude);
    hide Render, Split, Kept, Filter, AllKept, SameField;
    FilterOfKept(kept, ["", ""], |kept|, wanted, exclude);
    assert kept[..|kept|] == kept;
    SkipsBlank(again, |kept|, wanted, exclude);
    SkipsBlank(again, |kept| + 1, wanted, exclude);
    assert |again| == |kept| + 2;
  }
}
