/** Numbering the parts of a message (section 6.4.5 of RFC 3501): every part is recorded under
    the address by which a client would ask for it, and no two share one. */
module MimeParts {
  import opened Wrappers
  import opened Text

  const MAX_DEPTH: nat := 20
  const MAX_CONTENT: nat := 4 * 0x10_0000

  /** A MIME entity as far as it can be read: the children of a multipart up to the first one
      that cannot, and whether the body of anything else could be read at all. */
  datatype Entity = Multipart(children: seq<Entity>) | Leaf(content: string, readable: bool)

  type Address = seq<nat>

  datatype Found = Found(address: Address, content: string)

  datatype Part = Part(path: string, content: string)

  // ---------------------------------------------------------------- the walk

  /** The address of the i-th child; a top-level multipart numbers its children 1, 2, … */
  function ChildAddress(address: Address, depth: nat, i: nat): Address {
    (if depth == 0 then [] else address) + [i + 1]
  }

  function Leaves(e: Entity, address: Address, depth: nat): seq<Found>
    decreases e, 1, 0
  {
    if depth > MAX_DEPTH then []
    else match e
         case Leaf(content, readable) => if readable then [Found(address, content)] else []
         case Multipart(children) => LeavesOf(e, |children|, address, depth)
  }

  /** What the first n children contribute. */
  function LeavesOf(e: Entity, n: nat, address: Address, depth: nat): seq<Found>
    requires e.Multipart? && n <= |e.children|
    decreases e, 0, n
  {
    if n == 0 then []
    else LeavesOf(e, n - 1, address, depth)
         + Leaves(e.children[n - 1], ChildAddress(address, depth, n - 1), depth + 1)
  }

  function Render(address: Address): string {
    if address == [] then ""
    else if |address| == 1 then Decimal(address[0])
    else Render(address[..|address| - 1]) + "." + Decimal(address[|address| - 1])
  }

  function Cut(content: string): string {
    if |content| <= MAX_CONTENT then content else content[..MAX_CONTENT]
  }

  function AsParts(found: seq<Found>): (parts: seq<Part>)
    ensures |parts| == |found|
  {
    seq(|found|, i requires 0 <= i < |found| => Part(Render(found[i].address), Cut(found[i].content)))
  }

  lemma AsPartsConcat(a: seq<Found>, b: seq<Found>)
    ensures AsParts(a + b) == AsParts(a) + AsParts(b)
  {
  }

  class PartList {
    var parts: seq<Part>

    constructor ()
      ensures parts == []
    {
      parts := [];
    }
  }

  /** Appends the parts found under one entity, in document order. */
  method Walk(e: Entity, path: string, out: PartList, depth: nat, ghost address: Address)
    requires address != [] && path == Render(address)
    modifies out
    ensures out.parts == old(out.parts) + AsParts(Leaves(e, address, depth))
    decreases e
  {
    if depth > MAX_DEPTH {
      return;
    }
    match e
    case Multipart(children) => WalkChildren(e, path, out, depth, address);
    case Leaf(content, readable) =>
      if readable {
        out.parts := out.parts + [Part(path, Cut(content))];
      }
  }

  method WalkChildren(e: Entity, path: string, out: PartList, depth: nat, ghost address: Address)
    requires e.Multipart? && address != [] && path == Render(address)
    modifies out
    ensures out.parts == old(out.parts) + AsParts(LeavesOf(e, |e.children|, address, depth))
    decreases e, 0
  {
    hide AsParts, Leaves;
    assert AsParts([]) == [];
    var index := 1;
    while index <= |e.children|
      invariant 1 <= index <= |e.children| + 1
      invariant out.parts == old(out.parts) + AsParts(LeavesOf(e, index - 1, address, depth))
    {
      var childPath := path + "." + Decimal(index);
      if depth == 0 {
        childPath := Decimal(index);
      }
      ghost var child := ChildAddress(address, depth, index - 1);
      assert childPath == Render(child);
      AsPartsConcat(LeavesOf(e, index - 1, address, depth), Leaves(e.children[index - 1], child, depth + 1));
      Walk(e.children[index - 1], childPath, out, depth + 1, child);
      index := index + 1;
    }
  }

  /** A whole message, from the root on: each part under the path that reads as its address, with
      at most the first 4 MiB of its content. */
  method Parts(root: Entity) returns (out: PartList)
    ensures fresh(out) && out.parts == AsParts(Leaves(root, [1], 0))
    ensures forall i | 0 <= i < |out.parts| :: IsPartOf(out.parts[i], Leaves(root, [1], 0)[i])
  {
    out := new PartList();
    PartsAreRead(root);
    Walk(root, "1", out, 0, [1]);
  }

  // ---------------------------------------------------------------- the addressing of RFC 3501

  /** The entity at a relative address, children counted from 1. */
  function Within(e: Entity, address: Address): Option<Entity>
    decreases |address|
  {
    if address == [] then Some(e)
    else if e.Multipart? && 1 <= address[0] <= |e.children| then Within(e.children[address[0] - 1], address[1..])
    else None
  }

  /** Part 1 of a message that is not a multipart is the message itself. */
  function Lookup(root: Entity, address: Address): Option<Entity> {
    if address == [] then None
    else if root.Leaf? then if address == [1] then Some(root) else None
    else Within(root, address)
  }

  /** How deep a part lies: a message that is not a multipart is its own part, at no depth. */
  function DepthOf(root: Entity, address: Address): nat {
    if root.Leaf? then 0 else |address|
  }

  lemma MemberOfConcat(a: seq<Found>, b: seq<Found>, x: Found)
    ensures x in a + b <==> x in a || x in b
  {
  }

  /** Below some entity: recorded under this address exactly when the rest of the address leads
      from here to a readable leaf that is not too deep. */
  lemma {:induction false} LeavesIff(e: Entity, address: Address, depth: nat, rest: Address, content: string)
    requires depth > 0
    ensures Found(address + rest, content) in Leaves(e, address, depth) <==>
            Within(e, rest) == Some(Leaf(content, true)) && depth + |rest| <= MAX_DEPTH
    decreases e, 1, 0
  {
    if depth <= MAX_DEPTH {
      match e
      case Leaf(_, _) =>
        assert address + rest == address <==> rest == [];
      case Multipart(children) =>
        LeavesOfIff(e, |children|, address, depth, rest, content);
    }
  }

  lemma OtherBranch(child: Entity, at: Address, depth: nat, address: Address, rest: Address, x: Found)
    requires depth > 0 && at != [] && at[..|at| - 1] == address && x.address == address + rest
    requires rest != [] ==> rest[0] != at[|address|]
    ensures x !in Leaves(child, at, depth)
  {
    assert rest != [] ==> x.address[|address|] == rest[0];
    if x in Leaves(child, at, depth) {
      StaysBelow(child, at, depth, x);
      assert false;
    }
  }

  lemma {:induction false} LeavesOfIff(e: Entity, n: nat, address: Address, depth: nat, rest: Address, content: string)
    requires e.Multipart? && n <= |e.children|
    requires depth > 0 || address == []
    ensures Found(address + rest, content) in LeavesOf(e, n, address, depth) <==>
            && rest != [] && 1 <= rest[0] <= n && depth + |rest| <= MAX_DEPTH
            && Within(e.children[rest[0] - 1], rest[1..]) == Some(Leaf(content, true))
    decreases e, 0, n
  {
    if n > 0 {
      var child, at := e.children[n - 1], ChildAddress(address, depth, n - 1);
      var x := Found(address + rest, content);
      LeavesOfIff(e, n - 1, address, depth, rest, content);
      MemberOfConcat(LeavesOf(e, n - 1, address, depth), Leaves(child, at, depth + 1), x);
      if rest != [] && rest[0] == n {
        assert address + rest == at + rest[1..];
        LeavesIff(child, at, depth + 1, rest[1..], content);
      } else {
        OtherBranch(child, at, depth + 1, address, rest, x);
      }
    }
  }

  /** Everything recorded below an entity lies under its address. */
  lemma {:induction false} StaysBelow(e: Entity, address: Address, depth: nat, x: Found)
    requires depth > 0 && x in Leaves(e, address, depth)
    ensures address <= x.address
    decreases e, 1, 0
  {
    if e.Multipart? {
      StaysBelowChildren(e, |e.children|, address, depth, x);
    }
  }

  lemma {:induction false} StaysBelowChildren(e: Entity, n: nat, address: Address, depth: nat, x: Found)
    requires e.Multipart? && n <= |e.children| && (depth > 0 || address == []) && x in LeavesOf(e, n, address, depth)
    ensures address < x.address && 1 <= x.address[|address|] <= n
    decreases e, 0, n
  {
    var child, at := e.children[n - 1], ChildAddress(address, depth, n - 1);
    MemberOfConcat(LeavesOf(e, n - 1, address, depth), Leaves(child, at, depth + 1), x);
    if x in LeavesOf(e, n - 1, address, depth) {
      StaysBelowChildren(e, n - 1, address, depth, x);
    } else {
      StaysBelow(child, at, depth + 1, x);
    }
  }

  /** A part is recorded under an address exactly when the address leads to a readable leaf no
      deeper than the limit: nothing is missed, misfiled or recorded twice under two names. */
  lemma RecordedIffAddressed(root: Entity, address: Address, content: string)
    ensures Found(address, content) in Leaves(root, [1], 0) <==>
            Lookup(root, address) == Some(Leaf(content, true)) && DepthOf(root, address) <= 20
  {
    if root.Multipart? {
      AtTopLevel(root, |root.children|);
      LeavesOfIff(root, |root.children|, [], 0, address, content);
      assert [] + address == address;
    }
  }

  /** At the top level the address of the root itself plays no part. */
  lemma {:induction false} AtTopLevel(e: Entity, n: nat)
    requires e.Multipart? && n <= |e.children|
    ensures LeavesOf(e, n, [1], 0) == LeavesOf(e, n, [], 0)
  {
    if n > 0 {
      AtTopLevel(e, n - 1);
    }
  }

  // ---------------------------------------------------------------- document order

  /** a comes before b: they part ways at some level, and a takes the earlier branch. */
  ghost predicate Precedes(a: Address, b: Address) {
    exists k :: 0 <= k < |a| && k < |b| && a[..k] == b[..k] && a[k] < b[k]
  }

  ghost predicate InOrder(found: seq<Found>) {
    forall i, j | 0 <= i < j < |found| :: Precedes(found[i].address, found[j].address)
  }

  lemma ConcatInOrder(a: seq<Found>, b: seq<Found>)
    requires InOrder(a) && InOrder(b) && forall x, y | x in a && y in b :: Precedes(x.address, y.address)
    ensures InOrder(a + b)
  {
    forall i, j | 0 <= i < j < |a + b|
      ensures Precedes((a + b)[i].address, (a + b)[j].address)
    {
      if i < |a| <= j {
        assert (a + b)[i] in a && (a + b)[j] in b;
      }
    }
  }

  lemma {:induction false} LeavesInOrder(e: Entity, address: Address, depth: nat)
    requires depth > 0
    ensures InOrder(Leaves(e, address, depth))
    decreases e, 1, 0
  {
    if depth <= MAX_DEPTH && e.Multipart? {
      LeavesOfInOrder(e, |e.children|, address, depth);
    }
  }

  lemma {:induction false} LeavesOfInOrder(e: Entity, n: nat, address: Address, depth: nat)
    requires e.Multipart? && n <= |e.children| && (depth > 0 || address == [])
    ensures InOrder(LeavesOf(e, n, address, depth))
    decreases e, 0, n
  {
    if n > 0 {
      var child, at := e.children[n - 1], ChildAddress(address, depth, n - 1);
      var before, last := LeavesOf(e, n - 1, address, depth), Leaves(child, at, depth + 1);
      LeavesOfInOrder(e, n - 1, address, depth);
      LeavesInOrder(child, at, depth + 1);
      forall x, y | x in before && y in last
        ensures Precedes(x.address, y.address)
      {
        StaysBelowChildren(e, n - 1, address, depth, x);
        StaysBelow(child, at, depth + 1, y);
        BranchesApart(x.address, y.address, address, n);
      }
      ConcatInOrder(before, last);
    }
  }

  lemma BranchesApart(a: Address, b: Address, common: Address, n: nat)
    requires common < a && a[|common|] < n && common + [n] <= b
    ensures Precedes(a, b)
  {
    var k := |common|;
    assert a[..k] == common && b[..k] == common && b[k] == n;
  }

  /** The parts of a message are recorded in document order, so under different addresses. */
  lemma PartsInOrder(root: Entity)
    ensures InOrder(Leaves(root, [1], 0))
  {
    if root.Multipart? {
      AtTopLevel(root, |root.children|);
      LeavesOfInOrder(root, |root.children|, [], 0);
    }
  }

  // ---------------------------------------------------------------- different addresses, different strings

  lemma NoDot(n: nat)
    ensures '.' !in Decimal(n)
  {
  }

  lemma NotLonger(a: string, x: string, b: string, y: string)
    requires '.' !in x
    ensures a + "." + x == b + "." + y ==> |b| <= |a|
  {
    var s, t := a + "." + x, b + "." + y;
    if |a| < |b| < |s| {
      assert s[|b|] == x[|b| - |a| - 1];
      assert s[|b|] in x && t[|b|] == '.';
    }
  }

  lemma LastDot(a: string, x: string, b: string, y: string)
    requires a + "." + x == b + "." + y && '.' !in x && '.' !in y
    ensures a == b && x == y
  {
    NotLonger(a, x, b, y);
    NotLonger(b, y, a, x);
    var s := a + "." + x;
    assert s[..|a|] == a && s[..|b|] == b && s[|a| + 1..] == x && s[|b| + 1..] == y;
  }

  lemma DotIff(a: Address)
    requires a != []
    ensures '.' in Render(a) <==> |a| > 1
  {
    NoDot(a[0]);
    if |a| > 1 {
      assert Render(a)[|Render(a[..|a| - 1])|] == '.';
    }
  }

  lemma {:induction false} RenderInjective(a: Address, b: Address)
    requires a != [] && b != [] && Render(a) == Render(b)
    ensures a == b
  {
    var m, n := |a| - 1, |b| - 1;
    DotIff(a);
    DotIff(b);
    DecimalValue(a[m]);
    DecimalValue(b[n]);
    if m > 0 {
      NoDot(a[m]);
      NoDot(b[n]);
      LastDot(Render(a[..m]), Decimal(a[m]), Render(b[..n]), Decimal(b[n]));
      RenderInjective(a[..m], b[..n]);
      assert a == a[..m] + [a[m]] && b == b[..n] + [b[n]];
    }
  }

  /** Where the last dot stands. */
  function DotAt(s: string): (i: Option<nat>)
    ensures i.Some? ==> i.value < |s| && s[i.value] == '.' && '.' !in s[i.value + 1..]
    ensures i.None? ==> '.' !in s
  {
    if s == "" then None
    else if s[|s| - 1] == '.' then Some(|s| - 1)
    else
      var i := DotAt(s[..|s| - 1]);
      assert i.Some? ==> s[i.value + 1..] == s[..|s| - 1][i.value + 1..] + [s[|s| - 1]];
      i
  }

  /** The address that a path spells: numerals, with dots between them. */
  function ReadPath(s: string): Option<Address>
    decreases |s|
  {
    match DotAt(s)
    case None => if s != "" && AllDigits(s) then Some([Value(s)]) else None
    case Some(i) =>
      var before, last := ReadPath(s[..i]), s[i + 1..];
      if before.Some? && last != "" && AllDigits(last) then Some(before.value + [Value(last)]) else None
  }

  lemma DotBetween(a: string, x: string)
    requires '.' !in x
    ensures DotAt(a + "." + x) == Some(|a|)
  {
    var s := a + "." + x;
    var i := DotAt(s);
    assert s[|a|] == '.';
  }

  /** Every rendered address reads back as itself. */
  lemma {:induction false} RenderReadsBack(a: Address)
    requires a != []
    ensures ReadPath(Render(a)) == Some(a)
  {
    var n := |a| - 1;
    NoDot(a[n]);
    DecimalValue(a[n]);
    if n > 0 {
      RenderReadsBack(a[..n]);
      var before, last := Render(a[..n]), Decimal(a[n]);
      DotBetween(before, last);
      assert (before + "." + last)[..|before|] == before && (before + "." + last)[|before| + 1..] == last;
      assert a == a[..n] + [a[n]];
    } else {
      assert a == [a[0]];
    }
  }

  /** The part is under the path that reads as its address, and cut off after 4 MiB. */
  ghost predicate IsPartOf(part: Part, found: Found) {
    && ReadPath(part.path) == Some(found.address)
    && part.content == found.content[..if |found.content| < 4_194_304 then |found.content| else 4_194_304]
  }

  lemma PartsAreRead(root: Entity)
    ensures var found := Leaves(root, [1], 0);
            forall i | 0 <= i < |found| :: IsPartOf(AsParts(found)[i], found[i])
  {
    var found := Leaves(root, [1], 0);
    forall i | 0 <= i < |found|
      ensures IsPartOf(AsParts(found)[i], found[i])
    {
      FoundHaveAddresses(root, found[i]);
      RenderReadsBack(found[i].address);
    }
  }

  lemma FoundHaveAddresses(root: Entity, x: Found)
    requires x in Leaves(root, [1], 0)
    ensures x.address != []
  {
    RecordedIffAddressed(root, x.address, x.content);
  }

  /** No two parts of a message are stored under the same path. */
  lemma PathsAreDistinct(root: Entity, i: nat, j: nat)
    requires i < j < |Leaves(root, [1], 0)|
    ensures AsParts(Leaves(root, [1], 0))[i].path != AsParts(Leaves(root, [1], 0))[j].path
  {
    var found := Leaves(root, [1], 0);
    PartsInOrder(root);
    FoundHaveAddresses(root, found[i]);
    FoundHaveAddresses(root, found[j]);
    if Render(found[i].address) == Render(found[j].address) {
      RenderInjective(found[i].address, found[j].address);
      assert false;
    }
  }
}
