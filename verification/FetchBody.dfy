/** Reading a FETCH response. Its items share one connection, so whatever the handler does,
    and however the command ends, every octet of every literal has to be consumed. */
module FetchBody {
  import opened Wrappers

  /** A literal on the wire: the announced size, the octets that come, and how many were read. */
  class Literal {
    const size: nat
    const octets: string
    var pos: nat

    ghost predicate Unread()
      reads this
    {
      pos == 0
    }

    ghost predicate Drained()
      reads this
    {
      pos == |octets|
    }

    constructor (size: nat, octets: string)
      ensures this.size == size && this.octets == octets && Unread()
    {
      this.size, this.octets, pos := size, octets, 0;
    }

    /** Reads through a limit of the announced size. */
    method Read(wanted: nat) returns (chunk: string)
      requires Unread()
      modifies this
      ensures chunk <= octets && |chunk| <= size && |chunk| <= wanted && pos == |chunk|
      ensures wanted >= size || wanted >= |octets| ==> |chunk| == size || chunk == octets
    {
      var n := if wanted <= size then wanted else size;
      if n > |octets| {
        n := |octets|;
      }
      chunk := octets[..n];
      pos := n;
    }

    method Discard()
      modifies this
      ensures Drained()
    {
      pos := |octets|;
    }
  }

  datatype Item = UidItem(uid: Uid) | SizeItem(size: nat) | BodyItem(literal: Option<Literal>)

  datatype Error = TooLarge(size: nat) | Handling(code: nat)

  /** What the handler was shown, and what it answered. */
  datatype Call = Call(uid: Uid, size: nat, seen: string, error: Option<nat>)

  /** How the handler reacts: how far it reads, and with what error it stops. */
  datatype Verdict = Verdict(wanted: nat, error: Option<nat>)

  class Handler {
    var script: seq<Verdict>
    var calls: seq<Call>
    var errors: seq<nat>

    constructor (script: seq<Verdict>)
      ensures calls == [] && errors == []
    {
      this.script, calls, errors := script, [], [];
    }

    method Handle(uid: Uid, literal: Literal) returns (error: Option<nat>)
      requires literal.Unread()
      modifies this, literal
      ensures |calls| == |old(calls)| + 1 && old(calls) <= calls
      ensures var call := calls[|old(calls)|];
              && call.uid == uid && call.size == literal.size && call.error == error
              && call.seen <= literal.octets && |call.seen| <= literal.size
      ensures errors == old(errors) + if error.Some? then [error.value] else []
    {
      var verdict := Verdict(0, None);
      if |script| > 0 {
        verdict, script := script[0], script[1..];
      }
      var seen := literal.Read(verdict.wanted);
      error := verdict.error;
      calls := calls + [Call(uid, literal.size, seen, error)];
      if error.Some? {
        errors := errors + [error.value];
      }
    }
  }

  predicate Gated(l: Literal, maxSize: int) {
    maxSize > 0 && l.size > maxSize
  }

  /** The UID in force after these items. */
  function UidAfter(items: seq<Item>): Uid {
    if items == [] then 0
    else match items[|items| - 1]
         case UidItem(u) => u
         case _ => UidAfter(items[..|items| - 1])
  }

  function ShownBy(item: Item, uid: Uid, maxSize: int): seq<(Uid, Literal)> {
    match item
    case BodyItem(Some(l)) => if Gated(l, maxSize) then [] else [(uid, l)]
    case _ => []
  }

  /** The literals the handler gets to see, in order, each with the UID that preceded it. */
  function Shown(items: seq<Item>, maxSize: int): seq<(Uid, Literal)> {
    if items == [] then []
    else
      var rest := items[..|items| - 1];
      Shown(rest, maxSize) + ShownBy(items[|items| - 1], UidAfter(rest), maxSize)
  }

  ghost function Literals(items: seq<Item>): set<Literal> {
    set i | 0 <= i < |items| && items[i].BodyItem? && items[i].literal.Some? :: items[i].literal.value
  }

  ghost predicate AnyGated(items: seq<Item>, maxSize: int) {
    exists l :: l in Literals(items) && Gated(l, maxSize)
  }

  /** Each literal appears once. */
  ghost predicate Separate(items: seq<Item>) {
    forall i, j | 0 <= i < j < |items| && items[i].BodyItem? && items[i].literal.Some? :: items[i] != items[j]
  }

  /** The calls answer the shown literals one for one. */
  ghost predicate Answers(calls: seq<Call>, shown: seq<(Uid, Literal)>) {
    && |calls| == |shown|
    && forall k | 0 <= k < |calls| ::
         && calls[k].uid == shown[k].0 && calls[k].size == shown[k].1.size
         && calls[k].seen <= shown[k].1.octets && |calls[k].seen| <= calls[k].size
  }

  /** What item i makes of the message: a literal above the limit is too large, and a handler
      that fails gives its own error. */
  function ErrorAt(items: seq<Item>, i: nat, calls: seq<Call>, maxSize: int): Option<Error>
    requires i < |items|
  {
    match items[i]
    case BodyItem(Some(l)) =>
      var k := |Shown(items[..i], maxSize)|;
      if 0 < maxSize < l.size then Some(TooLarge(l.size))
      else if k < |calls| && calls[k].error.Some? then Some(Handling(calls[k].error.value))
      else None
    case _ => None
  }

  /** The error of the first n items is that of the last one that has any. */
  ghost predicate LastError(items: seq<Item>, n: nat, calls: seq<Call>, maxSize: int, err: Option<Error>)
    requires n <= |items|
  {
    match err
    case None => forall i: nat | i < n :: ErrorAt(items, i, calls, maxSize) == None
    case Some(_) =>
      exists i: nat :: i < n && ErrorAt(items, i, calls, maxSize) == err
                       && forall k: nat | i < k < n :: ErrorAt(items, k, calls, maxSize) == None
  }

  lemma {:induction false} ShownGrows(items: seq<Item>, k: nat, i: nat, maxSize: int)
    requires k < i <= |items|
    ensures |Shown(items[..k], maxSize)| + |ShownBy(items[k], UidAfter(items[..k]), maxSize)|
            <= |Shown(items[..i], maxSize)|
    decreases i
  {
    NextShown(items, i - 1, maxSize);
    if k < i - 1 {
      ShownGrows(items, k, i - 1, maxSize);
    }
  }

  lemma ErrorStays(items: seq<Item>, k: nat, i: nat, before: seq<Call>, after: seq<Call>, maxSize: int)
    requires k < i <= |items| && before <= after && |before| == |Shown(items[..i], maxSize)|
    ensures ErrorAt(items, k, after, maxSize) == ErrorAt(items, k, before, maxSize)
  {
    ShownGrows(items, k, i, maxSize);
    hide Shown;
  }

  lemma NextError(items: seq<Item>, i: nat, before: seq<Call>, after: seq<Call>, maxSize: int, err: Option<Error>)
    requires i < |items| && before <= after && Answers(before, Shown(items[..i], maxSize))
    requires LastError(items, i, before, maxSize, err)
    ensures var e := ErrorAt(items, i, after, maxSize);
            LastError(items, i + 1, after, maxSize, if e.Some? then e else err)
  {
    hide ErrorAt, Shown;
    forall k: nat | k < i
      ensures ErrorAt(items, k, after, maxSize) == ErrorAt(items, k, before, maxSize)
    {
      ErrorStays(items, k, i, before, after, maxSize);
    }
  }

  ghost predicate AllDrained(literals: set<Literal>)
    reads literals
  {
    forall l | l in literals :: l.Drained()
  }

  ghost predicate AllUnread(literals: set<Literal>)
    reads literals
  {
    forall l | l in literals :: l.Unread()
  }

  ghost function LiteralOf(item: Item): set<Literal> {
    if item.BodyItem? && item.literal.Some? then {item.literal.value} else {}
  }

  lemma NextItem(items: seq<Item>, i: nat)
    requires i < |items| && Separate(items)
    ensures Literals(items[..i + 1]) == Literals(items[..i]) + LiteralOf(items[i])
    ensures Literals(items[i..]) == LiteralOf(items[i]) + Literals(items[i + 1..])
    ensures LiteralOf(items[i]) !! Literals(items[..i]) && LiteralOf(items[i]) !! Literals(items[i + 1..])
    ensures LiteralOf(items[i]) <= Literals(items)
    ensures LiteralOf(items[i]) == {} ==>
              Literals(items[..i + 1]) == Literals(items[..i]) && Literals(items[i + 1..]) == Literals(items[i..])
  {
    var before, upTo, from, after := items[..i], items[..i + 1], items[i..], items[i + 1..];
    assert upTo == before + [items[i]] && from == [items[i]] + after;
    AppendItems(before, [items[i]]);
    AppendItems([items[i]], after);
    OneItem(items[i]);
    forall k | 0 <= k < i
      ensures before[k] == items[k] && LiteralOf(items[k]) !! LiteralOf(items[i])
    {
    }
    forall k | i < k < |items|
      ensures after[k - i - 1] == items[k] && LiteralOf(items[i]) !! LiteralOf(items[k])
    {
    }
  }

  lemma OneItem(item: Item)
    ensures Literals([item]) == LiteralOf(item)
  {
    assert [item][0] == item;
  }

  lemma AppendItems(a: seq<Item>, b: seq<Item>)
    ensures Literals(a + b) == Literals(a) + Literals(b)
  {
    assert forall k | 0 <= k < |a| :: (a + b)[k] == a[k];
    assert forall k | 0 <= k < |b| :: (a + b)[|a| + k] == b[k];
  }

  lemma NextShown(items: seq<Item>, i: nat, maxSize: int)
    requires i < |items|
    ensures UidAfter(items[..i + 1]) == if items[i].UidItem? then items[i].uid else UidAfter(items[..i])
    ensures Shown(items[..i + 1], maxSize)
            == Shown(items[..i], maxSize) + ShownBy(items[i], UidAfter(items[..i]), maxSize)
    ensures ShownBy(items[i], UidAfter(items[..i]), maxSize) == [] ==>
              Shown(items[..i + 1], maxSize) == Shown(items[..i], maxSize)
  {
    assert items[..i + 1][..i] == items[..i];
  }

  lemma NextGated(items: seq<Item>, i: nat, maxSize: int)
    requires i < |items| && Literals(items[..i + 1]) == Literals(items[..i]) + LiteralOf(items[i])
    ensures AnyGated(items[..i + 1], maxSize) <==>
            AnyGated(items[..i], maxSize) || (LiteralOf(items[i]) != {} && Gated(items[i].literal.value, maxSize))
  {
    hide Literals;
    if LiteralOf(items[i]) != {} && Gated(items[i].literal.value, maxSize) {
      assert items[i].literal.value in Literals(items[..i + 1]);
    }
  }

  lemma StartOfMessage(items: seq<Item>, calls: seq<Call>, maxSize: int)
    ensures Literals(items[..0]) == {} && UidAfter(items[..0]) == 0 && !AnyGated(items[..0], maxSize)
    ensures items[0..] == items && Answers(calls[|calls|..], Shown(items[..0], maxSize))
    ensures LastError(items, 0, calls[|calls|..], maxSize, None)
  {
  }

  lemma ExtendAnswers(before: seq<Call>, after: seq<Call>, n: nat, shown: seq<(Uid, Literal)>, uid: Uid, l: Literal)
    requires n <= |before| && Answers(before[n..], shown)
    ensures after == before ==> Answers(after[n..], shown)
    ensures |after| == |before| + 1 && before <= after && Answers([after[|before|]], [(uid, l)]) ==>
              Answers(after[n..], shown + [(uid, l)])
  {
    if |after| == |before| + 1 && before <= after {
      assert after[n..] == before[n..] + [after[|before|]];
    }
  }

  /** One literal: past the gate or thrown away, and consumed to its end either way. */
  method Consume(uid: Uid, l: Literal, maxSize: int, handler: Handler, ghost before: set<Literal>,
                 ghost after: set<Literal>)
    returns (error: Option<Error>)
    requires l.Unread() && l !in before && l !in after && AllDrained(before) && AllUnread(after)
    modifies handler, l
    ensures AllDrained(before + {l}) && AllUnread(after)
    ensures Gated(l, maxSize) ==>
              && error == Some(TooLarge(l.size))
              && handler.calls == old(handler.calls) && handler.errors == old(handler.errors)
    ensures !Gated(l, maxSize) ==>
              && |handler.calls| == |old(handler.calls)| + 1 && old(handler.calls) <= handler.calls
              && Answers([handler.calls[|old(handler.calls)|]], [(uid, l)])
              && old(handler.errors) <= handler.errors
              && (error == None <==> handler.errors == old(handler.errors))
              && var answer := handler.calls[|old(handler.calls)|].error;
                 error == if answer.Some? then Some(Handling(answer.value)) else None
  {
    if Gated(l, maxSize) {
      l.Discard();
      return Some(TooLarge(l.size));
    }
    var failure := handler.Handle(uid, l);
    l.Discard();
    error := if failure.Some? then Some(Handling(failure.value)) else None;
  }

  /** Consumes one message. The handler is called for exactly the literals within the limit,
      in order; every octet is consumed; the message succeeds exactly when no literal was over
      the limit and the handler never failed, and otherwise the last of these errors is its. */
  method HandleBodyMessage(items: seq<Item>, maxSize: int, handler: Handler) returns (err: Option<Error>)
    requires Separate(items) && AllUnread(Literals(items))
    modifies handler, Literals(items)
    ensures AllDrained(Literals(items))
    ensures old(handler.calls) <= handler.calls && old(handler.errors) <= handler.errors
    ensures Answers(handler.calls[|old(handler.calls)|..], Shown(items, maxSize))
    ensures err == None <==> !AnyGated(items, maxSize) && handler.errors == old(handler.errors)
    ensures LastError(items, |items|, handler.calls[|old(handler.calls)|..], maxSize, err)
  {
    hide Literals, Shown, Answers, AnyGated, Separate, UidAfter, LastError;
    var uid, size := 0, 0;
    err := None;
    StartOfMessage(items, handler.calls, maxSize);
    ghost var start := |handler.calls|;
    for i := 0 to |items|
      invariant uid == UidAfter(items[..i])
      invariant AllDrained(Literals(items[..i])) && AllUnread(Literals(items[i..]))
      invariant old(handler.calls) <= handler.calls && old(handler.errors) <= handler.errors
      invariant Answers(handler.calls[|old(handler.calls)|..], Shown(items[..i], maxSize))
      invariant err == None <==> !AnyGated(items[..i], maxSize) && handler.errors == old(handler.errors)
      invariant LastError(items, i, handler.calls[start..], maxSize, err)
    {
      NextItem(items, i);
      NextShown(items, i, maxSize);
      NextGated(items, i, maxSize);
      ghost var answered, was := handler.calls[start..], err;
      match items[i] {
        case UidItem(u) => uid := u;
        case SizeItem(n) => size := n;
        case BodyItem(None) =>
        case BodyItem(Some(l)) =>
          if size == 0 && !Gated(l, maxSize) {
            size := l.size;
          }
          assert LiteralOf(items[i]) == {l};
          ghost var calls := handler.calls;
          var error := Consume(uid, l, maxSize, handler, Literals(items[..i]), Literals(items[i + 1..]));
          ExtendAnswers(calls, handler.calls, start, Shown(items[..i], maxSize), uid, l);
          if error.Some? {
            err := error;
          }
      }
      NextError(items, i, answered, handler.calls[start..], maxSize, was);
    }
    assert items[..|items|] == items;
  }

  ghost function LiteralsOfShown(shown: seq<(Uid, Literal)>): set<Literal> {
    set k | 0 <= k < |shown| :: shown[k].1
  }

  lemma AppendShown(a: seq<(Uid, Literal)>, b: seq<(Uid, Literal)>)
    ensures LiteralsOfShown(a + b) == LiteralsOfShown(a) + LiteralsOfShown(b)
  {
    assert forall k | 0 <= k < |a| :: (a + b)[k] == a[k];
    assert forall k | 0 <= k < |b| :: (a + b)[|a| + k] == b[k];
  }

  lemma OneShown(item: Item, uid: Uid, maxSize: int)
    ensures LiteralsOfShown(ShownBy(item, uid, maxSize)) == set l | l in LiteralOf(item) && !Gated(l, maxSize)
  {
    var shown := ShownBy(item, uid, maxSize);
    assert forall l | l in LiteralOf(item) && !Gated(l, maxSize) :: shown[0].1 == l;
  }

  /** The handler sees no literal above the limit, and every one within it. */
  lemma {:induction false} ShownIffWithinLimit(items: seq<Item>, maxSize: int)
    ensures LiteralsOfShown(Shown(items, maxSize))
            == set l | l in Literals(items) && (maxSize <= 0 || l.size <= maxSize)
  {
    if items != [] {
      var n := |items| - 1;
      ShownIffWithinLimit(items[..n], maxSize);
      assert items == items[..n] + [items[n]];
      AppendItems(items[..n], [items[n]]);
      OneItem(items[n]);
      OneShown(items[n], UidAfter(items[..n]), maxSize);
      AppendShown(Shown(items[..n], maxSize), ShownBy(items[n], UidAfter(items[..n]), maxSize));
    }
  }

  // ---------------------------------------------------------------- the whole command

  ghost function LiteralsIn(messages: seq<seq<Item>>): set<Literal> {
    set i, l | 0 <= i < |messages| && l in Literals(messages[i]) :: l
  }

  function ShownIn(messages: seq<seq<Item>>, maxSize: int): seq<(Uid, Literal)> {
    if messages == [] then []
    else ShownIn(messages[..|messages| - 1], maxSize) + Shown(messages[|messages| - 1], maxSize)
  }

  /** No literal appears twice in the response. */
  ghost predicate AllSeparate(messages: seq<seq<Item>>) {
    && (forall i | 0 <= i < |messages| :: Separate(messages[i]))
    && (forall i, j | 0 <= i < j < |messages| :: Literals(messages[i]) !! Literals(messages[j]))
  }

  lemma NextMessage(messages: seq<seq<Item>>, i: nat)
    requires i < |messages| && AllSeparate(messages)
    ensures Separate(messages[i]) && Literals(messages[i]) <= LiteralsIn(messages)
    ensures LiteralsIn(messages[..i + 1]) == LiteralsIn(messages[..i]) + Literals(messages[i])
    ensures LiteralsIn(messages[i..]) == Literals(messages[i]) + LiteralsIn(messages[i + 1..])
    ensures Literals(messages[i]) !! LiteralsIn(messages[..i]) && Literals(messages[i]) !! LiteralsIn(messages[i + 1..])
  {
    var before, upTo, from, after := messages[..i], messages[..i + 1], messages[i..], messages[i + 1..];
    assert forall k | 0 <= k < i :: before[k] == messages[k] && upTo[k] == messages[k];
    assert forall k | 0 <= k < |after| :: after[k] == messages[i + 1 + k] && from[k + 1] == messages[i + 1 + k];
    assert upTo[i] == messages[i] && from[0] == messages[i];
    hide Literals;
    forall l | l in LiteralsIn(from)
      ensures l in Literals(messages[i]) + LiteralsIn(after)
    {
      var k :| 0 <= k < |from| && l in Literals(from[k]);
      if k > 0 {
        assert after[k - 1] == from[k];
      }
    }
  }

  /** Throws away what is left of one message. */
  method DiscardMessage(items: seq<Item>, ghost before: set<Literal>)
    requires AllDrained(before)
    modifies Literals(items)
    ensures AllDrained(before + Literals(items))
  {
    ghost var all := Literals(items);
    for i := 0 to |items|
      invariant AllDrained(before) && forall k | 0 <= k < i :: AllDrained(LiteralOf(items[k]))
    {
      if items[i].BodyItem? && items[i].literal.Some? {
        assert items[i].literal.value in all;
        items[i].literal.value.Discard();
      }
    }
    forall l | l in all
      ensures l.Drained()
    {
      var k :| 0 <= k < |items| && l in LiteralOf(items[k]);
    }
  }

  /** Reads and drops the rest of a response. */
  method Close(messages: seq<seq<Item>>, ghost before: set<Literal>)
    requires AllDrained(before)
    modifies LiteralsIn(messages)
    ensures AllDrained(before + LiteralsIn(messages))
  {
    ghost var all := LiteralsIn(messages);
    ghost var done := before;
    for i := 0 to |messages|
      invariant AllDrained(done) && before <= done && forall k | 0 <= k < i :: Literals(messages[k]) <= done
    {
      assert Literals(messages[i]) <= all;
      DiscardMessage(messages[i], done);
      done := done + Literals(messages[i]);
    }
    assert all <= done;
  }

  lemma NextShownIn(messages: seq<seq<Item>>, i: nat, maxSize: int)
    requires i < |messages|
    ensures ShownIn(messages[..i + 1], maxSize) == ShownIn(messages[..i], maxSize) + Shown(messages[i], maxSize)
  {
    assert messages[..i + 1][..i] == messages[..i];
  }

  lemma JoinAnswers(before: seq<Call>, after: seq<Call>, n: nat, shown: seq<(Uid, Literal)>, more: seq<(Uid, Literal)>)
    requires n <= |before| && before <= after && Answers(before[n..], shown) && Answers(after[|before|..], more)
    ensures Answers(after[n..], shown + more)
  {
    assert after[n..] == before[n..] + after[|before|..];
  }

  /** Message m ends with this error: its calls are those that follow the calls for the messages
      before it. */
  ghost predicate EndsWith(messages: seq<seq<Item>>, m: nat, calls: seq<Call>, maxSize: int, err: Option<Error>)
    requires m < |messages|
  {
    var from, to := |ShownIn(messages[..m], maxSize)|, |ShownIn(messages[..m + 1], maxSize)|;
    from <= to <= |calls| && LastError(messages[m], |messages[m]|, calls[from..to], maxSize, err)
  }

  ghost predicate NoneFailed(messages: seq<seq<Item>>, n: nat, calls: seq<Call>, maxSize: int)
    requires n <= |messages|
  {
    forall m: nat | m < n :: EndsWith(messages, m, calls, maxSize, None)
  }

  lemma NextEnds(messages: seq<seq<Item>>, i: nat, before: seq<Call>, after: seq<Call>, maxSize: int,
                 err: Option<Error>)
    requires i < |messages| && before <= after && NoneFailed(messages, i, before, maxSize)
    requires Answers(before, ShownIn(messages[..i], maxSize))
    requires Answers(after, ShownIn(messages[..i + 1], maxSize))
    requires LastError(messages[i], |messages[i]|, after[|before|..], maxSize, err)
    ensures NoneFailed(messages, i, after, maxSize) && EndsWith(messages, i, after, maxSize, err)
    ensures err == None ==> NoneFailed(messages, i + 1, after, maxSize)
  {
    hide ShownIn, LastError;
    assert after[|before|..|after|] == after[|before|..];
    forall m: nat | m < i
      ensures EndsWith(messages, m, after, maxSize, None)
    {
      assert EndsWith(messages, m, before, maxSize, None);
      var from, to := |ShownIn(messages[..m], maxSize)|, |ShownIn(messages[..m + 1], maxSize)|;
      assert after[from..to] == before[from..to];
    }
  }

  /** One message, with the rest of the response left as it was. */
  method HandleNext(items: seq<Item>, maxSize: int, handler: Handler, ghost before: set<Literal>,
                    ghost after: set<Literal>)
    returns (err: Option<Error>)
    requires Separate(items) && AllUnread(Literals(items)) && AllDrained(before) && AllUnread(after)
    requires Literals(items) !! before && Literals(items) !! after
    modifies handler, Literals(items)
    ensures AllDrained(before + Literals(items)) && AllUnread(after)
    ensures old(handler.calls) <= handler.calls && old(handler.errors) <= handler.errors
    ensures Answers(handler.calls[|old(handler.calls)|..], Shown(items, maxSize))
    ensures err == None <==> !AnyGated(items, maxSize) && handler.errors == old(handler.errors)
    ensures LastError(items, |items|, handler.calls[|old(handler.calls)|..], maxSize, err)
  {
    hide Literals, Shown, Answers, AnyGated, Separate, LastError;
    err := HandleBodyMessage(items, maxSize, handler);
  }

  lemma StartOfResponse(messages: seq<seq<Item>>, calls: seq<Call>, maxSize: int)
    ensures LiteralsIn(messages[..0]) == {} && messages[0..] == messages
    ensures Answers(calls[|calls|..], ShownIn(messages[..0], maxSize))
  {
  }

  /** Runs the command. Whatever was read, and whichever way it ended, not one octet of the
      response is left on the connection. The messages up to the first failing one were all
      handled; and the command succeeds exactly when no literal was over the limit, the
      handler never failed and the server did not either. Otherwise the error is that of the
      message it stopped at, or the server's if no message failed. */
  method FetchBodies(messages: seq<seq<Item>>, maxSize: int, handler: Handler, failure: Option<Error>)
    returns (err: Option<Error>, ghost read: nat)
    requires AllSeparate(messages) && AllUnread(LiteralsIn(messages))
    modifies handler, LiteralsIn(messages)
    ensures AllDrained(LiteralsIn(messages)) && read <= |messages|
    ensures old(handler.calls) <= handler.calls
    ensures Answers(handler.calls[|old(handler.calls)|..], ShownIn(messages[..read], maxSize))
    ensures read < |messages| ==> err.Some?
    ensures var calls := handler.calls[|old(handler.calls)|..];
            || (read == |messages| && NoneFailed(messages, read, calls, maxSize) && err == failure)
            || (read > 0 && NoneFailed(messages, read - 1, calls, maxSize) && err.Some?
                && EndsWith(messages, read - 1, calls, maxSize, err))
    ensures err == None <==> && failure == None && handler.errors == old(handler.errors)
                             && forall i | 0 <= i < |messages| :: !AnyGated(messages[i], maxSize)
  {
    hide Literals, Shown, Answers, AnyGated, Separate, AllSeparate, LiteralsIn, ShownIn, AllDrained, AllUnread,
         LastError, EndsWith;
    err, read := None, 0;
    ghost var start := |handler.calls|;
    StartOfResponse(messages, handler.calls, maxSize);
    NothingDrained();
    for i := 0 to |messages|
      invariant read == i && AllDrained(LiteralsIn(messages[..i])) && AllUnread(LiteralsIn(messages[i..]))
      invariant old(handler.calls) <= handler.calls && handler.errors == old(handler.errors)
      invariant Answers(handler.calls[|old(handler.calls)|..], ShownIn(messages[..i], maxSize))
      invariant forall k | 0 <= k < i :: !AnyGated(messages[k], maxSize)
      invariant NoneFailed(messages, i, handler.calls[start..], maxSize)
    {
      NextMessage(messages, i);
      NextShownIn(messages, i, maxSize);
      UnreadPart(Literals(messages[i]), LiteralsIn(messages[i + 1..]));
      ghost var calls := handler.calls;
      err := HandleNext(messages[i], maxSize, handler, LiteralsIn(messages[..i]), LiteralsIn(messages[i + 1..]));
      JoinAnswers(calls, handler.calls, start, ShownIn(messages[..i], maxSize), Shown(messages[i], maxSize));
      assert handler.calls[start..][|calls[start..]|..] == handler.calls[|calls|..];
      NextEnds(messages, i, calls[start..], handler.calls[start..], maxSize, err);
      read := i + 1;
      if err.Some? {
        SplitResponse(messages, i + 1);
        Close(messages[i + 1..], LiteralsIn(messages[..i + 1]));
        return;
      }
    }
    assert messages[..|messages|] == messages;
    err := failure;
  }

  lemma NothingDrained()
    ensures AllDrained({})
  {
  }

  lemma UnreadPart(a: set<Literal>, b: set<Literal>)
    requires AllUnread(a + b)
    ensures AllUnread(a) && AllUnread(b)
  {
  }

  lemma SplitResponse(messages: seq<seq<Item>>, i: nat)
    requires i <= |messages|
    ensures LiteralsIn(messages[..i]) + LiteralsIn(messages[i..]) == LiteralsIn(messages)
    ensures LiteralsIn(messages[i..]) <= LiteralsIn(messages)
  {
    hide Literals;
    assert forall k | 0 <= k < i :: messages[..i][k] == messages[k];
    assert forall k | 0 <= k < |messages| - i :: messages[i..][k] == messages[i + k];
    assert forall k | i <= k < |messages| :: messages[i..][k - i] == messages[k];
  }
}
