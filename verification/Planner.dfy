/** The batch planner of the body pass and the chunk planner of the metadata pass.

    A plan is judged against an independent notion of legality: how few FETCH
    commands could any order-preserving, legal grouping of the same messages use? */
module Planner {
  import opened Powers
  import opened Wrappers

  datatype SizedUid = SizedUid(uid: Uid, size: nat)

  /** Go's BatchBudget; a limit that is not positive is no limit, except that a
      message cap below one is read as one. */
  datatype BatchBudget = BatchBudget(maxBytes: int, maxMessages: int, soloAbove: int) {

    function Cap(): nat {
      if maxMessages < 1 then 1 else maxMessages
    }

    predicate Outsized(msg: SizedUid) {
      soloAbove > 0 && msg.size > soloAbove
    }

    /** May this group go out as one command? A lone message always may. */
    predicate Legal(batch: seq<SizedUid>) {
      && batch != []
      && (|batch| > 1 ==>
            && |batch| <= Cap()
            && (maxBytes > 0 ==> Bytes(batch) <= maxBytes)
            && forall i | 0 <= i < |batch| :: !Outsized(batch[i]))
    }

    predicate AllLegal(batches: seq<seq<SizedUid>>) {
      forall i | 0 <= i < |batches| :: Legal(batches[i])
    }

    /** Batch a could not also have taken the message that opens batch b. */
    predicate CannotGrow(a: seq<SizedUid>, b: seq<SizedUid>) {
      b != [] && !Legal(a + [b[0]])
    }

    /** No batch could have taken the message that opens the next one. */
    ghost predicate Maximal(batches: seq<seq<SizedUid>>) {
      forall i, j | 0 <= i && j == i + 1 && j < |batches| :: CannotGrow(batches[i], batches[j])
    }

    /** An order-preserving legal grouping of exactly these messages. */
    predicate Partition(msgs: seq<SizedUid>, batches: seq<seq<SizedUid>>) {
      Concat(batches) == msgs && AllLegal(batches)
    }
  }

  function Bytes(batch: seq<SizedUid>): nat {
    if batch == [] then 0 else Bytes(batch[..|batch| - 1]) + batch[|batch| - 1].size
  }

  function Concat<T>(batches: seq<seq<T>>): seq<T> {
    if batches == [] then [] else batches[0] + Concat(batches[1..])
  }

  function OutsizedCount(msgs: seq<SizedUid>, budget: BatchBudget): nat {
    if msgs == [] then 0
    else (if budget.Outsized(msgs[0]) then 1 else 0) + OutsizedCount(msgs[1..], budget)
  }

  /** What a group has to be: one message, or few enough that are together small enough, none of
      which has to go alone. A limit below one is none, but for the count, which is then one. */
  lemma LegalIs(budget: BatchBudget, batch: seq<SizedUid>)
    ensures budget.Legal(batch) <==>
            || |batch| == 1
            || (|batch| > 1 && |batch| <= budget.maxMessages
                && (Bytes(batch) <= budget.maxBytes || budget.maxBytes <= 0)
                && forall m | m in batch :: m.size <= budget.soloAbove || budget.soloAbove <= 0)
  {
    assert forall i | 0 <= i < |batch| :: batch[i] in batch;
  }

  // ---------------------------------------------------------------- sequences

  lemma {:induction false} BytesConcat(a: seq<SizedUid>, b: seq<SizedUid>)
    ensures Bytes(a + b) == Bytes(a) + Bytes(b)
  {
    if b == [] {
      assert a + b == a;
    } else {
      var n := |b| - 1;
      BytesConcat(a, b[..n]);
      assert (a + b)[..|a + b| - 1] == a + b[..n];
    }
  }

  lemma {:induction false} ConcatAppend<T>(batches: seq<seq<T>>, last: seq<T>)
    ensures Concat(batches + [last]) == Concat(batches) + last
  {
    if batches == [] {
      assert batches + [last] == [last];
      assert [last][1..] == [];
    } else {
      ConcatAppend(batches[1..], last);
      assert (batches + [last])[1..] == batches[1..] + [last];
    }
  }

  lemma {:induction false} OutsizedConcat(a: seq<SizedUid>, b: seq<SizedUid>, budget: BatchBudget)
    ensures OutsizedCount(a + b, budget) == OutsizedCount(a, budget) + OutsizedCount(b, budget)
  {
    if a == [] {
      assert a + b == b;
    } else {
      OutsizedConcat(a[1..], b, budget);
      assert (a + b)[1..] == a[1..] + b;
    }
  }

  /** A contiguous piece of a legal batch is legal, because sizes are not negative. */
  lemma PieceIsLegal(budget: BatchBudget, a: seq<SizedUid>, piece: seq<SizedUid>, b: seq<SizedUid>)
    requires budget.Legal(a + piece + b) && piece != []
    ensures budget.Legal(piece)
  {
    var whole := a + piece + b;
    BytesConcat(a + piece, b);
    BytesConcat(a, piece);
    forall i | 0 <= i < |piece| && |piece| > 1
      ensures !budget.Outsized(piece[i])
    {
      assert whole[|a| + i] == piece[i];
    }
  }

  // ---------------------------------------------------------------- the planner

  /** The last batch could not have taken msg. */
  predicate Follows(budget: BatchBudget, batches: seq<seq<SizedUid>>, msg: SizedUid) {
    batches == [] || !budget.Legal(batches[|batches| - 1] + [msg])
  }

  /** The group being filled: legal so far, no outsized message, and not a
      continuation the previous batch could have absorbed. */
  predicate OpenBatch(budget: BatchBudget, batches: seq<seq<SizedUid>>, current: seq<SizedUid>) {
    && budget.Legal(current)
    && Follows(budget, batches, current[0])
    && forall k | 0 <= k < |current| :: !budget.Outsized(current[k])
  }

  /** The last batch, if any, is a lone outsized message. */
  predicate EndsAlone(budget: BatchBudget, batches: seq<seq<SizedUid>>) {
    batches != [] ==>
      var last := batches[|batches| - 1];
      |last| == 1 && budget.Outsized(last[0])
  }

  /** The loop's state after the messages of prefix. */
  ghost predicate Progress(budget: BatchBudget, prefix: seq<SizedUid>, batches: seq<seq<SizedUid>>,
                           current: seq<SizedUid>, bytes: int) {
    && bytes == Bytes(current)
    && Concat(batches) + current == prefix
    && budget.AllLegal(batches) && budget.Maximal(batches)
    && (current != [] ==> OpenBatch(budget, batches, current))
  }

  lemma AppendBatch(budget: BatchBudget, batches: seq<seq<SizedUid>>, batch: seq<SizedUid>)
    requires budget.AllLegal(batches) && budget.Maximal(batches)
    requires budget.Legal(batch) && Follows(budget, batches, batch[0])
    ensures budget.AllLegal(batches + [batch]) && budget.Maximal(batches + [batch])
    ensures Concat(batches + [batch]) == Concat(batches) + batch
  {
    ConcatAppend(batches, batch);
  }

  lemma AloneCannotGrow(budget: BatchBudget, batches: seq<seq<SizedUid>>, msg: SizedUid)
    requires EndsAlone(budget, batches)
    ensures Follows(budget, batches, msg)
  {
    if batches != [] {
      var last := batches[|batches| - 1];
      assert (last + [msg])[0] == last[0];
    }
  }

  lemma TakesNoMore(budget: BatchBudget, prefix: seq<SizedUid>, batches: seq<seq<SizedUid>>,
                    current: seq<SizedUid>, bytes: int, msg: SizedUid)
    requires Progress(budget, prefix, batches, current, bytes) && current != []
    requires || budget.Outsized(msg)
             || (budget.maxBytes > 0 && bytes + msg.size > budget.maxBytes)
             || |current| >= budget.Cap()
    ensures Progress(budget, prefix, batches + [current], [], 0)
    ensures Follows(budget, batches + [current], msg)
  {
    AppendBatch(budget, batches, current);
    BytesConcat(current, [msg]);
    assert (current + [msg])[|current|] == msg;
  }

  lemma GoesAlone(budget: BatchBudget, prefix: seq<SizedUid>, batches: seq<seq<SizedUid>>, msg: SizedUid)
    requires Progress(budget, prefix, batches, [], 0) && Follows(budget, batches, msg) && budget.Outsized(msg)
    ensures Progress(budget, prefix + [msg], batches + [[msg]], [], 0) && EndsAlone(budget, batches + [[msg]])
  {
    AppendBatch(budget, batches, [msg]);
  }

  lemma Joins(budget: BatchBudget, prefix: seq<SizedUid>, batches: seq<seq<SizedUid>>,
              current: seq<SizedUid>, bytes: int, msg: SizedUid)
    requires Progress(budget, prefix, batches, current, bytes) && !budget.Outsized(msg)
    requires current == [] ==> Follows(budget, batches, msg)
    requires current != [] ==> |current| < budget.Cap() && (budget.maxBytes > 0 ==> bytes + msg.size <= budget.maxBytes)
    ensures Progress(budget, prefix + [msg], batches, current + [msg], bytes + msg.size)
  {
    BytesConcat(current, [msg]);
    assert Bytes([msg]) == msg.size by { assert [msg][..0] == []; }
    var grown := current + [msg];
    assert forall k | 0 <= k < |grown| :: !budget.Outsized(grown[k]);
    assert Concat(batches) + grown == prefix + [msg];
  }

  lemma Finishes(budget: BatchBudget, msgs: seq<SizedUid>, batches: seq<seq<SizedUid>>,
                 current: seq<SizedUid>, bytes: int)
    requires Progress(budget, msgs, batches, current, bytes)
    ensures var all := if current == [] then batches else batches + [current];
            budget.Partition(msgs, all) && budget.Maximal(all)
  {
    if current != [] {
      AppendBatch(budget, batches, current);
    }
  }

  /** Greedy grouping in input order: a legal partition, no batch closed early, and no
      order-preserving legal grouping uses fewer commands. */
  method PlanBatches(msgs: seq<SizedUid>, budget: BatchBudget) returns (batches: seq<seq<SizedUid>>)
    ensures budget.Partition(msgs, batches)
    ensures budget.Maximal(batches)
    ensures forall other | budget.Partition(msgs, other) :: |batches| <= |other|
  {
    batches := [];
    var current: seq<SizedUid> := [];
    var bytes := 0;
    assert Progress(budget, [], batches, current, bytes) && EndsAlone(budget, batches);
    hide Progress, EndsAlone, Follows, BatchBudget.Maximal, BatchBudget.Partition;
    for i := 0 to |msgs|
      invariant Progress(budget, msgs[..i], batches, current, bytes)
      invariant current == [] ==> bytes == 0 && EndsAlone(budget, batches)
    {
      var msg := msgs[i];
      assert msgs[..i + 1] == msgs[..i] + [msg];

      // An outsized message gets its own command.
      if budget.Outsized(msg) {
        if |current| > 0 {
          TakesNoMore(budget, msgs[..i], batches, current, bytes, msg);
          batches, current, bytes := batches + [current], [], 0;
        } else {
          AloneCannotGrow(budget, batches, msg);
        }
        GoesAlone(budget, msgs[..i], batches, msg);
        batches := batches + [[msg]];
        continue;
      }

      // A message that would breach the budget closes the batch first.
      if |current| > 0 {
        var overBytes := budget.maxBytes > 0 && bytes + msg.size > budget.maxBytes;
        var overCount := |current| >= budget.Cap();
        if overBytes || overCount {
          TakesNoMore(budget, msgs[..i], batches, current, bytes, msg);
          batches, current, bytes := batches + [current], [], 0;
        }
      } else {
        AloneCannotGrow(budget, batches, msg);
      }
      Joins(budget, msgs[..i], batches, current, bytes, msg);
      current, bytes := current + [msg], bytes + msg.size;
    }
    assert msgs[..|msgs|] == msgs;
    Finishes(budget, msgs, batches, current, bytes);
    if |current| > 0 {
      batches := batches + [current];
    }
    forall other | budget.Partition(msgs, other)
      ensures |batches| <= |other|
    {
      GreedyIsOptimal(budget, msgs, batches, other);
    }
  }

  // ---------------------------------------------------------------- optimality

  /** The first batch of a maximal grouping reaches at least as far as any legal prefix. */
  lemma FirstBatchReachesFurthest(budget: BatchBudget, msgs: seq<SizedUid>, batches: seq<seq<SizedUid>>, n: nat)
    requires budget.Partition(msgs, batches) && budget.Maximal(batches) && batches != []
    requires n <= |msgs| && budget.Legal(msgs[..n])
    ensures n <= |batches[0]|
  {
    var first := batches[0];
    assert first <= msgs;
    if n > |first| {
      assert |batches| > 1 by {
        assert Concat(batches) == first + Concat(batches[1..]);
      }
      var next := batches[1];
      assert budget.CannotGrow(first, next);
      assert Concat(batches[1..]) == next + Concat(batches[2..]) by { assert batches[1..][1..] == batches[2..]; }
      assert msgs[|first|] == next[0];
      var k := |first| + 1;
      assert msgs[..k] == first + [next[0]];
      assert msgs[..n] == [] + msgs[..k] + msgs[k..n];
      PieceIsLegal(budget, [], msgs[..k], msgs[k..n]);
    }
  }

  /** Dropping d leading messages from a legal grouping needs no more batches. */
  lemma {:induction false} DropPrefix(budget: BatchBudget, batches: seq<seq<SizedUid>>, d: nat)
    returns (rest: seq<seq<SizedUid>>)
    requires budget.AllLegal(batches) && d <= |Concat(batches)|
    ensures budget.Partition(Concat(batches)[d..], rest) && |rest| <= |batches|
  {
    if d == 0 {
      rest := batches;
    } else {
      var head, tail := batches[0], batches[1..];
      if d >= |head| {
        rest := DropPrefix(budget, tail, d - |head|);
        assert Concat(batches)[d..] == Concat(tail)[d - |head|..];
      } else {
        rest := [head[d..]] + tail;
        assert rest[1..] == tail;
        assert head == head[..d] + head[d..] + [];
        PieceIsLegal(budget, head[..d], head[d..], []);
        assert Concat(rest) == Concat(batches)[d..];
      }
    }
  }

  /** A legal grouping that never closes a batch early uses the fewest commands possible. */
  lemma {:induction false} GreedyIsOptimal(budget: BatchBudget, msgs: seq<SizedUid>,
                                           batches: seq<seq<SizedUid>>, other: seq<seq<SizedUid>>)
    requires budget.Partition(msgs, batches) && budget.Maximal(batches)
    requires budget.Partition(msgs, other)
    ensures |batches| <= |other|
    decreases |batches|
  {
    if batches != [] {
      var first := batches[0];
      assert budget.Legal(first);
      assert other != [];
      var p := |other[0]|;
      assert msgs[..p] == other[0];
      FirstBatchReachesFurthest(budget, msgs, batches, p);
      var rest := DropPrefix(budget, other[1..], |first| - p);
      assert Concat(other[1..])[|first| - p..] == Concat(batches[1..]);
      GreedyIsOptimal(budget, Concat(batches[1..]), batches[1..], rest);
    }
  }

  // ---------------------------------------------------------------- how many commands

  /** Why batch i of a maximal grouping was closed. */
  predicate ClosedByCount(budget: BatchBudget, batches: seq<seq<SizedUid>>, i: nat)
    requires i < |batches|
  {
    |batches[i]| >= budget.Cap()
  }

  predicate ClosedByBytes(budget: BatchBudget, batches: seq<seq<SizedUid>>, i: nat)
    requires i + 1 < |batches|
  {
    budget.maxBytes > 0 && Bytes(batches[i]) + Bytes(batches[i + 1]) > budget.maxBytes
  }

  lemma {:induction false} OutsizedInside(msgs: seq<SizedUid>, budget: BatchBudget, k: nat)
    requires k < |msgs| && budget.Outsized(msgs[k])
    ensures OutsizedCount(msgs, budget) >= 1
  {
    if k > 0 {
      OutsizedInside(msgs[1..], budget, k - 1);
    }
  }

  lemma WhyClosed(budget: BatchBudget, batches: seq<seq<SizedUid>>)
    requires |batches| > 1 && budget.AllLegal(batches) && budget.Maximal(batches)
    ensures || ClosedByCount(budget, batches, 0)
            || ClosedByBytes(budget, batches, 0)
            || OutsizedCount(batches[0], budget) + OutsizedCount(batches[1], budget) >= 1
  {
    var a, b := batches[0], batches[1];
    var grown := a + [b[0]];
    assert !budget.Legal(grown);
    BytesConcat(a, [b[0]]);
    BytesConcat([b[0]], b[1..]);
    assert b == [b[0]] + b[1..];
    if i :| 0 <= i < |grown| && budget.Outsized(grown[i]) {
      if i < |a| {
        OutsizedInside(a, budget, i);
      } else {
        OutsizedInside(b, budget, 0);
      }
    }
  }

  lemma TailOfPlan(budget: BatchBudget, batches: seq<seq<SizedUid>>)
    requires budget.AllLegal(batches) && budget.Maximal(batches) && batches != []
    ensures budget.AllLegal(batches[1..]) && budget.Maximal(batches[1..])
  {
    var rest := batches[1..];
    assert forall i | 0 <= i < |rest| :: rest[i] == batches[i + 1];
  }

  /** The bound before dividing: two tallies that each pay for their batches, and
      the outsized messages, which pay twice. */
  lemma {:induction false} TallyExists(budget: BatchBudget, batches: seq<seq<SizedUid>>)
    returns (full: nat, heavy: nat)
    requires budget.AllLegal(batches) && budget.Maximal(batches) && batches != []
    ensures full * budget.Cap() <= |Concat(batches)|
    ensures if budget.maxBytes > 0
            then heavy * budget.maxBytes + Bytes(batches[0]) <= 2 * Bytes(Concat(batches))
            else heavy == 0
    ensures |batches| - 1 + OutsizedCount(batches[0], budget)
            <= full + heavy + 2 * OutsizedCount(Concat(batches), budget)
  {
    hide BatchBudget.Legal, BatchBudget.AllLegal, BatchBudget.Maximal, OutsizedCount, Bytes, BatchBudget.Cap;
    var rest := batches[1..];
    if rest == [] {
      full, heavy := 0, 0;
      assert Concat(batches) == batches[0];
    } else {
      TailOfPlan(budget, batches);
      full, heavy := TallyExists(budget, rest);
      BytesConcat(batches[0], Concat(rest));
      OutsizedConcat(batches[0], Concat(rest), budget);
      WhyClosed(budget, batches);
      if ClosedByCount(budget, batches, 0) {
        OneMore(full, budget.Cap());
        full := full + 1;
      } else if ClosedByBytes(budget, batches, 0) {
        OneMore(heavy, budget.maxBytes);
        heavy := heavy + 1;
      }
    }
  }

  lemma QuotientBound(q: nat, divisor: int, total: nat)
    requires divisor > 0 && q * divisor <= total
    ensures q <= total / divisor
  {
    var d := total / divisor;
    assert total < d * divisor + divisor;
    OneMore(d, divisor);
    assert q * divisor < (d + 1) * divisor;
  }

  /** The number of commands a maximal plan issues. */
  lemma CommandBound(budget: BatchBudget, msgs: seq<SizedUid>, batches: seq<seq<SizedUid>>)
    requires budget.Partition(msgs, batches) && budget.Maximal(batches)
    ensures |batches| <= |msgs| / budget.Cap()
                         + (if budget.maxBytes > 0 then 2 * Bytes(msgs) / budget.maxBytes else 0)
                         + 2 * OutsizedCount(msgs, budget) + 1
  {
    if batches == [] {
      return;
    }
    var full, heavy := TallyExists(budget, batches);
    QuotientBound(full, budget.Cap(), |msgs|);
    if budget.maxBytes > 0 {
      QuotientBound(heavy, budget.maxBytes, 2 * Bytes(msgs));
    }
  }

  // ---------------------------------------------------------------- metadata chunks

  function Elements(uids: seq<Uid>): set<Uid> {
    set u | u in uids
  }

  function Union(sets: seq<set<Uid>>): set<Uid> {
    if sets == [] then {} else Union(sets[..|sets| - 1]) + sets[|sets| - 1]
  }

  /** Non-empty, bounded chunks covering exactly these UIDs. */
  ghost predicate CutInto(sets: seq<set<Uid>>, uids: set<Uid>, size: nat) {
    && Union(sets) == uids
    && forall k | 0 <= k < |sets| :: 0 < |sets[k]| <= size
  }

  /** No UID is asked for twice, and all chunks up to the n-th are full. */
  ghost predicate DisjointAndFull(sets: seq<set<Uid>>, n: int, size: nat) {
    && (forall k, l | 0 <= k < l < |sets| :: sets[k] !! sets[l])
    && forall k | 0 <= k < n && k < |sets| :: |sets[k]| == size
  }

  lemma {:induction false} MemberOfUnion(sets: seq<set<Uid>>, k: nat)
    requires k < |sets|
    ensures sets[k] <= Union(sets)
  {
    if k < |sets| - 1 {
      MemberOfUnion(sets[..|sets| - 1], k);
    }
  }

  lemma AppendChunk(sets: seq<set<Uid>>, uids: set<Uid>, size: nat, chunk: set<Uid>)
    requires CutInto(sets, uids, size) && 0 < |chunk| <= size
    ensures CutInto(sets + [chunk], uids + chunk, size)
    ensures DisjointAndFull(sets, |sets|, size) && uids !! chunk ==>
              DisjointAndFull(sets + [chunk], |sets| + if |chunk| == size then 1 else 0, size)
  {
    assert (sets + [chunk])[..|sets|] == sets;
    forall k | 0 <= k < |sets| && uids !! chunk
      ensures sets[k] !! chunk
    {
      MemberOfUnion(sets, k);
    }
  }

  predicate Distinct(uids: seq<Uid>) {
    forall i, j | 0 <= i < j < |uids| :: uids[i] != uids[j]
  }

  /** Chunks of at most size messages that together ask for exactly these UIDs; if none of
      them repeats, never twice for the same one, and all but the last chunk are full. */
  method PlanMetadataChunks(uids: seq<Uid>, size: int) returns (sets: seq<set<Uid>>)
    ensures CutInto(sets, Elements(uids), if size < 1 then 1 else size)
    ensures Distinct(uids) ==> DisjointAndFull(sets, |sets| - 1, if size < 1 then 1 else size)
  {
    var step := if size < 1 then 1 else size;
    sets := [];
    var start := 0;
    assert CutInto(sets, Elements(uids[..start]), step) && DisjointAndFull(sets, 0, step);
    hide CutInto, DisjointAndFull, Distinct, Elements;
    while start < |uids|
      invariant 0 <= start <= |uids|
      invariant CutInto(sets, Elements(uids[..start]), step)
      invariant Distinct(uids) ==> DisjointAndFull(sets, if start < |uids| then |sets| else |sets| - 1, step)
    {
      var end := if start + step < |uids| then start + step else |uids|;
      var chunk := Elements(uids[start..end]);
      ExtendPrefix(uids, start, end);
      AppendChunk(sets, Elements(uids[..start]), step, chunk);
      FewerFull(sets + [chunk], |sets| + (if |chunk| == step then 1 else 0), |sets|, step);
      sets := sets + [chunk];
      start := end;
    }
    assert uids[..|uids|] == uids;
    FewerFull(sets, |sets|, |sets| - 1, step);
  }

  lemma FewerFull(sets: seq<set<Uid>>, n: int, fewer: int, size: nat)
    requires fewer <= n
    ensures DisjointAndFull(sets, n, size) ==> DisjointAndFull(sets, fewer, size)
  {
  }

  lemma ExtendPrefix(uids: seq<Uid>, start: nat, end: nat)
    requires start < end <= |uids|
    ensures Elements(uids[..end]) == Elements(uids[..start]) + Elements(uids[start..end])
    ensures 0 < |Elements(uids[start..end])| <= end - start
    ensures Distinct(uids) ==> Elements(uids[..start]) !! Elements(uids[start..end])
    ensures Distinct(uids) ==> |Elements(uids[start..end])| == end - start
  {
    assert uids[..end] == uids[..start] + uids[start..end];
    CountElements(uids[start..end]);
  }

  lemma {:induction false} CountElements(uids: seq<Uid>)
    ensures |Elements(uids)| <= |uids| && (uids != [] ==> |Elements(uids)| > 0)
    ensures Distinct(uids) ==> |Elements(uids)| == |uids|
  {
    if uids != [] {
      var n := |uids| - 1;
      CountElements(uids[..n]);
      assert Elements(uids) == Elements(uids[..n]) + {uids[n]};
      assert Distinct(uids) ==> uids[n] !in Elements(uids[..n]);
      assert uids[n] in Elements(uids);
    }
  }
}
