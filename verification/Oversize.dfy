/** When the planner keeps messages above the size limit apart from the others.

    fetchBatch marks every message of a batch once one literal exceeds the limit. That is
    harmless exactly when no batch holds both kinds, which depends on three settings. */
module Oversize {
  import opened Planner

  /** Holds a message above the limit and one within it. */
  ghost predicate Mixed(batch: seq<SizedUid>, maxSize: int) {
    && (exists i :: 0 <= i < |batch| && batch[i].size > maxSize)
    && (exists i :: 0 <= i < |batch| && batch[i].size <= maxSize)
  }

  ghost predicate AnyMixed(batches: seq<seq<SizedUid>>, maxSize: int) {
    exists k :: 0 <= k < |batches| && Mixed(batches[k], maxSize)
  }

  /** The settings keep a message above the limit out of every group: it is isolated, or all
      messages are, or no group may hold that many bytes. */
  predicate KeepsApart(budget: BatchBudget, maxSize: int) {
    || 0 < budget.soloAbove <= maxSize
    || budget.Cap() == 1
    || 0 < budget.maxBytes <= maxSize
  }

  lemma {:induction false} SizeWithinBytes(batch: seq<SizedUid>, i: nat)
    requires i < |batch|
    ensures batch[i].size <= Bytes(batch)
  {
    if i < |batch| - 1 {
      SizeWithinBytes(batch[..|batch| - 1], i);
    }
  }

  lemma LegalIsUnmixed(budget: BatchBudget, batch: seq<SizedUid>, maxSize: int)
    requires budget.Legal(batch) && KeepsApart(budget, maxSize)
    ensures !Mixed(batch, maxSize)
  {
    forall i | 0 <= i < |batch| && |batch| > 1
      ensures batch[i].size <= maxSize
    {
      SizeWithinBytes(batch, i);
      assert !budget.Outsized(batch[i]);
    }
  }

  /** The failing plan: one message just above the limit, and an empty one beside it. */
  predicate OddPair(msgs: seq<SizedUid>, maxSize: int) {
    && |msgs| == 2
    && ((msgs[0].size == maxSize + 1 && msgs[1].size == 0) || (msgs[0].size == 0 && msgs[1].size == maxSize + 1))
  }

  lemma OddPairGoesTogether(budget: BatchBudget, w: seq<SizedUid>, maxSize: int)
    requires maxSize >= 0 && !KeepsApart(budget, maxSize) && OddPair(w, maxSize)
    ensures budget.Partition(w, [w]) && budget.Maximal([w]) && AnyMixed([w], maxSize)
  {
    assert Bytes([w[0]]) == w[0].size by { assert [w[0]][..0] == []; }
    assert w[..1] == [w[0]];
    assert Bytes(w) == maxSize + 1;
    assert Concat([w]) == w + Concat([]);
    assert [w][0] == w;
    var large := if w[0].size == 0 then 1 else 0;
    assert w[large].size > maxSize && w[1 - large].size <= maxSize;
  }

  /** No plan for any messages mixes the two kinds, exactly when the settings keep them apart. */
  lemma PlansUnmixedIff(budget: BatchBudget, maxSize: int)
    requires maxSize >= 0
    ensures KeepsApart(budget, maxSize) <==>
            forall msgs, batches | budget.Partition(msgs, batches) && budget.Maximal(batches) ::
              !AnyMixed(batches, maxSize)
  {
    if KeepsApart(budget, maxSize) {
      forall msgs, batches | budget.Partition(msgs, batches) && budget.Maximal(batches)
        ensures !AnyMixed(batches, maxSize)
      {
        forall k | 0 <= k < |batches|
          ensures !Mixed(batches[k], maxSize)
        {
          LegalIsUnmixed(budget, batches[k], maxSize);
        }
      }
    } else {
      OddPairGoesTogether(budget, [SizedUid(2, maxSize + 1), SizedUid(1, 0)], maxSize);
    }
  }
}
