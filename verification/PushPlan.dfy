/** Cutting the outbox into batches (packages/domain/src/sync.ts, `planPushBatches`). */
module PushPlan {
  import opened Prelude
  import opened Sorting
  import opened SyncMeta
  import opened SyncProtocol

  function Rank(o: Op): nat { MetaOf(o.entity).pushPriority }

  predicate OpLe(a: Op, b: Op) {
    Rank(a) < Rank(b) || (Rank(a) == Rank(b) && a.timestamp <= b.timestamp)
  }

  lemma {:induction false} OpLePreorder()
    ensures TotalPreorder(OpLe)
  {}

  function Flatten(batches: seq<seq<Op>>): seq<Op> {
    if batches == [] then [] else batches[0] + Flatten(batches[1..])
  }

  function Cut(s: seq<Op>, n: nat): seq<seq<Op>>
    requires n >= 1
    decreases s
  {
    if s == [] then [] else [s[..Min(n, |s|)]] + Cut(s[Min(n, |s|)..], n)
  }

  /** The batches of a queue. */
  function Plan(ops: seq<Op>, maxBatch: nat): seq<seq<Op>>
    requires maxBatch >= 1
  {
    Cut(Sort(ops, OpLe), maxBatch)
  }

  lemma {:induction false} CutStep(s: seq<Op>, i: nat, n: nat)
    requires n >= 1 && i < |s|
    ensures Cut(s[i..], n) == [s[i..Min(i + n, |s|)]] + Cut(s[Min(i + n, |s|)..], n)
  {
    var rest := s[i..];
    assert rest[..Min(n, |rest|)] == s[i..Min(i + n, |s|)] && rest[Min(n, |rest|)..] == s[Min(i + n, |s|)..];
  }

  method PlanPushBatches(ops: seq<Op>, maxBatch: nat) returns (batches: seq<seq<Op>>)
    requires maxBatch >= 1
    ensures batches == Plan(ops, maxBatch)
  {
    var sorted := Sort(ops, OpLe);
    batches := [];
    var i := 0;
    while i < |sorted|
      invariant 0 <= i && batches + Cut(sorted[Min(i, |sorted|)..], maxBatch) == Cut(sorted, maxBatch)
      decreases |sorted| - i
    {
      CutStep(sorted, i, maxBatch);
      batches := batches + [sorted[i..Min(i + maxBatch, |sorted|)]];
      i := i + maxBatch;
    }
  }

  /** No batch is empty or too long, and only the last one is short. */
  ghost predicate BatchSizes(batches: seq<seq<Op>>, maxBatch: nat) {
    forall i :: 0 <= i < |batches| ==> 0 < |batches[i]| <= maxBatch && (i < |batches| - 1 ==> |batches[i]| == maxBatch)
  }

  lemma {:induction false} CutIsPartition(s: seq<Op>, n: nat)
    requires n >= 1
    ensures Flatten(Cut(s, n)) == s && BatchSizes(Cut(s, n), n)
    decreases s
  {
    if s != [] {
      var m := Min(n, |s|);
      CutIsPartition(s[m..], n);
      assert s == s[..m] + s[m..];
      if m < n || |s| == n { assert s[m..] == []; }
    }
  }

  /** Laid end to end the batches are the queue, nothing lost or invented, ascending in priority and time. */
  lemma {:induction false} PlanPermutesAndSorts(ops: seq<Op>, maxBatch: nat)
    requires maxBatch >= 1
    ensures multiset(Flatten(Plan(ops, maxBatch))) == multiset(ops)
    ensures Ascending(Flatten(Plan(ops, maxBatch)), OpLe)
    ensures BatchSizes(Plan(ops, maxBatch), maxBatch)
  {
    CutIsPartition(Sort(ops, OpLe), maxBatch);
    OpLePreorder();
    SortPermutes(ops, OpLe);
    SortAscends(ops, OpLe);
  }

  /** Edits of one record, made in time order, are sent in the order they were made, across all batches. */
  lemma {:induction false} SameRecordKeepsOrder(ops: seq<Op>, maxBatch: nat, i: nat, j: nat)
    requires maxBatch >= 1 && i < j < |ops|
    requires ops[i].entity == ops[j].entity && ops[i].recordId == ops[j].recordId
    requires ops[i].timestamp <= ops[j].timestamp
    ensures Before(Flatten(Plan(ops, maxBatch)), ops[i], ops[j])
  {
    CutIsPartition(Sort(ops, OpLe), maxBatch);
    SortKeepsOrder(ops, i, j, OpLe);
  }
}
