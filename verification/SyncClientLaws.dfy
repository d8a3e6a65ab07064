/** What a whole push of the client does to its outbox. */
module SyncClientLaws {
  import opened Prelude
  import opened SyncProtocol
  import opened SyncDevice
  import opened PushPlan
  import opened SyncEngine
  import opened SyncOutboxLaws
  import opened SyncClient

  // ---- a cycle in which everything is accepted ----

  /** Every operation of the batch is answered, in order, with success. */
  ghost predicate AllDone(batch: seq<Op>, reply: Option<PushReply>) {
    && reply.Some? && reply.value.Accepted? && |reply.value.results| == |batch|
    && forall k :: 0 <= k < |batch| ==>
         reply.value.results[k].opId == batch[k].opId && OkOutcome(reply.value.results[k].outcome)
  }

  lemma {:induction false} WithoutMembers(queue: seq<Pending>, o: OpId)
    ensures forall p :: p in Without(queue, o) <==> p in queue && p.op.opId != o
  {
    if queue != [] {
      WithoutMembers(queue[1..], o);
      assert forall p :: p in queue <==> p == queue[0] || p in queue[1..];
    }
  }

  lemma {:induction false} SuccessesLeave(d: Device, rs: seq<Result>, p: Pending)
    requires (forall k :: 0 <= k < |rs| ==> OkOutcome(rs[k].outcome)) && p in AnsweredAll(d, rs).queue
    ensures p in d.queue && forall k :: 0 <= k < |rs| ==> rs[k].opId != p.op.opId
    decreases rs
  {
    if rs != [] {
      SuccessesLeave(Answered(d, rs[0]), rs[1..], p);
      WithoutMembers(d.queue, rs[0].opId);
      assert forall k :: 0 < k < |rs| ==> rs[k] == rs[1..][k - 1];
    }
  }

  lemma {:induction false} PushedLeaves(d: Device, batches: seq<seq<Op>>, replies: seq<Option<PushReply>>, top: nat,
                                        p: Pending)
    requires |replies| >= |batches| && forall k :: 0 <= k < |batches| ==> AllDone(batches[k], replies[k])
    requires p in Pushed(d, batches, replies, top).0.queue
    ensures p in d.queue && p.op !in Flatten(batches)
    decreases batches
  {
    if batches != [] {
      assert AllDone(batches[0], replies[0]);
      var next := replies[0].value;
      forall k | 0 <= k < |batches[1..]| ensures AllDone(batches[1..][k], replies[1..][k]) {
        assert AllDone(batches[k + 1], replies[k + 1]);
      }
      PushedLeaves(AnsweredAll(d, next.results), batches[1..], replies[1..], Max(top, next.nextCursor), p);
      SuccessesLeave(d, next.results, p);
      assert forall k :: 0 <= k < |batches[0]| ==> batches[0][k].opId != p.op.opId;
    }
  }

  /** If every batch gets through and every operation succeeds, the outbox is empty when the cycle ends. */
  lemma {:induction false} CleanPushEmptiesOutbox(d: Device, replies: seq<Option<PushReply>>)
    requires |replies| >= |Plan(Ops(d.queue), BATCH_SIZE)|
    requires forall k :: 0 <= k < |Plan(Ops(d.queue), BATCH_SIZE)| ==>
             AllDone(Plan(Ops(d.queue), BATCH_SIZE)[k], replies[k])
    ensures Pushed(d, Plan(Ops(d.queue), BATCH_SIZE), replies, d.cursor).0.queue == []
  {
    var plan := Plan(Ops(d.queue), BATCH_SIZE);
    var left := Pushed(d, plan, replies, d.cursor).0.queue;
    OpsMembers(d.queue);
    PlanMembers(Ops(d.queue));
    forall p | p in d.queue ensures p.op in Flatten(plan) { assert p.op in QueueOps(d.queue); }
    if left != [] { PushedLeaves(d, plan, replies, d.cursor, left[0]); }
  }
}
