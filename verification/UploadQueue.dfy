/**
 The document upload queue (packages/domain/src/documents.ts). Ids come from an ordered, injective supply and are
 carried as numbers, as are instants; what the transport answers for a document is a function of its id, since a
 round offers it each document at most once.
 */
module UploadQueue {
  import opened Prelude
  import opened Sorting

  type Id = nat

  datatype Doc = Doc(queuedAt: int, size: int, attempts: nat, objectKey: Option<string>, lastError: Option<string>)

  datatype Ref = Ref(id: Id, queuedAt: int)

  datatype Report = Report(attempted: nat, uploaded: nat, failed: nat, deferred: nat, skippedOffline: bool)

  datatype Upload = Sent(objectKey: string) | Failed(reason: string)

  const SIZE_CHANGED := "size"

  predicate Waiting(docs: map<Id, Doc>, id: Id) { id in docs && docs[id].objectKey.None? }

  function WaitingIds(docs: map<Id, Doc>): set<Id> { set id | id in docs && docs[id].objectKey.None? }

  predicate OlderOrSame(a: Ref, b: Ref) { a.queuedAt < b.queuedAt || (a.queuedAt == b.queuedAt && a.id <= b.id) }

  predicate Older(docs: map<Id, Doc>, a: Id, b: Id)
    requires a in docs && b in docs
  {
    OlderOrSame(Ref(a, docs[a].queuedAt), Ref(b, docs[b].queuedAt))
  }

  /** `ids` are the oldest waiting documents, oldest first, as many as a round may take. */
  ghost predicate Oldest(docs: map<Id, Doc>, ids: seq<Id>, limit: int) {
    && |ids| == Min(Max(1, limit), |WaitingIds(docs)|)
    && (forall i :: 0 <= i < |ids| ==> Waiting(docs, ids[i]))
    && (forall i, j :: 0 <= i < j < |ids| ==> ids[i] != ids[j] && Older(docs, ids[i], ids[j]))
    && (forall i, id :: 0 <= i < |ids| && Waiting(docs, id) && id !in ids ==> Older(docs, ids[i], id))
  }

  predicate SizeOk(d: Doc, maxBytes: int) { 0 < d.size <= maxBytes }

  predicate Resolves(docs: map<Id, Doc>, id: Id, maxBytes: int, send: Id -> Upload) {
    id in docs && SizeOk(docs[id], maxBytes) && send(id).Sent?
  }

  function FailedDoc(d: Doc, id: Id, maxBytes: int, send: Id -> Upload): Doc {
    d.(attempts := d.attempts + 1,
       lastError := Some(if SizeOk(d, maxBytes) && send(id).Failed? then send(id).reason else SIZE_CHANGED))
  }

  /** One attempt: the document leaves the store if its upload resolves, and stays with one more failure otherwise. */
  function AfterAttempt(docs: map<Id, Doc>, id: Id, maxBytes: int, send: Id -> Upload): map<Id, Doc> {
    if id !in docs then docs
    else if Resolves(docs, id, maxBytes, send) then docs - {id}
    else docs[id := FailedDoc(docs[id], id, maxBytes, send)]
  }

  function AfterRound(docs: map<Id, Doc>, ids: seq<Id>, maxBytes: int, send: Id -> Upload): map<Id, Doc>
    decreases ids
  {
    if ids == [] then docs else AfterRound(AfterAttempt(docs, ids[0], maxBytes, send), ids[1..], maxBytes, send)
  }

  function Successes(docs: map<Id, Doc>, ids: seq<Id>, maxBytes: int, send: Id -> Upload): (n: nat)
    ensures n <= |ids|
    decreases ids
  {
    if ids == [] then 0
    else
      var rest := Successes(AfterAttempt(docs, ids[0], maxBytes, send), ids[1..], maxBytes, send);
      if Resolves(docs, ids[0], maxBytes, send) then 1 + rest else rest
  }

  /** Conservation: the documents removed are exactly the attempted ones whose upload resolved; every other attempted
      one counts one attempt more; nothing else is touched. */
  lemma {:induction false} RoundConserves(docs: map<Id, Doc>, ids: seq<Id>, maxBytes: int, send: Id -> Upload, id: Id)
    requires Distinct(ids)
    ensures var now := AfterRound(docs, ids, maxBytes, send);
            && (id in now <==> id in docs && !(id in ids && Resolves(docs, id, maxBytes, send)))
            && (id in now ==> now[id] == if id in ids then FailedDoc(docs[id], id, maxBytes, send) else docs[id])
    decreases ids
  {
    if ids != [] {
      assert forall k :: 0 <= k < |ids[1..]| ==> ids[1..][k] == ids[k + 1];
      assert id in ids <==> id == ids[0] || id in ids[1..];
      RoundConserves(AfterAttempt(docs, ids[0], maxBytes, send), ids[1..], maxBytes, send, id);
    }
  }

  /** And the report counts them: each success removes one document. */
  lemma {:induction false} SuccessesAreRemovals(docs: map<Id, Doc>, ids: seq<Id>, maxBytes: int, send: Id -> Upload)
    requires Distinct(ids)
    ensures |AfterRound(docs, ids, maxBytes, send)| + Successes(docs, ids, maxBytes, send) == |docs|
    decreases ids
  {
    if ids != [] {
      assert forall k :: 0 <= k < |ids[1..]| ==> ids[1..][k] == ids[k + 1];
      var next := AfterAttempt(docs, ids[0], maxBytes, send);
      SuccessesAreRemovals(next, ids[1..], maxBytes, send);
      if Resolves(docs, ids[0], maxBytes, send) {
        assert next.Keys == docs.Keys - {ids[0]} && |next.Keys| == |next| && |docs.Keys| == |docs|;
      } else if ids[0] in docs {
        assert next.Keys == docs.Keys && |next.Keys| == |next| && |docs.Keys| == |docs|;
      }
    }
  }

  function Firsts(sorted: seq<Ref>, n: nat): (ids: seq<Id>)
    requires n <= |sorted|
    ensures |ids| == n && forall k :: 0 <= k < n ==> ids[k] == sorted[k].id
  {
    seq(n, k requires 0 <= k < n => sorted[k].id)
  }

  /** The references of the waiting documents, each once, in whatever order the store lists them. */
  ghost predicate Lists(docs: map<Id, Doc>, refs: seq<Ref>) {
    && Distinct(refs) && |refs| == |WaitingIds(docs)|
    && forall r :: r in refs <==> Waiting(docs, r.id) && r.queuedAt == docs[r.id].queuedAt
  }

  lemma {:induction false} SortedListing(docs: map<Id, Doc>, refs: seq<Ref>)
    requires Lists(docs, refs)
    ensures Lists(docs, Sort(refs, OlderOrSame)) && Ascending(Sort(refs, OlderOrSame), OlderOrSame)
  {
    var sorted := Sort(refs, OlderOrSame);
    SortPermutes(refs, OlderOrSame);
    PermutedDistinct(refs, sorted);
    assert TotalPreorder(OlderOrSame);
    SortAscends(refs, OlderOrSame);
    forall r ensures r in sorted <==> r in refs { assert r in multiset(sorted) <==> r in multiset(refs); }
  }

  /** Sorting any listing and taking a prefix finds the oldest documents. */
  lemma {:induction false} OldestBySorting(docs: map<Id, Doc>, sorted: seq<Ref>, limit: int)
    requires Lists(docs, sorted) && Ascending(sorted, OlderOrSame)
    ensures Oldest(docs, Firsts(sorted, Min(Max(1, limit), |sorted|)), limit)
  {
    var n := Min(Max(1, limit), |sorted|);
    var ids := Firsts(sorted, n);
    forall i | 0 <= i < |sorted| ensures Waiting(docs, sorted[i].id)
        && sorted[i].queuedAt == docs[sorted[i].id].queuedAt {
      assert sorted[i] in sorted;
    }
    forall i, j | 0 <= i < j < n ensures ids[i] != ids[j] && Older(docs, ids[i], ids[j]) {
      assert OlderOrSame(sorted[i], sorted[j]) && sorted[i] != sorted[j];
    }
    forall i, id | 0 <= i < n && Waiting(docs, id) && id !in ids ensures Older(docs, ids[i], id) {
      var r := Ref(id, docs[id].queuedAt);
      assert r in sorted;
      var j :| 0 <= j < |sorted| && sorted[j] == r;
      assert forall q :: 0 <= q < n ==> ids[q] in ids && sorted[q].id == ids[q];
      assert j >= n;
      assert OlderOrSame(sorted[i], sorted[j]);
    }
  }

  /** There is only one such choice: which documents a round attempts, and in which order, is determined. */
  lemma {:induction false} OldestIsUnique(docs: map<Id, Doc>, a: seq<Id>, b: seq<Id>, limit: int)
    requires Oldest(docs, a, limit) && Oldest(docs, b, limit)
    ensures a == b
  {
    if k :| 0 <= k < |a| && a[k] != b[k] && a[..k] == b[..k] {
      assert b[k] !in a[..k] && a[k] !in b[..k];
      NotInPrefix(a, k, b[k]);
      NotInPrefix(b, k, a[k]);
      assert Older(docs, a[k], b[k]) && Older(docs, b[k], a[k]) by {
        if b[k] in a { var j :| 0 <= j < |a| && a[j] == b[k]; assert j > k; }
        if a[k] in b { var j :| 0 <= j < |b| && b[j] == a[k]; assert j > k; }
      }
    } else {
      FirstDifference(a, b);
    }
  }

  lemma {:induction false} NotInPrefix(a: seq<Id>, k: nat, x: Id)
    requires k <= |a| && x !in a[..k]
    ensures forall q :: 0 <= q < k ==> a[q] != x
  {
    forall q | 0 <= q < k ensures a[q] != x { assert a[..k][q] == a[q] && a[q] in a[..k]; }
  }

  lemma {:induction false} FirstDifference(a: seq<Id>, b: seq<Id>)
    requires |a| == |b|
    ensures a == b || exists k :: 0 <= k < |a| && a[k] != b[k] && a[..k] == b[..k]
  {
    var k := 0;
    while k < |a| && a[k] == b[k]
      invariant k <= |a| && a[..k] == b[..k]
    {
      assert a[..k + 1] == a[..k] + [a[k]] && b[..k + 1] == b[..k] + [b[k]];
      k := k + 1;
    }
    if k == |a| { assert a == a[..k] && b == b[..k]; }
  }

  /** Documents keep waiting, with the instants they were queued at. */
  lemma {:induction false} SameQueueSameChoice(docs: map<Id, Doc>, now: map<Id, Doc>, ids: seq<Id>, limit: int)
    requires Oldest(docs, ids, limit) && now.Keys == docs.Keys
    requires forall id :: id in now ==> now[id].queuedAt == docs[id].queuedAt && now[id].objectKey == docs[id].objectKey
    ensures Oldest(now, ids, limit)
  {
    assert WaitingIds(now) == WaitingIds(docs);
    assert forall a, b :: a in docs && b in docs ==> (Older(now, a, b) <==> Older(docs, a, b));
  }

  /** Old failures starve the rest: the next round attempts the very same documents exactly when none of them
      resolved. */
  lemma {:induction false} SameRoundAgainIff(docs: map<Id, Doc>, ids: seq<Id>, limit: int, maxBytes: int,
                                             send: Id -> Upload)
    requires Oldest(docs, ids, limit)
    ensures Oldest(AfterRound(docs, ids, maxBytes, send), ids, limit) <==>
            forall i :: 0 <= i < |ids| ==> !Resolves(docs, ids[i], maxBytes, send)
  {
    var now := AfterRound(docs, ids, maxBytes, send);
    if forall i :: 0 <= i < |ids| ==> !Resolves(docs, ids[i], maxBytes, send) {
      forall id
        ensures id in now <==> id in docs
        ensures id in now ==> now[id].queuedAt == docs[id].queuedAt && now[id].objectKey == docs[id].objectKey
      {
        RoundConserves(docs, ids, maxBytes, send, id);
      }
      SameQueueSameChoice(docs, now, ids, limit);
    } else {
      var i :| 0 <= i < |ids| && Resolves(docs, ids[i], maxBytes, send);
      RoundConserves(docs, ids, maxBytes, send, ids[i]);
      assert !Waiting(now, ids[i]);
    }
  }

  function AfterRounds(docs: map<Id, Doc>, ids: seq<Id>, n: nat, maxBytes: int, send: Id -> Upload): map<Id, Doc> {
    if n == 0 then docs else AfterRound(AfterRounds(docs, ids, n - 1, maxBytes, send), ids, maxBytes, send)
  }

  lemma {:induction false} TheSameRounds(docs: map<Id, Doc>, ids: seq<Id>, limit: int, n: nat, maxBytes: int,
                                         send: Id -> Upload)
    requires Oldest(docs, ids, limit) && forall i :: 0 <= i < |ids| ==> send(ids[i]).Failed?
    ensures Oldest(AfterRounds(docs, ids, n, maxBytes, send), ids, limit)
  {
    if n > 0 {
      TheSameRounds(docs, ids, limit, n - 1, maxBytes, send);
      SameRoundAgainIff(AfterRounds(docs, ids, n - 1, maxBytes, send), ids, limit, maxBytes, send);
    }
  }

  /** It happens: a document that keeps failing is all that rounds of one ever attempt, and a newer one waits for
      good. */
  lemma {:induction false} NewerStarves(n: nat, maxBytes: int, send: Id -> Upload) returns (docs: map<Id, Doc>)
    requires send(0).Failed?
    ensures Waiting(docs, 1) && Oldest(AfterRounds(docs, [0], n, maxBytes, send), [0], 1)
  {
    docs := map[0 := Doc(0, 1, 0, None, None), 1 := Doc(1, 1, 0, None, None)];
    assert WaitingIds(docs) == {0, 1};
    assert |{0, 1}| == 2;
    assert Oldest(docs, [0], 1);
    TheSameRounds(docs, [0], 1, n, maxBytes, send);
  }

  class DocumentUploadQueue {
    const maxBytes: int
    var docs: map<Id, Doc>

    constructor (maxBytes: int)
      ensures docs == map[] && this.maxBytes == maxBytes
    {
      this.maxBytes, docs := maxBytes, map[];
    }

    /** Keeps a document that passed the local checks (`valid`); a given id may replace a waiting document. */
    method Add(id: Id, size: int, now: int, valid: bool) returns (ok: bool)
      modifies this
      ensures ok == (valid && 0 < size <= maxBytes)
      ensures docs == if ok then old(docs)[id := Doc(now, size, 0, None, None)] else old(docs)
    {
      if !valid || size <= 0 || size > maxBytes { return false; }
      docs := docs[id := Doc(now, size, 0, None, None)];
      return true;
    }

    method ListWaiting() returns (refs: seq<Ref>)
      ensures Lists(docs, refs)
    {
      refs := [];
      var todo := WaitingIds(docs);
      while todo != {}
        invariant todo <= WaitingIds(docs) && Distinct(refs) && |refs| + |todo| == |WaitingIds(docs)|
        invariant forall r :: r in refs <==> Waiting(docs, r.id) && r.id !in todo && r.queuedAt == docs[r.id].queuedAt
      {
        var id :| id in todo;
        todo := todo - {id};
        refs := refs + [Ref(id, docs[id].queuedAt)];
      }
    }

    method Attempt(id: Id, send: Id -> Upload) returns (ok: bool)
      requires id in docs
      modifies this
      ensures docs == AfterAttempt(old(docs), id, maxBytes, send) && ok == Resolves(old(docs), id, maxBytes, send)
    {
      var rec := docs[id];
      if rec.size <= 0 || rec.size > maxBytes {
        docs := docs[id := rec.(attempts := rec.attempts + 1, lastError := Some(SIZE_CHANGED))];
        return false;
      }
      match send(id) {
        case Sent(objectKey) =>
          docs := docs[id := rec.(objectKey := Some(objectKey), attempts := rec.attempts + 1, lastError := None)];
          docs := docs - {id};
          return true;
        case Failed(reason) =>
          docs := docs[id := rec.(attempts := rec.attempts + 1, lastError := Some(reason))];
          return false;
      }
    }

    /** One round. `ids` is what it attempted, in order. */
    method DoFlush(limit: int, online: bool, send: Id -> Upload) returns (report: Report, ids: seq<Id>)
      modifies this
      ensures !online ==> docs == old(docs) && ids == [] && report == Report(0, 0, 0, |WaitingIds(docs)|, true)
      ensures online ==> Oldest(old(docs), ids, limit) && docs == AfterRound(old(docs), ids, maxBytes, send)
      ensures online ==> var done := Successes(old(docs), ids, maxBytes, send);
                         report == Report(|ids|, done, |ids| - done, |WaitingIds(docs)|, false)
    {
      var refs := ListWaiting();
      if !online { return Report(0, 0, 0, |WaitingIds(docs)|, true), []; }
      ids := TakeOldest(refs, limit);
      var uploaded, failed := 0, 0;
      for i := 0 to |ids|
        invariant uploaded + failed == i
        invariant forall k :: i <= k < |ids| ==> ids[k] in docs
        invariant AfterRound(docs, ids[i..], maxBytes, send) == AfterRound(old(docs), ids, maxBytes, send)
        invariant uploaded + Successes(docs, ids[i..], maxBytes, send) == Successes(old(docs), ids, maxBytes, send)
      {
        assert ids[i..][1..] == ids[i + 1..];
        var ok := Attempt(ids[i], send);
        if ok { uploaded := uploaded + 1; } else { failed := failed + 1; }
      }
      report := Report(|ids|, uploaded, failed, |WaitingIds(docs)|, false);
    }

    method TakeOldest(refs: seq<Ref>, limit: int) returns (ids: seq<Id>)
      requires Lists(docs, refs)
      ensures Oldest(docs, ids, limit)
    {
      var sorted := Sort(refs, OlderOrSame);
      SortedListing(docs, refs);
      OldestBySorting(docs, sorted, limit);
      ids := Firsts(sorted, Min(Max(1, limit), |sorted|));
    }
  }
}
