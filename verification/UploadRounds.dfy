/**
 Concurrent calls of `flush` (packages/domain/src/documents.ts:237-248). A call that finds no round in flight leads one;
 a call that finds one waits for it and then runs a round of its own, without announcing it. A failed upload saves its
 record again, whether or not it is still there.
 */
module UploadRounds {
  import opened Prelude

  type Id = nat
  type RoundId = nat

  /** `todo` is what the round still has to offer of the documents it found waiting. */
  datatype Round = Round(leads: bool, todo: seq<Id>)

  /** `uploads` is history: the documents the server accepted, in order. */
  datatype Sys = Sys(waiting: set<Id>, rounds: map<RoundId, Round>, started: nat, inFlight: Option<RoundId>,
                     waiters: multiset<RoundId>, uploads: seq<Id>)

  datatype Event =
    | Add(id: Id)
    | Call(todo: seq<Id>)
    | Resume(awaited: RoundId, todo: seq<Id>)
    | Offer(r: RoundId, accepted: bool)
    | Finish(r: RoundId)

  const START: Sys := Sys({}, map[], 0, None, multiset{}, [])

  /** What a round that starts now may take: documents that are waiting, each once. */
  ghost predicate Takes(s: Sys, todo: seq<Id>) {
    Distinct(todo) && forall i :: 0 <= i < |todo| ==> todo[i] in s.waiting
  }

  ghost predicate Enabled(s: Sys, e: Event) {
    match e
    case Add(id) => id !in s.waiting && id !in s.uploads
    case Call(todo) => Takes(s, todo)
    case Resume(awaited, todo) => awaited in s.waiters && awaited !in s.rounds && Takes(s, todo)
    case Offer(r, accepted) => r in s.rounds && s.rounds[r].todo != []
    case Finish(r) => r in s.rounds && s.rounds[r].todo == []
  }

  ghost function Next(s: Sys, e: Event): Sys {
    if !Enabled(s, e) then s
    else match e
      case Add(id) => s.(waiting := s.waiting + {id})
      case Call(todo) =>
        if s.inFlight.Some? then s.(waiters := s.waiters + multiset{s.inFlight.value})
        else s.(rounds := s.rounds[s.started := Round(true, todo)], started := s.started + 1,
                inFlight := Some(s.started))
      case Resume(awaited, todo) =>
        s.(rounds := s.rounds[s.started := Round(false, todo)], started := s.started + 1,
           waiters := s.waiters - multiset{awaited})
      case Offer(r, accepted) =>
        var id := s.rounds[r].todo[0];
        var rounds := s.rounds[r := s.rounds[r].(todo := s.rounds[r].todo[1..])];
        if accepted then s.(rounds := rounds, waiting := s.waiting - {id}, uploads := s.uploads + [id])
        else s.(rounds := rounds, waiting := s.waiting + {id})
      case Finish(r) =>
        s.(rounds := s.rounds - {r}, inFlight := if s.rounds[r].leads then None else s.inFlight)
  }

  ghost function After(s: Sys, es: seq<Event>): Sys
    decreases es
  {
    if es == [] then s else After(Next(s, es[0]), es[1..])
  }

  // ---- rounds that find nothing in flight ----

  ghost predicate Announced(s: Sys) {
    && (forall r :: r in s.rounds ==> r < s.started && (s.rounds[r].leads <==> s.inFlight == Some(r)))
    && (s.inFlight.Some? ==> s.inFlight.value in s.rounds)
  }

  lemma {:induction false} AlwaysAnnounced(s: Sys, es: seq<Event>)
    requires Announced(s)
    ensures Announced(After(s, es))
    decreases es
  {
    if es != [] { AlwaysAnnounced(Next(s, es[0]), es[1..]); }
  }

  /** Rounds started with nothing in flight never overlap each other. */
  lemma {:induction false} LeadersNeverOverlap(es: seq<Event>, r: RoundId, q: RoundId)
    requires r in After(START, es).rounds && q in After(START, es).rounds
    requires After(START, es).rounds[r].leads && After(START, es).rounds[q].leads
    ensures r == q
  {
    AlwaysAnnounced(START, es);
  }

  // ---- which rounds are safe to start ----

  /** No running round still has to offer any of these documents. */
  ghost predicate Clear(s: Sys, todo: seq<Id>) {
    forall r, i, j :: r in s.rounds && 0 <= i < |s.rounds[r].todo| && 0 <= j < |todo| ==> s.rounds[r].todo[i] != todo[j]
  }

  /** Running rounds share nothing they still have to offer, and what was uploaded was uploaded once and waits no
      more. */
  ghost predicate Disjoint(s: Sys) {
    && (forall r :: r in s.rounds ==> r < s.started && Takes(s, s.rounds[r].todo))
    && (forall q, r, i, j ::
          q in s.rounds && r in s.rounds && q != r && 0 <= i < |s.rounds[q].todo| && 0 <= j < |s.rounds[r].todo| ==>
          s.rounds[q].todo[i] != s.rounds[r].todo[j])
    && Distinct(s.uploads) && (forall id :: id in s.uploads ==> id !in s.waiting)
  }

  lemma {:induction false} OfferKeepsTodos(s: Sys, r: RoundId, accepted: bool)
    requires Disjoint(s) && Enabled(s, Offer(r, accepted))
    ensures var t := Next(s, Offer(r, accepted)); forall q :: q in t.rounds ==> Takes(t, t.rounds[q].todo)
  {
    var t := Next(s, Offer(r, accepted));
    var todo := s.rounds[r].todo;
    forall q | q in t.rounds ensures Takes(t, t.rounds[q].todo) {
      var left := t.rounds[q].todo;
      if q == r {
        assert forall k :: 0 <= k < |left| ==> left[k] == todo[k + 1] && left[k] != todo[0];
      } else {
        assert forall k :: 0 <= k < |left| ==> left[k] != todo[0];
      }
    }
  }

  lemma {:induction false} OfferKeepsDisjoint(s: Sys, r: RoundId, accepted: bool)
    requires Disjoint(s) && Enabled(s, Offer(r, accepted))
    ensures Disjoint(Next(s, Offer(r, accepted)))
  {
    OfferKeepsTodos(s, r, accepted);
    var todo := s.rounds[r].todo;
    assert forall k :: 0 <= k < |todo[1..]| ==> todo[1..][k] == todo[k + 1];
    assert todo[0] in s.waiting;
  }

  /** The documents a round takes when it starts. */
  ghost function Starts(s: Sys, e: Event): Option<seq<Id>> {
    if Enabled(s, e) && ((e.Call? && s.inFlight.None?) || e.Resume?) then Some(e.todo) else None
  }

  lemma {:induction false} StartKeepsDisjoint(s: Sys, e: Event)
    requires Disjoint(s) && Starts(s, e).Some? && Clear(s, e.todo)
    ensures Disjoint(Next(s, e))
  {}

  lemma {:induction false} StepKeepsDisjoint(s: Sys, e: Event)
    requires Disjoint(s) && (Starts(s, e).Some? ==> Clear(s, e.todo))
    ensures Disjoint(Next(s, e))
  {
    if Starts(s, e).Some? {
      StartKeepsDisjoint(s, e);
    } else if Enabled(s, e) && e.Offer? {
      OfferKeepsDisjoint(s, e.r, e.accepted);
    }
  }

  /** Every round of this run starts clear of those then running. */
  ghost predicate AllClear(s: Sys, es: seq<Event>)
    decreases es
  {
    es == [] || ((Starts(s, es[0]).Some? ==> Clear(s, es[0].todo)) && AllClear(Next(s, es[0]), es[1..]))
  }

  lemma {:induction false} AlwaysDisjoint(s: Sys, es: seq<Event>)
    requires Disjoint(s) && AllClear(s, es)
    ensures Disjoint(After(s, es))
    decreases es
  {
    if es != [] {
      StepKeepsDisjoint(s, es[0]);
      AlwaysDisjoint(Next(s, es[0]), es[1..]);
    }
  }

  /** While every round starts clear of the others each document is uploaded at most once, and what was uploaded never
      waits again. */
  lemma {:induction false} UploadedOnceIfAllClear(es: seq<Event>)
    requires AllClear(START, es)
    ensures Distinct(After(START, es).uploads) && forall id :: id in After(START, es).uploads ==>
            id !in After(START, es).waiting
  {
    AlwaysDisjoint(START, es);
  }

  // ---- and only those ----

  ghost predicate OnlyOffers(es: seq<Event>) { forall k :: 0 <= k < |es| ==> es[k].Offer? }

  lemma {:induction false} OffersAreClear(s: Sys, es: seq<Event>)
    requires OnlyOffers(es)
    ensures AllClear(s, es)
    decreases es
  {
    if es != [] {
      assert es[0].Offer?;
      assert forall k :: 0 <= k < |es[1..]| ==> es[1..][k] == es[k + 1];
      OffersAreClear(Next(s, es[0]), es[1..]);
    }
  }

  /** Round `r` uploads the next `n` of its documents. */
  lemma {:induction false} UploadNext(s: Sys, r: RoundId, n: nat) returns (es: seq<Event>)
    requires r in s.rounds && n <= |s.rounds[r].todo|
    ensures OnlyOffers(es) && After(s, es).uploads == s.uploads + s.rounds[r].todo[..n]
    ensures forall q :: q in s.rounds && q != r ==> q in After(s, es).rounds && After(s, es).rounds[q] == s.rounds[q]
    decreases n
  {
    if n == 0 { return []; }
    var t := Next(s, Offer(r, true));
    var todo := s.rounds[r].todo;
    assert t.rounds[r].todo == todo[1..] && t.uploads == s.uploads + [todo[0]];
    var rest := UploadNext(t, r, n - 1);
    es := [Offer(r, true)] + rest;
    assert es[1..] == rest && es[0] == Offer(r, true);
    assert [todo[0]] + todo[1..][..n - 1] == todo[..n];
    assert forall q :: q in s.rounds && q != r ==> q in t.rounds && t.rounds[q] == s.rounds[q];
  }

  /** Two running rounds that both have to offer the same document can both upload it. */
  lemma {:induction false} SharedUploadsTwice(s: Sys, q: RoundId, r: RoundId, i: nat, j: nat) returns (es: seq<Event>)
    requires q in s.rounds && r in s.rounds && q != r && i < |s.rounds[q].todo| && j < |s.rounds[r].todo|
    requires s.rounds[q].todo[i] == s.rounds[r].todo[j]
    ensures OnlyOffers(es) && !Distinct(After(s, es).uploads)
  {
    var a := UploadNext(s, q, i + 1);
    var t := After(s, a);
    var b := UploadNext(t, r, j + 1);
    es := a + b;
    AfterAppend(s, a, b);
    var n := |s.uploads|;
    var all := After(s, es).uploads;
    assert all == s.uploads + s.rounds[q].todo[..i + 1] + s.rounds[r].todo[..j + 1];
    assert all[n + i] == s.rounds[q].todo[i] && all[n + i + 1 + j] == s.rounds[r].todo[j];
  }

  /** Which starts are safe, a waiting call's as any other: as long as rounds were clear of each other, starting one
      more cannot lead to a double upload exactly when no running round still has to offer one of its documents. */
  lemma {:induction false} StartIsSafeIff(s: Sys, e: Event)
    requires Disjoint(s) && Starts(s, e).Some?
    ensures Clear(s, e.todo) <==> forall es :: OnlyOffers(es) ==> Distinct(After(Next(s, e), es).uploads)
  {
    var t := Next(s, e);
    if Clear(s, e.todo) {
      StartKeepsDisjoint(s, e);
      forall es | OnlyOffers(es) ensures Distinct(After(t, es).uploads) {
        OffersAreClear(t, es);
        AlwaysDisjoint(t, es);
      }
    } else {
      var r, i, j :| r in s.rounds && 0 <= i < |s.rounds[r].todo| && 0 <= j < |e.todo|
          && s.rounds[r].todo[i] == e.todo[j];
      assert s.started !in s.rounds && t.rounds[s.started].todo == e.todo && t.rounds[r] == s.rounds[r];
      var es := SharedUploadsTwice(t, r, s.started, i, j);
      assert !Distinct(After(t, es).uploads);
    }
  }

  // ---- without waiting callers ----

  /** No call of this run finds a round in flight. */
  ghost predicate NobodyWaits(s: Sys, es: seq<Event>)
    decreases es
  {
    es == [] || ((es[0].Call? ==> s.inFlight.None?) && NobodyWaits(Next(s, es[0]), es[1..]))
  }

  ghost predicate OneRound(s: Sys) {
    Announced(s) && s.waiters == multiset{} && forall r :: r in s.rounds ==> s.rounds[r].leads
  }

  lemma {:induction false} AlwaysOneRound(s: Sys, es: seq<Event>)
    requires OneRound(s) && NobodyWaits(s, es)
    ensures OneRound(After(s, es)) && AllClear(s, es)
    decreases es
  {
    if es != [] {
      if Starts(s, es[0]).Some? { assert forall r :: r !in s.rounds; }
      AlwaysOneRound(Next(s, es[0]), es[1..]);
    }
  }

  /** As long as no call has to wait, at most one round runs at any time and each document is uploaded at most once. */
  lemma {:induction false} UploadedOnceIfNobodyWaits(es: seq<Event>, r: RoundId, q: RoundId)
    requires NobodyWaits(START, es)
    ensures Distinct(After(START, es).uploads)
    ensures r in After(START, es).rounds && q in After(START, es).rounds ==> r == q
  {
    AlwaysOneRound(START, es);
    UploadedOnceIfAllClear(es);
  }

  // ---- with them ----

  /** A document is added, which starts a round at once; two more calls find it in flight. */
  lemma {:induction false} TwoWait(d: Id)
    ensures After(START, [Add(d), Call([d]), Call([]), Call([])])
            == Sys({d}, map[0 := Round(true, [d])], 1, Some(0), multiset{0, 0}, [])
  {
    var es := [Add(d), Call([d]), Call([]), Call([])];
    Unfold(START, es);
    var s := Next(Next(START, es[0]), es[1]);
    assert s == Sys({d}, map[0 := Round(true, [d])], 1, Some(0), multiset{}, []);
    var t := Next(Next(s, es[2]), es[3]);
    assert After(Next(s, es[2]), es[3..]) == After(t, es[3..][1..]);
  }

  /** The round fails to upload it and ends; the first waiter goes on. */
  lemma {:induction false} FirstResumes(d: Id)
    ensures After(Sys({d}, map[0 := Round(true, [d])], 1, Some(0), multiset{0, 0}, []),
            [Offer(0, false), Finish(0), Resume(0, [d])])
            == Sys({d}, map[1 := Round(false, [d])], 2, None, multiset{0}, [])
  {
    var s := Sys({d}, map[0 := Round(true, [d])], 1, Some(0), multiset{0, 0}, []);
    var es := [Offer(0, false), Finish(0), Resume(0, [d])];
    Unfold(s, es);
    assert [d][1..] == [];
    var t := Next(s, es[0]);
    assert t == Sys({d}, map[0 := Round(true, [])], 1, Some(0), multiset{0, 0}, []);
    assert Next(t, es[1]) == Sys({d}, map[], 1, None, multiset{0, 0}, []);
    assert es[3..] == [];
  }

  /** The second waiter resumes as well; both take the document, and the first uploads it. */
  lemma {:induction false} SecondResumes(d: Id)
    ensures After(Sys({d}, map[1 := Round(false, [d])], 2, None, multiset{0}, []),
            [Resume(0, [d]), Offer(1, true), Finish(1)])
            == Sys({}, map[2 := Round(false, [d])], 3, None, multiset{}, [d])
  {
    var s, es := Sys({d}, map[1 := Round(false, [d])], 2, None, multiset{0}, []),
        [Resume(0, [d]), Offer(1, true), Finish(1)];
    Unfold(s, es);
    var t := Next(s, es[0]);
    assert t == Sys({d}, map[1 := Round(false, [d]), 2 := Round(false, [d])], 3, None, multiset{}, []);
    var u := Next(t, es[1]);
    assert [d][1..] == [];
    assert u == Sys({}, map[1 := Round(false, []), 2 := Round(false, [d])], 3, None, multiset{}, [d]);
    assert Next(u, es[2]) == Sys({}, map[2 := Round(false, [d])], 3, None, multiset{}, [d]);
    assert es[3..] == [];
  }

  lemma {:induction false} SecondOffers(d: Id, accepted: bool)
    ensures After(Sys({}, map[2 := Round(false, [d])], 3, None, multiset{}, [d]), [Offer(2, accepted), Finish(2)])
            == Sys(if accepted then {} else {d}, map[], 3, None, multiset{}, if accepted then [d, d] else [d])
  {
    var s, es := Sys({}, map[2 := Round(false, [d])], 3, None, multiset{}, [d]), [Offer(2, accepted), Finish(2)];
    var t := Next(s, es[0]);
    assert [d][1..] == [] && [d] + [d] == [d, d];
    assert t == Sys(if accepted then {} else {d}, map[2 := Round(false, [])], 3, None, multiset{}, if accepted
        then [d, d] else [d]);
    assert Next(t, es[1]) == t.(rounds := map[]);
    assert After(s, es) == After(t, es[1..]) == After(Next(t, es[1]), es[1..][1..]);
  }

  lemma {:induction false} AfterAppend(s: Sys, es: seq<Event>, fs: seq<Event>)
    ensures After(s, es + fs) == After(After(s, es), fs)
    decreases es
  {
    if es == [] {
      assert es + fs == fs;
    } else {
      assert (es + fs)[1..] == es[1..] + fs;
      AfterAppend(Next(s, es[0]), es[1..], fs);
    }
  }

  /** Two calls that waited for the same round take the same document at the same time. If the server accepts it twice
      it is uploaded twice; if the second upload fails, the document waits again although it was uploaded. */
  lemma {:induction false} WaitersCollide(d: Id, accepted: bool) returns (es: seq<Event>)
    ensures After(START, es).uploads == if accepted then [d, d] else [d]
    ensures After(START, es).waiting == (if accepted then {} else {d}) && After(START, es).rounds == map[]
  {
    var a, b := [Add(d), Call([d]), Call([]), Call([])], [Offer(0, false), Finish(0), Resume(0, [d])];
    var c, e := [Resume(0, [d]), Offer(1, true), Finish(1)], [Offer(2, accepted), Finish(2)];
    es := a + b + c + e;
    AfterAppend(START, a + b + c, e);
    AfterAppend(START, a + b, c);
    AfterAppend(START, a, b);
    TwoWait(d);
    FirstResumes(d);
    SecondResumes(d);
    SecondOffers(d, accepted);
  }

  lemma {:induction false} Unfold(s: Sys, es: seq<Event>)
    requires |es| >= 3
    ensures After(s, es) == After(Next(Next(Next(s, es[0]), es[1]), es[2]), es[3..])
  {
    var t := Next(s, es[0]);
    assert After(s, es) == After(t, es[1..]);
    var u := Next(t, es[1]);
    assert After(t, es[1..]) == After(u, es[2..]) by { assert es[1..][1..] == es[2..]; }
    assert After(u, es[2..]) == After(Next(u, es[2]), es[3..]) by { assert es[2..][1..] == es[3..]; }
  }
}
