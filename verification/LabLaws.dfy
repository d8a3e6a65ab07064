/** What holds of the laboratory over every sequence of create, enter, verify and case-update calls. */
module LabLaws {
  import opened Prelude
  import opened Sorting
  import opened LabRules
  import opened LabService

  datatype Event =
    | Create(id: string, unitCode: string, collectedAt: int)
    | Enter(id: string, items: seq<Item>, inScope: bool)
    | Verify(key: Key, decision: Decision, who: string, inScope: bool)
    | UpdateCase(k: nat, u: OosUpdate, inScope: bool)
    | AddSpec(row: Spec)

  ghost function Next(l: Lab, e: Event): Lab {
    match e
    case Create(id, unitCode, at) => if id in l.samples then l
      else l.(samples := l.samples[id := Sample(unitCode, at, Collected)])
    case Enter(id, items, inScope) => AfterEntry(l, id, items, inScope)
    case Verify(key, decision, who, inScope) => AfterVerify(l, key, decision, who, inScope)
    case UpdateCase(k, u, inScope) => AfterOosUpdate(l, k, u, inScope)
    case AddSpec(row) => l.(specs := l.specs + [row])
  }

  ghost function After(l: Lab, es: seq<Event>): Lab
    decreases es
  {
    if es == [] then l else After(Next(l, es[0]), es[1..])
  }

  ghost predicate Empty(l: Lab) { l.samples == map[] && l.results == map[] && l.cases == [] }

  // ---- cases ----

  ghost predicate OneOpenCase(cases: seq<Case>) {
    forall j, k :: 0 <= j < k < |cases| && cases[j].key == cases[k].key ==>
        !(IsOpen(cases[j].status) && IsOpen(cases[k].status))
  }

  ghost predicate ClosedIsDocumented(cases: seq<Case>) {
    forall k :: 0 <= k < |cases| && cases[k].status == CaseClosed ==> Given(cases[k].rootCause) && Given(cases[k].capa)
  }

  ghost predicate HasCase(cases: seq<Case>, key: Key) { exists k :: 0 <= k < |cases| && cases[k].key == key }

  ghost predicate FlaggedHaveCases(l: Lab) {
    forall key :: key in l.results && l.results[key].flagged ==> HasCase(l.cases, key)
  }

  ghost predicate CasesSound(l: Lab) { OneOpenCase(l.cases) && ClosedIsDocumented(l.cases) && FlaggedHaveCases(l) }

  ghost predicate VerifiedIsComplete(l: Lab) {
    && (forall key :: key in l.results ==> key.sample in l.samples)
    && (forall key :: key in l.results && l.samples[key.sample].status == Verified ==> l.results[key].verifiedBy.Some?)
  }

  lemma {:induction false} WithCaseKeeps(cases: seq<Case>, key: Key, severity: Severity)
    requires OneOpenCase(cases) && ClosedIsDocumented(cases)
    ensures OneOpenCase(WithCase(cases, key, severity)) && ClosedIsDocumented(WithCase(cases, key, severity))
    ensures HasCase(WithCase(cases, key, severity), key)
    ensures forall other :: HasCase(cases, other) ==> HasCase(WithCase(cases, key, severity), other)
  {
    var r := WithCase(cases, key, severity);
    match FirstOpen(cases, key)
    case None => assert r[|cases|].key == key; HasCaseStays(cases, r);
    case Some(k) => assert r[k].key == key; HasCaseStays(cases, r);
  }

  lemma {:induction false} HasCaseStays(cases: seq<Case>, more: seq<Case>)
    requires |cases| <= |more| && forall k :: 0 <= k < |cases| ==> more[k].key == cases[k].key
    ensures forall key :: HasCase(cases, key) ==> HasCase(more, key)
  {
    forall key | HasCase(cases, key) ensures HasCase(more, key) {
      var k :| 0 <= k < |cases| && cases[k].key == key;
      assert more[k].key == key;
    }
  }

  lemma {:induction false} EnteredKeeps(l: Lab, id: string, i: Item)
    requires id in l.samples && CasesSound(l)
    ensures CasesSound(Entered(l, id, i))
  {
    var key := Key(id, i.parameter);
    var verdict := EvaluateSpec(i.value, SpecFor(l.specs, l.samples[id], i.parameter));
    if verdict.Out? { WithCaseKeeps(l.cases, key, SeverityFor(verdict, false)); }
  }

  lemma {:induction false} EnteredAllKeeps(l: Lab, id: string, items: seq<Item>)
    requires id in l.samples && CasesSound(l)
    ensures CasesSound(EnteredAll(l, id, items))
    decreases items
  {
    if items != [] {
      EnteredKeeps(l, id, items[0]);
      EnteredAllKeeps(Entered(l, id, items[0]), id, items[1..]);
    }
  }

  lemma {:induction false} EnteredAllTouchesOnly(l: Lab, id: string, items: seq<Item>, key: Key)
    requires id in l.samples
    ensures key.sample != id ==> (key in EnteredAll(l, id, items).results <==> key in l.results)
    ensures key.sample != id && key in l.results ==> EnteredAll(l, id, items).results[key] == l.results[key]
    decreases items
  {
    if items != [] { EnteredAllTouchesOnly(Entered(l, id, items[0]), id, items[1..], key); }
  }

  lemma {:induction false} EntryKeepsComplete(l: Lab, id: string, items: seq<Item>, inScope: bool)
    requires VerifiedIsComplete(l)
    ensures VerifiedIsComplete(AfterEntry(l, id, items, inScope))
  {
    if MayEnter(l, id, items, inScope) {
      var r := AfterEntry(l, id, items, inScope);
      forall key | key in r.results
        ensures key.sample in r.samples
        ensures (r.samples[key.sample].status == Verified ==> r.results[key].verifiedBy.Some?)
      {
        EnteredAllTouchesOnly(l, id, items, key);
      }
    }
  }

  lemma {:induction false} EmptySet<T>(s: set<T>)
    requires |s| == 0
    ensures s == {}
  {}

  lemma {:induction false} VerifyKeepsComplete(l: Lab, key: Key, decision: Decision, who: string, inScope: bool)
    requires VerifiedIsComplete(l)
    ensures VerifiedIsComplete(AfterVerify(l, key, decision, who, inScope))
  {
    if MayVerify(l, key, decision, inScope) {
      var r := AfterVerify(l, key, decision, who, inScope);
      if r.samples[key.sample].status == Verified {
        EmptySet(Unverified(r.results, key.sample));
        forall other | other in r.results && other.sample == key.sample ensures r.results[other].verifiedBy.Some? {
          assert other !in Unverified(r.results, key.sample);
        }
      }
    }
  }

  lemma {:induction false} CaseUpdateKeeps(cases: seq<Case>, k: nat, u: OosUpdate)
    requires OneOpenCase(cases) && ClosedIsDocumented(cases) && k < |cases| && MayUpdate(cases[k], u)
    ensures var r := cases[k := UpdatedCase(cases[k], u)]; OneOpenCase(r) && ClosedIsDocumented(r)
  {
    var c, d := cases[k], UpdatedCase(cases[k], u);
    assert !IsOpen(c.status) ==> OosNext(c.status) == [];
    assert IsOpen(d.status) ==> IsOpen(c.status);
  }

  lemma {:induction false} NextKeepsCases(l: Lab, e: Event)
    requires CasesSound(l)
    ensures CasesSound(Next(l, e))
  {
    match e
    case Enter(id, items, inScope) => if MayEnter(l, id, items, inScope) { EnteredAllKeeps(l, id, items); }
    case UpdateCase(k, u, inScope) =>
      if k < |l.cases| && inScope && MayUpdate(l.cases[k], u) {
        CaseUpdateKeeps(l.cases, k, u);
        HasCaseStays(l.cases, Next(l, e).cases);
      }
    case _ =>
  }

  lemma {:induction false} NextKeepsComplete(l: Lab, e: Event)
    requires VerifiedIsComplete(l)
    ensures VerifiedIsComplete(Next(l, e))
  {
    match e
    case Enter(id, items, inScope) => EntryKeepsComplete(l, id, items, inScope);
    case Verify(key, decision, who, inScope) => VerifyKeepsComplete(l, key, decision, who, inScope);
    case _ =>
  }

  lemma {:induction false} AlwaysSound(l: Lab, es: seq<Event>)
    requires CasesSound(l) && VerifiedIsComplete(l)
    ensures CasesSound(After(l, es)) && VerifiedIsComplete(After(l, es))
    decreases es
  {
    if es != [] {
      NextKeepsCases(l, es[0]);
      NextKeepsComplete(l, es[0]);
      AlwaysSound(Next(l, es[0]), es[1..]);
    }
  }

  // ---- certificates ----

  /** Whatever happened before: when a certificate issues, every result is verified and every case of a flagged result
      (there is one) is rejected, or closed with root cause and corrective action in writing. */
  lemma {:induction false} CertificateGate(start: Lab, es: seq<Event>, id: string, inScope: bool)
    requires Empty(start) && Issues(After(start, es), id, inScope)
    ensures forall key :: key in After(start, es).results && key.sample == id ==>
            After(start, es).results[key].verifiedBy.Some?
    ensures var l := After(start, es);
            forall key :: key in l.results && key.sample == id && l.results[key].flagged ==> HasCase(l.cases, key)
    ensures forall k :: 0 <= k < |After(start, es).cases| && After(start, es).cases[k].key.sample == id ==>
              var c := After(start, es).cases[k];
              c.status == CaseRejected || (c.status == CaseClosed && Given(c.rootCause) && Given(c.capa))
  {
    AlwaysSound(start, es);
    var l := After(start, es);
    EmptySet(OpenCases(l.cases, id));
    forall k | 0 <= k < |l.cases| && l.cases[k].key.sample == id ensures !IsOpen(l.cases[k].status) {
      assert k !in OpenCases(l.cases, id);
    }
  }

  /** And the certificate prints every result of the sample. */
  lemma {:induction false} CertificateIsComplete(l: Lab, listing: seq<Key>)
    requires forall j :: 0 <= j < |listing| ==> IsVerified(l, listing[j])
    ensures |Printed(l, listing)| == |listing|
    ensures forall j :: 0 <= j < |listing| ==>
            IsVerified(l, listing[j]) && Printed(l, listing)[j] == PrintedRow(l, listing[j])
  {
    if listing != [] {
      assert forall j :: 0 <= j < |listing[1..]| ==> listing[1..][j] == listing[j + 1];
      CertificateIsComplete(l, listing[1..]);
    }
  }

  // ---- the specification in force ----

  lemma {:induction false} ApplicableMembers(specs: seq<Spec>, sample: Sample)
    ensures forall r :: r in Applicable(specs, sample) <==> r in specs && Applies(r, sample)
  {
    if specs != [] {
      ApplicableMembers(specs[1..], sample);
      assert forall r :: r in specs <==> r == specs[0] || r in specs[1..];
    }
  }

  lemma {:induction false} FirstForAt(rows: seq<Spec>, p: string) returns (k: nat)
    ensures k <= |rows| && forall j :: 0 <= j < k ==> rows[j].parameter != p
    ensures if k < |rows| then rows[k].parameter == p && FirstFor(rows, p) == Some(rows[k].bounds)
            else FirstFor(rows, p) == None
  {
    if rows == [] || rows[0].parameter == p { return 0; }
    var rest := FirstForAt(rows[1..], p);
    assert forall j :: 0 < j <= rest ==> rows[1..][j - 1] == rows[j];
    return rest + 1;
  }

  /** `row` is a newest one among the specifications that apply to the parameter of this sample. */
  ghost predicate Newest(specs: seq<Spec>, sample: Sample, p: string, row: Spec) {
    && row in specs && Applies(row, sample) && row.parameter == p
    && forall r :: r in specs && Applies(r, sample) && r.parameter == p ==> r.effectiveFrom <= row.effectiveFrom
  }

  lemma {:induction false} NewestFirstOrder()
    ensures TotalPreorder(NewestFirst)
  {}

  lemma {:induction false} SortedApplicable(specs: seq<Spec>, sample: Sample) returns (sorted: seq<Spec>)
    ensures sorted == Sort(Applicable(specs, sample), NewestFirst) && Ascending(sorted, NewestFirst)
    ensures forall r :: r in sorted <==> r in specs && Applies(r, sample)
  {
    var rows := Applicable(specs, sample);
    sorted := Sort(rows, NewestFirst);
    ApplicableMembers(specs, sample);
    SortPermutes(rows, NewestFirst);
    NewestFirstOrder();
    SortAscends(rows, NewestFirst);
    forall r ensures r in sorted <==> r in rows { assert r in multiset(sorted) <==> r in multiset(rows); }
  }

  /** The bounds used are those of a newest specification not after collection; there are none exactly when none
      applies. */
  lemma {:induction false} SpecIsNewest(specs: seq<Spec>, sample: Sample, p: string)
    ensures SpecFor(specs, sample, p).Some? ==>
              exists row :: Newest(specs, sample, p, row) && row.bounds == SpecFor(specs, sample, p).value
    ensures SpecFor(specs, sample, p).None? <==> forall r :: r in specs && Applies(r, sample) ==> r.parameter != p
  {
    var sorted := SortedApplicable(specs, sample);
    var k := FirstForAt(sorted, p);
    if k < |sorted| {
      assert sorted[k] in sorted;
      forall r | r in sorted && r.parameter == p ensures r.effectiveFrom <= sorted[k].effectiveFrom {
        var j :| 0 <= j < |sorted| && sorted[j] == r;
        assert j > k ==> NewestFirst(sorted[k], sorted[j]);
      }
      assert Newest(specs, sample, p, sorted[k]);
    }
  }

  lemma {:induction false} LateSpecIsIgnored(specs: seq<Spec>, row: Spec, sample: Sample)
    requires !Applies(row, sample)
    ensures Applicable(specs + [row], sample) == Applicable(specs, sample)
  {
    if specs == [] {
      assert [row][1..] == [];
    } else {
      assert (specs + [row])[1..] == specs[1..] + [row];
      LateSpecIsIgnored(specs[1..], row, sample);
    }
  }

  lemma {:induction false} StatusDoesNotMatter(specs: seq<Spec>, sample: Sample, s: SampleStatus)
    ensures Applicable(specs, sample.(status := s)) == Applicable(specs, sample)
  {
    if specs != [] { StatusDoesNotMatter(specs[1..], sample, s); }
  }

  // ---- printed and recorded verdicts ----

  /** A result recorded within specification is, as stored, within the specification in force. */
  ghost predicate Agrees(l: Lab, key: Key) {
    key in l.results && key.sample in l.samples && !l.results[key].flagged ==>
      EvaluateSpec(l.results[key].value as real, SpecFor(l.specs, l.samples[key.sample], key.parameter)) == InSpec
  }

  ghost predicate SampleAgrees(l: Lab, id: string) { forall key: Key :: key.sample == id ==> Agrees(l, key) }

  /** In this run, specifications added while the sample exists take effect after its collection. */
  ghost predicate SpecsComeLate(l: Lab, es: seq<Event>, id: string)
    decreases es
  {
    es == [] || (&& (es[0].AddSpec? && id in l.samples ==> es[0].row.effectiveFrom > l.samples[id].collectedAt)
                 && SpecsComeLate(Next(l, es[0]), es[1..], id))
  }

  lemma {:induction false} EnteredAgrees(l: Lab, id: string, other: string, i: Item)
    requires other in l.samples && SampleAgrees(l, id)
    ensures SampleAgrees(Entered(l, other, i), id)
  {
    var r := Entered(l, other, i);
    var spec := SpecFor(l.specs, l.samples[other], i.parameter);
    if EvaluateSpec(i.value, spec) == InSpec { RoundingKeepsInSpec(i.value, spec); }
    forall key: Key | key.sample == id ensures Agrees(r, key) {
      assert Agrees(l, key);
    }
  }

  lemma {:induction false} EnteredAllAgrees(l: Lab, id: string, other: string, items: seq<Item>)
    requires other in l.samples && SampleAgrees(l, id)
    ensures SampleAgrees(EnteredAll(l, other, items), id)
    decreases items
  {
    if items != [] {
      EnteredAgrees(l, id, other, items[0]);
      EnteredAllAgrees(Entered(l, other, items[0]), id, other, items[1..]);
    }
  }

  /** Neither new statuses nor stamps nor specifications that apply to other samples matter to what a sample's results
      say. */
  lemma {:induction false} AgreesStays(l: Lab, m: Lab, id: string)
    requires SampleAgrees(l, id)
    requires id in m.samples ==> id in l.samples && exists s :: m.samples[id] == l.samples[id].(status := s)
    requires id in m.samples ==> Applicable(m.specs, m.samples[id]) == Applicable(l.specs, l.samples[id])
    requires forall key :: key in m.results && key.sample == id ==>
               key in l.results && m.results[key].value == l.results[key].value
                   && m.results[key].flagged == l.results[key].flagged
    ensures SampleAgrees(m, id)
  {
    forall key: Key | key.sample == id ensures Agrees(m, key) { assert Agrees(l, key); }
  }

  lemma {:induction false} WithStatusAgrees(l: Lab, other: string, s: SampleStatus, id: string)
    requires other in l.samples && SampleAgrees(l, id)
    ensures SampleAgrees(WithStatus(l, other, s), id)
  {
    if other == id { StatusDoesNotMatter(l.specs, l.samples[id], s); }
    if id in l.samples { assert l.samples[id] == l.samples[id].(status := l.samples[id].status); }
    AgreesStays(l, WithStatus(l, other, s), id);
  }

  lemma {:induction false} NextAgrees(l: Lab, e: Event, id: string)
    requires SampleAgrees(l, id) && VerifiedIsComplete(l)
    requires e.AddSpec? && id in l.samples ==> e.row.effectiveFrom > l.samples[id].collectedAt
    ensures SampleAgrees(Next(l, e), id)
  {
    match e
    case Create(other, unitCode, at) =>
    case Enter(other, items, inScope) =>
      if MayEnter(l, other, items, inScope) {
        EnteredAllAgrees(l, id, other, items);
        WithStatusAgrees(EnteredAll(l, other, items), other, Resulted, id);
      }
    case Verify(key, decision, who, inScope) =>
      if MayVerify(l, key, decision, inScope) {
        var finding := l.results[key].(verifiedBy := Some(who), decision := Some(decision));
        var stamped := l.(results := l.results[key := finding]);
        if id in l.samples { assert l.samples[id] == l.samples[id].(status := l.samples[id].status); }
        AgreesStays(l, stamped, id);
        WithStatusAgrees(stamped, key.sample, Next(l, e).samples[key.sample].status, id);
      }
    case UpdateCase(k, u, inScope) =>
    case AddSpec(row) =>
      if id in l.samples {
        LateSpecIsIgnored(l.specs, row, l.samples[id]);
        assert l.samples[id] == l.samples[id].(status := l.samples[id].status);
      }
      AgreesStays(l, Next(l, e), id);
  }

  lemma {:induction false} AlwaysAgrees(l: Lab, es: seq<Event>, id: string)
    requires SampleAgrees(l, id) && VerifiedIsComplete(l) && SpecsComeLate(l, es, id)
    ensures SampleAgrees(After(l, es), id)
    decreases es
  {
    if es != [] {
      NextAgrees(l, es[0], id);
      NextKeepsComplete(l, es[0]);
      AlwaysAgrees(Next(l, es[0]), es[1..], id);
    }
  }

  /** Printed verdict equals recorded verdict, for every value whatever its decimals, as long as no specification is
      back-dated. */
  lemma {:induction false} PrintedEqualsRecorded(start: Lab, es: seq<Event>, key: Key)
    requires Empty(start) && SpecsComeLate(start, es, key.sample)
    requires key in After(start, es).results && key.sample in After(start, es).samples
    ensures PrintedRow(After(start, es), key).pass <==> !After(start, es).results[key].flagged
  {
    AlwaysAgrees(start, es, key.sample);
    assert Agrees(After(start, es), key);
  }

  // ---- rejected results ----

  /** A rejected sample stays REJECTED whatever is tried, no re-entry, no verification, no way back, exactly when none
      of its results is still open. */
  lemma {:induction false} RejectedForGoodIff(l: Lab, id: string)
    requires id in l.samples && l.samples[id].status == Rejected
    ensures Unverified(l.results, id) == {} <==>
            forall es :: id in After(l, es).samples && After(l, es).samples[id].status == Rejected
  {
    if Unverified(l.results, id) == {} {
      forall es ensures id in After(l, es).samples && After(l, es).samples[id].status == Rejected {
        RejectedStays(l, es, id);
      }
    } else {
      var es := OpenResultFrees(l, id);
      assert After(l, es).samples[id].status != Rejected;
    }
  }

  lemma {:induction false} OpenResultFrees(l: Lab, id: string) returns (es: seq<Event>)
    requires id in l.samples && Unverified(l.results, id) != {}
    ensures id in After(l, es).samples && After(l, es).samples[id].status != Rejected
  {
    var key :| key in Unverified(l.results, id);
    var m := AfterVerify(l, key, Accept, "u", true);
    es := [Verify(key, Accept, "u", true)];
    assert Next(l, es[0]) == m;
    assert After(l, es) == After(m, es[1..]) == m;
  }

  lemma {:induction false} RejectedStays(l: Lab, es: seq<Event>, id: string)
    requires id in l.samples && l.samples[id].status == Rejected && Unverified(l.results, id) == {}
    ensures id in After(l, es).samples && After(l, es).samples[id].status == Rejected
    ensures Unverified(After(l, es).results, id) == {}
    decreases es
  {
    if es != [] {
      RejectedStep(l, es[0], id);
      RejectedStays(Next(l, es[0]), es[1..], id);
    }
  }

  /** It happens to a sample with one result that is entered and refused. */
  lemma {:induction false} RejectedForGoodHappens(start: Lab, id: string, unitCode: string, i: Item, es: seq<Event>)
    requires Empty(start) && Writable(start, i)
    ensures var key := Key(id, i.parameter);
            var l := After(start, [Create(id, unitCode, 0), Enter(id, [i], true), Verify(key, Refuse, "u", true)]);
            id in After(l, es).samples && After(l, es).samples[id].status == Rejected
  {
    var key, calls := Key(id, i.parameter),
        [Create(id, unitCode, 0), Enter(id, [i], true), Verify(Key(id, i.parameter), Refuse, "u", true)];
    ThreeEvents(start, calls);
    var l1 := Next(start, calls[0]);
    assert EnteredAll(l1, id, [i]) == EnteredAll(Entered(l1, id, i), id, [i][1..]) == Entered(l1, id, i);
    var l2 := Next(l1, calls[1]);
    assert l2.results.Keys == {key};
    RejectedStays(Next(l2, calls[2]), es, id);
  }

  lemma {:induction false} ThreeEvents(l: Lab, es: seq<Event>)
    requires |es| == 3
    ensures After(l, es) == Next(Next(Next(l, es[0]), es[1]), es[2])
  {
    var a := Next(l, es[0]);
    assert After(l, es) == After(a, es[1..]);
    var b := Next(a, es[1]);
    assert After(a, es[1..]) == After(b, es[2..]) by { assert es[1..][1..] == es[2..]; }
    assert After(b, es[2..]) == After(Next(b, es[2]), es[3..]) by { assert es[2..][1..] == es[3..]; }
  }

  lemma {:induction false} RejectedStep(l: Lab, e: Event, id: string)
    requires id in l.samples && l.samples[id].status == Rejected && Unverified(l.results, id) == {}
    ensures id in Next(l, e).samples && Next(l, e).samples[id].status == Rejected
    ensures Unverified(Next(l, e).results, id) == {}
  {
    var m := Next(l, e);
    forall key | key in m.results && key.sample == id ensures m.results[key].verifiedBy.Some? {
      if e.Enter? && MayEnter(l, e.id, e.items, e.inScope) { EnteredAllTouchesOnly(l, e.id, e.items, key); }
      if key in l.results { assert key !in Unverified(l.results, id); }
    }
    if e.Verify? && e.key.sample == id && e.key in l.results { assert e.key !in Unverified(l.results, id); }
  }

  /** Verifying the last open result makes the sample VERIFIED, and its certificate then also prints, as verified,
      every result that was rejected: there is one exactly when one of the sample's other results had been rejected. */
  lemma {:induction false} VerifyPublishesRejectedIff(l: Lab, key: Key, who: string)
    requires VerifiedIsComplete(l) && MayVerify(l, key, Accept, true)
    ensures var m := AfterVerify(l, key, Accept, who, true);
            && (m.samples[key.sample].status == Verified <==> Unverified(l.results, key.sample) <= {key})
            && ((exists k :: IsVerified(m, k) && k.sample == key.sample && m.results[k].decision == Some(Refuse)) <==>
                exists k :: k in l.results && k != key && k.sample == key.sample
                            && l.results[k].verifiedBy.Some? && l.results[k].decision == Some(Refuse))
  {
    var m := AfterVerify(l, key, Accept, who, true);
    assert Unverified(m.results, key.sample) == Unverified(l.results, key.sample) - {key};
    if |Unverified(m.results, key.sample)| == 0 { EmptySet(Unverified(m.results, key.sample)); }
    if k :| && k in l.results && k != key && k.sample == key.sample
            && l.results[k].verifiedBy.Some? && l.results[k].decision == Some(Refuse)
    {
      assert IsVerified(m, k) && m.results[k] == l.results[k];
    }
  }

  lemma {:induction false} TwoEntries(l: Lab, id: string, a: Item, b: Item)
    requires id in l.samples
    ensures EnteredAll(l, id, [a, b]) == Entered(Entered(l, id, a), id, b)
  {
    assert [a, b][1..] == [b] && [b][1..] == [];
    var mid := Entered(l, id, a);
    assert EnteredAll(l, id, [a, b]) == EnteredAll(mid, id, [b]);
    assert EnteredAll(mid, id, [b]) == EnteredAll(Entered(mid, id, b), id, []);
  }

  lemma {:induction false} FourEvents(l: Lab, es: seq<Event>)
    requires |es| == 4
    ensures After(l, es) == Next(Next(Next(Next(l, es[0]), es[1]), es[2]), es[3])
  {
    ThreeEvents(Next(l, es[0]), es[1..]);
    assert es[1..][0] == es[1] && es[1..][1] == es[2] && es[1..][2] == es[3];
  }

  /** It happens: of two results one is rejected, the other then verified, and a certificate with both issues. */
  lemma {:induction false} RejectedResultMayBeCertified() returns (start: Lab, es: seq<Event>, key: Key)
    ensures Empty(start) && Issues(After(start, es), key.sample, true)
    ensures IsVerified(After(start, es), key) && After(start, es).results[key].decision == Some(Refuse)
  {
    var a, b := Item("pH", 1.0), Item("N", 1.0);
    var ka, kb := Key("S-1", "pH"), Key("S-1", "N");
    start, key := Lab(map[], map[], [], [], {"pH", "N"}), ka;
    es := [Create("S-1", "UREA", 0), Enter("S-1", [a, b], true), Verify(ka, Refuse, "u", true),
        Verify(kb, Accept, "u", true)];
    FourEvents(start, es);
    var l1 := Next(start, es[0]);
    TwoEntries(l1, "S-1", a, b);
    assert Stored(1.0) == 1;
    var l2 := Next(l1, es[1]);
    assert ka != kb && l2.results == map[ka := Finding(1, false, None, None), kb := Finding(1, false, None, None)];
    assert l2.cases == [] && l2.samples == map["S-1" := Sample("UREA", 0, Resulted)];
    var l4 := Next(Next(l2, es[2]), es[3]);
    assert Unverified(l4.results, "S-1") == {};
    assert ka in VerifiedKeys(l4.results, "S-1");
    assert OpenCases(l4.cases, "S-1") == {};
  }

  // ---- the atomicity that is assumed ----

  /** The first half of a verification: the result is stamped and the status decided from the count, the sample not
      yet updated. */
  function Counted(l: Lab, key: Key, who: string): (Lab, SampleStatus)
    requires key in l.results
  {
    var results := l.results[key := l.results[key].(verifiedBy := Some(who), decision := Some(Accept))];
    (l.(results := results), if |Unverified(results, key.sample)| == 0 then Verified else Resulted)
  }

  lemma {:induction false} LastItemIsOpen(l: Lab, id: string, items: seq<Item>)
    requires id in l.samples && items != []
    ensures Key(id, items[|items| - 1].parameter) in Unverified(EnteredAll(l, id, items).results, id)
    decreases items
  {
    if |items| > 1 { LastItemIsOpen(Entered(l, id, items[0]), id, items[1..]); }
  }

  /** Without it a sample is VERIFIED with an open result: an entry comes between the count of the last verification
      and its update. */
  lemma {:induction false} InterleavedEntryStaysOpen(l: Lab, key: Key, who: string, items: seq<Item>)
    requires MayVerify(l, key, Accept, true) && Unverified(l.results, key.sample) <= {key}
    requires MayEnter(l, key.sample, items, true) && items != []
    ensures var (m, next) := Counted(l, key, who);
            var n := WithStatus(AfterEntry(m, key.sample, items, true), key.sample, next);
            n.samples[key.sample].status == Verified && Unverified(n.results, key.sample) != {}
  {
    var (m, next) := Counted(l, key, who);
    assert Unverified(m.results, key.sample) == Unverified(l.results, key.sample) - {key} == {};
    LastItemIsOpen(m, key.sample, items);
  }
}
