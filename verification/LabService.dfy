/**
 Samples, results, out-of-specification cases and certificates (apps/api/src/lab/lab.service.ts).
 Whether a caller may see a record is a parameter (`inScope`); a transaction either commits or leaves nothing.
 */
module LabService {
  import opened Prelude
  import opened Sorting
  import opened LabRules

  datatype Sample = Sample(unitCode: string, collectedAt: int, status: SampleStatus)

  datatype Decision = Accept | Refuse

  /** `decision` is history: what the last verification call decided; re-entry forgets it. */
  datatype Finding = Finding(value: int, flagged: bool, verifiedBy: Option<string>, decision: Option<Decision>)

  datatype Key = Key(sample: string, parameter: string)

  datatype Case = Case(key: Key, severity: Severity, status: OosStatus, rootCause: Option<string>, capa: Option<string>)

  datatype Spec = Spec(parameter: string, productCode: string, effectiveFrom: int, bounds: Bounds)

  datatype Lab = Lab(samples: map<string, Sample>, results: map<Key, Finding>, cases: seq<Case>, specs: seq<Spec>,
      parameters: set<string>)

  // ---- which specification applies ----

  predicate NewestFirst(a: Spec, b: Spec) { a.effectiveFrom >= b.effectiveFrom }

  predicate Applies(s: Spec, sample: Sample) {
    (s.productCode == sample.unitCode || s.productCode == "COMMON") && s.effectiveFrom <= sample.collectedAt
  }

  function Applicable(specs: seq<Spec>, sample: Sample): seq<Spec> {
    if specs == [] then [] else (if Applies(specs[0], sample) then [specs[0]] else []) + Applicable(specs[1..], sample)
  }

  function FirstFor(rows: seq<Spec>, parameter: string): Option<Bounds> {
    if rows == [] then None else if rows[0].parameter == parameter then Some(rows[0].bounds)
        else FirstFor(rows[1..], parameter)
  }

  /** The bounds in force for a parameter of a sample. Rows of one date come in table order. */
  function SpecFor(specs: seq<Spec>, sample: Sample, parameter: string): Option<Bounds> {
    FirstFor(Sort(Applicable(specs, sample), NewestFirst), parameter)
  }

  // ---- cases ----

  function FirstOpen(cases: seq<Case>, key: Key): (r: Option<nat>)
    ensures r.Some? ==> r.value < |cases| && cases[r.value].key == key && IsOpen(cases[r.value].status)
    ensures r.None? ==> forall k :: 0 <= k < |cases| && cases[k].key == key ==> !IsOpen(cases[k].status)
  {
    if cases == [] then None
    else if cases[0].key == key && IsOpen(cases[0].status) then Some(0)
    else match FirstOpen(cases[1..], key) case None => None case Some(k) => Some(k + 1)
  }

  /** A flagged result raises the severity of its open case or opens one. */
  function WithCase(cases: seq<Case>, key: Key, severity: Severity): seq<Case> {
    match FirstOpen(cases, key)
    case None => cases + [Case(key, severity, Open, None, None)]
    case Some(k) => cases[k := cases[k].(severity := severity)]
  }

  // ---- the four calls ----

  datatype Item = Item(parameter: string, value: real)

  predicate Writable(l: Lab, i: Item) { i.parameter in l.parameters && !Overflows(i.value) }

  function Entered(l: Lab, id: string, i: Item): (r: Lab)
    requires id in l.samples
    ensures r == l.(results := r.results, cases := r.cases)
  {
    var key := Key(id, i.parameter);
    var verdict := EvaluateSpec(i.value, SpecFor(l.specs, l.samples[id], i.parameter));
    l.(results := l.results[key := Finding(Stored(i.value), verdict.Out?, None, None)],
       cases := if verdict.Out? then WithCase(l.cases, key, SeverityFor(verdict, false)) else l.cases)
  }

  function EnteredAll(l: Lab, id: string, items: seq<Item>): (r: Lab)
    requires id in l.samples
    ensures r == l.(results := r.results, cases := r.cases)
    decreases items
  {
    if items == [] then l else EnteredAll(Entered(l, id, items[0]), id, items[1..])
  }

  function WithStatus(l: Lab, id: string, s: SampleStatus): Lab
    requires id in l.samples
  {
    l.(samples := l.samples[id := l.samples[id].(status := s)])
  }

  ghost predicate MayEnter(l: Lab, id: string, items: seq<Item>, inScope: bool) {
    && id in l.samples && inScope && StatusAfterResultEntry(l.samples[id].status).Some?
    && forall k :: 0 <= k < |items| ==> Writable(l, items[k])
  }

  ghost function AfterEntry(l: Lab, id: string, items: seq<Item>, inScope: bool): Lab {
    if MayEnter(l, id, items, inScope) then WithStatus(EnteredAll(l, id, items), id, Resulted) else l
  }

  function Unverified(results: map<Key, Finding>, id: string): set<Key> {
    set k | k in results && k.sample == id && results[k].verifiedBy == None
  }

  predicate MayVerify(l: Lab, key: Key, decision: Decision, inScope: bool) {
    key in l.results && key.sample in l.samples && inScope && !(l.results[key].verifiedBy.Some? && decision == Accept)
  }

  function AfterVerify(l: Lab, key: Key, decision: Decision, who: string, inScope: bool): Lab {
    if !MayVerify(l, key, decision, inScope) then l
    else
      var results := l.results[key := l.results[key].(verifiedBy := Some(who), decision := Some(decision))];
      WithStatus(l.(results := results), key.sample,
                 if decision == Refuse then Rejected else if |Unverified(results, key.sample)| == 0 then Verified
                     else Resulted)
  }

  datatype OosUpdate = OosUpdate(status: Option<OosStatus>, rootCause: Option<string>, capa: Option<string>,
                                 severity: Option<Severity>, note: Option<string>)

  predicate MayUpdate(c: Case, u: OosUpdate) {
    var to := if u.status.Some? then u.status.value else c.status;
    && (to == c.status || CanOosTransition(c.status, to))
    && (to == CapaDefined || to == CaseClosed ==> Given(OrElse(u.capa, c.capa)))
    && (to == CaseClosed ==> Given(OrElse(u.rootCause, c.rootCause)))
    && (to == CaseRejected ==> Given(u.note))
  }

  function UpdatedCase(c: Case, u: OosUpdate): Case {
    c.(status := if u.status.Some? then u.status.value else c.status,
       severity := if u.severity.Some? then u.severity.value else c.severity,
       rootCause := OrElse(u.rootCause, c.rootCause),
       capa := OrElse(u.capa, c.capa))
  }

  function AfterOosUpdate(l: Lab, k: nat, u: OosUpdate, inScope: bool): Lab {
    if k < |l.cases| && inScope && MayUpdate(l.cases[k], u) then l.(cases := l.cases[k := UpdatedCase(l.cases[k], u)])
        else l
  }

  // ---- certificates ----

  datatype Row = Row(parameter: string, value: int, bounds: Option<Bounds>, pass: bool)

  function VerifiedKeys(results: map<Key, Finding>, id: string): set<Key> {
    set k | k in results && k.sample == id && results[k].verifiedBy.Some?
  }

  function OpenCases(cases: seq<Case>, id: string): set<nat> {
    set k | 0 <= k < |cases| && cases[k].key.sample == id && IsOpen(cases[k].status)
  }

  predicate CanIssueCertificate(status: SampleStatus, verified: nat, openOos: nat) {
    status == Verified && verified != 0 && openOos == 0
  }

  function PrintedRow(l: Lab, key: Key): Row
    requires key in l.results && key.sample in l.samples
  {
    RowOf(l.results[key], key.parameter, SpecFor(l.specs, l.samples[key.sample], key.parameter))
  }

  function RowOf(f: Finding, parameter: string, spec: Option<Bounds>): Row {
    Row(parameter, f.value, spec, EvaluateSpec(f.value as real, spec) == InSpec && !f.flagged)
  }

  predicate IsVerified(l: Lab, key: Key) {
    key in l.results && key.sample in l.samples && l.results[key].verifiedBy.Some?
  }

  /** The verified results of the listing, in its order. */
  function Printed(l: Lab, listing: seq<Key>): seq<Row> {
    if listing == [] then []
    else (if IsVerified(l, listing[0]) then [PrintedRow(l, listing[0])] else []) + Printed(l, listing[1..])
  }

  lemma {:induction false} PrintedStep(l: Lab, listing: seq<Key>, i: nat)
    requires i < |listing|
    ensures Printed(l, listing[i..]) == (if IsVerified(l, listing[i]) then [PrintedRow(l, listing[i])] else [])
            + Printed(l, listing[i + 1..])
  {
    assert listing[i..][1..] == listing[i + 1..];
  }

  /** The rows of the result query: every result of the sample once, in whatever order the database gives them. */
  ghost predicate Lists(l: Lab, id: string, listing: seq<Key>) {
    Distinct(listing) && forall k :: k in listing <==> k in l.results && k.sample == id
  }

  ghost predicate Issues(l: Lab, id: string, inScope: bool) {
    id in l.samples && inScope
        && CanIssueCertificate(l.samples[id].status, |VerifiedKeys(l.results, id)|, |OpenCases(l.cases, id)|)
  }

  class LabDesk {
    var samples: map<string, Sample>
    var results: map<Key, Finding>
    var cases: seq<Case>
    var specs: seq<Spec>
    var parameters: set<string>

    ghost function View(): Lab
      reads this
    {
      Lab(samples, results, cases, specs, parameters)
    }

    constructor (specs: seq<Spec>, parameters: set<string>)
      ensures View() == Lab(map[], map[], [], specs, parameters)
    {
      samples, results, cases, this.specs, this.parameters := map[], map[], [], specs, parameters;
    }

    method CreateSample(id: string, unitCode: string, collectedAt: int) returns (ok: bool)
      modifies this
      ensures ok == (id !in old(samples))
      ensures View() == if ok then old(View()).(samples := old(samples)[id := Sample(unitCode, collectedAt, Collected)])
              else old(View())
    {
      if id in samples { return false; }
      samples := samples[id := Sample(unitCode, collectedAt, Collected)];
      return true;
    }

    /** First come, first kept over the applicable rows, newest first. */
    method SpecsFor(sample: Sample) returns (out: map<string, Bounds>)
      ensures forall p :: SpecFor(specs, sample, p) == Lookup(out, p)
    {
      var rows := Sort(Applicable(specs, sample), NewestFirst);
      out := map[];
      for i := 0 to |rows|
        invariant forall p :: FirstFor(rows, p) == if p in out then Some(out[p]) else FirstFor(rows[i..], p)
      {
        assert rows[i..][1..] == rows[i + 1..];
        if rows[i].parameter !in out { out := out[rows[i].parameter := rows[i].bounds]; }
      }
    }

    /** One transaction: the work is done on copies, which an unknown parameter or an overflow throws away. */
    method EnterResults(id: string, items: seq<Item>, inScope: bool) returns (ok: bool)
      modifies this
      ensures ok == MayEnter(old(View()), id, items, inScope)
      ensures View() == AfterEntry(old(View()), id, items, inScope)
    {
      if id !in samples || !inScope { return false; }
      var next := StatusAfterResultEntry(samples[id].status);
      if next.None? { return false; }
      var inForce := SpecsFor(samples[id]);
      var found, filed := results, cases;
      ghost var start := View();
      for i := 0 to |items|
        invariant View() == start
        invariant forall k :: 0 <= k < i ==> Writable(start, items[k])
        invariant EnteredAll(start.(results := found, cases := filed), id, items[i..]) == EnteredAll(start, id, items)
      {
        if items[i].parameter !in parameters || Overflows(items[i].value) { return false; }
        var key := Key(id, items[i].parameter);
        var bounds := Lookup(inForce, items[i].parameter);
        var verdict := EvaluateSpec(items[i].value, bounds);
        assert items[i..][1..] == items[i + 1..];
        ghost var before := start.(results := found, cases := filed);
        found := found[key := Finding(Stored(items[i].value), verdict.Out?, None, None)];
        if verdict.Out? { filed := FileCase(filed, key, SeverityFor(verdict, false)); }
        assert start.(results := found, cases := filed) == Entered(before, id, items[i]);
      }
      results, cases := found, filed;
      samples := samples[id := samples[id].(status := next.value)];
      return true;
    }

    /** One open case per sample and result: a flagged re-entry updates the severity instead of opening a second one. */
    method FileCase(cases: seq<Case>, key: Key, severity: Severity) returns (filed: seq<Case>)
      ensures filed == WithCase(cases, key, severity)
    {
      var k := FirstOpen(cases, key);
      if k.None? { return cases + [Case(key, severity, Open, None, None)]; }
      filed := cases;
      if cases[k.value].severity != severity {
        filed := cases[k.value := cases[k.value].(severity := severity)];
      }
    }

    method VerifyResult(key: Key, decision: Decision, who: string, inScope: bool) returns (ok: bool)
      modifies this
      ensures ok == MayVerify(old(View()), key, decision, inScope)
      ensures View() == AfterVerify(old(View()), key, decision, who, inScope)
    {
      if key !in results || key.sample !in samples || !inScope { return false; }
      if results[key].verifiedBy.Some? && decision == Accept { return false; }
      results := results[key := results[key].(verifiedBy := Some(who), decision := Some(decision))];
      var remaining := |Unverified(results, key.sample)|;
      var next := if decision == Refuse then Rejected else if remaining == 0 then Verified else Resulted;
      if next != samples[key.sample].status {
        samples := samples[key.sample := samples[key.sample].(status := next)];
      }
      return true;
    }

    method UpdateOos(k: nat, u: OosUpdate, inScope: bool) returns (ok: bool)
      modifies this
      ensures ok == (k < |old(cases)| && inScope && MayUpdate(old(cases)[k], u))
      ensures View() == AfterOosUpdate(old(View()), k, u, inScope)
    {
      if k >= |cases| || !inScope { return false; }
      var row := cases[k];
      var to := if u.status.Some? then u.status.value else row.status;
      if to != row.status && !CanOosTransition(row.status, to) { return false; }
      if (to == CapaDefined || to == CaseClosed) && !Given(OrElse(u.capa, row.capa)) { return false; }
      if to == CaseClosed && !Given(OrElse(u.rootCause, row.rootCause)) { return false; }
      if to == CaseRejected && !Given(u.note) { return false; }
      cases := cases[k := UpdatedCase(row, u)];
      return true;
    }

    method Certificate(id: string, listing: seq<Key>, inScope: bool) returns (rows: Option<seq<Row>>)
      requires Lists(View(), id, listing)
      ensures rows == if Issues(View(), id, inScope) then Some(Printed(View(), listing)) else None
    {
      if id !in samples || !inScope { return None; }
      if !CanIssueCertificate(samples[id].status, |VerifiedKeys(results, id)|, |OpenCases(cases, id)|) { return None; }
      var specs := SpecsFor(samples[id]);
      var out := BuildRows(id, listing, specs);
      return Some(out);
    }

    method BuildRows(id: string, listing: seq<Key>, inForce: map<string, Bounds>) returns (out: seq<Row>)
      requires id in samples && forall j :: 0 <= j < |listing| ==> listing[j] in results && listing[j].sample == id
      requires forall p :: SpecFor(specs, samples[id], p) == Lookup(inForce, p)
      ensures out == Printed(View(), listing)
    {
      out := [];
      ghost var l := View();
      for i := 0 to |listing|
        invariant out + Printed(l, listing[i..]) == Printed(l, listing)
      {
        PrintedStep(l, listing, i);
        var key := listing[i];
        var f := results[key];
        if f.verifiedBy.Some? {
          assert PrintedRow(l, key) == RowOf(f, key.parameter, Lookup(inForce, key.parameter));
          out := out + [RowOf(f, key.parameter, Lookup(inForce, key.parameter))];
        }
      }
    }
  }
}
