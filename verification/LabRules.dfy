/**
 Laboratory rules shared by server and clients (packages/domain/src/lab.ts).
 Quantities are counted in hundred-thousandths, the resolution of the database's Decimal(14,5): limits and stored
 results are integers, a result as it is entered may lie between two of them.
 */
module LabRules {
  import opened Prelude

  datatype Bounds = Bounds(min: Option<int>, max: Option<int>)

  datatype Breach = Low | High

  /** `deviation` is in hundredths of a percent. */
  datatype Verdict = InSpec | Out(breach: Breach, deviation: Option<nat>, limit: int)

  datatype Severity = Minor | Major | Critical

  /** `Math.round(limit / span * 10_000)`: the size of the limit, not the distance from it. */
  function Deviation(limit: int, max: Option<int>, min: Option<int>): Option<nat> {
    var span := if min.Some? && max.Some? && max.value > min.value then max.value - min.value else Abs(limit);
    if span == 0 then None else Some((20_000 * Abs(limit) + span) / (2 * span))
  }

  function EvaluateSpec(value: real, bounds: Option<Bounds>): Verdict {
    if bounds.None? then InSpec
    else
      var Bounds(min, max) := bounds.value;
      if min.Some? && value < min.value as real then Out(Low, Deviation(min.value, max, min), min.value)
      else if max.Some? && value > max.value as real then Out(High, Deviation(max.value, max, min), max.value)
      else InSpec
  }

  function SeverityFor(v: Verdict, safetyCritical: bool): Severity {
    if safetyCritical then Critical
    else match v
      case InSpec => Major
      case Out(_, None, _) => Major
      case Out(_, Some(d), _) => if d >= 2_500 then Critical else if d >= 500 then Major else Minor
  }

  // ---- does severity grow with distance? ----

  function Rank(s: Severity): nat { match s case Minor => 0 case Major => 1 case Critical => 2 }

  /** How far outside its bounds a value lies. */
  function Distance(value: real, b: Bounds): real {
    if b.min.Some? && value < b.min.value as real then b.min.value as real - value
    else if b.max.Some? && value > b.max.value as real then value - b.max.value as real
    else 0.0
  }

  function SeverityOf(value: real, b: Bounds, safetyCritical: bool): Severity {
    SeverityFor(EvaluateSpec(value, Some(b)), safetyCritical)
  }

  /** Of two values out of specification the farther one is never the milder one. */
  ghost predicate GrowsWithDistance(b: Bounds, safetyCritical: bool) {
    forall near: real, far: real ::
      EvaluateSpec(near, Some(b)).Out? && EvaluateSpec(far, Some(b)).Out? && Distance(near, b) <= Distance(far, b) ==>
      Rank(SeverityOf(near, b, safetyCritical)) <= Rank(SeverityOf(far, b, safetyCritical))
  }

  /** The severity of every value below `min`, and of every value above `max` that is not below `min`. */
  function SeverityBelow(b: Bounds, safetyCritical: bool): Severity
    requires b.min.Some?
  {
    SeverityFor(Out(Low, Deviation(b.min.value, b.max, b.min), b.min.value), safetyCritical)
  }

  function SeverityAbove(b: Bounds, safetyCritical: bool): Severity
    requires b.max.Some?
  {
    SeverityFor(Out(High, Deviation(b.max.value, b.max, b.min), b.max.value), safetyCritical)
  }

  lemma {:induction false} NeverGrows(b: Bounds, safetyCritical: bool, near: real, far: real)
    requires EvaluateSpec(near, Some(b)).Out? && EvaluateSpec(far, Some(b)).Out?
    requires Distance(near, b) <= Distance(far, b)
    requires Rank(SeverityOf(near, b, safetyCritical)) > Rank(SeverityOf(far, b, safetyCritical))
    ensures !GrowsWithDistance(b, safetyCritical)
  {}

  /**
   Severity looks at the size of the limit that was broken, not at the distance from it. So it grows with distance
   exactly when both limits give the same severity, or there is only one limit, or everything is critical anyway.
   */
  lemma {:induction false} SeverityGrowsIff(b: Bounds, safetyCritical: bool)
    ensures GrowsWithDistance(b, safetyCritical) <==>
            (b.min.Some? && b.max.Some? ==> SeverityBelow(b, safetyCritical) == SeverityAbove(b, safetyCritical))
  {
    if b.min.Some? && b.max.Some? && SeverityBelow(b, safetyCritical) != SeverityAbove(b, safetyCritical) {
      var min, max := b.min.value as real, b.max.value as real;
      var top := if min > max then min else max;
      if Rank(SeverityBelow(b, safetyCritical)) > Rank(SeverityAbove(b, safetyCritical)) {
        NeverGrows(b, safetyCritical, min - 1.0, top + 1.0);
      } else {
        NeverGrows(b, safetyCritical, top + 1.0, min - (top + 1.0 - max));
      }
    }
  }

  /** It happens: a value just above one limit is critical, one as far below the other as you like is minor. */
  lemma {:induction false} FartherMayBeMilder(far: real)
    requires far < 1.0
    ensures var b := Bounds(Some(1), Some(1_000));
            SeverityOf(1_000.5, b, false) == Critical && SeverityOf(far, b, false) == Minor
  {
    assert Deviation(1_000, Some(1_000), Some(1)) == Some((20_000 * 1_000 + 999) / 1_998) == Some(10_010);
    assert Deviation(1, Some(1_000), Some(1)) == Some((20_000 + 999) / 1_998) == Some(10);
  }

  // ---- what the database keeps of an entered value ----

  /** Decimal(14,5): nearest, halves away from zero. */
  function Stored(v: real): int {
    if v >= 0.0 then (v + 0.5).Floor else -((-v + 0.5).Floor)
  }

  predicate Overflows(v: real) { Abs(Stored(v)) >= 100_000_000_000_000 }

  lemma {:induction false} StoredMonotone(v: real, n: int)
    ensures v <= n as real ==> Stored(v) <= n
    ensures n as real <= v ==> n <= Stored(v)
  {
    if v >= 0.0 {
      assert ((v + 0.5).Floor as real) <= v + 0.5 < ((v + 0.5).Floor + 1) as real;
    } else {
      assert ((-v + 0.5).Floor as real) <= -v + 0.5 < ((-v + 0.5).Floor + 1) as real;
    }
  }

  /** Rounding on storage cannot turn a verdict that was in specification: limits lie on the grid it rounds to. */
  lemma {:induction false} RoundingKeepsInSpec(value: real, bounds: Option<Bounds>)
    requires EvaluateSpec(value, bounds) == InSpec
    ensures EvaluateSpec(Stored(value) as real, bounds) == InSpec
  {
    if bounds.Some? {
      if bounds.value.min.Some? { StoredMonotone(value, bounds.value.min.value); }
      if bounds.value.max.Some? { StoredMonotone(value, bounds.value.max.value); }
    }
  }

  // ---- state machines ----

  datatype OosStatus = Open | Investigating | CapaDefined | EffectivenessCheck | CaseClosed | CaseRejected

  function OosNext(from: OosStatus): seq<OosStatus> {
    match from
    case Open => [Investigating, CaseRejected]
    case Investigating => [CapaDefined, CaseRejected]
    case CapaDefined => [EffectivenessCheck, Investigating]
    case EffectivenessCheck => [CaseClosed, Investigating]
    case CaseClosed => []
    case CaseRejected => []
  }

  predicate CanOosTransition(from: OosStatus, to: OosStatus) { to in OosNext(from) }

  predicate IsOpen(s: OosStatus) { s != CaseClosed && s != CaseRejected }

  datatype SampleStatus = Collected | InQueue | Analyzing | Resulted | Verified | Rejected | Voided

  function StatusAfterResultEntry(s: SampleStatus): Option<SampleStatus> {
    if s in {Collected, InQueue, Analyzing, Resulted} then Some(Resulted) else None
  }
}
