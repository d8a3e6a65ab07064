/**
 Attendance arithmetic (packages/domain/src/attendance.ts). Instants are milliseconds since 1970, dates are day numbers
 of the site's calendar (UTC+3), wall-clock times are minutes. Shift codes are compared by an arbitrary collation.
 */
module Attendance {
  import opened Prelude
  import opened Sorting

  const MINUTE := 60_000
  const HOUR := 3_600_000
  const DAY := 86_400_000
  const SITE_OFFSET := 180 * MINUTE

  datatype Shift = Shift(code: string, start: int, end: int, overnight: bool, grace: int, lateThreshold: int,
      otMinHours: int, nightDiffPct: int)

  const DEFAULT_SHIFTS: seq<Shift> := [
    Shift("A", 480, 1200, false, 15, 30, 1, 0),
    Shift("B", 1200, 480, true, 15, 30, 1, 15),
    Shift("C", 480, 960, false, 20, 45, 1, 0),
    Shift("D", 540, 1020, false, 20, 45, 1, 0)
  ]

  function SiteDate(t: int): int { (t + SITE_OFFSET) / DAY }

  /** Milliseconds since the site's midnight. */
  function SiteTime(t: int): int { (t + SITE_OFFSET) % DAY }

  /** 1970-01-01 was a Thursday. */
  predicate IsFriday(t: int) { SiteDate(t) % 7 == 1 }

  function From(day: int, s: Shift): int { day * DAY - SITE_OFFSET + s.start * MINUTE }

  function Span(s: Shift): int { if s.overnight then s.end + 1440 - s.start else s.end - s.start }

  function To(day: int, s: Shift): int { From(day, s) + Span(s) * MINUTE }

  // ---- assigning a punch to a shift ----

  datatype Candidate = Candidate(code: string, workDate: int, inside: bool, distance: nat)

  predicate Near(t: int, day: int, s: Shift) { From(day, s) - 4 * HOUR <= t <= To(day, s) + 4 * HOUR }

  predicate Inside(t: int, day: int, s: Shift) { From(day, s) <= t <= To(day, s) }

  function CandidateFor(t: int, day: int, s: Shift): Candidate {
    Candidate(s.code, day, Inside(t, day, s),
              if Inside(t, day, s) then 0 else Min(Abs(t - From(day, s)), Abs(t - To(day, s))))
  }

  predicate Rank(a: Candidate, b: Candidate, collate: (string, string) -> bool) {
    if a.inside != b.inside then a.inside
    else if a.distance != b.distance then a.distance < b.distance
    else collate(a.code, b.code)
  }

  function ByRank(collate: (string, string) -> bool): (Candidate, Candidate) -> bool { (a, b) => Rank(a, b, collate) }

  function CandidatesOn(t: int, day: int, shifts: seq<Shift>): seq<Candidate> {
    if shifts == [] then []
    else (if Near(t, day, shifts[0]) then [CandidateFor(t, day, shifts[0])] else []) + CandidatesOn(t, day, shifts[1..])
  }

  /** In the order they are tried: the given date before the one before it, shifts in table order. */
  function Candidates(t: int, day: int, shifts: seq<Shift>): seq<Candidate> {
    CandidatesOn(t, day, shifts) + CandidatesOn(t, day - 1, shifts)
  }

  datatype Assignment = Assignment(shiftCode: string, workDate: int)

  function Chosen(cs: seq<Candidate>, collate: (string, string) -> bool): Option<Assignment> {
    var sorted := Sort(cs, ByRank(collate));
    if sorted == [] then None else Some(Assignment(sorted[0].code, sorted[0].workDate))
  }

  function DateOf(t: int, anchor: Option<int>): int { if anchor.Some? then anchor.value else SiteDate(t) }

  method AssignShift(t: int, shifts: seq<Shift>, anchor: Option<int>, collate: (string, string) -> bool)
    returns (r: Option<Assignment>)
    ensures r == Chosen(Candidates(t, DateOf(t, anchor), shifts), collate)
  {
    var dateKey := if anchor.Some? then anchor.value else SiteDate(t);
    var candidates := CollectOn(t, dateKey, shifts, []);
    candidates := CollectOn(t, dateKey - 1, shifts, candidates);
    assert candidates == Candidates(t, dateKey, shifts);
    var sorted := Sort(candidates, ByRank(collate));
    return if sorted == [] then None else Some(Assignment(sorted[0].code, sorted[0].workDate));
  }

  method CollectOn(t: int, key: int, shifts: seq<Shift>, before: seq<Candidate>) returns (candidates: seq<Candidate>)
    ensures candidates == before + CandidatesOn(t, key, shifts)
  {
    candidates := before;
    for i := 0 to |shifts|
      invariant candidates + CandidatesOn(t, key, shifts[i..]) == before + CandidatesOn(t, key, shifts)
    {
      assert shifts[i..][1..] == shifts[i + 1..];
      var from, until := From(key, shifts[i]), To(key, shifts[i]);
      if from - 4 * HOUR <= t <= until + 4 * HOUR {
        var inside := from <= t <= until;
        var distance := if inside then 0 else Min(Abs(t - from), Abs(t - until));
        candidates := candidates + [Candidate(shifts[i].code, key, inside, distance)];
      }
    }
  }

  /** The first of the candidates that rank no lower than any other. */
  ghost predicate FirstLeast(cs: seq<Candidate>, i: nat, collate: (string, string) -> bool) {
    && i < |cs| && (forall j :: 0 <= j < |cs| ==> Rank(cs[i], cs[j], collate))
    && (forall j :: 0 <= j < i ==> !Rank(cs[j], cs[i], collate))
  }

  lemma {:induction false} RankPreorder(collate: (string, string) -> bool)
    requires TotalPreorder(collate)
    ensures TotalPreorder(ByRank(collate))
  {
    var le := ByRank(collate);
    assert forall a, b :: le(a, b) == Rank(a, b, collate);
  }

  lemma {:induction false} SortHead<T>(s: seq<T>, le: (T, T) -> bool)
    requires s != []
    ensures Sort(s, le) != [] && Sort(s, le)[0] == if |s| == 1 || le(s[0], Sort(s[1..], le)[0]) then s[0]
            else Sort(s[1..], le)[0]
  {
    if |s| > 1 { SortHead(s[1..], le); }
  }

  lemma {:induction false} SortHeadIsFirstLeast(cs: seq<Candidate>, collate: (string, string) -> bool) returns (i: nat)
    requires cs != [] && TotalPreorder(collate)
    ensures FirstLeast(cs, i, collate) && Sort(cs, ByRank(collate)) != [] && Sort(cs, ByRank(collate))[0] == cs[i]
  {
    var le := ByRank(collate);
    RankPreorder(collate);
    SortHead(cs, le);
    if |cs| == 1 { return 0; }
    var k := SortHeadIsFirstLeast(cs[1..], collate);
    assert forall j :: 0 < j < |cs| ==> cs[j] == cs[1..][j - 1];
    if le(cs[0], cs[1..][k]) {
      assert forall j :: 0 <= j < |cs[1..]| ==> le(cs[0], cs[1..][j]);
      return 0;
    }
    return k + 1;
  }

  lemma {:induction false} CandidatesOnMembers(t: int, day: int, shifts: seq<Shift>, c: Candidate)
    ensures c in CandidatesOn(t, day, shifts) <==>
            exists s :: s in shifts && Near(t, day, s) && c == CandidateFor(t, day, s)
  {
    if shifts != [] {
      CandidatesOnMembers(t, day, shifts[1..], c);
      assert forall s :: s in shifts <==> s == shifts[0] || s in shifts[1..];
    }
  }

  /** Shift assignment in closed form, for any table and anchor: the first candidate that is least by (inside,
      distance, code). */
  lemma {:induction false} AssignmentIsFirstLeast(t: int, day: int, shifts: seq<Shift>,
                                                  collate: (string, string) -> bool)
    requires TotalPreorder(collate)
    ensures var cs := Candidates(t, day, shifts);
            if cs == [] then Chosen(cs, collate) == None
            else exists i: nat ::
                   FirstLeast(cs, i, collate) && Chosen(cs, collate) == Some(Assignment(cs[i].code, cs[i].workDate))
  {
    if Candidates(t, day, shifts) != [] {
      var i := SortHeadIsFirstLeast(Candidates(t, day, shifts), collate);
    }
  }

  /** And there is none exactly when no window of either date comes within four hours. */
  lemma {:induction false} UnassignedIff(t: int, day: int, shifts: seq<Shift>, collate: (string, string) -> bool)
    requires TotalPreorder(collate)
    ensures Chosen(Candidates(t, day, shifts), collate) == None <==>
            forall s :: s in shifts ==> !Near(t, day, s) && !Near(t, day - 1, s)
  {
    AssignmentIsFirstLeast(t, day, shifts, collate);
    var cs := Candidates(t, day, shifts);
    forall s | s in shifts && (Near(t, day, s) || Near(t, day - 1, s)) ensures cs != [] {
      CandidatesOnMembers(t, day, shifts, CandidateFor(t, day, s));
      CandidatesOnMembers(t, day - 1, shifts, CandidateFor(t, day - 1, s));
    }
    if cs != [] {
      CandidatesOnMembers(t, day, shifts, cs[0]);
      CandidatesOnMembers(t, day - 1, shifts, cs[0]);
    }
  }

  ghost predicate ComesBefore(collate: (string, string) -> bool, a: string, b: string) {
    collate(a, b) && !collate(b, a)
  }

  /** What the default table yields for a punch. */
  function DefaultAssignment(t: int): Assignment {
    if 8 * HOUR <= SiteTime(t) <= 20 * HOUR then Assignment("A", SiteDate(t))
    else if SiteTime(t) > 20 * HOUR then Assignment("B", SiteDate(t))
    else Assignment("B", SiteDate(t) - 1)
  }

  lemma {:induction false} DefaultWindows(t: int, day: int, s: Shift)
    requires s in DEFAULT_SHIFTS && day in {SiteDate(t), SiteDate(t) - 1}
    ensures Inside(t, day, s) <==>
            var m := SiteTime(t);
            if s.code == "A" then day == SiteDate(t) && 8 * HOUR <= m <= 20 * HOUR
            else if s.code == "B" then (if day == SiteDate(t) then 20 * HOUR <= m else m <= 8 * HOUR)
            else if s.code == "C" then day == SiteDate(t) && 8 * HOUR <= m <= 16 * HOUR
            else day == SiteDate(t) && 9 * HOUR <= m <= 17 * HOUR
  {
    assert t + SITE_OFFSET == SiteDate(t) * DAY + SiteTime(t) && 0 <= SiteTime(t) < DAY;
  }

  /** With the default table and no anchor every punch is assigned, and to a window that contains it: A from 08:00 to
      20:00 inclusive, else B of the same evening or of the evening before. */
  lemma {:induction false} DefaultTableIsTotal(t: int, collate: (string, string) -> bool)
    requires TotalPreorder(collate)
    requires ComesBefore(collate, "A", "B") && ComesBefore(collate, "A", "C") && ComesBefore(collate, "A", "D")
    ensures Chosen(Candidates(t, SiteDate(t), DEFAULT_SHIFTS), collate) == Some(DefaultAssignment(t))
    ensures var a := DefaultAssignment(t);
            exists s :: s in DEFAULT_SHIFTS && s.code == a.shiftCode && Inside(t, a.workDate, s)
  {
    var day, cs := SiteDate(t), Candidates(t, SiteDate(t), DEFAULT_SHIFTS);
    var want := DefaultAssignment(t);
    var s := if want.shiftCode == "A" then DEFAULT_SHIFTS[0] else DEFAULT_SHIFTS[1];
    assert s in DEFAULT_SHIFTS;
    DefaultWindows(t, want.workDate, s);
    assert Inside(t, want.workDate, s) && Near(t, want.workDate, s);
    var c := CandidateFor(t, want.workDate, s);
    CandidatesOnMembers(t, want.workDate, DEFAULT_SHIFTS, c);
    assert c in cs;
    var j :| 0 <= j < |cs| && cs[j] == c;
    var i := SortHeadIsFirstLeast(cs, collate);
    assert Rank(cs[i], cs[j], collate);
    BestDefault(t, cs[i], want, collate);
  }

  /** A candidate of the default table that ranks no lower than the expected one is the expected one. */
  lemma {:induction false} BestDefault(t: int, c: Candidate, want: Assignment, collate: (string, string) -> bool)
    requires ComesBefore(collate, "A", "B") && ComesBefore(collate, "A", "C") && ComesBefore(collate, "A", "D")
    requires want == DefaultAssignment(t) && c in Candidates(t, SiteDate(t), DEFAULT_SHIFTS)
    requires c.inside && (c.distance == 0 ==> collate(c.code, want.shiftCode))
    ensures c.code == want.shiftCode && c.workDate == want.workDate
  {
    var day := if c in CandidatesOn(t, SiteDate(t), DEFAULT_SHIFTS) then SiteDate(t) else SiteDate(t) - 1;
    CandidatesOnMembers(t, day, DEFAULT_SHIFTS, c);
    var s :| s in DEFAULT_SHIFTS && Near(t, day, s) && c == CandidateFor(t, day, s);
    DefaultWindows(t, day, s);
  }

  // ---- evaluating a day ----

  datatype PunchType = In | Out | BreakOut | BreakIn

  datatype Source = Device | Mobile | Manual

  datatype Punch = Punch(id: string, at: int, kind: PunchType, source: Source)

  datatype Status = Present | LateIn | EarlyOut | MissingIn | MissingOut | Absent | Leave | Mission | DayOff

  datatype Overrides = Overrides(absence: Option<Status>, approvedOvertime: Option<int>, manualIn: Option<int>,
      manualOut: Option<int>)

  datatype Evaluation = Evaluation(
    firstIn: Option<int>, lastOut: Option<int>, worked: int, scheduled: int, late: int, early: int, overtime: int,
    nightDiffPct: int, friday: bool, status: Status, punchCount: nat, outside: seq<int>,
    tooMany: bool, hasManual: bool, hasMobile: bool, shiftDefined: bool)

  /** Which of the sorted punches a list or test of the evaluation is about. */
  datatype Pick = Linked | Ins | Outs | Outside | Within | ByHand | ByPhone

  predicate Picks(pick: Pick, p: Punch, from: int, until: int) {
    var linked := from - 6 * HOUR <= p.at <= until + 6 * HOUR;
    var inWindow := from - 15 * MINUTE <= p.at <= until + 15 * MINUTE;
    && linked
    && match pick
       case Linked => true
       case Ins => p.kind == In
       case Outs => p.kind == Out
       case Outside => !inWindow
       case Within => inWindow
       case ByHand => p.source == Manual
       case ByPhone => p.source == Mobile
  }

  function InstantOf(p: Punch, pick: Pick, from: int, until: int): seq<int> {
    if Picks(pick, p, from, until) then [p.at] else []
  }

  /** The instants of the picked punches, in their order. */
  function Instants(ps: seq<Punch>, pick: Pick, from: int, until: int): seq<int> {
    if ps == [] then []
    else InstantOf(ps[0], pick, from, until) + Instants(ps[1..], pick, from, until)
  }

  predicate Earlier(a: Punch, b: Punch) { a.at <= b.at }

  /** `Math.round(ms / 60_000)`. */
  function Minutes(ms: int): int { (ms + 30_000) / MINUTE }

  function First(s: seq<int>): Option<int> { if s == [] then None else Some(s[0]) }

  function Last(s: seq<int>): Option<int> { if s == [] then None else Some(s[|s| - 1]) }

  function Worked(firstIn: Option<int>, lastOut: Option<int>, until: int, now: int): int {
    if firstIn.None? then 0
    else if lastOut.Some? then Max(0, Minutes(lastOut.value - firstIn.value))
    else Max(0, Minutes(Min(now, until) - firstIn.value))
  }

  function BeyondGrace(gap: int, grace: int): int { if gap > grace then gap else 0 }

  function OvertimeOf(worked: int, scheduled: int, otMinHours: int, approved: Option<int>): int {
    (if worked - scheduled >= otMinHours * 60 then worked - scheduled else 0)
        + (if approved.Some? then approved.value else 0)
  }

  function StatusOf(absence: Option<Status>, firstIn: Option<int>, lastOut: Option<int>, late: int, early: int,
                    threshold: int): Status {
    if absence.Some? then absence.value
    else if firstIn.None? && lastOut.None? then Absent
    else if firstIn.None? then MissingIn
    else if lastOut.None? then MissingOut
    else if late > threshold then LateIn
    else if early > threshold then EarlyOut
    else Present
  }

  /** The evaluation as a function of the punches in time order and the shift's window. */
  function EvaluateSorted(sorted: seq<Punch>, from: int, until: int, day: int, s: Shift, o: Overrides,
                          now: int): Evaluation {
    var firstIn := OrElse(o.manualIn, First(Instants(sorted, Ins, from, until)));
    var lastOut := OrElse(o.manualOut, Last(Instants(sorted, Outs, from, until)));
    var scheduled := Minutes(until - from);
    var worked := Worked(firstIn, lastOut, until, now);
    var late := if firstIn.Some? then BeyondGrace(Minutes(firstIn.value - from), s.grace) else 0;
    var early := if lastOut.Some? then BeyondGrace(Minutes(until - lastOut.value), s.grace) else 0;
    Evaluation(firstIn, lastOut, worked, scheduled, late, early,
               OvertimeOf(worked, scheduled, s.otMinHours, o.approvedOvertime), s.nightDiffPct,
               IsFriday(if firstIn.Some? then firstIn.value else day * DAY + 6 * HOUR),
               StatusOf(o.absence, firstIn, lastOut, late, early, s.lateThreshold),
               |Instants(sorted, Linked, from, until)|, Instants(sorted, Outside, from, until),
               |Instants(sorted, Linked, from, until)| > 8,
               Instants(sorted, ByHand, from, until) != [], Instants(sorted, ByPhone, from, until) != [], true)
  }

  function Evaluate(punches: seq<Punch>, day: int, s: Shift, o: Overrides, now: int): Evaluation {
    EvaluateSorted(Sort(punches, Earlier), From(day, s), To(day, s), day, s, o, now)
  }

  /** The answer for a shift code that is not in the table: an absence, whatever was punched or granted. */
  const NO_SHIFT: Evaluation :=
      Evaluation(None, None, 0, 0, 0, 0, 0, 0, false, Absent, 0, [], false, false, false, false)

  method EvaluateDay(punches: seq<Punch>, day: int, code: string, shifts: map<string, Shift>, o: Overrides, now: int)
    returns (e: Evaluation)
    ensures e == if code in shifts then Evaluate(punches, day, shifts[code], o, now) else NO_SHIFT
  {
    if code !in shifts { return NO_SHIFT; }
    var s := shifts[code];
    e := EvaluateWindow(Sort(punches, Earlier), From(day, s), To(day, s), day, s, o, now);
  }

  method EvaluateWindow(sorted: seq<Punch>, from: int, until: int, day: int, s: Shift, o: Overrides, now: int)
    returns (e: Evaluation)
    ensures e == EvaluateSorted(sorted, from, until, day, s, o, now)
  {
    var linked := Instants(sorted, Linked, from, until);
    var outside := Instants(sorted, Outside, from, until);
    var ins := Instants(sorted, Ins, from, until);
    var outs := Instants(sorted, Outs, from, until);
    var firstIn := if o.manualIn.Some? then o.manualIn else First(ins);
    var lastOut := if o.manualOut.Some? then o.manualOut else Last(outs);
    assert firstIn == OrElse(o.manualIn, First(ins)) && lastOut == OrElse(o.manualOut, Last(outs));
    var scheduled := Minutes(until - from);
    var worked := WorkedMinutes(firstIn, lastOut, until, now);
    var late, early := 0, 0;
    if firstIn.Some? { late := GapBeyondGrace(from, firstIn.value, s.grace); }
    if lastOut.Some? { early := GapBeyondGrace(lastOut.value, until, s.grace); }
    var overtime := Overtime(worked, scheduled, s.otMinHours, o.approvedOvertime);
    var status := DecideStatus(o.absence, firstIn, lastOut, late, early, s.lateThreshold);
    e := Evaluation(firstIn, lastOut, worked, scheduled, late, early, overtime, s.nightDiffPct,
                    IsFriday(if firstIn.Some? then firstIn.value else day * DAY + 6 * HOUR), status,
                    |linked|, outside, |linked| > 8,
                    Instants(sorted, ByHand, from, until) != [], Instants(sorted, ByPhone, from, until) != [], true);
  }

  method WorkedMinutes(firstIn: Option<int>, lastOut: Option<int>, until: int, now: int) returns (worked: int)
    ensures worked == Worked(firstIn, lastOut, until, now)
  {
    worked := 0;
    if firstIn.Some? && lastOut.Some? {
      worked := Max(0, Minutes(lastOut.value - firstIn.value));
    } else if firstIn.Some? && lastOut.None? {
      worked := Max(0, Minutes(Min(now, until) - firstIn.value));
    }
  }

  method GapBeyondGrace(earlier: int, later: int, grace: int) returns (minutes: int)
    ensures minutes == BeyondGrace(Minutes(later - earlier), grace)
  {
    minutes := 0;
    var diff := Minutes(later - earlier);
    if diff > grace { minutes := diff; }
  }

  method Overtime(worked: int, scheduled: int, otMinHours: int, approved: Option<int>) returns (minutes: int)
    ensures minutes == OvertimeOf(worked, scheduled, otMinHours, approved)
  {
    minutes := 0;
    var overWork := worked - scheduled;
    if overWork >= otMinHours * 60 { minutes := overWork; }
    if approved.Some? { minutes := minutes + approved.value; }
  }

  method DecideStatus(absence: Option<Status>, firstIn: Option<int>, lastOut: Option<int>, late: int, early: int,
                      threshold: int)
    returns (status: Status)
    ensures status == StatusOf(absence, firstIn, lastOut, late, early, threshold)
  {
    status := Present;
    if absence.Some? { status := absence.value; }
    else if firstIn.None? && lastOut.None? { status := Absent; }
    else if firstIn.None? && lastOut.Some? { status := MissingIn; }
    else if firstIn.Some? && lastOut.None? { status := MissingOut; }
    else if late > threshold { status := LateIn; }
    else if early > threshold { status := EarlyOut; }
  }

  // ---- the order of the punches does not matter ----

  predicate IntLe(a: int, b: int) { a <= b }

  lemma {:induction false} InstantsAppend(a: seq<Punch>, b: seq<Punch>, pick: Pick, from: int, until: int)
    ensures Instants(a + b, pick, from, until) == Instants(a, pick, from, until) + Instants(b, pick, from, until)
  {
    if a == [] {
      assert a + b == b;
    } else {
      assert (a + b)[1..] == a[1..] + b;
      InstantsAppend(a[1..], b, pick, from, until);
    }
  }

  lemma {:induction false} TakeOut<T>(b: seq<T>, k: nat)
    requires k < |b|
    ensures b == b[..k] + ([b[k]] + b[k + 1..]) && multiset(b[..k] + b[k + 1..]) == multiset(b) - multiset{b[k]}
  {
    assert b == b[..k] + ([b[k]] + b[k + 1..]);
    assert multiset(b) == multiset(b[..k]) + multiset{b[k]} + multiset(b[k + 1..]);
  }

  lemma {:induction false} InstantsTakeOut(b: seq<Punch>, k: nat, pick: Pick, from: int, until: int)
    requires k < |b|
    ensures multiset(Instants(b, pick, from, until)) ==
            multiset(InstantOf(b[k], pick, from, until)) + multiset(Instants(b[..k] + b[k + 1..], pick, from, until))
  {
    var tail := [b[k]] + b[k + 1..];
    assert b == b[..k] + tail && tail[1..] == b[k + 1..];
    InstantsAppend(b[..k], tail, pick, from, until);
    InstantsAppend(b[..k], b[k + 1..], pick, from, until);
  }

  lemma {:induction false} InstantsPermute(a: seq<Punch>, b: seq<Punch>, pick: Pick, from: int, until: int)
    requires multiset(a) == multiset(b)
    ensures multiset(Instants(a, pick, from, until)) == multiset(Instants(b, pick, from, until))
  {
    if a == [] {
      assert |multiset(b)| == 0 && b == [];
    } else {
      assert a[0] in multiset(b);
      var k :| 0 <= k < |b| && b[k] == a[0];
      TakeOut(b, k);
      MultisetTail(a);
      InstantsPermute(a[1..], b[..k] + b[k + 1..], pick, from, until);
      InstantsTakeOut(b, k, pick, from, until);
      assert Instants(a, pick, from, until) == InstantOf(a[0], pick, from, until) + Instants(a[1..], pick, from, until);
    }
  }

  lemma {:induction false} InstantsFloor(ps: seq<Punch>, pick: Pick, from: int, until: int, floor: int)
    requires forall j :: 0 <= j < |ps| ==> floor <= ps[j].at
    ensures forall k :: 0 <= k < |Instants(ps, pick, from, until)| ==> floor <= Instants(ps, pick, from, until)[k]
  {
    if ps != [] { InstantsFloor(ps[1..], pick, from, until, floor); }
  }

  lemma {:induction false} InstantsAscend(ps: seq<Punch>, pick: Pick, from: int, until: int)
    requires Ascending(ps, Earlier)
    ensures Ascending(Instants(ps, pick, from, until), IntLe)
  {
    if ps != [] {
      AscendingTail(ps, Earlier);
      InstantsAscend(ps[1..], pick, from, until);
      assert forall j :: 0 < j < |ps| ==> Earlier(ps[0], ps[j]);
      InstantsFloor(ps[1..], pick, from, until, ps[0].at);
    }
  }

  lemma {:induction false} InstantsForgetOrder(a: seq<Punch>, b: seq<Punch>, pick: Pick, from: int, until: int)
    requires multiset(a) == multiset(b)
    ensures Instants(Sort(a, Earlier), pick, from, until) == Instants(Sort(b, Earlier), pick, from, until)
  {
    assert TotalPreorder(Earlier);
    SortPermutes(a, Earlier);
    SortPermutes(b, Earlier);
    SortAscends(a, Earlier);
    SortAscends(b, Earlier);
    InstantsPermute(Sort(a, Earlier), Sort(b, Earlier), pick, from, until);
    InstantsAscend(Sort(a, Earlier), pick, from, until);
    InstantsAscend(Sort(b, Earlier), pick, from, until);
    AscendingUnique(Instants(Sort(a, Earlier), pick, from, until), Instants(Sort(b, Earlier), pick, from, until),
        IntLe);
  }

  lemma {:induction false} SameInstantsSameDay(a: seq<Punch>, b: seq<Punch>, from: int, until: int, day: int, s: Shift,
                                               o: Overrides, now: int)
    requires forall pick: Pick :: Instants(a, pick, from, until) == Instants(b, pick, from, until)
    ensures EvaluateSorted(a, from, until, day, s, o, now) == EvaluateSorted(b, from, until, day, s, o, now)
  {}

  /** Whatever order the punches arrive in, simultaneous ones included, the day is evaluated the same. */
  lemma {:induction false} EvaluationForgetsOrder(a: seq<Punch>, b: seq<Punch>, day: int, s: Shift, o: Overrides,
                                                  now: int)
    requires multiset(a) == multiset(b)
    ensures Evaluate(a, day, s, o, now) == Evaluate(b, day, s, o, now)
  {
    var from, until := From(day, s), To(day, s);
    forall pick: Pick
      ensures Instants(Sort(a, Earlier), pick, from, until) == Instants(Sort(b, Earlier), pick, from, until)
    {
      InstantsForgetOrder(a, b, pick, from, until);
    }
    SameInstantsSameDay(Sort(a, Earlier), Sort(b, Earlier), from, until, day, s, o, now);
  }

  // ---- what the numbers add up to ----

  lemma {:induction false} InstantsSplit(ps: seq<Punch>, from: int, until: int)
    ensures |Instants(ps, Linked, from, until)| ==
            |Instants(ps, Outside, from, until)| + |Instants(ps, Within, from, until)|
  {
    if ps != [] { InstantsSplit(ps[1..], from, until); }
  }

  /** Every linked punch is counted, and is reported outside the window or lies within it. */
  lemma {:induction false} PunchCountSplits(punches: seq<Punch>, day: int, s: Shift, o: Overrides, now: int)
    ensures var e := Evaluate(punches, day, s, o, now);
            e.punchCount == |e.outside| + |Instants(Sort(punches, Earlier), Within, From(day, s), To(day, s))|
  {
    InstantsSplit(Sort(punches, Earlier), From(day, s), To(day, s));
  }

  lemma {:induction false} ThreeRoundings(a: int, b: int, c: int, n: int)
    requires a + b + c == n * MINUTE
    ensures -1 <= n - Minutes(a) - Minutes(b) - Minutes(c) <= 1
    ensures a % MINUTE == 0 && b % MINUTE == 0 ==> Minutes(a) + Minutes(b) + Minutes(c) == n
  {
    assert c % MINUTE == (n * MINUTE - a - b) % MINUTE;
  }

  lemma {:induction false} GapsAddUp(from: int, arrived: int, left: int, until: int, span: int)
    requires until - from == span * MINUTE && from % MINUTE == 0 && from <= arrived <= left <= until
    ensures var worked, gaps := Max(0, Minutes(left - arrived)), Minutes(arrived - from) + Minutes(until - left);
            var rest := Minutes(until - from) - worked - gaps;
            -1 <= rest <= 1 && (arrived % MINUTE == 0 && left % MINUTE == 0 ==> rest == 0)
  {
    ThreeRoundings(arrived - from, left - arrived, until - left, span);
    assert Minutes(span * MINUTE) == span;
  }

  /** The day's numbers for an arrival and a departure in order inside the window. */
  ghost predicate Balanced(e: Evaluation, from: int, until: int, grace: int)
    requires e.firstIn.Some? && e.lastOut.Some?
  {
    var arrival, departure := Minutes(e.firstIn.value - from), Minutes(until - e.lastOut.value);
    && -1 <= e.scheduled - e.worked - arrival - departure <= 1
    && (e.firstIn.value % MINUTE == 0 && e.lastOut.value % MINUTE == 0 ==>
       e.worked + arrival + departure == e.scheduled)
    && e.late == (if arrival > grace then arrival else 0) && e.early == (if departure > grace then departure else 0)
  }

  /**
   Worked time and the two gaps add up to the scheduled time, exactly for punches on the minute and within one minute
   for all others; late and early are the gaps, or 0 within grace.
   */
  lemma {:induction false} DayBalances(punches: seq<Punch>, day: int, s: Shift, o: Overrides, now: int)
    requires var e := Evaluate(punches, day, s, o, now);
             e.firstIn.Some? && e.lastOut.Some? && From(day, s) <= e.firstIn.value <= e.lastOut.value <= To(day, s)
    ensures Balanced(Evaluate(punches, day, s, o, now), From(day, s), To(day, s), s.grace)
  {
    var e := Evaluate(punches, day, s, o, now);
    assert From(day, s) == MINUTE * (1440 * day - 180 + s.start);
    GapsAddUp(From(day, s), e.firstIn.value, e.lastOut.value, To(day, s), Span(s));
  }
}
