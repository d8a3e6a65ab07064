/**
 The work-order log as a table that devices write too: `workOrderLog` is an append-only entity of the sync channel, and
 an upsert on a row that is there overwrites it (`WorkOrderLogPushes`). When does the log still tell an order's path?
 */
module WorkOrderLogs {
  import opened Prelude
  import opened WorkOrders
  import opened WorkOrderLaws

  /** The steps the log shows lead from where the order began to its status. */
  ghost predicate Tells(s: Sys, id: OrderId) { id in s.desk.orders ==> Led(s.desk, OriginOf(s, id), id) }

  // ---- one row more, less or changed ----

  lemma {:induction false} StepAt(origin: Option<State>, a: seq<Entry>, r: Entry, b: seq<Entry>)
    requires Linked(origin, a + [r] + b)
    ensures r.from == EndOf(origin, a) && r.from != r.to && Linked(origin, a)
    ensures b != [] ==> b[0].from == r.to
    ensures b == [] ==> EndOf(origin, a + [r] + b) == r.to
  {
    var all := a + [r] + b;
    assert forall k :: 0 <= k < |a| ==> all[k] == a[k];
    assert all[|a|] == r;
    if b != [] { assert all[|a| + 1] == b[0]; }
  }

  /** A path with one step more or less is no path to the same end: no step leads from a state to itself. */
  lemma {:induction false} OneStepMoreBreaks(origin: Option<State>, a: seq<Entry>, r: Entry, b: seq<Entry>)
    requires Linked(origin, a + b) && Linked(origin, a + [r] + b)
    ensures EndOf(origin, a + b) != EndOf(origin, a + [r] + b)
  {
    StepAt(origin, a, r, b);
    if b == [] {
      assert a + b == a;
    } else {
      assert a + b == a + [b[0]] + b[1..];
      StepAt(origin, a, b[0], b[1..]);
    }
  }

  lemma {:induction false} OtherStepAgrees(origin: Option<State>, a: seq<Entry>, o: Entry, r: Entry, b: seq<Entry>)
    requires Linked(origin, a + [o] + b) && Linked(origin, a + [r] + b)
    requires EndOf(origin, a + [o] + b) == EndOf(origin, a + [r] + b)
    ensures r.from == o.from && r.to == o.to
  {
    StepAt(origin, a, o, b);
    StepAt(origin, a, r, b);
  }

  /** A step that changes place past others leaves no path, whatever it says. */
  lemma {:induction false} MovedStepBreaks(origin: Option<State>, a: seq<Entry>, o: Entry, m: seq<Entry>,
                                           rest: seq<Entry>)
    requires m != [] && Linked(origin, a + [o] + rest) && rest != [] && rest[0] == m[0]
    ensures !Linked(origin, a + m)
  {
    StepAt(origin, a, o, rest);
    if Linked(origin, a + m) {
      assert a + m == a + [m[0]] + m[1..];
      StepAt(origin, a, m[0], m[1..]);
    }
  }

  /** One row more: a path to the same end only if that row shows no step. */
  lemma {:induction false} ExtraRowIsNote(origin: Option<State>, c: seq<Entry>, now: seq<Entry>, d: seq<Entry>)
    requires |now| <= 1 && Linked(origin, c + d) && Linked(origin, c + now + d)
    requires EndOf(origin, c + d) == EndOf(origin, c + now + d)
    ensures now == []
  {
    if now != [] {
      assert now == [now[0]];
      OneStepMoreBreaks(origin, c, now[0], d);
    }
  }

  /** One row of a path changed, moved, removed or added: it is a path to the same end only if nothing changed. */
  lemma {:induction false} OneRowEdit(origin: Option<State>, p: seq<Entry>, was: seq<Entry>, q: seq<Entry>,
                                      c: seq<Entry>, now: seq<Entry>, d: seq<Entry>)
    requires |was| <= 1 && |now| <= 1 && c + d == p + q
    requires Linked(origin, p + was + q) && Linked(origin, c + now + d)
    requires EndOf(origin, p + was + q) == EndOf(origin, c + now + d)
    ensures |was| == |now|
    ensures |c| == |p| || was == []
    ensures was != [] ==> now[0].from == was[0].from && now[0].to == was[0].to
  {
    if was == [] {
      assert p + was + q == c + d;
      ExtraRowIsNote(origin, c, now, d);
    } else {
      var o := was[0];
      assert was == [o];
      if now == [] {
        assert c + now + d == p + q;
        OneStepMoreBreaks(origin, p, o, q);
      } else {
        assert now == [now[0]];
        if |c| == |p| {
          assert c == (c + d)[..|c|] == p && d == (c + d)[|c|..] == q;
          OtherStepAgrees(origin, p, o, now[0], q);
        } else if |c| > |p| {
          var m := c[|p|..];
          assert c == p + m by { assert (c + d)[..|p|] == p; }
          assert q[0] == (p + q)[|p|] == (c + d)[|p|] == m[0];
          assert c + now + d == p + (m + now + d);
          MovedStepBreaks(origin, p, o, m + now + d, q);
        } else {
          var m := p[|c|..];
          assert p == c + m by { assert (p + q)[..|c|] == c; }
          assert d[0] == (c + d)[|c|] == (p + q)[|c|] == m[0];
          assert p + was + q == c + (m + was + q);
          MovedStepBreaks(origin, c, now[0], m + was + q, d);
        }
      }
    }
  }

  // ---- pushes ----

  lemma {:induction false} EntriesJoin(a: seq<Entry>, b: seq<Entry>, id: OrderId)
    ensures EntriesOf(a + b, id) == EntriesOf(a, id) + EntriesOf(b, id)
    decreases b
  {
    if b == [] {
      assert a + b == a;
    } else {
      var n := |b| - 1;
      assert (a + b)[..|a + b| - 1] == a + b[..n];
      EntriesJoin(a, b[..n], id);
    }
  }

  lemma {:induction false} EntriesWith(log: seq<Entry>, at: nat, row: Entry, id: OrderId)
    requires at <= |log|
    ensures EntriesOf(With(log, at, row), id) == EntriesOf(log[..at], id) + StepOf(row, id) + EntriesOf(log[at..], id)
    ensures EntriesOf(log, id) == EntriesOf(log[..at], id) + EntriesOf(log[at..], id)
  {
    EntriesAppend(log[..at], row, id);
    EntriesJoin(log[..at] + [row], log[at..], id);
    EntriesJoin(log[..at], log[at..], id);
    assert log == log[..at] + log[at..];
  }

  lemma {:induction false} RowKeepsPathOnlyIfSame(origin: Option<State>, log: seq<Entry>, at: nat, row: Entry,
                                                  id: OrderId)
    requires at <= |log| && Linked(origin, EntriesOf(log, id)) && Linked(origin, EntriesOf(With(log, at, row), id))
    requires EndOf(origin, EntriesOf(log, id)) == EndOf(origin, EntriesOf(With(log, at, row), id))
    ensures EntriesOf(With(log, at, row), id) == EntriesOf(log, id)
  {
    var c, d := EntriesOf(log[..at], id), EntriesOf(log[at..], id);
    EntriesWith(log, at, row, id);
    ExtraRowIsNote(origin, c, StepOf(row, id), d);
    assert c + [] + d == c + d;
  }

  lemma {:induction false} TakeOutPutIn(log: seq<Entry>, k: nat, id: OrderId)
    requires k < |log|
    ensures EntriesOf(log, id) == EntriesOf(log[..k], id) + StepOf(log[k], id) + EntriesOf(log[k + 1..], id)
    ensures EntriesOf(Less(log, k), id) == EntriesOf(log[..k], id) + EntriesOf(log[k + 1..], id)
  {
    var rest := Less(log, k);
    assert rest[..k] == log[..k] && rest[k..] == log[k + 1..];
    assert With(rest, k, log[k]) == log;
    EntriesWith(rest, k, log[k], id);
  }

  lemma {:induction false} SameEdit(p: seq<Entry>, was: seq<Entry>, q: seq<Entry>, c: seq<Entry>, now: seq<Entry>,
                                    d: seq<Entry>)
    requires c + d == p + q && now == was && (|c| == |p| || was == [])
    ensures c + now + d == p + was + q
  {
    if was == [] {
      assert c + now + d == c + d && p + was + q == p + q;
    } else {
      assert c == (c + d)[..|c|] == p && d == (c + d)[|c|..] == q;
    }
  }

  /** A rewritten row that shows the step it showed is the row it was: the rest of it is history. */
  lemma {:induction false} SameStep(was: Entry, row: Entry, id: OrderId)
    requires row == was.(id := row.id, from := row.from, to := row.to)
    requires |StepOf(was, id)| == |StepOf(row, id)|
    requires StepOf(was, id) != [] ==>
               var a, b := StepOf(was, id)[0], StepOf(row, id)[0]; b.from == a.from && b.to == a.to
    ensures StepOf(row, id) == StepOf(was, id)
  {}

  lemma {:induction false} RewriteKeepsPathOnlyIfSame(origin: Option<State>, log: seq<Entry>, k: nat, at: nat,
                                                      row: Entry, id: OrderId)
    requires k < |log| && at < |log| && row == log[k].(id := row.id, from := row.from, to := row.to)
    requires var after := With(Less(log, k), at, row);
             && Linked(origin, EntriesOf(log, id)) && Linked(origin, EntriesOf(after, id))
             && EndOf(origin, EntriesOf(log, id)) == EndOf(origin, EntriesOf(after, id))
    ensures EntriesOf(With(Less(log, k), at, row), id) == EntriesOf(log, id)
  {
    var rest := Less(log, k);
    var c, d := EntriesOf(rest[..at], id), EntriesOf(rest[at..], id);
    var p, q := EntriesOf(log[..k], id), EntriesOf(log[k + 1..], id);
    var was, now := StepOf(log[k], id), StepOf(row, id);
    EntriesWith(rest, at, row, id);
    TakeOutPutIn(log, k, id);
    OneRowEdit(origin, p, was, q, c, now, d);
    SameStep(log[k], row, id);
    SameEdit(p, was, q, c, now, d);
  }

  /** A push leaves a log that tells the order's path telling it exactly when it leaves the order's steps as they
      were. */
  lemma {:induction false} PushKeepsPathIff(s: Sys, e: Event, id: OrderId)
    requires IsPush(e) && id in s.desk.orders && Tells(s, id)
    ensures Tells(Next(s, e), id) <==> EntriesOf(Next(s, e).desk.log, id) == EntriesOf(s.desk.log, id)
  {
    var d, f, origin := s.desk, Next(s, e).desk, OriginOf(s, id);
    if f != d && Tells(Next(s, e), id) {
      if e.PushRow? {
        RowKeepsPathOnlyIfSame(origin, d.log, e.at, e.row, id);
      } else {
        RewriteKeepsPathOnlyIfSame(origin, d.log, e.k, e.at, d.log[e.k].(id := e.id, from := e.from, to := e.to), id);
      }
    }
  }

  /** So a pushed row that records a step of the order always breaks it. */
  lemma {:induction false} PushedStepBreaks(s: Sys, at: nat, row: Entry)
    requires row.id in s.desk.orders && at <= |s.desk.log| && IsStep(row, row.id) && Tells(s, row.id)
    ensures !Tells(Next(s, PushRow(at, row)), row.id)
  {
    PushKeepsPathIff(s, PushRow(at, row), row.id);
    EntriesWith(s.desk.log, at, row, row.id);
  }

  // ---- the service ----

  lemma {:induction false} CommitKeepsTelling(d: Desk, t: Ticket, origin: Option<State>, id: OrderId)
    requires id in d.orders && (Current(d, t) ==> d.orders[t.id] == t.order) && GoodStep(MoveRow(t))
    ensures id in Committed(d, t).orders && (Led(Committed(d, t), origin, id) <==> Led(d, origin, id))
  {
    if CommitResult(d, t) == Applied {
      EntriesAppend(d.log, MoveRow(t), id);
      if t.id == id { ConnectedAppend(origin, EntriesOf(d.log, id), MoveRow(t)); }
    }
  }

  lemma {:induction false} OpenKeepsSteps(d: Desk, e: Event, id: OrderId)
    requires e.Open? && id in d.orders
    ensures var f := Opened(d, e.id, e.who, e.requirePermit, e.emergency);
            id in f.orders && f.orders[id] == d.orders[id] && EntriesOf(f.log, id) == EntriesOf(d.log, id)
  {
    EntriesAppend(d.log, Entry(e.id, None, Some(Draft), e.who, false, false), id);
  }

  lemma {:induction false} NewOrderTells(s: Sys, e: Event, id: OrderId)
    requires NamesOrders(s.desk) && (id in s.arrived ==> id in s.desk.orders) && !IsPush(e) && id !in s.desk.orders
    ensures Tells(Next(s, e), id)
  {
    NoEntries(s.desk.log, id);
    if id in Next(s, e).desk.orders && e.Open? {
      OpenedTraced(s.desk, id, e.who, e.requirePermit, e.emergency);
    }
  }

  lemma {:induction false} TicketIsGood(s: Sys, t: Ticket)
    requires Locked(s) && t in s.tickets
    ensures GoodStep(MoveRow(t)) && (Current(s.desk, t) ==> s.desk.orders[t.id] == t.order)
  {
    assert Justified(t) && Snapshot(s.desk, t.id, t.order);
  }

  lemma {:induction false} SameStepsTell(s: Sys, u: Sys, id: OrderId)
    requires id in s.desk.orders && id in u.desk.orders && OriginOf(u, id) == OriginOf(s, id)
    requires u.desk.orders[id].status == s.desk.orders[id].status
    requires EntriesOf(u.desk.log, id) == EntriesOf(s.desk.log, id)
    ensures Tells(u, id) <==> Tells(s, id)
  {}

  /** What the service does neither breaks a log nor mends one. */
  lemma {:induction false} ServiceKeepsTelling(s: Sys, e: Event, id: OrderId)
    requires Locked(s) && id in s.desk.orders && !IsPush(e)
    ensures Tells(Next(s, e), id) <==> Tells(s, id)
  {
    if e.Commit? {
      if e.t in s.tickets {
        TicketIsGood(s, e.t);
        CommitKeepsTelling(s.desk, e.t, OriginOf(s, id), id);
      }
    } else {
      if e.Open? { OpenKeepsSteps(s.desk, e, id); }
      SameStepsTell(s, Next(s, e), id);
    }
  }

  // ---- runs ----

  ghost predicate TellsThroughout(s: Sys, es: seq<Event>, id: OrderId)
    decreases es
  {
    Tells(s, id) && (es == [] || TellsThroughout(Next(s, es[0]), es[1..], id))
  }

  /** No pushed row of this run changes what the log shows of the order's steps; notes may come and change as they
      like. */
  ghost predicate StepsUntouched(s: Sys, es: seq<Event>, id: OrderId)
    decreases es
  {
    es == [] || (&& (IsPush(es[0]) ==> EntriesOf(Next(s, es[0]).desk.log, id) == EntriesOf(s.desk.log, id))
                 && StepsUntouched(Next(s, es[0]), es[1..], id))
  }

  lemma {:induction false} PushOnUnknownOrder(s: Sys, e: Event, id: OrderId)
    requires Orderly(s) && IsPush(e) && id !in s.desk.orders
    ensures Tells(Next(s, e), id) && EntriesOf(Next(s, e).desk.log, id) == EntriesOf(s.desk.log, id)
  {
    PushNamesOrders(s.desk, e);
    NoEntries(s.desk.log, id);
    NoEntries(Next(s, e).desk.log, id);
  }

  lemma {:induction false} EventKeepsTellingIff(s: Sys, e: Event, id: OrderId)
    requires Orderly(s) && Tells(s, id)
    ensures Tells(Next(s, e), id) <==> (IsPush(e) ==> EntriesOf(Next(s, e).desk.log, id) == EntriesOf(s.desk.log, id))
  {
    if !IsPush(e) {
      if id in s.desk.orders { ServiceKeepsTelling(s, e, id); } else { NewOrderTells(s, e, id); }
    } else if id in s.desk.orders {
      PushKeepsPathIff(s, e, id);
    } else {
      PushOnUnknownOrder(s, e, id);
    }
  }

  lemma {:induction false} ThroughoutIff(s: Sys, es: seq<Event>, id: OrderId)
    requires Orderly(s) && Tells(s, id)
    ensures TellsThroughout(s, es, id) <==> StepsUntouched(s, es, id)
    decreases es
  {
    if es != [] {
      NextOrderly(s, es[0]);
      EventKeepsTellingIff(s, es[0], id);
      if Tells(Next(s, es[0]), id) { ThroughoutIff(Next(s, es[0]), es[1..], id); }
    }
  }

  lemma {:induction false} ThroughoutAtEnd(s: Sys, es: seq<Event>, id: OrderId)
    requires TellsThroughout(s, es, id)
    ensures Tells(After(s, es), id)
    decreases es
  {
    if es != [] { ThroughoutAtEnd(Next(s, es[0]), es[1..], id); }
  }

  /** Throughout a run the log of an order is a connected, permitted path from where it began to its current status
      exactly when no pushed row changes what the log shows of its steps. */
  lemma {:induction false} LogIsPathIff(es: seq<Event>, id: OrderId)
    ensures TellsThroughout(START, es, id) <==> StepsUntouched(START, es, id)
    ensures StepsUntouched(START, es, id) ==> Tells(After(START, es), id)
  {
    ThroughoutIff(START, es, id);
    if StepsUntouched(START, es, id) { ThroughoutAtEnd(START, es, id); }
  }

  lemma {:induction false} BothAppend(a: seq<Entry>, b: seq<Entry>, e: Entry, id: OrderId)
    requires EntriesOf(a, id) == EntriesOf(b, id)
    ensures EntriesOf(a + [e], id) == EntriesOf(b + [e], id)
  {
    EntriesAppend(a, e, id);
    EntriesAppend(b, e, id);
  }

  lemma {:induction false} SameAsHistory(s: Sys, e: Event, id: OrderId)
    requires EntriesOf(s.desk.log, id) == EntriesOf(s.moves, id)
    requires IsPush(e) ==> EntriesOf(Next(s, e).desk.log, id) == EntriesOf(s.desk.log, id)
    ensures EntriesOf(Next(s, e).desk.log, id) == EntriesOf(Next(s, e).moves, id)
  {
    var t := Next(s, e);
    ToldFollows(s, e);
    if !IsPush(e) && t.desk.log != s.desk.log {
      var row := if e.Open? then Entry(e.id, None, Some(Draft), e.who, false, false) else MoveRow(e.t);
      assert t.desk.log == s.desk.log + [row] && t.moves == s.moves + [row];
      BothAppend(s.desk.log, s.moves, row, id);
    }
  }

  /** And then it shows just what happened. */
  lemma {:induction false} LogIsHistory(s: Sys, es: seq<Event>, id: OrderId)
    requires EntriesOf(s.desk.log, id) == EntriesOf(s.moves, id) && StepsUntouched(s, es, id)
    ensures EntriesOf(After(s, es).desk.log, id) == EntriesOf(After(s, es).moves, id)
    decreases es
  {
    if es != [] {
      SameAsHistory(s, es[0], id);
      LogIsHistory(Next(s, es[0]), es[1..], id);
    }
  }

  lemma {:induction false} TwoSteps(first: Entry, second: Entry, id: OrderId)
    requires IsStep(first, id) && IsStep(second, id)
    ensures EntriesOf([first, second], id) == [first, second]
  {
    EntriesAppend([], first, id);
    assert [] + [first] == [first];
    EntriesAppend([first], second, id);
    assert [first] + [second] == [first, second];
  }

  lemma {:induction false} OpenThenPush(id: OrderId, who: Session, row: Entry)
    requires row.id == id
    ensures var s := After(START, [Open(id, who, false, false), PushRow(1, row)]);
            && s.desk.log == [Entry(id, None, Some(Draft), who, false, false), row]
            && id in s.desk.orders && s.desk.orders[id].status == Draft && s.arrived == map[]
  {
    var open, push := Open(id, who, false, false), PushRow(1, row);
    var s := Next(START, open);
    var t := Next(s, push);
    assert After(START, [open, push]) == After(s, [open, push][1..]) == After(t, [open, push][1..][1..]);
  }

  /** It happens: a draft whose log says that it is closed. */
  lemma {:induction false} LogMayLie(id: OrderId, who: Session) returns (es: seq<Event>)
    ensures var s := After(START, es);
            && id in s.desk.orders && s.desk.orders[id].status == Draft && !Tells(s, id)
            && EndOf(None, EntriesOf(s.desk.log, id)) == Some(Closed)
  {
    var row := Entry(id, Some(Draft), Some(Closed), who, false, false);
    es := [Open(id, who, false, false), PushRow(1, row)];
    OpenThenPush(id, who, row);
    TwoSteps(Entry(id, None, Some(Draft), who, false, false), row, id);
  }
}
