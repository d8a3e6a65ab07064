/**
 What becomes of an "event" field (notes, lists) on a device while it pulls: each change merges the server's value with
 the device's (packages/domain/src/client.ts:168-191). The value itself depends on order; what the field holds does not.
 */
module PulledNotes {
  import opened Prelude
  import opened Values
  import opened Text
  import opened AppendMerge

  /** The field after one change: a blank one is taken over, any other is merged behind the server's. */
  function PulledOver(mine: Value, theirs: Value): Value { if IsBlank(mine) then theirs else Appended(theirs, mine) }

  function PulledInto(mine: Value, ts: seq<Value>): Value
    decreases ts
  {
    if ts == [] then mine else PulledInto(PulledOver(mine, ts[0]), ts[1..])
  }

  /** A field holds nothing, a text without any line, the lines of a text, or the items of a list. */
  datatype Holding = Nothing | Spaces | SomeLines(lines: set<string>) | SomeItems(keys: set<string>)

  function LineSet(v: Value): set<string> { Elements(LinesOf(v)) }

  function KeySet(v: Value): set<string> { if IsStr(v) then {} else Keys(ItemsOf(v), ItemKey) }

  function TextHolding(lines: set<string>): Holding { if lines == {} then Nothing else SomeLines(lines) }

  function ListHolding(keys: set<string>): Holding { if keys == {} then Nothing else SomeItems(keys) }

  function Holds(v: Value): Holding {
    if IsBlank(v) then Nothing
    else if !IsStr(v) then SomeItems(KeySet(v))
    else if LineSet(v) == {} then Spaces
    else SomeLines(LineSet(v))
  }

  function LinesIn(h: Holding): set<string> { if h.SomeLines? then h.lines else {} }

  function KeysIn(h: Holding): set<string> { if h.SomeItems? then h.keys else {} }

  predicate Proper(h: Holding) { (h.SomeLines? ==> h.lines != {}) && (h.SomeItems? ==> h.keys != {}) }

  lemma {:induction false} HoldsItsContent(v: Value)
    ensures LinesIn(Holds(v)) == LineSet(v) && KeysIn(Holds(v)) == KeySet(v) && Proper(Holds(v))
  {
    if IsBlank(v) {
      assert LinesOf(v) == [];
    } else if !IsStr(v) {
      assert ItemKey(ItemsOf(v)[0]) in Keys(ItemsOf(v), ItemKey);
    }
  }

  // ---- one change ----

  /** What a field that held `h` holds after value `t` was pulled over it. */
  function HoldsNext(h: Holding, t: Value): Holding {
    match h
    case Nothing => Holds(t)
    case Spaces => TextHolding(LineSet(t))
    case SomeLines(lines) => SomeLines(LineSet(t) + lines)
    case SomeItems(keys) => if IsStr(t) then TextHolding(LineSet(t)) else SomeItems(KeySet(t) + keys)
  }

  lemma {:induction false} EmptyLines(s: seq<string>)
    ensures Elements(s) == {} <==> s == []
  {
    if s != [] { assert s[0] in Elements(s); }
  }

  lemma {:induction false} TextsHold(server: Value, client: Value)
    requires IsStr(server) || IsStr(client)
    ensures Holds(Appended(server, client)) == TextHolding(LineSet(server) + LineSet(client))
  {
    TextJoin(server, client);
    NewLines(LinesOf(server), LinesOf(client));
    EmptyLines(AddNew(LinesOf(server), LinesOf(client), LineKey));
    HoldsItsContent(Appended(server, client));
  }

  lemma {:induction false} ListsHold(server: Value, client: Value)
    requires !IsStr(server) && !IsStr(client) && KeySet(client) != {}
    ensures Holds(Appended(server, client)) == SomeItems(KeySet(server) + KeySet(client))
  {
    ListJoin(server, client);
  }

  lemma {:induction false} NoLines(v: Value)
    requires !IsStr(v)
    ensures LineSet(v) == {}
  {}

  lemma {:induction false} TextsHoldNext(mine: Value, theirs: Value)
    requires !IsBlank(mine) && (IsStr(mine) || IsStr(theirs))
    ensures TextHolding(LineSet(theirs) + LineSet(mine)) == HoldsNext(Holds(mine), theirs)
  {
    if !IsStr(mine) { NoLines(mine); }
    var a, b := LineSet(theirs), LineSet(mine);
    if b == {} {
      assert a + b == a;
    } else {
      assert a + b != {} by { var l :| l in b; assert l in a + b; }
    }
  }

  lemma {:induction false} HoldsAfterOne(mine: Value, theirs: Value)
    ensures Holds(PulledOver(mine, theirs)) == HoldsNext(Holds(mine), theirs)
  {
    if !IsBlank(mine) {
      if IsStr(mine) || IsStr(theirs) {
        TextsHold(theirs, mine);
        TextsHoldNext(mine, theirs);
      } else {
        HoldsItsContent(mine);
        ListsHold(theirs, mine);
      }
    }
  }

  // ---- runs ----

  function HoldsAfter(h: Holding, ts: seq<Value>): Holding
    decreases ts
  {
    if ts == [] then h else HoldsAfter(HoldsNext(h, ts[0]), ts[1..])
  }

  lemma {:induction false} HoldsAfterRun(mine: Value, ts: seq<Value>)
    ensures Holds(PulledInto(mine, ts)) == HoldsAfter(Holds(mine), ts)
    decreases ts
  {
    if ts != [] {
      HoldsAfterOne(mine, ts[0]);
      HoldsAfterRun(PulledOver(mine, ts[0]), ts[1..]);
    }
  }

  lemma {:induction false} HoldsAfterBoth(h: Holding, a: seq<Value>, b: seq<Value>)
    ensures HoldsAfter(h, a + b) == HoldsAfter(HoldsAfter(h, a), b)
    decreases a
  {
    if a == [] {
      assert a + b == b;
    } else {
      assert (a + b)[1..] == a[1..] + b;
      HoldsAfterBoth(HoldsNext(h, a[0]), a[1..], b);
    }
  }

  /** A device's lines survive every run. */
  lemma {:induction false} LinesSurvive(h: Holding, ts: seq<Value>)
    ensures LinesIn(h) <= LinesIn(HoldsAfter(h, ts))
    decreases ts
  {
    if ts != [] { LinesSurvive(HoldsNext(h, ts[0]), ts[1..]); }
  }

  /** A device's items survive every run in which no text is pulled. */
  lemma {:induction false} ItemsSurvive(h: Holding, ts: seq<Value>)
    requires !AnyText(ts)
    ensures KeysIn(h) <= KeysIn(HoldsAfter(h, ts)) && (h == Nothing || h.SomeItems? ==> !HoldsAfter(h, ts).SomeLines?)
    decreases ts
  {
    if ts != [] {
      HoldsItsContent(ts[0]);
      ItemsSurvive(HoldsNext(h, ts[0]), ts[1..]);
    }
  }

  lemma {:induction false} ProperAfter(h: Holding, ts: seq<Value>)
    requires Proper(h)
    ensures Proper(HoldsAfter(h, ts))
    decreases ts
  {
    if ts != [] {
      HoldsItsContent(ts[0]);
      ProperAfter(HoldsNext(h, ts[0]), ts[1..]);
    }
  }

  lemma {:induction false} OnlyLists(h: Holding, ts: seq<Value>)
    requires Proper(h) && !AnyText(ts) && (h == Nothing || h.SomeItems?)
    ensures HoldsAfter(h, ts) == ListHolding(KeysIn(h) + Contributed(ts, false))
    decreases ts
  {
    if ts == [] {
      assert KeysIn(h) + {} == KeysIn(h);
    } else {
      HoldsItsContent(ts[0]);
      assert Held(ContentOf(ts[0])) == KeySet(ts[0]);
      var next := HoldsNext(h, ts[0]);
      OnlyLists(next, ts[1..]);
      assert KeysIn(next) == KeySet(ts[0]) + KeysIn(h);
      assert KeysIn(next) + Contributed(ts[1..], false) == KeysIn(h) + (KeySet(ts[0]) + Contributed(ts[1..], false));
    }
  }

  lemma {:induction false} HoldsAfterLast(h: Holding, ts: seq<Value>, t: Value)
    ensures HoldsAfter(h, ts + [t]) == HoldsNext(HoldsAfter(h, ts), t)
  {
    HoldsAfterBoth(h, ts, [t]);
    var before := HoldsAfter(h, ts);
    assert HoldsAfter(before, [t]) == HoldsAfter(HoldsNext(before, t), [t][1..]);
  }

  /** The first text pulled over a list leaves its own lines and nothing else. */
  lemma {:induction false} FirstTextReplacesItems(h: Holding, ts: seq<Value>, text: Value)
    requires Proper(h) && !AnyText(ts) && IsStr(text) && (h == Nothing || h.SomeItems?)
    ensures LinesIn(HoldsAfter(h, ts + [text])) == LineSet(text) && KeysIn(HoldsAfter(h, ts + [text])) == {}
  {
    OnlyLists(h, ts);
    HoldsItsContent(text);
    HoldsAfterLast(h, ts, text);
  }

  // ---- replaying a run ----

  /** A pulled text with a line in it, or an empty one: what a list held before it no longer matters. */
  predicate Settles(t: Value) { IsStr(t) && Holds(t) != Spaces }

  predicate AnySettles(ts: seq<Value>) { ts != [] && (Settles(ts[0]) || AnySettles(ts[1..])) }

  lemma {:induction false} NextLines(h: Holding, t: Value)
    ensures LinesIn(HoldsNext(h, t)) == LinesIn(h) + LineSet(t)
  {
    HoldsItsContent(t);
    if h.SomeItems? && !IsStr(t) { NoLines(t); }
    assert {} + LineSet(t) == LineSet(t);
  }

  lemma {:induction false} TextsContribute(t: Value, ts: seq<Value>)
    ensures Contributed([t] + ts, true) == LineSet(t) + Contributed(ts, true)
  {
    assert ([t] + ts)[1..] == ts;
    if !IsStr(t) { NoLines(t); }
  }

  lemma {:induction false} LinesComeFromTexts(h: Holding, ts: seq<Value>)
    ensures LinesIn(HoldsAfter(h, ts)) == LinesIn(h) + Contributed(ts, true)
    decreases ts
  {
    if ts == [] {
      assert LinesIn(h) + {} == LinesIn(h);
    } else {
      NextLines(h, ts[0]);
      assert [ts[0]] + ts[1..] == ts;
      TextsContribute(ts[0], ts[1..]);
      LinesComeFromTexts(HoldsNext(h, ts[0]), ts[1..]);
      Regroup(LinesIn(h), LineSet(ts[0]), Contributed(ts[1..], true));
    }
  }

  lemma {:induction false} Regroup(a: set<string>, b: set<string>, c: set<string>)
    ensures (a + b) + c == a + (b + c)
  {}

  lemma {:induction false} TextStays(lines: set<string>, ts: seq<Value>)
    ensures HoldsAfter(SomeLines(lines), ts) == SomeLines(lines + Contributed(ts, true))
  {
    LinesComeFromTexts(SomeLines(lines), ts);
    StaysText(lines, ts);
  }

  lemma {:induction false} StaysText(lines: set<string>, ts: seq<Value>)
    ensures HoldsAfter(SomeLines(lines), ts).SomeLines?
    decreases ts
  {
    if ts != [] { StaysText(LineSet(ts[0]) + lines, ts[1..]); }
  }

  /** Once a run has led to a text with lines, it leads there again. */
  lemma {:induction false} TextReplays(h: Holding, ts: seq<Value>)
    requires HoldsAfter(h, ts).SomeLines?
    ensures HoldsAfter(HoldsAfter(h, ts), ts) == HoldsAfter(h, ts)
  {
    var once := HoldsAfter(h, ts);
    LinesComeFromTexts(h, ts);
    TextStays(once.lines, ts);
    assert once.lines + Contributed(ts, true) == once.lines;
  }

  /** Two fields without lines are the same from a settling text on. */
  lemma {:induction false} SettledAlike(h: Holding, g: Holding, ts: seq<Value>)
    requires Proper(h) && Proper(g) && AnySettles(ts) && !HoldsAfter(h, ts).SomeLines? && !HoldsAfter(g, ts).SomeLines?
    ensures HoldsAfter(h, ts) == HoldsAfter(g, ts)
    decreases ts
  {
    HoldsItsContent(ts[0]);
    LinesSurvive(HoldsNext(h, ts[0]), ts[1..]);
    LinesSurvive(HoldsNext(g, ts[0]), ts[1..]);
    if !Settles(ts[0]) { SettledAlike(HoldsNext(h, ts[0]), HoldsNext(g, ts[0]), ts[1..]); }
  }

  lemma {:induction false} ReplaySettled(h: Holding, ts: seq<Value>)
    requires Proper(h) && AnySettles(ts)
    ensures HoldsAfter(HoldsAfter(h, ts), ts) == HoldsAfter(h, ts)
  {
    var once := HoldsAfter(h, ts);
    if once.SomeLines? {
      TextReplays(h, ts);
    } else {
      ProperAfter(h, ts);
      ProperAfter(once, ts);
      LinesComeFromTexts(h, ts);
      LinesComeFromTexts(once, ts);
      assert LinesIn(HoldsAfter(once, ts)) == {};
      SettledAlike(once, h, ts);
    }
  }

  lemma {:induction false} ReplayOfLists(h: Holding, ts: seq<Value>)
    requires Proper(h) && !AnyText(ts) && (h == Nothing || h.SomeItems?)
    ensures HoldsAfter(HoldsAfter(h, ts), ts) == HoldsAfter(h, ts)
  {
    var once := HoldsAfter(h, ts);
    OnlyLists(h, ts);
    OnlyLists(once, ts);
    assert KeysIn(once) + Contributed(ts, false) == KeysIn(once);
  }

  lemma {:induction false} ReplayOverSpacesIff(ts: seq<Value>)
    requires ts != [] && !AnyText(ts)
    ensures HoldsAfter(HoldsAfter(Spaces, ts), ts) == HoldsAfter(Spaces, ts) <==>
            KeySet(ts[0]) <= Contributed(ts[1..], false)
  {
    var late := Contributed(ts[1..], false);
    var once := HoldsAfter(Spaces, ts);
    NoLines(ts[0]);
    OnlyLists(Nothing, ts[1..]);
    assert {} + late == late;
    assert once == ListHolding(late);
    OnlyLists(once, ts);
    HoldsItsContent(ts[0]);
    assert Contributed(ts, false) == KeySet(ts[0]) + late;
    assert KeysIn(once) + Contributed(ts, false) == KeySet(ts[0]) + late;
    if KeySet(ts[0]) <= late { assert KeySet(ts[0]) + late == late; }
  }

  /**
   Replaying a run leaves a field holding what it held, if a pulled text settles it or it leads to a text with lines. If
   no text is pulled, it does so exactly when the field was not a text of mere space, or the items of the first change
   come again later.
   */
  lemma {:induction false} ReplayHoldsIff(h: Holding, ts: seq<Value>)
    requires Proper(h) && ts != []
    ensures AnySettles(ts) || h.SomeLines? ==> HoldsAfter(HoldsAfter(h, ts), ts) == HoldsAfter(h, ts)
    ensures !AnyText(ts) ==> (HoldsAfter(HoldsAfter(h, ts), ts) == HoldsAfter(h, ts) <==>
                              (h == Spaces ==> KeySet(ts[0]) <= Contributed(ts[1..], false)))
  {
    if h.SomeLines? {
      LinesSurvive(h, ts);
      TextStays(h.lines, ts);
      TextReplays(h, ts);
    } else if AnySettles(ts) {
      ReplaySettled(h, ts);
      SettlesIsText(ts);
    } else if !AnyText(ts) {
      if h == Spaces { ReplayOverSpacesIff(ts); } else { ReplayOfLists(h, ts); }
    }
  }

  lemma {:induction false} SettlesIsText(ts: seq<Value>)
    requires AnySettles(ts)
    ensures AnyText(ts)
  {
    if !Settles(ts[0]) { SettlesIsText(ts[1..]); }
  }

  lemma {:induction false} OneSpace()
    ensures Holds(One(Str(" "))) == Spaces
  {
    assert " "[1..] == "";
    var rest := Split("");
    assert rest == [""] && Split(" ") == [[' '] + rest[0]] + rest[1..];
    assert [' '] + "" == " ";
    assert TrimLeft(" ") == TrimLeft("") == "";
    assert Split(" ")[1..] == [];
  }

  lemma {:induction false} SpaceSwallowsItem(key: string)
    ensures var ts := [List([Str(key)])];
            && HoldsAfter(Holds(One(Str(" "))), ts) == Nothing
            && HoldsAfter(Nothing, ts) == SomeItems({key})
  {
    var ts := [List([Str(key)])];
    OneSpace();
    NoLines(ts[0]);
    assert ts[1..] == [];
    ContentOfOne(Str(key));
  }
}
