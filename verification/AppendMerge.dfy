/**
 Merging of "event" fields (notes, lists): packages/domain/src/sync.ts, `appendValue`.
 `Appended` is what the merge yields; `AppendValue` is the loop that computes it. The lemmas show
 that merging is a join: nothing of either side is lost, repeats change nothing, and the
 order in which devices are merged does not matter for what the field holds.
 */
module AppendMerge {
  import opened Prelude
  import opened Values
  import opened Text

  // ---- adding, in order, the elements whose key is not there yet ----

  function LineKey(l: string): string { l }

  function Keys<T(==)>(s: seq<T>, key: T -> string): set<string> {
    set x | x in s :: key(x)
  }

  function AddNew<T(==)>(acc: seq<T>, more: seq<T>, key: T -> string): seq<T>
    decreases more
  {
    if more == [] then acc
    else if key(more[0]) in Keys(acc, key) then AddNew(acc, more[1..], key)
    else AddNew(acc + [more[0]], more[1..], key)
  }

  lemma {:induction false} KeysAppend<T>(s: seq<T>, t: seq<T>, key: T -> string)
    ensures Keys(s + t, key) == Keys(s, key) + Keys(t, key)
  {
    assert forall x :: x in s + t <==> x in s || x in t;
  }

  /** The union of the keys, behind everything that was already there; only new keys are added, once. */
  lemma {:induction false} AddNewUnion<T>(acc: seq<T>, more: seq<T>, key: T -> string)
    ensures acc <= AddNew(acc, more, key)
    ensures Keys(AddNew(acc, more, key), key) == Keys(acc, key) + Keys(more, key)
    ensures forall i :: |acc| <= i < |AddNew(acc, more, key)| ==>
              AddNew(acc, more, key)[i] in more
                  && key(AddNew(acc, more, key)[i]) !in Keys(AddNew(acc, more, key)[..i], key)
    decreases more
  {
    if more != [] {
      assert more == [more[0]] + more[1..];
      KeysAppend([more[0]], more[1..], key);
      assert Keys([more[0]], key) == {key(more[0])};
      if key(more[0]) in Keys(acc, key) {
        AddNewUnion(acc, more[1..], key);
      } else {
        AddNewUnion(acc + [more[0]], more[1..], key);
        KeysAppend(acc, [more[0]], key);
        var r := AddNew(acc + [more[0]], more[1..], key);
        assert r[|acc|] == (acc + [more[0]])[|acc|] && r[..|acc|] == acc;
      }
    }
  }

  lemma {:induction false} AddNewSteps<T>(acc: seq<T>, more: seq<T>, last: seq<T>, key: T -> string)
    ensures AddNew(acc, more + last, key) == AddNew(AddNew(acc, more, key), last, key)
    decreases more
  {
    if more == [] {
      assert more + last == last;
    } else {
      assert (more + last)[1..] == more[1..] + last;
      AddNewSteps(if key(more[0]) in Keys(acc, key) then acc else acc + [more[0]], more[1..], last, key);
    }
  }

  lemma {:induction false} AddNewKnown<T>(acc: seq<T>, more: seq<T>, key: T -> string)
    requires Keys(more, key) <= Keys(acc, key)
    ensures AddNew(acc, more, key) == acc
    decreases more
  {
    if more != [] {
      assert more[0] in more;
      assert Keys(more[1..], key) <= Keys(more, key);
      AddNewKnown(acc, more[1..], key);
    }
  }

  lemma {:induction false} AddNewAssociative<T>(acc: seq<T>, mid: seq<T>, more: seq<T>, key: T -> string)
    ensures AddNew(acc, AddNew(mid, more, key), key) == AddNew(AddNew(acc, mid, key), more, key)
    decreases more
  {
    if more != [] {
      if key(more[0]) in Keys(mid, key) {
        AddNewAssociative(acc, mid, more[1..], key);
        AddNewUnion(acc, mid, key);
      } else {
        AddNewAssociative(acc, mid + [more[0]], more[1..], key);
        AddNewSteps(acc, mid, [more[0]], key);
      }
    }
  }

  // ---- appendValue ----

  /** The text lines a value contributes: none unless it is a string. */
  function LinesOf(v: Value): seq<string> {
    if IsStr(v) then Lines(v.item.s) else []
  }

  function Appended(server: Value, client: Value): Value {
    if IsStr(server) || IsStr(client) then
      One(Str(Join(AddNew(LinesOf(server), LinesOf(client), LineKey))))
    else
      List(AddNew([], ItemsOf(server) + ItemsOf(client), ItemKey))
  }

  /** The accumulating loop both branches of the source run. */
  method CollectNew<T(==)>(acc: seq<T>, more: seq<T>, key: T -> string) returns (out: seq<T>)
    ensures out == AddNew(acc, more, key)
  {
    out := acc;
    var seen := Keys(acc, key);
    for i := 0 to |more|
      invariant seen == Keys(out, key)
      invariant AddNew(out, more[i..], key) == AddNew(acc, more, key)
    {
      assert more[i..][1..] == more[i + 1..];
      if key(more[i]) !in seen {
        KeysAppend(out, [more[i]], key);
        seen := seen + {key(more[i])};
        out := out + [more[i]];
      }
    }
  }

  method AppendValue(server: Value, client: Value) returns (v: Value)
    ensures v == Appended(server, client)
  {
    if IsStr(server) || IsStr(client) {
      var merged := CollectNew(LinesOf(server), LinesOf(client), LineKey);
      v := One(Str(Join(merged)));
    } else {
      var out := CollectNew([], ItemsOf(server) + ItemsOf(client), ItemKey);
      v := List(out);
    }
  }

  // ---- what merging promises ----

  lemma {:induction false} LineKeys(s: seq<string>)
    ensures Keys(s, LineKey) == Elements(s)
  {}

  lemma {:induction false} LinesOfClean(v: Value)
    ensures Clean(LinesOf(v))
  {
    if IsStr(v) { LinesClean(v.item.s); }
  }

  lemma {:induction false} AddNewClean(a: seq<string>, b: seq<string>)
    requires Clean(a) && Clean(b)
    ensures Clean(AddNew(a, b, LineKey))
  {
    AddNewUnion(a, b, LineKey);
    var r := AddNew(a, b, LineKey);
    LineKeys(a);
    LineKeys(b);
    LineKeys(r);
    forall l | l in r ensures CleanLine(l) {
      assert l in Elements(r);
    }
  }

  lemma {:induction false} MergedText(server: Value, client: Value)
    requires IsStr(server) || IsStr(client)
    ensures LinesOf(Appended(server, client)) == AddNew(LinesOf(server), LinesOf(client), LineKey)
  {
    LinesOfClean(server);
    LinesOfClean(client);
    AddNewClean(LinesOf(server), LinesOf(client));
    LinesOfJoin(AddNew(LinesOf(server), LinesOf(client), LineKey));
  }

  /** The merged field reads back as the merged lines: joining loses nothing. */
  lemma {:induction false} MergedLines(server: Value, client: Value)
    ensures LinesOf(Appended(server, client)) == AddNew(LinesOf(server), LinesOf(client), LineKey)
  {
    if IsStr(server) || IsStr(client) { MergedText(server, client); }
  }

  lemma {:induction false} NewLines(a: seq<string>, b: seq<string>)
    ensures var r := AddNew(a, b, LineKey);
            && a <= r
            && Elements(r) == Elements(a) + Elements(b)
            && (forall i, j :: 0 <= i < j < |r| && |a| <= j ==> r[i] != r[j])
  {
    var r := AddNew(a, b, LineKey);
    AddNewUnion(a, b, LineKey);
    LineKeys(a);
    LineKeys(b);
    LineKeys(r);
    forall i, j | 0 <= i < j < |r| && |a| <= j ensures r[i] != r[j] {
      LineKeys(r[..j]);
      assert r[..j][i] == r[i];
    }
  }

  /** Server text first and in order; every line of either side survives; the client adds no duplicate. */
  lemma {:induction false} TextMergeKeepsBothSides(server: Value, client: Value)
    requires IsStr(server) || IsStr(client)
    ensures var r := LinesOf(Appended(server, client));
            && LinesOf(server) <= r
            && Elements(r) == Elements(LinesOf(server)) + Elements(LinesOf(client))
            && (forall i, j :: 0 <= i < j < |r| && |LinesOf(server)| <= j ==> r[i] != r[j])
  {
    MergedLines(server, client);
    NewLines(LinesOf(server), LinesOf(client));
  }

  /** Lists likewise: the first item of every key of either side, server side first, each key once. */
  lemma {:induction false} ListMergeKeepsBothSides(server: Value, client: Value)
    requires !IsStr(server) && !IsStr(client)
    ensures var r := ItemsOf(Appended(server, client));
            && Keys(r, ItemKey) == Keys(ItemsOf(server), ItemKey) + Keys(ItemsOf(client), ItemKey)
            && AddNew([], ItemsOf(server), ItemKey) <= r
            && (forall i, j :: 0 <= i < j < |r| ==> ItemKey(r[i]) != ItemKey(r[j]))
  {
    var s, c := ItemsOf(server), ItemsOf(client);
    AddNewUnion([], s + c, ItemKey);
    KeysAppend(s, c, ItemKey);
    AddNewSteps([], s, c, ItemKey);
    AddNewUnion(AddNew([], s, ItemKey), c, ItemKey);
    var r := AddNew([], s + c, ItemKey);
    forall i, j | 0 <= i < j < |r| ensures ItemKey(r[i]) != ItemKey(r[j]) {
      assert r[..j][i] == r[i];
    }
  }

  /** Sending the same value again changes nothing, whatever the shapes. */
  lemma {:induction false} AppendIdempotent(server: Value, client: Value)
    ensures Appended(Appended(server, client), client) == Appended(server, client)
  {
    if IsStr(server) || IsStr(client) {
      MergedLines(server, client);
      AddNewUnion(LinesOf(server), LinesOf(client), LineKey);
      AddNewKnown(LinesOf(Appended(server, client)), LinesOf(client), LineKey);
    } else {
      var s, c := ItemsOf(server), ItemsOf(client);
      var r := AddNew([], s + c, ItemKey);
      AddNewSteps([], r, c, ItemKey);
      AddNewAssociative([], [], s + c, ItemKey);
      AddNewUnion([], s + c, ItemKey);
      KeysAppend(s, c, ItemKey);
      AddNewKnown(r, c, ItemKey);
    }
  }

  lemma {:induction false} TextsAssociative(a: Value, b: Value, c: Value)
    requires IsStr(a) || IsStr(b) || IsStr(c)
    ensures Appended(Appended(a, b), c) == Appended(a, Appended(b, c))
  {
    MergedLines(a, b);
    MergedLines(b, c);
    AddNewAssociative(LinesOf(a), LinesOf(b), LinesOf(c), LineKey);
  }

  lemma {:induction false} ItemsAssociative(s: seq<Item>, t: seq<Item>, u: seq<Item>)
    ensures AddNew([], AddNew([], s + t, ItemKey) + u, ItemKey) == AddNew([], s + AddNew([], t + u, ItemKey), ItemKey)
  {
    AddNewSteps([], AddNew([], s + t, ItemKey), u, ItemKey);
    AddNewAssociative([], [], s + t, ItemKey);
    AddNewSteps([], s + t, u, ItemKey);
    AddNewSteps([], s, AddNew([], t + u, ItemKey), ItemKey);
    AddNewAssociative(AddNew([], s, ItemKey), [], t + u, ItemKey);
    AddNewSteps([], s, t + u, ItemKey);
    assert (s + t) + u == s + (t + u);
  }

  /** Merging in two stages or in one is the same, whatever the shapes. */
  lemma {:induction false} AppendAssociative(a: Value, b: Value, c: Value)
    ensures Appended(Appended(a, b), c) == Appended(a, Appended(b, c))
  {
    if IsStr(a) || IsStr(b) || IsStr(c) {
      TextsAssociative(a, b, c);
    } else {
      ItemsAssociative(ItemsOf(a), ItemsOf(b), ItemsOf(c));
    }
  }

  // ---- many devices ----

  /** What a field holds once order is forgotten. A text absorbs a list. */
  datatype Content = TextLines(lines: set<string>) | ListKeys(keys: set<string>)

  function ContentOf(v: Value): Content {
    if IsStr(v) then TextLines(Elements(LinesOf(v))) else ListKeys(Keys(ItemsOf(v), ItemKey))
  }

  function JoinContent(a: Content, b: Content): Content {
    if a.TextLines? && b.TextLines? then TextLines(a.lines + b.lines)
    else if a.TextLines? then a
    else if b.TextLines? then b
    else ListKeys(a.keys + b.keys)
  }

  lemma {:induction false} TextJoin(server: Value, client: Value)
    requires IsStr(server) || IsStr(client)
    ensures ContentOf(Appended(server, client)) == TextLines(Elements(LinesOf(server)) + Elements(LinesOf(client)))
  {
    MergedText(server, client);
    NewLines(LinesOf(server), LinesOf(client));
  }

  lemma {:induction false} ListJoin(server: Value, client: Value)
    requires !IsStr(server) && !IsStr(client)
    ensures ContentOf(Appended(server, client)) ==
            ListKeys(Keys(ItemsOf(server), ItemKey) + Keys(ItemsOf(client), ItemKey))
  {
    ListMergeKeepsBothSides(server, client);
  }

  lemma {:induction false} JoinTexts(a: set<string>, b: set<string>, c: Content, d: Content)
    requires c == TextLines(a) || (c.ListKeys? && a == {})
    requires d == TextLines(b) || (d.ListKeys? && b == {})
    requires c.TextLines? || d.TextLines?
    ensures JoinContent(c, d) == TextLines(a + b)
  {
    assert a + {} == a && {} + b == b;
  }

  /** Merging is the join of a semilattice. */
  lemma {:induction false} AppendIsJoin(server: Value, client: Value)
    ensures ContentOf(Appended(server, client)) == JoinContent(ContentOf(server), ContentOf(client))
  {
    if IsStr(server) || IsStr(client) {
      TextJoin(server, client);
      JoinTexts(Elements(LinesOf(server)), Elements(LinesOf(client)), ContentOf(server), ContentOf(client));
    } else {
      ListJoin(server, client);
    }
  }

  function MergeDevices(server: Value, devices: seq<Value>): Value
    decreases devices
  {
    if devices == [] then server else MergeDevices(Appended(server, devices[0]), devices[1..])
  }

  function JoinAll(c: Content, vs: seq<Value>): Content
    decreases vs
  {
    if vs == [] then c else JoinAll(JoinContent(c, ContentOf(vs[0])), vs[1..])
  }

  lemma {:induction false} MergeDevicesIsJoinAll(server: Value, devices: seq<Value>)
    ensures ContentOf(MergeDevices(server, devices)) == JoinAll(ContentOf(server), devices)
    decreases devices
  {
    if devices != [] {
      AppendIsJoin(server, devices[0]);
      MergeDevicesIsJoinAll(Appended(server, devices[0]), devices[1..]);
    }
  }

  predicate AnyText(vs: seq<Value>) { vs != [] && (IsStr(vs[0]) || AnyText(vs[1..])) }

  /** The keys contributed by the texts among `vs` (`texts`), or by the others. */
  function Contributed(vs: seq<Value>, texts: bool): set<string> {
    if vs == [] then {}
    else (if IsStr(vs[0]) == texts then Held(ContentOf(vs[0])) else {}) + Contributed(vs[1..], texts)
  }

  function Held(c: Content): set<string> { if c.TextLines? then c.lines else c.keys }

  function Closed(c: Content, anyText: bool, texts: set<string>, keys: set<string>): Content {
    if c.TextLines? then TextLines(c.lines + texts) else if anyText then TextLines(texts) else ListKeys(c.keys + keys)
  }

  lemma {:induction false} ClosedJoin(c: Content, d: Content, anyText: bool, texts: set<string>, keys: set<string>)
    requires anyText || texts == {}
    ensures Closed(JoinContent(c, d), anyText, texts, keys) ==
            Closed(c, d.TextLines? || anyText, (if d.TextLines? then Held(d) else {}) + texts,
                (if d.TextLines? then {} else Held(d)) + keys)
  {
    assert {} + texts == texts && {} + keys == keys;
    if c.TextLines? && d.TextLines? {
      assert (c.lines + d.lines) + texts == c.lines + (d.lines + texts);
    } else if c.ListKeys? && d.ListKeys? {
      assert (c.keys + d.keys) + keys == c.keys + (d.keys + keys);
    }
  }

  lemma {:induction false} NoTextNoLines(vs: seq<Value>)
    requires !AnyText(vs)
    ensures Contributed(vs, true) == {}
  {
    if vs != [] { NoTextNoLines(vs[1..]); }
  }

  /** Many joins at once: all texts' lines if there is a text, all lists' keys otherwise. */
  lemma {:induction false} JoinAllClosedForm(c: Content, vs: seq<Value>)
    ensures JoinAll(c, vs) == Closed(c, AnyText(vs), Contributed(vs, true), Contributed(vs, false))
    decreases vs
  {
    if vs == [] {
      if c.TextLines? { assert c.lines + {} == c.lines; } else { assert c.keys + {} == c.keys; }
    } else {
      var rest := vs[1..];
      JoinAllClosedForm(JoinContent(c, ContentOf(vs[0])), rest);
      if !AnyText(rest) { NoTextNoLines(rest); }
      ClosedJoin(c, ContentOf(vs[0]), AnyText(rest), Contributed(rest, true), Contributed(rest, false));
    }
  }

  lemma {:induction false} ContributedMembers(vs: seq<Value>, texts: bool, k: string)
    ensures k in Contributed(vs, texts) <==> exists v :: v in vs && IsStr(v) == texts && k in Held(ContentOf(v))
  {
    if vs != [] {
      ContributedMembers(vs[1..], texts, k);
      assert forall v :: v in vs <==> v == vs[0] || v in vs[1..];
    }
  }

  lemma {:induction false} AnyTextMembers(vs: seq<Value>)
    ensures AnyText(vs) <==> exists v :: v in vs && IsStr(v)
  {
    if vs != [] {
      AnyTextMembers(vs[1..]);
      assert forall v :: v in vs <==> v == vs[0] || v in vs[1..];
    }
  }

  lemma {:induction false} ContributedBySet(devices: seq<Value>, others: seq<Value>, texts: bool)
    requires forall v :: v in devices <==> v in others
    ensures Contributed(devices, texts) == Contributed(others, texts)
  {
    forall k ensures k in Contributed(devices, texts) <==> k in Contributed(others, texts) {
      ContributedMembers(devices, texts, k);
      ContributedMembers(others, texts, k);
    }
  }

  /** Any order, any repetition: devices with the same set of contributions leave the same content. */
  lemma {:induction false} DeviceOrderIrrelevant(server: Value, devices: seq<Value>, others: seq<Value>)
    requires Elements(devices) == Elements(others)
    ensures ContentOf(MergeDevices(server, devices)) == ContentOf(MergeDevices(server, others))
  {
    forall v ensures v in devices <==> v in others {
      assert v in devices <==> v in Elements(devices);
      assert v in others <==> v in Elements(others);
    }
    MergeDevicesIsJoinAll(server, devices);
    MergeDevicesIsJoinAll(server, others);
    JoinAllClosedForm(ContentOf(server), devices);
    JoinAllClosedForm(ContentOf(server), others);
    AnyTextMembers(devices);
    AnyTextMembers(others);
    ContributedBySet(devices, others, true);
    ContributedBySet(devices, others, false);
  }

  /** The one way a merge loses work: what a list held is dropped when it meets a text without it, and only then. */
  lemma {:induction false} MergeLosesIffShapesDiffer(server: Value, client: Value)
    ensures Held(ContentOf(server)) + Held(ContentOf(client)) <= Held(ContentOf(Appended(server, client)))
            <==> (IsStr(server) == IsStr(client)
                  || (if IsStr(server) then Held(ContentOf(client)) <= Held(ContentOf(server))
                      else Held(ContentOf(server)) <= Held(ContentOf(client))))
  {
    AppendIsJoin(server, client);
  }

  lemma {:induction false} ContentOfOne(i: Item)
    ensures ContentOf(List([i])) == ListKeys({ItemKey(i)})
  {
    var items := [i];
    assert items[0] in items;
    assert forall x :: x in items <==> x == i;
  }

  lemma {:induction false} TextAbsorbs(server: Value, list: Value)
    requires IsStr(server) && !IsStr(list)
    ensures ContentOf(Appended(server, list)) == TextLines(Elements(LinesOf(server)))
  {
    AppendIsJoin(server, list);
  }

  /** It happens: a device's list meets a text on the server that lacks its item, and the item is gone. */
  lemma {:induction false} TextSwallowsItem(server: Value, item: string)
    requires IsStr(server) && item !in Elements(LinesOf(server))
    ensures item in Held(ContentOf(List([Str(item)])))
    ensures item !in Held(ContentOf(Appended(server, List([Str(item)]))))
  {
    ContentOfOne(Str(item));
    TextAbsorbs(server, List([Str(item)]));
  }
}
