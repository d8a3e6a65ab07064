/** What holds of a device over whole pull cycles and over any run of pulled changes. */
module SyncDeviceLaws {
  import opened Prelude
  import opened Values
  import opened AppendMerge
  import opened PulledNotes
  import opened SyncMeta
  import opened SyncProtocol
  import opened SyncFeed
  import opened SyncDevice

  // ---- a paged pull is one pull ----

  /** The feed only grows from page to page, and `g` is any state of it from the last page on. */
  ghost predicate Growing(feeds: seq<Option<Feed>>, g: Feed) {
    && Sound(g)
    && (forall i :: 0 <= i < |feeds| && feeds[i].Some? ==> Sound(feeds[i].value) && Extends(feeds[i].value, g))
    && (forall i, j :: 0 <= i < j < |feeds| && feeds[i].Some? && feeds[j].Some? ==>
       feeds[i].value.head <= feeds[j].value.head)
  }

  /** The cursor is not above any head a page request finds. */
  ghost predicate Below(cursor: nat, feeds: seq<Option<Feed>>) {
    forall i :: 0 <= i < |feeds| && feeds[i].Some? ==> cursor <= feeds[i].value.head
  }

  /** Nothing visible lies between the cursor and the head this page request saw. */
  ghost predicate CaughtUp(f: Option<Feed>, see: Change -> bool, cursor: nat) {
    f.Some? && cursor <= f.value.head && Window(f.value.entries, see, cursor, f.value.head) == []
  }

  /** `r` is what one unpaged pull of (p.cursor, r.cursor] leaves. */
  ghost predicate OneShot(p: PullState, q: PullState, see: Change -> bool, g: Feed) {
    var window := Window(g.entries, see, p.cursor, q.cursor);
    p.cursor <= q.cursor && q.recs == RemoteAll(p.recs, window) && q.pulled == p.pulled + |window|
  }

  ghost predicate EndsWell(r: (PullState, PullEnd), feeds: seq<Option<Feed>>, see: Change -> bool) {
    r.1 == Finished(false) ==> exists i :: 0 <= i < |feeds| && CaughtUp(feeds[i], see, r.0.cursor)
  }

  lemma {:induction false} OneShotJoin(p: PullState, m: PullState, q: PullState, see: Change -> bool, g: Feed)
    requires Sound(g) && OneShot(p, m, see, g) && OneShot(m, q, see, g)
    ensures OneShot(p, q, see, g)
  {
    WindowSplit(g.entries, see, p.cursor, m.cursor, q.cursor, g.head);
    RemoteAllAppend(p.recs, Window(g.entries, see, p.cursor, m.cursor), Window(g.entries, see, m.cursor, q.cursor));
  }

  lemma {:induction false} PageIsOneShot(p: PullState, f: Feed, see: Change -> bool, limit: int, g: Feed)
    requires Sound(f) && Sound(g) && Extends(f, g) && p.cursor <= f.head && Pull(f, see, p.cursor, limit).Page?
    ensures var page := Pull(f, see, p.cursor, limit);
            && OneShot(p, PullState(RemoteAll(p.recs, page.changes), page.cursor, p.pulled + |page.changes|), see, g)
            && (page.hasMore || CaughtUp(Some(f), see, page.cursor))
            && p.cursor <= page.cursor <= f.head
  {
    PageIsWindow(f, see, p.cursor, limit);
    WindowStable(f, g, see, p.cursor, Pull(f, see, p.cursor, limit).cursor);
  }

  lemma {:induction false} LaterPages(feeds: seq<Option<Feed>>, g: Feed, moved: nat)
    requires feeds != [] && feeds[0].Some? && Growing(feeds, g) && moved <= feeds[0].value.head
    ensures Growing(feeds[1..], g) && Below(moved, feeds[1..])
  {
    assert forall i :: 0 <= i < |feeds[1..]| ==> feeds[1..][i] == feeds[i + 1];
  }

  lemma {:induction false} EndsWellLater(r: (PullState, PullEnd), feeds: seq<Option<Feed>>, see: Change -> bool)
    requires feeds != [] && EndsWell(r, feeds[1..], see)
    ensures EndsWell(r, feeds, see)
  {
    if r.1 == Finished(false) {
      var i :| 0 <= i < |feeds[1..]| && CaughtUp(feeds[1..][i], see, r.0.cursor);
      assert CaughtUp(feeds[i + 1], see, r.0.cursor);
    }
  }

  /** A page and the rest of the cycle. */
  function AfterPage(p: PullState, page: PullReply): PullState
    requires page.Page?
  {
    PullState(RemoteAll(p.recs, page.changes), page.cursor, p.pulled + |page.changes|)
  }

  lemma {:induction false} NothingIsOneShot(p: PullState, see: Change -> bool, g: Feed)
    ensures OneShot(p, p, see, g)
  {
    WindowEmpty(g.entries, see, p.cursor, p.cursor);
  }

  /** One page puts the replica where one pull of its interval would, and the rest of the cycle continues from there. */
  lemma {:induction false} PageThenRest(p: PullState, feeds: seq<Option<Feed>>, see: Change -> bool, limit: int,
                                        g: Feed, r: (PullState, PullEnd))
    requires feeds != [] && feeds[0].Some? && Growing(feeds, g) && Below(p.cursor, feeds)
    requires Pull(feeds[0].value, see, p.cursor, limit).Page?
    requires OneShot(AfterPage(p, Pull(feeds[0].value, see, p.cursor, limit)), r.0, see, g)
    requires EndsWell(r, feeds[1..], see)
    ensures OneShot(p, r.0, see, g) && EndsWell(r, feeds, see)
  {
    PageIsOneShot(p, feeds[0].value, see, limit, g);
    OneShotJoin(p, AfterPage(p, Pull(feeds[0].value, see, p.cursor, limit)), r.0, see, g);
    EndsWellLater(r, feeds, see);
  }

  /**
   However the feed is cut into pages, whoever writes in between and however far, a pull cycle leaves the replica that
   one unpaged pull of the interval (start, reached cursor] leaves, each visible change applied once and in order,
   whether it is finished, interrupted or told to resync; a finished cycle without more pages has reached the head some
   page saw.
   */
  lemma {:induction false} PagedPullIsOneShot(p: PullState, feeds: seq<Option<Feed>>, see: Change -> bool, limit: int,
                                              g: Feed)
    requires feeds != [] && Growing(feeds, g) && Below(p.cursor, feeds)
    ensures OneShot(p, PullPages(p, feeds, see, limit).0, see, g)
    ensures EndsWell(PullPages(p, feeds, see, limit), feeds, see)
    decreases feeds
  {
    NothingIsOneShot(p, see, g);
    if feeds[0].Some? {
      var page := Pull(feeds[0].value, see, p.cursor, limit);
      if page.Page? {
        PageIsOneShot(p, feeds[0].value, see, limit, g);
        if page.hasMore && |feeds| > 1 {
          var m := AfterPage(p, page);
          LaterPages(feeds, g, m.cursor);
          PagedPullIsOneShot(m, feeds[1..], see, limit, g);
          PageThenRest(p, feeds, see, limit, g, PullPages(m, feeds[1..], see, limit));
        } else if !page.hasMore {
          assert CaughtUp(feeds[0], see, page.cursor);
        }
      }
    }
  }

  /** Request `n` is reached, with more to come, and finds the device too far behind. */
  ghost predicate FarBehindAt(p: PullState, feeds: seq<Option<Feed>>, see: Change -> bool, limit: int, n: nat)
    requires n < |feeds|
  {
    && (n > 0 ==> PullPages(p, feeds[..n], see, limit).1 == Finished(true))
    && feeds[n].Some?
    && FarBehind(feeds[n].value, see, if n == 0 then p.cursor else PullPages(p, feeds[..n], see, limit).0.cursor, limit)
  }

  lemma {:induction false} PrefixPages(p: PullState, feeds: seq<Option<Feed>>, see: Change -> bool, limit: int, n: nat)
    requires 1 < n <= |feeds| && feeds[0].Some?
    requires Pull(feeds[0].value, see, p.cursor, limit).Page? && Pull(feeds[0].value, see, p.cursor, limit).hasMore
    ensures PullPages(p, feeds[..n], see, limit) ==
            PullPages(AfterPage(p, Pull(feeds[0].value, see, p.cursor, limit)), feeds[1..][..n - 1], see, limit)
  {
    assert feeds[..n][1..] == feeds[1..][..n - 1];
  }

  ghost predicate SomeFarBehind(p: PullState, feeds: seq<Option<Feed>>, see: Change -> bool, limit: int) {
    exists n :: 0 <= n < |feeds| && FarBehindAt(p, feeds, see, limit, n)
  }

  lemma {:induction false} SomeLaterFarBehind(p: PullState, feeds: seq<Option<Feed>>, see: Change -> bool, limit: int)
    requires |feeds| > 1 && feeds[0].Some? && Sound(feeds[0].value)
    requires Pull(feeds[0].value, see, p.cursor, limit).Page? && Pull(feeds[0].value, see, p.cursor, limit).hasMore
    ensures SomeFarBehind(p, feeds, see, limit) <==>
            SomeFarBehind(AfterPage(p, Pull(feeds[0].value, see, p.cursor, limit)), feeds[1..], see, limit)
  {
    var m := AfterPage(p, Pull(feeds[0].value, see, p.cursor, limit));
    ResyncIffFarBehind(feeds[0].value, see, p.cursor, limit);
    forall n | 0 < n < |feeds|
      ensures FarBehindAt(p, feeds, see, limit, n) <==> FarBehindAt(m, feeds[1..], see, limit, n - 1)
    {
      LaterFarBehind(p, feeds, see, limit, n);
    }
    if n :| 0 <= n < |feeds[1..]| && FarBehindAt(m, feeds[1..], see, limit, n) {
      assert FarBehindAt(p, feeds, see, limit, n + 1);
    }
  }

  lemma {:induction false} ResyncAtOnce(p: PullState, feeds: seq<Option<Feed>>, see: Change -> bool, limit: int)
    requires feeds != [] && feeds[0].Some? && Sound(feeds[0].value)
    requires Pull(feeds[0].value, see, p.cursor, limit) == FullResync
    ensures PullPages(p, feeds, see, limit).1 == Resynced && SomeFarBehind(p, feeds, see, limit)
  {
    ResyncIffFarBehind(feeds[0].value, see, p.cursor, limit);
    assert FarBehindAt(p, feeds, see, limit, 0);
  }

  /** The first request ends the cycle with its page, or fails. */
  ghost predicate Stops(p: PullState, feeds: seq<Option<Feed>>, see: Change -> bool, limit: int)
    requires feeds != []
  {
    feeds[0].Some? ==>
      var reply := Pull(feeds[0].value, see, p.cursor, limit);
      reply.Page? && (|feeds| == 1 || !reply.hasMore)
  }

  lemma {:induction false} StopsWithoutResync(p: PullState, feeds: seq<Option<Feed>>, see: Change -> bool, limit: int)
    requires feeds != [] && (feeds[0].Some? ==> Sound(feeds[0].value)) && Stops(p, feeds, see, limit)
    ensures PullPages(p, feeds, see, limit).1 != Resynced && !SomeFarBehind(p, feeds, see, limit)
  {
    forall n | 0 <= n < |feeds| ensures !FarBehindAt(p, feeds, see, limit, n) { StopsAtOnce(p, feeds, see, limit, n); }
  }

  lemma {:induction false} GoesOn(p: PullState, feeds: seq<Option<Feed>>, see: Change -> bool, limit: int)
    requires |feeds| > 1 && feeds[0].Some?
    requires Pull(feeds[0].value, see, p.cursor, limit).Page? && Pull(feeds[0].value, see, p.cursor, limit).hasMore
    ensures PullPages(p, feeds, see, limit) ==
            PullPages(AfterPage(p, Pull(feeds[0].value, see, p.cursor, limit)), feeds[1..], see, limit)
  {}

  /** When a cycle ends with a demand for a resync: exactly when a request it reaches finds it too far behind. */
  lemma {:induction false} CycleResyncsIff(p: PullState, feeds: seq<Option<Feed>>, see: Change -> bool, limit: int)
    requires feeds != [] && forall i :: 0 <= i < |feeds| && feeds[i].Some? ==> Sound(feeds[i].value)
    ensures PullPages(p, feeds, see, limit).1 == Resynced <==> SomeFarBehind(p, feeds, see, limit)
    decreases feeds
  {
    if feeds[0].Some? && Pull(feeds[0].value, see, p.cursor, limit) == FullResync {
      ResyncAtOnce(p, feeds, see, limit);
    } else if Stops(p, feeds, see, limit) {
      StopsWithoutResync(p, feeds, see, limit);
    } else {
      GoesOn(p, feeds, see, limit);
      assert forall i :: 0 <= i < |feeds[1..]| ==> feeds[1..][i] == feeds[i + 1];
      CycleResyncsIff(AfterPage(p, Pull(feeds[0].value, see, p.cursor, limit)), feeds[1..], see, limit);
      SomeLaterFarBehind(p, feeds, see, limit);
    }
  }

  lemma {:induction false} StopsAtOnce(p: PullState, feeds: seq<Option<Feed>>, see: Change -> bool, limit: int, n: nat)
    requires n < |feeds| && (feeds[0].Some? ==> Sound(feeds[0].value)) && Stops(p, feeds, see, limit)
    ensures !FarBehindAt(p, feeds, see, limit, n)
  {
    if feeds[0].Some? { ResyncIffFarBehind(feeds[0].value, see, p.cursor, limit); }
    if n > 0 { assert feeds[..n][0] == feeds[0]; }
  }

  lemma {:induction false} LaterFarBehind(p: PullState, feeds: seq<Option<Feed>>, see: Change -> bool, limit: int,
                                          n: nat)
    requires 0 < n < |feeds| && feeds[0].Some?
    requires Pull(feeds[0].value, see, p.cursor, limit).Page? && Pull(feeds[0].value, see, p.cursor, limit).hasMore
    ensures FarBehindAt(p, feeds, see, limit, n) <==>
            FarBehindAt(AfterPage(p, Pull(feeds[0].value, see, p.cursor, limit)), feeds[1..], see, limit, n - 1)
  {
    if n > 1 {
      PrefixPages(p, feeds, see, limit, n);
    } else {
      assert feeds[..1][0] == feeds[0];
    }
  }

  /** An interrupted cycle stores no cursor: the next one starts from the same place and can only re-apply. */
  lemma {:induction false} InterruptedPullNeverSkips(d: Device, feeds: seq<Option<Feed>>, see: Change -> bool,
                                                     limit: int, g: Feed)
    requires feeds != [] && Growing(feeds, g) && Below(d.cursor, feeds)
    requires PullPages(PullState(d.recs, d.cursor, 0), feeds, see, limit).1 == Interrupted
    ensures Pulled(d, feeds, see, limit).cursor == d.cursor
    ensures exists reached :: d.cursor <= reached &&
              Pulled(d, feeds, see, limit) == d.(recs := RemoteAll(d.recs, Window(g.entries, see, d.cursor, reached)))
  {
    PagedPullIsOneShot(PullState(d.recs, d.cursor, 0), feeds, see, limit, g);
    var (q, end) := PullPages(PullState(d.recs, d.cursor, 0), feeds, see, limit);
    assert d.cursor <= q.cursor;
  }

  // ---- one record under a run of changes ----

  function ChangesOf(cs: seq<Change>, key: Key): seq<Change> {
    if cs == [] then [] else if cs[0].key == key then [cs[0]] + ChangesOf(cs[1..], key) else ChangesOf(cs[1..], key)
  }

  function RemoteRun(local: Option<Rec>, cs: seq<Change>): (r: Option<Rec>)
    ensures local.Some? || cs != [] ==> r.Some?
    decreases cs
  {
    if cs == [] then local else RemoteRun(Some(Remote(local, cs[0])), cs[1..])
  }

  /** Records do not interfere: each copy is determined by its own changes. */
  lemma {:induction false} RecordSeesItsChanges(recs: map<Key, Rec>, cs: seq<Change>, key: Key)
    ensures Lookup(RemoteAll(recs, cs), key) == RemoteRun(Lookup(recs, key), ChangesOf(cs, key))
    decreases cs
  {
    if cs != [] {
      RecordSeesItsChanges(recs[cs[0].key := Remote(Lookup(recs, cs[0].key), cs[0])], cs[1..], key);
    }
  }

  /** A run of live changes to one record of a field-merged entity, given its last change. */
  ghost predicate LiveRun(cs: seq<Change>, e: Entity) {
    && cs != [] && MetaOf(e).merge == FieldMerge
    && forall i :: 0 <= i < |cs| ==> cs[i].key.entity == e && !cs[i].deleted
  }

  predicate IsFree(e: Entity, k: string) {
    k !in MetaOf(e).protectedFields && k !in MetaOf(e).appendFields && k != "version" && k != "__localAhead"
  }

  lemma {:induction false} ReservedNamesAreFree(e: Entity)
    ensures "version" !in MetaOf(e).protectedFields + MetaOf(e).appendFields
    ensures "__localAhead" !in MetaOf(e).protectedFields + MetaOf(e).appendFields
    ensures MetaOf(e).protectedFields !! MetaOf(e).appendFields
  {}

  /** The values a run of changes brings for one field. */
  function ValuesOf(cs: seq<Change>, k: string): seq<Value> {
    if cs == [] then [] else [Get(cs[0].data, k)] + ValuesOf(cs[1..], k)
  }

  /** One live change, field by field. */
  lemma {:induction false} RemoteField(l: Rec, c: Change, k: string)
    requires MetaOf(c.key.entity).merge == FieldMerge && !c.deleted
    ensures var after := Get(Remote(Some(l), c).data, k);
            && (k in MetaOf(c.key.entity).protectedFields ==> after == Get(c.data, k))
            && (k in MetaOf(c.key.entity).appendFields ==> after == PulledOver(Get(l.data, k), Get(c.data, k)))
            && (IsFree(c.key.entity, k) ==> after == if IsBlank(Get(l.data, k)) then Get(c.data, k) else Get(l.data, k))
            && (k == "version" ==> after == NumCell(c.version))
            && (k == "__localAhead" ==> after == One(Bool(l.version > c.version)))
  {
    ReservedNamesAreFree(c.key.entity);
    RemoteFieldOf(l, c, k, MetaOf(c.key.entity));
  }

  lemma {:induction false} RemoteFieldOf(l: Rec, c: Change, k: string, meta: Meta)
    requires meta.protectedFields !! meta.appendFields
    ensures var after := Get(Merged(c.data, l.data, meta), k);
            && (k in meta.protectedFields ==> after == Get(c.data, k))
            && (k in meta.appendFields ==> after == PulledOver(Get(l.data, k), Get(c.data, k)))
            && (k !in meta.protectedFields && k !in meta.appendFields ==>
                  after == if IsBlank(Get(l.data, k)) then Get(c.data, k) else Get(l.data, k))
  {}

  /** An append field after a run is its value with the run's values pulled over it one by one. */
  lemma {:induction false} AppendFieldRun(l: Rec, cs: seq<Change>, e: Entity, k: string)
    requires LiveRun(cs, e) && k in MetaOf(e).appendFields
    ensures RemoteRun(Some(l), cs).Some?
    ensures Get(RemoteRun(Some(l), cs).value.data, k) == PulledInto(Get(l.data, k), ValuesOf(cs, k))
    decreases cs
  {
    RemoteField(l, cs[0], k);
    if |cs| > 1 {
      assert forall i :: 0 <= i < |cs[1..]| ==> cs[1..][i] == cs[i + 1];
      AppendFieldRun(Remote(Some(l), cs[0]), cs[1..], e, k);
    }
  }

  lemma {:induction false} NotesSurvive(mine: Value, ts: seq<Value>)
    ensures LineSet(mine) <= LineSet(PulledInto(mine, ts))
    ensures !AnyText(ts) ==> KeySet(mine) <= KeySet(PulledInto(mine, ts))
  {
    HoldsAfterRun(mine, ts);
    HoldsItsContent(mine);
    HoldsItsContent(PulledInto(mine, ts));
    LinesSurvive(Holds(mine), ts);
    if !AnyText(ts) { ItemsSurvive(Holds(mine), ts); }
  }

  /**
   Field work survives any run: free fields with content by value, texts line by line, lists item by item as long as no
   text is pulled for the field; protected fields follow the server.
   */
  lemma {:induction false} PullKeepsFieldWork(l: Rec, cs: seq<Change>, e: Entity, k: string)
    requires LiveRun(cs, e)
    ensures var r := RemoteRun(Some(l), cs);
            && r.Some? && r.value.version == cs[|cs| - 1].version && !r.value.deleted
            && (IsFree(e, k) && !IsBlank(Get(l.data, k)) ==> Get(r.value.data, k) == Get(l.data, k))
            && (k in MetaOf(e).appendFields ==> LineSet(Get(l.data, k)) <= LineSet(Get(r.value.data, k)))
            && (k in MetaOf(e).appendFields && !AnyText(ValuesOf(cs, k)) ==>
               KeySet(Get(l.data, k)) <= KeySet(Get(r.value.data, k)))
            && (k in MetaOf(e).protectedFields ==> Get(r.value.data, k) == Get(cs[|cs| - 1].data, k))
  {
    PullKeepsRest(l, cs, e, k);
    if k in MetaOf(e).appendFields {
      AppendFieldRun(l, cs, e, k);
      NotesSurvive(Get(l.data, k), ValuesOf(cs, k));
    }
  }

  lemma {:induction false} PullKeepsRest(l: Rec, cs: seq<Change>, e: Entity, k: string)
    requires LiveRun(cs, e)
    ensures var r := RemoteRun(Some(l), cs);
            && r.Some? && r.value.version == cs[|cs| - 1].version && !r.value.deleted
            && (IsFree(e, k) && !IsBlank(Get(l.data, k)) ==> Get(r.value.data, k) == Get(l.data, k))
            && (k in MetaOf(e).protectedFields ==> Get(r.value.data, k) == Get(cs[|cs| - 1].data, k))
    decreases cs
  {
    var l' := Remote(Some(l), cs[0]);
    RemoteField(l, cs[0], k);
    if |cs| > 1 {
      assert forall i :: 0 <= i < |cs[1..]| ==> cs[1..][i] == cs[i + 1];
      PullKeepsRest(l', cs[1..], e, k);
    }
  }

  lemma {:induction false} ValuesOfLast(cs: seq<Change>, k: string)
    requires cs != []
    ensures ValuesOf(cs, k) == ValuesOf(cs[..|cs| - 1], k) + [Get(cs[|cs| - 1].data, k)]
  {
    if |cs| > 1 {
      assert cs[..|cs| - 1][1..] == cs[1..][..|cs| - 2];
      ValuesOfLast(cs[1..], k);
    }
  }

  /** And that is where a list is lost: the first text pulled over it leaves its own lines and no item. */
  lemma {:induction false} FirstTextDropsList(l: Rec, cs: seq<Change>, e: Entity, k: string)
    requires LiveRun(cs, e) && k in MetaOf(e).appendFields && !IsStr(Get(l.data, k))
    requires IsStr(Get(cs[|cs| - 1].data, k)) && !AnyText(ValuesOf(cs[..|cs| - 1], k))
    ensures var after := Get(RemoteRun(Some(l), cs).value.data, k);
            LineSet(after) == LineSet(Get(cs[|cs| - 1].data, k)) && KeySet(after) == {}
  {
    var mine := Get(l.data, k);
    AppendFieldRun(l, cs, e, k);
    ValuesOfLast(cs, k);
    HoldsAfterRun(mine, ValuesOf(cs, k));
    HoldsItsContent(mine);
    HoldsItsContent(PulledInto(mine, ValuesOf(cs, k)));
    FirstTextReplacesItems(Holds(mine), ValuesOf(cs[..|cs| - 1], k), Get(cs[|cs| - 1].data, k));
  }

  // ---- replaying a run ----

  function FreeAfter(v: Value, cs: seq<Change>, k: string): Value
    decreases cs
  {
    if cs == [] then v else FreeAfter(if IsBlank(v) then Get(cs[0].data, k) else v, cs[1..], k)
  }

  ghost predicate FieldsAfter(l: Rec, r: Rec, cs: seq<Change>, e: Entity, k: string)
    requires cs != []
  {
    && (IsFree(e, k) ==> Get(r.data, k) == FreeAfter(Get(l.data, k), cs, k))
    && (k in MetaOf(e).appendFields ==> Get(r.data, k) == PulledInto(Get(l.data, k), ValuesOf(cs, k)))
    && (k in MetaOf(e).appendFields ==> Holds(Get(r.data, k)) == HoldsAfter(Holds(Get(l.data, k)), ValuesOf(cs, k)))
    && (k == "version" ==> Get(r.data, k) == NumCell(cs[|cs| - 1].version))
    && (k == "__localAhead" && |cs| > 1 ==> Get(r.data, k) == One(Bool(cs[|cs| - 2].version > cs[|cs| - 1].version)))
  }

  lemma {:induction false} TwoChanges(l: Rec, cs: seq<Change>, e: Entity)
    requires LiveRun(cs, e) && |cs| == 2
    ensures var r := RemoteRun(Some(l), cs);
            r.Some? && Get(r.value.data, "__localAhead") == One(Bool(cs[0].version > cs[1].version))
  {
    var l' := Remote(Some(l), cs[0]);
    RemoteField(l, cs[0], "version");
    RemoteField(l', cs[1], "__localAhead");
    assert RemoteRun(Some(l'), cs[1..]) == Some(Remote(Some(l'), cs[1]));
  }

  lemma {:induction false} RestOfRun(l: Rec, cs: seq<Change>, e: Entity, k: string)
    requires LiveRun(cs, e) && k !in MetaOf(e).appendFields
    ensures FieldsAfter(l, RemoteRun(Some(l), cs).value, cs, e, k)
    decreases cs
  {
    RemoteField(l, cs[0], k);
    if |cs| > 1 {
      var rest := cs[1..];
      assert forall i :: 0 <= i < |rest| ==> rest[i] == cs[i + 1];
      RestOfRun(Remote(Some(l), cs[0]), rest, e, k);
      if |cs| == 2 { TwoChanges(l, cs, e); }
    }
  }

  /** The fields after a run, in closed form; for append fields also what they then hold, texts and lists alike. */
  lemma {:induction false} RunFields(l: Rec, cs: seq<Change>, e: Entity, k: string)
    requires LiveRun(cs, e)
    ensures RemoteRun(Some(l), cs).Some? && FieldsAfter(l, RemoteRun(Some(l), cs).value, cs, e, k)
  {
    if k in MetaOf(e).appendFields {
      ReservedNamesAreFree(e);
      AppendFieldRun(l, cs, e, k);
      HoldsAfterRun(Get(l.data, k), ValuesOf(cs, k));
    } else {
      RestOfRun(l, cs, e, k);
    }
  }

  lemma {:induction false} FreeAfterNonBlank(v: Value, cs: seq<Change>, k: string)
    requires !IsBlank(v)
    ensures FreeAfter(v, cs, k) == v
    decreases cs
  {
    if cs != [] { FreeAfterNonBlank(v, cs[1..], k); }
  }

  lemma {:induction false} FreeAfterTwice(v: Value, cs: seq<Change>, k: string)
    ensures FreeAfter(FreeAfter(v, cs, k), cs, k) == FreeAfter(v, cs, k)
  {
    var x := FreeAfter(v, cs, k);
    if !IsBlank(x) {
      FreeAfterNonBlank(x, cs, k);
    } else if !IsBlank(v) {
      FreeAfterNonBlank(v, cs, k);
    }
  }

  /** Replaying a run changes at most an append field and, for a single change, the `__localAhead` mark; no line comes
      or goes. */
  lemma {:induction false} ReplayChangesNothing(l: Rec, cs: seq<Change>, e: Entity, k: string)
    requires LiveRun(cs, e)
    ensures var once := RemoteRun(Some(l), cs);
            var twice := RemoteRun(once, cs);
            && once.Some? && twice.Some?
            && once.value.version == twice.value.version && once.value.deleted == twice.value.deleted
            && (if k in MetaOf(e).appendFields
               then LineSet(Get(twice.value.data, k)) == LineSet(Get(once.value.data, k))
                else (k == "__localAhead" && |cs| == 1) || Get(twice.value.data, k) == Get(once.value.data, k))
  {
    RunFields(l, cs, e, k);
    PullKeepsRest(l, cs, e, k);
    var once := RemoteRun(Some(l), cs).value;
    RunFields(once, cs, e, k);
    PullKeepsRest(once, cs, e, k);
    if k in MetaOf(e).appendFields {
      ReplayKeepsLines(Get(l.data, k), ValuesOf(cs, k));
    } else {
      FreeAfterTwice(Get(l.data, k), cs, k);
    }
  }

  lemma {:induction false} ReplayKeepsLines(mine: Value, ts: seq<Value>)
    ensures LineSet(PulledInto(PulledInto(mine, ts), ts)) == LineSet(PulledInto(mine, ts))
  {
    var once := PulledInto(mine, ts);
    HoldsAfterRun(mine, ts);
    HoldsAfterRun(once, ts);
    HoldsItsContent(once);
    HoldsItsContent(PulledInto(once, ts));
    LinesComeFromTexts(Holds(mine), ts);
    LinesComeFromTexts(Holds(once), ts);
    assert LinesIn(Holds(once)) + Contributed(ts, true) == LinesIn(Holds(once));
  }

  lemma {:induction false} ReplayedField(l: Rec, cs: seq<Change>, e: Entity, k: string)
    requires LiveRun(cs, e) && k in MetaOf(e).appendFields
    ensures var once := RemoteRun(Some(l), cs);
            var ts := ValuesOf(cs, k);
            && Holds(Get(once.value.data, k)) == HoldsAfter(Holds(Get(l.data, k)), ts)
            && Holds(Get(RemoteRun(once, cs).value.data, k)) == HoldsAfter(HoldsAfter(Holds(Get(l.data, k)), ts), ts)
  {
    RunFields(l, cs, e, k);
    RunFields(RemoteRun(Some(l), cs).value, cs, e, k);
  }

  /**
   What an append field holds survives a replay if it leads to a text with lines or a pulled text settles it; if only
   lists are pulled, exactly when the device's field was no text of mere space, or the first change's items come again
   later in the run.
   */
  lemma {:induction false} ReplayKeepsNotesIff(l: Rec, cs: seq<Change>, e: Entity, k: string)
    requires LiveRun(cs, e) && k in MetaOf(e).appendFields
    ensures var once := RemoteRun(Some(l), cs);
            var same := Holds(Get(RemoteRun(once, cs).value.data, k)) == Holds(Get(once.value.data, k));
            var mine, ts := Holds(Get(l.data, k)), ValuesOf(cs, k);
            && (AnySettles(ts) || mine.SomeLines? ==> same)
            && (!AnyText(ts) ==> (same <==> (mine == Spaces ==> KeySet(ts[0]) <= Contributed(ts[1..], false))))
  {
    ReplayedField(l, cs, e, k);
    HoldsItsContent(Get(l.data, k));
    ReplayHoldsIff(Holds(Get(l.data, k)), ValuesOf(cs, k));
  }

  lemma {:induction false} EventsAreAppended()
    ensures MetaOf(ShiftLog).merge == FieldMerge && "eventsJson" in MetaOf(ShiftLog).appendFields
  {}

  lemma {:induction false} ValuesOfOne(c: Change, k: string)
    ensures ValuesOf([c], k) == [Get(c.data, k)]
  {
    assert [c][1..] == [];
  }

  /** It happens: a field of mere space swallows the first list that is pulled over it, and a replay brings it back. */
  lemma {:induction false} ReplayMayBringItems(l: Rec, c: Change, key: string)
    requires c.key.entity == ShiftLog && !c.deleted
    requires Get(l.data, "eventsJson") == One(Str(" ")) && Get(c.data, "eventsJson") == List([Str(key)])
    ensures var once := RemoteRun(Some(l), [c]);
            && Holds(Get(once.value.data, "eventsJson")) == Nothing
            && Holds(Get(RemoteRun(once, [c]).value.data, "eventsJson")) == SomeItems({key})
  {
    EventsAreAppended();
    ValuesOfOne(c, "eventsJson");
    ReplayedField(l, [c], ShiftLog, "eventsJson");
    SpaceSwallowsItem(key);
  }

  /** For every other policy the copy is exactly the last live change, whatever the device had. */
  lemma {:induction false} OtherPoliciesAdoptServer(local: Option<Rec>, cs: seq<Change>)
    requires cs != [] && !cs[|cs| - 1].deleted && MetaOf(cs[|cs| - 1].key.entity).merge != FieldMerge
    ensures var last := cs[|cs| - 1]; RemoteRun(local, cs) == Some(Rec(last.version, false, last.data))
    decreases cs
  {
    if |cs| > 1 {
      OtherPoliciesAdoptServer(Some(Remote(local, cs[0])), cs[1..]);
    }
  }

  // ---- answers after a restart ----

  /** The client object's map, where it knows an operation, knows its entity. */
  ghost predicate Remembers(d: Device, op: Op) { op.opId in d.opEntity ==> d.opEntity[op.opId] == op.entity }

  /**
   A conflict is filed under its own record, and "keep mine" re-sends that record, exactly when the client
   object that queued the operation still lives or the operation was a work order's.
   */
  lemma {:induction false} ConflictFiledRightIff(d: Device, op: Op, r: Result, now: int)
    requires Remembers(d, op) && r.opId == op.opId && r.recordId == op.recordId && r.outcome == Conflict
    requires r.serverRecord.Some?
    ensures var c := Answered(d, r).conflicts;
            && op.opId in c
            && (c[op.opId].key == Key(op.entity, op.recordId) <==> op.opId in d.opEntity || op.entity == WorkOrder)
            && (ForcedOp(op.opId, c[op.opId], now).entity == op.entity <==>
               op.opId in d.opEntity || op.entity == WorkOrder)
  {}

  // ---- what the user sees and what is sent ----

  datatype Patching = Patching(data: Record, opId: OpId, now: int)

  /** The device after a run of patches of one record. */
  function Patched(d: Device, key: Key, edits: seq<Patching>): Device
    requires !MetaOf(key.entity).restOnly
    decreases edits
  {
    if edits == [] then d
    else Patched(Queued(d, Mutation(key, Patch, edits[0].data), edits[0].opId, edits[0].now).value, key, edits[1..])
  }

  /** The last value written to field `k`. */
  function LastWritten(v: Value, edits: seq<Patching>, k: string): Value
    decreases edits
  {
    if edits == [] then v else LastWritten(if k in edits[0].data then edits[0].data[k] else v, edits[1..], k)
  }

  ghost predicate FreshIds(d: Device, edits: seq<Patching>) {
    && (forall i :: 0 <= i < |edits| ==> !HasPending(d.queue, edits[i].opId))
    && forall i, j :: 0 <= i < j < |edits| ==> edits[i].opId != edits[j].opId
  }

  lemma {:induction false} OnePatch(d: Device, key: Key, edits: seq<Patching>, k: string)
    requires !MetaOf(key.entity).restOnly && edits != [] && FreshIds(d, edits) && k != "version"
    ensures var t := Queued(d, Mutation(key, Patch, edits[0].data), edits[0].opId, edits[0].now).value;
            && FreshIds(t, edits[1..]) && |t.queue| == |d.queue| + 1 && LocalVersion(t, key) == LocalVersion(d, key) + 1
            && t.queue[|d.queue|].op.opId == edits[0].opId && t.queue[..|d.queue|] == d.queue
            && Get(LocalData(t, key), k) == (if k in edits[0].data then edits[0].data[k] else Get(LocalData(d, key), k))
            && Get(t.queue[|d.queue|].op.data, k) == Get(LocalData(t, key), k)
  {
    var op := QueuedOp(d, Mutation(key, Patch, edits[0].data), edits[0].opId, edits[0].now);
    assert !HasPending(d.queue, edits[0].opId);
    var queue := d.queue + [Pending(op, 0)];
    forall i | 0 <= i < |edits[1..]| ensures !HasPending(queue, edits[1..][i].opId) {
      assert edits[1..][i] == edits[i + 1];
      assert forall j :: 0 <= j < |d.queue| ==> queue[j] == d.queue[j];
    }
    assert forall i :: 0 <= i < |edits[1..]| ==> edits[1..][i] == edits[i + 1];
  }

  /** The queue has grown by one operation per patch, in order. */
  ghost predicate Waiting(was: seq<Pending>, queue: seq<Pending>, edits: seq<Patching>) {
    && |queue| == |was| + |edits| && queue[..|was|] == was
    && forall i :: 0 <= i < |edits| ==> queue[|was| + i].op.opId == edits[i].opId
  }

  lemma {:induction false} WaitingJoin(was: seq<Pending>, mid: seq<Pending>, queue: seq<Pending>, edits: seq<Patching>)
    requires edits != [] && |mid| == |was| + 1 && mid[..|was|] == was && mid[|was|].op.opId == edits[0].opId
    requires Waiting(mid, queue, edits[1..])
    ensures Waiting(was, queue, edits)
  {
    assert queue[..|was|] == queue[..|mid|][..|was|];
    assert queue[|was|] == queue[..|mid|][|was|];
    forall i | 0 < i < |edits| ensures queue[|was| + i].op.opId == edits[i].opId {
      assert edits[i] == edits[1..][i - 1] && queue[|was| + i] == queue[|mid| + (i - 1)];
    }
  }

  /**
   Editing offline: after any run of patches the device shows in every field the last value written to it, one operation
   per patch waits in the order made, and the last of them carries everything the device shows, so it alone would bring
   the server's copy of those fields up to date.
   */
  lemma {:induction false} LastPatchCarriesAll(d: Device, key: Key, edits: seq<Patching>, k: string)
    requires !MetaOf(key.entity).restOnly && edits != [] && FreshIds(d, edits) && k != "version"
    ensures var t := Patched(d, key, edits);
            && Get(LocalData(t, key), k) == LastWritten(Get(LocalData(d, key), k), edits, k)
            && LocalVersion(t, key) == LocalVersion(d, key) + |edits|
            && Waiting(d.queue, t.queue, edits)
            && Get(t.queue[|t.queue| - 1].op.data, k) == Get(LocalData(t, key), k)
    decreases edits
  {
    OnePatch(d, key, edits, k);
    var t := Queued(d, Mutation(key, Patch, edits[0].data), edits[0].opId, edits[0].now).value;
    if |edits| > 1 {
      LastPatchCarriesAll(t, key, edits[1..], k);
      WaitingJoin(d.queue, t.queue, Patched(t, key, edits[1..]).queue, edits);
    }
  }

  lemma {:induction false} WithoutLeavesOthers(queue: seq<Pending>, o: OpId, p: Pending)
    requires p in queue && p.op.opId != o
    ensures p in Without(queue, o)
  {
    if p != queue[0] {
      assert p in queue[1..];
      WithoutLeavesOthers(queue[1..], o, p);
    }
  }

  /** Choosing "mine" after a conflict re-sends, as one upsert under the forced id, the copy the device held when the
      conflict arrived; choosing "server" adopts the server's record. Either way the conflicting operation is gone and
      others stay. */
  lemma {:induction false} DecisionHonoursChoice(d: Device, r: Result, now: int, p: Pending)
    requires r.outcome == Conflict && r.serverRecord.Some? && p in d.queue && p.op.opId != r.opId
    requires !HasPending(Without(d.queue, r.opId), Forced(r.opId))
    ensures var key, mine := Key(EntityOf(d, r.opId), r.recordId), TookLocal(Answered(d, r), r.opId, now);
            && mine.queue == Without(d.queue, r.opId)
               + [Pending(Op(Forced(r.opId), key.entity, key.id, Upsert, LocalData(d, key), now), 0)]
            && p in mine.queue
            && (var theirs := TookServer(Answered(d, r), r.opId);
                LocalData(theirs, key) == r.serverRecord.value && theirs.queue == Without(d.queue, r.opId)
                    && p in theirs.queue
                && r.opId !in theirs.conflicts)
  {
    WithoutLeavesOthers(d.queue, r.opId, p);
  }

  predicate QueuedAs(queue: seq<Pending>, op: Op) { exists i :: 0 <= i < |queue| && queue[i].op == op }

  lemma {:induction false} WithoutKeepsOps(queue: seq<Pending>, o: OpId, op: Op)
    requires op.opId != o
    ensures QueuedAs(Without(queue, o), op) <==> QueuedAs(queue, op)
    ensures HasPending(Without(queue, o), op.opId) <==> HasPending(queue, op.opId)
  {
    if queue != [] {
      WithoutKeepsOps(queue[1..], o, op);
      TailMembers(queue, op);
      if queue[0].op.opId != o {
        var rest := [queue[0]] + Without(queue[1..], o);
        assert rest[1..] == Without(queue[1..], o);
        TailMembers(rest, op);
      }
    }
  }

  lemma {:induction false} TailMembers(queue: seq<Pending>, op: Op)
    requires queue != []
    ensures QueuedAs(queue, op) <==> queue[0].op == op || QueuedAs(queue[1..], op)
    ensures HasPending(queue, op.opId) <==> queue[0].op.opId == op.opId || HasPending(queue[1..], op.opId)
  {
    assert forall i :: 0 < i < |queue| ==> queue[i] == queue[1..][i - 1];
    assert forall i :: 0 <= i < |queue[1..]| ==> queue[1..][i] == queue[i + 1];
  }

  /**
   What the user decides to keep is queued only under the one id the conflict gives it: it is queued exactly when
   nothing waits under that id yet, or just this copy does. A conflict decided a second time while the first copy waits
   is not sent at all.
   */
  lemma {:induction false} KeptCopyIsQueuedIff(d: Device, o: OpId, now: int)
    requires o in d.conflicts
    ensures var kept := ForcedOp(o, d.conflicts[o], now);
            QueuedAs(TookLocal(d, o, now).queue, kept) <==> !HasPending(d.queue, Forced(o)) || QueuedAs(d.queue, kept)
  {
    var kept := ForcedOp(o, d.conflicts[o], now);
    var left := Without(d.queue, o);
    WithoutKeepsOps(d.queue, o, kept);
    if !HasPending(left, kept.opId) { assert (left + [Pending(kept, 0)])[|left|].op == kept; }
  }
}
