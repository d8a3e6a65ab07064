/**
 The change feed and its pages (apps/api/src/sync/sync-engine.service.ts:375-426).
 Which changes a session may see is an arbitrary predicate `see`.
 */
module SyncFeed {
  import opened Prelude
  import opened SyncProtocol
  import opened SyncServerLaws

  const MAX_GAP := 500_000
  const SECRETS: set<string> := {"passwordHash", "clientOpId", "syncCursor", "failedAttempts", "lockedUntil"}

  /** The feed as one pull request finds it. */
  datatype Feed = Feed(entries: seq<Change>, head: nat)

  function Stripped(c: Change): Change { c.(data := c.data - SECRETS) }

  /** The visible changes with `lo < seq <= hi`, in feed order, without secrets. */
  function Window(entries: seq<Change>, see: Change -> bool, lo: nat, hi: nat): seq<Change> {
    if entries == [] then []
    else if lo < entries[0].seqNo <= hi && see(entries[0]) then
      [Stripped(entries[0])] + Window(entries[1..], see, lo, hi)
    else Window(entries[1..], see, lo, hi)
  }

  function PageLimit(limit: int): nat { Min(Max(1, limit), 2000) }

  function LastSeq(page: seq<Change>, cursor: nat): nat {
    if page == [] then cursor else page[|page| - 1].seqNo
  }

  function Pull(f: Feed, see: Change -> bool, cursor: nat, limit: int): PullReply {
    var rows := Window(f.entries, see, cursor, f.head);
    var page := rows[..Min(PageLimit(limit), |rows|)];
    if f.head - LastSeq(page, cursor) > MAX_GAP then FullResync
    else Page(page, LastSeq(page, cursor), |rows| > PageLimit(limit))
  }

  ghost predicate Sound(f: Feed) { FeedAscends(f.entries, f.head) }

  /** A later state of the same feed: entries were appended, each above the old head. */
  ghost predicate Extends(f: Feed, g: Feed) {
    && f.entries <= g.entries && f.head <= g.head
    && forall i :: |f.entries| <= i < |g.entries| ==> f.head < g.entries[i].seqNo
  }

  // ---- windows ----

  lemma {:induction false} WindowAppend(a: seq<Change>, b: seq<Change>, see: Change -> bool, lo: nat, hi: nat)
    ensures Window(a + b, see, lo, hi) == Window(a, see, lo, hi) + Window(b, see, lo, hi)
  {
    if a == [] {
      assert a + b == b;
    } else {
      assert (a + b)[1..] == a[1..] + b;
      WindowAppend(a[1..], b, see, lo, hi);
    }
  }

  lemma {:induction false} WindowMembers(entries: seq<Change>, see: Change -> bool, lo: nat, hi: nat)
    ensures forall c :: c in entries && lo < c.seqNo <= hi && see(c) ==> Stripped(c) in Window(entries, see, lo, hi)
    ensures forall w :: w in Window(entries, see, lo, hi) ==>
              lo < w.seqNo <= hi && exists c :: c in entries && see(c) && w == Stripped(c)
  {
    if entries != [] {
      WindowMembers(entries[1..], see, lo, hi);
      assert forall c :: c in entries <==> c == entries[0] || c in entries[1..];
    }
  }

  ghost predicate Bounded(w: seq<Change>, lo: int, hi: int) {
    forall i :: 0 <= i < |w| ==> lo < w[i].seqNo <= hi
  }

  lemma {:induction false} WindowBounds(entries: seq<Change>, see: Change -> bool, lo: nat, hi: nat, floor: int)
    requires forall i :: 0 <= i < |entries| ==> floor < entries[i].seqNo
    ensures Bounded(Window(entries, see, lo, hi), Max(floor, lo), hi)
  {
    if entries != [] {
      assert forall i :: 0 <= i < |entries[1..]| ==> entries[1..][i] == entries[i + 1];
      WindowBounds(entries[1..], see, lo, hi, floor);
    }
  }

  lemma {:induction false} WindowAscends(entries: seq<Change>, see: Change -> bool, lo: nat, hi: nat, head: nat)
    requires FeedAscends(entries, head)
    ensures FeedAscends(Window(entries, see, lo, hi), Min(hi, head))
  {
    if entries != [] {
      var rest := entries[1..];
      assert forall i :: 0 <= i < |rest| ==> rest[i] == entries[i + 1];
      WindowAscends(rest, see, lo, hi, head);
      WindowBounds(rest, see, lo, hi, entries[0].seqNo);
    }
  }

  /** Exactly the visible changes of the interval are in its window, ascending, hence once each. */
  lemma {:induction false} WindowExact(entries: seq<Change>, see: Change -> bool, lo: nat, hi: nat, head: nat)
    requires FeedAscends(entries, head)
    ensures forall c :: c in entries && lo < c.seqNo <= hi && see(c) ==> Stripped(c) in Window(entries, see, lo, hi)
    ensures forall w :: w in Window(entries, see, lo, hi) ==>
              lo < w.seqNo <= hi && exists c :: c in entries && see(c) && w == Stripped(c)
    ensures FeedAscends(Window(entries, see, lo, hi), Min(hi, head))
  {
    WindowMembers(entries, see, lo, hi);
    WindowAscends(entries, see, lo, hi, head);
  }

  lemma {:induction false} WindowEmpty(entries: seq<Change>, see: Change -> bool, lo: nat, hi: nat)
    requires forall c :: c in entries ==> !(lo < c.seqNo <= hi)
    ensures Window(entries, see, lo, hi) == []
  {
    if entries != [] {
      assert entries[0] in entries;
      WindowEmpty(entries[1..], see, lo, hi);
    }
  }

  function Head(c: Change, see: Change -> bool, lo: nat, hi: nat): seq<Change> {
    if lo < c.seqNo <= hi && see(c) then [Stripped(c)] else []
  }

  lemma {:induction false} SplitHead(c: Change, see: Change -> bool, lo: nat, mid: nat, hi: nat, low: seq<Change>,
                                     high: seq<Change>)
    requires lo <= mid <= hi && (c.seqNo > mid ==> low == [])
    ensures Head(c, see, lo, hi) + (low + high) == (Head(c, see, lo, mid) + low) + (Head(c, see, mid, hi) + high)
  {}

  /** Adjoining intervals concatenate. */
  lemma {:induction false} WindowSplit(entries: seq<Change>, see: Change -> bool, lo: nat, mid: nat, hi: nat, head: nat)
    requires FeedAscends(entries, head) && lo <= mid <= hi
    ensures Window(entries, see, lo, hi) == Window(entries, see, lo, mid) + Window(entries, see, mid, hi)
  {
    if entries != [] {
      var rest := entries[1..];
      assert forall i :: 0 <= i < |rest| ==> rest[i] == entries[i + 1];
      WindowSplit(rest, see, lo, mid, hi, head);
      if entries[0].seqNo > mid {
        assert forall c :: c in rest ==> c.seqNo > mid;
        WindowEmpty(rest, see, lo, mid);
      }
      SplitHead(entries[0], see, lo, mid, hi, Window(rest, see, lo, mid), Window(rest, see, mid, hi));
    }
  }

  /** Appending to the feed does not change what was below its head. */
  lemma {:induction false} WindowStable(f: Feed, g: Feed, see: Change -> bool, lo: nat, hi: nat)
    requires Extends(f, g) && hi <= f.head
    ensures Window(g.entries, see, lo, hi) == Window(f.entries, see, lo, hi)
  {
    var more := g.entries[|f.entries|..];
    assert g.entries == f.entries + more;
    WindowAppend(f.entries, more, see, lo, hi);
    forall c | c in more ensures !(lo < c.seqNo <= hi) {
      var i :| 0 <= i < |more| && more[i] == c;
      assert g.entries[|f.entries| + i] == c;
    }
    WindowEmpty(more, see, lo, hi);
  }

  lemma {:induction false} CutAt(w: seq<Change>, a: seq<Change>, b: seq<Change>, n: nat, lo: nat, mid: nat, hi: nat,
                                 head: nat)
    requires w == a + b && FeedAscends(w, Min(hi, head)) && Bounded(a, lo, mid) && Bounded(b, mid, hi)
    requires 0 < n <= |w| && w[n - 1].seqNo == mid
    ensures w[..n] == a
  {
    assert forall i :: |a| <= i < |w| ==> mid < w[i].seqNo by {
      assert forall i :: |a| <= i < |w| ==> w[i] == b[i - |a|];
    }
    assert forall i :: 0 <= i < |a| ==> w[i] == a[i] && w[i].seqNo <= mid;
    assert |a| >= n;
    assert w[|a| - 1].seqNo <= mid;
    assert |a| == n;
  }

  /** The first part of a window is the window up to its last entry. */
  lemma {:induction false} WindowPrefix(entries: seq<Change>, see: Change -> bool, lo: nat, hi: nat, head: nat, n: nat)
    requires FeedAscends(entries, head) && n <= |Window(entries, see, lo, hi)|
    ensures var page := Window(entries, see, lo, hi)[..n];
            page == Window(entries, see, lo, LastSeq(page, lo))
  {
    var w := Window(entries, see, lo, hi);
    if n == 0 {
      WindowEmpty(entries, see, lo, lo);
    } else {
      var mid := w[n - 1].seqNo;
      WindowBounds(entries, see, lo, hi, 0);
      WindowAscends(entries, see, lo, hi, head);
      WindowSplit(entries, see, lo, mid, hi, head);
      var a, b := Window(entries, see, lo, mid), Window(entries, see, mid, hi);
      WindowBounds(entries, see, lo, mid, 0);
      WindowBounds(entries, see, mid, hi, 0);
      CutAt(w, a, b, n, lo, mid, hi, head);
    }
  }

  /** One page: exactly the visible changes from the old cursor to the new one, and whether more follow. */
  lemma {:induction false} PageIsWindow(f: Feed, see: Change -> bool, cursor: nat, limit: int)
    requires Sound(f) && cursor <= f.head
    ensures Pull(f, see, cursor, limit).Page? ==>
      var p := Pull(f, see, cursor, limit);
      && cursor <= p.cursor <= f.head
      && p.changes == Window(f.entries, see, cursor, p.cursor)
      && (p.hasMore <==> Window(f.entries, see, p.cursor, f.head) != [])
      && (p.hasMore ==> cursor < p.cursor)
    ensures f.head - cursor <= MAX_GAP ==> Pull(f, see, cursor, limit).Page?
  {
    var rows := Window(f.entries, see, cursor, f.head);
    var n := Min(PageLimit(limit), |rows|);
    WindowBounds(f.entries, see, cursor, f.head, 0);
    WindowPrefix(f.entries, see, cursor, f.head, f.head, n);
    var page := rows[..n];
    WindowSplit(f.entries, see, cursor, LastSeq(page, cursor), f.head, f.head);
    assert rows == page + rows[n..];
  }

  /** The cursor and every change of the next page lie more than the retention gap below the head. */
  ghost predicate FarBehind(f: Feed, see: Change -> bool, cursor: nat, limit: int) {
    var rows := Window(f.entries, see, cursor, f.head);
    && f.head - cursor > MAX_GAP
    && forall k :: 0 <= k < Min(PageLimit(limit), |rows|) ==> f.head - rows[k].seqNo > MAX_GAP
  }

  /** When a page request is answered with a demand for a full resync. */
  lemma {:induction false} ResyncIffFarBehind(f: Feed, see: Change -> bool, cursor: nat, limit: int)
    requires Sound(f)
    ensures Pull(f, see, cursor, limit) == FullResync <==> FarBehind(f, see, cursor, limit)
  {
    var rows := Window(f.entries, see, cursor, f.head);
    var n := Min(PageLimit(limit), |rows|);
    WindowAscends(f.entries, see, cursor, f.head, f.head);
    WindowBounds(f.entries, see, cursor, f.head, 0);
    if n > 0 {
      assert rows[..n][n - 1] == rows[n - 1];
      assert forall k :: 0 <= k < n - 1 ==> rows[k].seqNo < rows[n - 1].seqNo;
    }
  }

  // ---- a resync that is asked for again and again ----

  /** Whatever is appended from now on, a device that restarts from 0 is told to resync again. */
  ghost predicate BehindForever(f: Feed, see: Change -> bool, limit: int) {
    forall g :: Sound(g) && Extends(f, g) ==> Pull(g, see, 0, limit) == FullResync
  }

  lemma {:induction false} FullPageStaysBehind(f: Feed, g: Feed, see: Change -> bool, limit: int)
    requires Sound(f) && Extends(f, g) && |Window(f.entries, see, 0, f.head)| >= PageLimit(limit)
    requires Pull(f, see, 0, limit) == FullResync
    ensures Pull(g, see, 0, limit) == FullResync
  {
    var more := g.entries[|f.entries|..];
    assert g.entries == f.entries + more;
    var was, now := Window(f.entries, see, 0, f.head), Window(g.entries, see, 0, g.head);
    WindowAppend(f.entries, more, see, 0, g.head);
    WindowWiden(f.entries, see, 0, f.head, g.head);
    assert now[..PageLimit(limit)] == was[..PageLimit(limit)];
  }

  lemma {:induction false} WindowUnseen(entries: seq<Change>, see: Change -> bool, lo: nat, hi: nat)
    requires forall i :: 0 <= i < |entries| ==> !see(entries[i])
    ensures Window(entries, see, lo, hi) == []
  {
    if entries != [] { WindowUnseen(entries[1..], see, lo, hi); }
  }

  lemma {:induction false} UnseenAddsNothing(f: Feed, g: Feed, see: Change -> bool)
    requires Sound(f) && Extends(f, g) && forall c: Change :: c.seqNo > f.head ==> !see(c)
    ensures Window(g.entries, see, 0, g.head) == Window(f.entries, see, 0, f.head)
  {
    var more := g.entries[|f.entries|..];
    assert g.entries == f.entries + more;
    forall i | 0 <= i < |more| ensures !see(more[i]) { assert more[i] == g.entries[|f.entries| + i]; }
    WindowAppend(f.entries, more, see, 0, g.head);
    WindowWiden(f.entries, see, 0, f.head, g.head);
    WindowUnseen(more, see, 0, g.head);
  }

  lemma {:induction false} UnseenStaysBehind(f: Feed, g: Feed, see: Change -> bool, limit: int)
    requires Sound(f) && Extends(f, g) && (forall c: Change :: c.seqNo > f.head ==> !see(c))
    requires Pull(f, see, 0, limit) == FullResync
    ensures Pull(g, see, 0, limit) == FullResync
  {
    UnseenAddsNothing(f, g, see);
  }

  lemma {:induction false} OneChangeEndsResync(f: Feed, see: Change -> bool, limit: int, c: Change) returns (g: Feed)
    requires Sound(f) && see(c) && c.seqNo > f.head && |Window(f.entries, see, 0, f.head)| < PageLimit(limit)
    ensures Sound(g) && Extends(f, g) && Pull(g, see, 0, limit) != FullResync
  {
    g := Feed(f.entries + [c], c.seqNo);
    WindowAppend(f.entries, [c], see, 0, g.head);
    WindowWiden(f.entries, see, 0, f.head, g.head);
    assert [c][1..] == [];
    assert Window([c], see, 0, g.head) == [Stripped(c)];
    var rows := Window(g.entries, see, 0, g.head);
    assert rows[|rows| - 1].seqNo == c.seqNo && rows[..|rows|] == rows;
  }

  /**
   A demanded resync restarts from 0. It is demanded again for ever exactly when it is demanded now and either the first
   page from 0 is full, so that nothing appended later can enter it, or nothing appended later is visible.
   */
  lemma {:induction false} ResyncForeverIff(f: Feed, see: Change -> bool, limit: int)
    requires Sound(f)
    ensures BehindForever(f, see, limit) <==>
            && Pull(f, see, 0, limit) == FullResync
            && (|| |Window(f.entries, see, 0, f.head)| >= PageLimit(limit)
                || forall c: Change :: c.seqNo > f.head ==> !see(c))
  {
    var full := |Window(f.entries, see, 0, f.head)| >= PageLimit(limit);
    if BehindForever(f, see, limit) {
      assert Extends(f, f);
      if !full && exists c: Change :: c.seqNo > f.head && see(c) {
        var c: Change :| c.seqNo > f.head && see(c);
        var g := OneChangeEndsResync(f, see, limit, c);
        assert false;
      }
    } else {
      var g :| Sound(g) && Extends(f, g) && Pull(g, see, 0, limit) != FullResync;
      if Pull(f, see, 0, limit) == FullResync {
        if full {
          FullPageStaysBehind(f, g, see, limit);
          assert false;
        } else if forall c: Change :: c.seqNo > f.head ==> !see(c) {
          UnseenStaysBehind(f, g, see, limit);
          assert false;
        }
      }
    }
  }

  lemma {:induction false} WindowOfAll(entries: seq<Change>, see: Change -> bool, hi: nat)
    requires forall i :: 0 <= i < |entries| ==> 0 < entries[i].seqNo <= hi && see(entries[i])
    ensures |Window(entries, see, 0, hi)| == |entries|
    ensures forall i :: 0 <= i < |entries| ==> Window(entries, see, 0, hi)[i].seqNo == entries[i].seqNo
  {
    if entries != [] {
      assert forall i :: 0 <= i < |entries[1..]| ==> entries[1..][i] == entries[i + 1];
      WindowOfAll(entries[1..], see, hi);
    }
  }

  /** Such a feed exists for every page size: one full page of visible changes and a head far above it. */
  lemma {:induction false} ResyncMayNeverEnd(key: Key, limit: int) returns (f: Feed)
    ensures Sound(f) && BehindForever(f, _ => true, limit)
  {
    var n := PageLimit(limit);
    f := Feed(seq(n, i requires 0 <= i < n => Change(i + 1, key, 1, false, map[])), n + MAX_GAP + 1);
    WindowOfAll(f.entries, _ => true, f.head);
    var rows := Window(f.entries, _ => true, 0, f.head);
    assert rows[..n][n - 1].seqNo == n;
    ResyncForeverIff(f, _ => true, limit);
  }

  lemma {:induction false} WindowWiden(entries: seq<Change>, see: Change -> bool, lo: nat, head: nat, hi: nat)
    requires FeedAscends(entries, head) && head <= hi
    ensures Window(entries, see, lo, hi) == Window(entries, see, lo, head)
  {
    if entries != [] {
      assert forall i :: 0 <= i < |entries[1..]| ==> entries[1..][i] == entries[i + 1];
      WindowWiden(entries[1..], see, lo, head, hi);
    }
  }
}
