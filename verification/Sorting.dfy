/**
 The stable sort that the source obtains from `Array.prototype.sort`.
 A sort is described by what it promises (ascending, nothing lost or invented, ties in
 their old order) and not by how it is computed.
 */
module Sorting {

  ghost predicate TotalPreorder<T(!new)>(le: (T, T) -> bool) {
    && (forall x, y :: le(x, y) || le(y, x))
    && (forall x, y, z :: le(x, y) && le(y, z) ==> le(x, z))
  }

  ghost predicate Ascending<T>(s: seq<T>, le: (T, T) -> bool) {
    forall i, j :: 0 <= i < j < |s| ==> le(s[i], s[j])
  }

  /** `r` holds an occurrence of `a` and, later, an occurrence of `b`. */
  ghost predicate Before<T>(r: seq<T>, a: T, b: T) {
    exists p, q :: 0 <= p < q < |r| && r[p] == a && r[q] == b
  }

  function Insert<T>(x: T, s: seq<T>, le: (T, T) -> bool): seq<T> {
    if s == [] || le(x, s[0]) then [x] + s else [s[0]] + Insert(x, s[1..], le)
  }

  function Sort<T>(s: seq<T>, le: (T, T) -> bool): seq<T> {
    if s == [] then [] else Insert(s[0], Sort(s[1..], le), le)
  }

  /** Where `Insert` puts its element: behind exactly the leading elements it does not precede. */
  lemma {:induction false} InsertAt<T>(x: T, s: seq<T>, le: (T, T) -> bool) returns (p: nat)
    ensures p <= |s| && Insert(x, s, le) == s[..p] + [x] + s[p..]
    ensures forall i :: 0 <= i < p ==> !le(x, s[i])
    ensures p < |s| ==> le(x, s[p])
  {
    if s == [] || le(x, s[0]) {
      p := 0;
    } else {
      var q := InsertAt(x, s[1..], le);
      p := q + 1;
      assert s == [s[0]] + s[1..];
      assert [s[0]] + (s[1..][..q] + [x] + s[1..][q..]) == s[..p] + [x] + s[p..];
    }
  }

  lemma {:induction false} SortPermutes<T>(s: seq<T>, le: (T, T) -> bool)
    ensures multiset(Sort(s, le)) == multiset(s) && |Sort(s, le)| == |s|
  {
    if s != [] {
      var t := Sort(s[1..], le);
      SortPermutes(s[1..], le);
      var p := InsertAt(s[0], t, le);
      assert t == t[..p] + t[p..];
      assert s == [s[0]] + s[1..];
    }
  }

  lemma {:induction false} SortAscends<T(!new)>(s: seq<T>, le: (T, T) -> bool)
    requires TotalPreorder(le)
    ensures Ascending(Sort(s, le), le)
  {
    if s != [] {
      var t := Sort(s[1..], le);
      SortAscends(s[1..], le);
      var p := InsertAt(s[0], t, le);
    }
  }

  lemma {:induction false} InsertKeepsBefore<T>(t: seq<T>, x: T, le: (T, T) -> bool, a: T, b: T)
    requires Before(t, a, b)
    ensures Before(Insert(x, t, le), a, b)
  {
    var p := InsertAt(x, t, le);
    var i, j :| 0 <= i < j < |t| && t[i] == a && t[j] == b;
    var r := Insert(x, t, le);
    assert r[if i < p then i else i + 1] == a && r[if j < p then j else j + 1] == b;
  }

  lemma {:induction false} InsertComesBefore<T>(t: seq<T>, x: T, le: (T, T) -> bool, j: nat)
    requires j < |t| && le(x, t[j])
    ensures Before(Insert(x, t, le), x, t[j])
  {
    var p := InsertAt(x, t, le);
    assert p <= j;
    assert Insert(x, t, le)[p] == x && Insert(x, t, le)[j + 1] == t[j];
  }

  /** Stability: a pair that is not out of order keeps its order, ties included. */
  lemma {:induction false} SortKeepsOrder<T(!new)>(s: seq<T>, i: nat, j: nat, le: (T, T) -> bool)
    requires i < j < |s| && le(s[i], s[j])
    ensures Before(Sort(s, le), s[i], s[j])
  {
    var t := Sort(s[1..], le);
    assert s[j] == s[1..][j - 1];
    if i == 0 {
      SortPermutes(s[1..], le);
      assert s[j] in multiset(t);
      var q :| 0 <= q < |t| && t[q] == s[j];
      InsertComesBefore(t, s[0], le, q);
    } else {
      assert s[i] == s[1..][i - 1];
      SortKeepsOrder(s[1..], i - 1, j - 1, le);
      InsertKeepsBefore(t, s[0], le, s[i], s[j]);
    }
  }

  lemma {:induction false} AscendingHead<T>(a: seq<T>, b: seq<T>, le: (T, T) -> bool)
    requires Ascending(a, le) && Ascending(b, le) && multiset(a) == multiset(b) && a != [] && b != []
    requires forall x, y :: x in a && y in a && le(x, y) && le(y, x) ==> x == y
    ensures a[0] == b[0]
  {
    assert a[0] in multiset(b) && b[0] in multiset(a);
    var i :| 0 <= i < |b| && b[i] == a[0];
    var j :| 0 <= j < |a| && a[j] == b[0];
    if i != 0 && j != 0 {
      assert le(a[0], a[j]) && le(b[0], b[i]);
    }
  }

  lemma {:induction false} MultisetTail<T>(a: seq<T>)
    requires a != []
    ensures multiset(a[1..]) == multiset(a) - multiset{a[0]} && a == [a[0]] + a[1..]
    ensures forall x | x in a[1..] :: x in a
  {
    assert a == [a[0]] + a[1..];
  }

  lemma {:induction false} AscendingTail<T>(a: seq<T>, le: (T, T) -> bool)
    requires Ascending(a, le) && a != []
    ensures Ascending(a[1..], le)
  {}

  /** With no two elements tied, ascending order leaves only one arrangement. */
  lemma {:induction false} AscendingUnique<T(!new)>(a: seq<T>, b: seq<T>, le: (T, T) -> bool)
    requires Ascending(a, le) && Ascending(b, le) && multiset(a) == multiset(b)
    requires forall x, y :: x in a && y in a && le(x, y) && le(y, x) ==> x == y
    ensures a == b
  {
    assert |a| == |multiset(a)| == |multiset(b)| == |b|;
    if a != [] {
      AscendingHead(a, b, le);
      MultisetTail(a);
      MultisetTail(b);
      AscendingTail(a, le);
      AscendingTail(b, le);
      AscendingUnique(a[1..], b[1..], le);
    }
  }
}
