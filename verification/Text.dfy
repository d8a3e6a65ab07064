/** Multi-line text: `split('\n')`, `trim`, dropping empty lines, and `join('\n')`. */
module Text {

  /** White space and line terminators as `String.prototype.trim` removes them. */
  predicate IsSpace(c: char) {
    || '\t' <= c <= '\r' || c == ' ' || c == '\U{00A0}' || c == '\U{1680}'
    || '\U{2000}' <= c <= '\U{200A}' || c == '\U{2028}' || c == '\U{2029}'
    || c == '\U{202F}' || c == '\U{205F}' || c == '\U{3000}' || c == '\U{FEFF}'
  }

  function TrimLeft(s: string): (r: string)
    ensures |r| <= |s| && r == s[|s| - |r|..]
    ensures r != "" ==> !IsSpace(r[0])
  {
    if s != "" && IsSpace(s[0]) then TrimLeft(s[1..]) else s
  }

  function TrimRight(s: string): (r: string)
    ensures |r| <= |s| && r == s[..|r|]
    ensures r != "" ==> !IsSpace(r[|r| - 1])
  {
    if s != "" && IsSpace(s[|s| - 1]) then TrimRight(s[..|s| - 1]) else s
  }

  function Trim(s: string): string { TrimRight(TrimLeft(s)) }

  function Split(s: string): (r: seq<string>)
    ensures |r| > 0
  {
    if s == "" then [""]
    else
      var rest := Split(s[1..]);
      if s[0] == '\n' then [""] + rest else [[s[0]] + rest[0]] + rest[1..]
  }

  function Join(lines: seq<string>): string {
    if lines == [] then "" else if |lines| == 1 then lines[0] else lines[0] + "\n" + Join(lines[1..])
  }

  function TrimAll(pieces: seq<string>): seq<string> {
    if pieces == [] then []
    else if Trim(pieces[0]) == "" then TrimAll(pieces[1..])
    else [Trim(pieces[0])] + TrimAll(pieces[1..])
  }

  /** The trimmed, non-empty lines of a text. */
  function Lines(s: string): seq<string> { TrimAll(Split(s)) }

  /** A line as `Lines` leaves it. */
  predicate CleanLine(l: string) {
    l != "" && '\n' !in l && !IsSpace(l[0]) && !IsSpace(l[|l| - 1])
  }

  predicate Clean(ls: seq<string>) { forall l :: l in ls ==> CleanLine(l) }

  lemma {:induction false} SplitHasNoNewline(s: string)
    ensures forall p :: p in Split(s) ==> '\n' !in p
  {
    if s != "" {
      SplitHasNoNewline(s[1..]);
      assert Split(s[1..])[0] in Split(s[1..]);
    }
  }

  lemma {:induction false} TrimIsClean(p: string)
    requires '\n' !in p && Trim(p) != ""
    ensures CleanLine(Trim(p))
  {
    var t := TrimLeft(p);
    var r := TrimRight(t);
    forall i | 0 <= i < |r| ensures r[i] != '\n' {
      assert r[i] == t[i] && t[i] == p[|p| - |t| + i];
    }
    assert r[0] == t[0];
  }

  lemma {:induction false} TrimAllClean(pieces: seq<string>)
    requires forall p :: p in pieces ==> '\n' !in p
    ensures Clean(TrimAll(pieces))
  {
    if pieces != [] {
      assert pieces[0] in pieces;
      assert forall p :: p in pieces[1..] ==> p in pieces;
      TrimAllClean(pieces[1..]);
      if Trim(pieces[0]) != "" { TrimIsClean(pieces[0]); }
    }
  }

  lemma LinesClean(s: string)
    ensures Clean(Lines(s))
  {
    SplitHasNoNewline(s);
    TrimAllClean(Split(s));
  }

  lemma {:induction false} SplitAtNewline(a: string, t: string)
    requires '\n' !in a
    ensures Split(a) == [a] && Split(a + "\n" + t) == [a] + Split(t)
  {
    if a == "" {
      assert a + "\n" + t == ['\n'] + t;
    } else {
      SplitAtNewline(a[1..], t);
      assert (a + "\n" + t)[1..] == a[1..] + "\n" + t;
      assert a == [a[0]] + a[1..];
    }
  }

  lemma {:induction false} SplitOfJoin(ls: seq<string>)
    requires ls != [] && forall l :: l in ls ==> '\n' !in l
    ensures Split(Join(ls)) == ls
  {
    assert ls == [ls[0]] + ls[1..] && ls[0] in ls;
    if |ls| == 1 {
      SplitAtNewline(ls[0], "");
    } else {
      SplitOfJoin(ls[1..]);
      SplitAtNewline(ls[0], Join(ls[1..]));
    }
  }

  lemma {:induction false} TrimAllOfClean(ls: seq<string>)
    requires Clean(ls)
    ensures TrimAll(ls) == ls
  {
    if ls != [] {
      assert CleanLine(ls[0]);
      TrimAllOfClean(ls[1..]);
    }
  }

  /** Text and clean lines are two forms of one thing: joining and splitting again loses nothing. */
  lemma LinesOfJoin(ls: seq<string>)
    requires Clean(ls)
    ensures Lines(Join(ls)) == ls
  {
    if ls != [] {
      SplitOfJoin(ls);
      TrimAllOfClean(ls);
    }
  }
}
