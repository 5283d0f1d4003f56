/** Cleaned file paths, as Go's filepath package makes them. */
module Paths {
  import opened Strings

  /** A cleaned path by its components. */
  datatype Path = Path(rooted: bool, parts: seq<string>)

  /** One more component: an empty one or "." stands for nothing, ".." for the parent. */
  function Push(p: Path, c: string): Path {
    var n := |p.parts|;
    if c == "" || c == "." then p
    else if c != ".." then p.(parts := p.parts + [c])
    else if n > 0 && p.parts[n - 1] != ".." then p.(parts := p.parts[..n - 1])
    else if p.rooted then p
    else p.(parts := p.parts + [".."])
  }

  function PushAll(p: Path, cs: seq<string>): Path
    decreases |cs|
  {
    if cs == [] then p else PushAll(Push(p, cs[0]), cs[1..])
  }

  /** filepath.Clean, on a path that is not empty. */
  function Clean(s: string): Path { PushAll(Path(s != "" && s[0] == '/', []), Split(s, '/')) }

  /** filepath.Join, which cleans its result. */
  function Join(p: Path, s: string): Path { PushAll(p, Split(s, '/')) }

  /** A file name that stays inside the directory it is joined to. */
  predicate PlainName(s: string) { '/' !in s && s != "" && s != "." && s != ".." }

  lemma JoinPlain(p: Path, s: string)
    requires PlainName(s)
    ensures Join(p, s) == p.(parts := p.parts + [s])
  {
    SplitPlain(s, '/');
    assert Push(p, s) == p.(parts := p.parts + [s]);
    PushOne(p, s);
  }

  lemma JoinThree(p: Path, a: string, b: string, c: string)
    requires PlainName(a) && PlainName(b) && PlainName(c)
    ensures Join(Join(Join(p, a), b), c) == p.(parts := p.parts + [a, b, c])
  {
    JoinPlain(p, a);
    JoinPlain(Join(p, a), b);
    JoinPlain(Join(Join(p, a), b), c);
  }

  lemma PushOne(p: Path, c: string)
    ensures PushAll(p, [c]) == Push(p, c)
  {
    assert [c][1..] == [];
  }

  lemma PushTwo(p: Path, c: string, d: string)
    ensures PushAll(p, [c, d]) == Push(Push(p, c), d)
  {
    assert [c, d][1..] == [d];
    PushOne(Push(p, c), d);
  }

  /** Up from a directory and down to another one. */
  lemma JoinUpAndDown(p: Path, a: string, b: string)
    requires PlainName(a) && PlainName(b)
    ensures Join(Join(p, a), "../" + b) == Join(p, b)
  {
    JoinPlain(p, a);
    JoinPlain(p, b);
    SplitJoined("..", '/', b);
    SplitPlain(b, '/');
    assert ".." + ['/'] + b == "../" + b;
    var q := Join(p, a);
    PushTwo(q, "..", b);
    assert q.parts[..|q.parts| - 1] == p.parts;
  }

  /** A leading "./" makes no difference. */
  lemma JoinHere(p: Path, s: string)
    ensures Join(p, "./" + s) == Join(p, s)
  {
    SplitJoined(".", '/', s);
    assert "." + ['/'] + s == "./" + s;
    assert (["."] + Split(s, '/'))[1..] == Split(s, '/');
    assert Push(p, ".") == p;
  }

  /** Two directories up from a directory and down to another one. */
  lemma JoinTwiceUp(p: Path, a: string, b: string, c: string)
    requires PlainName(a) && PlainName(b) && PlainName(c)
    ensures Join(Join(Join(p, a), b), "../../" + c) == Join(p, c)
  {
    JoinPlain(p, a);
    JoinPlain(Join(p, a), b);
    var q := Join(Join(p, a), b);
    var s := "../" + c;
    SplitJoined("..", '/', s);
    assert ".." + ['/'] + s == "../../" + c;
    SplitJoined("..", '/', c);
    assert ".." + ['/'] + c == s;
    assert ([".."] + Split(s, '/'))[1..] == Split(s, '/');
    assert q.parts[..|q.parts| - 1] == Join(p, a).parts;
    assert Push(q, "..") == Join(p, a);
    assert Join(q, "../../" + c) == PushAll(Join(p, a), Split(s, '/')) == Join(Join(p, a), s);
    JoinUpAndDown(p, a, c);
  }

  // Paths as strings

  /** The components of a cleaned path are not empty and hold no separator; "." is not among them, and ".." only at the
      start of a path without root. */
  predicate IsClean(p: Path) {
    && (forall i :: 0 <= i < |p.parts| ==> p.parts[i] != "" && p.parts[i] != "." && '/' !in p.parts[i])
    && (forall i :: 0 <= i < |p.parts| && p.parts[i] == ".." ==>
          !p.rooted && forall j :: 0 <= j < i ==> p.parts[j] == "..")
  }

  lemma {:induction false} PushAllKeepsClean(p: Path, cs: seq<string>)
    requires IsClean(p) && forall i :: 0 <= i < |cs| ==> '/' !in cs[i]
    ensures IsClean(PushAll(p, cs))
    decreases |cs|
  {
    if cs != [] {
      PushAllKeepsClean(Push(p, cs[0]), cs[1..]);
    }
  }

  lemma CleanIsClean(s: string)
    ensures IsClean(Clean(s))
  {
    PushAllKeepsClean(Path(s != "" && s[0] == '/', []), Split(s, '/'));
  }

  lemma JoinKeepsClean(p: Path, s: string)
    requires IsClean(p)
    ensures IsClean(Join(p, s))
  {
    PushAllKeepsClean(p, Split(s, '/'));
  }

  function Slashed(parts: seq<string>): string {
    if parts == [] then "" else if |parts| == 1 then parts[0] else parts[0] + "/" + Slashed(parts[1..])
  }

  function Text(p: Path): string {
    if p.rooted then "/" + Slashed(p.parts) else if p.parts == [] then "." else Slashed(p.parts)
  }

  lemma {:induction false} SplitSlashed(parts: seq<string>)
    requires parts != [] && forall i :: 0 <= i < |parts| ==> '/' !in parts[i]
    ensures Split(Slashed(parts), '/') == parts
  {
    if |parts| == 1 {
      SplitPlain(parts[0], '/');
    } else {
      SplitSlashed(parts[1..]);
      SplitJoined(parts[0], '/', Slashed(parts[1..]));
    }
  }

  /** Two cleaned paths are the same string only if they have the same components. */
  lemma TextTellsApart(p: Path, q: Path)
    requires IsClean(p) && IsClean(q) && Text(p) == Text(q)
    ensures p == q
  {
    if p.parts != [] {
      SplitSlashed(p.parts);
    }
    if q.parts != [] {
      SplitSlashed(q.parts);
    }
    assert p.rooted <==> Text(p)[0] == '/';
    assert q.rooted <==> Text(q)[0] == '/';
    if p.rooted { assert Slashed(p.parts) == Text(p)[1..] == Text(q)[1..] == Slashed(q.parts); }
    if !p.rooted && (p.parts == [] || q.parts == []) { SplitPlain(".", '/'); }
  }

  // Plain paths

  /** What follows a leading "/". */
  function Unrooted(s: string): string { if s != "" && s[0] == '/' then s[1..] else s }

  /** A path of plain names, such as "/var/lib/mistry" or "builds". */
  predicate PlainPath(s: string) { forall c :: c in Split(Unrooted(s), '/') ==> PlainName(c) }

  lemma {:induction false} PushAllPlain(p: Path, cs: seq<string>)
    requires forall c :: c in cs ==> PlainName(c)
    ensures PushAll(p, cs) == p.(parts := p.parts + cs)
    decreases |cs|
  {
    if cs != [] {
      assert PlainName(cs[0]);
      PushAllPlain(Push(p, cs[0]), cs[1..]);
      assert p.parts + [cs[0]] + cs[1..] == p.parts + cs;
    } else {
      assert p.parts + cs == p.parts;
    }
  }

  lemma {:induction false} SlashedSplit(s: string)
    ensures Slashed(Split(s, '/')) == s
  {
    if s != "" {
      SlashedSplit(s[1..]);
      var rest := Split(s[1..], '/');
      assert s == [s[0]] + s[1..];
      if s[0] == '/' {
        assert Split(s, '/')[1..] == rest;
      } else {
        assert Split(s, '/')[1..] == rest[1..];
      }
    }
  }

  lemma {:induction false} SlashedAppend(a: seq<string>, b: seq<string>)
    requires a != [] && b != []
    ensures Slashed(a + b) == Slashed(a) + "/" + Slashed(b)
    decreases |a|
  {
    assert (a + b)[1..] == a[1..] + b;
    if |a| > 1 { SlashedAppend(a[1..], b); }
  }

  lemma CleanPlain(s: string)
    requires PlainPath(s)
    ensures Clean(s) == Path(s != "" && s[0] == '/', Split(Unrooted(s), '/'))
  {
    var rooted, cs := s != "" && s[0] == '/', Split(Unrooted(s), '/');
    if rooted {
      SplitJoined("", '/', Unrooted(s));
      assert "" + ['/'] + Unrooted(s) == s;
      assert ([""] + cs)[1..] == cs;
      assert PushAll(Path(rooted, []), [""] + cs) == PushAll(Path(rooted, []), cs);
    }
    PushAllPlain(Path(rooted, []), cs);
  }

  /** A plain path stays as it is, and names joined to it follow after "/". */
  lemma BelowPlain(s: string, names: seq<string>)
    requires PlainPath(s) && names != []
    ensures Text(Clean(s).(parts := Clean(s).parts + names)) == s + "/" + Slashed(names)
  {
    var cs := Split(Unrooted(s), '/');
    CleanPlain(s);
    SlashedSplit(Unrooted(s));
    SlashedAppend(cs, names);
    if s != "" && s[0] == '/' {
      assert s == "/" + Unrooted(s);
      assert "/" + (Unrooted(s) + "/" + Slashed(names)) == s + "/" + Slashed(names);
    }
  }
}
