/** The identity of a job: the seed over project, group, parameters and image, the ID hashed from it and the paths below
    the build directory that the ID names. */
module JobId {
  import opened Options
  import opened Paths

  datatype Config = Config(projectsPath: string, buildPath: string)

  /** What packing the project directory reports: its tar archive, that there is no such directory, or a failure. */
  datatype Packed = Packed(image: string) | NoSuchProject | PackFailed

  datatype Job = Job(
    project: string, group: string, params: map<string, string>, id: string,
    projectPath: string, rootBuildPath: string, latestBuildPath: string,
    pendingBuildPath: string, readyBuildPath: string, readyDataPath: string,
    buildLogPath: string, buildInfoPath: string, image: string, container: string)

  datatype Error = NoProject | InvalidConfiguration | UnknownProject(project: string) | CannotPack

  datatype NewJobResult = Made(job: Job) | Rejected(error: Error)

  // Sorted strings

  predicate AtMost(a: string, b: string) {
    a == [] || (b != [] && (a[0] < b[0] || (a[0] == b[0] && AtMost(a[1..], b[1..]))))
  }

  lemma {:induction false} AtMostTotal(a: string, b: string)
    ensures AtMost(a, b) || AtMost(b, a)
    ensures AtMost(a, b) && AtMost(b, a) ==> a == b
  {
    if a != [] && b != [] && a[0] == b[0] {
      AtMostTotal(a[1..], b[1..]);
      if a[1..] == b[1..] { assert a == [a[0]] + a[1..] == [b[0]] + b[1..] == b; }
    }
  }

  lemma {:induction false} AtMostTransitive(a: string, b: string, c: string)
    requires AtMost(a, b) && AtMost(b, c)
    ensures AtMost(a, c)
  {
    if a != [] && a[0] == b[0] == c[0] { AtMostTransitive(a[1..], b[1..], c[1..]); }
  }

  predicate DiffersFirst(a: string, b: string, i: int) { 0 <= i < |a| && i < |b| && a[..i] == b[..i] && a[i] != b[i] }

  /** The order of sort.Strings: a prefix comes first, otherwise the smaller of the first characters that differ. */
  lemma {:induction false} AtMostMeans(a: string, b: string)
    ensures AtMost(a, b) <==> a <= b || exists i :: DiffersFirst(a, b, i) && a[i] < b[i]
  {
    if a != [] && b != [] && a[0] == b[0] {
      AtMostMeans(a[1..], b[1..]);
      assert a == [a[0]] + a[1..] && b == [b[0]] + b[1..];
      assert a <= b <==> a[1..] <= b[1..];
      forall i | DiffersFirst(a, b, i) ensures i > 0 && DiffersFirst(a[1..], b[1..], i - 1) {
        assert a[1..][..i - 1] == a[..i][1..] == b[..i][1..] == b[1..][..i - 1];
      }
      forall i | DiffersFirst(a[1..], b[1..], i) ensures DiffersFirst(a, b, i + 1) {
        assert a[..i + 1] == [a[0]] + a[1..][..i] == [b[0]] + b[1..][..i] == b[..i + 1];
      }
      if exists i :: DiffersFirst(a, b, i) && a[i] < b[i] {
        var i :| DiffersFirst(a, b, i) && a[i] < b[i];
        assert DiffersFirst(a[1..], b[1..], i - 1) && a[1..][i - 1] < b[1..][i - 1];
      }
      if exists i :: DiffersFirst(a[1..], b[1..], i) && a[1..][i] < b[1..][i] {
        var i :| DiffersFirst(a[1..], b[1..], i) && a[1..][i] < b[1..][i];
        assert DiffersFirst(a, b, i + 1) && a[i + 1] < b[i + 1];
      }
    } else if a != [] && b != [] {
      assert DiffersFirst(a, b, 0);
      assert forall i :: DiffersFirst(a, b, i) ==> i == 0 || a[..i][0] == b[..i][0];
    }
  }

  predicate Sorted(s: seq<string>) { forall i, j :: 0 <= i < j < |s| ==> AtMost(s[i], s[j]) }

  function Insert(x: string, s: seq<string>): seq<string> {
    if s == [] || AtMost(x, s[0]) then [x] + s else [s[0]] + Insert(x, s[1..])
  }

  lemma SortedBefore(x: string, s: seq<string>)
    requires Sorted(s) && forall y :: y in s ==> AtMost(x, y)
    ensures Sorted([x] + s)
  {
  }

  lemma {:induction false} InsertKeeps(x: string, s: seq<string>)
    requires Sorted(s)
    ensures Sorted(Insert(x, s)) && multiset(Insert(x, s)) == multiset(s) + multiset{x}
  {
    if s != [] {
      assert s == [s[0]] + s[1..];
      AtMostTotal(x, s[0]);
      if AtMost(x, s[0]) {
        forall y | y in s ensures AtMost(x, y) { InsertFirst(x, s, y); }
        SortedBefore(x, s);
      } else {
        var r := Insert(x, s[1..]);
        InsertKeeps(x, s[1..]);
        forall y | y in r ensures AtMost(s[0], y) { assert y in multiset(r); }
        SortedBefore(s[0], r);
      }
    }
  }

  lemma InsertFirst(x: string, s: seq<string>, y: string)
    requires Sorted(s) && s != [] && AtMost(x, s[0]) && y in s
    ensures AtMost(x, y)
  {
    if y != s[0] { AtMostTransitive(x, s[0], y); }
  }

  /** sort.Strings. */
  function SortStrings(s: seq<string>): (r: seq<string>)
    ensures Sorted(r) && multiset(r) == multiset(s)
  {
    if s == [] then [] else
    assert s == [s[0]] + s[1..];
    var r := SortStrings(s[1..]);
    InsertKeeps(s[0], r);
    Insert(s[0], r)
  }

  lemma LeastFirst(a: seq<string>, b: seq<string>)
    requires Sorted(a) && a != [] && multiset(a) == multiset(b) && b != []
    ensures AtMost(a[0], b[0])
  {
    assert b[0] in multiset(a);
    var j :| 0 <= j < |a| && a[j] == b[0];
    if j == 0 { AtMostTotal(a[0], a[0]); }
  }

  lemma SameRest(a: seq<string>, b: seq<string>)
    requires a != [] && b != [] && multiset(a) == multiset(b) && a[0] == b[0]
    ensures multiset(a[1..]) == multiset(b[1..])
  {
    assert a == [a[0]] + a[1..] && b == [b[0]] + b[1..];
    assert multiset(a[1..]) == multiset(a) - multiset{a[0]};
  }

  /** A multiset of strings has only one sorted permutation. */
  lemma {:induction false} SortedUnique(a: seq<string>, b: seq<string>)
    requires Sorted(a) && Sorted(b) && multiset(a) == multiset(b)
    ensures a == b
    decreases |a|
  {
    assert |a| == |multiset(a)| == |b|;
    if a != [] {
      LeastFirst(a, b);
      LeastFirst(b, a);
      AtMostTotal(a[0], b[0]);
      SameRest(a, b);
      SortedUnique(a[1..], b[1..]);
      assert a == [a[0]] + a[1..] && b == [b[0]] + b[1..];
    }
  }

  // The seed

  /** Parameters opaque to the build do not count. */
  predicate Opaque(key: string) { key != [] && key[0] == '_' }

  function Counted(keys: set<string>): set<string> { set k | k in keys && !Opaque(k) }

  /** order lists every element of keys once. */
  ghost predicate Lists(order: seq<string>, keys: set<string>) {
    multiset(order) == multiset(keys)
  }

  function Value(params: map<string, string>, k: string): string { if k in params then params[k] else "" }

  function Concatenated(keys: seq<string>, params: map<string, string>): string {
    if keys == [] then "" else
    var n := |keys| - 1;
    Concatenated(keys[..n], params) + keys[n] + Value(params, keys[n])
  }

  /** The seed from the counted keys as listed in some order. */
  ghost function SeedBy(order: seq<string>, project: string, group: string, params: map<string, string>, image: string)
    : string
  {
    project + group + Concatenated(SortStrings(order), params) + image
  }

  lemma Within(order: seq<string>, params: map<string, string>)
    requires Lists(order, Counted(params.Keys))
    ensures forall k :: k in SortStrings(order) <==> k in params && !Opaque(k)
  {
    forall k ensures k in SortStrings(order) <==> k in params && !Opaque(k) {
      assert k in SortStrings(order) <==> k in multiset(SortStrings(order));
    }
  }

  lemma ConcatenatedNext(prefix: string, keys: seq<string>, i: nat, params: map<string, string>)
    requires i < |keys|
    ensures prefix + Concatenated(keys[..i], params) + keys[i] + Value(params, keys[i])
            == prefix + Concatenated(keys[..i + 1], params)
  {
    assert keys[..i + 1][..i] == keys[..i];
    var c, k, v := Concatenated(keys[..i], params), keys[i], Value(params, keys[i]);
    assert prefix + c + k + v == prefix + (c + k + v);
  }

  lemma {:induction false} SameConcatenation(keys: seq<string>, p: map<string, string>, q: map<string, string>)
    requires forall k :: k in keys ==> Value(p, k) == Value(q, k)
    ensures Concatenated(keys, p) == Concatenated(keys, q)
    decreases |keys|
  {
    if keys != [] { SameConcatenation(keys[..|keys| - 1], p, q); }
  }

  /** p and q differ at most in opaque parameters. */
  predicate SameBuild(p: map<string, string>, q: map<string, string>) {
    forall k :: k in p.Keys + q.Keys && !Opaque(k) ==> k in p && k in q && p[k] == q[k]
  }

  /** The seed is canonical: neither the order in which the parameters are visited nor the opaque ones matter. */
  lemma SeedIsCanonical(a: seq<string>, p: map<string, string>, b: seq<string>, q: map<string, string>,
                        project: string, group: string, image: string)
    requires Lists(a, Counted(p.Keys)) && Lists(b, Counted(q.Keys)) && SameBuild(p, q)
    ensures SeedBy(a, project, group, p, image) == SeedBy(b, project, group, q, image)
  {
    assert Counted(p.Keys) == Counted(q.Keys);
    SortedUnique(SortStrings(a), SortStrings(b));
    Within(a, p);
    SameConcatenation(SortStrings(a), p, q);
  }

  /** However the parameters are listed, text is the seed. */
  ghost predicate IsSeed(text: string, project: string, group: string, params: map<string, string>, image: string) {
    forall order :: Lists(order, Counted(params.Keys)) ==> text == SeedBy(order, project, group, params, image)
  }

  lemma IsCanonical(listed: seq<string>, project: string, group: string, params: map<string, string>, image: string)
    requires Lists(listed, Counted(params.Keys))
    ensures IsSeed(SeedBy(listed, project, group, params, image), project, group, params, image)
  {
    forall order | Lists(order, Counted(params.Keys))
      ensures SeedBy(listed, project, group, params, image) == SeedBy(order, project, group, params, image)
    {
      SeedIsCanonical(listed, params, order, params, project, group, image);
    }
  }

  // The seed written out

  /** a is before b in the order of sort.Strings. */
  ghost predicate Before(a: string, b: string) { a <= b || exists i :: DiffersFirst(a, b, i) && a[i] < b[i] }

  /** The keys that do not start with "_", each once, in ascending order. */
  ghost predicate Ascending(keys: seq<string>, params: map<string, string>) {
    && (forall k :: k in keys <==> k in params && !("_" <= k))
    && (forall i, j :: 0 <= i < j < |keys| ==> keys[i] != keys[j] && Before(keys[i], keys[j]))
  }

  /** Each key followed by its value. */
  function KeysAndValues(keys: seq<string>, params: map<string, string>): string {
    if keys == [] then "" else keys[0] + Value(params, keys[0]) + KeysAndValues(keys[1..], params)
  }

  lemma Regrouped(a: string, b: string, l: string, w: string)
    ensures a + b + l + w == a + (b + l + w)
  {
  }

  lemma {:induction false} FromTheFront(keys: seq<string>, params: map<string, string>)
    ensures Concatenated(keys, params) == KeysAndValues(keys, params)
    decreases |keys|
  {
    if |keys| == 1 {
      assert keys[..0] == [] && keys[1..] == [];
    } else if |keys| > 1 {
      var n := |keys| - 1;
      var rest, inner := keys[1..], keys[1..n];
      FromTheFront(keys[..n], params);
      FromTheFront(rest, params);
      FromTheFront(inner, params);
      assert keys[..n][1..] == inner && rest[..|rest| - 1] == inner && rest[|rest| - 1] == keys[n];
      Regrouped(keys[0] + Value(params, keys[0]), KeysAndValues(inner, params), keys[n], Value(params, keys[n]));
    }
  }

  lemma {:induction false} ListsDistinct(keys: seq<string>, all: set<string>)
    requires (forall k :: k in keys <==> k in all) && forall i, j :: 0 <= i < j < |keys| ==> keys[i] != keys[j]
    ensures Lists(keys, all)
    decreases |keys|
  {
    if keys == [] {
      assert all == {};
    } else {
      var n := |keys| - 1;
      var front, last := keys[..n], keys[n];
      assert keys == front + [last];
      forall k ensures k in front <==> k in all - {last} {
        assert k in keys <==> k in front || k == last;
      }
      ListsDistinct(front, all - {last});
      assert multiset(all) == multiset(all - {last}) + multiset{last};
    }
  }

  /** The seed is the project, the group, the keys that do not start with "_" in ascending order, each followed by its
      value, and the image. */
  lemma SeedWrittenOut(keys: seq<string>, project: string, group: string, params: map<string, string>, image: string,
                       text: string)
    requires Ascending(keys, params)
    ensures IsSeed(text, project, group, params, image)
            <==> text == project + group + KeysAndValues(keys, params) + image
  {
    forall i, j | 0 <= i < j < |keys| ensures AtMost(keys[i], keys[j]) { AtMostMeans(keys[i], keys[j]); }
    ListsDistinct(keys, Counted(params.Keys));
    SortedUnique(SortStrings(keys), keys);
    FromTheFront(keys, params);
    IsCanonical(keys, project, group, params, image);
  }

  lemma TwoWrittenOut(k: string, v: string, l: string, w: string, params: map<string, string>)
    requires Value(params, k) == v && Value(params, l) == w
    ensures KeysAndValues([k, l], params) == k + v + l + w
  {
    assert [k, l][1..] == [l] && [l][1..] == [];
    assert KeysAndValues([l], params) == l + w + "" == l + w;
    Regrouped(k + v, "", l, w);
  }

  /** Of two parameters, the one with the smaller first character that differs comes first, or the shorter key. */
  lemma SeedOfTwo(project: string, group: string, k: string, v: string, l: string, w: string, image: string,
                  text: string)
    requires !("_" <= k) && !("_" <= l) && k != l && Before(k, l)
    ensures IsSeed(text, project, group, map[k := v, l := w], image)
            <==> text == project + group + (k + v + l + w) + image
  {
    var params: map<string, string> := map[k := v, l := w];
    SeedWrittenOut([k, l], project, group, params, image, text);
    TwoWrittenOut(k, v, l, w, params);
  }

  // What the seed tells apart

  /** There is nothing between the parts of a seed. Whatever the other parts, the end x of the project may as well be
      the start of the group, a whole parameter k=v the end of the group, the end of a key the start of its value, and
      the end of a value the start of the image. */
  lemma SeedIsAmbiguous(project: string, x: string, group: string, k: string, v: string, image: string)
    requires !Opaque(k) && !Opaque(k + x)
    ensures Lists([k], Counted({k})) && Lists([k + x], Counted({k + x})) && Lists([], Counted({}))
    ensures SeedBy([], project + x, group, map[], image) == SeedBy([], project, x + group, map[], image)
    ensures SeedBy([k], project, group, map[k := v], image) == SeedBy([], project, group + k + v, map[], image)
    ensures SeedBy([k + x], project, group, map[k + x := v], image)
            == SeedBy([k], project, group, map[k := x + v], image)
    ensures SeedBy([k], project, group, map[k := v + x], image) == SeedBy([k], project, group, map[k := v], x + image)
  {
    ProjectOrGroup(project, x, group, image);
    GroupOrParameter(project, group, k, v, image);
    KeyOrValue(project, group, k, x, v, image);
    ValueOrImage(project, group, k, v, x, image);
  }

  /** None of the lengths of project, group, key and value can be left free while the others stay: lengthening any one
      of them by w gives the same seed as leaving all of them, when the image takes up the difference. */
  lemma NoLengthIsFree(w: string, image: string)
    requires w != "" && !Opaque(w)
    ensures Lists([w], Counted({w})) && Lists([w + w], Counted({w + w}))
    ensures SeedBy([w], w + w, w, map[w := w], image) == SeedBy([w], w, w, map[w := w], w + image)
    ensures SeedBy([w], w, w + w, map[w := w], image) == SeedBy([w], w, w, map[w := w], w + image)
    ensures SeedBy([w + w], w, w, map[w + w := w], image) == SeedBy([w], w, w, map[w := w], w + image)
    ensures SeedBy([w], w, w, map[w := w + w], image) == SeedBy([w], w, w, map[w := w], w + image)
  {
    OneSeed(w + w, w, w, w, image);
    OneSeed(w, w + w, w, w, image);
    OneSeed(w, w, w + w, w, image);
    OneSeed(w, w, w, w + w, image);
    OneSeed(w, w, w, w, w + image);
    Fivefold(w, image);
  }

  lemma Fivefold(w: string, y: string)
    ensures (w + w) + w + (w + w) + y == w + w + (w + w) + (w + y)
    ensures w + (w + w) + (w + w) + y == w + w + (w + w) + (w + y)
    ensures w + w + ((w + w) + w) + y == w + w + (w + w) + (w + y)
    ensures w + w + (w + (w + w)) + y == w + w + (w + w) + (w + y)
  {
  }

  lemma ConcatenatedTwo(k: string, v: string, l: string, w: string)
    requires k != l
    ensures Concatenated([k, l], map[k := v, l := w]) == k + v + l + w
  {
    var p: map<string, string> := map[k := v, l := w];
    assert [k, l][..1] == [k] && [k][..0] == [];
    assert Concatenated([k], p) == Concatenated([], p) + k + v == k + v;
  }

  lemma SortsTwo(k: string, l: string)
    requires AtMost(k, l)
    ensures SortStrings([k, l]) == [k, l]
  {
    assert [k, l][1..] == [l] && [l][1..] == [];
    assert SortStrings([l]) == [l];
  }

  lemma ListsTwo(k: string, l: string)
    requires !Opaque(k) && !Opaque(l) && k != l
    ensures Lists([k, l], Counted({k, l}))
  {
    assert Counted({k, l}) == {k, l};
  }

  /** The seed of a job with two counted parameters. */
  lemma TwoSeed(project: string, group: string, k: string, v: string, l: string, w: string, image: string)
    requires k != l && AtMost(k, l)
    ensures SeedBy([k, l], project, group, map[k := v, l := w], image) == project + group + (k + v + l + w) + image
  {
    SortsTwo(k, l);
    ConcatenatedTwo(k, v, l, w);
  }

  lemma Regroup(k: string, v: string, x: string, l: string, w: string)
    ensures k + (v + x) + l + w == k + v + (x + l) + w
  {
  }

  /** Nor is there anything between a value and the next key: the end x of the value of k may as well be the start of
      the next key, when that sorts after k either way. */
  lemma ValueOrNextKey(project: string, group: string, k: string, v: string, x: string, l: string, w: string,
                       image: string)
    requires !Opaque(k) && !Opaque(l) && !Opaque(x + l)
    requires k != l && k != x + l && AtMost(k, l) && AtMost(k, x + l)
    ensures Lists([k, l], Counted({k, l})) && Lists([k, x + l], Counted({k, x + l}))
    ensures SeedBy([k, l], project, group, map[k := v + x, l := w], image)
            == SeedBy([k, x + l], project, group, map[k := v, x + l := w], image)
  {
    ListsTwo(k, l);
    ListsTwo(k, x + l);
    TwoSeed(project, group, k, v + x, l, w, image);
    TwoSeed(project, group, k, v, x + l, w, image);
    Regroup(k, v, x, l, w);
  }

  lemma ProjectOrGroup(project: string, x: string, group: string, image: string)
    ensures SeedBy([], project + x, group, map[], image) == SeedBy([], project, x + group, map[], image)
  {
    assert (project + x) + group == project + (x + group);
  }

  lemma GroupOrParameter(project: string, group: string, k: string, v: string, image: string)
    requires !Opaque(k)
    ensures SeedBy([k], project, group, map[k := v], image) == SeedBy([], project, group + k + v, map[], image)
  {
    OneSeed(project, group, k, v, image);
    assert project + group + (k + v) == project + (group + k + v);
  }

  lemma KeyOrValue(project: string, group: string, k: string, x: string, v: string, image: string)
    requires !Opaque(k) && !Opaque(k + x)
    ensures Lists([k + x], Counted({k + x}))
    ensures SeedBy([k + x], project, group, map[k + x := v], image)
            == SeedBy([k], project, group, map[k := x + v], image)
  {
    OneSeed(project, group, k + x, v, image);
    OneSeed(project, group, k, x + v, image);
    assert (k + x) + v == k + (x + v);
  }

  lemma ValueOrImage(project: string, group: string, k: string, v: string, x: string, image: string)
    requires !Opaque(k)
    ensures SeedBy([k], project, group, map[k := v + x], image) == SeedBy([k], project, group, map[k := v], x + image)
  {
    OneSeed(project, group, k, v + x, image);
    OneSeed(project, group, k, v, x + image);
    var c := project + group;
    assert c + (k + (v + x)) + image == c + (k + v) + (x + image);
  }

  lemma OneSeed(project: string, group: string, k: string, v: string, image: string)
    requires !Opaque(k)
    ensures Lists([k], Counted({k}))
    ensures SeedBy([k], project, group, map[k := v], image) == project + group + (k + v) + image
  {
    var p: map<string, string> := map[k := v];
    assert Counted({k}) == {k};
    assert SortStrings([k]) == [k];
    assert [k][..0] == [];
    assert Concatenated([k], p) == Concatenated([], p) + k + v == k + v;
  }

  predicate SameLengths(a: seq<string>, p: map<string, string>, b: seq<string>, q: map<string, string>)
  {
    |a| == |b| && forall i :: 0 <= i < |a| ==> |a[i]| == |b[i]| && |Value(p, a[i])| == |Value(q, b[i])|
  }

  lemma CutAt(a: string, x: string, b: string, y: string)
    requires a + x == b + y && |a| == |b|
    ensures a == b && x == y
  {
    assert a == (a + x)[..|a|] && b == (b + y)[..|b|];
    assert x == (a + x)[|a|..] && y == (b + y)[|b|..];
  }

  lemma {:induction false} ConcatenatedLength(
    a: seq<string>, p: map<string, string>, b: seq<string>, q: map<string, string>)
    requires SameLengths(a, p, b, q)
    ensures |Concatenated(a, p)| == |Concatenated(b, q)|
    decreases |a|
  {
    if a != [] { ConcatenatedLength(a[..|a| - 1], p, b[..|b| - 1], q); }
  }

  lemma CutTwice(c: string, k: string, v: string, c': string, k': string, v': string)
    requires c + k + v == c' + k' + v' && |c| == |c'| && |k| == |k'| && |v| == |v'|
    ensures c == c' && k == k' && v == v'
  {
    CutAt(c + k, v, c' + k', v');
    CutAt(c, k, c', k');
  }

  lemma LastParts(a: seq<string>, p: map<string, string>, b: seq<string>, q: map<string, string>, n: nat)
    requires |a| == |b| == n + 1 && SameLengths(a, p, b, q) && Concatenated(a, p) == Concatenated(b, q)
    ensures SameLengths(a[..n], p, b[..n], q) && Concatenated(a[..n], p) == Concatenated(b[..n], q)
    ensures a[n] == b[n] && Value(p, a[n]) == Value(q, b[n])
  {
    ConcatenatedLength(a[..n], p, b[..n], q);
    CutTwice(Concatenated(a[..n], p), a[n], Value(p, a[n]), Concatenated(b[..n], q), b[n], Value(q, b[n]));
  }

  lemma {:induction false} SameParts(a: seq<string>, p: map<string, string>, b: seq<string>, q: map<string, string>)
    requires SameLengths(a, p, b, q) && Concatenated(a, p) == Concatenated(b, q)
    ensures forall i :: 0 <= i < |a| ==> a[i] == b[i] && Value(p, a[i]) == Value(q, b[i])
    decreases |a|
  {
    if a != [] {
      var n := |a| - 1;
      LastParts(a, p, b, q, n);
      SameParts(a[..n], p, b[..n], q);
      forall i | 0 <= i < n ensures a[i] == b[i] && Value(p, a[i]) == Value(q, b[i]) {
        assert a[..n][i] == a[i] && b[..n][i] == b[i];
      }
    }
  }

  lemma SameBuildFrom(a: seq<string>, p: map<string, string>, b: seq<string>, q: map<string, string>)
    requires Lists(a, Counted(p.Keys)) && Lists(b, Counted(q.Keys))
    requires SameLengths(SortStrings(a), p, SortStrings(b), q)
    requires Concatenated(SortStrings(a), p) == Concatenated(SortStrings(b), q)
    ensures SameBuild(p, q)
  {
    var keys := SortStrings(a);
    SameParts(keys, p, SortStrings(b), q);
    assert keys == SortStrings(b);
    Within(a, p);
    Within(b, q);
    forall k | k in p.Keys + q.Keys && !Opaque(k) ensures k in p && k in q && p[k] == q[k] {
      assert k in keys;
      var i :| 0 <= i < |keys| && keys[i] == k;
    }
  }

  lemma SeedParts(project: string, group: string, c: string, image: string,
                  project': string, group': string, c': string, image': string)
    requires |project| == |project'| && |group| == |group'| && |c| == |c'|
    requires project + group + c + image == project' + group' + c' + image'
    ensures project == project' && group == group' && c == c' && image == image'
  {
    CutAt(project + group + c, image, project' + group' + c', image');
    CutTwice(project, group, c, project', group', c');
  }

  /** Between jobs whose projects, groups, counted keys and their values have pairwise the same lengths, the seed tells
      everything apart that counts. */
  lemma SeedTellsApart(a: seq<string>, p: map<string, string>, b: seq<string>, q: map<string, string>,
                       project: string, group: string, image: string, project': string, group': string, image': string)
    requires Lists(a, Counted(p.Keys)) && Lists(b, Counted(q.Keys))
    requires |project| == |project'| && |group| == |group'|
    requires SameLengths(SortStrings(a), p, SortStrings(b), q)
    ensures SeedBy(a, project, group, p, image) == SeedBy(b, project', group', q, image')
            <==> project == project' && group == group' && image == image' && SameBuild(p, q)
  {
    if SeedBy(a, project, group, p, image) == SeedBy(b, project', group', q, image') {
      var c, c' := Concatenated(SortStrings(a), p), Concatenated(SortStrings(b), q);
      ConcatenatedLength(SortStrings(a), p, SortStrings(b), q);
      SeedParts(project, group, c, image, project', group', c', image');
      SameBuildFrom(a, p, b, q);
    } else if project == project' && group == group' && image == image' && SameBuild(p, q) {
      SeedIsCanonical(a, p, b, q, project, group, image);
    }
  }

  // Paths

  function RootPath(cfg: Config, project: string): Path { Join(Clean(cfg.buildPath), project) }

  function PathOf(cfg: Config, project: string, kind: string, name: string): Path {
    Join(Join(RootPath(cfg, project), kind), name)
  }

  function LinkPath(cfg: Config, project: string, group: string): Path {
    if group == "" then Join(RootPath(cfg, project), "latest") else PathOf(cfg, project, "groups", group)
  }

  function ProjectPath(cfg: Config, project: string): string { Text(Join(Clean(cfg.projectsPath), project)) }

  function JobOf(cfg: Config, project: string, group: string, params: map<string, string>, id: string): Job {
    var pending, ready := PathOf(cfg, project, "pending", id), PathOf(cfg, project, "ready", id);
    Job(project, group, params, id, ProjectPath(cfg, project), Text(RootPath(cfg, project)),
        Text(LinkPath(cfg, project, group)), Text(pending), Text(ready), Text(Join(ready, "data")),
        Text(Join(pending, "out.log")), Text(Join(pending, "build_info.json")), "mistry-" + project, "mistry-" + id)
  }

  /** A group as the paths expect it: none, or a plain file name. */
  predicate PlainGroup(g: string) { g == "" || PlainName(g) }

  function Below(cfg: Config, parts: seq<string>): Path {
    var base := Clean(cfg.buildPath);
    base.(parts := base.parts + parts)
  }

  lemma BelowTellsApart(cfg: Config, x: seq<string>, y: seq<string>)
    ensures Below(cfg, x) == Below(cfg, y) <==> x == y
  {
    var n := |Clean(cfg.buildPath).parts|;
    assert Below(cfg, x).parts[n..] == x && Below(cfg, y).parts[n..] == y;
  }

  lemma JoinBelow(cfg: Config, parts: seq<string>, s: string)
    requires PlainName(s)
    ensures Join(Below(cfg, parts), s) == Below(cfg, parts + [s])
  {
    JoinPlain(Below(cfg, parts), s);
    var base := Clean(cfg.buildPath).parts;
    assert base + parts + [s] == base + (parts + [s]);
  }

  lemma PathOfPlain(cfg: Config, p: string, kind: string, name: string)
    requires PlainName(p) && PlainName(kind) && PlainName(name)
    ensures PathOf(cfg, p, kind, name) == Below(cfg, [p, kind, name])
  {
    JoinPlain(Clean(cfg.buildPath), p);
    JoinBelow(cfg, [p], kind);
    assert [p] + [kind] == [p, kind];
    JoinBelow(cfg, [p, kind], name);
    assert [p, kind] + [name] == [p, kind, name];
  }

  function LinkParts(p: string, g: string): seq<string> { if g == "" then [p, "latest"] else [p, "groups", g] }

  lemma LinkPathPlain(cfg: Config, p: string, g: string)
    requires PlainName(p) && PlainGroup(g)
    ensures LinkPath(cfg, p, g) == Below(cfg, LinkParts(p, g))
  {
    if g == "" {
      JoinPlain(Clean(cfg.buildPath), p);
      JoinBelow(cfg, [p], "latest");
      assert [p] + ["latest"] == [p, "latest"];
    } else {
      PathOfPlain(cfg, p, "groups", g);
    }
  }

  lemma PathsDiffer(cfg: Config, p: string, kind: string, name: string, p': string, kind': string, name': string)
    requires PlainName(p) && PlainName(kind) && PlainName(name)
    requires PlainName(p') && PlainName(kind') && PlainName(name')
    ensures PathOf(cfg, p, kind, name) == PathOf(cfg, p', kind', name') <==> p == p' && kind == kind' && name == name'
  {
    var x, y := [p, kind, name], [p', kind', name'];
    PathOfPlain(cfg, p, kind, name);
    PathOfPlain(cfg, p', kind', name');
    BelowTellsApart(cfg, x, y);
    if x == y { assert x[0] == y[0] && x[1] == y[1] && x[2] == y[2]; }
  }

  lemma LinksDiffer(cfg: Config, p: string, g: string, p': string, g': string)
    requires PlainName(p) && PlainGroup(g) && PlainName(p') && PlainGroup(g')
    ensures LinkPath(cfg, p, g) == LinkPath(cfg, p', g') <==> p == p' && g == g'
  {
    var x, y := LinkParts(p, g), LinkParts(p', g');
    LinkPathPlain(cfg, p, g);
    LinkPathPlain(cfg, p', g');
    BelowTellsApart(cfg, x, y);
    if x == y {
      assert x[0] == y[0] && |x| == |y|;
      if |x| == 3 { assert x[2] == y[2]; }
    }
  }

  lemma LinkDiffers(cfg: Config, p: string, g: string, p': string, kind: string, name: string)
    requires PlainName(p) && PlainGroup(g) && PlainName(p') && PlainName(name)
    requires kind == "pending" || kind == "ready"
    ensures LinkPath(cfg, p, g) != PathOf(cfg, p', kind, name)
  {
    var x, y := LinkParts(p, g), [p', kind, name];
    LinkPathPlain(cfg, p, g);
    PathOfPlain(cfg, p', kind, name);
    BelowTellsApart(cfg, x, y);
    assert x[1] != y[1];
  }

  lemma PathsAreClean(cfg: Config, p: string, g: string, kind: string, name: string)
    ensures IsClean(PathOf(cfg, p, kind, name)) && IsClean(LinkPath(cfg, p, g))
  {
    CleanIsClean(cfg.buildPath);
    JoinKeepsClean(Clean(cfg.buildPath), p);
    var root := RootPath(cfg, p);
    JoinKeepsClean(root, kind);
    JoinKeepsClean(Join(root, kind), name);
    JoinKeepsClean(root, "latest");
    JoinKeepsClean(root, "groups");
    JoinKeepsClean(Join(root, "groups"), g);
  }

  lemma TextsDiffer(cfg: Config, p: string, kind: string, name: string, p': string, kind': string, name': string)
    requires PlainName(p) && PlainName(kind) && PlainName(name)
    requires PlainName(p') && PlainName(kind') && PlainName(name')
    ensures Text(PathOf(cfg, p, kind, name)) == Text(PathOf(cfg, p', kind', name'))
            <==> p == p' && kind == kind' && name == name'
  {
    PathsDiffer(cfg, p, kind, name, p', kind', name');
    PathsAreClean(cfg, p, "", kind, name);
    PathsAreClean(cfg, p', "", kind', name');
    if Text(PathOf(cfg, p, kind, name)) == Text(PathOf(cfg, p', kind', name')) {
      TextTellsApart(PathOf(cfg, p, kind, name), PathOf(cfg, p', kind', name'));
    }
  }

  lemma LinkTextsDiffer(cfg: Config, p: string, g: string, p': string, g': string)
    requires PlainName(p) && PlainGroup(g) && PlainName(p') && PlainGroup(g')
    ensures Text(LinkPath(cfg, p, g)) == Text(LinkPath(cfg, p', g')) <==> p == p' && g == g'
  {
    LinksDiffer(cfg, p, g, p', g');
    PathsAreClean(cfg, p, g, "", "");
    PathsAreClean(cfg, p', g', "", "");
    if Text(LinkPath(cfg, p, g)) == Text(LinkPath(cfg, p', g')) {
      TextTellsApart(LinkPath(cfg, p, g), LinkPath(cfg, p', g'));
    }
  }

  lemma LinkTextDiffers(cfg: Config, p: string, g: string, p': string, kind: string, name: string)
    requires PlainName(p) && PlainGroup(g) && PlainName(p') && PlainName(name)
    requires kind == "pending" || kind == "ready"
    ensures Text(LinkPath(cfg, p, g)) != Text(PathOf(cfg, p', kind, name))
  {
    LinkDiffers(cfg, p, g, p', kind, name);
    PathsAreClean(cfg, p, g, "", "");
    PathsAreClean(cfg, p', "", kind, name);
    if Text(LinkPath(cfg, p, g)) == Text(PathOf(cfg, p', kind, name)) {
      TextTellsApart(LinkPath(cfg, p, g), PathOf(cfg, p', kind, name));
    }
  }

  /** For plain names, two jobs share their pending path, or their ready path, exactly if they share project and ID; no
      pending path is a ready path; and they share the link exactly if they share project and group. All of these are
      strings, below whatever build directory is configured. */
  lemma PathsAreKeys(cfg: Config, p: string, g: string, id: string, params: map<string, string>,
                     p': string, g': string, id': string, params': map<string, string>)
    requires PlainName(p) && PlainName(id) && PlainGroup(g)
    requires PlainName(p') && PlainName(id') && PlainGroup(g')
    ensures var a, b := JobOf(cfg, p, g, params, id), JobOf(cfg, p', g', params', id');
            && (a.pendingBuildPath == b.pendingBuildPath <==> p == p' && id == id')
            && (a.readyBuildPath == b.readyBuildPath <==> p == p' && id == id')
            && a.pendingBuildPath != b.readyBuildPath
            && (a.latestBuildPath == b.latestBuildPath <==> p == p' && g == g')
            && a.latestBuildPath != b.pendingBuildPath && a.latestBuildPath != b.readyBuildPath
  {
    TextsDiffer(cfg, p, "pending", id, p', "pending", id');
    TextsDiffer(cfg, p, "ready", id, p', "ready", id');
    TextsDiffer(cfg, p, "pending", id, p', "ready", id');
    LinkTextsDiffer(cfg, p, g, p', g');
    LinkTextDiffers(cfg, p, g, p', "pending", id');
    LinkTextDiffers(cfg, p, g, p', "ready", id');
  }

  /** Groups are not checked, and joining cleans: the group "../latest" has the link of the jobs without a group. */
  lemma GroupEscapes(cfg: Config, p: string)
    ensures LinkPath(cfg, p, "../latest") == LinkPath(cfg, p, "")
  {
    assert "../" + "latest" == "../latest";
    JoinUpAndDown(RootPath(cfg, p), "groups", "latest");
  }

  /** Projects are not checked either: p and "./" + p, whose mutexes are different, have the same directory. */
  lemma ProjectEscapes(cfg: Config, p: string)
    ensures "./" + p != p && RootPath(cfg, "./" + p) == RootPath(cfg, p)
    ensures forall kind, name :: PathOf(cfg, "./" + p, kind, name) == PathOf(cfg, p, kind, name)
    ensures forall g :: LinkPath(cfg, "./" + p, g) == LinkPath(cfg, p, g)
  {
    SameRoot(cfg, p);
    assert |"./" + p| != |p|;
    forall kind, name ensures PathOf(cfg, "./" + p, kind, name) == PathOf(cfg, p, kind, name) {
      SamePath(cfg, p, kind, name);
    }
    forall g ensures LinkPath(cfg, "./" + p, g) == LinkPath(cfg, p, g) {
      SamePath(cfg, p, "groups", g);
    }
  }

  lemma SameRoot(cfg: Config, p: string)
    ensures RootPath(cfg, "./" + p) == RootPath(cfg, p)
  {
    JoinHere(Clean(cfg.buildPath), p);
  }

  lemma SamePath(cfg: Config, p: string, kind: string, name: string)
    ensures PathOf(cfg, "./" + p, kind, name) == PathOf(cfg, p, kind, name)
  {
    SameRoot(cfg, p);
  }

  /** j is the job of these inputs, its ID hashed from the seed. */
  ghost predicate IsJob(j: Job, cfg: Config, project: string, group: string, params: map<string, string>,
                        image: string, hash: string -> string) {
    exists seed :: IsSeed(seed, project, group, params, image) && j == JobOf(cfg, project, group, params, hash(seed))
  }

  lemma {:induction false} ListingExists(keys: set<string>)
    ensures exists order :: Lists(order, keys)
  {
    if keys == {} {
      assert Lists([], keys);
    } else {
      var k :| k in keys;
      ListingExists(keys - {k});
      var order :| Lists(order, keys - {k});
      assert multiset(keys) == multiset(keys - {k}) + multiset{k};
      assert Lists(order + [k], keys);
    }
  }

  lemma SameSeed(s: string, p: map<string, string>, t: string, q: map<string, string>,
                 project: string, group: string, image: string)
    requires IsSeed(s, project, group, p, image) && IsSeed(t, project, group, q, image) && SameBuild(p, q)
    ensures s == t
  {
    ListingExists(Counted(p.Keys));
    var order :| Lists(order, Counted(p.Keys));
    assert Counted(p.Keys) == Counted(q.Keys);
    SeedIsCanonical(order, p, order, q, project, group, image);
  }

  /** Everything that a job is called, written out: b is the build path and q the projects path. */
  predicate WrittenOut(j: Job, b: string, q: string) {
    var root := b + "/" + j.project;
    && j.projectPath == q + "/" + j.project
    && j.rootBuildPath == root
    && j.latestBuildPath
       == (if j.group == "" then root + "/" + "latest" else root + "/" + "groups" + "/" + j.group)
    && j.pendingBuildPath == root + "/" + "pending" + "/" + j.id
    && j.readyBuildPath == root + "/" + "ready" + "/" + j.id
    && j.readyDataPath == root + "/" + "ready" + "/" + j.id + "/" + "data"
    && j.buildLogPath == root + "/" + "pending" + "/" + j.id + "/" + "out.log"
    && j.buildInfoPath == root + "/" + "pending" + "/" + j.id + "/" + "build_info.json"
    && j.image == "mistry-" + j.project && j.container == "mistry-" + j.id
  }

  lemma TextOfOne(s: string, b: string, a: string)
    requires PlainPath(b) && Clean(s) == Clean(b) && PlainName(a)
    ensures Text(Join(Clean(s), a)) == b + "/" + a
  {
    JoinPlain(Clean(s), a);
    BelowPlain(b, [a]);
  }

  lemma SlashedTwo(x: string, y: string)
    ensures Slashed([x, y]) == x + "/" + y
  {
    assert [x, y][1..] == [y];
  }

  lemma SlashedThree(x: string, y: string, z: string)
    ensures Slashed([x, y, z]) == x + "/" + (y + "/" + z)
  {
    assert [x, y, z][1..] == [y, z];
    SlashedTwo(y, z);
  }

  lemma AfterRoot(b: string, p: string, kind: string, name: string, file: string)
    ensures b + "/" + (p + "/" + kind) == b + "/" + p + "/" + kind
    ensures b + "/" + (p + "/" + (kind + "/" + name)) == b + "/" + p + "/" + kind + "/" + name
    ensures b + "/" + (p + "/" + (kind + "/" + name) + "/" + file) == b + "/" + p + "/" + kind + "/" + name + "/" + file
  {
  }

  lemma TextOfTwo(s: string, b: string, p: string, kind: string)
    requires PlainPath(b) && Clean(s) == Clean(b) && PlainName(p) && PlainName(kind)
    ensures Text(Clean(s).(parts := Clean(s).parts + [p, kind])) == b + "/" + p + "/" + kind
  {
    BelowPlain(b, [p, kind]);
    SlashedTwo(p, kind);
    AfterRoot(b, p, kind, "", "");
  }

  lemma TextOfThree(cfg: Config, b: string, p: string, kind: string, name: string)
    requires PlainPath(b) && Clean(cfg.buildPath) == Clean(b) && PlainName(p) && PlainName(kind) && PlainName(name)
    ensures Text(PathOf(cfg, p, kind, name)) == b + "/" + p + "/" + kind + "/" + name
  {
    PathOfPlain(cfg, p, kind, name);
    BelowPlain(b, [p, kind, name]);
    SlashedThree(p, kind, name);
    AfterRoot(b, p, kind, name, "");
  }

  lemma TextOfFour(cfg: Config, b: string, p: string, kind: string, name: string, file: string)
    requires PlainPath(b) && Clean(cfg.buildPath) == Clean(b) && PlainName(p) && PlainName(kind) && PlainName(name)
    requires PlainName(file)
    ensures Text(Join(PathOf(cfg, p, kind, name), file)) == b + "/" + p + "/" + kind + "/" + name + "/" + file
  {
    PathOfPlain(cfg, p, kind, name);
    JoinBelow(cfg, [p, kind, name], file);
    BelowPlain(b, [p, kind, name] + [file]);
    SlashedAppend([p, kind, name], [file]);
    SlashedThree(p, kind, name);
    AfterRoot(b, p, kind, name, file);
  }

  lemma TextOfLink(cfg: Config, b: string, p: string, g: string)
    requires PlainPath(b) && Clean(cfg.buildPath) == Clean(b) && PlainName(p) && PlainGroup(g)
    ensures Text(LinkPath(cfg, p, g))
            == if g == "" then b + "/" + p + "/" + "latest" else b + "/" + p + "/" + "groups" + "/" + g
  {
    LinkPathPlain(cfg, p, g);
    if g == "" { TextOfTwo(cfg.buildPath, b, p, "latest"); } else { TextOfThree(cfg, b, p, "groups", g); }
  }

  lemma FileNames() returns (pending: string, ready: string, data: string, log: string, info: string)
    ensures pending == "pending" && ready == "ready" && data == "data" && log == "out.log" && info == "build_info.json"
    ensures PlainName(pending) && PlainName(ready) && PlainName(data) && PlainName(log) && PlainName(info)
  {
    pending, ready, data, log, info := "pending", "ready", "data", "out.log", "build_info.json";
  }

  /** For plain names below plain paths, or paths that are cleaned to such, this is what a job's paths are. */
  lemma PathsWrittenOut(cfg: Config, b: string, q: string, p: string, g: string, params: map<string, string>,
                        id: string)
    requires PlainPath(b) && Clean(cfg.buildPath) == Clean(b) && PlainPath(q) && Clean(cfg.projectsPath) == Clean(q)
    requires PlainName(p) && PlainGroup(g) && PlainName(id)
    ensures WrittenOut(JobOf(cfg, p, g, params, id), b, q)
  {
    TextOfOne(cfg.buildPath, b, p);
    TextOfOne(cfg.projectsPath, q, p);
    TextOfLink(cfg, b, p, g);
    var pending, ready, data, log, info := FileNames();
    TextOfThree(cfg, b, p, pending, id);
    TextOfThree(cfg, b, p, ready, id);
    TextOfFour(cfg, b, p, ready, id, data);
    TextOfFour(cfg, b, p, pending, id, log);
    TextOfFour(cfg, b, p, pending, id, info);
  }

  /** Requests that differ only in opaque parameters are the same job: whatever NewJob makes of the one and of the other
      has the same ID, paths, image and container. */
  lemma SameIdentity(p: map<string, string>, q: map<string, string>,
                     cfg: Config, project: string, group: string, image: string, hash: string -> string)
    requires SameBuild(p, q)
    ensures forall i, j |
              IsJob(i, cfg, project, group, p, image, hash) && IsJob(j, cfg, project, group, q, image, hash) ::
              j == i.(params := q)
  {
    forall i, j | IsJob(i, cfg, project, group, p, image, hash) && IsJob(j, cfg, project, group, q, image, hash)
      ensures j == i.(params := q)
    {
      var s :| IsSeed(s, project, group, p, image) && i == JobOf(cfg, project, group, p, hash(s));
      var t :| IsSeed(t, project, group, q, image) && j == JobOf(cfg, project, group, q, hash(t));
      SameSeed(s, p, t, q, project, group, image);
    }
  }

  /** All names are plain, so that paths are what they seem. */
  predicate AllPlain(cfg: Config, project: string, group: string, id: string) {
    PlainPath(cfg.buildPath) && PlainPath(cfg.projectsPath) && PlainName(project) && PlainGroup(group) && PlainName(id)
  }

  /** The parameters are visited in an order that is left open. */
  method NewJob(project: string, params: map<string, string>, group: string, cfg: Option<Config>,
                pack: string -> Packed, hash: string -> string) returns (r: NewJobResult)
    ensures project == "" ==> r == Rejected(NoProject)
    ensures project != "" && cfg.None? ==> r == Rejected(InvalidConfiguration)
    ensures project != "" && cfg.Some? ==>
              match pack(ProjectPath(cfg.value, project))
              case NoSuchProject => r == Rejected(UnknownProject(project))
              case PackFailed => r == Rejected(CannotPack)
              case Packed(image) => r.Made? && IsJob(r.job, cfg.value, project, group, params, image, hash)
    ensures r.Made? ==> cfg.Some? && r.job.project == project && r.job.group == group && r.job.params == params
    ensures r.Made? && AllPlain(cfg.value, project, group, r.job.id) ==>
              WrittenOut(r.job, cfg.value.buildPath, cfg.value.projectsPath)
  {
    if project == "" { return Rejected(NoProject); }
    if cfg.None? { return Rejected(InvalidConfiguration); }
    var packed := pack(ProjectPath(cfg.value, project));
    if packed.NoSuchProject? { return Rejected(UnknownProject(project)); }
    if packed.PackFailed? { return Rejected(CannotPack); }
    var seed := ComputeSeed(project, params, group, packed.image);
    var id := hash(seed);
    if AllPlain(cfg.value, project, group, id) {
      PathsWrittenOut(cfg.value, cfg.value.buildPath, cfg.value.projectsPath, project, group, params, id);
    }
    return Made(JobOf(cfg.value, project, group, params, id));
  }

  method CollectKeys(params: map<string, string>) returns (keys: seq<string>)
    ensures Lists(keys, Counted(params.Keys))
  {
    keys := [];
    var rest := params.Keys;
    ghost var visited := {};
    while rest != {}
      invariant visited !! rest && visited + rest == params.Keys
      invariant Lists(keys, Counted(visited))
      decreases rest
    {
      var k :| k in rest;
      rest, visited := rest - {k}, visited + {k};
      if !Opaque(k) { keys := keys + [k]; }
    }
    assert visited == params.Keys;
  }

  method ComputeSeed(project: string, params: map<string, string>, group: string, image: string)
    returns (seed: string)
    ensures IsSeed(seed, project, group, params, image)
    ensures forall ks :: Ascending(ks, params) ==> seed == project + group + KeysAndValues(ks, params) + image
  {
    var listed := CollectKeys(params);
    var keys := SortStrings(listed);
    seed := project + group;
    for i := 0 to |keys|
      invariant seed == project + group + Concatenated(keys[..i], params)
    {
      ConcatenatedNext(project + group, keys, i, params);
      seed := seed + keys[i] + Value(params, keys[i]);
    }
    assert keys[..|keys|] == keys;
    seed := seed + image;
    IsCanonical(listed, project, group, params, image);
    forall ks | Ascending(ks, params) ensures seed == project + group + KeysAndValues(ks, params) + image {
      SeedWrittenOut(ks, project, group, params, image, seed);
    }
  }
}
