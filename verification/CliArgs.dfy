/** The dynamic arguments of `mistry build`: the parser with its variable stride, and the printer it undoes. */
module CliArgs {
  import opened Strings

  datatype Pair = Pair(key: string, value: string)

  /** Printed either as one argument `--key=value` or as the two arguments `--key` and `value`. */
  datatype Printed = Joined(pair: Pair) | Apart(pair: Pair)

  // Go's strings package

  /** strings.TrimLeft with the cutset "--": it removes every leading dash. */
  function TrimDashes(s: string): (r: string)
    ensures r == [] || r[0] != '-'
    ensures (s == [] || s[0] != '-') ==> r == s
    ensures |r| <= |s|
  {
    if s != [] && s[0] == '-' then TrimDashes(s[1..]) else s
  }

  // Parsing

  /** The assignments the arguments stand for, in order. A last argument without "=" is dropped. */
  function Pairs(args: seq<string>): seq<Pair> {
    if args == [] then [] else
    var arg := TrimDashes(args[0]);
    if '=' in arg then [Pair(Split(arg, '=')[0], Split(arg, '=')[1])] + Pairs(args[1..])
    else if |args| > 1 then [Pair(arg, args[1])] + Pairs(args[2..])
    else []
  }

  /** The assignments made one after the other, from left to right. */
  function Assign(m: map<string, string>, pairs: seq<Pair>): map<string, string>
    decreases |pairs|
  {
    if pairs == [] then m else Assign(m[pairs[0].key := pairs[0].value], pairs[1..])
  }

  method ParseDynamicArgs(args: seq<string>) returns (parsed: map<string, string>)
    ensures parsed == Assign(map[], Pairs(args))
  {
    parsed := map[];
    var i := 0;
    while i < |args|
      invariant i <= |args|
      invariant Assign(parsed, Pairs(args[i..])) == Assign(map[], Pairs(args))
      decreases |args| - i
    {
      var arg := TrimDashes(args[i]);
      assert args[i..][1..] == args[i + 1..];
      if '=' in arg {
        var parts := Split(arg, '=');
        parsed := parsed[parts[0] := parts[1]];
        i := i + 1;
      } else if i + 1 < |args| {
        assert args[i..][2..] == args[i + 2..];
        parsed := parsed[arg := args[i + 1]];
        i := i + 2;
      } else {
        i := i + 1;
      }
    }
  }

  // Every form of arguments

  predicate Dashes(d: string) { forall i :: 0 <= i < |d| ==> d[i] == '-' }

  lemma {:induction false} TrimAfter(d: string, s: string)
    requires Dashes(d) && (s == "" || s[0] != '-')
    ensures TrimDashes(d + s) == s
  {
    if d != "" {
      assert (d + s)[1..] == d[1..] + s;
      TrimAfter(d[1..], s);
    } else {
      assert d + s == s;
    }
  }

  lemma JoinedForm(d: string, k: string, v: string, first: string, rest: seq<string>)
    requires Dashes(d) && KeyFits(k) && Split(v, '=')[0] == first
    ensures Pairs([d + k + "=" + v] + rest) == [Pair(k, first)] + Pairs(rest)
  {
    var s := k + "=" + v;
    assert d + k + "=" + v == d + s;
    assert s[|k|] == '=';
    TrimAfter(d, s);
    SplitJoined(k, '=', v);
    assert k + ['='] + v == s;
    assert ([d + s] + rest)[1..] == rest;
  }

  lemma CutForm(d: string, k: string, v: string, t: string, rest: seq<string>)
    requires Dashes(d) && KeyFits(k) && '=' !in v
    ensures Pairs([d + k + "=" + v + "=" + t] + rest) == [Pair(k, v)] + Pairs(rest)
  {
    var w := v + "=" + t;
    assert v + ['='] + t == w;
    SplitJoined(v, '=', t);
    JoinedForm(d, k, w, v, rest);
    assert d + k + "=" + w == d + k + "=" + v + "=" + t;
  }

  lemma ApartForm(d: string, k: string, v: string, rest: seq<string>)
    requires Dashes(d) && KeyFits(k)
    ensures Pairs([d + k, v] + rest) == [Pair(k, v)] + Pairs(rest) && Pairs([d + k]) == []
  {
    TrimAfter(d, k);
    assert ([d + k, v] + rest)[2..] == rest;
  }

  /** After any number of dashes, none included: an argument k=v assigns to k what of v is before its first "="; an
      argument k without "=" takes the next one, whatever that is, as its value; and the last argument assigns nothing
      if it has no "=". */
  lemma ArgumentForms(d: string, k: string, v: string, t: string, rest: seq<string>)
    requires Dashes(d) && KeyFits(k)
    ensures '=' !in v ==> Pairs([d + k + "=" + v] + rest) == [Pair(k, v)] + Pairs(rest)
    ensures '=' !in v ==> Pairs([d + k + "=" + v + "=" + t] + rest) == [Pair(k, v)] + Pairs(rest)
    ensures Pairs([d + k, v] + rest) == [Pair(k, v)] + Pairs(rest)
    ensures Pairs([d + k]) == [] && Pairs([]) == []
  {
    if '=' !in v {
      SplitPlain(v, '=');
      JoinedForm(d, k, v, v, rest);
      CutForm(d, k, v, t, rest);
    }
    ApartForm(d, k, v, rest);
  }

  /** Whatever argument comes first is of one of these forms. */
  lemma EveryArgument(arg: string) returns (d: string, k: string, v: string)
    ensures Dashes(d) && KeyFits(k) && (arg == d + k || arg == d + k + "=" + v)
  {
    var s := TrimDashes(arg);
    d := CutDashes(arg);
    if '=' in s {
      k, v := CutKey(s);
      assert d + (k + "=" + v) == d + k + "=" + v;
    } else {
      k, v := s, "";
    }
  }

  lemma {:induction false} CutDashes(arg: string) returns (d: string)
    ensures Dashes(d) && arg == d + TrimDashes(arg)
  {
    if arg != "" && arg[0] == '-' {
      var e := CutDashes(arg[1..]);
      d := "-" + e;
      assert arg == [arg[0]] + arg[1..];
    } else {
      d := "";
    }
  }

  lemma {:induction false} CutKey(s: string) returns (k: string, v: string)
    requires '=' in s
    ensures '=' !in k && s == k + "=" + v && (k == "" || k[0] == s[0])
  {
    if s[0] == '=' {
      k, v := "", s[1..];
    } else {
      var k', v' := CutKey(s[1..]);
      k, v := [s[0]] + k', v';
      assert s == [s[0]] + s[1..];
    }
  }

  // Printing

  function Words(p: Printed): seq<string> {
    match p
    case Joined(pair) => ["--" + pair.key + "=" + pair.value]
    case Apart(pair) => ["--" + pair.key, pair.value]
  }

  function Print(ps: seq<Printed>): seq<string> {
    if ps == [] then [] else Words(ps[0]) + Print(ps[1..])
  }

  function Plain(ps: seq<Printed>): (r: seq<Pair>)
    ensures |r| == |ps| && forall i :: 0 <= i < |ps| ==> r[i] == ps[i].pair
  {
    if ps == [] then [] else [ps[0].pair] + Plain(ps[1..])
  }

  predicate KeyFits(key: string) { '=' !in key && (key == [] || key[0] != '-') }

  predicate ValueFits(p: Printed) { p.Joined? ==> '=' !in p.pair.value }

  predicate Fits(p: Printed) { KeyFits(p.pair.key) && ValueFits(p) }

  // Round trip

  /** What is left of a value: up to its first "=" when the pair is printed as one argument. */
  function Cut(p: Printed): Pair {
    if p.Joined? then Pair(p.pair.key, Split(p.pair.value, '=')[0]) else p.pair
  }

  function Cuts(ps: seq<Printed>): (r: seq<Pair>)
    ensures |r| == |ps| && forall i :: 0 <= i < |ps| ==> r[i] == Cut(ps[i])
  {
    if ps == [] then [] else [Cut(ps[0])] + Cuts(ps[1..])
  }

  lemma CutExactly(p: Printed)
    ensures Cut(p) == p.pair <==> ValueFits(p)
  {
    if '=' !in p.pair.value { SplitPlain(p.pair.value, '='); }
  }

  lemma TrimPrinted(s: string)
    ensures TrimDashes("--" + s) == TrimDashes(s)
  {
    assert ("--" + s)[1..] == "-" + s && ("-" + s)[1..] == s;
  }

  lemma PairsOfFitting(p: Printed, rest: seq<string>)
    requires KeyFits(p.pair.key)
    ensures Pairs(Words(p) + rest) == [Cut(p)] + Pairs(rest)
  {
    var key, value := p.pair.key, p.pair.value;
    var args := Words(p) + rest;
    match p
    case Joined(_) =>
      assert args[0] == "--" + (key + "=" + value);
      TrimPrinted(key + "=" + value);
      SplitJoined(key, '=', value);
      assert '=' in key + "=" + value by { assert (key + "=" + value)[|key|] == '='; }
      assert args[1..] == rest;
    case Apart(_) =>
      TrimPrinted(key);
      assert args[2..] == rest;
  }

  /** As long as all keys fit, the parser stays in step with the printer and each value is what is left of it. */
  lemma {:induction false} PairsOfPrint(ps: seq<Printed>)
    requires forall i :: 0 <= i < |ps| ==> KeyFits(ps[i].pair.key)
    ensures Pairs(Print(ps)) == Cuts(ps)
  {
    if ps != [] {
      PairsOfFitting(ps[0], Print(ps[1..]));
      PairsOfPrint(ps[1..]);
    }
  }

  lemma {:induction false} KeysFit(args: seq<string>, i: nat)
    requires i < |Pairs(args)|
    ensures KeyFits(Pairs(args)[i].key)
  {
    var arg := TrimDashes(args[0]);
    if '=' in arg {
      if i > 0 { KeysFit(args[1..], i - 1); }
    } else if i > 0 {
      KeysFit(args[2..], i - 1);
    }
  }

  /** The parser recovers a printed list of assignments if and only if no key starts with "-" or holds a "=" and no
      value printed in one argument with its key holds a "=". */
  lemma {:induction false} RoundTrip(ps: seq<Printed>)
    ensures Pairs(Print(ps)) == Plain(ps) <==> forall i :: 0 <= i < |ps| ==> Fits(ps[i])
  {
    forall i | 0 <= i < |ps| ensures Cut(ps[i]) == ps[i].pair <==> ValueFits(ps[i]) { CutExactly(ps[i]); }
    if Pairs(Print(ps)) == Plain(ps) {
      forall i | 0 <= i < |ps| ensures KeyFits(ps[i].pair.key) { KeysFit(Print(ps), i); }
      PairsOfPrint(ps);
      forall i | 0 <= i < |ps| ensures Fits(ps[i]) { assert Cuts(ps)[i] == Plain(ps)[i]; }
    }
    if forall i :: 0 <= i < |ps| ==> Fits(ps[i]) {
      PairsOfPrint(ps);
      assert Cuts(ps) == Plain(ps);
    }
  }

  // The map

  predicate IsLast(pairs: seq<Pair>, i: int) {
    0 <= i < |pairs| && forall j :: i < j < |pairs| ==> pairs[j].key != pairs[i].key
  }

  /** The last assignment to a key decides. */
  lemma {:induction false} LastWins(m: map<string, string>, pairs: seq<Pair>, i: nat)
    requires IsLast(pairs, i)
    ensures pairs[i].key in Assign(m, pairs) && Assign(m, pairs)[pairs[i].key] == pairs[i].value
    decreases |pairs|
  {
    var m', rest := m[pairs[0].key := pairs[0].value], pairs[1..];
    if i > 0 {
      assert IsLast(rest, i - 1) by {
        forall j | i - 1 < j < |rest| ensures rest[j].key != rest[i - 1].key {
          assert pairs[j + 1].key != pairs[i].key;
        }
      }
      LastWins(m', rest, i - 1);
    } else {
      forall j | 0 <= j < |rest| ensures rest[j].key != pairs[0].key { assert pairs[j + 1].key != pairs[0].key; }
      Unassigned(m', rest, pairs[0].key);
    }
  }

  lemma {:induction false} Unassigned(m: map<string, string>, pairs: seq<Pair>, key: string)
    requires forall j :: 0 <= j < |pairs| ==> pairs[j].key != key
    ensures key in Assign(m, pairs) <==> key in m
    ensures key in m ==> Assign(m, pairs)[key] == m[key]
    decreases |pairs|
  {
    if pairs != [] { Unassigned(m[pairs[0].key := pairs[0].value], pairs[1..], key); }
  }

  lemma {:induction false} LastExists(pairs: seq<Pair>, key: string)
    requires exists j :: 0 <= j < |pairs| && pairs[j].key == key
    ensures exists i :: IsLast(pairs, i) && pairs[i].key == key
    decreases |pairs|
  {
    var n := |pairs| - 1;
    if pairs[n].key == key {
      assert IsLast(pairs, n);
    } else {
      var front := pairs[..n];
      var j :| 0 <= j < |pairs| && pairs[j].key == key;
      assert front[j].key == key;
      LastExists(front, key);
      var i :| IsLast(front, i) && front[i].key == key;
      forall h | i < h < |pairs| ensures pairs[h].key != pairs[i].key {
        if h < n { assert front[h].key != front[i].key; }
      }
      assert IsLast(pairs, i);
    }
  }

  lemma AssignedKeys(pairs: seq<Pair>, key: string)
    ensures key in Assign(map[], pairs) <==> exists j :: 0 <= j < |pairs| && pairs[j].key == key
  {
    if exists j :: 0 <= j < |pairs| && pairs[j].key == key {
      LastExists(pairs, key);
      var i :| IsLast(pairs, i) && pairs[i].key == key;
      LastWins(map[], pairs, i);
    } else {
      Unassigned(map[], pairs, key);
    }
  }

  /** When the lists agree on their keys, their maps agree exactly if they agree wherever a key is assigned last. */
  lemma {:induction false} SameMap(a: seq<Pair>, b: seq<Pair>)
    requires |a| == |b| && forall i :: 0 <= i < |a| ==> a[i].key == b[i].key
    ensures Assign(map[], a) == Assign(map[], b) <==> forall i :: IsLast(a, i) ==> a[i] == b[i]
  {
    forall i | IsLast(a, i)
      ensures a[i].key in Assign(map[], a) && Assign(map[], a)[a[i].key] == a[i].value
      ensures a[i].key in Assign(map[], b) && Assign(map[], b)[a[i].key] == b[i].value
    {
      LastWins(map[], a, i);
      assert IsLast(b, i);
      LastWins(map[], b, i);
    }
    if forall i :: IsLast(a, i) ==> a[i] == b[i] {
      forall key ensures key in Assign(map[], a) <==> key in Assign(map[], b) {
        AssignedKeys(a, key);
        AssignedKeys(b, key);
        assert forall i :: 0 <= i < |a| ==> (a[i].key == key <==> b[i].key == key);
      }
      forall key | key in Assign(map[], a) ensures Assign(map[], a)[key] == Assign(map[], b)[key] {
        AssignedKeys(a, key);
        LastExists(a, key);
        var i :| IsLast(a, i) && a[i].key == key;
        assert a[i] == b[i];
      }
    }
  }

  /** The map that the parser makes of printed assignments is the left-to-right update by them if and only if every
      key fits and so does every value that no later assignment to its key replaces. */
  lemma {:induction false} MapRoundTrip(ps: seq<Printed>)
    ensures Assign(map[], Pairs(Print(ps))) == Assign(map[], Plain(ps))
            <==> forall i :: 0 <= i < |ps| ==> KeyFits(ps[i].pair.key) && (IsLast(Plain(ps), i) ==> ValueFits(ps[i]))
  {
    forall i | 0 <= i < |ps| ensures Cut(ps[i]) == ps[i].pair <==> ValueFits(ps[i]) { CutExactly(ps[i]); }
    if forall i :: 0 <= i < |ps| ==> KeyFits(ps[i].pair.key) {
      PairsOfPrint(ps);
      SameMap(Plain(ps), Cuts(ps));
    } else {
      var i :| 0 <= i < |ps| && !KeyFits(ps[i].pair.key);
      var key := ps[i].pair.key;
      AssignedKeys(Plain(ps), key);
      assert Plain(ps)[i].key == key;
      AssignedKeys(Pairs(Print(ps)), key);
      forall j | 0 <= j < |Pairs(Print(ps))| ensures Pairs(Print(ps))[j].key != key { KeysFit(Print(ps), j); }
    }
  }
}
