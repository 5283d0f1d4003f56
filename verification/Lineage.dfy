/** Incremental building: what a build was cloned from, and what that one was cloned from in turn. */
module Lineage {
  import opened Options
  import opened Protocol
  import opened Invariant
  import opened Preservation
  import opened Safety

  function ParentOf(e: Entry): Option<Key> {
    match e.base
    case Fresh => None
    case Copy(p) => Some(p)
    case Nested(p) => Some(p)
    case Damaged => None
  }

  /** k, the build it was cloned from, and so on. */
  ghost function Ancestry(s: State, k: Key): seq<Key>
    requires LineageOk(s) && k in s.ready
    decreases s.ready[k].order
  {
    assert ParentOk(s, k, s.ready[k]);
    match ParentOf(s.ready[k])
    case None => [k]
    case Some(p) => [k] + Ancestry(s, p)
  }

  ghost predicate Descending(s: State, c: seq<Key>) {
    && (forall i :: 0 <= i < |c| ==> c[i] in s.ready)
    && forall i, j :: 0 <= i < j < |c| ==> s.ready[c[j]].order < s.ready[c[i]].order
  }

  lemma {:induction false} AncestryDescends(s: State, k: Key)
    requires LineageOk(s) && k in s.ready
    ensures var c := Ancestry(s, k);
            && |c| >= 1 && c[0] == k && |c| <= s.ready[k].order + 1 && Descending(s, c)
            && forall i :: 1 <= i < |c| ==> GoodAt(s, c[i], k.project, s.ready[k].group)
    decreases s.ready[k].order
  {
    var c := Ancestry(s, k);
    assert ParentOk(s, k, s.ready[k]);
    if ParentOf(s.ready[k]).Some? {
      var p := ParentOf(s.ready[k]).value;
      AncestryDescends(s, p);
      var d := Ancestry(s, p);
      assert forall i :: 1 <= i < |c| ==> c[i] == d[i - 1];
      assert forall i :: 1 <= i < |c| ==> s.ready[c[i]].order <= s.ready[p].order;
    }
  }

  /** In every reachable state, going back through clone sources passes only through successful builds of the same
      project and group, in strictly descending order of publication; so it ends, and never comes back. */
  lemma LineageIsSound(s: State, k: Key)
    requires Reachable(s) && k in s.ready
    ensures LineageOk(s)
    ensures var c := Ancestry(s, k);
            && |c| >= 1 && c[0] == k && Descending(s, c) && ParentOf(s.ready[c[|c| - 1]]).None?
            && (forall i :: 1 <= i < |c| ==> GoodAt(s, c[i], k.project, s.ready[k].group))
            && (|c| > 1 ==> s.ready[k].group != "")
  {
    InvReachable(s);
    AncestryDescends(s, k);
    AncestryEnds(s, k);
    assert ParentOk(s, k, s.ready[k]);
  }

  lemma {:induction false} AncestryEnds(s: State, k: Key)
    requires LineageOk(s) && k in s.ready
    ensures var c := Ancestry(s, k); c[|c| - 1] in s.ready && ParentOf(s.ready[c[|c| - 1]]).None?
    decreases s.ready[k].order
  {
    assert ParentOk(s, k, s.ready[k]);
    if ParentOf(s.ready[k]).Some? {
      var p := ParentOf(s.ready[k]).value;
      AncestryEnds(s, p);
      assert Ancestry(s, k)[|Ancestry(s, k)| - 1] == Ancestry(s, p)[|Ancestry(s, p)| - 1];
    }
  }

  /** A run that is about to clone can do so, and the copy has the build info and the build log of a successful build of
      its project and group. When something is left in the pending path the copy ends up inside it instead. */
  lemma CloneSource(s: State, r: nat)
    requires Reachable(s) && r in s.runs && s.runs[r].pc == Preparing(MakeDir) && s.runs[r].src.Some?
    ensures var n := s.runs[r]; var k, p := KeyOf(n.job), n.src.value;
            && GoodAt(s, p, n.job.project, n.job.group) && n.job.group != "" && Legal(s, By(r, Ok))
            && var t := Apply(s, By(r, Ok));
            && k in t.pending
            && (k !in s.pending ==> t.pending[k] == Build(s.ready[p].info, true, Copy(p)))
            && (k in s.pending ==> t.pending[k] == s.pending[k].(base := Nested(p)))
  {
    InvReachable(s);
    assert RunOk(s, r, s.runs[r]);
  }

  /** The clone copies the very build the link named when it was resolved, however often the link has been swapped
      in between: i is the resolving step, j a later step of the same run that clones. */
  lemma CloneOfResolved(states: seq<State>, steps: seq<Step>, i: nat, j: nat, r: nat)
    requires Behaviour(states, steps) && i < j < |steps|
    requires r in states[i].runs && states[i].runs[r].pc == Preparing(Resolve) && steps[i].By? && steps[i].r == r
    requires steps[i].o.Found?
    requires forall h :: i < h < j ==> !steps[h].Restart? && steps[h].r != r
    ensures var l := LinkOf(states[i].runs[r].job);
            && r in states[j].runs && states[j].runs[r].pc == Preparing(MakeDir)
            && l in states[i].links && states[j].runs[r].src == Some(states[i].links[l])
            && var p := states[i].links[l];
            && p in states[i].ready && p in states[j].ready && states[j].ready[p] == states[i].ready[p]
  {
    InvBehaviour(states, steps, i);
    var l := LinkOf(states[i].runs[r].job);
    SuccessIsStable(states, steps, i, j, states[i].links[l]);
    RunWaits(states, steps, i + 1, j, r);
  }

  lemma {:induction false} RunWaits(states: seq<State>, steps: seq<Step>, i: nat, j: nat, r: nat)
    requires Execution(states, steps) && i <= j <= |steps| && r in states[i].runs
    requires forall h :: i <= h < j ==> !steps[h].Restart? && steps[h].r != r
    ensures r in states[j].runs && states[j].runs[r] == states[i].runs[r]
    decreases j
  {
    if i < j { RunWaits(states, steps, i, j - 1, r); }
  }
}
