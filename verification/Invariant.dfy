/** The inductive invariant of the build protocol and its preservation by every step. */
module Invariant {
  import opened Protocol

  /** Persisted with exit code 0. This alone does not say that nothing failed: ErrBuild may be set. */
  predicate Succeeded(e: Entry) { e.info.Info? && e.info.exit == SUCCESS_EXIT_CODE }

  /** A successful build: readable info of its own group, exit code 0 and no build error. */
  predicate Good(e: Entry) {
    Succeeded(e) && !e.info.err && e.info.group == e.group
  }

  predicate GoodAt(s: State, k: Key, project: string, group: string) {
    k in s.ready && Good(s.ready[k]) && s.ready[k].group == group && k.project == project
  }

  /** The directories BootstrapProject has ensured for j when it is about to look at d. */
  predicate DirsBefore(s: State, j: Job, d: Dir) {
    && (d.GroupsDir? ==> j.group != "")
    && (!d.RootDir? ==> (j.project, RootDir) in s.dirs)
    && (d.ReadyDir? || d.GroupsDir? ==> (j.project, PendingDir) in s.dirs)
    && (d.GroupsDir? ==> (j.project, ReadyDir) in s.dirs)
  }

  /** Exactly what BootstrapProject promises. */
  predicate Bootstrapped(s: State, j: Job) {
    && (j.project, RootDir) in s.dirs && (j.project, PendingDir) in s.dirs && (j.project, ReadyDir) in s.dirs
    && (j.group != "" ==> (j.project, GroupsDir) in s.dirs)
  }

  /** Job queue and project mutex. */
  predicate TokensOk(s: State, r: nat, n: Run) {
    && (Owns(n.pc) ==> n.job.id in s.jq)
    && (HoldsLock(n.pc) ==> n.job.project in s.holder && s.holder[n.job.project] == r)
  }

  /** Nothing has gone wrong and no container has run. */
  predicate Clean(n: Run) {
    !n.err && n.exit == PENDING_EXIT_CODE && n.answer.NoAnswer?
  }

  predicate CheckOk(s: State, n: Run, c: CheckPc) {
    var k := KeyOf(n.job);
    && Clean(n) && n.src.None?
    && (c.ReadReady? ==> k in s.ready)
    && (c.Remove? || c.RemoveInfo? ==>
          k in s.ready && s.ready[k].info.Info? && s.ready[k].info.exit != SUCCESS_EXIT_CODE)
    && (c.Remove? ==> s.ready[k].log)
    && (c.Removing? ==> k in s.ready && s.ready[k].info.Unreadable?)
  }

  predicate BootOk(s: State, n: Run, b: BootPc) {
    && (n.err ==> b.BootUnlock? && n.faulted)
    && n.exit == PENDING_EXIT_CODE && n.answer.NoAnswer? && n.src.None?
    && (b.BootStat? ==> DirsBefore(s, n.job, b.d))
    && (b.BootMkdir? ==> DirsBefore(s, n.job, b.d) && (n.job.project, b.d) !in s.dirs)
    && (b.BootUnlock? && !n.err ==> Bootstrapped(s, n.job))
  }

  /** What the pending directory of a run was started from. */
  predicate BaseOk(n: Run, b: Base) {
    if n.src.None? then b == Fresh else b == Copy(n.src.value) || b == Nested(n.src.value)
  }

  predicate PendingOk(s: State, n: Run) {
    KeyOf(n.job) in s.pending && BaseOk(n, s.pending[KeyOf(n.job)].base)
  }

  predicate PrepareOk(s: State, n: Run, p: PreparePc) {
    && Clean(n) && Bootstrapped(s, n.job)
    && (p.Resolve? ==> n.src.None?)
    && (!p.Resolve? && !p.MakeDir? ==> PendingOk(s, n))
  }

  /** Between the creation of the build log and its closing. */
  predicate LogOpen(w: BuildPc) {
    w.NewClient? || w.BuildImage? || w.RunContainer? || w.Sync? || w.ReadLogs? || w.CloseClient? || w.CloseLog?
  }

  /** Before the last persist the pending info is the initial one. Before the rename it is the final one, or, if the
      last persist failed, the initial one or unreadable. A run that got as far as the container has a build log. */
  predicate BuildOk(s: State, n: Run, w: BuildPc) {
    && n.answer.NoAnswer? && Bootstrapped(s, n.job) && PendingOk(s, n)
    && (w.WriteParams? || w.CreateLog? || w.NewClient? || w.BuildImage? || w.RunContainer? ==> Clean(n))
    && (w.Sync? || w.ReadLogs? ==> !n.err)
    && var i := s.pending[KeyOf(n.job)].info;
    && (!w.Rename? ==> i == Info(PENDING_EXIT_CODE, false, n.job.group, n.src.Some?))
    && (w.Rename? && !n.err ==> i == FinalInfo(n) && !n.errBuild)
    && (w.Rename? && i.Info? ==>
          i == Info(PENDING_EXIT_CODE, false, n.job.group, n.src.Some?) || i == FinalInfo(n))
    && (LogOpen(w) || n.exit != PENDING_EXIT_CODE ==> s.pending[KeyOf(n.job)].log)
    && ((w.Persist? || w.Rename?) && !n.err ==> s.pending[KeyOf(n.job)].log)
  }

  predicate LinkOk(s: State, n: Run, c: LinkPc) {
    && n.answer.NoAnswer? && Bootstrapped(s, n.job)
    && n.exit == SUCCESS_EXIT_CODE
    && GoodAt(s, KeyOf(n.job), n.job.project, n.job.group)
    && s.ready[KeyOf(n.job)].info.incremental == n.src.Some? && s.ready[KeyOf(n.job)].log
    && (n.err ==> c.LinkUnlock?)
    && (c.LinkRemove? ==> LinkOf(n.job) in s.links)
    && (c.LinkCreate? ==> LinkOf(n.job) !in s.links)
  }

  predicate LeaveOk(s: State, n: Run) {
    var k := KeyOf(n.job);
    && (k in s.ready || n.faulted)
    && !n.answer.Failed?
    && (n.answer.Replied? ==> !n.err)
    && (n.answer.NoAnswer? && !n.err ==> k in s.ready && s.ready[k].info == CurrentInfo(n) && s.ready[k].log)
  }

  predicate PhaseOk(s: State, n: Run) {
    match n.pc
    case Entering(e) => Clean(n) && n.src.None?
    case Checking(c) => CheckOk(s, n, c)
    case Bootstrapping(b) => BootOk(s, n, b)
    case Preparing(p) => PrepareOk(s, n, p)
    case Building(w) => BuildOk(s, n, w)
    case Linking(l) => LinkOk(s, n, l)
    case Leave => LeaveOk(s, n)
    case Done => true
  }

  /** The build a run starts from is, and stays, a successful build of its project and group. */
  predicate SrcOk(s: State, n: Run) {
    n.src.Some? ==> n.job.group != "" && GoodAt(s, n.src.value, n.job.project, n.job.group)
  }

  predicate RunOk(s: State, r: nat, n: Run) {
    && TokensOk(s, r, n) && SrcOk(s, n) && PhaseOk(s, n)
    && (Unpublished(n.pc) ==> KeyOf(n.job) !in s.ready)
  }

  ghost predicate RunsOk(s: State) {
    forall r :: r in s.runs ==> RunOk(s, r, s.runs[r])
  }

  ghost predicate SingleOwner(s: State) {
    forall r, q | r in s.runs && q in s.runs && Owns(s.runs[r].pc) && Owns(s.runs[q].pc) ::
      s.runs[r].job.id == s.runs[q].job.id ==> r == q
  }

  /** A published build that was not started afresh was started from an earlier successful build of its project
      and group. */
  predicate ParentOk(s: State, k: Key, e: Entry) {
    match e.base
    case Fresh => true
    case Copy(p) => GoodAt(s, p, k.project, e.group) && s.ready[p].order < e.order && e.group != ""
    case Nested(p) => GoodAt(s, p, k.project, e.group) && s.ready[p].order < e.order && e.group != ""
    case Damaged => false
  }

  ghost predicate LineageOk(s: State) {
    forall k :: k in s.ready ==> s.ready[k].order < s.clock && ParentOk(s, k, s.ready[k])
  }

  ghost predicate LinksOk(s: State) {
    forall l :: l in s.links ==> GoodAt(s, s.links[l], l.project, l.group)
  }

  /** A build persisted with exit code 0 has its log. */
  ghost predicate LogsOk(s: State) { forall k :: k in s.ready && Succeeded(s.ready[k]) ==> s.ready[k].log }

  ghost predicate Inv(s: State) {
    RunsOk(s) && SingleOwner(s) && LineageOk(s) && LinksOk(s) && LogsOk(s)
  }
}
