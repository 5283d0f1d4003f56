/** Pieces of executions of the build protocol: one run r at a time, whose calls report what is given. */
module Continuations {
  import opened Options
  import opened Protocol
  import opened Progress

  /** s with run r at n. */
  function Put(s: State, r: nat, n: Run): State { s.(runs := s.runs[r := n]) }

  // A step of run r, by the parts of `Work`

  lemma EnterMove(from: State, s: State, r: nat, n: Run, e: EnterPc, o: Outcome)
    requires Leads(from, Put(s, r, n)) && n.pc == Entering(e) && EnabledEnter(s, n, e, o)
    ensures Leads(from, Put(EffectEnter(s, n, e, o), r, LocalEnter(n, e, o)))
  {
    LeadsStep(from, Put(s, r, n), By(r, o));
    assert s.runs[r := n][r := LocalEnter(n, e, o)] == s.runs[r := LocalEnter(n, e, o)];
  }

  lemma CheckMove(from: State, s: State, r: nat, n: Run, c: CheckPc, o: Outcome)
    requires Leads(from, Put(s, r, n)) && n.pc == Checking(c) && EnabledCheck(s, n, c, o)
    ensures Leads(from, Put(EffectCheck(s, n, c, o), r, LocalCheck(n, c, o)))
  {
    LeadsStep(from, Put(s, r, n), By(r, o));
    assert s.runs[r := n][r := LocalCheck(n, c, o)] == s.runs[r := LocalCheck(n, c, o)];
  }

  lemma BootMove(from: State, s: State, r: nat, n: Run, b: BootPc, o: Outcome)
    requires Leads(from, Put(s, r, n)) && n.pc == Bootstrapping(b) && EnabledBoot(s, n, b, o)
    ensures Leads(from, Put(EffectBoot(s, r, n, b, o), r, LocalBoot(n, b, o)))
  {
    LeadsStep(from, Put(s, r, n), By(r, o));
    assert s.runs[r := n][r := LocalBoot(n, b, o)] == s.runs[r := LocalBoot(n, b, o)];
  }

  lemma PrepareMove(from: State, s: State, r: nat, n: Run, p: PreparePc, o: Outcome)
    requires Leads(from, Put(s, r, n)) && n.pc == Preparing(p) && EnabledPrepare(s, n, p, o)
    ensures Leads(from, Put(EffectPrepare(s, n, p, o), r, LocalPrepare(n, p, o)))
  {
    LeadsStep(from, Put(s, r, n), By(r, o));
    assert s.runs[r := n][r := LocalPrepare(n, p, o)] == s.runs[r := LocalPrepare(n, p, o)];
  }

  lemma BuildMove(from: State, s: State, r: nat, n: Run, w: BuildPc, o: Outcome)
    requires Leads(from, Put(s, r, n)) && n.pc == Building(w) && EnabledBuild(s, n, w, o)
    ensures Leads(from, Put(EffectBuild(s, n, w, o), r, LocalBuild(n, w, o)))
  {
    LeadsStep(from, Put(s, r, n), By(r, o));
    assert s.runs[r := n][r := LocalBuild(n, w, o)] == s.runs[r := LocalBuild(n, w, o)];
  }

  lemma LinkMove(from: State, s: State, r: nat, n: Run, l: LinkPc, o: Outcome)
    requires Leads(from, Put(s, r, n)) && n.pc == Linking(l) && EnabledLink(s, n, l, o)
    ensures Leads(from, Put(EffectLink(s, r, n, l, o), r, LocalLink(n, l, o)))
  {
    LeadsStep(from, Put(s, r, n), By(r, o));
    assert s.runs[r := n][r := LocalLink(n, l, o)] == s.runs[r := LocalLink(n, l, o)];
  }

  lemma LeaveMove(from: State, s: State, r: nat, n: Run)
    requires Leads(from, Put(s, r, n)) && n.pc == Leave
    ensures Leads(from, Put(EffectLeave(s, n), r, LocalLeave(n)))
  {
    LeadsStep(from, Put(s, r, n), By(r, Ok));
    assert s.runs[r := n][r := LocalLeave(n)] == s.runs[r := LocalLeave(n)];
  }

  /** A new run is admitted as the owner of its ID. */
  lemma OwnerEnters(from: State, s: State, r: nat, j: Job)
    requires Leads(from, s) && r !in s.runs && j.id !in s.jq
    ensures Leads(from, Put(s.(jq := s.jq + {j.id}), r, NewRun(j).At(Checking(StatReady))))
  {
    LeadsStep(from, s, Begin(r, j));
    EnterMove(from, s, r, NewRun(j), Start, Ok);
  }

  /** A new run c coalesces with the owner of its ID. */
  lemma CoalescerEnters(from: State, s: State, r: nat, n: Run, c: nat, j: Job)
    requires Leads(from, Put(s, r, n)) && c !in s.runs && c != r && j.id in s.jq
    ensures Leads(from, Put(Put(s, c, NewRun(j).At(Entering(Poll))), r, n))
  {
    var t := Put(s, r, n);
    LeadsStep(from, t, Begin(c, j));
    EnterMove(from, t, c, NewRun(j), Start, Busy);
    assert Put(Put(s, c, NewRun(j).At(Entering(Poll))), r, n) == Put(t, c, NewRun(j).At(Entering(Poll)));
  }

  lemma TakenAndReturned(holder: map<string, nat>, p: string, r: nat)
    requires p !in holder
    ensures holder[p := r] - {p} == holder
  {
  }

  lemma Replaced(links: map<Link, Key>, l: Link, k: Key)
    ensures (links - {l})[l := k] == links[l := k]
  {
  }

  // A run that meets no fault

  lemma EnsuresDir(from: State, s: State, r: nat, n: Run, d: Dir) returns (t: State)
    requires Leads(from, Put(s, r, n)) && n.pc == Bootstrapping(BootStat(d))
    ensures t == s.(dirs := s.dirs + {(n.job.project, d)})
    ensures Leads(from, Put(t, r, n.At(Bootstrapping(AfterDir(n.job, d)))))
  {
    t := s.(dirs := s.dirs + {(n.job.project, d)});
    if (n.job.project, d) in s.dirs {
      BootMove(from, s, r, n, BootStat(d), Ok);
      assert s.dirs + {(n.job.project, d)} == s.dirs;
    } else {
      BootMove(from, s, r, n, BootStat(d), NotExist);
      BootMove(from, s, r, n.At(Bootstrapping(BootMkdir(d))), BootMkdir(d), Ok);
    }
  }

  lemma EnsuresDirs(from: State, s: State, r: nat, n: Run) returns (t: State)
    requires Leads(from, Put(s, r, n)) && n.pc == Bootstrapping(BootStat(RootDir))
    ensures t == s.(dirs := t.dirs) && Leads(from, Put(t, r, n.At(Bootstrapping(BootUnlock))))
  {
    var u := EnsuresDir(from, s, r, n, RootDir);
    var v := EnsuresDir(from, u, r, n.At(Bootstrapping(BootStat(PendingDir))), PendingDir);
    t := EnsuresLastDirs(from, v, r, n.At(Bootstrapping(BootStat(ReadyDir))));
  }

  lemma EnsuresLastDirs(from: State, s: State, r: nat, n: Run) returns (t: State)
    requires Leads(from, Put(s, r, n)) && n.pc == Bootstrapping(BootStat(ReadyDir))
    ensures t == s.(dirs := t.dirs) && Leads(from, Put(t, r, n.At(Bootstrapping(BootUnlock))))
  {
    t := EnsuresDir(from, s, r, n, ReadyDir);
    if n.job.group != "" { t := EnsuresDir(from, t, r, n.At(Bootstrapping(BootStat(GroupsDir))), GroupsDir); }
  }

  lemma Bootstraps(from: State, s: State, r: nat, n: Run) returns (t: State)
    requires Leads(from, Put(s, r, n)) && n == NewRun(n.job).At(Bootstrapping(StatProject))
    requires n.job.project !in s.holder
    ensures t == s.(dirs := t.dirs) && Leads(from, Put(t, r, n.At(Preparing(Resolve))))
  {
    var p := n.job.project;
    BootMove(from, s, r, n, StatProject, Ok);
    BootMove(from, s, r, n.At(Bootstrapping(BootLock)), BootLock, Ok);
    t := EnsuresDirs(from, s.(holder := s.holder[p := r]), r, n.At(Bootstrapping(BootStat(RootDir))));
    BootMove(from, t, r, n.At(Bootstrapping(BootUnlock)), BootUnlock, Ok);
    t := t.(holder := t.holder - {p});
    TakenAndReturned(s.holder, p, r);
  }

  /** t is s but for directories and what is pending at k. */
  predicate SameBut(s: State, t: State, k: Key) {
    && t.runs == s.runs && t.jq == s.jq && t.holder == s.holder && t.log == s.log && t.ready == s.ready
    && t.links == s.links && t.clock == s.clock && k in t.pending && t.pending == s.pending[k := t.pending[k]]
  }

  /** The clone source, if the link of the job's group names one. */
  function SourceOf(s: State, j: Job): Option<Key> {
    if j.group != "" && LinkOf(j) in s.links && s.links[LinkOf(j)] in s.ready then Some(s.links[LinkOf(j)]) else None
  }

  lemma Resolves(from: State, s: State, r: nat, n: Run)
    requires Leads(from, Put(s, r, n)) && n.pc == Preparing(Resolve) && n.src.None?
    ensures Leads(from, Put(s, r, n.(pc := Preparing(MakeDir), src := SourceOf(s, n.job))))
  {
    var src := SourceOf(s, n.job);
    PrepareMove(from, s, r, n, Resolve, if src.Some? then Found(src.value) else NotExist);
  }

  lemma MakesDir(from: State, s: State, r: nat, n: Run) returns (t: State)
    requires Leads(from, Put(s, r, n)) && n.pc == Preparing(MakeDir) && KeyOf(n.job) !in s.pending
    requires n.src.Some? ==> n.src.value in s.ready
    ensures SameBut(s, t, KeyOf(n.job)) && Leads(from, Put(t, r, n.At(Preparing(EnsureDirs))))
    ensures n.src.None? ==> !t.pending[KeyOf(n.job)].log
  {
    PrepareMove(from, s, r, n, MakeDir, Ok);
    t := EffectPrepare(s, n, MakeDir, Ok);
    if n.src.Some? { PrepareMove(from, t, r, n.At(Preparing(EmptyParams)), EmptyParams, Ok); }
  }

  lemma PersistsFirst(from: State, s: State, r: nat, n: Run) returns (t: State)
    requires Leads(from, Put(s, r, n)) && n.pc == Preparing(EnsureDirs) && KeyOf(n.job) in s.pending
    ensures SameBut(s, t, KeyOf(n.job)) && Leads(from, Put(t, r, n.At(Building(WriteParams))))
    ensures t.pending[KeyOf(n.job)] == s.pending[KeyOf(n.job)].(info := CurrentInfo(n))
  {
    PrepareMove(from, s, r, n, EnsureDirs, Ok);
    PrepareMove(from, s, r, n.At(Preparing(InitPersist)), InitPersist, Ok);
    t := EffectPrepare(s, n.At(Preparing(InitPersist)), InitPersist, Ok);
  }

  /** The run n when it is about to write its parameters. */
  function Prepared(s: State, n: Run): Run { n.(pc := Building(WriteParams), src := SourceOf(s, n.job)) }

  lemma Prepares(from: State, s: State, r: nat, n: Run) returns (t: State)
    requires Leads(from, Put(s, r, n)) && n == NewRun(n.job).At(Preparing(Resolve)) && KeyOf(n.job) !in s.pending
    ensures SameBut(s, t, KeyOf(n.job)) && Leads(from, Put(t, r, Prepared(s, n)))
    ensures t.pending[KeyOf(n.job)].info == CurrentInfo(Prepared(s, n))
    ensures n.job.group == "" ==> !t.pending[KeyOf(n.job)].log
  {
    Resolves(from, s, r, n);
    var m := n.(pc := Preparing(MakeDir), src := SourceOf(s, n.job));
    t := MakesDir(from, s, r, m);
    t := PersistsFirst(from, t, r, m.At(Preparing(EnsureDirs)));
  }

  lemma CreatesLog(from: State, s: State, r: nat, n: Run) returns (t: State)
    requires Leads(from, Put(s, r, n)) && n.pc == Building(WriteParams) && KeyOf(n.job) in s.pending
    ensures SameBut(s, t, KeyOf(n.job)) && t.pending[KeyOf(n.job)] == s.pending[KeyOf(n.job)].(log := true)
    ensures Leads(from, Put(t, r, n.At(Building(NewClient))))
  {
    BuildMove(from, s, r, n, WriteParams, Ok);
    BuildMove(from, s, r, n.At(Building(CreateLog)), CreateLog, Ok);
    t := EffectBuild(s, n.At(Building(CreateLog)), CreateLog, Ok);
  }

  lemma BuildsImage(from: State, s: State, r: nat, n: Run) returns (t: State)
    requires Leads(from, Put(s, r, n)) && n.pc == Building(WriteParams) && KeyOf(n.job) in s.pending
    ensures SameBut(s, t, KeyOf(n.job)) && t.pending[KeyOf(n.job)] == s.pending[KeyOf(n.job)].(log := true)
    ensures Leads(from, Put(t, r, n.At(Building(RunContainer))))
  {
    t := CreatesLog(from, s, r, n);
    BuildMove(from, t, r, n.At(Building(NewClient)), NewClient, Ok);
    BuildMove(from, t, r, n.At(Building(BuildImage)), BuildImage, Ok);
  }

  lemma Closes(from: State, s: State, r: nat, n: Run)
    requires Leads(from, Put(s, r, n)) && n.pc == Building(CloseClient)
    ensures Leads(from, Put(s, r, n.At(Building(Persist))))
  {
    BuildMove(from, s, r, n, CloseClient, Ok);
    BuildMove(from, s, r, n.At(Building(CloseLog)), CloseLog, Ok);
  }

  /** Docker fails to start the container, which reports exit code 0 together with an error. */
  lemma FailsToStart(from: State, s: State, r: nat, n: Run)
    requires Leads(from, Put(s, r, n)) && n.pc == Building(RunContainer)
    ensures Leads(from, Put(s, r, n.(pc := Building(Persist), err := true, exit := 0)))
  {
    BuildMove(from, s, r, n, RunContainer, Exited(0, true));
    Closes(from, s, r, n.(pc := Building(CloseClient), err := true, exit := 0));
  }

  /** The container exits with the given code and nothing fails. */
  lemma RunsContainer(from: State, s: State, r: nat, n: Run, code: int)
    requires Leads(from, Put(s, r, n)) && n.pc == Building(RunContainer) && !n.err
    ensures Leads(from, Put(s, r, n.(pc := Building(Persist), exit := code)))
  {
    BuildMove(from, s, r, n, RunContainer, Exited(code, false));
    var m := n.(exit := code);
    BuildMove(from, s, r, m.At(Building(Sync)), Sync, Ok);
    BuildMove(from, s, r, m.At(Building(ReadLogs)), ReadLogs, Ok);
    Closes(from, s, r, m.At(Building(CloseClient)));
  }

  /** The last persist writes the build info; when it is late, it reports an error all the same. */
  lemma Persists(from: State, s: State, r: nat, n: Run, late: bool) returns (t: State)
    requires Leads(from, Put(s, r, n)) && n.pc == Building(Persist) && KeyOf(n.job) in s.pending
    ensures SameBut(s, t, KeyOf(n.job)) && t.pending[KeyOf(n.job)] == s.pending[KeyOf(n.job)].(info := CurrentInfo(n))
    ensures Leads(from, Put(t, r, n.(pc := Building(Rename), err := n.err || late, errBuild := n.err)))
  {
    BuildMove(from, s, r, n, Persist, if late then LateFail else Ok);
    t := EffectBuild(s, n, Persist, if late then LateFail else Ok);
  }

  /** t is s with a build published at k and what was pending there gone. */
  predicate SamePublishing(s: State, t: State, k: Key, e: Entry) {
    && t.runs == s.runs && t.jq == s.jq && t.holder == s.holder && t.log == s.log
    && t.links == s.links && t.ready == s.ready[k := e]
  }

  lemma Renames(from: State, s: State, r: nat, n: Run) returns (t: State)
    requires Leads(from, Put(s, r, n)) && n.pc == Building(Rename)
    requires KeyOf(n.job) in s.pending && KeyOf(n.job) !in s.ready
    ensures var k := KeyOf(n.job); var b := s.pending[k];
            SamePublishing(s, t, k, Entry(b.info, b.log, n.job.group, b.base, s.clock))
    ensures Leads(from, Put(t, r, n.At(if !n.err && n.exit == SUCCESS_EXIT_CODE then Linking(LinkLock) else Leave)))
  {
    BuildMove(from, s, r, n, Rename, Ok);
    t := EffectBuild(s, n, Rename, Ok);
  }

  /** The swap of the link, whether there is one already or not. */
  lemma SwapsLink(from: State, s: State, r: nat, n: Run) returns (t: State)
    requires Leads(from, Put(s, r, n)) && n.pc == Linking(LinkLock) && !n.err && n.job.project !in s.holder
    ensures t == s.(links := s.links[LinkOf(n.job) := KeyOf(n.job)]) && Leads(from, Put(t, r, n.At(Leave)))
  {
    var p := n.job.project;
    LinkMove(from, s, r, n, LinkLock, Ok);
    var u := s.(holder := s.holder[p := r]);
    var v := RemovesLink(from, u, r, n.At(Linking(LinkStat)));
    var w := CreatesLink(from, v, r, n.At(Linking(LinkCreate)));
    t := Unlocks(from, w, r, n.At(Linking(LinkUnlock)));
    TakenAndReturned(s.holder, p, r);
    Replaced(s.links, LinkOf(n.job), KeyOf(n.job));
  }

  lemma Unlocks(from: State, s: State, r: nat, n: Run) returns (t: State)
    requires Leads(from, Put(s, r, n)) && n.pc == Linking(LinkUnlock)
    ensures t == s.(holder := s.holder - {n.job.project}) && Leads(from, Put(t, r, n.At(Leave)))
  {
    LinkMove(from, s, r, n, LinkUnlock, Ok);
    t := s.(holder := s.holder - {n.job.project});
  }

  lemma CreatesLink(from: State, s: State, r: nat, n: Run) returns (t: State)
    requires Leads(from, Put(s, r, n)) && n.pc == Linking(LinkCreate) && LinkOf(n.job) !in s.links
    ensures t == s.(links := s.links[LinkOf(n.job) := KeyOf(n.job)])
    ensures Leads(from, Put(t, r, n.At(Linking(LinkUnlock))))
  {
    LinkMove(from, s, r, n, LinkCreate, Ok);
    t := s.(links := s.links[LinkOf(n.job) := KeyOf(n.job)]);
  }

  lemma RemovesLink(from: State, s: State, r: nat, n: Run) returns (t: State)
    requires Leads(from, Put(s, r, n)) && n.pc == Linking(LinkStat)
    ensures t == s.(links := s.links - {LinkOf(n.job)}) && Leads(from, Put(t, r, n.At(Linking(LinkCreate))))
  {
    var l := LinkOf(n.job);
    t := s.(links := s.links - {l});
    if l in s.links {
      LinkMove(from, s, r, n, LinkStat, Ok);
      LinkMove(from, s, r, n.At(Linking(LinkRemove)), LinkRemove, Ok);
    } else {
      LinkMove(from, s, r, n, LinkStat, NotExist);
      assert s.links - {l} == s.links;
    }
  }

  /** A run that has found nothing in its ready path gets to its parameters. */
  lemma GetsToParams(from: State, s: State, r: nat, n: Run) returns (t: State)
    requires Leads(from, Put(s, r, n)) && n == NewRun(n.job).At(Bootstrapping(StatProject))
    requires n.job.project !in s.holder && KeyOf(n.job) !in s.pending
    ensures SameBut(s, t, KeyOf(n.job)) && t.pending[KeyOf(n.job)].info == CurrentInfo(Prepared(s, n))
    ensures n.job.group == "" ==> !t.pending[KeyOf(n.job)].log
    ensures Leads(from, Put(t, r, Prepared(s, n)))
  {
    t := Bootstraps(from, s, r, n);
    t := Prepares(from, t, r, n.At(Preparing(Resolve)));
  }

  /** Such a run gets to the container. */
  lemma GetsToContainer(from: State, s: State, r: nat, n: Run) returns (t: State)
    requires Leads(from, Put(s, r, n)) && n == NewRun(n.job).At(Bootstrapping(StatProject))
    requires n.job.project !in s.holder && KeyOf(n.job) !in s.pending
    ensures SameBut(s, t, KeyOf(n.job)) && t.pending[KeyOf(n.job)].log
    ensures Leads(from, Put(t, r, Prepared(s, n).At(Building(RunContainer))))
  {
    t := GetsToParams(from, s, r, n);
    t := BuildsImage(from, t, r, Prepared(s, n));
  }

  /** The run n at its rename: its container exited with the given code, and the last persist was in time or late. */
  function Persisted(s: State, n: Run, code: int, late: bool): Run {
    Prepared(s, n).(pc := Building(Rename), exit := code, err := late)
  }

  /** Such a run gets to the rename with the given exit code. */
  lemma GetsToRename(from: State, s: State, r: nat, n: Run, code: int, late: bool) returns (t: State)
    requires Leads(from, Put(s, r, n)) && n == NewRun(n.job).At(Bootstrapping(StatProject))
    requires n.job.project !in s.holder && KeyOf(n.job) !in s.pending
    ensures SameBut(s, t, KeyOf(n.job)) && t.pending[KeyOf(n.job)].log
    ensures t.pending[KeyOf(n.job)].info == Info(code, false, n.job.group, SourceOf(s, n.job).Some?)
    ensures Leads(from, Put(t, r, Persisted(s, n, code, late)))
  {
    t := GetsToContainer(from, s, r, n);
    var m := Prepared(s, n);
    RunsContainer(from, t, r, m.At(Building(RunContainer)), code);
    t := Persists(from, t, r, m.(pc := Building(Persist), exit := code), late);
  }

  /** Such a run builds, publishes with the given exit code and answers. */
  lemma BuildsAndAnswers(from: State, s: State, r: nat, n: Run, code: int) returns (t: State)
    requires Leads(from, Put(s, r, n)) && n == NewRun(n.job).At(Bootstrapping(StatProject))
    requires n.job.project !in s.holder && KeyOf(n.job) !in s.pending && KeyOf(n.job) !in s.ready
    ensures var k := KeyOf(n.job);
            && k in t.ready && t.ready[k].log && t.ready == s.ready[k := t.ready[k]]
            && t.ready[k].info == Info(code, false, n.job.group, SourceOf(s, n.job).Some?)
            && t.jq == s.jq - {n.job.id} && t.holder == s.holder && t.runs == s.runs
            && t.log == s.log + [Reply(k, code)]
    ensures Leads(from, Put(t, r, Persisted(s, n, code, false).(pc := Done, answer := Replied(Built, code))))
  {
    var m := Persisted(s, n, code, false);
    t := GetsToRename(from, s, r, n, code, false);
    t := Renames(from, t, r, m);
    if code == SUCCESS_EXIT_CODE { t := SwapsLink(from, t, r, m.At(Linking(LinkLock))); }
    LeaveMove(from, t, r, m.At(Leave));
    t := EffectLeave(t, m.At(Leave));
  }

  /** Or docker fails to start the container, and the failure is published with exit code 0. */
  lemma FailsWithZero(from: State, s: State, r: nat, n: Run) returns (t: State)
    requires Leads(from, Put(s, r, n)) && n == NewRun(n.job).At(Bootstrapping(StatProject))
    requires n.job.project !in s.holder && KeyOf(n.job) !in s.pending && KeyOf(n.job) !in s.ready
    ensures var k := KeyOf(n.job);
            && k in t.ready && t.ready[k].log && t.ready == s.ready[k := t.ready[k]]
            && t.ready[k].info == Info(0, true, n.job.group, SourceOf(s, n.job).Some?)
            && t.jq == s.jq - {n.job.id} && t.holder == s.holder && t.runs == s.runs && t.log == s.log
    ensures var m := Prepared(s, n).(err := true, exit := 0, errBuild := true);
            Leads(from, Put(t, r, m.Answering(Done, Failed)))
  {
    t := GetsToContainer(from, s, r, n);
    var m := Prepared(s, n).(err := true, exit := 0);
    FailsToStart(from, t, r, Prepared(s, n).At(Building(RunContainer)));
    t := Persists(from, t, r, m.At(Building(Persist)), false);
    m := m.(errBuild := true);
    t := Renames(from, t, r, m.At(Building(Rename)));
    LeaveMove(from, t, r, m.At(Leave));
    t := EffectLeave(t, m.At(Leave));
  }
}
