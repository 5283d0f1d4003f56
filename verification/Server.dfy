/** `Server.Work` as the program it is: the calls in the order of its text, its early returns and its deferred calls.
    Before every call the other runs take any steps they like, and every call reports any outcome the shared state
    allows, so that each call is one step of the protocol and `Work` only ever leads to reachable states. */
module Server {
  import opened Protocol
  import opened Invariant
  import opened Preservation
  import opened Progress
  import MemoTable
  import Returns

  /** The part of BuildInfo that `Work` decides on. */
  datatype BuildInfo = BuildInfo(exit: int, cached: bool, coalesced: bool)

  class Server {
    /** The build directory, the queues and the runs in progress. */
    var st: State

    ghost predicate Valid()
      reads this
    {
      Reachable(st)
    }

    /** Run r is in progress, at n. */
    ghost predicate Running(r: nat, n: Run)
      reads this
    {
      Valid() && r in st.runs && st.runs[r] == n
    }

    constructor ()
      ensures Valid() && st == EMPTY
    {
      st := EMPTY;
      new;
      assert Behaviour([EMPTY], []) && [EMPTY][0] == EMPTY;
    }

    /** Any steps of other runs, which in the end leave the project mutex to r if r waits for it. */
    method Interfere(r: nat) returns (ghost others: seq<Step>)
      requires Valid() && r in st.runs && !st.runs[r].pc.Done?
      modifies this
      ensures Running(r, old(st.runs[r])) && !Blocked(st, st.runs[r])
      ensures LegalAll(old(st), others) && OthersOnly(others, r) && st == Exec(old(st), others)
    {
      ghost var before := st;
      var steps: seq<Step> := *;
      if !LegalAll(st, steps) || !OthersOnly(steps, r) { steps := []; }
      Advance(r, steps);
      var release := WayOut(r);
      ExecAppend(before, steps, release);
      ghost var mid := st;
      Advance(r, release);
      others := steps + release;
      assert st == Exec(mid, release) == Exec(before, others);
    }

    method Advance(r: nat, steps: seq<Step>)
      requires Valid() && r in st.runs && LegalAll(st, steps) && OthersOnly(steps, r)
      modifies this
      ensures Running(r, old(st.runs[r])) && st == Exec(old(st), steps)
    {
      OthersLeaveRun(st, steps, r);
      ReachableExec(st, steps);
      st := Exec(st, steps);
    }

    /** The steps of the holder, if r is blocked. */
    method WayOut(r: nat) returns (steps: seq<Step>)
      requires Valid() && r in st.runs
      ensures LegalAll(st, steps) && OthersOnly(steps, r) && !Blocked(Exec(st, steps), st.runs[r])
    {
      HoldersReachable(st);
      var p := st.runs[r].job.project;
      assert HolderOk(st, p);
      if Blocked(st, st.runs[r]) {
        steps := Release(st.runs[st.holder[p]], st.holder[p]);
        ReleaseWorks(st, st.holder[p]);
      } else {
        steps := [];
      }
    }

    /** The call at r's program counter, with any outcome it may have. */
    method Call(r: nat) returns (o: Outcome, ghost others: seq<Step>)
      requires Valid() && r in st.runs && !st.runs[r].pc.Done?
      modifies this
      ensures LegalAll(old(st), others + [By(r, o)]) && OthersOnly(others, r)
      ensures st == Exec(old(st), others + [By(r, o)])
      ensures LegalAll(old(st), others) && Enabled(Exec(old(st), others), old(st.runs[r]), o)
      ensures Running(r, Local(old(st.runs[r]), o))
    {
      ghost var before := st;
      others := Interfere(r);
      o := *;
      if !Enabled(st, st.runs[r], o) {
        o := SomeOutcome(st, st.runs[r]);
      }
      ReachableStep(st, By(r, o));
      ExecOne(st, By(r, o));
      ExecAppend(before, others, [By(r, o)]);
      st := Apply(st, By(r, o));
    }

    // The same, by the parts of `Work`

    method EnterCall(r: nat, ghost n: Run, ghost e: EnterPc) returns (o: Outcome)
      requires Running(r, n) && n.pc == Entering(e)
      modifies this
      ensures Running(r, LocalEnter(n, e, o))
      ensures e.PollRead? && o.Read? ==> o.info.Info?
    {
      ghost var others;
      o, others := Call(r);
    }

    method LeaveCall(r: nat, ghost n: Run)
      requires Running(r, n) && n.pc.Leave?
      modifies this
      ensures Running(r, LocalLeave(n))
    {
      var _, _ := Call(r);
    }

    method CheckCall(r: nat, ghost n: Run, ghost c: CheckPc) returns (o: Outcome)
      requires Running(r, n) && n.pc == Checking(c)
      modifies this
      ensures Running(r, LocalCheck(n, c, o))
      ensures c.ReadReady? && o.Read? ==> o.info.Info?
    {
      ghost var others;
      o, others := Call(r);
    }

    method BootCall(r: nat, ghost n: Run, ghost b: BootPc) returns (o: Outcome)
      requires Running(r, n) && n.pc == Bootstrapping(b)
      modifies this
      ensures Running(r, LocalBoot(n, b, o))
    {
      ghost var others;
      o, others := Call(r);
    }

    method PrepareCall(r: nat, ghost n: Run, ghost p: PreparePc) returns (o: Outcome)
      requires Running(r, n) && n.pc == Preparing(p)
      modifies this
      ensures Running(r, LocalPrepare(n, p, o))
      ensures p.Resolve? && n.job.group == "" ==> !o.Found?
    {
      ghost var others;
      o, others := Call(r);
    }

    method BuildCall(r: nat, ghost n: Run, ghost w: BuildPc) returns (o: Outcome)
      requires Running(r, n) && n.pc == Building(w)
      modifies this
      ensures Running(r, LocalBuild(n, w, o))
      ensures w.RunContainer? ==> o.Exited?
    {
      ghost var others;
      o, others := Call(r);
    }

    method LinkCall(r: nat, ghost n: Run, ghost l: LinkPc) returns (o: Outcome)
      requires Running(r, n) && n.pc == Linking(l)
      modifies this
      ensures Running(r, LocalLink(n, l, o))
    {
      ghost var others;
      o, others := Call(r);
    }

    /** A call whose outcome o is decided by the run itself. */
    method Decide(r: nat, o: Outcome)
      requires Valid() && r in st.runs
      requires (st.runs[r].pc == Entering(Poll) && o == Cancel)
            || (st.runs[r].pc == Building(WriteParams) && o in {Ok, More, Fail})
      modifies this
      ensures Running(r, Local(old(st.runs[r]), o))
    {
      var _ := Interfere(r);
      ReachableStep(st, By(r, o));
      st := Apply(st, By(r, o));
    }

    /** Run r of job j; its context is cancelled after at most `ticks` polls for the ready path. `params` are the
        names of its param files, in any order. */
    method Work(r: nat, j: Job, params: seq<string>, ticks: nat) returns (info: BuildInfo, err: bool)
      requires Valid() && r !in st.runs
      modifies this
      ensures Valid() && r in st.runs && st.runs[r].pc.Done? && st.runs[r].job == j
      ensures st.runs[r].answer == Answered(info, err)
      ensures Returns.Accounts(st, r, j, Answered(info, err))
      ensures !err && info.exit == SUCCESS_EXIT_CODE ==> KeyOf(j) in st.ready && Succeeded(st.ready[KeyOf(j)])
    {
      ReachableStep(st, Begin(r, j));
      st := Apply(st, Begin(r, j));

      var added := EnterCall(r, NewRun(j), Start);
      if added.Ok? {
        info, err := WorkAsOwner(r, j, NewRun(j).At(Checking(StatReady)), params);
      } else {
        info, err := Coalesce(r, NewRun(j).At(Entering(Poll)), ticks);
      }
      Returns.AccountsForAnswer(st, r);
      if !err && info.exit == SUCCESS_EXIT_CODE { MemoTable.ZeroAnswersLast(st, r); }
    }

    /** The part of `Work` that the deferred `jq.Delete` ends. */
    method WorkAsOwner(r: nat, j: Job, ghost n: Run, params: seq<string>) returns (info: BuildInfo, err: bool)
      requires Running(r, n) && n == NewRun(j).At(Checking(StatReady))
      modifies this
      ensures Valid() && r in st.runs && st.runs[r].pc.Done? && st.runs[r].job == j
      ensures st.runs[r].answer == Answered(info, err)
    {
      var done: bool;
      done, info, err := CheckCache(r, n);
      if !done { info, err := Make(r, j, n.At(Bootstrapping(StatProject)), params); }
      LeaveCall(r, st.runs[r]);
    }

    /** Waiting for the run that owns the ID to publish. */
    method Coalesce(r: nat, ghost n: Run, ticks: nat) returns (info: BuildInfo, err: bool)
      requires Running(r, n) && n.pc == Entering(Poll)
      modifies this
      ensures Valid() && r in st.runs && st.runs[r].pc.Done? && st.runs[r].job == n.job
      ensures st.runs[r].answer == Answered(info, err)
    {
      info := BuildInfo(PENDING_EXIT_CODE, false, false);
      for t := 0 to ticks
        invariant Running(r, n)
      {
        var stat := EnterCall(r, n, Poll);
        if stat.Cancel? { return info, true; }
        if stat.Ok? {
          var read := EnterCall(r, n.At(Entering(PollRead)), PollRead);
          if !read.Read? { return info, true; }
          return BuildInfo(read.info.exit, false, true), false;
        }
        if !stat.NotExist? { return info, true; }
      }
      Decide(r, Cancel);
      err := true;
    }

    /** The build result cache. When it returns not done, the ready path is absent. */
    method CheckCache(r: nat, ghost n: Run) returns (done: bool, info: BuildInfo, err: bool)
      requires Running(r, n) && n.pc == Checking(StatReady) && !n.err && n.answer.NoAnswer?
      modifies this
      ensures Valid() && r in st.runs && st.runs[r].job == n.job
      ensures !done ==> st.runs[r] == n.At(Bootstrapping(StatProject)) && KeyOf(n.job) !in st.ready
      ensures done ==> Leaving(st.runs[r], info, err)
    {
      info := BuildInfo(PENDING_EXIT_CODE, false, false);
      var stat := CheckCall(r, n, StatReady);
      if stat.Ok? {
        var read := CheckCall(r, n.At(Checking(ReadReady)), ReadReady);
        if !read.Read? { return true, info, true; }
        info := BuildInfo(read.info.exit, false, false);
        if read.info.exit != SUCCESS_EXIT_CODE {
          err := RemoveReady(r, n.At(Checking(Remove)));
          if err { return true, info, true; }
        } else {
          return true, info.(cached := true), false;
        }
      } else if !stat.NotExist? {
        return true, info, true;
      }
      InvReachable(st);
      assert RunOk(st, r, st.runs[r]);
      return false, info, false;
    }

    /** The removal of a failed build, which may stop half-way. */
    method RemoveReady(r: nat, ghost n: Run) returns (err: bool)
      requires Running(r, n) && n.pc == Checking(Remove)
      modifies this
      ensures Running(r, if err then n.Fault(Leave) else n.At(Bootstrapping(StatProject)))
    {
      var removed := CheckCall(r, n, Remove);
      if removed.More? { removed := CheckCall(r, n.At(Checking(RemoveInfo)), RemoveInfo); }
      if !removed.Ok? { return true; }
      var emptied := CheckCall(r, n.At(Checking(Removing)), Removing);
      return !emptied.Ok?;
    }

    /** Bootstrapping, building and publishing. */
    method Make(r: nat, j: Job, ghost n: Run, params: seq<string>) returns (info: BuildInfo, err: bool)
      requires Running(r, n) && n == NewRun(j).At(Bootstrapping(StatProject))
      modifies this
      ensures Valid() && r in st.runs && st.runs[r].job == n.job && Leaving(st.runs[r], info, err)
    {
      info := BuildInfo(PENDING_EXIT_CODE, false, false);
      var stat := BootCall(r, n, StatProject);
      if !stat.Ok? { return info, true; }

      err := BootstrapProject(r, j, n.At(Bootstrapping(BootLock)));
      if err { return; }

      err := BootstrapBuildDir(r, n.At(Preparing(Resolve)));
      if err { return; }

      ghost var m := st.runs[r];
      var persisted := PrepareCall(r, m, InitPersist);
      if !persisted.Ok? { return info, true; }

      info, err := BuildAndPublish(r, m.At(Building(WriteParams)), params);
    }

    method BootstrapProject(r: nat, j: Job, ghost n: Run) returns (err: bool)
      requires Running(r, n) && n == NewRun(j).At(Bootstrapping(BootLock))
      modifies this
      ensures Valid() && r in st.runs
      ensures err ==> st.runs[r] == n.Fault(Leave)
      ensures !err ==> st.runs[r] == n.At(Preparing(Resolve)) && Bootstrapped(st, j)
    {
      var _ := BootCall(r, n, BootLock);
      err := EnsureProjectDirs(r, j, n.At(Bootstrapping(BootStat(RootDir))));
      var _ := BootCall(r, st.runs[r], BootUnlock);
      if !err {
        InvReachable(st);
        assert RunOk(st, r, st.runs[r]);
      }
    }

    method EnsureProjectDirs(r: nat, j: Job, ghost n: Run) returns (err: bool)
      requires Running(r, n) && n.job == j && n.pc == Bootstrapping(BootStat(RootDir))
      modifies this
      ensures Running(r, if err then n.Fault(Bootstrapping(BootUnlock)) else n.At(Bootstrapping(BootUnlock)))
    {
      err := EnsureDirExists(r, n, RootDir);
      if err { return; }
      err := EnsureDirExists(r, n.At(Bootstrapping(BootStat(PendingDir))), PendingDir);
      if err { return; }
      err := EnsureDirExists(r, n.At(Bootstrapping(BootStat(ReadyDir))), ReadyDir);
      if err { return; }
      if j.group != "" {
        err := EnsureDirExists(r, n.At(Bootstrapping(BootStat(GroupsDir))), GroupsDir);
      }
    }

    method EnsureDirExists(r: nat, ghost n: Run, d: Dir) returns (err: bool)
      requires Running(r, n) && n.pc == Bootstrapping(BootStat(d))
      modifies this
      ensures Running(r, if err then n.Fault(Bootstrapping(BootUnlock)) else n.At(Bootstrapping(AfterDir(n.job, d))))
    {
      var stat := BootCall(r, n, BootStat(d));
      if stat.NotExist? {
        var made := BootCall(r, n.At(Bootstrapping(BootMkdir(d))), BootMkdir(d));
        err := !made.Ok?;
      } else {
        err := !stat.Ok?;
      }
    }

    method BootstrapBuildDir(r: nat, ghost n: Run) returns (err: bool)
      requires Running(r, n) && n == NewRun(n.job).At(Preparing(Resolve))
      modifies this
      ensures Valid() && r in st.runs && st.runs[r].job == n.job
      ensures err ==> Leaving(st.runs[r], BuildInfo(PENDING_EXIT_CODE, false, false), true)
      ensures !err ==> st.runs[r] == n.At(Preparing(InitPersist)).(src := st.runs[r].src)
    {
      var cloneSrc := PrepareCall(r, n, Resolve);
      var made := PrepareCall(r, st.runs[r], MakeDir);
      if !made.Ok? { return true; }
      if cloneSrc.Found? {
        var emptied := PrepareCall(r, st.runs[r], EmptyParams);
        if !emptied.Ok? { return true; }
      }
      var ensured := PrepareCall(r, st.runs[r], EnsureDirs);
      return !ensured.Ok?;
    }

    /** From the first param file to the end of the deferred functions: the build, the last persist, the rename and
        the link. */
    method BuildAndPublish(r: nat, ghost n: Run, params: seq<string>) returns (info: BuildInfo, err: bool)
      requires Running(r, n) && n.pc == Building(WriteParams) && !n.err && n.exit == PENDING_EXIT_CODE
      requires n.answer.NoAnswer?
      modifies this
      ensures Valid() && r in st.runs && st.runs[r].job == n.job && Leaving(st.runs[r], info, err)
      ensures Returns.Tells(st, r, info.exit, err)
    {
      err := WriteParamFiles(r, n, params);
      var exit := PENDING_EXIT_CODE;
      if !err {
        var created := BuildCall(r, n.At(Building(CreateLog)), CreateLog);
        err := !created.Ok?;
        if !err { exit, err := RunWithLog(r, n.At(Building(NewClient))); }
      }
      err := Publish(r, n.(pc := Building(Persist), err := err, exit := exit), exit, err);
      info := BuildInfo(exit, false, false);
      Returns.TellsRun(st, r);
    }

    /** The deferred functions: the last persist, the rename, and the link if all went well. */
    method Publish(r: nat, ghost n: Run, exit: int, failed: bool) returns (err: bool)
      requires Running(r, n) && n.pc == Building(Persist) && n.err == failed && n.exit == exit && n.answer.NoAnswer?
      modifies this
      ensures Valid() && r in st.runs && st.runs[r].job == n.job
      ensures Leaving(st.runs[r], BuildInfo(exit, false, false), err)
      ensures st.runs[r].exit == exit
    {
      var persisted := BuildCall(r, n, Persist);
      err := failed || !persisted.Ok?;
      var renamed := BuildCall(r, n.(pc := Building(Rename), err := err, errBuild := failed), Rename);
      err := err || !renamed.Ok?;
      if !err && exit == SUCCESS_EXIT_CODE {
        err := SwapLink(r, n.(pc := Linking(LinkLock), err := false, errBuild := false));
      }
    }

    method WriteParamFiles(r: nat, ghost n: Run, params: seq<string>) returns (err: bool)
      requires Running(r, n) && n.pc == Building(WriteParams)
      modifies this
      ensures Running(r, if err then n.Err(Building(Persist)) else n.At(Building(CreateLog)))
    {
      for i := 0 to |params|
        invariant Running(r, n)
      {
        var failed: bool := *;
        if failed {
          Decide(r, Fail);
          return true;
        }
        Decide(r, More);
      }
      Decide(r, Ok);
      err := false;
    }

    /** The docker client, the image and the container, and the deferred closing of the client and of the log. */
    method RunWithLog(r: nat, ghost n: Run) returns (exit: int, err: bool)
      requires Running(r, n) && n.pc == Building(NewClient) && !n.err && n.exit == PENDING_EXIT_CODE
      modifies this
      ensures Running(r, n.(pc := Building(Persist), err := err, exit := exit))
    {
      exit := PENDING_EXIT_CODE;
      var client := BuildCall(r, n, NewClient);
      err := !client.Ok?;
      if !err {
        exit, err := RunWithClient(r, n.At(Building(BuildImage)));
        var closed := BuildCall(r, st.runs[r], CloseClient);
        if !closed.Ok? { err := true; }
      }
      var closed := BuildCall(r, st.runs[r], CloseLog);
      if !closed.Ok? { err := true; }
    }

    method RunWithClient(r: nat, ghost n: Run) returns (exit: int, err: bool)
      requires Running(r, n) && n.pc == Building(BuildImage) && !n.err && n.exit == PENDING_EXIT_CODE
      modifies this
      ensures Running(r, n.(pc := Building(CloseClient), err := err, exit := exit))
    {
      exit := PENDING_EXIT_CODE;
      var built := BuildCall(r, n, BuildImage);
      if !built.Ok? { return exit, true; }
      var exited := BuildCall(r, st.runs[r], RunContainer);
      exit, err := exited.code, exited.failed;
      if err { return; }
      var synced := BuildCall(r, st.runs[r], Sync);
      if !synced.Ok? { return exit, true; }
      var read := BuildCall(r, st.runs[r], ReadLogs);
      err := !read.Ok?;
    }

    /** Removing the link to an earlier build, if there is one. */
    method RemoveLink(r: nat, ghost n: Run) returns (err: bool)
      requires Running(r, n) && n.pc == Linking(LinkStat)
      modifies this
      ensures Running(r, if err then n.Err(Linking(LinkUnlock)) else n.At(Linking(LinkCreate)))
    {
      var stat := LinkCall(r, n, LinkStat);
      if stat.Ok? {
        var removed := LinkCall(r, n.At(Linking(LinkRemove)), LinkRemove);
        err := !removed.Ok?;
      } else {
        err := !stat.NotExist?;
      }
    }

    /** Pointing the latest or group link to the build just published. */
    method SwapLink(r: nat, ghost n: Run) returns (err: bool)
      requires Running(r, n) && n.pc == Linking(LinkLock) && !n.err
      modifies this
      ensures Running(r, if err then n.Err(Leave) else n.At(Leave))
      ensures Returns.SetsLink(st, r, !err)
    {
      LinksAfterSuccess(st, r);
      var _ := LinkCall(r, n, LinkLock);
      err := RemoveLink(r, n.At(Linking(LinkStat)));
      if !err {
        var linked := LinkCall(r, n.At(Linking(LinkCreate)), LinkCreate);
        err := !linked.Ok?;
      }
      var _ := LinkCall(r, st.runs[r], LinkUnlock);
      Returns.SetsLinkWhenLeaving(st, r);
    }
  }

  lemma LinksAfterSuccess(s: State, r: nat)
    requires Reachable(s) && r in s.runs && s.runs[r].pc.Linking?
    ensures s.runs[r].exit == SUCCESS_EXIT_CODE && s.runs[r].answer.NoAnswer?
  {
    InvReachable(s);
    assert RunOk(s, r, s.runs[r]);
  }

  /** What a run that returns (info, err) has answered. */
  function Answered(info: BuildInfo, err: bool): Answer {
    if err then Failed
    else Replied(if info.coalesced then Coalesced else if info.cached then Cached else Built, info.exit)
  }

  /** The run is about to leave the job queue and to return (info, err). */
  predicate Leaving(n: Run, info: BuildInfo, err: bool) {
    && n.pc.Leave?
    && (err ==> n.err && n.answer.NoAnswer?)
    && (!err ==> !n.err && !info.coalesced && info.exit == (if n.answer.Replied? then n.answer.code else n.exit)
                 && n.answer == (if info.cached then Replied(Cached, info.exit) else NoAnswer))
  }
}
