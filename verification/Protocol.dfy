/** The build protocol of `Server.Work`: every worker run, the job queue, the project mutexes and the shared
    build directory, as one transition system.

    A run is a program counter plus the few local variables that `Work` carries.  One step of a run is one
    filesystem, docker, queue or lock call; `Outcome` is what that call reports.  The three parts of a step are
    `Enabled` (which outcomes the shared state allows), `Local` (what `Work` does next) and `Effect` (what the
    call does to the shared state).  Calls may fail at any time, and steps of different runs interleave freely.

    Projects, groups and job IDs are taken to be plain file names, so a path below the build directory is the
    tuple of its components.
 */
module Protocol {
  import opened Options

  datatype Job = Job(id: string, project: string, group: string)

  /** The path `<project>/pending/<id>` or `<project>/ready/<id>`, depending on the map it indexes. */
  datatype Key = Key(project: string, id: string)

  /** `<project>/latest` when group is empty, `<project>/groups/<group>` otherwise. */
  datatype Link = Link(project: string, group: string)

  function KeyOf(j: Job): Key { Key(j.project, j.id) }

  function LinkOf(j: Job): Link { Link(j.project, j.group) }

  const PENDING_EXIT_CODE := -999
  const SUCCESS_EXIT_CODE := 0

  /** The persisted `build_info.json`: `err` says that ErrBuild is not empty. A file that is missing or cut short
      is Unreadable. */
  datatype Info = Unreadable | Info(exit: int, err: bool, group: string, incremental: bool)

  /** What a build directory was started from. Cloning onto a directory that already exists puts the copy
      inside it, which is Nested; Damaged is a directory whose creation or cloning failed half-way. */
  datatype Base = Fresh | Copy(src: Key) | Nested(src: Key) | Damaged

  /** A pending build. `log` says that its build log can be read. */
  datatype Build = Build(info: Info, log: bool, base: Base)

  /** A published build. `group` is the group of the job that published it, `order` its rank in publication order. */
  datatype Entry = Entry(info: Info, log: bool, group: string, base: Base, order: nat)

  /** The directories BootstrapProject ensures, in its order. */
  datatype Dir = RootDir | PendingDir | ReadyDir | GroupsDir

  /** The calls of `Work` in the order of its text, deferred calls last, grouped into the parts of `Work`. */
  datatype EnterPc = Start | Poll | PollRead
  datatype CheckPc = StatReady | ReadReady | Remove | RemoveInfo | Removing
  datatype BootPc = StatProject | BootLock | BootStat(d: Dir) | BootMkdir(d: Dir) | BootUnlock
  datatype PreparePc = Resolve | MakeDir | EmptyParams | EnsureDirs | InitPersist
  datatype BuildPc =
    | WriteParams | CreateLog | NewClient | BuildImage | RunContainer | Sync | ReadLogs
    | CloseClient | CloseLog | Persist | Rename
  datatype LinkPc = LinkLock | LinkStat | LinkRemove | LinkCreate | LinkUnlock

  datatype Pc =
    | Entering(e: EnterPc) | Checking(c: CheckPc) | Bootstrapping(b: BootPc) | Preparing(p: PreparePc)
    | Building(w: BuildPc) | Linking(l: LinkPc) | Leave | Done

  /** Between a successful `jq.Add` and the deferred `jq.Delete`. */
  predicate Owns(pc: Pc) { !pc.Entering? && !pc.Done? }

  /** From the point where the ready path is known to be absent up to the rename. */
  predicate Unpublished(pc: Pc) { pc.Bootstrapping? || pc.Preparing? || pc.Building? }

  /** Inside a critical section of the project mutex. */
  predicate HoldsLock(pc: Pc) {
    || (pc.Bootstrapping? && !pc.b.StatProject? && !pc.b.BootLock?)
    || (pc.Linking? && !pc.l.LinkLock?)
  }

  datatype How = Built | Cached | Coalesced

  datatype Answer = NoAnswer | Failed | Replied(how: How, code: int)

  /** One call of `Work`. `err`, `exit`, `src` and `errBuild` are err, BuildInfo.ExitCode, cloneSrc and whether
      BuildInfo.ErrBuild is set; `faulted` records that a call before publication, the removal of a failed build or the
      rename has failed. */
  datatype Run = Run(job: Job, pc: Pc, err: bool, exit: int, src: Option<Key>, errBuild: bool, faulted: bool,
                     answer: Answer)
  {
    function At(pc: Pc): Run { this.(pc := pc) }
    function Err(pc: Pc): Run { this.(pc := pc, err := true) }
    function Fault(pc: Pc): Run { this.(pc := pc, err := true, faulted := true) }
    function Answering(pc: Pc, a: Answer): Run { this.(pc := pc, answer := a) }
  }

  datatype Reply = Reply(key: Key, code: int)

  /** `jq` is the job queue, `holder` the holders of the project mutexes, `log` the error-free answers given so far
      and `clock` the number of publications so far. */
  datatype State = State(
    runs: map<nat, Run>, jq: set<string>, holder: map<string, nat>,
    pending: map<Key, Build>, ready: map<Key, Entry>, links: map<Link, Key>, dirs: set<(string, Dir)>,
    clock: nat, log: seq<Reply>)

  /** Torn is a failure that still had part of its effect, TornInto one that left a given build_info behind, with or
      without a build log, and LateFail one that had all of its effect. */
  datatype Outcome =
    | Ok | NotExist | Fail | Torn | TornInto(left: Info, log: bool) | LateFail | Busy | Cancel | More
    | Found(src: Key) | Read(info: Info) | Exited(code: int, failed: bool)

  datatype Step = Begin(r: nat, job: Job) | By(r: nat, o: Outcome) | Restart(gone: set<Key>, torn: map<Key, Build>)

  const EMPTY := State(map[], {}, map[], map[], map[], map[], {}, 0, [])

  function NewRun(j: Job): Run { Run(j, Entering(Start), false, PENDING_EXIT_CODE, None, false, false, NoAnswer) }

  /** Where BootstrapProject goes after directory d; `groups` is only needed by a job with a group. */
  function AfterDir(j: Job, d: Dir): BootPc {
    match d
    case RootDir => BootStat(PendingDir)
    case PendingDir => BootStat(ReadyDir)
    case ReadyDir => if j.group != "" then BootStat(GroupsDir) else BootUnlock
    case GroupsDir => BootUnlock
  }

  /** The build info a run persists with its current exit code and error; the last time, ErrBuild is that error. */
  function CurrentInfo(n: Run): Info { Info(n.exit, n.err, n.job.group, n.src.Some?) }

  /** The build info of the last persist. */
  function FinalInfo(n: Run): Info { Info(n.exit, n.errBuild, n.job.group, n.src.Some?) }

  predicate SamePublished(s: State, t: State) {
    t.ready == s.ready && t.links == s.links && t.clock == s.clock
  }

  // Registering in the job queue and coalescing

  predicate EnabledEnter(s: State, n: Run, e: EnterPc, o: Outcome) {
    var k := KeyOf(n.job);
    match e
    case Start => if n.job.id in s.jq then o.Busy? else o.Ok?
    case Poll => o.Cancel? || o.Fail? || (if k in s.ready then o.Ok? else o.NotExist?)
    case PollRead => o.Fail? || (o.Read? && o.info.Info? && k in s.ready && o.info == s.ready[k].info)
  }

  function LocalEnter(n: Run, e: EnterPc, o: Outcome): (m: Run)
    ensures m.job == n.job && m.exit == n.exit && (n.faulted ==> m.faulted) && (HoldsLock(m.pc) ==> m == n)
    ensures m.pc.Checking? ==> m == n || m.pc == Checking(StatReady)
  {
    match e
    case Start => if o.Ok? then n.At(Checking(StatReady)) else n.At(Entering(Poll))
    case Poll =>
      if o.NotExist? then n
      else if o.Ok? then n.At(Entering(PollRead))
      else n.Err(Done).(answer := Failed)
    case PollRead =>
      if o.Read? && o.info.Info? then n.Answering(Done, Replied(Coalesced, o.info.exit))
      else n.Err(Done).(answer := Failed)
  }

  function EffectEnter(s: State, n: Run, e: EnterPc, o: Outcome): (t: State)
    requires EnabledEnter(s, n, e, o)
    ensures SamePublished(s, t) && s.jq <= t.jq && t.holder == s.holder && t.pending == s.pending && t.dirs == s.dirs
  {
    match e
    case Start => if o.Ok? then s.(jq := s.jq + {n.job.id}) else s
    case Poll => s
    case PollRead => if o.Read? then s.(log := s.log + [Reply(KeyOf(n.job), o.info.exit)]) else s
  }

  // The result cache: reuse a successful build, remove a failed one. Reading it needs the build log as well. The
  // removal of a directory is not atomic: either the build log or the build info goes first, the rest follows.

  predicate EnabledCheck(s: State, n: Run, c: CheckPc, o: Outcome) {
    var k := KeyOf(n.job);
    match c
    case StatReady => o.Fail? || (if k in s.ready then o.Ok? else o.NotExist?)
    case ReadReady =>
      o.Fail? || (o.Read? && o.info.Info? && k in s.ready && s.ready[k].log && o.info == s.ready[k].info)
    case Remove => o.Ok? || o.Fail? || o.Torn? || o.More?
    case RemoveInfo => o.Ok? || o.Fail? || o.Torn?
    case Removing => o.Ok? || o.Fail? || o.Torn?
  }

  function LocalCheck(n: Run, c: CheckPc, o: Outcome): (m: Run)
    ensures m.job == n.job && m.exit == n.exit && (n.faulted ==> m.faulted) && !HoldsLock(m.pc)
  {
    match c
    case StatReady =>
      if o.Ok? then n.At(Checking(ReadReady))
      else if o.NotExist? then n.At(Bootstrapping(StatProject))
      else n.Fault(Leave)
    case ReadReady =>
      if o.Read? && o.info.Info? then
        if o.info.exit != SUCCESS_EXIT_CODE then n.At(Checking(Remove))
        else n.Answering(Leave, Replied(Cached, o.info.exit))
      else n.Err(Leave)
    case Remove =>
      if o.Ok? then n.At(Checking(Removing)) else if o.More? then n.At(Checking(RemoveInfo)) else n.Fault(Leave)
    case RemoveInfo => if o.Ok? then n.At(Checking(Removing)) else n.Fault(Leave)
    case Removing => if o.Ok? then n.At(Bootstrapping(StatProject)) else n.Fault(Leave)
  }

  function EffectCheck(s: State, n: Run, c: CheckPc, o: Outcome): (t: State)
    requires EnabledCheck(s, n, c, o)
    ensures t.jq == s.jq && t.holder == s.holder && t.dirs == s.dirs && t.pending == s.pending
  {
    var k := KeyOf(n.job);
    match c
    case StatReady => s
    case ReadReady =>
      if o.Read? && o.info.exit == SUCCESS_EXIT_CODE then s.(log := s.log + [Reply(k, o.info.exit)]) else s
    case Remove =>
      if o.Fail? || k !in s.ready then s
      else if o.More? then s.(ready := s.ready[k := s.ready[k].(log := false)])
      else s.(ready := s.ready[k := s.ready[k].(info := Unreadable)])
    case RemoveInfo =>
      if !o.Fail? && k in s.ready then s.(ready := s.ready[k := s.ready[k].(info := Unreadable)]) else s
    case Removing => if !o.Fail? then s.(ready := s.ready - {k}) else s
  }

  // BootstrapProject, under the project mutex

  predicate EnabledBoot(s: State, n: Run, b: BootPc, o: Outcome) {
    var p := n.job.project;
    match b
    case StatProject => o.Ok? || o.NotExist? || o.Fail?
    case BootLock => o.Ok? && p !in s.holder
    case BootStat(d) => o.Fail? || (if (p, d) in s.dirs then o.Ok? else o.NotExist?)
    case BootMkdir(d) => o.Fail? || (o.Ok? && (p, d) !in s.dirs)
    case BootUnlock => o.Ok?
  }

  function LocalBoot(n: Run, b: BootPc, o: Outcome): (m: Run)
    ensures m.job == n.job && m.exit == n.exit && (n.faulted ==> m.faulted)
    ensures m.pc.Checking? ==> m == n
  {
    match b
    case StatProject => if o.Ok? then n.At(Bootstrapping(BootLock)) else n.Fault(Leave)
    case BootLock => n.At(Bootstrapping(BootStat(RootDir)))
    case BootStat(d) =>
      if o.Ok? then n.At(Bootstrapping(AfterDir(n.job, d)))
      else if o.NotExist? then n.At(Bootstrapping(BootMkdir(d)))
      else n.Fault(Bootstrapping(BootUnlock))
    case BootMkdir(d) =>
      if o.Ok? then n.At(Bootstrapping(AfterDir(n.job, d))) else n.Fault(Bootstrapping(BootUnlock))
    case BootUnlock => n.At(if n.err then Leave else Preparing(Resolve))
  }

  function EffectBoot(s: State, r: nat, n: Run, b: BootPc, o: Outcome): (t: State)
    requires EnabledBoot(s, n, b, o)
    ensures SamePublished(s, t) && t.jq == s.jq && t.pending == s.pending
  {
    var p := n.job.project;
    match b
    case StatProject => s
    case BootLock => s.(holder := s.holder[p := r])
    case BootStat(d) => s
    case BootMkdir(d) => if o.Ok? then s.(dirs := s.dirs + {(p, d)}) else s
    case BootUnlock => s.(holder := s.holder - {p})
  }

  // BootstrapBuildDir and the first persistBuildInfo

  function SetInfo(s: State, k: Key, info: Info): State {
    s.(pending := s.pending[k := if k in s.pending then s.pending[k].(info := info) else Build(info, false, Damaged)])
  }

  /** What MakeDir leaves in the pending path: `fs.Create`, or `fs.Clone` of a build that exists. */
  function MadeDir(s: State, n: Run): Build
    requires n.src.Some? ==> n.src.value in s.ready
  {
    var k := KeyOf(n.job);
    if n.src.None? then Build(Unreadable, false, Fresh)
    else if k in s.pending then s.pending[k].(base := Nested(n.src.value))
    else Build(s.ready[n.src.value].info, s.ready[n.src.value].log, Copy(n.src.value))
  }

  predicate EnabledPrepare(s: State, n: Run, p: PreparePc, o: Outcome) {
    var k, l := KeyOf(n.job), LinkOf(n.job);
    match p
    case Resolve =>
      if n.job.group == "" then o.NotExist?
      else o.Fail? || (if l in s.links && s.links[l] in s.ready then o == Found(s.links[l]) else o.NotExist?)
    case MakeDir =>
      o.Fail? || o.TornInto? || (o.Ok? && (if n.src.Some? then n.src.value in s.ready else k !in s.pending))
    case EmptyParams => o.Ok? || o.Fail?
    case EnsureDirs => o.Ok? || o.Fail?
    case InitPersist => o.Ok? || o.Fail? || o.Torn? || o.LateFail?
  }

  function LocalPrepare(n: Run, p: PreparePc, o: Outcome): (m: Run)
    ensures m.job == n.job && m.exit == n.exit && (n.faulted ==> m.faulted) && !HoldsLock(m.pc)
    ensures m.pc.Checking? ==> m == n
  {
    match p
    case Resolve =>
      if o.Found? then n.At(Preparing(MakeDir)).(src := Some(o.src)) else n.At(Preparing(MakeDir))
    case MakeDir =>
      if o.Ok? then n.At(Preparing(if n.src.Some? then EmptyParams else EnsureDirs)) else n.Fault(Leave)
    case EmptyParams => if o.Ok? then n.At(Preparing(EnsureDirs)) else n.Fault(Leave)
    case EnsureDirs => if o.Ok? then n.At(Preparing(InitPersist)) else n.Fault(Leave)
    case InitPersist => if o.Ok? then n.At(Building(WriteParams)) else n.Fault(Leave)
  }

  function EffectPrepare(s: State, n: Run, p: PreparePc, o: Outcome): (t: State)
    requires EnabledPrepare(s, n, p, o)
    ensures SamePublished(s, t) && t.jq == s.jq && t.holder == s.holder && t.dirs == s.dirs
  {
    var k := KeyOf(n.job);
    match p
    case Resolve => s
    case MakeDir =>
      if o.Ok? then s.(pending := s.pending[k := MadeDir(s, n)])
      else if o.TornInto? then s.(pending := s.pending[k := Build(o.left, o.log, Damaged)])
      else s
    case EmptyParams => s
    case EnsureDirs => s
    case InitPersist =>
      if o.Ok? || o.LateFail? then SetInfo(s, k, CurrentInfo(n)) else if o.Torn? then SetInfo(s, k, Unreadable) else s
  }

  // The build itself, then the deferred calls up to the rename

  predicate EnabledBuild(s: State, n: Run, w: BuildPc, o: Outcome) {
    var k := KeyOf(n.job);
    match w
    case WriteParams => o.Ok? || o.Fail? || o.More?
    case RunContainer => o.Exited? && (o.failed ==> o.code == 0)
    case Persist => o.Ok? || o.Fail? || o.Torn? || o.LateFail?
    case Rename => o.Fail? || (o.Ok? && k in s.pending && k !in s.ready)
    case _ => o.Ok? || o.Fail?
  }

  function LocalBuild(n: Run, w: BuildPc, o: Outcome): (m: Run)
    ensures m.job == n.job && (n.faulted ==> m.faulted) && (HoldsLock(m.pc) ==> m == n)
    ensures m.exit != n.exit ==> w.RunContainer? && o.Exited? && m.exit == o.code
    ensures m.pc.Checking? ==> m == n
  {
    match w
    case WriteParams =>
      if o.More? then n else if o.Ok? then n.At(Building(CreateLog)) else n.Err(Building(Persist))
    case CreateLog => if o.Ok? then n.At(Building(NewClient)) else n.Err(Building(Persist))
    case NewClient => if o.Ok? then n.At(Building(BuildImage)) else n.Err(Building(CloseLog))
    case BuildImage => if o.Ok? then n.At(Building(RunContainer)) else n.Err(Building(CloseClient))
    case RunContainer =>
      if o.Exited? then
        (if o.failed then n.Err(Building(CloseClient)) else n.At(Building(Sync))).(exit := o.code)
      else n.Err(Building(CloseClient))
    case Sync => if o.Ok? then n.At(Building(ReadLogs)) else n.Err(Building(CloseClient))
    case ReadLogs => if o.Ok? then n.At(Building(CloseClient)) else n.Err(Building(CloseClient))
    case CloseClient => if o.Ok? then n.At(Building(CloseLog)) else n.Err(Building(CloseLog))
    case CloseLog => if o.Ok? then n.At(Building(Persist)) else n.Err(Building(Persist))
    case Persist => (if o.Ok? then n.At(Building(Rename)) else n.Err(Building(Rename))).(errBuild := n.err)
    case Rename =>
      if o.Ok? then n.At(if !n.err && n.exit == SUCCESS_EXIT_CODE then Linking(LinkLock) else Leave)
      else n.Fault(Leave)
  }

  function EffectBuild(s: State, n: Run, w: BuildPc, o: Outcome): (t: State)
    requires EnabledBuild(s, n, w, o)
    ensures t.jq == s.jq && t.holder == s.holder && t.dirs == s.dirs
  {
    var k := KeyOf(n.job);
    if w.CreateLog? && o.Ok? && k in s.pending then s.(pending := s.pending[k := s.pending[k].(log := true)])
    else if w.Persist? then
      if o.Ok? || o.LateFail? then SetInfo(s, k, CurrentInfo(n)) else if o.Torn? then SetInfo(s, k, Unreadable) else s
    else if w.Rename? && o.Ok? then
      var e := Entry(s.pending[k].info, s.pending[k].log, n.job.group, s.pending[k].base, s.clock);
      s.(pending := s.pending - {k}, ready := s.ready[k := e], clock := s.clock + 1)
    else s
  }

  // Swapping the link, under the project mutex

  predicate EnabledLink(s: State, n: Run, c: LinkPc, o: Outcome) {
    var p, l := n.job.project, LinkOf(n.job);
    match c
    case LinkLock => o.Ok? && p !in s.holder
    case LinkStat => o.Fail? || (if l in s.links then o.Ok? else o.NotExist?)
    case LinkRemove => o.Fail? || (o.Ok? && l in s.links)
    case LinkCreate => o.Fail? || (o.Ok? && l !in s.links)
    case LinkUnlock => o.Ok?
  }

  function LocalLink(n: Run, c: LinkPc, o: Outcome): (m: Run)
    ensures m.job == n.job && m.exit == n.exit && (n.faulted ==> m.faulted)
    ensures m.pc.Checking? ==> m == n
  {
    match c
    case LinkLock => n.At(Linking(LinkStat))
    case LinkStat =>
      if o.Ok? then n.At(Linking(LinkRemove))
      else if o.NotExist? then n.At(Linking(LinkCreate))
      else n.Err(Linking(LinkUnlock))
    case LinkRemove => if o.Ok? then n.At(Linking(LinkCreate)) else n.Err(Linking(LinkUnlock))
    case LinkCreate => if o.Ok? then n.At(Linking(LinkUnlock)) else n.Err(Linking(LinkUnlock))
    case LinkUnlock => n.At(Leave)
  }

  function EffectLink(s: State, r: nat, n: Run, c: LinkPc, o: Outcome): (t: State)
    requires EnabledLink(s, n, c, o)
    ensures t.jq == s.jq && t.pending == s.pending && t.dirs == s.dirs
  {
    var k, p, l := KeyOf(n.job), n.job.project, LinkOf(n.job);
    match c
    case LinkLock => s.(holder := s.holder[p := r])
    case LinkStat => s
    case LinkRemove => if o.Ok? then s.(links := s.links - {l}) else s
    case LinkCreate => if o.Ok? then s.(links := s.links[l := k]) else s
    case LinkUnlock => s.(holder := s.holder - {p})
  }

  // Leaving the job queue and returning

  function LocalLeave(n: Run): (m: Run)
    ensures m.job == n.job && m.exit == n.exit && (n.faulted ==> m.faulted) && !HoldsLock(m.pc)
    ensures m.pc.Checking? ==> m == n
  {
    n.Answering(Done, if n.answer.Replied? then n.answer else if n.err then Failed else Replied(Built, n.exit))
  }

  function EffectLeave(s: State, n: Run): (t: State)
    ensures SamePublished(s, t) && t.holder == s.holder && t.pending == s.pending && t.dirs == s.dirs
  {
    var t := s.(jq := s.jq - {n.job.id});
    if n.answer.NoAnswer? && !n.err then t.(log := s.log + [Reply(KeyOf(n.job), n.exit)]) else t
  }

  /** Which outcomes the call at n's program counter may report in s. */
  predicate Enabled(s: State, n: Run, o: Outcome) {
    match n.pc
    case Entering(e) => EnabledEnter(s, n, e, o)
    case Checking(c) => EnabledCheck(s, n, c, o)
    case Bootstrapping(b) => EnabledBoot(s, n, b, o)
    case Preparing(p) => EnabledPrepare(s, n, p, o)
    case Building(w) => EnabledBuild(s, n, w, o)
    case Linking(l) => EnabledLink(s, n, l, o)
    case Leave => o.Ok?
    case Done => false
  }

  /** The control flow of `Work`: the run after the call at its program counter reported o. */
  function Local(n: Run, o: Outcome): Run {
    match n.pc
    case Entering(e) => LocalEnter(n, e, o)
    case Checking(c) => LocalCheck(n, c, o)
    case Bootstrapping(b) => LocalBoot(n, b, o)
    case Preparing(p) => LocalPrepare(n, p, o)
    case Building(w) => LocalBuild(n, w, o)
    case Linking(l) => LocalLink(n, l, o)
    case Leave => LocalLeave(n)
    case Done => n
  }

  /** What the call at n's program counter does to the shared state when it reports o. */
  function Effect(s: State, r: nat, n: Run, o: Outcome): State
    requires Enabled(s, n, o)
  {
    match n.pc
    case Entering(e) => EffectEnter(s, n, e, o)
    case Checking(c) => EffectCheck(s, n, c, o)
    case Bootstrapping(b) => EffectBoot(s, r, n, b, o)
    case Preparing(p) => EffectPrepare(s, n, p, o)
    case Building(w) => EffectBuild(s, n, w, o)
    case Linking(l) => EffectLink(s, r, n, l, o)
    case Leave => EffectLeave(s, n)
    case Done => s
  }

  /** The pending builds after a pruning: some were removed, and the removal of others failed half-way and has left what
      `torn` says. */
  function Pruned(pending: map<Key, Build>, gone: set<Key>, torn: map<Key, Build>): map<Key, Build> {
    map k | k in pending && k !in gone :: if k in torn then torn[k].(base := Damaged) else pending[k]
  }

  /** A Restart loses every run, the job queue and the mutexes, and prunes some pending builds. */
  predicate Legal(s: State, a: Step) {
    match a
    case Begin(r, _) => r !in s.runs
    case By(r, o) => r in s.runs && Enabled(s, s.runs[r], o)
    case Restart(_, _) => true
  }

  function Apply(s: State, a: Step): State
    requires Legal(s, a)
  {
    match a
    case Begin(r, j) => s.(runs := s.runs[r := NewRun(j)])
    case By(r, o) => Effect(s, r, s.runs[r], o).(runs := s.runs[r := Local(s.runs[r], o)])
    case Restart(gone, torn) => s.(runs := map[], jq := {}, holder := map[], pending := Pruned(s.pending, gone, torn))
  }

  /** A finite execution: the states it passes through. */
  ghost predicate Execution(states: seq<State>, steps: seq<Step>) {
    && |states| == |steps| + 1
    && forall i :: 0 <= i < |steps| ==> Legal(states[i], steps[i]) && states[i + 1] == Apply(states[i], steps[i])
  }

  ghost predicate Behaviour(states: seq<State>, steps: seq<Step>) {
    Execution(states, steps) && states[0] == EMPTY
  }

  ghost predicate Reachable(s: State) {
    exists states, steps :: Behaviour(states, steps) && states[|steps|] == s
  }
}
