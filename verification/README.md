# mistry: the build protocol and its helpers

mistry runs containerised builds and keeps their results in a directory tree. This project models the server's build
protocol, its worker pool, its log broker, the identity of jobs and the client's dynamic arguments, and proves what they
keep in every run.

Check it with `dafny verify dfyconfig.toml`.

## What is modelled

**The build protocol** (`Protocol`). Any number of concurrent runs of `Server.Work` share the job queue, the project
mutexes and the build directory: pending and ready builds, `latest` and group links, project directories. A run is a
program counter and the few variables that `Work` carries; a step of it is one filesystem, docker, queue or lock call.
Every call may fail, a removal, a persist and a clone may fail half-way, steps of different runs interleave freely, and a
crash may come at any moment, followed by a pruning that may itself fail. Rename and symlink are atomic. The deferred
functions of `Work` are program counters of their own, in the order in which Go runs them.

- `Invariant`, `Preservation`: one inductive invariant, kept by every step of every run.
- `Safety`: links, success, single ownership, publication, check-then-act under the project mutex.
- `MemoTable`: the whole system refines a sequential table from ready paths to exit codes.
- `Lineage`: incremental builds go back to successful builds of their own group.
- `Coalescing`: when a coalescing run can be left waiting for nothing, and when it cannot.
- `Progress`, `Bounds`: no deadlock, and every run ends but for polling, after at most 36 other steps.
- `Calls`, `Returns`: the calls of a run against the text of `Work`, as histories: in its order, none left out, each
  deferred call made exactly if it was deferred, only deferred calls after a failure, an error returned exactly after
  one; and what is published and linked, in terms of these calls.
- `Recovery`: `SetUp` with `PruneZombieBuilds`, run on the state that a crash has left.
- `Damage`: for which jobs requests can still be served, exactly.
- `Witnesses`, with the pieces of executions in `Continuations`: what goes wrong, and the executions that show it.
- `Server`: `Work` as a method, call by call. Other runs take any steps before each call and a call reports any outcome
  the shared state allows, so every call of the method is one step of the protocol.

- `Service`: the protocol and the worker pool together.

**The queues and the pool.** `JobQueue` and `ProjectQueue` are the two queues; the second one also as a state machine in
which threads stop between any two lines. `WorkerPool` is the bounded queue with its one-shot result channels, the wait
group and shutdown.

**The log broker** (`Broker`): the event loop, the counts of clients for each ID, one tailer for each ID with clients, and
the blocking hand-over to the goroutine that closes a tailer.

**Jobs and arguments.** `JobId` is the seed, the ID and the paths of a job; strings are sequences of characters, the hash
is a parameter, and joined paths are cleaned as `filepath.Join` does it (`Paths`, `Strings`). `BuildDir` is what
bootstrapping and writing parameters make of a pending directory. `CliArgs` is the parser of dynamic arguments, with the
printer it undoes.

## Where the obvious claim is false

- A docker failure is reported as exit code 0 with an error (`cmd/mistryd/job.go:193-201`), and `Work` persists that 0. So
  exit code 0 in the ready path does not mean that the build succeeded, and a later request is served such a build as a
  cached success (`Witnesses.FailureIsServedAsSuccess`). An answer 0 is genuine exactly when the persisted build info has
  no error, and always when the run has built the result itself (`MemoTable.ZeroAnswersGenuine`). Links are safe: they
  also need a nil error.
- A ready path that an owner cannot read is never repaired. `Work` removes a failed build only after reading its build
  info and its build log (`cmd/mistryd/worker.go:83`, `cmd/mistryd/job.go:429-435`), and it publishes builds that failed
  before there was a log. Every later run of such a job fails, unless it coalesces and is told the old exit code
  (`Damage.BrokenForever`, `Damage.LogMissingHappens`); when not even the build info can be read, nobody is told anything
  (`Damage.UnreadableHappens`). For every other path a request can be served with exit code 0
  (`Damage.ServedUnlessBroken`).
- A failed run can have published a successful build: the last persist may write everything and then report an error
  (`Witnesses.LateErrorPublishes`). What is published depends on the errors before it (`Safety.PublishesSuccess`).
- The job queue is keyed by the ID alone while ready paths are below a project, and the seed puts nothing between project,
  group and parameters (`JobId.SeedIsAmbiguous`). Two projects with one ID can leave a coalescing run polling for a path
  that no run is working on, although nothing has failed (`Witnesses.CollisionOrphans`); so can a single fault
  (`Witnesses.FaultOrphans`). Such a run polls on until its context is cancelled or its poll fails, the server restarts,
  or another run of its ID is admitted, and exactly these end it (`Coalescing.OrphanStep`). It keeps its worker, and the
  pool never cancels; but such runs never take all workers (`Service.NeverStarved`).
- Names are not checked, and joining cleans paths. The link of the group "../latest" is the `latest` link of its project
  (`JobId.GroupEscapes`); the projects "p" and "./p" share a directory under different mutexes (`JobId.ProjectEscapes`),
  so what is proved about critical sections does not protect it; and a parameter "../../build_info.json" replaces the
  build info (`BuildDir.EscapingTarget`). With plain names, paths are what they seem (`JobId.PathsAreKeys`) and parameters
  are written where they should (`BuildDir.PendingPath.WriteParams`).
- The comment on `BootstrapBuildDir` says that it cleans the pending directory after an error. It does not; a later clone
  then ends up inside what was left (`BuildDir.StartsFrom`), and a later build without a clone source fails.
- With no workers `Stop` returns at once, and accepted items never get a result (`WorkerPool.Shutdown`).
- `parseDynamicArgs` strips every leading dash of a key and cuts a value of the form `--k=v` at its next `=`
  (`CliArgs.RoundTrip` has the exact condition).

## Model

| member | source | states |
|---|---|---|
| Preservation.InvStep | cmd/mistryd/worker.go:23-272 | Every call of every run, whatever it reports, and every restart keeps the invariant: who owns an ID or a mutex, what is below each path, links, lineage |
| Safety.LinkTargets | cmd/mistryd/worker.go:148-173 | A link always names an existing ready build of its project, published for its group, with exit code 0 and no build error; it never dangles. Groups are plain names, as `JobId.PathsAreKeys` has it |
| Safety.SuccessIsStable | cmd/mistryd/worker.go:80-106 | A build published with exit code 0 is never removed or changed, over any later execution with restarts |
| Safety.NoWorkAfterSuccess | cmd/mistryd/worker.go:80-106 | After that, no container runs for its path, nothing removes it and nothing is published there |
| Safety.SuccessIsUnique | cmd/mistryd/worker.go:136-139 | Each ready path is published with exit code 0 at most once |
| Safety.OnlyTheOwnerWrites | cmd/mistryd/worker.go:40-44 | Whoever changes anything below a pending or ready path is the only run that owns the ID |
| Safety.Publication | cmd/mistryd/worker.go:136-188 | A run that reaches the rename finds its target absent; it publishes its final info, certainly so while it has no error, or else the initial or an unreadable one |
| Safety.PublishesSuccess | cmd/mistryd/worker.go:136-188 | Whatever other runs do between the last persist and the rename, a run publishes a successful build if and only if its exit code is 0, it had no error before the last persist and that wrote the info, even if it then reported an error |
| Safety.ExitCodeSource | cmd/mistryd/worker.go:238-243 | An exit code other than -999 was reported by the run's own container, by one that docker did not fail when the run had no error before its last persist |
| Safety.GoodBuildRan | cmd/mistryd/worker.go:136-188 | Behind every successful build there is a container run of its path that exited with 0 without a docker error |
| Safety.LinkedBuildRan | cmd/mistryd/worker.go:148-173 | The same for whatever a link names |
| Safety.ChecksStillHold | cmd/mistryd/worker.go:150-172 | When the link swap removes or creates, the link is still there or still absent; when EnsureDirExists makes a directory, it is still absent and its parent exists |
| Safety.BootstrapConverges | cmd/mistryd/worker.go:274-303 | However many runs bootstrap a project, once one has got through the project has all the directories its job requires, in every later state; and it has no others than some run of it has required and made |
| Safety.MutualExclusion | cmd/mistryd/worker.go:154-155 | Two runs inside the critical sections of the project mutexes work on different projects; with plain names these are different directories |
| Returns.CallsFollowTheText | cmd/mistryd/worker.go:23-272 | In every execution the calls of a run follow the text of `Work`; only polling and writing parameters repeat |
| Returns.ReturnsAnError | cmd/mistryd/worker.go:23-272 | A run returns an error if and only if one of its calls has failed, whichever it was; that there is no link to resolve is not a failure, that there is no such project is one |
| Returns.OnlyDeferredAfter | cmd/mistryd/worker.go:80-243 | After a failed call a run makes no other calls than deferred ones |
| Returns.DeferredCallsAreMade | cmd/mistryd/worker.go:40-222 | When a run has returned, leaving the queue, the unlocks, the closing of client and log, the last persist and the rename have each been called if and only if the call that defers them had succeeded |
| Returns.ReturnsAnAnswer | cmd/mistryd/worker.go:23-272 | A run that answers "built" has made every call that the build takes for its group, clone source and exit code, none has failed and its container exited with that code; one that answers "cached" has only found and read a build with exit code 0; one that answers "coalesced" has only waited and read that exit code |
| Returns.NoContainerAfterFailure | cmd/mistryd/worker.go:190-236 | After a failure before the container, such as writing a parameter, creating the log or building the image, no container runs and the exit code stays -999 |
| Returns.PublishedInfo | cmd/mistryd/worker.go:136-188 | What is published, exactly: if the last persist writes, the exit code of the run's container, or -999 when none has run, and an error if and only if one of its calls had failed; if it is cut short, nothing readable; if it writes nothing, the initial info |
| Returns.LinksWhatItBuilt | cmd/mistryd/worker.go:148-173 | A run that has returned has set its link if and only if it answers that it has built with exit code 0; at that step, after its rename, the link named its build |
| Returns.AnyCallMayFail | cmd/mistryd/worker.go:23-272 | In every reachable state every file system or docker call may fail, a container may end with any exit code, and removals, clones and persists may fail half-way |
| MemoTable.Refines | cmd/mistryd/worker.go:41-188 | Every step is one allowed event of a memo table: publish only when absent, drop only a non-zero code, answer only with the code the table holds |
| MemoTable.AnswersLinearize | cmd/mistryd/worker.go:41-106 | Each error-free answer was given by one step at which the table held its exit code |
| MemoTable.AnswerHeld | cmd/mistryd/worker.go:41-106 | Built, cached or coalesced, a run's answer is an exit code the table held at one of the run's own steps |
| MemoTable.ZeroAnswersLast | cmd/mistryd/worker.go:80-102 | Whoever was answered exit code 0 finds the build in place from then on |
| MemoTable.ZeroAnswersGenuine | cmd/mistryd/worker.go:86-101 | An answer 0 stands for a successful build if and only if the persisted ErrBuild is empty, and always does for a run that has built the result itself |
| Lineage.LineageIsSound | cmd/mistryd/job.go:338-371 | Going back through clone sources strictly descends in publication order, so it ends, and meets only successful builds of the same project and group |
| Lineage.CloneSource | cmd/mistryd/job.go:356-371 | A run about to clone finds a successful build of its project and group and copies its info; onto a leftover directory the copy goes inside |
| Lineage.CloneOfResolved | cmd/mistryd/job.go:338-371 | The clone copies the build the link named when it was resolved, unchanged, whatever other runs begin, swap and publish in between |
| Coalescing.OrphanHasCause | cmd/mistryd/worker.go:41-78 | A run is left polling for nothing only after a run of its ID has met a fault in removal, before publication or in the rename, or belongs to another project |
| Coalescing.NoOrphans | cmd/mistryd/worker.go:41-138 | Without these, for a coalescing run there is a run that works on its ID as the owner, or its ready path is there; build, docker and link failures are allowed |
| Coalescing.QueueIsOwned | cmd/mistryd/worker.go:40-42 | In every state of every execution an ID is in the job queue only while a run that owns it is working |
| Coalescing.OrphanStep | cmd/mistryd/worker.go:48-77 | Exactly three kinds of steps end the wait of an orphaned run: it gives up, the server restarts, or a run of its ID is admitted |
| Coalescing.OrphanWaits | cmd/mistryd/worker.go:48-77 | Over every execution it polls on until one of these happens |
| Progress.NoDeadlock | cmd/mistryd/worker.go:148-173 | In every reachable state each unfinished run can go on, or another run holds the mutex of its project, can go on itself and, whatever its calls report and all others do, has released the mutex to it after at most nine steps of its own |
| Bounds.RunsAreShort | cmd/mistryd/worker.go:23-272 | In every execution a run takes at most 36 steps besides polling and writing parameters; at each program counter it has taken at most 36 less those still before it, counting the directories it need not make |
| Recovery.Startup.SetUp | cmd/mistryd/main.go:164-172 | From the state any crash leaves, whatever fails: a reachable state without runs, queued IDs or held mutexes, ready builds and links as they were. It succeeds exactly when all projects can be told and their pending builds removed; then no listed project with a readable pending directory has a pending build left. Pending builds of other projects are never touched |
| Recovery.Startup.PruneZombieBuilds | cmd/mistryd/server.go:502-528 | Removes exactly the pending builds of the projects that are listed and can be read, or fails for one of two causes, having removed or damaged only such builds |
| Recovery.GetProjects | cmd/mistryd/server.go:530-557 | The projects are exactly the directories with a Dockerfile; it fails exactly when one cannot be examined |
| Witnesses.FailureIsServedAsSuccess | cmd/mistryd/job.go:193-201 | A reachable state in which a failed build with a build error is answered as a cached success |
| Witnesses.LateErrorPublishes | cmd/mistryd/worker.go:178-188 | A reachable state in which a run has failed and its build is published as a success, with no link to it |
| Witnesses.CollisionOrphans | cmd/mistryd/job_queue.go:21-31 | A reachable state with a run that waits for nothing, in which no run has met any error |
| Witnesses.FaultOrphans | cmd/mistryd/worker.go:80-146 | For each cause, before publication, in the rename and in the removal of a failed build: a reachable state without any failure so far in which one fault of the owner leaves a run that waits for nothing, all runs being of one job |
| Damage.BrokenForever | cmd/mistryd/worker.go:80-93 | A ready path without readable info or without a log, whose removal nobody is finishing, stays so for good; for it only the exit code of its info is still told, which is not 0, and nothing when that cannot be read |
| Damage.UnreadableHappens | cmd/mistryd/worker.go:178-188 | A path without readable info is reachable |
| Damage.LogMissingHappens | cmd/mistryd/worker.go:190-202 | A path with readable info and no log is reachable: writing a parameter has failed |
| Damage.ServedUnlessBroken | cmd/mistryd/worker.go:41-106 | For every reachable state and every job: some execution serves a new request with exit code 0, or otherwise than by coalescing, if and only if the path is not broken in this way; and at all if and only if it is not a path without readable info that nobody is removing |
| Server.Server.Work | cmd/mistryd/worker.go:23-272 | Its run goes through the protocol to its end and answers what it returns: an error exactly if one of its calls has failed, otherwise an answer that its calls account for; exit code 0 means that the build is in place |
| Server.Server.CheckCache | cmd/mistryd/worker.go:80-106 | Goes on only with the ready path absent; otherwise fails or returns the persisted exit code 0 as cached |
| Server.Server.Coalesce | cmd/mistryd/worker.go:44-78 | Ends in cancellation, a failure or the exit code that was read, as coalesced |
| Server.Server.BootstrapProject | cmd/mistryd/worker.go:274-303 | Without an error the project has all its directories and the mutex is free again |
| Server.Server.BuildAndPublish | cmd/mistryd/worker.go:136-272 | Writing, building, persisting, renaming and linking in the order of the deferred calls, leaving with what the run will answer; it returns an error exactly if one of its calls has failed, and the exit code of its container or -999 |
| Server.Server.SwapLink | cmd/mistryd/worker.go:154-172 | Goes through the critical section and releases the mutex on every path; it returns no error exactly if the link was set |
| JobQueue.JobQueue.Add | cmd/mistryd/job_queue.go:21-31 | True exactly when the ID was not registered; it is registered afterwards; the same as the first step of a run of the protocol |
| JobQueue.JobQueue.Delete | cmd/mistryd/job_queue.go:33-39 | Exactly that ID is no longer registered; the same as the last step of a run that owns it |
| ProjectQueue.InvReachable | cmd/mistryd/project_queue.go:16-33 | In every interleaving of any threads inside Lock and Unlock, the invariant on `mu`, the table and the owners holds |
| ProjectQueue.Refines | cmd/mistryd/project_queue.go:16-33 | The two levels of mutexes refine a map from projects to at most one holder; Unlock always meets a locked mutex |
| ProjectQueue.HolderIsOwner | cmd/mistryd/project_queue.go:16-33 | The holder of a project is exactly the thread that has returned from Lock and not yet unlocked it |
| ProjectQueue.Exclusive | cmd/mistryd/project_queue.go:16-33 | Two threads never hold the same project |
| ProjectQueue.MutexIsStable | cmd/mistryd/project_queue.go:19-23 | A project's mutex is created once and never replaced |
| ProjectQueue.NobodyIsStuck | cmd/mistryd/project_queue.go:17-33 | `mu` is never held while waiting for a project mutex; a thread that cannot go on waits for one that can |
| ProjectQueue.ProjectQueue.Lock | cmd/mistryd/project_queue.go:16-26 | Called in any state, with other threads stepping in between: waits for `mu` and for the mutex, and comes back holding exactly this project; existing mutexes stay |
| ProjectQueue.ProjectQueue.Unlock | cmd/mistryd/project_queue.go:28-33 | Called by a holder, comes back holding nothing; existing mutexes stay |
| WorkerPool.ExactlyOnce | cmd/mistryd/worker_pool.go:83-113 | An accepted item is in exactly one place: queued, with exactly one worker, or completed with one result |
| WorkerPool.StartedInOrder | cmd/mistryd/worker_pool.go:98-102 | Items are started in the order of acceptance, each once; the rest is the queue |
| WorkerPool.WaitReceivesOutcome | cmd/mistryd/worker_pool.go:26-34 | The first Wait receives what Work returned |
| WorkerPool.OutcomeIsStable | cmd/mistryd/worker_pool.go:98-111 | A result is never overwritten |
| WorkerPool.NoPanic | cmd/mistryd/worker_pool.go:104-110 | The panic branches of the worker and of the first Wait are not reachable |
| WorkerPool.BoundedLoad | cmd/mistryd/worker_pool.go:63-67 | Unfinished accepted items never exceed the backlog plus the number of workers |
| WorkerPool.WaitGroup | cmd/mistryd/worker_pool.go:65-68 | The wait group counts the workers that have not exited and never becomes negative although a worker starts before it is counted |
| WorkerPool.Shutdown | cmd/mistryd/worker_pool.go:73-77 | After Stop all workers have exited, and all accepted items have results exactly if there are workers or nothing was accepted |
| WorkerPool.DrainingEnds | cmd/mistryd/worker_pool.go:98-113 | After the queue is closed each step of a worker decreases a measure |
| WorkerPool.DrainingGoesOn | cmd/mistryd/worker_pool.go:98-113 | Until all workers have exited one of them can step |
| WorkerPool.WorkerPool.constructor | cmd/mistryd/worker_pool.go:57-71 | All workers started and counted, nothing accepted |
| WorkerPool.WorkerPool.SendWork | cmd/mistryd/worker_pool.go:79-94 | Accepts when the queue has room, at its end, or hands the item to a worker that waits on an empty queue; rejects only without room |
| WorkerPool.WorkerPool.WorkerTurn | cmd/mistryd/worker_pool.go:98-113 | Takes the first item, delivers its result once and closes its channel; exits when closed and empty |
| WorkerPool.WorkerPool.Wait | cmd/mistryd/worker_pool.go:25-34 | Called in any state with workers, it waits while they step and returns the item's own result |
| WorkerPool.WorkerPool.Stop | cmd/mistryd/worker_pool.go:73-77 | Terminates once the workers finish what they have; all have exited, no result is lost |
| Service.ResultIsAnswer | cmd/mistryd/worker_pool.go:98-111 | In every execution of pool and protocol together, the result of an item is what the run of that item has returned |
| Service.NeverStarved | cmd/mistryd/worker_pool.go:98-111 | In every execution of pool and protocol together, at least one worker is not held by a coalescing run that waits for nothing |
| Broker.Bookkeeping | pkg/broker/broker.go:84-126 | The count of an ID is the number of its clients; exactly one tailer that is not signalled exists for an ID with clients |
| Broker.SignalIsForOwnGeneration | pkg/broker/broker.go:106-126 | The closing signal reaches the closer of its own channel, never that of a newer one |
| Broker.SignalGetsThrough | pkg/broker/broker.go:106-126 | The loop never stays blocked on a signal |
| Broker.DeliveryIsFiltering | pkg/broker/broker.go:84-132 | What is sent to a client is, in order, the events of its ID between its registration and its closing; no send or close meets a closed channel |
| Broker.Broker.SendToAll | pkg/broker/broker.go:127-132 | In any order of the clients, each client of the ID gets the message once and nobody else |
| Broker.Broker.AwaitCloser | pkg/broker/broker.go:124-126 | The signalled tailer is gone and the loop receives again |
| Broker.Broker.ListenForClients | pkg/broker/broker.go:81-135 | On every input that keeps the clients' discipline, the loop never blocks for good or panics and delivers by the filter |
| JobId.SortedUnique | cmd/mistryd/job.go:117-117 | Keys have only one sorted order |
| JobId.AtMostMeans | cmd/mistryd/job.go:117-117 | Keys are sorted by the first character in which they differ, a prefix first |
| JobId.SeedWrittenOut | cmd/mistryd/job.go:106-123 | The seed is the project, the group, the keys that do not start with "_" in ascending order, each followed by its value, and the image, and nothing else is |
| JobId.SeedOfTwo | cmd/mistryd/job.go:106-123 | The same for two keys, by their first characters that differ |
| JobId.SeedIsCanonical | cmd/mistryd/job.go:106-123 | The seed is the same for every order of visiting the parameters and every change to those that start with "_" |
| JobId.SameIdentity | cmd/mistryd/job.go:74-142 | Requests that differ only in such parameters have the same ID, paths, image and container |
| JobId.SeedIsAmbiguous | cmd/mistryd/job.go:119-123 | Between project, group, key, value and image, moving text from one side to the other keeps the seed, for all other parts |
| JobId.ValueOrNextKey | cmd/mistryd/job.go:119-122 | The same between a value and the next key |
| JobId.NoLengthIsFree | cmd/mistryd/job.go:119-123 | None of the lengths of project, group, key and value in the next row can be left free while the others stay |
| JobId.SeedTellsApart | cmd/mistryd/job.go:119-123 | Between jobs with parts of the same lengths, seeds are equal exactly if projects, groups, counted parameters and images are |
| JobId.PathsWrittenOut | cmd/mistryd/job.go:87-134 | For plain names below plain paths, every path, the image and the container of a job as text |
| JobId.PathsAreKeys | cmd/mistryd/job.go:87-98 | For plain names (not empty, "." or "..", no "/"; the group may be empty), pending and ready paths are, as strings, as different as pairs of project and ID, links as pairs of project and group |
| JobId.GroupEscapes | cmd/mistryd/job.go:90-95 | Without that condition it is false: the group "../latest" has the link of the jobs without a group |
| JobId.ProjectEscapes | cmd/mistryd/job.go:87-95 | The projects "p" and "./p" have the same paths |
| Paths.TextTellsApart | cmd/mistryd/job.go:87-98 | Cleaned paths with different components are different strings |
| JobId.NewJob | cmd/mistryd/job.go:74-142 | Each error for its cause, in order; otherwise the job whose ID is hashed from the canonical seed; with plain names every field is as written out |
| JobId.ComputeSeed | cmd/mistryd/job.go:106-123 | Visiting, sorting and concatenating give the seed that every other order gives, which is that of the row on the seed written out |
| BuildDir.PendingPath.BootstrapBuildDir | cmd/mistryd/job.go:356-395 | An empty params directory and, of the source or of what was left behind, all the rest; without a fault it fails only when something is in the way |
| BuildDir.PendingPath.WriteParams | cmd/mistryd/worker.go:190-196 | For any names, each parameter is written where its name leads; the params directory holds exactly the parameters if and only if all names are plain, and then nothing outside changes and only a fault can prevent it |
| BuildDir.EscapingTarget | cmd/mistryd/worker.go:191-191 | The name "../../f" is that of the file f beside the data directory, as the build info is |
| BuildDir.PendingPath.Prepare | cmd/mistryd/worker.go:124-196 | For any contents of the source the params are exactly the job's if and only if all names are plain, and then the build info is the job's; with other names each parameter is still written where its name leads, over the build info as well; without a fault it fails only when something is in the way or a name is not plain |
| BuildDir.CacheAndArtifacts | cmd/mistryd/job.go:363-395 | Cache and artifacts hold what the source's held, or nothing without a source; with a leftover directory, what it held |
| CliArgs.ParseDynamicArgs | cmd/mistry/main.go:366-386 | The loop with strides 1 and 2 ends in the left-to-right assignment of the pairs the arguments stand for |
| CliArgs.ArgumentForms | cmd/mistry/main.go:366-386 | After any number of dashes: k=v assigns what of v is before its first "=", k takes the next argument whatever it is, and a last k without "=" assigns nothing |
| CliArgs.EveryArgument | cmd/mistry/main.go:370-372 | Every argument is of one of these forms |
| CliArgs.RoundTrip | cmd/mistry/main.go:366-386 | Printing pairs and parsing gives the pairs back if and only if no key starts with "-" or has a "=" and no value joined to its key has one |
| CliArgs.MapRoundTrip | cmd/mistry/main.go:366-386 | The resulting map is the left-to-right update if and only if all keys, and all values that are not replaced later, fit |

## Left out

- Docker, HTTP, HTML, JSON, metrics and logging: outcomes of docker calls are free (exit code, error) pairs and persisted
  build info is a record or unreadable.
- Server.Server.Work: the production caller never cancels its context; the method gives up after a number of polls that it
  is given. Timestamps, durations and container output are not modelled.
- Server.Server.BuildAndPublish: parameters are written one by one as steps; their contents are in `BuildDir`. That this
  leaves the build info alone, as `Safety.Publication` says, holds for plain parameter names only.
- Protocol.Apply: IDs, projects and groups are plain file names, which the program does not check. Only the
  server writes below the build path; external deletion of builds is not modelled. After a crash nothing of the old
  server goes on, such as a container that still runs; and a container changes neither build info nor log.
- JobId.NewJob: SHA-256 is a function parameter, so that different seeds have different IDs is nowhere used; the archive of
  the project directory is a parameter as well.
- BuildDir.PendingPath.WriteParam: what a parameter name that leads out of the pending path writes there.
- BuildDir.PendingPath.Clone: what `cp -r` makes of an earlier copy of the same name inside a leftover directory is open.
- Broker.Broker.ListenForClients: events that arrive are given as a sequence, clients always receive, opening a tailer
  succeeds and map accesses are atomic; the data race between the loop and the closing goroutines is not modelled.
- WorkerPool.WorkerPool.Wait: with no workers it would wait forever, and is not called; other clients do not step in between.
- ProjectQueue.ProjectQueue.Lock: mutexes are numbers with an owner; that a waiting thread is ever served is the choice
  of the Go scheduler and not proved.
- `getJobs`, `RebuildImages`, configuration and the client's transport of artifacts: easy loops or foreign processes.
- Fairness and real time: what is proved is that runs, broker and pool can always go on and that work is finite.
