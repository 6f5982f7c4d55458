# Verification of the Kata task driver

This project models, in Dafny, how the Kata driver shares one virtual machine among the tasks of an
allocation, and proves what that sharing promises. It also models four smaller algorithms of the
driver. `dafny verify dfyconfig.toml` checks everything.

## What is modelled

**The shared sandbox.** `StartTask` and `RecoverTask` acquire a reference on the VM of an allocation,
`DestroyTask` and a failed start give it back, the last reference tears the VM down, and the goroutine
that watches a task condemns the allocation with a durable `sandbox-dead` marker when it finds the VM
dead. It is modelled twice.

- *As a state machine* (`Names`, `Runtime`, `Tasks`, `Machine`). A step is one containerd call, one
  file operation or one critical section of one call. Steps of `StartTask`, `DestroyTask`,
  `RecoverTask` and `WaitTask` calls, of task goroutines, of the environment (a task exits or is
  killed by `StopTask`, a VM dies) and crashes of the driver process interleave in any order. Only
  `GetOrCreate`, `Release` and `Recover` exclude one another, by a mutex that is held across their
  containerd calls; a crash may come inside them too. On this machine `References`, `Agreement`,
  `Poison`, `FalsePoisoning`, `Counterexamples`, `Isolation` and `Recovery` prove properties of every
  run.
- *As classes* with the fields the driver has (`Containerd.Client`, `Sandbox.SandboxManager`,
  `Handle.StateDir`, `Handle.TaskHandle`, `Driver.Driver`). Their methods do what the driver's methods
  do, in the same order, and their contracts state the whole new state. Each also records, in a ghost
  `History.Journal`, the machine steps it takes; the journal is at all times a run of the machine that
  ends in the state of the objects. So the code of each call refines the machine, and what is proved
  of all runs holds of the objects (`Driver.CountsAreTasks`, `ContainerdAgrees`, `NeverMarks`). These
  calls run one after the other, except that `DestroyTask` waits for the task's goroutine. Between
  calls a goroutine has not begun, waits for its task, which is then in progress, or is done; how its
  other steps interleave with calls is the state machine's subject. `GetOrCreate`, `Release`,
  `StartTask` and `DestroyTask` are cut into helper methods, one for each stage, to keep their proofs
  small. What a call is answered from outside is free in the model, and every answer is kept in the
  order of the calls (`Host.Record`); the contracts say what a method asks and what it makes of the
  answers, so that no method can fail, or decide, without having been told so.

**The orphan reaper** (`Text`, `Processes`, `Reaper`): which processes belong to a sandbox, and the
protocol SIGTERM for all, one shared deadline, SIGKILL for survivors. The kernel's calls are recorded
in a log, and the protocol is a property of that log.

**The Envoy bootstrap rewriter** (`Envoy`, `Bootstrap`): nested loops over decoded JSON objects that
are shared by reference and updated in place, proved equal to a function on JSON trees; that function
is then characterised by the paths it changes.

**CPU percentages** (`Stats`) over reals, and the **resolv.conf filter** (`Resolv`).

## What the code needs, and where it falls short

Side conditions that are preconditions of the model because the code relies on them: a task ID is
fresh when it is started; at most one `DestroyTask` per task ID is in flight; allocation IDs and task
names are plain path components (not empty, no `/`, not `.` or `..`), and no task is called `sandbox`
or `sandbox-dead`; after a restart the `RecoverTask` calls of an allocation come before its other
calls; a reference count stays below 2^31.

Results about the code that a caller may not expect:

- An allocation is marked dead only after a fault of its own in the same run, whatever happens to
  others (`FalsePoisoning.MarkedByItsOwnFault`). The faults are that its VM dies, and three in which
  it does not: a forced `DestroyTask` of one of its tasks stops waiting after 5 s and releases the
  reference under a goroutine that has not read the sandbox's state yet; the driver state of one of
  its tasks cannot be encoded, so `StartTask` releases the reference of a goroutine it has launched;
  or a probe of its live sandbox fails with a closed-transport error. Each of the four does lead to a
  marked allocation, and without all four none is ever marked (`Counterexamples.PoisoningNeedsAFault`).
- A start whose driver state cannot be encoded gives its reference back but leaves its handle stored.
  Destroying that handle gives back another reference, so a sibling task can lose the VM it runs in
  (`Counterexamples.SiblingLosesItsReference`). The theorems about counts therefore speak of an
  allocation of which no start has failed like this since the last restart (`References.Encodes`).
- With other than plain names, removing one task's directory can clear the marker of its own or of
  another allocation (`Names.OtherNamesClearMarkers`).
- Container IDs of different allocations can collide if allocation IDs differ in length
  (`Names.UnequalLengthsCollide`); for one length they never do.
- The reaper leaves handles open, and their processes without a signal, if and only if the kernel
  opens one process of the sandbox and fails to open a later one (`Reaper.LeakIff`, with a run in
  `Reaper.LeakingRun`).
- The waits of the reaper together can pass 3 s if and only if there are at least two processes
  (`Reaper.DeadlinePassedIff`), always by less than 1 ms (`Reaper.TimeBounded`): what is left below a millisecond is rounded
  up to one. A single wait can end after the deadline if and only if it starts in the last millisecond
  before it (`Reaper.OverrunIff`), and when none starts there 3 s are kept (`Reaper.WaitsKept`).
- Where a counter goes back, the percentages account for that much more CPU time than was used
  (`Stats.AccountedFor`).

## Model

| member | source | states |
|---|---|---|
| Names.ConfigDirClearsMarker | kata/driver.go:252-258 | Between plain allocation IDs and names, joined and cleaned as filepath does it, removing a task's configuration directory removes a dead marker if and only if it is the task's own allocation's and the task is called `sandbox-dead` |
| Names.OtherNamesClearMarkers | kata/driver.go:252-258 | Other names clear markers: an allocation ID with a separator, and a task called `.` or `..` |
| Names.SandboxIDInjective | kata/sandbox.go:35-37 | Different allocations have different sandbox IDs |
| Names.ContainerIDCollision | kata/driver.go:307 | Exactly when two tasks get one container ID |
| Names.RenderInjective | kata/sandbox.go:35-37 | For allocation IDs of one length and valid task names, all sandbox and task container IDs are pairwise distinct |
| Names.UnequalLengthsCollide | kata/driver.go:307 | A concrete collision for allocation IDs of different lengths |
| Tasks.OkAfter | kata/handle.go:32-84 | Every step of every call keeps a task's entry well-formed: a result exactly from setExit on, a closed channel only after it, death seen only after a probe |
| Machine.AllOkRun | kata/handle.go:117-131 | That holds in every reachable state |
| References.Holding | kata/driver.go:318-327 | Which steps of a task make it acquire or drop a reference, that no other step does, and what a failed encoding makes of it |
| References.CountedHere | kata/sandbox.go:41-128 | Each critical section moves the count of its allocation exactly as it moves the number of holders |
| References.RefsRun | kata/sandbox.go:45-48 | Count and holders stay equal along every run, crashes and recoveries included, for every allocation of which no start has failed to encode its state since the last restart |
| References.RefCountIsHolders | kata/sandbox.go:96-110 | For such an allocation, in every reachable state the count is the number of its live holders, and the map has the key exactly when there is one, except inside the last teardown |
| References.LastHolderTearsDown | kata/sandbox.go:101-110 | For such an allocation, a release tears down if and only if the caller is the only holder, in any order of releases, and never finds the allocation missing |
| Agreement.AgreesRun | kata/sandbox.go:54-84 | The agreement invariant (no leak, nothing missing, tasks only inside running VMs) holds along every run with any faults |
| Agreement.MapAgreesWithContainerd | kata/sandbox.go:54-110 | Resources exist under a sandbox ID only for an allocation in the map, in creation, or whose sandbox a restart left behind, which without a restart is none; an unmarked allocation in the map has container and metadata |
| Agreement.TeardownsBalance | kata/sandbox.go:101-110 | Between restarts, teardowns plus the VM still up equal boots plus adoptions |
| Agreement.BootsMinusTeardowns | kata/sandbox.go:76-110 | Without restarts, boots minus teardowns is 1 while the sandbox is up and 0 otherwise |
| Poison.MarkersGrow | kata/driver.go:260-290 | No step clears a marker: not a restart, not DestroyTask's directory removal |
| Poison.MarkersDurable | kata/driver.go:265-272 | Markers only grow along every run |
| Poison.CleanupFollowsMarker | kata/driver.go:265-281 | Every step of death cleanup, in every run, finds the marker already on disk |
| Poison.PoisonedStartRefused | kata/driver.go:288-290 | Once marked, an allocation's later StartTask calls are refused in every later state, and being refused changes nothing |
| Poison.LateCreations | kata/driver.go:310-422 | After the marker, each StartTask creates at most one sandbox container and one task container, and none unless it was past its check |
| Poison.OnlyStartsCreate | kata/driver.go:318-447 | A container appears only by a sandbox creation or a task creation of a StartTask for its allocation |
| Poison.ExitSetOnce | kata/handle.go:117-131 | Between restarts a result is set at most once and never changes, and doneCh is closed at most once |
| Poison.WaitDeliversResult | kata/driver.go:524-542 | WaitTask never delivers an absent result from doneCh, and delivers the handle's |
| Poison.MarkerBeforeNotice | kata/handle.go:76-84 | When the exit of a task that found its sandbox dead can be seen, the marker is on disk, unless writing it failed |
| Poison.RestartRefused | kata/driver.go:265-290 | So a restart issued in response is refused, however much later |
| FalsePoisoning.HolderFindsSandboxUp | kata/driver.go:581-594 | As long as its allocation has had no fault, a task that holds a reference finds its sandbox up |
| FalsePoisoning.ProbeFindsSandboxUp | kata/handle.go:76-84 | So no truthful probe of an unfinished goroutine concludes that the sandbox is dead |
| FalsePoisoning.MarkedByItsOwnFault | kata/handle.go:76-84 | In every run with any faults, an allocation that is marked, or believed dead by a goroutine, has had a fault of its own in that run |
| FalsePoisoning.NoFalsePoisoning | kata/handle.go:76-84 | In every run without the four faults no allocation is ever marked dead, whatever tasks return |
| Counterexamples.VmDeathPoisons | kata/driver.go:265-282 | A VM that dies leads to a marked allocation |
| Counterexamples.GivingUpPoisons | kata/driver.go:581-594 | So does a forced destroy that gives up waiting |
| Counterexamples.EncodeFailurePoisons | kata/driver.go:475-478 | So does driver state that cannot be encoded |
| Counterexamples.LyingProbePoisons | kata/handle.go:76-91 | So does a closed-transport error from a live sandbox |
| Counterexamples.PoisoningNeedsAFault | kata/handle.go:76-84 | In a family of runs some allocation can come to be marked if and only if one of the four faults can happen in it |
| Counterexamples.SiblingLosesItsReference | kata/driver.go:475-478 | After a failed encoding, destroying the handle left behind takes the last count and the VM from a sibling that runs in it and holds a reference |
| Isolation.OnlyOwnTask | kata/driver.go:310-447 | A task's container is removed only by a call for that task; a running task stops only by a call for it, by itself, or with its VM |
| Isolation.SandboxOutlivesHolders | kata/sandbox.go:92-111 | No step takes anything of a sandbox away while someone holds it, unless the allocation is marked or has had a start fail to encode its state |
| Isolation.PrintedStoreFaithful | kata/sandbox.go:35-37 | In runs over allocation IDs of one length, containers, metadata and running tasks under printed IDs behave exactly as under the structured ones of the model, stopping a whole sandbox included |
| Recovery.RecoverOne | kata/driver.go:484-522 | RecoverTask of a persisted task that still runs succeeds, and its whole effect |
| Recovery.RebuiltCount | kata/sandbox.go:115-128 | Each count after recovery is the earlier one plus the number of its tasks recovered |
| Recovery.RecoveryRebuilds | kata/driver.go:484-522 | After a crash in any reachable state, recovering any of the tasks still running in any order rebuilds sandbox IDs and counts, and no other allocation |
| Recovery.TornDownOnce | kata/sandbox.go:101-110 | However recovered tasks are then destroyed, the sandbox is torn down exactly once, when the last holder goes |
| Containerd.Client.CreateContainer | kata/containerd.go:225-338 | Adds the container, or fails and changes nothing; an existing ID fails |
| Containerd.Client.CreateSandboxMetadata | kata/containerd.go:200-214 | Idempotent creation of a metadata record |
| Containerd.Client.DeleteSandboxMetadata | kata/containerd.go:216-223 | Idempotent deletion of a metadata record |
| Containerd.Client.DeleteContainer | kata/containerd.go:347-357 | Idempotent deletion of a container |
| Containerd.Client.StartTaskDetached | kata/containerd.go:359-376 | Starts an existing container that is not running, or fails and changes nothing |
| Containerd.Client.TaskState | kata/containerd.go:472-495 | Running is reported only for a container whose task runs, not running (also when not found) and a closed transport only for one whose task does not, any other error at any time |
| Sandbox.SandboxManager.CreateRecord | kata/sandbox.go:71-74 | Metadata made, or the container removed again |
| Sandbox.SandboxManager.StartVm | kata/sandbox.go:76-80 | VM booted, or metadata and container removed again |
| Sandbox.SandboxManager.GetOrCreate | kata/sandbox.go:41-88 | One more reference, or a new entry over a booted sandbox, or an error with map and containerd as they were; it fails exactly if containerd refuses one of the four calls of a creation, and makes no call if the allocation is in the map |
| Sandbox.SandboxManager.Release | kata/sandbox.go:92-111 | Unknown: nothing; others remain: one less; last: VM, container, metadata and entry gone |
| Sandbox.SandboxManager.Recover | kata/sandbox.go:115-128 | One more reference or a new entry with the recorded ID; containerd untouched |
| Handle.StateDir.MarkSandboxDead | kata/driver.go:265-282 | Marker first; if it cannot be written nothing else happens, else what containerd holds afterwards is stated exactly, and nothing is left under the sandbox ID |
| Handle.TaskHandle.ProbeSandbox | kata/handle.go:76-84 | The sandbox is read exactly after an abnormal exit; it counts as dead if and only if it is read as not running or its transport as closed |
| Handle.TaskHandle.RecordExit | kata/handle.go:76-84 | The allocation is marked if and only if the exit is abnormal, the sandbox is read as not running or its transport as closed, and the marker can be written, which is then always tried; otherwise markers and containerd are unchanged; the result is set last |
| Handle.RunMarks | kata/handle.go:34-84 | Over a whole goroutine, fresh or recovered, marking is tried if and only if the sandbox was read as dead, which happens only after an abnormal exit, and the allocation is marked if and only if that succeeded |
| Handle.TaskHandle.SetExit | kata/handle.go:117-125 | Sets the result |
| Handle.TaskHandle.Enter | kata/handle.go:34-50 | The goroutine up to its task: it ends at once, with the result of the source, exactly if its logs cannot be opened or its task cannot be started or attached to, and is in progress otherwise |
| Handle.TaskHandle.Leave | kata/handle.go:50-53 | The goroutine from its task's exit to a closed doneCh, with the exit that was reported and recordExit's decision on it |
| Handle.TaskHandle.Run | kata/handle.go:34-74 | The goroutine ends with a result and a closed doneCh, for fresh and recovered handles, by the calls of the source and with the result and the marking their answers give; it marks nothing if its sandbox was up, and touches nothing of other allocations, of other tasks or, unless it marks, of its sandbox |
| Driver.Driver.constructor | kata/driver.go:90-101 | A new driver knows no tasks and no sandboxes |
| Driver.Driver.EncodeState | kata/driver.go:475-478 | The state is encoded, or the task and its container are cleaned up |
| Driver.Driver.ReleaseOnFailure | kata/driver.go:322-327 | The deferred release restores counts and sandbox resources |
| Driver.Driver.StartTask | kata/driver.go:284-482 | All or nothing: an empty ID and a marked allocation, and only these, are refused untouched; otherwise the calls of the source are made in order until one is refused, and that decides success or error; on any error counts, map and sandbox resources are as before, and so is the store unless encoding failed, which leaves the handle; on success one more reference, a stored handle, a task container, and the sandbox as it was or newly built |
| Driver.StartedIff | kata/driver.go:292-482 | Past its check a start succeeds if and only if every call it makes is granted; otherwise it fails with the error of the one call that was refused, the last that was made |
| Driver.Driver.DestroyTask | kata/driver.go:571-599 | Running and not forced: nothing; otherwise container gone, handle forgotten, one reference dropped, the sandbox gone with the last and else as it was unless marked; a running task is killed first and its goroutine waited for or given up on; no marker cleared, and none written but by that goroutine; nothing of other allocations and no other task's container moves |
| Driver.Driver.EnterTask | kata/handle.go:34-50 | Between calls, a goroutine brings its task into progress or ends, as its answers decide |
| Driver.Driver.RunGoroutine | kata/handle.go:34-74 | Between calls, a goroutine runs to its end; what it hears decides its result and whether it marks, and it marks nothing if its sandbox was up |
| Driver.Driver.WaitTask | kata/driver.go:524-542 | A waiter is answered exactly when doneCh is closed or its context is done: with the handle's result, which is there, or with its context's error |
| Driver.Driver.Restarted | kata/driver.go:90-101 | A restart keeps containerd, markers and persisted states and nothing else |
| Driver.Driver.RecoverTask | kata/driver.go:484-522 | Succeeds if and only if containerd reads the task as running, so for every task that is up unless the read fails; rebuilds handle and one reference from the record, else changes nothing |
| Driver.Driver.CountsAreTasks | kata/sandbox.go:13-23 | Between calls a sandbox's count is the number of its tasks in the store, unless a start of the allocation has failed to encode its state since the restart |
| Driver.Driver.ContainerdAgrees | kata/driver.go:318-327 | Under the same condition, between calls containerd has the sandbox of every unmarked allocation with a task and no other, unless left by a restart |
| Driver.Driver.NeverMarks | kata/handle.go:76-84 | Without faults these objects never mark an allocation |
| Text.SplitJoin | kata/orphan.go:92 | Splitting a joined list of separator-free strings returns the list |
| Processes.ArgumentsRecovered | kata/orphan.go:92 | Splitting a NUL-terminated command line recovers any non-empty NUL-free argument list |
| Processes.FoundInOneArgument | kata/orphan.go:96-97 | A byte search over the command line succeeds exactly when one single argument contains the text |
| Processes.VirtiofsdMatch | kata/orphan.go:96-97 | A virtiofsd process matches exactly when one of its arguments contains the ID between slashes |
| Processes.MatchesByArguments | kata/orphan.go:91-112 | For every executable and list of NUL-free arguments, whether the process matches, in terms of its single arguments and the literal options |
| Processes.OneAllocation | kata/orphan.go:91-103 | A QEMU or shim command line with one naming option matches the sandbox of at most one allocation |
| Processes.HasArgumentValue | kata/orphan.go:105-112 | True exactly when the option is followed by the value somewhere |
| Processes.SandboxProcessMatches | kata/orphan.go:91-103 | The decision by executable name |
| Processes.SelectExactly | kata/orphan.go:62-89 | A process ID is listed exactly when an entry with that number can be read and matches |
| Processes.SandboxProcessIDs | kata/orphan.go:62-89 | The loop returns the selected IDs in order |
| Reaper.RoundingUp | kata/orphan.go:45-56 | The milliseconds asked for are all the whole ones that remain, except that less than one counts as one |
| Reaper.OpenAll | kata/orphan.go:127-137 | Every process still there is opened, in order; an error stops and leaves the opened handles open |
| Reaper.TermAll | kata/orphan.go:144-148 | SIGTERM to each handle in order, until one is refused |
| Reaper.WaitFor | kata/orphan.go:150-161 | One wait, which asks for all the whole milliseconds left until the shared deadline, or for one if less is left, and SIGKILL exactly if the process still runs |
| Reaper.WaitAll | kata/orphan.go:150-161 | The waits in order, each reading the clock, against one deadline 3 s after they begin, until one ends with an error |
| Reaper.TimeBounded | kata/orphan.go:150-161 | In every run, for any number of handles and however it ends, all waits together stay below 3 s + 1 ms |
| Reaper.KilledOnlyLate | kata/orphan.go:150-161 | In every run a process is killed only after a wait that lasted into the last millisecond of the 3 s |
| Reaper.WaitsBounded | kata/orphan.go:150-156 | Every schedule of waits with a monotone clock and polls that block no longer than asked stays below 3 s + 1 ms |
| Reaper.BoundReached | kata/orphan.go:45-56 | A schedule of two waits that comes within a nanosecond of that bound |
| Reaper.OverrunIff | kata/orphan.go:45-56 | A wait started before the deadline can end after it if and only if less than a millisecond was left, and by blocking past what was left |
| Reaper.WaitsKept | kata/orphan.go:150-156 | When no wait starts in the last millisecond, all waits together keep to 3 s |
| Reaper.DeadlinePassedIff | kata/orphan.go:150-156 | The waits for `n` processes can pass 3 s if and only if `n` is at least two |
| Reaper.CloseAll | kata/orphan.go:138-142 | Closes each handle once |
| Reaper.ClosedOnEveryReturn | kata/orphan.go:138-163 | On every return after the open loop, with or without an error, exactly the opened handles are closed, each once and in order |
| Reaper.LeakIff | kata/orphan.go:126-142 | Handles are left open if and only if the kernel opens one process and fails to open a later one |
| Reaper.LeakingRun | kata/orphan.go:126-142 | A run of two processes that leaves one handle open and its process without a signal |
| Reaper.Reap | kata/orphan.go:126-163 | The record of calls for every outcome, waits on schedule included, and which handles stay open |
| Reaper.CleanupSandboxProcesses | kata/orphan.go:121-164 | The same from the process table on |
| Reaper.EachHandleOnce | kata/orphan.go:144-161 | In a complete run each opened process is terminated, waited for and closed exactly once, in order, and exactly the survivors are killed |
| Reaper.KillsFollowWaits | kata/orphan.go:151-161 | A SIGKILL directly follows the wait that reported its process running, every such wait is followed by one, and every wait follows a reading of the clock |
| Reaper.TermsFirst | kata/orphan.go:144-161 | However a run ends, every SIGTERM precedes every wait and SIGKILL |
| Reaper.OnlyMatchedOpened | kata/orphan.go:122-131 | However a run ends, no unmatched process is opened |
| Envoy.NoneLeft | kata/driver.go:922-966 | After rewriting no endpoint on the selected path keeps a pipe |
| Envoy.ChangedIffPipe | kata/driver.go:960-970 | The document changes if and only if a pipe is on the selected path |
| Envoy.RewriteTwice | kata/driver.go:885-977 | Rewriting again, with any address, changes nothing |
| Envoy.OnlyPipesReplaced | kata/driver.go:922-966 | At every path into a selected pipe address the new document has what the TCP address has; at every other path it has the outline it had |
| Envoy.OutlinesDetermine | kata/driver.go:922-966 | The outlines at all paths determine a document, so the previous row misses nothing |
| Envoy.SelectedPipes | kata/driver.go:902-966 | The paths at which an address is replaced, in the literal keys of the file, both spellings and their precedence included |
| Envoy.RewriteRedirects | kata/driver.go:912-964 | At each of these paths the new document has an object with nothing but a socket address with the given host, the given port and nothing else; at every path not into one it has the outline it had |
| Bootstrap.JsonMap | kata/driver.go:979-986 | The first of the keys that holds an object |
| Bootstrap.JsonSlice | kata/driver.go:988-995 | The first of the keys that holds an array |
| Bootstrap.VisitLbEndpoint | kata/driver.go:945-964 | In place, one endpoint becomes its rewriting and nothing outside it changes |
| Bootstrap.VisitLbEndpoints | kata/driver.go:945-964 | The innermost loop rewrites every element in place |
| Bootstrap.VisitEndpoint | kata/driver.go:936-944 | One endpoint group, under either spelling of its key |
| Bootstrap.VisitEndpoints | kata/driver.go:936-965 | The middle loop |
| Bootstrap.VisitCluster | kata/driver.go:920-935 | One cluster: only `local_agent`, only with a load assignment and endpoints |
| Bootstrap.VisitClusters | kata/driver.go:919-966 | The outer loop, and whether it found a pipe |
| Bootstrap.VisitRoot | kata/driver.go:902-919 | From the document's root to its clusters |
| Bootstrap.ShowsOne | kata/driver.go:972-976 | What a value in memory prints as is unique |
| Bootstrap.Decode | kata/driver.go:891-894 | Every JSON value has an in-memory form as a tree of fresh objects that prints as that value |
| Bootstrap.RewriteEnvoyBootstrap | kata/driver.go:885-977 | For every file and address: when each outcome is returned, and what is written prints as a document in which every selected pipe is redirected to the given host and port and nothing else differs |
| Stats.PercentBack | kata/stats.go:100-105 | Percentage times elapsed time is the gain of the counter, or nothing if it did not grow |
| Stats.TaskStats | kata/driver.go:609-646 | One usage for each successful reading, taken against the successful reading before it |
| Stats.UsageTimes | kata/stats.go:83-105 | Each usage has its reading's time; a percentage is zero exactly for the first reading, one that is not later than the one before, and a counter that has not grown |
| Stats.AccountedFor | kata/stats.go:84-105 | With later and later timestamps the percentages account for last minus first plus all drops |
| Stats.UsageConserved | kata/stats.go:84-105 | They account for exactly last minus first if and only if the counter never went back |
| Resolv.FilterResolvConf | kata/driver.go:730-744 | The loop filters every line, and its flag is true exactly when a kept line is a nameserver that is not a loopback |
| Resolv.EachLine | kata/driver.go:730-744 | Each line is dropped or survives by itself and in its place; comments, empty lines, and nameserver lines without an address or with a loopback address are dropped, and nothing else, so search and options lines survive |
| Resolv.FilterFixpoint | kata/driver.go:730-744 | Filtering the printed output again returns the same lines |
| Resolv.NoLoopback | kata/driver.go:733-741 | No kept line is blank, a comment, untrimmed or a loopback nameserver |
| Resolv.NameserverLine | kata/driver.go:734-739 | A nameserver line counts exactly when its address is not a loopback |
| Resolv.HostResolvConf | kata/driver.go:716-728 | The first usable file, or the fallback; always with a usable nameserver |
| Resolv.ChosenFixpoint | kata/driver.go:714-728 | A file written from the result is chosen before others and gives the same lines |

## Left out

- Containerd's gRPC calls, image pulling, OCI specs, exec and streaming, garbage collection: only the contracts above are kept; image calls are success or failure.
- Containerd.Client.DeleteContainer: the error the call can return is not modelled; the driver ignores it, and the model takes the deletion to succeed.
- Containerd.Client.DeleteSandboxMetadata: the same.
- Cleanup calls are likewise taken to succeed, and killing and deleting a task is one step.
- Container IDs are structured values in the machine and the classes; `Names.RenderInjective` and `Isolation.PrintedStoreFaithful` say when printing them is harmless.
- Driver.Driver.StartTask: its preparations (image, files, mounts, devices, environment, the bootstrap rewrite) are one step that succeeds or fails, and so is decoding with the check for an image.
- Driver.Driver.RunGoroutine: in the class a goroutine stands still only before it begins and while its task is in progress; every other interleaving with calls is in the machine.
- Host.Record: deletions and clean-up calls are not recorded, because the driver ignores what they return.
- Real time in StopTask and DestroyTask: a timeout is a choice; StopTask and SignalTask are the step in which a task exits.
- The reaping of processes after a death is one step of the machine that may fail; `Reaper` models it by itself.
- Allocations for which nothing is recovered after a restart: their old sandbox container stays behind, and the machine records it as stale.
- What recovery does with an encoded driver state that cannot be read.
- Bootstrap.RewriteEnvoyBootstrap: whether file and address have a valid form and whether the file can be written are parameters; JSON text and the precision of its numbers are not modelled, and a document is built by a decoder of this project.
- Stats.TaskStats: memory and throttling fields are copied and left out; percentages are over reals, so rounding is not modelled; the ticker and cancellation are any finite list of readings.
- Resolv.FilterResolvConf: text is a sequence of characters, so input that is not valid UTF-8 is not modelled.
- Reaper.Kernel.Poll: a poll that blocks longer than asked for is excluded.
- Fingerprint, configuration schemas, the image garbage collector, Docker credentials, logging, hosts files, port and network mapping: they would only add easy members.
