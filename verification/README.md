# eyedbg: a verified model

This project models the parts of eyedbg that keep hard guarantees over unbounded
state, and proves those guarantees in Dafny 4.11. eyedbg is a debugger front end.
It builds .NET services of a docker compose stack on the host and launches them
under a debugger inside their containers ("fast mode"). That needs a lock per
compose project, an in-place mirror of build output, a staged workflow over
containers and files in which any outside call may fail, and several scanners and
parsers that decide what is safe to evaluate, print or replace.

Check everything with `dafny verify dfyconfig.toml`.

| file | part of eyedbg |
|---|---|
| `ComposeLock.dfy` | the lock file protocol, as atomic steps of any number of runs |
| `Mirror.dfy` | making one directory tree equal another, on a map of paths |
| `LaunchOrder.dfy` | the stage order of a launch, as a predicate on what a run asked for |
| `FastMode.dfy` | containers, override file, build directories; the run's cached records |
| `Launch.dfy`, `Restore.dfy` | the two runs, stage by stage |
| `Lifecycle.dfy` | any sequence of runs over one project |
| `Carry.dfy` | breakpoints and exception modes carried over, launch batches |
| `SideEffects.dfy`, `Guard.dfy` | the two one-pass side-effect scanners |
| `Template.dfy` | manifest templates: scanning, checking, rendering |
| `Wire.dfy` | messages as lines over a stream |
| `EscapeC1.dfy` | escaping C1 control characters in JSON output |
| `ProjectSearch.dfy` | the project search and its mount check |
| `Registry.dfy` | loading adapter manifests |
| `Retention.dfy` | artifact names and pruning |
| `Sorting.dfy`, `Grouping.dfy`, `Text.dfy`, `Wrappers.dfy` | shared helpers |

How the main results are stated:

* **Lock.** A state has the directory, the files, each run's program counter and
  the clock; a step is one file system call of one run, a tick or a crash.
  `Behaviour(tr, sts)` is any interleaving. Whether two different files happen to
  have the same inode number is an open choice of each read step, so nothing can
  depend on it.
* **Mirror.** A disk records its history: the tree after every single change. Every
  method may fail at every call, and every tree of the history is shown safe.
* **Lifecycle.** `World` is docker and the disk, with nondeterministic outcomes. It
  keeps the set of containers made from the override, the services whose record is
  lost, the log of what a run asked for (with the daemon's list of sessions, what
  was built and from what files containers were recreated), and the looks: every
  inspection and read with how it ended, and every rewrite of the override with the
  records it left out. Only `World`'s methods add looks, and all events but those of
  services that a launch takes out. The runs are classes with the fields of the
  source's structs. Safety is proved for any outcome of every call. Progress is proved
  for a world that is `smooth`, in which every call succeeds (a constant of the world,
  which no run can set): there a launch launches every service whose containers can
  be launched in (`AllLaunchable`), and a restore restores every service it picks.
* **Scanners.** Each has a lexer and a judgement on the token list; the one-pass
  scanner is shown to report the first finding. Its small summaries (paren stack,
  previous token) are shown to be what the judgement asks for, bracket counting
  included.

Where documentation and code differ, the model follows the code: the comment on
`listDir` in `internal/artifacts/mirror.go` (line 249) says the names are sorted,
but they are not, so the mirror is proved for any order of names.

Three properties do not hold without a condition; each has a witness and its exact
condition:

* Exclusion under the lock can be lost (`ExclusionCanFail`). However the environment
  lets time pass, runs die and calls fail, it holds in all behaviours if and only if
  the lock can never be taken over: at no time is it older than its maximum age and
  complete, or being written by a live run (`ExclusiveExactly`; from every reachable
  state in which it can be, some continuation loses exclusion, `TakeableLoses`). That
  is also if and only if no rename ever moves the lock of a run still inside.
* The record of a container in fast mode can be lost (`FailedInspectionLosesRecord`,
  `FailedReadLosesRecord`). A rewrite of the override keeps it if and only if the
  inspection of its service's container, the read of the override and that of its
  build directory succeeded (`RewriteKeeps`), and nothing else loses one (`AnyRuns`).
* The breakpoint key can name two places, and a launch then drops one of two --bp
  (`FirstIsDropped`). Places in two absolute files can have one key if and only if one
  file's name starts with the other's and an @ (`KeysCollide`), and the last --bp of a
  place is kept if and only if no later one's key collides with its (`KeptExactly`).

## Model

| member | source | states |
|---|---|---|
| ComposeLock.AlwaysWellFormed | internal/artifacts/compose.go:419-582 | In every state of every interleaving each line was given to one file only, a file's content is a prefix of its creator's line, and each run's removal is about a complete line that its file carries |
| ComposeLock.ExclusiveUnlessRaced | internal/artifacts/compose.go:526-538 | At most one run is between its exclusive create and the start of its unlock, unless an earlier rename moved the lock of a run still inside |
| ComposeLock.ExclusiveWhenTimely | internal/artifacts/compose.go:428-453 | When no lock that is complete, or that its live run is still writing, is ever older than the maximum age, there is exclusion, nothing is taken over and no rename races |
| ComposeLock.ExclusiveExactly | internal/artifacts/compose.go:428-453 | The exact condition, for every environment that lets runs go on: all behaviours are exclusive if and only if in none of them the lock is too old and complete or about to be, and if and only if in none of them a rename moves the lock of a run still inside |
| ComposeLock.TakeableLoses | internal/artifacts/compose.go:443-453 | From every reachable state in which the lock can be taken over some continuation has two runs inside |
| ComposeLock.RaceLoses | internal/artifacts/compose.go:531-538 | After every rename that races some continuation has two runs inside |
| ComposeLock.RaceNeedsStaleLock | internal/artifacts/compose.go:534-538 | Every race was preceded by a run that found a lock older than the maximum age |
| ComposeLock.QuietUntilStale | internal/artifacts/compose.go:443-449 | Until some run finds a stale lock no run is taking one over and no rename has raced |
| ComposeLock.RemoveLockIsHonest | internal/artifacts/compose.go:539-567 | removeLock answers true only after removing a file whose whole, complete content was the wanted line; any other file it moved is back at the lock name, or another run's file holds that name, unless its run is still at it or died |
| ComposeLock.AbortIsSafeUnlessRaced | internal/artifacts/compose.go:476-481 | The remove after a failed write takes away the run's own file, unless a rename raced |
| ComposeLock.LineTellsFile | internal/artifacts/compose.go:400-404 | Two files that carry the same complete line are one file: tokens tell locks apart, identities are not needed |
| ComposeLock.CompletePrefix | internal/artifacts/compose.go:517-521 | A lock being written is never one complete line: only the whole line is |
| ComposeLock.OwningIsExclusive | internal/artifacts/compose.go:465-468 | Runs that are inside and each own the file at the lock name are one run |
| ComposeLock.ExclusionCanFail | internal/artifacts/compose.go:531-538 | The residual race is real: a lock merely held too long ends, by an interleaving of atomic calls, with two runs inside |
| Mirror.Mirror | internal/artifacts/mirror.go:70-113 | Success makes the destination hold exactly the source's paths with images of its entries; before the scan ends nothing changed and no history was made; after it every state of the history is safe, whatever failed; only a fit source gets that far |
| Mirror.FilesAreWhole | internal/artifacts/mirror.go:341-392 | In every safe state the path of a source file holds nothing, its old entry or the whole new file, unless its own name is like a temporary file's |
| Mirror.OutsideIsUntouched | internal/artifacts/mirror.go:60-64 | In every safe state everything outside the destination is as it was, so nothing behind a symlink changes |
| Mirror.MirrorsAgain | internal/artifacts/mirror.go:54-68 | Mirroring a mirrored tree again ends in the same tree |
| Mirror.ScanTree | internal/artifacts/mirror.go:157-165 | A scan that succeeds recorded exactly the source's paths with their kinds and exec bits, parents first; the source has only directories and regular files, local names that differ by more than case where that matters, and keeps both bounds |
| Mirror.Scanner.CheckName | internal/artifacts/mirror.go:195-215 | A name is taken exactly when the entry bound holds and the directory's names so far with it are local and, on a folding host, differ by more than case |
| Mirror.Scanner.Walk | internal/artifacts/mirror.go:168-191 | Everything below a directory is recorded, and nothing else is added |
| Mirror.Scanner.Visit | internal/artifacts/mirror.go:218-238 | An entry and all below it are recorded; anything but a directory or a regular file fails |
| Mirror.PruneDst | internal/artifacts/mirror.go:274-287 | Exactly the entries stay that match the source's kinds on the whole way down from the directory; values do not change; at every state before, after or on failure the tree is safe |
| Mirror.PruneEntry | internal/artifacts/mirror.go:290-316 | One entry is entered, kept or taken away by its own kind and the source's |
| Mirror.PrunesOneMore | internal/artifacts/mirror.go:280-284 | Pruning a directory's names one by one, in any order, prunes the directory |
| Mirror.Disk.RemoveAll | internal/artifacts/mirror.go:304-307 | A subtree goes leaf by leaf, every state on the way being safe |
| Mirror.EnsureDstDir | internal/artifacts/mirror.go:320-339 | The directory is there as a real one with mode 0755, and nothing else changed |
| Mirror.CopyFileTo | internal/artifacts/mirror.go:343-392 | Success changes exactly the target, to the source's bytes with mode 0644 or 0755, and leaves no temporary file |
| Mirror.FillTemp | internal/artifacts/mirror.go:365-385 | Partial data is only ever in the temporary file, whatever the pieces are |
| Mirror.Disk.CreateTemp | internal/artifacts/mirror.go:396-421 | A fresh, empty file with a temporary name, created exclusively, in at most five tries |
| Mirror.MakeDirs | internal/artifacts/mirror.go:100-104 | Directories come after their parents, so no mkdir meets a missing one |
| Mirror.FileHasParent | internal/artifacts/mirror.go:106-110 | Every file's directory is there before it is copied, and its target is absent or a regular file |
| Mirror.SourceIsOutside | internal/artifacts/mirror.go:117-138 | When neither directory is in the other, no source path is under the destination |
| LaunchOrder.PhasesInOrder | internal/cli/compose_launch.go:411-447 | A corollary: in a run's log all builds come before all stops, those before all replacements, recreates and launches |
| LaunchOrder.StopsAfterBuild | internal/cli/compose_launch.go:411-416 | What is stopped is a session the daemon listed as a live one of the service, read before, and only after the service's own project and assembly were built, or its last build was found |
| LaunchOrder.ReplacesAfterStops | internal/cli/compose_launch.go:411-416 | A service's files are replaced only after every session that the daemon listed as a live one of it was stopped |
| LaunchOrder.ReplacesWithOwnBuild | internal/cli/compose_launch_steps.go:518-534 | The files put in place are those that the one build of the service's own project and assembly left, in a directory that no other build was given |
| LaunchOrder.RecreatesAfterReplace | internal/cli/compose_launch.go:441-443 | A corollary: a container is recreated only after its service's own files were replaced |
| LaunchOrder.LaunchesLast | internal/cli/compose_launch.go:414-415 | An app is launched last, on replaced files, and in a recreated container when its service was entering fast mode |
| LaunchOrder.FailedStaysFailed | internal/cli/compose_launch.go:384-409 | A corollary: a service that failed or was taken out is never changed again in the run |
| LaunchOrder.OnceEach | internal/cli/compose_launch.go:411-447 | In one run a service is in at most one build, one recreate and one launch request |
| LaunchOrder.QuietOfListed | internal/cli/compose_launch.go:456-475 | The sessions are listed once: a service that has its sessions stopped has those of the daemon's one list stopped |
| LaunchOrder.LiveSessionsOf | internal/cli/compose_stack.go:386-403 | The sessions of the project's service that are neither exited nor lost |
| FastMode.Stack.RecordedFast | internal/cli/compose_stack.go:297-304 | The cached answer is that of the override file as it is now, and no when the read failed |
| FastMode.Stack.WriteOverride | internal/cli/compose_stack.go:308-312 | A write drops the cache; the file is all of the fragments or unchanged |
| FastMode.Stack.FragmentOf | internal/cli/compose_stack.go:322-334 | The fragment of corroborated labels with a build directory, exactly when the inspection, the read of the override and that of the directory succeeded; else none |
| FastMode.Stack.StayingFragments | internal/cli/compose_stack.go:340-358 | One fragment a service; a container the override made has one with its own labels exactly when they are recorded and its service was seen in this call |
| FastMode.RewriteKeeps | internal/cli/compose_launch_steps.go:587-604 | The exact condition: after the entering and the staying fragments are written a container the override made is recorded if and only if it was before and its service was seen (inspection, override and directory were read) |
| FastMode.MadeHasFragment | internal/cli/compose_stack.go:322-334 | A container the override made has a fragment exactly when it is recorded and was seen |
| FastMode.FileRecords | internal/container/override.go:182-201 | The file records labels exactly when they are those of one of its fragments |
| FastMode.Stack.Prune | internal/cli/compose_stack.go:239-261 | Build directories of made containers stay; the override goes only when the override made no container that is left; nothing goes after a failed recreate |
| FastMode.Stack.HoldsMounted | internal/cli/compose_stack.go:267-278 | A directory said to hold nothing mounted has no override and no build |
| FastMode.World.WriteOverride | internal/container/override.go:112-145 | One to 64 services, no name twice, every build directory there; all or nothing |
| FastMode.FileHas | internal/container/override.go:182-201 | The file records of each service what its fragment says |
| FastMode.UpKeeps | internal/container/recreate.go:128-136 | Whatever a recreate may leave keeps the stack in step; no record is lost, and after a success what is new is recorded |
| Launch.LaunchRun.Run | internal/cli/compose_launch.go:268-286 | Whatever calls fail: the run's log is in order (what was built is each service's own, what was stopped is the daemon's list), each service ends with exactly one of session, error or skip, a launched one has all stages behind it, its own project and assembly built, and was launched with what its own sessions told; the stack is left in step, and a record is lost only by a rewrite after a failed read. When no call fails and all services can be launched, every one has a session |
| Launch.LaunchRun.Execute | internal/cli/compose_launch.go:417-447 | The stages in order, the daemon's sessions listed before the stack changes; without an error that ends the run every service still in it has a session, and no such error when no call fails |
| Launch.LaunchRun.FailLive | internal/cli/compose_launch.go:402-409 | Every service without a session is out afterwards |
| Launch.LaunchRun.Refuse | internal/cli/compose_launch.go:387-400 | Skipped when no service was named and the refusal is about the service, else failed |
| Launch.LaunchRun.Classify | internal/cli/compose_launch_steps.go:36-63 | What stays live has its service to itself, and what enters fast mode has none of the override's containers; nothing but services taken out is in the log. When no call fails and all can be launched all stay, and exactly those not in fast mode enter it |
| Launch.LaunchRun.CheckKind | internal/cli/compose_launch_steps.go:105-152 | A container accepted as entering is not of a service the override made a container of, whatever could not be read: its entrypoint is an app's, not the idle command. One that can be launched in is accepted when no call fails |
| Launch.LaunchRun.AsBuilt | internal/cli/compose_launch_steps.go:184-201 | Accepted exactly with an exec-form entrypoint, no arguments and a usable working directory |
| Launch.IgnoredIsFresh | internal/cli/compose_launch_steps.go:124-133 | Labels that are not corroborated cannot belong to a container the override made, unless its service's record was lost |
| Launch.LaunchRun.Build | internal/cli/compose_launch_steps.go:361-421 | Each build is of one project and assembly for exactly the live services that run them, and fails exactly those; every live service has its build, unless nothing was built and all are out |
| Launch.OncePart | internal/cli/compose_launch_steps.go:450-473 | The next group's build, recreate or request is the first of its services and of its key |
| Launch.AllMet | internal/cli/compose_launch_steps.go:609-645 | After all groups each service's own build or recreate is in the log, for all services of its key, and its failure took out exactly those |
| Launch.LaunchRun.CheckNoBuild | internal/cli/compose_launch_steps.go:478-491 | Without a build only services already in fast mode with something built stay |
| Launch.LaunchRun.CarryAndStop | internal/cli/compose_launch_steps.go:499-513 | What stays has every live session of the daemon's list read and stopped, and carries what they told; a session that refuses fails its service |
| Launch.CarriesKnown | internal/cli/compose_launch_steps.go:499-513 | When the sessions are ended what a service carries is settled: a breakpoint of exactly the keys its sessions listed and that are carriable, and of the caller's modes the one that stops at the most |
| Launch.TellsOne | internal/cli/compose_launch_carry.go:97-124 | One more session's answers keep every service's carry what its own sessions told |
| Launch.LaunchRun.MirrorAll | internal/cli/compose_launch_steps.go:518-534 | What stays has its files replaced with what its own build left (or nothing was built), in a directory that is there |
| Launch.MirrorActs | internal/cli/compose_launch_steps.go:523-532 | Replacing a live service's files with its staged build keeps the run in order; done, the service is ready to be recreated |
| Launch.LaunchRun.Recreate | internal/cli/compose_launch_steps.go:540-575 | What enters idles in fast mode with this override, as last inspected, or is out of the run; a record is lost only by the rewrite, after a failed read |
| Launch.LaunchRun.WriteFragments | internal/cli/compose_launch_steps.go:553-571 | After the write a container the override made is recorded exactly when it was before and its service was seen, and every entering service is recorded; a write that fails changes nothing, and none fails when no call does and there is room |
| Launch.CanBeWritten | internal/container/override.go:112-145 | The fragments of services with a build directory and a project, and those staying, are an override that can be written when it has room for them |
| Launch.LaunchRun.Up | internal/cli/compose_launch_steps.go:609-645 | Each entering service is in a recreate from its own directory and files, with all others of the same, once; a failure takes out exactly that recreate's services |
| Launch.LaunchRun.RefreshOne | internal/cli/compose_launch_steps.go:673-700 | A service stays exactly when one listed container is its own and one inspection found it running idle with this override; it is what is launched in |
| Launch.OneMadeIsListed | internal/cli/compose_launch_steps.go:673-684 | The one container a recreate left of a service is the one that is listed, and idles with this override |
| Launch.LaunchRun.LaunchAll | internal/cli/compose_launch_carry.go:215-221 | Every live service is in a launch request with exactly its own breakpoints and mode, once, and ends with a session or an error |
| Launch.AllAsked | internal/cli/compose_launch_carry.go:224-240 | The requests of the batches are requests of each service's own breakpoints, sorted, and mode |
| Launch.AllOwn | internal/cli/compose_launch_carry.go:138-160 | Each service still in the run was asked for with the --bp and what its own sessions told, and nothing else |
| Launch.LaunchRun.Answered | internal/cli/compose_launch_carry.go:258-268 | A service launches exactly when the answer has a session and no error |
| Restore.RestoreRun.Pick | internal/cli/compose_restore.go:271-295 | Exactly the named services or, with none named, those in fast mode, once each and sorted; skipped exactly when not in fast mode, else with a listed container of its own |
| Restore.PicksListed | internal/cli/compose_restore.go:271-295 | What is picked is exactly the named services, or all that have a container with fast-mode labels; skipped are exactly those without one |
| Restore.RestoreRun.Inspect | internal/cli/compose_restore.go:324-347 | What stays is recreated from the directory and files its container's labels name, without the override |
| Restore.RestoreRun.StopSessions | internal/cli/compose_restore.go:352-388 | What stays has every live session of the daemon's list ended, or there is no daemon; a session that refuses fails its service, and nothing else does |
| Restore.RestoreRun.Up | internal/cli/compose_restore.go:393-434 | Each service in the run is restored or failed; a restored one has no container made from the override and was recreated once, from its own files, after its listed sessions ended |
| Restore.RecreatesAfterStops | internal/cli/compose_restore.go:243-262 | A service is recreated only after every session that the daemon listed as a live one of it was stopped |
| Restore.RestoreRun.RewriteOverride | internal/cli/compose_restore.go:458-470 | After the rewrite a container the override made is recorded exactly when it was before and its service was seen |
| Restore.RestoreRun.Run | internal/cli/compose_restore.go:148-160 | Whatever calls fail the log is in order and the stack is left in step; each service ends skipped, failed or restored, a restored one by a recreate of its own; a record is lost only by a rewrite after a failed read; eyedbg's files go only when a container was found or nothing could be mounted. When no call fails and the containers' labels say what they are made from, every picked service in fast mode is restored, and with none named no container the override made is left |
| Restore.NoneMade | internal/cli/compose_restore.go:393-434 | When every service in fast mode is restored no container that the override made is left |
| Lifecycle.AnyRuns | internal/cli/compose_stack.go:233-358 | Over any sequence of launches, restores and others' changes, every container the override put in fast mode has its build directory, and its labels are corroborated exactly when its service's record is not lost; a record is lost only by a rewrite in a run in which reading the service's container or directory or the override failed before |
| Lifecycle.FailedInspectionLosesRecord | internal/cli/compose_stack.go:322-326 | After a failed inspection the service has no fragment, and the override written for another loses its record; seen, it has one |
| Lifecycle.FailedReadLosesRecord | internal/cli/compose_stack.go:297-304 | The same after a failed read of the override, which is kept for the run |
| Carry.AddBreakpoint | internal/cli/compose_launch_carry.go:27-31 | One breakpoint a key, the first one stays |
| Carry.AddMode | internal/cli/compose_launch_carry.go:48-52 | The mode that stops at the most |
| Carry.Capture | internal/cli/compose_launch_carry.go:97-124 | Keys kept are those had and those listed and carriable, the first of each; the mode is the highest of the client's own; what could not be read changes nothing |
| Carry.BreakpointsFor | internal/cli/compose_launch_carry.go:138-160 | One breakpoint a key: the last --bp of each key and exactly the settable carried ones no --bp overrides; the rest are counted as dropped |
| Carry.CarriedIs | internal/cli/compose_launch_steps.go:711-714 | The number the output calls carried is that of the breakpoints the service launches with that no --bp asked for, plus the settable ones a --bp took the place of |
| Carry.Batches | internal/cli/compose_launch_carry.go:178-211 | Each service is in exactly one batch, which carries exactly its own breakpoints, sorted, and its mode; two batches differ |
| Carry.TogetherWhenSame | internal/cli/compose_launch_carry.go:193-207 | Two services launch together exactly when their breakpoints, as a set, and mode are the same |
| Carry.OneOrder | internal/cli/compose_launch_carry.go:193 | Sorted by distinct keys the same breakpoints make the same list |
| Carry.KeysCollide | internal/cli/compose_launch_carry.go:54-65 | Places in two absolute files can have one key exactly when one file's name starts with the other's and an @ (line 3 of x@y and the text y:3 in x) |
| Carry.KeysTellPlaces | internal/cli/compose_launch_carry.go:54-65 | Two keys are equal exactly when both name one function, one file and line, or one file and text, unless one file's name starts with the other's and an @ |
| Carry.FirstIsDropped | internal/cli/compose_launch_carry.go:149-157 | Of two --bp of different places whose keys collide the first is dropped |
| Carry.KeptExactly | internal/cli/compose_launch_carry.go:149-157 | The last --bp of a place is kept exactly when no later one is of another place with its key |
| Carry.LastOfPlaceIsKept | internal/cli/compose_launch_carry.go:149-157 | The last --bp of a place is kept when no later one's file and its own start one with the other and an @ |
| Grouping.GroupBy | internal/cli/compose_launch_steps.go:453-473 | Every index is in a group, groups are those of one key, in order of first appearance |
| Grouping.SameGroup | internal/cli/compose_launch_steps.go:450-452 | Two services share a group exactly when their keys are equal, and a service is in one group only |
| SideEffects.FindSideEffects | drivers/dotnet/sideeffects.go:22-32 | The scan reports the first finding of the token list, strings and comments skipped |
| SideEffects.FoundWhen | drivers/dotnet/sideeffects.go:16-21 | Something is found exactly when the tokens hold new, ++ or --, an interpolated string, an assigning = or a calling ( |
| SideEffects.OneFirst | drivers/dotnet/sideeffects.go:25-29 | There is only one finding to report |
| SideEffects.SummaryIsJudged | drivers/dotnet/sideeffects.go:34-66 | What the scan keeps (previous token, open generics, open parens, castClose) is what the judgement asks of the tokens |
| SideEffects.CastCloseCounts | drivers/dotnet/sideeffects.go:46-50 | castClose holds exactly when the ) just read matches, by bracket counting, a ( enclosing only identifiers and dots, at least one |
| SideEffects.CloseStep | drivers/dotnet/sideeffects.go:272-280 | A closing parenthesis pops the one it matches, whose flags say whether it is a cast |
| SideEffects.CalleeIs | drivers/dotnet/sideeffects.go:295-308 | What a ( calls by the scan's fields is what it calls by the tokens |
| SideEffects.FindingLocal | drivers/dotnet/sideeffects.go:68-92 | What a token shows depends only on the tokens up to it, so one pass is enough |
| SideEffects.TokenAt | drivers/dotnet/sideeffects.go:69-117 | A token starts where it was read, ends after it and within the text |
| SideEffects.Scanner.SkipSpace | drivers/dotnet/sideeffects.go:144-172 | White space and comments are skipped to their end, and only they are |
| SideEffects.Scanner.Equals | drivers/dotnet/sideeffects.go:312-341 | An = is read as its token, or is reported as the assignment the judgement sees |
| Guard.Check | drivers/generic/guard.go:78-88 | The scan reports the first finding of the token list, for any guard and text; reads stay in bounds |
| Guard.CallsWhen | drivers/generic/guard.go:165-181 | A ( calls exactly after a closer or a name that is not exempt; a safe name after a . is not |
| Guard.CalleeIsKept | drivers/generic/guard.go:64-75 | The remembered kind, name, dotted and last character answer what the judgement asks of the token before |
| Guard.LastIsDot | drivers/generic/guard.go:71-74 | The last character is a . exactly after a . or a string quoted with it |
| Guard.Scanner.SkipString | drivers/generic/guard.go:185-206 | Ends exactly where the string does, tripled quotes to the matching triple, or reports that it does not end (a trailing backslash included) |
| Guard.Scanner.Operator | drivers/generic/guard.go:246-255 | The whole run of operator characters |
| Guard.Assignment | drivers/generic/guard.go:235-243 | An operator is found exactly when one is all of the run or is followed in it by something other than = |
| Template.Scan | internal/adapters/template.go:102-134 | Success gives the canonical pieces that print the string; failure means no canonical pieces print it |
| Template.ScanPrints | internal/adapters/template.go:101-134 | Printing a successful scan gives the string back |
| Template.PrintScans | internal/adapters/template.go:101-134 | Scanning printed canonical pieces gives those pieces |
| Template.ExactRef | internal/adapters/template.go:137-144 | A reference exactly when the string is ${name} with a variable name |
| Template.AcceptedIsShown | internal/adapters/template.go:163-213 | In an accepted template with variables of the declared kinds every interpolated set variable is a string or an integer, at any nesting, and every string was scanned |
| Template.ParseKeeps | internal/adapters/template.go:260-275 | Reading the references of a template loses nothing of it |
| Template.Render | internal/adapters/template.go:234-244 | Rendering is single-pass substitution on the template's references, read once |
| Template.RenderValue | internal/adapters/template.go:260-275 | The same for one value, at any nesting |
| Template.RenderList | internal/adapters/template.go:277-299 | The same for arrays, lists spliced in |
| Template.Interpolate | internal/adapters/template.go:320-344 | Text with each reference shown in its place |
| Template.FieldsThatStay | internal/adapters/template.go:229-232 | Exactly the members that are exact references to unset variables disappear; others of that form have the variable's typed value |
| Template.ItemsInOrder | internal/adapters/template.go:277-299 | Arrays are rendered item by item, in order |
| Template.ListsAreSpliced | internal/adapters/template.go:283-289 | A list variable adds its strings, one by one |
| Template.ValuesStayWhole | internal/adapters/template.go:326-343 | A value stands whole between what is before and after it, whatever it looks like |
| Template.FillReadsNamesOnly | internal/adapters/template.go:260-344 | Rendering depends only on variables the template names: what a value holds is never looked up |
| Wire.Conn.ReadLine | internal/api/wire.go:146-168 | However the buffer cuts the stream: the first line without its newline and one carriage return, too long, or the end; and exactly that line is consumed |
| Wire.Conn.Write | internal/api/wire.go:171-186 | A body below the bound is sent as one line, a longer one is not sent |
| Wire.TooLongIs | internal/api/wire.go:151-153 | Wherever the bound is noticed the line is too long by itself |
| Wire.ReadBackWhen | internal/api/wire.go:142-186 | A written body is read back unchanged exactly when it is below the bound, has no newline and does not end in a carriage return |
| Wire.RoundTrip | internal/api/wire.go:103-186 | Any sequence of such bodies is read back, unchanged and in order |
| Wire.ReadAll | internal/api/wire.go:123-140 | Reading until the end gives exactly the stream's lines |
| EscapeC1.EscapeAll | internal/cli/daemon.go:398-413 | The loop is the rewrite of each character in turn |
| EscapeC1.NoC1Left | internal/cli/daemon.go:392-397 | The output decodes to no character from U+0080 to U+009F |
| EscapeC1.FirstStays | internal/cli/daemon.go:405-407 | Every other character, an ill-formed byte included, is copied and decodes the same in the output |
| EscapeC1.OthersStay | internal/cli/daemon.go:402-410 | Text without C1 characters is unchanged |
| EscapeC1.Idempotent | internal/cli/daemon.go:398-413 | Escaping twice is escaping once |
| EscapeC1.KeepsStrings | internal/cli/daemon.go:392-404 | The value of every well-formed JSON string, in UTF-16 code units, is kept |
| EscapeC1.SplitsAt | internal/cli/daemon.go:398-413 | Escaping splits at every byte below 0x80, whatever comes before it |
| EscapeC1.StringsInside | internal/cli/daemon.go:392-413 | A well-formed string inside a document stays between its quotes with its value, the rest being escaped on its own |
| EscapeC1.DecodesEncoded | internal/cli/daemon.go:402 | Decoding is the inverse of encoding every Unicode scalar value |
| EscapeC1.RunStays | internal/cli/daemon.go:401-410 | Escaping neither makes nor removes the continuation bytes a text starts with |
| ProjectSearch.FindContainerProject | drivers/dotnet/fast.go:69-107 | A project is returned exactly when the checks pass and one uncovered match is found; it is the only one, and no directory on its whole way is a source a container can write |
| ProjectSearch.ChecksCompose | drivers/dotnet/fast.go:82-136 | The root's check up to the file system root and a file's up to the root together check the whole way |
| ProjectSearch.Covering | drivers/dotnet/fast.go:224-242 | A source is found exactly when one is the path or a directory above it, down to the stop, by path or as the same file |
| ProjectSearch.Unseen | drivers/dotnet/fast.go:210-218 | None exactly when every source with a spelling exists here under one |
| ProjectSearch.Search.Walk | drivers/dotnet/fast.go:120-144 | Finishes exactly within the limit, and sorts the matches into found and written by the mount check, in order |
| ProjectSearch.MatchesMean | drivers/dotnet/fast.go:120-144 | The matches are exactly the regular files of the project's name reached through readable directories that are not skipped |
| Registry.Registry.Load | internal/adapters/registry.go:84-111 | What is loaded is exactly the kept user manifests (fit, and sharing no name or language) and the fit bundled ones that none of them replaces; every parsed manifest is loaded, reported or replaced once; at most one a name and a language exactly when those bundled ones are distinct; sorted by name |
| Registry.Registry.Admit | internal/adapters/registry.go:307-327 | Exactly the manifests whose language fits the Go drivers are kept, the others reported |
| Registry.Registry.DropConflicts | internal/adapters/registry.go:331-358 | What is kept is distinct by name and language; every conflicting one is reported |
| Registry.Supersede | internal/adapters/registry.go:90-104 | Each bundled manifest stays or is replaced by one user manifest that has its name or language |
| Registry.ConflictsGone | internal/adapters/registry.go:329-330 | Leaving out what shares a name or language leaves no two that do |
| Registry.Registry.Resolve | internal/adapters/registry.go:143-149 | The manifest of the name, else of the language, else none |
| Registry.ResolvesToOne | internal/adapters/registry.go:46-51 | With at most one a name and a language, what a string resolves to is one manifest |
| Retention.TypeInMeans | internal/artifacts/artifacts.go:47-67 | The recorded type of a name is the type of its pattern's form, both ways |
| Retention.MadeNameIsRead | internal/artifacts/artifacts.go:113-132 | A name that was made gives back the type it was made with and is never a scratch name |
| Retention.FreshName | internal/artifacts/artifacts.go:191-209 | A name of the form, recognised, with nothing at it |
| Retention.Dir.Prune | internal/artifacts/artifacts.go:234-275 | Of the names that can be looked at exactly those to take are gone, but for those the file system won't remove; the rest of the directory is unchanged, and the removed names are given back, once each |
| Retention.Dir.List | internal/artifacts/artifacts.go:284-312 | Exactly kind's artifacts and scratch files are listed that are regular and can be looked at; none when the directory can't be read |
| Retention.LeavesExactly | internal/artifacts/artifacts.go:227-275 | When nothing is in the way a prune leaves of the artifacts exactly the protected one and those not too old among the newest keep, of the scratch files exactly the young ones and the protected one, and everything else |
| Retention.LeavesFew | internal/artifacts/artifacts.go:227-233 | Of the artifacts that can be looked at and removed a prune leaves at most keep and the protected one |
| Retention.TakesOwnOnly | internal/artifacts/artifacts.go:283-312 | Only regular files of eyedbg's names go, never the protected one |
| Retention.SecondTakesNothing | internal/artifacts/artifacts.go:227-233 | A second prune at the same time changes nothing, whatever is in the way |
| Retention.PlaceIsRank | internal/artifacts/artifacts.go:237-262 | Sorted newest first, an artifact's index is how many are newer |

## Left out

- Reading a lock that is not a regular file, and I/O errors: both are one failed read; opening the project directory is left out; the lock's text (pid and hexadecimal token) is any line of numbers (characters without a bound, so that fresh ones never run out) that ends with its one newline.
- The process clock is the directory's: a lock's age is measured on one clock.
- Mirror.Mirror: resolving the two directories (EvalSymlinks) comes before; the model's paths are resolved ones. File owners, times and hard links are not modelled, and nobody else writes during a run.
- Mirror.Scanner.Walk: why a scan fails is not told apart from an I/O failure, only that nothing was changed.
- Launch.LaunchRun.ResolveProjects: the order of --dotnet-project, label and search is one outside answer here; the search itself is ProjectSearch.
- Launch.LaunchRun.Settle: the check of each --bp is an outside answer, and so is whether a compose directory's links resolve.
- What is launched when some calls fail is stated service by service and stage by stage, not as a count; that every call succeeds is one constant of the world.
- Docker's containers change only through a run's own recreates while it runs; others' changes come between runs. A recreate makes all containers of a service alike (Twins), and leaves each old or new when it fails; a failed recreate that leaves some replicas of one service old and some new is not modelled.
- Reading a lock's private name back: the link back fails only when the lock name is taken, and the last remove of a moved lock succeeds (a name left behind is no run's any more).
- Whether two service names differ only in case (InKeep, fold) is a parameter; which compose files are eyedbg's own (OverrideAt) is an outside answer.
- Windows paths: an absolute file starts with a slash in the theorem on breakpoint keys.
- FastMode.UpKeeps: docker's compose up is this assumed contract; doubling of $ and the JSON of the override file are not modelled, labels are compared as compose reads them back.
- The stage directory, the build log, progress output, exit codes and the reading back of each --bp's outcome (verifyBreakpoints).
- Launches or restores on several docker engines (DOCKER_HOST) at once.
- Carry.Batches: the key is the pair of breakpoints and mode itself; the model takes json.Marshal to tell different pairs apart.
- SideEffects.FindSideEffects: best effort by design; property getters, indexers, overloaded operators and a delegate called through a parenthesised name are not seen by the source either.
- Guard.Check: Unicode's letters, digits, spaces and lower case are parameters; only that "." is none of these is assumed.
- Template.Render: JSON numbers, booleans and null are copied as they are; varKinds (which variables a manifest may use) is a parameter.
- Wire.Conn.Write: encoding and decoding of JSON are outside; bodies are byte sequences.
- ProjectSearch.FindContainerProject: reading the mounts (newMountSet) is outside; a spelling comes with its cleaned path and file identity. Error messages are reduced to their cases.
- Registry.Registry.Load: reading and parsing files (their trust checks too) come before; the final order of the problems is not stated.
- Retention.FreshName: the random bytes are any; the time comes formatted. Times are in seconds.
- Sessions, leases, event logs and the daemon itself, adapter discovery and download, help and rendering.
