# PhyAgentOS: proofs about its protocols and stores

PhyAgentOS drives robots through a Gateway. Its agent keeps one AgentTask at a time in a
transactional store, sends Queries, Actions and Sessions to the Gateway, and must stay truthful when
the process dies, the network fails or the Gateway answers nothing useful. Around that core it
switches Skill runtimes, installs Skill bundles, packages and extracts archives, consolidates
conversations, collects evidence, buffers chat messages and runs scheduled jobs. This project models
those parts and proves what they promise, over every input and every run.

## How the coordinator is modelled

`Protocol.dfy` gives every coordinator call as a script: the sequence of durable effects (store
transactions, requests to the Gateway, tracker writes) it performs for given answers of the outside
world. A crash, or a call abandoned by a process that lives on, leaves a prefix of that sequence.
`TaskInvariants.dfy` and `WorldInvariants.dfy` prove what every transaction and every prefix keeps;
`Runs.dfy`, `Dispatching.dfy`, `Retries.dfy`, `RetryLimits.dfy`, `BoundRuns.dfy`, `Ownership.dfy`, `LostCalls.dfy`
and `ToolFacts.dfy` prove properties of whole runs. `Facts.dfy` says in plain terms what statuses and replies mean;
in those terms, and without the scripts, `Starts.dfy`, `Reconciled.dfy` and `Outcomes.dfy` say what each finished
call leaves behind. `Coordinator.dfy` holds the store and the coordinator as mutable classes; a `fuse` counts the
durable effects the process lives to perform, and each method is proved to leave exactly the prefix of its script
that the fuse allows.
Calls are serialised, which the turn lock does for turns that arrive as messages and which is assumed
of all others; the answers of the Gateway, the verifier and the trackers are parameters of a call.

The other modules follow the same pattern: what fails is a parameter (`Faults`, `Removal`, `budget`,
`died`), the class works step by step as the source does, and the promises are postconditions of its
methods or lemmas about the function it is proved against.

| file | source |
|---|---|
| `Common.dfy` | shared values |
| `AgentTask.dfy`, `Protocol.dfy`, `TaskInvariants.dfy`, `WorldInvariants.dfy`, `Runs.dfy`, `Dispatching.dfy`, `Retries.dfy`, `RetryLimits.dfy`, `ToolFacts.dfy`, `Ownership.dfy`, `LostCalls.dfy`, `Facts.dfy`, `Starts.dfy`, `Reconciled.dfy`, `Outcomes.dfy`, `Coordinator.dfy` | `PhyAgentOS/forge/task.py` |
| `SkillBinding.dfy`, `BoundRuns.dfy` | `PhyAgentOS/forge/binding.py` |
| `Verdicts.dfy` | `PhyAgentOS/agent/session_verifier.py` |
| `RuntimeSwitch.dfy` | `PhyAgentOS/skill_runtime/integration.py` |
| `Installer.dfy` | `PhyAgentOS/skill_runtime/installer.py` |
| `ArchivePaths.dfy`, `Archives.dfy`, `Packaging.dfy` | `PhyAgentOS/skill_runtime/archive.py`, `scripts/package_skill.py` |
| `Consolidation.dfy` | `PhyAgentOS/agent/memory.py`, `PhyAgentOS/session/manager.py` |
| `Observation.dfy`, `Evidence.dfy` | `PhyAgentOS/forge/observation.py`, `PhyAgentOS/forge/evidence.py` |
| `DelayBuffer.dfy` | `PhyAgentOS/channels/mochat.py` |
| `Cron.dfy`, `CronRuns.dfy`, `CronPlans.dfy` | `PhyAgentOS/cron/service.py` |

## Where the code keeps less than was promised

Each of these comes with the condition under which the promise holds, and with a concrete run or input
wherever the promise is written down somewhere.

- An Action without a remote identity is never sent again: this needs a completed recovery before the
  next call whenever a call was not seen to its end. A turn stopped between POST and reply leaves a
  `pending` intent that the guard does not see (`RetryLimits.AbandonedCallRetries`). Stopping the session
  the task came from also cancels the task, which closes this way (PhyAgentOS/agent/loop.py:439-444); it
  stays open when the stopped turn belongs to another session, when the task has no origin session, and
  when the turn is a scheduled job whose timer is armed again. Without a binding resolver a padded Tool id
  is a second way, for it is stored stripped and compared unstripped (`RetryLimits.PaddedToolRetries`);
  with one there is no such way (`BoundRuns.NoBlindBoundRetry`). `Retries.RetryGuardExactly` gives the
  guard's exact condition.
- A one-shot job is fired by the timer at most once as long as no call arms the timer while the callback
  of such a job is awaited. Adding, removing or enabling another job, or a manual run that ends, arms the
  timer, cancels the running tick before the job is disabled, and the job is fired again
  (`CronRuns.JobFiresTwice`). The condition is exact (`CronRuns.InterruptionExactly`,
  `CronRuns.FiredOnceExactly`).
- `docs/forge/README.md` says that later observations do not rewrite a terminal Tool record. They do
  while the AgentTask is open (`ToolFacts.TerminalRecordRewritten`, `ToolFacts.SurvivesExactly`).
- Persisted ownership needs runs that lose no call (`Ownership.DeathLosesIdentity`). Each lost call costs
  one execution at most (`LostCalls.OwnershipDespiteLosses`), and `LostCalls.RecoveryRetracksExactly` says
  which of them recovery puts right.
- A rollback that restarts the previous runtime without its becoming ready leaves it running and
  unpublished; the next switch then runs a second one (`RuntimeSwitch.StrandedRuntimeDoubles`).
  `RuntimeSwitch.RunsStayExclusive` and `RuntimeSwitch.TwoRunExactly` give the exact conditions over runs.
- "Exactly one result for each success criterion" holds for criteria that are all distinct or all equal
  (`Verdicts.OneResultEachExactly`).
- `PhyAgentOS/session/manager.py` says consolidation does not modify the history output. It does unless
  no user message is skipped (`Consolidation.ConsolidationChangesHistory`, `Consolidation.HistoryMovesExactly`).
- A file named `.paos-manifest.json` at the root of a Skill makes packaging fail
  (`Packaging.PackagesExactly`).
- A removal whose deletion breaks off puts back what is left of the bundle (`Installer.SkillInstaller.Remove`).

## Model

| member | source | states |
|---|---|---|
| `Runs.RunInv` | PhyAgentOS/forge/task.py:354-1062 | After any run of calls, each finished, killed with the process or abandoned at any durable effect, every task is sound, at most one is open, every POST is backed by a record, and history was only extended. |
| `WorldInvariants.ScriptLegal` | PhyAgentOS/forge/task.py:394-1062 | Every call, whatever the Gateway, verifier and trackers answer, commits only transactions that are permitted in the state they meet. |
| `WorldInvariants.CutInv` | PhyAgentOS/forge/task.py:253-280 | The invariant holds after every prefix of a legal sequence of effects, so after a crash between any two of them. |
| `TaskInvariants.MutateSound` | PhyAgentOS/forge/task.py:511-1013 | Every closure committed to the store keeps ledger, budget, cancellation latch, meaning of success and record history. |
| `Runs.SingleActiveTask` | PhyAgentOS/forge/task.py:233-247 | In every reachable store at most one AgentTask is non-terminal. |
| `Runs.RevisionLedger` | PhyAgentOS/forge/task.py:528-546 | Revisions are numbered 1..n, the active one is the last, exactly the earlier ones are closed, and the task's verification attempts are those of its revisions in order. |
| `Runs.SuccessIsEarned` | PhyAgentOS/forge/task.py:884-1013 | A `succeeded` task has an execution; under off/audit every Query and Action succeeded; under enforce/recovery the verdict is `success` and is the active revision's. |
| `Runs.RecordsStayBound` | PhyAgentOS/forge/task.py:1079-1138 | Every record of a bound task carries the one binding id and a Tool id, semantics and digest that the binding lists. |
| `Runs.CancellationLatch` | PhyAgentOS/forge/task.py:827-914 | A requested cancellation leaves only cancelling, cancelled or failed, those two statuses imply the request, and a cancelled task has every Action cancelled or stopped. |
| `Runs.ReplanBudget` | PhyAgentOS/forge/task.py:953-974 | At most max_replans + 1 revisions ever; awaiting_replan implies recovery mode, a deadline and budget left. |
| `Runs.WaitingTaskResumes` | PhyAgentOS/forge/task.py:511-546 | From awaiting_replan, before the deadline and with a non-blank reason, begin_revision never fails, opens one revision and moves no record. |
| `Dispatching.WriteAhead` | PhyAgentOS/forge/task.py:1103-1138 | At every POST of every run the store already holds a record with its caller id, semantics and arguments and with its Tool id stripped of surrounding blanks, and that caller id was never POSTed before. |
| `Dispatching.NoDoublePost` | PhyAgentOS/forge/task.py:548-641 | Every POST the Gateway received belongs to a record, and no record to two POSTs. |
| `Dispatching.RecoverySendsNothing` | PhyAgentOS/forge/task.py:1015-1062 | Recovery, interrupted anywhere, issues no POST. |
| `Dispatching.ScriptDispatches` | PhyAgentOS/forge/task.py:548-808 | A call sends at most one POST: for an executing task, with the caller's Tool and arguments and an unused identity, and for an Action only past the retry guard. |
| `Dispatching.NothingAfterClosing` | PhyAgentOS/forge/task.py:1071-1077 | Once a task ended or was asked to cancel, no later step of any run dispatches for it. |
| `Dispatching.TerminalIsFinal` | PhyAgentOS/forge/task.py:662-682 | After termination the status, the verdict and every Query and Action status stay for ever; only Sessions may still be observed. |
| `Retries.NoBlindRetry` | PhyAgentOS/forge/task.py:583-594 | In every run whose crashes are followed by a completed recovery, of two POSTs of one Action (same task, unpadded Tool id, arguments) the earlier is known to have become an invocation. |
| `BoundRuns.NoBlindBoundRetry` | PhyAgentOS/forge/task.py:583-594 | The same for a coordinator with a binding resolver, and without any condition on the Tool id: a binding lists only ids the manifest stripped (PhyAgentOS/skill_runtime/manifest.py:63-82). |
| `Retries.UnknownForever` | PhyAgentOS/forge/task.py:1023-1038 | An Action or Session left without a remote identity is unknown from recovery on and stays unknown and without identity in every continuation. |
| `Retries.RecoverySettles` | PhyAgentOS/forge/task.py:1015-1062 | A recovery that runs to its end leaves no dispatch intent undecided anywhere. |
| `Retries.RetryGuardExactly` | PhyAgentOS/forge/task.py:583-594 | An otherwise admissible Action is stopped if and only if the identical Action is recorded as unknown and its Tool id was given without surrounding blanks. |
| `RetryLimits.AbandonedCallRetries` | PhyAgentOS/forge/task.py:600-641 | Concrete run: a call abandoned after its POST by a process that lives on, and not followed by a cancellation of the task, is POSTed a second time. |
| `RetryLimits.PaddedToolRetries` | PhyAgentOS/forge/task.py:102-108 | Concrete run without crashes, of a coordinator without a binding resolver: a Tool id given with a blank is stored stripped, and the guard lets the unknown Action be POSTed again. |
| `Starts.QueryEnds` | PhyAgentOS/forge/task.py:548-573 | A Query goes out exactly when the task executes, the Tool may be called and its id is a path-safe name; then it is sent once and leaves one record, succeeded with the answer or unknown; every other row, tracker and record stays. |
| `Starts.ActionEnds` | PhyAgentOS/forge/task.py:575-660 | An Action starts exactly when it may be called and is not held back as unknown (with an unusable id only the Before evidence is captured); one POST, one record with caller, Tool, arguments, binding and time, accepted exactly when both identities came back and else unknown, keeping what was revealed; its identity is held when trackers work, and a warning kept when they fail. |
| `Starts.SessionEnds` | PhyAgentOS/forge/task.py:713-788 | The same for a Session, with the ownership the caller asked for; it needs the invocation identity only, and a runtime-owned one is refused. |
| `Outcomes.FinalizedExactly` | PhyAgentOS/forge/task.py:884-1013 | Refused for a closed task, an open execution, no execution or failed capture. Else, by the plain statuses, kinds and ownership of its executions: `cancelled` or `failed` after a cancellation; under off and audit `succeeded` exactly when every Query and Action succeeded, every Session of the task succeeded or was stopped and every other is at least accepted and not failed; under enforce and recovery by verdict, verifier failure and budget. Verdict, attempts, deadline and evidence are as written, no record moves, no other task is touched. |
| `Outcomes.ClosingExactly` | PhyAgentOS/forge/task.py:917-1013 | The same for the closing transaction alone. |
| `Outcomes.CancelAsksForEach` | PhyAgentOS/forge/task.py:827-855 | A cancellation asks the Gateway once, in order, for every owned execution that is open and known, and for nothing else. |
| `Outcomes.CancelledExactly` | PhyAgentOS/forge/task.py:827-882 | A closed task is left alone; any other ends `cancelling` if and only if it has an Action or a Session of its own, and `cancelled` otherwise; its records keep all but the answers to their own requests, and no other task is touched. |
| `Outcomes.CancelMakesRoom` | PhyAgentOS/forge/task.py:827-882 | In every reachable store, cancelling a task without such executions lets the next admissible creation insert its row. |
| `Outcomes.CreatedExactly` | PhyAgentOS/forge/task.py:394-506 | Inserts one row, in the mode asked for and executing an empty first revision, exactly when nothing stands against it and every task is closed, and holds its binding; else no row is added and the hold is undone. |
| `Outcomes.RevisedExactly` | PhyAgentOS/forge/task.py:511-546 | Only a waiting task changes: it fails past its deadline; with budget left and a reason it closes its last revision and executes a new, empty one, without verdict and deadline. |
| `Outcomes.ObservationTaken` | PhyAgentOS/forge/task.py:662-808 | The first Action or Session with that identity takes over the status and the reply, unless it is an Action of a closed task; a proved end lets go of the identity; nothing else changes. |
| `Outcomes.CancelAnswerKept` | PhyAgentOS/forge/task.py:698-711 | The answer to a cancel request is kept with its Action while the task is open, and changes nothing else. |
| `Outcomes.StopAskedExactly` | PhyAgentOS/forge/task.py:810-825 | Only the task's own Session is asked to stop, once, and the answer is kept with it. |
| `Reconciled.RecoveredExactly` | PhyAgentOS/forge/task.py:1015-1062 | A recovery that runs to its end: of the open task every ended record and every Query stays; an open record without identity, or whose status request failed, becomes unknown and keeps its identity; every other takes over its own answer and the status that reports; the rest of the store stays. |
| `Reconciled.RecoveryTakesOver` | PhyAgentOS/forge/task.py:1015-1062 | The same at every recovery of every run with deaths and abandoned calls anywhere, against a Gateway that gives out new identities. |
| `Reconciled.BindingHeldAgain` | PhyAgentOS/forge/task.py:1015-1022 | Recovery, however it ends, first holds the binding of the open task again and no other; where that write fails it does nothing. |
| `Facts.TaskFacts` | PhyAgentOS/forge/task.py:1346-1372 | What the coordinator's tests on a task mean in plain statuses: closed, something goes on, something must end, everything fulfilled, everything called off. |
| `Facts.StatusIsReported` | PhyAgentOS/forge/task.py:1396-1423 | The status read from a reply is the one its phase, else its state, else its available result names in the Gateway's table of words, and the recorded one where none does. |
| `Facts.OwnWordIsTaken` | PhyAgentOS/forge/task.py:1396-1423 | A reply whose phase is the agent's own word for a status, in any case, is recorded as that status; `pending` has no word of its own. |
| `Facts.BlanksGo` | PhyAgentOS/forge/task.py:102-108 | Normalizing an identifier takes the blanks off both ends, all of them and nothing else. |
| `Facts.UsableExactly` | PhyAgentOS/forge/task.py:102-108 | A Tool identifier is accepted exactly when something is left of it that is neither `.` nor `..` and holds no slash of either kind. |
| `ToolFacts.NothingInvented` | PhyAgentOS/forge/task.py:1396-1423 | The status read from a reply is the recorded one or one that a field of the reply names. |
| `ToolFacts.ObservedExactly` | PhyAgentOS/forge/task.py:662-682 | An observation rewrites exactly the first record with that identity, to the reported status, while its task is open, and nothing otherwise. |
| `ToolFacts.SurvivesExactly` | PhyAgentOS/forge/task.py:662-682 | A recorded Action status survives an observation if and only if the task has ended or the reply names no other status. |
| `ToolFacts.TerminalRecordRewritten` | PhyAgentOS/forge/task.py:662-682 | Concrete run: a succeeded record of an open task becomes failed, so terminal records alone are not final. |
| `Ownership.OwnershipTracked` | PhyAgentOS/forge/task.py:1162-1204 | In runs that lose no call, with bindings from the resolver, fresh Gateway identities, final ends and working trackers, an execution with an identity is in its persisted set exactly while its end is not proved, and every open task's binding is held. |
| `LostCalls.OwnershipDespiteLosses` | PhyAgentOS/forge/task.py:605-641 | In runs with deaths and abandoned calls anywhere, at most as many executions as calls were lost are in the wrong set or in none. |
| `LostCalls.RecoveryRetracksExactly` | PhyAgentOS/forge/task.py:1015-1062 | After any such run, a completed recovery puts right exactly the executions of the open task whose record is still open; what is recorded as ended or unknown, or belongs to an ended task, stays as it was. |
| `Ownership.BindingReleasedExactly` | PhyAgentOS/forge/task.py:1309-1321 | When a call ends a bound task its binding is dropped if and only if no Action or Session of it is unknown. |
| `Ownership.OwnedSkillIsActive` | PhyAgentOS/skill_runtime/installer.py:34-51 | While anything is owned in such a run, the installer's guard finds the Skill active, and no installation over it succeeds. |
| `Ownership.DeathLosesIdentity` | PhyAgentOS/forge/task.py:605-641 | Concrete run: dying between the recorded outcome and the tracker write leaves an unfinished execution in no set. |
| `Coordinator.AgentTaskStore.Create` | PhyAgentOS/forge/task.py:233-247 | A row is added exactly when no row is open. |
| `Coordinator.AgentTaskStore.Get` | PhyAgentOS/forge/task.py:249-251 | Finds the row with that id, if there is one. |
| `Coordinator.AgentTaskStore.Update` | PhyAgentOS/forge/task.py:253-280 | The closure is applied to the row with that id and to no other. |
| `Coordinator.AgentTaskStore.Active` | PhyAgentOS/forge/task.py:282-289 | Finds the oldest row that is not terminal. |
| `Coordinator.AgentTaskCoordinator.CreateTask` | PhyAgentOS/forge/task.py:394-506 | Leaves exactly the prefix of its script that the process lived to perform, binding hold and its undo included. |
| `Coordinator.AgentTaskCoordinator.BeginRevision` | PhyAgentOS/forge/task.py:511-546 | The same for opening a revision, its deadline and its budget. |
| `Coordinator.AgentTaskCoordinator.InvokeQuery` | PhyAgentOS/forge/task.py:548-573 | The same for a Query, from intent to result. |
| `Coordinator.AgentTaskCoordinator.StartAction` | PhyAgentOS/forge/task.py:575-660 | The same for an Action: guard, admission, Before evidence, intent, POST, outcome, tracking. |
| `Coordinator.AgentTaskCoordinator.StartSession` | PhyAgentOS/forge/task.py:713-788 | The same for a Session. |
| `Coordinator.AgentTaskCoordinator.ObserveAction` | PhyAgentOS/forge/task.py:662-682 | The same for an observed Action. |
| `Coordinator.AgentTaskCoordinator.ObserveSession` | PhyAgentOS/forge/task.py:790-808 | The same for an observed Session. |
| `Coordinator.AgentTaskCoordinator.RecordCancel` | PhyAgentOS/forge/task.py:698-711 | The same for a recorded cancel response. |
| `Coordinator.AgentTaskCoordinator.StopSession` | PhyAgentOS/forge/task.py:810-825 | The same for stopping a task-owned Session. |
| `Coordinator.AgentTaskCoordinator.CancelTask` | PhyAgentOS/forge/task.py:827-882 | The same for a cancellation, whose requests are sent in a loop. |
| `Coordinator.AgentTaskCoordinator.FinalizeTask` | PhyAgentOS/forge/task.py:884-1013 | The same for finalization. |
| `Coordinator.AgentTaskCoordinator.ReconcileNonterminal` | PhyAgentOS/forge/task.py:1015-1062 | The same for recovery, record by record, including a tracker write that ends it early. |
| `Coordinator.AgentTaskCoordinator.Perform` | PhyAgentOS/forge/task.py:354-1062 | Any call on any state, dying after any number of effects, leaves that prefix of its script and keeps the invariant. |
| `RuntimeSwitch.SkillRuntimeController.Switch` | PhyAgentOS/skill_runtime/integration.py:303-374 | The controller with its stop, start, status and rollback steps computes `Switched` under every combination of faults. |
| `RuntimeSwitch.RegistryNamesRunning` | PhyAgentOS/skill_runtime/integration.py:303-374 | At every exit the registry names only a running runtime. |
| `RuntimeSwitch.AtMostOneRuns` | PhyAgentOS/skill_runtime/integration.py:303-374 | If stops work, at most one runtime runs after a switch, and nothing but the published one exactly when no rollback restarted a runtime that then was not ready. |
| `RuntimeSwitch.FailureRestores` | PhyAgentOS/skill_runtime/integration.py:329-365 | A switch that raises after a successful rollback leaves the same runtimes running and the registry naming the same one. |
| `RuntimeSwitch.SuccessPublishes` | PhyAgentOS/skill_runtime/integration.py:366-374 | A switch that returns leaves exactly the requested Skill and profile running and published. |
| `RuntimeSwitch.ReturnsExactly` | PhyAgentOS/skill_runtime/integration.py:303-374 | A switch returns exactly when no task is open, the Skill is installed, and it is selected already or starts, reports ready and what is in its way stops. |
| `RuntimeSwitch.PublishesExactly` | PhyAgentOS/skill_runtime/integration.py:360-374 | It publishes the requested Skill and profile under that Skill's own address, as the process just started and with a client that was never used. |
| `RuntimeSwitch.FailurePublishesExactly` | PhyAgentOS/skill_runtime/integration.py:319-365 | A switch that raises leaves the selection alone until the runtime in its way was stopped; from then on it selects that one again if it came back ready, and else none. |
| `RuntimeSwitch.RunsStayAddressed` | PhyAgentOS/skill_runtime/integration.py:303-374 | Over any sequence of switches the published runtime is reached under the address of its Skill. |
| `RuntimeSwitch.OpenTaskForbidsSwitch` | PhyAgentOS/skill_runtime/integration.py:303-306 | While an AgentTask is open, no sequence of switches moves a runtime, the registry or a client. |
| `RuntimeSwitch.NoClientLost` | PhyAgentOS/skill_runtime/integration.py:127-135 | Every client that was active stays active or is kept for closing. |
| `RuntimeSwitch.ActiveRuntimeRegistry.ClientsForClose` | PhyAgentOS/skill_runtime/integration.py:174-182 | Hands over every active or replaced client exactly once. |
| `RuntimeSwitch.RunsStayConsistent` | PhyAgentOS/skill_runtime/integration.py:303-374 | Over any sequence of switches under any faults the registry never names a runtime that does not run. |
| `RuntimeSwitch.StraysExactly` | PhyAgentOS/skill_runtime/integration.py:303-374 | What one switch adds to and takes from the runtimes that run without being published, whatever was running before. |
| `RuntimeSwitch.RunsStayExclusive` | PhyAgentOS/skill_runtime/integration.py:303-374 | While clean-up stops work: after any sequence of switches nothing but the published runtime runs if and only if every runtime a rollback stranded was the target of a later switch. |
| `RuntimeSwitch.TwoRunExactly` | PhyAgentOS/skill_runtime/integration.py:303-374 | Two runtimes run after such a sequence exactly when one of those was not and another is published, or two were not. |
| `RuntimeSwitch.StrandedRuntimeDoubles` | PhyAgentOS/skill_runtime/integration.py:337-359 | Concrete run: a restarted but unready previous runtime, then an ordinary switch, leave two runtimes running. |
| `Installer.ActiveSkills` | PhyAgentOS/skill_runtime/installer.py:34-51 | Finds exactly the Skills whose state is unreadable, or names them and is not idle or holds something. |
| `Installer.SkillInstaller.Install` | PhyAgentOS/skill_runtime/installer.py:68-151 | Returns exactly when every step works and the Skill is idle; then the new bundle is installed and the old one backed up; a raise with working rollback, or for an active Skill, changes nothing; at every moment no bundle is lost. |
| `Installer.ReturnsExactly` | PhyAgentOS/skill_runtime/installer.py:68-151 | An installation returns exactly when the archive yields a loadable bundle with manifest, document and a plain name, every rename works, and an installed Skill of that name is idle, holds nothing and its backup's name is not taken. |
| `Installer.InstalledExactly` | PhyAgentOS/skill_runtime/installer.py:105-146 | After it the new bundle stands under its name, the old one under its backup's, and at every other place what stood there. |
| `Installer.SwapDone` | PhyAgentOS/skill_runtime/installer.py:105-146 | A return leaves exactly the new bundle at the target, the old one among the backups and everything else alone. |
| `Installer.SwapUndone` | PhyAgentOS/skill_runtime/installer.py:133-151 | A raise leaves everything as before when a bundle that failed in place can be moved away and one of the two restore attempts works. |
| `Installer.SkillInstaller.Remove` | PhyAgentOS/skill_runtime/installer.py:153-171 | An active or missing Skill is refused; a return removes exactly that Skill; what a broken deletion puts back may be incomplete. |
| `ArchivePaths.SafeStaysBelow` | PhyAgentOS/skill_runtime/archive.py:35-49 | A safe path has no part that could leave or re-enter a directory. |
| `ArchivePaths.SafePathIdempotent` | PhyAgentOS/skill_runtime/archive.py:35-49 | Normalizing a normalized path changes nothing. |
| `ArchivePaths.PlainPathIsSafe` | PhyAgentOS/skill_runtime/archive.py:35-49 | Exactly which relative paths of a real tree the format admits, and that they come back unchanged. |
| `Archives.ParseFileManifest` | PhyAgentOS/skill_runtime/archive.py:52-84 | Yields the table of all entries exactly when each is valid and no two name one path. |
| `Archives.Scan` | PhyAgentOS/skill_runtime/archive.py:113-137 | Accepts exactly safe, plain, sized members whose paths differ even after folding, and adds up their sizes. |
| `Archives.MakeDirectories` | PhyAgentOS/skill_runtime/archive.py:168-172 | Succeeds exactly when no file stands on the way, and adds only the missing directories. |
| `Archives.Extract` | PhyAgentOS/skill_runtime/archive.py:95-208 | Returns exactly for acceptable archives, and then leaves exactly the payload files with their own bytes below the destination. |
| `Archives.VerifiedIsInventoried` | PhyAgentOS/skill_runtime/archive.py:141-203 | A verified extraction produced exactly the inventoried files with their sizes and digests, all below the destination. |
| `Archives.AcceptedIsPlain` | PhyAgentOS/skill_runtime/archive.py:95-208 | An accepted archive has only plain members with safe names that differ after folding, none larger than allowed or other than its header says, the expected digest, and an inventory where one is required. |
| `Archives.BytesWithinLimits` | PhyAgentOS/skill_runtime/archive.py:131-140 | No accepted archive writes more bytes than the total and compression limits allow. |
| `Packaging.SelectFiles` | scripts/package_skill.py:40-53 | Selects, in path order, exactly the plain files outside skipped directories; one symbolic link refuses the tree. |
| `Packaging.SelectionDeterministic` | scripts/package_skill.py:40-53 | Two traversals of one tree select the same list. |
| `Packaging.Package` | scripts/package_skill.py:68-127 | Returns the archive of the selected files and their inventory, and only one that its own validator accepts. |
| `Packaging.PackagesExactly` | scripts/package_skill.py:68-127 | The packager returns exactly when every path can be carried, none is the old inventory's name, none fold together and the limits hold. |
| `Packaging.RoundTrip` | scripts/package_skill.py:68-127 | Extracting a packaged archive yields exactly the selected files, byte for byte. |
| `Packaging.PackAndUnpack` | scripts/package_skill.py:40-127 | From a directory tree to the extracted copy: it works exactly when no symbolic link stands outside the skipped directories and the selection can be archived, and then the copy holds exactly the plain files outside those directories, byte for byte. |
| `Consolidation.PickBoundary` | PhyAgentOS/agent/memory.py:186-206 | Picks the earliest user turn that removes enough tokens, else the last one, else none, with the tokens removed. |
| `Consolidation.BoundaryUnique` | PhyAgentOS/agent/memory.py:186-206 | There is only one such boundary. |
| `Consolidation.WeightAddsUp` | PhyAgentOS/agent/memory.py:186-206 | The tokens a cut removes are those of the messages before it, added up. |
| `Consolidation.Session.GetHistory` | PhyAgentOS/session/manager.py:46-64 | Shows the last unconsolidated messages, as many as asked for, from the first user message among them on. |
| `Consolidation.HistoryCompleteExactly` | PhyAgentOS/session/manager.py:46-64 | The unlimited history is the whole unconsolidated rest exactly when that is empty, opens with a user turn or has none. |
| `Consolidation.HistoryMovesExactly` | PhyAgentOS/session/manager.py:23-26 | Moving the offset leaves the history as it is exactly when no user message is skipped. |
| `Consolidation.ConsolidationChangesHistory` | PhyAgentOS/session/manager.py:23-26 | Concrete input: consolidating one exchange takes it out of the history. |
| `Consolidation.Conversation.MaybeConsolidate` | PhyAgentOS/agent/memory.py:234-289 | Each round archives exactly the chunk up to the best boundary for that round's excess over half the window and moves the offset there. It stops after exactly as many rounds as it must: nothing to do, target reached, no user turn ahead, archiving failed, or five rounds. The transcript stays, and archived chunks concatenate to the prefix before the offset. |
| `Consolidation.Conversation.StartOver` | PhyAgentOS/agent/memory.py:225-232 | Starting over archives the whole rest first; a failed archive changes nothing. |
| `Consolidation.Conversation.NothingForgotten` | PhyAgentOS/session/manager.py:46-64 | Archive and history together hold every message exactly once and in order, once anything was consolidated or the transcript opens with a user turn. |
| `Observation.KeptFramesAreValid` | PhyAgentOS/forge/observation.py:261-300 | After any messages, every kept frame is of its source, of a wanted one, within the size limit, of its declared format, and received with the message it came in. |
| `Observation.NewestArrivalIsKept` | PhyAgentOS/forge/observation.py:295-299 | After any messages the kept frame of a source is the first valid one with the highest sequence number, and exactly the sources that sent a valid one have a frame. |
| `Observation.LatestStateIsKept` | PhyAgentOS/forge/observation.py:301-312 | After any messages the kept state is the last one that was not too large. |
| `Observation.Collector.HandleImage` | PhyAgentOS/forge/observation.py:261-300 | Replaces a frame only by a valid one with a larger sequence number. |
| `Observation.Collector.Ready` | PhyAgentOS/forge/observation.py:160-183 | True exactly when every required source, and the state where required, is present and fresh. |
| `Observation.Collector.Missing` | PhyAgentOS/forge/observation.py:185-212 | Empty exactly when the collector is ready, and lists exactly the sources and state that are not. |
| `Observation.Collector.TakeSnapshot` | PhyAgentOS/forge/observation.py:214-228 | Takes the newest frames and leaves out a state older than the end of the command. |
| `Observation.Collector.WaitForSnapshot` | PhyAgentOS/forge/observation.py:136-158 | Handles the arrivals one by one until the collector is ready for the first time, and returns the snapshot of that moment; if that never happens it names what is missing after all of them. |
| `Observation.GoodMessageIsTaken` | PhyAgentOS/forge/observation.py:261-300 | A message with a wanted source, a sequence number, a finite time or none, a known media type and fitting base64 of a picture of that type becomes the frame it describes. |
| `Evidence.EvidenceWriter.WriteSnapshot` | PhyAgentOS/forge/evidence.py:47-109 | Writes everything exactly when labels fit, names do not clash and the disk lasts; touches only files of its phase, and none on a clash. |
| `Evidence.LoadSnapshot` | PhyAgentOS/forge/evidence.py:111-152 | Reads a manifest back entry by entry. |
| `Evidence.SnapshotRoundTrip` | PhyAgentOS/forge/evidence.py:47-152 | A snapshot written to disk is read back as it was. |
| `Evidence.OtherPhaseIntact` | PhyAgentOS/forge/evidence.py:323-331 | Writing one phase leaves the snapshot of the other on disk. |
| `Evidence.WriteBundle` | PhyAgentOS/forge/evidence.py:154-228 | Nothing is missing exactly when both snapshots load, the end of the command is known and every required source and kind occurs in both phases. |
| `Evidence.CaptureAfter` | PhyAgentOS/forge/task.py:1235-1289 | The Before snapshot survives, and a complete bundle has, of every required source, an After frame with a larger sequence, received no earlier than the last update of any record. |
| `DelayBuffer.NextGood` | PhyAgentOS/channels/mochat.py:723-747 | One critical section keeps: accepted entries are the batches plus the buffer, in order; a non-empty buffer has exactly one live timer, the armed one. |
| `DelayBuffer.RunGood` | PhyAgentOS/channels/mochat.py:723-747 | The same at every moment of every interleaving. |
| `DelayBuffer.DelayState.EnqueueDelayedEntry` | PhyAgentOS/channels/mochat.py:723-729 | Enqueueing cancels only a sleeping timer and arms a new one. |
| `DelayBuffer.DelayState.FlushDelayedEntries` | PhyAgentOS/channels/mochat.py:735-747 | A flush, by a timer or a mention, takes everything and cancels only a timer that still sleeps. |
| `DelayBuffer.TakenIsFinal` | PhyAgentOS/channels/mochat.py:731-747 | A timer that has taken its entries is never cancelled by anything later, and a cancelled one never wakes. |
| `DelayBuffer.BufferedIsDispatched` | PhyAgentOS/channels/mochat.py:731-747 | At any moment of any interleaving the armed timer hands over all that is buffered, as one batch. |
| `DelayBuffer.EntriesWaitOrGo` | PhyAgentOS/channels/mochat.py:664-747 | At any moment of any interleaving an ordinary entry waits behind the others with one sleeping timer, and a mention hands over all that waits, itself last, and leaves no sleeping timer. |
| `DelayBuffer.DuplicatesAreFarApart` | PhyAgentOS/channels/mochat.py:712-721 | A message id gets through twice only with at least two thousand others in between. |
| `DelayBuffer.SeenWindow.Remember` | PhyAgentOS/channels/mochat.py:712-721 | An id is a duplicate exactly when it is among the last two thousand let through. |
| `DelayBuffer.SessionCursor.Mark` | PhyAgentOS/channels/mochat.py:823-828 | A session cursor never moves back. |
| `DelayBuffer.SessionCursor.HandleWatch` | PhyAgentOS/channels/mochat.py:634-662 | The cursor ends at the highest number seen and every message is handed on in order, except the first events of a cold session. |
| `DelayBuffer.MessagesHandedOn` | PhyAgentOS/channels/mochat.py:656-662 | What is handed on are exactly the message events, each once and in the order of arrival. |
| `DelayBuffer.MaxSeqIsMax` | PhyAgentOS/channels/mochat.py:656-660 | The number the cursor ends at is the maximum of the old cursor and the event numbers. |
| `Cron.CronService.GetNextWake` | PhyAgentOS/cron/service.py:200-206 | The earliest planned time among enabled jobs. |
| `Cron.CronService.ArmTimer` | PhyAgentOS/cron/service.py:208-225 | Ends whatever the timer's task was doing; a running service then sleeps until the earliest planned time, a stopped one not at all. |
| `Cron.CronService.ExecuteJob` | PhyAgentOS/cron/service.py:245-275 | Deletes or disables a one-shot job and plans any other again. |
| `Cron.CronService.OnTimer` | PhyAgentOS/cron/service.py:227-240 | A tick lists exactly what is due at its start and starts the first of it, or saves and arms. |
| `Cron.CronService.CallbackEnds` | PhyAgentOS/cron/service.py:239-275 | A callback that came back is written down in memory, and the tick starts its next job or saves and arms. |
| `Cron.CronService.Start` | PhyAgentOS/cron/service.py:175-198 | Plans every enabled job afresh, saves and arms. |
| `Cron.CronService.Stop` | PhyAgentOS/cron/service.py:184-189 | Ends the timer's task, tick included, and saves nothing. |
| `Cron.CronService.EnableJob` | PhyAgentOS/cron/service.py:339-353 | Plans an enabled job afresh and clears a disabled one, saves and arms. |
| `Cron.CronService.RunJob` | PhyAgentOS/cron/service.py:355-362 | Starts an enabled or forced job. |
| `Cron.CronService.RunJobEnds` | PhyAgentOS/cron/service.py:362-366 | When its callback comes back the job is executed, saved and the timer armed. |
| `Cron.CronService.AddJob` | PhyAgentOS/cron/service.py:285-323 | Appends a planned job, saves and arms. |
| `Cron.CronService.RemoveJob` | PhyAgentOS/cron/service.py:325-337 | Removes exactly the jobs with that id, and saves and arms only if there are any. |
| `CronRuns.FollowSound` | PhyAgentOS/cron/service.py:175-366 | Every event, interruptions included, keeps: disk and memory agree, a fired job's time has passed, a tick lists exactly what is still due, and a running service outside a tick sleeps until the earliest planned time. |
| `CronRuns.FollowOnce` | PhyAgentOS/cron/service.py:208-275 | One event more fires no job twice, and leaves none that could be exactly when it does not arm the timer while a one-shot's timer callback is awaited. |
| `CronRuns.FiredAtMostOnce` | PhyAgentOS/cron/service.py:227-275 | Over any starts, stops, deaths before the save, manual runs and calls between any two awaits, without such an interruption, the timer fires a one-shot job at most once and never before its time. |
| `CronRuns.InterruptionExactly` | PhyAgentOS/cron/service.py:208-275 | After any history without one, the next event makes a second firing possible if and only if it is such an interruption. |
| `CronRuns.FiredOnceExactly` | PhyAgentOS/cron/service.py:208-275 | A history is free of interruptions if and only if at no moment of it a one-shot job has been, or left to itself could be, fired again. |
| `CronRuns.JobFiresTwice` | PhyAgentOS/cron/service.py:208-225 | Concrete run: a job is added while the callback of a one-shot job is awaited, and the timer fires that job a second time. |
| `CronRuns.TimerNeverLost` | PhyAgentOS/cron/service.py:200-225 | In every life a running service is inside a tick or sleeps until the earliest planned time. |
| `CronRuns.NothingDueAfterTick` | PhyAgentOS/cron/service.py:227-275 | When a tick ends, no one-shot or interval job is due at the time it began, on disk as in memory. |
| `CronPlans.EveryJobIsPlanned` | PhyAgentOS/cron/service.py:20-46 | In every life of a running service, every enabled interval job with a positive interval is planned for exactly its interval after it was last added, enabled, started with the service or ran; every enabled one-shot that was not too late for its own time; every expression for the calendar's next match; and what cannot run is not planned. |
| `CronPlans.RanExactly` | PhyAgentOS/cron/service.py:245-275 | A job that ran is deleted, disabled or planned from the end of its run, as its kind asks; its last run is noted and every other job stays. |
| `CronPlans.DueInOrder` | PhyAgentOS/cron/service.py:233-237 | A tick lists what is due in the order of the store. |
| `CronPlans.JobStays` | PhyAgentOS/cron/service.py:175-366 | While the process lives a job stays as it is through every event that is not about it. |
| `CronPlans.ToldExactly` | PhyAgentOS/cron/service.py:285-353 | Enabling or disabling sets just that and the plan of that job; an added job is enabled and last. |
| `CronPlans.RunsFromStartToStop` | PhyAgentOS/cron/service.py:175-189 | In every life the service runs exactly from a start to the next stop or death. |
| `CronPlans.RunBegunExactly` | PhyAgentOS/cron/service.py:355-362 | A manual run begins exactly for a job that is there and enabled, or forced, and changes nothing else yet. |
| `CronPlans.RemovedExactly` | PhyAgentOS/cron/service.py:325-337 | A removal takes out the one job with that id and keeps the others in order. |
| `Verdicts.OneResultEachExactly` | PhyAgentOS/agent/session_verifier.py:168-180 | The comparison means one result per criterion if and only if the criteria are all distinct or all equal. |
| `Verdicts.RepeatedIsConfusable` | PhyAgentOS/agent/session_verifier.py:175-180 | For any other criteria there is an accepted answer that is not a permutation. |
| `Verdicts.TaskVerifier.ValidateVerdict` | PhyAgentOS/agent/session_verifier.py:168-187 | Accepts exactly matching criteria that cite only offered evidence. |
| `Verdicts.TaskVerifier.VerifyContent` | PhyAgentOS/agent/session_verifier.py:119-149 | Each call that reaches the service costs one, none does once the budget is spent, and with distinct criteria an accepted verdict is a permutation. |
| `SkillBinding.BindingResolver.Preview` | PhyAgentOS/forge/binding.py:104-161 | Yields the candidate exactly when the active runtime is the bundle's and every required Tool is known and ready. |
| `SkillBinding.CandidateListsReadyTools` | PhyAgentOS/forge/binding.py:104-161 | A candidate lists exactly the required Tools in order, each found ready, under its kind and the digest of its specification, with the runtime and documents it was read from. |
| `SkillBinding.BindingResolver.Freeze` | PhyAgentOS/forge/binding.py:163-178 | Binds exactly when the candidate is known and a fresh preview equals it. |
| `SkillBinding.BoundExactly` | PhyAgentOS/forge/binding.py:163-178 | With an injective hash, what was previewed at activation is bound exactly when it can be previewed again and neither the runtime, the documents nor any required Tool changed in between; the binding fixes what was previewed. |
| `SkillBinding.BindingResolver.ValidateTool` | PhyAgentOS/forge/binding.py:180-213 | Admits exactly a listed Tool of the same kind, unchanged and ready, at the bound runtime. |
| `SkillBinding.AdmittedToolUnchanged` | PhyAgentOS/forge/binding.py:180-213 | With an injective hash, an admitted Tool is required and ready and has the very specification and kind it had at activation, at the same runtime. |
| `SkillBinding.UnchangedToolAdmitted` | PhyAgentOS/forge/binding.py:180-213 | And a required Tool that is unchanged and ready at the same runtime is always admitted. |
| `BoundRuns.AdmissionAgrees` | PhyAgentOS/forge/task.py:1080-1101 | The coordinator admits a Tool call of a bound task exactly when the resolver does, under the digest the resolver bound. |
| `BoundRuns.TasksHaveTheirOwnBinding` | PhyAgentOS/forge/binding.py:163-178 | In every run, however its calls end, whose bindings the resolver froze with collision-free digests, no two tasks of the store share a binding id. |

## Left out

- Store encoding: SQLite rows, JSON text and timestamps of rows are values; `find_invocation`, the event
  log, `terminal_at`, `updated_at` of tasks, `evidence_errors`, evidence references and origin keys are not kept.
- Await-level interleavings of coordinator calls: that calls are serialised is an assumption for the stop path
  (PhyAgentOS/agent/loop.py:439-444) and for the turns of scheduled jobs, the heartbeat and the command line,
  which enter by `process_direct` (PhyAgentOS/agent/loop.py:717-730) and take no turn lock.
- Error texts, log lines, experience scheduling and lessons: only whether a call raises and what it leaves.
- Unicode: `strip` and `lower` treat ASCII blanks and letters; Gateway identities are strings.
- Retries.NoBlindRetry: holds for runs in which every call that was killed is followed by a completed recovery,
  none is abandoned by a living process, and for unpadded Tool ids; both limits are shown to be real, and
  the second falls away with a binding resolver.
- Reconciled.RecoveredExactly: needs tracker writes that succeed, for a failing one ends recovery early
  (`Coordinator.AgentTaskCoordinator.ReconcileNonterminal` covers that), and no identity shared by two Actions or two
  Sessions of the open task, which `Reconciled.RecoveryTakesOver` derives from a Gateway that gives out new ones.
- Outcomes.CancelledExactly: which answer goes to which record is stated for executions that share no identity.
- Ownership.OwnershipTracked: one runtime, no lost call, fresh Gateway identities, definite ends and working trackers.
- LostCalls.OwnershipDespiteLosses: the same but for the lost calls.
- BoundRuns.TasksHaveTheirOwnBinding: digests without collisions, as cut-off SHA-256 is taken to be, and task ids
  that are never drawn twice.
- RuntimeManager, RuntimeStateStore and the Skill catalog: their contracts are part of the fault model.
- A registry that follows persisted switches by itself (`_refresh_locked`) and `discover_active_runtime`.
- Installer.SkillInstaller.Install: a declared name that is no plain directory name is refused outright; leftovers
  in the operation's own temporary directory are not compared.
- `NodeInstaller` and the environment builder.
- Archives.Extract: tar, gzip, JSON and hash bytes are given functions; file modes and reading in chunks are not kept.
- Packaging.Package: the checks of `skill.yaml` before packaging and the atomic replacement of the output.
- Consolidation.Conversation.MaybeConsolidate: prompt sizes and the success of archiving are given; sessions on disk
  are an offset.
- Observation.Collector.WaitForSnapshot: the sockets, reconnects and the clock are a list of arrivals.
- Evidence.EvidenceWriter.WriteSnapshot: file contents are typed values; paths that escape the workspace are not modelled.
- DelayBuffer.RunGood: one target, before `stop`; a dispatch that raises after its entries were taken is not modelled.
- CronRuns.FiredAtMostOnce: no external writer of the job file, job ids that are never drawn twice, and callbacks that
  pass their cancellation on; cron expressions are a given calendar.
- Verdicts.TaskVerifier.VerifyContent: request building, the verifier process and evidence retention.
- HTTP and WebSocket transports, the other channels, command line, prompts, configuration and model routing.
