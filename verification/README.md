# Deployment, release and billing protocols in Dafny

This project models four protocols of the self-hosted deployer's admin panel and proves what they
promise over every input and every run.

**The Node runtime deployment protocol.** Four durable stores must agree across crashes: an inbox of
accepted work (`Inbox`), a pool of UID/port slots with install receipts (`Pool`), a control file per
operation (`Gate`) and the routing record with its permanent tombstones (`Router`). Each store has its
transactions as functions, an imperative class proved against them, and its own theorems about
concurrent callers. `RouterThreads` interleaves requests, probes, activations and drains of one serving
router; `RouterHandles` adds the ownership lock that keeps per-process counts meaningful when several
handles open one database. `Protocol` is the step machine over all four stores, one step per committed
transaction or locked file write; its invariant ties the stores together. `Runs` states the theorems over
whole runs: safe slot reuse, the serving site always backed, capacity, recovery without conflicts, host actions at
most once. `Runner` is the source's control flow (`ProcessNext`, recovery, `RetireRoutedNode`) as a
class over the four store objects; it keeps a ghost history and proves that it takes no step the
protocol does not have, that it may stop anywhere, and that no store ever refuses it: the claim,
identity, drain and control checks of the source are executed and shown to pass. `Status` proves
what an observation may claim when its readings come from different moments of a run.

**The container operation protocol.** `Container` is the step machine of the worker's write-ahead
records, revision fence, deployer calls and reports, with lost replies, failed writes and crashes;
`ContainerWorker` is submit, inspect and advance in the source's form, refining it;
`ContainerPortal` is the portal's table over that worker.

**Release archives.** `Paths` and `Links` compare the checker's lexical treatment of names and symbolic
links with the filesystem's; `Artifact` is `inspect`; `ReleaseTree` is extraction, sealing,
verification and export over directory trees.

**Billing fences.** `Billing` is the generation-fenced provider reads, `Checkouts`
the checkout and subscription tables under reordered and repeated events, `BillingWork` the leased
work queue. `BillingSystem` joins tables, queue and stored webhooks, which a webhook changes in one
transaction; `BillingStore` runs on it, with other workers taking any steps between two transactions.

Integers are unbounded where the source uses 64-bit revisions, generations and times that it never
brings near their limits; names are sequences of Unicode characters and their sizes are counted in
UTF-8 as the source counts them. Clocks, probe results, provider and deployer answers, process and unit
states are arbitrary. What surrounds a process may fail at any moment; an environment that is calm does
not, and then the outcome of a call is determined by its inputs. Assumed of the environment: immediate
transactions are atomic and durable, `flock` is exclusive, the clock does not go back, SHA-256 is injective, the deployer applies only what
it was asked for, and its applied and withdrawn records are terminal. File bodies are Unicode strings;
contents that are not UTF-8 lie outside the model.

Two places where the code does not do what one might expect of it:

- `InspectNodeRuntime` reads the reservation before the routing record and not in one transaction, so
  its store checks can fail for the operation that serves. `Status.ChecksCanFail` is a run in which
  they do; `Status.StoreChecksExactly` says exactly when they pass.
- An untracked container request is reported successful from the health of its release alone, also
  when a crash came between the dispatched record and the deploy call. `Container.UnsentSuccess` gives,
  for every valid request, a run that reports success for what was never sent.
  `Container.UnsentExactly` says when that can happen: exactly when the request is untracked, was not
  sent so far and still has the fence. For tracked requests `Container.TrackedSuccessWasSent` holds.

## Model

| member | source | states |
|---|---|---|
| `Inbox.SubmitPreserves` | internal/noderuntime/inbox.go:126-178 | A submission, whatever it contains, keeps the inbox within 1000 rows and 200 MiB, every row under its own operation, revisions and deployments distinct, at most one row processing and work advancing in strict revision order. |
| `Inbox.ClaimPreserves` | internal/noderuntime/inbox.go:202-230 | A claim keeps all of that, and the claimed operation is newer than everything claimed before it. |
| `Inbox.SettlePreserves` | internal/noderuntime/inbox.go:234-250 | Settling the processing operation keeps all of that. |
| `Inbox.Store.SubmitNodeRuntime` | internal/noderuntime/inbox.go:126-178 | A known operation is acknowledged exactly when it is resubmitted unchanged; a new one is stored, queued, exactly when identity, archive, deadline window, revision, deployment, count and bytes are all in order; nothing else changes. |
| `Inbox.Store.Aggregates` | internal/noderuntime/inbox.go:157-172 | The loop over rows gives the exact number of bytes and whether a revision or deployment is taken. |
| `Inbox.Store.FindProcessing` | internal/noderuntime/inbox.go:254-260 | Finds the processing row exactly when there is one. |
| `Inbox.Store.FindNext` | internal/noderuntime/inbox.go:215-218 | Finds the queued row with the lowest revision exactly when something is queued. |
| `Inbox.Store.Claim` | internal/noderuntime/inbox.go:202-230 | Claims the lowest queued revision, and nothing exactly when the inbox is busy or empty of queued work. |
| `Inbox.Store.Settle` | internal/noderuntime/inbox.go:234-250 | Settles exactly known work that is processing or settled, and only its state. |
| `Pool.FirstFreeFinds` | internal/nodelaunch/reservations.go:206-226 | A slot search that succeeds ends on a configured slot that no live reservation touches. |
| `Pool.FirstFreeTries` | internal/nodelaunch/reservations.go:206-226 | A slot search that fails has found every configured slot taken. |
| `Pool.ReservePreserves` | internal/nodelaunch/reservations.go:172-226 | `Reserve` keeps live reservations on pairwise distinct UIDs and ports drawn from the configuration, and disturbs no row. |
| `Pool.UpdatePreserves` | internal/nodelaunch/reservations.go:232-344 | Moving one row forward keeps the pool exclusive and its evidence complete. |
| `Pool.RunSound` | internal/nodelaunch/reservations.go:172-344 | Under any interleaving of callers, stale ones included, every reachable pool is exclusive, placed and evident. |
| `Pool.RunForward` | internal/nodelaunch/reservations.go:172-344 | States only move forward; assignments, receipts and retirement proofs are permanent. |
| `Pool.AtMostOnce` | internal/nodelaunch/reservations.go:232-253 | Each operation gets at most one successful start claim and one installer dispatch over a whole run. |
| `Pool.StartNeedsReceipt` | internal/nodelaunch/installation.go:31-102 | A row that is starting carries a receipt for its own assignment, recorded after the attempt was dispatched. |
| `Pool.RetirementLaw` | internal/nodelaunch/reservations.go:319-343 | A proof is stored exactly on a row of the same assignment that is still retiring; one already retired is returned as it is. |
| `Pool.LiveBound` | internal/nodelaunch/reservations.go:172-226 | Live reservations never outnumber the configured slots. |
| `Pool.CapacityExactly` | internal/nodelaunch/reservations.go:206-226 | A fresh valid request is refused for capacity exactly when all slots are live. |
| `Pool.ReserveIdempotent` | internal/nodelaunch/reservations.go:187-199 | Repeating a `Reserve` returns the same reservation and changes nothing. |
| `Pool.FullPool` | internal/nodelaunch/reservations.go:206-226 | When no slot is free, the live reservations are as many as the slots. |
| `Pool.RoomInPool` | internal/nodelaunch/reservations.go:206-226 | With fewer live reservations than slots, a slot is free. |
| `Pool.Store.Reserve` | internal/nodelaunch/reservations.go:172-226 | A known operation gets its row back exactly when the request agrees with it; a new one gets a configured slot that no live row touches; a refusal changes nothing. |
| `Pool.Store.Lookup` | internal/nodelaunch/reservations.go:162-167 | Rejects malformed operations, reports missing ones and returns the stored row. |
| `Pool.Store.Prepare` | internal/nodelaunch/installation.go:31-67 | Dispatch is allowed exactly once, on a reserved row of this assignment without attempt or receipt; an existing receipt is returned exactly for the same manifest. |
| `Pool.Store.Record` | internal/nodelaunch/installation.go:81-102 | The receipt is stored exactly for an attempted reserved row of this assignment that has none. |
| `Pool.Store.ClaimStart` | internal/nodelaunch/reservations.go:232-253 | A start is granted exactly on a reserved row with its own receipt, and only moves it to starting. |
| `Pool.Store.BeginRetirement` | internal/nodelaunch/reservations.go:257-277 | Any known row leaves the live states, a retired one stays as it is. |
| `Pool.Store.ReconcileRetirement` | internal/nodelaunch/reservations.go:294-344 | A retiring row becomes retired exactly on an observation of its own assignment, taken between the start of the call and now, that shows starts fenced, processes gone, listener gone and routing detached. |
| `Pool.Store.Outstanding` | internal/nodelaunch/reservations.go:348-363 | Lists every live reservation, each once, in ascending UID order. |
| `Gate.Store.Intend` | internal/nodelaunch/control_linux.go:187-231 | An intent is persisted exactly when the file is readable for this assignment and the kind is still open to it, and adds exactly its own mark. |
| `Gate.Store.Inspect` | internal/nodelaunch/control_linux.go:158-168 | A reader gets the control state exactly when one is stored for this very assignment with no start mark ahead of its install mark; a missing file and an unusable one are told apart. |
| `Gate.IntentReadsBack` | internal/nodelaunch/control_linux.go:98-154 | A committed intent is what every later reader of that control file sees; an install or start is not permitted again; other operations read as before. |
| `Gate.RunSound` | internal/nodelaunch/control_linux.go:187-231 | With any number of controllers, crashes and retries, whoever holds a lock has its intent on disk and no action ran without one. |
| `Gate.AtMostOnce` | internal/nodelaunch/control_linux.go:187-231 | Per operation at most one install action and one start action ever run. |
| `Gate.StartAfterInstall` | internal/nodelaunch/control_linux.go:187-231 | A start action runs only after the install action of the same operation was intended. |
| `Gate.NothingAfterRetirement` | internal/nodelaunch/control_linux.go:187-231 | After a retirement intent no install and no start action of that operation runs. |
| `Gate.ControllerGoesThrough` | internal/nodelaunch/control_linux.go:187-231 | A permitted controller on a free lock persists its mark, then runs its action once, then frees the lock. |
| `Router.BeginPreserves` | internal/noderouter/router.go:253-292 | The first transaction of `Activate` keeps the route coherent, validated and fenced, and never moves the fence back. |
| `Router.CommitPreserves` | internal/noderouter/router.go:309-343 | So does the second, for a probe that may have been outrun by a newer fence or a retirement. |
| `Router.FencePreserves` | internal/noderouter/retirement.go:33-77 | Fencing a retirement keeps it too, and turns a pending fence of that operation into a failed one. |
| `Router.RejectPreserves` | internal/noderouter/retirement.go:101-125 | Publishing a rejected activation keeps it too. |
| `Router.Store.ActivateBegin` | internal/noderouter/router.go:241-292 | Each of invalid, retired, stale, conflicting, already active, failed, clashing and new candidates gets its own answer; only a new one moves the fence, and the live candidate stays. |
| `Router.Store.ActivateCommit` | internal/noderouter/router.go:309-344 | A probe overtaken by a retirement or a newer fence changes nothing; otherwise a healthy one puts exactly this candidate live and an unhealthy one fails it and leaves the old one live. |
| `Router.Store.FenceRetirement` | internal/noderouter/retirement.go:33-77 | The tombstone is set exactly when neither the live route nor another fence of the operation is in the way; a pending fence becomes failed and nothing else changes. |
| `Router.Store.PublishFailed` | internal/noderouter/retirement.go:101-125 | The failure is published exactly when the fence is older or this one and the live route uses neither operation nor listener. |
| `Router.Store.CheckDrainable` | internal/noderouter/drain.go:64-87 | The drain guard lets an action run exactly when the candidate has its tombstone and its listener neither serves nor is pending. |
| `Router.SoundRouteIsReportable` | internal/noderuntimeapi/status.go:42-61 | An observation of any sound route about its fenced operation passes `validObservation`, unless it calls a pending operation settled. |
| `Router.AcceptedReport` | internal/noderuntimeapi/status.go:42-61 | Whatever the management API accepts names the operation asked about, complete candidates of this runtime, and a live candidate its status allows; a pending one is never settled. |
| `RouterThreads.StepPreserves` | internal/noderouter/drain.go:8-106 | Every step of every request, probe, activation, wait and drain keeps counts exact, the guard single and the exclusion. |
| `RouterThreads.BalancedPreserved` | internal/noderouter/drain.go:8-14 | In-flight counts equal the number of holders after every step. |
| `RouterThreads.GuardFreezesDb` | internal/noderouter/drain.go:54-106 | While a drain holds its write guard, no step changes the database. |
| `RouterThreads.RunSound` | internal/noderouter/router.go:241-378 | The invariant holds in every state of every interleaving. |
| `RouterThreads.DrainExclusion` | internal/noderouter/drain.go:27-106 | While a drain action runs, no proxied request, no activation probe of any operation and no readiness probe of the retired operation is in contact with that backend; counts are exact. |
| `RouterThreads.ServingContinues` | internal/noderouter/router.go:348-378 | Meanwhile a new request is served, from another backend. |
| `RouterThreads.RetirementPermanent` | internal/noderouter/retirement.go:15-77 | Once retired, an operation is never live and never the pending fence again, even if its probe was already running. |
| `RouterThreads.FenceMonotone` | internal/noderouter/router.go:265-343 | The fence revision never decreases, its candidate at one revision never changes, and status, fence and live candidate stay coherent. |
| `RouterThreads.ActivationGoesThrough` | internal/noderouter/router.go:241-345 | From any state an admissible activation that nothing overtakes ends with its candidate live if healthy, and otherwise failed with the old one live, disturbing no other call or count. |
| `RouterThreads.OutrunChangesNothing` | internal/noderouter/router.go:309-327 | A probe that comes back after a newer fence or a retirement leaves the database as it is. |
| `RouterThreads.DrainGoesThrough` | internal/noderouter/drain.go:27-106 | A drain of a backend nothing uses fences its operation and, if no call is in flight there, gets to act under the guard; otherwise it waits and holds no guard. |
| `RouterThreads.RequestGoesThrough` | internal/noderouter/router.go:348-378 | A request is always served by whatever is live, and its count is given back. |
| `RouterHandles.StepPreserves` | internal/noderouter/ownership.go:15-63 | With any number of handles on one database, opening, closing, dying, entering and leaving upstream calls keep one owner and the exclusion of its drains. |
| `RouterHandles.RunSound` | internal/noderouter/ownership.go:15-63 | That invariant holds in every reachable state of all handles. |
| `RouterHandles.OneHandleServes` | internal/noderouter/ownership.go:12-57 | All calls in progress belong to one handle, which owns the lock and, closed or not, keeps it while any of them runs. |
| `RouterHandles.DrainExclusion` | internal/noderouter/drain.go:27-106 | While a drain acts on one handle, no call it must exclude touches the backend through any handle, and the counts of each handle are exact. |
| `RouterHandles.AdmittedExactly` | internal/noderouter/ownership.go:15-47 | A call is let in exactly on an open handle while no other owns the upstreams; a refused one changes nothing. |
| `RouterHandles.ClosedOwnerReleases` | internal/noderouter/ownership.go:49-63 | A closed owner gives up the upstreams exactly when no call is in progress. |
| `Protocol.StepPreserves` | internal/noderuntime/runner_linux.go:32-106 | Each of the sixteen durable steps of the deployment protocol keeps the invariant that ties inbox, pool, gate and router together. |
| `Protocol.CandidateValid` | internal/noderuntime/recovery_linux.go:14-23 | The candidate of any operation that holds or held a slot is valid for the router, on the listener of its own port. |
| `Protocol.InsertOccupied` | internal/nodelaunch/reservations.go:206-226 | A fresh slot never shares a listener with the one that serves. |
| `Protocol.SettleOccupied` | internal/noderuntime/runner_linux.go:99-105 | After settlement at most the serving operation occupies a slot. |
| `Runs.RunSound` | internal/noderuntime/runner_linux.go:32-106 | Every state reachable under steps, crashes, retries and any probe results satisfies the four-store invariant. |
| `Runs.RunForward` | internal/noderuntime/runner_linux.go:32-106 | Between any two states of a run, no store takes back work states, slot states, control marks, tombstones or the fence. |
| `Runs.ClaimsInOrder` | internal/noderuntime/inbox.go:202-230 | Over a whole run each operation is claimed at most once, claims come in strictly increasing revision order, and an earlier claim is settled when a later one is made. |
| `Runs.SafeReuse` | internal/nodelaunch/retire_linux.go:22-90 | Once the pool calls an operation retired, its slot was seen without process, listener, start or route, it is retired in the gate and the router, serves nothing, and no later step installs it, starts it or routes to it. |
| `Runs.SlotHandover` | internal/nodelaunch/reservations.go:206-226 | A UID or port goes to a new operation only after its former holder's process and listener were seen gone and it is gone for good from all three stores. |
| `Runs.ServingIsBacked` | internal/noderuntime/status_linux.go:58-61 | Whatever serves is on its own started, receipted slot, its listener is that slot's port, no other live reservation touches its UID or port, and the gate shows it started and not retired. |
| `Runs.NeverOutOfSlots` | internal/nodelaunch/reservations.go:172-226 | `Reserve` for the processing operation always succeeds: a fresh one finds a slot, a known one gets its row back unchanged. |
| `Runs.RejectNeverConflicts` | internal/noderouter/retirement.go:101-125 | Unless the processing operation serves, both transactions of `RejectActivation` commit and its backend is then drainable. |
| `Runs.RetireNeverConflicts` | internal/nodelaunch/retire_linux.go:22-61 | An occupied slot that does not serve can always be fenced and drained without changing the route. |
| `Runs.IdleMeansRetired` | internal/noderuntime/runner_linux.go:99-105 | When nothing is processing, every settled operation but the serving one is gone from all stores. |
| `Runs.ServingInProgress` | internal/noderuntime/recovery_linux.go:42-43 | The processing operation is the newest the router knows, and recovery's comparison decides exactly whether it serves. |
| `Runs.ActionsAtMostOnce` | internal/nodelaunch/control_linux.go:187-252 | Over a whole run the install action and the start action of an operation run at most once each. |
| `Runs.StartAfterInstall` | internal/nodelaunch/systemd_start_linux.go:23-77 | A start action runs only on a claimed slot whose receipt is stored, after its install action ran. |
| `Runner.Runner.ClaimNext` | internal/noderuntime/runner_linux.go:46-49 | Claims the next work; what it claims has no slot yet. |
| `Runner.Runner.ReserveSlot` | internal/noderuntime/runner_linux.go:51-55 | Reserves as the pool does; fails only by interruption. |
| `Runner.Runner.PrepareInstall` | internal/nodelaunch/installation.go:31-67 | Records the install attempt of a fresh reservation. |
| `Runner.Runner.InstallRelease` | internal/nodelaunch/control_linux.go:241-252 | Persists the install intent before the action; success means the action ran. |
| `Runner.Runner.RecordReceipt` | internal/nodelaunch/installation.go:81-102 | Records the receipt of an install that ran. |
| `Runner.Runner.ClaimStartOnce` | internal/noderuntime/runner_linux.go:80-82 | Claims the start of an installed slot. |
| `Runner.Runner.StartService` | internal/nodelaunch/systemd_start_linux.go:23-77 | The claim checks are executed and pass; success means the start intent was persisted and the action ran; failures are interruptions. |
| `Runner.Runner.CheckClaim` | internal/nodelaunch/systemd_start_linux.go:31-37 | The checks pass exactly when this very assignment is starting and carries its own receipt. |
| `Runner.Runner.RecoveryCandidate` | internal/noderuntime/recovery_linux.go:14-23 | Recovery gets a candidate exactly when the slot was assigned to this work, field by field, and has a listener; it is then the operation's candidate. |
| `Runner.Runner.FreshCandidate` | internal/noderuntime/runner_linux.go:57-64 | A fresh claim gets its candidate exactly when its port has a listener and the router finds it valid. |
| `Runner.Runner.Switch` | internal/noderuntime/runner_linux.go:86-95 | Activation puts exactly this candidate live, or fails for reasons outside the stores. |
| `Runner.Runner.RetireRoutedNode` | internal/nodelaunch/retire_linux.go:22-61 | Identity, drain, control and host checks are executed; those of the stores never refuse; success frees the slot with the route unchanged, failure has a cause outside, and without one there is none; nothing is launched. |
| `Runner.Runner.CheckIdentity` | internal/nodelaunch/retire_linux.go:27-38 | Accepts exactly the candidates that name the reservation, its project, runtime and artifact, and its port. |
| `Runner.Runner.ObserveRetirement` | internal/nodelaunch/retire_linux.go:66-90 | An observation is given exactly when the control file is readable and retired, the unit stopped and masked, and no process of the user, no cgroup member and no listener is left. |
| `Runner.Runner.ReleaseSlot` | internal/nodelaunch/retire_linux.go:51-61 | The slot is freed exactly when the host is clear and was looked at in time. |
| `Runner.Runner.RecoverProcessing` | internal/noderuntime/recovery_linux.go:25-77 | Recovery launches nothing; it leaves a serving operation serving alone and turns any other down for good; it settles the work unless something outside fails. |
| `Runner.Runner.RetireOthers` | internal/noderuntime/recovery_linux.go:42-67 | Recovery of a serving operation retires every other outstanding reservation. |
| `Runner.Runner.RetireEarlier` | internal/noderuntime/recovery_linux.go:49-66 | The revision check of recovery's loop cannot fail, and its round retires exactly that reservation. |
| `Runner.Runner.RejectAndRetire` | internal/noderuntime/recovery_linux.go:69-75 | Publishes the failure, frees the slot and leaves the live candidate alone. |
| `Runner.Runner.RejectActivation` | internal/noderouter/retirement.go:87-125 | Both transactions commit unless something outside fails, and the fence then names this candidate, failed. |
| `Runner.Runner.RunClaimed` | internal/noderuntime/runner_linux.go:50-105 | In time, success means the operation serves and everything before it is retired; past its deadline nothing is ever launched and success means it was turned down; it succeeds whenever nothing outside fails. |
| `Runner.Runner.Deploy` | internal/noderuntime/runner_linux.go:74-105 | Success means serving, everything else retired, settled and nothing processing. |
| `Runner.Runner.ProcessNext` | internal/noderuntime/runner_linux.go:32-106 | Unfinished work is left alone exactly until its deadline and then settled without launching anything; otherwise the lowest queued revision is taken and ends up serving alone if in time, turned down if not; every call is a run of the protocol, the stores never refuse it, and it fails only if something outside does. |
| `Status.InspectNodeRuntime` | internal/noderuntime/status_linux.go:16-91 | A report is given exactly when all readings support it; healthy, stopped and settled are claimed exactly on their evidence. |
| `Status.ReportsAreValid` | internal/noderuntimeapi/status.go:45-61 | Every report made from readings of a run passes `validObservation`. |
| `Status.ServingThroughout` | internal/noderuntime/status_linux.go:76-84 | Two equal snapshots of a serving route bracket nothing else. |
| `Status.StoreChecksExactly` | internal/noderuntime/status_linux.go:58-61 | For the active operation the store checks pass exactly when its slot was already starting when the reservation was read. |
| `Status.ServingPassesChecks` | internal/noderuntime/status_linux.go:58-61 | In particular they pass if the operation already served then. |
| `Status.SettledIsFinal` | internal/noderuntime/status_linux.go:62-74 | A settled report stays true: the work stays settled, and the operation serves over the read or is gone for good. |
| `Status.FirstDeployment` | internal/noderuntime/runner_linux.go:32-106 | On an empty installation every acceptable request can be deployed, in ten protocol steps. |
| `Status.ChecksCanFail` | internal/noderuntime/status_linux.go:28-61 | A concrete run in which the store checks fail for the serving operation: the reservation was read before its start was claimed. |
| `Container.StepPreserves` | internal/fleetdeploy/container_runtime.go:137-448 | Every durable write, deployer call, report, crash and outside move keeps the protocol invariant. |
| `Container.RunSound` | internal/fleetdeploy/container_runtime.go:137-448 | The invariant holds in every reachable state. |
| `Container.RunForward` | internal/fleetdeploy/container_runtime.go:94-116 | The fence never goes back, records are never forgotten or reused for another request, stages only move on. |
| `Container.VerdictsNeverContradict` | internal/fleetdeploy/container_runtime.go:306-448 | No request is ever reported both failed and succeeded. |
| `Container.NothingSentAfterFailure` | internal/fleetdeploy/container_runtime.go:144-156 | After a failed report the request is never sent to the deployer. |
| `Container.SentAtMostOnce` | internal/fleetdeploy/container_runtime.go:137-300 | The deployer is asked to deploy at most once per deployment ID. |
| `Container.SentWasAdmitted` | internal/fleetdeploy/container_runtime.go:137-165 | Whatever was sent had been admitted before: for this project and runtime, a release the worker can render, under the fence and with its deadline in the window. |
| `Container.NotSubmittedMeansNeverSent` | internal/fleetdeploy/container_runtime.go:126-135 | A record in stage not_submitted was never sent and never will be. |
| `Container.RecordsStayReadable` | internal/fleetdeploy/container_runtime.go:63-92 | Every record ever saved is accepted by the reader after a restart. |
| `Container.TrackedSuccessWasSent` | internal/fleetdeploy/container_runtime.go:403-448 | A tracked request is reported successful only if it was sent. |
| `Container.FailureIsNeverApplied` | internal/fleetdeploy/container_runtime.go:403-448 | A tracked request that was reported failed is not, and never becomes, applied by the deployer. |
| `Container.UnsentSuccess` | internal/fleetdeploy/container_runtime.go:352-361 | For every valid untracked request in its window there is a run that reports it successful though it was never sent. |
| `Container.UnsentExactly` | internal/fleetdeploy/container_runtime.go:306-365 | From a reachable state with no submission running, an unended request can be reported successful without ever being sent exactly when it is untracked, unsent so far and under its own fence. |
| `Container.RecoveryIsSticky` | internal/fleetdeploy/container_advance.go:46-127 | After recovery intent is saved, the only next stage is withdrawn and only applied deployments are advanced. |
| `Container.DeadStays` | internal/fleetdeploy/container_runtime.go:144-156 | A request that cannot be sent any more stays so under every step. |
| `Container.WonStays` | internal/fleetdeploy/container_runtime.go:403-448 | What a reported success leaves stays so under every step: dispatched for good and, if the deployer tracks it, sent and applied. |
| `ContainerWorker.Worker.SubmitContainerRuntime` | internal/fleetdeploy/container_runtime.go:137-300 | A recorded request is never sent again; a new one is sent only within its window and fence, and when nothing outside fails it is sent exactly if the client can do what is asked, with its tracking and any reported withdrawal on record. |
| `ContainerWorker.Worker.RejectBeforeSubmission` | internal/fleetdeploy/container_runtime.go:129-135 | Records the refusal of a request this call has not sent. |
| `ContainerWorker.Worker.Arm` | internal/fleetdeploy/container_runtime.go:179-257 | Success leaves the intent to dispatch on record, under the fence. |
| `ContainerWorker.Worker.Fire` | internal/fleetdeploy/container_runtime.go:258-300 | Sends once, within the deadline, or refuses. |
| `ContainerWorker.Worker.InspectContainerRuntime` | internal/fleetdeploy/container_runtime.go:306-365 | The verdict is exactly what record, clock, fence, health and the deployer's record say; failure needs a healthy previous release, success a healthy release under its fence. |
| `ContainerWorker.Worker.InspectTracked` | internal/fleetdeploy/container_runtime.go:403-448 | No answer or a pending record settles nothing; a receipt for something else is an error; applied means success exactly if the release is healthy; withdrawn means failure exactly if the previous release is, once it is saved. |
| `ContainerWorker.Worker.SettleTracked` | internal/fleetdeploy/container_runtime.go:428-438 | Saves a withdrawal before telling it. |
| `ContainerWorker.Worker.AdvanceContainerRuntime` | internal/fleetdeploy/container_advance.go:26-128 | Never deploys; an applied candidate is always advanced, a pending one exactly while dispatched, authorized and in time, and set to recovery from then on; a withdrawn one and anything else is left alone. |
| `ContainerWorker.Worker.WithdrawMissing` | internal/fleetdeploy/container_advance.go:70-99 | After a failed lookup, recovery intent is saved before the original is withdrawn. |
| `ContainerPortal.Portal.RequestContainerDeployment` | internal/portal/container_deployments.go:135-181 | A known key gets its deployment back or a conflict; a new one is queued above all others exactly when nothing is unfinished, the count allows it and the live runtime is the same. |
| `ContainerPortal.Portal.CancelContainerDeployment` | internal/portal/container_deployments.go:217-250 | Cancels exactly what was never dispatched. |
| `ContainerPortal.Portal.DispatchContainerDeployment` | internal/portal/container_dispatch.go:35-110 | The queued row is cancelled if it may not be deployed; otherwise its intent, over what last succeeded and for ten minutes, is committed and then at most one request is sent, and one is sent when nothing outside fails. |
| `ContainerPortal.Portal.ReconcileContainerDeployment` | internal/portal/container_reconciliation.go:67-159 | Never submits; the row ends exactly with the verdict the worker gives, and stays as it is otherwise. |
| `ContainerPortal.Portal.WorkContainerDeployment` | internal/portal/container_reconciliation.go:168-174 | While something runs nothing is sent; otherwise a queued row is put under way; rows, intents and final states are permanent. |
| `ContainerPortal.FinalIsTrue` | internal/portal/container_reconciliation.go:127-147 | A row recorded failed can never be sent; a row recorded succeeded was dispatched for good and, if the deployer tracks it, sent and applied. |
| `ContainerPortal.NeverStale` | internal/portal/container_dispatch.go:93-109 | The worker's fence admits whatever the portal dispatches next. |
| `Paths.CheckName` | internal/nodeartifact/artifact.go:159-174 | `safeName` accepts exactly the names whose components form a safe path. |
| `Paths.SafeNameLaw` | internal/nodeartifact/artifact.go:159-174 | A safe name spelled out: its size, depth, characters, components and the reserved names in every capitalization. |
| `Paths.CheckTarget` | internal/nodeartifact/artifact.go:175-195 | `safeTarget` accepts exactly the targets that climb first and then descend by name. |
| `Paths.JoinSplit` | internal/nodeartifact/artifact.go:163-164 | Splitting and joining a name is the identity. |
| `Paths.SplitJoin` | internal/nodeartifact/artifact.go:163-164 | Joining and splitting components is the identity. |
| `Paths.CleanTarget` | internal/nodeartifact/artifact.go:202 | Cleaning a safe target onto a directory climbs and then descends. |
| `Paths.CleanEscapes` | internal/nodeartifact/artifact.go:202-205 | A target that climbs above the root is left with a leading parent step. |
| `Links.StepAgrees` | internal/nodeartifact/artifact.go:202-215 | One lexical step and one walk through the tree arrive at the same place, or both nowhere. |
| `Links.FollowAgrees` | internal/nodeartifact/artifact.go:196-223 | Lexical and physical resolution give the same file, for every number of hops. |
| `Links.KernelFollows` | internal/nodeartifact/artifact.go:196-223 | Opening a resolved link from the root leads a kernel that follows links anywhere to the same file, in as many hops. |
| `Links.CyclesLeadNowhere` | internal/nodeartifact/artifact.go:196-200 | A link that leads back to itself leads to no file, however many steps are allowed. |
| `Links.RegularTarget` | internal/nodeartifact/artifact.go:196-223 | The visited set and the size bound find a file exactly when one lies within 32 steps; it terminates on every map. |
| `Links.CheckParents` | internal/nodeartifact/artifact.go:206-211 | Accepts exactly when every parent is a directory entry. |
| `Artifact.CheckEntry` | internal/nodeartifact/artifact.go:67-121 | The per-entry checks are exactly `EntryOk`. |
| `Artifact.ReadEntries` | internal/nodeartifact/artifact.go:60-125 | The first loop accepts exactly sound listings within the expanded bound and returns them. |
| `Artifact.AddParents` | internal/nodeartifact/artifact.go:131-142 | The second loop rejects exactly non-directories used as parents and adds exactly the missing ones, in any order. |
| `Artifact.CheckLinks` | internal/nodeartifact/artifact.go:146-152 | The third loop accepts exactly when every link leads to a regular file within 32 steps. |
| `Artifact.Inspect` | internal/nodeartifact/artifact.go:48-157 | `inspect` accepts exactly the acceptable archives and returns their entries closed under parents. |
| `Artifact.ReleaseIsClosed` | internal/nodeartifact/artifact.go:129-142 | Accepted entries have safe names, safe targets and real directories above everything. |
| `Artifact.AcceptedExactly` | internal/nodeartifact/artifact.go:129-152 | An archive is accepted exactly when, names and sizes being fine, every link leads the filesystem through real directories inside the root to a regular file in at most 32 hops. |
| `Artifact.LinksOpenFiles` | internal/nodeartifact/artifact.go:146-152 | In an accepted release, opening a link opens the regular file the checker found. |
| `ReleaseTree.MakeDirs` | internal/nodeartifact/extract.go:67-76 | Directory creation fails exactly where something else is in the way, and otherwise adds only the missing directories. |
| `ReleaseTree.WriteFiles` | internal/nodeartifact/extract.go:59-97 | Writing directories and files in any order never fails and stages exactly the non-link part. |
| `ReleaseTree.WriteLinks` | internal/nodeartifact/extract.go:98-111 | Adding the links afterwards completes exactly the image of the entries. |
| `ReleaseTree.Extract` | internal/nodeartifact/extract.go:22-135 | Extraction succeeds exactly on acceptable archives and builds exactly their entries: directories and executables 0700, other files 0600, links and contents as listed. |
| `ReleaseTree.SealRelease` | internal/nodelaunch/install_linux.go:107-160 | Directories and files with any execute bit become 0555, other files 0444, links stay. |
| `ReleaseTree.InstallRelease` | internal/nodelaunch/install_linux.go:63-100 | An acceptable archive is installed as exactly its entries, executables 0555 and other files 0444. |
| `ReleaseTree.CheckNode` | internal/nodeartifact/verify.go:46-92 | A regular entry needs mode 0555 exactly if it is executable and 0444 otherwise, its own bytes and no special bit; directories 0555; links their target. |
| `ReleaseTree.VerifySealed` | internal/nodeartifact/verify.go:16-103 | Accepts a tree exactly when it holds the archive's entries and nothing else, each in its sealed mode, which is the tree extraction and sealing build. |
| `ReleaseTree.Walk` | internal/nodeartifact/export.go:29-131 | The recursive walk lists everything below a directory, each path once, or there is a path, count or size it must refuse. |
| `ReleaseTree.ListingAccepted` | internal/nodeartifact/export.go:132-141 | A listing of a tree is acceptable exactly when the tree is exportable, and then inspects back to it. |
| `ReleaseTree.Export` | internal/nodeartifact/export.go:20-142 | Export succeeds exactly on exportable trees, and its archive inspects back to exactly the exported tree. |
| `ReleaseTree.ModesReadBack` | internal/nodeartifact/extract.go:76-79 | Reading the modes of an extracted or sealed tree back gives exactly the entries of the archive. |
| `ReleaseTree.InstalledIsExportable` | internal/nodeartifact/export.go:20-142 | Whatever can be installed can be exported again, and the exported archive has the same entries. |
| `Billing.StepPreserves` | internal/portal/billing_subscriptions.go:35-85 | Every begin, store, webhook, edit and lost read of any number of workers keeps the fences. |
| `Billing.RunSound` | internal/portal/billing_subscriptions.go:35-85 | The fence invariant holds in every reachable state. |
| `Billing.SnapshotsAreFresh` | internal/portal/billing_subscription_events.go:52-61 | A stored subscription snapshot comes from a read of that subscription begun after every webhook that invalidated it. |
| `Billing.GenerationsIncrease` | internal/portal/billing_subscriptions.go:63-73 | Successful stores of one subject carry strictly increasing generations. |
| `Billing.BindingsArePermanent` | internal/portal/billing_charges.go:56-79 | Once bound to subscription, customer, invoice and payment, a charge stays bound so. |
| `Billing.PricesMatchPlans` | internal/portal/billing_prices.go:50-62 | A stored price is always the configured price of an enabled plan. |
| `BillingStore.Store.ReconcileBillingSubscription` | internal/portal/billing_subscriptions.go:25-86 | Success stores the provider's answer under the generation taken before the read; with no other worker about, it succeeds exactly on an answer that describes the row, now. |
| `BillingStore.Store.ProcessBillingSubscriptionEvent` | internal/portal/billing_subscription_events.go:15-66 | A waiting event, in one step, invalidates its own subscription, puts that work at the start of the queue and is processed, exactly when it names a known subscription under its own customer; a processed, foreign or refused one changes nothing. |
| `BillingStore.Store.ReconcileBillingCharge` | internal/portal/billing_charges.go:21-80 | Success stores the provider's observation and binding under its own fence; with no other worker about, exactly for a genuine observation of a known subscription that agrees with an earlier binding. |
| `BillingStore.Store.ProcessBillingChargeEvent` | internal/portal/billing_charge_events.go:15-81 | With other workers active throughout, success on a waiting event means that some signal of it during the call, by whichever worker, invalidated the subscription its charge is bound to and put that work at the start of the queue; a processed event changes nothing. |
| `BillingStore.Store.ConfigureBillingPlan` | internal/portal/billing_checkouts.go:41-48 | An edit takes effect and drops the stored price; repeating a configuration changes nothing; malformed ones are refused. |
| `BillingStore.Store.RefreshBillingPriceOnce` | internal/portal/billing_prices.go:20-64 | The enabled plan due longest is set aside for a minute and read; its price is stored, and the next refresh set five minutes ahead, exactly if it is that of the plan as configured and enabled now. |
| `BillingStore.Store.StoreAnswer` | internal/portal/billing_subscriptions.go:47-85 | The answer is stored exactly if it is for this row, in the time of the read and under its generation; a charge it names is put on record once. |
| `BillingStore.Store.StoreObservation` | internal/portal/billing_charges.go:40-80 | The observation is stored exactly if it is genuine, for a known subscription of its customer, under its generation and an unchanged binding. |
| `BillingStore.Store.StorePriceAnswer` | internal/portal/billing_prices.go:45-64 | The price is stored exactly if it is the plan's, the plan is unchanged and enabled, and the generation is the read's. |
| `BillingStore.Store.FindDuePlan` | internal/portal/billing_prices.go:33 | Finds an enabled plan that has been due the longest, exactly when one is due. |
| `Checkouts.RequestPreserves` | internal/portal/billing_checkouts.go:49-103 | A new checkout keeps one unexpired checkout per workspace and every relation. |
| `Checkouts.BindPreserves` | internal/portal/billing_checkouts.go:159-200 | Binding a session keeps sessions unique and never rebinds. |
| `Checkouts.EventPreserves` | internal/portal/billing_checkout_events.go:19-113 | An event, whatever its order, keeps the one-to-one relation and never undoes completion or expiry. |
| `Checkouts.RunSound` | internal/portal/billing_checkout_events.go:19-113 | In every reachable state a session has one checkout, a workspace one unexpired checkout, and a checkout its one subscription exactly when completed. |
| `Checkouts.RunForward` | internal/portal/billing_checkout_events.go:67-101 | Completion and expiry are absorbing, sessions never rebind, subscriptions and settled events are permanent. |
| `Checkouts.CompletionLaw` | internal/portal/billing_checkout_events.go:19-113 | A genuine completion completes its checkout and creates the subscription with that checkout's identity exactly when neither is bound elsewhere. |
| `Checkouts.ExpiryLaw` | internal/portal/billing_checkout_events.go:62-76 | A genuine expiry expires its open checkout, is ignored once that is completed, and touches no subscription. |
| `Checkouts.UnmatchedLaw` | internal/portal/billing_checkout_events.go:19-61 | Any other event changes nothing: settled ones are acknowledged, foreign ones passed on, unmatched ones refused. |
| `Checkouts.Store.RequestBillingCheckout` | internal/portal/billing_checkouts.go:49-103 | An occupied workspace gets its unexpired checkout back for the same plan and a conflict for another, and nothing changes; otherwise a pending checkout is added. |
| `Checkouts.Store.BindBillingCheckout` | internal/portal/billing_checkouts.go:159-200 | A session is bound exactly to a pending checkout while no other has it; repeating a binding is fine, changing it is not; nothing else changes. |
| `Checkouts.Store.ProcessBillingCheckoutEvent` | internal/portal/billing_checkout_events.go:19-113 | The imperative event processing, with its lookups by loop, is the transaction `EventTx`. |
| `BillingWork.Backoff` | internal/portal/billing_worker.go:67-76 | The doubling loop gives min(3600, 30·2^n) after n earlier attempts. |
| `BillingWork.AckUnderOwnLease` | internal/portal/billing_worker.go:77-92 | An acknowledgement that counts finds the work as its own lease left it: nobody leased, acknowledged or reset it since, and the lease still runs. |
| `BillingWork.LostStaysLost` | internal/portal/billing_worker.go:77-92 | A lease that was taken away never comes back. |
| `BillingWork.RunSound` | internal/portal/billing_worker.go:48-92 | Leases are tokens that were handed out, none of them on two tasks. |
| `BillingWork.ComesBack` | internal/portal/billing_worker.go:67-83 | Work that failed or recurs is due at every time from its next attempt on, until it is leased or put back. |
| `BillingWork.StaysDone` | internal/portal/billing_worker.go:67-83 | One-off work that succeeded is never leased again unless a webhook puts it back. |
| `BillingWork.TakenWhenFree` | internal/portal/billing_worker.go:48-60 | Work is taken only when not done, at its time and under no running lease, and then held for a minute with one more attempt counted. |
| `BillingWork.LeasesApart` | internal/portal/billing_worker.go:48-60 | Over a run two leases of the same work never overlap, unless it was settled or put back in between. |
| `BillingWork.RestsBetween` | internal/portal/billing_worker.go:67-83 | After an outcome the work is not taken before its delay has passed, unless a webhook puts it back. |
| `BillingSystem.StepPreserves` | internal/portal/billing_subscription_events.go:52-61 | The tables, the queue and the stored webhooks move together: every joint step keeps both invariants, and the work of a subscription is never done. |
| `BillingSystem.RunSound` | internal/portal/billing_worker.go:23-94 | That holds in every reachable state. |
| `BillingSystem.SignalledOnce` | internal/portal/billing_charge_events.go:58-75 | Each webhook is consumed at most once, however often it is delivered and by however many workers. |
| `BillingSystem.SignalKeepsWork` | internal/portal/billing_subscription_events.go:56-58 | From a webhook on, its subscription's work is queued and not done, and any lease on it was taken after the webhook. |
| `BillingSystem.AckAfterSignal` | internal/portal/billing_worker.go:77-92 | An acknowledgement that counts after a webhook is for work leased after it. |
| `BillingSystem.SnapshotAfterSignal` | internal/portal/billing_subscription_events.go:52-55 | A snapshot present after a webhook comes from a provider read begun after it. |
| `BillingSystem.ChargeSignals` | internal/portal/billing_charge_events.go:64-75 | A consumed charge event has invalidated the subscription that charge is bound to for good. |
| `BillingSystem.AckUnderOwnLease` | internal/portal/billing_worker.go:77-92 | In a joint run, between a lease and the acknowledgement that counts for it nobody leases or settles the work and no webhook puts it back. |
| `BillingSystem.ComesBack` | internal/portal/billing_worker.go:67-83 | In a joint run failed work and the work of a subscription come back at their next attempt. |
| `BillingSystem.StaysDone` | internal/portal/billing_worker.go:67-83 | In a joint run the work of a consumed webhook is never leased again. |
| `BillingStore.Store.FindDue` | internal/portal/billing_worker.go:48-51 | Finds a due task with the earliest next attempt, exactly when one is due. |
| `BillingStore.Store.Discover` | internal/portal/billing_worker.go:36-45 | Every subscription, waiting webhook and unserved request gets work in the queue; work already there is left alone. |
| `BillingStore.Store.Acknowledge` | internal/portal/billing_worker.go:79-92 | Exactly while its own lease runs, the work is released: done if it succeeded and does not recur, attempts reset on success, next attempt after the delay; otherwise nothing changes. |
| `BillingStore.Store.BillingWorkOnce` | internal/portal/billing_worker.go:23-94 | Work is leased exactly when something is due, and then the earliest; its outcome is settled under that lease, done or due again after its delay, or the result is a conflict and the lease is lost; with no other worker about it is always settled, and succeeds exactly if the provider's answers allow it. |

## Left out

- HTTP handlers, TLS, tokens, JSON and base64 encodings, SQL text and schema migrations: transport and storage form; transactions are atomic steps on maps.
- Canonical re-encoding of stored JSON: records are values, so a record that decodes differently from what was encoded (invalid UTF-8, unknown fields) does not occur in the model.
- The systemd, procfs, cgroup and mount commands behind install, start, retire and observe: their outcomes are environment choices; only the order of persisted intent and action is kept.
- Archive validation inside `SubmitNodeRuntime` and `Claim`: its verdict is a parameter there; the validation itself is `Artifact`.
- RouterThreads.DrainExclusion: readiness probes of other operations pinned to the same listener are not excluded by the drain, in the code as in the model.
- Several runners on one set of stores: the source runs one; each store on its own is proved under concurrent callers.
- ZIP containers, compression and the compressed-size bound: an archive is its sequence of entries.
- ReleaseTree.Export: the order of entries in the archive, the re-check that a file did not change while it was read, and input/output errors.
- ReleaseTree.Extract: the random directory name, fsync order and removal after a failure.
- ReleaseTree.SealRelease: ownership by root is taken as given.
- The URL parser behind container domains and checkout addresses: only the separators it rejects are modelled.
- ContainerPortal.Portal.RequestContainerDeployment: authorization, the form of request keys and the existence of the release.
- Credential, environment, rendering and preflight work before a container is sent: one environment choice; its failures are the refusals.
- The two checks of a previous release's health (plain and after a withdrawal) are one environment answer.
- BillingStore.Store.RefreshBillingPriceOnce: which of several plans due equally long comes first.
- BillingStore.Store.FindDuePlan: the order by name among plans due equally long.
- BillingStore.Store.FindDue: the order by kind and reference among equally early work.
- BillingStore.Store.BillingWorkOnce: customers and checkouts waiting for the provider come as a parameter, the provider's answer to them as an environment choice; checkout events are consumed in `Checkouts`.
- BillingStore.Store.Discover: reads customers and checkouts waiting for the provider from its parameter.
- BillingStore.Store.ProcessBillingChargeEvent: the decoding of the stored payload; an event already names its charge. The same holds for subscription events.
- Checkouts.Store.RequestBillingCheckout: the price and customer lookups are parameters.
- Checkouts.Store.BindBillingCheckout: the URL parser is approximated by the separators it rejects.
- The billing store's several errors for what is missing (denied, unmatched, not found) are one error.
- Client labels, invitations, quotes, money parsing, invoices and the Stripe, GitHub and registry clients: field checks on foreign data.
