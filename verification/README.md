# A verified model of the self-healing controller

The controller watches Pods, notices a crash loop, asks a classifier what is wrong, lets a deterministic gate
decide whether to act, and then repairs the owning Deployment once or gives it up. This project models that chain
in Dafny and proves what it promises over every input and every interleaving.

| part | files |
|---|---|
| incident records and the lock-held calls, as values and as mutable objects | `Incidents`, `IncidentManager` |
| all interleavings of reconciles, goroutines and outside edits | `Protocol`, `Stories`, `AuditLines`, `Quiescence`, `Progress`, `Verdicts` |
| the cluster, and what one attempt does to it | `Cluster`, `Resolver`, `Actions`, `Snapshots`, `Verifier`, `Lifecycle`, `Attempts`, `Service` |
| evidence, classifier, validator, fallback, gate | `Evidence`, `Validator`, `Classification`, `MockClassifier`, `AnyClassifier` |
| `Reconcile` and its goroutine on the mutable state | `Workers`, `Reconcile` |
| shared vocabulary | `Basics`, `Text`, `Sorting` |

How the layers meet:

- `Incidents` states each critical section of the incident manager as a function on a record value.
  `IncidentManager` has the map of mutable records, and each method is proved to do to it what the function says.
- `Protocol` lets any number of workers take those critical sections in any order. One step is one lock-held call
  or one thing done between two calls; `Next` is total, so every sequence of steps is a run. The history it keeps
  is what the whole-run properties speak about.
- `Reconcile` has the controller's control flow on the mutable table. Every lock-held call is proved to be one
  `Protocol` step under a guard about the calling worker only, and `OthersLeaveAWorkerAlone` shows that nobody
  else can disturb that guard; so the properties of all runs are properties of the program.
- `Service` runs one attempt against `Cluster.ApiServer`, where between any two calls everybody else may do
  anything (`others`), each call may fail (`fails`), clock readings drift (`lag`), waits may be cancelled and audit
  appends may be refused (`refuses`). The API server and the audit log write every call and every append they are
  asked for into one `Journal`. `Attempts` says, from that world alone, how an attempt ends and why (`EndingIn`) and
  which journal it leaves (`IsTrail`), how many entries the log keeps of it (`IsLogged`) and how it leaves the
  cluster (`Leaves`); `Remediate` is proved against all four.

## Where the code and its comments disagree

The model follows the code. Each item is a theorem: the concrete failure and the exact condition.

- A generation that cannot be read is passed on as 0. The comment at `internal/controller/pod_controller.go:142-146`
  says an exhausted record is then left alone; it is dropped and reopened unless it stores 0
  (`Incidents.FailedReadReopensExhausted`).
- The generation is read before the lock is taken, so a stale one can be stored; the next fresh look then reopens
  the incident without any outside edit, and exactly then (`Quiescence.StaleReadReopens`).
- The cooldown is documented to end early only for a human or a new rollout. endAttempt does not refresh the stored
  generation, which is the one the last look was told, be it the claiming look or one skipped since. Within the
  cooldown fresh looks leave the Deployment alone exactly when the generation stored when the attempt ends is the
  live one (`Quiescence.CooldownHoldsIffGenerationStored`). So a recovered `rollout_undo` whose claim read a fresh
  generation loses its cooldown to its own write, unless a look was skipped between the write and the end
  (`Quiescence.OwnWriteEndsCooldownIffUnseen`).
- endAttempt and the close are separate critical sections. A close overtaken by a new incident leaves one incident
  without a terminal line and gives another two (`AuditLines.OvertakenCloseMiscounts`). The lines of all incidents
  are right after every step of a run exactly when all its closes are on time (`AuditLines.LinesRightFromTheStart`).
- Escalated and rejected incidents are documented to end at attempt 0. That holds for a decision gate if and only
  if, on the evidence of one incident, it never may both act and not act (`Verdicts.EscalatesAtZeroIffActsAlike`).
  The mock meets this when it always answers in time, whatever the Pod is called; with timeouts it does not, as the
  fallback decides otherwise (`MockClassifier.MockNeverEscalatesLateIff`, `MockClassifier.TimeoutsDisagree`). A
  classifier of which nothing is known meets it only where no evidence supports any action
  (`AnyClassifier.AnyNeverEscalatesLateIff`).
- The gate reads the proposal and not the validator's verdict. With an identifier that is empty or not trimmed the
  fallback fails its own validation and may still be acted on, exactly on transient evidence
  (`Classification.GateActsOnInvalidOutcomeIff`). API-server names are never of that kind.

## Model

| member | source | states |
|---|---|---|
| Incidents.BackoffValues | internal/controller/incident.go:204-210 | the two waits the budget allows are 30 s and 60 s |
| Incidents.AdmitCases | internal/controller/incident.go:89-154 | every answer of beginAttempt explained by the record: a new incident is always claimed, a kept one is skipped unchanged but for the generation, claimed only when free, open, within budget and past the backoff, or exhausted only when free, open and out of budget |
| Incidents.FinishedIncidentLook | internal/controller/incident.go:98-136 | a finished incident is left alone exactly while its stored generation is observed and it is exhausted or cooling down; any other look opens a new incident with no attempts and no evidence |
| Incidents.FailedReadReopensExhausted | internal/controller/pod_controller.go:142-155 | a failed generation read reopens an exhausted incident iff the stored generation is not 0 |
| Incidents.NeverSkippedForever | internal/controller/incident.go:117-154 | five minutes after the last release every record that is neither in flight nor exhausted gets a claim or the end of its budget, and which of the two |
| Incidents.KeysAreInjective | internal/controller/incident.go:74-77 | Deployments with distinct names have distinct keys, as namespaces hold no slash |
| Incidents.OtherKeysDoNotInterfere | internal/controller/incident.go:89-302 | for any interleaving of calls on many keys, a key's record and all replies to it are those of its own calls run alone |
| IncidentManager.CloneStrings | internal/controller/incident.go:267-269 | a fresh array with the same contents |
| IncidentManager.IncidentRecord.Take | internal/controller/incident.go:138-153 | the decision on an open record, in place, is the specified one |
| IncidentManager.IncidentTable.CurrentRecord | internal/controller/incident.go:96-137 | drops a retired record and installs a new one in place; every other key keeps its own object |
| IncidentManager.IncidentTable.BeginAttempt | internal/controller/incident.go:89-154 | the mutable table changes in one row, to the record and with the answer the specification gives |
| IncidentManager.IncidentTable.RecordAttempt | internal/controller/incident.go:161-172 | counts on the present record and returns the number, 0 and no change on an absent one |
| IncidentManager.IncidentTable.EndAttempt | internal/controller/incident.go:181-202 | releases the claim and either dates the attempt or ends the incident; nothing on an absent record |
| IncidentManager.IncidentTable.IncidentEvidence | internal/controller/incident.go:260-270 | hands out a fresh copy of the frozen bundle, so callers cannot reach the record through it |
| IncidentManager.IncidentTable.FreezeEvidence | internal/controller/incident.go:275-285 | stores a fresh copy of the caller's events |
| IncidentManager.IncidentTable.ClosedIncident | internal/controller/incident.go:290-302 | the terminal snapshot, exactly when there is one |
| Protocol.NextSound | internal/controller/incident.go:89-202 | every step of anybody keeps: each holder's record present, its own, claimed and open; at most one holder per key; in flight only with a holder; budget never exceeded; ids unique |
| Protocol.ClaimsAreExclusive | internal/controller/incident.go:140-153 | in every run a key is in flight exactly while a live holder exists, and there is at most one |
| Protocol.HolderKeepsItsRecord | internal/controller/incident.go:161-202 | whatever anybody does, a claimed record is neither dropped nor replaced before its holder's own endAttempt, and that is the only step that ends the claim |
| Protocol.WorkersAreNeverStuck | internal/controller/pod_controller.go:155-304 | at every stage a worker has a next step, whatever it collects, decides or obtains |
| Protocol.WorkersMoveOn | internal/controller/pod_controller.go:155-304 | every step of a worker, spec writes included, brings it nearer to leaving, so every claim is released |
| Stories.NextTold | internal/controller/incident.go:89-285 | every step keeps every incident's story well told and in agreement with its record |
| Stories.EveryIncidentIsWellTold | internal/controller/incident.go:140-210 | in every run, for every incident: dispatches numbered 1, 2, ... without a gap and at most three, each claim after the backoff from the end of the attempt before it, every claim released once, at most one end, exhausted only after three attempts, one bundle collected and seen by all its classifications, and at most two moves of the generation for each attempt, so at most six |
| Stories.GenerationIsAccountedFor | internal/controller/incident.go:103-111 | in every run a Deployment's generation is what outside edits and the told moves of its incidents made it |
| AuditLines.NextAccounted | internal/controller/incident.go:290-342 | a step whose close is on time keeps every incident's terminal lines exact, debts of pending closes included |
| AuditLines.ExactlyOneTerminalLine | internal/controller/incident.go:304-342 | in a run whose closes are on time, every ended and closed incident has exactly one terminal line, from Remediate when it recovered and from the controller otherwise, with the number of its attempts |
| AuditLines.CloseKeepsAccountIffOnTime | internal/controller/incident.go:335-342 | one close keeps every incident's lines right iff it is on time |
| AuditLines.LinesAlwaysRightIffOnTime | internal/controller/incident.go:304-342 | from any sound state, the lines of all incidents are right after every step of a run iff all its closes are on time |
| AuditLines.LinesRightFromTheStart | internal/controller/incident.go:304-342 | the same for every run from an empty controller |
| AuditLines.OnTimeIffEveryCloseAsOwed | internal/controller/incident.go:332-342 | the closes are on time iff each of them appends exactly the line its worker owes |
| AuditLines.CloseAsOwed | internal/controller/incident.go:335-342 | one close writes what its worker owes iff it still finds its own incident, or owes nothing and finds nothing to log |
| AuditLines.PromptRunsAreOnTime | internal/controller/pod_controller.go:155-164 | if no look overtakes an outstanding close on its key, every close is on time |
| AuditLines.OvertakenCloseMiscounts | internal/controller/pod_controller.go:284-288 | a run in which one incident ends with no line and another with two |
| Quiescence.SilentIffInForce | internal/controller/incident.go:98-126 | in every continuation of a finished incident no attempt is claimed iff every look observes the stored generation and, unless it is exhausted, comes within the cooldown |
| Quiescence.SilentIffGenerationUnseen | internal/controller/incident.go:98-126 | in every continuation of an exhausted incident no attempt is claimed iff every look is told the stored generation |
| Quiescence.QuietUntilOutsideEdit | internal/controller/incident.go:103-126 | when the generation is read with the look that spends the budget, nothing is claimed on the Deployment in any continuation of fresh reads without an outside edit |
| Quiescence.StaleReadReopens | internal/controller/pod_controller.go:147-155 | with the read apart from the look, the next fresh look claims again iff the stored generation was stale |
| Quiescence.OutsideEditReopens | internal/controller/incident.go:98-115 | an outside edit ends the silence at the next fresh look |
| Quiescence.CooldownHoldsIffGenerationStored | internal/controller/incident.go:98-202 | when an attempt ends its incident, fresh looks within the cooldown and no outside edit leave the Deployment alone iff the generation stored at that end is the live one |
| Quiescence.SkippedLookRefreshes | internal/controller/incident.go:138-142 | a look at a Deployment whose attempt is in flight starts nothing and stores the generation it was told |
| Quiescence.OwnWriteEndsCooldownIffUnseen | internal/controller/incident.go:103-202 | an attempt that rewrites the spec and recovers, with a fresh generation stored, loses its cooldown iff no look was skipped between the write and the end |
| Progress.FailingIncidentIsGivenUp | internal/controller/incident.go:138-210 | an incident whose attempts all fail is exhausted by the first look later than three attempts, two gaps between looks and 90 s after its first claim, in every interleaving |
| Progress.BrokenDeploymentFallsSilent | internal/controller/incident.go:103-126 | from that look on, with fresh reads and no outside edit, nothing is claimed on the Deployment any more |
| Progress.SilentAtMinuteTen | docs/measurement-definitions.md:104-112 | so it is silent at minute ten when attempts last at most two minutes and looks come every minute |
| Verdicts.EscalatesAtZeroIffActsAlike | internal/controller/incident.go:156-172 | escalated and rejected incidents never consumed an attempt, in every run, iff where the gate may act it may do nothing else, whatever Pod is crashing and whatever else the verdict depends on |
| Verdicts.MixedVerdicts | internal/controller/pod_controller.go:220-257 | otherwise a run in which an incident escalates or is rejected after an attempt |
| Cluster.ApiServer.UpdateSpec | internal/safety/snapshot.go:76-80 | an update made from a stale object is refused; an accepted one changes one spec and its generation; the journal tells which |
| Resolver.DeploymentPods | internal/safety/pod_resolver.go:96-149 | the listed Pods and the UIDs of exactly the ReplicaSets the Deployment controls; an error iff the Deployment or its selector is missing |
| Resolver.Resolve | internal/safety/pod_resolver.go:27-65 | the in-place selection yields the specified Pod |
| Resolver.ResolvedIsNewestEligible | internal/safety/pod_resolver.go:36-64 | not-found iff no Pod is eligible; otherwise an eligible Pod with none newer, nor equally new with a greater name |
| Resolver.SelectionIgnoresListOrder | internal/safety/pod_resolver.go:36-64 | the selection and the captured UIDs do not depend on the order of the lists |
| Resolver.CapturePreActionPodUids | internal/safety/pod_resolver.go:70-94 | the loop collects exactly the UIDs of the Pods the Deployment controls |
| Resolver.OldPodsNeverSelected | internal/safety/pod_resolver.go:151-174 | no Pod owned before the action, nor one with the original name, is eligible after it |
| Actions.PriorReplicaSet | internal/actions/actions.go:54-89 | a controlled ReplicaSet of greatest revision strictly below the current one, none exactly when there is none |
| Actions.RolloutUndoDeployment | internal/actions/actions.go:36-93 | each error has exactly its own cause, success means none of them; then the live Deployment has the template of an undo target and is otherwise as read; on error nothing was written; no call beyond a read, a list and one update |
| Actions.RestartCrashingPod | internal/actions/actions.go:22-31 | fails exactly when a call fails; otherwise the Pod is gone or was marked for deletion, and nothing else changed |
| Actions.Execute | internal/safety/service.go:105-107 | succeeds exactly when nothing is in the way of the action, and then has its effect; a failed one left only what others did; its calls are the action's own |
| Actions.EffectedChangesOnlyItsObject | internal/actions/actions.go:22-93 | an action changes at most the one object it is meant for |
| Actions.UndoGoesBack | internal/actions/actions.go:54-92 | a successful undo leaves a template of strictly older revision of the same Deployment and moves the generation at most by one |
| Snapshots.Capture | internal/safety/snapshot.go:35-54 | the snapshot holds the spec and revision live at that moment |
| Snapshots.Restore | internal/safety/snapshot.go:59-81 | each error has exactly its own cause; whatever was written since, success leaves the captured spec live; no write when it already was; nothing else moves |
| Verifier.Verify | internal/safety/verifier.go:91-165 | recovered iff some poll before the deadline ends it is ready and every later observation is steady up to the first check at or past the end of the window; error iff the call is invalid, the resolver fails or a wait is cancelled; it polls, reads and asks the clock exactly until that is settled, within the bounds; a recovery comes no earlier than one window after the start |
| Verifier.AwaitReady | internal/safety/verifier.go:100-123 | the loop stops at the first poll that does not keep polling, with that poll's meaning |
| Verifier.Watch | internal/safety/verifier.go:129-164 | the loop ends recovered only when the whole window was steady, and otherwise at the first unsteady or cancelled check |
| Verifier.PollingDecides | internal/safety/verifier.go:100-123 | a first phase that ends without a ready Pod rules out recovery and settles whether the call fails |
| Verifier.WatchingDecides | internal/safety/verifier.go:129-164 | the check that ends the second phase settles the outcome |
| Verifier.PollsAreBounded | internal/safety/verifier.go:114-122 | as many polls as fit at full intervals into the readiness timeout, rounded up |
| Verifier.ChecksAreBounded | internal/safety/verifier.go:144-155 | as many checks as fit at full intervals into the window, rounded up |
| Verifier.RecoveryIsPunctual | internal/safety/verifier.go:96-151 | with exact waits recovery comes exactly one window after the Pod was found ready, within both timeouts of the call |
| Lifecycle.StateMachine.Transition | internal/safety/state_machine.go:57-63 | an illegal step is refused and changes nothing |
| Lifecycle.WalksAreTwoLifecycles | internal/safety/state_machine.go:19-43 | what the table allows is exactly the beginnings of two lifecycles |
| Attempts.WritesHaveTheirPlace | internal/safety/service.go:79-134 | in every trail each write is the last call of the one execution, made after the snapshot was read and the UIDs were captured, or the last call of the one restore, made after a verification that did not recover and did not fail |
| Attempts.JournalIsTrail | internal/safety/service.go:71-141 | for every combination of facts and refused appends, what an attempt adds to the journal is the beginning of one script, ended where its error says |
| Attempts.EntriesAreTheNotes | internal/safety/service.go:46-63 | for every combination of facts and refused appends, the log keeps one entry for every append the attempt asks for, but for the refused one |
| Attempts.WholeLogIffNoError | internal/safety/service.go:71-142 | the entries written are the whole lifecycle iff the attempt ends without an error, and never more |
| Attempts.VerificationDecides | internal/safety/service.go:112-141 | once the verification has begun, its verdict, the restore and the log alone decide the error, the rest of the journal and the number of entries |
| Attempts.UnhinderedAttemptsSucceed | internal/safety/service.go:36-142 | with no refused append, failed call, cancelled wait or missing object, and nothing in the way of a restore where one is needed, the attempt succeeds, recovered iff the verification recovers |
| Attempts.RecoveredPodIsGenuine | internal/safety/service.go:91-126 | the Pod behind a recovery was a live Ready Pod of the Deployment when selected, neither the original nor one from before the action, and the same, Ready and not restarted at every check of the window |
| Attempts.CheckWasHealthy | internal/safety/verifier.go:129-164 | the same for one check |
| Service.RemediationService.Record | internal/safety/service.go:46-63 | an entry with the event's identity and the clock's time, kept iff the log takes it |
| Service.RemediationService.Transition | internal/safety/service.go:64-69 | an illegal step is an error and records nothing; a legal one fails iff the log refuses it |
| Service.RemediationService.TakeSnapshot | internal/safety/service.go:71-90 | fails exactly on a refused append or a Deployment that cannot be read, has made exactly the calls up to there, and changed nothing |
| Service.RemediationService.Act | internal/safety/service.go:91-111 | the UIDs are captured, then the action runs once; each error has exactly its own cause and leaves the cluster to others |
| Service.RemediationService.VerifyNow | internal/safety/service.go:112-115 | the answer is the verdict of the verification on the cluster as it was from then on, after exactly the reads and clock readings it needs; a recovery comes with its proof |
| Service.RemediationService.RollBack | internal/safety/service.go:128-141 | one restore, each error has exactly its own cause, the number of entries is exact, and the cluster is as it was before a refused ROLLING_BACK, left to others by a failed restore and otherwise has the captured spec live |
| Service.RemediationService.Conclude | internal/safety/service.go:112-142 | the verdict decides between reporting, restoring and failing; on a verification error nothing is restored and nothing more is logged; the number of entries and what is left of the cluster are exact in every case |
| Service.RemediationService.Remediate | internal/safety/service.go:36-142 | the error is the one the facts of the attempt decide; all calls and appends asked for are the beginning of one script that ends where that error says; the log holds one entry for each append asked for but the refused one, the whole lifecycle iff there is no error; a recovery is proved by a Pod and took at least the window; a rollback leaves the spec captured before the action live; every other ending leaves the cluster to others, but for the action's effect once it has worked |
| Validator.ThreeShapesPass | internal/classifier/validator.go:32-260 | whatever the classifier sends, a proposal passes iff it is a supported restart of the detected Pod, a supported undo of its owner or an escalation of the detected Pod |
| Validator.AutomatableShapes | internal/classifier/validator.go:118-218 | what passes as automatable is exactly a supported restart or undo |
| Classification.ClassifyAndValidate | internal/classifier/service.go:65-215 | an accepted proposal is passed on normalized, every refusal, failure, timeout or missing classifier is replaced by the validated fallback |
| Classification.FallbackValidIffGoodIds | internal/classifier/service.go:299-371 | the fallback passes its own validation iff the identifiers are non-empty and trimmed; it automates iff the evidence is transient |
| Classification.AlwaysValidIffGoodIds | internal/classifier/service.go:65-371 | every outcome for every answer is valid and no fallback miss iff the incident's namespace and Pod name are non-empty and trimmed |
| Classification.GateActsOnTheValidatedTarget | internal/controller/pod_controller.go:220-257 | with good identifiers and both actions registered the gate never rejects, acts only on a supported restart or undo, and the object the action touches is exactly the validated target |
| Classification.GateActsOnInvalidOutcomeIff | internal/controller/pod_controller.go:230-247 | the gate acts on an invalid outcome iff nothing was accepted, the evidence is transient and an identifier is bad; the Pod touched is the target iff both are trimmed |
| MockClassifier.UndoAcceptedIff | internal/classifier/mock_classifier.go:59-81 | the mock's undo proposal is accepted iff rollout evidence is present and the owner's name is trimmed |
| MockClassifier.MockDecidesByEvidence | internal/classifier/mock_classifier.go:23-151 | what the controller does with the mock's answer is a function of evidence and owner alone |
| MockClassifier.SameChoiceForEveryPod | internal/classifier/mock_classifier.go:33-150 | on the same evidence the action and the safety flag do not depend on the Pod |
| MockClassifier.MockNeverEscalatesLateIff | internal/classifier/mock_classifier.go:33-150 | with the mock an escalated incident has attempt count 0, in every run, iff the mock always answers in time or the timeout fallback acts on just the same evidence |
| MockClassifier.TimeoutsDisagree | internal/classifier/service.go:200-214 | the two differ: evidence of an out-of-memory kill and a timeout is escalated by the mock and acted on by the fallback |
| AnyClassifier.MayActIffActionable | internal/classifier/service.go:65-371 | over all answers and failures of a classifier the gate may act iff the evidence supports a restart or an undo |
| AnyClassifier.AnyNeverEscalatesLateIff | internal/controller/pod_controller.go:220-257 | with a classifier of which nothing is known, escalated incidents have attempt count 0, in every run, iff no evidence supports an action |
| Evidence.ObjectNames | internal/controller/evidence.go:129-137 | the names looked up are the Pod, its ReplicaSets and the owner, the Pod first |
| Evidence.CollectCandidates | internal/controller/evidence.go:139-164 | the loops keep exactly one event for every UID with a recent one, the first |
| Evidence.CollectEvents | internal/controller/evidence.go:117-180 | distinct UIDs, all within the window, ascending, min(25, recent UIDs) of them, none dropped that is newer than one kept, each rendered with its age |
| Evidence.KeptAreRecent | internal/controller/evidence.go:152-160 | no kept event is older than half an hour, and ages are whole non-negative seconds |
| Evidence.NewestRecentIsKept | internal/controller/evidence.go:166-173 | the newest recent event is kept, and last |
| Evidence.CollectLogs | internal/controller/evidence.go:88-115 | the crashed instance's log unless it is unreadable or blank, then the current one's, cut to its tail |
| Evidence.TailIsKept | internal/controller/evidence.go:222-230 | bounded length, and what is kept is the end of the text |
| Evidence.Collect | internal/controller/evidence.go:76-86 | a bounded log tail and the newest recent events under the names |
| Reconcile.OwnerDeploymentName | internal/controller/pod_controller.go:323-339 | the nested loops find the specified owner |
| Reconcile.OwnerIsReal | internal/controller/pod_controller.go:323-339 | an owner found this way owns a ReplicaSet that owns the Pod |
| Workers.OthersLeaveAWorkerAlone | internal/controller/pod_controller.go:155-304 | what a worker's next call relies on survives every run of the others |
| Workers.ControllersAreSafe | internal/controller/pod_controller.go:155-304 | every state reached by steps in turn has exclusive claims and well-told incidents |
| Workers.SpecWrites | internal/controller/incident.go:103-111 | each own write moves the Deployment's generation by one and touches no record |
| Reconcile.AtMostTwoMoves | internal/controller/incident.go:103-111 | one attempt moves the generation of its Deployment at most twice |
| Reconcile.ReportedOnce | internal/safety/service.go:116-142 | an attempt reports its result in exactly one LOGGED line with the event's identity, and a failed one in none |
| Reconcile.DispatchTouchesTheValidatedTarget | internal/controller/pod_controller.go:243-274 | the dispatched action touches exactly the object that was proposed and validated |
| Reconcile.PodReconciler.Begin | internal/controller/pod_controller.go:153-155 | the look is one protocol step, and says whether this worker now holds the claim |
| Reconcile.PodReconciler.TakeEvidence | internal/controller/pod_controller.go:196-203 | frozen evidence is reused; otherwise it is collected once and frozen |
| Reconcile.PodReconciler.Decide | internal/controller/pod_controller.go:208-257 | acts exactly when the gate says so on the classified proposal; otherwise the claim is given back |
| Reconcile.PodReconciler.CloseIncidentIfTerminal | internal/controller/incident.go:335-342 | the line written is the one the protocol's close writes |
| Reconcile.PodReconciler.Reconcile | internal/controller/pod_controller.go:97-309 | at most one visit, for the first crash-looping container of an owned Pod; after its look it does what the record, the evidence, the classifier's answer and the gate say, as a protocol run of one worker; a claim is given back by exactly one endAttempt unless an authorized action is left running |
| Reconcile.PodReconciler.RunRemediation | internal/controller/pod_controller.go:276-304 | the goroutine runs Remediate once, stores its result or none on an error, and ends and closes exactly once; each own write that moved the generation is a protocol step of its own; the log holds the whole lifecycle iff there is no error, and its LOGGED lines are the ones the protocol has the attempt write |
| Text.TrimSpaceLaws | internal/classifier/validator.go:262-280 | trimming is idempotent, leaves exactly the trimmed strings alone and keeps a visible first character |

## Left out

- The Kubernetes client, cache, informers, RBAC and log streaming: `Cluster.ApiServer` answers from the current state, one resolver call reads one state, and writes are atomic.
- JSON, fsync and file handling of the audit writer: an append-only sequence whose append may be refused.
- A refused append of the controller's own closing line is logged and dropped by the source; in the run model the line is always written, which is what the exact-line properties assume.
- Process restart, panics, goroutine and channel mechanics, and the race between a classifier's answer and its timeout: any answer, failure or timeout may come.
- Token counts, cost, provider metadata and the times of the classifier call.
- HTTP classifiers, prompts and configuration; every call may get any answer or fail, with no relation between calls.
- Reconcile.PodReconciler.Reconcile: runs its calls without others in between; every interleaving is covered by the guards of its single calls, `Workers.OthersLeaveAWorkerAlone` and the runs of `Protocol`.
- Reconcile.PodReconciler.RunRemediation: ties the protocol's generation to the cluster's by the writes that moved it; what others write to the Deployment meanwhile are steps of their own in `Protocol` and are not matched up.
- Nil collaborators (`Reader`, `Resolver`, `Audit`, `Evidence` and the like) and their error messages, except the missing classifier.
- Texts of reasons, errors and log messages; lower-casing and the wording of refusals are parameters.
- Label selectors with expressions; a selector is a set of label pairs. A missing selector in `RolloutUndo`, which would panic, is an error here.
- `strconv.Atoi` itself: a revision annotation is absent, unparsable or a number.
- The order `slices.SortFunc` gives to equal elements: a stable order is used and nothing is stated about it.
- That reconciles come and attempts end in time: `Progress` takes the longest attempt and the widest gap between looks as given.
- Saturation of Go durations and 32-bit wrap-around of restart counts: times and counts are unbounded integers.
- Fresh incident ids and worker numbers are inputs assumed unused, as random UUIDs are.
- Unicode beyond the white-space set, and bytes: texts are sequences of characters.
- The `Workload` and `ArmLabel` fields copied onto audit entries, and the experiment scripts and dashboards.
