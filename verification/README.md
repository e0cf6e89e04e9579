# Governed agent runs, proved

A Dafny model of the NEos runtime and of the services around it, with proofs about whole runs. Verify it with
`dafny verify dfyconfig.toml`.

## What is modelled

**The governed run.** A NEop's run plans, orders the plan as a dependency graph, executes and verifies task by task,
and replans under a bound. At the plan gate and before every tool call an approval broker may allow, deny or await.
An await stores a snapshot, from which another process later rebuilds the agent and goes on.

`Agent` writes the run as functions over a `Run` value: state, core (plan, outputs, replans, bundle, twin, identity),
trace, stored snapshot, exception. `Runtime` and `Brokers` hold the same run as objects whose methods update their
fields. Each method is proved to do what the corresponding function says, and `Valid` ties the recorded events, the
tool calls, the observed window and the snapshot store to the trace. The claims about runs are lemmas about the
functions, so they carry over to the objects.

How the source is read:

- Planner, verifier and tools are oracles. They are deterministic in what the runtime hands them and in the attempt
  number, so a replan may answer differently. Each may also raise; an exception ends the run with `err` set.
- The trace holds the emitted events in order, and with them the moments the claims speak of: a plan asked for, a
  broker consulted, a grant resolved, a tool invoked, an output produced.
- A task's approval scope comes from the plan (runtime/core.py:454), also when the planner chose it.
- `_finalize` may turn a finished run into FAILED when its twin is refused (runtime/core.py:438-439).
- `_restore` is the constructor `Restored`. The identity fields are grouped in `who`, the pause fields in `pause`.
- A policy mode is one of three values. An action with an unknown scope or a blank name raises, as its constructor
  does.

**Around it.** Reciprocal rank fusion, the org chart, the Matrix application service (section "Pushing events" of the
Matrix Application Service API), the memory broker's store, the nightly drivers (vault, flywheel, fidelity clock),
the gateway's rate limiter, and the web client's timeline reducer. Rates and fused scores are exact reals. A decimal
half such as 0.0005 or 1/3200 is not a binary float, so where the source rounds a rate or a score its half may go
either way; every claim about them is for all ways the halves may go (`ties`).

| file | models |
|---|---|
| Approval, Plans, PlanOrder, PlanStability, Memory | policy and grants; the depth-first order and how far it is stable; the recorded memory store |
| Agent, Brokers, Runtime | the run as functions, and as objects refining them |
| Transparency, Observe, Malformed | what a gate and a pause change in a run: nothing but their own chatter |
| Consent, Calls, Allowlist, Threading, TextInput | what stands around every tool call: checks, plan approval, listed tools, inputs |
| Settled, Endings, Telling, Effects | what each end of a run means, what its events tell, what it reads and leaves behind |
| Progress, World, Interleaving | that runs end, and many runs over one store |
| Rrf, Hierarchy, AppService, MemoryRuns | fusion, org chart, bridge, runs of store calls |
| Vault, Flywheel, Fidelity, Gateway, Timeline | markers over nights, the fidelity clock, limiter, reducer |
| Wrappers, Finite, Json, Strings, Sorting, Rounding, Readiness, PausedRuns | shared definitions |

## Where the code and its documentation part

The model follows the code. Each point names the lemma that says exactly when the code does otherwise, and one that
gives an input.

- `fuse` promises that a single list comes back in its own order (runtime/rrf.py:25-26). Scores are rounded to six
  decimals before the sort, so this holds exactly when the ids of neighbours that round alike, decimal halves going as
  they may, are in order (`Rrf.IdentityExactly`). It always holds up to 940 ids at the default constant, and fails for some arrangement of
  any ids in every list of 1941 or more (`Rrf.IdentityFailsWhenLong`).
- `fuse_results` promises that the first non-null field wins (runtime/rrf.py:46). The first chunk that has the field
  wins, null or not (`Rrf.NonNullWinsExactly`, `Rrf.NullHides`).
- The execution order promises to keep the listed order among independent tasks (runtime/core.py:541-542). A task that
  an earlier one needs is pulled forward, past independents listed before it; a pair is kept as listed exactly under
  the condition of `PlanStability.ListedOrderKept`, and `PlanStability.IndependentsSwapped` is an example.
- The Decision Queue promises the runs awaiting a human (runtime/approval_gate.py:43). A resumed run that pauses again
  is marked resolved and leaves the queue (`World.DecisionQueue`, `World.RepausedRunLeavesTheQueue`).
- Repeated transactions promise to be no-ops (nc_channels/service.py:111-112). A delivery raises exactly when one of
  its events does, by a failing sink or an unmappable sender (`AppService.RaisesExactly`). It is then not marked: its
  repetition forwards the verdicts at or before that event again (`AppService.VerdictsExactlyOnce`,
  `AppService.FlakySink`, `AppService.PoisonedTransaction`), and its messages are handled after those of transactions
  first delivered later (`AppService.MessagesExactlyOnce`, `AppService.LateTransaction`).
- The loop guard promises to skip the service's own messages (nc_channels/service.py:126-129). It does exactly when
  the sender localpart has no colon, or its mxid lies in the namespace (`AppService.EchoSkippedExactly`,
  `AppService.OwnEchoRouted`).
- A `block_rate` of zero reads as safe to flip (acp/approval_mode.py:42-46). It is rounded: every share of blocked
  actions under one in 2000 shows as zero, and none over it does, so a zero can be trusted exactly for windows under
  2000 (`Observe.ZeroRateTrusted`, `Observe.ZeroRateBound`); one in 2001 is an example (`Observe.ZeroRateIsNotSafety`).
- While observing, nothing is to be blocked (acp/approval_mode.py:26-27). A gate raises exactly on a malformed action,
  also then (`Transparency.GateOutcome`); plans that name themselves, their scopes and tools never meet one
  (`Malformed.NamedNeverMalformed`), and a blank plan id is an example of one that does
  (`Malformed.ObservedRunRaises`).
- Maturity asks for an agreement of 0.65 (runtime/curator.py:16). The rate is rounded first, so every true agreement
  over 0.6495 matures and none under it (`Fidelity.MaturesExactly`); 76 of 117 is an example
  (`Fidelity.MaturesBelow`).
- Sixteen concurrent runs (frontdoor/gateway.py:72) hold exactly while nobody enters a full house
  (`Gateway.SixteenExactly`), as when each enter directly follows its check (`Gateway.AtMostSixteenActive`); `enter`
  does not look, and up to sixty may enter (`Gateway.UnpairedOvershoots`).
- A signature stands for who ran a shape and its tools in order (runtime/flywheel.py:40-42). It does as long as no bar
  stands in a seat's name and no comma in a tool's (`Flywheel.SignatureTells`); with a comma two shapes share one
  (`Flywheel.CommasCollide`).
- A tool's input scope carries the message text and the dependencies' outputs (runtime/core.py:581-584). A dependency
  named "text" takes the text's place (`TextInput.TextKeptExactly`, `TextInput.TextLost`).
- `mergeMessages` promises a deterministic order (nc-web/src/lib/timeline.ts:5-6). How the stream is cut into batches
  shows in it, unless the collation tells all ids apart (`Timeline.BatchingExactly`, `Timeline.BatchingMatters`).

## Model

| member | source | states |
|---|---|---|
| Transparency.PauseResumeTransparent | runtime/core.py:478-521 | a run paused any number of times, each pause resumed once, that ends other than by a denial agrees with one uninterrupted run under an all-allow broker: state, plan, outputs, replans, bundle, twin, memory, exception, and the whole trace but for gate chatter |
| Transparency.TracksDispatch | runtime/core.py:368-381 | after a dispatch the run is either where the all-allow run ended, or paused with a genuine snapshot from which the all-allow run's own rest leads to its end |
| Transparency.TracksResume | runtime/core.py:501-521 | a resume keeps that relation, from either kind of pause, whether it ends or pauses again |
| Transparency.SimExec | runtime/core.py:563-604 | over any rest of a plan's order the gated and the ungated execution run in step until the gated one stops, and then its snapshot names exactly the tasks left |
| Transparency.SimReplan | runtime/core.py:408-419 | the replan and its re-gate keep two runs in step; a pause there restores to the top of the loop |
| Transparency.PauseIsGenuine | runtime/core.py:471-473 | the snapshot of an action pause names a task of its plan's order, and what it leaves to do is the order from that task on |
| Transparency.ResumeResumable | runtime/core.py:478-486 | whenever a resumed run pauses again it has stored a genuine snapshot carrying everything the run carries |
| Transparency.DispatchResumable | runtime/core.py:478-486 | the same of a dispatched run |
| Transparency.SimConclude | runtime/core.py:421-450 | runs in step finish in step: same memory writes, twin acknowledgment and shadow record |
| Transparency.ConcludeKeepsEnded | runtime/core.py:379-385 | finishing never turns an ended run into a paused or denied one |
| Observe.SilentGate | runtime/approval_gate.py:111-127 | under a report-only or all-allow broker a run without malformed actions equals the run without any broker in state, plan, outputs, memory, tool calls and events |
| Malformed.SilentForNamed | runtime/approval_gate.py:111-127 | for a NEop whose plans name themselves, their scopes and tools, every run under such a broker is the run without any |
| Malformed.NamedNeverMalformed | acp/approval.py:44-48 | such a NEop never meets a malformed action, whatever the broker and however often it replans |
| Malformed.ObservedRunRaises | runtime/core.py:457-464 | a plan with a blank id: the run finishes without a broker, and raises under any report-only one |
| Malformed.GateRaisesExactly | acp/approval.py:44-48 | a gate raises exactly on an action whose scope is none of the four or whose name is only white space |
| Transparency.GateOutcome | runtime/core.py:461-476 | a gate raises exactly on a malformed action, stops exactly unless it allows, and a pause stores the run's core with only gate chatter added |
| Observe.ReportOnlyIsPassive | acp/approval_mode.py:37-39 | a report-only broker allows every action whatever its policy |
| Observe.ObserveThenFlip | acp/approval_mode.py:42-62 | if the report-only window of a message counts no would-deny and no would-await, the enforced run of that message is identical in every respect |
| Observe.FlipDispatch | runtime/approval_gate.py:111-118 | flipping the broker of a run whose trace shows only would-allow decisions changes nothing |
| Observe.ZeroRateBound | acp/approval_mode.py:61 | however ties fall, a published zero means at most one blocked action in 2000, and any share under that shows as zero |
| Observe.ZeroRateIsNotSafety | acp/approval_mode.py:61 | a window of each size over 2000 (of 2000, if that tie goes down) whose rate is zero with a would-deny in it |
| Observe.ZeroRateTrusted | acp/approval_mode.py:42-61 | a zero rate means nothing blocked in all windows of a size if and only if the size is under 2000, or 2000 with that tie going up |
| Readiness.FlipReadiness | acp/approval_mode.py:42-62 | the loop's counters are the counts of the report-only audits, each of the three kinds, and the rate their rounded quotient however ties fall |
| Readiness.RateZero | acp/approval_mode.py:61 | the rounded rate is zero exactly under one in 2000, or at it if that tie goes down |
| World.ConsentPrecedesMutation | runtime/core.py:461-476 | over any sequence of dispatches and resumes, with policies, grants and modes changing between them, the latest check before every tool call was an ALLOW of exactly that action in that attempt; under ENFORCE it is not hard-denied, and its mode is ALLOW or a human whose name is not blank has recorded "allow" for it by name |
| World.StepSound | runtime/core.py:501-521 | every operation keeps all stored snapshots genuine and filed under their own run, and all traces consented |
| World.StepsSound | runtime/core.py:501-521 | hence so does every sequence of operations |
| World.OthersUndisturbed | runtime/approval_gate.py:30-40 | an operation on one run leaves every other run's snapshot, status and latest outcome as they were |
| World.DecisionQueue | runtime/approval_gate.py:148-155 | with distinct run ids the queue holds exactly the runs whose latest operation was a dispatch that paused, and the denied are exactly those whose latest was a resume that was rejected; all in the queue await a human; and it holds every awaiting run exactly when no latest operation is a resume that paused again |
| World.RepausedRunLeavesTheQueue | runtime/core.py:642-645 | a dispatch and a resume after which the run awaits a human and is not pending |
| Interleaving.AlwaysKept | runtime/approval_gate.py:30-40 | over any operations on any runs, a waiting run has exactly its own latest snapshot in the store |
| Interleaving.InterleavingIrrelevant | runtime/core.py:618-649 | a run launched once and resumed only while it waits, with any operations on other runs in between, has the report and the trace of the uninterleaved chain of its own dispatch and resumes |
| Interleaving.InterleavedTransparent | runtime/core.py:618-649 | so it ends, unless denied, as one uninterrupted run under an all-allow broker |
| Consent.FineDispatch | runtime/core.py:574-585 | every dispatched run leaves a consented trace, and stores a snapshot only if it is paused |
| Consent.FineResume | runtime/core.py:501-521 | so does every resumed run, whose first call rests on the resolved grant |
| Consent.FineGate | runtime/core.py:461-476 | a gate that lets the run go on has just recorded an ALLOW of this action in this attempt |
| Consent.EnforcedCalls | acp/approval.py:75-93 | an enforced call is outside the hard-deny list, and its mode is ALLOW or a named human has granted it by name |
| Consent.ResumeWithoutGrant | runtime/approval_gate.py:130-139 | without a recorded "allow", or against the hard-deny list, a resume ends REJECTED with its reason told; with one by a blank name it raises; either way no tool is called, and core, memory and twin stay as they were |
| Consent.ResumeWithGrant | runtime/core.py:501-515 | with one it goes on from the snapshot's own core, the grant on its record |
| Approval.ResolveExactly | runtime/approval_gate.py:130-139 | a pause resolves to ALLOW exactly if the action's name has "allow" recorded, is not hard-denied and the grantor is not blank; it raises exactly if only the grantor is missing; else it is denied |
| Approval.OverrideDecides | acp/approval.py:68-84 | an override decides its action, past the scope's mode and the default, and no other action |
| Approval.ScopeDecides | acp/approval.py:68-84 | a scope's mode decides exactly the actions of that scope without an override |
| Approval.DefaultDecides | acp/approval.py:68-84 | the default decides exactly the actions neither covers |
| Calls.PlanConsentPrecedesCalls | runtime/core.py:414-419 | across a run, its resumes and its replans, every tool call comes after a check, at a gate or of a grant, that allowed this seat in the same attempt to execute a plan of the name of the very plan the call is for, with no planning in between |
| Calls.OnlyListedToolsAnswer | runtime/core.py:189-193 | across a run and its resumes every call is of the task's own tool for the run's own seat and tenant, and every output directly follows its call, of a tool on the allowlist, and is that tool's answer to the inputs of that call |
| Allowlist.UnlistedToolsNeverMatter | runtime/core.py:189-193 | whatever other tools stand behind names outside the allowlist, a dispatch stays the same in every respect |
| Allowlist.UnlistedToolsNeverMatterLater | runtime/core.py:189-193 | and so does a resume |
| Approval.HardDenyIsFinal | acp/approval.py:87-93 | neither the policy nor a grant gets past the hard-deny list |
| Progress.PlannerBound | runtime/core.py:404-419 | across a run and all its resumes the planner is called at most max_replans + 1 times, and ESCALATED means replans is exactly max_replans + 1 |
| Progress.DispatchReturns | runtime/core.py:391-419 | a dispatch that raises nothing returns DONE, FAILED, ESCALATED, REJECTED or AWAITING_APPROVAL |
| Progress.ResumeReturns | runtime/core.py:501-521 | so does a resume |
| Progress.PausesEnd | runtime/core.py:569-604 | if no plan has more than N tasks, a run and its resumes pause at most (max_replans + 1)(N + 1) times, and that many resumes end it |
| Progress.ResumePausesFrom | runtime/core.py:512-515 | a resumed run that pauses again does so in a later attempt, or at a later task of the same plan's order |
| Progress.PausesBounded | runtime/core.py:501-521 | hence the pauses from a paused run on are at most the gates still ahead of it |
| Progress.GrantedRunCompletes | runtime/core.py:387-419 | when every pause is granted and no gate on the run's record denies, that many resumes bring it to the same end as the uninterrupted all-allow run |
| Progress.LenientNeverDenies | acp/approval.py:75-84 | policies that answer only allow or ask leave no denial on the record of a run or its resumes |
| Progress.DispatchUndenied | runtime/core.py:461-476 | a dispatched run is denied only if a gate's denial is on its record |
| Threading.FreshOutputs | runtime/core.py:579-591 | across a run and all its resumes every tool call is handed, for each dependency, exactly what that dependency produced in the same attempt; an in-plan dependency with a tool has always produced; no task produces twice in an attempt |
| Threading.ResumeThreaded | runtime/core.py:512-515 | a resume after a pause inside an attempt keeps this, the outputs of before the pause included |
| Threading.StageExec | runtime/core.py:569-604 | running the order from any place keeps the outputs exactly what the attempt has produced for the tasks before it |
| TextInput.TextKeptExactly | runtime/core.py:582-584 | a call is handed the message text exactly when no dependency is named "text", or its output is the text |
| TextInput.TextLost | runtime/core.py:582-584 | a planned run, finished whatever the message, whose second tool call gets the first one's output for the text |
| Settled.DoneMeansDone | runtime/core.py:391-404 | a run that ends DONE, however often it paused and replanned, ends on a plan its planner made in that attempt; for every task of that plan, on the final outputs, a listed tool answered the described inputs with the task's output and no block, and the verifier said yes to it; the outputs are those of the plan's tools, in its order |
| Settled.CompletesExactly | runtime/core.py:563-604 | an attempt without a broker succeeds if and only if there are outputs under which every task of the plan is done so |
| Settled.HandedExactly | runtime/core.py:581-584 | the inputs a call gets are the one map with exactly the message text and each dependency's output, null where it has none |
| Endings.EveryEndIsExplained | runtime/core.py:387-419 | across pauses and replans: FAILED means that a task, all before it done, called an unlisted tool or got a block (or, without a planner, was judged no), or that the twin was refused; ESCALATED that the last plan within the bound had a task judged no; and each exception that the planner, a tool or the verifier raised, the plan has a cycle, a block gave no reason, or the first output is no twin |
| Endings.StuckOnce | runtime/core.py:586-603 | a plan that gets stuck on given outputs does so at one task and in one way, and is not done |
| Telling.EventsTellTheTruth | runtime/core.py:563-604 | in the joined trace every call is announced, every output and block reported with its own content, every verdict and plan reported is one the verifier or planner gave, and every await, grant and denial reports the check just before it |
| Effects.EffectsOnce | runtime/core.py:421-450 | a run is handed only chunks its tenant may see and its own owner's twin; while it waits, when denied and on any exception but a first output that is no twin, it leaves memory and twin as they were; when it ends it stores its record, puts its twin and makes its shadow prediction once each, of its final outputs, a refused twin failing it, and its trace closes by telling this |
| Effects.TraceOpens | runtime/core.py:334-361 | a dispatched run's trace opens by telling exactly which chunks and twin it was handed |
| PlanOrder.OrderIsTopological | runtime/core.py:539-561 | a returned order lists every id of the plan exactly once, each task after its in-plan dependencies |
| PlanOrder.OrderIffAcyclic | runtime/core.py:539-561 | an order is returned exactly when the in-plan dependency graph has no cycle |
| PlanOrder.FailureHasCycle | runtime/core.py:549-550 | the error names a task on a real cycle, which the lemma gives |
| PlanOrder.SortedUnchanged | runtime/core.py:541-542 | a list of distinct ids already in dependency order comes back unchanged |
| PlanStability.ListedOrderKept | runtime/core.py:541-542 | of two tasks of a plan, the first not needed by any listed before it, the order keeps them as listed if and only if the second is not needed by the first, nor by any listed before it |
| PlanStability.DependenciesKept | runtime/core.py:546-557 | the same of two dependencies as their task lists them, if nothing listed before the task needs it or them |
| PlanStability.IndependentsSwapped | runtime/core.py:541-542 | a plan of write (which needs read), check and read is ordered read, write, check, though check and read need nothing |
| PlanOrder.LastOfAnIdCounts | runtime/core.py:543 | of several tasks with one id, the plan's index holds the last |
| PlanOrder.TopoLength | runtime/core.py:543-561 | the order is no longer than the plan |
| PlanOrder.Sorter.Visit | runtime/core.py:546-557 | the recursive closure over done, temp and order does what the functional walk does, and raises where it fails |
| PlanOrder.Sort | runtime/core.py:539-561 | the in-place sort returns a topological order, or a task on a cycle |
| Runtime.PiAgent.constructor | runtime/core.py:310-332 | a new agent has an empty trace that accounts for all its collaborators have recorded |
| Runtime.PiAgent.Restored | runtime/core.py:488-499 | the rebuilt agent is in exactly the state the snapshot restores to, with nothing retrieved again |
| Runtime.PiAgent.Gate | runtime/core.py:461-476 | raise, allow, deny or pause, with state, snapshot, window and events as specified |
| Runtime.PiAgent.ToState | runtime/core.py:478-499 | restoring the snapshot gives back the agent's plan, outputs, replans, bundle, twin and identity, awaiting approval with nothing recorded |
| Runtime.PiAgent.Inputs | runtime/core.py:582-584 | the message text, then each dependency's output under its id, later entries winning |
| Runtime.PiAgent.CallTool | runtime/core.py:579-591 | the call is recorded before it is made; a blocked result fails the run and stores nothing |
| Runtime.PiAgent.Verify | runtime/core.py:593-603 | the object does what the functional verification does; that a no keeps the run from DONE is Settled.DoneMeansDone, and where it leads instead Endings.EveryEndIsExplained |
| Runtime.PiAgent.RunTask | runtime/core.py:572-603 | gate, call, verify, the gate being skipped only for the task just resumed |
| Runtime.PiAgent.RunTasks | runtime/core.py:569-604 | the indexed loop is the recursive execution of the order's rest |
| Runtime.PiAgent.ExecuteAndMaybeVerify | runtime/core.py:563-604 | one attempt: outputs reset unless resumed, ordered, then run from the resumed task |
| Runtime.PiAgent.MakePlan | runtime/core.py:523-529 | the attempt's plan replaces the old one, with its events |
| Runtime.PiAgent.Replan | runtime/core.py:408-419 | the object does what the functional replan does; that the new plan is gated again before any call is Calls.PlanConsentPrecedesCalls |
| Runtime.PiAgent.Drive | runtime/core.py:387-419 | the while loop is the specified execute-and-replan recursion; it terminates because every further attempt uses up one replan |
| Runtime.PiAgent.Finalize | runtime/core.py:421-450 | memory, twin and shadow are written as specified; a refused twin fails the run |
| Runtime.PiAgent.Conclude | runtime/core.py:379-385 | a stopped run skips the side effects, an exception skips everything |
| Runtime.PiAgent.Start | runtime/core.py:334-366 | identity, retrieval, twin and plan in session order |
| Runtime.PiAgent.RunMessage | runtime/core.py:334-385 | the whole run of a message is the specified dispatch |
| Runtime.PiAgent.Resume | runtime/core.py:501-521 | the whole resume is the specified one |
| Runtime.DispatchRun | runtime/core.py:618-628 | a fresh agent's report, events, tool calls, observed window and stored snapshot are those of the specified dispatch |
| Runtime.DispatchResume | runtime/core.py:631-649 | an unknown run changes nothing; otherwise the specified resume, after which the run is marked resolved or denied |
| Brokers.ToolBroker.Invoke | runtime/core.py:189-202 | every attempt is recorded with whether its tool is listed, and answered as the functional call is; that only listed tools answer is Calls.OnlyListedToolsAnswer |
| Brokers.MemoryBroker.Retrieve | runtime/core.py:224-232 | the first five chunks visible to the tenant |
| Brokers.MemoryBroker.Write | runtime/core.py:237-256 | a new key is appended with the next closet, a known one answers its first closet and stores nothing |
| Brokers.MemoryBroker.Consolidate | runtime/core.py:261-265 | one record with the size of the short-term memory, nothing else touched |
| MemoryRuns.PutThenGet | runtime/core.py:268-297 | an accepted twin is what its owner reads back, under the version acknowledged, and nobody with another twin id reads it |
| MemoryRuns.AcceptedExactly | runtime/core.py:276-297 | a draft is accepted exactly when its base is none or the stored version (or nothing is stored), it fills identity, communication and decision style, and its maturity is absent or one of the four; it is stale exactly when the base is another |
| MemoryRuns.AcceptedContent | runtime/core.py:286-297 | what is stored of an accepted draft: its owner's id, the version acknowledged, the draft's maturity or seed, the earlier signals if it brings none, and every other field as drafted |
| MemoryRuns.RetrievesFirstVisible | runtime/core.py:224-232 | the chunks retrieved come from the first five places, in order, whose chunk is the tenant's or nobody's, and from all of them if there are fewer |
| MemoryRuns.WritesOnce | runtime/core.py:250-256 | a write adds exactly one entry, numbered by its place, if its key is new, and nothing otherwise |
| Brokers.MemoryBroker.PutTwin | runtime/core.py:276-297 | the step-by-step record is the specified one, and a stale base or invalid record leaves the store alone |
| Brokers.SnapshotStore.Save | runtime/approval_gate.py:30-31 | the run's entry is replaced, pending, and no other |
| PausedRuns.LoadsLastSaved | runtime/approval_gate.py:30-40 | over any saves and status changes, a run id gives back the snapshot last saved under it, and nothing if there is none |
| Brokers.SnapshotStore.Resolve | runtime/approval_gate.py:38-40 | only the status of a known run changes |
| Brokers.SnapshotStore.Pending | runtime/approval_gate.py:42-44 | exactly the runs with pending status |
| Brokers.ApprovalBroker.Decide | runtime/approval_gate.py:111-118 | the effective decision, and in report-only mode one shadow audit of what it would have been |
| Brokers.ApprovalBroker.Resolve | runtime/approval_gate.py:130-139 | the object resolves as the function does, which is Approval.ResolveExactly |
| Brokers.ApprovalBroker.Readiness | runtime/approval_gate.py:125-127 | the summary of the window observed so far |
| Brokers.ApprovalBroker.MarkResolved | runtime/approval_gate.py:148-152 | the run leaves the queue, denied if it was rejected |
| MemoryRuns.NumberedConsecutively | runtime/core.py:286 | in any run of calls for one owner, two accepted writes differ in version by the number accepted from the one to the other |
| MemoryRuns.NoLostUpdate | runtime/core.py:280-285 | a write accepted on the version an earlier write produced means no write was accepted between them |
| MemoryRuns.NoLostUpdateFromStored | runtime/core.py:280-285 | a write accepted on the version stored before a run of calls means none of the run was accepted before it |
| MemoryRuns.PutCurrent | runtime/core.py:276-297 | an accepted write is the new current version, one more than before, or 0 if there was none; a refused one changes nothing |
| MemoryRuns.SignalsStay | runtime/core.py:287-288 | once a twin has signals, no run of later calls loses them |
| MemoryRuns.KeysStayDistinct | runtime/core.py:251-256 | dedup keys stay pairwise distinct over any run of writes |
| MemoryRuns.ReplayIsNoOp | runtime/core.py:251-253 | replaying any past write, however long ago, stores nothing |
| Rrf.Fuse | runtime/rrf.py:29-38 | the nested loops and the sort list every id once with its rounded score, however ties fall, best first, equal scores by id |
| Rrf.AddList | runtime/rrf.py:30-36 | one list adds one share per id, its first occurrence's |
| Rrf.BestFirst | runtime/rrf.py:38 | of two ids in the ranking the earlier scores higher, or the same and is the lesser |
| Rrf.OneMoreList | runtime/rrf.py:29-37 | one more list adds 1/(k + rank) to the id at its first place there, nothing to ids not in it, and what is published lies within half a millionth of the sum |
| Rrf.RankingUnique | runtime/rrf.py:37-38 | the lists determine the ranking |
| Rrf.ListOrderIrrelevant | runtime/rrf.py:29-38 | permuting the signal lists changes nothing |
| Rrf.MoveUpNeverHurts | runtime/rrf.py:29-38 | moving an id up in one repeat-free list never worsens its place in the fused order, rounding and tie-break notwithstanding |
| Rrf.IdentityExactly | runtime/rrf.py:25-26 | however decimal halves go, a repeat-free list comes back unchanged exactly when neighbours whose scores round alike stand in id order |
| Rrf.SingleListIdentity | runtime/rrf.py:25-38 | it does whenever (rrf_k + n - 1)(rrf_k + n) is below a million |
| Rrf.PlacesApart | runtime/rrf.py:37 | as long as that product is below a million, neighbouring ranks round apart |
| Rrf.LongListsTie | runtime/rrf.py:37 | every long enough list has two neighbouring ranks with equal published score |
| Rrf.IdentityFailsWhenLong | runtime/rrf.py:37-38 | for any that many ids some arrangement does not come back |
| Rrf.FuseResults | runtime/rrf.py:41-68 | the first k ranks, each with its merged chunk, score and aligned provenance |
| Rrf.FirstFieldWins | runtime/rrf.py:55-59 | a merged field is what the first chunk having it says |
| Rrf.NonNullWinsExactly | runtime/rrf.py:46 | the first non-null value is kept exactly unless an earlier chunk carries the field as null |
| Rrf.NullHides | runtime/rrf.py:55-59 | two chunks of one id, a null first, that merge to null |
| Hierarchy.Validate | acp/hierarchy.py:34-47 | a chart is accepted exactly when its reporting relation is closed and free of cycles, and each error names a seat for which it is true |
| Hierarchy.Climb | acp/hierarchy.py:42-47 | the climb from one seat reaches a top, or names a seat that is its own superior |
| Hierarchy.ChainIsChain | acp/hierarchy.py:61-67 | in an accepted chart the line above a seat is complete, repeat-free, without the seat itself, and shorter than the chart |
| Hierarchy.EscalationChain | acp/hierarchy.py:61-67 | the loop ends and returns that line; an unknown seat raises |
| Hierarchy.AnswersToUp | acp/hierarchy.py:70-74 | answering to a boss is membership in the chain is being some distance below |
| Hierarchy.StrictOrder | acp/hierarchy.py:70-74 | answering to is irreflexive, asymmetric and transitive |
| Hierarchy.Subordinates | acp/hierarchy.py:70-74 | sorted, without repeats, and exactly the seats whose chain passes through the boss |
| Hierarchy.Delegate | acp/hierarchy.py:77-86 | the capable subordinate of least depth, ties by least id; none exactly when none is capable |
| Hierarchy.NearerExactly | acp/hierarchy.py:80-86 | of two subordinates the nearer is the one fewer steps below the boss, or as many and the lesser id |
| AppService.ASService.ProcessTransaction | nc_channels/service.py:110-139 | a seen id does nothing; a new one is folded event by event, the sink raising where it does this time; only one that does not raise is marked |
| AppService.EveryEventCounted | nc_channels/service.py:116-137 | processed + verdicts + skipped is the number of events, and each verdict went to the sink once |
| AppService.CarriedExactly | nc_channels/service.py:116-137 | a transaction that goes through hands on exactly the approve and reject verdicts its events give, with their own proposal, word, seat and author, and exactly the plain messages of people outside the namespace, under the tenant and the sender's localpart, all in order |
| AppService.UnmappableExactly | nc_channels/matrix_adapter.py:28-40 | a message cannot be mapped exactly when tenant or key is blank or the sender is no @localpart:server |
| AppService.MessagesExactlyOnce | nc_channels/service.py:113-139 | over any schedule of deliveries and sink failures the messages handled are those of the transactions in the order of their first delivery that goes through |
| AppService.TakenOnce | nc_channels/service.py:113-138 | that list has each transaction once, and its ids are those marked as seen |
| AppService.SeenExactly | nc_channels/service.py:113-138 | a transaction is marked exactly when some delivery of it went through |
| AppService.SinkIrrelevant | nc_channels/service.py:116-137 | a transaction that goes through gives the same result whatever sink failures came before |
| AppService.NothingRaised | nc_channels/service.py:110-139 | if no delivery raises, messages and verdicts are those of the distinct transactions in first-delivery order |
| AppService.VerdictCount | nc_channels/service.py:120-125 | the sink is handed, in order, the verdicts of each transaction's deliveries up to the first that goes through |
| AppService.RaisesExactly | nc_channels/service.py:120-137 | a transaction raises if and only if some event is a verdict whose forwarding fails, or a routable message outside the namespace that cannot be mapped |
| AppService.ForwardsExactly | nc_channels/service.py:120-125 | the sink is handed something if and only if a verdict stands at or before the first event that raises |
| AppService.VerdictsExactlyOnce | nc_channels/service.py:120-138 | the sink gets exactly the verdicts of the transactions that go through, once each, if and only if no delivery before that has a verdict at or before an event that raises |
| AppService.FlakySink | nc_channels/service.py:122-124 | two verdicts, the sink failing once on the second: four hand-overs though the repetition goes through |
| AppService.LateTransaction | nc_channels/service.py:134-139 | a verdict the sink fails on and a message, another transaction's message, then the repetition: the second message is handled before the first |
| AppService.PoisonedTransaction | nc_channels/service.py:134-138 | two deliveries of a verdict followed by a message from no mxid forward the verdict twice, no sink failing |
| AppService.EchoSkippedExactly | nc_channels/matrix_adapter.py:86-88 | every echo of the service's own replies is skipped if and only if its localpart has no colon or its mxid is in the namespace |
| AppService.OwnEchoRouted | nc_channels/matrix_adapter.py:86-88 | with the localpart neos:bot outside the namespace an own reply is routed as a person's message |
| AppService.RepliesBounded | nc_channels/service.py:200-221 | at most one message reaches the room per handled message, and one more for each lost acknowledgment |
| AppService.RepliesExactly | nc_channels/service.py:200-221 | a handled message is answered unless its puppet lies outside the namespace or both sends are refused, and twice exactly if the reply arrived, its acknowledgment did not, and the apology arrived |
| AppService.NoReplyLoop | nc_channels/service.py:126-133 | whenever the guard skips the service's echoes at all, however echoes, redeliveries and sink failures mix, the replies do not exceed the people's messages of the distinct transactions, lost acknowledgments aside |
| Vault.PromoteAll | runtime/vault.py:101-109 | the batch is one pass from no markers |
| Vault.RunVaultPass | runtime/vault_harness.py:51-70 | the pass over a durable store decides as the batch does from its markers, and lands exactly the promoted |
| Vault.VaultPromoter.RollbackRecord | runtime/vault_harness.py:96-102 | exactly a rollback inside its window clears exactly its marker |
| Vault.Summarize | runtime/vault_harness.py:42-48 | the counts partition the candidates, and promoted counts what landed |
| Vault.MarkersAreStanding | runtime/vault_harness.py:51-102 | over any run of nights and rollbacks the markers are the keys promoted and not since rolled back, and no key is promoted while marked |
| Vault.PromotedIsEarned | runtime/vault.py:49-109 | a pass promotes exactly the records with enough confidence, complete provenance and an approval, unless their key is marked or an earlier record of the batch took it; each redacted and armed for thirty days; it holds exactly those short of confidence or only of an answer, and marks exactly the keys earned |
| Vault.PromotedCanBeRolledBack | runtime/vault.py:117-139 | what a pass promotes can be rolled back on that day and the thirty after it and on no other, and is promoted again by a pass that finds its marker cleared |
| Vault.RollbackBetween | runtime/vault.py:117-139 | two promotions of one key have a successful rollback of it between them |
| Flywheel.SurfaceAll | runtime/flywheel.py:65-109 | one candidate for each shape observed, sorted, judged on all its observations; none dropped |
| Flywheel.RunFlywheel | runtime/flywheel.py:143-161 | the batch is one pass from no markers |
| Flywheel.FlywheelDriver.Tick | runtime/flywheel_harness.py:58-114 | the tick is the same pass over the durable markers, and the summary partitions candidates and triaged |
| Flywheel.MaterializesOnce | runtime/flywheel_harness.py:70-77 | over any run of nights a signature materializes at most once, and the markers are exactly those that did |
| Flywheel.MaterializesExactly | runtime/flywheel.py:65-136 | in a night exactly those shapes materialize that recurred and succeeded enough, whose first seat is new to the catalog, that are approved, and that are not marked yet |
| Flywheel.SignatureTells | runtime/flywheel.py:40-42 | as long as no bar stands in a seat's name and no comma in a tool's, a signature stands for one seat and one order of tools |
| Flywheel.CommasCollide | runtime/flywheel.py:40-42 | one tool named a,b and two tools a and b have one signature |
| Fidelity.FidelityBreakdown | runtime/shadow.py:182-201 | the blended rate is the curator's; the three rates are those of all, human and other signals; every scored signal is counted once, by method and by side |
| Fidelity.BlendedBetween | runtime/shadow.py:192-195 | when both parts exist the rounded blended rate lies between the rounded human and machine rates |
| Fidelity.FidelityLoop.RunTick | runtime/fidelity_harness.py:37-68 | a tick writes exactly when the version or the rate moved; written or not, the stored twin then reads as the curated one in all but its count of signals |
| Fidelity.TickSteps | runtime/curator.py:39-53 | a tick without edits moves at most one step up, and the version counts the steps |
| Fidelity.ClockMonotone | runtime/curator.py:56-77 | over any run of ticks maturity only goes seed, growing, mature, mature is never left, and the version rises by the number of moves, at most two |
| Fidelity.MaturesExactly | runtime/curator.py:45-48 | a tick makes a twin mature exactly when it was growing, thirty days are sustained and the true agreement is over 0.6495, or on it if that tie goes up |
| Fidelity.GrowsExactly | runtime/curator.py:42-44 | a seed starts growing exactly when three signals of its window are structural |
| Fidelity.DriftsExactly | runtime/curator.py:49-53 | a twin is drifted after a curation exactly if it was mature with three overrides, or drifted with no retune accepted |
| Fidelity.EditsExactly | runtime/curator.py:56-72 | after a tick a field holds its last corroborated edit, or else what it held; a corroborated edit moves the version by one |
| Fidelity.RecentIsLast | runtime/shadow.py:171-175 | the window is all signals, or the last k |
| Fidelity.PeopleCounted | runtime/shadow.py:158-168 | if no grading passes for a person's, the human counts are those of the people's verdicts |
| Fidelity.MaturesBelow | runtime/curator.py:16-29 | a growing twin that matures on 76 of 117 verdicts, under 0.65 |
| Fidelity.GrewFirst | runtime/curator.py:42-48 | a twin that began as a seed was growing at an earlier tick before it is mature |
| Gateway.RateLimiter.Check | frontdoor/gateway.py:80-87 | the call is counted first; it is admitted exactly when fewer than sixty checks of that seat came in its minute and fewer than sixteen runs are active |
| Gateway.RateLimiter.Enter | frontdoor/gateway.py:89-90 | one more active run of that tenant, nothing else |
| Gateway.RateLimiter.Leave | frontdoor/gateway.py:92-93 | one active run fewer, never below zero |
| Gateway.RunningIsLargestExcess | frontdoor/gateway.py:89-93 | the active runs of a tenant are the largest excess of enters over leaves since any moment, surplus leaves included |
| Gateway.RunningCounts | frontdoor/gateway.py:89-93 | if no more have left than entered at any moment, they are the enters less the leaves |
| Gateway.AdmitsExactly | frontdoor/gateway.py:80-87 | a check is admitted exactly when fewer than sixty came from its seat in its clock minute and at no moment sixteen more runs of its tenant have entered than left since |
| Gateway.DrainedIsAdmitted | frontdoor/gateway.py:86-93 | so a tenant all of whose runs have left is refused only for its seat's minute |
| Gateway.AtMostSixtyAMinute | frontdoor/gateway.py:72-85 | over any history at most sixty checks of a seat are admitted in a clock minute |
| Gateway.AtMostTwiceInAnySpan | frontdoor/gateway.py:81-85 | at most a hundred and twenty in any sixty seconds |
| Gateway.BurstMeetsTheBound | frontdoor/gateway.py:81-85 | which two bursts around a minute's end do reach |
| Gateway.AtMostSixteenActive | frontdoor/gateway.py:86-93 | at most sixteen runs of a tenant are active if each enter directly follows an admitted check |
| Gateway.SixteenExactly | frontdoor/gateway.py:86-93 | a history keeps to sixteen if and only if no run enters while sixteen are active |
| Gateway.UnpairedOvershoots | frontdoor/gateway.py:86-90 | without that, up to sixty admitted checks may all enter |
| Timeline.MergeMessages | nc-web/src/lib/timeline.ts:7-12 | under any collation, the last write of every id, once each, by time and then id, equals keeping the map's order |
| Timeline.AddOptimistic | nc-web/src/lib/timeline.ts:15-17 | the pending message is merged like any other |
| Timeline.ReconcileOptimistic | nc-web/src/lib/timeline.ts:20-22 | the echo merged into the list without the temporary id |
| Timeline.ShownUnique | nc-web/src/lib/timeline.ts:11 | the last writes and the map's order determine the list |
| Timeline.OldestFirst | nc-web/src/lib/timeline.ts:11 | the list shows each id once, oldest first, and among equal times no id before one that collates before it |
| Timeline.BatchingExactly | nc-web/src/lib/timeline.ts:7-12 | every cut of every stream into batches ends in the same timeline if and only if the collation tells all ids apart |
| Timeline.BatchingMatters | nc-web/src/lib/timeline.ts:11 | two ids that collate equal, and a stream whose two cuts end differently |
| Timeline.FoldShowsAll | nc-web/src/lib/timeline.ts:7-12 | then folding over batches is one merge of their concatenation |
| Timeline.MergeIdempotent | nc-web/src/lib/timeline.ts:5-11 | merging messages already shown changes nothing, under any collation |
| Timeline.OptimisticEcho | nc-web/src/lib/timeline.ts:15-22 | under any collation, a pending message reconciled with its echo leaves what the echo alone would have, if and only if its temporary id was free, or is the echo's and nothing behind its place ties with the echo |
| Timeline.EchoApart | nc-web/src/lib/timeline.ts:11 | under a collation that tells ids apart nothing ties, so a free or own id is enough |

## Left out

- Network, storage and process code: the live and integration modes, the Convex snapshot store, the HTTP shell of `serve`, memory and model clients.
- Cryptography: the two content hashes are taken as injective keys, and adapter HMACs appear only as the key that must not be blank.
- Regular expressions: the namespace match is a predicate, vault redaction a function.
- Floating point: fused scores are exact sums, so a float sum that depends on the order of its terms may differ in the last published digit; a half goes the same way in every sum over the same integer. Quotients of counts so large that two floats coincide are not modelled.
- Adapter inputs of other types: an `origin_server_ts` outside the platform's range, or an `m.mentions` that is no object, also raises.
- Clocks: time stamps and durations of events are dropped; ages in the vault are whole days.
- Loading and configuration: `load_neop`, YAML, the cassette files; prompts are what the oracles are handed, without their text.
- Plans and messages with missing keys, and duplicate grants for one action name in different scopes.
- World.ConsentPrecedesMutation: grants are recorded by action name alone, as in the source, so a grant of a plan named like a tool also grants that tool's action.
- Transparency.PauseResumeTransparent: the memory store a resuming process is handed is the one of the dispatch; writes by others during a pause are not modelled.
- MemoryRuns.NumberedConsecutively: the calls are one owner's; the recorded store holds a single twin, so another owner's write in between restarts the numbering.
- Writing in place inside values: bundle, twin and records are values, so aliasing between a snapshot and the running agent is not captured.
- The order of `pending()`, and the provenance list of a retrieved bundle.
- Phases other than planning and verifying, and the role families that choose them.
- Grading heuristics of shadow predictions: grading is a function handed in.
- The gates dictionaries and messages in vault and flywheel decisions, and the scaffold spec of a materialized shape; the reasons themselves are kept.
- Best-effort sinks: an emit or a status update that raises is swallowed by the source and does not appear.
- FidelityLoop keyed by tenant and seat: one twin is modelled, since ticks of different keys share nothing.
- Whitespace stripping is modelled on ASCII.
- Negative `k` and `rrf_k` in rank fusion.
- The ACP envelope, router and chain gates, the safety matrix, seat classes and policy tables: they would add only per-branch members.
