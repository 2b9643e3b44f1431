# SolveNet coordinator: a verified model

This project models the durable state machines of the SolveNet coordinator and proves what
their documentation promises, over every history of transactions:

* **The leased job queue** (`Queue`, `Store`): submission, claims, heartbeats, expiry, results,
  verdicts, repairs, and the group operations that put jobs into the same tables.
* **Frozen proof contexts** (`Selection`, `Bundles`, `Ledger`, `Archive`, `Replay`): which checked
  lemmas a proof may use, how the choice is frozen, and that it replays.
* **Verification ownership and Lean capacity** (`Checks`, `Desk`): begin, verify, rebind, commit,
  interleaved with takeovers.
* **Frontier budgets** (`Candidates`, `Frontier`, `Scheduler`): which candidates the evidence
  suggests, their admission, routing and dispatch, and the reserve for completing the target proof;
  `Joined` runs the frontier and the checks in one history.
* **Context packets** (`Packets`, `PacketBuilder`), **excerpts** (`Excerpt`) and the **worker's
  resends** (`Worker`).

## How to read it

A table is a sequence of rows (the row number is the identifier and the insertion order) or a map.
A transaction is a function from tables to tables; a raised conflict is an outcome that leaves the
tables as they were. The classes `Store`, `Archive`, `Desk`, `Selector`, `Finder`, `Scheduler` and
`Builder` run the same transactions step by step on mutable fields, as the coordinator does, and each of their
methods is proved to make exactly the change that the function describes. An `Event` is one
transaction with its inputs; `After(events)` is the state after a history, so a lemma about
`After(events)` for all `events` holds in every reachable state, in every interleaving of workers,
scheduler ticks and operators.

Module by module: `Queue` (tables and transactions), `QueueInvariant` and `QueueHistory` (the
inductive invariant), `QueueRecords` (runs, leases, deliveries), `QueueGroups` (work conservation,
draining), `QueueBounds` (job and lease bounds), `QueueTermination`, `QueueRules` and `GroupRules`
(each transaction's rows), `Store` (the class); `Selection` (the depth-first search), `Bundles`
(validation, the search as it is run), `Ledger`, `LedgerHistory` and `LedgerRules` (artifacts,
freezing, rebinding), `Replay` and `Flat` (theorems), `Archive` (the class); `Checks`,
`ChecksHistory`, `ChecksFencing`, `ChecksRules`, `Desk` (the class, over `Store` and `Archive`);
`Strategies` (dispatch keys as text), `Candidates` and `CandidateRules`, `Frontier`,
`FrontierHistory`, `FrontierLimits`, `FrontierRules`, `Scheduler`; `Joined` (both histories in one)
and `ReserveExamples` (the histories in which a reserve fails); `Packets`, `PruneOrder`,
`PacketBuilder`, `Greedy`; `Excerpt`; `Worker`; `Basics` (sums, UTF-8 sizes).

The modules named `...Rules`, with `Flat`, `PruneOrder` and `Greedy`, say what a transaction's answer is
on the rows of the tables, without the functions that compute it.

## Where the code does not meet its promise

* `_json_excerpt` (coordinator/src/solvenet/group_loop.py:78-83) does not end for every limit:
  `Excerpt.EndsIff` proves that the halving loop ends for every text exactly when the limit is 0 or
  at least 70. Two hundred control characters keep it going under any limit from 1 to 69.
  `context_packet.py:359-369` computes its limit with a floor of 1.
* The worker (`strings.TrimSpace`) and the coordinator (`str.strip`) differ on the four ASCII
  separators 0x1C-0x1F, so a typed answer made only of white space and separators is sent as
  completed and refused as invalid: `Worker.ReportRefused` gives the exact condition, and
  `Worker.SeparatorRefused` an answer of one separator.
* The completion reserve holds back Lean time for the target, but charges a check what it took.
  `ChecksFencing.TargetRefusedIff` says exactly when a target's check is refused although a slot is
  unused: its correction's verifier changed, Lean time is spent, or its deadline exceeds what the other
  unused slots leave. `ReserveExamples.OverrunRefusesTarget` is a history in which one artifact check
  that overran its deadline causes this; with verifiers on time it cannot happen (`ChecksFencing.ReserveHolds`).
* The completion reserve holds back work for the target, but a task added to a graph group by hand is
  charged to the same work. `FrontierLimits.PromiseIffHarmless` says exactly which runs keep every
  synthesizer within budget (`FrontierLimits.ManualTaskReserve` for one task), and `ReserveExamples.ManualTaskCostsTarget` is a history in which one added task makes
  the scheduler stop the group instead of dispatching its target.

## Model

| member | source | states |
|---|---|---|
| QueueHistory.AlwaysInv | coordinator/src/solvenet/store.py:847-897 | the queue invariant (lease and job status agree, spare budget of queued jobs, repair lineage, run status) holds after every history of all transactions |
| QueueRecords.LeaseQueueLaws | coordinator/src/solvenet/store.py:867-965 | a job is assigned iff it has an active lease, never two active leases or two attempts, budgeted leases within max_assignments, a queued job has one to spare and no attempt |
| QueueRecords.AttemptedNeverQueued | coordinator/src/solvenet/store.py:1153-1189 | once a job has an attempt it is never queued again |
| QueueRecords.StatusMeans | coordinator/src/solvenet/store.py:847-865 | solved iff some attempt of the run is verified; running implies a live job, exhausted none, solved or error no queued job |
| QueueRecords.SolvedForever | coordinator/src/solvenet/store.py:1311-1334 | solved is never left, by late verdicts, errors or group re-dispatches |
| QueueRecords.RepairLineage | coordinator/src/solvenet/store.py:1343-1367 | a repair answers one rejection in its own run, one level deeper, inherits model, settings and retry limit, and is the attempt's only child |
| QueueRecords.LapsedForever | coordinator/src/solvenet/store.py:1024-1030 | a lease that ended or ran out is never extended later, and no first result is accepted for it |
| QueueRecords.LiveLeaseStays | coordinator/src/solvenet/store.py:867-877 | before its expiry a live lease is untouched by sweeps, claims, verdicts and holders of other tokens |
| QueueRecords.EffectAtMostOnce | coordinator/src/solvenet/store.py:1137-1190 | whatever is lost, duplicated, delayed or reordered, at most one delivery for an assignment changes any table |
| QueueRecords.Redelivery | coordinator/src/solvenet/store.py:1137-1152 | after the first recording every delivery leaves the state alone; the same payload is acknowledged, any other refused |
| QueueRecords.ResendAccepted | coordinator/src/solvenet/store.py:1137-1152 | a payload accepted once is accepted again after any later history, without effect |
| QueueRecords.LateFirstResult | coordinator/src/solvenet/store.py:1153-1154 | a first result after expiry or reassignment is refused and changes nothing |
| QueueRules.VerdictRule | coordinator/src/solvenet/store.py:1273-1368 | in every history the first verdict on an attempt writes exactly its own rows: the verdict, its job, its run, its group, its task and its one repair, then runs are refreshed |
| QueueRules.VerdictMeans | coordinator/src/solvenet/store.py:1305-1342 | a verified run is solved; only a verifier error ends a running run as an error, with nothing left queued; a timeout or rejection never does |
| QueueRules.OneRepair | coordinator/src/solvenet/store.py:1343-1367 | a rejection in a running run below the repair limit adds exactly one queued repair and keeps the run running; no other verdict adds a job |
| QueueRules.ErrorsHaveCause | coordinator/src/solvenet/store.py:1335-1342 | in every history a run is errored only if the verifier failed on one of its attempts |
| QueueRules.ResultRule | coordinator/src/solvenet/store.py:1096-1190 | in every history each delivery gets the answer that the token, the output, a recorded result and the clock determine, and a first result writes exactly its lease and its job: a permanent failure ends the job, a transient one or a refusal tries it again within its budget |
| QueueRules.SweepRule | coordinator/src/solvenet/store.py:867-897 | in every history a sweep expires exactly the overdue leases, tries their jobs again and leaves every run settled |
| QueueRules.ClaimRule | coordinator/src/solvenet/store.py:903-965 | in every history a claim leases the oldest job whose model, settings and kind the worker offers and whose run and group are live, and nothing if there is none |
| QueueGroups.AlwaysGrouped | coordinator/src/solvenet/group_state.py:367-390 | in every history work is conserved in each group, links and owners are consistent, and stopped groups have no queued job |
| QueueGroups.GroupLeasesBounded | coordinator/src/solvenet/group_state.py:499-571 | max_work equals remaining work plus task remainders plus job costs, all nonnegative, and bounds every budgeted lease ever taken in the group |
| QueueGroups.PaidWorkBuysAJob | coordinator/src/solvenet/group_loop.py:462-523 | a dispatch that charges work inserts exactly one job of that cost: the late run_terminal stop is unreachable |
| QueueGroups.StoppedDrains | coordinator/src/solvenet/group_operations.py:77-87 | a job of a stopped group is never queued again and changes status at most three more times |
| QueueGroups.StoppedGainsNothing | coordinator/src/solvenet/group_state.py:492-496 | a stopped group stays stopped and gets no further job |
| GroupRules.DispatchRule | coordinator/src/solvenet/group_loop.py:462-541 | a dispatch stops a group that is out of time, work, tasks or depth, and otherwise adds one task and one job at twice the model's cost |
| GroupRules.StopRule | coordinator/src/solvenet/frontier.py:131-138 | a stop ends the loop, cancels the group's queued jobs and closes its tasks, and touches no job that is being worked on |
| GroupRules.AddTaskRule | coordinator/src/solvenet/group_state.py:308-393 | a manual task is accepted iff unit, depth, count and work limits allow it under an open parent of the group; its budget leaves the group's work |
| GroupRules.AlwaysShallow | coordinator/src/solvenet/group_state.py:367-390 | in every history no task is nested deeper than four levels |
| QueueBounds.RunWithinBounds | coordinator/src/solvenet/store.py:1343-1367 | a run outside groups with A chains has at most A(1+R) jobs and A(1+R)M budgeted leases |
| QueueBounds.ChainsFixed | coordinator/src/solvenet/store.py:672-693 | a submitted run to which no task is added keeps the chains and limits of its submission |
| QueueBounds.SubmissionBounds | README.md:187-190 | the documented bounds A(1+R) and A(1+R)M hold at every moment of a submitted run |
| GroupRules.SubmittedChain | coordinator/src/solvenet/store.py:672-693 | chain p of group i is one queued root job of that group's model with the seed counted up over all chains |
| QueueTermination.StepsLeftNatural | coordinator/src/solvenet/store.py:879-897 | the run's measure of steps left is never negative |
| QueueTermination.StepsRunOut | coordinator/src/solvenet/store.py:879-897 | unless an assignment is rejected before execution or a task added, no transaction raises the measure and each claim, expiry, result and verdict lowers it |
| QueueTermination.GroupRunsOut | coordinator/src/solvenet/group_state.py:499-571 | from any moment on, the claims, expiries, results and verdicts on a group's jobs number at most three for each unit of max_work, less what its assignments have been through, unless one is rejected before execution |
| Store.Store.SubmitRun | coordinator/src/solvenet/store.py:636-693 | the nested loops insert exactly one job per chain in request order, seeds offset by the chain's index |
| Store.Store.RetryJob | coordinator/src/solvenet/store.py:879-897 | the job is cancelled in a stopped group, else queued while budget is left, else failed |
| Store.Store.RefreshRuns | coordinator/src/solvenet/store.py:847-865 | the row loops for both statements compute Queue.Refresh: queued jobs of finished runs are cancelled, then running runs without live jobs exhausted |
| Store.RefreshOneMore | coordinator/src/solvenet/store.py:876-877 | refreshing runs one by one, in any order, is refreshing them together |
| Store.Store.ExpireLeases | coordinator/src/solvenet/store.py:867-877 | both loops of the sweep make the change Queue.Expire |
| Store.Store.ClaimJob | coordinator/src/solvenet/store.py:903-965 | after the sweep the oldest eligible job is leased, or nothing changes; the lease returned is live and its job assigned |
| Queue.FirstClaimable | coordinator/src/solvenet/store.py:944-956 | the first row that satisfies the claim query, and none before it does |
| Store.Store.ExtendLease | coordinator/src/solvenet/store.py:1024-1038 | only a live, unexpired lease with the right token is extended |
| Store.Store.AcceptResult | coordinator/src/solvenet/store.py:1096-1190 | validation, resend comparison, expiry test and row updates give exactly Queue.Deliver |
| Store.Store.RecordVerdict | coordinator/src/solvenet/store.py:1273-1368 | one verdict per attempt; verified, error and rejection change run, group and repairs exactly as Queue.Judge |
| Store.Store.EnqueueRunTask | coordinator/src/solvenet/store.py:447-477 | a typed task joins a running run that no group owns |
| Store.Store.AddGroupTask | coordinator/src/solvenet/group_state.py:308-393 | a task is admitted within depth, count and work limits and its budget leaves the group's work |
| Store.Store.EnqueueJob | coordinator/src/solvenet/group_state.py:406-571 | a manual group job is paid from its task and re-opens an exhausted group run |
| Store.Store.EnsureGroupRun | coordinator/src/solvenet/group_operations.py:12-31 | the group's run is created once, and runs again if exhausted |
| Store.Store.Stop | coordinator/src/solvenet/frontier.py:131-138 | the row loops stop the loop, cancel queued jobs and close open tasks; then all runs are refreshed |
| Store.Store.DispatchJob | coordinator/src/solvenet/group_loop.py:462-541 | a dispatch of the fixed loop or the frontier stops the group or charges, inserts task and job |
| Store.Store.StopUncheckedTarget | coordinator/src/solvenet/frontier.py:951-969 | a target without verdict that could not be checked is cancelled and its group stopped |
| Selection.ResolveIsLeastClosure | coordinator/src/solvenet/proof_context.py:76-139 | a successful selection is the least closed superset of the request, each proof once, after its prerequisites, described as its rows are now |
| Selection.ResolveIff | coordinator/src/solvenet/proof_context.py:76-139 | selection succeeds iff the request has an admissible order of at most eight eligible, unedited proofs: the recursion's limit test never refuses such a closure |
| Selection.RoomLeft | coordinator/src/solvenet/proof_context.py:83-84 | the running limit test passes for every proof of an admissible order |
| Selection.InspectIff | coordinator/src/solvenet/proof_context.py:86-122 | the tests pass exactly the proofs that the current verifier verified in exactly this setting, linked and unedited |
| Flat.SelectedRows | coordinator/src/solvenet/proof_context.py:60-159 | every declaration of a selected bundle is a proof verified by the current verifier in the claim's own imports and environment, and says what its rows and its frozen bundle say |
| Flat.SelectionIsFlat | coordinator/src/solvenet/proof_context.py:76-139 | in every history the depth-first search declares the requested proofs in order, each after what is missing of its own frozen bundle |
| Flat.SelectedIff | coordinator/src/solvenet/proof_context.py:60-159 | in every history a request is selected iff it names at most eight different proofs, each usable with all the lemmas it was checked with, for a known claim under a bound verifier, and the concatenation fits the limits on lemmas and bytes; the bundle is that concatenation |
| Flat.UnusableRefused | coordinator/src/solvenet/proof_context.py:87-94 | a request with a proof that is not verified now, or in another setting, or not linked, is refused |
| Flat.FrozenInSetting | coordinator/src/solvenet/proof_context.py:127-135 | in every history each lemma of a frozen bundle was proved in that bundle's own setting and is described by its rows |
| Bundles.ValidIff | coordinator/src/solvenet/composed.py:26-55 | a bundle is valid iff it has at most eight declarations under their own names, none twice, each after its prerequisites, the selected ones among them, and fits both byte limits; depth adds nothing |
| Bundles.DepthWithinPlace | coordinator/src/solvenet/composed.py:42-44 | the declaration at index i has depth at most i+1, so the depth limit follows from the declaration limit |
| Bundles.Validate | coordinator/src/solvenet/composed.py:26-51 | the pass accepts exactly the well-formed bundles, each refusal names a true fault, and too-deep is never the fault |
| Bundles.ResolvedWellFormed | coordinator/src/solvenet/proof_context.py:138-159 | a resolved selection of frozen proofs passes validation iff its encoding fits |
| Replay.OnlySizeRefuses | coordinator/src/solvenet/proof_context.py:60-159 | in every history a valid request that resolves within the configured lemma limit fails validation iff its encoding is too large, and is selected otherwise |
| Bundles.SelectPrefix | coordinator/src/solvenet/context_packet.py:573-581 | selecting a prefix of a selectable request succeeds, with a prefix of the declarations and no larger encoding |
| Bundles.Selector.VisitProof | coordinator/src/solvenet/proof_context.py:78-126 | the recursion over the shared lists computes Selection.Visit, with the same error |
| Bundles.Selector.VisitItems | coordinator/src/solvenet/proof_context.py:109-113 | the loop over a prior bundle visits and compares each item |
| Bundles.SelectBundle | coordinator/src/solvenet/proof_context.py:60-159 | the whole of selected_bundle equals Bundles.Select, errors included |
| LedgerHistory.AlwaysInv | coordinator/src/solvenet/claim_graph.py:156-183 | in every history artifacts are linked to exactly their own claim, verdicts are current, frozen items were frozen earlier and are unchanged |
| LedgerHistory.AttachKeeps | coordinator/src/solvenet/claim_graph.py:167-182 | a later link of an artifact is refused or changes nothing |
| Replay.NeverEdited | coordinator/src/solvenet/proof_context.py:103-134 | the errors for an edited, cyclic or unlinked lemma are unreachable, in selection and in ensure_artifact_context |
| Replay.FrozenBundlesReplay | coordinator/src/solvenet/proof_context.py:426-465 | selecting a frozen bundle's request again gives exactly its declarations iff all of them are eligible now |
| Replay.VerifiedNow | coordinator/src/solvenet/group_artifacts.py:270-291 | every verified artifact carries the current non-empty identity and a frozen bundle of its exact source |
| Replay.CommitsUnchanged | coordinator/src/solvenet/group_artifacts.py:343-369 | an artifact verdict commits only if the binding it was obtained under was in force at every moment between, and only on the frozen inputs |
| LedgerRules.AlwaysTidy | coordinator/src/solvenet/claim_graph.py:73-135 | in every history no claim is published twice and both tables stay within their limits |
| LedgerRules.InsertRule | coordinator/src/solvenet/group_artifacts.py:137-206 | in every history an inserted artifact is pending and linked to the only claim with its statement and setting; it is refused only for want of room |
| LedgerRules.BindRule | coordinator/src/solvenet/group_artifacts.py:270-291 | a new identity raises the revision and makes pending exactly what another identity verified |
| LedgerRules.CommitRule | coordinator/src/solvenet/group_artifacts.py:343-369 | exactly when a report changes an artifact's row, with and without a checked bundle |
| LedgerRules.EnsureRule | coordinator/src/solvenet/proof_context.py:426-465 | in every history the bundle to check is the frozen one or a new one without lemmas, refused only for a missing artifact or a selection that fails |
| Archive.Archive.InsertClaim | coordinator/src/solvenet/claim_graph.py:73-135 | equal statements in equal settings are one claim, within the limit |
| Archive.Archive.AttachArtifact | coordinator/src/solvenet/claim_graph.py:156-183 | an artifact is linked only to a claim with its exact context, once |
| Archive.Archive.InsertArtifact | coordinator/src/solvenet/group_artifacts.py:137-206 | artifact, claim and link are inserted together or not at all |
| Archive.Archive.ProposeArtifact | coordinator/src/solvenet/group_artifacts.py:218-268 | inserting and freezing succeed together or roll back |
| Archive.Archive.EnsureContext | coordinator/src/solvenet/proof_context.py:426-465 | the frozen bundle, or a newly frozen one, under the given binding |
| Archive.Archive.BindVerifier | coordinator/src/solvenet/group_artifacts.py:270-291 | a new identity raises the revision and voids verdicts of other identities |
| Archive.Archive.Checked | coordinator/src/solvenet/group_artifacts.py:323-380 | a pending artifact's row is updated iff the binding is the given one and, for a composed check, the check owns it and its inputs are the frozen ones; acceptance alone needs an identity |
| ChecksHistory.AlwaysInv | coordinator/src/solvenet/proof_context.py:279-349 | in every history running checks and owners correspond, commits agree with verdicts, and accepted group targets are backed by a commit |
| ChecksHistory.LostCheckIsInert | coordinator/src/solvenet/proof_context.py:232-260 | the report of a check that does not own its proof changes no table at all |
| ChecksFencing.OneOwner | coordinator/src/solvenet/proof_context.py:298-345 | a proof never has two running checks, and the running one is the recorded owner |
| ChecksFencing.OverNeverActs | coordinator/src/solvenet/frontier.py:237-246 | once over, a check never commits, never removes an owner and never changes its charge, after any later history |
| ChecksFencing.TakeOverEnds | coordinator/src/solvenet/proof_context.py:298-326 | beginning on an owned proof waits for the expiry, then ends the old check uncommitted at the charge of its whole deadline, even if the new one is refused |
| ChecksFencing.CommittedOnce | coordinator/src/solvenet/store.py:1253-1295 | an attempt never has two committed checks, and the committed one reported its verdict on the frozen bundle with the candidate |
| ChecksFencing.AcceptedTargetsWereChecked | coordinator/src/solvenet/store.py:1240-1252 | a verified attempt of a group job was verified by a committed check of its frozen bundle |
| ChecksFencing.CommitsUnderOneBinding | coordinator/src/solvenet/proof_context.py:174-181 | a check commits only if the binding it began under never changed in between, even back and forth |
| ChecksFencing.AlwaysReserved | coordinator/src/solvenet/frontier.py:157-224 | operations plus unused slots stay within the limit; charged time plus unused slots times slot length stays within the limit plus what verifiers overran |
| ChecksRules.RefusedIff | coordinator/src/solvenet/frontier.py:157-217 | in every history, for targets and artifacts, each reason for refusing a check holds exactly when its condition does and no earlier one; otherwise the check starts |
| ChecksRules.ArtifactRefusedIff | coordinator/src/solvenet/frontier.py:202-217 | a free pending artifact's check is refused iff the verifier moved, operations or Lean time are spent, what is left is held back, or the group's deadline has passed |
| ChecksRules.StartedRule | coordinator/src/solvenet/proof_context.py:327-349 | a begun check is one new running row that owns the proof until five seconds after its deadline; an expired owner's row is abandoned and nothing else changes |
| ChecksRules.ReportRule | coordinator/src/solvenet/store.py:1253-1295 | in every history a report without ownership changes nothing, and with it closes the check and decides the proof exactly if verifier and inputs are unchanged and the proof is undecided |
| ChecksFencing.TargetRefusedIff | coordinator/src/solvenet/frontier.py:184-220 | in every history, while a slot is unused, a free target's check is refused iff its correction's verifier moved, Lean time is spent, or its deadline exceeds the time left beside the other slots; never for the number of operations |
| ChecksFencing.TargetNeverRefused | coordinator/src/solvenet/frontier.py:202-216 | so it is granted if its deadline, with what verifiers overran, fits into a slot |
| ChecksFencing.ReserveHolds | coordinator/src/solvenet/frontier.py:99-128 | with verifiers on time both limits hold as stated and every target check of at most a slot's length gets its slot |
| ReserveExamples.OverrunRefusesTarget | coordinator/src/solvenet/frontier.py:213-216 | a history from the empty coordinator after which one overrun artifact check makes begin refuse the target's check although its slot is unused |
| Desk.Desk.RefusalOf | coordinator/src/solvenet/frontier.py:157-234 | the first applicable reason of reserve_check, or none |
| Desk.Desk.BeginCheck | coordinator/src/solvenet/proof_context.py:279-349 | busy, refused after abandoning an expired owner, or a new owning check |
| Desk.Desk.RecordCheck | coordinator/src/solvenet/proof_context.py:232-260 | cost, status and ownership are closed only by the check they belong to |
| Desk.Desk.ReportCheck | coordinator/src/solvenet/store.py:1253-1295 | against the job and artifact tables: a verdict is written under the owning check and unchanged inputs, at most once, and is only recorded otherwise; the whole effect is Checks.Report |
| Candidates.OffersGuarded | coordinator/src/solvenet/frontier.py:331-581 | whatever the graph, reviews and verdicts say, plans and critiques are suggested within the planning calls, at most three plans, and a correction only while none was dispatched for the target or for that claim |
| Candidates.RankedOffers | coordinator/src/solvenet/frontier.py:582-585 | ranking keeps exactly the suggestions, ordered by rank, priority, claim and action |
| CandidateRules.OpenRule | coordinator/src/solvenet/frontier.py:500-522 | a claim that never failed is offered for proof at rank 2 iff it is promising, investigated or proposed for proof, and for investigation at rank 3 otherwise |
| CandidateRules.ChallengedRule | coordinator/src/solvenet/frontier.py:406-415 | a challenged claim is offered exactly a critique of its review and one for a request for help |
| CandidateRules.CheckedRule | coordinator/src/solvenet/frontier.py:416-420 | nothing is offered for a checked claim that is not challenged |
| CandidateRules.AbandonedRule | coordinator/src/solvenet/frontier.py:397-405 | nothing is offered for an abandoned claim |
| CandidateRules.DirectRule | coordinator/src/solvenet/frontier.py:265-312 | a failed claim under direct correction: help first, else one investigation by the author of its latest rejected artifact, else a critique |
| CandidateRules.FailedRule | coordinator/src/solvenet/frontier.py:449-499 | a failed claim otherwise: a critique, and once that is done and cites the failure, another investigation in the latest one's line within the retries |
| CandidateRules.TargetRule | coordinator/src/solvenet/frontier.py:535-581 | the target: always a direct attempt, at rank 0 iff there is a new checked lemma; one correction of a rejected attempt; replanning on new evidence below three plans |
| CandidateRules.RankingRule | coordinator/src/solvenet/frontier.py:582-585 | candidates are tried by rank, falling priority, claim and action name |
| FrontierHistory.AlwaysKept | coordinator/src/solvenet/frontier.py:986-1120 | in every run, with the evidence of each advance arbitrary, every decision respected the limits when it was made and its job carries its price and leases |
| FrontierHistory.RunsAreQueueHistories | coordinator/src/solvenet/frontier.py:986-1120 | what the frontier does to the job tables is a history of queue transactions |
| Strategies.StrategyInjective | coordinator/src/solvenet/frontier.py:727-746 | the strategy text determines the base strategy, the context digest and the retry number |
| Strategies.StartsWithBase | coordinator/src/solvenet/frontier.py:249-284 | the prefix test on the text tells the base strategy exactly |
| Strategies.FirstPartIsUnretried | coordinator/src/solvenet/frontier.py:728-734 | splitting the text at the retry mark recovers it without the retry number |
| FrontierLimits.KeysAreFresh | coordinator/src/solvenet/frontier.py:724-747 | no two dispatches for the same claim and action have the same strategy text |
| FrontierLimits.PriorByText | coordinator/src/solvenet/frontier.py:728-734 | the rows found by their text are exactly the earlier dispatches of the same key |
| FrontierLimits.KeyUsedWithin | coordinator/src/solvenet/frontier.py:731-743 | each claim, action, strategy and context is dispatched at most 1 + retries times, once for plans, critiques and corrected targets |
| FrontierLimits.PlanningWithin | coordinator/src/solvenet/frontier.py:376-381 | dispatches within max_tasks, plan and critique leases within planning_calls, at most three plans |
| FrontierLimits.PlanningLeasesWithin | coordinator/src/solvenet/frontier.py:875-889 | the leases that workers ever take on plan and critique jobs total at most planning_calls |
| FrontierLimits.CorrectionsAreSingle | coordinator/src/solvenet/frontier.py:249-284 | at most one target correction in the group and one direct auxiliary correction per claim |
| FrontierLimits.HeldForCompletion | coordinator/src/solvenet/frontier.py:748-768 | the integer division holds back exactly all shares but one |
| FrontierLimits.AlwaysAffordable | coordinator/src/solvenet/frontier.py:118-128 | with no task added by hand, remaining work covers the tail and dispatches plus tail jobs fit max_tasks, in every run |
| FrontierLimits.SynthesisAffordable | coordinator/src/solvenet/frontier.py:602-606 | while a slot is unused synthesis is not deferred for jobs, no synthesizer is over budget, and a fit one is admitted |
| FrontierLimits.CompletionReserve | coordinator/src/solvenet/frontier.py:602-606 | both of these in every run from an affordable start |
| FrontierLimits.BudgetCoversTail | coordinator/src/solvenet/frontier.py:748-768 | with a slot unused, all synthesizers are within budget iff the remaining work covers the tail |
| FrontierLimits.ManualTaskReserve | coordinator/src/solvenet/group_state.py:367-390 | after a task is added by hand every synthesizer is within budget iff the task's budget is within what the tail leaves over |
| FrontierLimits.ManualTaskStarves | coordinator/src/solvenet/frontier.py:748-798 | beyond that, synthesis that only the dearest models are fit for turns from admitted to over budget |
| FrontierLimits.PromiseIffHarmless | coordinator/src/solvenet/frontier.py:99-128 | in every run from an affordable start, tasks added by hand included, no synthesizer is ever over budget while a slot is unused iff each added task left the tail its work when it was added |
| ReserveExamples.ManualTaskCostsTarget | coordinator/src/solvenet/group_state.py:367-390 | two runs from one affordable start that differ in one added task: without it the target is dispatched, with it the group is stopped |
| Joined.RunsAreCheckHistories | coordinator/src/solvenet/server.py:318-387 | a joint run of frontier and checks is a history of Checks |
| Joined.RunsAreFrontierRuns | coordinator/src/solvenet/frontier.py:986-1120 | and a run of Frontier, unattended if nobody adds tasks |
| Joined.TargetIsChecked | coordinator/src/solvenet/frontier.py:99-128 | with both reserves paid for, verifiers on time and no added tasks: while a check slot is unused the group is never out of Lean budget, and a target's check is granted |
| Joined.GroupGoesOn | coordinator/src/solvenet/frontier.py:1037-1120 | then a group whose target can still be tried is not stopped: the next advance dispatches the first admissible candidate |
| Frontier.Best | coordinator/src/solvenet/group_routing.py:147-185 | a viable model that no viable one is better than, or none iff none is viable |
| Frontier.MaxCost | coordinator/src/solvenet/frontier.py:118-122 | the largest configured synthesis cost |
| FrontierRules.RoutedModel | coordinator/src/solvenet/group_routing.py:69-185 | the routed model is the first of the preferred fit and affordable ones: a model to avoid comes last, then the better record goes first |
| FrontierRules.AdmittedIff | coordinator/src/solvenet/frontier.py:588-798 | a candidate is admitted iff job, check, Lean time and work fit beside what is held back, a packet fits, retries are left and a model is fit and affordable; each reason against it holds exactly in that order |
| FrontierRules.ChoiceRule | coordinator/src/solvenet/frontier.py:724-798 | an admitted candidate's key, retry number, parent and model follow from the earlier dispatches of the same work |
| FrontierRules.AdvanceRule | coordinator/src/solvenet/frontier.py:986-1120 | an advance waits, stops the group or dispatches the first admitted candidate, exactly under the conditions on time, work in progress, Lean capacity and verifier |
| FrontierRules.DispatchedRule | coordinator/src/solvenet/frontier.py:801-943 | a dispatched job has the action's kind, the routed model, twice its cost and the planning calls left as its assignments, and its decision says so |
| Scheduler.Finder.Collect | coordinator/src/solvenet/frontier.py:331-581 | the loops and nested functions append exactly Candidates.Offers |
| Scheduler.Choose | coordinator/src/solvenet/group_routing.py:147-202 | the loop finds Frontier.Best and says whether a model was over budget |
| Scheduler.AdmitCandidate | coordinator/src/solvenet/frontier.py:588-798 | the first admissible candidate, with the true reason for each one before it |
| Scheduler.Scheduler.AdvanceFrontier | coordinator/src/solvenet/frontier.py:986-1120 | one transaction waits, stops the group or dispatches, exactly as Frontier.Advance |
| Scheduler.Scheduler.DispatchTask | coordinator/src/solvenet/frontier.py:801-943 | task, job and decision are written together, or the group is stopped |
| Packets.PruneCorrect | coordinator/src/solvenet/context_packet.py:504-590 | for arbitrary sizes: the result fits all bounds, keeps every required row, lists exactly the manifest's lemmas and accounts for what it dropped; failure means the bare packet does not fit |
| Packets.PruneIff | coordinator/src/solvenet/context_packet.py:536-590 | for sizes that shrink, pruning succeeds iff the bare packet fits |
| PruneOrder.PruneKeepsOrder | coordinator/src/solvenet/context_packet.py:523-589 | for arbitrary sizes and without the steps: proofs go alone while the lemmas are too large, then rows in category order, then proofs again only when no row is left to drop; pruning stops at the first draft that fits |
| Packets.ShrinkSmaller | coordinator/src/solvenet/context_packet.py:550-589 | every pass removes a row or a selected proof, so the loop ends |
| Packets.DropLemmasKeeps | coordinator/src/solvenet/context_packet.py:570-581 | dropping the last selected proof never fails and leaves the lemmas equal to the new manifest |
| Packets.SortedRequiredFirst | coordinator/src/solvenet/context_packet.py:238-271 | in rank order the required rows of a category come first |
| Packets.AdmitKeeps | coordinator/src/solvenet/context_packet.py:373-388 | admission keeps the category's limit and order, counts what it omits and omits no required row |
| PacketBuilder.IncludeShows | coordinator/src/solvenet/context_packet.py:111-179 | every selected identifier has its row after inclusion |
| PacketBuilder.Builder.AdmitCategory | coordinator/src/solvenet/context_packet.py:366-388 | the loop over ranked rows takes what Packets.Admit takes |
| PacketBuilder.Builder.AdmitLemmas | coordinator/src/solvenet/context_packet.py:391-478 | each candidate joins with its whole closure or is left out; the lemmas are the manifest's declarations |
| PacketBuilder.Builder.Prune | coordinator/src/solvenet/context_packet.py:536-590 | the loop on mutable lists computes Packets.Pruned and fails exactly when it does |
| PacketBuilder.OneDraft | coordinator/src/solvenet/context_packet.py:700-714 | a request determines its draft: the rows of every category, the counters and the lemmas |
| PacketBuilder.DraftedNotRefused | coordinator/src/solvenet/context_packet.py:700-714 | a request with a draft has all its evidence, no overflowing required row and a selectable focus |
| Greedy.DraftIsGreedy | coordinator/src/solvenet/context_packet.py:366-478 | each category of a draft holds exactly the ranked rows that fit behind those before them, and its lemmas are exactly the candidates among the first eight that can be selected and fit behind those before them |
| Greedy.IncludedRows | coordinator/src/solvenet/context_packet.py:111-179 | included evidence stands behind or before the rows that were there, once each and only what was asked for and missing |
| PacketBuilder.BuildPacket | coordinator/src/solvenet/context_packet.py:614-759 | nothing if the request is refused, else its one draft, pruned; a delivered packet fits, shows all trigger evidence and advertises exactly the frozen manifest; it fails on a draft only if the bare packet does not fit |
| Excerpt.JsonExcerpt | coordinator/src/solvenet/group_loop.py:78-83 | for a limit of at least 70 the loop ends with a marked prefix whose JSON has at most limit + 16 bytes, or the text itself if it fits |
| Excerpt.EscapedAtMost | coordinator/src/solvenet/group_loop.py:78-83 | JSON escaping expands UTF-8 at most sixfold |
| Excerpt.EndsIff | coordinator/src/solvenet/group_loop.py:78-83 | the loop ends for every text iff the limit is 0 or at least 70 |
| Excerpt.CutIsLongest | coordinator/src/solvenet/group_loop.py:69-75 | a cut keeps the longest prefix of whole characters within its limit |
| Excerpt.FirstFit | coordinator/src/solvenet/group_loop.py:78-83 | the loop returns the first of its halved excerpts that fits |
| Worker.ReportRefused | worker/internal/daemon/daemon.go:553-570 | exactly which reports of a worker the coordinator calls invalid |
| Worker.SeparatorRefused | worker/internal/daemon/daemon.go:553-570 | an answer of one separator is reported as finished and refused as invalid |
| Worker.ReportRule | worker/internal/daemon/daemon.go:553-570 | empty and oversized texts are permanent failures, others are reported whole, and failures keep their class |
| Worker.SubmitResult | worker/internal/daemon/daemon.go:448-466 | an acknowledgement means the report is recorded, a refusal that no copy of it ever was accepted; at most three sends and one effect |

## Left out

- SQL, migrations, triggers and files: a table is a sequence or a map, and a transaction reads the
  clock once.
- Lean, sandboxing and identity scanning: a verdict, its elapsed time and the verifier's identity are
  inputs; hashing is an injection.
- HTTP routing, parsing and request-size limits; the experiment, inspection and summary queries.
- Request keys of group calls: resending a group request with its key returns the earlier row, which
  is the same as not sending it again.
- Graph responses: what a completed plan, finding or critique writes into the claim graph is left to
  later events; the frontier reads arbitrary evidence.
- Closing the tasks of processed frontier decisions is a transaction of its own here.
- Worker presence and observed quality: which models are fit, and how they rank, are inputs of routing.
- Standalone checks of verifiers without composed checking, and groups from before claim graphs: there
  an artifact can be verified without a frozen bundle, and replay is not promised.
- The phases of the fixed loop: only its dispatch and stop accounting.
- Candidate text, prompts and messages: sizes of encodings are arbitrary functions.
- Lone surrogates in text, which have no UTF-8 form.
- Several groups at once in `Checks`: an owner belongs to one group, and so do its rows.
- PacketBuilder.BuildPacket: takes it as given that identifiers are unique across tables, as the coordinator does.
- QueueTermination.StepsRunOut: counts a task added to the run, or an assignment rejected before execution, as outside the bound, as the protocol does.
- QueueTermination.GroupRunsOut: assumes that no assignment of the group is rejected before execution, which gives its budget back.
- QueueRecords.Redelivery: a resend of a graph response does not ingest it again; ingestion is outside the tables.
- Store.Store.AcceptResult: does not write a completed graph response into the claim graph, because the graph's tables are not modelled.
- Store.Store.AddGroupTask: without request keys and agents, which decide who may ask, not what is charged.
- Store.Store.EnqueueJob: without request keys, the environment and the test that the agent owns the task.
- Archive.Archive.InsertClaim: without publication keys and the cap on publications of one job.
- Archive.Archive.InsertArtifact: without request keys and the test that the source job is a completed finding.
- Scheduler.Choose: presence, outcomes and observed quality are inputs, because they come from workers' reports.
- Scheduler.AdmitCandidate: the packet of each candidate is an input; PacketBuilder models its construction.
- Scheduler.Scheduler.AdvanceFrontier: the evidence and the checks are inputs; Joined ties the checks to the tables.
- Joined.TargetIsChecked: a target's check that was taken over has used up its slot, as in the coordinator.
- Archive.Archive.ProposeArtifact: a new artifact is given an unused identifier.
