# A model of the Platform, the Controller and the Content Tool

The Platform keeps player requests, capacity reservations (allocations), durable node jobs, frozen core requests,
next-game intents, parties, validation runs and a release log. A Controller on each node claims jobs, freezes the
create request, marks the start of the operation, calls core and reports what core answered. The Content Tool
switches a Workshop item between prepared releases on the node.

This project models those parts in Dafny and proves what their code is for.

- **Capacity is given back only on proof.** `Joint.NoLiveServerOutsideCapacity`: in every state that lost answers,
  late and reordered messages, Controller restarts and operators can reach, a server core made and has not fully
  reclaimed still has its reservation. `Runner.Controller.Create` and `Observations` show that what the runner calls and
  reports is what the theorem allows.
- **Requests and attempts stay in step** over every run of every transaction in any order (`Lifecycle`), nothing
  final is left, retries end, one person blocks one request (`OneBlocking`), one next game comes of one intent
  (`NextGame`), one job at a time works on an allocation (`Exclusion`), a node never holds more than the largest
  limit it has shown (`Occupancy`).
- **The scheduler** refines its specification: the earliest request that can change, on the best node (`Scheduler`).
- **Validation** closes only on evidence (`Validation`), an effective proof has no gap in its past (`NodeFacts`), the
  validated identity is what core is asked to create (`CoreCalls`), and the release log replays to what is live
  (`Releases`).
- **One instance for one job** although core forgets keys: when a repeated call may trust its key, over runs with
  clocks that disagree (`Retention`).
- **The version switch** survives a crash at any file operation of the switch or of recovery (`ContentSwitch`).
- **Two encodings**: the manifest byte stream is order-insensitive and uniquely decodable (`Manifest`); a valid port
  mapping is total and one-to-one (`Ports`).

## How the model is built

`Ledger` and `Facts` hold the rows. `Calls` says what each Store transaction does to them: it commits a new state or
leaves the old one. A run (`History`) is any sequence of such calls, each with its own site: the clock, the
settings, the catalog, the nodes and their facts are inputs of every call, and nothing is assumed about how they
change. `Store`, `Operators`, `Parties`, `ValidationRuns` and `Scheduler` hold the transactions as imperative
methods over a class of tables, each proved to do exactly what its call says, or to roll back. What that is, the
modules named `...Rules` and `Stops` say a second time, call by call, in the columns of the rows alone: when a
transaction commits, and what it leaves. They name neither the guards nor the transitions of `Calls`, so a wrong
guard, a missing update or a swapped state there contradicts one of them. `Coupling`,
`CouplingSteps` and `CouplingRuns` prove the invariant, `Evolution` and `EvolutionSteps` what one step may do to each
row, and the theorems about runs build on the two.

`Joint` puts the Platform, any number of Controllers and core together. Core is an adversary with three duties: a key
keeps its instance, distinct keys get distinct instances, a full reclaim lasts. For `content_validation_v102` jobs
messages may be late, repeated and out of order, from any Controller. For `legacy_v1` jobs there is one Controller,
and a rejection counts only while its worker still holds that answer.

`Retention` runs the Platform, several Controllers and core against clocks that disagree, with a core that may forget a
key once its days are over. It shows when the first of core's duties above follows.

Three properties the code does not have in full are stated with their exact condition.

- A rejection of a `legacy_v1` create that the Controller has given up on, and that reaches the Platform after a
  later attempt, can release capacity a server uses or is about to use. It is safe in every continuation exactly when
  core has no unreclaimed server under the job's key and no call on its way that could make one
  (`LateRejection.SafeIffHarmless`). `LateRejection.LateRejectionBreaks` and `LateRejection.InFlightRejectionBreaks` are
  runs in which it is not.
- The history window guards repeated create calls only (`internal/controller/runner/runner.go:205-214`). Two workers that
  loaded a v1.0.2 job before anything was frozen for it may both make a first call, and a first call that comes after
  core has forgotten the key makes a second instance. `Retention.SecondInstanceIff` gives the condition,
  `TwoFirstCalls.TwoInstances` the run, `Retention.WindowPrevents` and `Retention.WithinMakesOne` the guard that would exclude it.
- `recoverTransition` ignores a failure to remove `previous.json` (`internal/contenttool/transition.go:100`), so after a
  rollback that file may name the version that is now current. `ContentSwitch.RecoveryCompletes` gives the condition over
  any chain of attempts, `ContentSwitch.StalePrevious` and `ContentSwitch.StaleRun` the cases.

## Model

A row that ends in "Corollary" follows from contracts and definitions without a proof of its own; in the `...Rules`
modules it is a second statement of a transaction, in columns, that Dafny checks against the first unaided.

| member | source | states |
|---|---|---|
| Joint.NoLiveServerOutsideCapacity | internal/platform/store/node_jobs_api.go:181-298 | In every reachable state of Platform, Controllers and core, each instance created under a create job's key and not fully reclaimed belongs to an allocation that is neither reclaimed nor released. |
| Joint.RunKeepsWorld | internal/controller/runner/runner.go:198-282 | The invariant behind it holds along every run: core has an instance for a v1.0.2 job only after the Platform committed the operation start, and a job that core may have served is no longer rejectable. |
| Joint.InstancesExclusive | internal/platform/store/node_jobs_api.go:31-80 | In every reachable state of the joint system no two claimed, accepted or unknown jobs work on one core instance. |
| LateRejection.SafeIffHarmless | internal/platform/store/node_jobs_api.go:289-298 | A legacy rejection the Platform accepts in any reachable state keeps every continuation of the run safe if and only if core has no unreclaimed server under the job's key and no outstanding call that could make one. |
| LateRejection.GuardIsHarmless | internal/controller/runner/runner.go:263-269 | What the worker knows is enough: after core refused its one call, or before anything was frozen, that condition holds. |
| LateRejection.LateRejectionBreaks | internal/controller/runner/runner.go:263-276 | A concrete run of lost answers and a restart after which the refusal of an earlier attempt, applied late, releases the capacity of a live server. |
| LateRejection.InFlightRejectionBreaks | internal/controller/runner/runner.go:263-276 | The same with the call still on its way: the state stays safe for one step, and the server made then has no capacity. |
| Observations.SuccessNeedsProof | internal/controller/runner/runner.go:380-476 | A report of success is made if and only if both IDs are known, the job's own operation is over, and core shows its own instance: for a stop, stopped, cleaned and reclaimed; for a create with a succeeded operation, active, running and ready while the machine proof holds. It carries the entry as given. No observation rejects. Corollary. |
| Observations.StopObserved | internal/controller/runner/runner.go:380-476 | Everything else observed of a stop: which answers fail it, with which code and stage, and that any other answer reports nothing. Corollary. |
| Observations.CreateObserved | internal/controller/runner/runner.go:380-476 | The same for a create, each failure with its code and stage, a lost machine proof reported as unknown, and nothing reported otherwise. Corollary. |
| Observations.NothingToObserve | internal/controller/runner/runner.go:380-392 | Without both IDs there is nothing to observe. Corollary. |
| Observations.FactSeen | internal/controller/runner/runner.go:143-182 | The fact for each answer about an active instance, column by column, and none exactly for a lost answer or an error that says nothing about identity. Corollary. |
| Observations.ObservationsAreTruthful | internal/controller/runner/runner.go:380-476 | Every report the runner derives from core's answers is one the joint system allows, so the capacity theorem covers it. Corollary. |
| Observations.FactsAreTruthful | internal/controller/runner/runner.go:143-182 | Every instance fact is about the asked instance and true of core; a lost answer gives no fact. Corollary. |
| CouplingRuns.RunKeepsInv | internal/platform/store/node_jobs_api.go:350-496 | After any calls in any order the request, attempt, job and intent rows satisfy the coupling invariant. |
| CouplingRuns.CallKeepsInv | internal/platform/store/quarantine.go:28-231 | Each single transaction, on any site, keeps it. |
| Lifecycle.RequestsAndAttempts | internal/platform/store/node_jobs_api.go:350-496 | In every reachable state: waiting means every attempt was released; a request that claims a resource has exactly one open attempt, its last, in the matching state; ended, cancelled and unavailable have none; quarantined has one, or none and a paused next game. |
| Lifecycle.NothingFinalIsLeft | internal/platform/store/node_jobs_api.go:359-372 | Along every run reclaimed and released allocations, ended, cancelled, unavailable and abandoned requests, resolved jobs, known core IDs and frozen requests never change again. |
| Lifecycle.RetryEnds | internal/platform/store/allocation.go:78-178 | The attempts of a request are on pairwise distinct nodes and numbered 1 to k, and k is at most the number of nodes the run has shown. |
| Lifecycle.ManualTriesOnce | internal/platform/store/node_jobs_api.go:385-389 | A request for a chosen node has at most one attempt, ever. |
| Exclusion.InFlightExclusive | internal/platform/store/node_jobs_api.go:31-80 | In every reachable state at most one claimed, accepted or unknown job per allocation. |
| Exclusion.EveryStopAims | internal/platform/store/allocation.go:347-358 | Every stop job names the instance its allocation's create job knows, and no allocation has two open stops. |
| Stops.StoppingHasStop | internal/platform/store/node_jobs_api.go:474-482 | Over every run whose stop IDs are new: an allocation that is stopping has an open stop job. |
| Stops.FailureIsStopped | internal/platform/store/node_jobs_api.go:474-482 | A create that failed with a known instance, on an allocation neither given back nor held, leaves its allocation and its owner stopping and an open stop of exactly that instance, in every reachable state. |
| Stops.FailedFactIsStopped | internal/platform/store/reconcile.go:98-160 | The same for a fact that shows the instance failed. |
| Runner.DispatchedApart | internal/controller/runner/runner.go:55-134 | While a cycle's two items are unreported, and whatever other calls come between, they stay on different allocations. |
| Runner.StaysInFlight | internal/platform/store/node_jobs_api.go:161-175 | An unresolved job is changed by nothing but a report on it. |
| Runner.CollectWork | internal/controller/runner/runner.go:55-134 | The list a cycle hands to its workers has each job once, in flight, on pairwise different allocations: every job that was open before, in order, at most one stop that stands alone claimed ahead of them, and ordinary claims behind them, fewer than the slots only when nothing was left to claim. |
| Runner.OpenJobs | internal/platform/store/node_jobs_api.go:82-113 | Exactly the unresolved jobs of the node that the capability admits, each once, oldest first. |
| Occupancy.OccupancyBound | internal/platform/store/capacity.go:18-61 | Along any run a node's occupied count never exceeds the largest min(hard, desired) it has shown, however the limits shrink. |
| NextGame.NextGameStep | internal/platform/store/next_game.go:40-96 | An intent gets its new request, or the reason there is none, only in the step that ends the old request on a proved reclaim or records the owner's abandon, and the new request copies the old choice and waits. |
| NextGame.NextGameOnce | internal/platform/store/next_game.go:40-90 | Over any later calls a used-up intent keeps its request or its reason, so duplicates change nothing. |
| NextGame.NextGamesAreDistinct | internal/platform/store/next_game.go:76-90 | Two intents never name one new request, and the named request exists. |
| OneBlocking.ReclaimCommits | internal/platform/store/next_game.go:66-75 | A business rejection of the next game never undoes the reclaim: an accepted stop success always commits. |
| OneBlocking.GoneCommits | internal/platform/store/reconcile.go:38-182 | The same for an accepted fact that the instance is gone, whatever the catalog says of the next game. |
| OneBlocking.AbandonCommits | internal/platform/store/quarantine.go:167-231 | In every reachable state the owner of a quarantined request can abandon it, whatever the catalog says of the next game. |
| OneBlocking.OneBlockingRequest | internal/platform/store/party.go:92-299 | In every reachable state the blocking requests of a person, their own and their party's, are at most one. |
| OneBlocking.AlwaysFair | internal/platform/store/player_requests.go:151-267 | No owner has two blocking requests, no member of a party has one alone, and a party with a blocking request or capacity is live. |
| Validation.ClosesOnEvidence | internal/platform/store/validation_ledger.go:871-982 | Over any run, passed means a human pass, ready and joinable, a succeeded create, a succeeded stop of that same instance and a reclaimed allocation; failed means a terminal allocation. |
| Validation.ClosedStays | internal/platform/store/validation_ledger.go:591-741 | A passed or failed run is never changed by any later call. |
| ValidatedIdentity.PlayerJobsAreProved | internal/platform/store/allocation.go:129-195 | Every v1.0.2 player create job carries the digest, fingerprint, generation and key of a passed run that was an effective proof in the step that reserved it. |
| CoreCalls.ValidatedIdentityReachesCore | internal/controller/runner/runner.go:220-263 | A core create call for such a job, loaded earlier in the run and called at any point of what create does, asks for the measured template path, and the node's measured template and content equal what that validation run had proved. |
| CoreCalls.OneRequestPerJob | internal/platform/store/jobs.go:77-127 | Any two core create calls for one job, however far apart in a run, carry the same frozen request. |
| CoreCalls.CreateStaysSafe | internal/controller/runner/runner.go:198-282 | The steps create takes continue any run of the joint system, and capacity is safe through all of them. |
| CoreCalls.CreateStaysInTime | internal/controller/runner/runner.go:198-292 | What create does also continues any run of the timed system that has come to the same Platform: its transactions and its call are events that system allows, a first call as one loaded before anything was frozen and still to be made, a repeat within the window of the stored preparation time. |
| Interleaving.StaysEnabled | internal/controller/runner/runner.go:198-282 | An event create may emit that is allowed stays allowed after anything others do before it: for a v1.0.2 job any Controllers, operators and core, for a legacy job all but its one Controller's own work on it; what core answers is core's own duty at that moment. |
| Retention.OneInstancePerJob | internal/controller/runner/runner.go:284-292 | Over any run of the Platform, the Controllers and a core that forgets keys after its days, with clocks off by less than the reserved hour, all calls for a job make one instance unless a first call came late. |
| Retention.SecondInstanceIff | internal/controller/runner/runner.go:205-214 | In every reachable state a call can make a second instance if and only if it is a first call, not covered by the window, and the key is older than core must remember. |
| Retention.LegacyMakesOne | internal/controller/runner/runner.go:205-214 | A legacy job, with its one Controller, always gets one instance. |
| Retention.WindowPrevents | internal/controller/runner/runner.go:286-292 | The window that guards repeats would exclude late first calls too. |
| Retention.WithinMakesOne | internal/controller/runner/runner.go:284-292 | In the caller's terms: if every call for a job, the first ones too, is made within history by the caller's own clock and the preparation time the Platform shows, the job gets at most one instance in every run. |
| TwoFirstCalls.TwoInstances | internal/controller/runner/runner.go:205-214 | A run of two workers and one job in which the Platform still lets the late first call begin and core makes a second instance. |
| Keys.KeysDiffer | internal/platform/store/jobs.go:28-30 | Distinct job IDs have distinct core keys although the dashes are dropped. |
| Runner.Controller.Create | internal/controller/runner/runner.go:198-282 | What create does is a run of the joint system from the state it starts in; it makes at most one core call, only with the frozen request as the Platform holds it, within history and after the durable start, and makes it when nothing stands in its way. Once core was called its answer is reported: accepted with exactly core's two IDs, rejected only for a clear refusal of a first legacy call, otherwise unknown with core's IDs, code and stage; with nothing lost the Platform then has it. A rejection is sent only so or without a call. |
| Runner.Controller.Cross | internal/controller/runner/runner.go:242-282 | The same for the half from the frozen request on: a v1.0.2 call happens only with the start committed, the job unknown at the Platform and the machine proved again; what core answered is what is reported, with its IDs. |
| Runner.Controller.Resolve | internal/controller/runner/runner.go:215-241 | What is frozen is the template, algorithm and digest the machine proves, as the Platform holds it; where it proves nothing the job is rejected, and undisturbed a provable request is frozen. |
| Runner.Controller.Begin | internal/controller/runner/runner.go:558-582 | Success means that the start is committed and the Platform holds the job as unknown with this very frozen request. |
| CreateRules.AnswerIsKnown | internal/controller/runner/runner.go:263-282 | With nothing lost, a report of core's answer that is to be taken leaves that answer in the job's row: accepted with both of core's IDs, or unknown or rejected with core's code and stage. |
| CreateRules.AsksFor | internal/controller/runner/runner.go:215-241 | What create asks to freeze: the configured path of a legacy job, or the measured path, algorithm and digest of an upgraded one whose machine holds what it expects; only a path core can take. Corollary. |
| CreateRules.FrozenIsValid | internal/controller/runner/runner.go:513-526 | Which frozen requests may go to core. Corollary. |
| Store.Store.ReportJob | internal/platform/store/node_jobs_api.go:191-338 | The whole new state of every table is that of the report transition, or every row is as before and the error is named. |
| Store.Store.ApplyJobReport | internal/platform/store/node_jobs_api.go:350-496 | A late report on a terminal allocation changes nothing; otherwise allocation, entry, request, run, intent, next game and automatic stop move together, to what `ReportRules` says of each row. |
| ReportRules.ReportTakes | internal/platform/store/node_jobs_api.go:191-496 | In every reachable state a report commits exactly when it comes from the job's node and either repeats the row or is a move the row admits on a resource whose entry the node can give; it leaves the job's row with the IDs merged, and its allocation, request, run, intent and stop in the states of a written-out table; everything else, and everything of a resource already decided, stays. A refused one answers with the error for why. |
| JobRules.AllowedIs | internal/platform/store/node_jobs_api.go:256-298 | Which report a job's row admits: no step back once core may have been asked, IDs repeated once known, both named by acceptance and success, a create rejected only while nothing of it is known. Corollary. |
| Store.Store.BeginOperation | internal/platform/store/node_jobs_api.go:184-254 | The start is recorded once, for the job's own frozen request or instance, and repeats without effect. |
| JobRules.BeginStarts | internal/platform/store/node_jobs_api.go:184-254 | A start commits only for an upgraded job, claimed or unknown, with no operation yet, that names its own instance or repeats its frozen request; of an unknown job it changes nothing, of a claimed one it is exactly the report that it is unknown. Corollary. |
| Store.Store.ClaimNextJob | internal/platform/store/node_jobs_api.go:31-80 | The oldest claimable job no other transaction has locked is claimed; nothing is claimed exactly when there is none. |
| JobRules.ClaimClaims | internal/platform/store/node_jobs_api.go:31-80 | A job is claimed exactly if it is pending on a node heard of, within the capability, nothing in flight on the node shares its allocation or its known instance, and, for the independent stop, it stands alone; only its state changes. Corollary. |
| JobRules.OldestFirst | internal/platform/store/node_jobs_api.go:53-66 | The order of claims is creation time, then ID. Corollary. |
| Store.Store.PrepareCreate | internal/platform/store/jobs.go:77-150 | The request is frozen once and afterwards only compared. |
| JobRules.PrepareFreezes | internal/platform/store/jobs.go:77-150 | Freezing commits exactly for the node's own unresolved create job with a usable request that meets what the job expects and equals what is frozen already; the row kept is the first one with its time, and a reserved or doubtful allocation and its owner or run become creating. Corollary. |
| Store.Store.ReportInstanceFact | internal/platform/store/reconcile.go:38-182 | A fact moves exactly the rows of its allocation, its owner and its run, or none with the error named. |
| FactRules.FactTakes | internal/platform/store/reconcile.go:38-182 | In every reachable state a fact commits exactly if it is well formed, about the node's own allocation and the instance its create job knows, with an entry only of a running allocation and the present entry configuration; it leaves the published entry, never with another port, and then, by outcome, the resource given back with its game played, the failure stopped, the doubt or the other port isolated, or the room ready. |
| RefusalRules.FactConflicts | internal/platform/store/reconcile.go:38-97 | In every reachable state each fact that is not taken answers with the error for why. |
| Store.Store.ConsumeNextGame | internal/platform/store/next_game.go:40-90 | The intent is used up once, with a new request or a recorded reason. |
| NextGameRules.ConsumePlays | internal/platform/store/next_game.go:40-90 | A waiting intent is used up by a new waiting request with the old choice exactly if the catalog, the party and the node admit it, paused with the first reason in order if not, and left alone if it does not wait. |
| Store.Store.CreateUserRequest | internal/platform/store/player_requests.go:151-207 | A new waiting request for the owner the caller acts for, unless one blocks already or the choice is refused. |
| RequestRules.NewRequestOpens | internal/platform/store/player_requests.go:151-207 | For the owner the caller acts for: nothing new if that owner has a blocking request, otherwise exactly one waiting request of this choice, committed exactly if it is admitted. |
| RequestRules.AdmissionIs | internal/platform/store/player_requests.go:211-267 | Each refusal and its precedence, in the rows: a dead party, an unknown or foreign choice, maintenance at any of its levels, a party larger than the preset, a chosen node that is unknown or switched off; admitted exactly if none applies. |
| RequestRules.OthersOpenNothing | internal/platform/store/player_requests.go:160-186 | Whoever acts for no owner opens nothing. |
| Store.Store.CancelUserRequest | internal/platform/store/cancel.go:14-55 | Only the owner cancels, and only a waiting request nothing was ever tried for. |
| RequestRules.CancelClears | internal/platform/store/cancel.go:14-55 | A cancel, the owner's or the administrator's, commits exactly for a waiting request no attempt was ever made for, and changes its state only. |
| Operators.StopUserRequest | internal/platform/store/allocation.go:285-377 | The owner's stop of a running game queues one stop of its instance and, if asked, one pending next game. |
| OperatorRules.UserStopQueues | internal/platform/store/allocation.go:285-377 | In every reachable state the owner's stop of a running request commits exactly if its open attempt runs, its create succeeded with a known instance, no stop of it is open and, for a next game, none was asked for; it leaves a pending stop of that instance, both stopping, and the pending intent of that attempt if a next game was asked for, else the intents as they were. |
| OperatorRules.UserStopRepeats | internal/platform/store/allocation.go:310-346 | Of a request that is stopping or has ended the stop repeats without effect, and is refused if it asks for a next game that was not asked for in time; in any other state but running it is refused. Corollary. |
| RefusalRules.UserStopRefused | internal/platform/store/allocation.go:285-377 | In every reachable state, which error a refused owner's stop answers with: what does not run is not found, a missing instance or another state conflicts, a stop in the way is internal. |
| Operators.StopRequest | internal/platform/store/admin_actions.go:584-648 | The administrator's stop aims at the open attempt of a running, quarantined or abandoned request and never at an unverified identity. |
| OperatorRules.AdminStopQueues | internal/platform/store/admin_actions.go:584-648 | In every reachable state the administrator's stop commits exactly for a running or quarantined request whose open attempt runs or is held, or an abandoned one whose attempt is held, with a known instance, its identity not in doubt and no stop open; the stop is queued, and only a running request and its attempt move. |
| RefusalRules.AdminStopRefused | internal/platform/store/admin_actions.go:584-648 | The same for the administrator's. |
| Operators.CancelRequest | internal/platform/store/admin_actions.go:567-583 | The administrator cancels under the same condition as the owner. |
| Operators.TerminatePendingAllocation | internal/platform/store/admin_actions.go:649-703 | A reservation is released by hand only for a create job nobody has ever claimed, prepared or reported. |
| OperatorRules.TerminateReleases | internal/platform/store/admin_actions.go:649-703 | In every reachable state it commits exactly for a reserved allocation whose create job is pending, never claimed, frozen, reported or known at core, or again after that; job, allocation and request or run are then rejected, released, unavailable or failed. |
| Operators.MarkAllocationQuarantined | internal/platform/store/quarantine.go:101-163 | An open allocation, its request, its intent and its run are isolated together; a terminal one or an untouched reservation is refused. |
| OperatorRules.QuarantineIsolates | internal/platform/store/quarantine.go:101-163 | It commits exactly if the allocation is still held and was more than reserved with its job pending; allocation, request unless abandoned, pending intent and open run are then held together, and nothing else moves. Corollary. |
| Operators.QuarantineOneUnreachable | internal/platform/store/quarantine.go:28-96 | Of the allocations on nodes silent for too long the longest silent, then earliest assigned, is isolated, and none exactly when none qualifies. |
| OperatorRules.SilentIsolates | internal/platform/store/quarantine.go:28-96 | One is isolated exactly if its node has been silent for the threshold and it is neither given back nor held, a reserved one only with its create job taken; its rows are those of a quarantine. Corollary. |
| OperatorRules.LongestSilent | internal/platform/store/quarantine.go:40-60 | The order: longest silent, then earliest assigned, then ID. Corollary. |
| Operators.AbandonRequest | internal/platform/store/quarantine.go:167-231 | The owner leaves a quarantined request behind with its capacity still held, and a pending next game starts. |
| NextGameRules.AbandonLeaves | internal/platform/store/quarantine.go:167-231 | In every reachable state: only the owner's quarantined request becomes abandoned (an abandoned one again without effect), its capacity keeps its state, and a next game that waits, paused or not, is played in the same transaction. |
| RefusalRules.NotYours | internal/platform/store/player_requests.go:160-186 | Cancel, stop and abandon of a request that is not there or belongs to an owner the caller does not act for: not found, or, for a member who does not lead a live party, the error that says so. Corollary. |
| RefusalRules.OperatorConflicts | internal/platform/store/admin_actions.go:567-703 | In every reachable state an administrator's cancel, release or quarantine of a row that is there fails only as a conflict. |
| Scheduler.TryAllocateOne | internal/platform/store/allocation.go:17-203 | Exactly the earliest request that can be closed or placed changes, a placed one on the first acceptable node by priority then ID; false exactly when no waiting request can change. |
| Scheduler.SelectNode | internal/platform/store/allocation.go:119-159 | The first node in order that passes eligibility and proof, or none when no node does. |
| SchedulingRules.PlacePlaces | internal/platform/store/allocation.go:78-195 | In the rows of site and tables, a request is placed on a node exactly if it waits with a choice switched on and taking players, the node is the chosen one or none was chosen and it has not given the request back, it is switched on, accepting, not draining, compatible and heard of, has the template bound, reports exactly the game's content confirmed and accepting, has a slot, and an upgraded preset is proved there; and the attempt, its job and the request are the rows stated, with the identity the job must meet. |
| SchedulingRules.LegacyPlaces | internal/platform/store/node_eligibility.go:69-89 | For a preset never upgraded the node conditions alone decide. Corollary. |
| SchedulingRules.CloseCloses | internal/platform/store/allocation.go:48-118 | A waiting request of the catalog is closed exactly if its game or preset was switched off, or it chose no node and every node there is has given it back; only its state changes. Corollary. |
| SchedulingRules.FirstOnBest | internal/platform/store/allocation.go:29-104 | The pass serves the earliest request that can change, on the node of highest priority, then lowest ID, among all that could take it. |
| Scheduler.SelectedIsBest | internal/platform/store/node_eligibility.go:69-89 | That node is the most preferred among all where the request could be placed. Corollary. |
| Scheduler.ClosedOrPlaced | internal/platform/store/allocation.go:67-118 | A request that is to be closed could not have been placed on any node. Corollary. |
| Scheduler.WaitingInOrder | internal/platform/store/allocation.go:29-47 | All waiting requests, by time and then ID. |
| Scheduler.NodesInOrder | internal/platform/store/allocation.go:78-104 | All nodes still open to the request, by priority descending and then ID. |
| Parties.CreateParty | internal/platform/store/party.go:128-175 | A person without party and without blocking request becomes the leader of a new live party with one invite. |
| PartyRules.CreateStarts | internal/platform/store/party.go:128-175 | When it commits, and the member, party and invite rows it leaves. Corollary. |
| Parties.ResetInvite | internal/platform/store/party.go:188-221 | Only the leader; after it the new invite is the party's only active one. |
| PartyRules.ResetReplaces | internal/platform/store/party.go:188-221 | When it commits; every earlier invite of the party is closed, and the new one is its only active one. Corollary. |
| Parties.JoinParty | internal/platform/store/party.go:223-289 | Only with an active invite, no party, no blocking request and room left. |
| PartyRules.JoinJoins | internal/platform/store/party.go:223-289 | It commits exactly on an active invite of a live party with room, for a person without party and without blocking request, and adds that member only. |
| Parties.LeaveParty | internal/platform/store/party.go:301-328 | A member leaves, a leader cannot. |
| PartyRules.LeaveLeaves | internal/platform/store/party.go:301-328 | It commits exactly for a member who does not lead, and removes that member only. Corollary. |
| Parties.RemovePartyMember | internal/platform/store/party.go:330-359 | Only the leader removes, and never the leader. |
| PartyRules.RemoveRemoves | internal/platform/store/party.go:330-359 | It commits exactly for the leader of the party the other is a member of, and removes that member only. Corollary. |
| Parties.DisbandParty | internal/platform/store/party.go:361-396 | Only without a blocking request or held capacity; then members, invites and leadership all go. |
| PartyRules.DisbandClears | internal/platform/store/party.go:361-396 | It commits exactly for the leader of an idle party, and leaves no member, no active invite and no leader. Corollary. |
| ValidationRuns.ReserveValidation | internal/platform/store/validation_ledger.go:320-508 | A run is reserved only in maintenance, on confirmed facts that agree, on a quiet node with room; it freezes all of them. |
| RunRules.ReserveReserves | internal/platform/store/validation_ledger.go:320-508 | A reservation commits exactly on the listed rows: a closed game on a node heard of and able, confirming the content and template asked for at the epoch asked for, a clean scan, nothing else of the game on the node and a slot; the run, allocation and job freeze those very columns. |
| ValidationRuns.ConfirmValidationHuman | internal/platform/store/validation_ledger.go:745-807 | A human word is taken once; a pass only for a ready, joinable, running server. |
| RunRules.ConfirmTakesWord | internal/platform/store/validation_ledger.go:745-807 | The word is taken exactly once, of a running server with its create succeeded, a pass only with the room ready, joinable and enterable at the node's present entry; then the stop is queued. Corollary. |
| ValidationRuns.StopValidation | internal/platform/store/validation_ledger.go:811-867 | A stop of an open run from the state the operator saw, at most one ever. |
| RunRules.StopRunStops | internal/platform/store/validation_ledger.go:811-867 | It commits exactly for an open run in the state the operator saw, with its capacity held, a known instance and no stop ever; the stop is queued and the run says so. Corollary. |
| ValidationRuns.FinalizeValidationRun | internal/platform/store/validation_ledger.go:871-982 | A run passes only on the whole evidence in one transaction. |
| RunRules.FinalizePasses | internal/platform/store/validation_ledger.go:871-982 | Finalizing passes a run exactly if, in one transaction, the human passed it, it was ready and joinable, its allocation is reclaimed, its create succeeded and the last stop took down that very instance, nothing else of the game is on the node, and every column of content, template, binding and epoch is the candidate's, confirmed and fresh, on an enabled, compatible node heard of, with the game closed and a clean scan; only the run's state changes. Corollary. |
| RunRules.PassesOnFacts | internal/platform/store/validation_ledger.go:911-965 | Over every run: no other call ever makes a run passed, and this one does only with all of that. |
| ValidationRuns.FinalizeValidationFailure | internal/platform/store/validation_ledger.go:657-706 | A run fails only with its allocation terminal and no job open. |
| RunRules.FinalizeFails | internal/platform/store/validation_ledger.go:657-706 | It commits exactly if the run has failed already, or has not passed, its allocation is given back and every job of it is resolved; only the run changes. Corollary. |
| ProofRuns.ProofHasNoGap | internal/platform/store/proof.go:15-64 | A run that is an effective proof now was reserved by some call of the history, and every call since has seen the very content identity, template fact, binding and epoch that the reservation froze. |
| ProofRuns.EveryRunIsReserved | internal/platform/store/validation_ledger.go:320-508 | Every validation run of a reachable state was reserved under the reservation's guards and still has the candidate frozen then. |
| NodeRules.EffectiveIs | internal/platform/store/proof.go:15-64 | A run is an effective proof exactly if a human passed it, ready and joinable, its server is reclaimed, it is of exactly this node, game, preset, content and template, and every column it froze is still the node's, confirmed and fresh, with the recorded digest of the version, on a node that takes players and has a clean scan. Corollary. |
| NodeFacts.NoAba | internal/platform/store/proof.go:35-49 | If a run reserved at the start of a trace of fact changes is an effective proof at its end, then at every step between, content identity, template fact, binding and epoch were the reserved ones. |
| NodeFacts.ChangedNeverStands | internal/platform/store/proof.go:15-64 | Once any of them has changed, the proof is never effective again, even if the old values come back. Corollary. |
| NodeFacts.ReservedHolds | internal/platform/store/validation_ledger.go:320-430 | A reservation records exactly the facts of its moment. Corollary. |
| NodeFacts.HeartbeatContent | internal/platform/store/nodes.go:146-215 | After a heartbeat every reported item has the reported identity, and every item missing from it is unknown. Corollary. |
| HeartbeatRules.HeartbeatSays | internal/platform/store/nodes.go:146-198 | Column by column: a report counts only if confirmed, of a known version, with no digest or the recorded one; the row keeps its switch and epoch, takes the report's columns or none, and its revision counts a change of them and nothing else; missing games are unknown, other nodes untouched. |
| HeartbeatRules.HeartbeatProves | internal/platform/store/nodes.go:215-262 | The same for template facts: each revision of the node bound to a reported key gets what the report gives, each other one nothing, other nodes are untouched. |
| HeartbeatRules.DigestIs | internal/platform/store/validation_ledger.go:135-177 | A digest is 64 characters of 0-9 and a-f. Corollary. |
| NodeFacts.HeartbeatContentAdvances | internal/platform/store/nodes.go:146-198 | A heartbeat never lowers a content revision and raises it whenever the identity changes, missing items included. |
| NodeFacts.HeartbeatTemplatesAdvance | internal/platform/store/nodes.go:215-262 | The same for template facts. |
| NodeFacts.FactTables.RecordHeartbeat | internal/platform/store/nodes.go:113-260 | A heartbeat with repeated items is refused whole; any other records both tables. |
| NodeFacts.FactTables.RecordTemplateFact | internal/platform/store/validation_ledger.go:181-217 | A malformed confirmed fact is refused, any other replaces the row, and the counters only advance. |
| NodeFacts.FactTables.UpsertTemplateBinding | internal/platform/store/validation_ledger.go:135-177 | A compare-and-set on the generation; a change of key or fingerprint always raises it. |
| NodeFacts.FactTables.SetBindingKey | internal/platform/store/admin_actions.go:159-205 | The legacy change of a key drops the fingerprint and raises the generation. |
| NodeFacts.FactTables.BeginScopedMaintenance | internal/platform/store/validation_ledger.go:83-131 | A compare-and-set on the epoch that closes the node for the game; a repeated request gets its epoch again and changes nothing. |
| Releases.LogIsFaithful | internal/platform/store/release.go:92-255 | After any publications, replaying the log from its first old values, each release recording as old exactly what the replay has found, gives the live content pointer and the live template of every listed preset; for a preset no other start does. |
| Releases.AlwaysFaithful | internal/platform/store/release.go:69-265 | The invariant behind it, over any steps. |
| Releases.RollbackRestores | internal/platform/store/release.go:164-173 | A publication marked as a rollback puts back the pointer the reverted release had replaced. |
| Releases.LegacyStaysClosed | internal/platform/store/admin_actions.go:80-94 | Once a game has left the legacy publishing path no step brings it back. |
| Releases.AcceptingIsBacked | internal/platform/store/release.go:212-255 | A preset a release leaves accepting has an effective proof for the content and template that are then live. |
| Releases.Catalog.PublishRelease | internal/platform/store/release.go:69-265 | All compare-and-set, completeness, proof and rollback conditions, or nothing changes; then pointer, presets and log move together. A repeated request gets its release again and changes nothing, and its ID serves no other. |
| ReleaseRules.PublishableIs | internal/platform/store/release.go:92-255 | In the rows: a publication is accepted exactly if the live pointer is the expected one, each plan names a preset of the game once with its live old values and a template of the game, a release that moves the game plans every preset of it, an accepting plan names a run that proves it on a node still closed, a rollback names a release of the log that put what is live in place of what is wanted, and something moves or opens. |
| ReleaseRules.PublishPublishes | internal/platform/store/release.go:175-255 | What an accepted publication leaves: the pointer, each planned preset's template and switch, every other preset as it was, and the log entry with the old value. |
| ReleaseRules.NoPresetLeft | internal/platform/store/release.go:100-135 | A publication that moves the game leaves none of its presets unplanned or not upgraded. |
| ReleaseRules.ElseNothing | internal/platform/store/release.go:69-265 | Any other publication changes nothing. Corollary. |
| Releases.Catalog.CheckPlans | internal/platform/store/release.go:136-160 | The loop accepts exactly plans that name each preset once with its live old values. |
| Releases.Catalog.CheckProofs | internal/platform/store/release.go:174-229 | The loop accepts exactly when every accepting plan is backed by its named proof. |
| Releases.Catalog.LegacyPublish | internal/platform/store/admin_actions.go:237-267 | The old action changes the pointer only of a game still on the legacy path, and only for a version some confirmed node reports and could serve. |
| ReleaseRules.LegacyMoves | internal/platform/store/admin_actions.go:237-267 | The rows it asks for, the pointer it moves, and that it moves nothing else. Corollary. |
| ContentSwitch.RecoveryCompletes | internal/contenttool/transition.go:68-143 | From a recorded transition, through any number of crashed or failed recoveries, a completed one settles link and current.json on the new version exactly when the rename had happened and else on the old, removes the record and its links and touches no other name; previous.json is untouched on the way back and, on the way forward, right if and only if the attempt that removed the record left no stale one. |
| ContentSwitch.SwitchThenRecover | internal/contenttool/tool.go:432-518 | From a settled version, through a switch that anything may befall and any recoveries until one completes: the new version exactly when the rename had happened, else the old one, with no record and no backup left and previous.json accordingly. |
| ContentSwitch.NothingToRecover | internal/contenttool/transition.go:68-76 | With no record, recovery changes nothing, however often. |
| ContentSwitch.SwitchedWhole | internal/contenttool/tool.go:432-518 | Whatever befalls a switch, it leaves a settled release or a recorded transition whose old release is reachable by link or backup until the new one is linked. Corollary. |
| ContentSwitch.RecoveredWhole | internal/contenttool/transition.go:68-143 | Whatever befalls a recovery, it leaves the same. Corollary. |
| ContentSwitch.SwitchedSettles | internal/contenttool/tool.go:504-517 | A switch that reports success has settled on the version asked for. Corollary. |
| ContentSwitch.PreviousIsRight | internal/contenttool/transition.go:99-103 | For one attempt that itself completes: previous.json is right if and only if its removal did not fail or there was nothing to remove. Corollary. |
| ContentSwitch.StaleChain | internal/contenttool/transition.go:99-103 | A chain whose first attempt dies just after it removed the record and whose last reports success, with previous.json naming the current version. Corollary. |
| ContentSwitch.StaleRun | internal/contenttool/transition.go:99-103 | The same chain as a run of the tool: the first recovery dies just after it removed the record, the second reports success, and previous.json names the current version. |
| ContentSwitch.StalePrevious | internal/contenttool/transition.go:99-103 | The failing case: after a reported success previous.json names the current version. |
| ContentSwitch.Tool.Recover | internal/contenttool/transition.go:68-143 | One attempt with any fault at any operation: forward only if the new link is in place, back only if not; undisturbed it completes. |
| ContentSwitch.Tool.RollForward | internal/contenttool/transition.go:91-114 | With the new link in place, every fault leaves a state from which recovery goes forward again; completion settles on the new version with both links and the record gone, and undisturbed it completes. |
| ContentSwitch.Tool.RollBack | internal/contenttool/transition.go:115-143 | With the rename not done, every fault leaves the old release reachable and previous.json as it was; completion settles on the old version, and undisturbed it completes. |
| ContentSwitch.Tool.RemoveKnownLink | internal/contenttool/transition.go:54-66 | Only a link to the expected release is ever removed. |
| ContentSwitch.Tool.SameLinkedDirectory | internal/contenttool/transition.go:32-52 | True exactly for a link to that release; a real directory is an error. |
| ContentSwitch.Tool.ReadCurrent | internal/contenttool/tool.go:339-380 | A version is reported only if record, link and prepared release agree. |
| ContentSwitch.Tool.SwitchVersion | internal/contenttool/tool.go:432-518 | From any state the tool leaves: any fault leaves another such state, success settles on the version asked for, and an undisturbed switch to a prepared release succeeds. |
| Manifest.ManifestStream | internal/controller/config/manifest.go:19-101 | A manifest is accepted exactly if its files exist and its paths and files are distinct; then the bytes hashed are those of the sorted manifest. |
| Manifest.OrderInsensitive | internal/controller/config/manifest.go:36-101 | Any reordering of the dependencies gives the same bytes. |
| Manifest.AcceptedInAnyOrder | internal/controller/config/manifest.go:36-77 | Acceptance does not depend on the order either. |
| Manifest.SameBytesSameManifest | internal/controller/config/manifest.go:36-101 | Equal bytes mean the same template path, size and digest and the same dependency tuples. |
| Manifest.StreamUnique | internal/controller/config/manifest.go:86-154 | The length-prefixed stream decodes uniquely. |
| Manifest.SortedUnique | internal/controller/config/manifest.go:78 | Sorting by path leaves no choice of order. |
| Manifest.Hash.WriteString | internal/controller/config/manifest.go:146-148 | Appends the length and the text. |
| Manifest.Hash.WriteUint | internal/controller/config/manifest.go:150-154 | Appends eight bytes, most significant first. |
| Ports.Validate | internal/contracts/nodev1/types.go:470-509 | The loop accepts exactly well-formed facts whose explicit mapping has one entry per pool port with distinct local and distinct public ports. |
| Ports.MappingTotal | internal/contracts/nodev1/types.go:485-509 | Every local port of the pool has a public port, by counting distinct locals. |
| Ports.MappingOneToOne | internal/contracts/nodev1/types.go:485-509 | Distinct local ports have distinct public ports, and each has one. Corollary. |
| Ports.JoinInfo | internal/controller/network/join.go:7-33 | The lookup answers with exactly the mapped public port, or that there is none. |
| Ports.EveryPortJoins | internal/controller/network/join.go:7-33 | For validated facts every local port of the pool gets its entry. |
| Ports.EntryConfigRevision | internal/contracts/nodev1/types.go:257-271 | The text hashed has the same mappings, sorted by local port. |
| Ports.RevisionIgnoresOrder | internal/contracts/nodev1/types.go:257-271 | Reordered mappings have the same entry revision. |
| Ports.RevisionIsFaithful | internal/contracts/nodev1/types.go:257-271 | Equal revision texts mean equal facts up to the order of the mappings. |

## Left out

- SQL, HTTP, JSON, sessions and authentication: each Store method is one atomic transaction, as its row locks make it.
- SHA-256: digests are opaque; the theorems are about the bytes that are hashed.
- Audit rows, timestamps for display, reasons and other text nothing decides on.
- Host, IP and revision patterns: whether a text matches is an input (`wellFormed`, `hostValid`, `ipValid`).
- Integration-only jobs: they hold no allocation.
- Runner.CollectWork: the choice between observing and working, and the session check before it, are not modelled; the work items are.
- Runner.Controller.Create: the session check and the local port range are not modelled; the Platform asks for port 0, and observing an accepted job is `Observations`. Its events are those of one worker; what others may do in between is `Interleaving.StaysEnabled`, event by event.
- Runner.Controller.Cross: the session check is not modelled.
- Observations.SuccessNeedsProof: how often observation polls, and the order of calls inside a stop, are not modelled.
- Manifest.ManifestStream: paths are taken as canonical; separators, symbolic links and the read-only and inside-the-root conditions on each single path are not modelled, and lengths and sizes fit 64 bits.
- ContentSwitch.Tool.SwitchVersion: the file system is a map of names with atomic rename; prepared releases stay intact, the random suffix is fresh, and metadata holds the version only.
- ContentSwitch.Tool.ReadCurrent: the digest, size and path that current.json repeats are not modelled.
- ProofRuns.ProofHasNoGap: that the facts successive calls see only advance is a premise; each writer of facts in `NodeFacts` is proved to keep it, but writers are not calls of the run.
- NodeFacts.FactTables.RecordHeartbeat: node row, entry configuration and inventory of the heartbeat are not modelled.
- Releases.AlwaysFaithful: a preset's accepting flag is not replayed from the log, because operators change it outside releases.
- Releases.Catalog.LegacyPublish: which nodes were confirmed for a version is an input, because content.validate is not a call here.
- Retention.OneInstancePerJob: the clocks' disagreement and the time a call takes are bounded together by the reserved hour; a call that is lost and arrives later than that is not covered.
- Store, Operators, Parties and ValidationRuns methods: the contracts say that the method does what its call in `Calls` says and keeps the invariant. When that call commits and what it leaves in the rows is what the `...Rules` modules prove of it.
- ValidationRuns.ReserveValidation: the guards are one predicate with one error; the order in which the source asks and the guard against open integration jobs are not modelled.
- ValidationRuns.FinalizeValidationRun: the guards are one predicate with one error, without the open integration jobs.
- Occupancy.OccupancyBound: setting the desired capacity is an input of the run, not a call.
- Preparing a release, the legacy content.validate action, connectivity and choice displays, node registration and the paging of FinalizeReadyValidations: they would add easy members only.
- Lock order and deadlocks, and the liveness of creates that stay unknown: the code leaves the first to PostgreSQL and the second open on purpose.
- Random identifiers: a collision is a failed transaction.
