/** What an accepted report on a node job, and an accepted fact about an instance, leave in every row, said in the rows. */
module ReportRules {
  import opened Facts
  import opened Ledger
  import opened Calls
  import opened Coupling
  import opened CouplingSteps
  import opened CouplingRuns
  import opened Evolution
  import opened EvolutionSteps
  import opened RequestRules
  import opened NextGameRules
  import opened OperatorRules
  import opened JobRules
  import OneBlocking

  // ---- The table ----

  predicate Reportable(kind: JobKind, state: JobState) {
    state.JAccepted? || state.JUnknown? || state.JSucceeded? || (state.JRejectedNoEffect? && kind.Create?) || state.JFailedWithEffect?
  }

  // What the report of a job's state makes of its allocation. A failure that left a known instance is stopped at once; one whose
  // identity is in doubt is isolated.
  function Becomes(kind: JobKind, state: JobState, code: string, instance: Token): AllocationState
    requires Reportable(kind, state)
  {
    match kind
    case Create => (
      match state
      case JAccepted => ACreating
      case JUnknown => ACreateUnknown
      case JSucceeded => ARunning
      case JRejectedNoEffect => AReleasedNoEffect
      case _ => if code == "IDENTITY_UNVERIFIED" then AQuarantined else if instance != "" then AStopping else AFailedUnreclaimed)
    case Stop =>
      match state
      case JSucceeded => AReclaimed
      case JFailedWithEffect => AQuarantined
      case _ => AStopping
  }

  // And of its request: as the allocation, but for a release, which lets a request without a chosen node wait again, and for a
  // reclaim behind a wish already held, which keeps it quarantined.
  function OwnerBecomes(kind: JobKind, state: JobState, code: string, instance: Token, auto: bool, held: bool): RequestState
    requires Reportable(kind, state)
  {
    match Becomes(kind, state, code, instance)
    case ACreating => RCreating
    case ACreateUnknown => RCreating
    case ARunning => RRunning
    case AStopping => RStopping
    case AFailedUnreclaimed => RFailedUnreclaimed
    case AQuarantined => RQuarantined
    case AReclaimed => if held then RQuarantined else REnded
    case _ => if auto then RWaiting else RUnavailable
  }

  // A run still open follows its job; it was ready once its server succeeded, and joinable once that came with an entry.
  function RunBecomes(run: Run, kind: JobKind, state: JobState, code: string, joined: bool): Run {
    if run.state.VPassed? || run.state.VFailed? then run
    else match kind
      case Create => (
        match state
        case JAccepted => if run.state.VCreatePending? then run.(state := VCreateObserving) else run
        case JUnknown => if run.state.VCreatePending? || run.state.VCreateObserving? then run.(state := VCreateUnknown) else run
        case JSucceeded =>
          if joined then (if run.state.VAwaitingHuman? then run else run.(state := VAwaitingHuman, ready := true, joinable := true))
          else if run.state.VReadyNoJoin? then run else run.(state := VReadyNoJoin, ready := true)
        case JRejectedNoEffect => run.(state := VFailed)
        case JFailedWithEffect => run.(state := if code == "IDENTITY_UNVERIFIED" then VQuarantined else VCleanupRequired)
        case _ => run)
      case Stop =>
        match state
        case JAccepted => run.(state := VReclaimObserving)
        case JUnknown => run.(state := VStopUnknown)
        case JSucceeded => run.(state := if run.human.HFail? then VFailed else VReclaimObserving)
        case JFailedWithEffect => run.(state := VQuarantined)
        case _ => run
  }

  // The entry a success publishes: the one reported, unless the node's entry configuration has moved on.
  predicate Current(site: Site, n: Id, join: Option<JoinInfo>) {
    join.Some? && n in site.nodes && site.nodes[n].entryRevision == Some(join.value.revision)
  }

  function EnteredAs(al: Allocation, site: Site, join: Option<JoinInfo>, joinError: string): Allocation {
    if Current(site, al.node, join) then al.(state := ARunning, join := join, joinError := "")
    else al.(state := ARunning, joinError := if join.Some? then "NETWORK_CONFIG_CHANGED" else joinError)
  }

  // ---- Row by row ----

  // What is already decided of a resource: given back, or held and the report resolves nothing.
  predicate Decided(s: AllocationState, kind: JobKind, state: JobState) {
    s.AReclaimed? || s.AReleasedNoEffect? || (s.AQuarantined? && !(kind.Stop? && state.JSucceeded?) && !(kind.Create? && state.JRejectedNoEffect?))
  }

  ghost predicate AllocationMoves(m: map<Id, Allocation>, n: map<Id, Allocation>, site: Site, a: Id, kind: JobKind, state: JobState, code: string,
                                  instance: Token, join: Option<JoinInfo>, joinError: string)
    requires a in m && Reportable(kind, state)
  {
    n == m[a := if kind.Create? && state.JSucceeded? then EnteredAs(m[a], site, join, joinError)
                else m[a].(state := Becomes(kind, state, code, instance))]
  }

  // The request that owns allocation a follows unless it was abandoned. When its resource ends, a wish that waits is played.
  ghost predicate OwnerMoves(db: Db, d: Db, site: Site, a: Id, kind: JobKind, state: JobState, code: string, instance: Token, next: Id)
    requires a in db.allocations
    requires Reportable(kind, state)
  {
    match db.allocations[a].purpose
    case ForRun(_) => d.requests == db.requests && d.intents == db.intents
    case ForRequest(r) =>
      r in db.requests ==>
        var auto := db.requests[r].mode.Auto?;
        var held := r in db.intents && db.intents[r].state.IPaused?;
        var after := if db.requests[r].state.RAbandoned? then db.requests[r]
                     else db.requests[r].(state := OwnerBecomes(kind, state, code, instance, auto, held));
        var m := db.(requests := db.requests[r := after]);
        if kind.Stop? && state.JSucceeded? && !db.allocations[a].state.AQuarantined? then Played(m, d, site, r, false, next)
        else
          && d.requests == m.requests
          && d.intents == (if Becomes(kind, state, code, instance).AQuarantined? && r in db.intents && db.intents[r].state.IPending?
                           then db.intents[r := db.intents[r].(state := IPaused)] else db.intents)
  }

  ghost predicate RunMoves(db: Db, d: Db, site: Site, a: Id, kind: JobKind, state: JobState, code: string, join: Option<JoinInfo>)
    requires a in db.allocations
  {
    match db.allocations[a].purpose
    case ForRequest(_) => d.runs == db.runs
    case ForRun(v) =>
      d.runs == if v in db.runs
                then db.runs[v := RunBecomes(db.runs[v], kind, state, code,
                                             kind.Create? && state.JSucceeded? && Current(site, db.allocations[a].node, join))]
                else db.runs
  }

  // A stop is queued for a failure that left an instance, unless one is open or its ID is taken; no other job is added.
  ghost predicate StopMoves(db: Db, d: Db, site: Site, a: Id, kind: JobKind, state: JobState, code: string, instance: Token, stop: Id)
    requires a in db.allocations && db.allocations[a].create in db.jobs
  {
    if kind.Create? && state.JFailedWithEffect? && code != "IDENTITY_UNVERIFIED" && instance != ""
       && stop !in db.jobs && !StopOpen(db.jobs, a) && db.jobs[db.allocations[a].create].instance != ""
    then Queued(db, d.jobs, a, stop, site.now)
    else stop in db.jobs || StopOpen(db.jobs, a) || !(kind.Create? && state.JFailedWithEffect? && code != "IDENTITY_UNVERIFIED" && instance != "") ==>
           d.jobs == db.jobs
  }

  ghost predicate MovesAll(db: Db, d: Db, site: Site, a: Id, kind: JobKind, state: JobState, code: string, instance: Token,
                           join: Option<JoinInfo>, joinError: string, stop: Id, next: Id)
    requires a in db.allocations && db.allocations[a].create in db.jobs
    requires Reportable(kind, state)
  {
    && d.frozen == db.frozen && d.members == db.members && d.parties == db.parties && d.invites == db.invites
    && AllocationMoves(db.allocations, d.allocations, site, a, kind, state, code, instance, join, joinError)
    && OwnerMoves(db, d, site, a, kind, state, code, instance, next)
    && RunMoves(db, d, site, a, kind, state, code, join)
    && StopMoves(db, d, site, a, kind, state, code, instance, stop)
  }

  // The transaction refuses an entry of a node that has no entry configuration.
  predicate NoEntry(site: Site, n: Id, kind: JobKind, state: JobState, join: Option<JoinInfo>) {
    kind.Create? && state.JSucceeded? && join.Some? && !(n in site.nodes && site.nodes[n].entryRevision.Some?)
  }

  lemma TargetIs(kind: JobKind, state: JobState, code: string, instance: Token, mode: Option<Mode>, held: bool)
    requires Reportable(kind, state)
    ensures var t := Target(kind, state, code, mode, held);
            && t.Some?
            && (if AutoStops(kind, state, instance, code) then t.value == (AFailedUnreclaimed, RFailedUnreclaimed)
                else t.value == (Becomes(kind, state, code, instance), OwnerBecomes(kind, state, code, instance, mode == Some(Auto), held)))
  {
  }

  lemma RunFollows(m: map<Id, Run>, p: Purpose, kind: JobKind, state: JobState, code: string, instance: Token, joined: bool)
    requires Reportable(kind, state)
    ensures var after := if AutoStops(kind, state, instance, code) then AFailedUnreclaimed else Becomes(kind, state, code, instance);
            RunsAfterJob(m, p, kind, state, after, joined) ==
              if p.ForRun? && p.run in m then m[p.run := RunBecomes(m[p.run], kind, state, code, joined)] else m
  {
  }

  // Settling, table by table, with what the report says of the resource.
  ghost function Settled(db: Db, site: Site, a: Id, kind: JobKind, state: JobState, code: string, instance: Token,
                         join: Option<JoinInfo>, joinError: string): Db
    requires a in db.allocations && Reportable(kind, state)
  {
    var p := db.allocations[a].purpose;
    var t := Target(kind, state, code, ModeOf(db, p), PausedFor(db, p));
    TargetIs(kind, state, code, instance, ModeOf(db, p), PausedFor(db, p));
    Settle(db, site, a, t.value.0, t.value.1, kind, state, join, joinError)
  }

  lemma SettledAllocation(db: Db, site: Site, a: Id, kind: JobKind, state: JobState, code: string, instance: Token,
                          join: Option<JoinInfo>, joinError: string)
    requires a in db.allocations && Reportable(kind, state)
    ensures var d := Settled(db, site, a, kind, state, code, instance, join, joinError);
            && d == db.(allocations := d.allocations, requests := d.requests, runs := d.runs, intents := d.intents)
            && (if AutoStops(kind, state, instance, code) then d.allocations == db.allocations[a := db.allocations[a].(state := AFailedUnreclaimed)]
                else AllocationMoves(db.allocations, d.allocations, site, a, kind, state, code, instance, join, joinError))
  {
    hide RunsAfterJob, OwnerAdvanced, Paused, Target, ModeOf, PausedFor, OwnerBecomes;
    var p := db.allocations[a].purpose;
    TargetIs(kind, state, code, instance, ModeOf(db, p), PausedFor(db, p));
  }

  lemma SettledRun(db: Db, site: Site, a: Id, kind: JobKind, state: JobState, code: string, instance: Token,
                   join: Option<JoinInfo>, joinError: string)
    requires a in db.allocations && Reportable(kind, state)
    ensures RunMoves(db, Settled(db, site, a, kind, state, code, instance, join, joinError), site, a, kind, state, code, join)
  {
    var p := db.allocations[a].purpose;
    TargetIs(kind, state, code, instance, ModeOf(db, p), PausedFor(db, p));
    RunFollows(db.runs, p, kind, state, code, instance, kind.Create? && state.JSucceeded? && Current(site, db.allocations[a].node, join));
    hide RunsAfterJob, RunBecomes, OwnerAdvanced, Paused, Target, ModeOf, PausedFor, OwnerBecomes, Moved, Entered;
  }

  lemma SettledOwner(db: Db, site: Site, a: Id, kind: JobKind, state: JobState, code: string, instance: Token,
                     join: Option<JoinInfo>, joinError: string, next: Id)
    requires a in db.allocations && Reportable(kind, state) && !AutoStops(kind, state, instance, code)
    requires !(kind.Stop? && state.JSucceeded? && !db.allocations[a].state.AQuarantined?)
    requires db.allocations[a].purpose.ForRequest? ==> db.allocations[a].purpose.request in db.requests
    ensures OwnerMoves(db, Settled(db, site, a, kind, state, code, instance, join, joinError), site, a, kind, state, code, instance, next)
  {
    var p := db.allocations[a].purpose;
    TargetIs(kind, state, code, instance, ModeOf(db, p), PausedFor(db, p));
    hide RunsAfterJob, Target, Moved, Entered, Becomes, OwnerBecomes, Played;
  }

  lemma SettledEnd(db: Db, site: Site, a: Id, code: string, instance: Token, join: Option<JoinInfo>, joinError: string)
    requires a in db.allocations
    ensures EndsOwner(db, Settled(db, site, a, Stop, JSucceeded, code, instance, join, joinError), a)
  {
    hide RunsAfterJob, Moved, Entered;
  }

  lemma SettledFailure(db: Db, site: Site, a: Id, code: string, instance: Token, join: Option<JoinInfo>, joinError: string)
    requires a in db.allocations && AutoStops(Create, JFailedWithEffect, instance, code)
    ensures FailsOwner(db, Settled(db, site, a, Create, JFailedWithEffect, code, instance, join, joinError), a)
  {
    hide RunsAfterJob, Moved, Entered;
  }

  // The request ended, or stays behind its held wish.
  predicate EndsOwner(db: Db, d: Db, a: Id)
    requires a in db.allocations
  {
    && d.intents == db.intents
    && match db.allocations[a].purpose
       case ForRun(_) => d.requests == db.requests
       case ForRequest(r) =>
         r in db.requests ==>
           d.requests == db.requests[r := if db.requests[r].state.RAbandoned? then db.requests[r]
                                          else db.requests[r].(state := if r in db.intents && db.intents[r].state.IPaused? then RQuarantined else REnded)]
  }

  predicate FailsOwner(db: Db, d: Db, a: Id)
    requires a in db.allocations
  {
    && d.intents == db.intents
    && match db.allocations[a].purpose
       case ForRun(_) => d.requests == db.requests
       case ForRequest(r) =>
         r in db.requests ==>
           d.requests == db.requests[r := if db.requests[r].state.RAbandoned? then db.requests[r] else db.requests[r].(state := RFailedUnreclaimed)]
  }

  // ---- Applying a report ----

  // A report that ends its resource: the request ends, and a wish that waits is played in the same transaction.
  lemma EndMoves(db: Db, site: Site, a: Id, instance: Token, code: string, join: Option<JoinInfo>, joinError: string, stop: Id, next: Id)
    requires a in db.allocations && db.allocations[a].create in db.jobs && !Terminal(db.allocations[a].state) && !db.allocations[a].state.AQuarantined?
    requires match db.allocations[a].purpose case ForRun(_) => true case ForRequest(r) => r in db.requests && PartyLives(db, db.requests[r].owner)
    requires next !in db.requests
    ensures var res := ApplyReport(db, site, a, Stop, JSucceeded, instance, code, join, joinError, stop, next);
            res.Committed? && MovesAll(db, res.db, site, a, Stop, JSucceeded, code, instance, join, joinError, stop, next)
  {
    var d := Settled(db, site, a, Stop, JSucceeded, code, instance, join, joinError);
    SettledAllocation(db, site, a, Stop, JSucceeded, code, instance, join, joinError);
    SettledRun(db, site, a, Stop, JSucceeded, code, instance, join, joinError);
    SettledEnd(db, site, a, code, instance, join, joinError);
    EndTarget(db, site, a, instance, code, join, joinError, stop, next);
    EndOwner(db, d, site, a, code, instance, next);
    var e := ConsumeFor(d, site, db.allocations[a].purpose, next).db;
    RunSame(db, d, e, site, a, Stop, JSucceeded, code, join);
    NoStop(db, e, site, a, Stop, JSucceeded, code, instance, stop);
    hide Settled, ApplyReport, ConsumeFor, AllocationMoves, RunMoves, OwnerMoves, StopMoves, EndsOwner;
  }

  lemma EndTarget(db: Db, site: Site, a: Id, instance: Token, code: string, join: Option<JoinInfo>, joinError: string, stop: Id, next: Id)
    requires a in db.allocations && db.allocations[a].create in db.jobs && !Terminal(db.allocations[a].state) && !db.allocations[a].state.AQuarantined?
    ensures ApplyReport(db, site, a, Stop, JSucceeded, instance, code, join, joinError, stop, next)
            == ConsumeFor(Settled(db, site, a, Stop, JSucceeded, code, instance, join, joinError), site, db.allocations[a].purpose, next)
  {
    hide Settle, ModeOf, PausedFor, ConsumeFor;
  }

  // The wish is played on the rows the end left.
  lemma EndOwner(db: Db, d: Db, site: Site, a: Id, code: string, instance: Token, next: Id)
    requires a in db.allocations && !db.allocations[a].state.AQuarantined? && EndsOwner(db, d, a)
    requires d == db.(allocations := d.allocations, requests := d.requests, runs := d.runs, intents := d.intents)
    requires match db.allocations[a].purpose case ForRun(_) => true case ForRequest(r) => r in db.requests && PartyLives(db, db.requests[r].owner)
    requires next !in db.requests
    ensures var res := ConsumeFor(d, site, db.allocations[a].purpose, next);
            && res.Committed? && res.db == d.(requests := res.db.requests, intents := res.db.intents)
            && OwnerMoves(db, res.db, site, a, Stop, JSucceeded, code, instance, next)
  {
    hide Consume, Played, PartyLives;
    match db.allocations[a].purpose
    case ForRun(_) =>
    case ForRequest(r) => PlayEnds(db, d, site, a, r, next);
  }

  lemma NoStop(db: Db, d: Db, site: Site, a: Id, kind: JobKind, state: JobState, code: string, instance: Token, stop: Id)
    requires a in db.allocations && db.allocations[a].create in db.jobs && d.jobs == db.jobs && !AutoStops(kind, state, instance, code)
    ensures StopMoves(db, d, site, a, kind, state, code, instance, stop)
  {
  }

  lemma RunSame(db: Db, d: Db, e: Db, site: Site, a: Id, kind: JobKind, state: JobState, code: string, join: Option<JoinInfo>)
    requires a in db.allocations && RunMoves(db, d, site, a, kind, state, code, join) && e.runs == d.runs
    ensures RunMoves(db, e, site, a, kind, state, code, join)
  {
    hide RunBecomes;
  }

  // Playing after the end, read from the rows before it.
  lemma PlayEnds(db: Db, d: Db, site: Site, a: Id, r: Id, next: Id)
    requires a in db.allocations && db.allocations[a].purpose == ForRequest(r) && r in db.requests && next !in db.requests
    requires EndsOwner(db, d, a) && d.parties == db.parties && d.members == db.members && PartyLives(db, db.requests[r].owner)
    ensures var res := ConsumeFor(d, site, db.allocations[a].purpose, next);
            && res.Committed? && res.db == d.(requests := res.db.requests, intents := res.db.intents)
            && Played(db.(requests := d.requests), res.db, site, r, false, next)
  {
    ConsumePlays(d, site, r, false, next);
    PlayedSame(d, db.(requests := d.requests), ConsumeFor(d, site, db.allocations[a].purpose, next).db, site, r, false, next);
    hide Played, Consume;
  }

  // A failure that left an instance: stopped at once.
  lemma FailureMoves(db: Db, site: Site, a: Id, instance: Token, code: string, join: Option<JoinInfo>, joinError: string, stop: Id, next: Id)
    requires a in db.allocations && db.allocations[a].create in db.jobs && !Terminal(db.allocations[a].state) && !db.allocations[a].state.AQuarantined?
    requires AutoStops(Create, JFailedWithEffect, instance, code) && db.jobs[db.allocations[a].create].instance == instance
    requires db.allocations[a].purpose.ForRequest? ==> db.allocations[a].purpose.request in db.requests
    ensures var res := ApplyReport(db, site, a, Create, JFailedWithEffect, instance, code, join, joinError, stop, next);
            res.Committed? && MovesAll(db, res.db, site, a, Create, JFailedWithEffect, code, instance, join, joinError, stop, next)
  {
    var d := Settled(db, site, a, Create, JFailedWithEffect, code, instance, join, joinError);
    SettledAllocation(db, site, a, Create, JFailedWithEffect, code, instance, join, joinError);
    SettledRun(db, site, a, Create, JFailedWithEffect, code, instance, join, joinError);
    SettledFailure(db, site, a, code, instance, join, joinError);
    var e := AutoStop(d, site, a, stop);
    RunSame(db, d, e, site, a, Create, JFailedWithEffect, code, join);
    StopsFailed(db, d, site, a, instance, code, stop, next);
    hide Settle, ModeOf, PausedFor, RunMoves, StopMoves, FailsOwner, AllocationMoves, OwnerMoves, AutoStop;
  }

  lemma StopsFailed(db: Db, d: Db, site: Site, a: Id, instance: Token, code: string, stop: Id, next: Id)
    requires a in db.allocations && db.allocations[a].create in db.jobs && AutoStops(Create, JFailedWithEffect, instance, code)
    requires db.jobs[db.allocations[a].create].instance == instance && d.jobs == db.jobs && FailsOwner(db, d, a)
    requires db.allocations[a].purpose.ForRequest? ==> db.allocations[a].purpose.request in db.requests
    requires d.allocations == db.allocations[a := db.allocations[a].(state := AFailedUnreclaimed)]
    ensures var e := AutoStop(d, site, a, stop);
            && e == d.(allocations := e.allocations, requests := e.requests, jobs := e.jobs)
            && e.allocations == db.allocations[a := db.allocations[a].(state := AStopping)]
            && OwnerMoves(db, e, site, a, Create, JFailedWithEffect, code, instance, next)
            && StopMoves(db, e, site, a, Create, JFailedWithEffect, code, instance, stop)
  {
  }

  // Any other report.
  lemma PlainMoves(db: Db, site: Site, a: Id, kind: JobKind, state: JobState, instance: Token, code: string, join: Option<JoinInfo>,
                   joinError: string, stop: Id, next: Id)
    requires a in db.allocations && db.allocations[a].create in db.jobs && Reportable(kind, state)
    requires !Decided(db.allocations[a].state, kind, state) && !NoEntry(site, db.allocations[a].node, kind, state, join)
    requires !AutoStops(kind, state, instance, code) && !(kind.Stop? && state.JSucceeded? && !db.allocations[a].state.AQuarantined?)
    requires db.allocations[a].purpose.ForRequest? ==> db.allocations[a].purpose.request in db.requests
    ensures var res := ApplyReport(db, site, a, kind, state, instance, code, join, joinError, stop, next);
            res.Committed? && MovesAll(db, res.db, site, a, kind, state, code, instance, join, joinError, stop, next)
  {
    var p := db.allocations[a].purpose;
    TargetIs(kind, state, code, instance, ModeOf(db, p), PausedFor(db, p));
    SettledAllocation(db, site, a, kind, state, code, instance, join, joinError);
    SettledRun(db, site, a, kind, state, code, instance, join, joinError);
    SettledOwner(db, site, a, kind, state, code, instance, join, joinError, next);
    NoStop(db, Settled(db, site, a, kind, state, code, instance, join, joinError), site, a, kind, state, code, instance, stop);
    hide Settle, Target, ModeOf, PausedFor, RunMoves, AllocationMoves, OwnerMoves, StopMoves, Becomes;
  }

  // Nothing of the resource moves once it is decided.
  lemma DecidedStays(db: Db, site: Site, a: Id, kind: JobKind, state: JobState, instance: Token, code: string, join: Option<JoinInfo>,
                     joinError: string, stop: Id, next: Id)
    requires a in db.allocations && db.allocations[a].create in db.jobs && Decided(db.allocations[a].state, kind, state)
    ensures ApplyReport(db, site, a, kind, state, instance, code, join, joinError, stop, next) == Committed(db)
  {
  }

  lemma NoEntryFails(db: Db, site: Site, a: Id, kind: JobKind, state: JobState, instance: Token, code: string, join: Option<JoinInfo>,
                     joinError: string, stop: Id, next: Id)
    requires a in db.allocations && db.allocations[a].create in db.jobs && Reportable(kind, state)
    requires !Decided(db.allocations[a].state, kind, state) && NoEntry(site, db.allocations[a].node, kind, state, join)
    ensures ApplyReport(db, site, a, kind, state, instance, code, join, joinError, stop, next) == Failed(Internal)
  {
  }

  // ---- The whole report ----

  function Given(known: Token, said: Token): Token {
    if said == "" then known else said
  }

  // The job keeps what it knew and takes what is new.
  function Reporting(job: Job, rep: Report): Job {
    job.(state := rep.state, instance := Given(job.instance, rep.instance), operation := Given(job.operation, rep.operation),
         errorCode := rep.errorCode, errorStage := rep.errorStage, reported := true)
  }

  // The report says of the job what its row says.
  predicate SaidBefore(job: Job, rep: Report) {
    && job.state == rep.state && job.errorCode == rep.errorCode && job.errorStage == rep.errorStage
    && (rep.instance == "" || rep.instance == job.instance) && (rep.operation == "" || rep.operation == job.operation)
  }

  predicate JobOver(s: JobState) {
    s.JSucceeded? || s.JRejectedNoEffect? || s.JFailedWithEffect?
  }

  // When a report is taken ...
  predicate Takes(db: Db, site: Site, node: Id, j: Id, rep: Report) {
    && j in db.jobs && db.jobs[j].node == node && MayReport(db.jobs[j], j in db.frozen, rep)
    && (SaidBefore(db.jobs[j], rep)
        || (!JobOver(db.jobs[j].state) && db.jobs[j].alloc in db.allocations
            && (!Decided(db.allocations[db.jobs[j].alloc].state, db.jobs[j].kind, rep.state) ==>
                  !NoEntry(site, db.allocations[db.jobs[j].alloc].node, db.jobs[j].kind, rep.state, rep.join))))
  }

  // Why one is not: it says nothing a report may say, the job is another node's, the row does not admit it, or, of what is left,
  // the node has no entry configuration.
  function RefusedFor(db: Db, node: Id, j: Id, rep: Report): Fault {
    if !WellFormed(rep) then Conflict
    else if j !in db.jobs || db.jobs[j].node != node then NotFound
    else if !MayReport(db.jobs[j], j in db.frozen, rep) || JobOver(db.jobs[j].state) then Conflict
    else Internal
  }

  // ... and what it leaves: nothing new if it was said before; else the job, and with it everything the table says of its
  // resource, unless that is decided already.
  ghost predicate Leaves(db: Db, d: Db, site: Site, j: Id, rep: Report, stop: Id, next: Id)
    requires j in db.jobs
  {
    var job := db.jobs[j];
    var m := db.(jobs := db.jobs[j := Reporting(job, rep)]);
    if SaidBefore(job, rep) then d == db
    else
      && job.alloc in m.allocations && m.allocations[job.alloc].create in m.jobs && Reportable(job.kind, rep.state)
      && (if Decided(m.allocations[job.alloc].state, job.kind, rep.state) then d == m
          else MovesAll(m, d, site, job.alloc, job.kind, rep.state, rep.errorCode, Given(job.instance, rep.instance),
                        rep.join, rep.joinError, stop, next))
  }

  // In every reachable state a report commits exactly when it is to be taken, and leaves exactly that; else its refusal says why.
  lemma ReportTakes(h: History, site: Site, node: Id, j: Id, rep: Report, stop: Id, next: Id)
    requires next !in Exec(h).requests
    ensures var db := Exec(h);
            var res := Perform(db, site, CReport(node, j, rep, stop, next));
            && (res.Committed? <==> Takes(db, site, node, j, rep))
            && (res.Committed? ==> j in db.jobs && Leaves(db, res.db, site, j, rep, stop, next))
            && (res.Failed? ==> res.fault == RefusedFor(db, node, j, rep))
  {
    RunKeepsInv(h);
    OneBlocking.AlwaysFair(h);
    hide Exec, Inv, OneBlocking.Fair, Takes, Leaves, RefusedFor, ReportJob;
    TakesFrom(Exec(h), site, node, j, rep, stop, next);
  }

  lemma TakesFrom(db: Db, site: Site, node: Id, j: Id, rep: Report, stop: Id, next: Id)
    requires Inv(db) && OneBlocking.Fair(db) && next !in db.requests
    ensures var res := ReportJob(db, site, node, j, rep, stop, next);
            && (res.Committed? <==> Takes(db, site, node, j, rep))
            && (res.Committed? ==> j in db.jobs && Leaves(db, res.db, site, j, rep, stop, next))
            && (res.Failed? ==> res.fault == RefusedFor(db, node, j, rep))
  {
    hide Inv, OneBlocking.Fair, ApplyReport, MovesAll, Decided, NoEntry, ReportAllowed, ValidReport, MayReport, Repeats, SaidBefore, Reported, Reporting,
         JobTerminal, JobOver, Reportable, WellFormed;
    ValidIs(rep);
    if j in db.jobs {
      var job := db.jobs[j];
      AllowedIs(job, j in db.frozen, rep);
      SameWords(job, rep);
      if job.node == node && MayReport(job, j in db.frozen, rep) {
        if !SaidBefore(job, rep) && !JobOver(job.state) {
          MayReportStates(job, j in db.frozen, rep);
          OpenReport(db, site, j, rep, stop, next);
        }
      }
    }
  }

  lemma SameWords(job: Job, rep: Report)
    ensures Repeats(job, rep) <==> SaidBefore(job, rep)
    ensures Reported(job, rep) == Reporting(job, rep) && (JobTerminal(job.state) <==> JobOver(job.state))
    ensures Merge(job.instance, rep.instance) == Given(job.instance, rep.instance) && Reporting(job, rep).alloc == job.alloc
  {
  }

  lemma MayReportStates(job: Job, frozen: bool, rep: Report)
    requires MayReport(job, frozen, rep)
    ensures Reportable(job.kind, rep.state)
    ensures job.instance != "" && rep.instance != "" ==> rep.instance == job.instance
  {
  }

  // The resource half, from the rows that took the report.
  lemma OpenReport(db: Db, site: Site, j: Id, rep: Report, stop: Id, next: Id)
    requires Inv(db) && OneBlocking.Fair(db) && next !in db.requests && j in db.jobs && Reportable(db.jobs[j].kind, rep.state)
    ensures var job := db.jobs[j];
            var m := db.(jobs := db.jobs[j := Reporting(job, rep)]);
            && job.alloc in m.allocations && m.allocations[job.alloc].create in m.jobs
            && var res := ApplyReport(m, site, job.alloc, job.kind, rep.state, Given(job.instance, rep.instance), rep.errorCode,
                                      rep.join, rep.joinError, stop, next);
               if Decided(m.allocations[job.alloc].state, job.kind, rep.state) then res == Committed(m)
               else if NoEntry(site, m.allocations[job.alloc].node, job.kind, rep.state, rep.join) then res == Failed(Internal)
               else res.Committed? && MovesAll(m, res.db, site, job.alloc, job.kind, rep.state, rep.errorCode, Given(job.instance, rep.instance),
                                               rep.join, rep.joinError, stop, next)
  {
    var job := db.jobs[j];
    var a, instance := job.alloc, Given(job.instance, rep.instance);
    var m := db.(jobs := db.jobs[j := Reporting(job, rep)]);
    TakenRooted(db, j, rep);
    InvAllocation(db, a);
    OwnerLives(db, a);
    hide Inv, Coupled, Rooted, OneBlocking.Fair, ApplyReport, MovesAll, PartyLives, AutoStops;
    if Decided(m.allocations[a].state, job.kind, rep.state) {
      DecidedStays(m, site, a, job.kind, rep.state, instance, rep.errorCode, rep.join, rep.joinError, stop, next);
    } else if NoEntry(site, m.allocations[a].node, job.kind, rep.state, rep.join) {
      NoEntryFails(m, site, a, job.kind, rep.state, instance, rep.errorCode, rep.join, rep.joinError, stop, next);
    } else if job.kind.Stop? && rep.state.JSucceeded? && !m.allocations[a].state.AQuarantined? {
      LivesSame(db, m, a);
      EndMoves(m, site, a, instance, rep.errorCode, rep.join, rep.joinError, stop, next);
    } else if AutoStops(job.kind, rep.state, instance, rep.errorCode) {
      AutoStopIs(job.kind, rep.state, instance, rep.errorCode);
      FailureMoves(m, site, a, instance, rep.errorCode, rep.join, rep.joinError, stop, next);
    } else {
      PlainMoves(m, site, a, job.kind, rep.state, instance, rep.errorCode, rep.join, rep.joinError, stop, next);
    }
  }

  lemma AutoStopIs(kind: JobKind, state: JobState, instance: Token, code: string)
    ensures AutoStops(kind, state, instance, code) ==> kind.Create? && state.JFailedWithEffect? && instance != ""
  {
  }

  lemma LivesSame(db: Db, m: Db, a: Id)
    requires a in db.allocations && m.parties == db.parties && m.requests == db.requests
    requires match db.allocations[a].purpose case ForRun(_) => true case ForRequest(r) => r in db.requests && PartyLives(db, db.requests[r].owner)
    ensures match db.allocations[a].purpose case ForRun(_) => true case ForRequest(r) => r in m.requests && PartyLives(m, m.requests[r].owner)
  {
  }

  // Behind every resource that is not given back stands a live owner.
  lemma OwnerLives(db: Db, a: Id)
    requires Inv(db) && OneBlocking.Fair(db) && a in db.allocations
    ensures match db.allocations[a].purpose case ForRun(_) => true case ForRequest(r) =>
              r in db.requests && (!Terminal(db.allocations[a].state) ==> PartyLives(db, db.requests[r].owner))
  {
    hide Coupled, OneBlocking.OwnersDiffer, OneBlocking.SolosApart;
    InvAllocation(db, a);
    match db.allocations[a].purpose
    case ForRun(_) =>
    case ForRequest(r) => if !Terminal(db.allocations[a].state) { assert OpenAttempt(db, r, a); }
  }
}
