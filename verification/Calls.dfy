/** What each Store transaction does to the rows: the specification the methods
    of Store.dfy are proved against, and the steps every run theorem quantifies over. */
module Calls {
  import opened Facts
  import opened Ledger

  datatype Fault = Conflict | NotFound | Forbidden | Internal | Refusal(why: FreshError)

  // A transaction commits its rows or rolls all of them back.
  datatype Result = Committed(db: Db) | Failed(fault: Fault)

  // ---- Owners ----

  datatype Authority = Acts(owner: Owner) | Denied(fault: Fault)

  function Acting(db: Db, user: Id): Authority {
    if user !in db.members then Acts(Solo(user))
    else
      var p := db.members[user];
      if p !in db.parties || !db.parties[p].live then Denied(Internal)
      else if db.parties[p].leader != Some(user) then Denied(Forbidden)
      else Acts(Group(p))
  }

  function Members(db: Db, p: Id): set<Id> {
    set u | u in db.members && db.members[u] == p
  }

  predicate BlockingOwned(db: Db, owner: Owner, r: Id) {
    r in db.requests && db.requests[r].owner == owner && Blocking(db.requests[r].state)
  }

  predicate Busy(db: Db, owner: Owner) {
    exists r :: r in db.requests && BlockingOwned(db, owner, r)
  }

  // ---- Requests ----

  datatype Admission = FreshOk | Refused(why: FreshError) | Broken

  // validateFreshRequest
  function FreshCheck(db: Db, site: Site, game: Id, preset: Id, owner: Owner, mode: Mode): Admission {
    if owner.Group? && !(owner.party in db.parties && db.parties[owner.party].live) then Broken
    else if game !in site.games || preset !in site.presets || site.presets[preset].game != game then
      Refused(InvalidSelection)
    else if !site.accepting || !site.games[game].enabled || !site.games[game].accepting
            || !site.presets[preset].enabled || !site.presets[preset].accepting then Refused(Maintenance)
    else if owner.Group? && |Members(db, owner.party)| > site.presets[preset].maxPlayers then Refused(PartyTooLarge)
    else if mode.Manual? && !(mode.node in site.nodes && site.nodes[mode.node].enabled) then
      Refused(InvalidNodeSelection)
    else FreshOk
  }

  // A request its owner may open, if the catalog admits it.
  function Opened(db: Db, site: Site, owner: Owner, game: Id, preset: Id, mode: Mode, id: Id): Result {
    match FreshCheck(db, site, game, preset, owner, mode)
    case Broken => Failed(Internal)
    case Refused(why) => Failed(Refusal(why))
    case FreshOk =>
      if id in db.requests then Failed(Internal)
      else Committed(db.(requests := db.requests[id := Request(owner, game, preset, mode, site.now, RWaiting)]))
  }

  function NewRequest(db: Db, site: Site, user: Id, game: Id, preset: Id, mode: Mode, id: Id): Result {
    match Acting(db, user)
    case Denied(fault) => Failed(fault)
    case Acts(owner) => if Busy(db, owner) then Committed(db) else Opened(db, site, owner, game, preset, mode, id)
  }

  ghost function CancelWaiting(db: Db, r: Id): Result {
    if r !in db.requests then Failed(NotFound)
    else if !db.requests[r].state.RWaiting? || Attempts(db, r) != {} then Failed(Conflict)
    else Committed(SetRequest(db, r, RCancelled))
  }

  ghost function UserCancel(db: Db, user: Id, r: Id): Result {
    match Acting(db, user)
    case Denied(fault) => Failed(fault)
    case Acts(owner) =>
      if r !in db.requests || db.requests[r].owner != owner then Failed(NotFound) else CancelWaiting(db, r)
  }

  // The request the next game starts with: the old one's owner and choice, waiting from now.
  function NextRequest(q: Request, now: int): Request {
    Request(q.owner, q.game, q.preset, q.mode, now, RWaiting)
  }

  // consumeNextGameIntent
  function Consume(db: Db, site: Site, r: Id, afterAbandon: bool, next: Id): Result
    requires r in db.requests
  {
    if r !in db.intents then Committed(db)
    else
      var intent := db.intents[r];
      if intent.failure.Some? || intent.state.IConsumed? || (intent.state.IPaused? && !afterAbandon) then Committed(db)
      else
        var q := db.requests[r];
        match FreshCheck(db, site, q.game, q.preset, q.owner, q.mode)
        case Broken => Failed(Internal)
        case Refused(why) => Committed(db.(intents := db.intents[r := intent.(state := IPaused, failure := Some(why))]))
        case FreshOk =>
          if next in db.requests then Failed(Internal)
          else Committed(db.(
            requests := db.requests[next := NextRequest(q, site.now)],
            intents := db.intents[r := intent.(state := IConsumed, newRequest := Some(next))]))
  }

  function ConsumeFor(db: Db, site: Site, p: Purpose, next: Id): Result {
    if p.ForRequest? && p.request in db.requests then Consume(db, site, p.request, false, next) else Committed(db)
  }

  // ---- Scheduling ----

  datatype Reason = InMaintenance | Unreachable | Incompatible | TemplateUnready | ContentUnready | Full | Available

  predicate Online(n: Node, now: int) {
    n.heartbeat.Some? && Fresh(n.heartbeat.value, now)
  }

  function Limit(n: Node): int {
    if n.hard < n.desired then n.hard else n.desired
  }

  // NodeEligibility.Reason on the row nodeEligibilitySQL reads
  function NodeReason(db: Db, site: Site, n: Id, game: Id, revision: string, content: string): Reason
    requires n in site.nodes
  {
    var node := site.nodes[n];
    if !node.enabled || !node.accepting || node.draining then InMaintenance
    else if !Online(node, site.now) then Unreachable
    else if !node.compatible then Incompatible
    else if (n, revision) !in site.facts.bindings || site.facts.bindings[(n, revision)].key == "" then TemplateUnready
    else if (n, game) !in site.facts.content
            || !site.facts.content[(n, game)].confirmed
            || site.facts.content[(n, game)].version != Some(content)
            || !site.facts.content[(n, game)].accepting then ContentUnready
    else if |Occupied(db, n)| >= Limit(node) then Full
    else Available
  }

  // effectiveValidationProof, for one run
  predicate Effective(db: Db, site: Site, v: Id, n: Id, game: Id, preset: Id, content: string, revision: string) {
    && v in db.runs
    && var run := db.runs[v];
       var c := run.candidate;
       && run.state.VPassed? && run.human.HPass? && run.ready && run.joinable
       && run.alloc in db.allocations && db.allocations[run.alloc].state.AReclaimed?
       && c.node == n && c.game == game && c.preset == preset && c.content == content && c.revision == revision
       && FactsStand(site.facts, c, site.now)
       && n in site.nodes
       && var node := site.nodes[n];
          && node.enabled && node.accepting && !node.draining && Online(node, site.now)
          && node.compatible && node.capable && node.scanConfirmed
          && n in site.facts.latestScan && site.facts.latestScan[n] == node.scan
          && SoundScan(site, n, node.scan)
  }

  predicate SoundScan(site: Site, n: Id, scan: string) {
    && (n, scan) in site.facts.inventories
    && var i := site.facts.inventories[(n, scan)];
       i.complete && i.confirmed && i.unaccounted == 0 && Fresh(i.receivedAt, site.now)
  }

  predicate Proved(db: Db, site: Site, n: Id, game: Id, preset: Id, content: string, revision: string) {
    exists v :: v in db.runs && Effective(db, site, v, n, game, preset, content, revision)
  }

  predicate Catalogued(site: Site, q: Request) {
    q.game in site.games && q.preset in site.presets
  }

  predicate Disabled(site: Site, q: Request)
    requires Catalogued(site, q)
  {
    !site.games[q.game].enabled || !site.presets[q.preset].enabled
  }

  predicate Admitted(site: Site, q: Request)
    requires Catalogued(site, q)
  {
    && site.accepting && site.games[q.game].accepting && site.presets[q.preset].accepting
    && site.games[q.game].content != ""
  }

  predicate Released(db: Db, r: Id, n: Id) {
    exists a :: a in db.allocations && AttemptOf(db, r, a) && db.allocations[a].node == n && db.allocations[a].state.AReleasedNoEffect?
  }

  // The nodes the scheduler offers a request: the chosen one, or every one not proved effectless yet.
  predicate Offered(db: Db, site: Site, r: Id, n: Id)
    requires r in db.requests
  {
    && n in site.nodes
    && match db.requests[r].mode
       case Manual(chosen) => n == chosen
       case Auto => !Released(db, r, n)
  }

  // A node that passes Reason and, for an upgraded preset, the proof gate.
  predicate Accepts(db: Db, site: Site, r: Id, n: Id)
    requires r in db.requests && Catalogued(site, db.requests[r])
    requires n in site.nodes
  {
    var q := db.requests[r];
    var content := site.games[q.game].content;
    var preset := site.presets[q.preset];
    && NodeReason(db, site, n, q.game, preset.revision, content).Available?
    && (preset.contract.V102Contract? ==>
          && (q.game, content) in site.facts.versions && site.facts.versions[(q.game, content)] != ""
          && site.facts.bindings[(n, preset.revision)].fingerprint.Some?
          && site.facts.bindings[(n, preset.revision)].fingerprint.value != ""
          && site.facts.bindings[(n, preset.revision)].generation != 0
          && Proved(db, site, n, q.game, q.preset, content, preset.revision))
  }

  predicate Placeable(db: Db, site: Site, r: Id, n: Id) {
    && r in db.requests && db.requests[r].state.RWaiting?
    && Catalogued(site, db.requests[r])
    && !Disabled(site, db.requests[r]) && Admitted(site, db.requests[r])
    && n in site.nodes && Offered(db, site, r, n) && Accepts(db, site, r, n)
  }

  // Nowhere left to try: an auto request whose every node has already released an attempt.
  predicate Exhausted(db: Db, site: Site, r: Id)
    requires r in db.requests
  {
    && db.requests[r].mode.Auto?
    && (forall n :: n in site.nodes ==> !Offered(db, site, r, n))
    && exists a :: a in db.allocations && AttemptOf(db, r, a) && db.allocations[a].state.AReleasedNoEffect?
  }

  predicate Closable(db: Db, site: Site, r: Id) {
    && r in db.requests && db.requests[r].state.RWaiting?
    && Catalogued(site, db.requests[r])
    && (Disabled(site, db.requests[r]) || (Admitted(site, db.requests[r]) && Exhausted(db, site, r)))
  }

  ghost function MaxAttempt(db: Db, s: set<Id>): nat {
    if s * db.allocations.Keys == {} then 0
    else
      var a :| a in s * db.allocations.Keys;
      var rest := MaxAttempt(db, s - {a});
      if db.allocations[a].attempt > rest then db.allocations[a].attempt else rest
  }

  function NewCreateJob(n: Id, a: Id, key: string, expected: Option<Expected>, now: int): Job {
    Job(n, Create, a, if expected.Some? then ContentValidationV102 else LegacyV1, now, key, expected,
        JPending, "", "", "", "", false, false)
  }

  function NewStopJob(db: Db, a: Id, now: int): Job
    requires a in db.allocations && db.allocations[a].create in db.jobs
  {
    var c := db.jobs[db.allocations[a].create];
    Job(db.allocations[a].node, Stop, a, c.capability, now, "", None, JPending, c.instance, "", "", "", false, false)
  }

  function ExpectedOf(site: Site, q: Request, n: Id): Option<Expected>
    requires Catalogued(site, q)
  {
    var preset := site.presets[q.preset];
    var game := site.games[q.game];
    if preset.contract.V102Contract? && (n, preset.revision) in site.facts.bindings
       && site.facts.bindings[(n, preset.revision)].fingerprint.Some? && (q.game, game.content) in site.facts.versions
    then
      var b := site.facts.bindings[(n, preset.revision)];
      Some(Expected(b.fingerprint.value, b.generation, game.workshop, game.content, site.facts.versions[(q.game, game.content)]))
    else None
  }

  // The reservation half of TryAllocateOne: one allocation, its create job, and the request.
  ghost function Place(db: Db, site: Site, r: Id, n: Id, a: Id, j: Id): Result {
    if !Placeable(db, site, r, n) then Failed(Conflict)
    else if a in db.allocations || j in db.jobs then Failed(Internal)
    else
      var q := db.requests[r];
      var preset := site.presets[q.preset];
      Committed(db.(
        allocations := db.allocations[a :=
          Allocation(ForRequest(r), q.game, MaxAttempt(db, Attempts(db, r)) + 1, n, site.games[q.game].content,
                     preset.revision, j, AReserved, None, "", site.now)],
        jobs := db.jobs[j := NewCreateJob(n, a, site.facts.bindings[(n, preset.revision)].key, ExpectedOf(site, q, n), site.now)],
        requests := db.requests[r := q.(state := RAllocating)]))
  }

  ghost function CloseWaiting(db: Db, site: Site, r: Id): Result {
    if Closable(db, site, r) then Committed(SetRequest(db, r, RUnavailable)) else Failed(Conflict)
  }

  // ---- Node jobs ----

  // Another unresolved job of the same allocation or the same core instance.
  predicate Rival(db: Db, j: Id, k: Id)
    requires j in db.jobs
  {
    && k in db.jobs && k != j && db.jobs[k].node == db.jobs[j].node && InFlight(db.jobs[k].state)
    && (db.jobs[k].alloc == db.jobs[j].alloc
        || (db.jobs[j].instance != "" && db.jobs[k].instance == db.jobs[j].instance))
  }

  predicate TrustedStop(db: Db, j: Id)
    requires j in db.jobs
  {
    var job := db.jobs[j];
    && job.kind.Stop? && job.instance != ""
    && job.alloc in db.allocations && !Terminal(db.allocations[job.alloc].state)
    && db.allocations[job.alloc].create in db.jobs
    && var c := db.jobs[db.allocations[job.alloc].create];
       && c.node == job.node && c.instance == job.instance
       && (c.state.JSucceeded? || c.state.JFailedWithEffect?) && c.errorCode != "IDENTITY_UNVERIFIED"
  }

  predicate Claimable(db: Db, site: Site, node: Id, j: Id, independent: bool, cap: Capability) {
    && j in db.jobs && node in site.nodes
    && var job := db.jobs[j];
       && job.node == node && job.state.JPending?
       && site.nodes[node].enabled && site.nodes[node].compatible && Online(site.nodes[node], site.now)
       && (job.capability.LegacyV1? || job.capability == cap)
       && (forall k :: k in db.jobs ==> !Rival(db, j, k))
       && (independent ==> TrustedStop(db, j))
  }

  function Claim(db: Db, site: Site, node: Id, j: Id, independent: bool, cap: Capability): Result {
    if Claimable(db, site, node, j, independent, cap)
    then Committed(db.(jobs := db.jobs[j := db.jobs[j].(state := JClaimed, everClaimed := true)]))
    else Failed(NotFound)
  }

  predicate Preparable(job: Job, template: string, port: int, algorithm: string, sha: string) {
    && job.kind.Create? && InFlight(job.state)
    && (match job.capability
        case ContentValidationV102 =>
          job.expected.Some? && algorithm == MANIFEST_V1 && sha == job.expected.value.fingerprint
        case LegacyV1 => algorithm == "" && sha == "")
  }

  // prepareCreate: freeze once, compare afterwards.
  function Prepare(db: Db, site: Site, node: Id, j: Id, template: string, port: int, algorithm: string, sha: string): Result {
    if template == "" || port < 0 || port > 65535 then Failed(Conflict)
    else if j !in db.jobs || db.jobs[j].node != node then Failed(NotFound)
    else if !Preparable(db.jobs[j], template, port, algorithm, sha) then Failed(Conflict)
    else
      var asked := Frozen(template, port, db.jobs[j].capability, algorithm, sha);
      if j in db.frozen && db.frozen[j].request != asked then Failed(Conflict)
      else Committed(StartCreating(db.(frozen := FrozenOnce(db.frozen, j, asked, site.now)), db.jobs[j].alloc))
  }

  // ON CONFLICT DO NOTHING: the first row stays, with its time.
  function FrozenOnce(m: map<Id, Execution>, j: Id, asked: Frozen, now: int): map<Id, Execution> {
    if j in m then m else m[j := Execution(asked, now)]
  }

  function StartCreating(db: Db, a: Id): Db {
    if a !in db.allocations then db
    else
      var al := db.allocations[a];
      db.(
        allocations := if al.state.AReserved? || al.state.ACreateUnknown? then Moved(db.allocations, a, ACreating) else db.allocations,
        requests := if al.purpose.ForRequest? && al.purpose.request in db.requests && db.requests[al.purpose.request].state.RAllocating?
                    then Advanced(db.requests, al.purpose.request, RCreating) else db.requests,
        runs := if al.purpose.ForRun? && al.purpose.run in db.runs && db.runs[al.purpose.run].state.VCreatePending?
                then db.runs[al.purpose.run := db.runs[al.purpose.run].(state := VCreateObserving)] else db.runs)
  }

  predicate PermittedTransition(was: JobState, next: JobState) {
    || was == next
    || (was.JClaimed? && (next.JAccepted? || next.JUnknown? || next.JRejectedNoEffect? || next.JFailedWithEffect?))
    || (was.JAccepted? && (next.JUnknown? || next.JSucceeded? || next.JFailedWithEffect?))
    || (was.JUnknown? && (next.JAccepted? || next.JSucceeded? || next.JRejectedNoEffect? || next.JFailedWithEffect?))
  }

  predicate JobTerminal(s: JobState) {
    s.JSucceeded? || s.JRejectedNoEffect? || s.JFailedWithEffect?
  }

  datatype Report = Report(
    state: JobState, instance: Token, operation: Token, errorCode: Token, errorStage: Token,
    join: Option<JoinInfo>, joinError: Token)

  predicate ValidJoin(join: JoinInfo) {
    1 <= join.localPort <= 65535 && 1 <= join.publicPort <= 65535 && join.wellFormed
  }

  // ReportRequest.Validate
  predicate ValidReport(rep: Report) {
    && !rep.state.JPending? && !rep.state.JClaimed?
    && (forall t :: t in [rep.instance, rep.operation, rep.errorCode, rep.errorStage, rep.joinError] && t != "" ==> TokenOk(t))
    && (rep.join.Some? ==> rep.state.JSucceeded? && rep.joinError == "" && ValidJoin(rep.join.value))
    && (rep.joinError != "" ==> rep.state.JSucceeded?)
  }

  function Merge(known: Token, reported: Token): Token {
    if reported != "" then reported else known
  }

  predicate ReportAllowed(job: Job, frozen: bool, rep: Report) {
    var instance := Merge(job.instance, rep.instance);
    var operation := Merge(job.operation, rep.operation);
    && !(job.capability.ContentValidationV102? && job.state.JClaimed? && (rep.state.JAccepted? || rep.state.JSucceeded?))
    && PermittedTransition(job.state, rep.state)
    && (rep.instance != "" && job.instance != "" ==> rep.instance == job.instance)
    && (rep.operation != "" && job.operation != "" ==> rep.operation == job.operation)
    && (job.kind.Create? && !frozen ==> rep.state.JRejectedNoEffect?)
    && (rep.state.JAccepted? || rep.state.JSucceeded? ==> instance != "" && operation != "")
    && (rep.state.JRejectedNoEffect? ==>
          && job.kind.Create? && instance == "" && operation == "" && rep.errorCode != ""
          && !job.state.JUnknown? && rep.errorCode != "RECONCILED_NO_EFFECT")
    && (rep.state.JFailedWithEffect? ==> instance != "" || operation != "")
    && (job.kind.Create? && rep.state.JSucceeded? ==> (rep.join.None? <==> rep.joinError != ""))
  }

  function Reported(job: Job, rep: Report): Job {
    job.(state := rep.state, instance := Merge(job.instance, rep.instance), operation := Merge(job.operation, rep.operation),
         errorCode := rep.errorCode, errorStage := rep.errorStage, reported := true)
  }

  predicate Repeats(job: Job, rep: Report) {
    && job.state == rep.state && Merge(job.instance, rep.instance) == job.instance
    && Merge(job.operation, rep.operation) == job.operation
    && job.errorCode == rep.errorCode && job.errorStage == rep.errorStage
  }

  // The allocation and request states a report asks for.
  function Target(kind: JobKind, state: JobState, errorCode: string, mode: Option<Mode>, paused: bool)
    : Option<(AllocationState, RequestState)>
  {
    match kind
    case Create => (
      match state
      case JAccepted => Some((ACreating, RCreating))
      case JUnknown => Some((ACreateUnknown, RCreating))
      case JSucceeded => Some((ARunning, RRunning))
      case JRejectedNoEffect => Some((AReleasedNoEffect, if mode == Some(Auto) then RWaiting else RUnavailable))
      case JFailedWithEffect =>
        if errorCode == "IDENTITY_UNVERIFIED" then Some((AQuarantined, RQuarantined))
        else Some((AFailedUnreclaimed, RFailedUnreclaimed))
      case _ => None)
    case Stop =>
      match state
      case JAccepted => Some((AStopping, RStopping))
      case JUnknown => Some((AStopping, RStopping))
      case JSucceeded => Some((AReclaimed, if paused then RQuarantined else REnded))
      case JFailedWithEffect => Some((AQuarantined, RQuarantined))
      case _ => None
  }

  // advanceValidationFromJob
  function AdvanceFromJob(run: Run, kind: JobKind, state: JobState, after: AllocationState, joined: bool): Run {
    if run.state.VPassed? || run.state.VFailed? then run
    else
      var next :=
        match kind
        case Create => (
          match state
          case JAccepted => if run.state.VCreatePending? then VCreateObserving else run.state
          case JUnknown => if run.state.VCreatePending? || run.state.VCreateObserving? then VCreateUnknown else run.state
          case JSucceeded => if joined then VAwaitingHuman else VReadyNoJoin
          case JRejectedNoEffect => VFailed
          case JFailedWithEffect => if after.AQuarantined? then VQuarantined else VCleanupRequired
          case _ => run.state)
        case Stop => (
          match state
          case JAccepted => VReclaimObserving
          case JUnknown => VStopUnknown
          case JSucceeded => if run.human.HFail? then VFailed else VReclaimObserving
          case JFailedWithEffect => VQuarantined
          case _ => run.state);
      RunAt(run, next)
  }

  function RunAt(run: Run, next: RunState): Run {
    if next == run.state then run
    else run.(state := next,
              ready := run.ready || next.VReadyNoJoin? || next.VAwaitingHuman?,
              joinable := run.joinable || next.VAwaitingHuman?)
  }

  datatype RunFact = FactReady | FactReclaimed | FactQuarantined

  // advanceValidationFromFact: a resource fact never bypasses the human confirmation.
  function AdvanceFromFact(run: Run, fact: RunFact, joined: bool): Run {
    if run.state.VPassed? || run.state.VFailed? then run
    else match fact
      case FactReady =>
        if run.state.VCreatePending? || run.state.VCreateObserving? || run.state.VCreateUnknown? || run.state.VReadyNoJoin?
        then RunAt(run, if joined then VAwaitingHuman else VReadyNoJoin) else run
      case FactReclaimed => run
      case FactQuarantined => RunAt(run, VQuarantined)
  }

  function RunsAfterFact(m: map<Id, Run>, p: Purpose, fact: RunFact, joined: bool): map<Id, Run> {
    if p.ForRun? && p.run in m then m[p.run := AdvanceFromFact(m[p.run], fact, joined)] else m
  }

  function RunsAfterJob(m: map<Id, Run>, p: Purpose, kind: JobKind, state: JobState, after: AllocationState, joined: bool): map<Id, Run> {
    if p.ForRun? && p.run in m then m[p.run := AdvanceFromJob(m[p.run], kind, state, after, joined)] else m
  }

  // The JoinInfo a create success keeps: none when the entry configuration has moved on.
  function KeptJoin(site: Site, n: Id, join: Option<JoinInfo>): Option<JoinInfo> {
    if join.Some? && n in site.nodes && site.nodes[n].entryRevision == Some(join.value.revision) then join else None
  }

  function JoinErrorOf(join: Option<JoinInfo>, reported: string): string {
    if join.Some? then "NETWORK_CONFIG_CHANGED" else reported
  }

  // The allocation a create success leaves.
  function Entered(al: Allocation, site: Site, join: Option<JoinInfo>, joinError: string): Allocation {
    var kept := KeptJoin(site, al.node, join);
    if kept.Some? then al.(state := ARunning, join := kept, joinError := "")
    else al.(state := ARunning, joinError := JoinErrorOf(join, joinError))
  }

  function ModeOf(db: Db, p: Purpose): Option<Mode> {
    if p.ForRequest? && p.request in db.requests then Some(db.requests[p.request].mode) else None
  }

  predicate PausedFor(db: Db, p: Purpose) {
    p.ForRequest? && PausedIntent(db, p.request)
  }

  predicate AutoStops(kind: JobKind, state: JobState, instance: Token, errorCode: string) {
    kind.Create? && state.JFailedWithEffect? && instance != "" && errorCode != "IDENTITY_UNVERIFIED"
  }

  // An effectful failure queues its own stop, unless one is open (ON CONFLICT DO NOTHING).
  function AutoStop(db: Db, site: Site, a: Id, stop: Id): Db
    requires a in db.allocations && db.allocations[a].create in db.jobs
  {
    db.(
      jobs := if stop in db.jobs || OpenStop(db.jobs, a) then db.jobs else db.jobs[stop := NewStopJob(db, a, site.now)],
      allocations := Moved(db.allocations, a, AStopping),
      requests := OwnerAdvanced(db.requests, db.allocations[a].purpose, RStopping))
  }

  // The rows a report moves: the allocation, the entry it publishes, its owner and a pending next game.
  function Settle(db: Db, site: Site, a: Id, after: AllocationState, requestAfter: RequestState, kind: JobKind, state: JobState,
                  join: Option<JoinInfo>, joinError: string): Db
    requires a in db.allocations
  {
    var al := db.allocations[a];
    var p := al.purpose;
    var created := kind.Create? && state.JSucceeded?;
    db.(
      allocations := if created then db.allocations[a := Entered(al, site, join, joinError)] else Moved(db.allocations, a, after),
      requests := OwnerAdvanced(db.requests, p, requestAfter),
      runs := RunsAfterJob(db.runs, p, kind, state, after, created && KeptJoin(site, al.node, join).Some?),
      intents := if after.AQuarantined? then Paused(db.intents, p) else db.intents)
  }

  // A report that moves the resource: its rows, then the next game or the automatic stop.
  function Carry(db: Db, site: Site, a: Id, after: AllocationState, requestAfter: RequestState, kind: JobKind, state: JobState,
                 instance: Token, errorCode: string, join: Option<JoinInfo>, joinError: string, stop: Id, next: Id): Result
    requires a in db.allocations && db.allocations[a].create in db.jobs
  {
    var al := db.allocations[a];
    if kind.Create? && state.JSucceeded? && join.Some?
       && !(al.node in site.nodes && site.nodes[al.node].entryRevision.Some?) then Failed(Internal)
    else
      var d := Settle(db, site, a, after, requestAfter, kind, state, join, joinError);
      if kind.Stop? && state.JSucceeded? && !al.state.AQuarantined? then ConsumeFor(d, site, al.purpose, next)
      else if AutoStops(kind, state, instance, errorCode) then Committed(AutoStop(d, site, a, stop))
      else Committed(d)
  }

  // applyAllocationJobReport
  function ApplyReport(db: Db, site: Site, a: Id, kind: JobKind, state: JobState, instance: Token, errorCode: string,
                       join: Option<JoinInfo>, joinError: string, stop: Id, next: Id): Result
    requires a in db.allocations && db.allocations[a].create in db.jobs
  {
    var al := db.allocations[a];
    var p := al.purpose;
    var resolves := (kind.Stop? && state.JSucceeded?) || (kind.Create? && state.JRejectedNoEffect?);
    if Terminal(al.state) || (al.state.AQuarantined? && !resolves) then Committed(db)
    else match Target(kind, state, errorCode, ModeOf(db, p), PausedFor(db, p))
      case None => Failed(Conflict)
      case Some((after, requestAfter)) =>
        Carry(db, site, a, after, requestAfter, kind, state, instance, errorCode, join, joinError, stop, next)
  }

  // reportJob without an operation start
  function ReportJob(db: Db, site: Site, node: Id, j: Id, rep: Report, stop: Id, next: Id): Result {
    if !ValidReport(rep) then Failed(Conflict)
    else if j !in db.jobs || db.jobs[j].node != node then Failed(NotFound)
    else
      var job := db.jobs[j];
      if !ReportAllowed(job, j in db.frozen, rep) then Failed(Conflict)
      else if Repeats(job, rep) then Committed(db)
      else if JobTerminal(job.state) then Failed(Conflict)
      else
        var d := db.(jobs := db.jobs[j := Reported(job, rep)]);
        if job.alloc in d.allocations && d.allocations[job.alloc].create in d.jobs
        then ApplyReport(d, site, job.alloc, job.kind, rep.state, Merge(job.instance, rep.instance), rep.errorCode,
                         rep.join, rep.joinError, stop, next)
        else Failed(Internal)
  }

  // What a v1.0.2 worker names before it crosses the core boundary.
  datatype Start = StartCreate(frozen: Frozen) | StartStop(instance: Token)

  const STARTED := Report(JUnknown, "", "", "", "", None, "")

  predicate StartAllowed(db: Db, j: Id, start: Start)
    requires j in db.jobs
  {
    var job := db.jobs[j];
    && job.capability.ContentValidationV102? && job.operation == ""
    && (job.state.JClaimed? || job.state.JUnknown?)
    && match start
       case StartStop(instance) => job.kind.Stop? && instance != "" && job.instance == instance
       case StartCreate(frozen) => job.kind.Create? && job.instance == "" && j in db.frozen && db.frozen[j].request == frozen
  }

  // BeginOperation: the durable mark before a local core call.
  function Begin(db: Db, site: Site, node: Id, j: Id, start: Start, stop: Id, next: Id): Result {
    if start.StartStop? && !TokenOk(start.instance) then Failed(Conflict)
    else if j !in db.jobs || db.jobs[j].node != node then Failed(NotFound)
    else if !StartAllowed(db, j, start) then Failed(Conflict)
    else if db.jobs[j].state.JUnknown? then Committed(db)
    else ReportJob(db, site, node, j, STARTED, stop, next)
  }

  // ---- Instance facts ----

  datatype Outcome = Active | Gone | IdentityUnverified | Uncertain
  datatype Fact = Fact(
    instance: Token, outcome: Outcome, lifecycle: string, process: string, cleanup: string, port: int, room: string,
    join: Option<JoinInfo>, joinError: Token)

  predicate ReclaimedStatus(lifecycle: string, process: string, cleanup: string) {
    lifecycle == "reclaimed" && process == "stopped" && cleanup == "complete"
  }

  predicate ValidFact(f: Fact) {
    && f.instance != "" && 0 <= f.port <= 65535
    && (f.outcome.Gone? ==> ReclaimedStatus(f.lifecycle, f.process, f.cleanup))
    && (f.outcome.Active? ==> f.lifecycle == "active" && f.process == "running")
    && (f.join.Some? || f.joinError != "" ==>
          && f.outcome.Active? && f.room == "ready"
          && ValidReport(Report(JSucceeded, "", "", "", "", f.join, f.joinError))
          && (f.join.Some? ==> f.join.value.localPort == f.port))
  }

  function JoinPort(al: Allocation): int {
    if al.join.Some? then al.join.value.localPort else 0
  }

  // The JoinInfo part of a fact; it needs a running allocation.
  function FactJoin(al: Allocation, f: Fact): Allocation {
    if f.join.Some? then
      if JoinPort(al) == 0 || JoinPort(al) == f.port then al.(join := f.join, joinError := "") else al
    else if f.joinError != "" then al.(joinError := f.joinError)
    else al
  }

  function Isolate(db: Db, a: Id): Db
    requires a in db.allocations
  {
    var p := db.allocations[a].purpose;
    db.(
      allocations := Moved(db.allocations, a, AQuarantined),
      requests := OwnerAdvanced(db.requests, p, RQuarantined),
      intents := Paused(db.intents, p),
      runs := RunsAfterFact(db.runs, p, FactQuarantined, false))
  }

  predicate FailedInstance(f: Fact, s: AllocationState) {
    && f.outcome.Uncertain? && f.lifecycle == "failed" && (f.process == "stopped" || f.process == "running")
    && !s.AQuarantined? && !s.AStopping?
  }

  // The part of ReportInstanceFact that moves the resource.
  function FactMove(db: Db, site: Site, a: Id, f: Fact, joinPort: int, stop: Id, next: Id): Result
    requires a in db.allocations && db.allocations[a].create in db.jobs
  {
    var al := db.allocations[a];
    var p := al.purpose;
    if f.outcome.Gone? then
      var ends := p.ForRequest? && !PausedIntent(db, p.request);
      var d := db.(allocations := Moved(db.allocations, a, AReclaimed),
                   requests := if ends then Advanced(db.requests, p.request, REnded) else db.requests);
      if ends then ConsumeFor(d, site, p, next) else Committed(d)
    else if FailedInstance(f, al.state) then
      ApplyReport(db, site, a, Create, JFailedWithEffect, f.instance, "INSTANCE_FAILED", None, "", stop, next)
    else if f.outcome.IdentityUnverified? || (f.outcome.Active? && joinPort != 0 && f.port != joinPort) then
      Committed(Isolate(db, a))
    else Committed(db)
  }

  // The rows of an accepted fact: the entry it publishes, the resource it moves, the run it readies.
  function ApplyFact(db: Db, site: Site, a: Id, f: Fact, stop: Id, next: Id): Result
    requires a in db.allocations && db.allocations[a].create in db.jobs
  {
    var al := db.allocations[a];
    match FactMove(db.(allocations := db.allocations[a := FactJoin(al, f)]), site, a, f, JoinPort(al), stop, next)
    case Failed(fault) => Failed(fault)
    case Committed(d) =>
      Committed(if f.outcome.Active? && f.room == "ready"
                then d.(runs := RunsAfterFact(d.runs, al.purpose, FactReady, f.join.Some?)) else d)
  }

  // ReportInstanceFact
  function InstanceFact(db: Db, site: Site, node: Id, a: Id, f: Fact, stop: Id, next: Id): Result {
    if !ValidFact(f) then Failed(Conflict)
    else if a !in db.allocations || db.allocations[a].node != node || db.allocations[a].create !in db.jobs then Failed(NotFound)
    else if f.join.Some? && !(node in site.nodes && site.nodes[node].entryRevision.Some?) then Failed(Internal)
    else
      var al := db.allocations[a];
      var joining := f.join.Some? || f.joinError != "";
      if db.jobs[al.create].instance == "" || db.jobs[al.create].instance != f.instance then Failed(Conflict)
      else if Terminal(al.state) then Committed(db)
      else if joining && !al.state.ARunning? then Failed(Conflict)
      else if f.join.Some? && site.nodes[node].entryRevision != Some(f.join.value.revision) then Failed(Conflict)
      else ApplyFact(db, site, a, f, stop, next)
  }

  // ---- Stops ----

  predicate HasOpen(db: Db, r: Id) {
    exists a :: a in db.allocations && OpenAttempt(db, r, a)
  }

  // The one attempt of a request that is not resource-terminal.
  ghost function OpenOf(db: Db, r: Id): Id
    requires HasOpen(db, r)
  {
    var a :| OpenAttempt(db, r, a); a
  }

  function QueueStop(db: Db, site: Site, a: Id, stop: Id): Result
    requires a in db.allocations && db.allocations[a].create in db.jobs
  {
    if stop in db.jobs || OpenStop(db.jobs, a) then Failed(Internal)
    else Committed(db.(jobs := db.jobs[stop := NewStopJob(db, a, site.now)]))
  }

  // stopUserRequest, with or without a next game
  ghost function UserStop(db: Db, site: Site, user: Id, r: Id, nextGame: bool, stop: Id): Result {
    match Acting(db, user)
    case Denied(fault) => Failed(fault)
    case Acts(owner) =>
      if r !in db.requests || db.requests[r].owner != owner then Failed(NotFound)
      else
        var s := db.requests[r].state;
        if s.RStopping? || s.REnded? then
          if nextGame && r !in db.intents then Failed(Conflict) else Committed(db)
        else if !s.RRunning? then Failed(Conflict)
        else if !HasOpen(db, r) then Failed(NotFound)
        else
          var a := OpenOf(db, r);
          if !db.allocations[a].state.ARunning? || db.allocations[a].create !in db.jobs then Failed(NotFound)
          else if !db.jobs[db.allocations[a].create].state.JSucceeded? then Failed(NotFound)
          else if db.jobs[db.allocations[a].create].instance == "" then Failed(Conflict)
          else match QueueStop(db, site, a, stop)
            case Failed(fault) => Failed(fault)
            case Committed(d) =>
              if nextGame && r in db.intents then Failed(Internal)
              else Committed(d.(
                allocations := Moved(d.allocations, a, AStopping),
                requests := Advanced(d.requests, r, RStopping),
                intents := if nextGame then d.intents[r := Intent(a, IPending, None, None)] else d.intents))
  }

  // The administrator's request.stop
  ghost function AdminStop(db: Db, site: Site, r: Id, stop: Id): Result {
    if r !in db.requests then Failed(NotFound)
    else
      var s := db.requests[r].state;
      if !s.RRunning? && !s.RQuarantined? && !s.RAbandoned? then Failed(Conflict)
      else if !HasOpen(db, r) then Failed(NotFound)
      else
        var a := OpenOf(db, r);
        var al := db.allocations[a];
        if (!al.state.ARunning? && !al.state.AQuarantined?) || al.create !in db.jobs || db.jobs[al.create].instance == ""
        then Failed(NotFound)
        else if s.RAbandoned? && !al.state.AQuarantined? then Failed(Conflict)
        else if db.jobs[al.create].errorCode == "IDENTITY_UNVERIFIED" || OpenStop(db.jobs, a) then Failed(Conflict)
        else match QueueStop(db, site, a, stop)
          case Failed(fault) => Failed(fault)
          case Committed(d) =>
            Committed(if s.RRunning?
                      then d.(allocations := Moved(d.allocations, a, AStopping), requests := Advanced(d.requests, r, RStopping))
                      else d)
  }

  // A create job nobody has ever taken: no claim, no IDs, no execution, no report.
  predicate Untouched(db: Db, j: Id)
    requires j in db.jobs
  {
    var job := db.jobs[j];
    !job.everClaimed && job.instance == "" && job.operation == "" && j !in db.frozen && !job.reported
  }

  // allocation.terminate_pending
  function TerminatePending(db: Db, a: Id): Result {
    if a !in db.allocations || db.allocations[a].create !in db.jobs then Failed(NotFound)
    else
      var al := db.allocations[a];
      var job := db.jobs[al.create];
      if job.state.JRejectedNoEffect? && al.state.AReleasedNoEffect? then
        if job.errorCode == "PENDING_TERMINATED" then Committed(db) else Failed(Conflict)
      else if !job.state.JPending? || !al.state.AReserved? || !Untouched(db, al.create) then Failed(Conflict)
      else
        Committed(db.(
          jobs := db.jobs[al.create := job.(state := JRejectedNoEffect, errorCode := "PENDING_TERMINATED",
                                            errorStage := "dispatch", reported := true)],
          allocations := Moved(db.allocations, a, AReleasedNoEffect),
          requests := if al.purpose.ForRequest? && al.purpose.request in db.requests
                      then db.requests[al.purpose.request := db.requests[al.purpose.request].(state := RUnavailable)] else db.requests,
          runs := RunsAfterJob(db.runs, al.purpose, Create, JRejectedNoEffect, AReleasedNoEffect, false)))
  }

  // ---- Quarantine ----

  // MarkAllocationQuarantined and allocation.quarantine
  function Quarantine(db: Db, a: Id): Result {
    if a !in db.allocations || db.allocations[a].create !in db.jobs then Failed(NotFound)
    else
      var s := db.allocations[a].state;
      if s.AQuarantined? then Committed(db)
      else if Terminal(s) then Failed(Conflict)
      else if s.AReserved? && db.jobs[db.allocations[a].create].state.JPending? then Failed(Conflict)
      else Committed(Isolate(db, a))
  }

  // The rows QuarantineOneUnreachable may pick.
  predicate Silent(db: Db, site: Site, a: Id) {
    && a in db.allocations && db.allocations[a].create in db.jobs
    && var al := db.allocations[a];
       && al.node in site.nodes && site.nodes[al.node].heartbeat.Some?
       && site.nodes[al.node].heartbeat.value <= site.now - site.quarantineAfter
       && (al.state.ACreateUnknown? || al.state.ACreating? || al.state.ARunning? || al.state.AStopping?
           || al.state.AFailedUnreclaimed?
           || (al.state.AReserved?
               && (InFlight(db.jobs[al.create].state) || db.jobs[al.create].state.JFailedWithEffect?)))
  }

  function QuarantineSilent(db: Db, site: Site, a: Id): Result {
    if Silent(db, site, a) then Committed(Isolate(db, a)) else Failed(NotFound)
  }

  predicate LatestAttempt(db: Db, r: Id, a: Id) {
    AttemptOf(db, r, a)
    && forall b :: b in db.allocations && AttemptOf(db, r, b) ==> db.allocations[b].attempt <= db.allocations[a].attempt
  }

  // AbandonQuarantinedUserRequest
  ghost function Abandon(db: Db, site: Site, user: Id, r: Id, next: Id): Result {
    match Acting(db, user)
    case Denied(fault) => Failed(fault)
    case Acts(owner) =>
      if r !in db.requests || db.requests[r].owner != owner then Failed(NotFound)
      else if db.requests[r].state.RAbandoned? then Committed(db)
      else if !db.requests[r].state.RQuarantined? then Failed(Conflict)
      else if !exists a :: a in db.allocations && LatestAttempt(db, r, a) then Failed(NotFound)
      else
        var a :| LatestAttempt(db, r, a);
        var s := db.allocations[a].state;
        if !s.AQuarantined? && !(s.AReclaimed? && PausedIntent(db, r)) then Failed(Conflict)
        else Consume(SetRequest(db, r, RAbandoned), site, r, true, next)
  }

  // ---- Parties ----

  function CreateParty(db: Db, site: Site, user: Id, party: Id, token: Id): Result {
    if site.maxPartySize.None? || user in db.members || Busy(db, Solo(user)) then Failed(Conflict)
    else if party in db.parties || token in db.invites then Failed(Internal)
    else Committed(db.(
      parties := db.parties[party := Party(Some(user), true)],
      members := db.members[user := party],
      invites := db.invites[token := Invite(party, true)]))
  }

  function Revoked(db: Db, party: Id): map<Id, Invite> {
    map t | t in db.invites :: if db.invites[t].party == party then Invite(party, false) else db.invites[t]
  }

  predicate Leads(db: Db, user: Id) {
    && user in db.members && db.members[user] in db.parties
    && db.parties[db.members[user]] == Party(Some(user), true)
  }

  function ResetInvite(db: Db, user: Id, token: Id): Result {
    if !Leads(db, user) then Failed(Forbidden)
    else if token in db.invites then Failed(Internal)
    else Committed(db.(invites := Revoked(db, db.members[user])[token := Invite(db.members[user], true)]))
  }

  function JoinParty(db: Db, site: Site, user: Id, token: Id): Result {
    if user in db.members || Busy(db, Solo(user)) || token !in db.invites then Failed(Conflict)
    else
      var party := db.invites[token].party;
      if party !in db.parties then Failed(Internal)
      else if !db.parties[party].live || !db.invites[token].active || site.maxPartySize.None?
              || |Members(db, party)| >= site.maxPartySize.value then Failed(Conflict)
      else Committed(db.(members := db.members[user := party]))
  }

  function LeaveParty(db: Db, user: Id): Result {
    if user !in db.members then Failed(Forbidden)
    else
      var p := db.members[user];
      if p !in db.parties || !db.parties[p].live then Failed(Internal)
      else if db.parties[p].leader == Some(user) then Failed(Forbidden)
      else Committed(db.(members := db.members - {user}))
  }

  function RemoveMember(db: Db, leader: Id, target: Id): Result {
    if leader == target then Failed(Conflict)
    else if !Leads(db, leader) || target !in db.members || db.members[target] != db.members[leader] then Failed(Forbidden)
    else Committed(db.(members := db.members - {target}))
  }

  // partyBusy: a blocking request, or capacity still held by an abandoned one
  predicate PartyBusy(db: Db, party: Id) {
    exists r :: r in db.requests && db.requests[r].owner == Group(party)
                && (Blocking(db.requests[r].state) || HasOpen(db, r))
  }

  function DisbandParty(db: Db, user: Id): Result {
    if !Leads(db, user) then Failed(Forbidden)
    else if PartyBusy(db, db.members[user]) then Failed(Conflict)
    else
      var p := db.members[user];
      Committed(db.(invites := Revoked(db, p), parties := db.parties[p := Party(None, false)], members := db.members - Members(db, p)))
  }

  // ---- Validation runs ----

  datatype RunRequest = RunRequest(node: Id, game: Id, preset: Id, content: string, revision: string, epoch: nat, fingerprint: string)

  predicate OpenOn(db: Db, n: Id, game: Id, a: Id) {
    a in db.allocations && db.allocations[a].node == n && db.allocations[a].game == game
  }

  predicate Quiet(db: Db, n: Id, game: Id, except: set<Id>) {
    && (forall a :: a in db.allocations && OpenOn(db, n, game, a) && a !in except ==> Terminal(db.allocations[a].state))
    && (forall j :: j in db.jobs && OpenOn(db, n, game, db.jobs[j].alloc) ==> !OpenJob(db.jobs[j].state))
  }

  // The guards of ReserveValidation
  predicate Reservable(db: Db, site: Site, q: RunRequest) {
    && q.epoch > 0
    && q.game in site.games && q.preset in site.presets && site.presets[q.preset].game == q.game
    && (q.game, q.content) in site.facts.versions
    && q.node in site.nodes
    && var node := site.nodes[q.node];
       && node.enabled && Online(node, site.now) && node.compatible && node.capable
       && (q.node, q.game) in site.facts.content
       && (q.node, q.revision) in site.facts.bindings && (q.node, q.revision) in site.facts.templates
       && var cb := site.facts.content[(q.node, q.game)];
          var tb := site.facts.bindings[(q.node, q.revision)];
          var tf := site.facts.templates[(q.node, q.revision)];
          && !cb.accepting && cb.epoch == q.epoch && cb.revision != 0 && cb.confirmed
          && cb.version == Some(q.content) && cb.sha == Some(site.facts.versions[(q.game, q.content)])
          && tb.generation != 0 && tb.fingerprint == Some(q.fingerprint)
          && tf.confirmed && tf.algorithm == Some(MANIFEST_V1) && tf.key == Some(tb.key)
          && tf.fingerprint == Some(q.fingerprint) && tf.revision != 0 && Fresh(tf.receivedAt, site.now)
          && node.scanConfirmed && SoundScan(site, q.node, node.scan)
          && Quiet(db, q.node, q.game, {})
          && |Occupied(db, q.node)| < Limit(node)
  }

  function CandidateOf(site: Site, q: RunRequest): Candidate
    requires (q.game, q.content) in site.facts.versions && (q.node, q.game) in site.facts.content
    requires (q.node, q.revision) in site.facts.bindings && (q.node, q.revision) in site.facts.templates
  {
    var cb := site.facts.content[(q.node, q.game)];
    var tb := site.facts.bindings[(q.node, q.revision)];
    Candidate(q.node, q.game, q.preset, q.content, site.facts.versions[(q.game, q.content)], q.revision,
              tb.key, q.fingerprint, tb.generation, cb.epoch, cb.revision, site.facts.templates[(q.node, q.revision)].revision)
  }

  function ReserveRun(db: Db, site: Site, q: RunRequest, v: Id, a: Id, j: Id): Result {
    if !Reservable(db, site, q) then Failed(Conflict)
    else if v in db.runs || a in db.allocations || j in db.jobs then Failed(Internal)
    else
      var c := CandidateOf(site, q);
      Committed(db.(
        runs := db.runs[v := Run(c, a, VCreatePending, HPending, false, false)],
        allocations := db.allocations[a := Allocation(ForRun(v), q.game, 1, q.node, q.content, q.revision, j, AReserved, None, "", site.now)],
        jobs := db.jobs[j := NewCreateJob(q.node, a, c.key,
          Some(Expected(c.fingerprint, c.generation, site.games[q.game].workshop, c.content, c.sha)), site.now)]))
  }

  predicate RunRooted(db: Db, v: Id) {
    && v in db.runs && db.runs[v].alloc in db.allocations && db.allocations[db.runs[v].alloc].create in db.jobs
  }

  predicate CurrentJoin(site: Site, al: Allocation) {
    && al.join.Some? && al.join.value.host != "" && al.join.value.revision != ""
    && al.node in site.nodes && site.nodes[al.node].entryRevision == Some(al.join.value.revision)
  }

  // ConfirmValidationHuman
  function ConfirmHuman(db: Db, site: Site, v: Id, pass: bool, expected: Option<RunState>, stop: Id): Result {
    if !RunRooted(db, v) then Failed(NotFound)
    else
      var run := db.runs[v];
      var al := db.allocations[run.alloc];
      var c := db.jobs[al.create];
      if expected.Some? && expected.value != run.state then Failed(Conflict)
      else if !run.human.HPending? || c.instance == "" || !c.state.JSucceeded? || !al.state.ARunning?
              || (pass && !(run.state.VAwaitingHuman? && run.ready && run.joinable && CurrentJoin(site, al))) then Failed(Conflict)
      else match QueueStop(db, site, run.alloc, stop)
        case Failed(fault) => Failed(fault)
        case Committed(d) =>
          Committed(d.(allocations := Moved(d.allocations, run.alloc, AStopping),
                       runs := d.runs[v := run.(human := if pass then HPass else HFail, state := VStopPending)]))
  }

  predicate HasStop(jobs: map<Id, Job>, a: Id) {
    exists j :: j in jobs && jobs[j].alloc == a && jobs[j].kind.Stop?
  }

  // StopValidation
  function StopRun(db: Db, site: Site, v: Id, expected: RunState, stop: Id): Result {
    if !RunRooted(db, v) then Failed(NotFound)
    else
      var run := db.runs[v];
      var al := db.allocations[run.alloc];
      if run.state != expected || run.state.VPassed? || run.state.VFailed? || db.jobs[al.create].instance == ""
         || Terminal(al.state)
         || HasStop(db.jobs, run.alloc) then Failed(Conflict)
      else match QueueStop(db, site, run.alloc, stop)
        case Failed(fault) => Failed(fault)
        case Committed(d) => Committed(d.(allocations := Moved(d.allocations, run.alloc, AStopping),
                                         runs := d.runs[v := run.(state := VStopPending)]))
  }

  predicate Before(j: Job, jid: Id, k: Job, kid: Id) {
    j.createdAt < k.createdAt || (j.createdAt == k.createdAt && jid < kid)
  }

  predicate StopOf(db: Db, a: Id, j: Id) {
    j in db.jobs && db.jobs[j].alloc == a && db.jobs[j].kind.Stop?
  }

  predicate LatestStop(db: Db, a: Id, j: Id) {
    StopOf(db, a, j) && forall k :: k in db.jobs && StopOf(db, a, k) && k != j ==> Before(db.jobs[k], k, db.jobs[j], j)
  }

  // The evidence FinalizeValidationRun asks for in one transaction
  predicate Conclusive(db: Db, site: Site, v: Id)
    requires RunRooted(db, v)
  {
    var run := db.runs[v];
    var c := run.candidate;
    var al := db.allocations[run.alloc];
    var create := db.jobs[al.create];
    && run.human.HPass? && run.state.VReclaimObserving? && al.state.AReclaimed? && run.ready && run.joinable
    && create.state.JSucceeded? && create.instance != ""
    && (exists s :: s in db.jobs && LatestStop(db, run.alloc, s) && db.jobs[s].state.JSucceeded? && db.jobs[s].instance == create.instance)
    && FactsAgree(site.facts, c, site.now) && !site.facts.content[(c.node, c.game)].accepting
    && Quiet(db, c.node, c.game, {run.alloc})
    && c.node in site.nodes
    && var node := site.nodes[c.node];
       node.enabled && node.compatible && Online(node, site.now) && node.scanConfirmed && SoundScan(site, c.node, node.scan)
  }

  function FinalizeRun(db: Db, site: Site, v: Id): Result {
    if !RunRooted(db, v) then Failed(NotFound)
    else if db.runs[v].state.VPassed? then Committed(db)
    else if !Conclusive(db, site, v) then Failed(Conflict)
    else Committed(SetRun(db, v, db.runs[v].(state := VPassed)))
  }

  function FinalizeFailure(db: Db, v: Id): Result {
    if !RunRooted(db, v) then Failed(NotFound)
    else
      var run := db.runs[v];
      if run.state.VPassed? then Failed(Conflict)
      else if run.state.VFailed? then Committed(db)
      else if !Terminal(db.allocations[run.alloc].state)
              || (exists j :: j in db.jobs && db.jobs[j].alloc == run.alloc && OpenJob(db.jobs[j].state)) then Failed(Conflict)
      else Committed(SetRun(db, v, run.(state := VFailed)))
  }

  // ---- Calls and runs ----

  datatype Call =
    | CNewRequest(user: Id, game: Id, preset: Id, mode: Mode, id: Id)
    | CUserCancel(user: Id, r: Id)
    | CAdminCancel(r: Id)
    | CPlace(r: Id, n: Id, a: Id, j: Id)
    | CClose(r: Id)
    | CClaim(node: Id, j: Id, independent: bool, cap: Capability)
    | CPrepare(node: Id, j: Id, template: string, port: int, algorithm: string, sha: string)
    | CBegin(node: Id, j: Id, start: Start, stop: Id, next: Id)
    | CReport(node: Id, j: Id, rep: Report, stop: Id, next: Id)
    | CFact(node: Id, a: Id, fact: Fact, stop: Id, next: Id)
    | CUserStop(user: Id, r: Id, nextGame: bool, stop: Id)
    | CAdminStop(r: Id, stop: Id)
    | CTerminatePending(a: Id)
    | CQuarantine(a: Id)
    | CQuarantineSilent(a: Id)
    | CAbandon(user: Id, r: Id, next: Id)
    | CCreateParty(user: Id, party: Id, token: Id)
    | CResetInvite(user: Id, token: Id)
    | CJoinParty(user: Id, token: Id)
    | CLeaveParty(user: Id)
    | CRemoveMember(leader: Id, target: Id)
    | CDisbandParty(user: Id)
    | CReserveRun(q: RunRequest, v: Id, a: Id, j: Id)
    | CConfirmHuman(v: Id, pass: bool, expected: Option<RunState>, stop: Id)
    | CStopRun(v: Id, was: RunState, stop: Id)
    | CFinalizeRun(v: Id)
    | CFinalizeFailure(v: Id)

  ghost function Perform(db: Db, site: Site, call: Call): Result {
    match call
    case CNewRequest(user, game, preset, mode, id) => NewRequest(db, site, user, game, preset, mode, id)
    case CUserCancel(user, r) => UserCancel(db, user, r)
    case CAdminCancel(r) => CancelWaiting(db, r)
    case CPlace(r, n, a, j) => Place(db, site, r, n, a, j)
    case CClose(r) => CloseWaiting(db, site, r)
    case CClaim(node, j, independent, cap) => Claim(db, site, node, j, independent, cap)
    case CPrepare(node, j, template, port, algorithm, sha) => Prepare(db, site, node, j, template, port, algorithm, sha)
    case CBegin(node, j, start, stop, next) => Begin(db, site, node, j, start, stop, next)
    case CReport(node, j, rep, stop, next) => ReportJob(db, site, node, j, rep, stop, next)
    case CFact(node, a, fact, stop, next) => InstanceFact(db, site, node, a, fact, stop, next)
    case CUserStop(user, r, nextGame, stop) => UserStop(db, site, user, r, nextGame, stop)
    case CAdminStop(r, stop) => AdminStop(db, site, r, stop)
    case CTerminatePending(a) => TerminatePending(db, a)
    case CQuarantine(a) => Quarantine(db, a)
    case CQuarantineSilent(a) => QuarantineSilent(db, site, a)
    case CAbandon(user, r, next) => Abandon(db, site, user, r, next)
    case CCreateParty(user, party, token) => CreateParty(db, site, user, party, token)
    case CResetInvite(user, token) => ResetInvite(db, user, token)
    case CJoinParty(user, token) => JoinParty(db, site, user, token)
    case CLeaveParty(user) => LeaveParty(db, user)
    case CRemoveMember(leader, target) => RemoveMember(db, leader, target)
    case CDisbandParty(user) => DisbandParty(db, user)
    case CReserveRun(q, v, a, j) => ReserveRun(db, site, q, v, a, j)
    case CConfirmHuman(v, pass, expected, stop) => ConfirmHuman(db, site, v, pass, expected, stop)
    case CStopRun(v, was, stop) => StopRun(db, site, v, was, stop)
    case CFinalizeRun(v) => FinalizeRun(db, site, v)
    case CFinalizeFailure(v) => FinalizeFailure(db, v)
  }

  ghost function Apply(db: Db, site: Site, call: Call): Db {
    match Perform(db, site, call)
    case Committed(d) => d
    case Failed(_) => db
  }

  // BeginOperation answered with success for a create.
  ghost predicate Begins(db: Db, site: Site, call: Call) {
    call.CBegin? && call.start.StartCreate? && Perform(db, site, call).Committed?
  }

  // A run: any calls, in any order, each on any site.
  type History = seq<(Site, Call)>

  ghost function Exec(h: History): Db {
    if h == [] then EMPTY else Apply(Exec(h[..|h|-1]), h[|h|-1].0, h[|h|-1].1)
  }
}