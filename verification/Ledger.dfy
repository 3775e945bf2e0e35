/** The rows of the Platform store, and the facts a transaction reads about the
    site it runs on. Identifiers are UUIDs; core tokens use "" for NULL. */
module Ledger {
  import opened Facts

  type Token = string

  datatype Mode = Auto | Manual(node: Id)
  datatype Owner = Solo(user: Id) | Group(party: Id)

  datatype RequestState =
    | RWaiting | RAllocating | RCreating | RRunning | RStopping | RFailedUnreclaimed | RQuarantined
    | REnded | RCancelled | RUnavailable | RAbandoned

  datatype Request = Request(
    owner: Owner, game: Id, preset: Id, mode: Mode, requestedAt: int, state: RequestState)

  datatype AllocationState =
    | AReserved | ACreateUnknown | ACreating | ARunning | AStopping | AFailedUnreclaimed | AQuarantined
    | AReclaimed | AReleasedNoEffect

  datatype Purpose = ForRequest(request: Id) | ForRun(run: Id)

  // `wellFormed` is what the host, IP and revision patterns answer on the text fields.
  datatype JoinInfo = JoinInfo(localPort: int, publicPort: int, host: string, ip: string, revision: string, wellFormed: bool)

  // `create` is the allocation's create job: a unique index allows no second one,
  // and both rows are inserted by the same transaction.
  datatype Allocation = Allocation(
    purpose: Purpose, game: Id, attempt: nat, node: Id, content: string, revision: string,
    create: Id, state: AllocationState, join: Option<JoinInfo>, joinError: string, assignedAt: int)

  datatype JobKind = Create | Stop

  datatype JobState = JPending | JClaimed | JAccepted | JUnknown | JSucceeded | JRejectedNoEffect | JFailedWithEffect

  datatype Capability = LegacyV1 | ContentValidationV102

  // The machine identity a v1.0.2 create job must meet on the node.
  datatype Expected = Expected(fingerprint: string, generation: nat, workshop: string, content: string, sha: string)

  datatype Job = Job(
    node: Id, kind: JobKind, alloc: Id, capability: Capability, createdAt: int,
    bindingKey: string, expected: Option<Expected>,
    state: JobState, instance: Token, operation: Token, errorCode: string, errorStage: string,
    everClaimed: bool, reported: bool)

  // The request core is asked with. The idempotency key is a function of the job's ID.
  datatype Frozen = Frozen(template: string, port: int, capability: Capability, algorithm: string, fingerprint: string)

  // One row of node_job_executions: the request and when it was frozen, by the Platform's clock.
  datatype Execution = Execution(request: Frozen, preparedAt: int)

  datatype FreshError = InvalidSelection | Maintenance | PartyTooLarge | InvalidNodeSelection

  datatype IntentState = IPending | IPaused | IConsumed
  datatype Intent = Intent(alloc: Id, state: IntentState, newRequest: Option<Id>, failure: Option<FreshError>)

  datatype Party = Party(leader: Option<Id>, live: bool)
  datatype Invite = Invite(party: Id, active: bool)

  datatype RunState =
    | VCreatePending | VCreateObserving | VCreateUnknown | VReadyNoJoin | VAwaitingHuman | VCleanupRequired
    | VStopPending | VReclaimObserving | VStopUnknown | VQuarantined | VPassed | VFailed
  datatype Human = HPending | HPass | HFail

  datatype Run = Run(candidate: Candidate, alloc: Id, state: RunState, human: Human, ready: bool, joinable: bool)

  datatype Db = Db(
    requests: map<Id, Request>,
    allocations: map<Id, Allocation>,
    jobs: map<Id, Job>,
    frozen: map<Id, Execution>,
    intents: map<Id, Intent>,     // by source request
    members: map<Id, Id>,         // party of a user
    parties: map<Id, Party>,
    invites: map<Id, Invite>,     // by token
    runs: map<Id, Run>)

  const EMPTY := Db(map[], map[], map[], map[], map[], map[], map[], map[], map[])

  // Settings, catalog, nodes and reported facts, as one transaction reads them.
  // They are inputs: nothing is assumed about how they change between calls.
  datatype Game = Game(enabled: bool, accepting: bool, content: string, workshop: string)
  datatype Contract = LegacyContract | V102Contract
  datatype Preset = Preset(game: Id, enabled: bool, accepting: bool, maxPlayers: nat, revision: string, contract: Contract)
  datatype Node = Node(
    enabled: bool, accepting: bool, draining: bool, priority: int, desired: int, hard: int,
    heartbeat: Option<int>, compatible: bool, capable: bool, scan: string, scanConfirmed: bool,
    entryRevision: Option<string>)
  datatype Site = Site(
    now: int, accepting: bool, games: map<Id, Game>, presets: map<Id, Preset>, nodes: map<Id, Node>,
    facts: Facts, maxPartySize: Option<nat>, quarantineAfter: int)

  // ---- State classes ----

  predicate Terminal(s: AllocationState) {
    s.AReclaimed? || s.AReleasedNoEffect?
  }

  predicate Blocking(s: RequestState) {
    s.RWaiting? || s.RAllocating? || s.RCreating? || s.RRunning? || s.RStopping? || s.RFailedUnreclaimed? || s.RQuarantined?
  }

  predicate InFlight(s: JobState) {
    s.JClaimed? || s.JAccepted? || s.JUnknown?
  }

  predicate OpenJob(s: JobState) {
    s.JPending? || InFlight(s)
  }

  predicate TokenOk(t: Token) {
    && 1 <= |t| <= 128
    && forall i :: 0 <= i < |t| ==>
         'A' <= t[i] <= 'Z' || 'a' <= t[i] <= 'z' || '0' <= t[i] <= '9' || t[i] in "._-"
  }

  // ---- Queries ----

  predicate AttemptOf(db: Db, r: Id, a: Id) {
    a in db.allocations && db.allocations[a].purpose == ForRequest(r)
  }

  predicate OpenAttempt(db: Db, r: Id, a: Id) {
    AttemptOf(db, r, a) && !Terminal(db.allocations[a].state)
  }

  ghost function Attempts(db: Db, r: Id): set<Id> {
    set a | a in db.allocations && db.allocations[a].purpose == ForRequest(r)
  }

  function Occupied(db: Db, n: Id): set<Id> {
    set a | a in db.allocations && db.allocations[a].node == n && !Terminal(db.allocations[a].state)
  }

  predicate OpenStop(jobs: map<Id, Job>, a: Id) {
    exists j :: j in jobs && jobs[j].alloc == a && jobs[j].kind.Stop? && OpenJob(jobs[j].state)
  }

  predicate PausedIntent(db: Db, r: Id) {
    r in db.intents && db.intents[r].state.IPaused?
  }

  // ---- Row updates, table by table ----

  function Moved(m: map<Id, Allocation>, a: Id, s: AllocationState): map<Id, Allocation> {
    if a in m then m[a := m[a].(state := s)] else m
  }

  // Every report and fact path updates a request `WHERE state <> 'abandoned'`.
  function Advanced(m: map<Id, Request>, r: Id, s: RequestState): map<Id, Request> {
    if r in m && !m[r].state.RAbandoned? then m[r := m[r].(state := s)] else m
  }

  function OwnerAdvanced(m: map<Id, Request>, p: Purpose, s: RequestState): map<Id, Request> {
    if p.ForRequest? then Advanced(m, p.request, s) else m
  }

  function Paused(m: map<Id, Intent>, p: Purpose): map<Id, Intent> {
    if p.ForRequest? && p.request in m && m[p.request].state.IPending?
    then m[p.request := m[p.request].(state := IPaused)] else m
  }

  function SetRequest(db: Db, r: Id, s: RequestState): Db {
    db.(requests := Advanced(db.requests, r, s))
  }

  function SetRun(db: Db, v: Id, run: Run): Db {
    db.(runs := db.runs[v := run])
  }
}
