/** What the runner's create decides from a loaded job, a measured machine and an answer of core, and the
    events of the joint system that it amounts to. */
module CreateParts {
  import opened Facts
  import opened Ledger
  import opened Calls
  import opened Coupling
  import opened CouplingSteps
  import opened CouplingRuns
  import opened Evolution
  import opened EvolutionSteps
  import opened Joint
  import R = Retention

  // ---- Pure parts ----

  // What a job looked like when the cycle loaded it. The frozen row is present or not as a whole.
  datatype Loaded = Loaded(
    id: Id, state: JobState, operation: Token, capability: Capability, bindingKey: string,
    expected: Option<Expected>, frozen: Option<Execution>)

  // The node as it is measured: template path and manifest digest by binding key, Workshop items, configured paths.
  datatype Measured = Measured(workshop: string, confirmed: bool, content: string, sha: string)
  datatype Machine = Machine(templates: map<string, (string, string)>, items: map<string, Measured>, paths: map<string, string>,
                             usable: set<string>)  // the paths core accepts as text

  // The row as the Platform answers it to a node.
  function LoadedFrom(db: Db, j: Id): Loaded
    requires j in db.jobs
  {
    var job := db.jobs[j];
    Loaded(j, job.state, job.operation, job.capability, job.bindingKey, job.expected, if j in db.frozen then Some(db.frozen[j]) else None)
  }

  // verifyMachineProof: the measured path and digest, if template and item are exactly the expected ones.
  function MachineProof(job: Loaded, m: Machine): Option<(string, string)> {
    if job.expected.None? || job.bindingKey !in m.templates then None
    else
      var e := job.expected.value;
      var (path, digest) := m.templates[job.bindingKey];
      if e.fingerprint == "" || e.generation < 1 || e.workshop == "" || e.content == "" || e.sha == "" then None
      else if digest != e.fingerprint || e.workshop !in m.items then None
      else if !m.items[e.workshop].confirmed || m.items[e.workshop] != Measured(e.workshop, true, e.content, e.sha) then None
      else Some((path, digest))
  }

  // validateFrozen; the key and the digest of the request are functions of the job and the request.
  predicate ValidFrozen(job: Loaded, f: Frozen, m: Machine) {
    && f.template in m.usable && 0 <= f.port <= 65535
    && (job.capability.ContentValidationV102? ==>
          f.capability == job.capability && f.algorithm == MANIFEST_V1
          && job.expected.Some? && f.fingerprint == job.expected.value.fingerprint)
  }

  // Core's answer to a create call.
  datatype CoreAnswer = CreateAccepted(instance: Token, operation: Token) | CreateError(instance: Token, operation: Token, code: Token, stage: Token) | NoAnswer

  const NO_EFFECT_CODES := {"INVALID_REQUEST", "UNSUPPORTED_VERSION", "INVALID_TEMPLATE", "INVALID_PATH",
                            "PORT_REQUIRED", "PORT_IN_USE", "NO_PORT_AVAILABLE", "INSUFFICIENT_STORAGE"}

  // ClearlyNoEffectCreateReject: a structured refusal before anything was started, carrying no core IDs.
  predicate ClearlyNoEffect(a: CoreAnswer) {
    a.CreateError? && a.instance == "" && a.operation == "" && (a.stage == "validate" || a.stage == "protocol") && a.code in NO_EFFECT_CODES
  }

  function Unsure(code: Token, stage: Token): Report {
    Report(JUnknown, "", "", code, stage, None, "")
  }

  function Rejecting(code: Token, stage: Token): Report {
    Report(JRejectedNoEffect, "", "", code, stage, None, "")
  }

  // What create reports on core's answer.
  function Answered(job: Loaded, retrying: bool, answer: CoreAnswer): Report {
    match answer
    case CreateAccepted(instance, operation) => Report(JAccepted, instance, operation, "", "", None, "")
    case CreateError(instance, operation, code, stage) =>
      if job.capability.LegacyV1? && !retrying && ClearlyNoEffect(answer) then Rejecting(code, stage)
      else Report(JUnknown, instance, operation, code, stage, None, "")
    case NoAnswer => Unsure("", "")
  }

  // A refusal by which core says that it started nothing: structured, before any work, and naming no IDs.
  predicate ClearRefusal(answer: CoreAnswer) {
    match answer
    case CreateError(instance, operation, code, stage) =>
      && instance == "" && operation == "" && (stage == "validate" || stage == "protocol")
      && (code == "INVALID_REQUEST" || code == "UNSUPPORTED_VERSION" || code == "INVALID_TEMPLATE" || code == "INVALID_PATH"
          || code == "PORT_REQUIRED" || code == "PORT_IN_USE" || code == "NO_PORT_AVAILABLE" || code == "INSUFFICIENT_STORAGE")
    case _ => false
  }

  // What the Platform is told of core's answer: both IDs of an accepted create; a rejection only of a legacy job's first call that
  // core clearly refused; and of anything else that it is unknown, with all that core said.
  predicate Told(rep: Report, job: Loaded, retrying: bool, answer: CoreAnswer) {
    match answer
    case CreateAccepted(instance, operation) => rep == Report(JAccepted, instance, operation, "", "", None, "")
    case CreateError(instance, operation, code, stage) =>
      if ClearRefusal(answer) && job.capability.LegacyV1? && !retrying then rep == Report(JRejectedNoEffect, "", "", code, stage, None, "")
      else rep == Report(JUnknown, instance, operation, code, stage, None, "")
    case NoAnswer => rep == Report(JUnknown, "", "", "", "", None, "")
  }

  lemma AnsweredTells(job: Loaded, retrying: bool, answer: CoreAnswer)
    ensures Told(Answered(job, retrying, answer), job, retrying, answer)
    ensures ClearlyNoEffect(answer) <==> ClearRefusal(answer)
  {
  }

  // ---- What stands between a job and core ----

  // The template path, manifest algorithm and digest create asks the Platform to freeze, if the machine allows any.
  function Requested(job: Loaded, m: Machine): Option<(string, string, string)> {
    var path := if job.bindingKey in m.paths then m.paths[job.bindingKey] else "";
    match job.capability
    case LegacyV1 => if path in m.usable then Some((path, "", "")) else None
    case ContentValidationV102 =>
      var proof := MachineProof(job, m);
      if proof.Some? && proof.value.0 in m.usable then Some((proof.value.0, MANIFEST_V1, proof.value.1)) else None
  }

  function PrepareAs(db: Db, site: Site, node: Id, job: Loaded, m: Machine): Result
    requires Requested(job, m).Some?
  {
    var (path, algorithm, digest) := Requested(job, m).value;
    Prepare(db, site, node, job.id, path, 0, algorithm, digest)
  }

  // The Platform accepts the start of the operation, where one is needed.
  predicate MayBegin(db: Db, site: Site, node: Id, job: Loaded, f: Frozen, stop: Id, next: Id) {
    job.capability.ContentValidationV102? ==> Begin(db, site, node, job.id, StartCreate(f), stop, next).Committed?
  }

  // Nothing stands between a frozen request and core.
  predicate Cleared(db: Db, site: Site, node: Id, job: Loaded, f: Frozen, m: Machine, stop: Id, next: Id) {
    && ValidFrozen(job, f, m)
    && (job.capability.ContentValidationV102? ==> MachineProof(job, m) == Some((f.template, f.fingerprint)))
    && MayBegin(db, site, node, job, f, stop, next)
  }

  // Nothing stands between a loaded create job and core.
  predicate Workable(db: Db, site: Site, node: Id, job: Loaded, claimedNow: bool, historyDays: int, now: int, first: Machine,
                     second: Machine, stop: Id, next: Id) {
    match job.frozen
    case Some(f) =>
      && (job.state.JClaimed? || (job.state.JUnknown? && job.operation == ""))
      && (claimedNow || R.WithinHistory(f.preparedAt, historyDays, now))
      && Cleared(db, site, node, job, f.request, second, stop, next)
    case None =>
      && job.state.JClaimed? && Requested(job, first).Some? && PrepareAs(db, site, node, job, first).Committed?
      && var d := PrepareAs(db, site, node, job, first).db;
         job.id in d.frozen && Cleared(d, site, node, job, d.frozen[job.id].request, second, stop, next)
  }

  // ---- The events ----

  // Core's duty: an instance it names is the key's own or a new one, and it refuses as without effect only
  // where it made nothing.
  predicate Honest(w: World, j: Id, answer: CoreAnswer) {
    && (!answer.NoAnswer? && answer.instance != "" ==>
          if j in w.byKey then w.byKey[j] == answer.instance
          else answer.instance !in w.byKey.Values && answer.instance !in w.reclaimed)
    && (ClearlyNoEffect(answer) ==> j !in w.byKey)
  }

  predicate RowOf(db: Db, job: Loaded) {
    job.id in db.jobs && db.jobs[job.id].kind.Create? && db.jobs[job.id].capability == job.capability
  }

  // The worker, and the row, as they are when create starts. A legacy job has one Controller, so its row is as
  // loaded; a v1.0.2 job may have moved on under other Controllers.
  predicate Starting(w: World, job: Loaded, claimedNow: bool, answer: CoreAnswer) {
    && RowOf(w.db, job) && Honest(w, job.id, answer)
    && (job.capability.LegacyV1? ==>
          && PcOf(w, job.id).Idle? && w.db.jobs[job.id].state == job.state
          && (if job.frozen.Some? then !claimedNow else job.id !in w.db.frozen))
  }

  // The worker of a legacy job between loading it unfrozen and calling core.
  predicate Resolving(w: World, job: Loaded) {
    RowOf(w.db, job) && (job.capability.LegacyV1? ==> PcOf(w, job.id).First? && job.id !in w.db.frozen)
  }

  // The worker just before it crosses to core, with a frozen request.
  predicate Crossing(w: World, job: Loaded, retrying: bool, answer: CoreAnswer) {
    && RowOf(w.db, job) && Honest(w, job.id, answer) && job.id in w.db.frozen
    && (job.capability.LegacyV1? ==>
          InFlight(w.db.jobs[job.id].state) && if retrying then PcOf(w, job.id).Idle? else PcOf(w, job.id).First?)
  }

  // The call, and what core does on it.
  function Called(job: Loaded, retrying: bool): seq<Event> {
    if job.capability.ContentValidationV102? then [] else if retrying then [Resend(job.id)] else [Event.Send(job.id)]
  }

  function Reaction(w: World, job: Loaded, retrying: bool, answer: CoreAnswer): seq<Event> {
    if !answer.NoAnswer? && answer.instance != "" && job.id !in w.byKey then [CoreCreates(job.id, answer.instance)]
    else if job.capability.LegacyV1? && !retrying && ClearlyNoEffect(answer) then [Refuse(job.id)]
    else []
  }

  // An event create may emit for the job: one of its three transactions, its call, or what core does on it.
  predicate OfCreate(e: Event, job: Loaded) {
    match e
    case Store(_, call) => (call.CPrepare? || call.CBegin? || call.CReport?) && call.j == job.id
    case CoreCreates(j, _) => j == job.id
    case Load(j) => j == job.id && job.capability.LegacyV1?
    case Send(j) => j == job.id && job.capability.LegacyV1?
    case Resend(j) => j == job.id && job.capability.LegacyV1?
    case Refuse(j) => j == job.id && job.capability.LegacyV1?
    case _ => false
  }

  ghost predicate Emits(job: Loaded, es: seq<Event>) {
    forall e :: e in es ==> OfCreate(e, job)
  }

  lemma EmitsBoth(job: Loaded, a: seq<Event>, b: seq<Event>)
    requires Emits(job, a) && Emits(job, b)
    ensures Emits(job, a + b)
  {
    hide OfCreate;
  }

  lemma EmitsCall(job: Loaded, site: Site, call: Call)
    requires (call.CPrepare? || call.CBegin? || call.CReport?) && call.j == job.id
    ensures Emits(job, [Event.Store(site, call)]) && Emits(job, [])
  {
  }

  lemma EmitsWork(w: World, job: Loaded, retrying: bool, answer: CoreAnswer)
    ensures Emits(job, Called(job, retrying)) && Emits(job, Reaction(w, job, retrying, answer)) && Emits(job, Taking(job)) && Emits(job, [])
  {
    hide ClearlyNoEffect;
  }

  lemma {:induction false} FromAppend(w: World, a: seq<Event>, b: seq<Event>)
    ensures From(w, a + b) == From(From(w, a), b)
    decreases |b|
  {
    hide Next;
    if b == [] {
      assert a + b == a;
    } else {
      var c := b[..|b|-1];
      FromAppend(w, a, c);
      assert (a + b)[..|a + b| - 1] == a + c;
    }
  }

  lemma RunsAppend(w: World, a: seq<Event>, b: seq<Event>)
    requires RunsFrom(w, a) && RunsFrom(From(w, a), b)
    ensures RunsFrom(w, a + b)
  {
    hide Enabled, From;
    forall i | 0 <= i < |a + b|
      ensures Enabled(From(w, (a + b)[..i]), (a + b)[i])
    {
      if i < |a| {
        assert (a + b)[..i] == a[..i];
      } else {
        assert (a + b)[..i] == a + b[..i - |a|];
        FromAppend(w, a, b[..i - |a|]);
        assert Enabled(From(From(w, a), b[..i - |a|]), b[i - |a|]);
      }
    }
  }

  lemma One(w: World, e: Event)
    ensures From(w, [e]) == Next(w, e) && (Enabled(w, e) ==> RunsFrom(w, [e]))
    ensures From(w, []) == w && RunsFrom(w, [])
  {
    OneMoreEvent(w, [], e);
    assert [] + [e] == [e];
    hide Next, Enabled;
  }

  // The call is one the joint system allows, and so is what is then reported.
  lemma CallRuns(w: World, job: Loaded, retrying: bool, answer: CoreAnswer, node: Id, stop: Id, next: Id)
    requires Crossing(w, job, retrying, answer) && (job.capability.ContentValidationV102? ==> job.id in w.begun)
    ensures var es := Called(job, retrying) + Reaction(w, job, retrying, answer);
            RunsFrom(w, es) && From(w, es).db == w.db
            && Truthful(From(w, es), CReport(node, job.id, Answered(job, retrying, answer), stop, next))
  {
    var a, b := Called(job, retrying), Reaction(w, job, retrying, answer);
    CallStarts(w, job, retrying, answer);
    CoreReacts(w, From(w, a), job, retrying, answer, node, stop, next);
    hide RunsFrom, From, Called, Reaction, Truthful, Answered, Crossing;
    FromAppend(w, a, b);
    RunsAppend(w, a, b);
  }

  // What the call itself changes: a legacy call is on its way.
  predicate OnItsWay(w: World, m: World, job: Loaded, retrying: bool) {
    && m.db == w.db && m.byKey == w.byKey && m.reclaimed == w.reclaimed && m.begun == w.begun
    && (job.capability.LegacyV1? ==> job.id in m.sent && (!retrying ==> PcOf(m, job.id).Waiting?))
  }

  lemma CallStarts(w: World, job: Loaded, retrying: bool, answer: CoreAnswer)
    requires Crossing(w, job, retrying, answer)
    ensures RunsFrom(w, Called(job, retrying)) && OnItsWay(w, From(w, Called(job, retrying)), job, retrying)
  {
    hide RunsFrom, From, Truthful;
    var a := Called(job, retrying);
    One(w, if a == [] then Forget(job.id) else a[0]);
    assert a == [] || a == [a[0]];
  }

  lemma CoreReacts(w: World, m: World, job: Loaded, retrying: bool, answer: CoreAnswer, node: Id, stop: Id, next: Id)
    requires Crossing(w, job, retrying, answer) && (job.capability.ContentValidationV102? ==> job.id in w.begun)
    requires OnItsWay(w, m, job, retrying)
    ensures var es := Reaction(w, job, retrying, answer);
            RunsFrom(m, es) && From(m, es).db == w.db
            && Truthful(From(m, es), CReport(node, job.id, Answered(job, retrying, answer), stop, next))
  {
    hide RunsFrom, From;
    assert ClearlyNoEffect(answer) ==> answer.CreateError? && answer.instance == "";
    hide ClearlyNoEffect, InFlight;
    var b := Reaction(w, job, retrying, answer);
    One(m, if b == [] then Forget(job.id) else b[0]);
    assert b == [] || b == [b[0]];
  }

  // ---- The pieces of create ----

  lemma Joined(w: World, a: seq<Event>, b: seq<Event>)
    ensures From(w, a + b) == From(From(w, a), b)
    ensures RunsFrom(w, a) && RunsFrom(From(w, a), b) ==> RunsFrom(w, a + b)
  {
    hide RunsFrom, From;
    FromAppend(w, a, b);
    if RunsFrom(w, a) && RunsFrom(From(w, a), b) { RunsAppend(w, a, b); }
  }

  lemma CallKeepsDb(w: World, job: Loaded, retrying: bool, answer: CoreAnswer)
    ensures From(w, Called(job, retrying) + Reaction(w, job, retrying, answer)).db == w.db
  {
    hide RunsFrom, From;
    var a, b := Called(job, retrying), Reaction(w, job, retrying, answer);
    One(w, if a == [] then Forget(job.id) else a[0]);
    assert a == [] || a == [a[0]];
    assert b == [] || b == [b[0]];
    One(From(w, a), if b == [] then Forget(job.id) else b[0]);
    FromAppend(w, a, b);
  }

  // A legacy worker takes the job up before anything is frozen for it.
  function Taking(job: Loaded): seq<Event> {
    if job.capability.LegacyV1? then [Load(job.id)] else []
  }

  lemma TakingStarts(w: World, job: Loaded, claimedNow: bool, answer: CoreAnswer)
    requires job.frozen.None? && job.state.JClaimed?
    ensures var n := From(w, Taking(job)); n.db == w.db
    ensures var n := From(w, Taking(job));
            Starting(w, job, claimedNow, answer) ==> RunsFrom(w, Taking(job)) && Resolving(n, job) && Honest(n, job.id, answer)
  {
    hide RunsFrom, From;
    One(w, Load(job.id));
  }

  // With a request frozen, and nothing else changed, the worker may cross.
  lemma ResolvedCrosses(m: World, n: World, job: Loaded, answer: CoreAnswer)
    requires n == m.(db := n.db) && n.db.jobs == m.db.jobs && job.id in n.db.frozen
    requires job.id in n.db.jobs && InFlight(n.db.jobs[job.id].state)
    ensures Resolving(m, job) && Honest(m, job.id, answer) ==> Crossing(n, job, false, answer)
  {
  }

  lemma StartedCrosses(w: World, job: Loaded, claimedNow: bool, answer: CoreAnswer)
    requires job.frozen.Some? && job.id in w.db.frozen && (job.state.JClaimed? || job.state.JUnknown?)
    ensures Starting(w, job, claimedNow, answer) ==> Crossing(w, job, !claimedNow, answer)
  {
  }

  // The Platform holds the job as unknown, with this very request.
  predicate Started(db: Db, j: Id, frozen: Frozen) {
    && j in db.jobs && db.jobs[j].kind.Create? && db.jobs[j].capability.ContentValidationV102? && db.jobs[j].state.JUnknown?
    && j in db.frozen && db.frozen[j].request == frozen
  }

  lemma BegunCrosses(w: World, n: World, job: Loaded, retrying: bool, answer: CoreAnswer)
    requires OnlyDb(w, n, n.db) && job.id in n.db.frozen
    requires if job.capability.LegacyV1? then n == w else Started(n.db, job.id, n.db.frozen[job.id].request)
    ensures Crossing(w, job, retrying, answer) ==> Crossing(n, job, retrying, answer)
  {
  }

  // Only core's own answer is passed on, and only a clear first refusal of a legacy call rejects.
  lemma AnsweredFrom(job: Loaded, retrying: bool, answer: CoreAnswer)
    ensures var rep := Answered(job, retrying, answer);
            && (rep.state.JRejectedNoEffect? ==> job.capability.LegacyV1? && !retrying && ClearlyNoEffect(answer))
            && (rep.instance != "" ==> !answer.NoAnswer? && rep.instance == answer.instance)
  {
  }

  lemma UnsureTruthful(w: World, node: Id, j: Id, code: Token, stage: Token, stop: Id, next: Id)
    ensures Truthful(w, CReport(node, j, Unsure(code, stage), stop, next))
  {
  }

  // A worker that has not called core, for whose job nothing is frozen, may reject.
  lemma RejectionTruthful(w: World, job: Loaded, node: Id, code: Token, stop: Id, next: Id)
    ensures Resolving(w, job) ==> Truthful(w, CReport(node, job.id, Rejecting(code, "validate"), stop, next))
  {
  }

  lemma DriftTruthful(w: World, job: Loaded, retrying: bool, answer: CoreAnswer, node: Id, rep: Report, stop: Id, next: Id)
    requires job.capability.ContentValidationV102? && rep.instance == "" && !rep.state.JSucceeded?
    ensures Crossing(w, job, retrying, answer) ==> Truthful(w, CReport(node, job.id, rep, stop, next))
  {
  }

  // ---- The transactions as calls ----

  predicate Retrying(job: Loaded, claimedNow: bool) {
    job.frozen.Some? && !claimedNow
  }

  lemma ReportCall(db: Db, site: Site, node: Id, j: Id, rep: Report, stop: Id, next: Id)
    ensures Perform(db, site, CReport(node, j, rep, stop, next)) == ReportJob(db, site, node, j, rep, stop, next)
  {
  }

  lemma PrepareCall(db: Db, site: Site, node: Id, j: Id, template: string, port: int, algorithm: string, sha: string)
    ensures Perform(db, site, CPrepare(node, j, template, port, algorithm, sha)) == Prepare(db, site, node, j, template, port, algorithm, sha)
  {
  }

  lemma BeginCall(db: Db, site: Site, node: Id, j: Id, start: Start, stop: Id, next: Id)
    ensures Perform(db, site, CBegin(node, j, start, stop, next)) == Begin(db, site, node, j, start, stop, next)
  {
  }

  // From w to n the Platform came to hold d, and nothing changed beside it but the starts it committed.
  ghost predicate OnlyDb(w: World, n: World, d: Db) {
    n == w.(db := d, begun := n.begun)
  }

  lemma NoEvents(w: World)
    ensures From(w, []) == w && RunsFrom(w, []) && OnlyDb(w, From(w, []), w.db)
  {
  }

  lemma MayBeginIs(db: Db, site: Site, node: Id, job: Loaded, f: Frozen, stop: Id, next: Id)
    ensures MayBegin(db, site, node, job, f, stop, next) <==>
      job.capability.LegacyV1? || Begin(db, site, node, job.id, StartCreate(f), stop, next).Committed?
  {
    hide Begin;
  }
}
