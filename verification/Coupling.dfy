/** How requests, their attempts, their create jobs and their next-game intents
    stay in step: the invariant, and which changes of rows keep it. */
module Coupling {
  import opened Facts
  import opened Ledger
  import opened Calls
  import opened Counting

  // The request state that goes with the state of the open attempt.
  function Match(s: AllocationState): RequestState {
    match s
    case AReserved => RAllocating
    case ACreateUnknown => RCreating
    case ACreating => RCreating
    case ARunning => RRunning
    case AStopping => RStopping
    case AFailedUnreclaimed => RFailedUnreclaimed
    case AQuarantined => RQuarantined
    case AReclaimed => REnded
    case AReleasedNoEffect => RUnavailable
  }

  predicate NeedsAttempt(s: RequestState) {
    s.RAllocating? || s.RCreating? || s.RRunning? || s.RStopping? || s.RFailedUnreclaimed?
  }

  // Every reference resolves, and an allocation and its create job name each other.
  ghost predicate Rooted(db: Db) {
    AllocationsRooted(db) && JobsRooted(db) && RunsRooted(db) && forall r :: r in db.intents ==> r in db.requests
  }

  ghost predicate AllocationsRooted(db: Db) {
    forall a :: a in db.allocations ==>
      var al := db.allocations[a];
      && (al.purpose.ForRequest? ==> al.purpose.request in db.requests)
      && (al.purpose.ForRun? ==> al.purpose.run in db.runs && db.runs[al.purpose.run].alloc == a)
      && al.create in db.jobs && db.jobs[al.create].kind.Create? && db.jobs[al.create].alloc == a
  }

  ghost predicate JobsRooted(db: Db) {
    forall j :: j in db.jobs ==>
      var job := db.jobs[j];
      && job.alloc in db.allocations && job.node == db.allocations[job.alloc].node
      && (job.kind.Create? ==> db.allocations[job.alloc].create == j)
  }

  ghost predicate RunsRooted(db: Db) {
    forall v :: v in db.runs ==>
      db.runs[v].alloc in db.allocations && db.allocations[db.runs[v].alloc].purpose == ForRun(v)
  }

  // The open attempt and the request agree; only an abandoned request may lag, behind quarantine.
  ghost predicate Fits(db: Db, r: Id)
    requires r in db.requests
  {
    forall a :: OpenAttempt(db, r, a) ==>
      || db.requests[r].state == Match(db.allocations[a].state)
      || (db.requests[r].state.RAbandoned? && db.allocations[a].state.AQuarantined?)
  }

  // Two attempts of one request differ in number and node, and the earlier one had no effect.
  ghost predicate Ordered(db: Db, r: Id) {
    forall a, b :: AttemptOf(db, r, a) && AttemptOf(db, r, b) && a != b ==>
      && db.allocations[a].attempt != db.allocations[b].attempt
      && db.allocations[a].node != db.allocations[b].node
      && (db.allocations[a].attempt < db.allocations[b].attempt ==> db.allocations[a].state.AReleasedNoEffect?)
  }

  ghost predicate Numbered(db: Db, r: Id) {
    forall a :: AttemptOf(db, r, a) ==> 1 <= db.allocations[a].attempt <= |Attempts(db, r)|
  }

  // A request that claims to have a resource has one; a quarantined one may only have a paused intent left.
  ghost predicate Placed(db: Db, r: Id)
    requires r in db.requests
  {
    && (NeedsAttempt(db.requests[r].state) ==> HasOpen(db, r))
    && (db.requests[r].state.RQuarantined? ==> HasOpen(db, r) || PausedIntent(db, r))
  }

  // Waiting again is only for auto requests whose every attempt was released.
  ghost predicate Resting(db: Db, r: Id)
    requires r in db.requests
  {
    forall a :: AttemptOf(db, r, a) ==>
      && !db.requests[r].state.RCancelled?
      && (db.requests[r].state.RWaiting? ==> db.requests[r].mode.Auto? && db.allocations[a].state.AReleasedNoEffect?)
  }

  // A released attempt was rejected before it could have an effect.
  ghost predicate Evidenced(db: Db, r: Id) {
    forall a :: AttemptOf(db, r, a) && db.allocations[a].state.AReleasedNoEffect? ==>
      db.allocations[a].create in db.jobs && db.jobs[db.allocations[a].create].state.JRejectedNoEffect?
  }

  // An intent is about an attempt that did run.
  predicate IntentRooted(db: Db, r: Id) {
    r in db.intents ==>
      var i := db.intents[r];
      && AttemptOf(db, r, i.alloc) && db.allocations[i.alloc].create in db.jobs
      && db.jobs[db.allocations[i.alloc].create].state.JSucceeded?
      && (i.newRequest.Some? <==> i.state.IConsumed?)
      && (i.failure.Some? ==> i.state.IPaused?)
  }

  predicate IntentTimely(db: Db, r: Id)
    requires r in db.requests
  {
    r in db.intents ==>
      var i := db.intents[r];
      var s := db.requests[r].state;
      match i.state
      case IPending =>
        i.alloc in db.allocations && !Terminal(db.allocations[i.alloc].state) && !db.allocations[i.alloc].state.AQuarantined?
      case IPaused => if i.failure.Some? then s.REnded? || s.RAbandoned? else s.RQuarantined?
      case IConsumed => s.REnded? || s.RAbandoned?
  }

  // Everything but the timing of the intent.
  ghost predicate Settling(db: Db, r: Id)
    requires r in db.requests
  {
    && Fits(db, r) && Ordered(db, r) && Numbered(db, r) && Placed(db, r) && Resting(db, r) && Evidenced(db, r)
    && IntentRooted(db, r)
  }

  ghost predicate Coupled(db: Db, r: Id)
    requires r in db.requests
  {
    Settling(db, r) && IntentTimely(db, r)
  }

  ghost predicate Inv(db: Db) {
    Rooted(db) && forall r :: r in db.requests ==> Coupled(db, r)
  }

  // ---- One allocation at a time ----

  lemma SameAttempts(db: Db, d: Db, r: Id)
    requires forall a :: AttemptOf(db, r, a) <==> AttemptOf(d, r, a)
    ensures Attempts(d, r) == Attempts(db, r)
  {
    assert forall a :: AttemptOf(db, r, a) <==> a in Attempts(db, r);
    assert forall a :: AttemptOf(d, r, a) <==> a in Attempts(d, r);
  }

  // The attempts of r look the same in both, and what their create jobs had decided still stands.
  ghost predicate SameTries(db: Db, d: Db, r: Id) {
    && (forall a :: AttemptOf(db, r, a) <==> AttemptOf(d, r, a))
    && (forall a :: AttemptOf(d, r, a) ==>
          var x, y := db.allocations[a], d.allocations[a];
          && x.attempt == y.attempt && x.node == y.node && x.create == y.create && x.state == y.state
          && (x.create in db.jobs && db.jobs[x.create].state.JRejectedNoEffect? ==>
                x.create in d.jobs && d.jobs[x.create].state.JRejectedNoEffect?)
          && (x.create in db.jobs && db.jobs[x.create].state.JSucceeded? ==>
                x.create in d.jobs && d.jobs[x.create].state.JSucceeded?))
  }

  lemma TriesSettle(db: Db, d: Db, r: Id)
    requires r in db.requests && r in d.requests && SameTries(db, d, r) && Settling(db, r)
    requires d.requests[r].state == db.requests[r].state && d.requests[r].mode == db.requests[r].mode
    requires IntentRooted(d, r)
    requires db.requests[r].state.RQuarantined? ==> (PausedIntent(db, r) ==> PausedIntent(d, r))
    ensures Settling(d, r)
  {
    SameAttempts(db, d, r);
    assert forall a :: OpenAttempt(db, r, a) <==> OpenAttempt(d, r, a);
    assert HasOpen(d, r) <==> HasOpen(db, r);
  }

  // The same, with the intent untouched.
  lemma TriesKeep(db: Db, d: Db, r: Id)
    requires r in db.requests && r in d.requests && SameTries(db, d, r) && Coupled(db, r)
    requires d.requests[r].state == db.requests[r].state && d.requests[r].mode == db.requests[r].mode
    requires (r in d.intents <==> r in db.intents) && (r in db.intents ==> d.intents[r] == db.intents[r])
    ensures Coupled(d, r)
  {
    TriesSettle(db, d, r);
  }

  predicate SameAllocation(x: Allocation, y: Allocation) {
    && x.purpose == y.purpose && x.game == y.game && x.attempt == y.attempt && x.node == y.node
    && x.content == y.content && x.revision == y.revision && x.create == y.create
  }

  predicate SameJob(x: Job, y: Job) {
    && x.node == y.node && x.kind == y.kind && x.alloc == y.alloc && x.capability == y.capability
    && x.createdAt == y.createdAt && x.bindingKey == y.bindingKey && x.expected == y.expected
  }

  predicate SameRequest(x: Request, y: Request) {
    && x.owner == y.owner && x.game == y.game && x.preset == y.preset && x.mode == y.mode && x.requestedAt == y.requestedAt
  }

  // Only allocation a moved.
  ghost predicate LocalAllocations(m: map<Id, Allocation>, n: map<Id, Allocation>, a: Id) {
    && n.Keys == m.Keys
    && (forall x :: x in m ==> SameAllocation(n[x], m[x]) && (x != a ==> n[x].state == m[x].state))
  }

  // Only jobs of a moved; the only new ones are its stops.
  ghost predicate LocalJobs(m: map<Id, Job>, n: map<Id, Job>, a: Id, node: Id) {
    && (forall j :: j in m ==>
          && j in n && SameJob(n[j], m[j])
          && (m[j].kind.Create? && m[j].alloc != a ==> n[j].state == m[j].state))
    && (forall j :: j in n && j !in m ==> n[j].kind.Stop? && n[j].alloc == a && n[j].node == node)
  }

  ghost predicate LocalRuns(m: map<Id, Run>, n: map<Id, Run>) {
    n.Keys == m.Keys && forall v :: v in m ==> n[v].alloc == m[v].alloc
  }

  // Only the request with purpose p moved.
  ghost predicate LocalRequests(m: map<Id, Request>, n: map<Id, Request>, p: Purpose) {
    && n.Keys == m.Keys
    && (forall r :: r in m ==> SameRequest(n[r], m[r]) && (p != ForRequest(r) ==> n[r] == m[r]))
  }

  // Only the intent of that request changed.
  ghost predicate LocalIntents(m: map<Id, Intent>, n: map<Id, Intent>, p: Purpose) {
    && (forall r :: p != ForRequest(r) ==> (r in n <==> r in m) && (r in m ==> n[r] == m[r]))
  }

  // d differs from db only in allocation a: its state, its jobs, its owner and that owner's intent.
  ghost predicate Local(db: Db, d: Db, a: Id)
    requires a in db.allocations
  {
    var p := db.allocations[a].purpose;
    && LocalAllocations(db.allocations, d.allocations, a)
    && LocalJobs(db.jobs, d.jobs, a, db.allocations[a].node)
    && LocalRuns(db.runs, d.runs)
    && LocalRequests(db.requests, d.requests, p)
    && LocalIntents(db.intents, d.intents, p)
  }

  lemma LocalRooted(db: Db, d: Db, a: Id)
    requires Rooted(db) && a in db.allocations && Local(db, d, a)
    ensures Rooted(d) && d.requests.Keys == db.requests.Keys
  {
    hide LocalIntents, LocalRequests, LocalAllocations, LocalJobs, LocalRuns, AllocationsRooted, JobsRooted, RunsRooted;
    LocalKeys(db, d, a);
    IntentRows(db, d, a);
    LocalAllocationsRooted(db, d, a);
    LocalJobsRooted(db, d, a);
    LocalRunsRooted(db, d, a);
  }

  lemma LocalAllocationsRooted(db: Db, d: Db, a: Id)
    requires AllocationsRooted(db) && a in db.allocations && Local(db, d, a)
    ensures AllocationsRooted(d)
  {
    hide LocalIntents;
  }

  lemma LocalJobsRooted(db: Db, d: Db, a: Id)
    requires JobsRooted(db) && a in db.allocations && Local(db, d, a)
    ensures JobsRooted(d)
  {
    hide LocalIntents, LocalRequests, LocalRuns;
  }

  lemma LocalRunsRooted(db: Db, d: Db, a: Id)
    requires RunsRooted(db) && a in db.allocations && Local(db, d, a)
    ensures RunsRooted(d)
  {
    hide LocalIntents, LocalRequests, LocalJobs;
  }

  lemma LocalKeys(db: Db, d: Db, a: Id)
    requires a in db.allocations && Local(db, d, a)
    ensures d.requests.Keys == db.requests.Keys && d.allocations.Keys == db.allocations.Keys && d.runs.Keys == db.runs.Keys
  {
    hide LocalIntents, LocalJobs, SameRequest, SameAllocation;
  }

  lemma IntentRows(db: Db, d: Db, a: Id)
    requires Rooted(db) && a in db.allocations && Local(db, d, a)
    ensures forall r :: r in d.intents ==> r in d.requests
  {
    hide LocalJobs, SameRequest, LocalRuns, LocalAllocations;
  }

  lemma LocalSlice(db: Db, d: Db, a: Id, r: Id)
    requires Rooted(db) && a in db.allocations && Local(db, d, a)
    requires r in db.requests && db.allocations[a].purpose != ForRequest(r)
    ensures r in d.requests && SameTries(db, d, r) && d.requests[r] == db.requests[r]
    ensures (r in d.intents <==> r in db.intents) && (r in db.intents ==> d.intents[r] == db.intents[r])
  {
    hide Rooted, LocalRuns, LocalJobs, LocalAllocations, SameTries;
    LocalTries(db, d, a, r);
  }

  lemma LocalTries(db: Db, d: Db, a: Id, r: Id)
    requires Rooted(db) && a in db.allocations && Local(db, d, a) && db.allocations[a].purpose != ForRequest(r)
    ensures SameTries(db, d, r)
  {
    hide Rooted, LocalRuns, LocalRequests, LocalIntents, LocalJobs;
    forall b | AttemptOf(db, r, b)
      ensures b != a && AttemptOf(d, r, b) && db.allocations[b].create in db.jobs && db.allocations[b].create in d.jobs
      ensures d.jobs[db.allocations[b].create].state == db.jobs[db.allocations[b].create].state
    {
      LocalTry(db, d, a, r, b);
    }
  }

  lemma LocalTry(db: Db, d: Db, a: Id, r: Id, b: Id)
    requires Rooted(db) && a in db.allocations && Local(db, d, a) && db.allocations[a].purpose != ForRequest(r) && AttemptOf(db, r, b)
    ensures b != a && AttemptOf(d, r, b) && db.allocations[b].create in db.jobs && db.allocations[b].create in d.jobs
    ensures d.jobs[db.allocations[b].create].state == db.jobs[db.allocations[b].create].state
  {
    hide LocalRuns, LocalRequests, LocalIntents;
  }

  // What is left to show after a change local to a: the coupling of a's own request.
  lemma LocalKeeps(db: Db, d: Db, a: Id)
    requires Inv(db) && a in db.allocations && Local(db, d, a)
    ensures Rooted(d) && d.requests.Keys == db.requests.Keys
    ensures forall r :: r in db.requests && db.allocations[a].purpose != ForRequest(r) ==> Coupled(d, r)
    ensures (db.allocations[a].purpose.ForRun? || Coupled(d, db.allocations[a].purpose.request)) ==> Inv(d)
  {
    hide Coupled, Local, SameTries;
    LocalRooted(db, d, a);
    forall r | r in db.requests && db.allocations[a].purpose != ForRequest(r)
      ensures Coupled(d, r)
    {
      LocalSlice(db, d, a, r);
      TriesKeep(db, d, r);
    }
  }

  // The three ends a step may bring an open attempt and its request to.
  ghost predicate Arrives(d: Db, a: Id, r: Id)
    requires a in d.allocations && r in d.requests
  {
    var s := d.allocations[a].state;
    var q := d.requests[r];
    match s
    case AReclaimed => q.state.REnded? || q.state.RAbandoned? || (q.state.RQuarantined? && PausedIntent(d, r))
    case AReleasedNoEffect =>
      && d.allocations[a].create in d.jobs && d.jobs[d.allocations[a].create].state.JRejectedNoEffect?
      && (q.state.RUnavailable? || q.state.RAbandoned? || (q.state.RWaiting? && q.mode.Auto?))
    case _ => q.state == Match(s) || (q.state.RAbandoned? && s.AQuarantined?)
  }

  // What a change local to a keeps of the attempts of its request.
  ghost predicate NearSlice(db: Db, d: Db, a: Id, r: Id) {
    && (forall b :: AttemptOf(db, r, b) <==> AttemptOf(d, r, b))
    && (forall b :: AttemptOf(d, r, b) ==>
          var x, y := db.allocations[b], d.allocations[b];
          && x.attempt == y.attempt && x.node == y.node && x.create == y.create
          && (b != a ==> x.state == y.state)
          && (b != a && x.create in db.jobs && db.jobs[x.create].state.JRejectedNoEffect? ==>
                x.create in d.jobs && d.jobs[x.create].state.JRejectedNoEffect?))
  }

  lemma LocalNear(db: Db, d: Db, a: Id, r: Id)
    requires Rooted(db) && a in db.allocations && Local(db, d, a)
    ensures NearSlice(db, d, a, r)
  {
  }

  lemma OpenIsLast(db: Db, r: Id, a: Id)
    requires Ordered(db, r) && OpenAttempt(db, r, a)
    ensures forall b :: AttemptOf(db, r, b) && b != a ==> db.allocations[b].state.AReleasedNoEffect?
  {
  }

  lemma NearOrdered(db: Db, d: Db, a: Id, r: Id)
    requires NearSlice(db, d, a, r) && OpenAttempt(db, r, a) && Ordered(db, r) && Numbered(db, r) && Evidenced(db, r)
    requires d.allocations[a].state.AReleasedNoEffect? ==>
      d.allocations[a].create in d.jobs && d.jobs[d.allocations[a].create].state.JRejectedNoEffect?
    ensures Ordered(d, r) && Numbered(d, r) && Evidenced(d, r)
    ensures forall b :: AttemptOf(d, r, b) && b != a ==> d.allocations[b].state.AReleasedNoEffect?
  {
    SameAttempts(db, d, r);
    OpenIsLast(db, r, a);
  }

  lemma OwnerSettles(db: Db, d: Db, a: Id, r: Id)
    requires NearSlice(db, d, a, r) && OpenAttempt(db, r, a)
    requires r in db.requests && r in d.requests && Settling(db, r)
    requires Arrives(d, a, r) && IntentRooted(d, r)
    ensures Settling(d, r)
  {
    NearOrdered(db, d, a, r);
    OwnerArrives(d, a, r);
    hide NearSlice, Arrives, Fits, Placed, Resting, Evidenced, Ordered, Numbered, IntentRooted;
  }

  lemma OwnerArrives(d: Db, a: Id, r: Id)
    requires r in d.requests && AttemptOf(d, r, a) && Arrives(d, a, r)
    requires forall b :: AttemptOf(d, r, b) && b != a ==> d.allocations[b].state.AReleasedNoEffect?
    ensures Fits(d, r) && Placed(d, r) && Resting(d, r)
  {
    if !Terminal(d.allocations[a].state) { assert OpenAttempt(d, r, a); }
  }
}
