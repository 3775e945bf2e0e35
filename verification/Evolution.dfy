/** What one Store transaction may do to each row: identities never change, what is
    final stays, and every move of a job or an allocation has its cause. */
module Evolution {
  import opened Facts
  import opened Ledger
  import opened Calls
  import opened Coupling
  import opened CouplingSteps
  import opened CouplingRuns

  predicate Final(s: RequestState) {
    s.REnded? || s.RCancelled? || s.RUnavailable? || s.RAbandoned?
  }

  // The calls that carry a report on job j.
  predicate Reports(call: Call, j: Id) {
    (call.CReport? && call.j == j) || (call.CBegin? && call.j == j)
  }

  function ReportOf(call: Call): Report
    requires call.CReport? || call.CBegin?
  {
    if call.CReport? then call.rep else STARTED
  }

  // Why a job that exists already may change.
  ghost predicate JobMoves(db: Db, site: Site, call: Call, j: Id, next: Job)
    requires j in db.jobs
  {
    var job := db.jobs[j];
    || (call.CClaim? && call.j == j && Claimable(db, site, call.node, j, call.independent, call.cap)
        && next == job.(state := JClaimed, everClaimed := true))
    || (Reports(call, j) && ReportAllowed(job, j in db.frozen, ReportOf(call)) && !JobTerminal(job.state)
        && ValidReport(ReportOf(call)) && next == Reported(job, ReportOf(call))
        && (call.CBegin? ==> StartAllowed(db, j, call.start) && job.state.JClaimed?))
    || (call.CTerminatePending? && job.kind.Create? && job.alloc == call.a && job.state.JPending? && Untouched(db, j)
        && next == job.(state := JRejectedNoEffect, errorCode := "PENDING_TERMINATED", errorStage := "dispatch", reported := true))
  }

  ghost predicate JobStep(db: Db, site: Site, call: Call, d: Db, j: Id)
    requires j in db.jobs
  {
    j in d.jobs && (d.jobs[j] == db.jobs[j] || JobMoves(db, site, call, j, d.jobs[j]))
  }

  // A new job is pending and untouched; a stop repeats what its create job knows.
  ghost predicate NewJob(db: Db, d: Db, j: Id)
    requires j in d.jobs
  {
    var job := d.jobs[j];
    && job.state.JPending? && job.operation == "" && !job.everClaimed && !job.reported && job.alloc in d.allocations
    && (match job.kind
        case Create => job.alloc !in db.allocations && job.instance == ""
        case Stop =>
          && job.alloc in db.allocations && !Terminal(db.allocations[job.alloc].state) && !OpenStop(db.jobs, job.alloc)
          && d.allocations[job.alloc].create in d.jobs
          && job.instance == d.jobs[d.allocations[job.alloc].create].instance && job.instance != ""
          && job.capability == d.jobs[d.allocations[job.alloc].create].capability)
  }

  // The two proofs of a full reclaim.
  predicate Reclaims(db: Db, call: Call, a: Id)
    requires a in db.allocations
  {
    || (call.CReport? && call.j in db.jobs && db.jobs[call.j].kind.Stop? && db.jobs[call.j].alloc == a && call.rep.state.JSucceeded?)
    || (call.CFact? && call.a == a && call.fact.outcome.Gone? && call.fact.instance != "" && db.allocations[a].create in db.jobs
        && db.jobs[db.allocations[a].create].instance == call.fact.instance)
  }

  ghost predicate AllocationStep(db: Db, call: Call, d: Db, a: Id)
    requires a in db.allocations
  {
    && a in d.allocations && SameAllocation(d.allocations[a], db.allocations[a])
    && var was, next := db.allocations[a].state, d.allocations[a].state;
       was != next ==>
         && !Terminal(was) && !next.AReserved?
         && (next.AReclaimed? ==> Reclaims(db, call, a))
         && (next.AReleasedNoEffect? ==>
               && db.allocations[a].create in db.jobs && !JobTerminal(db.jobs[db.allocations[a].create].state)
               && db.allocations[a].create in d.jobs && d.jobs[db.allocations[a].create].state.JRejectedNoEffect?)
  }

  // A new allocation reserves capacity on a node that had room for it.
  predicate NewAllocation(db: Db, site: Site, call: Call, d: Db, a: Id)
    requires a in d.allocations
  {
    var al := d.allocations[a];
    && al.state.AReserved?
    && ((call.CPlace? && call.a == a && Placeable(db, site, call.r, call.n)
         && al.purpose == ForRequest(call.r) && al.node == call.n && al.create == call.j && call.j !in db.jobs
         && (var q := db.requests[call.r];
             && al.revision == site.presets[q.preset].revision && al.content == site.games[q.game].content
             && (call.n, al.revision) in site.facts.bindings
             && call.j in d.jobs
             && d.jobs[call.j] == NewCreateJob(call.n, a, site.facts.bindings[(call.n, al.revision)].key, ExpectedOf(site, q, call.n), site.now)))
        || (call.CReserveRun? && call.a == a && Reservable(db, site, call.q)
            && al.purpose == ForRun(call.v) && al.node == call.q.node && call.v !in db.runs && al.create == call.j))
  }

  ghost predicate RequestStep(db: Db, d: Db, r: Id)
    requires r in db.requests
  {
    && r in d.requests && SameRequest(d.requests[r], db.requests[r])
    && (Final(db.requests[r].state) ==> d.requests[r].state == db.requests[r].state)
  }

  // ---- The tables a report or fact path writes ----

  // Only row a of the allocations may differ, and it is left in state next.
  ghost predicate OneMoves(m: map<Id, Allocation>, n: map<Id, Allocation>, a: Id, next: AllocationState)
    requires a in m
  {
    a in n && n == m[a := n[a]] && SameAllocation(n[a], m[a]) && n[a].state == next
  }

  ghost predicate MayStop(db: Db, site: Site, jobs: map<Id, Job>, a: Id, stop: Id)
    requires a in db.allocations && db.allocations[a].create in db.jobs
  {
    jobs == db.jobs || (stop !in db.jobs && !OpenStop(db.jobs, a) && jobs == db.jobs[stop := NewStopJob(db, a, site.now)])
  }

  lemma ConsumeTables(db: Db, site: Site, r: Id, afterAbandon: bool, next: Id)
    requires r in db.requests
    ensures var res := Consume(db, site, r, afterAbandon, next);
            res.Committed? ==>
              && res.db == db.(requests := res.db.requests, intents := res.db.intents)
              && (res.db.requests == db.requests
                  || (next !in db.requests && res.db.requests == db.requests[next := NextRequest(db.requests[r], site.now)]))
  {
    hide FreshCheck, NextRequest;
    if r in db.intents {
      var q := db.requests[r];
      match FreshCheck(db, site, q.game, q.preset, q.owner, q.mode)
      case Broken =>
      case Refused(why) =>
      case FreshOk =>
    }
  }

  // The state an allocation may be left in by a report of this kind.
  predicate ReportLeaves(kind: JobKind, state: JobState, after: AllocationState) {
    && !after.AReserved?
    && (after.AReclaimed? ==> kind.Stop? && state.JSucceeded?)
    && (after.AReleasedNoEffect? ==> kind.Create? && state.JRejectedNoEffect?)
  }

  lemma TargetLeaves(kind: JobKind, state: JobState, errorCode: string, mode: Option<Mode>, paused: bool)
    ensures var t := Target(kind, state, errorCode, mode, paused); t.Some? ==> ReportLeaves(kind, state, t.value.0)
    ensures var t := Target(kind, state, errorCode, mode, paused); t.Some? && kind.Create? && state.JSucceeded? ==> t.value.0.ARunning?
  {
  }

  // Besides new requests, only the owner with purpose p moved, and only if it was not abandoned.
  ghost predicate OwnerOnly(m: map<Id, Request>, n: map<Id, Request>, p: Purpose) {
    forall r :: r in m ==>
      r in n && SameRequest(n[r], m[r]) && (p != ForRequest(r) || m[r].state.RAbandoned? ==> n[r] == m[r])
  }

  lemma OwnerOnlySteps(m: map<Id, Request>, n: map<Id, Request>, p: Purpose, s: RequestState)
    requires OwnerOnly(m, n, p)
    ensures OwnerOnly(m, OwnerAdvanced(n, p, s), p)
  {
  }

  lemma OwnerOnlyAdds(m: map<Id, Request>, n: map<Id, Request>, p: Purpose, id: Id, q: Request)
    requires OwnerOnly(m, n, p) && id !in n
    ensures OwnerOnly(m, n[id := q], p)
  {
  }

  lemma OwnerOnlySelf(m: map<Id, Request>)
    ensures forall p :: OwnerOnly(m, m, p)
  {
  }

  // What a report or fact path may have done to the rows.
  ghost predicate ReportRows(db: Db, site: Site, d: Db, a: Id, kind: JobKind, state: JobState, instance: Token, errorCode: string, stop: Id)
    requires a in db.allocations && db.allocations[a].create in db.jobs
  {
    && d == db.(requests := d.requests, intents := d.intents, runs := d.runs, allocations := d.allocations, jobs := d.jobs)
    && OwnerOnly(db.requests, d.requests, db.allocations[a].purpose)
    && MayStop(db, site, d.jobs, a, stop)
    && (d.jobs != db.jobs ==> AutoStops(kind, state, instance, errorCode) && !Terminal(db.allocations[a].state))
    && (d.allocations == db.allocations
        || (!Terminal(db.allocations[a].state) && a in d.allocations
            && OneMoves(db.allocations, d.allocations, a, d.allocations[a].state) && ReportLeaves(kind, state, d.allocations[a].state)))
  }

  lemma ApplyReportRows(db: Db, site: Site, a: Id, kind: JobKind, state: JobState, instance: Token, errorCode: string,
                        join: Option<JoinInfo>, joinError: string, stop: Id, next: Id)
    requires a in db.allocations && db.allocations[a].create in db.jobs
    ensures var res := ApplyReport(db, site, a, kind, state, instance, errorCode, join, joinError, stop, next);
            res.Committed? ==> ReportRows(db, site, res.db, a, kind, state, instance, errorCode, stop)
  {
    hide Carry, ReportRows, PausedFor, ModeOf, ReportLeaves, Target;
    SameRows(db, site, a, kind, state, instance, errorCode, stop);
    var al := db.allocations[a];
    var t := Target(kind, state, errorCode, ModeOf(db, al.purpose), PausedFor(db, al.purpose));
    TargetLeaves(kind, state, errorCode, ModeOf(db, al.purpose), PausedFor(db, al.purpose));
    if t.Some? && !Terminal(al.state) {
      CarryRows(db, site, a, t.value.0, t.value.1, kind, state, instance, errorCode, join, joinError, stop, next);
    }
  }

  lemma SameRows(db: Db, site: Site, a: Id, kind: JobKind, state: JobState, instance: Token, errorCode: string, stop: Id)
    requires a in db.allocations && db.allocations[a].create in db.jobs
    ensures ReportRows(db, site, db, a, kind, state, instance, errorCode, stop)
  {
    hide OwnerOnly, MayStop;
    OwnerOnlySelf(db.requests);
    MayStopSelf(db, site, a, stop);
  }

  lemma CarryRows(db: Db, site: Site, a: Id, after: AllocationState, requestAfter: RequestState, kind: JobKind, state: JobState,
                  instance: Token, errorCode: string, join: Option<JoinInfo>, joinError: string, stop: Id, next: Id)
    requires a in db.allocations && db.allocations[a].create in db.jobs && !Terminal(db.allocations[a].state)
    requires ReportLeaves(kind, state, after) && (kind.Create? && state.JSucceeded? ==> after.ARunning?)
    ensures var res := Carry(db, site, a, after, requestAfter, kind, state, instance, errorCode, join, joinError, stop, next);
            res.Committed? ==> ReportRows(db, site, res.db, a, kind, state, instance, errorCode, stop)
  {
    hide OpenStop, NewStopJob, Consume, ReportLeaves, OwnerOnly, OneMoves, MayStop, OwnerAdvanced, Settle, AutoStop, ConsumeFor;
    var p := db.allocations[a].purpose;
    var d := Settle(db, site, a, after, requestAfter, kind, state, join, joinError);
    SettleMoves(db, site, a, after, requestAfter, kind, state, join, joinError);
    MayStopSelf(db, site, a, stop);
    if kind.Stop? && state.JSucceeded? && !db.allocations[a].state.AQuarantined? {
      EndRows(db, d, site, a, kind, state, instance, errorCode, stop, next);
    } else if AutoStops(kind, state, instance, errorCode) {
      OwnerOnlySteps(db.requests, d.requests, p, RStopping);
      AutoStopRows(db, d, site, a, stop, kind, state);
    }
  }

  lemma SettleMoves(db: Db, site: Site, a: Id, after: AllocationState, requestAfter: RequestState, kind: JobKind, state: JobState,
                    join: Option<JoinInfo>, joinError: string)
    requires a in db.allocations && (kind.Create? && state.JSucceeded? ==> after.ARunning?)
    ensures var d := Settle(db, site, a, after, requestAfter, kind, state, join, joinError);
            && d == db.(requests := d.requests, intents := d.intents, runs := d.runs, allocations := d.allocations)
            && a in d.allocations && d.allocations[a].state == after && OneMoves(db.allocations, d.allocations, a, after)
            && d.allocations[a].purpose == db.allocations[a].purpose
            && OwnerOnly(db.requests, d.requests, db.allocations[a].purpose)
  {
    hide KeptJoin, JoinErrorOf, OwnerAdvanced, Paused, RunsAfterJob, OwnerOnly;
    OwnerOnlySelf(db.requests);
    OwnerOnlySteps(db.requests, db.requests, db.allocations[a].purpose, requestAfter);
  }

  lemma EndRows(db: Db, d: Db, site: Site, a: Id, kind: JobKind, state: JobState, instance: Token, errorCode: string, stop: Id, next: Id)
    requires a in db.allocations && db.allocations[a].create in db.jobs && d.jobs == db.jobs
    requires ReportRows(db, site, d, a, kind, state, instance, errorCode, stop)
    ensures var res := ConsumeFor(d, site, db.allocations[a].purpose, next);
            res.Committed? ==> ReportRows(db, site, res.db, a, kind, state, instance, errorCode, stop)
  {
    hide ReportRows, Consume, NextRequest, OwnerOnly;
    var p := db.allocations[a].purpose;
    if p.ForRequest? && p.request in d.requests {
      var res := Consume(d, site, p.request, false, next);
      if res.Committed? {
        ConsumeTables(d, site, p.request, false, next);
        RowsConsumed(db, d, res.db, site, a, kind, state, instance, errorCode, stop, next);
      }
    }
  }

  lemma RowsConsumed(db: Db, d: Db, e: Db, site: Site, a: Id, kind: JobKind, state: JobState, instance: Token, errorCode: string,
                     stop: Id, next: Id)
    requires a in db.allocations && db.allocations[a].create in db.jobs
    requires ReportRows(db, site, d, a, kind, state, instance, errorCode, stop)
    requires e == d.(requests := e.requests, intents := e.intents)
    requires e.requests == d.requests || (next !in d.requests && next in e.requests && e.requests == d.requests[next := e.requests[next]])
    ensures ReportRows(db, site, e, a, kind, state, instance, errorCode, stop)
  {
    hide OneMoves, ReportLeaves, OwnerOnly, AutoStops, MayStop;
    if e.requests != d.requests {
      OwnerOnlyAdds(db.requests, d.requests, db.allocations[a].purpose, next, e.requests[next]);
    }
  }

  lemma MayStopSelf(db: Db, site: Site, a: Id, stop: Id)
    requires a in db.allocations && db.allocations[a].create in db.jobs
    ensures MayStop(db, site, db.jobs, a, stop)
  {
  }

  lemma AutoStopRows(db: Db, d: Db, site: Site, a: Id, stop: Id, kind: JobKind, state: JobState)
    requires a in db.allocations && db.allocations[a].create in db.jobs && a in d.allocations && d.jobs == db.jobs
    requires OneMoves(db.allocations, d.allocations, a, d.allocations[a].state)
    ensures var e := AutoStop(d, site, a, stop);
            && e == d.(jobs := e.jobs, allocations := e.allocations, requests := OwnerAdvanced(d.requests, d.allocations[a].purpose, RStopping))
            && a in e.allocations && e.allocations[a].state == AStopping
            && MayStop(db, site, e.jobs, a, stop) && OneMoves(db.allocations, e.allocations, a, AStopping) && ReportLeaves(kind, state, AStopping)
  {
    hide OpenStop;
  }

  // ---- Every call, table by table ----

  ghost predicate JobsEvolve(db: Db, site: Site, call: Call, d: Db) {
    && (forall j :: j in db.jobs ==> JobStep(db, site, call, d, j))
    && (forall j :: j in d.jobs && j !in db.jobs ==> NewJob(db, d, j))
    && (forall j, k :: j in d.jobs && k in d.jobs && j !in db.jobs && k !in db.jobs ==> j == k)
  }

  ghost predicate AllocationsEvolve(db: Db, site: Site, call: Call, d: Db) {
    && (forall a :: a in db.allocations ==> AllocationStep(db, call, d, a))
    && (forall a :: a in d.allocations && a !in db.allocations ==> NewAllocation(db, site, call, d, a))
  }

  ghost predicate RequestsEvolve(db: Db, d: Db) {
    forall r :: r in db.requests ==> RequestStep(db, d, r)
  }

  // A frozen row never changes; a new one is made by prepareCreate, at the time of the call.
  ghost predicate FrozenEvolve(db: Db, site: Site, call: Call, d: Db) {
    && (forall j :: j in db.frozen ==> j in d.frozen && d.frozen[j] == db.frozen[j])
    && (forall j :: j in d.frozen && j !in db.frozen ==>
          call.CPrepare? && call.j == j && d.frozen[j].preparedAt == site.now && j in db.jobs && db.jobs[j].kind.Create?)
  }

  ghost predicate Evolves(db: Db, site: Site, call: Call, d: Db) {
    JobsEvolve(db, site, call, d) && AllocationsEvolve(db, site, call, d) && RequestsEvolve(db, d) && FrozenEvolve(db, site, call, d)
  }

  lemma OwnerEvolves(db: Db, d: Db, a: Id)
    requires Inv(db) && a in db.allocations && !Terminal(db.allocations[a].state)
    requires OwnerOnly(db.requests, d.requests, db.allocations[a].purpose)
    ensures RequestsEvolve(db, d)
  {
    hide Coupled, Rooted;
    InvAllocation(db, a);
    var p := db.allocations[a].purpose;
    if p.ForRequest? { OpenFacts(db, p.request, a); }
  }

  lemma CreateIsNoStop(jobs: map<Id, Job>, j: Id, job: Job, a: Id)
    requires j in jobs && jobs[j].kind.Create? && job.kind.Create?
    ensures OpenStop(jobs[j := job], a) <==> OpenStop(jobs, a)
  {
    if OpenStop(jobs, a) {
      var s :| s in jobs && jobs[s].alloc == a && jobs[s].kind.Stop? && OpenJob(jobs[s].state);
      assert s != j && jobs[j := job][s] == jobs[s];
    }
  }

  // Nothing but a report changes an unresolved job.
  lemma UnreportedStays(db: Db, site: Site, call: Call, d: Db, j: Id)
    requires JobsEvolve(db, site, call, d) && j in db.jobs && InFlight(db.jobs[j].state) && !Reports(call, j)
    ensures j in d.jobs && d.jobs[j] == db.jobs[j]
  {
    hide Rival, TrustedStop, StartAllowed;
    assert JobStep(db, site, call, d, j);
  }
}
