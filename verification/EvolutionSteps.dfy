/** Every Store transaction evolves the rows as Evolution says. */
module EvolutionSteps {
  import opened Facts
  import opened Ledger
  import opened Calls
  import opened Coupling
  import opened CouplingSteps
  import opened CouplingRuns
  import opened Evolution

  lemma SameJobs(db: Db, site: Site, call: Call, d: Db)
    requires d.jobs == db.jobs
    ensures JobsEvolve(db, site, call, d)
  {
  }

  lemma SameAllocations(db: Db, site: Site, call: Call, d: Db)
    requires d.allocations == db.allocations
    ensures AllocationsEvolve(db, site, call, d)
  {
  }

  lemma SameRequests(db: Db, d: Db)
    requires d.requests == db.requests
    ensures RequestsEvolve(db, d)
  {
  }

  lemma Nothing(db: Db, site: Site, call: Call)
    ensures Evolves(db, site, call, db)
  {
    SameJobs(db, site, call, db);
    SameAllocations(db, site, call, db);
    SameRequests(db, db);
  }

  // ---- One row of a table ----

  lemma OneJob(db: Db, site: Site, call: Call, d: Db, j: Id)
    requires j in db.jobs && j in d.jobs && d.jobs == db.jobs[j := d.jobs[j]]
    requires JobMoves(db, site, call, j, d.jobs[j])
    ensures JobsEvolve(db, site, call, d)
  {
    hide JobMoves, OpenStop;
  }

  lemma OneNewJob(db: Db, site: Site, call: Call, d: Db, j: Id)
    requires j !in db.jobs && j in d.jobs && d.jobs == db.jobs[j := d.jobs[j]]
    requires NewJob(db, d, j)
    ensures JobsEvolve(db, site, call, d)
  {
  }

  lemma OneAllocation(db: Db, site: Site, call: Call, d: Db, a: Id)
    requires a in db.allocations && a in d.allocations && d.allocations == db.allocations[a := d.allocations[a]]
    requires AllocationStep(db, call, d, a)
    ensures AllocationsEvolve(db, site, call, d)
  {
  }

  lemma OneNewAllocation(db: Db, site: Site, call: Call, d: Db, a: Id, al: Allocation)
    requires a !in db.allocations && d.allocations == db.allocations[a := al]
    requires NewAllocation(db, site, call, d, a)
    ensures AllocationsEvolve(db, site, call, d)
  {
  }

  lemma OneRequest(db: Db, d: Db, r: Id)
    requires r in d.requests && d.requests == db.requests[r := d.requests[r]]
    requires r in db.requests ==> RequestStep(db, d, r)
    ensures RequestsEvolve(db, d)
  {
  }

  // ---- Reports ----

  // The rows after the job took the report and before the allocation moved.
  ghost function Taken(db: Db, j: Id, rep: Report): Db
    requires j in db.jobs
  {
    db.(jobs := db.jobs[j := Reported(db.jobs[j], rep)])
  }

  ghost predicate Accepted(db: Db, call: Call, j: Id, rep: Report) {
    && Reports(call, j) && rep == ReportOf(call) && j in db.jobs
    && ValidReport(rep) && ReportAllowed(db.jobs[j], j in db.frozen, rep) && !JobTerminal(db.jobs[j].state)
    && (call.CBegin? ==> StartAllowed(db, j, call.start) && db.jobs[j].state.JClaimed?)
  }

  lemma TakenRooted(db: Db, j: Id, rep: Report)
    requires Rooted(db) && j in db.jobs
    ensures var d0 := Taken(db, j, rep);
            var a := db.jobs[j].alloc;
            && d0.allocations == db.allocations && d0.requests == db.requests && d0.frozen == db.frozen
            && a in db.allocations && db.allocations[a].create in db.jobs && db.allocations[a].create in d0.jobs
            && d0.jobs[db.allocations[a].create].capability == db.jobs[db.allocations[a].create].capability
            && (db.jobs[j].kind.Create? ==> db.allocations[a].create == j)
  {
  }

  lemma AcceptedMoves(db: Db, site: Site, call: Call, j: Id, rep: Report)
    requires Accepted(db, call, j, rep)
    ensures j in db.jobs && JobMoves(db, site, call, j, Reported(db.jobs[j], rep))
  {
    hide ValidReport, ReportAllowed, StartAllowed, Claimable, Untouched;
  }

  lemma ReportJobs(db: Db, site: Site, call: Call, j: Id, rep: Report, d: Db, stop: Id)
    requires Rooted(db) && Accepted(db, call, j, rep) && j in db.jobs
    requires db.jobs[j].alloc in db.allocations && db.allocations[db.jobs[j].alloc].create in Taken(db, j, rep).jobs
    requires ReportRows(Taken(db, j, rep), site, d, db.jobs[j].alloc, db.jobs[j].kind, rep.state,
                        Merge(db.jobs[j].instance, rep.instance), rep.errorCode, stop)
    ensures JobsEvolve(db, site, call, d)
  {
    hide OwnerOnly, ReportLeaves, OpenStop, JobMoves, Accepted, JobsEvolve;
    var d0 := Taken(db, j, rep);
    var a := db.jobs[j].alloc;
    TakenRooted(db, j, rep);
    hide Rooted;
    AcceptedMoves(db, site, call, j, rep);
    if d.jobs == d0.jobs {
      OneJob(db, site, call, d, j);
    } else {
      CreateIsNoStop(db.jobs, j, Reported(db.jobs[j], rep), a);
      ReportStop(db, site, d0, d, a, stop);
      JobAndStop(db, site, call, d, j, Reported(db.jobs[j], rep), stop);
    }
  }

  lemma ReportStop(db: Db, site: Site, d0: Db, d: Db, a: Id, stop: Id)
    requires a in db.allocations && a in d0.allocations && d0.allocations[a].create in d0.jobs
    requires !Terminal(db.allocations[a].state) && !OpenStop(db.jobs, a)
    requires a in d.allocations && SameAllocation(d.allocations[a], d0.allocations[a])
    requires d.jobs == d0.jobs[stop := NewStopJob(d0, a, site.now)] && stop !in d0.jobs
    requires d0.jobs[d0.allocations[a].create].instance != ""
    ensures NewJob(db, d, stop)
  {
    hide OpenStop;
  }

  lemma JobAndStop(db: Db, site: Site, call: Call, d: Db, j: Id, job: Job, stop: Id)
    requires j in db.jobs && stop !in db.jobs && stop in d.jobs && d.jobs == db.jobs[j := job][stop := d.jobs[stop]]
    requires JobMoves(db, site, call, j, job) && NewJob(db, d, stop)
    ensures JobsEvolve(db, site, call, d)
  {
    hide NewJob, JobMoves;
  }

  lemma ReportAllocations(db: Db, site: Site, call: Call, j: Id, rep: Report, d: Db, stop: Id)
    requires Rooted(db) && Accepted(db, call, j, rep)
    requires db.jobs[j].alloc in db.allocations && db.allocations[db.jobs[j].alloc].create in Taken(db, j, rep).jobs
    requires ReportRows(Taken(db, j, rep), site, d, db.jobs[j].alloc, db.jobs[j].kind, rep.state,
                        Merge(db.jobs[j].instance, rep.instance), rep.errorCode, stop)
    ensures AllocationsEvolve(db, site, call, d)
  {
    hide OwnerOnly, OpenStop, ValidReport, ReportAllowed, StartAllowed;
    var d0 := Taken(db, j, rep);
    var a := db.jobs[j].alloc;
    TakenRooted(db, j, rep);
    hide Rooted;
    if d.allocations == db.allocations {
      SameAllocations(db, site, call, d);
    } else {
      OneAllocation(db, site, call, d, a);
    }
  }

  lemma AppliedEvolves(db: Db, site: Site, call: Call, j: Id, rep: Report, d: Db, stop: Id, next: Id)
    requires Inv(db) && Accepted(db, call, j, rep) && j in db.jobs
    requires var job, d0 := db.jobs[j], Taken(db, j, rep);
             && job.alloc in d0.allocations && d0.allocations[job.alloc].create in d0.jobs
             && ApplyReport(d0, site, job.alloc, job.kind, rep.state, Merge(job.instance, rep.instance), rep.errorCode,
                            rep.join, rep.joinError, stop, next) == Committed(d)
    ensures Evolves(db, site, call, d)
  {
    hide Coupled, JobsEvolve, AllocationsEvolve, RequestsEvolve, ApplyReport, ReportRows, Accepted;
    var job, d0 := db.jobs[j], Taken(db, j, rep);
    TakenRooted(db, j, rep);
    hide Rooted;
    ApplyReportRows(d0, site, job.alloc, job.kind, rep.state, Merge(job.instance, rep.instance), rep.errorCode, rep.join, rep.joinError, stop, next);
    ReportJobs(db, site, call, j, rep, d, stop);
    ReportAllocations(db, site, call, j, rep, d, stop);
    ReportRequests(db, site, d0, d, job.alloc, job.kind, rep.state, Merge(job.instance, rep.instance), rep.errorCode, rep.join, rep.joinError, stop, next);
  }

  lemma AcceptedEvolves(db: Db, site: Site, call: Call, node: Id, j: Id, rep: Report, stop: Id, next: Id)
    requires Inv(db) && Accepted(db, call, j, rep) && db.jobs[j].node == node
    ensures var res := ReportJob(db, site, node, j, rep, stop, next);
            res.Committed? ==> Evolves(db, site, call, res.db)
  {
    hide Inv, Evolves, ApplyReport, StartAllowed, ValidReport, ReportAllowed, Repeats;
    Nothing(db, site, call);
    var res := ReportJob(db, site, node, j, rep, stop, next);
    if res.Committed? && res.db != db { AppliedEvolves(db, site, call, j, rep, res.db, stop, next); }
  }

  lemma ReportRequests(db: Db, site: Site, d0: Db, d: Db, a: Id, kind: JobKind, state: JobState, instance: Token, errorCode: string,
                       join: Option<JoinInfo>, joinError: string, stop: Id, next: Id)
    requires Inv(db) && a in db.allocations && a in d0.allocations && d0.allocations[a].create in d0.jobs
    requires d0.requests == db.requests && SameAllocation(d0.allocations[a], db.allocations[a])
    requires d0.allocations[a].state == db.allocations[a].state && d0.frozen == db.frozen
    requires ApplyReport(d0, site, a, kind, state, instance, errorCode, join, joinError, stop, next) == Committed(d)
    ensures RequestsEvolve(db, d) && d.frozen == db.frozen
  {
    hide Coupled, Rooted, OwnerOnly, MayStop, OneMoves, RequestsEvolve, Settle, AutoStop, ConsumeFor;
    ApplyReportRows(d0, site, a, kind, state, instance, errorCode, join, joinError, stop, next);
    if Terminal(db.allocations[a].state) {
      SameRequests(db, d);
    } else {
      OwnerEvolves(db, d, a);
    }
  }

  lemma ReportEvolves(db: Db, site: Site, node: Id, j: Id, rep: Report, stop: Id, next: Id)
    requires Inv(db)
    ensures var call := CReport(node, j, rep, stop, next); Evolves(db, site, call, Apply(db, site, call))
  {
    hide Inv, Evolves, ValidReport, ReportAllowed;
    var call := CReport(node, j, rep, stop, next);
    Nothing(db, site, call);
    if Accepted(db, call, j, rep) && db.jobs[j].node == node { AcceptedEvolves(db, site, call, node, j, rep, stop, next); }
  }

  lemma BeginEvolves(db: Db, site: Site, node: Id, j: Id, start: Start, stop: Id, next: Id)
    requires Inv(db)
    ensures var call := CBegin(node, j, start, stop, next); Evolves(db, site, call, Apply(db, site, call))
  {
    hide Inv, Evolves, ValidReport, ReportAllowed, ApplyReport;
    var call := CBegin(node, j, start, stop, next);
    Nothing(db, site, call);
    if Accepted(db, call, j, STARTED) && db.jobs[j].node == node { AcceptedEvolves(db, site, call, node, j, STARTED, stop, next); }
  }

  // ---- Instance facts ----

  lemma IsolateRows(db: Db, a: Id)
    requires a in db.allocations
    ensures var d := Isolate(db, a);
            && d == db.(allocations := d.allocations, requests := d.requests, intents := d.intents, runs := d.runs)
            && OneMoves(db.allocations, d.allocations, a, AQuarantined)
            && OwnerOnly(db.requests, d.requests, db.allocations[a].purpose)
  {
    hide OwnerAdvanced, OwnerOnly, Paused, RunsAfterFact;
    OwnerOnlySelf(db.requests);
    OwnerOnlySteps(db.requests, db.requests, db.allocations[a].purpose, RQuarantined);
  }

  lemma IsolateEvolves(db: Db, site: Site, call: Call, a: Id)
    requires Inv(db) && a in db.allocations && !Terminal(db.allocations[a].state)
    ensures Evolves(db, site, call, Isolate(db, a))
  {
    hide Isolate, JobsEvolve, AllocationsEvolve, RequestsEvolve, OwnerOnly, Coupled, Rooted;
    IsolateRows(db, a);
    SameJobs(db, site, call, Isolate(db, a));
    OneAllocation(db, site, call, Isolate(db, a), a);
    OwnerEvolves(db, Isolate(db, a), a);
  }

  // What the resource part of a fact leaves of the tables.
  ghost predicate FactRows(db: Db, site: Site, d: Db, a: Id, f: Fact, stop: Id)
    requires a in db.allocations && db.allocations[a].create in db.jobs
  {
    && d == db.(requests := d.requests, intents := d.intents, runs := d.runs, allocations := d.allocations, jobs := d.jobs)
    && OwnerOnly(db.requests, d.requests, db.allocations[a].purpose)
    && MayStop(db, site, d.jobs, a, stop)
    && a in d.allocations && OneMoves(db.allocations, d.allocations, a, d.allocations[a].state)
    && (d.allocations[a].state != db.allocations[a].state ==>
          && !d.allocations[a].state.AReserved? && !d.allocations[a].state.AReleasedNoEffect?
          && (d.allocations[a].state.AReclaimed? ==> f.outcome.Gone?))
  }

  lemma GoneRows(db: Db, site: Site, a: Id, f: Fact, stop: Id, next: Id)
    requires a in db.allocations && db.allocations[a].create in db.jobs && f.outcome.Gone?
    ensures var res := FactMove(db, site, a, f, JoinPort(db.allocations[a]), stop, next);
            res.Committed? ==> FactRows(db, site, res.db, a, f, stop)
  {
    hide OpenStop, Consume, OwnerOnly, MayStop, Advanced, PausedIntent, NextRequest;
    var p := db.allocations[a].purpose;
    MayStopSelf(db, site, a, stop);
    OwnerOnlySelf(db.requests);
    var d := Reclaim(db, a);
    if p.ForRequest? {
      OwnerOnlySteps(db.requests, db.requests, p, REnded);
      OwnerAdvancedIs(db.requests, p.request, REnded);
      if p.request in d.requests {
        ConsumeTables(d, site, p.request, false, next);
        if next !in d.requests { OwnerOnlyAdds(db.requests, d.requests, p, next, NextRequest(d.requests[p.request], site.now)); }
      }
    }
  }

  lemma FactMoveRows(db: Db, site: Site, a: Id, f: Fact, joinPort: int, stop: Id, next: Id)
    requires a in db.allocations && db.allocations[a].create in db.jobs
    ensures var res := FactMove(db, site, a, f, joinPort, stop, next);
            res.Committed? ==> FactRows(db, site, res.db, a, f, stop)
  {
    hide OpenStop, OwnerOnly, MayStop, ApplyReport, Isolate, ConsumeFor, AutoStops;
    MayStopSelf(db, site, a, stop);
    OwnerOnlySelf(db.requests);
    if f.outcome.Gone? {
      GoneRows(db, site, a, f, stop, next);
    } else if FailedInstance(f, db.allocations[a].state) {
      ApplyReportRows(db, site, a, Create, JFailedWithEffect, f.instance, "INSTANCE_FAILED", None, "", stop, next);
    } else {
      IsolateRows(db, a);
    }
  }

  lemma FactRowsEvolve(db: Db, site: Site, call: Call, d0: Db, d: Db, a: Id, al: Allocation, f: Fact, stop: Id)
    requires Inv(db) && call.CFact? && call.a == a && call.fact == f
    requires a in db.allocations && !Terminal(db.allocations[a].state) && db.allocations[a].create in db.jobs
    requires f.instance != "" && db.jobs[db.allocations[a].create].instance == f.instance
    requires SameAllocation(al, db.allocations[a]) && al.state == db.allocations[a].state
    requires d0 == db.(allocations := db.allocations[a := al])
    requires FactRows(d0, site, d, a, f, stop)
    ensures Evolves(db, site, call, d)
  {
    hide JobsEvolve, AllocationsEvolve, RequestsEvolve, OwnerOnly, Coupled, Rooted, OpenStop;
    OneAllocation(db, site, call, d, a);
    OwnerEvolves(db, d, a);
    if d.jobs == db.jobs {
      SameJobs(db, site, call, d);
    } else {
      ReportStop(db, site, d0, d, a, stop);
      OneNewJob(db, site, call, d, stop);
    }
  }

  lemma FactEvolves(db: Db, site: Site, node: Id, a: Id, f: Fact, stop: Id, next: Id)
    requires Inv(db)
    ensures var call := CFact(node, a, f, stop, next); Evolves(db, site, call, Apply(db, site, call))
  {
    hide Inv, Evolves, FactMove, RunsAfterFact, FactJoin, FactRows;
    var call := CFact(node, a, f, stop, next);
    Nothing(db, site, call);
    var res := InstanceFact(db, site, node, a, f, stop, next);
    if res.Committed? && !Terminal(db.allocations[a].state) {
      var al := db.allocations[a];
      var d0 := db.(allocations := db.allocations[a := FactJoin(al, f)]);
      FactJoinSame(al, f);
      FactMoveRows(d0, site, a, f, JoinPort(al), stop, next);
      var moved := FactMove(d0, site, a, f, JoinPort(al), stop, next);
      FactRowsEvolve(db, site, call, d0, moved.db, a, FactJoin(al, f), f, stop);
      RunsEvolve(db, site, call, moved.db, res.db.runs);
    }
  }

  // The validation runs are not among the rows that evolve.
  lemma RunsEvolve(db: Db, site: Site, call: Call, d: Db, runs: map<Id, Run>)
    requires Evolves(db, site, call, d)
    ensures Evolves(db, site, call, d.(runs := runs))
  {
    hide JobMoves, RequestsEvolve, FrozenEvolve, JobsEvolve, AllocationsEvolve;
    var e := d.(runs := runs);
    SameRowsEvolve(db, site, call, d, e);
  }

  lemma SameRowsEvolve(db: Db, site: Site, call: Call, d: Db, e: Db)
    requires d.jobs == e.jobs && d.allocations == e.allocations && d.requests == e.requests && d.frozen == e.frozen
    ensures JobsEvolve(db, site, call, d) ==> JobsEvolve(db, site, call, e)
    ensures AllocationsEvolve(db, site, call, d) ==> AllocationsEvolve(db, site, call, e)
    ensures RequestsEvolve(db, d) ==> RequestsEvolve(db, e)
    ensures FrozenEvolve(db, site, call, d) ==> FrozenEvolve(db, site, call, e)
  {
    hide JobsEvolve, AllocationsEvolve, RequestsEvolve;
    if JobsEvolve(db, site, call, d) { SameJobsEvolve(db, site, call, d, e); }
    if AllocationsEvolve(db, site, call, d) { SameAllocationsEvolve(db, site, call, d, e); }
    if RequestsEvolve(db, d) { SameRequestsEvolve(db, d, e); }
  }

  lemma SameJobsEvolve(db: Db, site: Site, call: Call, d: Db, e: Db)
    requires d.jobs == e.jobs && d.allocations == e.allocations && JobsEvolve(db, site, call, d)
    ensures JobsEvolve(db, site, call, e)
  {
    hide JobStep, NewJob;
    forall j | j in db.jobs
      ensures JobStep(db, site, call, e, j)
    {
      StepStays(db, site, call, d, j);
      SameJobRow(db, site, call, d, e, j);
    }
    forall j | j in e.jobs && j !in db.jobs
      ensures NewJob(db, e, j)
    {
      SameJobRow(db, site, call, d, e, j);
    }
  }

  lemma SameRequestsEvolve(db: Db, d: Db, e: Db)
    requires d.requests == e.requests && RequestsEvolve(db, d)
    ensures RequestsEvolve(db, e)
  {
    hide RequestStep;
    forall r | r in db.requests
      ensures RequestStep(db, e, r)
    {
      SameRequestRow(db, d, e, r);
    }
  }

  lemma SameAllocationsEvolve(db: Db, site: Site, call: Call, d: Db, e: Db)
    requires d.jobs == e.jobs && d.allocations == e.allocations && AllocationsEvolve(db, site, call, d)
    ensures AllocationsEvolve(db, site, call, e)
  {
    hide AllocationStep, NewAllocation;
    forall a | a in db.allocations
      ensures AllocationStep(db, call, e, a)
    {
      SameAllocationRow(db, call, d, e, a);
    }
    forall a | a in d.allocations && a !in db.allocations
      ensures NewAllocation(db, site, call, e, a)
    {
      SameNewAllocation(db, site, call, d, e, a);
    }
  }

  lemma StepStays(db: Db, site: Site, call: Call, d: Db, j: Id)
    requires j in db.jobs && JobStep(db, site, call, d, j)
    ensures j in d.jobs
  {
  }

  lemma SameJobRow(db: Db, site: Site, call: Call, d: Db, e: Db, j: Id)
    requires d.jobs == e.jobs && d.allocations == e.allocations && j in d.jobs
    ensures NewJob(db, d, j) ==> NewJob(db, e, j)
    ensures j in db.jobs && JobStep(db, site, call, d, j) ==> JobStep(db, site, call, e, j)
  {
    hide JobMoves;
  }

  lemma SameAllocationRow(db: Db, call: Call, d: Db, e: Db, a: Id)
    requires d.jobs == e.jobs && d.allocations == e.allocations && a in db.allocations
    ensures AllocationStep(db, call, d, a) ==> AllocationStep(db, call, e, a)
  {
  }

  lemma SameNewAllocation(db: Db, site: Site, call: Call, d: Db, e: Db, a: Id)
    requires d.jobs == e.jobs && d.allocations == e.allocations && a in d.allocations
    ensures NewAllocation(db, site, call, d, a) ==> NewAllocation(db, site, call, e, a)
  {
    hide Placeable, Reservable, NewCreateJob, ExpectedOf;
  }

  lemma SameRequestRow(db: Db, d: Db, e: Db, r: Id)
    requires d.requests == e.requests && r in db.requests
    ensures RequestStep(db, d, r) ==> RequestStep(db, e, r)
  {
  }

  // ---- The other calls ----

  // A call that writes one request only.
  lemma RequestEvolves(db: Db, site: Site, call: Call, d: Db, r: Id)
    requires d == db.(requests := d.requests) && r in d.requests && d.requests == db.requests[r := d.requests[r]]
    requires r in db.requests ==> RequestStep(db, d, r)
    ensures Evolves(db, site, call, d)
  {
    hide JobsEvolve, AllocationsEvolve, RequestsEvolve, RequestStep;
    SameJobs(db, site, call, d);
    SameAllocations(db, site, call, d);
    OneRequest(db, d, r);
  }

  lemma NewRequestEvolves(db: Db, site: Site, call: Call, user: Id, game: Id, preset: Id, mode: Mode, id: Id)
    ensures var res := NewRequest(db, site, user, game, preset, mode, id); res.Committed? ==> Evolves(db, site, call, res.db)
  {
    hide Evolves, Busy, FreshCheck, Acting;
    Nothing(db, site, call);
    var res := NewRequest(db, site, user, game, preset, mode, id);
    if res.Committed? && res.db != db { RequestEvolves(db, site, call, res.db, id); }
  }

  lemma CancelEvolves(db: Db, site: Site, call: Call, r: Id)
    ensures var res := CancelWaiting(db, r); res.Committed? ==> Evolves(db, site, call, res.db)
  {
    hide Evolves, Attempts;
    var res := CancelWaiting(db, r);
    if res.Committed? { RequestEvolves(db, site, call, res.db, r); }
  }

  lemma CloseEvolves(db: Db, site: Site, call: Call, r: Id)
    ensures var res := CloseWaiting(db, site, r); res.Committed? ==> Evolves(db, site, call, res.db)
  {
    hide Evolves, Closable;
    var res := CloseWaiting(db, site, r);
    if res.Committed? {
      ClosableWaits(db, site, r);
      RequestEvolves(db, site, call, res.db, r);
    }
  }

  lemma RequestCallsEvolve(db: Db, site: Site, call: Call)
    requires call.CNewRequest? || call.CUserCancel? || call.CAdminCancel? || call.CClose?
    ensures Evolves(db, site, call, Apply(db, site, call))
  {
    hide Evolves, NewRequest, CancelWaiting, CloseWaiting, Acting;
    Nothing(db, site, call);
    match call
    case CNewRequest(user, game, preset, mode, id) => NewRequestEvolves(db, site, call, user, game, preset, mode, id);
    case CUserCancel(_, r) => CancelEvolves(db, site, call, r);
    case CAdminCancel(r) => CancelEvolves(db, site, call, r);
    case CClose(r) => CloseEvolves(db, site, call, r);
  }

  lemma PlaceableBound(db: Db, site: Site, r: Id, n: Id)
    requires Placeable(db, site, r, n)
    ensures (n, site.presets[db.requests[r].preset].revision) in site.facts.bindings
  {
  }

  lemma PlaceEvolves(db: Db, site: Site, r: Id, n: Id, a: Id, j: Id)
    ensures var call := CPlace(r, n, a, j); Evolves(db, site, call, Apply(db, site, call))
  {
    hide Evolves, Place;
    Nothing(db, site, CPlace(r, n, a, j));
    var res := Place(db, site, r, n, a, j);
    if res.Committed? { PlacedEvolves(db, site, r, n, a, j, res.db); }
  }

  lemma PlacedEvolves(db: Db, site: Site, r: Id, n: Id, a: Id, j: Id, d: Db)
    requires Place(db, site, r, n, a, j) == Committed(d)
    ensures Evolves(db, site, CPlace(r, n, a, j), d)
  {
    hide JobsEvolve, AllocationsEvolve, RequestsEvolve, Accepts, MaxAttempt, Disabled, Admitted, ExpectedOf, Offered;
    var call := CPlace(r, n, a, j);
    PlaceableBound(db, site, r, n);
    OneNewJob(db, site, call, d, j);
    OneNewAllocation(db, site, call, d, a, d.allocations[a]);
    OneRequest(db, d, r);
  }

  lemma ClaimEvolves(db: Db, site: Site, node: Id, j: Id, independent: bool, cap: Capability)
    ensures var call := CClaim(node, j, independent, cap); Evolves(db, site, call, Apply(db, site, call))
  {
    hide JobsEvolve, AllocationsEvolve, RequestsEvolve, Claimable;
    var call := CClaim(node, j, independent, cap);
    Nothing(db, site, call);
    var res := Claim(db, site, node, j, independent, cap);
    if res.Committed? {
      ClaimableJob(db, site, node, j, independent, cap);
      OneJob(db, site, call, res.db, j);
      SameAllocations(db, site, call, res.db);
      SameRequests(db, res.db);
    }
  }

  lemma ClaimableJob(db: Db, site: Site, node: Id, j: Id, independent: bool, cap: Capability)
    requires Claimable(db, site, node, j, independent, cap)
    ensures j in db.jobs
  {
  }

  lemma StartRows(db: Db, a: Id)
    ensures var d := StartCreating(db, a);
            && d == db.(allocations := d.allocations, requests := d.requests, runs := d.runs)
            && (a in db.allocations ==>
                  && a in d.allocations
                  && OneMoves(db.allocations, d.allocations, a, d.allocations[a].state)
                  && (d.allocations[a].state == db.allocations[a].state
                      || (d.allocations[a].state.ACreating? && !Terminal(db.allocations[a].state)))
                  && (forall r :: db.allocations[a].purpose == ForRequest(r) && r in db.requests ==>
                        r in d.requests && d.requests == db.requests[r := d.requests[r]] && SameRequest(d.requests[r], db.requests[r])
                        && (d.requests[r].state != db.requests[r].state ==> db.requests[r].state.RAllocating?)))
            && (a !in db.allocations || db.allocations[a].purpose.ForRun? ==> d.requests == db.requests)
  {
  }

  lemma PrepareEvolves(db: Db, site: Site, node: Id, j: Id, template: string, port: int, algorithm: string, sha: string)
    requires Inv(db)
    ensures var call := CPrepare(node, j, template, port, algorithm, sha); Evolves(db, site, call, Apply(db, site, call))
  {
    hide Inv, Evolves, Prepare;
    Nothing(db, site, CPrepare(node, j, template, port, algorithm, sha));
    var res := Prepare(db, site, node, j, template, port, algorithm, sha);
    if res.Committed? { PreparedEvolves(db, site, node, j, template, port, algorithm, sha, res.db); }
  }

  lemma PreparedEvolves(db: Db, site: Site, node: Id, j: Id, template: string, port: int, algorithm: string, sha: string, d: Db)
    requires Inv(db) && Prepare(db, site, node, j, template, port, algorithm, sha) == Committed(d)
    ensures Evolves(db, site, CPrepare(node, j, template, port, algorithm, sha), d)
  {
    hide Coupled, JobsEvolve, AllocationsEvolve, RequestsEvolve, StartCreating, Rooted, Reclaims, FrozenEvolve;
    var call := CPrepare(node, j, template, port, algorithm, sha);
    var a := db.jobs[j].alloc;
    JobRooted(db, j);
    InvAllocation(db, a);
    var f := db.(frozen := FrozenOnce(db.frozen, j, Frozen(template, port, db.jobs[j].capability, algorithm, sha), site.now));
    StartRows(f, a);
    SameJobs(db, site, call, d);
    OneAllocation(db, site, call, d, a);
    var p := db.allocations[a].purpose;
    if p.ForRequest? { OneRequest(db, d, p.request); } else { SameRequests(db, d); }
    PreparedFrozen(db, site, node, j, template, port, algorithm, sha, d);
  }

  lemma PreparedFrozen(db: Db, site: Site, node: Id, j: Id, template: string, port: int, algorithm: string, sha: string, d: Db)
    requires Prepare(db, site, node, j, template, port, algorithm, sha) == Committed(d)
    ensures FrozenEvolve(db, site, CPrepare(node, j, template, port, algorithm, sha), d)
  {
  }

  // A stop queued by an operator, with or without moving the allocation and its request.
  lemma QueuedEvolves(db: Db, site: Site, call: Call, d: Db, a: Id, stop: Id, r: Option<Id>)
    requires Rooted(db) && a in db.allocations && !Terminal(db.allocations[a].state)
    requires db.allocations[a].create in db.jobs && db.jobs[db.allocations[a].create].instance != ""
    requires stop !in db.jobs && !OpenStop(db.jobs, a) && d.jobs == db.jobs[stop := NewStopJob(db, a, site.now)]
    requires d.allocations == db.allocations || d.allocations == Moved(db.allocations, a, AStopping)
    requires d.frozen == db.frozen
    requires if r.Some? then r.value in db.requests && !Final(db.requests[r.value].state) && d.requests == Advanced(db.requests, r.value, RStopping)
             else d.requests == db.requests
    ensures Evolves(db, site, call, d)
  {
    hide JobsEvolve, AllocationsEvolve, RequestsEvolve, OpenStop, Rooted;
    ReportStop(db, site, db, d, a, stop);
    OneNewJob(db, site, call, d, stop);
    if d.allocations == db.allocations { SameAllocations(db, site, call, d); } else { OneAllocation(db, site, call, d, a); }
    if r.Some? { OneRequest(db, d, r.value); } else { SameRequests(db, d); }
  }

  lemma UserStopEvolves(db: Db, site: Site, user: Id, r: Id, nextGame: bool, stop: Id)
    requires Inv(db)
    ensures var call := CUserStop(user, r, nextGame, stop); Evolves(db, site, call, Apply(db, site, call))
  {
    hide Coupled, Evolves, Rooted, OpenStop, NewStopJob, Moved, Advanced;
    var call := CUserStop(user, r, nextGame, stop);
    Nothing(db, site, call);
    var res := UserStop(db, site, user, r, nextGame, stop);
    if res.Committed? && r in db.requests && db.requests[r].state.RRunning? {
      QueuedEvolves(db, site, call, res.db, OpenOf(db, r), stop, Some(r));
    }
  }

  lemma AdminStopEvolves(db: Db, site: Site, r: Id, stop: Id)
    requires Inv(db)
    ensures var call := CAdminStop(r, stop); Evolves(db, site, call, Apply(db, site, call))
  {
    hide Coupled, Evolves, Rooted, OpenStop, NewStopJob, Moved, Advanced;
    var call := CAdminStop(r, stop);
    Nothing(db, site, call);
    var res := AdminStop(db, site, r, stop);
    if res.Committed? {
      QueuedEvolves(db, site, call, res.db, OpenOf(db, r), stop, if db.requests[r].state.RRunning? then Some(r) else None);
    }
  }

  lemma TerminateEvolves(db: Db, site: Site, a: Id)
    requires Inv(db)
    ensures var call := CTerminatePending(a); Evolves(db, site, call, Apply(db, site, call))
  {
    hide Inv, Evolves, TerminatePending;
    Nothing(db, site, CTerminatePending(a));
    var res := TerminatePending(db, a);
    if res.Committed? && res.db != db { TerminatedEvolves(db, site, a, res.db); }
  }

  lemma TerminatedEvolves(db: Db, site: Site, a: Id, d: Db)
    requires Inv(db) && TerminatePending(db, a) == Committed(d) && d != db
    ensures Evolves(db, site, CTerminatePending(a), d)
  {
    hide Coupled, JobsEvolve, AllocationsEvolve, RequestsEvolve, FrozenEvolve, Rooted, TerminatePending;
    TerminatedJob(db, site, a, d);
    TerminatedAllocation(db, site, a, d);
    TerminatedOwner(db, site, a, d);
  }

  lemma TerminatedJob(db: Db, site: Site, a: Id, d: Db)
    requires Rooted(db) && TerminatePending(db, a) == Committed(d) && d != db
    ensures JobsEvolve(db, site, CTerminatePending(a), d)
  {
    JobOfAllocation(db, a);
    hide Rooted, JobsEvolve, RunsAfterJob, Claimable, ReportAllowed, ValidReport, StartAllowed;
    OneJob(db, site, CTerminatePending(a), d, db.allocations[a].create);
  }

  lemma TerminatedAllocation(db: Db, site: Site, a: Id, d: Db)
    requires TerminatePending(db, a) == Committed(d) && d != db
    ensures AllocationsEvolve(db, site, CTerminatePending(a), d)
  {
    hide AllocationsEvolve, RunsAfterJob, Untouched, Reclaims;
    OneAllocation(db, site, CTerminatePending(a), d, a);
  }

  lemma TerminatedOwner(db: Db, site: Site, a: Id, d: Db)
    requires Inv(db) && TerminatePending(db, a) == Committed(d) && d != db
    ensures RequestsEvolve(db, d) && FrozenEvolve(db, site, CTerminatePending(a), d)
  {
    hide Coupled, RequestsEvolve, RunsAfterJob, Rooted, Untouched;
    InvAllocation(db, a);
    var p := db.allocations[a].purpose;
    if p.ForRequest? {
      OpenFacts(db, p.request, a);
      OneRequest(db, d, p.request);
    } else {
      SameRequests(db, d);
    }
  }

  lemma AbandonEvolves(db: Db, site: Site, user: Id, r: Id, next: Id)
    ensures var call := CAbandon(user, r, next); Evolves(db, site, call, Apply(db, site, call))
  {
    hide Evolves, Abandon;
    Nothing(db, site, CAbandon(user, r, next));
    var res := Abandon(db, site, user, r, next);
    if res.Committed? && res.db != db { AbandonedEvolves(db, site, user, r, next, res.db); }
  }

  lemma AbandonedEvolves(db: Db, site: Site, user: Id, r: Id, next: Id, d: Db)
    requires Abandon(db, site, user, r, next) == Committed(d) && d != db
    ensures Evolves(db, site, CAbandon(user, r, next), d)
  {
    hide JobsEvolve, AllocationsEvolve, LatestAttempt, PausedIntent, Consume, NextRequest, Acting;
    ConsumeTables(SetRequest(db, r, RAbandoned), site, r, true, next);
    SameJobs(db, site, CAbandon(user, r, next), d);
    SameAllocations(db, site, CAbandon(user, r, next), d);
  }

  lemma ReserveEvolves(db: Db, site: Site, q: RunRequest, v: Id, a: Id, j: Id)
    ensures var call := CReserveRun(q, v, a, j); Evolves(db, site, call, Apply(db, site, call))
  {
    hide Evolves, ReserveRun;
    Nothing(db, site, CReserveRun(q, v, a, j));
    var res := ReserveRun(db, site, q, v, a, j);
    if res.Committed? { ReservedEvolves(db, site, q, v, a, j, res.db); }
  }

  lemma ReservedEvolves(db: Db, site: Site, q: RunRequest, v: Id, a: Id, j: Id, d: Db)
    requires ReserveRun(db, site, q, v, a, j) == Committed(d)
    ensures Evolves(db, site, CReserveRun(q, v, a, j), d)
  {
    hide JobsEvolve, AllocationsEvolve, RequestsEvolve, CandidateOf, Quiet;
    var call := CReserveRun(q, v, a, j);
    OneNewJob(db, site, call, d, j);
    OneNewAllocation(db, site, call, d, a, d.allocations[a]);
    SameRequests(db, d);
  }

  lemma ConfirmEvolves(db: Db, site: Site, call: Call, v: Id, pass: bool, expected: Option<RunState>, stop: Id)
    requires Inv(db)
    ensures var res := ConfirmHuman(db, site, v, pass, expected, stop); res.Committed? ==> Evolves(db, site, call, res.db)
  {
    hide Coupled, Evolves, Rooted, OpenStop, NewStopJob, Moved, CurrentJoin;
    var res := ConfirmHuman(db, site, v, pass, expected, stop);
    if res.Committed? { QueuedEvolves(db, site, call, res.db, db.runs[v].alloc, stop, None); }
  }

  lemma StopRunEvolves(db: Db, site: Site, call: Call, v: Id, was: RunState, stop: Id)
    requires Inv(db)
    ensures var res := StopRun(db, site, v, was, stop); res.Committed? ==> Evolves(db, site, call, res.db)
  {
    hide Coupled, Evolves, Rooted, OpenStop, NewStopJob, Moved;
    var res := StopRun(db, site, v, was, stop);
    if res.Committed? { QueuedEvolves(db, site, call, res.db, db.runs[v].alloc, stop, None); }
  }

  lemma RunStopEvolves(db: Db, site: Site, call: Call)
    requires Inv(db) && (call.CConfirmHuman? || call.CStopRun?)
    ensures Evolves(db, site, call, Apply(db, site, call))
  {
    hide Inv, Evolves, ConfirmHuman, StopRun;
    Nothing(db, site, call);
    match call
    case CConfirmHuman(v, pass, expected, stop) => ConfirmEvolves(db, site, call, v, pass, expected, stop);
    case CStopRun(v, was, stop) => StopRunEvolves(db, site, call, v, was, stop);
  }

  lemma FinalizeEvolves(db: Db, site: Site, call: Call)
    requires call.CFinalizeRun? || call.CFinalizeFailure?
    ensures Evolves(db, site, call, Apply(db, site, call))
  {
    hide Evolves, Conclusive;
    Nothing(db, site, call);
    var d := Apply(db, site, call);
    assert d == db.(runs := d.runs);
    RunsEvolve(db, site, call, db, d.runs);
  }

  lemma PartyCallsEvolve(db: Db, site: Site, call: Call)
    requires call.CCreateParty? || call.CResetInvite? || call.CJoinParty? || call.CLeaveParty? || call.CRemoveMember? || call.CDisbandParty?
    ensures Evolves(db, site, call, Apply(db, site, call))
  {
    hide JobsEvolve, AllocationsEvolve, RequestsEvolve, Apply;
    var d := Apply(db, site, call);
    PartyCallTables(db, site, call);
    SameJobs(db, site, call, d);
    SameAllocations(db, site, call, d);
    SameRequests(db, d);
  }

  // A committed operation start has found the job's own frozen request, and leaves the job unknown.
  lemma BeginLeaves(db: Db, site: Site, node: Id, j: Id, start: Start, stop: Id, next: Id)
    requires start.StartCreate?
    ensures var res := Begin(db, site, node, j, start, stop, next);
            res.Committed? ==>
              && j in res.db.jobs && res.db.jobs[j].kind.Create? && res.db.jobs[j].capability.ContentValidationV102?
              && res.db.jobs[j].state.JUnknown?
              && j in res.db.frozen && res.db.frozen[j].request == start.frozen && res.db.frozen == db.frozen
  {
    hide ApplyReport, ReportAllowed, ValidReport, OwnerOnly, OneMoves, AutoStops, OpenStop, NewStopJob;
    var res := Begin(db, site, node, j, start, stop, next);
    if res.Committed? && !db.jobs[j].state.JUnknown? {
      var job := db.jobs[j];
      var d0 := Taken(db, j, STARTED);
      ApplyReportRows(d0, site, job.alloc, job.kind, JUnknown, Merge(job.instance, ""), "", None, "", stop, next);
    }
  }

  // Every call, whatever it answers.
  lemma CallEvolves(db: Db, site: Site, call: Call)
    requires Inv(db)
    ensures Evolves(db, site, call, Apply(db, site, call))
  {
    hide Inv, Evolves, Perform, Isolate;
    match call
    case CNewRequest(_, _, _, _, _) => RequestCallsEvolve(db, site, call);
    case CUserCancel(_, _) => RequestCallsEvolve(db, site, call);
    case CAdminCancel(_) => RequestCallsEvolve(db, site, call);
    case CPlace(r, n, a, j) => PlaceEvolves(db, site, r, n, a, j);
    case CClose(_) => RequestCallsEvolve(db, site, call);
    case CClaim(node, j, independent, cap) => ClaimEvolves(db, site, node, j, independent, cap);
    case CPrepare(node, j, template, port, algorithm, sha) => PrepareEvolves(db, site, node, j, template, port, algorithm, sha);
    case CBegin(node, j, start, stop, next) => BeginEvolves(db, site, node, j, start, stop, next);
    case CReport(node, j, rep, stop, next) => ReportEvolves(db, site, node, j, rep, stop, next);
    case CFact(node, a, fact, stop, next) => FactEvolves(db, site, node, a, fact, stop, next);
    case CUserStop(user, r, nextGame, stop) => UserStopEvolves(db, site, user, r, nextGame, stop);
    case CAdminStop(r, stop) => AdminStopEvolves(db, site, r, stop);
    case CTerminatePending(a) => TerminateEvolves(db, site, a);
    case CQuarantine(_) => QuarantineEvolves(db, site, call);
    case CQuarantineSilent(_) => QuarantineEvolves(db, site, call);
    case CAbandon(user, r, next) => AbandonEvolves(db, site, user, r, next);
    case CCreateParty(_, _, _) => PartyCallsEvolve(db, site, call);
    case CResetInvite(_, _) => PartyCallsEvolve(db, site, call);
    case CJoinParty(_, _) => PartyCallsEvolve(db, site, call);
    case CLeaveParty(_) => PartyCallsEvolve(db, site, call);
    case CRemoveMember(_, _) => PartyCallsEvolve(db, site, call);
    case CDisbandParty(_) => PartyCallsEvolve(db, site, call);
    case CReserveRun(q, v, a, j) => ReserveEvolves(db, site, q, v, a, j);
    case CConfirmHuman(_, _, _, _) => RunStopEvolves(db, site, call);
    case CStopRun(_, _, _) => RunStopEvolves(db, site, call);
    case CFinalizeRun(_) => FinalizeEvolves(db, site, call);
    case CFinalizeFailure(_) => FinalizeEvolves(db, site, call);
  }

  lemma QuarantineEvolves(db: Db, site: Site, call: Call)
    requires Inv(db) && (call.CQuarantine? || call.CQuarantineSilent?)
    ensures Evolves(db, site, call, Apply(db, site, call))
  {
    hide Inv, Evolves, Isolate;
    Nothing(db, site, call);
    if call.a in db.allocations && !Terminal(db.allocations[call.a].state) { IsolateEvolves(db, site, call, call.a); }
  }

  // A call about a validation run writes runs, allocations and jobs, and nothing else.
  lemma RunCallTables(db: Db, site: Site, call: Call)
    requires call.CReserveRun? || call.CConfirmHuman? || call.CStopRun? || call.CFinalizeRun? || call.CFinalizeFailure?
    ensures var d := Apply(db, site, call);
            d == db.(runs := d.runs, allocations := d.allocations, jobs := d.jobs)
  {
    hide Conclusive, Reservable, CandidateOf, ConfirmHuman, StopRun;
    if call.CConfirmHuman? || call.CStopRun? { RunStopTables(db, site, call); }
  }

  lemma RunStopTables(db: Db, site: Site, call: Call)
    requires call.CConfirmHuman? || call.CStopRun?
    ensures var d := Apply(db, site, call);
            d == db.(runs := d.runs, allocations := d.allocations, jobs := d.jobs)
  {
    hide QueueStop, Moved, CurrentJoin, OpenStop, NewStopJob;
    if RunRooted(db, call.v) { QueueTables(db, site, db.runs[call.v].alloc, call.stop); }
  }

  lemma QueueTables(db: Db, site: Site, a: Id, stop: Id)
    requires a in db.allocations && db.allocations[a].create in db.jobs
    ensures var res := QueueStop(db, site, a, stop); res.Committed? ==> res.db == db.(jobs := res.db.jobs)
  {
    hide OpenStop, NewStopJob;
  }
}
