/** Every failure that left something running gets its stop, every stop asked for is queued, and an allocation
    that is stopping always has a stop still open. */
module Stops {
  import opened Facts
  import opened Ledger
  import opened Calls
  import opened Coupling
  import opened CouplingSteps
  import opened CouplingRuns
  import opened Evolution
  import opened EvolutionSteps
  import opened Lifecycle
  import opened Exclusion

  // An open stop of allocation a that aims at this instance.
  ghost predicate StopFor(db: Db, a: Id, instance: Token) {
    exists s :: s in db.jobs && db.jobs[s].kind.Stop? && db.jobs[s].alloc == a && OpenJob(db.jobs[s].state) && db.jobs[s].instance == instance
  }

  ghost predicate Stopping(db: Db) {
    forall a :: a in db.allocations && db.allocations[a].state.AStopping? ==> OpenStop(db.jobs, a)
  }

  lemma StopSeen(jobs: map<Id, Job>, a: Id, s: Id)
    requires s in jobs && jobs[s].alloc == a && jobs[s].kind.Stop? && OpenJob(jobs[s].state)
    ensures OpenStop(jobs, a)
  {
  }

  // ---- What keeps a stop open ----

  // Open stops of every allocation but x stay open.
  ghost predicate StopsStay(m: map<Id, Job>, n: map<Id, Job>, x: Option<Id>) {
    forall s :: s in m && m[s].kind.Stop? && OpenJob(m[s].state) && x != Some(m[s].alloc) ==>
      s in n && n[s].kind.Stop? && n[s].alloc == m[s].alloc && OpenJob(n[s].state)
  }

  lemma StopStays(m: map<Id, Job>, n: map<Id, Job>, x: Option<Id>, a: Id)
    requires StopsStay(m, n, x) && OpenStop(m, a) && x != Some(a)
    ensures OpenStop(n, a)
  {
    var s :| s in m && m[s].alloc == a && m[s].kind.Stop? && OpenJob(m[s].state);
    StopSeen(n, a, s);
  }

  // Only allocation x may have started stopping.
  ghost predicate OnlyStops(m: map<Id, Allocation>, n: map<Id, Allocation>, x: Option<Id>) {
    forall a :: a in n && n[a].state.AStopping? && x != Some(a) ==> a in m && m[a].state.AStopping?
  }

  lemma StillStopping(db: Db, d: Db, x: Option<Id>)
    requires Stopping(db) && StopsStay(db.jobs, d.jobs, x) && OnlyStops(db.allocations, d.allocations, x)
    requires x.Some? && x.value in d.allocations && d.allocations[x.value].state.AStopping? ==> OpenStop(d.jobs, x.value)
    ensures Stopping(d)
  {
    hide OpenStop, StopsStay;
    forall a | a in d.allocations && d.allocations[a].state.AStopping?
      ensures OpenStop(d.jobs, a)
    {
      if x != Some(a) { StopStays(db.jobs, d.jobs, x, a); }
    }
  }

  // A call that reports on no job leaves every open stop open.
  lemma UnreportedStops(db: Db, site: Site, call: Call, d: Db)
    requires JobsEvolve(db, site, call, d) && !call.CReport? && !call.CBegin?
    ensures StopsStay(db.jobs, d.jobs, None)
  {
    hide JobMoves;
    forall s | s in db.jobs && db.jobs[s].kind.Stop? && OpenJob(db.jobs[s].state)
      ensures s in d.jobs && d.jobs[s].kind.Stop? && d.jobs[s].alloc == db.jobs[s].alloc && OpenJob(d.jobs[s].state)
    {
      assert JobStep(db, site, call, d, s);
      if d.jobs[s] != db.jobs[s] { StopMoves(db, site, call, s, d.jobs[s]); }
    }
  }

  lemma StopMoves(db: Db, site: Site, call: Call, s: Id, next: Job)
    requires s in db.jobs && db.jobs[s].kind.Stop? && JobMoves(db, site, call, s, next) && !call.CReport? && !call.CBegin?
    ensures next.kind.Stop? && next.alloc == db.jobs[s].alloc && OpenJob(next.state)
  {
    hide Claimable, StartAllowed, ReportAllowed, ValidReport, Untouched;
  }

  // ---- Reports ----

  // A report on job j moves the row of j and may add jobs.
  lemma ReportedStops(db: Db, j: Id, job: Job, n: map<Id, Job>, stop: Id, new_: Job)
    requires j in db.jobs && job.alloc == db.jobs[j].alloc && stop !in db.jobs
    requires n == db.jobs[j := job] || n == db.jobs[j := job][stop := new_]
    ensures StopsStay(db.jobs, n, Some(db.jobs[j].alloc))
  {
  }

  // A move of allocation a, with or without a new job, that leaves a stop of it open wherever it is stopping.
  ghost predicate MovesStopping(db: Db, d: Db, a: Id, stop: Id, held: bool) {
    && OnlyStops(db.allocations, d.allocations, Some(a)) && a in d.allocations
    && (d.jobs == db.jobs || (stop in d.jobs && d.jobs == db.jobs[stop := d.jobs[stop]]))
    && (d.allocations[a].state.AStopping? ==> OpenStop(d.jobs, a) || (held && d.jobs == db.jobs))
  }

  lemma CarriedStops(db: Db, site: Site, a: Id, after: AllocationState, requestAfter: RequestState, kind: JobKind, state: JobState,
                     instance: Token, errorCode: string, join: Option<JoinInfo>, joinError: string, stop: Id, next: Id)
    requires a in db.allocations && db.allocations[a].create in db.jobs && stop !in db.jobs
    requires kind.Create? && state.JSucceeded? ==> after.ARunning?
    ensures var res := Carry(db, site, a, after, requestAfter, kind, state, instance, errorCode, join, joinError, stop, next);
            res.Committed? ==> MovesStopping(db, res.db, a, stop, after.AStopping?)
  {
    hide Consume, OpenStop, OwnerAdvanced, Settle, AutoStop, AutoStops, OwnerOnly;
    var p := db.allocations[a].purpose;
    var d := Settle(db, site, a, after, requestAfter, kind, state, join, joinError);
    SettleMoves(db, site, a, after, requestAfter, kind, state, join, joinError);
    if p.ForRequest? && p.request in d.requests { ConsumeTables(d, site, p.request, false, next); }
    AutoStopOpens(d, site, a, stop);
    MovedStops(db.allocations, d.allocations, a, after);
    hide OnlyStops, OneMoves, Moved;
  }

  lemma MovedStops(m: map<Id, Allocation>, n: map<Id, Allocation>, a: Id, after: AllocationState)
    requires a in m && OneMoves(m, n, a, after)
    ensures OnlyStops(m, n, Some(a)) && a in n && n[a].state == after
    ensures forall s :: OnlyStops(m, Moved(n, a, s), Some(a)) && a in Moved(n, a, s) && Moved(n, a, s)[a].state == s
  {
  }

  // Where a report leaves its allocation stopping, a stop of it is open: the one that queued with it, or the one reported on.
  lemma AppliedStops(db: Db, site: Site, a: Id, kind: JobKind, state: JobState, instance: Token, errorCode: string,
                     join: Option<JoinInfo>, joinError: string, stop: Id, next: Id)
    requires a in db.allocations && db.allocations[a].create in db.jobs && stop !in db.jobs
    ensures var res := ApplyReport(db, site, a, kind, state, instance, errorCode, join, joinError, stop, next);
            res.Committed? ==> MovesStopping(db, res.db, a, stop, kind.Stop? && (state.JAccepted? || state.JUnknown?))
  {
    hide OpenStop, PausedFor, ModeOf, Carry;
    var p := db.allocations[a].purpose;
    var t := Target(kind, state, errorCode, ModeOf(db, p), PausedFor(db, p));
    if t.Some? {
      TargetLeaves(kind, state, errorCode, ModeOf(db, p), PausedFor(db, p));
      CarriedStops(db, site, a, t.value.0, t.value.1, kind, state, instance, errorCode, join, joinError, stop, next);
    }
  }

  lemma AutoStopOpens(db: Db, site: Site, a: Id, stop: Id)
    requires a in db.allocations && db.allocations[a].create in db.jobs && stop !in db.jobs
    ensures var d := AutoStop(db, site, a, stop);
            && OpenStop(d.jobs, a) && d.allocations == Moved(db.allocations, a, AStopping)
            && (d.jobs == db.jobs || (stop in d.jobs && d.jobs == db.jobs[stop := d.jobs[stop]]))
  {
    var d := AutoStop(db, site, a, stop);
    if !OpenStop(db.jobs, a) { StopSeen(d.jobs, a, stop); }
  }

  lemma ReportStopping(db: Db, site: Site, node: Id, j: Id, rep: Report, stop: Id, next: Id)
    requires Inv(db) && Stopping(db) && stop !in db.jobs
    ensures var res := ReportJob(db, site, node, j, rep, stop, next); res.Committed? ==> Stopping(res.db)
  {
    hide ApplyReport, ValidReport, ReportAllowed, OpenStop, Stopping, OnlyStops, StopsStay, Coupled;
    var res := ReportJob(db, site, node, j, rep, stop, next);
    if res.Committed? && res.db != db {
      TakenRooted(db, j, rep);
      var job, d0 := db.jobs[j], Taken(db, j, rep);
      hide Rooted;
      AppliedStops(d0, site, job.alloc, job.kind, rep.state, Merge(job.instance, rep.instance), rep.errorCode, rep.join, rep.joinError, stop, next);
      ReportedStops(db, j, Reported(job, rep), res.db.jobs, stop, if stop in res.db.jobs then res.db.jobs[stop] else job);
      if job.kind.Stop? && (rep.state.JAccepted? || rep.state.JUnknown?) { StopSeen(d0.jobs, job.alloc, j); }
      StillStopping(db, res.db, Some(job.alloc));
    }
  }

  // ---- Facts ----

  lemma GoneStops(db: Db, site: Site, a: Id, stop: Id, next: Id)
    requires a in db.allocations
    ensures var d, p := Reclaim(db, a), db.allocations[a].purpose;
            && MovesStopping(db, d, a, stop, false)
            && (p.ForRequest? && p.request in d.requests ==>
                  var res := Consume(d, site, p.request, false, next); res.Committed? ==> MovesStopping(db, res.db, a, stop, false))
  {
    hide Consume, OpenStop, Advanced, PausedIntent;
    var d, p := Reclaim(db, a), db.allocations[a].purpose;
    if p.ForRequest? && p.request in d.requests { ConsumeTables(d, site, p.request, false, next); }
  }

  lemma IsolateStops(db: Db, a: Id, stop: Id)
    requires a in db.allocations
    ensures MovesStopping(db, Isolate(db, a), a, stop, false)
  {
    hide OpenStop, OwnerAdvanced, Paused, RunsAfterFact;
  }

  lemma MovedByFact(db: Db, site: Site, a: Id, f: Fact, joinPort: int, stop: Id, next: Id)
    requires a in db.allocations && db.allocations[a].create in db.jobs && stop !in db.jobs
    requires db.allocations[a].state.AStopping? ==> OpenStop(db.jobs, a)
    ensures var res := FactMove(db, site, a, f, joinPort, stop, next);
            res.Committed? ==> MovesStopping(db, res.db, a, stop, false)
  {
    assert MovesStopping(db, db, a, stop, false);
    hide Consume, MovesStopping, OpenStop, ApplyReport, Isolate, FailedInstance;
    AppliedStops(db, site, a, Create, JFailedWithEffect, f.instance, "INSTANCE_FAILED", None, "", stop, next);
    IsolateStops(db, a, stop);
    GoneStops(db, site, a, stop, next);
  }

  lemma FactStopping(db: Db, site: Site, node: Id, a: Id, f: Fact, stop: Id, next: Id)
    requires Inv(db) && Stopping(db) && stop !in db.jobs
    ensures var res := InstanceFact(db, site, node, a, f, stop, next); res.Committed? ==> Stopping(res.db)
  {
    hide Inv, OpenStop, OnlyStops, StopsStay, FactMove, FactJoin, RunsAfterFact, ValidFact, Evolves;
    var call := CFact(node, a, f, stop, next);
    var res := InstanceFact(db, site, node, a, f, stop, next);
    if res.Committed? && !Terminal(db.allocations[a].state) {
      FactEvolves(db, site, node, a, f, stop, next);
      FactJobs(db, site, call, res.db);
      var al := db.allocations[a];
      var d0 := db.(allocations := db.allocations[a := FactJoin(al, f)]);
      FactJoinSame(al, f);
      MovedByFact(d0, site, a, f, JoinPort(al), stop, next);
      hide Stopping;
      JoinKeepsStopping(db.allocations, d0.allocations, res.db.allocations, a);
      StillStopping(db, res.db, Some(a));
    }
  }

  lemma FactJobs(db: Db, site: Site, call: Call, d: Db)
    requires Evolves(db, site, call, d) && call.CFact?
    ensures StopsStay(db.jobs, d.jobs, None) && forall x :: StopsStay(db.jobs, d.jobs, x)
  {
    hide JobsEvolve;
    UnreportedStops(db, site, call, d);
  }

  lemma JoinKeepsStopping(m: map<Id, Allocation>, k: map<Id, Allocation>, n: map<Id, Allocation>, a: Id)
    requires a in m && a in k && k == m[a := k[a]] && OnlyStops(k, n, Some(a))
    ensures OnlyStops(m, n, Some(a))
  {
  }

  // ---- Stops asked for ----

  lemma QueuedStops(db: Db, d: Db, site: Site, a: Id, stop: Id)
    requires Stopping(db) && a in db.allocations && db.allocations[a].create in db.jobs && stop !in db.jobs
    requires d.jobs == db.jobs[stop := NewStopJob(db, a, site.now)]
    requires d.allocations == db.allocations || d.allocations == Moved(db.allocations, a, AStopping)
    ensures Stopping(d)
  {
    StopSeen(d.jobs, a, stop);
    hide OpenStop;
    assert StopsStay(db.jobs, d.jobs, None);
    hide StopsStay, NewStopJob;
    assert OnlyStops(db.allocations, d.allocations, Some(a));
    StaysForAny(db.jobs, d.jobs, a);
    StillStopping(db, d, Some(a));
  }

  lemma StaysForAny(m: map<Id, Job>, n: map<Id, Job>, a: Id)
    requires StopsStay(m, n, None)
    ensures StopsStay(m, n, Some(a))
  {
  }

  lemma UserStopStopping(db: Db, site: Site, user: Id, r: Id, nextGame: bool, stop: Id)
    requires Stopping(db)
    ensures var res := UserStop(db, site, user, r, nextGame, stop); res.Committed? ==> Stopping(res.db)
  {
    hide Stopping, OpenStop, NewStopJob, Moved, Advanced, Acting;
    var res := UserStop(db, site, user, r, nextGame, stop);
    if res.Committed? && res.db != db { QueuedStops(db, res.db, site, OpenOf(db, r), stop); }
  }

  lemma AdminStopStopping(db: Db, site: Site, r: Id, stop: Id)
    requires Stopping(db)
    ensures var res := AdminStop(db, site, r, stop); res.Committed? ==> Stopping(res.db)
  {
    hide Stopping, OpenStop, NewStopJob, Moved, Advanced;
    var res := AdminStop(db, site, r, stop);
    if res.Committed? { QueuedStops(db, res.db, site, OpenOf(db, r), stop); }
  }

  lemma RunStopStopping(db: Db, site: Site, v: Id, pass: bool, expected: Option<RunState>, was: RunState, stop: Id)
    requires Stopping(db)
    ensures var res := ConfirmHuman(db, site, v, pass, expected, stop); res.Committed? ==> Stopping(res.db)
    ensures var res := StopRun(db, site, v, was, stop); res.Committed? ==> Stopping(res.db)
  {
    hide Stopping, OpenStop, NewStopJob, Moved, CurrentJoin, HasStop;
    var res := ConfirmHuman(db, site, v, pass, expected, stop);
    if res.Committed? { QueuedStops(db, res.db, site, db.runs[v].alloc, stop); }
    var ended := StopRun(db, site, v, was, stop);
    if ended.Committed? { QueuedStops(db, ended.db, site, db.runs[v].alloc, stop); }
  }

  // ---- The other calls ----

  // No call but a report, a fact or a stop leaves an allocation newly stopping.
  lemma OtherStops(db: Db, site: Site, call: Call)
    requires !call.CReport? && !call.CBegin? && !call.CFact? && !call.CUserStop? && !call.CAdminStop?
    requires !call.CConfirmHuman? && !call.CStopRun?
    ensures OnlyStops(db.allocations, Apply(db, site, call).allocations, None)
  {
    hide OnlyStops, Perform;
    NothingStops(db);
    OtherResult(db, site, call);
  }

  ghost predicate ResultStops(db: Db, res: Result) {
    res.Committed? ==> OnlyStops(db.allocations, res.db.allocations, None)
  }

  lemma NothingStops(db: Db)
    ensures OnlyStops(db.allocations, db.allocations, None)
  {
  }

  lemma OtherResult(db: Db, site: Site, call: Call)
    requires !call.CReport? && !call.CBegin? && !call.CFact? && !call.CUserStop? && !call.CAdminStop?
    requires !call.CConfirmHuman? && !call.CStopRun?
    ensures ResultStops(db, Perform(db, site, call))
  {
    hide ResultStops, NewRequest, UserCancel, CancelWaiting, Place, CloseWaiting, Claim, Prepare, TerminatePending, Quarantine, QuarantineSilent,
         Abandon, CreateParty, ResetInvite, JoinParty, LeaveParty, RemoveMember, DisbandParty, ReserveRun, FinalizeRun, FinalizeFailure;
    match call
    case CNewRequest(user, game, preset, mode, id) => NewStops(db, site, user, game, preset, mode, id);
    case CUserCancel(user, r) => CancelStops(db, user, r);
    case CAdminCancel(r) => CancelStops(db, 0, r);
    case CPlace(r, n, a, j) => PlaceStops(db, site, r, n, a, j);
    case CClose(r) => CloseStops(db, site, r);
    case CClaim(node, j, independent, cap) => ClaimStops(db, site, node, j, independent, cap);
    case CPrepare(node, j, template, port, algorithm, sha) => PrepareStops(db, site, node, j, template, port, algorithm, sha);
    case CTerminatePending(a) => TerminateStops(db, a);
    case CQuarantine(a) => QuarantineStops(db, site, a);
    case CQuarantineSilent(a) => QuarantineStops(db, site, a);
    case CAbandon(user, r, next) => AbandonStops(db, site, user, r, next);
    case CReserveRun(q, v, a, j) => ReserveStops(db, site, q, v, a, j);
    case CFinalizeRun(v) => FinalizeStops(db, site, v);
    case CFinalizeFailure(v) => FinalizeStops(db, site, v);
    case _ => PartyStops(db, site, call);
  }

  lemma NewStops(db: Db, site: Site, user: Id, game: Id, preset: Id, mode: Mode, id: Id)
    ensures ResultStops(db, NewRequest(db, site, user, game, preset, mode, id))
  {
    hide FreshCheck, Busy, Acting;
  }

  lemma CancelStops(db: Db, user: Id, r: Id)
    ensures ResultStops(db, UserCancel(db, user, r)) && ResultStops(db, CancelWaiting(db, r))
  {
    hide Attempts, Acting;
  }

  lemma PlaceStops(db: Db, site: Site, r: Id, n: Id, a: Id, j: Id)
    ensures ResultStops(db, Place(db, site, r, n, a, j))
  {
    hide Accepts, MaxAttempt, ExpectedOf, Offered;
  }

  lemma CloseStops(db: Db, site: Site, r: Id)
    ensures ResultStops(db, CloseWaiting(db, site, r))
  {
    hide Closable;
  }

  lemma ClaimStops(db: Db, site: Site, node: Id, j: Id, independent: bool, cap: Capability)
    ensures ResultStops(db, Claim(db, site, node, j, independent, cap))
  {
    hide Rival, TrustedStop;
  }

  lemma PrepareStops(db: Db, site: Site, node: Id, j: Id, template: string, port: int, algorithm: string, sha: string)
    ensures ResultStops(db, Prepare(db, site, node, j, template, port, algorithm, sha))
  {
    hide Preparable, OnlyStops, Moved, Advanced;
    StartStops(db.allocations);
  }

  lemma StartStops(m: map<Id, Allocation>)
    ensures OnlyStops(m, m, None) && forall a :: OnlyStops(m, Moved(m, a, ACreating), None) && OnlyStops(m, Moved(m, a, AReleasedNoEffect), None)
  {
  }

  lemma TerminateStops(db: Db, a: Id)
    ensures ResultStops(db, TerminatePending(db, a))
  {
    hide RunsAfterJob, Untouched, OnlyStops, Moved;
    StartStops(db.allocations);
  }

  lemma QuarantineStops(db: Db, site: Site, a: Id)
    ensures ResultStops(db, Quarantine(db, a)) && ResultStops(db, QuarantineSilent(db, site, a))
  {
    hide RunsAfterFact, Paused, OwnerAdvanced;
  }

  lemma AbandonStops(db: Db, site: Site, user: Id, r: Id, next: Id)
    ensures ResultStops(db, Abandon(db, site, user, r, next))
  {
    hide LatestAttempt, PausedIntent, Consume, Acting, NextRequest;
    if r in db.requests { ConsumeTables(SetRequest(db, r, RAbandoned), site, r, true, next); }
  }

  lemma ReserveStops(db: Db, site: Site, q: RunRequest, v: Id, a: Id, j: Id)
    ensures ResultStops(db, ReserveRun(db, site, q, v, a, j))
  {
    hide Reservable, CandidateOf;
  }

  lemma FinalizeStops(db: Db, site: Site, v: Id)
    ensures ResultStops(db, FinalizeRun(db, site, v)) && ResultStops(db, FinalizeFailure(db, v))
  {
    hide Conclusive, OnlyStops;
    NothingStops(db);
  }

  lemma PartyStops(db: Db, site: Site, call: Call)
    requires call.CCreateParty? || call.CResetInvite? || call.CJoinParty? || call.CLeaveParty? || call.CRemoveMember? || call.CDisbandParty?
    ensures ResultStops(db, Perform(db, site, call))
  {
    PartyCallResults(db, site, call);
    hide Perform;
  }

  // ---- Over whole runs ----

  // The IDs of the stops a call may queue.
  predicate FreshStop(db: Db, call: Call) {
    match call
    case CBegin(_, _, _, stop, _) => stop !in db.jobs
    case CReport(_, _, _, stop, _) => stop !in db.jobs
    case CFact(_, _, _, stop, _) => stop !in db.jobs
    case _ => true
  }

  ghost predicate FreshStops(h: History) {
    forall i :: 0 <= i < |h| ==> FreshStop(Exec(h[..i]), h[i].1)
  }

  ghost predicate StaysStopping(db: Db, res: Result) {
    res.Committed? ==> Stopping(res.db)
  }

  lemma MovingStopping(db: Db, site: Site, call: Call)
    requires Inv(db) && Stopping(db) && FreshStop(db, call)
    requires call.CReport? || call.CBegin? || call.CFact? || call.CUserStop? || call.CAdminStop? || call.CConfirmHuman? || call.CStopRun?
    ensures StaysStopping(db, Perform(db, site, call))
  {
    hide Stopping, ReportJob, InstanceFact, UserStop, AdminStop, ConfirmHuman, StopRun, StartAllowed, Inv;
    match call
    case CReport(node, j, rep, stop, next) => ReportStopping(db, site, node, j, rep, stop, next);
    case CBegin(node, j, start, stop, next) => ReportStopping(db, site, node, j, STARTED, stop, next);
    case CFact(node, a, fact, stop, next) => FactStopping(db, site, node, a, fact, stop, next);
    case CUserStop(user, r, nextGame, stop) => UserStopStopping(db, site, user, r, nextGame, stop);
    case CAdminStop(r, stop) => AdminStopStopping(db, site, r, stop);
    case CConfirmHuman(v, pass, expected, stop) => RunStopStopping(db, site, v, pass, expected, VPassed, stop);
    case CStopRun(v, was, stop) => RunStopStopping(db, site, v, true, None, was, stop);
  }

  lemma StepStopping(db: Db, site: Site, call: Call)
    requires Inv(db) && Stopping(db) && FreshStop(db, call)
    ensures Stopping(Apply(db, site, call))
  {
    hide Stopping, Inv, Perform, FreshStop;
    if call.CReport? || call.CBegin? || call.CFact? || call.CUserStop? || call.CAdminStop? || call.CConfirmHuman? || call.CStopRun? {
      MovingStopping(db, site, call);
    } else {
      OtherStopping(db, site, call);
    }
  }

  lemma OtherStopping(db: Db, site: Site, call: Call)
    requires Inv(db) && Stopping(db)
    requires !call.CReport? && !call.CBegin? && !call.CFact? && !call.CUserStop? && !call.CAdminStop?
    requires !call.CConfirmHuman? && !call.CStopRun?
    ensures Stopping(Apply(db, site, call))
  {
    hide Inv, Stopping, Apply, JobsEvolve, AllocationsEvolve, RequestsEvolve, FrozenEvolve, OnlyStops, StopsStay;
    CallEvolves(db, site, call);
    UnreportedStops(db, site, call, Apply(db, site, call));
    OtherStops(db, site, call);
    StillStopping(db, Apply(db, site, call), None);
  }

  // In every state of a run whose stops get fresh IDs, an allocation that is stopping has an open stop.
  lemma {:induction false} StoppingHasStop(h: History)
    requires FreshStops(h)
    ensures Stopping(Exec(h))
    decreases |h|
  {
    if h != [] {
      var m := h[..|h|-1];
      assert forall i :: 0 <= i < |m| ==> m[..i] == h[..i];
      StoppingHasStop(m);
      assert FreshStop(Exec(m), h[|h|-1].1);
      RunKeepsInv(m);
      hide Stopping, Inv, Apply, FreshStop;
      StepStopping(Exec(m), h[|h|-1].0, h[|h|-1].1);
    }
  }

  // ---- What a failure and a stop queue ----

  // The instance a create job is known by once it has been reported on.
  function KnownBy(job: Job, rep: Report): Token {
    if rep.instance == "" then job.instance else rep.instance
  }

  // A create that failed and left an instance, on a resource nothing else has been decided about, is stopped: its
  // allocation and its owner are stopping, and a stop of that instance is open.
  lemma FailureIsStopped(h: History, site: Site, node: Id, j: Id, rep: Report, stop: Id, next: Id, d: Db)
    requires Perform(Exec(h), site, CReport(node, j, rep, stop, next)) == Committed(d) && stop !in Exec(h).jobs
    requires var db := Exec(h);
             && j in db.jobs && db.jobs[j].kind.Create? && !JobTerminal(db.jobs[j].state)
             && rep.state.JFailedWithEffect? && rep.errorCode != "IDENTITY_UNVERIFIED" && KnownBy(db.jobs[j], rep) != ""
             && db.jobs[j].alloc in db.allocations
             && !Terminal(db.allocations[db.jobs[j].alloc].state) && !db.allocations[db.jobs[j].alloc].state.AQuarantined?
    ensures var db := Exec(h);
            var a := db.jobs[j].alloc;
            && j in d.jobs && d.jobs[j].state.JFailedWithEffect? && d.jobs[j].instance == KnownBy(db.jobs[j], rep)
            && a in d.allocations && d.allocations[a].state.AStopping?
            && StopFor(d, a, KnownBy(db.jobs[j], rep))
            && (forall r :: db.allocations[a].purpose == ForRequest(r) && r in db.requests && !db.requests[r].state.RAbandoned? ==>
                  r in d.requests && d.requests[r].state.RStopping?)
  {
    RunKeepsInv(h);
    EveryStopAims(h);
    hide Exec, StopsAim, Inv, ReportJob;
    FailureFrom(Exec(h), site, node, j, rep, stop, next);
  }

  lemma FailureFrom(db: Db, site: Site, node: Id, j: Id, rep: Report, stop: Id, next: Id)
    requires Inv(db) && StopsAim(db) && stop !in db.jobs
    requires j in db.jobs && db.jobs[j].kind.Create? && !JobTerminal(db.jobs[j].state)
    requires rep.state.JFailedWithEffect? && rep.errorCode != "IDENTITY_UNVERIFIED" && KnownBy(db.jobs[j], rep) != ""
    requires db.jobs[j].alloc in db.allocations
    requires !Terminal(db.allocations[db.jobs[j].alloc].state) && !db.allocations[db.jobs[j].alloc].state.AQuarantined?
    ensures var res := ReportJob(db, site, node, j, rep, stop, next);
            var a := db.jobs[j].alloc;
            res.Committed? ==>
              && j in res.db.jobs && res.db.jobs[j].state.JFailedWithEffect? && res.db.jobs[j].instance == KnownBy(db.jobs[j], rep)
              && a in res.db.allocations && res.db.allocations[a].state.AStopping?
              && StopFor(res.db, a, KnownBy(db.jobs[j], rep))
              && (forall r :: db.allocations[a].purpose == ForRequest(r) && r in db.requests && !db.requests[r].state.RAbandoned? ==>
                    r in res.db.requests && res.db.requests[r].state.RStopping?)
  {
    hide Coupled, ValidReport, StopsAim, StopFor, ApplyReport;
    var job := db.jobs[j];
    TakenRooted(db, j, rep);
    hide Rooted;
    if ReportAllowed(job, j in db.frozen, rep) {
      AllowedInstance(job, j in db.frozen, rep);
      hide ReportAllowed;
      FailedRows(db, Taken(db, j, rep), site, j, Reported(job, rep), job.alloc, rep.errorCode, rep.join, rep.joinError, stop, next);
    }
  }

  // What a failure that left an instance does to the rows d0, which differ from db in the create job alone.
  lemma FailedRows(db: Db, d0: Db, site: Site, j: Id, job: Job, a: Id, errorCode: string, join: Option<JoinInfo>, joinError: string,
                   stop: Id, next: Id)
    requires j in db.jobs && db.jobs[j].kind.Create? && job.kind.Create? && d0.jobs == db.jobs[j := job]
    requires d0.requests == db.requests && a in db.allocations && a in d0.allocations && db.allocations[a].create == j
    requires SameAllocation(d0.allocations[a], db.allocations[a])
    requires !Terminal(d0.allocations[a].state) && !d0.allocations[a].state.AQuarantined?
    requires StopsAim(db) && stop !in db.jobs && errorCode != "IDENTITY_UNVERIFIED"
    requires job.instance != "" && (db.jobs[j].instance != "" ==> job.instance == db.jobs[j].instance)
    requires db.allocations[a].purpose.ForRequest? ==> db.allocations[a].purpose.request in db.requests
    ensures var res := ApplyReport(d0, site, a, Create, JFailedWithEffect, job.instance, errorCode, join, joinError, stop, next);
            && res.Committed? && j in res.db.jobs && res.db.jobs[j] == job
            && a in res.db.allocations && res.db.allocations[a].state.AStopping? && StopFor(res.db, a, job.instance)
            && (forall r :: db.allocations[a].purpose == ForRequest(r) && r in db.requests && !db.requests[r].state.RAbandoned? ==>
                  r in res.db.requests && res.db.requests[r].state.RStopping?)
  {
    hide StopsAim, StopFor, PausedFor, ModeOf, Settle, AutoStop, OwnerAdvanced;
    var d := Settle(d0, site, a, AFailedUnreclaimed, RFailedUnreclaimed, Create, JFailedWithEffect, join, joinError);
    SettleState(d0, site, a, AFailedUnreclaimed, RFailedUnreclaimed, Create, JFailedWithEffect, join, joinError);
    StopQueued(db, d0, d, site, j, job, a, stop);
    OwnerStops(d.requests, db.allocations[a].purpose);
  }

  lemma OwnerStops(m: map<Id, Request>, p: Purpose)
    requires p.ForRequest? ==> p.request in m
    ensures p.ForRequest? && !m[p.request].state.RAbandoned? ==>
      p.request in OwnerAdvanced(m, p, RStopping) && OwnerAdvanced(m, p, RStopping)[p.request].state.RStopping?
  {
  }

  lemma AllowedInstance(job: Job, frozen: bool, rep: Report)
    requires ReportAllowed(job, frozen, rep)
    ensures job.instance != "" && rep.instance != "" ==> rep.instance == job.instance
  {
    hide PermittedTransition;
  }

  // From the rows d that took the report, the automatic stop leaves an open stop of the create's instance.
  lemma StopQueued(db: Db, d0: Db, d: Db, site: Site, j: Id, job: Job, a: Id, stop: Id)
    requires j in db.jobs && db.jobs[j].kind.Create? && job.kind.Create? && d0.jobs == db.jobs[j := job] && d.jobs == d0.jobs
    requires a in db.allocations && db.allocations[a].create == j && StopsAim(db) && stop !in db.jobs
    requires job.instance != "" && (db.jobs[j].instance != "" ==> job.instance == db.jobs[j].instance)
    requires a in d.allocations && SameAllocation(d.allocations[a], db.allocations[a])
    ensures var e := AutoStop(d, site, a, stop);
            && j in e.jobs && e.jobs[j] == job && a in e.allocations && e.allocations[a].state.AStopping?
            && StopFor(e, a, job.instance)
            && e.requests == OwnerAdvanced(d.requests, db.allocations[a].purpose, RStopping)
  {
    var e := AutoStop(d, site, a, stop);
    if OpenStop(d.jobs, a) {
      var s :| s in d.jobs && d.jobs[s].alloc == a && d.jobs[s].kind.Stop? && OpenJob(d.jobs[s].state);
      assert s in db.jobs && Aims(db, s);
    } else {
      assert stop in e.jobs && e.jobs[stop].instance == job.instance;
    }
  }

  // The same for a fact that shows a failed instance, of a resource that is neither given back, nor held, nor stopping already.
  lemma FailedFactIsStopped(h: History, site: Site, node: Id, a: Id, f: Fact, stop: Id, next: Id, d: Db)
    requires Perform(Exec(h), site, CFact(node, a, f, stop, next)) == Committed(d) && stop !in Exec(h).jobs
    requires f.outcome.Uncertain? && f.lifecycle == "failed" && (f.process == "stopped" || f.process == "running")
    requires var db := Exec(h);
             a in db.allocations && !Terminal(db.allocations[a].state) && !db.allocations[a].state.AQuarantined? && !db.allocations[a].state.AStopping?
    ensures var db := Exec(h);
            && a in d.allocations && d.allocations[a].state.AStopping? && StopFor(d, a, f.instance)
            && (forall r :: db.allocations[a].purpose == ForRequest(r) && r in db.requests && !db.requests[r].state.RAbandoned? ==>
                  r in d.requests && d.requests[r].state.RStopping?)
  {
    RunKeepsInv(h);
    EveryStopAims(h);
    hide Exec, StopsAim, Inv, InstanceFact, StopFor;
    FailedFactFrom(Exec(h), site, node, a, f, stop, next);
  }

  // Stopped, with its owner, and a stop of the instance open.
  ghost predicate StoppedFor(db: Db, d: Db, a: Id, instance: Token)
    requires a in db.allocations
  {
    && a in d.allocations && d.allocations[a].state.AStopping? && StopFor(d, a, instance)
    && (forall r :: db.allocations[a].purpose == ForRequest(r) && r in db.requests && !db.requests[r].state.RAbandoned? ==>
          r in d.requests && d.requests[r].state.RStopping?)
  }

  lemma FailedFactFrom(db: Db, site: Site, node: Id, a: Id, f: Fact, stop: Id, next: Id)
    requires Inv(db) && StopsAim(db) && stop !in db.jobs
    requires f.outcome.Uncertain? && f.lifecycle == "failed" && (f.process == "stopped" || f.process == "running")
    requires a in db.allocations && !Terminal(db.allocations[a].state) && !db.allocations[a].state.AQuarantined? && !db.allocations[a].state.AStopping?
    ensures var res := InstanceFact(db, site, node, a, f, stop, next); res.Committed? ==> StoppedFor(db, res.db, a, f.instance)
  {
    InvAllocation(db, a);
    JobOfAllocation(db, a);
    FailedFactIs(db, site, node, a, f, stop, next);
    FactJoinSame(db.allocations[a], f);
    SameHere(FactJoin(db.allocations[a], f), db.allocations[a]);
    hide Inv, Coupled, Rooted, InstanceFact, FactJoin, StopsAim, StoppedFor, ApplyReport, SameAllocation;
    if InstanceFact(db, site, node, a, f, stop, next).Committed? {
      FailedOn(db, db.(allocations := db.allocations[a := FactJoin(db.allocations[a], f)]), site, a, db.allocations[a].create, f.instance, stop, next);
    }
  }

  lemma FailedOn(db: Db, d0: Db, site: Site, a: Id, j: Id, instance: Token, stop: Id, next: Id)
    requires StopsAim(db) && stop !in db.jobs && a in db.allocations && a in d0.allocations && SameAllocation(d0.allocations[a], db.allocations[a])
    requires d0.jobs == db.jobs && d0.requests == db.requests
    requires !Terminal(d0.allocations[a].state) && !d0.allocations[a].state.AQuarantined?
    requires db.allocations[a].create == j && j in db.jobs && db.jobs[j].kind.Create? && db.jobs[j].instance == instance && instance != ""
    requires db.allocations[a].purpose.ForRequest? ==> db.allocations[a].purpose.request in db.requests
    ensures var res := ApplyReport(d0, site, a, Create, JFailedWithEffect, instance, "INSTANCE_FAILED", None, "", stop, next);
            res.Committed? && StoppedFor(db, res.db, a, instance)
  {
    SameJobTable(db.jobs, j);
    FailedRows(db, d0, site, j, db.jobs[j], a, "INSTANCE_FAILED", None, "", stop, next);
    hide StopsAim, StopFor, ApplyReport;
  }

  lemma SameJobTable(m: map<Id, Job>, j: Id)
    requires j in m
    ensures m[j := m[j]] == m
  {
  }

  lemma SameHere(x: Allocation, y: Allocation)
    requires SameAllocation(x, y)
    ensures x.create == y.create && x.purpose == y.purpose
  {
  }

  // Such a fact is taken as the report that its create job failed.
  lemma FailedFactIs(db: Db, site: Site, node: Id, a: Id, f: Fact, stop: Id, next: Id)
    requires f.outcome.Uncertain? && f.lifecycle == "failed" && (f.process == "stopped" || f.process == "running")
    requires a in db.allocations && db.allocations[a].create in db.jobs
    requires !Terminal(db.allocations[a].state) && !db.allocations[a].state.AQuarantined? && !db.allocations[a].state.AStopping?
    ensures var res := InstanceFact(db, site, node, a, f, stop, next);
            var d0 := db.(allocations := db.allocations[a := FactJoin(db.allocations[a], f)]);
            res.Committed? ==>
              && f.instance != "" && db.jobs[db.allocations[a].create].instance == f.instance
              && d0.allocations[a].create in d0.jobs
              && res == ApplyReport(d0, site, a, Create, JFailedWithEffect, f.instance, "INSTANCE_FAILED", None, "", stop, next)
  {
    FactJoinSame(db.allocations[a], f);
    hide ValidFact, FactJoin, ApplyReport;
  }
}
