/** Validation runs close only on evidence, and stay closed. */
module Validation {
  import opened Facts
  import opened Ledger
  import opened Calls
  import opened Coupling
  import opened CouplingSteps
  import opened CouplingRuns
  import opened Evolution
  import opened EvolutionSteps
  import opened Lifecycle

  predicate Closed(s: RunState) {
    s.VPassed? || s.VFailed?
  }

  // What a PASS rests on: a human's word, a room that was ready and joinable, a server that ran,
  // and a stop that took that very server down and gave its capacity back.
  ghost predicate PassEvidence(db: Db, run: Run) {
    && run.human.HPass? && run.ready && run.joinable
    && run.alloc in db.allocations && db.allocations[run.alloc].state.AReclaimed?
    && db.allocations[run.alloc].create in db.jobs
    && var c := db.jobs[db.allocations[run.alloc].create];
       && c.state.JSucceeded? && c.instance != ""
       && exists s :: ReclaimedBy(db, run.alloc, s, c.instance)
  }

  predicate ReclaimedBy(db: Db, a: Id, s: Id, instance: Token) {
    StopOf(db, a, s) && db.jobs[s].state.JSucceeded? && db.jobs[s].instance == instance
  }

  ghost predicate RunStep(db: Db, d: Db, v: Id)
    requires v in db.runs
  {
    && v in d.runs && d.runs[v].candidate == db.runs[v].candidate && d.runs[v].alloc == db.runs[v].alloc
    && (Closed(db.runs[v].state) ==> d.runs[v] == db.runs[v])
    && (d.runs[v].state.VPassed? && !db.runs[v].state.VPassed? ==> PassEvidence(d, d.runs[v]))
    && (d.runs[v].state.VFailed? && !db.runs[v].state.VFailed? ==>
          d.runs[v].alloc in d.allocations && Terminal(d.allocations[d.runs[v].alloc].state))
  }

  ghost predicate RunsStep(db: Db, d: Db) {
    && (forall v :: v in db.runs ==> RunStep(db, d, v))
    && (forall v :: v in d.runs && v !in db.runs ==> d.runs[v].state.VCreatePending?)
  }

  // Open runs only: what the store relies on to keep a closed one closed.
  ghost predicate RunsClosed(db: Db) {
    forall v :: v in db.runs ==>
      && (db.runs[v].state.VPassed? ==> PassEvidence(db, db.runs[v]))
      && (db.runs[v].state.VFailed? ==> db.runs[v].alloc in db.allocations && Terminal(db.allocations[db.runs[v].alloc].state))
  }

  lemma SameRuns(db: Db, d: Db)
    requires d.runs == db.runs
    ensures RunsStep(db, d)
  {
  }

  lemma OneRun(db: Db, d: Db, v: Id)
    requires v in db.runs && v in d.runs && d.runs == db.runs[v := d.runs[v]] && RunStep(db, d, v)
    ensures RunsStep(db, d)
  {
    hide PassEvidence;
  }

  // A report moves the run that owns the allocation, and fails it only together with the allocation.
  lemma JobRuns(db: Db, d: Db, a: Id, kind: JobKind, state: JobState, after: AllocationState, joined: bool)
    requires Rooted(db) && a in db.allocations
    requires d.runs == RunsAfterJob(db.runs, db.allocations[a].purpose, kind, state, after, joined)
    requires a in d.allocations
    requires (kind.Create? && state.JRejectedNoEffect?) || (kind.Stop? && state.JSucceeded?) ==> Terminal(d.allocations[a].state)
    ensures RunsStep(db, d)
  {
    hide PassEvidence;
    var p := db.allocations[a].purpose;
    if p.ForRun? {
      assert p.run in db.runs && db.runs[p.run].alloc == a;
      hide Rooted;
      OneRun(db, d, p.run);
    }
  }

  lemma FactRuns(db: Db, d: Db, p: Purpose, fact: RunFact, joined: bool)
    requires d.runs == RunsAfterFact(db.runs, p, fact, joined)
    ensures RunsStep(db, d)
  {
    hide PassEvidence;
    if p.ForRun? && p.run in db.runs { OneRun(db, d, p.run); }
  }

  lemma TwoRunSteps(db: Db, c: Db, d: Db)
    requires RunsStep(db, c) && RunsStep(c, d) && d.allocations == c.allocations && d.jobs == c.jobs
    requires forall v :: v in c.runs ==> v in db.runs
    requires forall v :: v in d.runs ==> v in db.runs
    ensures RunsStep(db, d)
  {
    forall v | v in db.runs
      ensures RunStep(db, d, v)
    {
      assert RunStep(db, c, v) && RunStep(c, d, v);
      if c.runs[v].state.VPassed? && !db.runs[v].state.VPassed? { SamePass(c, d, c.runs[v]); }
    }
  }

  lemma SamePass(c: Db, d: Db, run: Run)
    requires d.allocations == c.allocations && d.jobs == c.jobs && PassEvidence(c, run)
    ensures PassEvidence(d, run)
  {
    var x := c.jobs[c.allocations[run.alloc].create];
    var s :| ReclaimedBy(c, run.alloc, s, x.instance);
    assert ReclaimedBy(d, run.alloc, s, x.instance);
  }

  lemma ApplyReportRuns(db: Db, d0: Db, site: Site, a: Id, kind: JobKind, state: JobState, instance: Token, errorCode: string,
                        join: Option<JoinInfo>, joinError: string, stop: Id, next: Id)
    requires Rooted(db) && a in db.allocations && d0.runs == db.runs && a in d0.allocations && d0.allocations[a].create in d0.jobs
    requires d0.allocations[a].purpose == db.allocations[a].purpose
    ensures var res := ApplyReport(d0, site, a, kind, state, instance, errorCode, join, joinError, stop, next);
            res.Committed? ==> RunsStep(db, res.db)
  {
    hide Rooted, RunsStep, ConsumeFor, Settle, AutoStop;
    SameRuns(db, d0);
    var al := d0.allocations[a];
    var p := al.purpose;
    var t := Target(kind, state, errorCode, ModeOf(d0, p), PausedFor(d0, p));
    if !Terminal(al.state) && t.Some? {
      TargetLeaves(kind, state, errorCode, ModeOf(d0, p), PausedFor(d0, p));
      var mid := Settle(d0, site, a, t.value.0, t.value.1, kind, state, join, joinError);
      var joined := kind.Create? && state.JSucceeded? && KeptJoin(site, al.node, join).Some?;
      SettleRuns(d0, site, a, t.value.0, t.value.1, kind, state, join, joinError, joined);
      if kind.Stop? && state.JSucceeded? && !al.state.AQuarantined? {
        ConsumeRunsAt(mid, site, p, next);
        var res := ConsumeFor(mid, site, p, next);
        if res.Committed? { JobRuns(db, res.db, a, kind, state, t.value.0, joined); }
      } else if AutoStops(kind, state, instance, errorCode) {
        AutoStopRuns(mid, site, a, stop);
        JobRuns(db, AutoStop(mid, site, a, stop), a, kind, state, t.value.0, joined);
      } else {
        JobRuns(db, mid, a, kind, state, t.value.0, joined);
      }
    }
  }

  lemma SettleRuns(db: Db, site: Site, a: Id, after: AllocationState, requestAfter: RequestState, kind: JobKind,
                   state: JobState, join: Option<JoinInfo>, joinError: string, joined: bool)
    requires a in db.allocations && (kind.Create? && state.JSucceeded? ==> after.ARunning?)
    requires joined == (kind.Create? && state.JSucceeded? && KeptJoin(site, db.allocations[a].node, join).Some?)
    ensures var d := Settle(db, site, a, after, requestAfter, kind, state, join, joinError);
            && d.runs == RunsAfterJob(db.runs, db.allocations[a].purpose, kind, state, after, joined)
            && a in d.allocations && d.allocations[a].state == after && d.allocations[a].create == db.allocations[a].create
            && d.jobs == db.jobs
  {
    hide OwnerAdvanced, Paused, RunsAfterJob, KeptJoin, JoinErrorOf;
  }

  lemma AutoStopRuns(d: Db, site: Site, a: Id, stop: Id)
    requires a in d.allocations && d.allocations[a].create in d.jobs
    ensures var e := AutoStop(d, site, a, stop); e.runs == d.runs && a in e.allocations
  {
    hide OpenStop, NewStopJob, OwnerAdvanced;
  }

  lemma ConsumeRunsAt(d: Db, site: Site, p: Purpose, next: Id)
    ensures var res := ConsumeFor(d, site, p, next); res.Committed? ==> res.db.runs == d.runs && res.db.allocations == d.allocations
  {
    hide Consume;
    if p.ForRequest? && p.request in d.requests { ConsumeTables(d, site, p.request, false, next); }
  }

  lemma ReportRuns(db: Db, site: Site, node: Id, j: Id, rep: Report, stop: Id, next: Id)
    requires Inv(db)
    ensures var res := ReportJob(db, site, node, j, rep, stop, next);
            res.Committed? ==> RunsStep(db, res.db)
  {
    hide RunsStep, ApplyReport, ValidReport, ReportAllowed, Coupled;
    SameRuns(db, db);
    if j in db.jobs {
      TakenRooted(db, j, rep);
      var job := db.jobs[j];
      ApplyReportRuns(db, Taken(db, j, rep), site, job.alloc, job.kind, rep.state, Merge(job.instance, rep.instance),
                      rep.errorCode, rep.join, rep.joinError, stop, next);
    }
  }

  lemma FactMoveRuns(db: Db, d0: Db, site: Site, a: Id, f: Fact, joinPort: int, stop: Id, next: Id)
    requires Rooted(db) && a in db.allocations && d0.runs == db.runs && a in d0.allocations && d0.allocations[a].create in d0.jobs
    requires d0.allocations[a].purpose == db.allocations[a].purpose
    ensures var res := FactMove(d0, site, a, f, joinPort, stop, next);
            res.Committed? ==> RunsStep(db, res.db)
  {
    hide Rooted, RunsStep, ApplyReport, ConsumeFor;
    SameRuns(db, d0);
    var p := d0.allocations[a].purpose;
    if f.outcome.Gone? {
      var mid := Reclaim(d0, a);
      ConsumeRunsAt(mid, site, p, next);
      SameRuns(db, mid);
      var res := ConsumeFor(mid, site, p, next);
      if res.Committed? { SameRuns(db, res.db); }
    } else {
      ApplyReportRuns(db, d0, site, a, Create, JFailedWithEffect, f.instance, "INSTANCE_FAILED", None, "", stop, next);
      FactRuns(db, Isolate(d0, a), p, FactQuarantined, false);
    }
  }

  lemma FactCallRuns(db: Db, site: Site, node: Id, a: Id, f: Fact, stop: Id, next: Id)
    requires Inv(db)
    ensures var res := InstanceFact(db, site, node, a, f, stop, next);
            res.Committed? ==> RunsStep(db, res.db)
  {
    hide RunsStep, FactMove, FactJoin, Coupled, Rooted, RunsAfterFact, LocalRuns;
    SameRuns(db, db);
    var res := InstanceFact(db, site, node, a, f, stop, next);
    if res.Committed? && !Terminal(db.allocations[a].state) {
      var al := db.allocations[a];
      var d0 := db.(allocations := db.allocations[a := FactJoin(al, f)]);
      FactJoinSame(al, f);
      EntryKeeps(db, a, FactJoin(al, f));
      FactMoveRuns(db, d0, site, a, f, JoinPort(al), stop, next);
      FactMoveKeeps(d0, site, a, f, JoinPort(al), stop, next);
      var moved := FactMove(d0, site, a, f, JoinPort(al), stop, next).db;
      if f.outcome.Active? && f.room == "ready" {
        FactRuns(moved, res.db, al.purpose, FactReady, f.join.Some?);
        RunKeys(moved.runs, al.purpose, f.join.Some?);
        LocalRunKeys(db.runs, moved.runs);
        TwoRunSteps(db, moved, res.db);
      }
    }
  }

  lemma RunKeys(m: map<Id, Run>, p: Purpose, joined: bool)
    ensures RunsAfterFact(m, p, FactReady, joined).Keys == m.Keys
  {
  }

  lemma LocalRunKeys(m: map<Id, Run>, n: map<Id, Run>)
    requires LocalRuns(m, n)
    ensures n.Keys == m.Keys
  {
  }

  lemma FinalizePasses(db: Db, site: Site, v: Id)
    ensures var res := FinalizeRun(db, site, v); res.Committed? ==> RunsStep(db, res.db)
  {
    hide Quiet, SoundScan, FactsAgree, RunsStep;
    SameRuns(db, db);
    var res := FinalizeRun(db, site, v);
    if res.Committed? && Conclusive.requires(db, site, v) && Conclusive(db, site, v) {
      var run := db.runs[v];
      var s :| s in db.jobs && LatestStop(db, run.alloc, s) && db.jobs[s].state.JSucceeded?
               && db.jobs[s].instance == db.jobs[db.allocations[run.alloc].create].instance;
      assert ReclaimedBy(res.db, run.alloc, s, db.jobs[db.allocations[run.alloc].create].instance);
      if !run.state.VPassed? {
        assert PassEvidence(res.db, res.db.runs[v]);
        OneRun(db, res.db, v);
      }
    }
  }

  lemma RunCallsStep(db: Db, site: Site, call: Call)
    requires RunsClosed(db)
    requires call.CConfirmHuman? || call.CStopRun? || call.CFinalizeFailure? || call.CReserveRun?
    ensures RunsStep(db, Apply(db, site, call))
  {
    hide RunsClosed, RunsStep, ConfirmHuman, StopRun, FinalizeFailure, ReserveRun;
    SameRuns(db, db);
    match call
    case CConfirmHuman(v, pass, expected, stop) => ConfirmRuns(db, site, v, pass, expected, stop);
    case CStopRun(v, was, stop) => StopRuns(db, site, v, was, stop);
    case CFinalizeFailure(v) => FailRuns(db, v);
    case CReserveRun(q, v, a, j) => ReserveRuns(db, site, q, v, a, j);
  }

  lemma FailRuns(db: Db, v: Id)
    ensures var res := FinalizeFailure(db, v); res.Committed? ==> RunsStep(db, res.db)
  {
    hide RunsStep, PassEvidence;
    SameRuns(db, db);
    var res := FinalizeFailure(db, v);
    if res.Committed? && res.db != db { OneRun(db, res.db, v); }
  }

  lemma ReserveRuns(db: Db, site: Site, q: RunRequest, v: Id, a: Id, j: Id)
    ensures var res := ReserveRun(db, site, q, v, a, j); res.Committed? ==> RunsStep(db, res.db)
  {
    hide PassEvidence, Reservable, CandidateOf;
  }

  lemma ConfirmRuns(db: Db, site: Site, v: Id, pass: bool, expected: Option<RunState>, stop: Id)
    requires RunsClosed(db)
    ensures var res := ConfirmHuman(db, site, v, pass, expected, stop); res.Committed? ==> RunsStep(db, res.db)
  {
    hide CurrentJoin, Moved, OpenStop, NewStopJob, RunsStep;
    var res := ConfirmHuman(db, site, v, pass, expected, stop);
    if res.Committed? {
      assert !Closed(db.runs[v].state);
      OneRun(db, res.db, v);
    }
  }

  lemma StopRuns(db: Db, site: Site, v: Id, was: RunState, stop: Id)
    ensures var res := StopRun(db, site, v, was, stop); res.Committed? ==> RunsStep(db, res.db)
  {
    hide Moved, OpenStop, NewStopJob, RunsStep;
    var res := StopRun(db, site, v, was, stop);
    if res.Committed? { OneRun(db, res.db, v); }
  }

  lemma TerminateRuns(db: Db, site: Site, a: Id)
    requires Rooted(db)
    ensures RunsStep(db, Apply(db, site, CTerminatePending(a)))
  {
    hide RunsStep, Rooted, RunsAfterJob;
    var d := Apply(db, site, CTerminatePending(a));
    SameRuns(db, db);
    if d != db { JobRuns(db, d, a, Create, JRejectedNoEffect, AReleasedNoEffect, false); }
  }

  lemma PrepareRuns(db: Db, site: Site, call: Call)
    requires call.CPrepare?
    ensures RunsStep(db, Apply(db, site, call))
  {
    hide PassEvidence, Preparable, Moved, Advanced;
  }

  lemma AbandonRuns(db: Db, site: Site, user: Id, r: Id, next: Id)
    ensures Apply(db, site, CAbandon(user, r, next)).runs == db.runs
  {
    hide Consume, Acting, LatestAttempt, PausedIntent;
    if r in db.requests { ConsumeTables(SetRequest(db, r, RAbandoned), site, r, true, next); }
  }

  lemma QuarantineRuns(db: Db, site: Site, call: Call)
    requires call.CQuarantine? || call.CQuarantineSilent?
    ensures RunsStep(db, Apply(db, site, call))
  {
    hide RunsStep, RunsAfterFact, Moved, OwnerAdvanced, Paused;
    var d := Apply(db, site, call);
    SameRuns(db, db);
    if d != db { FactRuns(db, d, db.allocations[call.a].purpose, FactQuarantined, false); }
  }

  // Calls about requests, claims and operators' stops leave the runs alone.
  lemma RequestRuns(db: Db, site: Site, call: Call)
    requires call.CNewRequest? || call.CUserCancel? || call.CAdminCancel? || call.CPlace? || call.CClose? || call.CClaim?
    ensures Apply(db, site, call).runs == db.runs
  {
    hide Busy, MaxAttempt, Rival, TrustedStop, Closable, Attempts, Acting, Placeable, FreshCheck, Advanced;
  }

  lemma StopCallRuns(db: Db, site: Site, call: Call)
    requires call.CUserStop? || call.CAdminStop?
    ensures Apply(db, site, call).runs == db.runs
  {
    hide OpenStop, NewStopJob, Moved, Advanced, Acting;
  }

  lemma PartyRuns(db: Db, site: Site, call: Call)
    requires call.CCreateParty? || call.CResetInvite? || call.CJoinParty? || call.CLeaveParty? || call.CRemoveMember? || call.CDisbandParty?
    ensures RunsStep(db, Apply(db, site, call))
  {
    hide Apply, RunsStep;
    PartyCallTables(db, site, call);
    SameRuns(db, Apply(db, site, call));
  }

  lemma CallRuns(db: Db, site: Site, call: Call)
    requires Inv(db) && RunsClosed(db)
    ensures RunsStep(db, Apply(db, site, call))
  {
    hide RunsStep, ReportJob, InstanceFact, Abandon, StartAllowed, FinalizeRun, Coupled, Rooted, RunsClosed;
    SameRuns(db, db);
    match call
    case CReport(node, j, rep, stop, next) => ReportRuns(db, site, node, j, rep, stop, next);
    case CBegin(node, j, start, stop, next) => ReportRuns(db, site, node, j, STARTED, stop, next);
    case CFact(node, a, fact, stop, next) => FactCallRuns(db, site, node, a, fact, stop, next);
    case CAbandon(user, r, next) => AbandonRuns(db, site, user, r, next); SameRuns(db, Apply(db, site, call));
    case CFinalizeRun(v) => FinalizePasses(db, site, v);
    case CConfirmHuman(_, _, _, _) => RunCallsStep(db, site, call);
    case CStopRun(_, _, _) => RunCallsStep(db, site, call);
    case CFinalizeFailure(_) => RunCallsStep(db, site, call);
    case CReserveRun(_, _, _, _) => RunCallsStep(db, site, call);
    case CTerminatePending(a) => TerminateRuns(db, site, a);
    case CPrepare(_, _, _, _, _, _) => PrepareRuns(db, site, call);
    case CQuarantine(_) => QuarantineRuns(db, site, call);
    case CQuarantineSilent(_) => QuarantineRuns(db, site, call);
    case CUserStop(_, _, _, _) => StopCallRuns(db, site, call); SameRuns(db, Apply(db, site, call));
    case CAdminStop(_, _) => StopCallRuns(db, site, call); SameRuns(db, Apply(db, site, call));
    case CCreateParty(_, _, _) => PartyRuns(db, site, call);
    case CResetInvite(_, _) => PartyRuns(db, site, call);
    case CJoinParty(_, _) => PartyRuns(db, site, call);
    case CLeaveParty(_) => PartyRuns(db, site, call);
    case CRemoveMember(_, _) => PartyRuns(db, site, call);
    case CDisbandParty(_) => PartyRuns(db, site, call);
    case _ => RequestRuns(db, site, call); SameRuns(db, Apply(db, site, call));
  }

  // ---- Over whole runs ----

  // A closed run stays exactly as it is, and its evidence cannot be taken back.
  lemma EvidenceStays(db: Db, d: Db, run: Run)
    requires PassEvidence(db, run) && Kept(db, d)
    ensures PassEvidence(d, run)
  {
    var c := db.allocations[run.alloc].create;
    var s :| ReclaimedBy(db, run.alloc, s, db.jobs[c].instance);
    assert KeptJob(db.jobs[c], d.jobs[c]) && KeptJob(db.jobs[s], d.jobs[s]);
    assert ReclaimedBy(d, run.alloc, s, d.jobs[c].instance);
  }

  lemma StepRunsClosed(db: Db, d: Db)
    requires RunsClosed(db) && RunsStep(db, d) && Kept(db, d)
    ensures RunsClosed(d)
  {
    hide PassEvidence;
    forall v | v in d.runs
      ensures d.runs[v].state.VPassed? ==> PassEvidence(d, d.runs[v])
      ensures d.runs[v].state.VFailed? ==> d.runs[v].alloc in d.allocations && Terminal(d.allocations[d.runs[v].alloc].state)
    {
      if v in db.runs {
        assert RunStep(db, d, v);
        if db.runs[v].state.VPassed? { EvidenceStays(db, d, db.runs[v]); }
      }
    }
  }

  // Over any run: a PASS has all its evidence, and a failure has given its capacity back.
  lemma {:induction false} ClosesOnEvidence(h: History)
    ensures RunsClosed(Exec(h))
    decreases |h|
  {
    if h != [] {
      var m := h[..|h|-1];
      var (site, call) := h[|h|-1];
      ClosesOnEvidence(m);
      RunKeepsInv(m);
      CallRuns(Exec(m), site, call);
      CallEvolves(Exec(m), site, call);
      hide RunsClosed, RunsStep, Inv, JobsEvolve, AllocationsEvolve, Apply;
      StepKeeps(Exec(m), site, call, Exec(h));
      StepRunsClosed(Exec(m), Exec(h));
    }
  }

  // Passed and failed are never left: the whole row stays as it was.
  lemma {:induction false} ClosedStays(h: History, k: History, v: Id)
    requires v in Exec(h).runs && Closed(Exec(h).runs[v].state)
    ensures v in Exec(h + k).runs && Exec(h + k).runs[v] == Exec(h).runs[v]
    decreases |k|
  {
    if k == [] {
      assert h + k == h;
    } else {
      var m := k[..|k|-1];
      var (site, call) := k[|k|-1];
      ClosedStays(h, m, v);
      assert h + k == (h + m) + [(site, call)];
      ExecStep(h + m, site, call);
      RunKeepsInv(h + m);
      ClosesOnEvidence(h + m);
      CallRuns(Exec(h + m), site, call);
      hide Inv, RunsClosed, Apply;
      assert RunStep(Exec(h + m), Exec(h + k), v);
    }
  }
}