/** What reserving, confirming, stopping and closing a validation run ask for and leave, said in the rows; and in which step,
    and on which facts, a run passes. */
module RunRules {
  import opened Facts
  import opened Ledger
  import opened Calls
  import opened Coupling
  import opened CouplingSteps
  import opened CouplingRuns
  import opened Evolution
  import opened EvolutionSteps
  import opened Stops
  import opened OperatorRules
  import opened NodeRules
  import V = Validation

  // ---- Passing ----

  // Everything a pass asks for, of the rows and of the site, in one transaction.
  predicate MayPass(db: Db, site: Site, v: Id)
    requires RunRooted(db, v)
  {
    var run := db.runs[v];
    var c := run.candidate;
    var al := db.allocations[run.alloc];
    var create := db.jobs[al.create];
    && run.human.HPass? && run.state.VReclaimObserving? && run.ready && run.joinable && al.state.AReclaimed?
    && create.state.JSucceeded? && create.instance != ""
    && LastStopTook(db, run.alloc, create.instance)
    && AsFrozen(site, c) && ContentClosed(site, c.node, c.game)
    && NothingElse(db, c.node, c.game, {run.alloc})
    && NodeHeard(site, c.node) && site.nodes[c.node].scanConfirmed && ScanClean(site, c.node, site.nodes[c.node].scan)
  }

  // The stop created last succeeded, on this instance.
  predicate LastStopTook(db: Db, a: Id, instance: Token) {
    exists s :: s in db.jobs && db.jobs[s].alloc == a && db.jobs[s].kind.Stop? && db.jobs[s].state.JSucceeded? && db.jobs[s].instance == instance
                && forall k :: k in db.jobs && db.jobs[k].alloc == a && db.jobs[k].kind.Stop? && k != s ==>
                     db.jobs[k].createdAt < db.jobs[s].createdAt || (db.jobs[k].createdAt == db.jobs[s].createdAt && k < s)
  }

  lemma LastStopIs(db: Db, a: Id, instance: Token)
    ensures LastStopTook(db, a, instance) <==>
      exists s :: s in db.jobs && LatestStop(db, a, s) && db.jobs[s].state.JSucceeded? && db.jobs[s].instance == instance
  {
    if LastStopTook(db, a, instance) {
      var s :| s in db.jobs && db.jobs[s].alloc == a && db.jobs[s].kind.Stop? && db.jobs[s].state.JSucceeded? && db.jobs[s].instance == instance
               && forall k :: k in db.jobs && db.jobs[k].alloc == a && db.jobs[k].kind.Stop? && k != s ==>
                    db.jobs[k].createdAt < db.jobs[s].createdAt || (db.jobs[k].createdAt == db.jobs[s].createdAt && k < s);
      assert LatestStop(db, a, s);
    }
    if s :| s in db.jobs && LatestStop(db, a, s) && db.jobs[s].state.JSucceeded? && db.jobs[s].instance == instance {
      forall k | k in db.jobs && db.jobs[k].alloc == a && db.jobs[k].kind.Stop? && k != s
        ensures db.jobs[k].createdAt < db.jobs[s].createdAt || (db.jobs[k].createdAt == db.jobs[s].createdAt && k < s)
      {
        assert StopOf(db, a, k);
      }
    }
  }

  lemma ConclusiveIs(db: Db, site: Site, v: Id)
    requires RunRooted(db, v)
    ensures Conclusive(db, site, v) <==> MayPass(db, site, v)
  {
    var run := db.runs[v];
    var c := run.candidate;
    FactsAre(site, c, c.node, if c.node in site.nodes then site.nodes[c.node].scan else "");
    QuietIs(db, c.node, c.game, {run.alloc});
    LastStopIs(db, run.alloc, db.jobs[db.allocations[run.alloc].create].instance);
    assert Conclusive(db, site, v) ==> (c.node, c.game) in site.facts.content;
    hide FactsAgree, SoundScan, ScanClean, Quiet, NothingElse, LastStopTook, LatestStop;
  }

  // Finalizing passes a run exactly then, says so again of a passed one, and changes nothing else.
  lemma FinalizePasses(db: Db, site: Site, v: Id)
    requires RunRooted(db, v)
    ensures var res := Perform(db, site, CFinalizeRun(v));
            && (res.Committed? <==> db.runs[v].state.VPassed? || MayPass(db, site, v))
            && (res.Committed? ==> res.db == if db.runs[v].state.VPassed? then db
                                             else db.(runs := db.runs[v := db.runs[v].(state := VPassed)]))
  {
    ConclusiveIs(db, site, v);
    hide Conclusive, MayPass;
  }

  // A run fails by hand only when its capacity is given back and every job of it is resolved.
  lemma FinalizeFails(db: Db, site: Site, v: Id)
    requires RunRooted(db, v)
    ensures var res := Perform(db, site, CFinalizeFailure(v));
            var run, al := db.runs[v], db.allocations[db.runs[v].alloc].state;
            && (res.Committed? <==>
                  run.state.VFailed?
                  || (!run.state.VPassed? && (al.AReclaimed? || al.AReleasedNoEffect?)
                      && forall j :: j in db.jobs && db.jobs[j].alloc == run.alloc ==>
                           db.jobs[j].state.JSucceeded? || db.jobs[j].state.JRejectedNoEffect? || db.jobs[j].state.JFailedWithEffect?))
            && (res.Committed? ==> res.db == if run.state.VFailed? then db
                                             else db.(runs := db.runs[v := run.(state := VFailed)]))
  {
  }

  // ---- Only finalizing passes ----

  // No run has newly passed.
  ghost predicate NoPass(m: map<Id, Run>, n: map<Id, Run>) {
    forall v :: v in n && n[v].state.VPassed? ==> v in m && m[v].state.VPassed?
  }

  ghost predicate PassesNone(db: Db, res: Result) {
    res.Committed? ==> NoPass(db.runs, res.db.runs)
  }

  lemma SameNoPass(m: map<Id, Run>)
    ensures NoPass(m, m)
  {
  }

  lemma AdvanceNoPass(m: map<Id, Run>, n: map<Id, Run>, p: Purpose, kind: JobKind, state: JobState, after: AllocationState,
                      fact: RunFact, joined: bool)
    requires NoPass(m, n)
    ensures NoPass(m, RunsAfterJob(n, p, kind, state, after, joined)) && NoPass(m, RunsAfterFact(n, p, fact, joined))
  {
  }

  lemma ReportNoPass(db: Db, site: Site, a: Id, kind: JobKind, state: JobState, instance: Token, errorCode: string,
                     join: Option<JoinInfo>, joinError: string, stop: Id, next: Id)
    requires a in db.allocations && db.allocations[a].create in db.jobs
    ensures PassesNone(db, ApplyReport(db, site, a, kind, state, instance, errorCode, join, joinError, stop, next))
  {
    hide Moved, OwnerAdvanced, Paused, OpenStop, KeptJoin, JoinErrorOf, Entered, ConsumeFor, NoPass, RunsAfterJob, NewStopJob, ModeOf, PausedFor;
    SameNoPass(db.runs);
    var p := db.allocations[a].purpose;
    var t := Target(kind, state, errorCode, ModeOf(db, p), PausedFor(db, p));
    if t.Some? {
      var d := Settle(db, site, a, t.value.0, t.value.1, kind, state, join, joinError);
      ConsumeRuns(d, site, p, next);
      AdvanceNoPass(db.runs, db.runs, p, kind, state, t.value.0, FactReclaimed,
                    kind.Create? && state.JSucceeded? && KeptJoin(site, db.allocations[a].node, join).Some?);
    }
  }

  lemma JobReportNoPass(db: Db, site: Site, node: Id, j: Id, rep: Report, stop: Id, next: Id)
    ensures PassesNone(db, ReportJob(db, site, node, j, rep, stop, next))
  {
    hide ApplyReport, ValidReport, ReportAllowed, NoPass;
    SameNoPass(db.runs);
    if j in db.jobs {
      var job, d0 := db.jobs[j], Taken(db, j, rep);
      if job.alloc in d0.allocations && d0.allocations[job.alloc].create in d0.jobs {
        ReportNoPass(d0, site, job.alloc, job.kind, rep.state, Merge(job.instance, rep.instance), rep.errorCode, rep.join, rep.joinError, stop, next);
      }
    }
  }

  lemma FactMoveNoPass(db: Db, site: Site, a: Id, f: Fact, joinPort: int, stop: Id, next: Id)
    requires a in db.allocations && db.allocations[a].create in db.jobs
    ensures PassesNone(db, FactMove(db, site, a, f, joinPort, stop, next))
  {
    hide ApplyReport, NoPass, ConsumeFor, FailedInstance, Moved, Advanced, OwnerAdvanced, Paused, RunsAfterFact, PausedIntent;
    var p := db.allocations[a].purpose;
    SameNoPass(db.runs);
    AdvanceNoPass(db.runs, db.runs, p, Stop, JUnknown, AStopping, FactQuarantined, false);
    ReportNoPass(db, site, a, Create, JFailedWithEffect, f.instance, "INSTANCE_FAILED", None, "", stop, next);
    ConsumeRuns(Reclaim(db, a), site, p, next);
  }

  lemma FactNoPass(db: Db, site: Site, node: Id, a: Id, f: Fact, stop: Id, next: Id)
    ensures PassesNone(db, InstanceFact(db, site, node, a, f, stop, next))
  {
    hide ValidFact, FactMove, FactJoin, NoPass, RunsAfterFact;
    SameNoPass(db.runs);
    if a in db.allocations && db.allocations[a].create in db.jobs {
      var al := db.allocations[a];
      var d0 := db.(allocations := db.allocations[a := FactJoin(al, f)]);
      FactJoinSame(al, f);
      FactMoveNoPass(d0, site, a, f, JoinPort(al), stop, next);
      var moved := FactMove(d0, site, a, f, JoinPort(al), stop, next);
      if moved.Committed? { AdvanceNoPass(db.runs, moved.db.runs, al.purpose, Stop, JUnknown, AStopping, FactReady, f.join.Some?); }
    }
  }

  predicate MovesRuns(call: Call) {
    call.CReport? || call.CBegin? || call.CFact? || call.CPrepare? || call.CTerminatePending? || call.CQuarantine? || call.CQuarantineSilent?
    || call.CReserveRun? || call.CConfirmHuman? || call.CStopRun? || call.CFinalizeFailure?
  }

  lemma MovingNoPass(db: Db, site: Site, call: Call)
    requires MovesRuns(call)
    ensures PassesNone(db, Perform(db, site, call))
  {
    hide PassesNone, ReportJob, Begin, InstanceFact, Prepare, TerminatePending, Quarantine, QuarantineSilent;
    match call
    case CReport(node, j, rep, stop, next) => JobReportNoPass(db, site, node, j, rep, stop, next);
    case CBegin(node, j, start, stop, next) => BeginNoPass(db, site, node, j, start, stop, next);
    case CFact(node, a, fact, stop, next) => FactNoPass(db, site, node, a, fact, stop, next);
    case CPrepare(node, j, template, port, algorithm, sha) => PrepareNoPass(db, site, node, j, template, port, algorithm, sha);
    case CTerminatePending(a) => TerminateNoPass(db, a);
    case CQuarantine(a) => QuarantineNoPass(db, site, a);
    case CQuarantineSilent(a) => QuarantineNoPass(db, site, a);
    case _ => RunNoPass(db, site, call);
  }

  lemma RunNoPass(db: Db, site: Site, call: Call)
    requires call.CReserveRun? || call.CConfirmHuman? || call.CStopRun? || call.CFinalizeFailure?
    ensures PassesNone(db, Perform(db, site, call))
  {
    hide PassesNone, ReserveRun, ConfirmHuman, StopRun, FinalizeFailure;
    match call
    case CReserveRun(q, v, a, j) => ReserveNoPass(db, site, q, v, a, j);
    case CConfirmHuman(v, pass, expected, stop) => ConfirmNoPass(db, site, v, pass, expected, stop);
    case CStopRun(v, was, stop) => StopNoPass(db, site, v, was, stop);
    case CFinalizeFailure(v) => FailNoPass(db, v);
  }

  lemma BeginNoPass(db: Db, site: Site, node: Id, j: Id, start: Start, stop: Id, next: Id)
    ensures PassesNone(db, Begin(db, site, node, j, start, stop, next))
  {
    hide ReportJob, StartAllowed, NoPass, TokenOk;
    SameNoPass(db.runs);
    JobReportNoPass(db, site, node, j, STARTED, stop, next);
  }

  lemma PrepareNoPass(db: Db, site: Site, node: Id, j: Id, template: string, port: int, algorithm: string, sha: string)
    ensures PassesNone(db, Prepare(db, site, node, j, template, port, algorithm, sha))
  {
    hide Preparable, Moved, Advanced;
  }

  lemma TerminateNoPass(db: Db, a: Id)
    ensures PassesNone(db, TerminatePending(db, a))
  {
    hide RunsAfterJob, Untouched, Moved, NoPass;
    SameNoPass(db.runs);
    if a in db.allocations {
      AdvanceNoPass(db.runs, db.runs, db.allocations[a].purpose, Create, JRejectedNoEffect, AReleasedNoEffect, FactReclaimed, false);
    }
  }

  lemma QuarantineNoPass(db: Db, site: Site, a: Id)
    ensures PassesNone(db, Quarantine(db, a)) && PassesNone(db, QuarantineSilent(db, site, a))
  {
    hide RunsAfterFact, Moved, NoPass, OwnerAdvanced, Paused;
    SameNoPass(db.runs);
    if a in db.allocations {
      AdvanceNoPass(db.runs, db.runs, db.allocations[a].purpose, Create, JRejectedNoEffect, AReleasedNoEffect, FactQuarantined, false);
    }
  }

  lemma ReserveNoPass(db: Db, site: Site, q: RunRequest, v: Id, a: Id, j: Id)
    ensures PassesNone(db, ReserveRun(db, site, q, v, a, j))
  {
    hide Reservable, CandidateOf;
  }

  lemma ConfirmNoPass(db: Db, site: Site, v: Id, pass: bool, expected: Option<RunState>, stop: Id)
    ensures PassesNone(db, ConfirmHuman(db, site, v, pass, expected, stop))
  {
    hide OpenStop, NewStopJob, Moved, CurrentJoin;
  }

  lemma StopNoPass(db: Db, site: Site, v: Id, was: RunState, stop: Id)
    ensures PassesNone(db, StopRun(db, site, v, was, stop))
  {
    hide OpenStop, NewStopJob, Moved, HasStop;
  }

  lemma FailNoPass(db: Db, v: Id)
    ensures PassesNone(db, FinalizeFailure(db, v))
  {
  }

  lemma OtherRuns(db: Db, site: Site, call: Call)
    requires !MovesRuns(call) && !call.CFinalizeRun?
    ensures Apply(db, site, call).runs == db.runs
  {
    hide Apply;
    match call
    case CAbandon(user, r, next) => V.AbandonRuns(db, site, user, r, next);
    case CUserStop(_, _, _, _) => V.StopCallRuns(db, site, call);
    case CAdminStop(_, _) => V.StopCallRuns(db, site, call);
    case CNewRequest(_, _, _, _, _) => V.RequestRuns(db, site, call);
    case CUserCancel(_, _) => V.RequestRuns(db, site, call);
    case CAdminCancel(_) => V.RequestRuns(db, site, call);
    case CPlace(_, _, _, _) => V.RequestRuns(db, site, call);
    case CClose(_) => V.RequestRuns(db, site, call);
    case CClaim(_, _, _, _) => V.RequestRuns(db, site, call);
    case _ => PartyCallTables(db, site, call);
  }

  // A run passes in no other step than its finalizing, and on nothing less than this.
  lemma PassesOnFacts(h: History, site: Site, call: Call, v: Id)
    requires v in Apply(Exec(h), site, call).runs && Apply(Exec(h), site, call).runs[v].state.VPassed?
    requires v in Exec(h).runs ==> !Exec(h).runs[v].state.VPassed?
    ensures call == CFinalizeRun(v) && RunRooted(Exec(h), v) && MayPass(Exec(h), site, v)
  {
    RunKeepsInv(h);
    hide Exec, Inv;
    PassesFrom(Exec(h), site, call, v);
  }

  lemma PassesFrom(db: Db, site: Site, call: Call, v: Id)
    requires Inv(db) && v in Apply(db, site, call).runs && Apply(db, site, call).runs[v].state.VPassed?
    requires v in db.runs ==> !db.runs[v].state.VPassed?
    ensures call == CFinalizeRun(v) && RunRooted(db, v) && MayPass(db, site, v)
  {
    hide MayPass, Perform, Inv;
    if MovesRuns(call) {
      MovingNoPass(db, site, call);
      assert false;
    } else if call.CFinalizeRun? {
      FinalizedOne(db, site, call.v, v);
    } else {
      OtherRuns(db, site, call);
      assert false;
    }
  }

  lemma FinalizedOne(db: Db, site: Site, x: Id, v: Id)
    requires v in Apply(db, site, CFinalizeRun(x)).runs && Apply(db, site, CFinalizeRun(x)).runs[v].state.VPassed?
    requires v in db.runs ==> !db.runs[v].state.VPassed?
    ensures x == v && RunRooted(db, v) && MayPass(db, site, v)
  {
    hide MayPass, Conclusive;
    if RunRooted(db, x) { ConclusiveIs(db, site, x); }
  }

  // ---- Reserving ----

  // A closed game on a node that is heard of and able, confirming exactly the content and template asked for, of the epoch
  // asked for, with nothing else of the game on it and a slot left.
  predicate MayReserve(db: Db, site: Site, q: RunRequest) {
    && q.epoch > 0
    && q.game in site.games && q.preset in site.presets && site.presets[q.preset].game == q.game
    && (q.game, q.content) in site.facts.versions
    && NodeHeard(site, q.node) && site.nodes[q.node].capable
    && ContentClosed(site, q.node, q.game)
    && (q.node, q.revision) in site.facts.bindings && (q.node, q.revision) in site.facts.templates
    && var b, t, f := site.facts.content[(q.node, q.game)], site.facts.bindings[(q.node, q.revision)], site.facts.templates[(q.node, q.revision)];
       && b.epoch == q.epoch && b.revision > 0 && b.confirmed
       && b.version == Some(q.content) && b.sha == Some(site.facts.versions[(q.game, q.content)])
       && t.generation > 0 && t.fingerprint == Some(q.fingerprint)
       && f.confirmed && f.revision > 0 && f.algorithm == Some("template-manifest-sha256-v1")
       && f.key == Some(t.key) && f.fingerprint == Some(q.fingerprint) && Recent(f.receivedAt, site.now)
       && site.nodes[q.node].scanConfirmed && ScanClean(site, q.node, site.nodes[q.node].scan)
       && NothingElse(db, q.node, q.game, {})
       && HasSlot(db, site, q.node)
  }

  lemma ReservableIs(db: Db, site: Site, q: RunRequest)
    ensures Reservable(db, site, q) <==> MayReserve(db, site, q)
  {
    QuietIs(db, q.node, q.game, {});
    if q.node in site.nodes {
      SlotIs(db, site, q.node);
      ScanIs(site, q.node, site.nodes[q.node].scan);
    }
    hide Quiet, NothingElse, HasSlot, Occupied, SoundScan, ScanClean;
  }

  // What is reserved is what was seen: the run freezes the node's rows, and its create job must meet them.
  ghost predicate ReservedAs(db: Db, d: Db, site: Site, q: RunRequest, v: Id, a: Id, j: Id)
    requires MayReserve(db, site, q)
  {
    var b, t, f := site.facts.content[(q.node, q.game)], site.facts.bindings[(q.node, q.revision)], site.facts.templates[(q.node, q.revision)];
    var sha := site.facts.versions[(q.game, q.content)];
    d == db.(
      runs := db.runs[v := Run(Candidate(q.node, q.game, q.preset, q.content, sha, q.revision, t.key, q.fingerprint, t.generation,
                                         b.epoch, b.revision, f.revision), a, VCreatePending, HPending, false, false)],
      allocations := db.allocations[a := Allocation(ForRun(v), q.game, 1, q.node, q.content, q.revision, j, AReserved, None, "", site.now)],
      jobs := db.jobs[j := Job(q.node, Create, a, ContentValidationV102, site.now, t.key,
                               Some(Expected(q.fingerprint, t.generation, site.games[q.game].workshop, q.content, sha)),
                               JPending, "", "", "", "", false, false)])
  }

  lemma ReserveReserves(db: Db, site: Site, q: RunRequest, v: Id, a: Id, j: Id)
    ensures var res := Perform(db, site, CReserveRun(q, v, a, j));
            && (res.Committed? <==> MayReserve(db, site, q) && v !in db.runs && a !in db.allocations && j !in db.jobs)
            && (res.Committed? ==> ReservedAs(db, res.db, site, q, v, a, j))
  {
    ReservableIs(db, site, q);
    if Reservable(db, site, q) && v !in db.runs && a !in db.allocations && j !in db.jobs { ReservedRows(db, site, q, v, a, j); }
    hide Reservable, MayReserve, ReservedAs, ReserveRun;
    ReservePerforms(db, site, q, v, a, j);
    hide Perform;
  }

  lemma ReservePerforms(db: Db, site: Site, q: RunRequest, v: Id, a: Id, j: Id)
    ensures Perform(db, site, CReserveRun(q, v, a, j)) == ReserveRun(db, site, q, v, a, j)
    ensures ReserveRun(db, site, q, v, a, j).Committed? <==>
      Reservable(db, site, q) && v !in db.runs && a !in db.allocations && j !in db.jobs
  {
    hide Reservable, CandidateOf;
  }

  lemma ReservedRows(db: Db, site: Site, q: RunRequest, v: Id, a: Id, j: Id)
    requires v !in db.runs && a !in db.allocations && j !in db.jobs && Reservable(db, site, q) && MayReserve(db, site, q)
    ensures var res := ReserveRun(db, site, q, v, a, j); res.Committed? && ReservedAs(db, res.db, site, q, v, a, j)
  {
    hide Quiet, NothingElse, HasSlot, Occupied, SoundScan, ScanClean;
  }

  // ---- The human's word, and stops ----

  // The entry a player would use, with the node's present entry configuration.
  predicate Enterable(site: Site, al: Allocation) {
    && al.join.Some? && al.join.value.host != "" && al.join.value.revision != ""
    && al.node in site.nodes && site.nodes[al.node].entryRevision == Some(al.join.value.revision)
  }

  // The word is taken once, of a running server whose create succeeded; a pass also needs a room that was ready and joinable
  // and still can be entered. `expected`, where given, must be the state the human saw.
  predicate MayConfirm(db: Db, site: Site, v: Id, pass: bool, expected: Option<RunState>, stop: Id)
    requires RunRooted(db, v)
  {
    var run, al := db.runs[v], db.allocations[db.runs[v].alloc];
    var c := db.jobs[al.create];
    && (expected.Some? ==> expected.value == run.state) && run.human.HPending?
    && al.state.ARunning? && c.state.JSucceeded? && c.instance != ""
    && (pass ==> run.state.VAwaitingHuman? && run.ready && run.joinable && Enterable(site, al))
    && stop !in db.jobs && !StopOpen(db.jobs, run.alloc)
  }

  // One stop of it ever, from the state the operator saw, of a run still open that has a known instance.
  predicate MayStopRun(db: Db, v: Id, was: RunState, stop: Id)
    requires RunRooted(db, v)
  {
    var run, al := db.runs[v], db.allocations[db.runs[v].alloc];
    && run.state == was && !run.state.VPassed? && !run.state.VFailed?
    && !al.state.AReclaimed? && !al.state.AReleasedNoEffect? && db.jobs[al.create].instance != ""
    && stop !in db.jobs && forall s :: s in db.jobs && db.jobs[s].alloc == run.alloc ==> db.jobs[s].kind.Create?
  }

  // The stop is queued, the allocation is stopping, and the run says so, with the human's word if there is one.
  ghost predicate RunStopped(db: Db, d: Db, site: Site, v: Id, human: Human, stop: Id)
    requires RunRooted(db, v)
  {
    var run := db.runs[v];
    && Queued(db, d.jobs, run.alloc, stop, site.now)
    && d == db.(jobs := d.jobs,
                allocations := db.allocations[run.alloc := db.allocations[run.alloc].(state := AStopping)],
                runs := db.runs[v := run.(human := human, state := VStopPending)])
  }

  lemma ConfirmTakesWord(db: Db, site: Site, v: Id, pass: bool, expected: Option<RunState>, stop: Id)
    requires RunRooted(db, v)
    ensures var res := Perform(db, site, CConfirmHuman(v, pass, expected, stop));
            && (res.Committed? <==> MayConfirm(db, site, v, pass, expected, stop))
            && (res.Committed? ==> RunStopped(db, res.db, site, v, if pass then HPass else HFail, stop))
  {
    ConfirmFrom(db, site, v, pass, expected, stop);
    hide ConfirmHuman, MayConfirm, RunStopped;
  }

  lemma ConfirmFrom(db: Db, site: Site, v: Id, pass: bool, expected: Option<RunState>, stop: Id)
    requires RunRooted(db, v)
    ensures var res := ConfirmHuman(db, site, v, pass, expected, stop);
            && (res.Committed? <==> MayConfirm(db, site, v, pass, expected, stop))
            && (res.Committed? ==> RunStopped(db, res.db, site, v, if pass then HPass else HFail, stop))
  {
    var a := db.runs[v].alloc;
    OpenStopIs(db.jobs, a);
    hide OpenStop, StopOpen, Queued, NewStopJob;
    if db.jobs[db.allocations[a].create].instance != "" && stop !in db.jobs { StopQueues(db, site, a, stop); }
  }

  lemma StopRunStops(db: Db, site: Site, v: Id, was: RunState, stop: Id)
    requires RunRooted(db, v)
    ensures var res := Perform(db, site, CStopRun(v, was, stop));
            && (res.Committed? <==> MayStopRun(db, v, was, stop))
            && (res.Committed? ==> RunStopped(db, res.db, site, v, db.runs[v].human, stop))
  {
    StopRunFrom(db, site, v, was, stop);
    hide StopRun, MayStopRun, RunStopped;
  }

  lemma StopRunFrom(db: Db, site: Site, v: Id, was: RunState, stop: Id)
    requires RunRooted(db, v)
    ensures var res := StopRun(db, site, v, was, stop);
            && (res.Committed? <==> MayStopRun(db, v, was, stop))
            && (res.Committed? ==> RunStopped(db, res.db, site, v, db.runs[v].human, stop))
  {
    var a := db.runs[v].alloc;
    assert HasStop(db.jobs, a) <==> !forall s :: s in db.jobs && db.jobs[s].alloc == a ==> db.jobs[s].kind.Create?;
    assert OpenStop(db.jobs, a) ==> HasStop(db.jobs, a);
    hide OpenStop, HasStop, Queued, NewStopJob;
    if db.jobs[db.allocations[a].create].instance != "" && stop !in db.jobs { StopQueues(db, site, a, stop); }
  }
}
