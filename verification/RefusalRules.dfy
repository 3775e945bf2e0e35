/** Which error a call that changes nothing answers with: who may not act, what is not there, what is not to be done now. */
module RefusalRules {
  import opened Facts
  import opened Ledger
  import opened Calls
  import opened Coupling
  import opened CouplingSteps
  import opened CouplingRuns
  import opened RequestRules
  import opened OperatorRules
  import opened JobRules
  import opened ReportRules
  import opened FactRules
  import opened RunRules
  import opened PartyRules
  import Operators

  // ---- Requests of others ----

  // A person acts for at most one owner: a member whose party is gone for none, nor one who does not lead it.
  predicate ActsForNone(db: Db, user: Id) {
    user in db.members && !LeadsParty(db, user, db.members[user])
  }

  function MayNotAct(db: Db, user: Id): Fault
    requires ActsForNone(db, user)
  {
    if db.members[user] in db.parties && db.parties[db.members[user]].live then Forbidden else Internal
  }

  // A request that is not there, or belongs to an owner the caller does not act for, is not found, whatever is asked of it.
  lemma NotYours(db: Db, site: Site, user: Id, r: Id, nextGame: bool, stop: Id, next: Id)
    requires r in db.requests ==> !ActsFor(db, user, db.requests[r].owner)
    ensures var fault := if ActsForNone(db, user) then MayNotAct(db, user) else NotFound;
            && Perform(db, site, CUserCancel(user, r)) == Failed(fault)
            && Perform(db, site, CUserStop(user, r, nextGame, stop)) == Failed(fault)
            && Perform(db, site, CAbandon(user, r, next)) == Failed(fault)
  {
    if r in db.requests { WhoActs(db, user, db.requests[r].owner); }
  }

  lemma NoOneToOpenFor(db: Db, site: Site, user: Id, game: Id, preset: Id, mode: Mode, id: Id)
    requires ActsForNone(db, user)
    ensures Perform(db, site, CNewRequest(user, game, preset, mode, id)) == Failed(MayNotAct(db, user))
  {
    hide Opened, Busy;
  }

  // ---- Rows that are not there ----

  // A job is there for its own node only.
  predicate JobHere(db: Db, node: Id, j: Id) {
    j in db.jobs && db.jobs[j].node == node
  }

  lemma NoSuchJob(db: Db, site: Site, node: Id, j: Id, rep: Report, start: Start, template: string, port: int, algorithm: string, sha: string,
                  stop: Id, next: Id)
    requires !JobHere(db, node, j)
    ensures WellFormed(rep) ==> Perform(db, site, CReport(node, j, rep, stop, next)) == Failed(NotFound)
    ensures (start.StartStop? ==> TokenOk(start.instance)) ==> Perform(db, site, CBegin(node, j, start, stop, next)) == Failed(NotFound)
    ensures template != "" && 0 <= port <= 65535 ==>
      Perform(db, site, CPrepare(node, j, template, port, algorithm, sha)) == Failed(NotFound)
  {
    ValidIs(rep);
    hide ValidReport, WellFormed, TokenOk;
  }

  lemma NoSuchRow(db: Db, site: Site, r: Id, a: Id, v: Id, stop: Id, pass: bool, expected: Option<RunState>, was: RunState)
    ensures r !in db.requests ==>
      Perform(db, site, CAdminCancel(r)) == Failed(NotFound) && Perform(db, site, CAdminStop(r, stop)) == Failed(NotFound)
    ensures a !in db.allocations ==>
      Perform(db, site, CTerminatePending(a)) == Failed(NotFound) && Perform(db, site, CQuarantine(a)) == Failed(NotFound)
    ensures v !in db.runs ==>
      && Perform(db, site, CConfirmHuman(v, pass, expected, stop)) == Failed(NotFound)
      && Perform(db, site, CStopRun(v, was, stop)) == Failed(NotFound)
      && Perform(db, site, CFinalizeRun(v)) == Failed(NotFound) && Perform(db, site, CFinalizeFailure(v)) == Failed(NotFound)
  {
    OperatorPerforms(db, site, r, a);
    AdminStopPerforms(db, site, r, stop);
    RunPerforms(db, site, v, pass, expected, was, stop);
    hide Perform;
    if r !in db.requests { hide TerminatePending, Quarantine, FinalizeRun, FinalizeFailure, ConfirmHuman, StopRun; }
    if a !in db.allocations { hide CancelWaiting, AdminStop, FinalizeRun, FinalizeFailure, ConfirmHuman, StopRun; }
  }

  // ---- Not now ----

  // A start or a request to freeze from the job's own node fails on what it says, and on nothing else.
  lemma StartConflicts(db: Db, site: Site, node: Id, j: Id, start: Start, stop: Id, next: Id)
    requires JobHere(db, node, j) && !MayStart(db, node, j, start)
    ensures Perform(db, site, CBegin(node, j, start, stop, next)) == Failed(Conflict)
  {
    assert !TokenOk("");
    hide ReportJob, TokenOk;
  }

  lemma FreezeConflicts(db: Db, site: Site, node: Id, j: Id, template: string, port: int, algorithm: string, sha: string)
    requires JobHere(db, node, j) && !MayFreeze(db, node, j, template, port, algorithm, sha)
    ensures Perform(db, site, CPrepare(node, j, template, port, algorithm, sha)) == Failed(Conflict)
  {
  }

  // So does a fact about the node's own allocation; only an entry of a node without entry configuration is an internal error.
  function FactRefusedFor(db: Db, site: Site, node: Id, a: Id, f: Fact): Fault {
    if !FactWellFormed(f) then Conflict
    else if a !in db.allocations || db.allocations[a].node != node then NotFound
    else if f.join.Some? && !(node in site.nodes && site.nodes[node].entryRevision.Some?) then Internal
    else Conflict
  }

  lemma FactConflicts(h: History, site: Site, node: Id, a: Id, f: Fact, stop: Id, next: Id)
    requires !FactTaken(Exec(h), site, node, a, f)
    ensures var db := Exec(h);
            Perform(db, site, CFact(node, a, f, stop, next)) == Failed(FactRefusedFor(db, site, node, a, f))
  {
    RunKeepsInv(h);
    if a in Exec(h).allocations { InvAllocation(Exec(h), a); }
    hide Exec, Inv, FactTaken, FactRefusedFor, Coupled, Rooted, Perform, InstanceFact;
    FactPerforms(Exec(h), site, node, a, f, stop, next);
    FactFaults(Exec(h), site, node, a, f, stop, next);
  }

  lemma FactPerforms(db: Db, site: Site, node: Id, a: Id, f: Fact, stop: Id, next: Id)
    ensures Perform(db, site, CFact(node, a, f, stop, next)) == InstanceFact(db, site, node, a, f, stop, next)
  {
    hide InstanceFact;
  }

  lemma FactFaults(db: Db, site: Site, node: Id, a: Id, f: Fact, stop: Id, next: Id)
    requires !FactTaken(db, site, node, a, f) && (a in db.allocations ==> db.allocations[a].create in db.jobs)
    ensures InstanceFact(db, site, node, a, f, stop, next) == Failed(FactRefusedFor(db, site, node, a, f))
  {
    ValidFactIs(f);
    hide ValidFact, ApplyFact;
    assert FactWellFormed(f) ==> f.instance != "";
    hide FactWellFormed;
  }

  // An operator's call on a row that is there fails only because it is not to be done now.
  lemma OperatorConflicts(h: History, site: Site, r: Id, a: Id)
    ensures var db := Exec(h);
            && (r in db.requests ==> var res := Perform(db, site, CAdminCancel(r)); res.Failed? ==> res.fault == Conflict)
            && (a in db.allocations ==> var res := Perform(db, site, CTerminatePending(a)); res.Failed? ==> res.fault == Conflict)
            && (a in db.allocations ==> var res := Perform(db, site, CQuarantine(a)); res.Failed? ==> res.fault == Conflict)
  {
    RunKeepsInv(h);
    if a in Exec(h).allocations { InvAllocation(Exec(h), a); }
    hide Exec, Inv, Coupled, Rooted, Perform, CancelWaiting, TerminatePending, Quarantine;
    OperatorPerforms(Exec(h), site, r, a);
    OperatorFaults(Exec(h), r, a);
  }

  lemma OperatorPerforms(db: Db, site: Site, r: Id, a: Id)
    ensures Perform(db, site, CAdminCancel(r)) == CancelWaiting(db, r)
    ensures Perform(db, site, CTerminatePending(a)) == TerminatePending(db, a)
    ensures Perform(db, site, CQuarantine(a)) == Quarantine(db, a)
  {
    hide CancelWaiting, TerminatePending, Quarantine;
  }

  lemma OperatorFaults(db: Db, r: Id, a: Id)
    requires a in db.allocations ==> db.allocations[a].create in db.jobs
    ensures r in db.requests ==> var res := CancelWaiting(db, r); res.Failed? ==> res.fault == Conflict
    ensures a in db.allocations ==> var res := TerminatePending(db, a); res.Failed? ==> res.fault == Conflict
    ensures a in db.allocations ==> var res := Quarantine(db, a); res.Failed? ==> res.fault == Conflict
  {
    hide Attempts, Isolate, Untouched, Moved, RunsAfterJob, SetRequest;
  }

  // Of a run: the word and the stop conflict unless only the stop's row is in the way.
  lemma RunConflicts(db: Db, site: Site, v: Id, pass: bool, expected: Option<RunState>, was: RunState, stop: Id)
    requires RunRooted(db, v)
    ensures var res := Perform(db, site, CFinalizeRun(v)); res.Failed? ==> res.fault == Conflict
    ensures var res := Perform(db, site, CFinalizeFailure(v)); res.Failed? ==> res.fault == Conflict
    ensures stop !in db.jobs && !StopOpen(db.jobs, db.runs[v].alloc) ==>
      && (var res := Perform(db, site, CConfirmHuman(v, pass, expected, stop)); res.Failed? ==> res.fault == Conflict)
      && (var res := Perform(db, site, CStopRun(v, was, stop)); res.Failed? ==> res.fault == Conflict)
  {
    hide Perform, FinalizeRun, FinalizeFailure, ConfirmHuman, StopRun, StopOpen;
    RunPerforms(db, site, v, pass, expected, was, stop);
    FinalFaults(db, site, v);
    if stop !in db.jobs && !StopOpen(db.jobs, db.runs[v].alloc) { WordFaults(db, site, v, pass, expected, was, stop); }
  }

  lemma RunPerforms(db: Db, site: Site, v: Id, pass: bool, expected: Option<RunState>, was: RunState, stop: Id)
    ensures Perform(db, site, CFinalizeRun(v)) == FinalizeRun(db, site, v)
    ensures Perform(db, site, CFinalizeFailure(v)) == FinalizeFailure(db, v)
    ensures Perform(db, site, CConfirmHuman(v, pass, expected, stop)) == ConfirmHuman(db, site, v, pass, expected, stop)
    ensures Perform(db, site, CStopRun(v, was, stop)) == StopRun(db, site, v, was, stop)
  {
    FinalPerforms(db, site, v);
    hide FinalizeRun, FinalizeFailure, ConfirmHuman, StopRun;
  }

  lemma FinalPerforms(db: Db, site: Site, v: Id)
    ensures Perform(db, site, CFinalizeRun(v)) == FinalizeRun(db, site, v)
    ensures Perform(db, site, CFinalizeFailure(v)) == FinalizeFailure(db, v)
  {
    hide FinalizeRun, FinalizeFailure;
  }

  lemma FinalFaults(db: Db, site: Site, v: Id)
    requires RunRooted(db, v)
    ensures var res := FinalizeRun(db, site, v); res.Failed? ==> res.fault == Conflict
    ensures var res := FinalizeFailure(db, v); res.Failed? ==> res.fault == Conflict
  {
    hide Conclusive, SetRun;
  }

  lemma WordFaults(db: Db, site: Site, v: Id, pass: bool, expected: Option<RunState>, was: RunState, stop: Id)
    requires RunRooted(db, v) && stop !in db.jobs && !StopOpen(db.jobs, db.runs[v].alloc)
    ensures var res := ConfirmHuman(db, site, v, pass, expected, stop); res.Failed? ==> res.fault == Conflict
    ensures var res := StopRun(db, site, v, was, stop); res.Failed? ==> res.fault == Conflict
  {
    OpenStopIs(db.jobs, db.runs[v].alloc);
    hide OpenStop, StopOpen, HasStop, Moved, NewStopJob;
  }

  // ---- Stops ----

  // The owner's stop: what does not run is not found; without an instance it conflicts, and so it does unless the request runs.
  // A stop in the way, or a wish made before, is an internal error.
  lemma UserStopRefused(h: History, site: Site, user: Id, owner: Owner, r: Id, nextGame: bool, stop: Id, a: Id)
    requires var db := Exec(h);
             && ActsFor(db, user, owner) && r in db.requests && db.requests[r].owner == owner
             && OpenAttempt(db, r, a)
    ensures var db := Exec(h);
            a in db.allocations && db.allocations[a].create in db.jobs
            && var res := Perform(db, site, CUserStop(user, r, nextGame, stop));
               var c := db.jobs[db.allocations[a].create];
               res.Failed? ==>
                 res == Failed(if !db.requests[r].state.RRunning? then Conflict
                               else if !db.allocations[a].state.ARunning? || !c.state.JSucceeded? then NotFound
                               else if c.instance == "" then Conflict else Internal)
  {
    RunKeepsInv(h);
    hide Exec, Inv, Perform;
    StopPerforms(Exec(h), site, user, r, nextGame, stop);
    UserStopFaults(Exec(h), site, user, owner, r, nextGame, stop, a);
  }

  lemma UserStopFaults(db: Db, site: Site, user: Id, owner: Owner, r: Id, nextGame: bool, stop: Id, a: Id)
    requires Inv(db) && ActsFor(db, user, owner) && r in db.requests && db.requests[r].owner == owner && OpenAttempt(db, r, a)
    ensures a in db.allocations && db.allocations[a].create in db.jobs
    ensures var res := UserStop(db, site, user, r, nextGame, stop);
            var c := db.jobs[db.allocations[a].create];
            res.Failed? ==>
              res == Failed(if !db.requests[r].state.RRunning? then Conflict
                            else if !db.allocations[a].state.ARunning? || !c.state.JSucceeded? then NotFound
                            else if c.instance == "" then Conflict else Internal)
  {
    WhoActs(db, user, owner);
    Operators.UserStopIs(db, site, user, r, nextGame, stop, Some(a));
    hide Inv, UserStop, Acting, ActsFor, HasOpen, OpenStop, NewStopJob, Moved, Advanced;
  }

  // The administrator's: what neither runs nor is held with a known instance is not found; a doubtful identity, a stop under
  // way or a request in any other state conflicts; a stop ID already used is an internal error.
  lemma AdminStopRefused(h: History, site: Site, r: Id, stop: Id, a: Id)
    requires r in Exec(h).requests && OpenAttempt(Exec(h), r, a)
    ensures var db := Exec(h);
            a in db.allocations && db.allocations[a].create in db.jobs
            && var res := Perform(db, site, CAdminStop(r, stop));
               var s, q, c := db.allocations[a].state, db.requests[r].state, db.jobs[db.allocations[a].create];
               res.Failed? ==>
                 res == Failed(if !q.RRunning? && !q.RQuarantined? && !q.RAbandoned? then Conflict
                               else if (!s.ARunning? && !s.AQuarantined?) || c.instance == "" then NotFound
                               else if (q.RAbandoned? && !s.AQuarantined?) || c.errorCode == "IDENTITY_UNVERIFIED" || StopOpen(db.jobs, a) then Conflict
                               else Internal)
  {
    RunKeepsInv(h);
    hide Exec, Inv, Perform;
    AdminStopPerforms(Exec(h), site, r, stop);
    AdminStopFaults(Exec(h), site, r, stop, a);
  }

  lemma AdminStopFaults(db: Db, site: Site, r: Id, stop: Id, a: Id)
    requires Inv(db) && r in db.requests && OpenAttempt(db, r, a)
    ensures a in db.allocations && db.allocations[a].create in db.jobs
    ensures var res := AdminStop(db, site, r, stop);
            var s, q, c := db.allocations[a].state, db.requests[r].state, db.jobs[db.allocations[a].create];
            res.Failed? ==>
              res == Failed(if !q.RRunning? && !q.RQuarantined? && !q.RAbandoned? then Conflict
                            else if (!s.ARunning? && !s.AQuarantined?) || c.instance == "" then NotFound
                            else if (q.RAbandoned? && !s.AQuarantined?) || c.errorCode == "IDENTITY_UNVERIFIED" || StopOpen(db.jobs, a) then Conflict
                            else Internal)
  {
    Operators.AdminStopIs(db, site, r, stop, Some(a));
    OpenStopIs(db.jobs, a);
    hide Inv, AdminStop, HasOpen, OpenStop, StopOpen, NewStopJob, Moved, Advanced;
  }

  // With nothing open there is nothing to stop.
  lemma NothingToStop(db: Db, site: Site, user: Id, owner: Owner, r: Id, nextGame: bool, stop: Id)
    requires ActsFor(db, user, owner) && r in db.requests && db.requests[r].owner == owner
    requires forall a :: a in db.allocations && db.allocations[a].purpose == ForRequest(r) ==>
      db.allocations[a].state.AReclaimed? || db.allocations[a].state.AReleasedNoEffect?
    ensures db.requests[r].state.RRunning? ==> Perform(db, site, CUserStop(user, r, nextGame, stop)) == Failed(NotFound)
    ensures var q := db.requests[r].state;
            Perform(db, site, CAdminStop(r, stop)) == Failed(if q.RRunning? || q.RQuarantined? || q.RAbandoned? then NotFound else Conflict)
  {
    WhoActs(db, user, owner);
    hide Acting, ActsFor;
    assert !HasOpen(db, r);
  }

  // ---- Parties ----

  lemma PartyRefused(db: Db, site: Site, user: Id, other: Id, party: Id, token: Id)
    ensures var res := Perform(db, site, CCreateParty(user, party, token));
            res.Failed? ==>
              res.fault == if site.maxPartySize.None? || user in db.members || RequestRules.BlockedBy(db, Solo(user)) then Conflict else Internal
    ensures var res := Perform(db, site, CJoinParty(user, token));
            res.Failed? && (token in db.invites ==> db.invites[token].party in db.parties) ==> res.fault == Conflict
    ensures var res := Perform(db, site, CLeaveParty(user));
            res.Failed? ==>
              res.fault == if user in db.members && !(db.members[user] in db.parties && db.parties[db.members[user]].live) then Internal else Forbidden
  {
    BusyIs(db, Solo(user));
    hide Busy, RequestRules.BlockedBy, Members;
  }

  lemma LeaderRefused(db: Db, site: Site, user: Id, other: Id, token: Id)
    ensures var res := Perform(db, site, CResetInvite(user, token));
            res.Failed? ==> res.fault == if user in db.members && LeadsParty(db, user, db.members[user]) then Internal else Forbidden
    ensures var res := Perform(db, site, CRemoveMember(user, other));
            res.Failed? ==> res.fault == if user == other then Conflict else Forbidden
    ensures var res := Perform(db, site, CDisbandParty(user));
            res.Failed? ==> res.fault == if user in db.members && LeadsParty(db, user, db.members[user]) then Conflict else Forbidden
  {
    hide Revoked, Members, PartyBusy, RemoveMember;
    RemoveRefused(db, site, user, other);
  }

  lemma RemoveRefused(db: Db, site: Site, user: Id, other: Id)
    ensures var res := Perform(db, site, CRemoveMember(user, other));
            res.Failed? ==> res.fault == if user == other then Conflict else Forbidden
  {
  }
}
