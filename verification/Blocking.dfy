/** One blocking request per person, alone or through a party. */
module OneBlocking {
  import opened Facts
  import opened Ledger
  import opened Calls
  import opened Coupling
  import opened CouplingSteps
  import opened CouplingRuns
  import opened Evolution
  import opened EvolutionSteps
  import opened Lifecycle
  import opened NextGame

  ghost predicate OwnersDiffer(db: Db) {
    forall r, s :: r in db.requests && s in db.requests && r != s
                   && Blocking(db.requests[r].state) && Blocking(db.requests[s].state) ==>
      db.requests[r].owner != db.requests[s].owner
  }

  // Nobody in a party still waits or plays alone.
  ghost predicate SolosApart(db: Db) {
    forall r :: r in db.requests && Blocking(db.requests[r].state) && db.requests[r].owner.Solo? ==>
      db.requests[r].owner.user !in db.members
  }

  ghost predicate PartiesLive(db: Db) {
    && (forall u :: u in db.members ==> db.members[u] in db.parties && db.parties[db.members[u]].live)
    && (forall r :: r in db.requests && db.requests[r].owner.Group? && (Blocking(db.requests[r].state) || HasOpen(db, r)) ==>
          db.requests[r].owner.party in db.parties && db.parties[db.requests[r].owner.party].live)
  }

  ghost predicate Fair(db: Db) {
    OwnersDiffer(db) && SolosApart(db) && PartiesLive(db)
  }

  predicate PartyCall(call: Call) {
    call.CCreateParty? || call.CResetInvite? || call.CJoinParty? || call.CLeaveParty? || call.CRemoveMember? || call.CDisbandParty?
  }

  // ---- Calls that leave the parties alone ----

  lemma ApplyReportParties(db: Db, site: Site, a: Id, kind: JobKind, state: JobState, instance: Token, errorCode: string,
                           join: Option<JoinInfo>, joinError: string, stop: Id, next: Id)
    requires a in db.allocations && db.allocations[a].create in db.jobs
    ensures var res := ApplyReport(db, site, a, kind, state, instance, errorCode, join, joinError, stop, next);
            res.Committed? ==> res.db.members == db.members && res.db.parties == db.parties
  {
    hide OwnerOnly, MayStop, OneMoves, AutoStops, ApplyReport;
    ApplyReportRows(db, site, a, kind, state, instance, errorCode, join, joinError, stop, next);
  }

  lemma ReportParties(db: Db, site: Site, node: Id, j: Id, rep: Report, stop: Id, next: Id)
    ensures var res := ReportJob(db, site, node, j, rep, stop, next);
            res.Committed? ==> res.db.members == db.members && res.db.parties == db.parties
  {
    hide ApplyReport, ValidReport, ReportAllowed;
    if j in db.jobs {
      var d := Taken(db, j, rep);
      var job := db.jobs[j];
      if job.alloc in d.allocations && d.allocations[job.alloc].create in d.jobs {
        ApplyReportParties(d, site, job.alloc, job.kind, rep.state, Merge(job.instance, rep.instance), rep.errorCode,
                           rep.join, rep.joinError, stop, next);
      }
    }
  }

  lemma FactParties(db: Db, site: Site, node: Id, a: Id, f: Fact, stop: Id, next: Id)
    ensures var res := InstanceFact(db, site, node, a, f, stop, next);
            res.Committed? ==> res.db.members == db.members && res.db.parties == db.parties
  {
    hide FactMove, FactJoin, RunsAfterFact;
    if a in db.allocations && db.allocations[a].create in db.jobs {
      var d0 := db.(allocations := db.allocations[a := FactJoin(db.allocations[a], f)]);
      FactJoinSame(db.allocations[a], f);
      FactMoveRows(d0, site, a, f, JoinPort(db.allocations[a]), stop, next);
    }
  }

  lemma AbandonParties(db: Db, site: Site, user: Id, r: Id, next: Id)
    ensures var res := Abandon(db, site, user, r, next);
            res.Committed? ==> res.db.members == db.members && res.db.parties == db.parties
  {
    hide Consume, Acting, LatestAttempt, PausedIntent;
    if r in db.requests { ConsumeTables(SetRequest(db, r, RAbandoned), site, r, true, next); }
  }

  lemma RequestParties(db: Db, site: Site, call: Call)
    requires call.CNewRequest? || call.CUserCancel? || call.CAdminCancel? || call.CPlace? || call.CClose? || call.CClaim? || call.CPrepare?
    ensures Apply(db, site, call).members == db.members && Apply(db, site, call).parties == db.parties
  {
    hide Closable, Attempts, MaxAttempt, Rival, TrustedStop, Acting, Accepts, Moved, Preparable, Busy, FreshCheck, Advanced;
  }

  lemma OperatorParties(db: Db, site: Site, call: Call)
    requires call.CUserStop? || call.CAdminStop? || call.CTerminatePending? || call.CQuarantine? || call.CQuarantineSilent?
    ensures Apply(db, site, call).members == db.members && Apply(db, site, call).parties == db.parties
  {
    hide UserStop, AdminStop, TerminatePending, Quarantine, QuarantineSilent;
    match call
    case CUserStop(user, r, nextGame, stop) => UserStopParties(db, site, user, r, nextGame, stop);
    case CAdminStop(r, stop) => AdminStopParties(db, site, r, stop);
    case CTerminatePending(a) => TerminateParties(db, a);
    case CQuarantine(a) => QuarantineParties(db, site, a);
    case CQuarantineSilent(a) => QuarantineParties(db, site, a);
  }

  lemma QuarantineParties(db: Db, site: Site, a: Id)
    ensures var res := Quarantine(db, a); res.Committed? ==> res.db.members == db.members && res.db.parties == db.parties
    ensures var res := QuarantineSilent(db, site, a); res.Committed? ==> res.db.members == db.members && res.db.parties == db.parties
  {
    hide RunsAfterFact, Moved, Paused, OwnerAdvanced;
  }

  lemma UserStopParties(db: Db, site: Site, user: Id, r: Id, nextGame: bool, stop: Id)
    ensures var res := UserStop(db, site, user, r, nextGame, stop);
            res.Committed? ==> res.db.members == db.members && res.db.parties == db.parties
  {
    hide OpenStop, NewStopJob, Moved, Acting, Advanced;
  }

  lemma AdminStopParties(db: Db, site: Site, r: Id, stop: Id)
    ensures var res := AdminStop(db, site, r, stop);
            res.Committed? ==> res.db.members == db.members && res.db.parties == db.parties
  {
    hide OpenStop, NewStopJob, Moved, Advanced;
  }

  lemma TerminateParties(db: Db, a: Id)
    ensures var res := TerminatePending(db, a);
            res.Committed? ==> res.db.members == db.members && res.db.parties == db.parties
  {
    hide RunsAfterJob, Moved, Untouched;
  }

  lemma SameParties(db: Db, site: Site, call: Call)
    requires !PartyCall(call)
    ensures Apply(db, site, call).members == db.members && Apply(db, site, call).parties == db.parties
  {
    hide ReportJob, InstanceFact, Abandon, StartAllowed;
    if call.CUserStop? || call.CAdminStop? || call.CTerminatePending? || call.CQuarantine? || call.CQuarantineSilent? {
      OperatorParties(db, site, call);
      return;
    }
    if call.CReserveRun? || call.CConfirmHuman? || call.CStopRun? || call.CFinalizeRun? || call.CFinalizeFailure? {
      RunCallTables(db, site, call);
      hide Apply;
      return;
    }
    match call
    case CReport(node, j, rep, stop, next) => ReportParties(db, site, node, j, rep, stop, next);
    case CBegin(node, j, start, stop, next) => ReportParties(db, site, node, j, STARTED, stop, next);
    case CFact(node, a, fact, stop, next) => FactParties(db, site, node, a, fact, stop, next);
    case CAbandon(user, r, next) => AbandonParties(db, site, user, r, next);
    case _ => RequestParties(db, site, call);
  }

  // ---- Requests that block ----

  // Where a blocking request comes from: it blocked before, or it is new and its owner was free of others.
  ghost predicate BlockSource(db: Db, d: Db, r: Id)
    requires r in d.requests
  {
    || (r in db.requests && Blocking(db.requests[r].state) && db.requests[r].owner == d.requests[r].owner)
    || (r !in db.requests && !Busy(db, d.requests[r].owner)
        && (d.requests[r].owner.Solo? ==> d.requests[r].owner.user !in db.members)
        && (d.requests[r].owner.Group? ==> LiveParty(db, d.requests[r].owner.party)))
    || (r !in db.requests && exists s :: Replaces(db, d, r, s))
  }

  predicate LiveParty(db: Db, p: Id) {
    p in db.parties && db.parties[p].live
  }

  // r takes over from s, which stops blocking in the same step.
  predicate Replaces(db: Db, d: Db, r: Id, s: Id) {
    && r in d.requests && s in db.requests && s in d.requests && Blocking(db.requests[s].state) && !Blocking(d.requests[s].state)
    && d.requests[r].owner == db.requests[s].owner
  }

  lemma EndsReplaces(db: Db, site: Site, call: Call, d: Db, s: Id, r: Id)
    requires Inv(db) && NextOf(db, site, call, d, s, r) && r in d.requests && r !in db.requests
    ensures Replaces(db, d, r, s)
  {
    hide Coupled, Rooted, Acting;
    InvRequest(db, s);
    CoupledIntent(db, s);
    if db.intents[s].state.IPending? {
      assert OpenAttempt(db, s, db.intents[s].alloc);
      OpenFacts(db, s, db.intents[s].alloc);
    }
  }

  lemma BlockStarts(db: Db, site: Site, call: Call, d: Db, r: Id)
    requires Inv(db) && RequestsEvolve(db, d) && NextEvolves(db, site, call, d)
    requires r in d.requests && Blocking(d.requests[r].state)
    ensures BlockSource(db, d, r)
  {
    hide Inv, NextOf;
    if r in db.requests {
      assert RequestStep(db, d, r);
    } else {
      assert NewRequestCause(db, site, call, d, r);
      if exists s :: NextOf(db, site, call, d, s, r) {
        var s :| NextOf(db, site, call, d, s, r);
        EndsReplaces(db, site, call, d, s, r);
      }
    }
  }

  lemma StepOwnersDiffer(db: Db, d: Db)
    requires OwnersDiffer(db)
    requires forall r :: r in d.requests && Blocking(d.requests[r].state) ==> BlockSource(db, d, r)
    requires forall m, n :: m in d.requests && n in d.requests && m !in db.requests && n !in db.requests ==> m == n
    ensures OwnersDiffer(d)
  {
    forall r, s | r in d.requests && s in d.requests && r != s && Blocking(d.requests[r].state) && Blocking(d.requests[s].state)
      ensures d.requests[r].owner != d.requests[s].owner
    {
      if r in db.requests && s !in db.requests {
        OldAndNew(db, d, r, s);
      } else if s in db.requests && r !in db.requests {
        OldAndNew(db, d, s, r);
      } else {
        assert BlockSource(db, d, r) && BlockSource(db, d, s);
      }
    }
  }

  lemma OldAndNew(db: Db, d: Db, r: Id, n: Id)
    requires OwnersDiffer(db) && r in d.requests && n in d.requests && r in db.requests && n !in db.requests
    requires Blocking(d.requests[r].state) && BlockSource(db, d, r) && BlockSource(db, d, n)
    ensures d.requests[r].owner != d.requests[n].owner
  {
    assert BlockingOwned(db, d.requests[r].owner, r);
  }

  lemma StepSolosApart(db: Db, d: Db)
    requires SolosApart(db) && d.members == db.members
    requires forall r :: r in d.requests && Blocking(d.requests[r].state) ==> BlockSource(db, d, r)
    ensures SolosApart(d)
  {
    hide Busy;
  }

  // A request that holds an attempt after a step held one before, or was waiting.
  lemma OpenStarts(db: Db, site: Site, call: Call, d: Db, r: Id)
    requires Inv(db) && AllocationsEvolve(db, site, call, d) && RequestsEvolve(db, d) && Rooted(d) && HasOpen(d, r)
    ensures r in db.requests && r in d.requests && d.requests[r].owner == db.requests[r].owner
    ensures HasOpen(db, r) || db.requests[r].state.RWaiting?
  {
    var a :| OpenAttempt(d, r, a);
    hide Inv, Rooted, JobsEvolve, HasOpen;
    if a in db.allocations {
      OldOpen(db, site, call, d, r, a);
    } else {
      NewOpen(db, site, call, d, r, a);
    }
    hide AllocationsEvolve;
    assert RequestStep(db, d, r);
  }

  lemma NewOpen(db: Db, site: Site, call: Call, d: Db, r: Id, a: Id)
    requires AllocationsEvolve(db, site, call, d) && a !in db.allocations && OpenAttempt(d, r, a)
    ensures r in db.requests && db.requests[r].state.RWaiting?
  {
    hide Placeable, Reservable, NewCreateJob;
    assert NewAllocation(db, site, call, d, a);
    PlaceableWaits(db, site, r, call);
  }

  lemma OldOpen(db: Db, site: Site, call: Call, d: Db, r: Id, a: Id)
    requires Inv(db) && AllocationsEvolve(db, site, call, d) && a in db.allocations && OpenAttempt(d, r, a)
    ensures OpenAttempt(db, r, a) && r in db.requests && HasOpen(db, r)
  {
    hide Coupled, Rooted, Reclaims, NewAllocation;
    assert AllocationStep(db, call, d, a);
    InvAllocation(db, a);
    assert OpenAttempt(db, r, a);
  }

  lemma StepPartiesLive(db: Db, site: Site, call: Call, d: Db)
    requires Inv(db) && AllocationsEvolve(db, site, call, d) && RequestsEvolve(db, d) && Rooted(d)
    requires PartiesLive(db) && d.members == db.members && d.parties == db.parties
    requires forall r :: r in d.requests && Blocking(d.requests[r].state) ==> BlockSource(db, d, r)
    ensures PartiesLive(d)
  {
    hide Inv, AllocationsEvolve, RequestsEvolve, Rooted, Busy, HasOpen;
    forall r | r in d.requests && d.requests[r].owner.Group? && (Blocking(d.requests[r].state) || HasOpen(d, r))
      ensures LiveParty(d, d.requests[r].owner.party)
    {
      if Blocking(d.requests[r].state) {
        assert BlockSource(db, d, r);
      } else {
        OpenStarts(db, site, call, d, r);
      }
    }
  }

  lemma OpenSame(db: Db, d: Db, r: Id)
    requires d.allocations == db.allocations
    ensures HasOpen(d, r) <==> HasOpen(db, r)
  {
    assert forall a :: OpenAttempt(d, r, a) <==> OpenAttempt(db, r, a);
  }

  lemma PartyCallFair(db: Db, site: Site, call: Call)
    requires Fair(db) && PartyCall(call)
    ensures Fair(Apply(db, site, call))
  {
    hide Fair, CreateParty, ResetInvite, JoinParty, LeaveParty, RemoveMember, DisbandParty;
    match call
    case CCreateParty(user, party, token) => CreateFair(db, site, user, party, token);
    case CResetInvite(user, token) => ResetFair(db, user, token);
    case CJoinParty(user, token) => JoinCallFair(db, site, user, token);
    case CLeaveParty(user) => LeaveCallFair(db, user);
    case CRemoveMember(leader, target) => RemoveFair(db, leader, target);
    case CDisbandParty(user) => DisbandCallFair(db, user);
  }

  lemma CreateFair(db: Db, site: Site, user: Id, party: Id, token: Id)
    requires Fair(db)
    ensures var res := CreateParty(db, site, user, party, token); res.Committed? ==> Fair(res.db)
  {
    hide Fair, Busy;
    var res := CreateParty(db, site, user, party, token);
    if res.Committed? { JoinFair(db, res.db, user); }
  }

  lemma ResetFair(db: Db, user: Id, token: Id)
    requires Fair(db)
    ensures var res := ResetInvite(db, user, token); res.Committed? ==> Fair(res.db)
  {
    hide Fair, Revoked, Leads;
    var res := ResetInvite(db, user, token);
    if res.Committed? { JoinFair(db, res.db, user); }
  }

  lemma JoinCallFair(db: Db, site: Site, user: Id, token: Id)
    requires Fair(db)
    ensures var res := JoinParty(db, site, user, token); res.Committed? ==> Fair(res.db)
  {
    hide Fair, Busy, Members;
    var res := JoinParty(db, site, user, token);
    if res.Committed? { JoinFair(db, res.db, user); }
  }

  lemma LeaveCallFair(db: Db, user: Id)
    requires Fair(db)
    ensures var res := LeaveParty(db, user); res.Committed? ==> Fair(res.db)
  {
    hide Fair;
    var res := LeaveParty(db, user);
    if res.Committed? { LeaveFair(db, res.db, user); }
  }

  lemma RemoveFair(db: Db, leader: Id, target: Id)
    requires Fair(db)
    ensures var res := RemoveMember(db, leader, target); res.Committed? ==> Fair(res.db)
  {
    hide Fair, Leads;
    var res := RemoveMember(db, leader, target);
    if res.Committed? { LeaveFair(db, res.db, target); }
  }

  lemma DisbandCallFair(db: Db, user: Id)
    requires Fair(db)
    ensures var res := DisbandParty(db, user); res.Committed? ==> Fair(res.db)
  {
    hide Fair, PartyBusy, Members, Revoked;
    var res := DisbandParty(db, user);
    if res.Committed? { DisbandFair(db, res.db, user); }
  }

  lemma LeaveFair(db: Db, d: Db, user: Id)
    requires Fair(db) && d.requests == db.requests && d.allocations == db.allocations && d.parties == db.parties
    requires d.members == db.members || d.members == db.members - {user}
    ensures Fair(d)
  {
    forall r ensures HasOpen(d, r) <==> HasOpen(db, r) { OpenSame(db, d, r); }
    hide HasOpen;
  }

  // Someone who is not busy alone joins a live party.
  lemma JoinFair(db: Db, d: Db, user: Id)
    requires Fair(db) && d.requests == db.requests && d.allocations == db.allocations
    requires (d.members == db.members && d.parties == db.parties) || (user !in db.members && !Busy(db, Solo(user)) && user in d.members
                         && d.members == db.members[user := d.members[user]] && LiveParty(d, d.members[user])
                         && (forall p :: p in db.parties ==> p in d.parties && d.parties[p] == db.parties[p]))
    ensures Fair(d)
  {
    forall r ensures HasOpen(d, r) <==> HasOpen(db, r) { OpenSame(db, d, r); }
    hide HasOpen;
    forall r | d.members != db.members && r in d.requests && Blocking(d.requests[r].state) && d.requests[r].owner.Solo?
      ensures d.requests[r].owner.user !in d.members
    {
      assert BlockingOwned(db, d.requests[r].owner, r);
    }
  }

  lemma DisbandFair(db: Db, d: Db, user: Id)
    requires Fair(db) && d.requests == db.requests && d.allocations == db.allocations
    requires d == db || (Leads(db, user) && !PartyBusy(db, db.members[user])
                         && d.members == db.members - Members(db, db.members[user])
                         && d.parties == db.parties[db.members[user] := Party(None, false)])
    ensures Fair(d)
  {
    forall r ensures HasOpen(d, r) <==> HasOpen(db, r) { OpenSame(db, d, r); }
    hide HasOpen;
    if d != db {
      var p := db.members[user];
      assert forall u :: u in d.members ==> u in db.members && d.members[u] == db.members[u] && db.members[u] != p;
      forall r | r in d.requests && d.requests[r].owner == Group(p)
        ensures !Blocking(d.requests[r].state) && !HasOpen(d, r)
      {
      }
    }
  }

  lemma StepFair(db: Db, site: Site, call: Call)
    requires Inv(db) && Fair(db)
    ensures Fair(Apply(db, site, call))
  {
    if PartyCall(call) {
      PartyCallFair(db, site, call);
    } else {
      var d := Apply(db, site, call);
      SameParties(db, site, call);
      CallEvolves(db, site, call);
      CallNext(db, site, call);
      CallKeepsInv(db, site, call);
      assert forall m, n :: m in d.requests && n in d.requests && m !in db.requests && n !in db.requests ==> m == n;
      hide NextEvolves, AllocationsEvolve, RequestsEvolve, JobsEvolve, Apply, BlockSource, OwnersDiffer, SolosApart, PartiesLive, Coupled, Rooted;
      forall r | r in d.requests && Blocking(d.requests[r].state)
        ensures BlockSource(db, d, r)
      {
        BlockStarts(db, site, call, d, r);
      }
      StepOwnersDiffer(db, d);
      StepSolosApart(db, d);
      StepPartiesLive(db, site, call, d);
    }
  }

  lemma {:induction false} AlwaysFair(h: History)
    ensures Fair(Exec(h))
    decreases |h|
  {
    if h != [] {
      var m := h[..|h|-1];
      AlwaysFair(m);
      RunKeepsInv(m);
      StepFair(Exec(m), h[|h|-1].0, h[|h|-1].1);
    }
  }

  // The blocking requests of a person: their own, and those of the party they belong to.
  ghost function BlockedBy(db: Db, user: Id): set<Id> {
    set r | r in db.requests && Blocking(db.requests[r].state)
            && (db.requests[r].owner == Solo(user) || (user in db.members && db.requests[r].owner == Group(db.members[user])))
  }

  // Through any requests, next games, abandons, joins, leaves, removals and disbandings,
  // nobody is ever behind two blocking requests.
  lemma OneBlockingRequest(h: History, user: Id)
    ensures |BlockedBy(Exec(h), user)| <= 1
  {
    AlwaysFair(h);
    var db := Exec(h);
    var s := BlockedBy(db, user);
    if s != {} {
      var r :| r in s;
      assert forall x :: x in s ==> x == r;
      assert s == {r};
    }
  }

  // A proved reclaim is never lost to its next game: whatever the site says, the stop's success commits.
  lemma ReclaimCommits(h: History, site: Site, node: Id, j: Id, rep: Report, stop: Id, next: Id)
    requires var db := Exec(h);
             && j in db.jobs && db.jobs[j].node == node && db.jobs[j].kind.Stop? && !JobTerminal(db.jobs[j].state)
             && ValidReport(rep) && ReportAllowed(db.jobs[j], j in db.frozen, rep) && rep.state.JSucceeded?
             && next !in db.requests
    ensures var db := Exec(h);
            var res := ReportJob(db, site, node, j, rep, stop, next);
            && res.Committed? && db.jobs[j].alloc in res.db.allocations && Terminal(res.db.allocations[db.jobs[j].alloc].state)
  {
    RunKeepsInv(h);
    AlwaysFair(h);
    ReclaimCommitsFrom(Exec(h), site, node, j, rep, stop, next);
  }

  lemma ReclaimCommitsFrom(db: Db, site: Site, node: Id, j: Id, rep: Report, stop: Id, next: Id)
    requires Inv(db) && Fair(db)
    requires j in db.jobs && db.jobs[j].node == node && db.jobs[j].kind.Stop? && !JobTerminal(db.jobs[j].state)
    requires ValidReport(rep) && ReportAllowed(db.jobs[j], j in db.frozen, rep) && rep.state.JSucceeded?
    requires next !in db.requests
    ensures var res := ReportJob(db, site, node, j, rep, stop, next);
            && res.Committed? && db.jobs[j].alloc in res.db.allocations && Terminal(res.db.allocations[db.jobs[j].alloc].state)
  {
    hide Coupled, Rooted, ValidReport, ReportAllowed, ConsumeFor, Settle, OwnersDiffer, SolosApart;
    TakenRooted(db, j, rep);
    var job := db.jobs[j];
    var a := job.alloc;
    InvAllocation(db, a);
    var d0 := Taken(db, j, rep);
    var p := db.allocations[a].purpose;
    var t := Target(Stop, JSucceeded, rep.errorCode, ModeOf(d0, p), PausedFor(d0, p));
    var mid := Settle(d0, site, a, t.value.0, t.value.1, Stop, JSucceeded, rep.join, rep.joinError);
    SettleState(d0, site, a, t.value.0, t.value.1, Stop, JSucceeded, rep.join, rep.joinError);
    SettleKeys(d0, site, a, t.value.0, t.value.1, Stop, JSucceeded, rep.join, rep.joinError);
    if !Terminal(db.allocations[a].state) && !db.allocations[a].state.AQuarantined? {
      EndCommits(db, mid, site, a, next);
    }
  }

  lemma EndCommits(db: Db, mid: Db, site: Site, a: Id, next: Id)
    requires PartiesLive(db) && a in db.allocations && !Terminal(db.allocations[a].state)
    requires next !in mid.requests && mid.parties == db.parties && mid.requests.Keys == db.requests.Keys
    requires forall r :: db.allocations[a].purpose == ForRequest(r) && r in db.requests ==> mid.requests[r].owner == db.requests[r].owner
    requires a in mid.allocations
    ensures var res := ConsumeFor(mid, site, db.allocations[a].purpose, next);
            res.Committed? && a in res.db.allocations && res.db.allocations[a] == mid.allocations[a]
  {
    var p := db.allocations[a].purpose;
    if p.ForRequest? && p.request in mid.requests {
      var r := p.request;
      assert OpenAttempt(db, r, a);
      ConsumeTables(mid, site, r, false, next);
      ConsumeCommits(mid, site, r, false, next);
      hide Consume;
    }
  }

  lemma ConsumeCommits(d: Db, site: Site, r: Id, afterAbandon: bool, next: Id)
    requires r in d.requests && next !in d.requests
    requires d.requests[r].owner.Group? ==> LiveParty(d, d.requests[r].owner.party)
    ensures Consume(d, site, r, afterAbandon, next).Committed?
  {
  }

  // The same for a fact that proves the instance gone.
  lemma GoneCommits(h: History, site: Site, node: Id, a: Id, f: Fact, stop: Id, next: Id)
    requires var db := Exec(h);
             && a in db.allocations && db.allocations[a].node == node && ValidFact(f) && f.outcome.Gone?
             && db.allocations[a].create in db.jobs && db.jobs[db.allocations[a].create].instance == f.instance
             && next !in db.requests
    ensures var res := InstanceFact(Exec(h), site, node, a, f, stop, next);
            && res.Committed? && a in res.db.allocations && Terminal(res.db.allocations[a].state)
  {
    RunKeepsInv(h);
    AlwaysFair(h);
    hide Exec;
    GoneCommitsFrom(Exec(h), site, node, a, f, stop, next);
  }

  lemma GoneCommitsFrom(db: Db, site: Site, node: Id, a: Id, f: Fact, stop: Id, next: Id)
    requires Inv(db) && Fair(db) && next !in db.requests
    requires a in db.allocations && db.allocations[a].node == node && ValidFact(f) && f.outcome.Gone?
    requires db.allocations[a].create in db.jobs && db.jobs[db.allocations[a].create].instance == f.instance
    ensures var res := InstanceFact(db, site, node, a, f, stop, next);
            && res.Committed? && a in res.db.allocations && Terminal(res.db.allocations[a].state)
  {
    hide Coupled, Rooted, ConsumeFor, OwnersDiffer, SolosApart, FactJoin, PausedIntent, ReclaimedStatus;
    FactJoinSame(db.allocations[a], f);
    var d0 := db.(allocations := db.allocations[a := FactJoin(db.allocations[a], f)]);
    if !Terminal(db.allocations[a].state) {
      EndCommits(db, Reclaim(d0, a), site, a, next);
    }
  }

  // The latest attempt of a quarantined request is one its owner may leave behind.
  lemma MayAbandon(db: Db, r: Id)
    requires r in db.requests && Coupled(db, r) && db.requests[r].state.RQuarantined?
    ensures exists a :: a in db.allocations && LatestAttempt(db, r, a)
    ensures forall a :: LatestAttempt(db, r, a) ==>
      db.allocations[a].state.AQuarantined? || (db.allocations[a].state.AReclaimed? && PausedIntent(db, r))
  {
    var o := if HasOpen(db, r) then OpenOf(db, r) else db.intents[r].alloc;
    assert AttemptOf(db, r, o) && !db.allocations[o].state.AReleasedNoEffect?;
    LastKept(db, r, o);
  }

  // An attempt that had an effect is the only latest one.
  lemma LastKept(db: Db, r: Id, o: Id)
    requires Ordered(db, r) && AttemptOf(db, r, o) && !db.allocations[o].state.AReleasedNoEffect?
    ensures LatestAttempt(db, r, o) && forall a :: LatestAttempt(db, r, a) ==> a == o
  {
  }

  // And for the owner's abandon: a quarantined request of a reachable state can always be abandoned.
  lemma AbandonCommits(h: History, site: Site, user: Id, r: Id, next: Id)
    requires var db := Exec(h);
             && r in db.requests && db.requests[r].state.RQuarantined? && Acting(db, user) == Acts(db.requests[r].owner)
             && next !in db.requests
    ensures var res := Abandon(Exec(h), site, user, r, next);
            && res.Committed? && r in res.db.requests && res.db.requests[r].state.RAbandoned?
  {
    RunKeepsInv(h);
    hide Exec, Coupled;
    InvRequest(Exec(h), r);
    AbandonCommitsFrom(Exec(h), site, user, r, next);
  }

  lemma AbandonCommitsFrom(db: Db, site: Site, user: Id, r: Id, next: Id)
    requires r in db.requests && Coupled(db, r) && db.requests[r].state.RQuarantined?
    requires Acting(db, user) == Acts(db.requests[r].owner) && next !in db.requests
    ensures var res := Abandon(db, site, user, r, next);
            && res.Committed? && r in res.db.requests && res.db.requests[r].state.RAbandoned?
  {
    MayAbandon(db, r);
    var d := SetRequest(db, r, RAbandoned);
    ConsumeCommits(d, site, r, true, next);
    ConsumeTables(d, site, r, true, next);
    hide Coupled, Consume, LatestAttempt, PausedIntent;
  }
}