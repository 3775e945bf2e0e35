/** What an accepted fact about an instance leaves in every row, said in the rows. */
module FactRules {
  import opened Facts
  import opened Ledger
  import opened Calls
  import opened Coupling
  import opened CouplingSteps
  import opened CouplingRuns
  import opened Evolution
  import opened EvolutionSteps
  import opened RequestRules
  import opened NextGameRules
  import opened OperatorRules
  import opened JobRules
  import opened ReportRules
  import OneBlocking

  // ---- What a fact must be ----

  predicate FactWellFormed(f: Fact) {
    && f.instance != "" && 0 <= f.port <= 65535
    && (f.outcome.Gone? ==> f.lifecycle == "reclaimed" && f.process == "stopped" && f.cleanup == "complete")
    && (f.outcome.Active? ==> f.lifecycle == "active" && f.process == "running")
    && (f.join.Some? || f.joinError != "" ==> f.outcome.Active? && f.room == "ready")
    && (f.joinError != "" ==> TokenOk(f.joinError) && f.join.None?)
    && match f.join
       case None => true
       case Some(join) => join.wellFormed && join.localPort == f.port && 1 <= join.localPort <= 65535 && 1 <= join.publicPort <= 65535
  }

  lemma ValidFactIs(f: Fact)
    ensures ValidFact(f) <==> FactWellFormed(f)
  {
    ValidIs(Report(JSucceeded, "", "", "", "", f.join, f.joinError));
    hide ValidReport, TokenOk;
  }

  // The very instance the allocation's create job knows, on the allocation's node; an entry only of a running allocation and of
  // the node's present entry configuration.
  predicate FactTaken(db: Db, site: Site, node: Id, a: Id, f: Fact) {
    && FactWellFormed(f)
    && a in db.allocations && db.allocations[a].node == node
    && db.allocations[a].create in db.jobs && db.jobs[db.allocations[a].create].instance == f.instance
    && (f.join.Some? ==> node in site.nodes && site.nodes[node].entryRevision.Some?)
    && (!Over(db, a) ==>
          && (f.join.Some? || f.joinError != "" ==> db.allocations[a].state.ARunning?)
          && (f.join.Some? ==> site.nodes[node].entryRevision == Some(f.join.value.revision)))
  }

  predicate Over(db: Db, a: Id)
    requires a in db.allocations
  {
    db.allocations[a].state.AReclaimed? || db.allocations[a].state.AReleasedNoEffect?
  }

  // ---- What it leaves ----

  // The entry it publishes: never another port than the one published before.
  function Published(al: Allocation, f: Fact): Allocation {
    match f.join
    case Some(join) =>
      if al.join.None? || al.join.value.localPort in {0, join.localPort} then al.(join := f.join, joinError := "") else al
    case None => if f.joinError == "" then al else al.(joinError := f.joinError)
  }

  // It failed, and nothing has been done about it yet.
  predicate Failing(f: Fact, s: AllocationState) {
    f.outcome.Uncertain? && f.lifecycle == "failed" && f.process in {"stopped", "running"} && !s.AQuarantined? && !s.AStopping?
  }

  // It is not the one it should be, or runs on another port than the one published.
  predicate Doubtful(f: Fact, al: Allocation) {
    f.outcome.IdentityUnverified?
    || (f.outcome.Active? && al.join.Some? && al.join.value.localPort != 0 && al.join.value.localPort != f.port)
  }

  // A proved reclaim: the resource is given back and its request ends, with the wish that waits for it; behind a wish already
  // held, the request stays with its owner to leave.
  ghost predicate GivenBackBy(db: Db, d: Db, site: Site, a: Id, next: Id)
    requires a in db.allocations
  {
    && d == db.(allocations := d.allocations, requests := d.requests, intents := d.intents)
    && d.allocations == db.allocations[a := db.allocations[a].(state := AReclaimed)]
    && match db.allocations[a].purpose
       case ForRun(_) => d.requests == db.requests && d.intents == db.intents
       case ForRequest(r) =>
         if r in db.intents && db.intents[r].state.IPaused? then d.requests == db.requests && d.intents == db.intents
         else r in db.requests ==>
           Played(db.(requests := db.requests[r := if db.requests[r].state.RAbandoned? then db.requests[r] else db.requests[r].(state := REnded)]),
                  d, site, r, false, next)
  }

  // A run that waits for its room is ready with it, and joinable if it came with an entry.
  function RoomReady(m: map<Id, Run>, p: Purpose, joined: bool): map<Id, Run> {
    if p.ForRun? && p.run in m && m[p.run].state in {VCreatePending, VCreateObserving, VCreateUnknown, VReadyNoJoin}
    then
      if joined then m[p.run := m[p.run].(state := VAwaitingHuman, ready := true, joinable := true)]
      else if m[p.run].state.VReadyNoJoin? then m
      else m[p.run := m[p.run].(state := VReadyNoJoin, ready := true)]
    else m
  }

  ghost predicate FactLeaves(db: Db, d: Db, site: Site, a: Id, f: Fact, stop: Id, next: Id)
    requires a in db.allocations && db.allocations[a].create in db.jobs
  {
    if Over(db, a) then d == db
    else
      var al := db.allocations[a];
      var m := db.(allocations := db.allocations[a := Published(al, f)]);
      if f.outcome.Gone? then GivenBackBy(m, d, site, a, next)
      else if Failing(f, al.state) then
        && m.allocations[a].create in m.jobs
        && MovesAll(m, d, site, a, Create, JFailedWithEffect, "INSTANCE_FAILED", f.instance, None, "", stop, next)
      else
        exists e: Db :: (if Doubtful(f, al) then Isolated(m, e, a) else e == m)
          && d == e.(runs := if f.outcome.Active? && f.room == "ready" then RoomReady(e.runs, al.purpose, f.join.Some?) else e.runs)
  }

  // ---- The proof ----

  lemma PublishedIs(al: Allocation, f: Fact)
    requires FactWellFormed(f)
    ensures FactJoin(al, f) == Published(al, f) && SameAllocation(Published(al, f), al) && Published(al, f).state == al.state
  {
    hide TokenOk;
  }

  lemma RoomReadyIs(m: map<Id, Run>, p: Purpose, joined: bool)
    ensures RunsAfterFact(m, p, FactReady, joined) == RoomReady(m, p, joined)
  {
  }

  lemma MoveIs(f: Fact, al: Allocation)
    ensures FailedInstance(f, al.state) <==> Failing(f, al.state)
    ensures !f.outcome.Gone? && !Failing(f, al.state) ==>
      (Doubtful(f, al) <==> f.outcome.IdentityUnverified? || (f.outcome.Active? && JoinPort(al) != 0 && f.port != JoinPort(al)))
  {
  }

  lemma GoneLeaves(db: Db, site: Site, a: Id, f: Fact, port: int, stop: Id, next: Id)
    requires a in db.allocations && db.allocations[a].create in db.jobs && f.outcome.Gone? && next !in db.requests
    requires match db.allocations[a].purpose case ForRun(_) => true case ForRequest(r) => r in db.requests && PartyLives(db, db.requests[r].owner)
    ensures var res := FactMove(db, site, a, f, port, stop, next); res.Committed? && GivenBackBy(db, res.db, site, a, next)
  {
    hide Consume, Played, PartyLives;
    match db.allocations[a].purpose
    case ForRun(_) =>
    case ForRequest(r) =>
      if !PausedIntent(db, r) {
        var d := Reclaim(db, a);
        var m := db.(requests := d.requests);
        assert d.requests == db.requests[r := if db.requests[r].state.RAbandoned? then db.requests[r] else db.requests[r].(state := REnded)];
        LivesBeside(db, d, r);
        ConsumePlays(d, site, r, false, next);
        PlayedSame(d, m, Consume(d, site, r, false, next).db, site, r, false, next);
      }
  }

  lemma FailingLeaves(db: Db, site: Site, a: Id, f: Fact, port: int, stop: Id, next: Id)
    requires a in db.allocations && db.allocations[a].create in db.jobs && Failing(f, db.allocations[a].state) && !Over(db, a)
    requires f.instance != "" && db.jobs[db.allocations[a].create].instance == f.instance
    requires db.allocations[a].purpose.ForRequest? ==> db.allocations[a].purpose.request in db.requests
    ensures var res := FactMove(db, site, a, f, port, stop, next);
            res.Committed? && MovesAll(db, res.db, site, a, Create, JFailedWithEffect, "INSTANCE_FAILED", f.instance, None, "", stop, next)
  {
    FailureMoves(db, site, a, f.instance, "INSTANCE_FAILED", None, "", stop, next);
    hide ApplyReport, MovesAll;
  }

  lemma RestLeaves(db: Db, site: Site, a: Id, f: Fact, al: Allocation, stop: Id, next: Id)
    requires a in db.allocations && db.allocations[a].create in db.jobs && !f.outcome.Gone? && !Failing(f, db.allocations[a].state)
    requires al.state == db.allocations[a].state
    ensures var res := FactMove(db, site, a, f, JoinPort(al), stop, next);
            res.Committed? && if Doubtful(f, al) then Isolated(db, res.db, a) else res.db == db
  {
    MoveIs(f, al);
    IsolateIs(db, a);
    hide Isolate, Isolated, Doubtful, Failing, FailedInstance;
  }

  // In every reachable state a fact commits exactly when it is to be taken, and leaves exactly that.
  lemma FactTakes(h: History, site: Site, node: Id, a: Id, f: Fact, stop: Id, next: Id)
    requires next !in Exec(h).requests
    ensures var db := Exec(h);
            var res := Perform(db, site, CFact(node, a, f, stop, next));
            && (res.Committed? <==> FactTaken(db, site, node, a, f))
            && (res.Committed? ==> a in db.allocations && db.allocations[a].create in db.jobs && FactLeaves(db, res.db, site, a, f, stop, next))
  {
    RunKeepsInv(h);
    OneBlocking.AlwaysFair(h);
    hide Exec, Inv, OneBlocking.Fair, FactTaken, FactLeaves, InstanceFact;
    FactFrom(Exec(h), site, node, a, f, stop, next);
  }

  lemma FactFrom(db: Db, site: Site, node: Id, a: Id, f: Fact, stop: Id, next: Id)
    requires Inv(db) && OneBlocking.Fair(db) && next !in db.requests
    ensures var res := InstanceFact(db, site, node, a, f, stop, next);
            && (res.Committed? <==> FactTaken(db, site, node, a, f))
            && (res.Committed? ==> a in db.allocations && db.allocations[a].create in db.jobs && FactLeaves(db, res.db, site, a, f, stop, next))
  {
    hide Inv, OneBlocking.Fair, ApplyFact, ValidFact, FactWellFormed, FactLeaves;
    ValidFactIs(f);
    if FactWellFormed(f) && a in db.allocations && db.allocations[a].create in db.jobs {
      WellFormedNames(f);
      if db.jobs[db.allocations[a].create].instance == f.instance {
        if Over(db, a) { OverLeaves(db, site, a, f, stop, next); } else { AppliedLeaves(db, site, a, f, stop, next); }
      }
    }
  }

  lemma WellFormedNames(f: Fact)
    requires FactWellFormed(f)
    ensures f.instance != ""
  {
    hide TokenOk;
  }

  lemma OverLeaves(db: Db, site: Site, a: Id, f: Fact, stop: Id, next: Id)
    requires a in db.allocations && db.allocations[a].create in db.jobs && Over(db, a)
    ensures FactLeaves(db, db, site, a, f, stop, next)
  {
  }

  lemma AppliedLeaves(db: Db, site: Site, a: Id, f: Fact, stop: Id, next: Id)
    requires Inv(db) && OneBlocking.Fair(db) && next !in db.requests && FactWellFormed(f)
    requires a in db.allocations && db.allocations[a].create in db.jobs && !Over(db, a)
    requires f.instance != "" && db.jobs[db.allocations[a].create].instance == f.instance
    ensures var res := ApplyFact(db, site, a, f, stop, next); res.Committed? && FactLeaves(db, res.db, site, a, f, stop, next)
  {
    var al := db.allocations[a];
    var m := db.(allocations := db.allocations[a := Published(al, f)]);
    OwnerLives(db, a);
    LivesSame(db, m, a);
    PublishedIs(al, f);
    hide Inv, OneBlocking.Fair, FactMove, FactJoin, Published, PartyLives, GivenBackBy, MovesAll, Isolated, Doubtful, Failing, RunsAfterFact, RoomReady, FactWellFormed;
    if f.outcome.Gone? {
      GoneLeaves(m, site, a, f, JoinPort(al), stop, next);
    } else if Failing(f, al.state) {
      FailingActive(f, al.state);
      FailingLeaves(m, site, a, f, JoinPort(al), stop, next);
    } else {
      RestLeaves(m, site, a, f, al, stop, next);
      var e := FactMove(m, site, a, f, JoinPort(al), stop, next).db;
      RoomReadyIs(e.runs, al.purpose, f.join.Some?);
    }
  }

  lemma FailingActive(f: Fact, s: AllocationState)
    requires Failing(f, s)
    ensures !f.outcome.Active?
  {
  }
}
