/** What stops, releases by hand, quarantine and abandonment ask for and leave, said in the rows. */
module OperatorRules {
  import opened Facts
  import opened Ledger
  import opened Calls
  import opened Coupling
  import opened CouplingSteps
  import opened CouplingRuns
  import opened Evolution
  import opened EvolutionSteps
  import opened Lifecycle
  import opened Exclusion
  import opened Stops
  import opened RequestRules
  import Operators

  // A stop of allocation a queued beside the other jobs: pending, on its node, aimed at the instance its create job knows.
  predicate Queued(db: Db, jobs: map<Id, Job>, a: Id, stop: Id, now: int)
    requires a in db.allocations && db.allocations[a].create in db.jobs
  {
    && stop !in db.jobs && stop in jobs && jobs == db.jobs[stop := jobs[stop]]
    && var s, c := jobs[stop], db.jobs[db.allocations[a].create];
       && s.kind.Stop? && s.alloc == a && s.node == db.allocations[a].node && s.state.JPending?
       && s.instance == c.instance && s.instance != "" && s.capability == c.capability && s.createdAt == now
       && s.operation == "" && s.errorCode == "" && !s.everClaimed && !s.reported
  }

  predicate StopOpen(jobs: map<Id, Job>, a: Id) {
    exists s :: s in jobs && jobs[s].alloc == a && jobs[s].kind.Stop?
                && (jobs[s].state.JPending? || jobs[s].state.JClaimed? || jobs[s].state.JAccepted? || jobs[s].state.JUnknown?)
  }

  lemma OpenStopIs(jobs: map<Id, Job>, a: Id)
    ensures OpenStop(jobs, a) <==> StopOpen(jobs, a)
  {
  }

  lemma StopQueues(db: Db, site: Site, a: Id, stop: Id)
    requires a in db.allocations && db.allocations[a].create in db.jobs && db.jobs[db.allocations[a].create].instance != ""
    requires stop !in db.jobs
    ensures Queued(db, db.jobs[stop := NewStopJob(db, a, site.now)], a, stop, site.now)
  {
  }

  // ---- The owner's stop ----

  // A running resource with a known instance and no open stop; for a next game, no earlier one asked for.
  ghost predicate MayStop(db: Db, r: Id, a: Id, nextGame: bool, stop: Id)
    requires a in db.allocations && db.allocations[a].create in db.jobs
  {
    var c := db.jobs[db.allocations[a].create];
    && db.allocations[a].state.ARunning? && c.state.JSucceeded? && c.instance != ""
    && stop !in db.jobs && !StopOpen(db.jobs, a) && (nextGame ==> r !in db.intents)
  }

  // The owner's stop of a running request with open attempt a commits exactly then. It queues the stop, and with a next
  // game it keeps the wish.
  lemma UserStopQueues(h: History, site: Site, user: Id, owner: Owner, r: Id, nextGame: bool, stop: Id, a: Id)
    requires var db := Exec(h);
             && ActsFor(db, user, owner) && r in db.requests && db.requests[r].owner == owner && db.requests[r].state.RRunning?
             && OpenAttempt(db, r, a)
    ensures var db := Exec(h);
            var res := Perform(db, site, CUserStop(user, r, nextGame, stop));
            && a in db.allocations && db.allocations[a].create in db.jobs
            && (res.Committed? <==> MayStop(db, r, a, nextGame, stop))
            && (res.Committed? ==> StoppedBy(db, res.db, site, r, a, nextGame, stop))
  {
    RunKeepsInv(h);
    hide Exec, Inv, Perform, MayStop, StoppedBy;
    StopPerforms(Exec(h), site, user, r, nextGame, stop);
    UserStopFrom(Exec(h), site, user, owner, r, nextGame, stop, a);
  }

  ghost predicate StoppedBy(db: Db, d: Db, site: Site, r: Id, a: Id, nextGame: bool, stop: Id)
    requires a in db.allocations && db.allocations[a].create in db.jobs && r in db.requests
  {
    && Queued(db, d.jobs, a, stop, site.now)
    && d == db.(jobs := d.jobs,
                allocations := db.allocations[a := db.allocations[a].(state := AStopping)],
                requests := db.requests[r := db.requests[r].(state := RStopping)],
                intents := if nextGame then db.intents[r := Intent(a, IPending, None, None)] else db.intents)
  }

  lemma StopPerforms(db: Db, site: Site, user: Id, r: Id, nextGame: bool, stop: Id)
    ensures Perform(db, site, CUserStop(user, r, nextGame, stop)) == UserStop(db, site, user, r, nextGame, stop)
  {
  }

  lemma RunningStops(db: Db, site: Site, r: Id, a: Id, nextGame: bool, stop: Id)
    requires r in db.requests && db.requests[r].state.RRunning? && a in db.allocations && db.allocations[a].create in db.jobs
    ensures var res := Operators.StopsRunning(db, site, r, a, nextGame, stop);
            && (res.Committed? <==> MayStop(db, r, a, nextGame, stop))
            && (res.Committed? ==> StoppedBy(db, res.db, site, r, a, nextGame, stop))
  {
    OpenStopIs(db.jobs, a);
    hide OpenStop, StopOpen, Queued, NewStopJob;
    if db.jobs[db.allocations[a].create].instance != "" && stop !in db.jobs { StopQueues(db, site, a, stop); }
  }

  lemma UserStopFrom(db: Db, site: Site, user: Id, owner: Owner, r: Id, nextGame: bool, stop: Id, a: Id)
    requires Inv(db) && ActsFor(db, user, owner) && r in db.requests && db.requests[r].owner == owner && db.requests[r].state.RRunning?
    requires OpenAttempt(db, r, a)
    ensures a in db.allocations && db.allocations[a].create in db.jobs
    ensures var res := UserStop(db, site, user, r, nextGame, stop);
            && (res.Committed? <==> MayStop(db, r, a, nextGame, stop))
            && (res.Committed? ==> StoppedBy(db, res.db, site, r, a, nextGame, stop))
  {
    WhoActs(db, user, owner);
    Operators.UserStopIs(db, site, user, r, nextGame, stop, Some(a));
    RunningStops(db, site, r, a, nextGame, stop);
    hide Inv, UserStop, Acting, ActsFor, HasOpen, MayStop, StoppedBy, Operators.StopsRunning;
  }

  // Of a request that is stopping or has ended, the owner's stop says so again and changes nothing; asked with a next game
  // that was not asked for in time, it is refused.
  lemma UserStopRepeats(db: Db, site: Site, user: Id, owner: Owner, r: Id, nextGame: bool, stop: Id)
    requires ActsFor(db, user, owner) && r in db.requests && db.requests[r].owner == owner && !db.requests[r].state.RRunning?
    ensures var res := Perform(db, site, CUserStop(user, r, nextGame, stop));
            && (res.Committed? <==> (db.requests[r].state.RStopping? || db.requests[r].state.REnded?) && (nextGame ==> r in db.intents))
            && (res.Committed? ==> res.db == db)
  {
    WhoActs(db, user, owner);
    hide Acting, ActsFor, HasOpen;
  }

  // ---- The administrator's stop ----

  ghost predicate MayStopHeld(db: Db, r: Id, a: Id, stop: Id)
    requires r in db.requests && a in db.allocations && db.allocations[a].create in db.jobs
  {
    var al, c, q := db.allocations[a].state, db.jobs[db.allocations[a].create], db.requests[r].state;
    && (((q.RRunning? || q.RQuarantined?) && (al.ARunning? || al.AQuarantined?)) || (q.RAbandoned? && al.AQuarantined?))
    && c.instance != "" && c.errorCode != "IDENTITY_UNVERIFIED" && stop !in db.jobs && !StopOpen(db.jobs, a)
  }

  ghost predicate StoppedHeld(db: Db, d: Db, site: Site, r: Id, a: Id, stop: Id)
    requires r in db.requests && a in db.allocations && db.allocations[a].create in db.jobs
  {
    && Queued(db, d.jobs, a, stop, site.now)
    && d == if db.requests[r].state.RRunning?
            then db.(jobs := d.jobs,
                     allocations := db.allocations[a := db.allocations[a].(state := AStopping)],
                     requests := db.requests[r := db.requests[r].(state := RStopping)])
            else db.(jobs := d.jobs)
  }

  // It also reaches a quarantined resource, which it leaves isolated, but never one whose identity is in doubt.
  lemma AdminStopQueues(h: History, site: Site, r: Id, stop: Id, a: Id)
    requires r in Exec(h).requests && OpenAttempt(Exec(h), r, a)
    ensures var db := Exec(h);
            var res := Perform(db, site, CAdminStop(r, stop));
            && a in db.allocations && db.allocations[a].create in db.jobs
            && (res.Committed? <==> MayStopHeld(db, r, a, stop))
            && (res.Committed? ==> StoppedHeld(db, res.db, site, r, a, stop))
  {
    RunKeepsInv(h);
    hide Exec, Inv, Perform, MayStopHeld, StoppedHeld;
    AdminStopPerforms(Exec(h), site, r, stop);
    AdminStopFrom(Exec(h), site, r, stop, a);
  }

  lemma AdminStopPerforms(db: Db, site: Site, r: Id, stop: Id)
    ensures Perform(db, site, CAdminStop(r, stop)) == AdminStop(db, site, r, stop)
  {
  }

  lemma HeldStops(db: Db, site: Site, r: Id, a: Id, stop: Id)
    requires r in db.requests && a in db.allocations && db.allocations[a].create in db.jobs
    ensures var res := Operators.StopsHeld(db, site, r, a, stop);
            var q := db.requests[r].state;
            && ((res.Committed? && (q.RRunning? || q.RQuarantined? || q.RAbandoned?)) <==> MayStopHeld(db, r, a, stop))
            && (res.Committed? ==> StoppedHeld(db, res.db, site, r, a, stop))
  {
    OpenStopIs(db.jobs, a);
    hide OpenStop, StopOpen, Queued, NewStopJob;
    if db.jobs[db.allocations[a].create].instance != "" && stop !in db.jobs { StopQueues(db, site, a, stop); }
  }

  lemma AdminStopFrom(db: Db, site: Site, r: Id, stop: Id, a: Id)
    requires Inv(db) && r in db.requests && OpenAttempt(db, r, a)
    ensures a in db.allocations && db.allocations[a].create in db.jobs
    ensures var res := AdminStop(db, site, r, stop);
            && (res.Committed? <==> MayStopHeld(db, r, a, stop))
            && (res.Committed? ==> StoppedHeld(db, res.db, site, r, a, stop))
  {
    Operators.AdminStopIs(db, site, r, stop, Some(a));
    HeldStops(db, site, r, a, stop);
    hide Inv, AdminStop, HasOpen, MayStopHeld, StoppedHeld, Operators.StopsHeld;
  }

  // ---- Release by hand ----

  // A create job nobody has ever taken, of an allocation still reserved.
  predicate NeverTaken(db: Db, a: Id)
    requires a in db.allocations && db.allocations[a].create in db.jobs
  {
    var c := db.jobs[db.allocations[a].create];
    && db.allocations[a].state.AReserved? && c.state.JPending? && !c.everClaimed && !c.reported
    && c.instance == "" && c.operation == "" && db.allocations[a].create !in db.frozen
  }

  // Job, allocation, and request or run go together: rejected, released, unavailable or failed.
  ghost predicate ReleasedByHand(db: Db, d: Db, a: Id)
    requires a in db.allocations && db.allocations[a].create in db.jobs
  {
    var j, p := db.allocations[a].create, db.allocations[a].purpose;
    && d.allocations == db.allocations[a := db.allocations[a].(state := AReleasedNoEffect)]
    && j in d.jobs && d.jobs == db.jobs[j := d.jobs[j]]
    && d.jobs[j].state.JRejectedNoEffect? && d.jobs[j].errorCode == "PENDING_TERMINATED"
    && match p
       case ForRequest(r) => r in db.requests && d.requests == db.requests[r := db.requests[r].(state := RUnavailable)] && d.runs == db.runs
       case ForRun(v) =>
         && d.requests == db.requests && v in db.runs
         && d.runs == db.runs[v := if db.runs[v].state.VPassed? then db.runs[v] else db.runs[v].(state := VFailed)]
  }

  // Release by hand is for those only, and done once: of a job released so before it says so again.
  lemma TerminateReleases(h: History, site: Site, a: Id)
    requires a in Exec(h).allocations
    ensures var db := Exec(h);
            var res := Perform(db, site, CTerminatePending(a));
            && db.allocations[a].create in db.jobs
            && var c := db.jobs[db.allocations[a].create];
               && (res.Committed? <==> NeverTaken(db, a) || (db.allocations[a].state.AReleasedNoEffect? && c.state.JRejectedNoEffect?
                                                             && c.errorCode == "PENDING_TERMINATED"))
               && (res.Committed? ==> if NeverTaken(db, a) then ReleasedByHand(db, res.db, a) else res.db == db)
  {
    RunKeepsInv(h);
    hide Exec, Coupled, TerminatePending, NeverTaken, ReleasedByHand;
    InvAllocation(Exec(h), a);
    ForRunRooted(Exec(h), a);
    TerminateFrom(Exec(h), a);
  }

  lemma ForRunRooted(db: Db, a: Id)
    requires Rooted(db) && a in db.allocations
    ensures db.allocations[a].purpose.ForRun? ==> db.allocations[a].purpose.run in db.runs
  {
  }

  lemma TerminateFrom(db: Db, a: Id)
    requires a in db.allocations && db.allocations[a].create in db.jobs
    requires db.allocations[a].purpose.ForRequest? ==> db.allocations[a].purpose.request in db.requests
    requires db.allocations[a].purpose.ForRun? ==> db.allocations[a].purpose.run in db.runs
    ensures var res := TerminatePending(db, a);
            var c := db.jobs[db.allocations[a].create];
            && (res.Committed? <==> NeverTaken(db, a) || (db.allocations[a].state.AReleasedNoEffect? && c.state.JRejectedNoEffect?
                                                          && c.errorCode == "PENDING_TERMINATED"))
            && (res.Committed? ==> if NeverTaken(db, a) then ReleasedByHand(db, res.db, a) else res.db == db)
  {
    hide ReleasedByHand, RunsAfterJob, Moved;
    if NeverTaken(db, a) {
      hide NeverTaken;
      TerminateRows(db, a);
    }
  }

  lemma TerminateRows(db: Db, a: Id)
    requires a in db.allocations && db.allocations[a].create in db.jobs && NeverTaken(db, a)
    requires db.allocations[a].purpose.ForRequest? ==> db.allocations[a].purpose.request in db.requests
    requires db.allocations[a].purpose.ForRun? ==> db.allocations[a].purpose.run in db.runs
    ensures var res := TerminatePending(db, a); res.Committed? && ReleasedByHand(db, res.db, a)
  {
  }

  // ---- Quarantine ----

  // The allocation, its owner unless abandoned, its run unless closed, and a pending next game are held together.
  ghost predicate Isolated(db: Db, d: Db, a: Id)
    requires a in db.allocations
  {
    && d.jobs == db.jobs && d.frozen == db.frozen && d.members == db.members && d.parties == db.parties && d.invites == db.invites
    && d.allocations == db.allocations[a := db.allocations[a].(state := AQuarantined)]
    && match db.allocations[a].purpose
       case ForRequest(r) =>
         && d.runs == db.runs
         && d.requests == (if r in db.requests && !db.requests[r].state.RAbandoned?
                           then db.requests[r := db.requests[r].(state := RQuarantined)] else db.requests)
         && d.intents == (if r in db.intents && db.intents[r].state.IPending?
                          then db.intents[r := db.intents[r].(state := IPaused)] else db.intents)
       case ForRun(v) =>
         && d.requests == db.requests && d.intents == db.intents
         && d.runs == (if v in db.runs && !db.runs[v].state.VPassed? && !db.runs[v].state.VFailed?
                       then db.runs[v := db.runs[v].(state := VQuarantined)] else db.runs)
  }

  lemma IsolateIs(db: Db, a: Id)
    requires a in db.allocations
    ensures Isolated(db, Isolate(db, a), a)
  {
  }

  // An operator isolates any resource that is still held, unless it was only reserved and its create job never taken.
  lemma QuarantineIsolates(db: Db, site: Site, a: Id)
    requires a in db.allocations && db.allocations[a].create in db.jobs
    ensures var res := Perform(db, site, CQuarantine(a));
            var s := db.allocations[a].state;
            && (res.Committed? <==>
                  !s.AReclaimed? && !s.AReleasedNoEffect? && !(s.AReserved? && db.jobs[db.allocations[a].create].state.JPending?))
            && (res.Committed? ==> if s.AQuarantined? then res.db == db else Isolated(db, res.db, a))
  {
    IsolateIs(db, a);
    hide Isolate, Isolated;
  }

  // A node that has sent nothing for too long, holding something that may still run.
  predicate Unreachable(db: Db, site: Site, a: Id)
    requires a in db.allocations && db.allocations[a].create in db.jobs
  {
    var al, c := db.allocations[a], db.jobs[db.allocations[a].create].state;
    && al.node in site.nodes && site.nodes[al.node].heartbeat.Some?
    && site.now - site.nodes[al.node].heartbeat.value >= site.quarantineAfter
    && !al.state.AReclaimed? && !al.state.AReleasedNoEffect? && !al.state.AQuarantined?
    && (al.state.AReserved? ==> c.JClaimed? || c.JAccepted? || c.JUnknown? || c.JFailedWithEffect?)
  }

  lemma SilentIs(db: Db, site: Site, a: Id)
    ensures Silent(db, site, a) <==> a in db.allocations && db.allocations[a].create in db.jobs && Unreachable(db, site, a)
  {
  }

  lemma SilentIsolates(db: Db, site: Site, a: Id)
    requires a in db.allocations && db.allocations[a].create in db.jobs
    ensures var res := Perform(db, site, CQuarantineSilent(a));
            && (res.Committed? <==> Unreachable(db, site, a))
            && (res.Committed? ==> Isolated(db, res.db, a))
  {
    SilentIs(db, site, a);
    IsolateIs(db, a);
    hide Isolate, Isolated, Silent, Unreachable;
  }

  // The one isolated first has been silent for longest, then was assigned earliest, then has the lower ID.
  lemma LongestSilent(db: Db, site: Site, a: Id, b: Id)
    requires Silent(db, site, a) && Silent(db, site, b) && a != b && Operators.SilentFirst(db, site, a, b)
    ensures var x, y := db.allocations[a], db.allocations[b];
            var s, t := site.nodes[x.node].heartbeat.value, site.nodes[y.node].heartbeat.value;
            s <= t && (s == t ==> x.assignedAt <= y.assignedAt && (x.assignedAt == y.assignedAt ==> a < b))
  {
  }
}
