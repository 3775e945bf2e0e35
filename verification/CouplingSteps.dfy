/** Every Store transaction keeps the coupling of requests, attempts and intents. */
module CouplingSteps {
  import opened Facts
  import opened Ledger
  import opened Calls
  import opened Coupling

  // ---- Taking the invariant apart ----

  lemma InvRequest(db: Db, r: Id)
    requires Inv(db) && r in db.requests
    ensures Rooted(db) && Coupled(db, r)
  {
  }

  lemma InvAllocation(db: Db, a: Id)
    requires Inv(db) && a in db.allocations
    ensures Rooted(db) && db.allocations[a].create in db.jobs
    ensures db.allocations[a].purpose.ForRequest? ==>
      db.allocations[a].purpose.request in db.requests && Coupled(db, db.allocations[a].purpose.request)
  {
  }

  // ---- What the coupling says about an open attempt ----

  lemma OpenFacts(db: Db, r: Id, a: Id)
    requires r in db.requests && Coupled(db, r) && OpenAttempt(db, r, a)
    ensures !db.allocations[a].state.AQuarantined? ==>
      db.requests[r].state == Match(db.allocations[a].state) && (r in db.intents ==> db.intents[r].state.IPending?)
    ensures db.allocations[a].state.AQuarantined? ==>
      && (db.requests[r].state.RQuarantined? || db.requests[r].state.RAbandoned?)
      && (r in db.intents ==> !db.intents[r].state.IPending?)
      && (r in db.intents && db.requests[r].state.RQuarantined? ==> db.intents[r].state.IPaused? && db.intents[r].failure.None?)
    ensures r in db.intents ==> db.intents[r].alloc == a
    ensures r in db.intents ==> db.jobs[db.allocations[a].create].state.JSucceeded?
  {
    OpenIsLast(db, r, a);
  }

  // A request with an open attempt has that one only.
  lemma OpenIsOnly(db: Db, r: Id, a: Id, b: Id)
    requires r in db.requests && Coupled(db, r) && OpenAttempt(db, r, a) && OpenAttempt(db, r, b)
    ensures a == b
  {
    OpenIsLast(db, r, a);
  }

  // ---- New rows ----

  lemma AddRequestRooted(db: Db, d: Db, id: Id, q: Request)
    requires Rooted(db) && id !in db.requests && d == db.(requests := db.requests[id := q])
    ensures Rooted(d) && id !in d.intents
    ensures forall a :: !AttemptOf(d, id, a)
    ensures forall r :: SameTries(db, d, r)
  {
  }

  // A waiting request under a new ID has no attempt and no intent yet.
  lemma AddRequest(db: Db, d: Db, id: Id, q: Request)
    requires Inv(db) && id !in db.requests && q.state.RWaiting?
    requires d == db.(requests := db.requests[id := q])
    ensures Inv(d)
  {
    AddRequestRooted(db, d, id, q);
    forall r | r in d.requests
      ensures Coupled(d, r)
    {
      if r != id { TriesKeep(db, d, r); }
    }
  }

  // consumeNextGameIntent, from a state where only the intent of r may be late.
  lemma ConsumeKeeps(db: Db, site: Site, r: Id, afterAbandon: bool, next: Id)
    requires Rooted(db) && r in db.requests && Settling(db, r)
    requires forall x :: x in db.requests && x != r ==> Coupled(db, x)
    requires r in db.intents ==> db.requests[r].state.REnded? || db.requests[r].state.RAbandoned?
    requires r in db.intents && db.intents[r].state.IPaused? && db.intents[r].failure.None? ==> afterAbandon
    ensures var res := Consume(db, site, r, afterAbandon, next); res.Committed? ==> Inv(res.db)
  {
    hide Rooted, Settling, Coupled, FreshCheck, Inv, NextRequest;
    if r !in db.intents {
      IdleIntentCoupled(db, r);
    } else {
      SettlingIntent(db, r);
      var intent := db.intents[r];
      var q := db.requests[r];
      if intent.failure.Some? || intent.state.IConsumed? || (intent.state.IPaused? && !afterAbandon) {
        IdleIntentCoupled(db, r);
      } else {
        var check := FreshCheck(db, site, q.game, q.preset, q.owner, q.mode);
        match check
        case Broken =>
        case Refused(why) =>
          var i2 := intent.(state := IPaused, failure := Some(why));
          SwapIntent(db, db.(intents := db.intents[r := i2]), r, i2);
        case FreshOk =>
          var i2 := intent.(state := IConsumed, newRequest := Some(next));
          var d1 := db.(intents := db.intents[r := i2]);
          SwapIntent(db, d1, r, i2);
          var q2 := NextRequest(q, site.now);
          NextWaits(q, site.now);
          if next !in db.requests { AddRequest(d1, d1.(requests := d1.requests[next := q2]), next, q2); }
      }
    }
  }

  lemma NextWaits(q: Request, now: int)
    ensures NextRequest(q, now).state.RWaiting?
  {
  }

  lemma SettlingIntent(db: Db, r: Id)
    requires r in db.requests && Settling(db, r)
    ensures IntentRooted(db, r)
  {
  }

  // Nothing left to consume: the intent is already in time with its request.
  lemma IdleIntentCoupled(db: Db, r: Id)
    requires Rooted(db) && r in db.requests && Settling(db, r)
    requires forall x :: x in db.requests && x != r ==> Coupled(db, x)
    requires r in db.intents ==>
      && (db.requests[r].state.REnded? || db.requests[r].state.RAbandoned?)
      && (db.intents[r].failure.Some? || db.intents[r].state.IConsumed?)
    ensures Inv(db)
  {
    SettlingIntent(db, r);
    hide Rooted, Settling;
    assert IntentTimely(db, r);
  }

  lemma SwapIntent(db: Db, d: Db, r: Id, i: Intent)
    requires Rooted(db) && r in db.requests && Settling(db, r) && r in db.intents
    requires forall x :: x in db.requests && x != r ==> Coupled(db, x)
    requires db.requests[r].state.REnded? || db.requests[r].state.RAbandoned?
    requires d == db.(intents := db.intents[r := i])
    requires i.alloc == db.intents[r].alloc && !i.state.IPending?
    requires i.newRequest.Some? <==> i.state.IConsumed?
    requires i.failure.Some? <==> i.state.IPaused?
    ensures Inv(d)
  {
    hide Coupled, Settling;
    SwapTries(db, d, r, i);
    forall x | x in db.requests
      ensures Coupled(d, x)
    {
      if x == r { SwapOwner(db, d, r, i); } else { TriesKeep(db, d, x); }
    }
  }

  lemma SwapTries(db: Db, d: Db, r: Id, i: Intent)
    requires Rooted(db) && r in db.intents && d == db.(intents := db.intents[r := i])
    ensures Rooted(d) && forall x :: SameTries(db, d, x)
  {
  }

  lemma SwapOwner(db: Db, d: Db, r: Id, i: Intent)
    requires r in db.requests && Settling(db, r) && r in db.intents && SameTries(db, d, r)
    requires db.requests[r].state.REnded? || db.requests[r].state.RAbandoned?
    requires d == db.(intents := db.intents[r := i])
    requires i.alloc == db.intents[r].alloc && !i.state.IPending?
    requires i.newRequest.Some? <==> i.state.IConsumed?
    requires i.failure.Some? <==> i.state.IPaused?
    ensures Coupled(d, r)
  {
    TriesSettle(db, d, r);
  }

  // ---- A job changes, nothing else ----

  lemma JobKeeps(db: Db, j: Id, job: Job)
    requires Inv(db) && j in db.jobs && SameJob(job, db.jobs[j])
    requires db.jobs[j].state == job.state || !JobTerminal(db.jobs[j].state)
    ensures Inv(db.(jobs := db.jobs[j := job]))
  {
    hide Coupled;
    var d := db.(jobs := db.jobs[j := job]);
    JobTries(db, j, job);
    hide Rooted, SameTries;
    forall r | r in db.requests
      ensures Coupled(d, r)
    {
      TriesKeep(db, d, r);
    }
  }

  lemma JobTries(db: Db, j: Id, job: Job)
    requires Rooted(db) && j in db.jobs && SameJob(job, db.jobs[j])
    requires db.jobs[j].state == job.state || !JobTerminal(db.jobs[j].state)
    ensures var d := db.(jobs := db.jobs[j := job]); Rooted(d) && forall r :: SameTries(db, d, r)
  {
  }

  // ---- Reports ----

  // The state a request ends in when a report path sets it.
  function Set(q: RequestState, s: RequestState): RequestState {
    if q.RAbandoned? then q else s
  }

  lemma SettleState(db: Db, site: Site, a: Id, after: AllocationState, requestAfter: RequestState, kind: JobKind,
                    state: JobState, join: Option<JoinInfo>, joinError: string)
    requires a in db.allocations && (kind.Create? && state.JSucceeded? ==> after.ARunning?)
    requires db.allocations[a].purpose.ForRequest? ==> db.allocations[a].purpose.request in db.requests
    ensures var d := Settle(db, site, a, after, requestAfter, kind, state, join, joinError);
            var p := db.allocations[a].purpose;
            && d.jobs == db.jobs && a in d.allocations && d.allocations[a] == db.allocations[a].(
                 state := after, join := d.allocations[a].join, joinError := d.allocations[a].joinError)
            && (p.ForRequest? ==>
                  && p.request in d.requests && SameRequest(d.requests[p.request], db.requests[p.request])
                  && d.requests[p.request].state == Set(db.requests[p.request].state, requestAfter))
            && d.intents == if after.AQuarantined? then Paused(db.intents, p) else db.intents
  {
  }

  lemma MovedLocal(m: map<Id, Allocation>, n: map<Id, Allocation>, a: Id, s: AllocationState)
    requires LocalAllocations(m, n, a)
    ensures LocalAllocations(m, Moved(n, a, s), a)
  {
  }

  lemma AdvancedLocal(m: map<Id, Request>, n: map<Id, Request>, p: Purpose, s: RequestState)
    requires LocalRequests(m, n, p)
    ensures LocalRequests(m, OwnerAdvanced(n, p, s), p)
  {
  }

  lemma PausedLocal(m: map<Id, Intent>, p: Purpose)
    ensures LocalIntents(m, Paused(m, p), p)
  {
  }

  lemma RunsLocal(m: map<Id, Run>, p: Purpose, kind: JobKind, state: JobState, after: AllocationState, joined: bool, fact: RunFact)
    ensures LocalRuns(m, RunsAfterJob(m, p, kind, state, after, joined))
    ensures LocalRuns(m, RunsAfterFact(m, p, fact, joined))
  {
    if p.ForRun? && p.run in m {
      AdvanceKeepsAllocation(m[p.run], kind, state, after, joined, fact);
    }
    hide AdvanceFromJob, AdvanceFromFact;
  }

  lemma AdvanceKeepsAllocation(run: Run, kind: JobKind, state: JobState, after: AllocationState, joined: bool, fact: RunFact)
    ensures AdvanceFromJob(run, kind, state, after, joined).alloc == run.alloc
    ensures AdvanceFromFact(run, fact, joined).alloc == run.alloc
  {
  }

  lemma SettleLocal(db: Db, site: Site, a: Id, after: AllocationState, requestAfter: RequestState, kind: JobKind,
                    state: JobState, join: Option<JoinInfo>, joinError: string)
    requires a in db.allocations
    ensures Local(db, Settle(db, site, a, after, requestAfter, kind, state, join, joinError), a)
  {
    hide KeptJoin, JoinErrorOf, Moved, OwnerAdvanced, Paused, RunsAfterJob, LocalRuns, LocalRequests, LocalIntents;
    var p := db.allocations[a].purpose;
    SameLocal(db, p);
    MovedLocal(db.allocations, db.allocations, a, after);
    AdvancedLocal(db.requests, db.requests, p, requestAfter);
    PausedLocal(db.intents, p);
    var joined := kind.Create? && state.JSucceeded? && KeptJoin(site, db.allocations[a].node, join).Some?;
    RunsLocal(db.runs, p, kind, state, after, joined, FactReady);
  }

  lemma SameLocal(db: Db, p: Purpose)
    ensures LocalRuns(db.runs, db.runs)
    ensures LocalRequests(db.requests, db.requests, p)
    ensures LocalIntents(db.intents, db.intents, p)
    ensures forall a :: LocalAllocations(db.allocations, db.allocations, a)
    ensures forall a, n :: LocalJobs(db.jobs, db.jobs, a, n)
  {
  }

  lemma StopLocal(db: Db, jobs: map<Id, Job>, a: Id, node: Id, stop: Id, job: Job)
    requires LocalJobs(db.jobs, jobs, a, node) && job.kind.Stop? && job.alloc == a && job.node == node && stop !in jobs
    ensures LocalJobs(db.jobs, jobs[stop := job], a, node)
  {
  }

  // The resource of a request moved; its intent is untouched or paused with it.
  lemma MoveKeeps(db: Db, d: Db, a: Id)
    requires Inv(db) && a in db.allocations && !Terminal(db.allocations[a].state) && Local(db, d, a)
    requires forall r :: db.allocations[a].purpose == ForRequest(r) ==>
      a in d.allocations && r in d.requests && Arrives(d, a, r) && IntentRooted(d, r) && IntentTimely(d, r)
    ensures Inv(d)
  {
    hide Local, Settling, NearSlice, Arrives, IntentRooted, IntentTimely;
    MoveSettles(db, d, a);
  }

  lemma MoveSettles(db: Db, d: Db, a: Id)
    requires Inv(db) && a in db.allocations && !Terminal(db.allocations[a].state) && Local(db, d, a)
    requires forall r :: db.allocations[a].purpose == ForRequest(r) ==>
      a in d.allocations && r in d.requests && Arrives(d, a, r) && IntentRooted(d, r)
    ensures Rooted(d) && d.requests.Keys == db.requests.Keys
    ensures forall r :: r in db.requests && db.allocations[a].purpose != ForRequest(r) ==> Coupled(d, r)
    ensures forall r :: r in db.requests && db.allocations[a].purpose == ForRequest(r) ==> Settling(d, r)
  {
    hide Local, Settling, NearSlice, Arrives, IntentRooted, IntentTimely;
    LocalKeeps(db, d, a);
    var p := db.allocations[a].purpose;
    InvAllocation(db, a);
    if p.ForRequest? {
      assert OpenAttempt(db, p.request, a);
      LocalNear(db, d, a, p.request);
      OwnerSettles(db, d, a, p.request);
    }
  }

  // The states applyAllocationJobReport moves an open attempt and its request to.
  predicate Asked(db: Db, a: Id, kind: JobKind, state: JobState, errorCode: string, after: AllocationState, requestAfter: RequestState)
    requires a in db.allocations
  {
    var al := db.allocations[a];
    && !Terminal(al.state)
    && (al.state.AQuarantined? ==> (kind.Stop? && state.JSucceeded?) || (kind.Create? && state.JRejectedNoEffect?))
    && Target(kind, state, errorCode, ModeOf(db, al.purpose), PausedFor(db, al.purpose)) == Some((after, requestAfter))
    && (kind.Create? && state.JRejectedNoEffect? ==> al.create in db.jobs && db.jobs[al.create].state.JRejectedNoEffect?)
  }

  lemma SettleArrives(db: Db, site: Site, a: Id, kind: JobKind, state: JobState, errorCode: string, after: AllocationState,
                      requestAfter: RequestState, join: Option<JoinInfo>, joinError: string, r: Id)
    requires r in db.requests && Coupled(db, r) && OpenAttempt(db, r, a) && Asked(db, a, kind, state, errorCode, after, requestAfter)
    ensures var d := Settle(db, site, a, after, requestAfter, kind, state, join, joinError);
            && r in d.requests && a in d.allocations && Arrives(d, a, r) && IntentRooted(d, r)
            && (if kind.Stop? && state.JSucceeded? && !db.allocations[a].state.AQuarantined?
                then d.requests[r].state.REnded? && !(r in d.intents && d.intents[r].state.IPaused? && d.intents[r].failure.None?)
                else IntentTimely(d, r))
  {
    hide Settle, Coupled;
    SettleState(db, site, a, after, requestAfter, kind, state, join, joinError);
    OpenFacts(db, r, a);
    CoupledIntent(db, r);
  }

  lemma CoupledIntent(db: Db, r: Id)
    requires r in db.requests && Coupled(db, r)
    ensures IntentRooted(db, r) && IntentTimely(db, r)
  {
  }

  lemma ApplyReportKeeps(db: Db, site: Site, a: Id, kind: JobKind, state: JobState, instance: Token, errorCode: string,
                         join: Option<JoinInfo>, joinError: string, stop: Id, next: Id)
    requires Inv(db) && a in db.allocations
    requires kind.Create? && state.JRejectedNoEffect? ==> db.jobs[db.allocations[a].create].state.JRejectedNoEffect?
    ensures var res := ApplyReport(db, site, a, kind, state, instance, errorCode, join, joinError, stop, next);
            res.Committed? ==> Inv(res.db)
  {
    hide Local, Inv, Settling, NearSlice, Coupled, Settle, Consume, Arrives, IntentRooted, IntentTimely, AutoStop, Rooted;
    var al := db.allocations[a];
    var p := al.purpose;
    InvAllocation(db, a);
    var t := Target(kind, state, errorCode, ModeOf(db, p), PausedFor(db, p));
    if !Terminal(al.state) && t.Some? {
      var (after, requestAfter) := t.value;
      var d := Settle(db, site, a, after, requestAfter, kind, state, join, joinError);
      SettleLocal(db, site, a, after, requestAfter, kind, state, join, joinError);
      SettleState(db, site, a, after, requestAfter, kind, state, join, joinError);
      if Asked(db, a, kind, state, errorCode, after, requestAfter) {
        if p.ForRequest? { SettleArrives(db, site, a, kind, state, errorCode, after, requestAfter, join, joinError, p.request); }
        if kind.Stop? && state.JSucceeded? && !al.state.AQuarantined? {
          EndKeeps(db, d, site, a, next);
        } else if AutoStops(kind, state, instance, errorCode) {
          AutoStopLocal(db, d, site, a, stop);
          if p.ForRequest? { AutoStopArrives(db, d, site, a, stop, p.request); }
          MoveKeeps(db, AutoStop(d, site, a, stop), a);
        } else {
          MoveKeeps(db, d, a);
        }
      }
    }
  }

  // A proved reclaim ends the request and then consumes its intent.
  lemma EndKeeps(db: Db, d: Db, site: Site, a: Id, next: Id)
    requires Inv(db) && a in db.allocations && !Terminal(db.allocations[a].state) && Local(db, d, a)
    requires forall r :: db.allocations[a].purpose == ForRequest(r) ==>
      && a in d.allocations && r in d.requests && Arrives(d, a, r) && IntentRooted(d, r) && d.requests[r].state.REnded?
      && !(r in d.intents && d.intents[r].state.IPaused? && d.intents[r].failure.None?)
    ensures var res := ConsumeFor(d, site, db.allocations[a].purpose, next); res.Committed? ==> Inv(res.db)
  {
    hide Local, Settling, NearSlice, Arrives, IntentRooted, IntentTimely, Consume, Coupled, Rooted;
    MoveSettles(db, d, a);
    var p := db.allocations[a].purpose;
    InvAllocation(db, a);
    if p.ForRequest? { ConsumeKeeps(d, site, p.request, false, next); }
  }

  lemma JobOfAllocation(db: Db, a: Id)
    requires Rooted(db) && a in db.allocations
    ensures db.allocations[a].create in db.jobs && db.jobs[db.allocations[a].create].alloc == a
    ensures db.jobs[db.allocations[a].create].kind.Create? && db.jobs[db.allocations[a].create].node == db.allocations[a].node
  {
  }

  lemma LocalSame(db: Db, d: Db, a: Id)
    requires a in db.allocations && Local(db, d, a)
    ensures a in d.allocations && SameAllocation(d.allocations[a], db.allocations[a])
  {
  }

  lemma AutoStopLocal(db: Db, d: Db, site: Site, a: Id, stop: Id)
    requires Rooted(db) && a in db.allocations && Local(db, d, a)
    ensures a in d.allocations && d.allocations[a].create in d.jobs
    ensures Local(db, AutoStop(d, site, a, stop), a)
  {
    hide OpenStop, LocalJobs, LocalRuns, LocalIntents, LocalRequests, LocalAllocations, Rooted, Moved, OwnerAdvanced;
    LocalRooted(db, d, a);
    LocalSame(db, d, a);
    JobOfAllocation(d, a);
    MovedLocal(db.allocations, d.allocations, a, AStopping);
    AdvancedLocal(db.requests, d.requests, db.allocations[a].purpose, RStopping);
    if !(stop in d.jobs || OpenStop(d.jobs, a)) {
      StopLocal(db, d.jobs, a, db.allocations[a].node, stop, NewStopJob(d, a, site.now));
    }
  }

  lemma AutoStopArrives(db: Db, d: Db, site: Site, a: Id, stop: Id, r: Id)
    requires a in d.allocations && d.allocations[a].create in d.jobs && d.allocations[a].purpose == ForRequest(r)
    requires r in db.requests && Coupled(db, r) && OpenAttempt(db, r, a) && !db.allocations[a].state.AQuarantined?
    requires r in d.requests && d.requests[r].state == Set(db.requests[r].state, RFailedUnreclaimed)
    requires d.intents == db.intents && IntentRooted(d, r)
    ensures var e := AutoStop(d, site, a, stop);
            a in e.allocations && r in e.requests && Arrives(e, a, r) && IntentRooted(e, r) && IntentTimely(e, r)
  {
    hide AutoStop, Coupled;
    AutoStopState(d, site, a, stop);
    OpenFacts(db, r, a);
    var e := AutoStop(d, site, a, stop);
    assert IntentRooted(e, r);
  }

  lemma AutoStopState(d: Db, site: Site, a: Id, stop: Id)
    requires a in d.allocations && d.allocations[a].create in d.jobs
    requires d.allocations[a].purpose.ForRequest? ==> d.allocations[a].purpose.request in d.requests
    ensures var e := AutoStop(d, site, a, stop);
            var p := d.allocations[a].purpose;
            && a in e.allocations && e.allocations[a] == d.allocations[a].(state := AStopping) && e.intents == d.intents
            && (p.ForRequest? ==>
                  p.request in e.requests && e.requests[p.request].state == Set(d.requests[p.request].state, RStopping))
            && (forall j :: j in d.jobs ==> j in e.jobs && e.jobs[j] == d.jobs[j])
  {
    hide OpenStop;
  }

  lemma ReportRow(db: Db, j: Id)
    requires Inv(db) && j in db.jobs
    ensures db.jobs[j].alloc in db.allocations
    ensures db.jobs[j].kind.Create? ==> db.allocations[db.jobs[j].alloc].create == j
  {
  }

  lemma ReportKeeps(db: Db, site: Site, node: Id, j: Id, rep: Report, stop: Id, next: Id)
    requires Inv(db)
    ensures var res := ReportJob(db, site, node, j, rep, stop, next); res.Committed? ==> Inv(res.db)
  {
    hide Inv, ApplyReport, ReportAllowed, ValidReport;
    if j in db.jobs && !JobTerminal(db.jobs[j].state) {
      ReportRow(db, j);
      var d := db.(jobs := db.jobs[j := Reported(db.jobs[j], rep)]);
      JobKeeps(db, j, Reported(db.jobs[j], rep));
      ApplyReportKeeps(d, site, db.jobs[j].alloc, db.jobs[j].kind, rep.state, Merge(db.jobs[j].instance, rep.instance),
                       rep.errorCode, rep.join, rep.joinError, stop, next);
    }
  }

  // ---- Tables the coupling does not read ----

  lemma RunsKeep(db: Db, d: Db)
    requires Inv(db) && LocalRuns(db.runs, d.runs)
    requires d.requests == db.requests && d.allocations == db.allocations && d.jobs == db.jobs && d.intents == db.intents
    ensures Inv(d)
  {
    hide Coupled;
    RunsTries(db, d);
    forall r | r in db.requests
      ensures Coupled(d, r)
    {
      TriesKeep(db, d, r);
    }
  }

  lemma RunsTries(db: Db, d: Db)
    requires Rooted(db) && LocalRuns(db.runs, d.runs)
    requires d.requests == db.requests && d.allocations == db.allocations && d.jobs == db.jobs && d.intents == db.intents
    ensures Rooted(d) && forall r :: SameTries(db, d, r)
  {
    RunsStayRooted(db, d);
    hide Rooted;
  }

  lemma RunsStayRooted(db: Db, d: Db)
    requires Rooted(db) && LocalRuns(db.runs, d.runs)
    requires d.requests == db.requests && d.allocations == db.allocations && d.jobs == db.jobs && d.intents == db.intents
    ensures Rooted(d)
  {
    assert AllocationsRooted(d) by { hide JobsRooted, RunsRooted; }
    assert JobsRooted(d) by { hide AllocationsRooted, RunsRooted; }
  }

  // ---- Instance facts ----

  lemma EntryKeeps(db: Db, a: Id, al: Allocation)
    requires Inv(db) && a in db.allocations && SameAllocation(al, db.allocations[a]) && al.state == db.allocations[a].state
    ensures Inv(db.(allocations := db.allocations[a := al]))
  {
    hide Coupled;
    var d := db.(allocations := db.allocations[a := al]);
    EntryTries(db, a, al);
    forall r | r in db.requests
      ensures Coupled(d, r)
    {
      TriesKeep(db, d, r);
    }
  }

  lemma EntryTries(db: Db, a: Id, al: Allocation)
    requires Rooted(db) && a in db.allocations && SameAllocation(al, db.allocations[a]) && al.state == db.allocations[a].state
    ensures var d := db.(allocations := db.allocations[a := al]); Rooted(d) && forall r :: SameTries(db, d, r)
  {
    hide SameTries, Rooted;
    var d := db.(allocations := db.allocations[a := al]);
    EntryRooted(db, d, a);
    forall r
      ensures SameTries(db, d, r)
    {
      EntryTry(db, d, a, r);
    }
  }

  lemma EntryRooted(db: Db, d: Db, a: Id)
    requires Rooted(db) && a in db.allocations && a in d.allocations && SameAllocation(d.allocations[a], db.allocations[a])
    requires d == db.(allocations := db.allocations[a := d.allocations[a]])
    ensures Rooted(d)
  {
    hide Rooted;
    LocalRooted(db, d, a);
  }

  lemma EntryTry(db: Db, d: Db, a: Id, r: Id)
    requires a in db.allocations && a in d.allocations && d.allocations == db.allocations[a := d.allocations[a]] && d.jobs == db.jobs
    requires SameAllocation(d.allocations[a], db.allocations[a]) && d.allocations[a].state == db.allocations[a].state
    ensures SameTries(db, d, r)
  {
  }

  lemma IsolateLocal(db: Db, a: Id)
    requires a in db.allocations
    ensures Local(db, Isolate(db, a), a)
  {
    hide Moved, OwnerAdvanced, Paused, RunsAfterFact, LocalAllocations, LocalRuns, LocalRequests, LocalIntents;
    var p := db.allocations[a].purpose;
    SameLocal(db, p);
    MovedLocal(db.allocations, db.allocations, a, AQuarantined);
    AdvancedLocal(db.requests, db.requests, p, RQuarantined);
    PausedLocal(db.intents, p);
    RunsLocal(db.runs, p, Create, JUnknown, AQuarantined, false, FactQuarantined);
  }

  lemma IsolateArrives(db: Db, a: Id, r: Id)
    requires r in db.requests && Coupled(db, r) && OpenAttempt(db, r, a)
    ensures var d := Isolate(db, a);
            a in d.allocations && r in d.requests && Arrives(d, a, r) && IntentRooted(d, r) && IntentTimely(d, r)
  {
    hide Coupled;
    OpenFacts(db, r, a);
    CoupledIntent(db, r);
  }

  lemma IsolateKeeps(db: Db, a: Id)
    requires Inv(db) && a in db.allocations && !Terminal(db.allocations[a].state)
    ensures Inv(Isolate(db, a))
  {
    hide Isolate, Local, Inv, Coupled, Arrives, IntentRooted, IntentTimely, Rooted;
    InvAllocation(db, a);
    IsolateLocal(db, a);
    if db.allocations[a].purpose.ForRequest? { IsolateArrives(db, a, db.allocations[a].purpose.request); }
    MoveKeeps(db, Isolate(db, a), a);
  }

  ghost function Reclaim(db: Db, a: Id): Db
    requires a in db.allocations
  {
    var p := db.allocations[a].purpose;
    db.(allocations := Moved(db.allocations, a, AReclaimed),
        requests := if p.ForRequest? && !PausedIntent(db, p.request) then Advanced(db.requests, p.request, REnded) else db.requests)
  }

  lemma GoneLocal(db: Db, a: Id)
    requires a in db.allocations
    ensures Local(db, Reclaim(db, a), a)
  {
    hide Moved, OwnerAdvanced, LocalAllocations, LocalRequests, LocalRuns, LocalIntents, LocalJobs;
    var p := db.allocations[a].purpose;
    SameLocal(db, p);
    MovedLocal(db.allocations, db.allocations, a, AReclaimed);
    AdvancedLocal(db.requests, db.requests, p, REnded);
    if p.ForRequest? { assert OwnerAdvanced(db.requests, p, REnded) == Advanced(db.requests, p.request, REnded) by { OwnerAdvancedIs(db.requests, p.request, REnded); } }
  }

  lemma OwnerAdvancedIs(m: map<Id, Request>, r: Id, s: RequestState)
    ensures OwnerAdvanced(m, ForRequest(r), s) == Advanced(m, r, s)
  {
  }

  lemma GoneArrives(db: Db, a: Id, r: Id)
    requires r in db.requests && Coupled(db, r) && OpenAttempt(db, r, a)
    ensures var d := Reclaim(db, a);
            && a in d.allocations && r in d.requests && Arrives(d, a, r) && IntentRooted(d, r)
            && (if PausedIntent(db, r) then IntentTimely(d, r)
                else (d.requests[r].state.REnded? || d.requests[r].state.RAbandoned?)
                     && !(r in d.intents && d.intents[r].state.IPaused? && d.intents[r].failure.None?))
  {
    hide Coupled;
    OpenFacts(db, r, a);
    CoupledIntent(db, r);
  }

  lemma GoneKeeps(db: Db, site: Site, a: Id, next: Id)
    requires Inv(db) && a in db.allocations && !Terminal(db.allocations[a].state)
    ensures var p := db.allocations[a].purpose;
            var d := Reclaim(db, a);
            if p.ForRequest? && !PausedIntent(db, p.request) then
              var res := ConsumeFor(d, site, p, next);
              res.Committed? ==> Inv(res.db)
            else Inv(d)
  {
    hide Reclaim, Local, Coupled, Arrives, IntentRooted, IntentTimely, Rooted, Consume, Settling;
    InvAllocation(db, a);
    GoneLocal(db, a);
    var p := db.allocations[a].purpose;
    var d := Reclaim(db, a);
    if p.ForRequest? {
      GoneArrives(db, a, p.request);
      if !PausedIntent(db, p.request) {
        MoveSettles(db, d, a);
        ConsumeKeeps(d, site, p.request, false, next);
      } else {
        MoveKeeps(db, d, a);
      }
    } else {
      MoveKeeps(db, d, a);
    }
  }

  lemma FactMoveKeeps(db: Db, site: Site, a: Id, f: Fact, joinPort: int, stop: Id, next: Id)
    requires Inv(db) && a in db.allocations && !Terminal(db.allocations[a].state)
    requires db.allocations[a].create in db.jobs
    ensures var res := FactMove(db, site, a, f, joinPort, stop, next);
            res.Committed? ==> Inv(res.db) && LocalRuns(db.runs, res.db.runs)
  {
    hide Inv, ApplyReport, Isolate, Consume, Moved, Advanced, LocalRuns, PausedIntent;
    var p := db.allocations[a].purpose;
    if f.outcome.Gone? {
      GoneKeeps(db, site, a, next);
      ConsumeRuns(Reclaim(db, a), site, p, next);
      SameLocal(db, p);
    } else if FailedInstance(f, db.allocations[a].state) {
      ApplyReportKeeps(db, site, a, Create, JFailedWithEffect, f.instance, "INSTANCE_FAILED", None, "", stop, next);
      ApplyReportRuns(db, site, a, Create, JFailedWithEffect, f.instance, "INSTANCE_FAILED", None, "", stop, next);
    } else {
      IsolateKeeps(db, a);
      IsolateRuns(db, a);
      SameLocal(db, p);
    }
  }

  lemma ConsumeRuns(d: Db, site: Site, p: Purpose, next: Id)
    ensures var res := ConsumeFor(d, site, p, next); res.Committed? ==> res.db.runs == d.runs
  {
    hide Consume;
    if p.ForRequest? && p.request in d.requests { ConsumedRuns(d, site, p.request, next); }
  }

  lemma ConsumedRuns(d: Db, site: Site, r: Id, next: Id)
    requires r in d.requests
    ensures var res := Consume(d, site, r, false, next); res.Committed? ==> res.db.runs == d.runs
  {
    hide FreshCheck, NextRequest;
    if r in d.intents {
      var q := d.requests[r];
      match FreshCheck(d, site, q.game, q.preset, q.owner, q.mode)
      case Broken =>
      case Refused(why) =>
      case FreshOk =>
    }
  }

  lemma IsolateRuns(db: Db, a: Id)
    requires a in db.allocations
    ensures LocalRuns(db.runs, Isolate(db, a).runs)
  {
  }

  lemma ApplyReportRuns(db: Db, site: Site, a: Id, kind: JobKind, state: JobState, instance: Token, errorCode: string,
                        join: Option<JoinInfo>, joinError: string, stop: Id, next: Id)
    requires a in db.allocations && db.allocations[a].create in db.jobs
    ensures var res := ApplyReport(db, site, a, kind, state, instance, errorCode, join, joinError, stop, next);
            res.Committed? ==> LocalRuns(db.runs, res.db.runs)
  {
    hide Moved, OwnerAdvanced, Paused, OpenStop, KeptJoin, JoinErrorOf, Entered, ConsumeFor, LocalRuns, RunsAfterJob, NewStopJob;
    var p := db.allocations[a].purpose;
    RunsLocalAll(db.runs, p, kind, state);
    var t := Target(kind, state, errorCode, ModeOf(db, p), PausedFor(db, p));
    if t.Some? {
      var d := Settle(db, site, a, t.value.0, t.value.1, kind, state, join, joinError);
      ConsumeRuns(d, site, p, next);
    }
  }

  lemma RunsLocalAll(m: map<Id, Run>, p: Purpose, kind: JobKind, state: JobState)
    ensures LocalRuns(m, m)
    ensures forall after, joined :: LocalRuns(m, RunsAfterJob(m, p, kind, state, after, joined))
  {
  }

  lemma FactKeeps(db: Db, site: Site, node: Id, a: Id, f: Fact, stop: Id, next: Id)
    requires Inv(db)
    ensures var res := InstanceFact(db, site, node, a, f, stop, next); res.Committed? ==> Inv(res.db)
  {
    hide Inv, FactMove, RunsAfterFact, Local, LocalRuns, SameAllocation;
    if a in db.allocations && db.allocations[a].create in db.jobs && !Terminal(db.allocations[a].state) {
      var al := db.allocations[a];
      var d := db.(allocations := db.allocations[a := FactJoin(al, f)]);
      FactJoinSame(al, f);
      EntryKeeps(db, a, FactJoin(al, f));
      FactMoveKeeps(d, site, a, f, JoinPort(al), stop, next);
      var moved := FactMove(d, site, a, f, JoinPort(al), stop, next);
      if moved.Committed? {
        var e := moved.db.(runs := RunsAfterFact(moved.db.runs, al.purpose, FactReady, f.join.Some?));
        RunsLocal(moved.db.runs, al.purpose, Create, JUnknown, AQuarantined, f.join.Some?, FactReady);
        RunsKeep(moved.db, e);
      }
    }
  }

  lemma FactJoinSame(al: Allocation, f: Fact)
    ensures SameAllocation(FactJoin(al, f), al) && FactJoin(al, f).state == al.state
  {
  }
}
