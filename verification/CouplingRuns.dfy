/** The coupling holds in every reachable state, and what it means there. */
module CouplingRuns {
  import opened Facts
  import opened Ledger
  import opened Calls
  import opened Counting
  import opened Coupling
  import opened CouplingSteps

  // ---- Requests without attempts in play ----

  lemma SetRequestLocal(db: Db, r: Id, s: RequestState)
    requires Rooted(db)
    ensures Rooted(SetRequest(db, r, s)) && forall x :: SameTries(db, SetRequest(db, r, s), x)
    ensures SetRequest(db, r, s).requests.Keys == db.requests.Keys
    ensures forall x :: x in db.requests && x != r ==> SetRequest(db, r, s).requests[x] == db.requests[x]
  {
  }

  // A waiting request: every attempt was released without effect, and there is no intent.
  lemma WaitingFacts(db: Db, r: Id)
    requires r in db.requests && Coupled(db, r) && db.requests[r].state.RWaiting?
    ensures r !in db.intents
    ensures forall b :: AttemptOf(db, r, b) ==>
      && db.allocations[b].state.AReleasedNoEffect? && db.requests[r].mode.Auto?
      && db.allocations[b].create in db.jobs && db.jobs[db.allocations[b].create].state.JRejectedNoEffect?
    ensures Ordered(db, r) && Numbered(db, r)
  {
  }

  // A waiting request may be closed: no attempt of it is open.
  lemma CloseOwner(db: Db, d: Db, r: Id)
    requires r in db.requests && Coupled(db, r) && db.requests[r].state.RWaiting?
    requires d.allocations == db.allocations && d.jobs == db.jobs && d.intents == db.intents && r in d.requests
    requires d.requests[r].state.RUnavailable? || (d.requests[r].state.RCancelled? && Attempts(db, r) == {})
    ensures Coupled(d, r)
  {
    WaitingFacts(db, r);
    hide Coupled;
    SameAttempts(db, d, r);
    assert forall a :: AttemptOf(db, r, a) <==> a in Attempts(db, r);
    ClosedCoupled(d, r);
  }

  lemma ClosedCoupled(d: Db, r: Id)
    requires r in d.requests && r !in d.intents && Ordered(d, r) && Numbered(d, r)
    requires d.requests[r].state.RUnavailable? || (d.requests[r].state.RCancelled? && forall a :: !AttemptOf(d, r, a))
    requires forall b :: AttemptOf(d, r, b) ==>
      && d.allocations[b].state.AReleasedNoEffect?
      && d.allocations[b].create in d.jobs && d.jobs[d.allocations[b].create].state.JRejectedNoEffect?
    ensures Coupled(d, r)
  {
  }

  lemma CloseKeeps(db: Db, r: Id, s: RequestState)
    requires Inv(db) && r in db.requests && db.requests[r].state.RWaiting?
    requires s.RUnavailable? || (s.RCancelled? && Attempts(db, r) == {})
    ensures Inv(SetRequest(db, r, s))
  {
    hide Coupled, SameTries, SetRequest;
    var d := SetRequest(db, r, s);
    SetRequestLocal(db, r, s);
    SetRequestRows(db, r, s);
    forall x | x in d.requests
      ensures Coupled(d, x)
    {
      if x == r { CloseOwner(db, d, r); } else { TriesKeep(db, d, x); }
    }
  }

  lemma SetRequestRows(db: Db, r: Id, s: RequestState)
    ensures var d := SetRequest(db, r, s);
            && d.intents == db.intents && d.allocations == db.allocations && d.jobs == db.jobs
            && (r in db.requests && !db.requests[r].state.RAbandoned? ==> r in d.requests && d.requests[r].state == s)
  {
  }

  // ---- Placing an attempt ----

  lemma {:induction false} MaxAttemptBound(db: Db, s: set<Id>)
    ensures forall a :: a in s && a in db.allocations ==> db.allocations[a].attempt <= MaxAttempt(db, s)
    ensures MaxAttempt(db, s) == 0 || exists a :: a in s && a in db.allocations && db.allocations[a].attempt == MaxAttempt(db, s)
    decreases |s|
  {
    if s * db.allocations.Keys != {} {
      var a :| a in s * db.allocations.Keys && MaxAttempt(db, s) == (
        var rest := MaxAttempt(db, s - {a});
        if db.allocations[a].attempt > rest then db.allocations[a].attempt else rest);
      MaxAttemptBound(db, s - {a});
      forall b | b in s && b in db.allocations
        ensures db.allocations[b].attempt <= MaxAttempt(db, s)
      {
        if b != a { assert b in s - {a}; }
      }
    } else {
      assert forall b :: b in s && b in db.allocations ==> b in s * db.allocations.Keys;
    }
  }

  // A new attempt of r in state reserved, with its create job.
  ghost predicate Added(db: Db, d: Db, r: Id, a: Id, al: Allocation, job: Job) {
    && r in db.requests && a !in db.allocations && al.create !in db.jobs
    && al.purpose == ForRequest(r) && al.state.AReserved?
    && job.kind.Create? && job.alloc == a && job.node == al.node && job.state.JPending?
    && d == db.(allocations := db.allocations[a := al], jobs := db.jobs[al.create := job],
                requests := db.requests[r := db.requests[r].(state := RAllocating)])
  }

  lemma AddedRooted(db: Db, d: Db, r: Id, a: Id, al: Allocation, job: Job)
    requires Rooted(db) && Added(db, d, r, a, al, job)
    ensures Rooted(d) && d.requests.Keys == db.requests.Keys && d.intents == db.intents
  {
    AddedAllocations(db, d, r, a, al, job);
    AddedJobs(db, d, r, a, al, job);
    hide AllocationsRooted, JobsRooted;
  }

  lemma AddedAllocations(db: Db, d: Db, r: Id, a: Id, al: Allocation, job: Job)
    requires AllocationsRooted(db) && Added(db, d, r, a, al, job)
    ensures AllocationsRooted(d)
  {
  }

  lemma AddedJobs(db: Db, d: Db, r: Id, a: Id, al: Allocation, job: Job)
    requires JobsRooted(db) && Added(db, d, r, a, al, job)
    ensures JobsRooted(d)
  {
  }

  lemma AddedTries(db: Db, d: Db, r: Id, a: Id, al: Allocation, job: Job, x: Id)
    requires Rooted(db) && Added(db, d, r, a, al, job) && x != r
    ensures SameTries(db, d, x) && (x in db.requests ==> d.requests[x] == db.requests[x])
  {
  }

  // What placing does to the attempts of r: one more, on a node of its own.
  ghost predicate OneMore(db: Db, d: Db, r: Id, a: Id) {
    && Attempts(d, r) == Attempts(db, r) + {a} && a !in Attempts(db, r)
    && OpenAttempt(d, r, a) && d.allocations[a].state.AReserved?
    && d.allocations[a].attempt == MaxAttempt(db, Attempts(db, r)) + 1
    && (forall b :: AttemptOf(d, r, b) ==> b == a || AttemptOf(db, r, b))
    && (forall b :: AttemptOf(db, r, b) ==> b in Attempts(db, r) && EarlierTry(db, d, r, a, b))
  }

  ghost predicate EarlierTry(db: Db, d: Db, r: Id, a: Id, b: Id)
    requires AttemptOf(db, r, b) && a in d.allocations
  {
    && AttemptOf(d, r, b)
    && d.allocations[b] == db.allocations[b] && db.allocations[b].node != d.allocations[a].node
    && db.allocations[b].state.AReleasedNoEffect?
    && db.allocations[b].create in d.jobs && d.jobs[db.allocations[b].create].state.JRejectedNoEffect?
  }

  lemma AddedOneMore(db: Db, d: Db, r: Id, a: Id, al: Allocation, job: Job)
    requires Rooted(db) && Added(db, d, r, a, al, job) && Coupled(db, r) && db.requests[r].state.RWaiting?
    requires al.attempt == MaxAttempt(db, Attempts(db, r)) + 1
    requires db.requests[r].mode.Auto? ==> !Released(db, r, al.node)
    ensures OneMore(db, d, r, a) && r !in d.intents
  {
    WaitingFacts(db, r);
    AddedAttempts(db, d, r, a, al, job);
    hide Coupled, Rooted, MaxAttempt, Attempts, EarlierTry, Released;
    forall b | AttemptOf(db, r, b)
      ensures EarlierTry(db, d, r, a, b)
    {
      AddedEarlier(db, d, r, a, al, job, b);
    }
  }

  lemma AddedEarlier(db: Db, d: Db, r: Id, a: Id, al: Allocation, job: Job, b: Id)
    requires Added(db, d, r, a, al, job) && AttemptOf(db, r, b) && !Released(db, r, al.node)
    requires db.allocations[b].state.AReleasedNoEffect?
    requires db.allocations[b].create in db.jobs && db.jobs[db.allocations[b].create].state.JRejectedNoEffect?
    ensures EarlierTry(db, d, r, a, b)
  {
  }

  lemma AddedAttempts(db: Db, d: Db, r: Id, a: Id, al: Allocation, job: Job)
    requires Added(db, d, r, a, al, job)
    ensures Attempts(d, r) == Attempts(db, r) + {a} && a !in Attempts(db, r)
    ensures forall b :: AttemptOf(d, r, b) ==> b == a || AttemptOf(db, r, b)
    ensures forall b :: AttemptOf(db, r, b) ==> AttemptOf(d, r, b) && b in Attempts(db, r)
  {
    assert forall b :: AttemptOf(db, r, b) <==> b in Attempts(db, r);
    assert forall b :: AttemptOf(d, r, b) <==> b in Attempts(d, r);
  }

  lemma AddedOwner(db: Db, d: Db, r: Id, a: Id)
    requires OneMore(db, d, r, a) && Numbered(db, r) && Ordered(db, r)
    requires r in d.requests && d.requests[r].state.RAllocating? && r !in d.intents
    ensures Coupled(d, r)
  {
    AddedNumbered(db, d, r, a);
    AddedOrdered(db, d, r, a);
    hide Numbered, Ordered, MaxAttempt, Attempts;
    AddedRest(db, d, r, a);
    hide OneMore, Fits, Placed, Resting, Evidenced;
  }

  lemma AddedRest(db: Db, d: Db, r: Id, a: Id)
    requires OneMore(db, d, r, a) && r in d.requests && d.requests[r].state.RAllocating?
    ensures Fits(d, r) && Placed(d, r) && Resting(d, r) && Evidenced(d, r)
  {
    hide MaxAttempt, Attempts;
  }

  lemma AddedOrdered(db: Db, d: Db, r: Id, a: Id)
    requires OneMore(db, d, r, a) && Ordered(db, r)
    ensures Ordered(d, r)
  {
    MaxAttemptBound(db, Attempts(db, r));
  }

  lemma AddedNumbered(db: Db, d: Db, r: Id, a: Id)
    requires Numbered(db, r) && Attempts(d, r) == Attempts(db, r) + {a} && a !in Attempts(db, r)
    requires a in d.allocations && d.allocations[a].attempt == MaxAttempt(db, Attempts(db, r)) + 1
    requires forall b :: AttemptOf(d, r, b) ==> b == a || (AttemptOf(db, r, b) && d.allocations[b] == db.allocations[b])
    ensures Numbered(d, r)
  {
    MaxAttemptBound(db, Attempts(db, r));
    assert |Attempts(d, r)| == |Attempts(db, r)| + 1;
    hide MaxAttempt, Attempts;
    forall b | AttemptOf(d, r, b)
      ensures 1 <= d.allocations[b].attempt <= |Attempts(d, r)|
    {
      assert b != a ==> AttemptOf(db, r, b);
    }
  }

  lemma CoupledNumbers(db: Db, r: Id)
    requires r in db.requests && Coupled(db, r)
    ensures Numbered(db, r) && Ordered(db, r)
  {
  }

  lemma PlaceKeeps(db: Db, site: Site, r: Id, n: Id, a: Id, j: Id)
    requires Inv(db)
    ensures var res := Place(db, site, r, n, a, j); res.Committed? ==> Inv(res.db)
  {
    hide Coupled, SameTries, Rooted, Accepts, Numbered, Ordered;
    var res := Place(db, site, r, n, a, j);
    if res.Committed? {
      var d := res.db;
      var al, job := d.allocations[a], d.jobs[j];
      assert Added(db, d, r, a, al, job);
      InvRequest(db, r);
      AddedRooted(db, d, r, a, al, job);
      AddedOneMore(db, d, r, a, al, job);
      CoupledNumbers(db, r);
      hide Added, OneMore, Place, Placeable;
      forall x | x in d.requests
        ensures Coupled(d, x)
      {
        if x == r { AddedOwner(db, d, r, a); } else { AddedTries(db, d, r, a, al, job, x); TriesKeep(db, d, x); }
      }
    }
  }

  // ---- Dispatch ----

  lemma PrepareKeeps(db: Db, site: Site, node: Id, j: Id, template: string, port: int, algorithm: string, sha: string)
    requires Inv(db)
    ensures var res := Prepare(db, site, node, j, template, port, algorithm, sha); res.Committed? ==> Inv(res.db)
  {
    hide Inv, StartCreating, Coupled;
    var res := Prepare(db, site, node, j, template, port, algorithm, sha);
    if res.Committed? {
      var d := db.(frozen := FrozenOnce(db.frozen, j, Frozen(template, port, db.jobs[j].capability, algorithm, sha), site.now));
      SameLocal(db, ForRun(0));
      RunsKeep(db, d);
      JobRooted(db, j);
      StartKeeps(d, db.jobs[j].alloc, j);
    }
  }

  lemma JobRooted(db: Db, j: Id)
    requires Inv(db) && j in db.jobs
    ensures db.jobs[j].alloc in db.allocations
    ensures db.jobs[j].kind.Create? ==> db.allocations[db.jobs[j].alloc].create == j
  {
  }

  lemma StartArrives(db: Db, a: Id, r: Id)
    requires r in db.requests && Coupled(db, r) && OpenAttempt(db, r, a)
    ensures var d := StartCreating(db, a);
            a in d.allocations && r in d.requests && Arrives(d, a, r) && IntentRooted(d, r) && IntentTimely(d, r)
  {
    hide Coupled;
    OpenFacts(db, r, a);
    CoupledIntent(db, r);
  }

  lemma StartLocal(db: Db, a: Id)
    requires a in db.allocations
    ensures Local(db, StartCreating(db, a), a)
  {
    hide Moved, LocalAllocations, LocalRequests, LocalIntents, LocalJobs, Advanced, LocalRuns, OwnerAdvanced;
    var p := db.allocations[a].purpose;
    SameLocal(db, p);
    MovedLocal(db.allocations, db.allocations, a, ACreating);
    AdvancedLocal(db.requests, db.requests, p, RCreating);
    if p.ForRequest? { OwnerAdvancedIs(db.requests, p.request, RCreating); }
    StartRuns(db, a);
  }

  lemma StartRuns(db: Db, a: Id)
    requires a in db.allocations
    ensures LocalRuns(db.runs, StartCreating(db, a).runs)
  {
  }

  // A closed attempt's request is never allocating.
  lemma ClosedOwner(db: Db, r: Id, a: Id)
    requires r in db.requests && Coupled(db, r) && AttemptOf(db, r, a) && Terminal(db.allocations[a].state)
    requires db.allocations[a].state.AReleasedNoEffect? ==>
      db.allocations[a].create in db.jobs && !db.jobs[db.allocations[a].create].state.JRejectedNoEffect?
    ensures !db.requests[r].state.RAllocating?
  {
    if db.requests[r].state.RAllocating? {
      var b :| OpenAttempt(db, r, b);
      OpenIsLast(db, r, b);
      assert false;
    }
  }

  lemma StartKeeps(db: Db, a: Id, j: Id)
    requires Inv(db) && a in db.allocations && db.allocations[a].create == j && j in db.jobs
    requires InFlight(db.jobs[j].state)
    ensures Inv(StartCreating(db, a))
  {
    hide Local, Coupled, Arrives, IntentRooted, IntentTimely, Rooted, LocalRuns, Moved;
    InvAllocation(db, a);
    var p := db.allocations[a].purpose;
    var d := StartCreating(db, a);
    if !Terminal(db.allocations[a].state) {
      hide StartCreating;
      StartLocal(db, a);
      if p.ForRequest? { StartArrives(db, a, p.request); }
      MoveKeeps(db, d, a);
    } else {
      if p.ForRequest? { ClosedOwner(db, p.request, a); }
      StartRuns(db, a);
      RunsKeep(db, d);
    }
  }

  // ---- Stops ----

  lemma QueueLocal(db: Db, site: Site, a: Id, stop: Id)
    requires Rooted(db) && a in db.allocations
    ensures db.allocations[a].create in db.jobs
    ensures var res := QueueStop(db, site, a, stop);
            res.Committed? ==>
              && Local(db, res.db, a) && res.db == db.(jobs := res.db.jobs)
              && (forall j :: j in db.jobs ==> j in res.db.jobs && res.db.jobs[j] == db.jobs[j])
  {
    hide LocalAllocations, LocalRequests, LocalIntents, LocalJobs, LocalRuns, Rooted, OpenStop;
    SameLocal(db, db.allocations[a].purpose);
    JobOfAllocation(db, a);
    if stop !in db.jobs {
      StopLocal(db, db.jobs, a, db.allocations[a].node, stop, NewStopJob(db, a, site.now));
    }
  }

  // What every stop leaves behind: a stop job, and perhaps the allocation and the request stopping.
  ghost predicate Stopping(db: Db, d: Db, a: Id, r: Id) {
    && a in db.allocations && Local(db, d, a) && a in d.allocations && r in d.requests && r in db.requests
    && d.allocations[a] == db.allocations[a].(state := AStopping)
    && d.requests[r].state.RStopping?
    && (forall j :: j in db.jobs ==> j in d.jobs && d.jobs[j] == db.jobs[j])
  }

  lemma StoppingKeeps(db: Db, d: Db, a: Id, r: Id)
    requires Inv(db) && Stopping(db, d, a, r) && OpenAttempt(db, r, a)
    requires db.allocations[a].state.ARunning? && db.requests[r].state.RRunning?
    requires d.intents == db.intents
             || (r !in db.intents && d.intents == db.intents[r := Intent(a, IPending, None, None)]
                 && db.allocations[a].create in db.jobs && db.jobs[db.allocations[a].create].state.JSucceeded?)
    ensures Inv(d)
  {
    hide Local, Coupled, Rooted, Inv;
    InvRequest(db, r);
    OpenFacts(db, r, a);
    CoupledIntent(db, r);
    assert Arrives(d, a, r);
    assert IntentRooted(d, r);
    assert IntentTimely(d, r);
    MoveKeeps(db, d, a);
  }

  lemma IntentLocal(m: map<Id, Intent>, r: Id, i: Intent)
    ensures LocalIntents(m, m[r := i], ForRequest(r))
  {
  }

  lemma StopMoves(db: Db, q: Db, d: Db, a: Id, r: Id, intents: map<Id, Intent>)
    requires a in db.allocations && db.allocations[a].purpose == ForRequest(r) && r in db.requests
    requires Local(db, q, a) && q == db.(jobs := q.jobs)
    requires forall j :: j in db.jobs ==> j in q.jobs && q.jobs[j] == db.jobs[j]
    requires LocalIntents(db.intents, intents, ForRequest(r)) && !db.requests[r].state.RAbandoned?
    requires d == q.(allocations := Moved(q.allocations, a, AStopping), requests := Advanced(q.requests, r, RStopping), intents := intents)
    ensures Stopping(db, d, a, r)
  {
    hide LocalAllocations, LocalRequests, LocalIntents, LocalJobs, LocalRuns;
    MovedLocal(db.allocations, db.allocations, a, AStopping);
    SameLocal(db, ForRequest(r));
    AdvancedLocal(db.requests, db.requests, ForRequest(r), RStopping);
    OwnerAdvancedIs(db.requests, r, RStopping);
  }

  lemma UserStopKeeps(db: Db, site: Site, user: Id, r: Id, nextGame: bool, stop: Id)
    requires Inv(db)
    ensures var res := UserStop(db, site, user, r, nextGame, stop); res.Committed? ==> Inv(res.db)
  {
    hide Inv, Coupled, Rooted, Local, LocalIntents, Stopping, QueueStop, Moved, Advanced;
    var res := UserStop(db, site, user, r, nextGame, stop);
    if res.Committed? && r in db.requests && db.requests[r].state.RRunning? {
      var a := OpenOf(db, r);
      InvAllocation(db, a);
      QueueLocal(db, site, a, stop);
      var q := QueueStop(db, site, a, stop);
      var intents := if nextGame then db.intents[r := Intent(a, IPending, None, None)] else db.intents;
      IntentLocal(db.intents, r, Intent(a, IPending, None, None));
      SameLocal(db, ForRequest(r));
      StopMoves(db, q.db, res.db, a, r, intents);
      StoppingKeeps(db, res.db, a, r);
    }
  }

  // A stop job alone changes nothing the coupling reads.
  lemma JobsKeep(db: Db, d: Db, a: Id)
    requires Inv(db) && a in db.allocations && Local(db, d, a) && d == db.(jobs := d.jobs)
    requires forall j :: j in db.jobs ==> j in d.jobs && d.jobs[j] == db.jobs[j]
    ensures Inv(d)
  {
    hide Coupled, Local;
    LocalRooted(db, d, a);
    forall r | r in db.requests
      ensures Coupled(d, r)
    {
      assert SameTries(db, d, r);
      TriesKeep(db, d, r);
    }
  }

  lemma AdminStopKeeps(db: Db, site: Site, r: Id, stop: Id)
    requires Inv(db)
    ensures var res := AdminStop(db, site, r, stop); res.Committed? ==> Inv(res.db)
  {
    hide Inv, Coupled, Rooted, Local, LocalIntents, Stopping, QueueStop, Moved, Advanced, OpenStop;
    var res := AdminStop(db, site, r, stop);
    if res.Committed? {
      var a := OpenOf(db, r);
      InvAllocation(db, a);
      QueueLocal(db, site, a, stop);
      var q := QueueStop(db, site, a, stop);
      if db.requests[r].state.RRunning? {
        RunningFits(db, r, a);
        SameLocal(db, ForRequest(r));
        StopMoves(db, q.db, res.db, a, r, db.intents);
        StoppingKeeps(db, res.db, a, r);
      } else {
        JobsKeep(db, q.db, a);
      }
    }
  }

  lemma RunningFits(db: Db, r: Id, a: Id)
    requires r in db.requests && Coupled(db, r) && OpenAttempt(db, r, a) && db.requests[r].state.RRunning?
    ensures db.allocations[a].state.ARunning?
  {
  }

  // ---- Terminate pending, quarantine, abandon ----

  lemma CreateLocal(m: map<Id, Job>, j: Id, job: Job)
    requires j in m && SameJob(job, m[j])
    ensures LocalJobs(m, m[j := job], job.alloc, job.node)
  {
  }

  lemma RequestLocal(m: map<Id, Request>, r: Id, s: RequestState)
    requires r in m
    ensures LocalRequests(m, m[r := m[r].(state := s)], ForRequest(r))
  {
  }

  lemma TerminateLocal(db: Db, a: Id)
    requires a in db.allocations && Rooted(db)
    ensures var res := TerminatePending(db, a); res.Committed? ==> Local(db, res.db, a)
  {
    hide Moved, LocalAllocations, LocalRuns, LocalIntents, RunsAfterJob, LocalJobs, LocalRequests, Rooted;
    var al := db.allocations[a];
    JobOfAllocation(db, a);
    var job := db.jobs[al.create];
    CreateLocal(db.jobs, al.create, job.(state := JRejectedNoEffect, errorCode := "PENDING_TERMINATED", errorStage := "dispatch", reported := true));
    if al.purpose.ForRequest? && al.purpose.request in db.requests { RequestLocal(db.requests, al.purpose.request, RUnavailable); }
    SameLocal(db, al.purpose);
    MovedLocal(db.allocations, db.allocations, a, AReleasedNoEffect);
    RunsLocal(db.runs, al.purpose, Create, JRejectedNoEffect, AReleasedNoEffect, false, FactReady);
  }

  lemma TerminateArrives(db: Db, a: Id, r: Id)
    requires r in db.requests && Coupled(db, r) && OpenAttempt(db, r, a) && db.allocations[a].create in db.jobs
    ensures var res := TerminatePending(db, a);
            res.Committed? ==> var d := res.db;
              a in d.allocations && r in d.requests && Arrives(d, a, r) && IntentRooted(d, r) && IntentTimely(d, r)
  {
    hide Coupled;
    OpenFacts(db, r, a);
    CoupledIntent(db, r);
  }

  lemma TerminateKeeps(db: Db, a: Id)
    requires Inv(db)
    ensures var res := TerminatePending(db, a); res.Committed? ==> Inv(res.db)
  {
    hide Inv, Coupled, Rooted, Local, Arrives, IntentRooted, IntentTimely;
    var res := TerminatePending(db, a);
    if res.Committed? && res.db != db {
      InvAllocation(db, a);
      TerminateLocal(db, a);
      if db.allocations[a].purpose.ForRequest? { TerminateArrives(db, a, db.allocations[a].purpose.request); }
      MoveKeeps(db, res.db, a);
    }
  }

  lemma AbandonOwner(db: Db, r: Id)
    requires Rooted(db) && r in db.requests && Coupled(db, r) && db.requests[r].state.RQuarantined?
    ensures var d := SetRequest(db, r, RAbandoned);
            r in d.requests && Settling(d, r) && d.requests[r].state.RAbandoned?
  {
    var d := SetRequest(db, r, RAbandoned);
    AbandonTries(db, d, r);
  }

  lemma AbandonTries(db: Db, d: Db, r: Id)
    requires r in db.requests && Settling(db, r) && db.requests[r].state.RQuarantined?
    requires r in d.requests && d.requests[r].state.RAbandoned?
    requires d.allocations == db.allocations && d.jobs == db.jobs && d.intents == db.intents
    ensures Settling(d, r)
  {
    SameAttempts(db, d, r);
    assert forall a :: OpenAttempt(db, r, a) <==> OpenAttempt(d, r, a);
    assert Ordered(d, r) by { assert forall a :: AttemptOf(db, r, a) <==> AttemptOf(d, r, a); }
  }

  lemma AbandonKeeps(db: Db, site: Site, user: Id, r: Id, next: Id)
    requires Inv(db)
    ensures var res := Abandon(db, site, user, r, next); res.Committed? ==> Inv(res.db)
  {
    hide Inv, Coupled, Rooted, Settling, SetRequest, SameTries, Consume, PausedIntent;
    var res := Abandon(db, site, user, r, next);
    if res.Committed? && r in db.requests && db.requests[r].state.RQuarantined? {
      var d := SetRequest(db, r, RAbandoned);
      InvRequest(db, r);
      SetRequestLocal(db, r, RAbandoned);
      SetRequestRows(db, r, RAbandoned);
      AbandonOwner(db, r);
      forall x | x in d.requests && x != r
        ensures Coupled(d, x)
      {
        InvRequest(db, x);
        TriesKeep(db, d, x);
      }
      ConsumeKeeps(d, site, r, true, next);
    }
  }

  // ---- Validation runs ----

  lemma AddRun(db: Db, d: Db, v: Id, run: Run, a: Id, al: Allocation, job: Job)
    requires Inv(db) && v !in db.runs && a !in db.allocations && al.create !in db.jobs
    requires run.alloc == a && al.purpose == ForRun(v)
    requires job.kind.Create? && job.alloc == a && job.node == al.node
    requires d == db.(runs := db.runs[v := run], allocations := db.allocations[a := al], jobs := db.jobs[al.create := job])
    ensures Inv(d)
  {
    hide Coupled;
    AddRunRooted(db, d, v, run, a, al, job);
    forall r | r in db.requests
      ensures Coupled(d, r)
    {
      AddRunTries(db, d, v, run, a, al, job, r);
      TriesKeep(db, d, r);
    }
  }

  // A new run with its allocation and create job.
  ghost predicate RunAdded(db: Db, d: Db, v: Id, run: Run, a: Id, al: Allocation, job: Job) {
    && v !in db.runs && a !in db.allocations && al.create !in db.jobs
    && run.alloc == a && al.purpose == ForRun(v)
    && job.kind.Create? && job.alloc == a && job.node == al.node
    && d == db.(runs := db.runs[v := run], allocations := db.allocations[a := al], jobs := db.jobs[al.create := job])
  }

  lemma AddRunRooted(db: Db, d: Db, v: Id, run: Run, a: Id, al: Allocation, job: Job)
    requires Rooted(db) && RunAdded(db, d, v, run, a, al, job)
    ensures Rooted(d)
  {
    AddRunAllocations(db, d, v, run, a, al, job);
    AddRunJobs(db, d, v, run, a, al, job);
    hide AllocationsRooted, JobsRooted;
  }

  lemma AddRunAllocations(db: Db, d: Db, v: Id, run: Run, a: Id, al: Allocation, job: Job)
    requires AllocationsRooted(db) && RunAdded(db, d, v, run, a, al, job)
    ensures AllocationsRooted(d)
  {
  }

  lemma AddRunJobs(db: Db, d: Db, v: Id, run: Run, a: Id, al: Allocation, job: Job)
    requires JobsRooted(db) && RunAdded(db, d, v, run, a, al, job)
    ensures JobsRooted(d)
  {
  }

  lemma AddRunTries(db: Db, d: Db, v: Id, run: Run, a: Id, al: Allocation, job: Job, r: Id)
    requires Rooted(db) && RunAdded(db, d, v, run, a, al, job)
    ensures SameTries(db, d, r)
  {
  }

  lemma RunStopKeeps(db: Db, site: Site, v: Id, run: Run, stop: Id)
    requires Inv(db) && v in db.runs && db.runs[v].alloc in db.allocations && db.allocations[db.runs[v].alloc].create in db.jobs
    requires run.alloc == db.runs[v].alloc && !Terminal(db.allocations[run.alloc].state)
    ensures var q := QueueStop(db, site, run.alloc, stop);
            q.Committed? ==> Inv(q.db.(allocations := Moved(q.db.allocations, run.alloc, AStopping), runs := q.db.runs[v := run]))
  {
    hide Inv, Coupled, Rooted, LocalAllocations, LocalJobs, LocalIntents, LocalRequests, QueueStop, Moved;
    var a := run.alloc;
    InvAllocation(db, a);
    QueueLocal(db, site, a, stop);
    RunOwner(db, v);
    var q := QueueStop(db, site, a, stop);
    if q.Committed? {
      var d := q.db.(allocations := Moved(q.db.allocations, a, AStopping), runs := q.db.runs[v := run]);
      MovedLocal(db.allocations, db.allocations, a, AStopping);
      SameLocal(db, ForRun(v));
      assert Local(db, d, a);
      MoveKeeps(db, d, a);
    }
  }

  lemma RunOwner(db: Db, v: Id)
    requires Rooted(db) && v in db.runs
    ensures db.runs[v].alloc in db.allocations && db.allocations[db.runs[v].alloc].purpose == ForRun(v)
  {
  }

  lemma RunChangeKeeps(db: Db, v: Id, run: Run)
    requires Inv(db) && v in db.runs && run.alloc == db.runs[v].alloc
    ensures Inv(SetRun(db, v, run))
  {
    hide Inv;
    RunsKeep(db, SetRun(db, v, run));
  }

  // ---- All calls ----

  lemma TablesKeep(db: Db, d: Db)
    requires Inv(db) && d.requests == db.requests && d.allocations == db.allocations && d.jobs == db.jobs
    requires d.intents == db.intents && d.runs == db.runs
    ensures Inv(d)
  {
    hide Inv;
    SameLocal(db, ForRun(0));
    RunsKeep(db, d);
  }

  lemma NewKeeps(db: Db, site: Site, user: Id, game: Id, preset: Id, mode: Mode, id: Id)
    requires Inv(db)
    ensures var res := NewRequest(db, site, user, game, preset, mode, id); res.Committed? ==> Inv(res.db)
  {
    hide Inv, Busy, FreshCheck;
    if id !in db.requests {
      var who := Acting(db, user);
      if who.Acts? {
        var q := Request(who.owner, game, preset, mode, site.now, RWaiting);
        AddRequest(db, db.(requests := db.requests[id := q]), id, q);
      }
    }
  }

  lemma CancelKeeps(db: Db, r: Id)
    requires Inv(db)
    ensures var res := CancelWaiting(db, r); res.Committed? ==> Inv(res.db)
  {
    hide Inv, Attempts;
    if r in db.requests && db.requests[r].state.RWaiting? && Attempts(db, r) == {} { CloseKeeps(db, r, RCancelled); }
  }

  lemma UserCancelKeeps(db: Db, user: Id, r: Id)
    requires Inv(db)
    ensures var res := UserCancel(db, user, r); res.Committed? ==> Inv(res.db)
  {
    hide Inv, CancelWaiting;
    CancelKeeps(db, r);
  }

  lemma RequestCalls(db: Db, site: Site, call: Call)
    requires Inv(db)
    requires call.CNewRequest? || call.CUserCancel? || call.CAdminCancel? || call.CPlace? || call.CClose?
    ensures Inv(Apply(db, site, call))
  {
    hide Inv, SetRequest, Place, Closable, FreshCheck, Busy;
    match call
    case CNewRequest(user, game, preset, mode, id) => NewKeeps(db, site, user, game, preset, mode, id);
    case CUserCancel(user, r) => UserCancelKeeps(db, user, r);
    case CAdminCancel(r) => CancelKeeps(db, r);
    case CPlace(r, n, a, j) => PlaceKeeps(db, site, r, n, a, j);
    case CClose(r) =>
      if Closable(db, site, r) { ClosableWaits(db, site, r); CloseKeeps(db, r, RUnavailable); }
  }

  lemma ClosableWaits(db: Db, site: Site, r: Id)
    requires Closable(db, site, r)
    ensures r in db.requests && db.requests[r].state.RWaiting?
  {
  }

  lemma ClaimKeeps(db: Db, site: Site, node: Id, j: Id, independent: bool, cap: Capability)
    requires Inv(db)
    ensures var res := Claim(db, site, node, j, independent, cap); res.Committed? ==> Inv(res.db)
  {
    hide Inv, Rival, TrustedStop;
    if Claimable(db, site, node, j, independent, cap) {
      JobKeeps(db, j, db.jobs[j].(state := JClaimed, everClaimed := true));
    }
  }

  lemma DispatchCalls(db: Db, site: Site, call: Call)
    requires Inv(db)
    requires call.CClaim? || call.CPrepare? || call.CBegin? || call.CReport? || call.CFact?
    ensures Inv(Apply(db, site, call))
  {
    hide Inv, Claim, Prepare, ReportJob, InstanceFact, StartAllowed;
    match call
    case CClaim(node, j, independent, cap) => ClaimKeeps(db, site, node, j, independent, cap);
    case CPrepare(node, j, template, port, algorithm, sha) => PrepareKeeps(db, site, node, j, template, port, algorithm, sha);
    case CBegin(node, j, start, stop, next) => ReportKeeps(db, site, node, j, STARTED, stop, next);
    case CReport(node, j, rep, stop, next) => ReportKeeps(db, site, node, j, rep, stop, next);
    case CFact(node, a, fact, stop, next) => FactKeeps(db, site, node, a, fact, stop, next);
  }

  lemma OperatorCalls(db: Db, site: Site, call: Call)
    requires Inv(db)
    requires call.CUserStop? || call.CAdminStop? || call.CTerminatePending? || call.CQuarantine? || call.CQuarantineSilent? || call.CAbandon?
    ensures Inv(Apply(db, site, call))
  {
    hide Inv, UserStop, AdminStop, TerminatePending, Isolate, Abandon;
    match call
    case CUserStop(user, r, nextGame, stop) => UserStopKeeps(db, site, user, r, nextGame, stop);
    case CAdminStop(r, stop) => AdminStopKeeps(db, site, r, stop);
    case CTerminatePending(a) => TerminateKeeps(db, a);
    case CQuarantine(a) => if a in db.allocations && !Terminal(db.allocations[a].state) { IsolateKeeps(db, a); }
    case CQuarantineSilent(a) => if Silent(db, site, a) { IsolateKeeps(db, a); }
    case CAbandon(user, r, next) => AbandonKeeps(db, site, user, r, next);
  }

  predicate OnlyParties(db: Db, res: Result) {
    res.Committed? ==> res.db == db.(members := res.db.members, parties := res.db.parties, invites := res.db.invites)
  }

  lemma CreateTables(db: Db, site: Site, user: Id, party: Id, token: Id)
    ensures OnlyParties(db, CreateParty(db, site, user, party, token))
  {
    hide Busy;
  }

  lemma JoinTables(db: Db, site: Site, user: Id, token: Id)
    ensures OnlyParties(db, JoinParty(db, site, user, token))
  {
    hide Busy, Members;
  }

  lemma LeaveTables(db: Db, user: Id, target: Id)
    ensures OnlyParties(db, LeaveParty(db, user)) && OnlyParties(db, RemoveMember(db, user, target))
  {
    hide Leads;
  }

  lemma LeaderTables(db: Db, user: Id, token: Id)
    ensures OnlyParties(db, ResetInvite(db, user, token)) && OnlyParties(db, DisbandParty(db, user))
  {
    hide Leads, PartyBusy, Revoked, Members;
  }

  // A call about parties writes members, parties and invites, and nothing else.
  lemma PartyCallTables(db: Db, site: Site, call: Call)
    requires call.CCreateParty? || call.CResetInvite? || call.CJoinParty? || call.CLeaveParty? || call.CRemoveMember? || call.CDisbandParty?
    ensures var d := Apply(db, site, call);
            d == db.(members := d.members, parties := d.parties, invites := d.invites)
  {
    PartyCallResults(db, site, call);
    hide Perform;
  }

  lemma PartyCallResults(db: Db, site: Site, call: Call)
    requires call.CCreateParty? || call.CResetInvite? || call.CJoinParty? || call.CLeaveParty? || call.CRemoveMember? || call.CDisbandParty?
    ensures OnlyParties(db, Perform(db, site, call))
  {
    hide OnlyParties, CreateParty, ResetInvite, JoinParty, LeaveParty, RemoveMember, DisbandParty;
    match call
    case CCreateParty(user, party, token) => CreateTables(db, site, user, party, token);
    case CResetInvite(user, token) => LeaderTables(db, user, token);
    case CJoinParty(user, token) => JoinTables(db, site, user, token);
    case CLeaveParty(user) => LeaveTables(db, user, user);
    case CRemoveMember(leader, target) => LeaveTables(db, leader, target);
    case CDisbandParty(user) => LeaderTables(db, user, user);
  }

  lemma PartyCalls(db: Db, site: Site, call: Call)
    requires Inv(db)
    requires call.CCreateParty? || call.CResetInvite? || call.CJoinParty? || call.CLeaveParty? || call.CRemoveMember? || call.CDisbandParty?
    ensures Inv(Apply(db, site, call))
  {
    hide Inv, Apply;
    PartyCallTables(db, site, call);
    TablesKeep(db, Apply(db, site, call));
  }

  lemma ReserveKeeps(db: Db, site: Site, q: RunRequest, v: Id, a: Id, j: Id)
    requires Inv(db)
    ensures var res := ReserveRun(db, site, q, v, a, j); res.Committed? ==> Inv(res.db)
  {
    hide Inv, CandidateOf, NodeReason;
    var res := ReserveRun(db, site, q, v, a, j);
    if res.Committed? {
      AddRun(db, res.db, v, res.db.runs[v], a, res.db.allocations[a], res.db.jobs[j]);
    }
  }

  lemma ConfirmKeeps(db: Db, site: Site, v: Id, pass: bool, expected: Option<RunState>, stop: Id)
    requires Inv(db)
    ensures var res := ConfirmHuman(db, site, v, pass, expected, stop); res.Committed? ==> Inv(res.db)
  {
    hide Inv, QueueStop, Moved, CurrentJoin;
    if RunRooted(db, v) && db.allocations[db.runs[v].alloc].state.ARunning? {
      RunStopKeeps(db, site, v, db.runs[v].(human := if pass then HPass else HFail, state := VStopPending), stop);
    }
  }

  lemma StopRunKeeps(db: Db, site: Site, v: Id, was: RunState, stop: Id)
    requires Inv(db)
    ensures var res := StopRun(db, site, v, was, stop); res.Committed? ==> Inv(res.db)
  {
    hide Inv, QueueStop, Moved;
    if RunRooted(db, v) && !Terminal(db.allocations[db.runs[v].alloc].state) {
      RunStopKeeps(db, site, v, db.runs[v].(state := VStopPending), stop);
    }
  }

  lemma FinalizeKeeps(db: Db, site: Site, v: Id)
    requires Inv(db)
    ensures var res := FinalizeRun(db, site, v); res.Committed? ==> Inv(res.db)
    ensures var res := FinalizeFailure(db, v); res.Committed? ==> Inv(res.db)
  {
    hide Inv, SetRun, Conclusive;
    if v in db.runs {
      RunChangeKeeps(db, v, db.runs[v].(state := VPassed));
      RunChangeKeeps(db, v, db.runs[v].(state := VFailed));
    }
  }

  lemma RunCalls(db: Db, site: Site, call: Call)
    requires Inv(db)
    requires call.CReserveRun? || call.CConfirmHuman? || call.CStopRun? || call.CFinalizeRun? || call.CFinalizeFailure?
    ensures Inv(Apply(db, site, call))
  {
    hide Inv, ReserveRun, ConfirmHuman, StopRun, FinalizeRun, FinalizeFailure;
    match call
    case CReserveRun(q, v, a, j) => ReserveKeeps(db, site, q, v, a, j);
    case CConfirmHuman(v, pass, expected, stop) => ConfirmKeeps(db, site, v, pass, expected, stop);
    case CStopRun(v, was, stop) => StopRunKeeps(db, site, v, was, stop);
    case CFinalizeRun(v) => FinalizeKeeps(db, site, v);
    case CFinalizeFailure(v) => FinalizeKeeps(db, site, v);
  }

  lemma CallKeepsInv(db: Db, site: Site, call: Call)
    requires Inv(db)
    ensures Inv(Apply(db, site, call))
  {
    hide Inv, Apply;
    match call
    case CNewRequest(_, _, _, _, _) => RequestCalls(db, site, call);
    case CUserCancel(_, _) => RequestCalls(db, site, call);
    case CAdminCancel(_) => RequestCalls(db, site, call);
    case CPlace(_, _, _, _) => RequestCalls(db, site, call);
    case CClose(_) => RequestCalls(db, site, call);
    case CClaim(_, _, _, _) => DispatchCalls(db, site, call);
    case CPrepare(_, _, _, _, _, _) => DispatchCalls(db, site, call);
    case CBegin(_, _, _, _, _) => DispatchCalls(db, site, call);
    case CReport(_, _, _, _, _) => DispatchCalls(db, site, call);
    case CFact(_, _, _, _, _) => DispatchCalls(db, site, call);
    case CUserStop(_, _, _, _) => OperatorCalls(db, site, call);
    case CAdminStop(_, _) => OperatorCalls(db, site, call);
    case CTerminatePending(_) => OperatorCalls(db, site, call);
    case CQuarantine(_) => OperatorCalls(db, site, call);
    case CQuarantineSilent(_) => OperatorCalls(db, site, call);
    case CAbandon(_, _, _) => OperatorCalls(db, site, call);
    case CCreateParty(_, _, _) => PartyCalls(db, site, call);
    case CResetInvite(_, _) => PartyCalls(db, site, call);
    case CJoinParty(_, _) => PartyCalls(db, site, call);
    case CLeaveParty(_) => PartyCalls(db, site, call);
    case CRemoveMember(_, _) => PartyCalls(db, site, call);
    case CDisbandParty(_) => PartyCalls(db, site, call);
    case CReserveRun(_, _, _, _) => RunCalls(db, site, call);
    case CConfirmHuman(_, _, _, _) => RunCalls(db, site, call);
    case CStopRun(_, _, _) => RunCalls(db, site, call);
    case CFinalizeRun(_) => RunCalls(db, site, call);
    case CFinalizeFailure(_) => RunCalls(db, site, call);
  }

  lemma {:induction false} RunKeepsInv(h: History)
    ensures Inv(Exec(h))
    decreases |h|
  {
    if h != [] {
      RunKeepsInv(h[..|h|-1]);
      CallKeepsInv(Exec(h[..|h|-1]), h[|h|-1].0, h[|h|-1].1);
    }
  }
}
