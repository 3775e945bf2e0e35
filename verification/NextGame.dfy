/** Stop-and-play-next: one intent yields at most one new request, only when the old
    resource is proved reclaimed or its owner abandons it after quarantine. */
module NextGame {
  import opened Facts
  import opened Ledger
  import opened Calls
  import opened Coupling
  import opened CouplingSteps
  import opened CouplingRuns
  import opened Evolution
  import opened EvolutionSteps
  import opened Lifecycle

  // The step proves the reclaim of the intent's allocation, or is the owner's abandon after quarantine.
  ghost predicate Ends(db: Db, call: Call, d: Db, r: Id)
    requires r in db.requests && r in db.intents && r in d.requests
  {
    var a := db.intents[r].alloc;
    || (db.intents[r].state.IPending? && a in db.allocations && !Terminal(db.allocations[a].state)
        && a in d.allocations && d.allocations[a].state.AReclaimed? && d.requests[r].state.REnded?)
    || (call.CAbandon? && call.r == r && Acting(db, call.user) == Acts(db.requests[r].owner)
        && db.requests[r].state.RQuarantined? && d.requests[r].state.RAbandoned?)
  }

  // The intent is used up: a new waiting request like the old one, or the reason there is none.
  ghost predicate UsedUp(db: Db, site: Site, d: Db, r: Id)
    requires r in db.requests && r in db.intents && r in d.intents
  {
    var q := db.requests[r];
    var i, e := db.intents[r], d.intents[r];
    && i.newRequest.None? && i.failure.None? && !i.state.IConsumed?
    && match FreshCheck(db, site, q.game, q.preset, q.owner, q.mode)
       case FreshOk =>
         && e.newRequest.Some? && e == i.(state := IConsumed, newRequest := e.newRequest)
         && e.newRequest.value !in db.requests && e.newRequest.value in d.requests
         && d.requests[e.newRequest.value] == NextRequest(q, site.now)
       case Refused(why) => e == i.(state := IPaused, failure := Some(why))
       case Broken => false
  }

  ghost predicate IntentStep(db: Db, site: Site, call: Call, d: Db, r: Id)
    requires r in db.intents && r in db.requests
  {
    && r in d.intents && r in d.requests
    && (|| d.intents[r] == db.intents[r]
        || (db.intents[r].state.IPending? && d.intents[r] == db.intents[r].(state := IPaused))
        || (Ends(db, call, d, r) && UsedUp(db, site, d, r)))
  }

  // A new intent is asked for by the owner's stop of a running game.
  predicate NewIntent(db: Db, call: Call, d: Db, r: Id)
    requires r in d.intents
  {
    && call.CUserStop? && call.nextGame && call.r == r && r in db.requests && db.requests[r].state.RRunning?
    && d.intents[r] == Intent(d.intents[r].alloc, IPending, None, None)
  }

  // A new request is a user's, or the next game of an intent used up in this very step.
  ghost predicate NewRequestCause(db: Db, site: Site, call: Call, d: Db, n: Id)
    requires n in d.requests
  {
    || (call.CNewRequest? && call.id == n && Acting(db, call.user).Acts? && !Busy(db, Acting(db, call.user).owner)
        && d.requests[n] == Request(Acting(db, call.user).owner, call.game, call.preset, call.mode, site.now, RWaiting))
    || (exists r :: NextOf(db, site, call, d, r, n))
  }

  ghost predicate NextOf(db: Db, site: Site, call: Call, d: Db, r: Id, n: Id) {
    && r in db.intents && r in db.requests && r in d.intents && r in d.requests && d.intents[r] != db.intents[r]
    && d.intents[r].newRequest == Some(n) && Ends(db, call, d, r) && UsedUp(db, site, d, r)
  }

  ghost predicate NextEvolves(db: Db, site: Site, call: Call, d: Db) {
    && (forall r :: r in db.intents && r in db.requests ==> IntentStep(db, site, call, d, r))
    && (forall r :: r in d.intents && r !in db.intents ==> NewIntent(db, call, d, r))
    && (forall n :: n in d.requests && n !in db.requests ==> NewRequestCause(db, site, call, d, n))
    && (forall m, n :: m in d.requests && n in d.requests && m !in db.requests && n !in db.requests ==> m == n)
    && OneChange(db, d)
  }

  ghost predicate OneChange(db: Db, d: Db) {
    forall r, s :: Changed(db, d, r) && Changed(db, d, s) ==> r == s
  }

  predicate Changed(db: Db, d: Db, r: Id) {
    r in db.intents && r in d.intents && d.intents[r] != db.intents[r]
  }

  // No request comes or goes, and an intent is at most paused.
  ghost predicate OnlyPauses(db: Db, d: Db) {
    d.requests.Keys == db.requests.Keys && (d.intents == db.intents || exists p :: d.intents == Paused(db.intents, p))
  }

  lemma NothingNext(db: Db, site: Site, call: Call, d: Db)
    requires OnlyPauses(db, d)
    ensures NextEvolves(db, site, call, d)
  {
    hide UsedUp, Ends;
  }

  // ---- What consuming does ----

  lemma ConsumeNext(db: Db, site: Site, r: Id, afterAbandon: bool, next: Id)
    requires r in db.requests
    ensures var res := Consume(db, site, r, afterAbandon, next);
            res.Committed? && res.db.intents != db.intents ==>
              && r in db.intents && db.intents[r].failure.None? && !db.intents[r].state.IConsumed?
              && (db.intents[r].state.IPaused? ==> afterAbandon)
              && (var q := db.requests[r];
                  match FreshCheck(db, site, q.game, q.preset, q.owner, q.mode)
                  case FreshOk =>
                    && next !in db.requests && res.db.requests == db.requests[next := NextRequest(q, site.now)]
                    && res.db.intents == db.intents[r := db.intents[r].(state := IConsumed, newRequest := Some(next))]
                  case Refused(why) =>
                    && res.db.requests == db.requests
                    && res.db.intents == db.intents[r := db.intents[r].(state := IPaused, failure := Some(why))]
                  case Broken => false)
    ensures var res := Consume(db, site, r, afterAbandon, next);
            res.Committed? && res.db.intents == db.intents ==> res.db.requests == db.requests
  {
    hide FreshCheck, NextRequest;
    if r in db.intents {
      var q := db.requests[r];
      match FreshCheck(db, site, q.game, q.preset, q.owner, q.mode)
      case Broken =>
      case Refused(why) =>
      case FreshOk => assert db.intents[r].(state := IConsumed, newRequest := Some(next)).state.IConsumed?;
    }
  }

  lemma SameFresh(db: Db, d: Db, site: Site, game: Id, preset: Id, owner: Owner, mode: Mode)
    requires d.parties == db.parties && d.members == db.members
    ensures FreshCheck(d, site, game, preset, owner, mode) == FreshCheck(db, site, game, preset, owner, mode)
  {
    assert forall p :: Members(d, p) == Members(db, p);
  }

  // From mid, whose request r has just ended or been abandoned, consuming gives e.
  lemma ConsumeEvolves(db: Db, site: Site, call: Call, mid: Db, r: Id, afterAbandon: bool, next: Id)
    requires r in db.requests && r in mid.requests && SameRequest(mid.requests[r], db.requests[r])
    requires mid.parties == db.parties && mid.members == db.members
    requires mid.requests.Keys == db.requests.Keys && mid.intents == db.intents
    requires r in db.intents ==> (db.intents[r].newRequest.Some? <==> db.intents[r].state.IConsumed?)
    requires r in db.intents && !db.intents[r].state.IConsumed? && db.intents[r].failure.None?
             && (db.intents[r].state.IPaused? ==> afterAbandon) ==>
               Ends(db, call, mid, r)
    ensures var res := Consume(mid, site, r, afterAbandon, next);
            res.Committed? ==> NextEvolves(db, site, call, res.db)
  {
    hide Ends, FreshCheck, Consume, Acting;
    var res := Consume(mid, site, r, afterAbandon, next);
    if res.Committed? {
      ConsumeNext(mid, site, r, afterAbandon, next);
      ConsumeTables(mid, site, r, afterAbandon, next);
      var e := res.db;
      if e.intents == mid.intents {
        NothingNext(db, site, call, e);
      } else {
        var q := db.requests[r];
        SameFresh(db, mid, site, q.game, q.preset, q.owner, q.mode);
        SameEnds(db, call, mid, e, r);
        UsedUpEvolves(db, site, call, e, r, next);
      }
    }
  }

  lemma SameEnds(db: Db, call: Call, mid: Db, e: Db, r: Id)
    requires r in db.requests && r in db.intents && r in mid.requests && r in e.requests
    requires Ends(db, call, mid, r) && e.allocations == mid.allocations && e.requests[r] == mid.requests[r]
    ensures Ends(db, call, e, r)
  {
  }

  lemma UsedUpIntents(db: Db, site: Site, call: Call, e: Db, r: Id, next: Id)
    requires r in db.requests && r in db.intents && r in e.requests && r in e.intents && Ends(db, call, e, r) && UsedUp(db, site, e, r)
    requires e.intents.Keys == db.intents.Keys && e.intents[r] != db.intents[r]
    requires forall x :: x in db.intents && x != r ==> e.intents[x] == db.intents[x]
    requires if e.intents[r].newRequest.Some?
             then e.intents[r].newRequest == Some(next) && next !in db.requests && e.requests.Keys == db.requests.Keys + {next}
             else e.requests.Keys == db.requests.Keys
    ensures forall x :: x in db.intents && x in db.requests ==> IntentStep(db, site, call, e, x)
  {
    hide Ends, UsedUp;
    forall x | x in db.intents && x in db.requests
      ensures IntentStep(db, site, call, e, x)
    {
      if x != r { assert e.intents[x] == db.intents[x]; }
    }
  }

  lemma UsedUpEvolves(db: Db, site: Site, call: Call, e: Db, r: Id, next: Id)
    requires r in db.requests && r in db.intents && r in e.requests && r in e.intents && Ends(db, call, e, r) && UsedUp(db, site, e, r)
    requires e.intents.Keys == db.intents.Keys && e.intents[r] != db.intents[r]
    requires forall x :: x in db.intents && x != r ==> e.intents[x] == db.intents[x]
    requires if e.intents[r].newRequest.Some?
             then e.intents[r].newRequest == Some(next) && next !in db.requests && e.requests.Keys == db.requests.Keys + {next}
             else e.requests.Keys == db.requests.Keys
    ensures NextEvolves(db, site, call, e)
  {
    UsedUpIntents(db, site, call, e, r, next);
    if e.intents[r].newRequest.Some? { NextCause(db, site, call, e, r, next); }
    hide Ends, UsedUp, NewRequest, IntentStep, NewRequestCause, NewIntent;
  }

  lemma NextCause(db: Db, site: Site, call: Call, e: Db, r: Id, n: Id)
    requires n in e.requests && NextOf(db, site, call, e, r, n)
    ensures NewRequestCause(db, site, call, e, n)
  {
  }

  // ---- Reports and facts ----

  // Where a report or fact path starts: the rows of db, but for jobs and the entry of allocation a.
  ghost predicate Starts(db: Db, d0: Db, a: Id) {
    && d0.requests == db.requests && d0.intents == db.intents && d0.parties == db.parties && d0.members == db.members
    && a in db.allocations && a in d0.allocations && d0.allocations[a].create in d0.jobs
    && SameAllocation(d0.allocations[a], db.allocations[a]) && d0.allocations[a].state == db.allocations[a].state
  }

  lemma EndNext(db: Db, site: Site, call: Call, mid: Db, a: Id, next: Id)
    requires Inv(db) && a in db.allocations && !Terminal(db.allocations[a].state)
    requires a in mid.allocations && mid.allocations[a].state.AReclaimed?
    requires mid.parties == db.parties && mid.members == db.members && mid.intents == db.intents
    requires mid.requests.Keys == db.requests.Keys
    requires forall r :: db.allocations[a].purpose == ForRequest(r) && r in db.requests ==>
      SameRequest(mid.requests[r], db.requests[r])
      && (r in db.intents && db.intents[r].state.IPending? ==> mid.requests[r].state.REnded?)
    ensures var res := ConsumeFor(mid, site, db.allocations[a].purpose, next);
            res.Committed? ==> NextEvolves(db, site, call, res.db)
  {
    hide Coupled, Rooted, Consume, NextEvolves;
    var p := db.allocations[a].purpose;
    InvAllocation(db, a);
    if p.ForRequest? {
      OpenFacts(db, p.request, a);
      CoupledIntent(db, p.request);
      ConsumeEvolves(db, site, call, mid, p.request, false, next);
    } else {
      NothingNext(db, site, call, mid);
    }
  }

  lemma CarryNext(db: Db, site: Site, call: Call, d0: Db, a: Id, after: AllocationState, requestAfter: RequestState, kind: JobKind,
                  state: JobState, instance: Token, errorCode: string, join: Option<JoinInfo>, joinError: string, stop: Id, next: Id)
    requires Inv(db) && Starts(db, d0, a) && !Terminal(db.allocations[a].state)
    requires kind.Create? && state.JSucceeded? ==> after.ARunning?
    requires kind.Stop? && state.JSucceeded? ==> after.AReclaimed? && requestAfter == if PausedFor(d0, db.allocations[a].purpose) then RQuarantined else REnded
    ensures var res := Calls.Carry(d0, site, a, after, requestAfter, kind, state, instance, errorCode, join, joinError, stop, next);
            res.Committed? ==> NextEvolves(db, site, call, res.db)
  {
    hide Coupled, Rooted, ConsumeFor, NextEvolves, Settle, AutoStop;
    var al := db.allocations[a];
    var p := al.purpose;
    InvAllocation(db, a);
    if p.ForRequest? { OpenFacts(db, p.request, a); }
    var mid := Settle(d0, site, a, after, requestAfter, kind, state, join, joinError);
    SettleState(d0, site, a, after, requestAfter, kind, state, join, joinError);
    SettleKeys(d0, site, a, after, requestAfter, kind, state, join, joinError);
    if kind.Stop? && state.JSucceeded? && !al.state.AQuarantined? {
      EndNext(db, site, call, mid, a, next);
    } else {
      NothingNext(db, site, call, mid);
      if AutoStops(kind, state, instance, errorCode) {
        AutoStopKeys(mid, site, a, stop);
        NothingNext(db, site, call, AutoStop(mid, site, a, stop));
      }
    }
  }

  lemma ApplyReportNext(db: Db, site: Site, call: Call, d0: Db, a: Id, kind: JobKind, state: JobState, instance: Token,
                        errorCode: string, join: Option<JoinInfo>, joinError: string, stop: Id, next: Id)
    requires Inv(db) && Starts(db, d0, a)
    ensures var res := ApplyReport(d0, site, a, kind, state, instance, errorCode, join, joinError, stop, next);
            res.Committed? ==> NextEvolves(db, site, call, res.db)
  {
    hide Inv, NextEvolves, Calls.Carry, ModeOf, PausedFor;
    var p := db.allocations[a].purpose;
    NothingNext(db, site, call, d0);
    var t := Target(kind, state, errorCode, ModeOf(d0, p), PausedFor(d0, p));
    if !Terminal(db.allocations[a].state) && t.Some? {
      TargetLeaves(kind, state, errorCode, ModeOf(d0, p), PausedFor(d0, p));
      CarryNext(db, site, call, d0, a, t.value.0, t.value.1, kind, state, instance, errorCode, join, joinError, stop, next);
    }
  }

  lemma SettleKeys(db: Db, site: Site, a: Id, after: AllocationState, requestAfter: RequestState, kind: JobKind,
                   state: JobState, join: Option<JoinInfo>, joinError: string)
    requires a in db.allocations
    ensures var d := Settle(db, site, a, after, requestAfter, kind, state, join, joinError);
            d.requests.Keys == db.requests.Keys && d.parties == db.parties && d.members == db.members
  {
    hide KeptJoin, Entered, Moved, RunsAfterJob;
  }

  lemma AutoStopKeys(d: Db, site: Site, a: Id, stop: Id)
    requires a in d.allocations && d.allocations[a].create in d.jobs
    ensures var e := AutoStop(d, site, a, stop); e.requests.Keys == d.requests.Keys && e.intents == d.intents
  {
    hide OpenStop, NewStopJob, Moved;
  }

  lemma ReportNext(db: Db, site: Site, call: Call, node: Id, j: Id, rep: Report, stop: Id, next: Id)
    requires Inv(db)
    ensures var res := ReportJob(db, site, node, j, rep, stop, next);
            res.Committed? ==> NextEvolves(db, site, call, res.db)
  {
    hide Coupled, NextEvolves, ApplyReport, ValidReport, ReportAllowed;
    NothingNext(db, site, call, db);
    if j in db.jobs {
      TakenRooted(db, j, rep);
      var job := db.jobs[j];
      ApplyReportNext(db, site, call, Taken(db, j, rep), job.alloc, job.kind, rep.state, Merge(job.instance, rep.instance),
                      rep.errorCode, rep.join, rep.joinError, stop, next);
    }
  }

  lemma FactMoveNext(db: Db, site: Site, call: Call, d0: Db, a: Id, f: Fact, joinPort: int, stop: Id, next: Id)
    requires Inv(db) && Starts(db, d0, a) && !Terminal(db.allocations[a].state)
    ensures var res := FactMove(d0, site, a, f, joinPort, stop, next);
            res.Committed? ==> NextEvolves(db, site, call, res.db)
  {
    hide Coupled, Rooted, ConsumeFor, NextEvolves, ApplyReport, Isolate, Starts;
    StartsRows(db, d0, a);
    NothingNext(db, site, call, d0);
    if f.outcome.Gone? {
      GoneNext(db, site, call, d0, a, next);
    } else {
      ApplyReportNext(db, site, call, d0, a, Create, JFailedWithEffect, f.instance, "INSTANCE_FAILED", None, "", stop, next);
      IsolateNext(db, site, call, d0, a);
    }
  }

  lemma StartsRows(db: Db, d0: Db, a: Id)
    requires Starts(db, d0, a)
    ensures d0.requests == db.requests && d0.intents == db.intents && a in d0.allocations && a in db.allocations
    ensures d0.allocations[a].create in d0.jobs && d0.allocations[a].purpose == db.allocations[a].purpose
  {
  }

  lemma IsolateNext(db: Db, site: Site, call: Call, d0: Db, a: Id)
    requires Starts(db, d0, a)
    ensures NextEvolves(db, site, call, Isolate(d0, a))
  {
    hide NextEvolves, Moved, RunsAfterFact;
    NothingNext(db, site, call, Isolate(d0, a));
  }

  // What Reclaim leaves of a request whose attempt is gone.
  lemma ReclaimRows(db: Db, a: Id)
    requires a in db.allocations
    ensures var d, p := Reclaim(db, a), db.allocations[a].purpose;
            && d.requests.Keys == db.requests.Keys && d.intents == db.intents && d.parties == db.parties && d.members == db.members
            && a in d.allocations && d.allocations[a].state.AReclaimed?
            && (p.ForRequest? && !PausedIntent(db, p.request) && p.request in db.requests ==>
                  && SameRequest(d.requests[p.request], db.requests[p.request])
                  && (!db.requests[p.request].state.RAbandoned? ==> d.requests[p.request].state.REnded?))
  {
    hide PausedIntent;
  }

  lemma GoneNext(db: Db, site: Site, call: Call, d0: Db, a: Id, next: Id)
    requires Inv(db) && Starts(db, d0, a) && !Terminal(db.allocations[a].state)
    ensures var p := db.allocations[a].purpose;
            var mid := Reclaim(d0, a);
            if p.ForRequest? && !PausedIntent(d0, p.request) then
              var res := ConsumeFor(mid, site, p, next);
              res.Committed? ==> NextEvolves(db, site, call, res.db)
            else NextEvolves(db, site, call, mid)
  {
    hide Coupled, Rooted, ConsumeFor, NextEvolves, Reclaim;
    InvAllocation(db, a);
    var p := db.allocations[a].purpose;
    if p.ForRequest? { OpenFacts(db, p.request, a); }
    var mid := Reclaim(d0, a);
    ReclaimRows(d0, a);
    if p.ForRequest? && !PausedIntent(d0, p.request) {
      EndNext(db, site, call, mid, a, next);
    } else {
      NothingNext(db, site, call, mid);
    }
  }

  lemma FactNext(db: Db, site: Site, node: Id, a: Id, f: Fact, stop: Id, next: Id)
    requires Inv(db)
    ensures var call := CFact(node, a, f, stop, next);
            NextEvolves(db, site, call, Apply(db, site, call))
  {
    hide Inv, NextEvolves, FactMove, RunsAfterFact, FactJoin;
    var call := CFact(node, a, f, stop, next);
    NothingNext(db, site, call, db);
    var res := InstanceFact(db, site, node, a, f, stop, next);
    if res.Committed? && !Terminal(db.allocations[a].state) {
      var al := db.allocations[a];
      var d0 := db.(allocations := db.allocations[a := FactJoin(al, f)]);
      FactJoinSame(al, f);
      FactMoveNext(db, site, call, d0, a, f, JoinPort(al), stop, next);
      var moved := FactMove(d0, site, a, f, JoinPort(al), stop, next);
      RunsNext(db, site, call, moved.db, res.db.runs);
    }
  }

  lemma SameChange(db: Db, d: Db, e: Db)
    requires e.intents == d.intents && OneChange(db, d)
    ensures OneChange(db, e)
  {
    forall r, s | Changed(db, e, r) && Changed(db, e, s)
      ensures r == s
    {
      assert Changed(db, d, r) && Changed(db, d, s);
    }
  }

  lemma RunsNext(db: Db, site: Site, call: Call, d: Db, runs: map<Id, Run>)
    requires NextEvolves(db, site, call, d) && !call.CNewRequest?
    ensures NextEvolves(db, site, call, d.(runs := runs))
  {
    var e := d.(runs := runs);
    hide IntentStep, NewRequestCause, NewIntent, OneChange, NextOf, UsedUp, Ends, Acting, Busy;
    SameChange(db, d, e);
    forall r | r in db.intents && r in db.requests
      ensures IntentStep(db, site, call, e, r)
    {
      SameIntentStep(db, site, call, d, e, r);
    }
    forall n | n in e.requests && n !in db.requests
      ensures NewRequestCause(db, site, call, e, n)
    {
      SameCause(db, site, call, d, e, n);
    }
    forall r | r in e.intents && r !in db.intents
      ensures NewIntent(db, call, e, r)
    {
      SameNewIntent(db, call, d, e, r);
    }
  }

  lemma SameNewIntent(db: Db, call: Call, d: Db, e: Db, r: Id)
    requires e.intents == d.intents && r in d.intents && NewIntent(db, call, d, r)
    ensures NewIntent(db, call, e, r)
  {
  }

  lemma SameCause(db: Db, site: Site, call: Call, d: Db, e: Db, n: Id)
    requires e.requests == d.requests && e.allocations == d.allocations && e.intents == d.intents
    requires n in d.requests && NewRequestCause(db, site, call, d, n) && !call.CNewRequest?
    ensures NewRequestCause(db, site, call, e, n)
  {
    hide NextOf, Acting, Busy;
    var r :| NextOf(db, site, call, d, r, n);
    SameNextOf(db, site, call, d, e, r, n);
  }

  lemma SameIntentStep(db: Db, site: Site, call: Call, d: Db, e: Db, r: Id)
    requires e.requests == d.requests && e.allocations == d.allocations && e.intents == d.intents
    requires r in db.requests && r in db.intents && IntentStep(db, site, call, d, r)
    ensures IntentStep(db, site, call, e, r)
  {
    hide FreshCheck, Acting;
  }

  lemma SameNextOf(db: Db, site: Site, call: Call, d: Db, e: Db, r: Id, n: Id)
    requires e.requests == d.requests && e.allocations == d.allocations && e.intents == d.intents
    requires NextOf(db, site, call, d, r, n)
    ensures NextOf(db, site, call, e, r, n)
  {
    hide FreshCheck, Acting;
  }

  lemma AbandonNext(db: Db, site: Site, user: Id, r: Id, next: Id)
    requires Inv(db)
    ensures var call := CAbandon(user, r, next);
            NextEvolves(db, site, call, Apply(db, site, call))
  {
    hide Coupled, Rooted, NextEvolves, Consume, LatestAttempt, Acting;
    var call := CAbandon(user, r, next);
    NothingNext(db, site, call, db);
    var res := Abandon(db, site, user, r, next);
    if res.Committed? && r in db.requests && db.requests[r].state.RQuarantined? {
      CoupledIntent(db, r);
      ConsumeEvolves(db, site, call, SetRequest(db, r, RAbandoned), r, true, next);
    }
  }

  lemma UserStopNext(db: Db, site: Site, user: Id, r: Id, nextGame: bool, stop: Id)
    ensures var call := CUserStop(user, r, nextGame, stop);
            NextEvolves(db, site, call, Apply(db, site, call))
  {
    hide NextEvolves, UserStop;
    NothingNext(db, site, CUserStop(user, r, nextGame, stop), db);
    var res := UserStop(db, site, user, r, nextGame, stop);
    if res.Committed? && res.db != db { UserStoppedNext(db, site, user, r, nextGame, stop, res.db); }
  }

  lemma UserStoppedNext(db: Db, site: Site, user: Id, r: Id, nextGame: bool, stop: Id, d: Db)
    requires UserStop(db, site, user, r, nextGame, stop) == Committed(d) && d != db
    ensures NextEvolves(db, site, CUserStop(user, r, nextGame, stop), d)
  {
    hide OpenStop, NewStopJob, UsedUp, Ends, NewRequestCause, Moved, Acting;
    assert d.requests.Keys == db.requests.Keys;
    if nextGame {
      assert r !in db.intents && NewIntent(db, CUserStop(user, r, nextGame, stop), d, r);
    } else {
      NothingNext(db, site, CUserStop(user, r, nextGame, stop), d);
    }
  }

  // A call that neither adds a request nor writes an intent.
  predicate Plain(call: Call) {
    !call.CNewRequest? && !call.CReport? && !call.CBegin? && !call.CFact? && !call.CAbandon? && !call.CUserStop?
  }

  lemma RequestOther(db: Db, site: Site, call: Call)
    requires call.CUserCancel? || call.CAdminCancel? || call.CPlace? || call.CClose? || call.CClaim? || call.CPrepare?
    ensures var d := Apply(db, site, call); d.requests.Keys == db.requests.Keys && d.intents == db.intents
  {
    hide Closable, Attempts, MaxAttempt, Rival, TrustedStop, Acting, Accepts, Moved, Preparable;
  }

  lemma AdminStopOther(db: Db, site: Site, r: Id, stop: Id)
    ensures var res := AdminStop(db, site, r, stop); res.Committed? ==> OnlyPauses(db, res.db)
  {
    hide OpenStop, NewStopJob, Moved, Paused, HasOpen, Attempts;
    assert forall m: map<Id, Request>, s :: Advanced(m, r, s).Keys == m.Keys;
  }

  lemma TerminateOther(db: Db, a: Id)
    ensures var res := TerminatePending(db, a); res.Committed? ==> OnlyPauses(db, res.db)
  {
    hide RunsAfterJob, Moved, Paused, Untouched;
  }

  lemma IsolateOther(db: Db, a: Id)
    requires a in db.allocations
    ensures OnlyPauses(db, Isolate(db, a))
  {
    hide RunsAfterFact, Moved, Paused;
  }

  lemma OperatorOther(db: Db, site: Site, call: Call)
    requires call.CAdminStop? || call.CTerminatePending? || call.CQuarantine? || call.CQuarantineSilent?
    ensures OnlyPauses(db, Apply(db, site, call))
  {
    hide OnlyPauses, AdminStop, TerminatePending, Isolate, Silent;
    NothingPauses(db);
    match call
    case CAdminStop(r, stop) => AdminStopOther(db, site, r, stop);
    case CTerminatePending(a) => TerminateOther(db, a);
    case CQuarantine(a) => if a in db.allocations { IsolateOther(db, a); }
    case CQuarantineSilent(a) => if Silent(db, site, a) { SilentIsThere(db, site, a); IsolateOther(db, a); }
  }

  lemma NothingPauses(db: Db)
    ensures OnlyPauses(db, db)
  {
  }

  lemma SilentIsThere(db: Db, site: Site, a: Id)
    requires Silent(db, site, a)
    ensures a in db.allocations
  {
  }

  lemma OtherNext(db: Db, site: Site, call: Call)
    requires Plain(call)
    ensures NextEvolves(db, site, call, Apply(db, site, call))
  {
    hide NextEvolves, Apply, Paused;
    if call.CUserCancel? || call.CAdminCancel? || call.CPlace? || call.CClose? || call.CClaim? || call.CPrepare? {
      RequestOther(db, site, call);
    } else if call.CAdminStop? || call.CTerminatePending? || call.CQuarantine? || call.CQuarantineSilent? {
      OperatorOther(db, site, call);
    } else if call.CReserveRun? || call.CConfirmHuman? || call.CStopRun? || call.CFinalizeRun? || call.CFinalizeFailure? {
      RunCallTables(db, site, call);
    } else {
      PartyCallTables(db, site, call);
    }
    NothingNext(db, site, call, Apply(db, site, call));
  }

  lemma NewNext(db: Db, site: Site, user: Id, game: Id, preset: Id, mode: Mode, id: Id)
    ensures var call := CNewRequest(user, game, preset, mode, id);
            NextEvolves(db, site, call, Apply(db, site, call))
  {
    hide Acting, Busy, FreshCheck, NextEvolves;
    var call := CNewRequest(user, game, preset, mode, id);
    NothingNext(db, site, call, db);
    var res := NewRequest(db, site, user, game, preset, mode, id);
    if res.Committed? && res.db != db {
      NewRowNext(db, site, call, res.db);
    }
  }

  lemma NewRowNext(db: Db, site: Site, call: Call, d: Db)
    requires call.CNewRequest? && call.id !in db.requests && d.requests.Keys == db.requests.Keys + {call.id}
    requires d.intents == db.intents && NewRequestCause(db, site, call, d, call.id)
    ensures NextEvolves(db, site, call, d)
  {
    hide NewRequestCause, Ends, UsedUp, NewIntent;
  }

  lemma BeginNext(db: Db, site: Site, node: Id, j: Id, start: Start, stop: Id, next: Id)
    requires Inv(db)
    ensures var call := CBegin(node, j, start, stop, next);
            NextEvolves(db, site, call, Apply(db, site, call))
  {
    hide Inv, NextEvolves, ReportJob, StartAllowed;
    var call := CBegin(node, j, start, stop, next);
    NothingNext(db, site, call, db);
    ReportNext(db, site, call, node, j, STARTED, stop, next);
  }

  lemma ReportCallNext(db: Db, site: Site, node: Id, j: Id, rep: Report, stop: Id, next: Id)
    requires Inv(db)
    ensures var call := CReport(node, j, rep, stop, next);
            NextEvolves(db, site, call, Apply(db, site, call))
  {
    hide Inv, NextEvolves, ReportJob;
    ReportNext(db, site, CReport(node, j, rep, stop, next), node, j, rep, stop, next);
    NothingNext(db, site, CReport(node, j, rep, stop, next), db);
  }

  lemma CallNext(db: Db, site: Site, call: Call)
    requires Inv(db)
    ensures NextEvolves(db, site, call, Apply(db, site, call))
  {
    hide Inv, NextEvolves, Apply;
    match call
    case CReport(node, j, rep, stop, next) => ReportCallNext(db, site, node, j, rep, stop, next);
    case CBegin(node, j, start, stop, next) => BeginNext(db, site, node, j, start, stop, next);
    case CFact(node, a, fact, stop, next) => FactNext(db, site, node, a, fact, stop, next);
    case CAbandon(user, r, next) => AbandonNext(db, site, user, r, next);
    case CUserStop(user, r, nextGame, stop) => UserStopNext(db, site, user, r, nextGame, stop);
    case CNewRequest(user, game, preset, mode, id) => NewNext(db, site, user, game, preset, mode, id);
    case _ => OtherNext(db, site, call);
  }

  // ---- Over whole runs ----

  // An intent keeps its allocation; once used up, with a new request or with a reason, it never changes.
  ghost predicate IntentsKept(db: Db, d: Db) {
    forall r :: r in db.intents ==>
      && r in d.intents && d.intents[r].alloc == db.intents[r].alloc
      && (db.intents[r].newRequest.Some? || db.intents[r].failure.Some? ==> d.intents[r] == db.intents[r])
  }

  lemma StepKeepsIntents(db: Db, site: Site, call: Call, d: Db)
    requires Inv(db) && NextEvolves(db, site, call, d)
    ensures IntentsKept(db, d)
  {
    hide Coupled, Ends, FreshCheck, Acting, NewRequestCause;
    forall r | r in db.intents
      ensures r in d.intents && d.intents[r].alloc == db.intents[r].alloc
      ensures db.intents[r].newRequest.Some? || db.intents[r].failure.Some? ==> d.intents[r] == db.intents[r]
    {
      InvRequest(db, r);
      CoupledIntent(db, r);
      assert IntentStep(db, site, call, d, r);
    }
  }

  lemma IntentsStay(h: History, site: Site, call: Call)
    ensures IntentsKept(Exec(h), Exec(h + [(site, call)]))
  {
    hide Inv, NextEvolves, Apply, Exec, IntentsKept;
    ExecStep(h, site, call);
    RunKeepsInv(h);
    CallNext(Exec(h), site, call);
    StepKeepsIntents(Exec(h), site, call, Exec(h + [(site, call)]));
  }

  lemma {:induction false} NextGameOnce(h: History, k: History)
    ensures IntentsKept(Exec(h), Exec(h + k))
    decreases |k|
  {
    hide Exec;
    if k == [] {
      assert h + k == h;
    } else {
      var m := k[..|k|-1];
      NextGameOnce(h, m);
      IntentsStay(h + m, k[|k|-1].0, k[|k|-1].1);
      assert h + k == (h + m) + [(k[|k|-1].0, k[|k|-1].1)];
    }
  }

  // Two intents never name the same new request, and the new request exists.
  ghost predicate NextGamesDiffer(db: Db) {
    && (forall r :: r in db.intents && db.intents[r].newRequest.Some? ==> db.intents[r].newRequest.value in db.requests)
    && (forall r, s :: r in db.intents && s in db.intents && r != s
                       && db.intents[r].newRequest.Some? && db.intents[s].newRequest.Some? ==>
          db.intents[r].newRequest != db.intents[s].newRequest)
  }

  lemma StepNextGamesDiffer(db: Db, site: Site, call: Call, d: Db)
    requires Inv(db) && NextEvolves(db, site, call, d) && RequestsEvolve(db, d) && NextGamesDiffer(db)
    ensures NextGamesDiffer(d)
  {
    assert OneChange(db, d);
    hide NextEvolves, Inv, NextOf, RequestsEvolve, Changed, OneChange, NextGamesDiffer;
    forall r | r in d.intents && d.intents[r].newRequest.Some?
      ensures d.intents[r].newRequest.value in d.requests
      ensures (r in db.intents && d.intents[r].newRequest == db.intents[r].newRequest)
              || (d.intents[r].newRequest.value !in db.requests && Changed(db, d, r))
    {
      NewNameSource(db, site, call, d, r);
    }
    DifferBySource(db, d);
  }

  lemma DifferBySource(db: Db, d: Db)
    requires NextGamesDiffer(db) && OneChange(db, d)
    requires forall r :: r in d.intents && d.intents[r].newRequest.Some? ==>
      && d.intents[r].newRequest.value in d.requests
      && ((r in db.intents && d.intents[r].newRequest == db.intents[r].newRequest)
          || (d.intents[r].newRequest.value !in db.requests && Changed(db, d, r)))
    ensures NextGamesDiffer(d)
  {
    hide Changed;
  }

  lemma {:induction false} NextGamesAreDistinct(h: History)
    ensures NextGamesDiffer(Exec(h))
    decreases |h|
  {
    if h != [] {
      var m := h[..|h|-1];
      NextGamesAreDistinct(m);
      var (site, call) := h[|h|-1];
      RunKeepsInv(m);
      CallNext(Exec(m), site, call);
      CallEvolves(Exec(m), site, call);
      hide Inv, NextEvolves, Apply, JobsEvolve, AllocationsEvolve, RequestsEvolve;
      StepNextGamesDiffer(Exec(m), site, call, Exec(h));
    }
  }

  // A new request named by an intent appears only in the step that proves the reclaim or records the abandon,
  // copies the old choice, and waits; a refusal is recorded in that same step, which still takes effect.
  lemma NextGameStep(h: History, site: Site, call: Call, r: Id)
    requires r in Exec(h).intents
    ensures var db, d := Exec(h), Exec(h + [(site, call)]);
            && r in db.requests && r in d.requests && r in d.intents
            && (d.intents[r].newRequest != db.intents[r].newRequest || d.intents[r].failure != db.intents[r].failure ==>
                  Ends(db, call, d, r) && UsedUp(db, site, d, r))
  {
    hide Inv, Exec, Apply, Ends, UsedUp;
    ExecStep(h, site, call);
    RunKeepsInv(h);
    CallNext(Exec(h), site, call);
    InvIntent(Exec(h), r);
    assert IntentStep(Exec(h), site, call, Exec(h + [(site, call)]), r);
  }

  lemma InvIntent(db: Db, r: Id)
    requires Inv(db) && r in db.intents
    ensures r in db.requests && IntentRooted(db, r)
  {
    hide Fits, Ordered, Numbered, Placed, Resting, Evidenced, IntentTimely;
    InvRequest(db, r);
  }

  lemma NewNameSource(db: Db, site: Site, call: Call, d: Db, r: Id)
    requires Inv(db) && NextEvolves(db, site, call, d) && RequestsEvolve(db, d) && NextGamesDiffer(db)
    requires r in d.intents && d.intents[r].newRequest.Some?
    ensures d.intents[r].newRequest.value in d.requests
    ensures (r in db.intents && d.intents[r].newRequest == db.intents[r].newRequest)
            || (d.intents[r].newRequest.value !in db.requests && Changed(db, d, r))
  {
    hide Coupled, Ends, Acting, NewRequestCause;
    assert r !in db.intents ==> NewIntent(db, call, d, r);
    InvIntent(db, r);
    assert IntentStep(db, site, call, d, r);
  }
}