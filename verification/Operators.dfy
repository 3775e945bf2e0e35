/** Stops, quarantine, abandonment, parties and validation runs on the store's tables. */
module Operators {
  import opened Facts
  import opened Ledger
  import opened Calls
  import opened Coupling
  import opened CouplingSteps
  import opened CouplingRuns
  import opened Evolution
  import opened Store

  // ---- Stops ----

  // The one attempt of a request that still holds capacity, if any.
  method FindOpen(s: Store, r: Id) returns (open: Option<Id>)
    ensures match open
            case None => !HasOpen(s.View(), r)
            case Some(a) => OpenAttempt(s.View(), r, a)
  {
    var held := set a | a in s.allocations && OpenAttempt(s.View(), r, a);
    if held == {} {
      assert forall a :: OpenAttempt(s.View(), r, a) ==> a in held;
      return None;
    }
    var a :| a in held;
    return Some(a);
  }

  lemma OpenIsOpenOf(db: Db, r: Id, a: Id)
    requires Inv(db) && r in db.requests && OpenAttempt(db, r, a)
    ensures OpenOf(db, r) == a
  {
    hide Coupled;
    InvRequest(db, r);
    OpenIsOnly(db, r, a, OpenOf(db, r));
  }

  // What stopping a running request with open attempt a does.
  ghost function StopsRunning(db: Db, site: Site, r: Id, a: Id, nextGame: bool, stop: Id): Result
    requires a in db.allocations && db.allocations[a].create in db.jobs
  {
    var c := db.jobs[db.allocations[a].create];
    if !db.allocations[a].state.ARunning? || !c.state.JSucceeded? then Failed(NotFound)
    else if c.instance == "" then Failed(Conflict)
    else if stop in db.jobs || OpenStop(db.jobs, a) || (nextGame && r in db.intents) then Failed(Internal)
    else Committed(db.(
      jobs := db.jobs[stop := NewStopJob(db, a, site.now)],
      allocations := Moved(db.allocations, a, AStopping), requests := Advanced(db.requests, r, RStopping),
      intents := if nextGame then db.intents[r := Intent(a, IPending, None, None)] else db.intents))
  }

  lemma UserStopIs(db: Db, site: Site, user: Id, r: Id, nextGame: bool, stop: Id, open: Option<Id>)
    requires Inv(db)
    requires match open case None => !HasOpen(db, r) case Some(a) => OpenAttempt(db, r, a)
    ensures open.Some? ==> open.value in db.allocations && db.allocations[open.value].create in db.jobs
    ensures UserStop(db, site, user, r, nextGame, stop) == (
      match Acting(db, user)
      case Denied(fault) => Failed(fault)
      case Acts(owner) =>
        if r !in db.requests || db.requests[r].owner != owner then Failed(NotFound)
        else if db.requests[r].state.RStopping? || db.requests[r].state.REnded? then
          if nextGame && r !in db.intents then Failed(Conflict) else Committed(db)
        else if !db.requests[r].state.RRunning? then Failed(Conflict)
        else if open.None? then Failed(NotFound)
        else StopsRunning(db, site, r, open.value, nextGame, stop))
  {
    hide Coupled, Rooted, OpenStop, NewStopJob, Moved, Advanced, Acting;
    if open.Some? {
      InvAllocation(db, open.value);
      if r in db.requests { OpenIsOpenOf(db, r, open.value); }
    }
    hide Inv, OpenOf;
  }

  method StopUserRequest(s: Store, site: Site, user: Id, r: Id, nextGame: bool, stop: Id) returns (fault: Option<Fault>)
    requires s.Valid()
    modifies s
    ensures s.Valid()
    ensures Answers(UserStop(old(s.View()), site, user, r, nextGame, stop), old(s.View()), fault, s.View())
  {
    UserStopKeeps(s.View(), site, user, r, nextGame, stop);
    var open := FindOpen(s, r);
    UserStopIs(s.View(), site, user, r, nextGame, stop, open);
    hide Inv, UserStop, HasOpen, StopsRunning;
    var owner;
    owner, fault := s.ActingOwner(user);
    if fault.Some? {
    } else if r !in s.requests || s.requests[r].owner != owner {
      fault := Some(NotFound);
    } else if s.requests[r].state.RStopping? || s.requests[r].state.REnded? {
      if nextGame && r !in s.intents { fault := Some(Conflict); }
    } else if !s.requests[r].state.RRunning? {
      fault := Some(Conflict);
    } else if open.None? {
      fault := Some(NotFound);
    } else {
      fault := StopRunning(s, site, r, open.value, nextGame, stop);
    }
  }

  // The write half of stopUserRequest.
  method StopRunning(s: Store, site: Site, r: Id, a: Id, nextGame: bool, stop: Id) returns (fault: Option<Fault>)
    requires r in s.requests && s.requests[r].state.RRunning? && a in s.allocations && s.allocations[a].create in s.jobs
    modifies s
    ensures Answers(StopsRunning(old(s.View()), site, r, a, nextGame, stop), old(s.View()), fault, s.View())
  {
    hide OpenStop;
    fault := None;
    var create := s.jobs[s.allocations[a].create];
    if !s.allocations[a].state.ARunning? || !create.state.JSucceeded? {
      fault := Some(NotFound);
    } else if create.instance == "" {
      fault := Some(Conflict);
    } else if stop in s.jobs || OpenStop(s.jobs, a) || (nextGame && r in s.intents) {
      fault := Some(Internal);
    } else {
      s.jobs := s.jobs[stop := NewStopJob(s.View(), a, site.now)];
      s.allocations := s.allocations[a := s.allocations[a].(state := AStopping)];
      s.requests := s.requests[r := s.requests[r].(state := RStopping)];
      if nextGame { s.intents := s.intents[r := Intent(a, IPending, None, None)]; }
    }
  }

  // What the administrator's stop of request r, with open attempt a, does.
  ghost function StopsHeld(db: Db, site: Site, r: Id, a: Id, stop: Id): Result
    requires r in db.requests && a in db.allocations && db.allocations[a].create in db.jobs
  {
    var al := db.allocations[a];
    var c := db.jobs[al.create];
    var q := db.requests[r].state;
    if (!al.state.ARunning? && !al.state.AQuarantined?) || c.instance == "" then Failed(NotFound)
    else if (q.RAbandoned? && !al.state.AQuarantined?) || c.errorCode == "IDENTITY_UNVERIFIED" || OpenStop(db.jobs, a) then Failed(Conflict)
    else if stop in db.jobs then Failed(Internal)
    else
      var d := db.(jobs := db.jobs[stop := NewStopJob(db, a, site.now)]);
      Committed(if q.RRunning? then d.(allocations := Moved(db.allocations, a, AStopping), requests := Advanced(db.requests, r, RStopping))
                else d)
  }

  lemma AdminStopIs(db: Db, site: Site, r: Id, stop: Id, open: Option<Id>)
    requires Inv(db)
    requires match open case None => !HasOpen(db, r) case Some(a) => OpenAttempt(db, r, a)
    ensures open.Some? ==> open.value in db.allocations && db.allocations[open.value].create in db.jobs
    ensures AdminStop(db, site, r, stop) == (
      if r !in db.requests then Failed(NotFound)
      else
        var q := db.requests[r].state;
        if !q.RRunning? && !q.RQuarantined? && !q.RAbandoned? then Failed(Conflict)
        else if open.None? then Failed(NotFound)
        else StopsHeld(db, site, r, open.value, stop))
  {
    hide Coupled, Rooted, OpenStop, NewStopJob, Moved, Advanced;
    if open.Some? {
      InvAllocation(db, open.value);
      if r in db.requests { OpenIsOpenOf(db, r, open.value); }
    }
    hide Inv, OpenOf;
  }

  // The administrator's request.stop
  method StopRequest(s: Store, site: Site, r: Id, stop: Id) returns (fault: Option<Fault>)
    requires s.Valid()
    modifies s
    ensures s.Valid()
    ensures Answers(AdminStop(old(s.View()), site, r, stop), old(s.View()), fault, s.View())
  {
    AdminStopKeeps(s.View(), site, r, stop);
    var open := FindOpen(s, r);
    AdminStopIs(s.View(), site, r, stop, open);
    hide Inv, AdminStop, HasOpen, StopsHeld;
    fault := None;
    if r !in s.requests {
      fault := Some(NotFound);
    } else if !s.requests[r].state.RRunning? && !s.requests[r].state.RQuarantined? && !s.requests[r].state.RAbandoned? {
      fault := Some(Conflict);
    } else if open.None? {
      fault := Some(NotFound);
    } else {
      fault := StopHeld(s, site, r, open.value, stop);
    }
  }

  // The write half of request.stop.
  method StopHeld(s: Store, site: Site, r: Id, a: Id, stop: Id) returns (fault: Option<Fault>)
    requires r in s.requests && !s.requests[r].state.REnded? && a in s.allocations && s.allocations[a].create in s.jobs
    modifies s
    ensures Answers(StopsHeld(old(s.View()), site, r, a, stop), old(s.View()), fault, s.View())
  {
    hide OpenStop;
    var al := s.allocations[a];
    var create := s.jobs[al.create];
    fault := None;
    if (!al.state.ARunning? && !al.state.AQuarantined?) || create.instance == "" {
      fault := Some(NotFound);
    } else if s.requests[r].state.RAbandoned? && !al.state.AQuarantined? {
      fault := Some(Conflict);
    } else if create.errorCode == "IDENTITY_UNVERIFIED" || OpenStop(s.jobs, a) {
      fault := Some(Conflict);
    } else if stop in s.jobs {
      fault := Some(Internal);
    } else {
      s.jobs := s.jobs[stop := NewStopJob(s.View(), a, site.now)];
      if s.requests[r].state.RRunning? {
        s.allocations := s.allocations[a := al.(state := AStopping)];
        s.requests := s.requests[r := s.requests[r].(state := RStopping)];
      }
    }
  }

  // The administrator's request.cancel: only a waiting request nothing was ever tried for.
  method CancelRequest(s: Store, r: Id) returns (fault: Option<Fault>)
    requires s.Valid()
    modifies s
    ensures s.Valid()
    ensures Answers(CancelWaiting(old(s.View()), r), old(s.View()), fault, s.View())
  {
    CancelKeeps(s.View(), r);
    hide Inv, CancelWaiting;
    fault := s.CancelRow(r);
  }

  // allocation.terminate_pending: only a create job nobody has ever taken.
  method TerminatePendingAllocation(s: Store, a: Id) returns (fault: Option<Fault>)
    requires s.Valid()
    modifies s
    ensures s.Valid()
    ensures Answers(TerminatePending(old(s.View()), a), old(s.View()), fault, s.View())
  {
    TerminateKeeps(s.View(), a);
    hide Inv;
    fault := TerminateRows(s, a);
  }

  method TerminateRows(s: Store, a: Id) returns (fault: Option<Fault>)
    modifies s
    ensures Answers(TerminatePending(old(s.View()), a), old(s.View()), fault, s.View())
  {
    hide AdvanceFromJob, Untouched;
    fault := None;
    if a !in s.allocations || s.allocations[a].create !in s.jobs {
      fault := Some(NotFound);
    } else {
      var al := s.allocations[a];
      var job := s.jobs[al.create];
      if job.state.JRejectedNoEffect? && al.state.AReleasedNoEffect? {
        if job.errorCode != "PENDING_TERMINATED" { fault := Some(Conflict); }
      } else if !job.state.JPending? || !al.state.AReserved? || !Untouched(s.View(), al.create) {
        fault := Some(Conflict);
      } else {
        s.jobs := s.jobs[al.create := job.(state := JRejectedNoEffect, errorCode := "PENDING_TERMINATED", errorStage := "dispatch", reported := true)];
        s.allocations := s.allocations[a := al.(state := AReleasedNoEffect)];
        if al.purpose.ForRequest? && al.purpose.request in s.requests {
          s.requests := s.requests[al.purpose.request := s.requests[al.purpose.request].(state := RUnavailable)];
        }
        if al.purpose.ForRun? && al.purpose.run in s.runs {
          s.runs := s.runs[al.purpose.run := AdvanceFromJob(s.runs[al.purpose.run], Create, JRejectedNoEffect, AReleasedNoEffect, false)];
        }
      }
    }
  }

  // ---- Quarantine ----

  method MarkAllocationQuarantined(s: Store, a: Id) returns (fault: Option<Fault>)
    requires s.Valid()
    modifies s
    ensures s.Valid()
    ensures Answers(Quarantine(old(s.View()), a), old(s.View()), fault, s.View())
  {
    if a in s.allocations && !Terminal(s.allocations[a].state) { IsolateKeeps(s.View(), a); }
    hide Inv, Isolate;
    fault := None;
    if a !in s.allocations || s.allocations[a].create !in s.jobs {
      fault := Some(NotFound);
    } else {
      var state := s.allocations[a].state;
      if state.AQuarantined? {
      } else if state.AReclaimed? || state.AReleasedNoEffect? {
        fault := Some(Conflict);
      } else if state.AReserved? && s.jobs[s.allocations[a].create].state.JPending? {
        fault := Some(Conflict);
      } else {
        s.IsolateAllocation(a);
      }
    }
  }

  // Silent for longer, then assigned earlier, then the smaller ID.
  predicate SilentFirst(db: Db, site: Site, a: Id, b: Id)
    requires Silent(db, site, a) && Silent(db, site, b)
  {
    var x, y := db.allocations[a], db.allocations[b];
    var s, t := site.nodes[x.node].heartbeat.value, site.nodes[y.node].heartbeat.value;
    s < t || (s == t && (x.assignedAt < y.assignedAt || (x.assignedAt == y.assignedAt && a < b)))
  }

  // QuarantineOneUnreachable: of the allocations on nodes silent for too long, the first in order.
  method QuarantineOneUnreachable(s: Store, site: Site) returns (done: Option<Id>)
    requires s.Valid()
    modifies s
    ensures s.Valid()
    ensures match done
            case None => s.View() == old(s.View()) && forall a :: a in old(s.allocations) ==> !Silent(old(s.View()), site, a)
            case Some(a) =>
              && Silent(old(s.View()), site, a) && QuarantineSilent(old(s.View()), site, a) == Committed(s.View())
              && forall b :: b in old(s.allocations) && Silent(old(s.View()), site, b) && b != a ==> SilentFirst(old(s.View()), site, a, b)
  {
    var a := FirstSilent(s, site);
    if a.None? { return None; }
    IsolateKeeps(s.View(), a.value);
    hide Inv, Isolate, SilentFirst;
    s.IsolateAllocation(a.value);
    return a;
  }

  method FirstSilent(s: Store, site: Site) returns (first: Option<Id>)
    ensures match first
            case None => forall a :: a in s.allocations ==> !Silent(s.View(), site, a)
            case Some(a) =>
              && Silent(s.View(), site, a)
              && forall b :: b in s.allocations && Silent(s.View(), site, b) && b != a ==> SilentFirst(s.View(), site, a, b)
  {
    var silent := set a | a in s.allocations && Silent(s.View(), site, a);
    assert forall a :: a in s.allocations && Silent(s.View(), site, a) ==> a in silent;
    hide Silent;
    if silent == {} { return None; }
    var a :| a in silent;
    var rest := silent - {a};
    while rest != {}
      invariant rest <= silent && a in silent && a !in rest
      invariant forall b :: b in silent && b !in rest && b != a ==> SilentFirst(s.View(), site, a, b)
      decreases |rest|
    {
      var b :| b in rest;
      rest := rest - {b};
      if SilentFirst(s.View(), site, b, a) { a := b; }
    }
    return Some(a);
  }

  // The attempt with the highest number: the one abandonment looks at.
  method FindLatest(s: Store, r: Id) returns (latest: Option<Id>)
    ensures match latest
            case None => forall a :: a in s.allocations ==> !AttemptOf(s.View(), r, a)
            case Some(a) => LatestAttempt(s.View(), r, a)
  {
    var tried := set a | a in s.allocations && AttemptOf(s.View(), r, a);
    if tried == {} {
      assert forall a :: a in s.allocations && AttemptOf(s.View(), r, a) ==> a in tried;
      return None;
    }
    var best :| best in tried;
    var rest := tried - {best};
    while rest != {}
      invariant rest <= tried && best in tried
      invariant forall a :: a in tried && a !in rest ==> s.allocations[a].attempt <= s.allocations[best].attempt
      decreases |rest|
    {
      var a :| a in rest;
      rest := rest - {a};
      if s.allocations[a].attempt > s.allocations[best].attempt { best := a; }
    }
    assert forall a :: a in s.allocations && AttemptOf(s.View(), r, a) ==> a in tried;
    return Some(best);
  }

  lemma LatestIsOne(db: Db, r: Id, a: Id, b: Id)
    requires Inv(db) && r in db.requests && LatestAttempt(db, r, a) && LatestAttempt(db, r, b)
    ensures a == b
  {
    InvRequest(db, r);
    CoupledNumbers(db, r);
    hide Coupled, Inv, Numbered;
  }

  method AbandonRequest(s: Store, site: Site, user: Id, r: Id, next: Id) returns (fault: Option<Fault>)
    requires s.Valid()
    modifies s
    ensures s.Valid()
    ensures Answers(Abandon(old(s.View()), site, user, r, next), old(s.View()), fault, s.View())
  {
    AbandonKeeps(s.View(), site, user, r, next);
    var latest := FindLatest(s, r);
    AbandonIs(s.View(), site, user, r, next, latest);
    hide Inv, Consume, LatestAttempt, SetRequest, Abandon;
    var owner;
    owner, fault := s.ActingOwner(user);
    if fault.Some? {
    } else if r !in s.requests || s.requests[r].owner != owner {
      fault := Some(NotFound);
    } else if s.requests[r].state.RAbandoned? {
    } else if !s.requests[r].state.RQuarantined? {
      fault := Some(Conflict);
    } else if latest.None? {
      fault := Some(NotFound);
    } else {
      var state := s.allocations[latest.value].state;
      if !state.AQuarantined? && !(state.AReclaimed? && PausedIntent(s.View(), r)) {
        fault := Some(Conflict);
      } else {
        fault := AbandonRows(s, site, r, next);
      }
    }
  }

  // Abandon, with the latest attempt found.
  lemma AbandonIs(db: Db, site: Site, user: Id, r: Id, next: Id, latest: Option<Id>)
    requires Inv(db)
    requires match latest
             case None => forall a :: a in db.allocations ==> !AttemptOf(db, r, a)
             case Some(a) => LatestAttempt(db, r, a)
    ensures latest.Some? ==> latest.value in db.allocations
    ensures r in db.requests ==> r in SetRequest(db, r, RAbandoned).requests
    ensures Abandon(db, site, user, r, next) == (
      match Acting(db, user)
      case Denied(fault) => Failed(fault)
      case Acts(owner) =>
        if r !in db.requests || db.requests[r].owner != owner then Failed(NotFound)
        else if db.requests[r].state.RAbandoned? then Committed(db)
        else if !db.requests[r].state.RQuarantined? then Failed(Conflict)
        else if latest.None? then Failed(NotFound)
        else
          var s := db.allocations[latest.value].state;
          if !s.AQuarantined? && !(s.AReclaimed? && PausedIntent(db, r)) then Failed(Conflict)
          else Consume(SetRequest(db, r, RAbandoned), site, r, true, next))
  {
    hide Consume, Coupled, Rooted;
    if r in db.requests && latest.Some? {
      forall a, b | LatestAttempt(db, r, a) && LatestAttempt(db, r, b) ensures a == b { LatestIsOne(db, r, a, b); }
    }
  }

  // Abandon and consume the next game in one transaction.
  method AbandonRows(s: Store, site: Site, r: Id, next: Id) returns (fault: Option<Fault>)
    requires r in s.requests && s.requests[r].state.RQuarantined?
    modifies s
    ensures SetRequest(old(s.View()), r, RAbandoned).requests.Keys == old(s.requests).Keys
    ensures Answers(Consume(SetRequest(old(s.View()), r, RAbandoned), site, r, true, next), old(s.View()), fault, s.View())
  {
    hide Consume;
    var was := s.View();
    s.requests := s.requests[r := s.requests[r].(state := RAbandoned)];
    assert s.View() == SetRequest(was, r, RAbandoned);
    fault := s.ConsumeNextGame(site, r, true, next);
    if fault.Some? { s.Rollback(was); }
  }
}
