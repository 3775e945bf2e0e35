/** The Platform store itself: tables the transactions read and write row by row.
    Each method is proved to do what its call in Calls says, or to roll back. */
module Store {
  import opened Facts
  import opened Ledger
  import opened Calls
  import opened Coupling
  import opened CouplingSteps
  import opened CouplingRuns
  import opened Evolution

  // What a transaction answers: it commits the rows of res, or leaves them as they were.
  predicate Answers(res: Result, was: Db, fault: Option<Fault>, now: Db) {
    match res
    case Committed(d) => fault.None? && now == d
    case Failed(why) => fault == Some(why) && now == was
  }

  lemma SettledRow(db: Db, site: Site, a: Id, after: AllocationState, requestAfter: RequestState, kind: JobKind, state: JobState,
                   join: Option<JoinInfo>, joinError: string)
    requires a in db.allocations
    ensures var d := Settle(db, site, a, after, requestAfter, kind, state, join, joinError);
            && a in d.allocations && SameAllocation(d.allocations[a], db.allocations[a]) && d.jobs == db.jobs
            && (db.allocations[a].purpose.ForRequest? && db.allocations[a].purpose.request in db.requests ==>
                  db.allocations[a].purpose.request in d.requests)
  {
  }

  lemma JobRow(db: Db, j: Id)
    requires Inv(db) && j in db.jobs
    ensures db.jobs[j].alloc in db.allocations && db.allocations[db.jobs[j].alloc].create in db.jobs
  {
  }

  class Store {
    var requests: map<Id, Request>
    var allocations: map<Id, Allocation>
    var jobs: map<Id, Job>
    var frozen: map<Id, Execution>
    var intents: map<Id, Intent>
    var members: map<Id, Id>
    var parties: map<Id, Party>
    var invites: map<Id, Invite>
    var runs: map<Id, Run>

    function View(): Db
      reads this
    {
      Db(requests, allocations, jobs, frozen, intents, members, parties, invites, runs)
    }

    ghost predicate Valid()
      reads this
    {
      Inv(View())
    }

    constructor ()
      ensures View() == EMPTY && Valid()
    {
      requests, allocations, jobs, frozen, intents := map[], map[], map[], map[], map[];
      members, parties, invites, runs := map[], map[], map[], map[];
      new;
      RunKeepsInv([]);
    }

    method Rollback(was: Db)
      modifies this
      ensures View() == was
    {
      requests, allocations, jobs, frozen, intents := was.requests, was.allocations, was.jobs, was.frozen, was.intents;
      members, parties, invites, runs := was.members, was.parties, was.invites, was.runs;
    }

    // ---- Requests ----

    // actingOwner: the party a leader acts for, or the person alone.
    method ActingOwner(user: Id) returns (owner: Owner, fault: Option<Fault>)
      ensures match Acting(View(), user)
              case Acts(who) => fault.None? && owner == who
              case Denied(why) => fault == Some(why)
    {
      owner, fault := Solo(user), None;
      if user in members {
        var p := members[user];
        if p !in parties || !parties[p].live {
          fault := Some(Internal);
        } else if parties[p].leader != Some(user) {
          fault := Some(Forbidden);
        } else {
          owner := Group(p);
        }
      }
    }

    method CreateUserRequest(site: Site, user: Id, game: Id, preset: Id, mode: Mode, id: Id) returns (fault: Option<Fault>)
      requires Valid()
      modifies `requests
      ensures Valid()
      ensures Answers(NewRequest(old(View()), site, user, game, preset, mode, id), old(View()), fault, View())
    {
      NewKeeps(View(), site, user, game, preset, mode, id);
      hide Inv, Busy, Opened, Acting;
      var owner;
      owner, fault := ActingOwner(user);
      if fault.None? {
        if !Busy(View(), owner) { fault := OpenRequest(site, owner, game, preset, mode, id); }
      }
    }

    method OpenRequest(site: Site, owner: Owner, game: Id, preset: Id, mode: Mode, id: Id) returns (fault: Option<Fault>)
      modifies `requests
      ensures Answers(Opened(old(View()), site, owner, game, preset, mode, id), old(View()), fault, View())
    {
      hide FreshCheck;
      fault := None;
      match FreshCheck(View(), site, game, preset, owner, mode)
      case Broken => fault := Some(Internal);
      case Refused(why) => fault := Some(Refusal(why));
      case FreshOk =>
        if id in requests {
          fault := Some(Internal);
        } else {
          requests := requests[id := Request(owner, game, preset, mode, site.now, RWaiting)];
        }
    }

    // Nothing was ever tried for the request.
    method Untried(r: Id) returns (none: bool)
      ensures none <==> Attempts(View(), r) == {}
    {
      var tried := set a | a in allocations && allocations[a].purpose == ForRequest(r);
      none := tried == {};
      assert tried == Attempts(View(), r);
    }

    method CancelUserRequest(user: Id, r: Id) returns (fault: Option<Fault>)
      requires Valid()
      modifies `requests
      ensures Valid()
      ensures Answers(UserCancel(old(View()), user, r), old(View()), fault, View())
    {
      UserCancelKeeps(View(), user, r);
      hide Inv, CancelWaiting, Acting;
      var owner;
      owner, fault := ActingOwner(user);
      if fault.None? {
        if r !in requests || requests[r].owner != owner {
          fault := Some(NotFound);
        } else {
          fault := CancelRow(r);
        }
      }
    }

    // A request still waiting, with nothing tried for it, is cancelled.
    method CancelRow(r: Id) returns (fault: Option<Fault>)
      modifies `requests
      ensures Answers(CancelWaiting(old(View()), r), old(View()), fault, View())
    {
      hide Attempts;
      fault := None;
      if r !in requests { return Some(NotFound); }
      var none := Untried(r);
      if !requests[r].state.RWaiting? || !none { return Some(Conflict); }
      requests := requests[r := requests[r].(state := RCancelled)];
    }

    // ---- Next games ----

    // consumeNextGameIntent, inside the transaction that ends or abandons r.
    method ConsumeNextGame(site: Site, r: Id, afterAbandon: bool, next: Id) returns (fault: Option<Fault>)
      requires r in requests
      modifies `requests, `intents
      ensures match Consume(old(View()), site, r, afterAbandon, next)
              case Committed(d) => fault.None? && View() == d
              case Failed(why) => fault == Some(why)
    {
      if r !in intents { return None; }
      var intent := intents[r];
      if intent.failure.Some? || intent.state.IConsumed? || (intent.state.IPaused? && !afterAbandon) { return None; }
      var q := requests[r];
      var check := FreshCheck(View(), site, q.game, q.preset, q.owner, q.mode);
      match check {
        case Broken => return Some(Internal);
        case Refused(why) =>
          // A business rejection must not undo the proved reclaim: it is kept as the reason.
          intents := intents[r := intent.(state := IPaused, failure := Some(why))];
          return None;
        case FreshOk =>
          if next in requests { return Some(Internal); }
          requests := requests[next := Request(q.owner, q.game, q.preset, q.mode, site.now, RWaiting)];
          intents := intents[r := intent.(state := IConsumed, newRequest := Some(next))];
          return None;
      }
    }

    method PauseNextGame(p: Purpose)
      modifies `intents
      ensures intents == Paused(old(intents), p)
    {
      if p.ForRequest? && p.request in intents && intents[p.request].state.IPending? {
        intents := intents[p.request := intents[p.request].(state := IPaused)];
      }
    }

    // Every report and fact path spares an abandoned request.
    method AdvanceOwner(p: Purpose, s: RequestState)
      modifies `requests
      ensures requests == OwnerAdvanced(old(requests), p, s)
    {
      if p.ForRequest? && p.request in requests && !requests[p.request].state.RAbandoned? {
        requests := requests[p.request := requests[p.request].(state := s)];
      }
    }

    // ---- Node jobs ----

    method OldestOf(ready: set<Id>) returns (j: Id)
      requires ready != {} && ready <= jobs.Keys
      ensures j in ready && forall k :: k in ready && k != j ==> Before(jobs[j], j, jobs[k], k)
    {
      j :| j in ready;
      var rest := ready - {j};
      while rest != {}
        invariant rest <= ready && j in ready && j !in rest
        invariant forall k :: k in ready && k !in rest && k != j ==> Before(jobs[j], j, jobs[k], k)
        decreases |rest|
      {
        var k :| k in rest;
        rest := rest - {k};
        if Before(jobs[k], k, jobs[j], j) { j := k; }
      }
    }

    // claimNextJob: the oldest pending job nothing unresolved stands in the way of. Rows another transaction
    // has locked are skipped.
    method ClaimNextJob(site: Site, node: Id, independent: bool, cap: Capability, locked: set<Id>) returns (claimed: Option<Id>)
      requires Valid()
      modifies `jobs
      ensures Valid()
      ensures match claimed
              case None =>
                View() == old(View())
                && forall k :: k in old(jobs) && k !in locked ==> !Claimable(old(View()), site, node, k, independent, cap)
              case Some(j) =>
                && j !in locked && Claimable(old(View()), site, node, j, independent, cap)
                && Claim(old(View()), site, node, j, independent, cap) == Committed(View())
                && forall k :: k in old(jobs) && k !in locked && k != j && Claimable(old(View()), site, node, k, independent, cap) ==>
                     Before(old(jobs)[j], j, old(jobs)[k], k)
    {
      hide Inv, Rival, TrustedStop;
      var ready := set j | j in jobs && j !in locked && Claimable(View(), site, node, j, independent, cap);
      if ready == {} {
        assert forall k :: k in jobs && k !in locked && Claimable(View(), site, node, k, independent, cap) ==> k in ready;
        return None;
      }
      var j := OldestOf(ready);
      ClaimKeeps(View(), site, node, j, independent, cap);
      hide Claimable;
      jobs := jobs[j := jobs[j].(state := JClaimed, everClaimed := true)];
      return Some(j);
    }

    // prepareCreate: the first caller freezes the request, every later one must repeat it.
    method PrepareCreate(site: Site, node: Id, j: Id, template: string, port: int, algorithm: string, sha: string) returns (fault: Option<Fault>)
      requires Valid()
      modifies this
      ensures Valid()
      ensures Answers(Prepare(old(View()), site, node, j, template, port, algorithm, sha), old(View()), fault, View())
    {
      PrepareKeeps(View(), site, node, j, template, port, algorithm, sha);
      if j in jobs { JobRooted(View(), j); }
      hide Inv;
      fault := Freeze(site, node, j, template, port, algorithm, sha);
    }

    method Freeze(site: Site, node: Id, j: Id, template: string, port: int, algorithm: string, sha: string) returns (fault: Option<Fault>)
      requires j in jobs ==> jobs[j].alloc in allocations
      modifies this
      ensures Answers(Prepare(old(View()), site, node, j, template, port, algorithm, sha), old(View()), fault, View())
    {
      hide Preparable, StartCreating;
      fault := None;
      if template == "" || port < 0 || port > 65535 {
        fault := Some(Conflict);
      } else if j !in jobs || jobs[j].node != node {
        fault := Some(NotFound);
      } else if !Preparable(jobs[j], template, port, algorithm, sha) {
        fault := Some(Conflict);
      } else {
        var asked := Frozen(template, port, jobs[j].capability, algorithm, sha);
        if j in frozen && frozen[j].request != asked {
          fault := Some(Conflict);
        } else {
          if j !in frozen { frozen := frozen[j := Execution(asked, site.now)]; }
          StartAllocation(jobs[j].alloc);
        }
      }
    }

    method StartAllocation(a: Id)
      requires a in allocations
      modifies `allocations, `requests, `runs
      ensures View() == StartCreating(old(View()), a)
    {
      var al := allocations[a];
      if al.state.AReserved? || al.state.ACreateUnknown? || al.state.ACreating? {
        allocations := allocations[a := al.(state := ACreating)];
        assert al.state.ACreating? ==> allocations == old(allocations);
      }
      if al.purpose.ForRequest? && al.purpose.request in requests && requests[al.purpose.request].state.RAllocating? {
        requests := requests[al.purpose.request := requests[al.purpose.request].(state := RCreating)];
      }
      if al.purpose.ForRun? && al.purpose.run in runs && runs[al.purpose.run].state.VCreatePending? {
        runs := runs[al.purpose.run := runs[al.purpose.run].(state := VCreateObserving)];
      }
    }

    // applyAllocationJobReport, inside the transaction that recorded the report on the job.
    method ApplyJobReport(site: Site, a: Id, kind: JobKind, state: JobState, instance: Token, errorCode: string,
                          join: Option<JoinInfo>, joinError: string, stop: Id, next: Id)
      returns (fault: Option<Fault>)
      requires a in allocations && allocations[a].create in jobs
      modifies this
      ensures match ApplyReport(old(View()), site, a, kind, state, instance, errorCode, join, joinError, stop, next)
              case Committed(d) => fault.None? && View() == d
              case Failed(why) => fault == Some(why)
    {
      var al := allocations[a];
      var p := al.purpose;
      // What came of the resource is decided: the report stays on the job alone.
      if al.state.AReclaimed? || al.state.AReleasedNoEffect? { return None; }
      if al.state.AQuarantined? && !(kind.Stop? && state.JSucceeded?) && !(kind.Create? && state.JRejectedNoEffect?) { return None; }
      var target := Target(kind, state, errorCode, ModeOf(View(), p), PausedFor(View(), p));
      if target.None? { return Some(Conflict); }
      TargetLeaves(kind, state, errorCode, ModeOf(View(), p), PausedFor(View(), p));
      hide Carry, Target;
      fault := CarryReport(site, a, target.value.0, target.value.1, kind, state, instance, errorCode, join, joinError, stop, next);
    }

    method CarryReport(site: Site, a: Id, after: AllocationState, requestAfter: RequestState, kind: JobKind, state: JobState,
                       instance: Token, errorCode: string, join: Option<JoinInfo>, joinError: string, stop: Id, next: Id)
      returns (fault: Option<Fault>)
      requires a in allocations && allocations[a].create in jobs && (kind.Create? && state.JSucceeded? ==> after.ARunning?)
      modifies this
      ensures match Carry(old(View()), site, a, after, requestAfter, kind, state, instance, errorCode, join, joinError, stop, next)
              case Committed(d) => fault.None? && View() == d
              case Failed(why) => fault == Some(why)
    {
      var al := allocations[a];
      if kind.Create? && state.JSucceeded? && join.Some? && !(al.node in site.nodes && site.nodes[al.node].entryRevision.Some?) {
        return Some(Internal);
      }
      SettleRows(site, a, after, requestAfter, kind, state, join, joinError);
      SettledRow(old(View()), site, a, after, requestAfter, kind, state, join, joinError);
      hide Settle, ConsumeFor, AutoStop, AutoStops;
      fault := None;
      if kind.Stop? && state.JSucceeded? && !al.state.AQuarantined? {
        fault := StartNextGame(site, al.purpose, next);
      } else if AutoStops(kind, state, instance, errorCode) {
        StopFailed(site, a, stop);
      }
    }

    // The owner's pending next game, once its old allocation is proved gone.
    method StartNextGame(site: Site, p: Purpose, next: Id) returns (fault: Option<Fault>)
      modifies `requests, `intents
      ensures match ConsumeFor(old(View()), site, p, next)
              case Committed(d) => fault.None? && View() == d
              case Failed(why) => fault == Some(why)
    {
      hide Consume;
      fault := None;
      if p.ForRequest? && p.request in requests { fault := ConsumeNextGame(site, p.request, false, next); }
    }

    method SettleRows(site: Site, a: Id, after: AllocationState, requestAfter: RequestState, kind: JobKind, state: JobState,
                      join: Option<JoinInfo>, joinError: string)
      requires a in allocations && (kind.Create? && state.JSucceeded? ==> after.ARunning?)
      modifies this
      ensures View() == Settle(old(View()), site, a, after, requestAfter, kind, state, join, joinError)
    {
      hide OwnerAdvanced, Paused, KeptJoin, JoinErrorOf, Entered, Moved, RunsAfterJob;
      var p := allocations[a].purpose;
      var joined := EnterRow(site, a, after, kind, state, join, joinError);
      AdvanceOwner(p, requestAfter);
      AdvanceRun(p, kind, state, after, joined);
      if after.AQuarantined? { PauseNextGame(p); }
    }

    method AdvanceRun(p: Purpose, kind: JobKind, state: JobState, after: AllocationState, joined: bool)
      modifies `runs
      ensures runs == RunsAfterJob(old(runs), p, kind, state, after, joined)
    {
      hide AdvanceFromJob;
      if p.ForRun? && p.run in runs {
        runs := runs[p.run := AdvanceFromJob(runs[p.run], kind, state, after, joined)];
      }
    }

    // The allocation row of a report; a JoinInfo for an entry configuration that has moved on is dropped.
    method EnterRow(site: Site, a: Id, after: AllocationState, kind: JobKind, state: JobState, join: Option<JoinInfo>, joinError: string)
      returns (joined: bool)
      requires a in allocations && (kind.Create? && state.JSucceeded? ==> after.ARunning?)
      modifies `allocations
      ensures joined == (kind.Create? && state.JSucceeded? && KeptJoin(site, old(allocations)[a].node, join).Some?)
      ensures allocations == if kind.Create? && state.JSucceeded?
                             then old(allocations)[a := Entered(old(allocations)[a], site, join, joinError)]
                             else Moved(old(allocations), a, after)
    {
      var row := allocations[a].(state := after);
      joined := false;
      if kind.Create? && state.JSucceeded? {
        var kept := KeptJoin(site, row.node, join);
        if kept.Some? {
          row, joined := row.(join := kept, joinError := ""), true;
        } else {
          row := row.(joinError := JoinErrorOf(join, joinError));
        }
      }
      allocations := allocations[a := row];
    }

    // An effectful failure queues its own stop, unless one is open.
    method StopFailed(site: Site, a: Id, stop: Id)
      requires a in allocations && allocations[a].create in jobs
      modifies `jobs, `allocations, `requests
      ensures View() == AutoStop(old(View()), site, a, stop)
    {
      hide OwnerAdvanced;
      if stop !in jobs && !OpenStop(jobs, a) { jobs := jobs[stop := NewStopJob(View(), a, site.now)]; }
      allocations := allocations[a := allocations[a].(state := AStopping)];
      AdvanceOwner(allocations[a].purpose, RStopping);
    }

    // reportJob and, with a start, BeginOperation: one transaction that records the report on the job
    // and moves the allocation, or leaves every row as it was.
    method ReportJob(site: Site, node: Id, j: Id, rep: Report, stop: Id, next: Id) returns (fault: Option<Fault>)
      requires Valid()
      modifies this
      ensures Valid()
      ensures Answers(Calls.ReportJob(old(View()), site, node, j, rep, stop, next), old(View()), fault, View())
    {
      ReportKeeps(View(), site, node, j, rep, stop, next);
      if j in jobs { JobRow(View(), j); }
      hide Inv;
      fault := RecordReport(site, node, j, rep, stop, next);
    }

    method RecordReport(site: Site, node: Id, j: Id, rep: Report, stop: Id, next: Id) returns (fault: Option<Fault>)
      requires j in jobs ==> jobs[j].alloc in allocations && allocations[jobs[j].alloc].create in jobs
      modifies this
      ensures Answers(Calls.ReportJob(old(View()), site, node, j, rep, stop, next), old(View()), fault, View())
    {
      hide ApplyReport, ReportAllowed, ValidReport;
      var was := View();
      fault := None;
      if !ValidReport(rep) {
        fault := Some(Conflict);
      } else if j !in jobs || jobs[j].node != node {
        fault := Some(NotFound);
      } else if !ReportAllowed(jobs[j], j in frozen, rep) {
        fault := Some(Conflict);
      } else {
        var job := jobs[j];
        if Repeats(job, rep) {
        } else if JobTerminal(job.state) {
          fault := Some(Conflict);
        } else {
          jobs := jobs[j := Reported(job, rep)];
          fault := ApplyJobReport(site, job.alloc, job.kind, rep.state, Merge(job.instance, rep.instance), rep.errorCode,
                                  rep.join, rep.joinError, stop, next);
          if fault.Some? { Rollback(was); }
        }
      }
    }

    method BeginOperation(site: Site, node: Id, j: Id, start: Start, stop: Id, next: Id) returns (fault: Option<Fault>)
      requires Valid()
      modifies this
      ensures Valid()
      ensures Answers(Begin(old(View()), site, node, j, start, stop, next), old(View()), fault, View())
    {
      hide Inv, StartAllowed, Calls.ReportJob, TokenOk;
      fault := None;
      if start.StartStop? && !TokenOk(start.instance) {
        fault := Some(Conflict);
      } else if j !in jobs || jobs[j].node != node {
        fault := Some(NotFound);
      } else if !StartAllowed(View(), j, start) {
        fault := Some(Conflict);
      } else if !jobs[j].state.JUnknown? {
        fault := ReportJob(site, node, j, STARTED, stop, next);
      }
    }

    // ---- Instance facts ----

    method IsolateAllocation(a: Id)
      requires a in allocations
      modifies this
      ensures View() == Isolate(old(View()), a)
    {
      hide OwnerAdvanced, Paused;
      var p := allocations[a].purpose;
      allocations := allocations[a := allocations[a].(state := AQuarantined)];
      AdvanceOwner(p, RQuarantined);
      PauseNextGame(p);
      if p.ForRun? && p.run in runs { runs := runs[p.run := AdvanceFromFact(runs[p.run], FactQuarantined, false)]; }
    }

    method MoveByFact(site: Site, a: Id, f: Fact, joinPort: int, stop: Id, next: Id) returns (fault: Option<Fault>)
      requires a in allocations && allocations[a].create in jobs
      modifies this
      ensures match FactMove(old(View()), site, a, f, joinPort, stop, next)
              case Committed(d) => fault.None? && View() == d
              case Failed(why) => fault == Some(why)
    {
      hide ApplyReport, Isolate, Consume;
      var p := allocations[a].purpose;
      fault := None;
      if f.outcome.Gone? {
        allocations := allocations[a := allocations[a].(state := AReclaimed)];
        if p.ForRequest? && !PausedIntent(View(), p.request) {
          AdvanceOwner(p, REnded);
          if p.request in requests { fault := ConsumeNextGame(site, p.request, false, next); }
        }
      } else if FailedInstance(f, allocations[a].state) {
        fault := ApplyJobReport(site, a, Create, JFailedWithEffect, f.instance, "INSTANCE_FAILED", None, "", stop, next);
      } else if f.outcome.IdentityUnverified? || (f.outcome.Active? && joinPort != 0 && f.port != joinPort) {
        IsolateAllocation(a);
      }
    }

    method ReportInstanceFact(site: Site, node: Id, a: Id, f: Fact, stop: Id, next: Id) returns (fault: Option<Fault>)
      requires Valid()
      modifies this
      ensures Valid()
      ensures Answers(InstanceFact(old(View()), site, node, a, f, stop, next), old(View()), fault, View())
    {
      FactKeeps(View(), site, node, a, f, stop, next);
      hide Inv;
      fault := RecordFact(site, node, a, f, stop, next);
    }

    method RecordFact(site: Site, node: Id, a: Id, f: Fact, stop: Id, next: Id) returns (fault: Option<Fault>)
      modifies this
      ensures Answers(InstanceFact(old(View()), site, node, a, f, stop, next), old(View()), fault, View())
    {
      hide ApplyFact, ValidFact;
      var was := View();
      fault := None;
      if !ValidFact(f) {
        fault := Some(Conflict);
      } else if a !in allocations || allocations[a].node != node || allocations[a].create !in jobs {
        fault := Some(NotFound);
      } else if f.join.Some? && !(node in site.nodes && site.nodes[node].entryRevision.Some?) {
        fault := Some(Internal);
      } else {
        var al := allocations[a];
        if jobs[al.create].instance == "" || jobs[al.create].instance != f.instance {
          fault := Some(Conflict);
        } else if Terminal(al.state) {
        } else if (f.join.Some? || f.joinError != "") && !al.state.ARunning? {
          fault := Some(Conflict);
        } else if f.join.Some? && site.nodes[node].entryRevision != Some(f.join.value.revision) {
          fault := Some(Conflict);
        } else {
          fault := PublishFact(site, a, f, stop, next);
          if fault.Some? { Rollback(was); }
        }
      }
    }

    method PublishFact(site: Site, a: Id, f: Fact, stop: Id, next: Id) returns (fault: Option<Fault>)
      requires a in allocations && allocations[a].create in jobs
      modifies this
      ensures match ApplyFact(old(View()), site, a, f, stop, next)
              case Committed(d) => fault.None? && View() == d
              case Failed(why) => fault == Some(why)
    {
      hide FactMove;
      var al := allocations[a];
      allocations := allocations[a := FactJoin(al, f)];
      fault := MoveByFact(site, a, f, JoinPort(al), stop, next);
      if fault.None? && f.outcome.Active? && f.room == "ready" && al.purpose.ForRun? && al.purpose.run in runs {
        runs := runs[al.purpose.run := AdvanceFromFact(runs[al.purpose.run], FactReady, f.join.Some?)];
      }
    }
  }
}
