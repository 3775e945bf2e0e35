/** Reserving, confirming, stopping and closing a validation run on the store's tables. */
module ValidationRuns {
  import opened Facts
  import opened Ledger
  import opened Calls
  import opened Coupling
  import opened CouplingRuns
  import opened Store

  method ReserveValidation(s: Store, site: Site, q: RunRequest, v: Id, a: Id, j: Id) returns (fault: Option<Fault>)
    requires s.Valid()
    modifies s
    ensures s.Valid()
    ensures Answers(ReserveRun(old(s.View()), site, q, v, a, j), old(s.View()), fault, s.View())
  {
    ReserveKeeps(s.View(), site, q, v, a, j);
    if Reservable(s.View(), site, q) { ReservableFacts(s.View(), site, q); }
    hide Inv, Reservable;
    fault := None;
    if !Reservable(s.View(), site, q) {
      fault := Some(Conflict);
    } else if v in s.runs || a in s.allocations || j in s.jobs {
      fault := Some(Internal);
    } else {
      var c := CandidateOf(site, q);
      var expected := Expected(c.fingerprint, c.generation, site.games[q.game].workshop, c.content, c.sha);
      s.runs := s.runs[v := Run(c, a, VCreatePending, HPending, false, false)];
      s.allocations := s.allocations[a := Allocation(ForRun(v), q.game, 1, q.node, q.content, q.revision, j, AReserved, None, "", site.now)];
      s.jobs := s.jobs[j := NewCreateJob(q.node, a, c.key, Some(expected), site.now)];
    }
  }

  lemma ReservableFacts(db: Db, site: Site, q: RunRequest)
    requires Reservable(db, site, q)
    ensures q.game in site.games && (q.game, q.content) in site.facts.versions && (q.node, q.game) in site.facts.content
    ensures (q.node, q.revision) in site.facts.bindings && (q.node, q.revision) in site.facts.templates
  {
  }

  // Queue the run's stop and move its allocation and row.
  method StopRunRows(s: Store, site: Site, v: Id, run: Run, stop: Id) returns (fault: Option<Fault>)
    requires RunRooted(s.View(), v) && run.alloc == s.runs[v].alloc
    modifies s
    ensures match QueueStop(old(s.View()), site, run.alloc, stop)
            case Failed(why) => fault == Some(why) && s.View() == old(s.View())
            case Committed(d) =>
              fault.None? && s.View() == d.(allocations := Moved(d.allocations, run.alloc, AStopping), runs := d.runs[v := run])
  {
    hide OpenStop;
    var a := run.alloc;
    fault := None;
    if stop in s.jobs || OpenStop(s.jobs, a) {
      fault := Some(Internal);
    } else {
      s.jobs := s.jobs[stop := NewStopJob(s.View(), a, site.now)];
      s.allocations := s.allocations[a := s.allocations[a].(state := AStopping)];
      s.runs := s.runs[v := run];
    }
  }

  method ConfirmValidationHuman(s: Store, site: Site, v: Id, pass: bool, expected: Option<RunState>, stop: Id) returns (fault: Option<Fault>)
    requires s.Valid()
    modifies s
    ensures s.Valid()
    ensures Answers(ConfirmHuman(old(s.View()), site, v, pass, expected, stop), old(s.View()), fault, s.View())
  {
    ConfirmKeeps(s.View(), site, v, pass, expected, stop);
    hide Inv, QueueStop, CurrentJoin;
    fault := None;
    if !RunRooted(s.View(), v) {
      fault := Some(NotFound);
    } else {
      var run := s.runs[v];
      var al := s.allocations[run.alloc];
      var create := s.jobs[al.create];
      if expected.Some? && expected.value != run.state {
        fault := Some(Conflict);
      } else if !run.human.HPending? || create.instance == "" || !create.state.JSucceeded? || !al.state.ARunning? {
        fault := Some(Conflict);
      } else if pass && !(run.state.VAwaitingHuman? && run.ready && run.joinable && CurrentJoin(site, al)) {
        fault := Some(Conflict);
      } else {
        fault := StopRunRows(s, site, v, run.(human := if pass then HPass else HFail, state := VStopPending), stop);
      }
    }
  }

  method StopValidation(s: Store, site: Site, v: Id, was: RunState, stop: Id) returns (fault: Option<Fault>)
    requires s.Valid()
    modifies s
    ensures s.Valid()
    ensures Answers(StopRun(old(s.View()), site, v, was, stop), old(s.View()), fault, s.View())
  {
    StopRunKeeps(s.View(), site, v, was, stop);
    hide Inv, QueueStop, HasStop, Moved;
    fault := None;
    if !RunRooted(s.View(), v) {
      fault := Some(NotFound);
    } else {
      var run := s.runs[v];
      var al := s.allocations[run.alloc];
      if run.state != was || run.state.VPassed? || run.state.VFailed? || s.jobs[al.create].instance == "" || Terminal(al.state)
         || HasStop(s.jobs, run.alloc) {
        fault := Some(Conflict);
      } else {
        fault := StopRunRows(s, site, v, run.(state := VStopPending), stop);
      }
    }
  }

  method FinalizeValidationRun(s: Store, site: Site, v: Id) returns (fault: Option<Fault>)
    requires s.Valid()
    modifies s
    ensures s.Valid()
    ensures Answers(FinalizeRun(old(s.View()), site, v), old(s.View()), fault, s.View())
  {
    FinalizeKeeps(s.View(), site, v);
    hide Inv, Conclusive;
    fault := None;
    if !RunRooted(s.View(), v) {
      fault := Some(NotFound);
    } else if s.runs[v].state.VPassed? {
    } else if !Conclusive(s.View(), site, v) {
      fault := Some(Conflict);
    } else {
      s.runs := s.runs[v := s.runs[v].(state := VPassed)];
    }
  }

  method FinalizeValidationFailure(s: Store, site: Site, v: Id) returns (fault: Option<Fault>)
    requires s.Valid()
    modifies s
    ensures s.Valid()
    ensures Answers(FinalizeFailure(old(s.View()), v), old(s.View()), fault, s.View())
  {
    FinalizeKeeps(s.View(), site, v);
    hide Inv, FinalizeRun;
    fault := CloseFailed(s, v);
  }

  method CloseFailed(s: Store, v: Id) returns (fault: Option<Fault>)
    modifies s
    ensures Answers(FinalizeFailure(old(s.View()), v), old(s.View()), fault, s.View())
  {
    fault := None;
    if !RunRooted(s.View(), v) {
      fault := Some(NotFound);
    } else {
      var run := s.runs[v];
      if run.state.VPassed? {
        fault := Some(Conflict);
      } else if run.state.VFailed? {
      } else if !Terminal(s.allocations[run.alloc].state)
                || (exists j :: j in s.jobs && s.jobs[j].alloc == run.alloc && OpenJob(s.jobs[j].state)) {
        fault := Some(Conflict);
      } else {
        s.runs := s.runs[v := run.(state := VFailed)];
      }
    }
  }
}
