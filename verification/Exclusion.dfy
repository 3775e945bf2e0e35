/** No two unresolved jobs ever work on one allocation, and stops repeat their create's instance. */
module Exclusion {
  import opened Facts
  import opened Ledger
  import opened Calls
  import opened Coupling
  import opened CouplingSteps
  import opened CouplingRuns
  import opened Evolution
  import opened EvolutionSteps
  import opened Lifecycle

  ghost predicate Exclusive(db: Db) {
    forall j, k :: j in db.jobs && k in db.jobs && j != k && InFlight(db.jobs[j].state) && InFlight(db.jobs[k].state) ==>
      db.jobs[j].alloc != db.jobs[k].alloc
  }

  // At most one stop of an allocation is open, and a stop aims at the instance its create job found.
  ghost predicate StopsAim(db: Db) {
    && (forall j, k :: j in db.jobs && k in db.jobs && j != k && db.jobs[j].kind.Stop? && db.jobs[k].kind.Stop?
                       && OpenJob(db.jobs[j].state) && OpenJob(db.jobs[k].state) ==>
          db.jobs[j].alloc != db.jobs[k].alloc)
    && (forall j :: j in db.jobs && db.jobs[j].kind.Stop? ==> Aims(db, j))
  }

  ghost predicate Aims(db: Db, j: Id)
    requires j in db.jobs
  {
    var job := db.jobs[j];
    && job.alloc in db.allocations && db.allocations[job.alloc].create in db.jobs
    && job.instance != "" && job.instance == db.jobs[db.allocations[job.alloc].create].instance
    && job.capability == db.jobs[db.allocations[job.alloc].create].capability
  }

  lemma MovesFlight(db: Db, site: Site, call: Call, j: Id, next: Job)
    requires j in db.jobs && JobMoves(db, site, call, j, next) && InFlight(next.state) && !InFlight(db.jobs[j].state)
    ensures call.CClaim? && call.j == j && Claimable(db, site, call.node, j, call.independent, call.cap)
  {
    hide StartAllowed, Claimable, Untouched;
  }

  lemma ClaimableAlone(db: Db, site: Site, node: Id, j: Id, independent: bool, cap: Capability)
    requires Rooted(db) && Claimable(db, site, node, j, independent, cap)
    ensures db.jobs[j].state.JPending?
    ensures forall k :: k in db.jobs && k != j && db.jobs[k].alloc == db.jobs[j].alloc ==> !InFlight(db.jobs[k].state)
  {
    hide TrustedStop;
    forall k | k in db.jobs && k != j && db.jobs[k].alloc == db.jobs[j].alloc
      ensures !InFlight(db.jobs[k].state)
    {
      assert !Rival(db, j, k);
    }
  }

  // A job in flight after a step was in flight before, or is the one just claimed.
  lemma FlightStarts(db: Db, site: Site, call: Call, d: Db, j: Id)
    requires Rooted(db) && JobsEvolve(db, site, call, d) && j in d.jobs && InFlight(d.jobs[j].state)
    ensures j in db.jobs && d.jobs[j].alloc == db.jobs[j].alloc
    ensures InFlight(db.jobs[j].state)
            || (call.CClaim? && call.j == j && db.jobs[j].state.JPending?
                && forall k :: k in db.jobs && k != j && db.jobs[k].alloc == db.jobs[j].alloc ==> !InFlight(db.jobs[k].state))
  {
    assert j !in db.jobs ==> NewJob(db, d, j);
    assert JobStep(db, site, call, d, j);
    JobStays(db, site, call, d, j);
    hide JobsEvolve, JobMoves, Claimable, Rooted, NewJob;
    if !InFlight(db.jobs[j].state) {
      MovesFlight(db, site, call, j, d.jobs[j]);
      ClaimableAlone(db, site, call.node, j, call.independent, call.cap);
    }
  }

  lemma JobStays(db: Db, site: Site, call: Call, d: Db, j: Id)
    requires j in db.jobs && JobStep(db, site, call, d, j)
    ensures j in d.jobs && KeptJob(db.jobs[j], d.jobs[j])
  {
    MovedJobKept(db, site, call, d, j);
  }

  lemma StepExclusive(db: Db, site: Site, call: Call, d: Db)
    requires Rooted(db) && JobsEvolve(db, site, call, d) && Exclusive(db)
    ensures Exclusive(d)
  {
    hide JobsEvolve, Rooted;
    forall j, k | j in d.jobs && k in d.jobs && j != k && InFlight(d.jobs[j].state) && InFlight(d.jobs[k].state)
      ensures d.jobs[j].alloc != d.jobs[k].alloc
    {
      FlightStarts(db, site, call, d, j);
      FlightStarts(db, site, call, d, k);
    }
  }

  // Over any run, at most one claimed, accepted or unknown job per allocation.
  lemma {:induction false} InFlightExclusive(h: History)
    ensures Exclusive(Exec(h))
    decreases |h|
  {
    if h != [] {
      var m := h[..|h|-1];
      InFlightExclusive(m);
      RunKeepsInv(m);
      CallEvolves(Exec(m), h[|h|-1].0, h[|h|-1].1);
      StepExclusive(Exec(m), h[|h|-1].0, h[|h|-1].1, Exec(h));
    }
  }

  lemma StepAims(db: Db, site: Site, call: Call, d: Db, j: Id)
    requires Rooted(db) && JobsEvolve(db, site, call, d) && AllocationsEvolve(db, site, call, d) && StopsAim(db)
    requires j in d.jobs && d.jobs[j].kind.Stop?
    ensures Aims(d, j)
  {
    hide JobMoves, Rooted, JobStep;
    if j in db.jobs {
      JobStays(db, site, call, d, j);
      var a := db.jobs[j].alloc;
      assert Aims(db, j);
      assert AllocationStep(db, call, d, a);
      JobStays(db, site, call, d, db.allocations[a].create);
    } else {
      assert NewJob(db, d, j);
    }
  }

  lemma OpenStopStarts(db: Db, site: Site, call: Call, d: Db, j: Id)
    requires JobsEvolve(db, site, call, d) && j in d.jobs && d.jobs[j].kind.Stop? && OpenJob(d.jobs[j].state)
    ensures if j in db.jobs then db.jobs[j].kind.Stop? && OpenJob(db.jobs[j].state) && db.jobs[j].alloc == d.jobs[j].alloc
            else !OpenStop(db.jobs, d.jobs[j].alloc)
  {
    hide StartAllowed, Untouched, Rival, TrustedStop;
    if j in db.jobs {
      assert JobStep(db, site, call, d, j);
    } else {
      assert NewJob(db, d, j);
    }
  }

  lemma OpenStopSeen(jobs: map<Id, Job>, j: Id)
    requires j in jobs && jobs[j].kind.Stop? && OpenJob(jobs[j].state)
    ensures OpenStop(jobs, jobs[j].alloc)
  {
  }

  lemma OneNewJob(db: Db, site: Site, call: Call, d: Db, j: Id, k: Id)
    requires JobsEvolve(db, site, call, d) && j in d.jobs && k in d.jobs && j !in db.jobs && k !in db.jobs
    ensures j == k
  {
  }

  lemma StepStopsAim(db: Db, site: Site, call: Call, d: Db)
    requires Rooted(db) && JobsEvolve(db, site, call, d) && AllocationsEvolve(db, site, call, d) && StopsAim(db)
    ensures StopsAim(d)
  {
    hide JobsEvolve, AllocationsEvolve, Rooted, Aims, OpenStop;
    forall j | j in d.jobs && d.jobs[j].kind.Stop?
      ensures Aims(d, j)
    {
      StepAims(db, site, call, d, j);
    }
    forall j, k | j in d.jobs && k in d.jobs && j != k && d.jobs[j].kind.Stop? && d.jobs[k].kind.Stop?
                  && OpenJob(d.jobs[j].state) && OpenJob(d.jobs[k].state)
      ensures d.jobs[j].alloc != d.jobs[k].alloc
    {
      OpenStopStarts(db, site, call, d, j);
      OpenStopStarts(db, site, call, d, k);
      if j in db.jobs {
        OpenStopSeen(db.jobs, j);
      }
      if k in db.jobs {
        OpenStopSeen(db.jobs, k);
      } else if j !in db.jobs {
        OneNewJob(db, site, call, d, j, k);
      }
    }
  }

  // Over any run, every stop aims at its create's instance and no allocation has two open stops.
  lemma {:induction false} EveryStopAims(h: History)
    ensures StopsAim(Exec(h))
    decreases |h|
  {
    if h != [] {
      var m := h[..|h|-1];
      EveryStopAims(m);
      RunKeepsInv(m);
      CallEvolves(Exec(m), h[|h|-1].0, h[|h|-1].1);
      StepStopsAim(Exec(m), h[|h|-1].0, h[|h|-1].1, Exec(h));
    }
  }
}
