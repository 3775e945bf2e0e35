/** What a v1.0.2 player create job carries: the identity of a run that passed and was still an
    effective proof when the job was reserved. */
module ValidatedIdentity {
  import opened Facts
  import opened Ledger
  import opened Calls
  import opened Coupling
  import opened CouplingRuns
  import opened Evolution
  import opened EvolutionSteps
  import opened Lifecycle

  // The job is what run v of db proved for the request that site placed.
  ghost predicate Carries(db: Db, site: Site, call: Call, j: Id, job: Job, v: Id) {
    && call.CPlace? && call.j == j && Placeable(db, site, call.r, call.n)
    && v in db.runs
    && var q := db.requests[call.r];
       var content := site.games[q.game].content;
       var revision := site.presets[q.preset].revision;
       var c := db.runs[v].candidate;
       && Effective(db, site, v, call.n, q.game, q.preset, content, revision)
       && job.node == c.node && job.bindingKey == c.key
       && job.expected == Some(Expected(c.fingerprint, c.generation, site.games[q.game].workshop, c.content, c.sha))
  }

  ghost predicate ProvedIn(h: History, j: Id, job: Job) {
    exists i, v :: 0 <= i < |h| && Carries(Exec(h[..i]), h[i].0, h[i].1, j, job, v)
  }

  lemma PlacedCarries(db: Db, site: Site, call: Call, d: Db, a: Id)
    requires a in d.allocations && a !in db.allocations && call.CPlace? && NewAllocation(db, site, call, d, a)
    requires call.j in d.jobs && d.jobs[call.j].expected.Some?
    ensures exists v :: Carries(db, site, call, call.j, d.jobs[call.j], v)
  {
    var q := db.requests[call.r];
    var content := site.games[q.game].content;
    var revision := site.presets[q.preset].revision;
    PlacedProof(db, site, call.r, call.n);
    var v :| v in db.runs && Effective(db, site, v, call.n, q.game, q.preset, content, revision);
    hide Placeable, SoundScan;
    assert Carries(db, site, call, call.j, d.jobs[call.j], v);
  }

  lemma PlacedProof(db: Db, site: Site, r: Id, n: Id)
    requires Placeable(db, site, r, n) && ExpectedOf(site, db.requests[r], n).Some?
    ensures var q := db.requests[r];
            exists v :: v in db.runs && Effective(db, site, v, n, q.game, q.preset, site.games[q.game].content, site.presets[q.preset].revision)
  {
    hide Effective, NodeReason, Offered;
  }

  lemma SameCarries(db: Db, site: Site, call: Call, j: Id, x: Job, y: Job, v: Id)
    requires Carries(db, site, call, j, x, v) && SameJob(y, x)
    ensures Carries(db, site, call, j, y, v)
  {
    hide Placeable, Effective;
  }

  lemma ProvedExtends(h: History, s: (Site, Call), j: Id, x: Job, y: Job)
    requires ProvedIn(h, j, x) && SameJob(y, x)
    ensures ProvedIn(h + [s], j, y)
  {
    hide Carries, Exec;
    var i, v :| 0 <= i < |h| && Carries(Exec(h[..i]), h[i].0, h[i].1, j, x, v);
    SameCarries(Exec(h[..i]), h[i].0, h[i].1, j, x, y, v);
    assert (h + [s])[..i] == h[..i];
    assert (h + [s])[i] == h[i];
    ProvedHere(h + [s], i, j, y, v);
  }

  // Over any run: every upgraded create job of a player's allocation carries the content hash, template
  // fingerprint and binding generation of a run that had passed and was effective when it was placed.
  lemma {:induction false} PlayerJobsAreProved(h: History, j: Id)
    requires var db := Exec(h);
             j in db.jobs && db.jobs[j].kind.Create? && db.jobs[j].expected.Some?
             && db.jobs[j].alloc in db.allocations && db.allocations[db.jobs[j].alloc].purpose.ForRequest?
    ensures ProvedIn(h, j, Exec(h).jobs[j])
    decreases |h|
  {
    hide Exec, Inv, Apply, Evolves, Carries, ProvedIn, SameJob;
    ExecFrom(h);
    var m, s := h[..|h|-1], h[|h|-1];
    var db, d := Exec(m), Exec(h);
    assert h == m + [s] && h[..|m|] == m;
    ExecStep(m, s.0, s.1);
    RunKeepsInv(m);
    RunKeepsInv(h);
    CallEvolves(db, s.0, s.1);
    PlayerStep(db, s.0, s.1, d, j);
    if j in db.jobs {
      PlayerJobsAreProved(m, j);
      ProvedExtends(m, s, j, db.jobs[j], d.jobs[j]);
    } else {
      var v :| Carries(db, s.0, s.1, j, d.jobs[j], v);
      ProvedHere(h, |m|, j, d.jobs[j], v);
    }
  }

  lemma ExecFrom(h: History)
    ensures h == [] ==> Exec(h) == EMPTY
  {
  }

  // In one step, a player's upgraded create job was one before, or is placed now on a proof.
  lemma PlayerStep(db: Db, site: Site, call: Call, d: Db, j: Id)
    requires Inv(db) && Inv(d) && Evolves(db, site, call, d)
    requires j in d.jobs && d.jobs[j].kind.Create? && d.jobs[j].expected.Some?
    requires d.jobs[j].alloc in d.allocations && d.allocations[d.jobs[j].alloc].purpose.ForRequest?
    ensures j in db.jobs ==>
      && SameJob(d.jobs[j], db.jobs[j]) && db.jobs[j].kind.Create? && db.jobs[j].expected.Some?
      && db.jobs[j].alloc in db.allocations && db.allocations[db.jobs[j].alloc].purpose.ForRequest?
    ensures j !in db.jobs ==> exists v :: Carries(db, site, call, j, d.jobs[j], v)
  {
    hide Inv, JobMoves, AllocationsEvolve, RequestsEvolve, Carries, FrozenEvolve;
    if j in db.jobs {
      MovedJobKept(db, site, call, d, j);
      OldJob(db, site, call, d, j);
    } else {
      assert NewJob(db, d, j);
      NewPlayerJob(db, site, call, d, j);
    }
  }

  lemma ProvedHere(h: History, i: nat, j: Id, job: Job, v: Id)
    requires i < |h| && Carries(Exec(h[..i]), h[i].0, h[i].1, j, job, v)
    ensures ProvedIn(h, j, job)
  {
    hide Exec, Carries;
  }

  lemma OldJob(db: Db, site: Site, call: Call, d: Db, j: Id)
    requires Inv(db) && AllocationsEvolve(db, site, call, d) && j in db.jobs && j in d.jobs && SameJob(d.jobs[j], db.jobs[j])
    requires d.jobs[j].alloc in d.allocations && d.allocations[d.jobs[j].alloc].purpose.ForRequest?
    ensures db.jobs[j].alloc in db.allocations && db.allocations[db.jobs[j].alloc].purpose.ForRequest?
  {
    hide Coupled, NewAllocation, Reclaims;
    JobRooted(db, j);
    assert AllocationStep(db, call, d, db.jobs[j].alloc);
  }

  lemma NewPlayerJob(db: Db, site: Site, call: Call, d: Db, j: Id)
    requires Inv(d) && AllocationsEvolve(db, site, call, d) && j in d.jobs && j !in db.jobs && NewJob(db, d, j)
    requires d.jobs[j].kind.Create? && d.jobs[j].expected.Some?
    requires d.allocations[d.jobs[j].alloc].purpose.ForRequest?
    ensures exists v :: Carries(db, site, call, j, d.jobs[j], v)
  {
    hide Coupled, Placeable, Reservable;
    var a := d.jobs[j].alloc;
    assert NewAllocation(db, site, call, d, a);
    JobRooted(d, j);
    PlacedCarries(db, site, call, d, a);
  }
}
