/** When a node job is claimed, its request frozen, its operation started and a report on it taken, said in the rows. */
module JobRules {
  import opened Facts
  import opened Ledger
  import opened Calls
  import opened Coupling
  import opened CouplingRuns
  import opened Evolution
  import opened EvolutionSteps
  import opened NodeRules

  // ---- Claims ----

  // Claimed, accepted or unknown on the same node, and on the same allocation or the same known instance.
  predicate InTheWay(db: Db, j: Id, k: Id)
    requires j in db.jobs
  {
    && k in db.jobs && k != j && db.jobs[k].node == db.jobs[j].node
    && (db.jobs[k].state.JClaimed? || db.jobs[k].state.JAccepted? || db.jobs[k].state.JUnknown?)
    && (db.jobs[k].alloc == db.jobs[j].alloc || (db.jobs[k].instance != "" && db.jobs[k].instance == db.jobs[j].instance))
  }

  // A stop that needs nothing else on the node: of a resource still held, for the very instance its create job ended with on
  // this node, whose identity is not in doubt.
  predicate StandsAlone(db: Db, j: Id)
    requires j in db.jobs
  {
    var job := db.jobs[j];
    && job.kind.Stop? && job.instance != "" && job.alloc in db.allocations
    && !db.allocations[job.alloc].state.AReclaimed? && !db.allocations[job.alloc].state.AReleasedNoEffect?
    && db.allocations[job.alloc].create in db.jobs
    && var c := db.jobs[db.allocations[job.alloc].create];
       && c.node == job.node && c.instance == job.instance && c.errorCode != "IDENTITY_UNVERIFIED"
       && (c.state.JSucceeded? || c.state.JFailedWithEffect?)
  }

  predicate MayClaim(db: Db, site: Site, node: Id, j: Id, independent: bool, cap: Capability) {
    && j in db.jobs && db.jobs[j].node == node && db.jobs[j].state.JPending?
    && NodeHeard(site, node)
    && (db.jobs[j].capability == cap || db.jobs[j].capability.LegacyV1?)
    && (forall k :: k in db.jobs ==> !InTheWay(db, j, k))
    && (independent ==> StandsAlone(db, j))
  }

  lemma RivalIs(db: Db, j: Id, k: Id)
    requires j in db.jobs
    ensures Rival(db, j, k) <==> InTheWay(db, j, k)
    ensures TrustedStop(db, j) <==> StandsAlone(db, j)
  {
  }

  lemma ClaimableIs(db: Db, site: Site, node: Id, j: Id, independent: bool, cap: Capability)
    ensures Claimable(db, site, node, j, independent, cap) <==> MayClaim(db, site, node, j, independent, cap)
  {
    if j in db.jobs {
      forall k ensures Rival(db, j, k) <==> InTheWay(db, j, k) { RivalIs(db, j, k); }
      RivalIs(db, j, j);
    }
    hide Rival, InTheWay, TrustedStop, StandsAlone;
  }

  lemma ClaimClaims(db: Db, site: Site, node: Id, j: Id, independent: bool, cap: Capability)
    ensures var res := Perform(db, site, CClaim(node, j, independent, cap));
            && (res.Committed? <==> MayClaim(db, site, node, j, independent, cap))
            && (res.Committed? ==> res.db == db.(jobs := db.jobs[j := db.jobs[j].(state := JClaimed, everClaimed := true)]))
  {
    ClaimableIs(db, site, node, j, independent, cap);
    if MayClaim(db, site, node, j, independent, cap) { assert j in db.jobs; }
    hide Claimable, MayClaim;
  }

  // The job claimed first was created first.
  lemma OldestFirst(db: Db, j: Id, k: Id)
    requires j in db.jobs && k in db.jobs && Before(db.jobs[j], j, db.jobs[k], k)
    ensures db.jobs[j].createdAt <= db.jobs[k].createdAt && (db.jobs[j].createdAt == db.jobs[k].createdAt ==> j < k)
  {
  }

  // ---- Freezing the request ----

  // The node's own create job, claimed and unresolved, with a template and a port; an upgraded job only with the manifest digest
  // it expects, any other with none; and what is frozen already is asked for again exactly.
  predicate MayFreeze(db: Db, node: Id, j: Id, template: string, port: int, algorithm: string, sha: string) {
    && template != "" && 0 <= port <= 65535
    && j in db.jobs && db.jobs[j].node == node && db.jobs[j].kind.Create?
    && (db.jobs[j].state.JClaimed? || db.jobs[j].state.JAccepted? || db.jobs[j].state.JUnknown?)
    && (if db.jobs[j].capability.ContentValidationV102?
        then db.jobs[j].expected.Some? && algorithm == "template-manifest-sha256-v1" && sha == db.jobs[j].expected.value.fingerprint
        else algorithm == "" && sha == "")
    && (j in db.frozen ==> db.frozen[j].request == Frozen(template, port, db.jobs[j].capability, algorithm, sha))
  }

  // The request is kept with the time of the first call, and what was only reserved or in doubt is being created.
  ghost predicate FrozenAs(db: Db, d: Db, site: Site, j: Id, template: string, port: int, algorithm: string, sha: string)
    requires j in db.jobs
  {
    var a := db.jobs[j].alloc;
    && d.jobs == db.jobs && d.intents == db.intents && d.members == db.members && d.parties == db.parties && d.invites == db.invites
    && d.frozen == (if j in db.frozen then db.frozen
                    else db.frozen[j := Execution(Frozen(template, port, db.jobs[j].capability, algorithm, sha), site.now)])
    && (a in db.allocations ==> Creating(db, d, a))
  }

  ghost predicate Creating(db: Db, d: Db, a: Id)
    requires a in db.allocations
  {
    && d.allocations == (if db.allocations[a].state.AReserved? || db.allocations[a].state.ACreateUnknown?
                         then db.allocations[a := db.allocations[a].(state := ACreating)] else db.allocations)
    && match db.allocations[a].purpose
       case ForRequest(r) =>
         && d.runs == db.runs
         && d.requests == (if r in db.requests && db.requests[r].state.RAllocating?
                           then db.requests[r := db.requests[r].(state := RCreating)] else db.requests)
       case ForRun(v) =>
         && d.requests == db.requests
         && d.runs == (if v in db.runs && db.runs[v].state.VCreatePending?
                       then db.runs[v := db.runs[v].(state := VCreateObserving)] else db.runs)
  }

  lemma PrepareFreezes(db: Db, site: Site, node: Id, j: Id, template: string, port: int, algorithm: string, sha: string)
    ensures var res := Perform(db, site, CPrepare(node, j, template, port, algorithm, sha));
            && (res.Committed? <==> MayFreeze(db, node, j, template, port, algorithm, sha))
            && (res.Committed? ==> FrozenAs(db, res.db, site, j, template, port, algorithm, sha))
  {
    PrepareFrom(db, site, node, j, template, port, algorithm, sha);
    if MayFreeze(db, node, j, template, port, algorithm, sha) { assert j in db.jobs; }
    hide Prepare, MayFreeze, FrozenAs;
  }

  lemma PrepareFrom(db: Db, site: Site, node: Id, j: Id, template: string, port: int, algorithm: string, sha: string)
    ensures var res := Prepare(db, site, node, j, template, port, algorithm, sha);
            && (res.Committed? <==> MayFreeze(db, node, j, template, port, algorithm, sha))
            && (res.Committed? ==> j in db.jobs && FrozenAs(db, res.db, site, j, template, port, algorithm, sha))
  {
    var res := Prepare(db, site, node, j, template, port, algorithm, sha);
    hide StartCreating, Creating;
    if res.Committed? {
      var d := db.(frozen := FrozenOnce(db.frozen, j, Frozen(template, port, db.jobs[j].capability, algorithm, sha), site.now));
      if db.jobs[j].alloc in d.allocations { StartsCreating(d, db.jobs[j].alloc); } else { NothingStarts(d, db.jobs[j].alloc); }
      StartRows(d, db.jobs[j].alloc);
      if db.jobs[j].alloc in db.allocations { CreatingSame(db, d, res.db, db.jobs[j].alloc); }
    }
  }

  lemma StartsCreating(db: Db, a: Id)
    requires a in db.allocations
    ensures Creating(db, StartCreating(db, a), a)
  {
  }

  lemma NothingStarts(db: Db, a: Id)
    requires a !in db.allocations
    ensures StartCreating(db, a) == db
  {
  }

  lemma CreatingSame(db: Db, d: Db, e: Db, a: Id)
    requires a in db.allocations && a in d.allocations && d == db.(frozen := d.frozen) && Creating(d, e, a)
    ensures Creating(db, e, a)
  {
  }

  // ---- Starting the operation ----

  // Only upgraded jobs are started, claimed or already unknown, with no operation yet: a stop names the instance it takes down,
  // a create repeats the frozen request and knows no instance.
  predicate MayStart(db: Db, node: Id, j: Id, start: Start) {
    && j in db.jobs && db.jobs[j].node == node && db.jobs[j].capability.ContentValidationV102? && db.jobs[j].operation == ""
    && (db.jobs[j].state.JClaimed? || db.jobs[j].state.JUnknown?)
    && match start
       case StartStop(instance) => db.jobs[j].kind.Stop? && TokenOk(instance) && db.jobs[j].instance == instance
       case StartCreate(frozen) => db.jobs[j].kind.Create? && db.jobs[j].instance == "" && j in db.frozen && db.frozen[j].request == frozen
  }

  // A start is taken as the report that core may have been asked: nothing more is known of the job, and it is unknown.
  lemma BeginStarts(db: Db, site: Site, node: Id, j: Id, start: Start, stop: Id, next: Id)
    ensures var res := Perform(db, site, CBegin(node, j, start, stop, next));
            && (res.Committed? ==> MayStart(db, node, j, start))
            && (MayStart(db, node, j, start) && db.jobs[j].state.JUnknown? ==> res == Committed(db))
            && (MayStart(db, node, j, start) && db.jobs[j].state.JClaimed? ==>
                  res == Perform(db, site, CReport(node, j, Report(JUnknown, "", "", "", "", None, ""), stop, next)))
  {
    assert TokenOk("") == false;
    hide ReportJob, TokenOk;
  }

  // ---- Taking a report ----

  // The tokens of a report are well formed; an entry comes with a success and no error beside it.
  predicate WellFormed(rep: Report) {
    && rep.state in {JAccepted, JUnknown, JSucceeded, JRejectedNoEffect, JFailedWithEffect}
    && (rep.instance == "" || TokenOk(rep.instance)) && (rep.operation == "" || TokenOk(rep.operation))
    && (rep.errorCode == "" || TokenOk(rep.errorCode)) && (rep.errorStage == "" || TokenOk(rep.errorStage))
    && (rep.joinError == "" || (TokenOk(rep.joinError) && rep.state.JSucceeded?))
    && match rep.join
       case None => true
       case Some(join) =>
         && rep.state.JSucceeded? && rep.joinError == "" && join.wellFormed
         && 1 <= join.localPort <= 65535 && 1 <= join.publicPort <= 65535
  }

  lemma ValidIs(rep: Report)
    ensures ValidReport(rep) <==> WellFormed(rep)
  {
    var all := [rep.instance, rep.operation, rep.errorCode, rep.errorStage, rep.joinError];
    assert all[0] == rep.instance && all[1] == rep.operation && all[2] == rep.errorCode && all[3] == rep.errorStage && all[4] == rep.joinError;
    hide TokenOk;
  }

  // What a job in this state may be reported to be: nothing is taken back once core may have been asked, and only an unresolved
  // job moves.
  predicate MayBecome(was: JobState, next: JobState) {
    match was
    case JPending => next.JPending?
    case JClaimed => !next.JPending? && !next.JSucceeded?
    case JAccepted => next.JAccepted? || next.JUnknown? || next.JSucceeded? || next.JFailedWithEffect?
    case JUnknown => !next.JPending? && !next.JClaimed?
    case JSucceeded => next.JSucceeded?
    case JRejectedNoEffect => next.JRejectedNoEffect?
    case JFailedWithEffect => next.JFailedWithEffect?
  }

  // IDs once known are repeated; acceptance and success name both; nothing but a rejection is reported of a create that was never
  // frozen; and a create is rejected only while nothing of it is known and it is not in doubt.
  predicate MayReport(job: Job, frozen: bool, rep: Report) {
    && WellFormed(rep) && MayBecome(job.state, rep.state)
    && (job.state.JClaimed? && job.capability.ContentValidationV102? ==> !rep.state.JAccepted?)
    && (job.instance != "" && rep.instance != "" ==> rep.instance == job.instance)
    && (job.operation != "" && rep.operation != "" ==> rep.operation == job.operation)
    && (rep.state.JAccepted? || rep.state.JSucceeded? ==> (job.instance != "" || rep.instance != "") && (job.operation != "" || rep.operation != ""))
    && (rep.state.JFailedWithEffect? ==> job.instance != "" || rep.instance != "" || job.operation != "" || rep.operation != "")
    && (job.kind.Create? && !frozen ==> rep.state.JRejectedNoEffect?)
    && (rep.state.JRejectedNoEffect? ==>
          && job.kind.Create? && !job.state.JUnknown? && rep.errorCode !in {"", "RECONCILED_NO_EFFECT"}
          && job.instance == "" && rep.instance == "" && job.operation == "" && rep.operation == "")
    && (job.kind.Create? && rep.state.JSucceeded? ==> (rep.join.Some? && rep.joinError == "") || (rep.join.None? && rep.joinError != ""))
  }

  lemma AllowedIs(job: Job, frozen: bool, rep: Report)
    ensures ValidReport(rep) && ReportAllowed(job, frozen, rep) <==> MayReport(job, frozen, rep)
  {
    ValidIs(rep);
    assert WellFormed(rep) ==> rep.state in {JAccepted, JUnknown, JSucceeded, JRejectedNoEffect, JFailedWithEffect}
                               && (rep.join.Some? ==> rep.joinError == "");
    hide ValidReport, WellFormed;
  }
}
