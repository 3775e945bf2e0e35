/** What stands between a loaded create job and core, and what the Platform then knows, said in the rows. */
module CreateRules {
  import opened Facts
  import opened Ledger
  import opened Calls
  import opened CreateParts
  import opened JobRules
  import opened ReportRules
  import opened OperatorRules
  import opened Runner
  import R = Retention

  // A job is loaded as its row is, and as frozen exactly if its request is.
  lemma LoadedIs(db: Db, j: Id)
    requires j in db.jobs
    ensures var job := LoadedFrom(db, j);
            && job.id == j && job.state == db.jobs[j].state && job.operation == db.jobs[j].operation
            && job.capability == db.jobs[j].capability && job.bindingKey == db.jobs[j].bindingKey && job.expected == db.jobs[j].expected
            && (job.frozen.Some? <==> j in db.frozen) && (j in db.frozen ==> job.frozen.value == db.frozen[j])
  {
  }

  // ---- The machine ----

  // The machine measures the template and the content the job expects, to the digest, and the content is confirmed.
  predicate MachineHolds(job: Loaded, m: Machine) {
    && job.expected.Some? && job.bindingKey in m.templates
    && var e := job.expected.value;
       && e.fingerprint != "" && e.generation > 0 && e.workshop != "" && e.content != "" && e.sha != ""
       && m.templates[job.bindingKey].1 == e.fingerprint
       && e.workshop in m.items
       && var i := m.items[e.workshop];
          i.workshop == e.workshop && i.confirmed && i.content == e.content && i.sha == e.sha
  }

  lemma ProofIs(job: Loaded, m: Machine)
    ensures MachineProof(job, m).Some? <==> MachineHolds(job, m)
    ensures MachineHolds(job, m) ==> MachineProof(job, m) == Some(m.templates[job.bindingKey])
  {
  }

  // What create asks to freeze: a legacy job the configured path, an upgraded one the measured path and digest; in both cases
  // only a path core can take.
  lemma AsksFor(job: Loaded, m: Machine)
    ensures Requested(job, m) ==
      if job.capability.ContentValidationV102? then
        if MachineHolds(job, m) && m.templates[job.bindingKey].0 in m.usable
        then Some((m.templates[job.bindingKey].0, "template-manifest-sha256-v1", m.templates[job.bindingKey].1)) else None
      else
        var path := if job.bindingKey in m.paths then m.paths[job.bindingKey] else "";
        if path in m.usable then Some((path, "", "")) else None
  {
    ProofIs(job, m);
    hide MachineProof;
  }

  // A frozen request may go to core as long as core can take its path and port; an upgraded job's also must be of its own kind and
  // name the digest the job expects.
  lemma FrozenIsValid(job: Loaded, f: Frozen, m: Machine)
    ensures ValidFrozen(job, f, m) <==>
      && f.template in m.usable && 0 <= f.port && f.port < 65536
      && (job.capability.LegacyV1?
          || (f.capability.ContentValidationV102? && f.algorithm == "template-manifest-sha256-v1"
              && job.expected.Some? && job.expected.value.fingerprint == f.fingerprint))
  {
  }

  // An old key is trusted only while the preparation time is known, not more than a minute ahead, and younger than the days core
  // keeps, less an hour.
  lemma WindowIs(preparedAt: int, days: int, now: int)
    ensures R.WithinHistory(preparedAt, days, now) <==>
      preparedAt > 0 && days > 0 && preparedAt - now <= 60 && now - preparedAt < (24 * days - 1) * 3600
  {
  }

  // A cycle starts from the node's unresolved jobs that its Controller can work on.
  lemma OpenIs(jobs: map<Id, Job>, node: Id, cap: Capability, j: Id)
    ensures OpenFor(jobs, node, cap, j) <==>
      && j in jobs && jobs[j].node == node && (jobs[j].state.JClaimed? || jobs[j].state.JAccepted? || jobs[j].state.JUnknown?)
      && (jobs[j].capability.ContentValidationV102? ==> cap.ContentValidationV102?)
  {
  }

  // ---- What the Platform knows afterwards ----

  // With nothing lost, a report of core's answer that is to be taken leaves the answer in the job's row: accepted with both
  // IDs, or unknown or rejected with what core said.
  lemma AnswerIsKnown(h: History, d: Db, site: Site, node: Id, job: Loaded, retrying: bool, answer: CoreAnswer, rep: Report, stop: Id, next: Id)
    requires Recorded(Exec(h), d, site, node, job.id, rep, stop, next) && Told(rep, job, retrying, answer)
    requires Takes(Exec(h), site, node, job.id, rep) && next !in Exec(h).requests
    ensures job.id in d.jobs && d.jobs[job.id].state == rep.state
    ensures match answer
            case CreateAccepted(instance, operation) =>
              && d.jobs[job.id].state.JAccepted?
              && (instance != "" ==> d.jobs[job.id].instance == instance) && (operation != "" ==> d.jobs[job.id].operation == operation)
              && d.jobs[job.id].instance != "" && d.jobs[job.id].operation != ""
            case CreateError(instance, operation, code, stage) =>
              && (instance != "" ==> d.jobs[job.id].instance == instance) && (operation != "" ==> d.jobs[job.id].operation == operation)
              && d.jobs[job.id].errorCode == code && d.jobs[job.id].errorStage == stage
            case NoAnswer => d.jobs[job.id].state.JUnknown?
  {
    ReportTakes(h, site, node, job.id, rep, stop, next);
    hide Exec, Perform, Takes, Leaves;
    TakenRow(Exec(h), site, node, job.id, rep);
    LeavesRow(Exec(h), d, site, job.id, rep, stop, next);
  }

  lemma TakenRow(db: Db, site: Site, node: Id, j: Id, rep: Report)
    requires Takes(db, site, node, j, rep)
    ensures j in db.jobs
    ensures rep.state.JAccepted? ==> (rep.instance != "" || db.jobs[j].instance != "") && (rep.operation != "" || db.jobs[j].operation != "")
  {
    hide WellFormed, MayBecome, NoEntry, Decided;
  }

  lemma LeavesRow(db: Db, d: Db, site: Site, j: Id, rep: Report, stop: Id, next: Id)
    requires j in db.jobs && Leaves(db, d, site, j, rep, stop, next) && (rep.state.JAccepted? || rep.state.JUnknown? || rep.state.JRejectedNoEffect?)
    ensures j in d.jobs && d.jobs[j].state == rep.state && d.jobs[j].errorCode == rep.errorCode && d.jobs[j].errorStage == rep.errorStage
    ensures rep.instance != "" ==> d.jobs[j].instance == rep.instance
    ensures rep.operation != "" ==> d.jobs[j].operation == rep.operation
    ensures rep.instance == "" ==> d.jobs[j].instance == db.jobs[j].instance
    ensures rep.operation == "" ==> d.jobs[j].operation == db.jobs[j].operation
  {
    hide AllocationMoves, OwnerMoves, RunMoves, Decided, StopOpen;
  }
}
