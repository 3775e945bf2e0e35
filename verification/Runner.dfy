/** The Controller's runner: one cycle's work list, and what stands between a claimed create job and a
    call to core. Answers may be lost at every step. */
module Runner {
  import opened Facts
  import opened Ledger
  import opened Calls
  import opened Coupling
  import opened CouplingSteps
  import opened CouplingRuns
  import opened Evolution
  import opened EvolutionSteps
  import opened Lifecycle
  import opened Exclusion
  import opened Store
  import opened CreateParts
  import J = Joint
  import R = Retention

  // ---- Core ----

  // A create call as core receives it, with what the Platform held at that moment.
  datatype CoreCall = CoreCall(job: Id, request: Frozen, at: int, held: Db)

  class Core {
    var calls: seq<CoreCall>

    method Create(call: CoreCall)
      modifies this
      ensures calls == old(calls) + [call]
    {
      calls := calls + [call];
    }
  }

  // What must be true of a create call the runner makes.
  ghost predicate Proper(c: CoreCall, job: Loaded, m: Machine, historyDays: int, now: int, retrying: bool) {
    && c.job == job.id && c.at == now && job.id in c.held.frozen && c.request == c.held.frozen[job.id].request
    && (retrying ==> R.WithinHistory(c.held.frozen[job.id].preparedAt, historyDays, now))
    && (job.capability.ContentValidationV102? ==>
          && job.expected.Some? && job.id in c.held.jobs && c.held.jobs[job.id].state.JUnknown?
          && MachineProof(job, m) == Some((c.request.template, c.request.fingerprint))
          && c.request.fingerprint == job.expected.value.fingerprint)
  }

  // The call c was made after the first k of the events es that followed w, and at most its report came after it.
  ghost predicate CalledAt(c: CoreCall, w: J.World, es: seq<J.Event>, k: nat, job: Loaded, retrying: bool, d: Db,
                           site: Site, node: Id, rep: Report, stop: Id, next: Id) {
    && k <= |es| && c.held == J.From(w, es[..k]).db
    && (d == c.held || Calls.ReportJob(c.held, site, node, job.id, rep, stop, next) == Committed(d))
    && Called(job, retrying) <= es[k..]
    && (job.capability.ContentValidationV102? ==> job.id in J.From(w, es[..k]).begun)
  }

  // The Platform has answered the report: its rows are taken, or everything is as it was.
  ghost predicate Recorded(was: Db, now: Db, site: Site, node: Id, j: Id, rep: Report, stop: Id, next: Id) {
    match Perform(was, site, CReport(node, j, rep, stop, next))
    case Committed(d) => now == d
    case Failed(_) => now == was
  }

  lemma RecordedIs(was: Db, now: Db, site: Site, node: Id, j: Id, rep: Report, stop: Id, next: Id)
    requires match Calls.ReportJob(was, site, node, j, rep, stop, next) case Committed(d) => now == d case Failed(_) => now == was
    ensures Recorded(was, now, site, node, j, rep, stop, next)
  {
    hide Calls.ReportJob;
  }

  // A Platform call may not arrive, or its answer may be lost.
  datatype Wire = Works | AnswerLost | Down

  lemma ProperCall(c: CoreCall, job: Loaded, m: Machine, historyDays: int, now: int, retrying: bool)
    requires c.job == job.id && c.at == now && job.id in c.held.frozen && c.request == c.held.frozen[job.id].request
    requires retrying ==> R.WithinHistory(c.held.frozen[job.id].preparedAt, historyDays, now)
    requires ValidFrozen(job, c.request, m)
    requires job.capability.ContentValidationV102? ==>
      Started(c.held, job.id, c.request) && MachineProof(job, m) == Some((c.request.template, c.request.fingerprint))
    ensures Proper(c, job, m, historyDays, now, retrying)
  {
    hide MachineProof, R.WithinHistory;
  }

  lemma CalledHere(c: CoreCall, w: J.World, a: seq<J.Event>, b: seq<J.Event>, job: Loaded, retrying: bool, d: Db,
                   site: Site, node: Id, rep: Report, stop: Id, next: Id)
    requires c.held == J.From(w, a).db && Called(job, retrying) <= b
    requires d == c.held || Calls.ReportJob(c.held, site, node, job.id, rep, stop, next) == Committed(d)
    requires job.capability.ContentValidationV102? ==> job.id in J.From(w, a).begun
    ensures CalledAt(c, w, a + b, |a|, job, retrying, d, site, node, rep, stop, next)
  {
    hide J.From, Calls.ReportJob, Called;
    assert (a + b)[..|a|] == a && (a + b)[|a|..] == b;
  }

  lemma CalledLater(c: CoreCall, w: J.World, a: seq<J.Event>, b: seq<J.Event>, k: nat, job: Loaded, retrying: bool, d: Db,
                    site: Site, node: Id, rep: Report, stop: Id, next: Id)
    requires CalledAt(c, J.From(w, a), b, k, job, retrying, d, site, node, rep, stop, next)
    ensures CalledAt(c, w, a + b, |a| + k, job, retrying, d, site, node, rep, stop, next)
  {
    hide J.From, Calls.ReportJob;
    FromAppend(w, a, b[..k]);
    assert (a + b)[..|a| + k] == a + b[..k] && (a + b)[|a| + k..] == b[k..];
  }

  // A committed prepare leaves the request it was asked for, on a job still in flight.
  lemma PreparedRow(db: Db, site: Site, node: Id, j: Id, template: string, port: int, algorithm: string, sha: string)
    ensures var res := Calls.Prepare(db, site, node, j, template, port, algorithm, sha);
            res.Committed? ==>
              && j in res.db.frozen && res.db.frozen[j].request.template == template && res.db.frozen[j].request.algorithm == algorithm
              && res.db.frozen[j].request.fingerprint == sha
              && j in res.db.jobs && InFlight(res.db.jobs[j].state) && res.db.jobs == db.jobs
  {
  }

  lemma CommitsOrNot(res: Calls.Result, was: Db, fault: Option<Fault>, now: Db)
    requires Answers(res, was, fault, now)
    ensures res.Committed? <==> fault.None?
    ensures res.Committed? ==> res == Committed(now)
    ensures res.Failed? ==> fault.Some? && now == was
  {
  }

  // A transaction that answered has taken the step of its event.
  lemma AnswerSteps(w: J.World, site: Site, call: Call, fault: Option<Fault>, d: Db)
    requires Answers(Perform(w.db, site, call), w.db, fault, d)
    ensures OnlyDb(w, J.From(w, [J.Store(site, call)]), d) && J.From(w, [J.Store(site, call)]).db == d
    ensures !call.CBegin? ==> J.From(w, [J.Store(site, call)]).begun == w.begun
    ensures fault.None? && call.CBegin? && call.start.StartCreate? ==> call.j in J.From(w, [J.Store(site, call)]).begun
    ensures call.CPrepare? || call.CBegin? || J.Truthful(w, call) ==> J.RunsFrom(w, [J.Store(site, call)])
  {
    hide Perform;
    One(w, J.Store(site, call));
  }

  lemma BeginStarts(db: Db, site: Site, node: Id, j: Id, frozen: Frozen, stop: Id, next: Id)
    ensures var res := Calls.Begin(db, site, node, j, StartCreate(frozen), stop, next);
            res.Committed? ==> Started(res.db, j, frozen) && res.db.frozen == db.frozen
  {
    BeginLeaves(db, site, node, j, StartCreate(frozen), stop, next);
    hide Calls.Begin;
  }

  class Controller {
    const s: Store
    const core: Core
    var wire: seq<Wire>

    constructor (s: Store, core: Core, wire: seq<Wire>)
      ensures this.s == s && this.core == core
    {
      this.s, this.core, this.wire := s, core, wire;
    }

    method Next() returns (w: Wire)
      modifies this
      ensures old(wire) == [] ==> w.Works? && wire == []
    {
      if wire == [] { return Works; }
      w, wire := wire[0], wire[1..];
    }

    // The rows the Platform answers with.
    method FrozenRow(j: Id) returns (row: Option<Frozen>)
      ensures row == if j in s.View().frozen then Some(s.View().frozen[j].request) else None
    {
      return if j in s.frozen then Some(s.frozen[j].request) else None;
    }

    method IsStarted(j: Id, frozen: Frozen) returns (ok: bool)
      ensures ok <==> Started(s.View(), j, frozen)
    {
      return Started(s.View(), j, frozen);
    }

    // report: the Platform records it, or not; the runner does not depend on the answer.
    method Send(site: Site, node: Id, j: Id, rep: Report, stop: Id, next: Id, ghost w: J.World) returns (ghost es: seq<J.Event>)
      requires s.Valid() && w.db == s.View()
      modifies this, s
      ensures s.Valid() && OnlyDb(w, J.From(w, es), s.View()) && J.From(w, es).db == s.View()
      ensures J.From(w, es).begun == w.begun
      ensures J.Truthful(w, CReport(node, j, rep, stop, next)) ==> J.RunsFrom(w, es)
      ensures forall job: Loaded :: job.id == j ==> Emits(job, es)
      ensures s.View() == old(s.View()) || Calls.ReportJob(old(s.View()), site, node, j, rep, stop, next) == Committed(s.View())
      ensures old(wire) == [] ==> Recorded(old(s.View()), s.View(), site, node, j, rep, stop, next)
    {
      hide *;
      NoEvents(w);
      ReportCall(w.db, site, node, j, rep, stop, next);
      forall job: Loaded | job.id == j
        ensures Emits(job, []) && Emits(job, [J.Store(site, CReport(node, j, rep, stop, next))])
      {
        EmitsCall(job, site, CReport(node, j, rep, stop, next));
      }
      es := [];
      var arrives := Next();
      if arrives.Down? { return; }
      var fault := s.ReportJob(site, node, j, rep, stop, next);
      AnswerSteps(w, site, CReport(node, j, rep, stop, next), fault, s.View());
      CommitsOrNot(Calls.ReportJob(w.db, site, node, j, rep, stop, next), w.db, fault, s.View());
      RecordedIs(w.db, s.View(), site, node, j, rep, stop, next);
      es := [J.Store(site, CReport(node, j, rep, stop, next))];
    }

    method Prepare(site: Site, node: Id, job: Loaded, template: string, algorithm: string, sha: string, ghost w: J.World)
      returns (frozen: Option<Frozen>, ghost es: seq<J.Event>)
      requires s.Valid() && w.db == s.View()
      modifies this, s
      ensures s.Valid() && J.RunsFrom(w, es) && OnlyDb(w, J.From(w, es), s.View()) && J.From(w, es).begun == w.begun && Emits(job, es)
      ensures frozen.Some? ==>
        && job.id in s.View().frozen && s.View().frozen[job.id].request == frozen.value
        && job.id in s.View().jobs && InFlight(s.View().jobs[job.id].state) && s.View().jobs == old(s.View()).jobs
      ensures old(wire) == [] ==> wire == []
      ensures frozen.Some? ==> frozen.value.template == template && frozen.value.algorithm == algorithm && frozen.value.fingerprint == sha
      ensures old(wire) == [] && Calls.Prepare(old(s.View()), site, node, job.id, template, 0, algorithm, sha).Committed? ==>
        frozen.Some? && wire == [] && Calls.Prepare(old(s.View()), site, node, job.id, template, 0, algorithm, sha) == Committed(s.View())
    {
      hide *;
      var call := CPrepare(node, job.id, template, 0, algorithm, sha);
      NoEvents(w);
      EmitsCall(job, site, call);
      PrepareCall(w.db, site, node, job.id, template, 0, algorithm, sha);
      PreparedRow(w.db, site, node, job.id, template, 0, algorithm, sha);
      frozen, es := None, [];
      var arrives := Next();
      if arrives.Down? { return; }
      var fault := s.PrepareCreate(site, node, job.id, template, 0, algorithm, sha);
      AnswerSteps(w, site, call, fault, s.View());
      CommitsOrNot(Calls.Prepare(w.db, site, node, job.id, template, 0, algorithm, sha), w.db, fault, s.View());
      es := [J.Store(site, call)];
      if arrives.AnswerLost? || fault.Some? { return; }
      frozen := FrozenRow(job.id);
    }

    // beginExecution: the durable mark, and the Platform's word that it is set.
    method Begin(site: Site, node: Id, job: Loaded, frozen: Frozen, stop: Id, next: Id, ghost w: J.World)
      returns (ok: bool, ghost es: seq<J.Event>)
      requires s.Valid() && w.db == s.View()
      modifies this, s
      ensures s.Valid() && J.RunsFrom(w, es) && OnlyDb(w, J.From(w, es), s.View()) && J.From(w, es).db == s.View() && Emits(job, es)
      ensures ok && job.capability.ContentValidationV102? ==>
        && Started(s.View(), job.id, frozen) && job.id in J.From(w, es).begun
      ensures ok ==> s.View().frozen == old(s.View()).frozen
      ensures old(wire) == [] ==> wire == []
      ensures job.capability.LegacyV1? ==> s.View() == old(s.View()) && J.From(w, es) == w
      ensures old(wire) == [] && MayBegin(old(s.View()), site, node, job, frozen, stop, next) ==> ok
    {
      MayBeginIs(w.db, site, node, job, frozen, stop, next);
      hide *;
      var call := CBegin(node, job.id, StartCreate(frozen), stop, next);
      NoEvents(w);
      EmitsCall(job, site, call);
      BeginCall(w.db, site, node, job.id, StartCreate(frozen), stop, next);
      ok, es := true, [];
      if job.capability.LegacyV1? { return; }
      BeginStarts(w.db, site, node, job.id, frozen, stop, next);
      ok := false;
      var arrives := Next();
      if arrives.Down? { return; }
      var fault := s.BeginOperation(site, node, job.id, StartCreate(frozen), stop, next);
      AnswerSteps(w, site, call, fault, s.View());
      CommitsOrNot(Calls.Begin(w.db, site, node, job.id, StartCreate(frozen), stop, next), w.db, fault, s.View());
      es := [J.Store(site, call)];
      if arrives.AnswerLost? || fault.Some? { return; }
      ok := IsStarted(job.id, frozen);
    }

    // The call itself, and the report of core's answer.
    method CallCore(site: Site, node: Id, job: Loaded, request: Frozen, now: int, retrying: bool, answer: CoreAnswer, stop: Id, next: Id,
                    ghost w: J.World) returns (sent: Report, ghost es: seq<J.Event>)
      requires s.Valid() && w.db == s.View()
      modifies this, s, core
      ensures s.Valid() && J.From(w, es).db == s.View() && sent == Answered(job, retrying, answer) && Emits(job, es)
      ensures core.calls == old(core.calls) + [CoreCall(job.id, request, now, old(s.View()))]
      ensures s.View() == w.db || Calls.ReportJob(w.db, site, node, job.id, sent, stop, next) == Committed(s.View())
      ensures Told(sent, job, retrying, answer) && (old(wire) == [] ==> Recorded(w.db, s.View(), site, node, job.id, sent, stop, next))
      ensures Called(job, retrying) <= es
      ensures Crossing(w, job, retrying, answer) && (job.capability.ContentValidationV102? ==> job.id in w.begun) ==> J.RunsFrom(w, es)
    {
      hide *;
      AnsweredTells(job, retrying, answer);
      core.Create(CoreCall(job.id, request, now, s.View()));
      sent := Answered(job, retrying, answer);
      ghost var a := Called(job, retrying) + Reaction(w, job, retrying, answer);
      CallKeepsDb(w, job, retrying, answer);
      if Crossing(w, job, retrying, answer) && (job.capability.ContentValidationV102? ==> job.id in w.begun) {
        CallRuns(w, job, retrying, answer, node, stop, next);
      }
      ghost var b := Send(site, node, job.id, sent, stop, next, J.From(w, a));
      Joined(w, a, b);
      EmitsWork(w, job, retrying, answer);
      EmitsBoth(job, Called(job, retrying), Reaction(w, job, retrying, answer));
      EmitsBoth(job, a, b);
      es := a + b;
    }

    // create: resolve and freeze the request unless it is frozen already, prove the machine again, mark the start,
    // and only then call core. `claimedNow` marks work claimed in this cycle. What create does to the Platform and
    // to core is returned as the events es of the joint system that follow w.
    method Create(site: Site, node: Id, job: Loaded, claimedNow: bool, historyDays: int, now: int, first: Machine, second: Machine,
                  answer: CoreAnswer, stop: Id, next: Id, ghost w: J.World) returns (sent: Option<Report>, ghost es: seq<J.Event>)
      requires s.Valid() && w.db == s.View()
      requires job.frozen.Some? ==> job.id in w.db.frozen && w.db.frozen[job.id] == job.frozen.value
      modifies this, s, core
      // The events are create's own, lead to what the Platform then holds, and the joint system allows every one of them.
      ensures s.Valid() && J.From(w, es).db == s.View() && Emits(job, es)
      ensures Starting(w, job, claimedNow, answer) ==> J.RunsFrom(w, es)
      // At most one call, and only a proper one, at its place among the events.
      ensures core.calls == old(core.calls)
              || (exists c, k :: core.calls == old(core.calls) + [c] && sent.Some?
                                 && Proper(c, job, second, historyDays, now, Retrying(job, claimedNow))
                                 && CalledAt(c, w, es, k, job, Retrying(job, claimedNow), s.View(), site, node, sent.value, stop, next))
      // A rejection is sent only when core was not called, or when a first legacy call was clearly refused.
      ensures sent.Some? && sent.value.state.JRejectedNoEffect? ==>
        && !(Retrying(job, claimedNow))
        && (core.calls == old(core.calls) || (job.capability.LegacyV1? && ClearlyNoEffect(answer)))
      // An instance is reported only if core named it.
      ensures sent.Some? && sent.value.instance != "" ==>
        core.calls != old(core.calls) && !answer.NoAnswer? && sent.value.instance == answer.instance
      // Core is asked once nothing is in the way, and what it answers is what is reported.
      ensures old(wire) == [] && Workable(old(s.View()), site, node, job, claimedNow, historyDays, now, first, second, stop, next) ==>
        core.calls != old(core.calls)
      ensures core.calls != old(core.calls) ==> sent.Some? && Told(sent.value, job, Retrying(job, claimedNow), answer)
      // With nothing lost the Platform has it, from the rows it held when core was called.
      ensures old(wire) == [] && core.calls != old(core.calls) ==>
        sent.Some? && Recorded(core.calls[|core.calls| - 1].held, s.View(), site, node, job.id, sent.value, stop, next)
    {
      hide Told, Recorded, Cleared, Requested, Calls.Prepare, J.RunsFrom, J.From, J.Next, J.Truthful, Starting, Crossing, Resolving, Honest, Proper, CalledAt, Inv, R.WithinHistory, Emits;
      var retrying := Retrying(job, claimedNow);
      sent, es := None, [];
      NoEvents(w);
      EmitsWork(w, job, retrying, answer);
      if !job.state.JClaimed? && !(job.state.JUnknown? && job.operation == "") { return; }
      if job.state.JUnknown? && job.frozen.None? { return; }
      if retrying && !R.WithinHistory(job.frozen.value.preparedAt, historyDays, now) {
        if job.state.JClaimed? {
          sent := Some(Unsure("", ""));
          UnsureTruthful(w, node, job.id, "", "", stop, next);
          es := Send(site, node, job.id, sent.value, stop, next, w);
        }
        return;
      }
      var frozen := if job.frozen.Some? then Some(job.frozen.value.request) else None;
      if frozen.None? {
        ghost var a := Taking(job);
        TakingStarts(w, job, claimedNow, answer);
        ghost var b;
        frozen, sent, b := Resolve(site, node, job, first, stop, next, J.From(w, a));
        es := a + b;
        Joined(w, a, b);
        EmitsBoth(job, a, b);
        if frozen.None? { return; }
        ResolvedCrosses(J.From(w, a), J.From(w, es), job, answer);
      } else {
        StartedCrosses(w, job, claimedNow, answer);
      }
      ghost var c;
      ghost var n := J.From(w, es);
      sent, c := Cross(site, node, job, frozen.value, historyDays, now, retrying, second, answer, stop, next, n);
      Joined(w, es, c);
      EmitsBoth(job, es, c);
      if core.calls != old(core.calls) {
        ghost var call, k :| core.calls == old(core.calls) + [call] && Proper(call, job, second, historyDays, now, retrying)
                       && CalledAt(call, n, c, k, job, retrying, s.View(), site, node, sent.value, stop, next);
        CalledLater(call, w, es, c, k, job, retrying, s.View(), site, node, sent.value, stop, next);
      }
      es := es + c;
    }

    // The second half: prove the machine against the frozen request, mark the start, call core, report.
    method Cross(site: Site, node: Id, job: Loaded, request: Frozen, ghost historyDays: int, now: int, retrying: bool, m: Machine,
                 answer: CoreAnswer, stop: Id, next: Id, ghost w: J.World) returns (sent: Option<Report>, ghost es: seq<J.Event>)
      requires s.Valid() && w.db == s.View()
      requires job.id in w.db.frozen && w.db.frozen[job.id].request == request
      requires retrying ==> R.WithinHistory(w.db.frozen[job.id].preparedAt, historyDays, now)
      modifies this, s, core
      ensures s.Valid() && J.From(w, es).db == s.View() && Emits(job, es)
      ensures Crossing(w, job, retrying, answer) ==> J.RunsFrom(w, es)
      ensures core.calls == old(core.calls)
              || (exists c, k :: core.calls == old(core.calls) + [c] && sent.Some? && Proper(c, job, m, historyDays, now, retrying)
                                 && CalledAt(c, w, es, k, job, retrying, s.View(), site, node, sent.value, stop, next))
      ensures sent.Some? && sent.value.state.JRejectedNoEffect? ==>
        !retrying && (core.calls == old(core.calls) || (job.capability.LegacyV1? && ClearlyNoEffect(answer)))
      ensures sent.Some? && sent.value.instance != "" ==>
        core.calls != old(core.calls) && !answer.NoAnswer? && sent.value.instance == answer.instance
      // Core is asked once nothing is in the way, and what it answers is what is reported.
      ensures old(wire) == [] && Cleared(old(s.View()), site, node, job, request, m, stop, next) ==> core.calls != old(core.calls)
      ensures core.calls != old(core.calls) ==> sent.Some? && Told(sent.value, job, retrying, answer)
      ensures old(wire) == [] && core.calls != old(core.calls) ==>
        sent.Some? && Recorded(core.calls[|core.calls| - 1].held, s.View(), site, node, job.id, sent.value, stop, next)
    {
      hide Told, Recorded, MachineProof, Calls.Begin, Calls.ReportJob, R.WithinHistory, J.RunsFrom, J.From, J.Next, J.Truthful, Crossing, ValidFrozen, Inv, Proper, CalledAt, Called, OnlyDb, Started, Answered, Emits;
      sent, es := None, [];
      NoEvents(w);
      EmitsWork(w, job, retrying, answer);
      if !ValidFrozen(job, request, m) { return; }
      if job.capability.ContentValidationV102? && MachineProof(job, m) != Some((request.template, request.fingerprint)) {
        sent := if !retrying then Some(Rejecting("LOCAL_IDENTITY_DRIFT", "validate"))
                else if job.state.JClaimed? then Some(Unsure("LOCAL_IDENTITY_DRIFT", "reconcile")) else None;
        if sent.Some? {
          DriftTruthful(w, job, retrying, answer, node, sent.value, stop, next);
          es := Send(site, node, job.id, sent.value, stop, next, w);
        }
        return;
      }
      ghost var a, b;
      var begun;
      begun, a := Begin(site, node, job, request, stop, next, w);
      es := a;
      if !begun { return; }
      ghost var n := J.From(w, a);
      BegunCrosses(w, n, job, retrying, answer);
      var report;
      report, b := CallCore(site, node, job, request, now, retrying, answer, stop, next, n);
      sent := Some(report);
      AnsweredFrom(job, retrying, answer);
      es := a + b;
      Joined(w, a, b);
      EmitsBoth(job, a, b);
      ghost var c := CoreCall(job.id, request, now, n.db);
      ProperCall(c, job, m, historyDays, now, retrying);
      CalledHere(c, w, a, b, job, retrying, s.View(), site, node, report, stop, next);
    }

    // The first half of create, for a job nothing is frozen for yet.
    method Resolve(site: Site, node: Id, job: Loaded, m: Machine, stop: Id, next: Id, ghost w: J.World)
      returns (frozen: Option<Frozen>, sent: Option<Report>, ghost es: seq<J.Event>)
      requires s.Valid() && w.db == s.View()
      modifies this, s
      ensures s.Valid() && OnlyDb(w, J.From(w, es), s.View()) && J.From(w, es).begun == w.begun && Emits(job, es)
      ensures Resolving(w, job) ==> J.RunsFrom(w, es)
      ensures frozen.Some? ==>
        && sent.None? && job.id in s.View().frozen && s.View().frozen[job.id].request == frozen.value
        && job.id in s.View().jobs && InFlight(s.View().jobs[job.id].state) && s.View().jobs == old(s.View()).jobs
      ensures sent.Some? ==> sent.value.instance == ""
      ensures old(wire) == [] && frozen.Some? ==> wire == []
      // Only what the machine proves is frozen; where it proves nothing, the job is rejected and nothing is.
      ensures frozen.Some? ==>
        && Requested(job, m).Some?
        && (frozen.value.template, frozen.value.algorithm, frozen.value.fingerprint) == Requested(job, m).value
      ensures Requested(job, m).None? ==> sent.Some? && sent.value.state.JRejectedNoEffect?
      ensures old(wire) == [] && Requested(job, m).Some? && PrepareAs(old(s.View()), site, node, job, m).Committed? ==>
        frozen.Some? && wire == [] && PrepareAs(old(s.View()), site, node, job, m) == Committed(s.View())
    {
      hide Calls.Prepare, Calls.ReportJob, MachineProof, J.From, J.RunsFrom, J.Next, J.Truthful, Resolving, Inv, Emits;
      frozen, sent, es := None, None, [];
      var path := if job.bindingKey in m.paths then m.paths[job.bindingKey] else "";
      var digest, algorithm := "", "";
      if job.capability.ContentValidationV102? {
        var proof := MachineProof(job, m);
        if proof.None? {
          sent := Some(Rejecting("LOCAL_IDENTITY_MISMATCH", "validate"));
          RejectionTruthful(w, job, node, "LOCAL_IDENTITY_MISMATCH", stop, next);
          es := Send(site, node, job.id, sent.value, stop, next, w);
          return;
        }
        path, digest, algorithm := proof.value.0, proof.value.1, MANIFEST_V1;
      }
      if path !in m.usable {
        sent := Some(Rejecting("LOCAL_TEMPLATE_BINDING", "validate"));
        RejectionTruthful(w, job, node, "LOCAL_TEMPLATE_BINDING", stop, next);
        es := Send(site, node, job.id, sent.value, stop, next, w);
        return;
      }
      frozen, es := Prepare(site, node, job, path, algorithm, digest, w);
    }
  }

  // ---- One cycle's work list ----

  datatype Work = Work(job: Id, claimedNow: bool)

  // Everything collected so far is in flight, and nothing is collected twice.
  ghost predicate Collected(db: Db, items: seq<Work>) {
    && (forall i :: 0 <= i < |items| ==> items[i].job in db.jobs && InFlight(db.jobs[items[i].job].state))
    && (forall i, k :: 0 <= i < k < |items| ==> items[i].job != items[k].job)
  }

  ghost predicate Apart(db: Db, items: seq<Work>) {
    forall i, k :: 0 <= i < k < |items| && items[i].job in db.jobs && items[k].job in db.jobs ==>
      items[i].job != items[k].job && db.jobs[items[i].job].alloc != db.jobs[items[k].job].alloc
  }

  lemma ClaimCollects(db: Db, site: Site, node: Id, j: Id, independent: bool, cap: Capability, d: Db, items: seq<Work>, w: Work)
    requires Inv(db) && Exclusive(db) && Claim(db, site, node, j, independent, cap) == Committed(d) && Collected(db, items)
    requires w.job == j
    ensures Exclusive(d) && Collected(d, items + [w]) && Collected(d, [w] + items)
  {
    ClaimExclusive(db, site, node, j, independent, cap, d);
    ClaimRow(db, site, node, j, independent, cap, d);
    ClaimedMore(db, d, j, items, w);
    hide Inv, Exclusive, Collected, Claim;
  }

  lemma ClaimExclusive(db: Db, site: Site, node: Id, j: Id, independent: bool, cap: Capability, d: Db)
    requires Inv(db) && Exclusive(db) && Claim(db, site, node, j, independent, cap) == Committed(d)
    ensures Exclusive(d)
  {
    hide Coupled, Claim, JobsEvolve, AllocationsEvolve, RequestsEvolve, Exclusive;
    ClaimEvolves(db, site, node, j, independent, cap);
    StepExclusive(db, site, CClaim(node, j, independent, cap), d);
  }

  lemma ClaimRow(db: Db, site: Site, node: Id, j: Id, independent: bool, cap: Capability, d: Db)
    requires Claim(db, site, node, j, independent, cap) == Committed(d)
    ensures j in db.jobs && j in d.jobs && d.jobs == db.jobs[j := d.jobs[j]]
    ensures db.jobs[j].state.JPending? && InFlight(d.jobs[j].state)
  {
    hide Rival, TrustedStop;
  }

  lemma ClaimedMore(db: Db, d: Db, j: Id, items: seq<Work>, w: Work)
    requires j in db.jobs && j in d.jobs && d.jobs == db.jobs[j := d.jobs[j]]
    requires db.jobs[j].state.JPending? && InFlight(d.jobs[j].state) && Collected(db, items) && w.job == j
    ensures Collected(d, items + [w]) && Collected(d, [w] + items)
  {
    assert forall i :: 0 <= i < |items| ==> items[i].job != j;
  }

  // A job the Controller finds open when a cycle starts.
  predicate OpenFor(jobs: map<Id, Job>, node: Id, cap: Capability, j: Id) {
    && j in jobs && jobs[j].node == node && InFlight(jobs[j].state)
    && (jobs[j].capability.LegacyV1? || jobs[j].capability == cap)
  }

  predicate Has(items: seq<Work>, j: Id) {
    exists i :: 0 <= i < |items| && items[i].job == j
  }

  // Earlier created jobs come first.
  ghost predicate InOrder(jobs: map<Id, Job>, items: seq<Work>) {
    forall i, k :: 0 <= i < k < |items| && items[i].job in jobs && items[k].job in jobs ==>
      Before(jobs[items[i].job], items[i].job, jobs[items[k].job], items[k].job)
  }

  // `items` lists the open jobs that are not left, in order, and all of them come before the ones left.
  ghost predicate Lists(jobs: map<Id, Job>, open: set<Id>, left: set<Id>, items: seq<Work>) {
    && InOrder(jobs, items)
    && (forall i :: 0 <= i < |items| ==> items[i].job in open && items[i].job !in left)
    && (forall i, k :: 0 <= i < k < |items| ==> items[i].job != items[k].job)
    && (forall i, j :: 0 <= i < |items| && j in left && items[i].job in jobs && j in jobs ==>
          Before(jobs[items[i].job], items[i].job, jobs[j], j))
    && (forall j :: j in open && j !in left ==> Has(items, j))
  }

  // The oldest job left goes to the end.
  lemma ListsMore(jobs: map<Id, Job>, open: set<Id>, left: set<Id>, items: seq<Work>, w: Work)
    requires Lists(jobs, open, left, items) && left <= open <= jobs.Keys && w.job in left
    requires forall k :: k in left && k != w.job ==> Before(jobs[w.job], w.job, jobs[k], k)
    ensures Lists(jobs, open, left - {w.job}, items + [w])
  {
    hide Before, Has;
    HasMore(items, w);
  }

  lemma ListsAll(db: Db, node: Id, cap: Capability, open: set<Id>, items: seq<Work>)
    requires Lists(db.jobs, open, {}, items) && (forall j :: j in open <==> OpenFor(db.jobs, node, cap, j))
    ensures Collected(db, items) && InOrder(db.jobs, items)
    ensures forall j :: OpenFor(db.jobs, node, cap, j) <==> Has(items, j)
  {
    hide Before, InFlight, InOrder;
  }

  // OpenJobs, without the ones not claimed yet.
  method OpenJobs(s: Store, node: Id, cap: Capability) returns (items: seq<Work>)
    ensures Collected(s.View(), items) && InOrder(s.jobs, items) && AllNew(items, false)
    ensures forall j :: OpenFor(s.jobs, node, cap, j) <==> Has(items, j)
  {
    var open := set j | j in s.jobs && OpenFor(s.jobs, node, cap, j);
    var left := open;
    items := [];
    hide Before, Has, Collected;
    while left != {}
      invariant left <= open && Lists(s.jobs, open, left, items) && AllNew(items, false)
      decreases |left|
    {
      hide Lists, OpenFor, InOrder;
      var j := s.OldestOf(left);
      ListsMore(s.jobs, open, left, items, Work(j, false));
      items, left := items + [Work(j, false)], left - {j};
    }
    ListsAll(s.View(), node, cap, open, items);
    hide Lists, OpenFor, InOrder;
  }

  lemma HasMore(items: seq<Work>, w: Work)
    ensures Has(items + [w], w.job) && Has([w] + items, w.job)
    ensures forall j :: Has(items, j) ==> Has(items + [w], j) && Has([w] + items, j)
  {
    assert (items + [w])[|items|] == w && ([w] + items)[0] == w;
    forall j | Has(items, j)
      ensures Has(items + [w], j) && Has([w] + items, j)
    {
      var i :| 0 <= i < |items| && items[i].job == j;
      assert (items + [w])[i] == items[i] && ([w] + items)[i + 1] == items[i];
    }
  }

  // How many new jobs a cycle may claim.
  function Slots(maxJobs: int): (n: nat)
    ensures 1 <= n <= 32 && (1 <= maxJobs <= 32 ==> n == maxJobs)
  {
    if maxJobs < 1 then 1 else if maxJobs > 32 then 32 else maxJobs
  }

  // The first half of StepWithList: the jobs still open, one independent stop in front, then new claims. The open ones are not
  // new work, whatever they wait for; a stop is put in front only of those; and claiming ends at the limit or when nothing is left.
  method CollectWork(s: Store, site: Site, node: Id, cap: Capability, maxJobs: int, locked: set<Id>)
    returns (items: seq<Work>, ghost front: seq<Work>, ghost open: seq<Work>, ghost claimed: seq<Work>)
    requires s.Valid() && Exclusive(s.View())
    modifies s
    ensures s.Valid() && Exclusive(s.View())
    ensures Apart(s.View(), items)
    ensures forall i :: 0 <= i < |items| ==> items[i].job in s.jobs && InFlight(s.jobs[items[i].job].state)
    ensures items == front + open + claimed
    ensures (forall j :: OpenFor(old(s.jobs), node, cap, j) <==> Has(open, j)) && InOrder(old(s.jobs), open) && AllNew(open, false)
    ensures |front| <= 1 && AllNew(front, true)
    ensures if front == [] then open == [] || NothingToClaim(old(s.View()), site, node, true, cap, locked)
            else open != [] && front[0].job !in locked && Claimable(old(s.View()), site, node, front[0].job, true, cap)
    ensures |claimed| <= Slots(maxJobs) && AllNew(claimed, true) && (forall w :: w in claimed ==> w.job !in locked)
    ensures |claimed| < Slots(maxJobs) ==> NothingToClaim(s.View(), site, node, false, cap, locked)
  {
    hide Inv, Claimable, Exclusive, OpenFor, Has, InOrder;
    var limit := Slots(maxJobs);
    items := OpenJobs(s, node, cap);
    open, front, claimed := items, [], [];
    if items != [] {
      ghost var db := s.View();
      var stop := s.ClaimNextJob(site, node, true, cap, locked);
      if stop.Some? {
        var w := Work(stop.value, true);
        ClaimCollects(db, site, node, stop.value, true, cap, s.View(), items, w);
        items, front := [w] + items, [w];
      }
    }
    items, claimed := ClaimMore(s, site, node, cap, limit, locked, items);
    CollectedApart(s.View(), items);
  }

  // Ordinary claims behind what is collected, up to the limit.
  method ClaimMore(s: Store, site: Site, node: Id, cap: Capability, limit: nat, locked: set<Id>, found: seq<Work>)
    returns (items: seq<Work>, ghost claimed: seq<Work>)
    requires s.Valid() && Exclusive(s.View()) && Collected(s.View(), found)
    modifies s
    ensures s.Valid() && Exclusive(s.View()) && Collected(s.View(), items) && items == found + claimed
    ensures |claimed| <= limit && AllNew(claimed, true) && (forall w :: w in claimed ==> w.job !in locked)
    ensures |claimed| < limit ==> NothingToClaim(s.View(), site, node, false, cap, locked)
  {
    hide Inv, Claimable, Exclusive;
    var claims := 0;
    items, claimed := found, [];
    while claims < limit
      invariant s.Valid() && Exclusive(s.View()) && Collected(s.View(), items)
      invariant items == found + claimed && |claimed| == claims <= limit
      invariant AllNew(claimed, true) && (forall w :: w in claimed ==> w.job !in locked)
    {
      ghost var db := s.View();
      var job := s.ClaimNextJob(site, node, false, cap, locked);
      if job.None? { break; }
      var w := Work(job.value, true);
      ClaimCollects(db, site, node, job.value, false, cap, s.View(), items, w);
      items, claimed := items + [w], claimed + [w];
      claims := claims + 1;
    }
  }

  predicate AllNew(items: seq<Work>, claimedNow: bool) {
    forall w :: w in items ==> w.claimedNow == claimedNow
  }

  ghost predicate NothingToClaim(db: Db, site: Site, node: Id, independent: bool, cap: Capability, locked: set<Id>) {
    forall k :: k in db.jobs && k !in locked ==> !Claimable(db, site, node, k, independent, cap)
  }

  lemma CollectedApart(db: Db, items: seq<Work>)
    requires Exclusive(db) && Collected(db, items)
    ensures Apart(db, items)
  {
  }

  // The same with everyone else at work in between: a job once in flight stays so until someone reports on it,
  // so two jobs handed out in one cycle, at whatever moments, are on different allocations.
  lemma {:induction false} StaysInFlight(h: History, k: History, j: Id)
    requires j in Exec(h).jobs && InFlight(Exec(h).jobs[j].state)
    requires forall i :: 0 <= i < |k| ==> !Reports(k[i].1, j)
    ensures j in Exec(h + k).jobs && Exec(h + k).jobs[j] == Exec(h).jobs[j]
    decreases |k|
  {
    hide Inv, Apply, AllocationsEvolve, RequestsEvolve, JobsEvolve, Exec;
    if k == [] {
      assert h + k == h;
    } else {
      var m := k[..|k|-1];
      StaysInFlight(h, m, j);
      var (site, call) := k[|k|-1];
      assert h + k == (h + m) + [(site, call)];
      ExecStep(h + m, site, call);
      RunKeepsInv(h + m);
      CallEvolves(Exec(h + m), site, call);
      UnreportedStays(Exec(h + m), site, call, Exec(h + k), j);
    }
  }

  lemma DispatchedApart(h: History, k: History, i: nat, j: Id, x: Id)
    requires i <= |k| && j in Exec(h).jobs && InFlight(Exec(h).jobs[j].state)
    requires x in Exec(h + k[..i]).jobs && InFlight(Exec(h + k[..i]).jobs[x].state) && j != x
    requires forall n :: 0 <= n < |k| ==> !Reports(k[n].1, j) && !Reports(k[n].1, x)
    ensures j in Exec(h + k).jobs && x in Exec(h + k).jobs && Exec(h + k).jobs[j].alloc != Exec(h + k).jobs[x].alloc
  {
    hide Exec, Reports;
    StaysInFlight(h, k, j);
    assert (h + k[..i]) + k[i..] == h + k;
    StaysInFlight(h + k[..i], k[i..], x);
    InFlightExclusive(h + k);
    assert Exclusive(Exec(h + k));
  }
}
