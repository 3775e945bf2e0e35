/** Platform, Controllers and core as one system: responses are lost, messages are late,
    Controllers restart, operators act at any time, and still no server lives outside capacity. */
module Joint {
  import opened Facts
  import opened Ledger
  import opened Calls
  import opened Coupling
  import opened CouplingSteps
  import opened CouplingRuns
  import opened Evolution
  import opened EvolutionSteps
  import opened Lifecycle
  import opened Exclusion

  // Where a legacy create is in the one Controller's worker. `First` is work on a job that was not
  // frozen when it was loaded; only that work may turn a refusal by core into a rejection.
  datatype Pc = Idle | First | Waiting | Refused

  // Core keeps one instance for each idempotency key, and the key is a function of the job.
  datatype World = World(
    db: Db,
    byKey: map<Id, Token>,    // the instance core made for a create job's key
    reclaimed: set<Token>,    // instances core has fully reclaimed
    begun: set<Id>,           // create jobs whose operation start the Platform has committed
    sent: set<Id>,            // legacy create jobs with a core call that may still take effect
    pc: map<Id, Pc>)

  datatype Event =
    | Store(site: Site, call: Call)
    | CoreCreates(j: Id, instance: Token)
    | CoreReclaims(instance: Token)
    | Load(j: Id)
    | Send(j: Id)
    | Resend(j: Id)
    | Refuse(j: Id)
    | Forget(j: Id)

  function PcOf(w: World, j: Id): Pc {
    if j in w.pc then w.pc[j] else Idle
  }

  predicate CreateOf(db: Db, j: Id, cap: Capability) {
    j in db.jobs && db.jobs[j].kind.Create? && db.jobs[j].capability == cap
  }

  // A Controller says only what core or its own worker state told it. A v1.0.2 report may be as late as
  // it likes and a v1.0.2 rejection may come at any time, from any Controller: nothing is asked of it.
  predicate Truthful(w: World, call: Call) {
    match call
    case CReport(node, j, rep, stop, next) =>
      j in w.db.jobs ==>
        var job := w.db.jobs[j];
        && (job.kind.Create? && rep.instance != "" ==> j in w.byKey && w.byKey[j] == rep.instance)
        && (job.kind.Stop? && rep.state.JSucceeded? ==> job.instance in w.reclaimed)
        && (job.kind.Create? && job.capability.LegacyV1? && rep.state.JRejectedNoEffect? ==>
              PcOf(w, j).Refused? || (PcOf(w, j).First? && j !in w.db.frozen))
    case CFact(node, a, fact, stop, next) => fact.outcome.Gone? ==> fact.instance in w.reclaimed
    case _ => true
  }

  predicate Enabled(w: World, e: Event) {
    match e
    case Store(site, call) => Truthful(w, call)
    case CoreCreates(j, instance) =>
      && instance != "" && instance !in w.byKey.Values && instance !in w.reclaimed && j !in w.byKey
      && ((CreateOf(w.db, j, ContentValidationV102) && j in w.begun) || (CreateOf(w.db, j, LegacyV1) && j in w.sent))
    case CoreReclaims(instance) => true
    case Load(j) => CreateOf(w.db, j, LegacyV1) && w.db.jobs[j].state.JClaimed? && j !in w.db.frozen && PcOf(w, j).Idle?
    case Send(j) => PcOf(w, j).First? && j in w.db.frozen && j in w.db.jobs && InFlight(w.db.jobs[j].state)
    case Resend(j) => CreateOf(w.db, j, LegacyV1) && InFlight(w.db.jobs[j].state) && j in w.db.frozen && PcOf(w, j).Idle?
    case Refuse(j) => PcOf(w, j).Waiting? && j !in w.byKey
    case Forget(j) => true
  }

  ghost function Next(w: World, e: Event): World {
    match e
    case Store(site, call) =>
      w.(db := Apply(w.db, site, call), begun := if Begins(w.db, site, call) then w.begun + {call.j} else w.begun)
    case CoreCreates(j, instance) => w.(byKey := w.byKey[j := instance])
    case CoreReclaims(instance) => w.(reclaimed := w.reclaimed + {instance})
    case Load(j) => w.(pc := w.pc[j := First])
    case Send(j) => w.(pc := w.pc[j := Waiting], sent := w.sent + {j})
    case Resend(j) => w.(sent := w.sent + {j})
    case Refuse(j) => w.(pc := w.pc[j := Pc.Refused], sent := w.sent - {j})
    case Forget(j) => w.(pc := w.pc[j := Idle])
  }

  const START := World(EMPTY, map[], {}, {}, {}, map[])

  ghost function From(w: World, es: seq<Event>): World {
    if es == [] then w else Next(From(w, es[..|es|-1]), es[|es|-1])
  }

  ghost predicate RunsFrom(w: World, es: seq<Event>) {
    forall i :: 0 <= i < |es| ==> Enabled(From(w, es[..i]), es[i])
  }

  ghost function Reach(es: seq<Event>): World {
    From(START, es)
  }

  ghost predicate Valid(es: seq<Event>) {
    RunsFrom(START, es)
  }

  lemma OneMoreEvent(w: World, es: seq<Event>, e: Event)
    ensures From(w, es + [e]) == Next(From(w, es), e)
    ensures RunsFrom(w, es) && Enabled(From(w, es), e) ==> RunsFrom(w, es + [e])
  {
    var f := es + [e];
    assert f[..|es|] == es;
    hide Enabled, Next;
    if RunsFrom(w, es) && Enabled(From(w, es), e) {
      forall i | 0 <= i < |f|
        ensures Enabled(From(w, f[..i]), f[i])
      {
        if i < |es| { assert f[..i] == es[..i]; }
      }
    }
  }

  // ---- The property ----

  // Core made the server for job j's key and has not fully reclaimed it.
  predicate Live(w: World, j: Id) {
    j in w.byKey && w.byKey[j] !in w.reclaimed
  }

  // Its capacity is still reserved.
  predicate Reserved(db: Db, j: Id) {
    && j in db.jobs && db.jobs[j].alloc in db.allocations && db.allocations[db.jobs[j].alloc].create == j
    && !Terminal(db.allocations[db.jobs[j].alloc].state)
  }

  // Core can never again have a live server under job j's key: its one instance is gone for good,
  // or there is none and no call that could still make one.
  predicate Harmless(w: World, j: Id) {
    if j in w.byKey then w.byKey[j] in w.reclaimed else j !in w.sent
  }

  ghost predicate Safe(w: World) {
    forall j :: Live(w, j) ==> Reserved(w.db, j)
  }

  // ---- The invariant ----

  ghost predicate ReleasedRejected(db: Db) {
    forall a :: a in db.allocations && db.allocations[a].state.AReleasedNoEffect? ==>
      db.allocations[a].create in db.jobs && db.jobs[db.allocations[a].create].state.JRejectedNoEffect?
  }

  predicate Untold(s: JobState) {
    s.JPending? || s.JClaimed? || s.JRejectedNoEffect?
  }

  ghost predicate Known(w: World, j: Id) {
    && (j in w.byKey ==> (CreateOf(w.db, j, ContentValidationV102) && j in w.begun) || CreateOf(w.db, j, LegacyV1))
    && (j in w.begun ==> CreateOf(w.db, j, ContentValidationV102) && !Untold(w.db.jobs[j].state))
    && (j in w.sent ==> CreateOf(w.db, j, LegacyV1))
    && (j in w.sent || (j in w.byKey && j !in w.begun) ==>
          && CreateOf(w.db, j, LegacyV1) && j in w.db.frozen && !w.db.jobs[j].state.JPending?
          && (Harmless(w, j) || !w.db.jobs[j].state.JRejectedNoEffect?))
    && (PcOf(w, j).First? || PcOf(w, j).Refused? ==> j !in w.byKey && j !in w.sent)
    && (!PcOf(w, j).Idle? ==> CreateOf(w.db, j, LegacyV1))
    && (j in w.db.jobs && w.db.jobs[j].kind.Create? && w.db.jobs[j].instance != "" ==>
          j in w.byKey && w.byKey[j] == w.db.jobs[j].instance)
  }

  // What the invariant needs of a call: less than the truth for a legacy rejection, which only must do no harm.
  predicate Sound(w: World, call: Call) {
    match call
    case CReport(node, j, rep, stop, next) =>
      j in w.db.jobs ==>
        var job := w.db.jobs[j];
        && (job.kind.Create? && rep.instance != "" ==> j in w.byKey && w.byKey[j] == rep.instance)
        && (job.kind.Stop? && rep.state.JSucceeded? ==> job.instance in w.reclaimed)
        && (job.kind.Create? && job.capability.LegacyV1? && rep.state.JRejectedNoEffect? ==> Harmless(w, j))
    case CFact(node, a, fact, stop, next) => fact.outcome.Gone? ==> fact.instance in w.reclaimed
    case _ => true
  }

  lemma TruthfulSound(w: World, call: Call)
    requires (forall j :: Known(w, j)) && Truthful(w, call)
    ensures Sound(w, call)
  {
    if call.CReport? {
      assert Known(w, call.j);
    }
  }

  ghost predicate Proven(w: World) {
    forall a :: a in w.db.allocations && w.db.allocations[a].state.AReclaimed? ==>
      && w.db.allocations[a].create in w.db.jobs && w.db.jobs[w.db.allocations[a].create].instance != ""
      && w.db.jobs[w.db.allocations[a].create].instance in w.reclaimed
  }

  ghost predicate Distinct(w: World) {
    forall j, k :: j in w.byKey && k in w.byKey && j != k ==> w.byKey[j] != w.byKey[k]
  }

  ghost predicate WorldInv(w: World) {
    && Inv(w.db) && Exclusive(w.db) && StopsAim(w.db) && ReleasedRejected(w.db)
    && (forall j :: Known(w, j)) && Proven(w) && Distinct(w)
  }

  lemma InvSafe(w: World)
    requires WorldInv(w)
    ensures Safe(w)
  {
    hide Coupled, StopsAim;
    forall j | Live(w, j)
      ensures Reserved(w.db, j)
    {
      assert Known(w, j);
    }
  }

  // ---- Store calls ----

  lemma StepReleased(db: Db, site: Site, call: Call, d: Db)
    requires Rooted(db) && JobsEvolve(db, site, call, d) && AllocationsEvolve(db, site, call, d) && ReleasedRejected(db)
    ensures ReleasedRejected(d)
  {
    hide JobMoves, Rooted, NewJob;
    forall a | a in d.allocations && d.allocations[a].state.AReleasedNoEffect?
      ensures d.allocations[a].create in d.jobs && d.jobs[d.allocations[a].create].state.JRejectedNoEffect?
    {
      assert a !in db.allocations ==> NewAllocation(db, site, call, d, a);
      assert AllocationStep(db, call, d, a);
      if db.allocations[a].state.AReleasedNoEffect? { JobStays(db, site, call, d, db.allocations[a].create); }
    }
  }

  // A job that has been begun, or may have reached core, is not thrown back or rejected.
  lemma MoveKeepsTold(w: World, site: Site, call: Call, j: Id, next: Job)
    requires j in w.db.jobs && JobMoves(w.db, site, call, j, next) && Sound(w, call) && Known(w, j)
    ensures j in w.begun ==> !Untold(next.state)
    ensures (j in w.sent || (j in w.byKey && j !in w.begun)) ==> !next.state.JPending? && (Harmless(w, j) || !next.state.JRejectedNoEffect?)
    ensures next.kind.Create? && next.instance != "" ==> j in w.byKey && w.byKey[j] == next.instance
  {
    hide StartAllowed, TrustedStop, Rival, TokenOk;
  }

  lemma StoreKnown(w: World, site: Site, call: Call, j: Id)
    requires Inv(w.db) && Sound(w, call) && Known(w, j)
    ensures Known(Next(w, Store(site, call)), j)
  {
    hide Inv, Apply, Evolves, Begins, JobKnown, Known, Sound;
    var d := Apply(w.db, site, call);
    CallEvolves(w.db, site, call);
    if Begins(w.db, site, call) { BegunJob(w.db, site, call); }
    StoreJob(w, site, call, d, j);
    KnownStep(w, Next(w, Store(site, call)), j);
  }

  lemma BegunJob(db: Db, site: Site, call: Call)
    requires Begins(db, site, call)
    ensures call.CBegin?
    ensures var d := Apply(db, site, call);
            CreateOf(d, call.j, ContentValidationV102) && d.jobs[call.j].state.JUnknown?
  {
    BeginLeaves(db, site, call.node, call.j, call.start, call.stop, call.next);
    hide Begin;
  }

  // What a step does to the job row that Known reads.
  ghost predicate JobKnown(w: World, d: Db, j: Id) {
    && (j in w.db.jobs ==>
          && j in d.jobs && d.jobs[j].kind == w.db.jobs[j].kind && d.jobs[j].capability == w.db.jobs[j].capability
          && (j in w.begun ==> !Untold(d.jobs[j].state))
          && (j in w.sent || (j in w.byKey && j !in w.begun) ==>
                !d.jobs[j].state.JPending? && (Harmless(w, j) || !d.jobs[j].state.JRejectedNoEffect?)))
    && (j in d.jobs && d.jobs[j].kind.Create? && d.jobs[j].instance != "" ==> j in w.byKey && w.byKey[j] == d.jobs[j].instance)
    && (j in w.db.frozen ==> j in d.frozen)
  }

  lemma StoreJob(w: World, site: Site, call: Call, d: Db, j: Id)
    requires Evolves(w.db, site, call, d) && Sound(w, call) && Known(w, j)
    ensures JobKnown(w, d, j)
  {
    hide StartAllowed, Untouched, Claimable, ReportAllowed, ValidReport, OpenStop, PcOf;
    assert j in d.jobs && j !in w.db.jobs ==> NewJob(w.db, d, j);
    assert j in w.db.jobs ==> JobStep(w.db, site, call, d, j);
    hide AllocationsEvolve, RequestsEvolve, JobsEvolve, JobMoves;
    if j in w.db.jobs {
      JobStays(w.db, site, call, d, j);
      if d.jobs[j] != w.db.jobs[j] { MoveKeepsTold(w, site, call, j, d.jobs[j]); }
    }
    hide Sound, NewJob, JobStep;
  }

  lemma KnownStep(w: World, n: World, j: Id)
    requires Known(w, j) && JobKnown(w, n.db, j)
    requires n.byKey == w.byKey && n.reclaimed == w.reclaimed && n.sent == w.sent && n.pc == w.pc
    requires j in w.begun ==> j in n.begun
    requires j in n.begun && j !in w.begun ==> CreateOf(n.db, j, ContentValidationV102) && !Untold(n.db.jobs[j].state)
    ensures Known(n, j)
  {
  }

  lemma StoreProven(w: World, site: Site, call: Call)
    requires Inv(w.db) && StopsAim(w.db) && Sound(w, call) && Proven(w)
    ensures Proven(Next(w, Store(site, call)))
  {
    CallEvolves(w.db, site, call);
    hide Coupled, Apply, JobsEvolve, AllocationsEvolve, RequestsEvolve, Rooted, StopsAim, Sound, Proven;
    ProvenAfter(w, site, call, Next(w, Store(site, call)));
  }

  lemma ProvenAfter(w: World, site: Site, call: Call, n: World)
    requires Rooted(w.db) && StopsAim(w.db) && Sound(w, call) && Proven(w)
    requires JobsEvolve(w.db, site, call, n.db) && AllocationsEvolve(w.db, site, call, n.db) && n.reclaimed == w.reclaimed
    ensures Proven(n)
  {
    hide Rooted, StopsAim, Sound, JobsEvolve, AllocationsEvolve;
    forall a | a in n.db.allocations && n.db.allocations[a].state.AReclaimed?
      ensures n.db.allocations[a].create in n.db.jobs && n.db.jobs[n.db.allocations[a].create].instance != ""
      ensures n.db.jobs[n.db.allocations[a].create].instance in w.reclaimed
    {
      ReclaimProven(w, site, call, n.db, a);
    }
  }

  lemma ReclaimCause(db: Db, site: Site, call: Call, d: Db, a: Id)
    requires AllocationsEvolve(db, site, call, d) && a in d.allocations && d.allocations[a].state.AReclaimed?
    ensures a in db.allocations && d.allocations[a].create == db.allocations[a].create
    ensures db.allocations[a].state.AReclaimed? || Reclaims(db, call, a)
  {
    hide Placeable, Reservable, NewCreateJob, ExpectedOf, Reclaims;
    assert a !in db.allocations ==> NewAllocation(db, site, call, d, a);
    assert AllocationStep(db, call, d, a);
  }

  // Both proofs of a reclaim name the instance the create job knows.
  lemma ReclaimEvidence(w: World, call: Call, a: Id)
    requires StopsAim(w.db) && Sound(w, call)
    requires a in w.db.allocations && w.db.allocations[a].create in w.db.jobs && Reclaims(w.db, call, a)
    ensures w.db.jobs[w.db.allocations[a].create].instance != ""
    ensures w.db.jobs[w.db.allocations[a].create].instance in w.reclaimed
  {
    hide PcOf;
    if call.CReport? {
      assert Aims(w.db, call.j);
    }
  }

  lemma ReclaimProven(w: World, site: Site, call: Call, d: Db, a: Id)
    requires Rooted(w.db) && StopsAim(w.db) && Sound(w, call) && Proven(w)
    requires JobsEvolve(w.db, site, call, d) && AllocationsEvolve(w.db, site, call, d)
    requires a in d.allocations && d.allocations[a].state.AReclaimed?
    ensures d.allocations[a].create in d.jobs && d.jobs[d.allocations[a].create].instance != ""
    ensures d.jobs[d.allocations[a].create].instance in w.reclaimed
  {
    var db := w.db;
    hide AllocationsEvolve, StopsAim, Sound, JobStep, NewJob, OpenStop, Reclaims;
    ReclaimCause(db, site, call, d, a);
    JobOfAllocation(db, a);
    hide Rooted;
    JobStays(db, site, call, d, db.allocations[a].create);
    if !db.allocations[a].state.AReclaimed? {
      ReclaimEvidence(w, call, a);
    }
  }

  lemma StoreKeeps(w: World, site: Site, call: Call)
    requires WorldInv(w) && Sound(w, call)
    ensures WorldInv(Next(w, Store(site, call)))
  {
    hide Coupled, Known, Proven, Sound, JobsEvolve, AllocationsEvolve, RequestsEvolve, StopsAim, ReleasedRejected, Exclusive;
    var d := Apply(w.db, site, call);
    CallKeepsInv(w.db, site, call);
    CallEvolves(w.db, site, call);
    StepStopsAim(w.db, site, call, d);
    StepExclusive(w.db, site, call, d);
    StepReleased(w.db, site, call, d);
    forall j ensures Known(Next(w, Store(site, call)), j) { StoreKnown(w, site, call, j); }
    StoreProven(w, site, call);
  }

  // ---- Core and worker steps ----

  lemma CoreKeeps(w: World, e: Event)
    requires WorldInv(w) && Enabled(w, e) && !e.Store?
    ensures WorldInv(Next(w, e))
  {
    hide Coupled, Rooted, StopsAim, ReleasedRejected, Exclusive, Known, Enabled, Next, Inv, Proven, Distinct;
    CoreRest(w, e);
    forall j ensures Known(Next(w, e), j) { CoreKnown(w, e, j); }
  }

  lemma CoreKnown(w: World, e: Event, j: Id)
    requires Known(w, j) && Enabled(w, e) && !e.Store?
    ensures Known(Next(w, e), j)
  {
    hide Truthful, Begins;
  }

  lemma CoreRest(w: World, e: Event)
    requires Proven(w) && Distinct(w) && Enabled(w, e) && !e.Store?
    ensures Proven(Next(w, e)) && Distinct(Next(w, e)) && Next(w, e).db == w.db
  {
  }

  lemma {:induction false} RunKeepsWorld(es: seq<Event>)
    requires Valid(es)
    ensures WorldInv(Reach(es))
  {
    assert WorldInv(START) by { assert Exec([]) == EMPTY; RunKeepsInv([]); }
    WorldGoesOn(START, es);
  }

  // The invariant is kept from any world that has it, however it was reached.
  lemma {:induction false} WorldGoesOn(w: World, es: seq<Event>)
    requires WorldInv(w) && RunsFrom(w, es)
    ensures WorldInv(From(w, es))
    decreases |es|
  {
    if es != [] {
      var m := es[..|es|-1];
      assert forall i :: 0 <= i < |m| ==> m[..i] == es[..i];
      WorldGoesOn(w, m);
      var e := es[|es|-1];
      assert Enabled(From(w, m), e);
      hide WorldInv, Enabled;
      StepKeepsWorld(From(w, m), e);
    }
  }

  lemma WorldKnown(w: World)
    requires WorldInv(w)
    ensures forall j :: Known(w, j)
  {
    hide Known, Inv, Proven, Distinct, Exclusive, StopsAim, ReleasedRejected;
  }

  lemma StepKeepsWorld(w: World, e: Event)
    requires WorldInv(w) && Enabled(w, e)
    ensures WorldInv(Next(w, e))
  {
    hide WorldInv;
    if e.Store? {
      assert Truthful(w, e.call);
      TruthfulSound(w, e.call) by { assert forall j :: Known(w, j) by { WorldKnown(w); } }
      StoreKeeps(w, e.site, e.call);
    } else {
      CoreKeeps(w, e);
    }
  }

  // In every state any run reaches: a server core made under a create job's key and has not fully
  // reclaimed belongs to an allocation that is neither reclaimed nor released.
  lemma NoLiveServerOutsideCapacity(es: seq<Event>)
    requires Valid(es)
    ensures Safe(Reach(es))
  {
    RunKeepsWorld(es);
    InvSafe(Reach(es));
  }

  lemma KnownInstance(w: World, j: Id)
    requires WorldInv(w) && j in w.db.jobs && w.db.jobs[j].instance != ""
    ensures w.db.jobs[j].alloc in w.db.allocations
    ensures var c := w.db.allocations[w.db.jobs[j].alloc].create;
            c in w.byKey && w.byKey[c] == w.db.jobs[j].instance && c in w.db.jobs && w.db.jobs[c].alloc == w.db.jobs[j].alloc
  {
    hide Coupled, Exclusive, ReleasedRejected, Proven, Distinct;
    var c := w.db.allocations[w.db.jobs[j].alloc].create;
    assert Known(w, c);
    assert w.db.jobs[j].kind.Stop? ==> Aims(w.db, j);
  }

  // No two unresolved jobs work on one core instance either.
  lemma InstancesExclusive(es: seq<Event>, j: Id, k: Id)
    requires Valid(es)
    requires var db := Reach(es).db;
             && j in db.jobs && k in db.jobs && InFlight(db.jobs[j].state) && InFlight(db.jobs[k].state)
             && db.jobs[j].instance != "" && db.jobs[j].instance == db.jobs[k].instance
    ensures j == k
  {
    RunKeepsWorld(es);
    KnownInstance(Reach(es), j);
    KnownInstance(Reach(es), k);
  }
}