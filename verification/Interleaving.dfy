/** What create does with others at work in between: an event it is ready for stays one the system allows. */
module Interleaving {
  import opened Facts
  import opened Ledger
  import opened Calls
  import opened Coupling
  import opened CouplingRuns
  import opened Evolution
  import opened EvolutionSteps
  import opened Lifecycle
  import opened Joint
  import opened CreateParts

  // What the worker and the Platform owe the event ...
  predicate Ready(w: World, e: Event) {
    match e
    case CoreCreates(j, instance) =>
      instance != "" && ((CreateOf(w.db, j, ContentValidationV102) && j in w.begun) || (CreateOf(w.db, j, LegacyV1) && j in w.sent))
    case Refuse(j) => PcOf(w, j).Waiting?
    case _ => Enabled(w, e)
  }

  // ... and what core owes it, at the moment it answers: a new instance is new, and it refuses only what it did not make.
  predicate CoreAnswers(w: World, e: Event) {
    match e
    case CoreCreates(j, instance) => instance !in w.byKey.Values && instance !in w.reclaimed && j !in w.byKey
    case Refuse(j) => j !in w.byKey
    case _ => true
  }

  // Not the one Controller of a legacy job at work on it.
  predicate Foreign(e: Event, j: Id) {
    match e
    case Store(_, call) => !Reports(call, j) && !(call.CPrepare? && call.j == j)
    case CoreCreates(_, _) => true
    case CoreReclaims(_) => true
    case Load(k) => k != j
    case Send(k) => k != j
    case Resend(k) => k != j
    case Refuse(k) => k != j
    case Forget(k) => k != j
  }

  // What others leave of the rows create reads: the job itself, if it is a legacy job at work, and whether it is frozen.
  ghost predicate RowStays(db: Db, d: Db, j: Id) {
    && j in db.jobs && j in d.jobs && d.jobs[j].kind == db.jobs[j].kind && d.jobs[j].capability == db.jobs[j].capability
    && (j in db.frozen ==> j in d.frozen)
  }

  ghost predicate LeftAlone(db: Db, d: Db, j: Id)
    requires RowStays(db, d, j)
  {
    && (InFlight(db.jobs[j].state) ==> d.jobs[j] == db.jobs[j])
    && (j in d.frozen ==> j in db.frozen)
  }

  lemma CallLeaves(db: Db, site: Site, call: Call, j: Id)
    requires Inv(db) && j in db.jobs
    ensures var d := Apply(db, site, call);
            RowStays(db, d, j) && (!Reports(call, j) && !(call.CPrepare? && call.j == j) ==> LeftAlone(db, d, j))
  {
    var d := Apply(db, site, call);
    CallEvolves(db, site, call);
    hide Apply, AllocationsEvolve, RequestsEvolve, JobsEvolve, Inv, Reports;
    StepKeeps(db, site, call, d);
    assert KeptJob(db.jobs[j], d.jobs[j]);
    if InFlight(db.jobs[j].state) && !Reports(call, j) { UnreportedStays(db, site, call, d, j); }
  }

  lemma EventLeaves(w: World, x: Event, j: Id)
    requires Inv(w.db) && j in w.db.jobs
    ensures var d := Next(w, x).db; Inv(d) && RowStays(w.db, d, j) && (Foreign(x, j) ==> LeftAlone(w.db, d, j))
  {
    hide Inv, Apply, Begins;
    if x.Store? {
      CallKeepsInv(w.db, x.site, x.call);
      CallLeaves(w.db, x.site, x.call, j);
    }
  }

  // What one event leaves of the world for job j.
  ghost predicate Leaves(w: World, n: World, j: Id, foreign: bool) {
    RowStays(w.db, n.db, j) && Grows(w, n, j, foreign) && (foreign ==> LeftAlone(w.db, n.db, j))
  }

  predicate Grows(w: World, n: World, j: Id, foreign: bool) {
    && w.begun <= n.begun && (j in w.byKey ==> j in n.byKey && n.byKey[j] == w.byKey[j])
    && (foreign ==> PcOf(n, j) == PcOf(w, j) && (j in w.sent ==> j in n.sent))
  }

  lemma EventGrows(w: World, x: Event, j: Id)
    requires Enabled(w, x)
    ensures Grows(w, Next(w, x), j, Foreign(x, j))
  {
    hide Apply, Begins, Truthful;
  }

  lemma WorldLeaves(w: World, x: Event, j: Id)
    requires Inv(w.db) && j in w.db.jobs && Enabled(w, x)
    ensures Inv(Next(w, x).db) && Leaves(w, Next(w, x), j, Foreign(x, j))
  {
    hide Inv, Next, Enabled, Foreign, RowStays, LeftAlone, Grows;
    EventLeaves(w, x, j);
    EventGrows(w, x, j);
  }

  lemma ReportStaysTruthful(w: World, n: World, call: Call, job: Loaded, foreign: bool)
    requires RowOf(w.db, job) && Leaves(w, n, job.id, foreign) && (job.capability.LegacyV1? ==> foreign)
    requires call.CReport? && call.j == job.id && Truthful(w, call)
    ensures Truthful(n, call)
  {
  }

  lemma NothingAsked(w: World, call: Call)
    requires call.CPrepare? || call.CBegin?
    ensures Truthful(w, call)
  {
  }

  lemma EventStaysReady(w: World, n: World, e: Event, job: Loaded, foreign: bool)
    requires RowOf(w.db, job) && Leaves(w, n, job.id, foreign) && (job.capability.LegacyV1? ==> foreign)
    requires OfCreate(e, job) && Ready(w, e)
    ensures RowOf(n.db, job) && Ready(n, e)
  {
    hide Truthful;
    match e
    case Store(_, call) =>
      if call.CReport? { ReportStaysTruthful(w, n, call, job, foreign); } else { NothingAsked(n, call); }
    case _ =>
  }

  lemma StepStaysReady(w: World, x: Event, e: Event, job: Loaded)
    requires Inv(w.db) && Enabled(w, x) && RowOf(w.db, job) && OfCreate(e, job) && Ready(w, e)
    requires job.capability.LegacyV1? ==> Foreign(x, job.id)
    ensures Inv(Next(w, x).db) && RowOf(Next(w, x).db, job) && Ready(Next(w, x), e)
  {
    WorldLeaves(w, x, job.id);
    hide Inv, Next, Foreign, Ready, Enabled, Leaves, OfCreate;
    EventStaysReady(w, Next(w, x), e, job, Foreign(x, job.id));
  }

  lemma {:induction false} StaysReady(w: World, es: seq<Event>, e: Event, job: Loaded)
    requires Inv(w.db) && RunsFrom(w, es) && RowOf(w.db, job) && OfCreate(e, job) && Ready(w, e)
    requires job.capability.LegacyV1? ==> forall x :: x in es ==> Foreign(x, job.id)
    ensures var n := From(w, es); Inv(n.db) && RowOf(n.db, job) && Ready(n, e)
    decreases |es|
  {
    hide Inv, RowOf, OfCreate, Ready, Foreign, Enabled, Next;
    if es != [] {
      var m := es[..|es|-1];
      forall i | 0 <= i < |m|
        ensures Enabled(From(w, m[..i]), m[i])
      {
        assert m[..i] == es[..i];
      }
      StaysReady(w, m, e, job);
      StepStaysReady(From(w, m), es[|es|-1], e, job);
    }
  }

  lemma ReadyAndAnswered(w: World, e: Event)
    ensures Enabled(w, e) <==> Ready(w, e) && CoreAnswers(w, e)
  {
    hide Truthful;
  }

  // Whatever others do before it, an event of create that was allowed is still allowed, once core keeps its own duty
  // at that moment. For v1.0.2 jobs others are everyone, other Controllers with the same job included; for legacy
  // jobs, everyone but the one Controller's own work on the job.
  lemma StaysEnabled(w: World, es: seq<Event>, e: Event, job: Loaded)
    requires Inv(w.db) && RunsFrom(w, es) && RowOf(w.db, job) && OfCreate(e, job) && Enabled(w, e)
    requires job.capability.LegacyV1? ==> forall x :: x in es ==> Foreign(x, job.id)
    requires CoreAnswers(From(w, es), e)
    ensures Enabled(From(w, es), e)
  {
    ReadyAndAnswered(w, e);
    hide Enabled, Ready, CoreAnswers, RowOf, OfCreate, Foreign, Inv, From, RunsFrom;
    StaysReady(w, es, e, job);
    ReadyAndAnswered(From(w, es), e);
  }
}
