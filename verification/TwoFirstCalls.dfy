/** Two workers that loaded one v1.0.2 job before anything was frozen for it may both make a first call.
    When the second one comes after core has forgotten the key, the job gets a second instance. */
module TwoFirstCalls {
  import opened Facts
  import opened Ledger
  import opened Calls
  import opened Retention

  const TERMS := Terms(30, 0, 0)
  const LATER := 1000 + 30 * DAY

  // One game in maintenance on one node, with facts that allow a validation run.
  const SITE := Site(
    1000, true,
    map[1 := Game(true, true, "c", "w")],
    map[1 := Preset(1, true, true, 10, "r", V102Contract)],
    map[1 := Node(true, true, false, 0, 1, 1, Some(1000), true, true, "s", true, None)],
    Facts(map[(1, 1) := ContentBinding(false, 1, 1, true, Some("c"), Some("h"), 1000)],
          map[(1, "r") := TemplateBinding("k", Some("f"), 1)],
          map[(1, "r") := TemplateFact(Some("k"), true, Some(MANIFEST_V1), Some("f"), 1, 1000)],
          map[(1, "s") := Inventory(true, true, 0, 1000)], map[1 := "s"], map[(1, "c") := "h"]),
    None, 600)

  const ASK := RunRequest(1, 1, 1, "c", "r", 1, "f")
  const REQUEST := Frozen("t", 0, ContentValidationV102, MANIFEST_V1, "f")
  const BEGIN := CBegin(1, 1, StartCreate(REQUEST), 2, 2)

  const TWO: seq<Event> := [
    Tick(1000),
    Platform(SITE, CReserveRun(ASK, 1, 1, 1)),
    Platform(SITE, CClaim(1, 1, false, ContentValidationV102)),
    Load(1, 1),
    Load(2, 1),
    Platform(SITE, CPrepare(1, 1, "t", 0, MANIFEST_V1, "f")),
    Platform(SITE, BEGIN),
    CoreCall(2, 1, false, 1000),
    Tick(LATER)]

  const LATE := CoreCall(1, 1, false, LATER)

  const CANDIDATE := Candidate(1, 1, 1, "c", "h", "r", "k", "f", 1, 1, 1, 1)
  const JOB := Job(1, Create, 1, ContentValidationV102, 1000, "k", Some(Expected("f", 1, "w", "c", "h")),
                   JPending, "", "", "", "", false, false)

  const RESERVED := EMPTY.(
    runs := map[1 := Run(CANDIDATE, 1, VCreatePending, HPending, false, false)],
    allocations := map[1 := Allocation(ForRun(1), 1, 1, 1, "c", "r", 1, AReserved, None, "", 1000)],
    jobs := map[1 := JOB])

  const CLAIMED := RESERVED.(jobs := map[1 := JOB.(state := JClaimed, everClaimed := true)])

  const PREPARED := CLAIMED.(
    frozen := map[1 := Execution(REQUEST, 1000)],
    runs := map[1 := Run(CANDIDATE, 1, VCreateObserving, HPending, false, false)],
    allocations := map[1 := Allocation(ForRun(1), 1, 1, 1, "c", "r", 1, ACreating, None, "", 1000)])

  const BEGUN := PREPARED.(
    jobs := map[1 := JOB.(state := JUnknown, everClaimed := true, reported := true)],
    runs := map[1 := Run(CANDIDATE, 1, VCreateUnknown, HPending, false, false)],
    allocations := map[1 := Allocation(ForRun(1), 1, 1, 1, "c", "r", 1, ACreateUnknown, None, "", 1000)])

  lemma ReservesOnce()
    ensures ReserveRun(EMPTY, SITE, ASK, 1, 1, 1) == Committed(RESERVED)
  {
    MayReserve();
    hide Reservable;
  }

  lemma Reserves()
    ensures Apply(EMPTY, SITE, CReserveRun(ASK, 1, 1, 1)) == RESERVED
  {
    ReservesOnce();
    hide ReserveRun;
  }

  lemma MayReserve()
    ensures Reservable(EMPTY, SITE, ASK)
  {
    assert Occupied(EMPTY, 1) == {};
  }

  lemma Claims()
    ensures Apply(RESERVED, SITE, CClaim(1, 1, false, ContentValidationV102)) == CLAIMED
  {
    assert forall k :: k in RESERVED.jobs ==> !Rival(RESERVED, 1, k);
    assert Claimable(RESERVED, SITE, 1, 1, false, ContentValidationV102);
  }

  lemma PreparesOnce()
    ensures Prepare(CLAIMED, SITE, 1, 1, "t", 0, MANIFEST_V1, "f") == Committed(PREPARED)
  {
    hide Advanced;
  }

  lemma Prepares()
    ensures Apply(CLAIMED, SITE, CPrepare(1, 1, "t", 0, MANIFEST_V1, "f")) == PREPARED
  {
    PreparesOnce();
    hide Prepare;
  }

  lemma Starts()
    ensures Begins(PREPARED, SITE, BEGIN) && Apply(PREPARED, SITE, BEGIN) == BEGUN
    ensures Begins(BEGUN, SITE, BEGIN) && Apply(BEGUN, SITE, BEGIN) == BEGUN
  {
    StartsOnce();
    StartsAgain();
    hide Begin;
  }

  // What the start of a claimed create job of a validation run leaves.
  function StartLeaves(db: Db, j: Id, a: Id, v: Id): Db
    requires j in db.jobs && a in db.allocations && v in db.runs
  {
    db.(jobs := db.jobs[j := db.jobs[j].(state := JUnknown, errorCode := "", errorStage := "", reported := true)],
        allocations := db.allocations[a := db.allocations[a].(state := ACreateUnknown)],
        runs := db.runs[v := db.runs[v].(state := VCreateUnknown)])
  }

  lemma StartReports(db: Db, site: Site, j: Id, a: Id, v: Id, stop: Id, next: Id)
    requires j in db.jobs && j in db.frozen && db.jobs[j].kind.Create? && db.jobs[j].state.JClaimed? && db.jobs[j].alloc == a
    requires a in db.allocations && db.allocations[a].create in db.jobs && db.allocations[a].purpose == ForRun(v)
    requires db.allocations[a].state.ACreating? && v in db.runs && db.runs[v].state.VCreateObserving?
    ensures ReportJob(db, site, db.jobs[j].node, j, STARTED, stop, next) == Committed(StartLeaves(db, j, a, v))
  {
    hide ConsumeFor, AutoStop, ModeOf, PausedFor, KeptJoin;
  }

  lemma StartsOnce()
    ensures Begin(PREPARED, SITE, 1, 1, StartCreate(REQUEST), 2, 2) == Committed(BEGUN)
  {
    StartReports(PREPARED, SITE, 1, 1, 1, 2, 2);
    hide ReportJob;
  }

  lemma StartsAgain()
    ensures Begin(BEGUN, SITE, 1, 1, StartCreate(REQUEST), 2, 2) == Committed(BEGUN)
  {
    hide ReportJob;
  }

  lemma More(i: nat)
    requires i < |TWO| && Valid(TERMS, TWO[..i]) && Enabled(TERMS, Reach(TWO[..i]), TWO[i])
    ensures Valid(TERMS, TWO[..i+1]) && Reach(TWO[..i+1]) == Next(Reach(TWO[..i]), TWO[i])
  {
    OneMore(TERMS, TWO[..i], TWO[i]);
    assert TWO[..i] + [TWO[i]] == TWO[..i+1];
  }

  lemma UntilClaimed()
    ensures Valid(TERMS, TWO[..3]) && Reach(TWO[..3]) == World(CLAIMED, 1000, map[], {}, {})
  {
    Reserves();
    Claims();
    hide Apply, Perform;
    assert TWO[..0] == [];
    More(0);
    More(1);
    More(2);
  }

  lemma UntilBegun()
    ensures Valid(TERMS, TWO[..7]) && Reach(TWO[..7]) == World(BEGUN, 1000, map[], {1}, {(1, 1), (2, 1)})
  {
    UntilClaimed();
    Prepares();
    Starts();
    hide Apply, Perform, Reach, Valid, Begins;
    More(3);
    More(4);
    More(5);
    More(6);
  }

  // The run is one the system allows. It leaves one instance, and a call the Platform would still let begin,
  // which core may answer with a second one.
  lemma TwoInstances()
    ensures Covered(TERMS) && Valid(TERMS, TWO) && Made(Reach(TWO), 1) == 1
    ensures Begins(Reach(TWO).db, SITE, BEGIN) && Enabled(TERMS, Reach(TWO), LATE) && LateFirst(TERMS, Reach(TWO), LATE)
    ensures Twice(TERMS, TWO, [Expire(1), LATE], 1)
  {
    UntilBegun();
    Starts();
    hide Apply, Perform, Reach, Valid, Begins;
    More(7);
    More(8);
    assert TWO[..9] == TWO;
    LateMakesTwo(TERMS, TWO, LATE);
  }
}
