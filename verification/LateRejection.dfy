/** Why a legacy rejection must not be applied late: exactly when it breaks the capacity promise in
    some continuation, and two runs of the system in which it would. */
module LateRejection {
  import opened Facts
  import opened Ledger
  import opened Calls
  import opened Coupling
  import opened CouplingSteps
  import opened CouplingRuns
  import opened Evolution
  import opened EvolutionSteps
  import opened Lifecycle
  import opened Exclusion
  import opened Joint

  // A rejection the store would accept for a legacy create.
  ghost predicate AcceptedRejection(db: Db, node: Id, j: Id, rep: Report) {
    && CreateOf(db, j, LegacyV1) && db.jobs[j].node == node && rep.state.JRejectedNoEffect?
    && ValidReport(rep) && ReportAllowed(db.jobs[j], j in db.frozen, rep) && !JobTerminal(db.jobs[j].state)
  }

  lemma RejectionReleases(db: Db, site: Site, node: Id, j: Id, rep: Report, stop: Id, next: Id)
    requires Inv(db) && AcceptedRejection(db, node, j, rep)
    ensures var d := Apply(db, site, CReport(node, j, rep, stop, next));
            var a := db.jobs[j].alloc;
            && a in d.allocations && Terminal(d.allocations[a].state)
            && (forall x :: x in db.allocations && x != a ==> x in d.allocations && d.allocations[x] == db.allocations[x])
  {
    hide Coupled, Rooted, ValidReport, ReportAllowed, OwnerOnly, OwnerAdvanced, RunsAfterJob, PausedFor;
    TakenRooted(db, j, rep);
    var d0 := Taken(db, j, rep);
    var job := db.jobs[j];
    ApplyReportRows(d0, site, job.alloc, Create, JRejectedNoEffect, Merge(job.instance, rep.instance), rep.errorCode,
                    rep.join, rep.joinError, stop, next);
  }

  // ---- Exactly when it is safe ----

  // Nothing the system may do from w on puts a live server outside capacity.
  ghost predicate SafeForever(w: World) {
    forall more :: RunsFrom(w, more) ==> Safe(From(w, more))
  }

  // Applied in any reachable state, an accepted legacy rejection keeps every continuation safe if and only if
  // core has no unreclaimed server under the job's key and no call that could still make one.
  lemma SafeIffHarmless(es: seq<Event>, site: Site, node: Id, j: Id, rep: Report, stop: Id, next: Id)
    requires Valid(es) && AcceptedRejection(Reach(es).db, node, j, rep)
    ensures SafeForever(Next(Reach(es), Store(site, CReport(node, j, rep, stop, next)))) <==> Harmless(Reach(es), j)
  {
    var w := Reach(es);
    var n := Next(w, Store(site, CReport(node, j, rep, stop, next)));
    RunKeepsWorld(es);
    hide Reach, WorldInv, AcceptedRejection, RunsFrom, From, Safe, Next;
    if Harmless(w, j) {
      HarmlessKeepsWorld(w, site, node, j, rep, stop, next);
      forall more | RunsFrom(n, more)
        ensures Safe(From(n, more))
      {
        WorldGoesOn(n, more);
        InvSafe(From(n, more));
      }
    } else {
      HarmfulBreaks(w, site, node, j, rep, stop, next);
    }
  }

  lemma HarmlessKeepsWorld(w: World, site: Site, node: Id, j: Id, rep: Report, stop: Id, next: Id)
    requires WorldInv(w) && AcceptedRejection(w.db, node, j, rep) && Harmless(w, j)
    ensures WorldInv(Next(w, Store(site, CReport(node, j, rep, stop, next))))
  {
    hide WorldInv, Harmless, ValidReport;
    StoreKeeps(w, site, CReport(node, j, rep, stop, next));
  }

  // Otherwise some continuation of at most one event of core ends with a live server on released capacity.
  lemma HarmfulBreaks(w: World, site: Site, node: Id, j: Id, rep: Report, stop: Id, next: Id)
    requires WorldInv(w) && AcceptedRejection(w.db, node, j, rep) && !Harmless(w, j)
    ensures var n := Next(w, Store(site, CReport(node, j, rep, stop, next)));
            exists more :: RunsFrom(n, more) && Live(From(n, more), j) && !Safe(From(n, more))
  {
    ReleasedAfter(w, site, node, j, rep, stop, next);
    hide WorldInv, AcceptedRejection, Apply, Begins, Reserved, RunsFrom, From, Safe, Live;
    BreaksFrom(Next(w, Store(site, CReport(node, j, rep, stop, next))), j);
  }

  lemma BreaksFrom(n: World, j: Id)
    requires CreateOf(n.db, j, LegacyV1) && !Reserved(n.db, j) && !Harmless(n, j)
    ensures exists more :: RunsFrom(n, more) && Live(From(n, more), j) && !Safe(From(n, more))
  {
    hide Reserved, RunsFrom, From, Safe, Enabled;
    NoMore(n);
    if j in n.byKey {
      LiveUnsafe(n, j);
    } else {
      var t := NewToken(n.byKey.Values + n.reclaimed);
      var e := CoreCreates(j, t);
      MayCreate(n, j, t);
      OneMoreEvent(n, [], e);
      assert [] + [e] == [e];
      LiveUnsafe(From(n, [e]), j);
    }
  }

  lemma MayCreate(n: World, j: Id, t: Token)
    requires CreateOf(n.db, j, LegacyV1) && j in n.sent && j !in n.byKey && t != "" && t !in n.byKey.Values && t !in n.reclaimed
    ensures Enabled(n, CoreCreates(j, t))
  {
  }

  lemma LiveUnsafe(n: World, j: Id)
    requires Live(n, j) && !Reserved(n.db, j)
    ensures !Safe(n)
  {
  }

  lemma NoMore(w: World)
    ensures From(w, []) == w && RunsFrom(w, [])
  {
  }

  lemma ReleasedAfter(w: World, site: Site, node: Id, j: Id, rep: Report, stop: Id, next: Id)
    requires WorldInv(w) && AcceptedRejection(w.db, node, j, rep)
    ensures var d := Apply(w.db, site, CReport(node, j, rep, stop, next));
            CreateOf(d, j, LegacyV1) && !Reserved(d, j)
  {
    var call := CReport(node, j, rep, stop, next);
    var d := Apply(w.db, site, call);
    hide Exclusive, StopsAim, ReleasedRejected, Known, Proven, Distinct, ReportAllowed, ValidReport, Coupled, Rooted;
    RejectionReleases(w.db, site, node, j, rep, stop, next);
    CallEvolves(w.db, site, call);
    hide Apply, AllocationsEvolve, RequestsEvolve, JobsEvolve;
    StepKeeps(w.db, site, call, d);
    assert KeptJob(w.db.jobs[j], d.jobs[j]);
  }

  // Core can always name a new instance.
  lemma NewToken(used: set<Token>) returns (t: Token)
    ensures t != "" && t !in used
  {
    var n := Longest(used);
    t := seq(n + 1, _ => 'a');
  }

  lemma {:induction false} Longest(used: set<Token>) returns (n: nat)
    ensures forall t :: t in used ==> |t| <= n
    decreases |used|
  {
    n := 0;
    if used != {} {
      var t :| t in used;
      n := Longest(used - {t});
      if |t| > n { n := |t|; }
    }
  }

  // What the worker knows is enough: core refused its one call, or nothing was frozen for it to call with.
  lemma GuardIsHarmless(es: seq<Event>, j: Id)
    requires Valid(es) && (PcOf(Reach(es), j).Refused? || (PcOf(Reach(es), j).First? && j !in Reach(es).db.frozen))
    ensures Harmless(Reach(es), j)
  {
    RunKeepsWorld(es);
    WorldKnown(Reach(es));
    assert Known(Reach(es), j);
  }

  // ---- A run with a lost answer ----

  // One legacy game on one node with room for one server.
  const SITE := Site(
    1000, true,
    map[1 := Game(true, true, "c", "w")],
    map[1 := Preset(1, true, true, 10, "r", LegacyContract)],
    map[1 := Node(true, true, false, 0, 1, 1, Some(1000), true, true, "s", true, None)],
    Facts(map[(1, 1) := ContentBinding(true, 1, 1, true, Some("c"), Some("h"), 1000)],
          map[(1, "r") := TemplateBinding("k", None, 1)], map[], map[], map[], map[]),
    None, 600)

  // The server is asked for and made, but the answer never reaches the Controller.
  const LOST: seq<Event> := [
    Store(SITE, CNewRequest(1, 1, 1, Auto, 1)),
    Store(SITE, CPlace(1, 1, 1, 1)),
    Store(SITE, CClaim(1, 1, false, LegacyV1)),
    Load(1),
    Store(SITE, CPrepare(1, 1, "t", 0, "", "")),
    Send(1),
    CoreCreates(1, "i")]

  const ASKED := EMPTY.(requests := map[1 := Request(Solo(1), 1, 1, Auto, 1000, RWaiting)])

  const JOB := Job(1, Create, 1, LegacyV1, 1000, "k", None, JPending, "", "", "", "", false, false)

  const PLACED := ASKED.(
    requests := map[1 := Request(Solo(1), 1, 1, Auto, 1000, RAllocating)],
    allocations := map[1 := Allocation(ForRequest(1), 1, 1, 1, "c", "r", 1, AReserved, None, "", 1000)],
    jobs := map[1 := JOB])

  const CLAIMED := PLACED.(jobs := map[1 := JOB.(state := JClaimed, everClaimed := true)])

  const PREPARED := CLAIMED.(
    frozen := map[1 := Execution(Frozen("t", 0, LegacyV1, "", ""), 1000)],
    requests := map[1 := Request(Solo(1), 1, 1, Auto, 1000, RCreating)],
    allocations := map[1 := Allocation(ForRequest(1), 1, 1, 1, "c", "r", 1, ACreating, None, "", 1000)])

  lemma Asks()
    ensures Apply(EMPTY, SITE, CNewRequest(1, 1, 1, Auto, 1)) == ASKED
  {
    assert !Busy(EMPTY, Solo(1));
  }

  lemma Places()
    ensures Apply(ASKED, SITE, CPlace(1, 1, 1, 1)) == PLACED
  {
    PlacesOne();
    hide Place;
  }

  lemma PlacesOne()
    ensures Place(ASKED, SITE, 1, 1, 1, 1) == Committed(PLACED)
  {
    RoomForOne();
    assert Attempts(ASKED, 1) == {};
    hide Placeable, Attempts;
    assert MaxAttempt(ASKED, {}) == 0;
    assert ExpectedOf(SITE, ASKED.requests[1], 1) == None;
  }

  lemma RoomForOne()
    ensures Placeable(ASKED, SITE, 1, 1)
  {
    assert Occupied(ASKED, 1) == {};
    assert !Released(ASKED, 1, 1);
    assert NodeReason(ASKED, SITE, 1, 1, "r", "c").Available?;
  }

  lemma Claims()
    ensures Apply(PLACED, SITE, CClaim(1, 1, false, LegacyV1)) == CLAIMED
  {
    assert forall k :: k in PLACED.jobs ==> !Rival(PLACED, 1, k);
    assert Claimable(PLACED, SITE, 1, 1, false, LegacyV1);
  }

  lemma Prepares()
    ensures Apply(CLAIMED, SITE, CPrepare(1, 1, "t", 0, "", "")) == PREPARED
  {
  }

  const BEFORE := Report(JRejectedNoEffect, "", "", "BUSY", "", None, "")

  // The lost run is one the system allows; it leaves a live server, and the store would still
  // accept the refusal of an earlier attempt. Applying it then gives the capacity away.
  lemma LateRejectionBreaks()
    ensures Valid(LOST) && Live(Reach(LOST), 1) && AcceptedRejection(Reach(LOST).db, 1, 1, BEFORE)
    ensures !Safe(Next(Reach(LOST), Store(SITE, CReport(1, 1, BEFORE, 2, 2))))
  {
    LostRun();
    RunKeepsWorld(LOST);
    hide Valid, Reach, WorldInv;
    ReleasedAfter(Reach(LOST), SITE, 1, 1, BEFORE, 2, 2);
    hide Apply;
    assert Live(Next(Reach(LOST), Store(SITE, CReport(1, 1, BEFORE, 2, 2))), 1);
  }

  // One event earlier the call is still on its way. The same refusal leaves a safe state, and the call then
  // makes a server outside capacity.
  lemma InFlightRejectionBreaks()
    ensures Valid(LOST[..6]) && !Live(Reach(LOST[..6]), 1) && AcceptedRejection(Reach(LOST[..6]).db, 1, 1, BEFORE)
    ensures var n := Next(Reach(LOST[..6]), Store(SITE, CReport(1, 1, BEFORE, 2, 2)));
            Safe(n) && Enabled(n, CoreCreates(1, "i")) && !Safe(Next(n, CoreCreates(1, "i")))
  {
    LostSent();
    var w := Reach(LOST[..6]);
    RunKeepsWorld(LOST[..6]);
    hide Valid, Reach, WorldInv;
    ReleasedAfter(w, SITE, 1, 1, BEFORE, 2, 2);
    hide Apply, Begins, AcceptedRejection;
    var n := Next(w, Store(SITE, CReport(1, 1, BEFORE, 2, 2)));
    assert CreateOf(n.db, 1, LegacyV1) && !Reserved(n.db, 1) && n.byKey == map[] && n.reclaimed == {} && n.sent == {1};
    InFlightEnds(n);
  }

  lemma InFlightEnds(n: World)
    requires CreateOf(n.db, 1, LegacyV1) && !Reserved(n.db, 1) && n.byKey == map[] && n.reclaimed == {} && n.sent == {1}
    ensures Safe(n) && Enabled(n, CoreCreates(1, "i")) && !Safe(Next(n, CoreCreates(1, "i")))
  {
    hide Reserved;
    assert forall k :: !Live(n, k);
    assert Live(Next(n, CoreCreates(1, "i")), 1);
  }

  lemma RunStep(es: seq<Event>, e: Event)
    requires Valid(es) && Enabled(Reach(es), e)
    ensures Valid(es + [e]) && Reach(es + [e]) == Next(Reach(es), e)
  {
    OneMoreEvent(START, es, e);
  }

  lemma LostClaimed()
    ensures Valid(LOST[..3]) && Reach(LOST[..3]).db == CLAIMED
    ensures var w := Reach(LOST[..3]); w.byKey == map[] && w.reclaimed == {} && w.sent == {} && w.pc == map[]
  {
    Asks();
    Places();
    Claims();
    hide Apply, Perform;
    assert LOST[..0] == [];
    RunStep(LOST[..0], LOST[0]);
    Extends(0);
    RunStep(LOST[..1], LOST[1]);
    Extends(1);
    RunStep(LOST[..2], LOST[2]);
    Extends(2);
  }

  lemma LostPrepared()
    ensures Valid(LOST[..5]) && Reach(LOST[..5]).db == PREPARED
    ensures var w := Reach(LOST[..5]); w.byKey == map[] && w.reclaimed == {} && w.sent == {} && w.pc == map[1 := First]
  {
    LostClaimed();
    Prepares();
    hide Apply, Perform, Reach, Valid;
    RunStep(LOST[..3], LOST[3]);
    Extends(3);
    RunStep(LOST[..4], LOST[4]);
    Extends(4);
  }

  lemma LostSent()
    ensures Valid(LOST[..6]) && Reach(LOST[..6]).db == PREPARED && AcceptedRejection(PREPARED, 1, 1, BEFORE)
    ensures var w := Reach(LOST[..6]); w.byKey == map[] && w.reclaimed == {} && w.sent == {1}
  {
    LostPrepared();
    hide Apply, Perform, Reach, Valid;
    RunStep(LOST[..5], LOST[5]);
    Extends(5);
  }

  lemma LostRun()
    ensures Valid(LOST) && AcceptedRejection(Reach(LOST).db, 1, 1, BEFORE) && Live(Reach(LOST), 1)
  {
    LostSent();
    hide Apply, Perform, AcceptedRejection, Reach, Valid;
    RunStep(LOST[..6], LOST[6]);
    Extends(6);
    assert LOST[..7] == LOST;
  }

  lemma Extends(i: nat)
    requires i < |LOST|
    ensures LOST[..i] + [LOST[i]] == LOST[..i+1]
  {
  }
}
