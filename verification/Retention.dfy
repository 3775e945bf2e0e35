/** Core keeps an idempotency key only for some days. When a repeated create call may still trust its key,
    over runs of the Platform, several Controllers and a core that forgets, with clocks that disagree. */
module Retention {
  import opened Facts
  import opened Ledger
  import opened Calls
  import opened Coupling
  import opened CouplingRuns
  import opened Evolution
  import opened EvolutionSteps
  import opened Lifecycle

  const HOUR := 3600
  const DAY := 24 * HOUR

  // withinCoreHistory, in seconds: an hour is held back for clocks that disagree and calls that take time.
  predicate WithinHistory(preparedAt: int, historyDays: int, now: int) {
    preparedAt > 0 && historyDays >= 1 && preparedAt <= now + 60 && now - preparedAt < historyDays * DAY - HOUR
  }

  // `ahead`: how far the Platform's clock may be ahead of core's when a request is frozen. `late`: how long
  // after the Controller read its clock a call may reach core, the Controller's own lag included.
  datatype Terms = Terms(days: int, ahead: int, late: int)

  // The reserved hour covers both.
  predicate Covered(p: Terms) {
    p.days >= 1 && p.ahead >= 0 && p.late >= 0 && p.ahead + p.late <= HOUR
  }

  // What core did under a key: how many instances it made, when the last one, and whether it still knows.
  datatype Key = Key(made: nat, since: int, kept: bool)

  datatype World = World(
    db: Db,
    now: int,                 // core's clock
    keys: map<Id, Key>,       // by create job
    begun: set<Id>,           // create jobs whose operation start the Platform has committed
    firsts: set<(Id, Id)>)    // worker and job: loaded before anything was frozen, and not called yet

  datatype Event =
    | Tick(to: int)
    | Platform(site: Site, call: Call)
    | Load(worker: Id, j: Id)
    | Forget(worker: Id, j: Id)
    | CoreCall(worker: Id, j: Id, retrying: bool, clock: int)
    | Expire(j: Id)

  predicate IsCreate(db: Db, j: Id) {
    j in db.jobs && db.jobs[j].kind.Create?
  }

  predicate IsLegacy(db: Db, j: Id) {
    IsCreate(db, j) && db.jobs[j].capability.LegacyV1?
  }

  // A legacy job has one Controller, which has one worker on it.
  ghost predicate NoneFirst(w: World, j: Id) {
    forall x :: (x, j) !in w.firsts
  }

  ghost predicate Enabled(p: Terms, w: World, e: Event) {
    match e
    case Tick(to) => to >= w.now
    case Platform(site, call) => call.CPrepare? ==> site.now <= w.now + p.ahead
    case Load(worker, j) =>
      IsCreate(w.db, j) && w.db.jobs[j].state.JClaimed? && j !in w.db.frozen && (IsLegacy(w.db, j) ==> NoneFirst(w, j))
    case Forget(worker, j) => true
    case CoreCall(worker, j, retrying, clock) =>
      && IsCreate(w.db, j) && j in w.db.frozen && (IsLegacy(w.db, j) || j in w.begun)
      && w.now - clock <= p.late
      && (if retrying then WithinHistory(w.db.frozen[j].preparedAt, p.days, clock) && (IsLegacy(w.db, j) ==> NoneFirst(w, j))
          else (worker, j) in w.firsts)
    case Expire(j) => j in w.keys && w.now >= w.keys[j].since + p.days * DAY
  }

  function Asked(w: World, j: Id): Key {
    if j !in w.keys then Key(1, w.now, true)
    else if w.keys[j].kept then w.keys[j]
    else Key(w.keys[j].made + 1, w.now, true)
  }

  ghost function Next(w: World, e: Event): World {
    match e
    case Tick(to) => w.(now := to)
    case Platform(site, call) =>
      w.(db := Apply(w.db, site, call), begun := if Begins(w.db, site, call) then w.begun + {call.j} else w.begun)
    case Load(worker, j) => w.(firsts := w.firsts + {(worker, j)})
    case Forget(worker, j) => w.(firsts := w.firsts - {(worker, j)})
    case CoreCall(worker, j, retrying, clock) => w.(keys := w.keys[j := Asked(w, j)], firsts := w.firsts - {(worker, j)})
    case Expire(j) => if j in w.keys then w.(keys := w.keys[j := w.keys[j].(kept := false)]) else w
  }

  const START := World(EMPTY, 0, map[], {}, {})

  ghost function Reach(es: seq<Event>): World {
    if es == [] then START else Next(Reach(es[..|es|-1]), es[|es|-1])
  }

  ghost predicate Valid(p: Terms, es: seq<Event>) {
    forall i :: 0 <= i < |es| ==> Enabled(p, Reach(es[..i]), es[i])
  }

  function Made(w: World, j: Id): nat {
    if j in w.keys then w.keys[j].made else 0
  }

  // ---- The invariant ----

  ghost predicate Timed(p: Terms, w: World, j: Id) {
    && (j in w.db.frozen ==> IsCreate(w.db, j) && w.db.frozen[j].preparedAt <= w.now + p.ahead)
    && (j in w.keys ==>
          var k := w.keys[j];
          && j in w.db.frozen && w.db.frozen[j].preparedAt <= k.since + p.ahead && k.since <= w.now
          && (w.now < k.since + p.days * DAY ==> k.kept) && k.made >= 1
          && (IsLegacy(w.db, j) ==> NoneFirst(w, j)))
    && (forall x :: (x, j) in w.firsts ==> IsCreate(w.db, j))
    && (forall x, y :: (x, j) in w.firsts && (y, j) in w.firsts && IsLegacy(w.db, j) ==> x == y)
  }

  ghost predicate WorldTimed(p: Terms, w: World) {
    Inv(w.db) && forall j :: Timed(p, w, j)
  }

  lemma PlatformTimed(p: Terms, w: World, site: Site, call: Call, j: Id)
    requires Inv(w.db) && Timed(p, w, j) && Enabled(p, w, Platform(site, call))
    ensures Timed(p, Next(w, Platform(site, call)), j)
  {
    hide Inv, Apply, Begins, Timed;
    var d := Apply(w.db, site, call);
    CallEvolves(w.db, site, call);
    hide AllocationsEvolve, RequestsEvolve, JobsEvolve, FrozenEvolve;
    StepKeeps(w.db, site, call, d);
    assert j in w.db.jobs ==> KeptJob(w.db.jobs[j], d.jobs[j]);
    TimedAfter(p, w, Next(w, Platform(site, call)), site, call, j);
  }

  lemma TimedAfter(p: Terms, w: World, n: World, site: Site, call: Call, j: Id)
    requires Timed(p, w, j) && FrozenEvolve(w.db, site, call, n.db) && (call.CPrepare? ==> site.now <= w.now + p.ahead)
    requires n.now == w.now && n.keys == w.keys && n.firsts == w.firsts
    requires j in w.db.jobs ==> j in n.db.jobs && SameJob(n.db.jobs[j], w.db.jobs[j])
    ensures Timed(p, n, j)
  {
    hide NoneFirst;
    assert NoneFirst(n, j) <==> NoneFirst(w, j) by { FirstsAgree(w, n, j); }
  }

  lemma FirstsAgree(w: World, n: World, j: Id)
    requires n.firsts == w.firsts
    ensures NoneFirst(n, j) <==> NoneFirst(w, j)
  {
  }

  lemma OtherTimed(p: Terms, w: World, e: Event, j: Id)
    requires Timed(p, w, j) && Enabled(p, w, e) && !e.Platform?
    ensures Timed(p, Next(w, e), j)
  {
  }

  lemma StepTimed(p: Terms, w: World, e: Event)
    requires WorldTimed(p, w) && Enabled(p, w, e)
    ensures WorldTimed(p, Next(w, e))
  {
    hide Inv, Timed, Enabled, Apply, Begins;
    if e.Platform? { CallKeepsInv(w.db, e.site, e.call); }
    forall j
      ensures Timed(p, Next(w, e), j)
    {
      if e.Platform? { PlatformTimed(p, w, e.site, e.call, j); } else { OtherTimed(p, w, e, j); }
    }
  }

  lemma {:induction false} RunTimed(p: Terms, es: seq<Event>)
    requires Valid(p, es)
    ensures WorldTimed(p, Reach(es))
    decreases |es|
  {
    if es == [] {
      assert Inv(EMPTY) by { assert Exec([]) == EMPTY; RunKeepsInv([]); }
    } else {
      var m := es[..|es|-1];
      assert forall i :: 0 <= i < |m| ==> m[..i] == es[..i];
      RunTimed(p, m);
      assert Enabled(p, Reach(m), es[|es|-1]);
      hide WorldTimed, Enabled;
      StepTimed(p, Reach(m), es[|es|-1]);
    }
  }

  // ---- Which calls can meet a forgotten key ----

  // A call that no repeat window covers, made when the key may be gone.
  predicate LateFirst(p: Terms, w: World, e: Event) {
    e.CoreCall? && !e.retrying && e.j in w.keys && w.now >= w.keys[e.j].since + p.days * DAY
  }

  // The events f, added to the run, leave the job with two instances.
  ghost predicate Twice(p: Terms, es: seq<Event>, f: seq<Event>, j: Id) {
    Valid(p, es + f) && Made(Reach(es + f), j) == 2
  }

  // In every reachable world, a call can make a second instance for its job, at once or after core has forgotten
  // the key it may forget, if and only if it is a late first call. Repeats never can.
  lemma SecondInstanceIff(p: Terms, es: seq<Event>, e: Event)
    requires Covered(p) && Valid(p, es) && e.CoreCall? && Enabled(p, Reach(es), e) && Made(Reach(es), e.j) == 1
    ensures Twice(p, es, [e], e.j) || Twice(p, es, [Expire(e.j), e], e.j) <==> LateFirst(p, Reach(es), e)
  {
    RunTimed(p, es);
    assert Timed(p, Reach(es), e.j);
    hide WorldTimed, Timed, Valid, Reach;
    if LateFirst(p, Reach(es), e) {
      LateMakesTwo(p, es, e);
    } else {
      InTimeMakesNone(p, es, e);
    }
  }

  lemma ForgottenThenCalled(p: Terms, w: World, e: Event)
    requires e.CoreCall? && Enabled(p, w, e) && Made(w, e.j) == 1 && LateFirst(p, w, e)
    ensures Enabled(p, w, Expire(e.j)) && Enabled(p, Next(w, Expire(e.j)), e) && Made(Next(Next(w, Expire(e.j)), e), e.j) == 2
  {
    hide WithinHistory, NoneFirst, IsLegacy, IsCreate;
  }

  lemma LateMakesTwo(p: Terms, es: seq<Event>, e: Event)
    requires Valid(p, es) && e.CoreCall? && Enabled(p, Reach(es), e) && Made(Reach(es), e.j) == 1 && LateFirst(p, Reach(es), e)
    ensures Twice(p, es, [Expire(e.j), e], e.j)
  {
    var x, w := Expire(e.j), Reach(es);
    ForgottenThenCalled(p, w, e);
    hide Valid, Reach, Enabled, Next, LateFirst;
    OneMore(p, es, x);
    OneMore(p, es + [x], e);
    assert es + [x] + [e] == es + [x, e];
  }

  // In time, as every repeat is that the runner's window admits, the key cannot have been forgotten and cannot be.
  lemma InTimeMakesNone(p: Terms, es: seq<Event>, e: Event)
    requires e.CoreCall? && Covered(p) && Valid(p, es) && Enabled(p, Reach(es), e) && Made(Reach(es), e.j) == 1
    requires Timed(p, Reach(es), e.j) && !LateFirst(p, Reach(es), e)
    ensures !Twice(p, es, [e], e.j) && !Twice(p, es, [Expire(e.j), e], e.j)
  {
    hide Valid, Reach, Timed;
    var w := Reach(es);
    InTime(p, w, e);
    assert !Enabled(p, w, Expire(e.j));
    assert Made(Next(w, e), e.j) == 1;
    hide Enabled, Next;
    OneMore(p, es, e);
    OneMore(p, es, Expire(e.j));
    OneMore(p, es + [Expire(e.j)], e);
    assert es + [Expire(e.j)] + [e] == es + [Expire(e.j), e];
  }

  lemma InTime(p: Terms, w: World, e: Event)
    requires e.CoreCall? && Covered(p) && Timed(p, w, e.j) && Enabled(p, w, e) && e.j in w.keys && !LateFirst(p, w, e)
    ensures w.keys[e.j].kept && w.now < w.keys[e.j].since + p.days * DAY
  {
  }

  lemma OneMore(p: Terms, es: seq<Event>, e: Event)
    ensures Reach(es + [e]) == Next(Reach(es), e)
    ensures Valid(p, es) && Enabled(p, Reach(es), e) ==> Valid(p, es + [e])
    ensures Valid(p, es + [e]) ==> Valid(p, es) && Enabled(p, Reach(es), e)
  {
    var f := es + [e];
    assert f[..|es|] == es && f[|es|] == e;
    hide Enabled, Next;
    if Valid(p, es) && Enabled(p, Reach(es), e) {
      forall i | 0 <= i < |f|
        ensures Enabled(p, Reach(f[..i]), f[i])
      {
        if i < |es| { assert f[..i] == es[..i]; }
      }
    }
    if Valid(p, f) {
      assert Enabled(p, Reach(f[..|es|]), f[|es|]);
      forall i | 0 <= i < |es|
        ensures Enabled(p, Reach(es[..i]), es[i])
      {
        assert f[..i] == es[..i] && f[i] == es[i];
      }
    }
  }

  // ---- Over whole runs ----

  // Somewhere in the run a first call of job j came later than core has to remember.
  ghost predicate HasLateFirst(p: Terms, es: seq<Event>, j: Id) {
    exists i :: 0 <= i < |es| && es[i].CoreCall? && es[i].j == j && LateFirst(p, Reach(es[..i]), es[i])
  }

  // Without one, all the calls made for a job, by any workers and however often repeated, make one instance.
  lemma {:induction false} OneInstancePerJob(p: Terms, es: seq<Event>, j: Id)
    requires Covered(p) && Valid(p, es) && !HasLateFirst(p, es, j)
    ensures Made(Reach(es), j) <= 1
    decreases |es|
  {
    if es != [] {
      var m, e := es[..|es|-1], es[|es|-1];
      assert es == m + [e];
      OneMore(p, m, e);
      EarlierLate(p, m, e, j);
      OneInstancePerJob(p, m, j);
      RunTimed(p, m);
      assert Timed(p, Reach(m), j);
      assert e.CoreCall? && e.j == j ==> !LateFirst(p, Reach(m), e);
      hide WorldTimed, Timed, Valid, Reach, HasLateFirst;
      StillOne(p, Reach(m), e, j);
    }
  }

  lemma EarlierLate(p: Terms, m: seq<Event>, e: Event, j: Id)
    requires !HasLateFirst(p, m + [e], j)
    ensures !HasLateFirst(p, m, j) && (e.CoreCall? && e.j == j ==> !LateFirst(p, Reach(m), e))
  {
    var es := m + [e];
    assert es[..|m|] == m && es[|m|] == e;
    forall i | 0 <= i < |m| && m[i].CoreCall? && m[i].j == j
      ensures !LateFirst(p, Reach(m[..i]), m[i])
    {
      assert es[..i] == m[..i] && es[i] == m[i];
    }
  }

  lemma StillOne(p: Terms, w: World, e: Event, j: Id)
    requires Covered(p) && Timed(p, w, j) && Enabled(p, w, e) && Made(w, j) <= 1
    requires e.CoreCall? && e.j == j ==> !LateFirst(p, w, e)
    ensures Made(Next(w, e), j) <= 1
  {
    if e.CoreCall? && e.j == j && j in w.keys {
      InTime(p, w, e);
    }
    hide Timed, Enabled, Apply, Begins;
  }

  // A legacy job has no late first call: its one Controller calls first before it repeats.
  lemma LegacyHasNoLateFirst(p: Terms, es: seq<Event>, j: Id)
    requires Valid(p, es) && IsLegacy(Reach(es).db, j)
    ensures !HasLateFirst(p, es, j)
  {
    forall i | 0 <= i < |es| && es[i].CoreCall? && es[i].j == j
      ensures !LateFirst(p, Reach(es[..i]), es[i])
    {
      Prefix(p, es, i);
      RunTimed(p, es[..i]);
      assert Timed(p, Reach(es[..i]), j);
      assert Enabled(p, Reach(es[..i]), es[i]);
      SameCapability(p, es, i, j);
    }
  }

  lemma Prefix(p: Terms, es: seq<Event>, i: nat)
    requires Valid(p, es) && i <= |es|
    ensures Valid(p, es[..i])
  {
    forall k | 0 <= k < i
      ensures Enabled(p, Reach(es[..i][..k]), es[..i][k])
    {
      assert es[..i][..k] == es[..k];
    }
  }

  lemma {:induction false} SameCapability(p: Terms, es: seq<Event>, i: nat, j: Id)
    requires Valid(p, es) && i <= |es| && IsCreate(Reach(es[..i]).db, j)
    ensures IsCreate(Reach(es).db, j) && Reach(es).db.jobs[j].capability == Reach(es[..i]).db.jobs[j].capability
    decreases |es|
  {
    hide Valid, Reach, IsCreate;
    if i == |es| {
      assert es[..i] == es;
    } else {
      var m := es[..|es|-1];
      assert es == m + [es[|es|-1]] && m[..i] == es[..i];
      CapabilityStays(p, m, es[|es|-1], j);
      SameCapability(p, m, i, j);
    }
  }

  lemma CapabilityStays(p: Terms, es: seq<Event>, e: Event, j: Id)
    requires Valid(p, es + [e])
    ensures Valid(p, es)
    ensures IsCreate(Reach(es).db, j) ==>
      IsCreate(Reach(es + [e]).db, j) && Reach(es + [e]).db.jobs[j].capability == Reach(es).db.jobs[j].capability
  {
    hide Valid, Reach, WorldTimed, Enabled, Next, IsCreate;
    OneMore(p, es, e);
    RunTimed(p, es);
    if IsCreate(Reach(es).db, j) { KeepsCapability(p, Reach(es), e, j); }
  }

  lemma KeepsCapability(p: Terms, w: World, e: Event, j: Id)
    requires WorldTimed(p, w) && IsCreate(w.db, j)
    ensures var d := Next(w, e).db; IsCreate(d, j) && d.jobs[j].capability == w.db.jobs[j].capability
  {
    hide Inv, Timed, Apply, Begins;
    if e.Platform? {
      var d := Apply(w.db, e.site, e.call);
      CallEvolves(w.db, e.site, e.call);
      hide AllocationsEvolve, RequestsEvolve, JobsEvolve, FrozenEvolve;
      StepKeeps(w.db, e.site, e.call, d);
      assert KeptJob(w.db.jobs[j], d.jobs[j]);
    }
  }

  lemma LegacyMakesOne(p: Terms, es: seq<Event>, j: Id)
    requires Covered(p) && Valid(p, es) && IsLegacy(Reach(es).db, j)
    ensures Made(Reach(es), j) <= 1
  {
    LegacyHasNoLateFirst(p, es, j);
    OneInstancePerJob(p, es, j);
  }

  // The guard the runner applies to repeats would be enough for first calls too ...
  lemma WindowPrevents(p: Terms, es: seq<Event>, e: Event)
    requires Covered(p) && Valid(p, es) && e.CoreCall? && Enabled(p, Reach(es), e)
    requires WithinHistory(Reach(es).db.frozen[e.j].preparedAt, p.days, e.clock)
    ensures !LateFirst(p, Reach(es), e)
  {
    RunTimed(p, es);
    assert Timed(p, Reach(es), e.j);
  }

  // ... so it is enough that every call for the job, the first ones included, is made within history by the
  // caller's own clock and the preparation time the Platform shows it.
  ghost predicate AllWithin(p: Terms, es: seq<Event>, j: Id) {
    forall i :: 0 <= i < |es| && es[i].CoreCall? && es[i].j == j ==>
      j in Reach(es[..i]).db.frozen && WithinHistory(Reach(es[..i]).db.frozen[j].preparedAt, p.days, es[i].clock)
  }

  lemma WithinMakesOne(p: Terms, es: seq<Event>, j: Id)
    requires Covered(p) && Valid(p, es) && AllWithin(p, es, j)
    ensures Made(Reach(es), j) <= 1
  {
    hide Reach, Enabled, WithinHistory, LateFirst;
    forall i | 0 <= i < |es| && es[i].CoreCall? && es[i].j == j
      ensures !LateFirst(p, Reach(es[..i]), es[i])
    {
      Prefix(p, es, i);
      WindowPrevents(p, es[..i], es[i]);
    }
    OneInstancePerJob(p, es, j);
  }
}
