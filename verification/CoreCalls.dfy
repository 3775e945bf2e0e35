/** What every core create call of a run has in common, and what it was proved for. */
module CoreCalls {
  import opened Facts
  import opened Ledger
  import opened Calls
  import opened Coupling
  import opened CouplingSteps
  import opened CouplingRuns
  import opened Evolution
  import opened Lifecycle
  import opened CreateParts
  import opened Runner
  import opened ValidatedIdentity
  import J = Joint
  import R = Retention

  // ---- From events to calls ----

  // The Platform's part of a run of the joint system.
  function StoreCalls(es: seq<J.Event>): History {
    if es == [] then []
    else
      var e := es[|es|-1];
      StoreCalls(es[..|es|-1]) + if e.Store? then [(e.site, e.call)] else []
  }

  lemma {:induction false} EventsAreCalls(w: J.World, h: History, es: seq<J.Event>)
    requires w.db == Exec(h)
    ensures J.From(w, es).db == Exec(h + StoreCalls(es))
    decreases |es|
  {
    hide Apply;
    if es == [] {
      assert h + StoreCalls(es) == h;
    } else {
      var m, e := es[..|es|-1], es[|es|-1];
      EventsAreCalls(w, h, m);
      var g := h + StoreCalls(m);
      if e.Store? {
        assert h + StoreCalls(es) == g + [(e.site, e.call)];
        assert (g + [(e.site, e.call)])[..|g|] == g;
      } else {
        assert h + StoreCalls(es) == g;
      }
    }
  }

  // What create does continues any run of the joint system, so capacity stays safe through it.
  lemma CreateStaysSafe(run: seq<J.Event>, es: seq<J.Event>)
    requires J.Valid(run) && J.RunsFrom(J.Reach(run), es)
    ensures J.Valid(run + es) && J.Reach(run + es) == J.From(J.Reach(run), es) && J.Safe(J.Reach(run + es))
  {
    hide J.RunsFrom, J.From, J.Safe;
    Joined(J.START, run, es);
    J.NoLiveServerOutsideCapacity(run + es);
  }

  // ---- One request ----

  lemma SameRequest(h: History, k: History, c: CoreCall, d: CoreCall, x: Loaded, y: Loaded, m: Machine, n: Machine,
                    days: int, clock: int, later: int, r: bool, s: bool)
    requires c.held == Exec(h) && Proper(c, x, m, days, clock, r)
    requires d.held == Exec(h + k) && Proper(d, y, n, days, later, s)
    requires c.job == d.job
    ensures c.request == d.request
  {
    NothingFinalIsLeft(h, k);
    hide Exec, MachineProof;
  }

  // A call of create's, made after the first i events from world w.
  ghost predicate CallAfter(w: J.World, es: seq<J.Event>, i: nat, c: CoreCall, x: Loaded, m: Machine, days: int, clock: int, r: bool) {
    i <= |es| && c.held == J.From(w, es[..i]).db && Proper(c, x, m, days, clock, r)
  }

  lemma HeldAfter(w: J.World, h: History, es: seq<J.Event>, i: nat, c: CoreCall, x: Loaded, m: Machine, days: int, clock: int, r: bool)
    requires w.db == Exec(h) && CallAfter(w, es, i, c, x, m, days, clock, r)
    ensures i <= |es| && c.held == Exec(h + StoreCalls(es[..i])) && Proper(c, x, m, days, clock, r)
  {
    hide Proper, Exec, J.From;
    EventsAreCalls(w, h, es[..i]);
  }

  // Two calls that create makes for one job, in whichever cycles or Controllers and however far apart, carry the same
  // request. The first is made from the world w, whose Platform has come through h; the second from the world v, to
  // which the Platform has come through more calls g.
  lemma OneRequestPerJob(w: J.World, es: seq<J.Event>, i: nat, c: CoreCall, v: J.World, fs: seq<J.Event>, k: nat, d: CoreCall,
                         h: History, g: History, x: Loaded, y: Loaded, m: Machine, n: Machine, days: int, clock: int, later: int,
                         r: bool, s: bool)
    requires CallAfter(w, es, i, c, x, m, days, clock, r) && CallAfter(v, fs, k, d, y, n, days, later, s)
    requires i <= |es| && w.db == Exec(h) && v.db == Exec(h + StoreCalls(es[..i]) + g) && c.job == d.job
    ensures c.request == d.request
  {
    hide *;
    HeldAfter(w, h, es, i, c, x, m, days, clock, r);
    var a := h + StoreCalls(es[..i]);
    HeldAfter(v, a + g, fs, k, d, y, n, days, later, s);
    assert a + g + StoreCalls(fs[..k]) == a + (g + StoreCalls(fs[..k]));
    SameRequest(a, g + StoreCalls(fs[..k]), c, d, x, y, m, n, days, clock, later, r, s);
  }

  // ---- In time ----

  // What the worker brings to a call: a first call was loaded before anything was frozen and is still to be made;
  // a legacy repeat comes from a worker with no first call left.
  ghost predicate Comes(t: R.World, worker: Id, job: Loaded, retrying: bool) {
    if retrying then job.capability.LegacyV1? ==> R.NoneFirst(t, job.id) else (worker, job.id) in t.firsts
  }

  lemma SameComes(t: R.World, n: R.World, worker: Id, job: Loaded, retrying: bool)
    requires Comes(t, worker, job, retrying) && n.firsts == t.firsts
    ensures Comes(n, worker, job, retrying)
  {
  }

  // The load gives the worker its first call, and only its own call or restart takes it away.
  lemma {:induction false} LoadedFirst(run: seq<R.Event>, more: seq<R.Event>, worker: Id, j: Id)
    requires forall e :: e in more && (e.CoreCall? || e.Forget?) ==> e.worker != worker || e.j != j
    ensures (worker, j) in R.Reach(run + [R.Load(worker, j)] + more).firsts
    decreases |more|
  {
    hide Apply, Begins, R.Asked;
    var f := run + [R.Load(worker, j)] + more;
    if more == [] {
      assert f[..|f|-1] == run && f[|f|-1] == R.Load(worker, j);
    } else {
      var m := more[..|more|-1];
      LoadedFirst(run, m, worker, j);
      assert f[..|f|-1] == run + [R.Load(worker, j)] + m && f[|f|-1] == more[|more|-1];
    }
  }

  // A call that create makes is one the timed system allows, when the worker's state there is the one it has.
  lemma CallsInTime(p: R.Terms, t: R.World, worker: Id, c: CoreCall, job: Loaded, m: Machine, now: int, retrying: bool)
    requires Proper(c, job, m, p.days, now, retrying) && t.db == c.held && RowOf(c.held, job)
    requires job.capability.ContentValidationV102? ==> job.id in t.begun
    requires t.now - now <= p.late
    requires Comes(t, worker, job, retrying)
    ensures R.Enabled(p, t, R.CoreCall(worker, c.job, retrying, now))
  {
    hide MachineProof, R.WithinHistory, R.NoneFirst;
  }

  // The Platform's part of what create does, in the timed system.
  function Timed(es: seq<J.Event>): seq<R.Event> {
    if es == [] then []
    else
      var e := es[|es|-1];
      Timed(es[..|es|-1]) + if e.Store? then [R.Platform(e.site, e.call)] else []
  }

  // Requests are frozen by a clock within the bound.
  ghost predicate ClocksAgree(p: R.Terms, now: int, es: seq<J.Event>) {
    forall e :: e in es && e.Store? && e.call.CPrepare? ==> e.site.now <= now + p.ahead
  }

  // The Platform of the timed world t is the one of w.
  predicate SamePlatform(t: R.World, w: J.World) {
    t.db == w.db && t.begun == w.begun
  }

  lemma OneEvent(t: R.World, w: J.World, e: J.Event)
    requires SamePlatform(t, w)
    ensures var n := J.Next(w, e);
            if e.Store? then R.Next(t, R.Platform(e.site, e.call)) == t.(db := n.db, begun := n.begun)
            else SamePlatform(t, n)
  {
    hide Apply, Begins;
  }

  lemma {:induction false} PlatformRuns(p: R.Terms, run: seq<R.Event>, w: J.World, es: seq<J.Event>)
    requires R.Valid(p, run) && SamePlatform(R.Reach(run), w) && ClocksAgree(p, R.Reach(run).now, es)
    ensures R.Valid(p, run + Timed(es))
    ensures var n := J.From(w, es); R.Reach(run + Timed(es)) == R.Reach(run).(db := n.db, begun := n.begun)
    decreases |es|
  {
    hide R.Valid, R.Reach, J.Next, R.Next, Apply, Begins;
    if es == [] {
      assert run + Timed(es) == run;
    } else {
      var m, e := es[..|es|-1], es[|es|-1];
      PlatformRuns(p, run, w, m);
      var t := R.Reach(run + Timed(m));
      OneEvent(t, J.From(w, m), e);
      if e.Store? {
        R.OneMore(p, run + Timed(m), R.Platform(e.site, e.call));
        assert run + Timed(es) == run + Timed(m) + [R.Platform(e.site, e.call)];
      } else {
        assert run + Timed(es) == run + Timed(m);
      }
    }
  }

  // What create does, its call at its place, continues any run of the timed system that has come to the same Platform:
  // all its transactions and the call itself are events that system allows. So the theorems about instances cover it.
  lemma CreateStaysInTime(p: R.Terms, run: seq<R.Event>, h: History, w: J.World, es: seq<J.Event>, k: nat, worker: Id,
                          c: CoreCall, job: Loaded, m: Machine, now: int, retrying: bool)
    requires R.Valid(p, run) && SamePlatform(R.Reach(run), w) && w.db == Exec(h) && RowOf(w.db, job)
    requires ClocksAgree(p, R.Reach(run).now, es) && R.Reach(run).now - now <= p.late
    requires Comes(R.Reach(run), worker, job, retrying)
    requires CallAfter(w, es, k, c, job, m, p.days, now, retrying)
    requires k <= |es| && (job.capability.ContentValidationV102? ==> job.id in J.From(w, es[..k]).begun)
    ensures var f := run + Timed(es[..k]) + [R.CoreCall(worker, job.id, retrying, now)] + Timed(es[k..]);
            R.Valid(p, f) && SamePlatform(R.Reach(f), J.From(w, es))
  {
    hide R.Valid, R.Reach, R.Enabled, R.Next, Exec, J.From, RowOf, Proper, Comes, ClocksAgree, Timed;
    CallHolds(w, es, k, c, job, m, p.days, now, retrying);
    ClocksSplit(p, R.Reach(run).now, es, k);
    PlatformRuns(p, run, w, es[..k]);
    var a := run + Timed(es[..k]);
    RowStays(h, w, es[..k], job);
    SameComes(R.Reach(run), R.Reach(a), worker, job, retrying);
    var call := R.CoreCall(worker, job.id, retrying, now);
    CallsInTime(p, R.Reach(a), worker, c, job, m, now, retrying);
    R.OneMore(p, a, call);
    CallKeepsPlatform(R.Reach(a), call);
    FromAppend(w, es[..k], es[k..]);
    assert es[..k] + es[k..] == es;
    PlatformRuns(p, a + [call], J.From(w, es[..k]), es[k..]);
  }

  lemma CallHolds(w: J.World, es: seq<J.Event>, k: nat, c: CoreCall, job: Loaded, m: Machine, days: int, now: int, retrying: bool)
    requires CallAfter(w, es, k, c, job, m, days, now, retrying)
    ensures k <= |es| && c.job == job.id && c.held == J.From(w, es[..k]).db && Proper(c, job, m, days, now, retrying)
  {
    hide J.From, MachineProof;
  }

  lemma ClocksSplit(p: R.Terms, now: int, es: seq<J.Event>, k: nat)
    requires ClocksAgree(p, now, es) && k <= |es|
    ensures ClocksAgree(p, now, es[..k]) && ClocksAgree(p, now, es[k..])
  {
  }

  lemma CallKeepsPlatform(t: R.World, e: R.Event)
    requires e.CoreCall?
    ensures var n := R.Next(t, e); n.db == t.db && n.begun == t.begun && n.now == t.now
  {
  }

  lemma RowStays(h: History, w: J.World, es: seq<J.Event>, job: Loaded)
    requires w.db == Exec(h) && RowOf(w.db, job)
    ensures RowOf(J.From(w, es).db, job)
  {
    hide Exec, J.From;
    EventsAreCalls(w, h, es);
    NothingFinalIsLeft(h, StoreCalls(es));
    assert KeptJob(w.db.jobs[job.id], J.From(w, es).db.jobs[job.id]);
  }

  // ---- The validated identity ----

  // The measured template and item of the node are those of run v's candidate.
  predicate Matches(m: Machine, key: string, path: string, workshop: string, c: Candidate) {
    && key in m.templates && m.templates[key] == (path, c.fingerprint)
    && workshop in m.items && m.items[workshop].confirmed && m.items[workshop].content == c.content && m.items[workshop].sha == c.sha
  }

  lemma ProofMatches(job: Loaded, m: Machine, path: string, digest: string)
    requires MachineProof(job, m) == Some((path, digest))
    ensures job.expected.Some? && job.bindingKey in m.templates && m.templates[job.bindingKey] == (path, job.expected.value.fingerprint)
    ensures var e := job.expected.value;
            e.workshop in m.items && m.items[e.workshop] == Measured(e.workshop, true, e.content, e.sha)
  {
  }

  // What is loaded of a job stays true of its row.
  lemma LoadedStays(h: History, g: History, j: Id)
    requires j in Exec(h).jobs
    ensures j in Exec(h + g).jobs
    ensures var job, row := LoadedFrom(Exec(h), j), Exec(h + g).jobs[j];
            && row.kind == Exec(h).jobs[j].kind && row.capability == job.capability && row.bindingKey == job.bindingKey
            && row.expected == job.expected && row.alloc == Exec(h).jobs[j].alloc
            && (job.frozen.Some? ==> j in Exec(h + g).frozen && Exec(h + g).frozen[j] == job.frozen.value)
  {
    NothingFinalIsLeft(h, g);
    hide Exec;
    assert KeptJob(Exec(h).jobs[j], Exec(h + g).jobs[j]);
  }

  // Core create runs for an upgraded player job only when the node measures, at that moment, exactly the template
  // and content digests of a run that had passed and was an effective proof when the job was reserved; and the path
  // it runs is the measured one. The job was loaded after h; create starts after g more calls.
  lemma ValidatedIdentityReachesCore(h: History, g: History, j: Id, w: J.World, es: seq<J.Event>, k: nat, c: CoreCall,
                                     m: Machine, days: int, clock: int, retrying: bool)
    requires j in Exec(h).jobs && w.db == Exec(h + g) && k <= |es| && c.held == J.From(w, es[..k]).db
    requires var db := Exec(h);
             && db.jobs[j].kind.Create? && db.jobs[j].capability.ContentValidationV102?
             && db.jobs[j].alloc in db.allocations && db.allocations[db.jobs[j].alloc].purpose.ForRequest?
    requires Proper(c, LoadedFrom(Exec(h), j), m, days, clock, retrying)
    ensures var job := LoadedFrom(Exec(h), j);
            var f := h + g + StoreCalls(es[..k]);
            j in Exec(f).jobs && job.expected.Some?
            && exists i, v :: 0 <= i < |f| && Carries(Exec(f[..i]), f[i].0, f[i].1, j, Exec(f).jobs[j], v)
                 && Matches(m, job.bindingKey, c.request.template, job.expected.value.workshop, Exec(f[..i]).runs[v].candidate)
  {
    hide Exec, J.From, StoreCalls, Carries, Matches;
    var x := StoreCalls(es[..k]);
    EventsAreCalls(w, h + g, es[..k]);
    assert h + (g + x) == h + g + x;
    LoadedStays(h, g + x, j);
    NothingFinalIsLeft(h, g + x);
    IdentityIn(h + g + x, c, LoadedFrom(Exec(h), j), m, days, clock, retrying);
  }

  lemma IdentityIn(h: History, c: CoreCall, job: Loaded, m: Machine, days: int, clock: int, retrying: bool)
    requires c.held == Exec(h) && Proper(c, job, m, days, clock, retrying) && job.capability.ContentValidationV102?
    requires var row := c.held.jobs[c.job];
             && row.kind.Create? && row.bindingKey == job.bindingKey && row.expected == job.expected
             && row.alloc in c.held.allocations && c.held.allocations[row.alloc].purpose.ForRequest?
    ensures exists i, v :: 0 <= i < |h| && Carries(Exec(h[..i]), h[i].0, h[i].1, c.job, Exec(h).jobs[c.job], v)
              && Matches(m, job.bindingKey, c.request.template, job.expected.value.workshop, Exec(h[..i]).runs[v].candidate)
  {
    ProofMatches(job, m, c.request.template, c.request.fingerprint);
    hide MachineProof, Exec, Carries, Matches;
    PlayerJobsAreProved(h, c.job);
    var row := Exec(h).jobs[c.job];
    var i, v :| 0 <= i < |h| && Carries(Exec(h[..i]), h[i].0, h[i].1, c.job, row, v);
    CarriesMatch(Exec(h[..i]), h[i].0, h[i].1, c.job, row, v, job, m, c.request.template);
  }

  lemma CarriesMatch(db: Db, site: Site, call: Call, j: Id, row: Job, v: Id, job: Loaded, m: Machine, path: string)
    requires Carries(db, site, call, j, row, v) && row.bindingKey == job.bindingKey && row.expected == job.expected && job.expected.Some?
    requires job.bindingKey in m.templates && m.templates[job.bindingKey] == (path, job.expected.value.fingerprint)
    requires var e := job.expected.value;
             e.workshop in m.items && m.items[e.workshop] == Measured(e.workshop, true, e.content, e.sha)
    ensures v in db.runs && Matches(m, job.bindingKey, path, job.expected.value.workshop, db.runs[v].candidate)
  {
    hide Placeable, Effective;
  }
}
