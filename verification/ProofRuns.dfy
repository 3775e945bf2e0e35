/** An effective proof in a run of the whole store: from the step that reserved the validation run to now,
    no transaction has seen other facts than the ones it froze. */
module ProofRuns {
  import opened Facts
  import opened Ledger
  import opened Calls
  import opened Coupling
  import opened CouplingRuns
  import opened Evolution
  import opened EvolutionSteps
  import opened Validation
  import N = NodeFacts

  // Step i of h reserved run v, with the candidate the run still has.
  ghost predicate ReservedAt(h: History, i: int, v: Id) {
    && 0 <= i < |h| && h[i].1.CReserveRun? && h[i].1.v == v && Reservable(Exec(h[..i]), h[i].0, h[i].1.q)
    && v in Exec(h).runs && Frozen(h[i].0, h[i].1.q, Exec(h).runs[v].candidate)
  }

  predicate Frozen(site: Site, q: RunRequest, c: Candidate) {
    && (q.game, q.content) in site.facts.versions && (q.node, q.game) in site.facts.content
    && (q.node, q.revision) in site.facts.bindings && (q.node, q.revision) in site.facts.templates
    && c == CandidateOf(site, q)
  }

  // A run is new only in the step that reserves it.
  lemma NewRunIsReserved(db: Db, site: Site, call: Call, v: Id)
    requires Inv(db) && v in Apply(db, site, call).runs && v !in db.runs
    ensures call.CReserveRun? && call.v == v && Reservable(db, site, call.q)
  {
    var d := Apply(db, site, call);
    CallKeepsInv(db, site, call);
    CallEvolves(db, site, call);
    hide Coupled, Apply, JobsEvolve, RequestsEvolve, FrozenEvolve, Reservable, Placeable, Reclaims;
    var a := d.runs[v].alloc;
    assert a in d.allocations && d.allocations[a].purpose == ForRun(v);
    if a in db.allocations {
      OldAllocationOldRun(db, site, call, d, a, v);
      assert false;
    }
    assert NewAllocation(db, site, call, d, a);
  }

  lemma OldAllocationOldRun(db: Db, site: Site, call: Call, d: Db, a: Id, v: Id)
    requires Rooted(db) && AllocationsEvolve(db, site, call, d) && a in db.allocations
    requires a in d.allocations && d.allocations[a].purpose == ForRun(v)
    ensures v in db.runs
  {
    hide NewAllocation, Reclaims;
    assert AllocationStep(db, call, d, a);
  }

  lemma ReservedFreezes(db: Db, site: Site, call: Call, v: Id)
    requires v in Apply(db, site, call).runs && v !in db.runs
    requires call.CReserveRun? && call.v == v && Reservable(db, site, call.q)
    ensures Frozen(site, call.q, Apply(db, site, call).runs[v].candidate)
  {
    N.ReservedHolds(db, site, call.q);
    hide Reservable, CandidateOf;
  }

  // Every run of a reachable state was reserved by one of the calls, which froze the candidate it still has.
  lemma {:induction false} EveryRunIsReserved(h: History, v: Id)
    requires v in Exec(h).runs
    ensures exists i :: ReservedAt(h, i, v)
    decreases |h|
  {
    if h == [] {
      assert false;
    } else {
      var m := h[..|h|-1];
      var (site, call) := h[|h|-1];
      hide Apply, ReservedAt;
      assert Exec(h) == Apply(Exec(m), site, call);
      hide Exec;
      if v in Exec(m).runs {
        EveryRunIsReserved(m, v);
        var i :| ReservedAt(m, i, v);
        StaysReserved(h, i, v);
      } else {
        NewlyReserved(h, v);
      }
    }
  }

  lemma LastStep(h: History)
    requires h != []
    ensures Exec(h) == Apply(Exec(h[..|h|-1]), h[|h|-1].0, h[|h|-1].1)
  {
    hide Apply;
  }

  lemma CandidateStays(db: Db, site: Site, call: Call, v: Id)
    requires Inv(db) && RunsClosed(db) && v in db.runs
    ensures var d := Apply(db, site, call); v in d.runs && d.runs[v].candidate == db.runs[v].candidate
  {
    CallRuns(db, site, call);
    hide Inv, RunsClosed, Apply, PassEvidence;
    assert RunStep(db, Apply(db, site, call), v);
  }

  lemma CandidateKept(h: History, v: Id)
    requires h != [] && v in Exec(h[..|h|-1]).runs
    ensures v in Exec(h).runs && Exec(h).runs[v].candidate == Exec(h[..|h|-1]).runs[v].candidate
  {
    hide RunsClosed, Inv, Apply, Exec;
    RunKeepsInv(h[..|h|-1]);
    ClosesOnEvidence(h[..|h|-1]);
    LastStep(h);
    CandidateStays(Exec(h[..|h|-1]), h[|h|-1].0, h[|h|-1].1, v);
  }

  lemma StaysReserved(h: History, i: int, v: Id)
    requires h != [] && ReservedAt(h[..|h|-1], i, v)
    ensures ReservedAt(h, i, v)
  {
    hide Frozen, Reservable, Exec;
    CandidateKept(h, v);
    assert h[..|h|-1][..i] == h[..i];
  }

  lemma NewlyReserved(h: History, v: Id)
    requires h != [] && v in Exec(h).runs && v !in Exec(h[..|h|-1]).runs
    ensures ReservedAt(h, |h| - 1, v)
  {
    var m := h[..|h|-1];
    var (site, call) := h[|h|-1];
    hide Frozen, Reservable, Inv, Apply, Exec, Rooted, Coupled, CandidateOf;
    RunKeepsInv(m);
    LastStep(h);
    NewRunIsReserved(Exec(m), site, call, v);
    ReservedFreezes(Exec(m), site, call, v);
  }

  // The facts the calls of h have seen, and the ones seen now.
  function Trace(h: History, now: Site): seq<Facts> {
    seq(|h| + 1, i requires 0 <= i <= |h| => if i < |h| then h[i].0.facts else now.facts)
  }

  // Step i and every later one, up to now, has seen the facts the candidate froze.
  ghost predicate SeenSince(h: History, now: Site, i: int, c: Candidate) {
    0 <= i && (forall k :: i <= k < |h| ==> N.Holds(h[k].0.facts, c)) && N.Holds(now.facts, c)
  }

  // A run that is an effective proof now was reserved by some call of h, and every call since then, this one included,
  // has seen exactly the content identity, template fact, binding and epoch that the reservation froze.
  lemma ProofHasNoGap(h: History, site: Site, v: Id, n: Id, game: Id, preset: Id, content: string, revision: string)
    requires N.History(Trace(h, site)) && v in Exec(h).runs && Effective(Exec(h), site, v, n, game, preset, content, revision)
    ensures exists i :: ReservedAt(h, i, v) && SeenSince(h, site, i, Exec(h).runs[v].candidate)
  {
    assert FactsStand(site.facts, Exec(h).runs[v].candidate, site.now);
    hide Effective, Exec, ReservedAt, SeenSince, FactsStand, N.History;
    EveryRunIsReserved(h, v);
    var i :| ReservedAt(h, i, v);
    HeldSince(h, site, v, i);
  }

  lemma HeldSince(h: History, site: Site, v: Id, i: int)
    requires N.History(Trace(h, site)) && ReservedAt(h, i, v) && FactsStand(site.facts, Exec(h).runs[v].candidate, site.now)
    ensures SeenSince(h, site, i, Exec(h).runs[v].candidate)
  {
    N.ReservedHolds(Exec(h[..i]), h[i].0, h[i].1.q);
    hide Exec, Reservable, CandidateOf, N.Holds, N.History, FactsStand, N.Advances;
    var c := Exec(h).runs[v].candidate;
    forall k | i <= k <= |h|
      ensures N.Holds(Trace(h, site)[k], c)
    {
      N.TraceAdvances(Trace(h, site), i, k);
      N.TraceAdvances(Trace(h, site), k, |h|);
      N.Between(Trace(h, site)[i], Trace(h, site)[k], Trace(h, site)[|h|], c, site.now);
    }
    forall k | i <= k < |h|
      ensures N.Holds(h[k].0.facts, c)
    {
      assert Trace(h, site)[k] == h[k].0.facts;
    }
    assert Trace(h, site)[|h|] == site.facts;
  }
}
