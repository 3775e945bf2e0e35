/** What every run of the store keeps: what is final stays, a request and its attempts
    tell one story, and retrying ends. */
module Lifecycle {
  import opened Facts
  import opened Ledger
  import opened Calls
  import opened Counting
  import opened Coupling
  import opened CouplingSteps
  import opened CouplingRuns
  import opened Evolution
  import opened EvolutionSteps

  // ---- Extending a run ----

  lemma ExecStep(h: History, site: Site, call: Call)
    ensures Exec(h + [(site, call)]) == Apply(Exec(h), site, call)
  {
    assert (h + [(site, call)])[..|h|] == h;
  }

  ghost predicate KeptJob(x: Job, y: Job) {
    && SameJob(y, x) && (JobTerminal(x.state) ==> y == x)
    && (x.instance != "" ==> y.instance == x.instance) && (x.operation != "" ==> y.operation == x.operation)
  }

  // Rows of db are still there in d, with what was decided about them.
  ghost predicate Kept(db: Db, d: Db) {
    && (forall r :: r in db.requests ==>
          && r in d.requests && SameRequest(d.requests[r], db.requests[r])
          && (Final(db.requests[r].state) ==> d.requests[r].state == db.requests[r].state))
    && (forall a :: a in db.allocations ==>
          && a in d.allocations && SameAllocation(d.allocations[a], db.allocations[a])
          && (Terminal(db.allocations[a].state) ==> d.allocations[a].state == db.allocations[a].state))
    && (forall j :: j in db.jobs ==> j in d.jobs && KeptJob(db.jobs[j], d.jobs[j]))
    && (forall j :: j in db.frozen ==> j in d.frozen && d.frozen[j] == db.frozen[j])
  }

  lemma MovedJobKept(db: Db, site: Site, call: Call, d: Db, j: Id)
    requires j in db.jobs && JobStep(db, site, call, d, j)
    ensures j in d.jobs && KeptJob(db.jobs[j], d.jobs[j])
  {
    hide StartAllowed, Untouched, Rival, TrustedStop;
  }

  lemma StepKeeps(db: Db, site: Site, call: Call, d: Db)
    requires Evolves(db, site, call, d)
    ensures Kept(db, d)
  {
    hide JobsEvolve, AllocationsEvolve, RequestsEvolve, KeptJob, SameRequest, SameAllocation, Final, Terminal;
    StepKeepsJobs(db, site, call, d);
    StepKeepsAllocations(db, site, call, d);
    StepKeepsRequests(db, d);
  }

  lemma StepKeepsJobs(db: Db, site: Site, call: Call, d: Db)
    requires JobsEvolve(db, site, call, d)
    ensures forall j :: j in db.jobs ==> j in d.jobs && KeptJob(db.jobs[j], d.jobs[j])
  {
    hide JobStep, NewJob, KeptJob;
    forall j | j in db.jobs
      ensures j in d.jobs && KeptJob(db.jobs[j], d.jobs[j])
    {
      MovedJobKept(db, site, call, d, j);
    }
  }

  lemma StepKeepsAllocations(db: Db, site: Site, call: Call, d: Db)
    requires AllocationsEvolve(db, site, call, d)
    ensures forall a :: a in db.allocations ==>
      && a in d.allocations && SameAllocation(d.allocations[a], db.allocations[a])
      && (Terminal(db.allocations[a].state) ==> d.allocations[a].state == db.allocations[a].state)
  {
    hide NewAllocation, Reclaims;
    forall a | a in db.allocations
      ensures a in d.allocations && SameAllocation(d.allocations[a], db.allocations[a])
      ensures Terminal(db.allocations[a].state) ==> d.allocations[a].state == db.allocations[a].state
    {
      assert AllocationStep(db, call, d, a);
    }
  }

  lemma StepKeepsRequests(db: Db, d: Db)
    requires RequestsEvolve(db, d)
    ensures forall r :: r in db.requests ==>
      && r in d.requests && SameRequest(d.requests[r], db.requests[r])
      && (Final(db.requests[r].state) ==> d.requests[r].state == db.requests[r].state)
  {
    forall r | r in db.requests
      ensures r in d.requests && SameRequest(d.requests[r], db.requests[r])
      ensures Final(db.requests[r].state) ==> d.requests[r].state == db.requests[r].state
    {
      assert RequestStep(db, d, r);
    }
  }

  lemma KeptTransitive(db: Db, c: Db, d: Db)
    requires Kept(db, c) && Kept(c, d)
    ensures Kept(db, d)
  {
  }

  // Once a request, an allocation or a job is final, no later call of any kind changes it;
  // and no call ever changes who or what a row is about, or a frozen execution.
  lemma {:induction false} NothingFinalIsLeft(h: History, k: History)
    ensures Kept(Exec(h), Exec(h + k))
    decreases |k|
  {
    if k == [] {
      assert h + k == h;
    } else {
      hide Kept, Evolves, Inv;
      var m := k[..|k|-1];
      NothingFinalIsLeft(h, m);
      var (site, call) := k[|k|-1];
      assert h + k == (h + m) + [(site, call)];
      ExecStep(h + m, site, call);
      RunKeepsInv(h + m);
      CallEvolves(Exec(h + m), site, call);
      StepKeeps(Exec(h + m), site, call, Exec(h + k));
      KeptTransitive(Exec(h), Exec(h + m), Exec(h + k));
    }
  }

  // ---- Requests and their attempts ----

  ghost predicate Latest(db: Db, r: Id, a: Id) {
    a in db.allocations && forall b :: AttemptOf(db, r, b) && b != a ==>
      db.allocations[b].attempt < db.allocations[a].attempt && db.allocations[b].state.AReleasedNoEffect?
  }

  // The open attempt of a request, its only one and its last, in the matching state.
  ghost predicate Holds(db: Db, r: Id, a: Id)
    requires r in db.requests
  {
    OpenAttempt(db, r, a) && Latest(db, r, a)
    && (db.requests[r].state == Match(db.allocations[a].state) || (db.requests[r].state.RAbandoned? && db.allocations[a].state.AQuarantined?))
  }

  lemma OpenHolds(db: Db, r: Id, a: Id)
    requires r in db.requests && Coupled(db, r) && OpenAttempt(db, r, a)
    ensures Holds(db, r, a)
    ensures forall b :: OpenAttempt(db, r, b) ==> b == a
  {
    OpenIsLast(db, r, a);
  }

  ghost predicate OneStory(db: Db, r: Id)
    requires r in db.requests
  {
    var s := db.requests[r].state;
    && (s.RWaiting? ==> forall a :: AttemptOf(db, r, a) ==> db.allocations[a].state.AReleasedNoEffect?)
    && (NeedsAttempt(s) ==> exists a :: Holds(db, r, a))
    && (s.REnded? || s.RCancelled? || s.RUnavailable? ==> !HasOpen(db, r))
    && (s.RQuarantined? ==> (exists a :: Holds(db, r, a)) || (!HasOpen(db, r) && PausedIntent(db, r)))
    && (forall a :: OpenAttempt(db, r, a) ==> Holds(db, r, a))
    && (forall a, b :: OpenAttempt(db, r, a) && OpenAttempt(db, r, b) ==> a == b)
  }

  lemma CoupledStory(db: Db, r: Id)
    requires r in db.requests && Coupled(db, r)
    ensures OneStory(db, r)
  {
    CoupledParts(db, r);
    hide Coupled, Holds;
    forall a | OpenAttempt(db, r, a)
      ensures Holds(db, r, a) && forall b :: OpenAttempt(db, r, b) ==> b == a
    {
      OpenHolds(db, r, a);
    }
  }

  // In every reachable state: a waiting request has only released attempts; one that claims a resource
  // has exactly one open attempt, the last, in the matching state; a closed one has none; a quarantined one
  // has one, or none and a paused next game; only an abandoned one may differ from its open attempt,
  // which is then quarantined.
  lemma RequestsAndAttempts(h: History, r: Id)
    requires r in Exec(h).requests
    ensures OneStory(Exec(h), r)
  {
    RunKeepsInv(h);
    hide Exec, OneStory;
    InvRequest(Exec(h), r);
    CoupledStory(Exec(h), r);
  }

  lemma CoupledParts(db: Db, r: Id)
    requires r in db.requests && Coupled(db, r)
    ensures Fits(db, r) && Placed(db, r) && Resting(db, r)
    ensures forall a :: OpenAttempt(db, r, a) ==>
      db.requests[r].state == Match(db.allocations[a].state) || (db.requests[r].state.RAbandoned? && db.allocations[a].state.AQuarantined?)
  {
  }

  // ---- Retrying ends ----

  ghost predicate NodesWithin(h: History, nodes: set<Id>) {
    forall i :: 0 <= i < |h| ==> h[i].0.nodes.Keys <= nodes
  }

  lemma PlaceableNode(db: Db, site: Site, r: Id, n: Id)
    requires Placeable(db, site, r, n)
    ensures n in site.nodes
  {
  }

  lemma {:induction false} AllocationsStayWithin(h: History, nodes: set<Id>)
    requires NodesWithin(h, nodes)
    ensures forall a :: a in Exec(h).allocations ==> Exec(h).allocations[a].node in nodes
    decreases |h|
  {
    if h != [] {
      var m := h[..|h|-1];
      AllocationsStayWithin(m, nodes);
      var (site, call) := h[|h|-1];
      var db, d := Exec(m), Exec(h);
      RunKeepsInv(m);
      CallEvolves(db, site, call);
      hide Placeable, Inv, JobsEvolve, RequestsEvolve;
      assert site.nodes.Keys <= nodes;
      forall a | a in d.allocations
        ensures d.allocations[a].node in nodes
      {
        if a in db.allocations {
          assert AllocationStep(db, call, d, a);
        } else {
          assert NewAllocation(db, site, call, d, a);
          if call.CPlace? { PlaceableNode(db, site, call.r, call.n); }
        }
      }
    }
  }

  // The attempts of a request are on pairwise different nodes and numbered 1 to their count, so there are
  // never more of them than nodes; choosing a node by hand allows one attempt.
  lemma RetryEnds(h: History, r: Id, nodes: set<Id>)
    requires r in Exec(h).requests && NodesWithin(h, nodes)
    ensures var db := Exec(h);
            var s := Attempts(db, r);
            && |s| <= |nodes|
            && (forall a, b :: a in s && b in s && a != b ==> db.allocations[a].node != db.allocations[b].node)
            && (forall i :: 1 <= i <= |s| ==> Numbers(db, s, i))
            && (forall a :: a in s ==> 1 <= db.allocations[a].attempt <= |s|)
  {
    RunKeepsInv(h);
    AllocationsStayWithin(h, nodes);
    var db := Exec(h);
    hide Exec, Rooted;
    InvRequest(db, r);
    CoupledNumbers(db, r);
    hide Coupled, Inv;
    NumbersOnto(db, r, nodes);
  }

  ghost predicate Numbers(db: Db, s: set<Id>, i: int) {
    exists a :: a in s && a in db.allocations && db.allocations[a].attempt == i
  }

  lemma NumbersOnto(db: Db, r: Id, nodes: set<Id>)
    requires Ordered(db, r) && Numbered(db, r)
    requires forall a :: a in db.allocations ==> db.allocations[a].node in nodes
    ensures var s := Attempts(db, r);
            && |s| <= |nodes|
            && (forall i :: 1 <= i <= |s| ==> Numbers(db, s, i))
            && (forall a, b :: a in s && b in s && a != b ==> db.allocations[a].node != db.allocations[b].node)
            && (forall a :: a in s ==> 1 <= db.allocations[a].attempt <= |s|)
  {
    var s := Attempts(db, r);
    assert forall a :: a in s <==> AttemptOf(db, r, a);
    InjectionBound(s, nodes, a => if a in db.allocations then db.allocations[a].node else 0);
    IntervalSize(1, |s| + 1);
    forall i | 1 <= i <= |s|
      ensures Numbers(db, s, i)
    {
      var f: Id -> int := a => if a in db.allocations then db.allocations[a].attempt as int else 0;
      InjectionOnto(s, Interval(1, |s| + 1), f, i);
      var a :| a in s && f(a) == i;
      assert db.allocations[a].attempt == i;
    }
  }

  // A request for a chosen node is tried once.
  ghost predicate TriedOnce(db: Db) {
    forall r, a, b :: r in db.requests && db.requests[r].mode.Manual? && AttemptOf(db, r, a) && AttemptOf(db, r, b) ==> a == b
  }

  lemma {:induction false} ManualTriesOnce(h: History)
    ensures TriedOnce(Exec(h))
    decreases |h|
  {
    if h != [] {
      var m := h[..|h|-1];
      ManualTriesOnce(m);
      var (site, call) := h[|h|-1];
      var db, d := Exec(m), Exec(h);
      RunKeepsInv(m);
      CallEvolves(db, site, call);
      hide Exec, Apply, JobsEvolve;
      forall r, a, b | r in d.requests && d.requests[r].mode.Manual? && AttemptOf(d, r, a) && AttemptOf(d, r, b)
        ensures a == b
      {
        SameAttempt(db, site, call, d, r, a, b);
        SameAttempt(db, site, call, d, r, b, a);
      }
    }
  }

  // A step that adds attempt a to a manual request finds no other attempt of it.
  lemma SameAttempt(db: Db, site: Site, call: Call, d: Db, r: Id, a: Id, b: Id)
    requires Inv(db) && Evolves(db, site, call, d) && TriedOnce(db)
    requires r in d.requests && d.requests[r].mode.Manual? && AttemptOf(d, r, a) && AttemptOf(d, r, b)
    ensures a in db.allocations && b in db.allocations ==> a == b
    ensures a !in db.allocations ==> a == b
  {
    hide AllocationsEvolve, RequestsEvolve, JobsEvolve, Inv;
    if a in db.allocations && b in db.allocations {
      OldAttempt(db, site, call, d, r, a);
      OldAttempt(db, site, call, d, r, b);
      assert AttemptOf(db, r, a) && AttemptOf(db, r, b);
    } else if a !in db.allocations {
      NewAttemptAlone(db, site, call, d, r, a, b);
    }
  }

  lemma OldAttempt(db: Db, site: Site, call: Call, d: Db, r: Id, a: Id)
    requires Inv(db) && Evolves(db, site, call, d) && r in d.requests && AttemptOf(d, r, a) && a in db.allocations
    ensures AttemptOf(db, r, a) && r in db.requests && db.requests[r].mode == d.requests[r].mode
  {
    hide JobsEvolve, Coupled, Rooted, Reclaims;
    assert AllocationStep(db, call, d, a);
    InvAllocation(db, a);
    assert RequestStep(db, d, r);
  }

  // A request is placed only while it waits, and a manual request that waits was never tried.
  lemma NewAttemptAlone(db: Db, site: Site, call: Call, d: Db, r: Id, a: Id, b: Id)
    requires Inv(db) && Evolves(db, site, call, d) && TriedOnce(db)
    requires r in d.requests && d.requests[r].mode.Manual? && AttemptOf(d, r, a) && AttemptOf(d, r, b) && a !in db.allocations
    ensures a == b
  {
    hide JobsEvolve, Coupled, Rooted, Placeable, NewCreateJob, ExpectedOf, Reclaims, Reservable;
    assert NewAllocation(db, site, call, d, a);
    PlaceableWaits(db, site, r, call);
    assert RequestStep(db, d, r);
    InvRequest(db, r);
    WaitingFacts(db, r);
    assert AttemptOf(d, r, b);
  }

  lemma PlaceableWaits(db: Db, site: Site, r: Id, call: Call)
    requires call.CPlace? && call.r == r && Placeable(db, site, call.r, call.n)
    ensures r in db.requests && db.requests[r].state.RWaiting?
  {
  }
}
