/** TryAllocateOne against its specification: the earliest waiting request that can change
    does, on the best node that accepts it. */
module Scheduler {
  import opened Facts
  import opened Ledger
  import opened Calls
  import opened Coupling
  import opened CouplingSteps
  import opened CouplingRuns
  import opened Store

  // ---- The specification ----

  // Earlier in the order of creation, then of ID.
  predicate Earlier(db: Db, r: Id, s: Id)
    requires r in db.requests && s in db.requests
  {
    db.requests[r].requestedAt < db.requests[s].requestedAt || (db.requests[r].requestedAt == db.requests[s].requestedAt && r < s)
  }

  // Higher priority, then lower ID.
  predicate Preferred(site: Site, n: Id, m: Id)
    requires n in site.nodes && m in site.nodes
  {
    site.nodes[n].priority > site.nodes[m].priority || (site.nodes[n].priority == site.nodes[m].priority && n < m)
  }

  ghost predicate CanChange(db: Db, site: Site, r: Id) {
    Closable(db, site, r) || exists n :: n in site.nodes && Placeable(db, site, r, n)
  }

  ghost predicate FirstToChange(db: Db, site: Site, r: Id) {
    && r in db.requests && CanChange(db, site, r)
    && forall x :: x in db.requests && db.requests[x].state.RWaiting? && Earlier(db, x, r) ==> !CanChange(db, site, x)
  }

  ghost predicate BestNode(db: Db, site: Site, r: Id, n: Id) {
    && n in site.nodes && Placeable(db, site, r, n)
    && forall m :: m in site.nodes && m != n && Placeable(db, site, r, m) ==> Preferred(site, n, m)
  }

  // What becomes of the first request: closed if it must be, else placed on its best node.
  ghost predicate Schedules(db: Db, site: Site, r: Id, a: Id, j: Id, d: Db) {
    || (Closable(db, site, r) && CloseWaiting(db, site, r) == Committed(d))
    || (exists n :: BestNode(db, site, r, n) && Place(db, site, r, n, a, j) == Committed(d))
  }

  // A request is never both closed and placed.
  lemma ClosedOrPlaced(db: Db, site: Site, r: Id, n: Id)
    requires Closable(db, site, r)
    ensures !Placeable(db, site, r, n)
  {
    hide Accepts;
  }

  // ---- Queries in order ----

  method WaitingInOrder(s: Store) returns (ids: seq<Id>)
    ensures forall r :: r in ids <==> r in s.requests && s.requests[r].state.RWaiting?
    ensures forall i :: 0 <= i < |ids| ==> ids[i] in s.requests
    ensures forall i, k :: 0 <= i < k < |ids| ==> Earlier(s.View(), ids[i], ids[k])
  {
    var left := set r | r in s.requests && s.requests[r].state.RWaiting?;
    var all := left;
    ids := [];
    while left != {}
      invariant left <= all
      invariant forall r :: r in ids <==> r in all && r !in left
      invariant forall i :: 0 <= i < |ids| ==> ids[i] in s.requests
      invariant forall i, k :: 0 <= i < k < |ids| ==> Earlier(s.View(), ids[i], ids[k])
      invariant forall r, x :: r in ids && x in left ==> Earlier(s.View(), r, x)
      decreases |left|
    {
      var best :| best in left;
      var rest := left - {best};
      while rest != {}
        invariant rest <= left && best in left && best !in rest
        invariant forall x :: x in left && x !in rest && x != best ==> Earlier(s.View(), best, x)
        decreases |rest|
      {
        var x :| x in rest;
        rest := rest - {x};
        if Earlier(s.View(), x, best) { best := x; }
      }
      ids, left := ids + [best], left - {best};
    }
  }

  method NodesInOrder(s: Store, site: Site, r: Id) returns (ids: seq<Id>)
    requires r in s.requests
    ensures forall n :: n in ids <==> n in site.nodes && Offered(s.View(), site, r, n)
    ensures forall i :: 0 <= i < |ids| ==> ids[i] in site.nodes
    ensures forall i, k :: 0 <= i < k < |ids| ==> Preferred(site, ids[i], ids[k])
  {
    var left := set n | n in site.nodes && Offered(s.View(), site, r, n);
    var all := left;
    ids := [];
    while left != {}
      invariant left <= all
      invariant forall n :: n in ids <==> n in all && n !in left
      invariant forall i :: 0 <= i < |ids| ==> ids[i] in site.nodes
      invariant forall i, k :: 0 <= i < k < |ids| ==> Preferred(site, ids[i], ids[k])
      invariant forall n, m :: n in ids && m in left ==> Preferred(site, n, m)
      decreases |left|
    {
      var best :| best in left;
      var rest := left - {best};
      while rest != {}
        invariant rest <= left && best in left && best !in rest
        invariant forall m :: m in left && m !in rest && m != best ==> Preferred(site, best, m)
        decreases |rest|
      {
        var m :| m in rest;
        rest := rest - {m};
        if Preferred(site, m, best) { best := m; }
      }
      ids, left := ids + [best], left - {best};
    }
  }

  // SELECT MAX(attempt_sequence)
  method LastSequence(s: Store, r: Id) returns (last: nat)
    ensures last == MaxAttempt(s.View(), Attempts(s.View(), r))
  {
    var tried := set a | a in s.allocations && s.allocations[a].purpose == ForRequest(r);
    assert tried == Attempts(s.View(), r);
    var rest := tried;
    last := 0;
    while rest != {}
      invariant rest <= tried
      invariant forall a :: a in tried && a !in rest ==> s.allocations[a].attempt <= last
      invariant last == 0 || exists a :: a in tried && a !in rest && s.allocations[a].attempt == last
      decreases |rest|
    {
      var a :| a in rest;
      rest := rest - {a};
      if s.allocations[a].attempt > last { last := s.allocations[a].attempt; }
    }
    MaxAttemptBound(s.View(), tried);
  }

  // ---- The scheduler ----

  // The first offered node, in order, that accepts the request.
  method SelectNode(s: Store, site: Site, r: Id, ids: seq<Id>) returns (selected: Option<Id>)
    requires r in s.requests && Catalogued(site, s.requests[r]) && forall n :: n in ids ==> n in site.nodes
    ensures match selected
            case None => forall n :: n in ids ==> !Accepts(s.View(), site, r, n)
            case Some(n) => exists k :: 0 <= k < |ids| && ids[k] == n && Accepts(s.View(), site, r, n)
                                        && forall i :: 0 <= i < k ==> !Accepts(s.View(), site, r, ids[i])
  {
    var db := s.View();
    var q := s.requests[r];
    var content := site.games[q.game].content;
    var preset := site.presets[q.preset];
    var k := 0;
    while k < |ids|
      invariant 0 <= k <= |ids|
      invariant forall i :: 0 <= i < k ==> !Accepts(db, site, r, ids[i])
    {
      var n := ids[k];
      assert n in ids;
      if NodeReason(db, site, n, q.game, preset.revision, content).Available? {
        if preset.contract.LegacyContract? { return Some(n); }
        var sha := if (q.game, content) in site.facts.versions then site.facts.versions[(q.game, content)] else "";
        var binding := site.facts.bindings[(n, preset.revision)];
        if Proved(db, site, n, q.game, q.preset, content, preset.revision) && sha != ""
           && binding.fingerprint.Some? && binding.fingerprint.value != "" && binding.generation != 0 {
          return Some(n);
        }
      }
      k := k + 1;
    }
    return None;
  }

  // The selected node is the best placeable one; none selected means none is placeable.
  lemma SelectedIsBest(db: Db, site: Site, r: Id, ids: seq<Id>, selected: Option<Id>)
    requires r in db.requests && db.requests[r].state.RWaiting? && Catalogued(site, db.requests[r])
    requires !Disabled(site, db.requests[r]) && Admitted(site, db.requests[r])
    requires forall n :: n in ids <==> n in site.nodes && Offered(db, site, r, n)
    requires forall i :: 0 <= i < |ids| ==> ids[i] in site.nodes
    requires forall i, k :: 0 <= i < k < |ids| ==> Preferred(site, ids[i], ids[k])
    requires match selected
             case None => forall n :: n in ids ==> !Accepts(db, site, r, n)
             case Some(n) => exists k :: 0 <= k < |ids| && ids[k] == n && Accepts(db, site, r, n)
                                         && forall i :: 0 <= i < k ==> !Accepts(db, site, r, ids[i])
    ensures selected.Some? ==> BestNode(db, site, r, selected.value)
    ensures selected.None? ==> forall n :: n in site.nodes ==> !Placeable(db, site, r, n)
  {
    hide Accepts, Offered;
    if selected.Some? {
      var n := selected.value;
      var k :| 0 <= k < |ids| && ids[k] == n && forall i :: 0 <= i < k ==> !Accepts(db, site, r, ids[i]);
      assert n in ids;
      forall m | m in site.nodes && m != n && Placeable(db, site, r, m)
        ensures Preferred(site, n, m)
      {
        assert m in ids;
        var i :| 0 <= i < |ids| && ids[i] == m;
        assert i > k;
      }
    }
  }

  // Reserve one slot: the allocation, its create job and the request, in one transaction.
  method Reserve(s: Store, site: Site, r: Id, n: Id, a: Id, j: Id)
    requires Placeable(s.View(), site, r, n) && a !in s.allocations && j !in s.jobs
    modifies s
    ensures Place(old(s.View()), site, r, n, a, j) == Committed(s.View())
  {
    var last := LastSequence(s, r);
    PlaceableBinding(s.View(), site, r, n);
    hide Accepts, Offered;
    var q := s.requests[r];
    var preset := site.presets[q.preset];
    var key := site.facts.bindings[(n, preset.revision)].key;
    s.allocations := s.allocations[a :=
      Allocation(ForRequest(r), q.game, last + 1, n, site.games[q.game].content, preset.revision, j, AReserved, None, "", site.now)];
    s.jobs := s.jobs[j := NewCreateJob(n, a, key, ExpectedOf(site, q, n), site.now)];
    s.requests := s.requests[r := q.(state := RAllocating)];
  }

  lemma PlaceableBinding(db: Db, site: Site, r: Id, n: Id)
    requires Placeable(db, site, r, n)
    ensures r in db.requests && db.requests[r].preset in site.presets && db.requests[r].game in site.games
    ensures (n, site.presets[db.requests[r].preset].revision) in site.facts.bindings
  {
  }

  ghost predicate AllCatalogued(db: Db, site: Site) {
    forall r :: r in db.requests && db.requests[r].state.RWaiting? ==> Catalogued(site, db.requests[r])
  }

  method TryAllocateOne(s: Store, site: Site, a: Id, j: Id) returns (changed: bool, fault: Option<Fault>)
    requires s.Valid()
    modifies s
    ensures s.Valid()
    ensures fault.Some? ==> s.View() == old(s.View())
    ensures fault.Some? ==> !AllCatalogued(old(s.View()), site) || a in old(s.allocations) || j in old(s.jobs)
    ensures fault.None? && changed ==>
      exists r :: FirstToChange(old(s.View()), site, r) && Schedules(old(s.View()), site, r, a, j, s.View())
    ensures fault.None? && !changed ==>
      s.View() == old(s.View()) && forall r :: r in old(s.requests) ==> !CanChange(old(s.View()), site, r)
  {
    hide Inv, Accepts, Offered;
    ghost var db := s.View();
    var waiting := WaitingInOrder(s);
    var i := 0;
    while i < |waiting|
      invariant 0 <= i <= |waiting| && s.View() == db
      invariant forall k :: 0 <= k < i ==> !CanChange(db, site, waiting[k])
    {
      var r := waiting[i];
      assert r in waiting;
      var q := s.requests[r];
      if !(q.game in site.games && q.preset in site.presets) { return false, Some(Internal); }
      if Disabled(site, q) {
        Earliest(db, site, waiting, i);
        CloseKeeps(db, r, RUnavailable);
        s.requests := s.requests[r := q.(state := RUnavailable)];
        return true, None;
      }
      if Admitted(site, q) {
        var ids := NodesInOrder(s, site, r);
        var tried := q.mode.Auto? && ids == [] && exists b :: b in s.allocations && AttemptOf(s.View(), r, b) && s.allocations[b].state.AReleasedNoEffect?;
        NothingOffered(db, site, r, ids);
        if tried {
          Earliest(db, site, waiting, i);
          CloseKeeps(db, r, RUnavailable);
          s.requests := s.requests[r := q.(state := RUnavailable)];
          return true, None;
        }
        var selected := SelectNode(s, site, r, ids);
        SelectedIsBest(db, site, r, ids, selected);
        if selected.Some? {
          if a in s.allocations || j in s.jobs { return false, Some(Internal); }
          Earliest(db, site, waiting, i);
          PlaceKeeps(db, site, r, selected.value, a, j);
          Reserve(s, site, r, selected.value, a, j);
          return true, None;
        }
      }
      i := i + 1;
    }
    forall r | r in s.requests
      ensures !CanChange(db, site, r)
    {
      if s.requests[r].state.RWaiting? { assert r in waiting; }
    }
    return false, None;
  }

  // An auto request is exhausted exactly when the offered list is empty and something was tried.
  lemma NothingOffered(db: Db, site: Site, r: Id, ids: seq<Id>)
    requires r in db.requests && forall n :: n in ids <==> n in site.nodes && Offered(db, site, r, n)
    ensures Exhausted(db, site, r) <==>
      db.requests[r].mode.Auto? && ids == [] && exists b :: b in db.allocations && AttemptOf(db, r, b) && db.allocations[b].state.AReleasedNoEffect?
  {
    hide Offered;
    if ids != [] { assert ids[0] in ids; }
  }

  // Everything before position i cannot change, so a request there that can is the first.
  lemma Earliest(db: Db, site: Site, waiting: seq<Id>, i: nat)
    requires i < |waiting| && forall r :: r in waiting <==> r in db.requests && db.requests[r].state.RWaiting?
    requires forall k :: 0 <= k < |waiting| ==> waiting[k] in db.requests
    requires forall k, l :: 0 <= k < l < |waiting| ==> Earlier(db, waiting[k], waiting[l])
    requires forall k :: 0 <= k < i ==> !CanChange(db, site, waiting[k])
    ensures CanChange(db, site, waiting[i]) ==> FirstToChange(db, site, waiting[i])
  {
    hide CanChange;
    forall k | i < k < |waiting|
      ensures !Earlier(db, waiting[k], waiting[i])
    {
      assert Earlier(db, waiting[i], waiting[k]);
    }
    forall x | x in db.requests && db.requests[x].state.RWaiting? && Earlier(db, x, waiting[i])
      ensures !CanChange(db, site, x)
    {
      assert x in waiting;
    }
  }
}
