/** Where a request is placed and when it is closed, said in the rows of the site. */
module SchedulingRules {
  import opened Facts
  import opened Ledger
  import opened Calls
  import opened Coupling
  import opened CouplingRuns
  import opened Scheduler
  import opened RequestRules
  import opened NodeRules

  // ---- The request ----

  // Game and preset are in the catalog and neither is switched off.
  predicate Offers(site: Site, q: Request) {
    q.game in site.games && q.preset in site.presets && site.games[q.game].enabled && site.presets[q.preset].enabled
  }

  // The catalog takes players for it, and the game has content.
  predicate TakesRequest(site: Site, q: Request) {
    && q.game in site.games && q.preset in site.presets
    && site.accepting && site.games[q.game].accepting && site.presets[q.preset].accepting && site.games[q.game].content != ""
  }

  // An attempt on this node was released without effect.
  predicate GivenBack(db: Db, r: Id, n: Id) {
    exists a :: a in db.allocations && db.allocations[a].purpose == ForRequest(r) && db.allocations[a].node == n
                && db.allocations[a].state.AReleasedNoEffect?
  }

  // The node the player chose; without a choice, any that has not given the request back.
  predicate MayTry(db: Db, r: Id, n: Id)
    requires r in db.requests
  {
    match db.requests[r].mode
    case Manual(chosen) => n == chosen
    case Auto => !GivenBack(db, r, n)
  }

  lemma OfferedIs(db: Db, site: Site, r: Id, n: Id)
    requires r in db.requests
    ensures Offered(db, site, r, n) <==> n in site.nodes && MayTry(db, r, n)
  {
    assert Released(db, r, n) <==> GivenBack(db, r, n);
  }

  // For an upgraded preset the node must hold an effective proof of exactly this game, preset, content and template.
  ghost predicate ProvedOn(db: Db, site: Site, q: Request, n: Id)
    requires q.game in site.games && q.preset in site.presets
  {
    var content, revision := site.games[q.game].content, site.presets[q.preset].revision;
    && (q.game, content) in site.facts.versions && site.facts.versions[(q.game, content)] != ""
    && (n, revision) in site.facts.bindings && site.facts.bindings[(n, revision)].generation > 0
    && site.facts.bindings[(n, revision)].fingerprint.Some? && site.facts.bindings[(n, revision)].fingerprint.value != ""
    && exists v :: ProofStands(db, site, v, n, q.game, q.preset, content, revision)
  }

  // ---- Placing ----

  // Everything a placement asks for.
  ghost predicate MayPlace(db: Db, site: Site, r: Id, n: Id) {
    && r in db.requests && db.requests[r].state.RWaiting?
    && var q := db.requests[r];
       && Offers(site, q) && TakesRequest(site, q) && MayTry(db, r, n)
       && CanHost(db, site, n, q.game, site.games[q.game].content, site.presets[q.preset].revision)
       && (site.presets[q.preset].contract.V102Contract? ==> ProvedOn(db, site, q, n))
  }

  lemma ProvedIs(db: Db, site: Site, n: Id, game: Id, preset: Id, content: string, revision: string)
    ensures Proved(db, site, n, game, preset, content, revision) <==> exists v :: ProofStands(db, site, v, n, game, preset, content, revision)
  {
    forall v ensures Effective(db, site, v, n, game, preset, content, revision) <==> ProofStands(db, site, v, n, game, preset, content, revision) {
      EffectiveIs(db, site, v, n, game, preset, content, revision);
    }
    hide Effective;
    if v :| ProofStands(db, site, v, n, game, preset, content, revision) { assert Effective(db, site, v, n, game, preset, content, revision); assert v in db.runs; }
    hide ProofStands;
  }

  lemma AcceptsIs(db: Db, site: Site, r: Id, n: Id)
    requires r in db.requests && n in site.nodes && db.requests[r].game in site.games && db.requests[r].preset in site.presets
    ensures var q := db.requests[r];
            Accepts(db, site, r, n) <==>
              && CanHost(db, site, n, q.game, site.games[q.game].content, site.presets[q.preset].revision)
              && (site.presets[q.preset].contract.V102Contract? ==> ProvedOn(db, site, q, n))
  {
    var q := db.requests[r];
    var content, revision := site.games[q.game].content, site.presets[q.preset].revision;
    AvailableIs(db, site, n, q.game, revision, content);
    ProvedIs(db, site, n, q.game, q.preset, content, revision);
    assert CanHost(db, site, n, q.game, content, revision) ==> (n, revision) in site.facts.bindings;
    hide NodeReason, CanHost, Proved, ProofStands;
  }

  predicate CanHostHere(db: Db, site: Site, r: Id, n: Id) {
    && r in db.requests && db.requests[r].preset in site.presets && db.requests[r].game in site.games
    && CanHost(db, site, n, db.requests[r].game, site.games[db.requests[r].game].content, site.presets[db.requests[r].preset].revision)
  }

  lemma PlaceableIs(db: Db, site: Site, r: Id, n: Id)
    ensures Placeable(db, site, r, n) <==> MayPlace(db, site, r, n)
  {
    if r in db.requests {
      OfferedIs(db, site, r, n);
      if n in site.nodes && db.requests[r].game in site.games && db.requests[r].preset in site.presets { AcceptsIs(db, site, r, n); }
    }
    assert CanHostHere(db, site, r, n) ==> n in site.nodes;
    hide Accepts, CanHost, ProvedOn, Offered, MayTry;
  }

  // What the create job must meet on the node: for an upgraded preset, the binding and the version as they are now.
  function Demanded(site: Site, q: Request, n: Id): Option<Expected>
    requires q.game in site.games && q.preset in site.presets && (n, site.presets[q.preset].revision) in site.facts.bindings
  {
    var game, b := site.games[q.game], site.facts.bindings[(n, site.presets[q.preset].revision)];
    if site.presets[q.preset].contract.V102Contract? && b.fingerprint.Some? && (q.game, game.content) in site.facts.versions
    then Some(Expected(b.fingerprint.value, b.generation, game.workshop, game.content, site.facts.versions[(q.game, game.content)]))
    else None
  }

  // One more attempt, numbered after the last, reserved on the node with the game's content and the preset's template; its
  // create job, pending; and the request, allocating.
  ghost predicate PlacedAs(db: Db, d: Db, site: Site, r: Id, n: Id, a: Id, j: Id)
    requires MayPlace(db, site, r, n)
  {
    var q := db.requests[r];
    var content, revision := site.games[q.game].content, site.presets[q.preset].revision;
    && a in d.allocations && Follows(db, r, d.allocations[a].attempt)
    && d == db.(
         allocations := db.allocations[a := Allocation(ForRequest(r), q.game, d.allocations[a].attempt, n, content, revision, j,
                                                       AReserved, None, "", site.now)],
         jobs := db.jobs[j := Job(n, Create, a, if Demanded(site, q, n).Some? then ContentValidationV102 else LegacyV1, site.now,
                                  site.facts.bindings[(n, revision)].key, Demanded(site, q, n), JPending, "", "", "", "", false, false)],
         requests := db.requests[r := q.(state := RAllocating)])
  }

  // Above every attempt so far, and only one above.
  ghost predicate Follows(db: Db, r: Id, attempt: nat) {
    && (forall b :: b in db.allocations && db.allocations[b].purpose == ForRequest(r) ==> db.allocations[b].attempt < attempt)
    && (attempt == 1 || exists b :: b in db.allocations && db.allocations[b].purpose == ForRequest(r) && db.allocations[b].attempt == attempt - 1)
  }

  lemma NextAttempt(db: Db, r: Id)
    ensures Follows(db, r, MaxAttempt(db, Attempts(db, r)) + 1)
  {
    MaxAttemptBound(db, Attempts(db, r));
    hide MaxAttempt;
    assert forall b :: b in db.allocations && db.allocations[b].purpose == ForRequest(r) ==> b in Attempts(db, r);
  }

  // A placement commits exactly on such a node, and does exactly this.
  lemma PlacePlaces(db: Db, site: Site, r: Id, n: Id, a: Id, j: Id)
    ensures var res := Perform(db, site, CPlace(r, n, a, j));
            && (res.Committed? <==> MayPlace(db, site, r, n) && a !in db.allocations && j !in db.jobs)
            && (res.Committed? ==> PlacedAs(db, res.db, site, r, n, a, j))
  {
    PlaceableIs(db, site, r, n);
    if Placeable(db, site, r, n) && a !in db.allocations && j !in db.jobs { PlacedRows(db, site, r, n, a, j); }
    PlacePerforms(db, site, r, n, a, j);
    hide Perform, Place, Placeable, MayPlace, PlacedAs;
  }

  lemma PlacePerforms(db: Db, site: Site, r: Id, n: Id, a: Id, j: Id)
    ensures Perform(db, site, CPlace(r, n, a, j)) == Place(db, site, r, n, a, j)
    ensures Place(db, site, r, n, a, j).Committed? <==> Placeable(db, site, r, n) && a !in db.allocations && j !in db.jobs
  {
    hide Accepts, Offered, MaxAttempt, ExpectedOf;
  }

  lemma PlacedRows(db: Db, site: Site, r: Id, n: Id, a: Id, j: Id)
    requires a !in db.allocations && j !in db.jobs && Placeable(db, site, r, n) && MayPlace(db, site, r, n)
    ensures var res := Place(db, site, r, n, a, j); res.Committed? && PlacedAs(db, res.db, site, r, n, a, j)
  {
    NextAttempt(db, r);
    hide Accepts, Offered, MaxAttempt, ProvedOn, MayTry, HasSlot, HasContent, NodeServes, Follows, TakesRequest;
  }

  // For a preset that was never upgraded every node that can host takes the request.
  lemma LegacyPlaces(db: Db, site: Site, r: Id, n: Id)
    requires r in db.requests && db.requests[r].state.RWaiting? && Offers(site, db.requests[r]) && TakesRequest(site, db.requests[r])
    requires MayTry(db, r, n) && site.presets[db.requests[r].preset].contract.LegacyContract?
    ensures MayPlace(db, site, r, n) <==> CanHostHere(db, site, r, n)
  {
    hide CanHost, MayTry;
  }

  // ---- Closing ----

  // A catalogued request closes when its game or preset was switched off, or when it chose no node and every node there is
  // has given it back.
  ghost predicate MayClose(db: Db, site: Site, r: Id) {
    && r in db.requests && db.requests[r].state.RWaiting?
    && var q := db.requests[r];
       && q.game in site.games && q.preset in site.presets
       && (!Offers(site, q)
           || (TakesRequest(site, q) && q.mode.Auto? && (forall n :: n in site.nodes ==> GivenBack(db, r, n))
               && exists a :: a in db.allocations && db.allocations[a].purpose == ForRequest(r) && db.allocations[a].state.AReleasedNoEffect?))
  }

  lemma ExhaustedIs(db: Db, site: Site, r: Id)
    requires r in db.requests
    ensures Exhausted(db, site, r) <==>
      && db.requests[r].mode.Auto? && (forall n :: n in site.nodes ==> GivenBack(db, r, n))
      && exists a :: a in db.allocations && db.allocations[a].purpose == ForRequest(r) && db.allocations[a].state.AReleasedNoEffect?
  {
    forall n ensures Offered(db, site, r, n) <==> n in site.nodes && MayTry(db, r, n) { OfferedIs(db, site, r, n); }
    hide Offered, GivenBack;
    if a :| a in db.allocations && db.allocations[a].purpose == ForRequest(r) && db.allocations[a].state.AReleasedNoEffect? {
      assert AttemptOf(db, r, a);
    }
  }

  lemma CloseCloses(db: Db, site: Site, r: Id)
    ensures var res := Perform(db, site, CClose(r));
            && (res.Committed? <==> MayClose(db, site, r))
            && (res.Committed? ==> res.db == db.(requests := db.requests[r := db.requests[r].(state := RUnavailable)]))
  {
    if r in db.requests { ExhaustedIs(db, site, r); }
    hide Exhausted, GivenBack;
  }

  // ---- Who comes first ----

  // The request that changes is the earliest of those that can; the node it gets has the highest priority of those it may go to.
  lemma FirstOnBest(db: Db, site: Site, r: Id, x: Id, n: Id, m: Id)
    requires FirstToChange(db, site, r) && x in db.requests && x != r && (MayClose(db, site, x) || MayPlace(db, site, x, m))
    requires BestNode(db, site, r, n) && m in site.nodes
    ensures db.requests[r].requestedAt < db.requests[x].requestedAt || (db.requests[r].requestedAt == db.requests[x].requestedAt && r < x)
    ensures m != n && MayPlace(db, site, r, m) ==>
      site.nodes[n].priority > site.nodes[m].priority || (site.nodes[n].priority == site.nodes[m].priority && n < m)
  {
    PlaceableIs(db, site, x, m);
    PlaceableIs(db, site, r, m);
    ClosableIs(db, site, x);
    assert db.requests[x].state.RWaiting?;
    hide Placeable, MayPlace, Closable, MayClose;
    assert CanChange(db, site, x);
    assert !Earlier(db, x, r);
  }

  lemma ClosableIs(db: Db, site: Site, r: Id)
    ensures Closable(db, site, r) <==> MayClose(db, site, r)
  {
    if r in db.requests { ExhaustedIs(db, site, r); }
    hide Exhausted, GivenBack;
  }
}
