/** When a next game that was asked for starts, and what it is refused for, said in the rows. */
module NextGameRules {
  import opened Facts
  import opened Ledger
  import opened Calls
  import opened Coupling
  import opened CouplingSteps
  import opened CouplingRuns
  import opened Evolution
  import opened RequestRules
  import OneBlocking

  // The choice would be admitted as a new request.
  predicate Admitted(db: Db, site: Site, q: Request) {
    Listed(site, q.game, q.preset) && TakesPlayers(site, q.game, q.preset) && HasRoom(db, site, q.owner, q.preset) && NodeChosen(site, q.mode)
  }

  function WhyNot(db: Db, site: Site, q: Request): FreshError {
    if !Listed(site, q.game, q.preset) then InvalidSelection
    else if !TakesPlayers(site, q.game, q.preset) then Maintenance
    else if !HasRoom(db, site, q.owner, q.preset) then PartyTooLarge
    else InvalidNodeSelection
  }

  // A wish that waits: pending, or paused without a reason where the owner has just left the old resource behind.
  predicate Waits(db: Db, r: Id, left: bool) {
    && r in db.intents && db.intents[r].failure.None?
    && (db.intents[r].state.IPending? || (left && db.intents[r].state.IPaused?))
  }

  // From db to d the wish of r was granted: a new request with the old choice, waiting from now; or refused, with the reason kept.
  // Nothing else of requests and wishes changed.
  ghost predicate Played(db: Db, d: Db, site: Site, r: Id, left: bool, next: Id)
    requires r in db.requests
  {
    var q := db.requests[r];
    if !Waits(db, r, left) then d.requests == db.requests && d.intents == db.intents
    else if Admitted(db, site, q) then
      && d.requests == db.requests[next := Request(q.owner, q.game, q.preset, q.mode, site.now, RWaiting)]
      && d.intents == db.intents[r := db.intents[r].(state := IConsumed, newRequest := Some(next))]
    else
      && d.requests == db.requests
      && d.intents == db.intents[r := db.intents[r].(state := IPaused, failure := Some(WhyNot(db, site, q)))]
  }

  // Consuming does exactly that, and with a living owner and a fresh ID it always commits.
  lemma ConsumePlays(db: Db, site: Site, r: Id, left: bool, next: Id)
    requires r in db.requests && next !in db.requests && PartyLives(db, db.requests[r].owner)
    ensures var res := Consume(db, site, r, left, next);
            && res.Committed? && Played(db, res.db, site, r, left, next)
            && res.db == db.(requests := res.db.requests, intents := res.db.intents)
  {
    var q := db.requests[r];
    AdmissionIs(db, site, q.game, q.preset, q.owner, q.mode);
    hide FreshCheck, Listed, TakesPlayers, HasRoom, NodeChosen, PartyLives;
  }

  lemma PlayedSame(d: Db, m: Db, e: Db, site: Site, r: Id, left: bool, next: Id)
    requires r in d.requests && m.requests == d.requests && m.intents == d.intents && m.parties == d.parties && m.members == d.members
    requires Played(d, e, site, r, left, next)
    ensures Played(m, e, site, r, left, next)
  {
  }

  // ---- Leaving a quarantined request behind ----

  // Only its owner may, and only then; the resource stays held, and a wish that waits is played at once.
  lemma AbandonLeaves(h: History, site: Site, user: Id, owner: Owner, r: Id, next: Id)
    requires ActsFor(Exec(h), user, owner) && r in Exec(h).requests && next !in Exec(h).requests
    ensures var db := Exec(h);
            var q := db.requests[r];
            var res := Perform(db, site, CAbandon(user, r, next));
            && (res.Committed? <==> q.owner == owner && (q.state.RQuarantined? || q.state.RAbandoned?))
            && (res.Committed? && q.state.RAbandoned? ==> res.db == db)
            && (res.Committed? && q.state.RQuarantined? ==>
                  && Played(db.(requests := db.requests[r := q.(state := RAbandoned)]), res.db, site, r, true, next)
                  && res.db == db.(requests := res.db.requests, intents := res.db.intents))
  {
    RunKeepsInv(h);
    hide Exec, Coupled, Abandon, ActsFor;
    InvRequest(Exec(h), r);
    AbandonFrom(Exec(h), site, user, owner, r, next);
  }

  lemma AbandonFrom(db: Db, site: Site, user: Id, owner: Owner, r: Id, next: Id)
    requires r in db.requests && Coupled(db, r) && ActsFor(db, user, owner) && next !in db.requests
    ensures var q := db.requests[r];
            var res := Abandon(db, site, user, r, next);
            && (res.Committed? <==> q.owner == owner && (q.state.RQuarantined? || q.state.RAbandoned?))
            && (res.Committed? && q.state.RAbandoned? ==> res.db == db)
            && (res.Committed? && q.state.RQuarantined? ==>
                  && Played(db.(requests := db.requests[r := q.(state := RAbandoned)]), res.db, site, r, true, next)
                  && res.db == db.(requests := res.db.requests, intents := res.db.intents))
  {
    WhoActs(db, user, owner);
    OwnerLivesOn(db, user, owner);
    hide Acting, ActsFor, PartyLives, Played, Consume, LatestAttempt, PausedIntent, HasOpen;
    if db.requests[r].owner == owner && db.requests[r].state.RQuarantined? {
      OneBlocking.MayAbandon(db, r);
      hide Coupled;
      var d := SetRequest(db, r, RAbandoned);
      assert d == db.(requests := db.requests[r := db.requests[r].(state := RAbandoned)]);
      LivesBeside(db, d, r);
      ConsumePlays(d, site, r, true, next);
    }
  }

  lemma OwnerLivesOn(db: Db, user: Id, owner: Owner)
    requires ActsFor(db, user, owner)
    ensures PartyLives(db, owner)
  {
  }

  lemma LivesBeside(db: Db, d: Db, r: Id)
    requires r in db.requests && r in d.requests && d.requests[r].owner == db.requests[r].owner && d.parties == db.parties
    requires PartyLives(db, db.requests[r].owner)
    ensures PartyLives(d, d.requests[r].owner)
  {
  }
}
