/** What the transactions about requests ask for and leave, said in the rows: who acts, what may be chosen,
    when a request opens, and when it is cancelled. */
module RequestRules {
  import opened Facts
  import opened Ledger
  import opened Calls
  import opened Evolution

  // ---- Who acts ----

  // A person without a party acts alone; a leader acts for a live party; no other member acts at all.
  predicate ActsFor(db: Db, user: Id, owner: Owner) {
    if user in db.members then
      && owner == Group(db.members[user]) && db.members[user] in db.parties
      && db.parties[db.members[user]].live && db.parties[db.members[user]].leader == Some(user)
    else owner == Solo(user)
  }

  lemma WhoActs(db: Db, user: Id, owner: Owner)
    ensures Acting(db, user) == Acts(owner) <==> ActsFor(db, user, owner)
    ensures Acting(db, user) == Denied(Forbidden) <==>
      user in db.members && db.members[user] in db.parties && db.parties[db.members[user]].live
      && db.parties[db.members[user]].leader != Some(user)
  {
  }

  predicate BlockedBy(db: Db, owner: Owner) {
    exists r :: r in db.requests && db.requests[r].owner == owner
                && db.requests[r].state !in {REnded, RCancelled, RUnavailable, RAbandoned}
  }

  lemma BusyIs(db: Db, owner: Owner)
    ensures Busy(db, owner) <==> BlockedBy(db, owner)
  {
    if BlockedBy(db, owner) {
      var r :| r in db.requests && db.requests[r].owner == owner && db.requests[r].state !in {REnded, RCancelled, RUnavailable, RAbandoned};
      assert BlockingOwned(db, owner, r);
    }
  }

  // ---- What may be chosen ----

  // The preset is one of the game.
  predicate Listed(site: Site, game: Id, preset: Id) {
    game in site.games && preset in site.presets && site.presets[preset].game == game
  }

  // Nothing is switched off or closed for new games, from the whole site down to the preset.
  predicate TakesPlayers(site: Site, game: Id, preset: Id)
    requires Listed(site, game, preset)
  {
    && site.accepting
    && site.games[game].enabled && site.games[game].accepting
    && site.presets[preset].enabled && site.presets[preset].accepting
  }

  // No more people than the preset has places.
  predicate HasRoom(db: Db, site: Site, owner: Owner, preset: Id)
    requires preset in site.presets
  {
    match owner
    case Solo(_) => true
    case Group(p) => |set u | u in db.members && db.members[u] == p| <= site.presets[preset].maxPlayers
  }

  predicate NodeChosen(site: Site, mode: Mode) {
    match mode
    case Auto => true
    case Manual(n) => n in site.nodes && site.nodes[n].enabled
  }

  predicate PartyLives(db: Db, owner: Owner) {
    match owner
    case Solo(_) => true
    case Group(p) => p in db.parties && db.parties[p].live
  }

  // The choice is admitted, or refused for the first reason that holds.
  lemma AdmissionIs(db: Db, site: Site, game: Id, preset: Id, owner: Owner, mode: Mode)
    ensures var check := FreshCheck(db, site, game, preset, owner, mode);
            && (check.Broken? <==> !PartyLives(db, owner))
            && (check == Refused(InvalidSelection) <==> PartyLives(db, owner) && !Listed(site, game, preset))
            && (check == Refused(Maintenance) <==>
                  PartyLives(db, owner) && Listed(site, game, preset) && !TakesPlayers(site, game, preset))
            && (check == Refused(PartyTooLarge) <==>
                  PartyLives(db, owner) && Listed(site, game, preset) && TakesPlayers(site, game, preset) && !HasRoom(db, site, owner, preset))
            && (check == Refused(InvalidNodeSelection) <==>
                  PartyLives(db, owner) && Listed(site, game, preset) && TakesPlayers(site, game, preset) && HasRoom(db, site, owner, preset)
                  && !NodeChosen(site, mode))
            && (check.FreshOk? <==>
                  PartyLives(db, owner) && Listed(site, game, preset) && TakesPlayers(site, game, preset) && HasRoom(db, site, owner, preset)
                  && NodeChosen(site, mode))
  {
    if owner.Group? { assert Members(db, owner.party) == set u | u in db.members && db.members[u] == owner.party; }
  }

  // ---- Opening and cancelling ----

  // A new request: one more waiting row, as chosen, for the one who acts; nothing while they have a request that blocks;
  // and refused, with the reason, exactly when the choice is not admitted.
  lemma NewRequestOpens(db: Db, site: Site, user: Id, owner: Owner, game: Id, preset: Id, mode: Mode, id: Id)
    requires ActsFor(db, user, owner) && id !in db.requests
    ensures var res := Perform(db, site, CNewRequest(user, game, preset, mode, id));
            if BlockedBy(db, owner) then res == Committed(db)
            else if !Listed(site, game, preset) then res == Failed(Refusal(InvalidSelection))
            else if !TakesPlayers(site, game, preset) then res == Failed(Refusal(Maintenance))
            else if !HasRoom(db, site, owner, preset) then res == Failed(Refusal(PartyTooLarge))
            else if !NodeChosen(site, mode) then res == Failed(Refusal(InvalidNodeSelection))
            else res == Committed(db.(requests := db.requests[id := Request(owner, game, preset, mode, site.now, RWaiting)]))
  {
    WhoActs(db, user, owner);
    BusyIs(db, owner);
    AdmissionIs(db, site, game, preset, owner, mode);
    hide Acting, Busy, FreshCheck, BlockedBy, Listed, TakesPlayers, HasRoom, NodeChosen;
  }

  lemma OthersOpenNothing(db: Db, site: Site, user: Id, game: Id, preset: Id, mode: Mode, id: Id)
    requires forall owner :: !ActsFor(db, user, owner)
    ensures Perform(db, site, CNewRequest(user, game, preset, mode, id)).Failed?
  {
    forall owner ensures Acting(db, user) != Acts(owner) { WhoActs(db, user, owner); }
    hide Acting, ActsFor, Busy, Opened;
  }

  predicate Tried(db: Db, r: Id) {
    exists a :: a in db.allocations && db.allocations[a].purpose == ForRequest(r)
  }

  lemma AttemptsAre(db: Db, r: Id)
    ensures Attempts(db, r) == {} <==> !Tried(db, r)
  {
    assert forall a :: a in Attempts(db, r) <==> a in db.allocations && db.allocations[a].purpose == ForRequest(r);
  }

  // Only a waiting request that nothing was ever tried for is cancelled, by its owner or an operator; nothing else changes.
  lemma CancelClears(db: Db, site: Site, user: Id, owner: Owner, r: Id)
    requires ActsFor(db, user, owner)
    ensures var mine := Perform(db, site, CUserCancel(user, r));
            var any := Perform(db, site, CAdminCancel(r));
            && (any.Committed? <==> r in db.requests && db.requests[r].state.RWaiting? && !Tried(db, r))
            && (mine.Committed? <==> any.Committed? && db.requests[r].owner == owner)
            && (any.Committed? ==> any.db == db.(requests := db.requests[r := db.requests[r].(state := RCancelled)]))
            && (mine.Committed? ==> mine == any)
  {
    WhoActs(db, user, owner);
    AttemptsAre(db, r);
    hide Acting, ActsFor, Attempts, Tried;
  }
}
