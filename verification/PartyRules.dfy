/** What the transactions about parties ask for and leave, said in the rows. */
module PartyRules {
  import opened Facts
  import opened Ledger
  import opened Calls
  import opened RequestRules

  predicate LeadsParty(db: Db, user: Id, p: Id) {
    user in db.members && db.members[user] == p && p in db.parties && db.parties[p].live && db.parties[p].leader == Some(user)
  }

  // No invite of the party works any more; every other is as it was.
  ghost predicate InvitesClosed(m: map<Id, Invite>, n: map<Id, Invite>, p: Id) {
    n.Keys == m.Keys && forall t :: t in m ==> n[t] == if m[t].party == p then Invite(p, false) else m[t]
  }

  // Nothing of the party waits or plays, and no capacity is held for it.
  ghost predicate PartyIdle(db: Db, p: Id) {
    && !RequestRules.BlockedBy(db, Group(p))
    && forall a, r :: a in db.allocations && r in db.requests && db.allocations[a].purpose == ForRequest(r) && db.requests[r].owner == Group(p) ==>
         db.allocations[a].state.AReclaimed? || db.allocations[a].state.AReleasedNoEffect?
  }

  lemma PartyBusyIs(db: Db, p: Id)
    ensures PartyBusy(db, p) <==> !PartyIdle(db, p)
  {
    if PartyBusy(db, p) {
      var r :| r in db.requests && db.requests[r].owner == Group(p) && (Blocking(db.requests[r].state) || HasOpen(db, r));
      if HasOpen(db, r) {
        var a :| a in db.allocations && OpenAttempt(db, r, a);
        assert db.allocations[a].purpose == ForRequest(r);
      }
    }
    if RequestRules.BlockedBy(db, Group(p)) {
      BusyIs(db, Group(p));
      var r :| r in db.requests && BlockingOwned(db, Group(p), r);
      assert PartyBusy(db, p);
    }
    if a, r :| a in db.allocations && r in db.requests && db.allocations[a].purpose == ForRequest(r) && db.requests[r].owner == Group(p)
               && !db.allocations[a].state.AReclaimed? && !db.allocations[a].state.AReleasedNoEffect? {
      assert OpenAttempt(db, r, a);
      assert PartyBusy(db, p);
    }
  }

  // A person in no party, with nothing that blocks, becomes the leader and only member of a new live party with one invite.
  lemma CreateStarts(db: Db, site: Site, user: Id, party: Id, token: Id)
    ensures var res := Perform(db, site, CCreateParty(user, party, token));
            && (res.Committed? <==>
                  && site.maxPartySize.Some? && user !in db.members && !RequestRules.BlockedBy(db, Solo(user))
                  && party !in db.parties && token !in db.invites)
            && (res.Committed? ==>
                  res.db == db.(members := db.members[user := party], parties := db.parties[party := Party(Some(user), true)],
                                invites := db.invites[token := Invite(party, true)]))
  {
    BusyIs(db, Solo(user));
    hide Busy, RequestRules.BlockedBy;
  }

  // The leader's new invite is the only one that works.
  lemma ResetReplaces(db: Db, site: Site, user: Id, token: Id)
    ensures var res := Perform(db, site, CResetInvite(user, token));
            && (res.Committed? <==> user in db.members && LeadsParty(db, user, db.members[user]) && token !in db.invites)
            && (res.Committed? ==>
                  && res.db == db.(invites := res.db.invites) && token in res.db.invites
                  && res.db.invites[token] == Invite(db.members[user], true)
                  && InvitesClosed(db.invites, res.db.invites - {token}, db.members[user]))
  {
    hide Members;
    if user in db.members && LeadsParty(db, user, db.members[user]) && token !in db.invites { ResetInvites(db, user, token); }
    hide Revoked, InvitesClosed;
  }

  lemma ResetInvites(db: Db, user: Id, token: Id)
    requires user in db.members && token !in db.invites
    ensures InvitesClosed(db.invites, Revoked(db, db.members[user])[token := Invite(db.members[user], true)] - {token}, db.members[user])
  {
  }

  // An invite that works brings a person in no party, with nothing that blocks, into its live party while there is a place.
  lemma JoinJoins(db: Db, site: Site, user: Id, token: Id)
    ensures var res := Perform(db, site, CJoinParty(user, token));
            && (res.Committed? <==>
                  && user !in db.members && !RequestRules.BlockedBy(db, Solo(user))
                  && token in db.invites && db.invites[token].active
                  && db.invites[token].party in db.parties && db.parties[db.invites[token].party].live
                  && site.maxPartySize.Some?
                  && |set u | u in db.members && db.members[u] == db.invites[token].party| < site.maxPartySize.value)
            && (res.Committed? ==> res.db == db.(members := db.members[user := db.invites[token].party]))
  {
    BusyIs(db, Solo(user));
    if token in db.invites {
      assert Members(db, db.invites[token].party) == set u | u in db.members && db.members[u] == db.invites[token].party;
    }
    hide Busy, RequestRules.BlockedBy, Members;
  }

  // Members leave; a leader cannot.
  lemma LeaveLeaves(db: Db, site: Site, user: Id)
    ensures var res := Perform(db, site, CLeaveParty(user));
            && (res.Committed? <==>
                  && user in db.members && db.members[user] in db.parties && db.parties[db.members[user]].live
                  && db.parties[db.members[user]].leader != Some(user))
            && (res.Committed? ==> res.db == db.(members := db.members - {user}))
  {
  }

  // The leader removes another member of the same party.
  lemma RemoveRemoves(db: Db, site: Site, leader: Id, target: Id)
    ensures var res := Perform(db, site, CRemoveMember(leader, target));
            && (res.Committed? <==>
                  && leader != target && leader in db.members && LeadsParty(db, leader, db.members[leader])
                  && target in db.members && db.members[target] == db.members[leader])
            && (res.Committed? ==> res.db == db.(members := db.members - {target}))
  {
  }

  // The leader disbands an idle party: no member, no leader, no invite is left of it.
  lemma DisbandClears(db: Db, site: Site, user: Id)
    ensures var res := Perform(db, site, CDisbandParty(user));
            && (res.Committed? <==> user in db.members && LeadsParty(db, user, db.members[user]) && PartyIdle(db, db.members[user]))
            && (res.Committed? ==>
                  var p := db.members[user];
                  && res.db == db.(members := res.db.members, parties := db.parties[p := Party(None, false)], invites := res.db.invites)
                  && (forall u :: u in res.db.members <==> u in db.members && db.members[u] != p)
                  && (forall u :: u in res.db.members ==> res.db.members[u] == db.members[u])
                  && InvitesClosed(db.invites, res.db.invites, p))
  {
    if user in db.members {
      PartyBusyIs(db, db.members[user]);
      DisbandRows(db, db.members[user]);
    }
    hide PartyBusy, PartyIdle, Revoked, InvitesClosed, Members;
  }

  lemma DisbandRows(db: Db, p: Id)
    ensures InvitesClosed(db.invites, Revoked(db, p), p)
    ensures forall u :: u in db.members - Members(db, p) <==> u in db.members && db.members[u] != p
  {
  }
}
