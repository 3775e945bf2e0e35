/** Party membership on the store's tables. */
module Parties {
  import opened Facts
  import opened Ledger
  import opened Calls
  import opened Coupling
  import opened CouplingRuns
  import opened Store

  lemma RowsOnly(s: Db, d: Db)
    requires Inv(s) && d == s.(members := d.members, parties := d.parties, invites := d.invites)
    ensures Inv(d)
  {
    TablesKeep(s, d);
  }

  method CreateParty(s: Store, site: Site, user: Id, party: Id, token: Id) returns (fault: Option<Fault>)
    requires s.Valid()
    modifies s
    ensures s.Valid()
    ensures Answers(Calls.CreateParty(old(s.View()), site, user, party, token), old(s.View()), fault, s.View())
  {
    ghost var was := s.View();
    fault := None;
    if site.maxPartySize.None? || user in s.members || Busy(s.View(), Solo(user)) {
      fault := Some(Conflict);
    } else if party in s.parties || token in s.invites {
      fault := Some(Internal);
    } else {
      s.parties := s.parties[party := Party(Some(user), true)];
      s.members := s.members[user := party];
      s.invites := s.invites[token := Invite(party, true)];
    }
    RowsOnly(was, s.View());
    hide Inv, Busy;
  }

  // Every open invite of the party stops working.
  method RevokeInvites(s: Store, party: Id)
    modifies s`invites
    ensures s.invites == Revoked(old(s.View()), party)
  {
    var left := s.invites.Keys;
    ghost var was := s.invites;
    while left != {}
      invariant s.invites.Keys == was.Keys && left <= was.Keys
      invariant forall t :: t in was ==>
        s.invites[t] == if t !in left && was[t].party == party then Invite(party, false) else was[t]
      modifies s`invites
      decreases |left|
    {
      var t :| t in left;
      left := left - {t};
      if s.invites[t].party == party { s.invites := s.invites[t := Invite(party, false)]; }
    }
  }

  method ResetInvite(s: Store, user: Id, token: Id) returns (fault: Option<Fault>)
    requires s.Valid()
    modifies s
    ensures s.Valid()
    ensures Answers(Calls.ResetInvite(old(s.View()), user, token), old(s.View()), fault, s.View())
  {
    ghost var was := s.View();
    hide Revoked;
    fault := None;
    if !Leads(s.View(), user) {
      fault := Some(Forbidden);
    } else if token in s.invites {
      fault := Some(Internal);
    } else {
      var party := s.members[user];
      RevokeInvites(s, party);
      s.invites := s.invites[token := Invite(party, true)];
    }
    RowsOnly(was, s.View());
    hide Inv;
  }

  method JoinParty(s: Store, site: Site, user: Id, token: Id) returns (fault: Option<Fault>)
    requires s.Valid()
    modifies s
    ensures s.Valid()
    ensures Answers(Calls.JoinParty(old(s.View()), site, user, token), old(s.View()), fault, s.View())
  {
    ghost var was := s.View();
    fault := None;
    if user in s.members || Busy(s.View(), Solo(user)) || token !in s.invites {
      fault := Some(Conflict);
    } else {
      var party := s.invites[token].party;
      if party !in s.parties {
        fault := Some(Internal);
      } else if !s.parties[party].live || !s.invites[token].active || site.maxPartySize.None?
                || |Members(s.View(), party)| >= site.maxPartySize.value {
        fault := Some(Conflict);
      } else {
        s.members := s.members[user := party];
      }
    }
    RowsOnly(was, s.View());
    hide Inv, Busy, Members;
  }

  method LeaveParty(s: Store, user: Id) returns (fault: Option<Fault>)
    requires s.Valid()
    modifies s
    ensures s.Valid()
    ensures Answers(Calls.LeaveParty(old(s.View()), user), old(s.View()), fault, s.View())
  {
    ghost var was := s.View();
    fault := None;
    if user !in s.members {
      fault := Some(Forbidden);
    } else {
      var party := s.members[user];
      if party !in s.parties || !s.parties[party].live {
        fault := Some(Internal);
      } else if s.parties[party].leader == Some(user) {
        fault := Some(Forbidden);
      } else {
        s.members := s.members - {user};
      }
    }
    RowsOnly(was, s.View());
    hide Inv;
  }

  method RemovePartyMember(s: Store, leader: Id, target: Id) returns (fault: Option<Fault>)
    requires s.Valid()
    modifies s
    ensures s.Valid()
    ensures Answers(RemoveMember(old(s.View()), leader, target), old(s.View()), fault, s.View())
  {
    ghost var was := s.View();
    fault := None;
    if leader == target {
      fault := Some(Conflict);
    } else if !Leads(s.View(), leader) || target !in s.members || s.members[target] != s.members[leader] {
      fault := Some(Forbidden);
    } else {
      s.members := s.members - {target};
    }
    RowsOnly(was, s.View());
    hide Inv;
  }

  method DisbandParty(s: Store, user: Id) returns (fault: Option<Fault>)
    requires s.Valid()
    modifies s
    ensures s.Valid()
    ensures Answers(Calls.DisbandParty(old(s.View()), user), old(s.View()), fault, s.View())
  {
    ghost var was := s.View();
    hide Revoked, Members, PartyBusy;
    fault := None;
    if !Leads(s.View(), user) {
      fault := Some(Forbidden);
    } else if PartyBusy(s.View(), s.members[user]) {
      fault := Some(Conflict);
    } else {
      var party := s.members[user];
      var leaving := Members(s.View(), party);
      RevokeInvites(s, party);
      s.members := s.members - leaving;
      s.parties := s.parties[party := Party(None, false)];
    }
    RowsOnly(was, s.View());
    hide Inv;
  }
}
