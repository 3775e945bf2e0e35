/** What a publication asks for and leaves, said in the rows of the catalog. */
module ReleaseRules {
  import opened Facts
  import opened Ledger
  import opened Calls
  import opened NodeRules
  import opened Releases

  // The first release a game gets, an upgrade of a preset that had none, or new content.
  predicate MovesGame(s: Shelf, q: Publication)
    requires q.game in s.content
  {
    || q.game !in s.log || s.log[q.game] == []
    || (exists p :: p in s.presets && s.presets[p].game == q.game && !s.presets[p].upgraded)
    || s.content[q.game] != q.next
  }

  // The plan repeats what is live of a preset of the game, and names a template of the game; a proof exactly if it is to accept.
  predicate PlanFits(s: Shelf, templates: set<(Id, string)>, game: Id, p: Plan) {
    && p.preset in s.presets && s.presets[p.preset].game == game
    && s.presets[p.preset].template == p.oldTemplate && s.presets[p.preset].accepting == p.oldAccepting
    && p.newTemplate != "" && (game, p.newTemplate) in templates
    && (if p.newAccepting then p.run.Some? else p.run.None?)
  }

  // Players are let in only on a proof that stands for exactly what goes live, on a node still closed for the game.
  predicate ProofGiven(db: Db, site: Site, q: Publication, p: Plan) {
    p.newAccepting ==>
      && p.run.Some? && p.run.value in db.runs
      && var n := db.runs[p.run.value].candidate.node;
         ContentClosed(site, n, q.game) && ProofStands(db, site, p.run.value, n, q.game, p.preset, q.next, p.newTemplate)
  }

  // Everything a publication asks for, in one transaction.
  predicate MayPublish(s: Shelf, db: Db, site: Site, templates: set<(Id, string)>, q: Publication) {
    && q.next != "" && |q.plans| > 0 && q.game in s.content && s.content[q.game] == q.expected
    && (q.game, q.next) in site.facts.versions
    && (forall p :: p in q.plans ==> PlanFits(s, templates, q.game, p) && ProofGiven(db, site, q, p))
    && (forall i, k :: 0 <= i < k < |q.plans| ==> q.plans[i].preset != q.plans[k].preset)
    && (MovesGame(s, q) ==> forall x :: x in s.presets && s.presets[x].game == q.game ==> exists p :: p in q.plans && p.preset == x)
    && (q.rollbackOf.Some? ==>
          q.game in s.log && exists r :: r in s.log[q.game] && r.id == q.rollbackOf.value && r.next == s.content[q.game] && r.was == q.next)
    && ((exists p :: p in q.plans && p.newAccepting) || (MovesGame(s, q) && q.rollbackOf.None?))
  }

  lemma BackedIs(db: Db, site: Site, q: Publication, p: Plan)
    ensures Backed(db, site, q.game, q.next, p) <==> ProofGiven(db, site, q, p)
  {
    if p.run.Some? && p.run.value in db.runs {
      EffectiveIs(db, site, p.run.value, db.runs[p.run.value].candidate.node, q.game, p.preset, q.next, p.newTemplate);
    }
    hide Effective, ProofStands;
  }

  lemma PlansAre(s: Shelf, db: Db, site: Site, templates: set<(Id, string)>, q: Publication)
    ensures (forall i :: 0 <= i < |q.plans| ==> Planned(s, templates, q.game, q.plans[i]) && Backed(db, site, q.game, q.next, q.plans[i])) <==>
            (forall p :: p in q.plans ==> PlanFits(s, templates, q.game, p) && ProofGiven(db, site, q, p))
  {
    forall i | 0 <= i < |q.plans|
      ensures Planned(s, templates, q.game, q.plans[i]) && Backed(db, site, q.game, q.next, q.plans[i]) <==>
              PlanFits(s, templates, q.game, q.plans[i]) && ProofGiven(db, site, q, q.plans[i])
    {
      BackedIs(db, site, q, q.plans[i]);
      hide Backed, ProofGiven;
    }
    hide Planned, Backed, PlanFits, ProofGiven;
  }

  lemma ListsIs(plans: seq<Plan>, x: Id)
    ensures Lists(plans, x) <==> exists p :: p in plans && p.preset == x
  {
    if p :| p in plans && p.preset == x {
      var i :| 0 <= i < |plans| && plans[i] == p;
      assert plans[i].preset == x;
    }
  }

  lemma RevertsIs(log: seq<Release>, id: Id, live: string, next: string)
    ensures Reverts(log, id, live, next) <==> exists r :: r in log && r.id == id && r.next == live && r.was == next
  {
    if r :| r in log && r.id == id && r.next == live && r.was == next {
      var k :| 0 <= k < |log| && log[k] == r;
      assert log[k].id == id;
    }
  }

  lemma AcceptingIs(plans: seq<Plan>)
    ensures (forall i :: 0 <= i < |plans| ==> !plans[i].newAccepting) <==> !exists p :: p in plans && p.newAccepting
  {
    if !exists p :: p in plans && p.newAccepting {
      forall i | 0 <= i < |plans| ensures !plans[i].newAccepting { assert plans[i] in plans; }
    }
  }

  lemma PublishableIs(s: Shelf, db: Db, site: Site, templates: set<(Id, string)>, q: Publication)
    ensures Publishable(s, db, site, templates, q) <==> MayPublish(s, db, site, templates, q)
  {
    PlansAre(s, db, site, templates, q);
    forall x ensures Lists(q.plans, x) <==> exists p :: p in q.plans && p.preset == x { ListsIs(q.plans, x); }
    if q.rollbackOf.Some? && q.game in s.content { RevertsIs(LogOf(s, q.game), q.rollbackOf.value, s.content[q.game], q.next); }
    AcceptingIs(q.plans);
    if q.game in s.content { ChangesIs(s, q); }
    hide Planned, Backed, PlanFits, ProofGiven, Lists, Reverts, MovesGame, Changes;
  }

  lemma ChangesIs(s: Shelf, q: Publication)
    requires q.game in s.content
    ensures Changes(s, q) <==> MovesGame(s, q)
  {
  }

  // Afterwards the pointer is the new one, each plan's preset has its new template and is upgraded, every other preset is as it
  // was, and the release is the last of the game's history.
  lemma PublishPublishes(s: Shelf, db: Db, site: Site, templates: set<(Id, string)>, q: Publication, id: Id)
    requires MayPublish(s, db, site, templates, q)
    ensures var n := After(s, Publish(db, site, templates, q, id));
            && n.content == s.content[q.game := q.next]
            && q.game in n.log && n.log.Keys == s.log.Keys + {q.game} && (forall g :: g in s.log && g != q.game ==> n.log[g] == s.log[g])
            && n.log[q.game] == (if q.game in s.log then s.log[q.game] else []) + [Release(id, s.content[q.game], q.next, q.rollbackOf, q.plans)]
            && n.presets.Keys == s.presets.Keys
            && (forall p :: p in q.plans ==>
                  && p.preset in n.presets && n.presets[p.preset].game == q.game && n.presets[p.preset].upgraded
                  && n.presets[p.preset].template == p.newTemplate && n.presets[p.preset].accepting == p.newAccepting)
            && (forall x :: x in s.presets && !(exists p :: p in q.plans && p.preset == x) ==> n.presets[x] == s.presets[x])
  {
    PublishableIs(s, db, site, templates, q);
    WrittenKeys(s.presets, q.plans);
    hide Publishable, Written;
    forall p | p in q.plans
      ensures p.preset in s.presets && Written(s.presets, q.plans)[p.preset] == PresetRow(q.game, p.newTemplate, p.newAccepting, true)
    {
      assert PlanFits(s, templates, q.game, p);
      PlanWrites(s.presets, q.plans, p);
    }
    forall x | x in s.presets && !(exists p :: p in q.plans && p.preset == x)
      ensures Written(s.presets, q.plans)[x] == s.presets[x]
    {
      ListsIs(q.plans, x);
      WrittenRow(s.presets, q.plans, x);
      PlanForLists(q.plans, x);
    }
  }

  lemma PlanWrites(presets: map<Id, PresetRow>, plans: seq<Plan>, p: Plan)
    requires p in plans && p.preset in presets && forall i, k :: 0 <= i < k < |plans| ==> plans[i].preset != plans[k].preset
    ensures var m := Written(presets, plans);
            p.preset in m && m[p.preset] == PresetRow(presets[p.preset].game, p.newTemplate, p.newAccepting, true)
  {
    var i :| 0 <= i < |plans| && plans[i] == p;
    WrittenRow(presets, plans, p.preset);
    PlanForLists(plans, p.preset);
    hide Written, PlanFor;
  }

  // So a publication that moves the game leaves none of its presets behind.
  lemma NoPresetLeft(s: Shelf, db: Db, site: Site, templates: set<(Id, string)>, q: Publication, id: Id, x: Id)
    requires MayPublish(s, db, site, templates, q) && MovesGame(s, q)
    ensures var n := After(s, Publish(db, site, templates, q, id));
            x in n.presets && n.presets[x].game == q.game ==>
              n.presets[x].upgraded && exists p :: p in q.plans && p.preset == x && p.newTemplate == n.presets[x].template
  {
    PublishPublishes(s, db, site, templates, q, id);
    hide MovesGame, After, PlanFits, ProofGiven;
    if x in s.presets && (exists p :: p in q.plans && p.preset == x) {
      var p :| p in q.plans && p.preset == x;
    }
  }

  // And nothing at all happens otherwise.
  lemma ElseNothing(s: Shelf, db: Db, site: Site, templates: set<(Id, string)>, q: Publication, id: Id)
    requires !MayPublish(s, db, site, templates, q)
    ensures After(s, Publish(db, site, templates, q, id)) == s
  {
    PublishableIs(s, db, site, templates, q);
    hide Publishable, MayPublish;
  }

  // ---- The legacy action ----

  // Some node confirmed the version, still reports exactly it, and would take players.
  predicate SomeNodeServes(site: Site, confirmed: Confirmed, game: Id, version: string) {
    exists n :: n in site.nodes && (n, game, version) in confirmed && NodeServes(site, n)
                && (n, game) in site.facts.content && site.facts.content[(n, game)].confirmed
                && site.facts.content[(n, game)].version == Some(version)
                && (game, version) in site.facts.versions && site.facts.content[(n, game)].sha == Some(site.facts.versions[(game, version)])
  }

  lemma SomeReadyIs(site: Site, confirmed: Confirmed, game: Id, version: string)
    ensures SomeReady(site, confirmed, game, version) <==> SomeNodeServes(site, confirmed, game, version)
  {
    if SomeNodeServes(site, confirmed, game, version) {
      var n :| n in site.nodes && (n, game, version) in confirmed && NodeServes(site, n)
               && (n, game) in site.facts.content && site.facts.content[(n, game)].confirmed
               && site.facts.content[(n, game)].version == Some(version)
               && (game, version) in site.facts.versions && site.facts.content[(n, game)].sha == Some(site.facts.versions[(game, version)]);
      assert Ready(site, confirmed, game, version, n);
    }
  }

  // It moves the pointer of a game with no release and no upgraded preset, to a version some node serves, and nothing else.
  lemma LegacyMoves(s: Shelf, site: Site, confirmed: Confirmed, game: Id, next: string)
    ensures var n := After(s, Legacy(site, confirmed, game, next));
            var may := game in s.content && next != "" && SomeNodeServes(site, confirmed, game, next)
                       && (game !in s.log || s.log[game] == [])
                       && (forall p :: p in s.presets && s.presets[p].game == game ==> !s.presets[p].upgraded);
            n == if may then s.(content := s.content[game := next]) else s
  {
    SomeReadyIs(site, confirmed, game, next);
    hide SomeReady, SomeNodeServes;
  }
}
