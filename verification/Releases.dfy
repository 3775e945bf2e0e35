/** Publishing: one compare-and-set transaction moves the content pointer and the preset templates
    of a game and appends to its history; and the history tells the truth about what is live. */
module Releases {
  import opened Facts
  import opened Ledger
  import opened Calls

  // Who confirmed what for the legacy path: nodes by game and version.
  type Confirmed = set<(Id, Id, string)>

  datatype Plan = Plan(preset: Id, oldTemplate: string, newTemplate: string, oldAccepting: bool, newAccepting: bool, run: Option<Id>)

  datatype Release = Release(id: Id, was: string, next: string, rollbackOf: Option<Id>, plans: seq<Plan>)

  datatype PresetRow = PresetRow(game: Id, template: string, accepting: bool, upgraded: bool)

  // Live pointers ("" for none yet), live presets, and each game's releases, oldest first.
  datatype Shelf = Shelf(content: map<Id, string>, presets: map<Id, PresetRow>, log: map<Id, seq<Release>>)

  datatype Publication = Publication(game: Id, expected: string, next: string, plans: seq<Plan>, rollbackOf: Option<Id>)

  function LogOf(s: Shelf, game: Id): seq<Release> {
    if game in s.log then s.log[game] else []
  }

  // ---- What PublishRelease asks for ----

  // The first upgraded release of a game.
  predicate First(s: Shelf, game: Id) {
    LogOf(s, game) == [] || exists p :: p in s.presets && s.presets[p].game == game && !s.presets[p].upgraded
  }

  predicate Changes(s: Shelf, q: Publication)
    requires q.game in s.content
  {
    First(s, q.game) || s.content[q.game] != q.next
  }

  predicate Planned(s: Shelf, templates: set<(Id, string)>, game: Id, p: Plan) {
    && p.preset in s.presets && s.presets[p.preset].game == game
    && s.presets[p.preset].template == p.oldTemplate && s.presets[p.preset].accepting == p.oldAccepting
    && p.newTemplate != "" && (p.newAccepting <==> p.run.Some?) && (game, p.newTemplate) in templates
  }

  // The run named by an accepting plan is an effective proof of exactly what goes live, on a closed node.
  predicate Backed(db: Db, site: Site, game: Id, content: string, p: Plan) {
    p.newAccepting ==>
      && p.run.Some? && p.run.value in db.runs
      && var n := db.runs[p.run.value].candidate.node;
         && (n, game) in site.facts.content && !site.facts.content[(n, game)].accepting
         && Effective(db, site, p.run.value, n, game, p.preset, content, p.newTemplate)
  }

  predicate Reverts(log: seq<Release>, id: Id, live: string, next: string) {
    exists k :: 0 <= k < |log| && log[k].id == id && log[k].next == live && log[k].was == next
  }

  // A node confirmed for this version that still reports exactly it and would take players.
  predicate Ready(site: Site, confirmed: Confirmed, game: Id, version: string, n: Id) {
    && (n, game, version) in confirmed && n in site.nodes
    && (n, game) in site.facts.content && (game, version) in site.facts.versions
    && var b, node := site.facts.content[(n, game)], site.nodes[n];
       && b.confirmed && b.version == Some(version) && b.sha == Some(site.facts.versions[(game, version)])
       && node.enabled && node.accepting && !node.draining && node.compatible && Online(node, site.now)
  }

  predicate SomeReady(site: Site, confirmed: Confirmed, game: Id, version: string) {
    exists n :: n in site.nodes && Ready(site, confirmed, game, version, n)
  }

  predicate OncePerPreset(plans: seq<Plan>) {
    forall i, j :: 0 <= i < j < |plans| ==> plans[i].preset != plans[j].preset
  }

  predicate Lists(plans: seq<Plan>, p: Id) {
    exists i :: 0 <= i < |plans| && plans[i].preset == p
  }

  predicate Publishable(s: Shelf, db: Db, site: Site, templates: set<(Id, string)>, q: Publication) {
    && q.next != "" && q.plans != [] && q.game in s.content && s.content[q.game] == q.expected
    && (q.game, q.next) in site.facts.versions
    && OncePerPreset(q.plans)
    && (forall i :: 0 <= i < |q.plans| ==> Planned(s, templates, q.game, q.plans[i]))
    && (Changes(s, q) ==> forall p :: p in s.presets && s.presets[p].game == q.game ==> Lists(q.plans, p))
    && (q.rollbackOf.Some? ==> Reverts(LogOf(s, q.game), q.rollbackOf.value, s.content[q.game], q.next))
    && ((forall i :: 0 <= i < |q.plans| ==> !q.plans[i].newAccepting) ==> q.rollbackOf.None? && Changes(s, q))
    && (forall i :: 0 <= i < |q.plans| ==> Backed(db, site, q.game, q.next, q.plans[i]))
  }

  // The presets after the plans are written.
  function Written(presets: map<Id, PresetRow>, plans: seq<Plan>): map<Id, PresetRow> {
    if plans == [] then presets
    else
      var m := Written(presets, plans[..|plans|-1]);
      var p := plans[|plans|-1];
      if p.preset in m then m[p.preset := m[p.preset].(template := p.newTemplate, accepting := p.newAccepting, upgraded := true)] else m
  }

  function Published(s: Shelf, q: Publication, id: Id): Shelf
    requires q.game in s.content
  {
    Shelf(s.content[q.game := q.next], Written(s.presets, q.plans),
          s.log[q.game := LogOf(s, q.game) + [Release(id, s.content[q.game], q.next, q.rollbackOf, q.plans)]])
  }

  // ---- The transaction ----

  // What a request ID was used for.
  datatype Answered = Answered(q: Publication, admin: Id, release: Id)

  class Catalog {
    var content: map<Id, string>
    var presets: map<Id, PresetRow>
    var log: map<Id, seq<Release>>
    var answered: map<string, Answered>

    function View(): Shelf
      reads this
    {
      Shelf(content, presets, log)
    }

    // Every plan matches the live preset it names, and none is named twice.
    method CheckPlans(templates: set<(Id, string)>, game: Id, plans: seq<Plan>) returns (ok: bool)
      ensures ok <==> OncePerPreset(plans) && forall i :: 0 <= i < |plans| ==> Planned(View(), templates, game, plans[i])
    {
      var seen: set<Id> := {};
      for n := 0 to |plans|
        invariant forall p :: p in seen <==> exists i :: 0 <= i < n && plans[i].preset == p
        invariant OncePerPreset(plans[..n])
        invariant forall i :: 0 <= i < n ==> Planned(View(), templates, game, plans[i])
      {
        var p := plans[n];
        if p.preset in seen {
          var i :| 0 <= i < n && plans[i].preset == p.preset;
          assert !OncePerPreset(plans);
          return false;
        }
        if !Planned(View(), templates, game, p) { return false; }
        seen := seen + {p.preset};
      }
      assert plans[..|plans|] == plans;
      return true;
    }

    method CheckProofs(db: Db, site: Site, game: Id, next: string, plans: seq<Plan>) returns (ok: bool, accepting: bool)
      ensures ok <==> forall i :: 0 <= i < |plans| ==> Backed(db, site, game, next, plans[i])
      ensures ok ==> (accepting <==> exists i :: 0 <= i < |plans| && plans[i].newAccepting)
    {
      ok, accepting := true, false;
      for n := 0 to |plans|
        invariant ok && forall i :: 0 <= i < n ==> Backed(db, site, game, next, plans[i])
        invariant accepting <==> exists i :: 0 <= i < n && plans[i].newAccepting
      {
        if plans[n].newAccepting {
          if !Backed(db, site, game, next, plans[n]) { return false, false; }
          accepting := true;
        }
      }
    }

    method WritePlans(plans: seq<Plan>)
      modifies `presets
      ensures presets == Written(old(presets), plans)
    {
      ghost var was := presets;
      for n := 0 to |plans|
        invariant presets == Written(was, plans[..n])
      {
        var p := plans[n];
        assert plans[..n+1][..n] == plans[..n];
        if p.preset in presets {
          presets := presets[p.preset := presets[p.preset].(template := p.newTemplate, accepting := p.newAccepting, upgraded := true)];
        }
      }
      assert plans[..|plans|] == plans;
    }

    // A repeated request is answered as before and changes nothing; another payload or administrator under its ID
    // is refused.
    method PublishRelease(db: Db, site: Site, templates: set<(Id, string)>, q: Publication, id: Id, request: string, admin: Id)
      returns (release: Option<Id>)
      modifies this
      ensures request in old(answered) ==>
        && View() == old(View()) && answered == old(answered)
        && (release.Some? <==> 1 <= |request| <= 128 && old(answered)[request].q == q && old(answered)[request].admin == admin)
        && (release.Some? ==> release.value == old(answered)[request].release)
      ensures request !in old(answered) ==>
        && (release.Some? <==> 1 <= |request| <= 128 && Publishable(old(View()), db, site, templates, q))
        && (release.Some? ==> release.value == id)
        && View() == (if release.Some? then Published(old(View()), q, id) else old(View()))
        && answered == (if release.Some? then old(answered)[request := Answered(q, admin, id)] else old(answered))
    {
      if request == "" || |request| > 128 { return None; }
      if request in answered {
        var prior := answered[request];
        return if prior.q == q && prior.admin == admin then Some(prior.release) else None;
      }
      var ok := PublishNew(db, site, templates, q, id);
      if !ok { return None; }
      answered := answered[request := Answered(q, admin, id)];
      return Some(id);
    }

    method PublishNew(db: Db, site: Site, templates: set<(Id, string)>, q: Publication, id: Id) returns (ok: bool)
      modifies `content, `presets, `log
      ensures ok <==> Publishable(old(View()), db, site, templates, q)
      ensures View() == if ok then Published(old(View()), q, id) else old(View())
    {
      hide Backed, Planned;
      if q.next == "" || q.plans == [] || q.game !in content || content[q.game] != q.expected { return false; }
      if (q.game, q.next) !in site.facts.versions { return false; }
      var changes := Changes(View(), q);
      if changes {
        var missing := set p | p in presets && presets[p].game == q.game && !Lists(q.plans, p);
        if missing != {} {
          var p :| p in missing;
          return false;
        }
        assert forall p :: p in presets && presets[p].game == q.game && !Lists(q.plans, p) ==> p in missing;
      }
      var planned := CheckPlans(templates, q.game, q.plans);
      if !planned { return false; }
      if q.rollbackOf.Some? && !Reverts(LogOf(View(), q.game), q.rollbackOf.value, content[q.game], q.next) { return false; }
      var proved, accepting := CheckProofs(db, site, q.game, q.next, q.plans);
      if !proved { return false; }
      if !accepting && (q.rollbackOf.Some? || !changes) { return false; }
      var release := Release(id, content[q.game], q.next, q.rollbackOf, q.plans);
      log := log[q.game := LogOf(View(), q.game) + [release]];
      WritePlans(q.plans);
      content := content[q.game := q.next];
      return true;
    }

    // content.publish, the legacy action: closed once a game has a release or an upgraded preset.
    method LegacyPublish(site: Site, confirmed: Confirmed, game: Id, next: string) returns (ok: bool)
      modifies `content
      ensures ok <==> game in old(content) && next != "" && LegacyOpen(old(View()), game) && SomeReady(site, confirmed, game, next)
      ensures View() == if ok then old(View()).(content := old(content)[game := next]) else old(View())
    {
      if game !in content || next == "" || !LegacyOpen(View(), game) || !SomeReady(site, confirmed, game, next) { return false; }
      content := content[game := next];
      return true;
    }
  }

  // guardLegacyContentAction
  predicate LegacyOpen(s: Shelf, game: Id) {
    LogOf(s, game) == [] && forall p :: p in s.presets && s.presets[p].game == game ==> !s.presets[p].upgraded
  }

  // ---- Steps ----

  // Everything that writes pointers, templates or history. A preset keeps its game for life.
  datatype Step =
    | Publish(db: Db, site: Site, templates: set<(Id, string)>, q: Publication, id: Id)
    | Legacy(site: Site, confirmed: Confirmed, game: Id, next: string)
    | NewPreset(preset: Id, row: PresetRow)
    | SetAccepting(preset: Id, accepting: bool)
    | NewGame(game: Id)

  function After(s: Shelf, step: Step): Shelf {
    match step
    case Publish(db, site, templates, q, id) => if Publishable(s, db, site, templates, q) then Published(s, q, id) else s
    case Legacy(site, confirmed, game, next) =>
      if game in s.content && next != "" && LegacyOpen(s, game) && SomeReady(site, confirmed, game, next) then s.(content := s.content[game := next]) else s
    case NewPreset(p, row) => if p in s.presets then s else s.(presets := s.presets[p := row])
    case SetAccepting(p, accepting) => if p in s.presets then s.(presets := s.presets[p := s.presets[p].(accepting := accepting)]) else s
    case NewGame(game) => if game in s.content then s else s.(content := s.content[game := ""])
  }

  const BLANK := Shelf(map[], map[], map[])

  function Shelved(steps: seq<Step>): Shelf {
    if steps == [] then BLANK else After(Shelved(steps[..|steps|-1]), steps[|steps|-1])
  }

  // ---- The log ----

  // Each release starts from the content the one before it left.
  predicate Chained(log: seq<Release>) {
    forall i :: 0 < i < |log| ==> log[i].was == log[i - 1].next
  }

  function PlanFor(plans: seq<Plan>, p: Id): Option<Plan> {
    if plans == [] then None
    else if plans[|plans|-1].preset == p then Some(plans[|plans|-1])
    else PlanFor(plans[..|plans|-1], p)
  }

  // Replaying the releases from a first content pointer, or from a first template of one preset.
  // Replaying a log goes on from what it has found so far, and stops where a release recorded another old value.
  function ReplayContent(start: string, log: seq<Release>): Option<string> {
    if log == [] then Some(start)
    else match ReplayContent(start, log[..|log|-1])
      case None => None
      case Some(found) => if log[|log|-1].was == found then Some(log[|log|-1].next) else None
  }

  function ReplayTemplate(start: string, p: Id, log: seq<Release>): Option<string> {
    if log == [] then Some(start)
    else match ReplayTemplate(start, p, log[..|log|-1])
      case None => None
      case Some(found) =>
        match PlanFor(log[|log|-1].plans, p)
        case None => Some(found)
        case Some(plan) => if plan.oldTemplate == found then Some(plan.newTemplate) else None
  }

  // What the first release that lists a preset recorded as old.
  function FirstTemplate(p: Id, log: seq<Release>): Option<string> {
    if log == [] then None
    else match FirstTemplate(p, log[..|log|-1])
      case Some(t) => Some(t)
      case None =>
        match PlanFor(log[|log|-1].plans, p)
        case Some(plan) => Some(plan.oldTemplate)
        case None => None
  }

  // Read backwards from the live template, every release that lists the preset records what it found and what it left.
  predicate Tells(log: seq<Release>, p: Id, live: string) {
    if log == [] then true
    else match PlanFor(log[|log|-1].plans, p)
      case Some(plan) => live == plan.newTemplate && Tells(log[..|log|-1], p, plan.oldTemplate)
      case None => Tells(log[..|log|-1], p, live)
  }

  ghost predicate LogTrue(s: Shelf) {
    forall g :: g in s.log ==> g in s.content && s.log[g] != [] && Chained(s.log[g]) && s.content[g] == s.log[g][|s.log[g]| - 1].next
  }

  ghost predicate TemplatesTrue(s: Shelf) {
    forall p :: p in s.presets ==> Tells(LogOf(s, s.presets[p].game), p, s.presets[p].template)
  }

  // A release lists presets of its own game only.
  ghost predicate ListsTrue(s: Shelf) {
    forall g, k, p :: g in s.log && 0 <= k < |s.log[g]| && Lists(s.log[g][k].plans, p) ==> p in s.presets && s.presets[p].game == g
  }

  ghost predicate Faithful(s: Shelf) {
    LogTrue(s) && TemplatesTrue(s) && ListsTrue(s)
  }

  lemma {:induction false} PlanForLists(plans: seq<Plan>, p: Id)
    ensures PlanFor(plans, p).Some? <==> Lists(plans, p)
    ensures forall i :: OncePerPreset(plans) && 0 <= i < |plans| && plans[i].preset == p ==> PlanFor(plans, p) == Some(plans[i])
    decreases |plans|
  {
    if plans != [] {
      var front := plans[..|plans|-1];
      PlanForLists(front, p);
      assert Lists(front, p) ==> Lists(plans, p) by {
        if Lists(front, p) {
          var i :| 0 <= i < |front| && front[i].preset == p;
          assert plans[i].preset == p;
        }
      }
      assert Lists(plans, p) && plans[|plans|-1].preset != p ==> Lists(front, p) by {
        if Lists(plans, p) && plans[|plans|-1].preset != p {
          var i :| 0 <= i < |plans| && plans[i].preset == p;
          assert front[i].preset == p;
        }
      }
    }
  }

  // A listed preset gets its plan's template; the others keep theirs.
  lemma {:induction false} WrittenRow(presets: map<Id, PresetRow>, plans: seq<Plan>, p: Id)
    requires p in presets
    ensures var m := Written(presets, plans);
            && p in m && m[p].game == presets[p].game
            && match PlanFor(plans, p)
               case Some(plan) => m[p] == presets[p].(template := plan.newTemplate, accepting := plan.newAccepting, upgraded := true)
               case None => m[p] == presets[p]
    decreases |plans|
  {
    if plans != [] { WrittenRow(presets, plans[..|plans|-1], p); }
  }

  lemma {:induction false} WrittenKeys(presets: map<Id, PresetRow>, plans: seq<Plan>)
    ensures Written(presets, plans).Keys == presets.Keys
    decreases |plans|
  {
    if plans != [] { WrittenKeys(presets, plans[..|plans|-1]); }
  }

  // ---- Every step keeps the log faithful ----

  lemma PublishTells(s: Shelf, db: Db, site: Site, templates: set<(Id, string)>, q: Publication, id: Id, p: Id)
    requires Faithful(s) && Publishable(s, db, site, templates, q) && p in s.presets
    ensures var n := Published(s, q, id);
            p in n.presets && n.presets[p].game == s.presets[p].game
            && Tells(LogOf(n, n.presets[p].game), p, n.presets[p].template)
  {
    hide Backed;
    var n := Published(s, q, id);
    WrittenRow(s.presets, q.plans, p);
    PlanForLists(q.plans, p);
    var log := LogOf(n, q.game);
    assert log[..|log|-1] == LogOf(s, q.game);
    if Lists(q.plans, p) {
      var i :| 0 <= i < |q.plans| && q.plans[i].preset == p;
      assert Planned(s, templates, q.game, q.plans[i]);
      assert s.presets[p].game == q.game && s.presets[p].template == q.plans[i].oldTemplate;
    }
  }

  lemma PlannedListed(s: Shelf, templates: set<(Id, string)>, q: Publication, p: Id)
    requires (forall i :: 0 <= i < |q.plans| ==> Planned(s, templates, q.game, q.plans[i])) && Lists(q.plans, p)
    ensures p in s.presets && s.presets[p].game == q.game
  {
    var i :| 0 <= i < |q.plans| && q.plans[i].preset == p;
    assert Planned(s, templates, q.game, q.plans[i]);
  }

  lemma PublishLists(s: Shelf, db: Db, site: Site, templates: set<(Id, string)>, q: Publication, id: Id, g: Id, p: Id, k: nat)
    requires ListsTrue(s) && Publishable(s, db, site, templates, q)
    requires var n := Published(s, q, id); g in n.log && k < |n.log[g]| && Lists(n.log[g][k].plans, p)
    ensures p in s.presets && s.presets[p].game == g
  {
    if g == q.game && k == |LogOf(s, g)| {
      PlannedListed(s, templates, q, p);
    } else {
      hide Publishable, Written, Lists;
      assert g in s.log && Published(s, q, id).log[g][k] == s.log[g][k];
    }
  }

  lemma PublishFaithful(s: Shelf, db: Db, site: Site, templates: set<(Id, string)>, q: Publication, id: Id)
    requires Faithful(s) && Publishable(s, db, site, templates, q)
    ensures Faithful(Published(s, q, id))
  {
    PublishLogTrue(s, q, id);
    PublishTemplatesTrue(s, db, site, templates, q, id);
    PublishListsTrue(s, db, site, templates, q, id);
    hide LogTrue, TemplatesTrue, ListsTrue;
  }

  lemma PublishTemplatesTrue(s: Shelf, db: Db, site: Site, templates: set<(Id, string)>, q: Publication, id: Id)
    requires Faithful(s) && Publishable(s, db, site, templates, q)
    ensures TemplatesTrue(Published(s, q, id))
  {
    var n := Published(s, q, id);
    WrittenKeys(s.presets, q.plans);
    hide Publishable, Tells, Written, Faithful, LogOf;
    forall p | p in n.presets
      ensures Tells(LogOf(n, n.presets[p].game), p, n.presets[p].template)
    {
      PublishTells(s, db, site, templates, q, id, p);
    }
  }

  lemma PublishListsTrue(s: Shelf, db: Db, site: Site, templates: set<(Id, string)>, q: Publication, id: Id)
    requires Faithful(s) && Publishable(s, db, site, templates, q)
    ensures ListsTrue(Published(s, q, id))
  {
    var n := Published(s, q, id);
    WrittenKeys(s.presets, q.plans);
    hide Publishable, Lists, Written, LogTrue, TemplatesTrue;
    forall g, k: int, p | g in n.log && 0 <= k < |n.log[g]| && Lists(n.log[g][k].plans, p)
      ensures p in n.presets && n.presets[p].game == g
    {
      PublishLists(s, db, site, templates, q, id, g, p, k);
      PublishTells(s, db, site, templates, q, id, p);
    }
  }

  lemma PublishLogTrue(s: Shelf, q: Publication, id: Id)
    requires LogTrue(s) && q.game in s.content
    ensures LogTrue(Published(s, q, id))
  {
    hide Written;
  }

  lemma OtherFaithful(s: Shelf, step: Step)
    requires Faithful(s) && !step.Publish?
    ensures Faithful(After(s, step))
  {
    hide Faithful, Publishable, Published, LegacyOpen;
    match step
    case Legacy(site, confirmed, game, next) => if LegacyOpen(s, game) { LegacyFaithful(s, game, next); }
    case NewPreset(p, row) => if p !in s.presets { NewPresetTells(s, p, row); }
    case SetAccepting(p, accepting) => if p in s.presets { AcceptingFaithful(s, p, accepting); }
    case NewGame(game) => if game !in s.content { NewGameFaithful(s, game); }
  }

  lemma LegacyFaithful(s: Shelf, game: Id, next: string)
    requires Faithful(s) && LegacyOpen(s, game)
    ensures Faithful(s.(content := s.content[game := next]))
  {
    hide Tells, Lists;
    assert game !in s.log;
    assert TemplatesTrue(s.(content := s.content[game := next]));
  }

  lemma AcceptingFaithful(s: Shelf, p: Id, accepting: bool)
    requires Faithful(s) && p in s.presets
    ensures Faithful(s.(presets := s.presets[p := s.presets[p].(accepting := accepting)]))
  {
    hide Tells, Lists;
  }

  lemma NewGameFaithful(s: Shelf, game: Id)
    requires Faithful(s) && game !in s.content
    ensures Faithful(s.(content := s.content[game := ""]))
  {
    hide Tells, Lists;
    assert TemplatesTrue(s.(content := s.content[game := ""]));
  }

  lemma NewPresetTells(s: Shelf, p: Id, row: PresetRow)
    requires Faithful(s) && p !in s.presets
    ensures Faithful(s.(presets := s.presets[p := row]))
  {
    var n := s.(presets := s.presets[p := row]);
    hide Lists, Tells;
    assert forall k :: 0 <= k < |LogOf(s, row.game)| ==> !Lists(LogOf(s, row.game)[k].plans, p);
    UnlistedTells(LogOf(n, row.game), p, row.template);
  }

  // A preset no release lists may have any template.
  lemma {:induction false} UnlistedTells(log: seq<Release>, p: Id, live: string)
    requires forall k :: 0 <= k < |log| ==> !Lists(log[k].plans, p)
    ensures Tells(log, p, live)
    decreases |log|
  {
    if log != [] {
      PlanForLists(log[|log|-1].plans, p);
      UnlistedTells(log[..|log|-1], p, live);
    }
  }

  lemma {:induction false} AlwaysFaithful(steps: seq<Step>)
    ensures Faithful(Shelved(steps))
    decreases |steps|
  {
    if steps != [] {
      var front := steps[..|steps|-1];
      AlwaysFaithful(front);
      var s, step := Shelved(front), steps[|steps|-1];
      hide Faithful, Publishable, Published, Shelved;
      if step.Publish? {
        if Publishable(s, step.db, step.site, step.templates, step.q) {
          PublishFaithful(s, step.db, step.site, step.templates, step.q, step.id);
        }
      } else {
        OtherFaithful(s, step);
      }
    }
  }

  // ---- Replay ----

  // A log that tells replays to the live template from the first old one, and from no other.
  lemma {:induction false} TellsReplays(log: seq<Release>, p: Id, live: string, x: string)
    requires Tells(log, p, live)
    ensures match FirstTemplate(p, log)
            case Some(first) => ReplayTemplate(x, p, log) == Some(live) <==> x == first
            case None => ReplayTemplate(x, p, log) == Some(x)
    decreases |log|
  {
    if log != [] {
      match PlanFor(log[|log|-1].plans, p)
      case Some(plan) => TellsReplays(log[..|log|-1], p, plan.oldTemplate, x);
      case None => TellsReplays(log[..|log|-1], p, live, x);
    }
  }

  lemma {:induction false} ListedFirst(log: seq<Release>, p: Id, k: nat)
    requires k < |log| && Lists(log[k].plans, p)
    ensures FirstTemplate(p, log).Some?
    decreases |log|
  {
    var front := log[..|log|-1];
    PlanForLists(log[k].plans, p);
    hide Lists, PlanFor;
    if k < |front| { ListedFirst(front, p, k); }
  }

  lemma {:induction false} ChainReplays(log: seq<Release>)
    requires log != [] && Chained(log)
    ensures ReplayContent(log[0].was, log) == Some(log[|log|-1].next)
    decreases |log|
  {
    var front := log[..|log|-1];
    if front != [] {
      assert front[0] == log[0];
      ChainReplays(front);
    }
  }

  // Replaying a game's releases from their first old values, every recorded old value being what the replay has
  // found, gives exactly what is live: the content pointer, and the template of every preset any release lists.
  // For a preset no other start would do.
  lemma LogIsFaithful(steps: seq<Step>, game: Id, p: Id)
    requires game in Shelved(steps).log
    ensures var s := Shelved(steps);
            var log := s.log[game];
            && log != [] && game in s.content && ReplayContent(log[0].was, log) == Some(s.content[game])
            && ((exists k :: 0 <= k < |log| && Lists(log[k].plans, p)) ==>
                  && p in s.presets && s.presets[p].game == game && FirstTemplate(p, log).Some?
                  && (forall x :: ReplayTemplate(x, p, log) == Some(s.presets[p].template) <==> x == FirstTemplate(p, log).value))
  {
    AlwaysFaithful(steps);
    hide Shelved;
    ShelfIsFaithful(Shelved(steps), game, p);
  }

  lemma ShelfIsFaithful(s: Shelf, game: Id, p: Id)
    requires Faithful(s) && game in s.log
    ensures var log := s.log[game];
            && log != [] && game in s.content && ReplayContent(log[0].was, log) == Some(s.content[game])
            && ((exists k :: 0 <= k < |log| && Lists(log[k].plans, p)) ==>
                  && p in s.presets && s.presets[p].game == game && FirstTemplate(p, log).Some?
                  && (forall x :: ReplayTemplate(x, p, log) == Some(s.presets[p].template) <==> x == FirstTemplate(p, log).value))
  {
    var log := s.log[game];
    hide Tells, Lists, ReplayTemplate, FirstTemplate, PlanFor, ReplayContent;
    ChainReplays(log);
    if exists k :: 0 <= k < |log| && Lists(log[k].plans, p) {
      var k :| 0 <= k < |log| && Lists(log[k].plans, p);
      ListedReplays(s, game, p, k);
    }
  }

  lemma ListedReplays(s: Shelf, game: Id, p: Id, k: nat)
    requires TemplatesTrue(s) && ListsTrue(s) && game in s.log && k < |s.log[game]| && Lists(s.log[game][k].plans, p)
    ensures p in s.presets && s.presets[p].game == game && FirstTemplate(p, s.log[game]).Some?
    ensures forall x :: ReplayTemplate(x, p, s.log[game]) == Some(s.presets[p].template) <==> x == FirstTemplate(p, s.log[game]).value
  {
    hide Tells, Lists, ReplayTemplate, FirstTemplate, PlanFor;
    var log := s.log[game];
    assert LogOf(s, game) == log && Tells(log, p, s.presets[p].template);
    ListedFirst(log, p, k);
    forall x
      ensures ReplayTemplate(x, p, log) == Some(s.presets[p].template) <==> x == FirstTemplate(p, log).value
    {
      TellsReplays(log, p, s.presets[p].template, x);
    }
  }

  // Between s and n the pointer went back behind release k, and nothing left the log.
  predicate Undoes(s: Shelf, n: Shelf, q: Publication, k: int) {
    && 0 <= k < |LogOf(s, q.game)| && q.game in s.content && q.game in n.content
    && var r := LogOf(s, q.game)[k];
       && Some(r.id) == q.rollbackOf && r.next == s.content[q.game] && n.content[q.game] == r.was
       && (k > 0 ==> n.content[q.game] == LogOf(s, q.game)[k - 1].next)
       && LogOf(s, q.game) <= LogOf(n, q.game)
  }

  // A rollback restores the pointer that the reverted release replaced, and appends to history rather than erasing it.
  lemma RollbackRestores(steps: seq<Step>, db: Db, site: Site, templates: set<(Id, string)>, q: Publication, id: Id)
    requires Publishable(Shelved(steps), db, site, templates, q) && q.rollbackOf.Some?
    ensures var s := Shelved(steps);
            var n := After(s, Publish(db, site, templates, q, id));
            exists k :: Undoes(s, n, q, k)
  {
    AlwaysFaithful(steps);
    hide Shelved, Written, Backed, Planned;
    var s := Shelved(steps);
    var log := LogOf(s, q.game);
    var k :| 0 <= k < |log| && log[k].id == q.rollbackOf.value && log[k].next == s.content[q.game] && log[k].was == q.next;
    assert Chained(log);
    var n := After(s, Publish(db, site, templates, q, id));
    assert LogOf(n, q.game)[..|log|] == log;
    assert Undoes(s, n, q, k);
  }

  // Once upgraded, a game's content pointer moves only by a release: the legacy action is closed for good.
  lemma LegacyStaysClosed(s: Shelf, step: Step, game: Id)
    requires !LegacyOpen(s, game)
    ensures !LegacyOpen(After(s, step), game)
  {
    hide Publishable;
    if step.Publish? && After(s, step) != s {
      if LogOf(s, game) == [] {
        var p :| p in s.presets && s.presets[p].game == game && s.presets[p].upgraded;
        WrittenRow(s.presets, step.q.plans, p);
      }
    } else {
      if LogOf(s, game) == [] {
        var p :| p in s.presets && s.presets[p].game == game && s.presets[p].upgraded;
        assert p in After(s, step).presets && After(s, step).presets[p].upgraded;
      }
    }
  }

  // What a publication opens to players was proved for exactly what it makes live.
  lemma AcceptingIsBacked(s: Shelf, db: Db, site: Site, templates: set<(Id, string)>, q: Publication, id: Id, p: Id)
    requires Publishable(s, db, site, templates, q) && p in s.presets && Lists(q.plans, p)
    ensures var n := Published(s, q, id);
            p in n.presets && n.presets[p].upgraded
            && (n.presets[p].accepting ==>
                  exists v, m :: v in db.runs && Effective(db, site, v, m, q.game, p, n.content[q.game], n.presets[p].template))
  {
    WrittenRow(s.presets, q.plans, p);
    PlanForLists(q.plans, p);
    var i :| 0 <= i < |q.plans| && q.plans[i].preset == p;
    var plan := q.plans[i];
    assert Planned(s, templates, q.game, plan) && Backed(db, site, q.game, q.next, plan);
    var n := Published(s, q, id);
    hide Written, Effective, Publishable, PlanFor;
    if plan.newAccepting {
      var v := plan.run.value;
      assert Effective(db, site, v, db.runs[v].candidate.node, q.game, p, n.content[q.game], n.presets[p].template);
    }
  }
}