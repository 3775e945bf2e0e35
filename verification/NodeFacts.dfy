/** The counters that fence a validation proof: every writer of a node's content facts, template
    facts, template bindings and maintenance epochs, and why a proof that stands now has stood
    without a break since its run was reserved. */
module NodeFacts {
  import opened Facts
  import opened Ledger
  import opened Calls

  // ---- What a heartbeat says ----

  datatype ContentReport = ContentReport(workshop: string, confirmed: bool, version: string, sha: string)
  datatype TemplateReport = TemplateReport(key: string, confirmed: bool, algorithm: string, fingerprint: string)

  // Games by Workshop item, and the known versions of each with their digest, if recorded.
  datatype Catalog = Catalog(games: map<string, Id>, versions: map<(Id, string), Option<string>>)

  type Identity = (bool, Option<string>, Option<string>)

  const UNKNOWN: Identity := (false, None, None)

  // The identity a content report proves: only a known version with no digest or the recorded one.
  function Proves(c: Catalog, game: Id, r: ContentReport): Identity {
    if r.confirmed && (game, r.version) in c.versions && (r.sha == "" || c.versions[(game, r.version)] == Some(r.sha))
    then (true, Some(r.version), if r.sha == "" then None else Some(r.sha))
    else UNKNOWN
  }

  type Proof = (Option<string>, bool, Option<string>, Option<string>)

  const UNPROVED: Proof := (None, false, None, None)

  function Text(s: string): Option<string> {
    if s == "" then None else Some(s)
  }

  function ProofOf(r: TemplateReport): Proof {
    if r.confirmed then (Text(r.key), true, Text(r.algorithm), Text(r.fingerprint)) else UNPROVED
  }

  // The digest pattern: 64 lower-case hexadecimal digits.
  predicate Digest(s: string) {
    |s| == 64 && forall i :: 0 <= i < |s| ==> '0' <= s[i] <= '9' || 'a' <= s[i] <= 'f'
  }

  // ---- Rows ----

  // The content row a report leaves: the revision counts changes of identity, and nothing else.
  function ContentAfter(m: map<(Id, Id), ContentBinding>, at: (Id, Id), i: Identity, now: int): ContentBinding {
    if at !in m then ContentBinding(false, 0, if i.0 then 1 else 0, i.0, i.1, i.2, now)
    else
      var b := m[at];
      b.(revision := if ContentIdentity(b) == i then b.revision else b.revision + 1,
         confirmed := i.0, version := i.1, sha := i.2, reportedAt := now)
  }

  function TemplateAfter(m: map<(Id, string), TemplateFact>, at: (Id, string), p: Proof, now: int): TemplateFact {
    if at !in m then TemplateFact(p.0, p.1, p.2, p.3, if p.1 then 1 else 0, now)
    else
      var t := m[at];
      TemplateFact(p.0, p.1, p.2, p.3, if TemplateIdentity(t) == p then t.revision else t.revision + 1, now)
  }

  // ---- What no writer may do ----

  predicate ContentAdvances(x: ContentBinding, y: ContentBinding) {
    && x.epoch <= y.epoch && x.revision <= y.revision
    && (x.revision == y.revision ==> ContentIdentity(x) == ContentIdentity(y))
  }

  predicate TemplateAdvances(x: TemplateFact, y: TemplateFact) {
    x.revision <= y.revision && (x.revision == y.revision ==> TemplateIdentity(x) == TemplateIdentity(y))
  }

  predicate BindingAdvances(x: TemplateBinding, y: TemplateBinding) {
    x.generation <= y.generation && (x.generation == y.generation ==> BindingIdentity(x) == BindingIdentity(y))
  }

  // Rows stay, counters never fall, and a counter that stands still vouches for the identity.
  ghost predicate Advances(f: Facts, g: Facts) {
    && (forall k :: k in f.content ==> k in g.content && ContentAdvances(f.content[k], g.content[k]))
    && (forall k :: k in f.templates ==> k in g.templates && TemplateAdvances(f.templates[k], g.templates[k]))
    && (forall k :: k in f.bindings ==> k in g.bindings && BindingAdvances(f.bindings[k], g.bindings[k]))
  }

  lemma AdvancesTransitive(f: Facts, g: Facts, h: Facts)
    requires Advances(f, g) && Advances(g, h)
    ensures Advances(f, h)
  {
  }

  // ---- The tables after a heartbeat ----

  type Contents = map<(Id, Id), ContentBinding>
  type Templates = map<(Id, string), TemplateFact>
  type Bindings = map<(Id, string), TemplateBinding>

  // The games a heartbeat names.
  function Seen(c: Catalog, reports: seq<ContentReport>): set<Id> {
    set i | 0 <= i < |reports| && reports[i].workshop in c.games :: c.games[reports[i].workshop]
  }

  function ContentStep(m: Contents, node: Id, now: int, c: Catalog, r: ContentReport): Contents {
    if r.workshop !in c.games then m
    else
      var k := (node, c.games[r.workshop]);
      m[k := ContentAfter(m, k, Proves(c, k.1, r), now)]
  }

  function ContentReported(m: Contents, node: Id, now: int, c: Catalog, reports: seq<ContentReport>): Contents {
    if reports == [] then m
    else ContentStep(ContentReported(m, node, now, c, reports[..|reports|-1]), node, now, c, reports[|reports|-1])
  }

  // A row the node reported nothing for becomes unknown. If it is unknown already, only its time moves.
  function ContentForgotten(m: Contents, node: Id, now: int, seen: set<Id>): Contents {
    map k | k in m :: if k.0 == node && k.1 !in seen then ContentAfter(m, k, UNKNOWN, now) else m[k]
  }

  // The template revisions bound to a key.
  function Revisions(bindings: Bindings, node: Id, key: string): set<string> {
    set k | k in bindings && k.0 == node && bindings[k].key == key :: k.1
  }

  function TemplateStep(m: Templates, node: Id, now: int, p: Proof, revisions: set<string>): Templates {
    map k | k in m.Keys + (set r | r in revisions :: (node, r)) ::
      if k.0 == node && k.1 in revisions then TemplateAfter(m, k, p, now) else m[k]
  }

  function TemplateReported(m: Templates, bindings: Bindings, node: Id, now: int, reports: seq<TemplateReport>): Templates {
    if reports == [] then m
    else
      var r := reports[|reports|-1];
      TemplateStep(TemplateReported(m, bindings, node, now, reports[..|reports|-1]), node, now, ProofOf(r), Revisions(bindings, node, r.key))
  }

  function SeenRevisions(bindings: Bindings, node: Id, reports: seq<TemplateReport>): set<string> {
    if reports == [] then {}
    else SeenRevisions(bindings, node, reports[..|reports|-1]) + Revisions(bindings, node, reports[|reports|-1].key)
  }

  function TemplatesForgotten(m: Templates, node: Id, now: int, seen: set<string>): Templates {
    map k | k in m :: if k.0 == node && k.1 !in seen then TemplateAfter(m, k, UNPROVED, now) else m[k]
  }

  // ---- What the tables say after it ----

  // Each reported game has the reported identity, each other game of the node is unknown, other nodes are untouched.
  lemma {:induction false} ReportedRow(m: Contents, node: Id, now: int, c: Catalog, reports: seq<ContentReport>, k: (Id, Id))
    requires forall i, j :: 0 <= i < j < |reports| ==> reports[i].workshop != reports[j].workshop
    requires forall v, w :: v in c.games && w in c.games && v != w ==> c.games[v] != c.games[w]
    ensures var n := ContentReported(m, node, now, c, reports);
            && (k.0 != node || k.1 !in Seen(c, reports) ==> (k in n <==> k in m) && (k in m ==> n[k] == m[k]))
            && (forall i :: 0 <= i < |reports| && k.0 == node && reports[i].workshop in c.games && c.games[reports[i].workshop] == k.1 ==>
                  k in n && n[k] == ContentAfter(m, k, Proves(c, k.1, reports[i]), now))
    decreases |reports|
  {
    if reports != [] {
      var l := |reports| - 1;
      var front := reports[..l];
      ReportedRow(m, node, now, c, front, k);
      assert forall g :: g in Seen(c, front) ==> g in Seen(c, reports);
      if reports[l].workshop in c.games {
        var g := c.games[reports[l].workshop];
        assert g in Seen(c, reports);
        assert g !in Seen(c, front);
      }
    }
  }

  lemma HeartbeatContent(m: Contents, node: Id, now: int, c: Catalog, reports: seq<ContentReport>, k: (Id, Id))
    requires forall i, j :: 0 <= i < j < |reports| ==> reports[i].workshop != reports[j].workshop
    requires forall v, w :: v in c.games && w in c.games && v != w ==> c.games[v] != c.games[w]
    ensures var n := ContentForgotten(ContentReported(m, node, now, c, reports), node, now, Seen(c, reports));
            && (k.0 != node ==> (k in n <==> k in m) && (k in m ==> n[k] == m[k]))
            && (forall i :: 0 <= i < |reports| && k.0 == node && reports[i].workshop in c.games && c.games[reports[i].workshop] == k.1 ==>
                  k in n && ContentIdentity(n[k]) == Proves(c, k.1, reports[i]))
            && (k.0 == node && k.1 !in Seen(c, reports) ==> (k in n <==> k in m) && (k in n ==> ContentIdentity(n[k]) == UNKNOWN))
  {
    ReportedRow(m, node, now, c, reports, k);
    forall i | 0 <= i < |reports| && k.0 == node && reports[i].workshop in c.games && c.games[reports[i].workshop] == k.1
      ensures k.1 in Seen(c, reports)
    {
    }
  }

  // ---- Counters only rise, and rise on every change ----

  ghost predicate ContentsAdvance(m: Contents, n: Contents) {
    forall k :: k in m ==> k in n && ContentAdvances(m[k], n[k])
  }

  ghost predicate TemplatesAdvance(m: Templates, n: Templates) {
    forall k :: k in m ==> k in n && TemplateAdvances(m[k], n[k])
  }

  lemma {:induction false} ReportsAdvance(m: Contents, node: Id, now: int, c: Catalog, reports: seq<ContentReport>)
    ensures ContentsAdvance(m, ContentReported(m, node, now, c, reports))
    decreases |reports|
  {
    if reports != [] { ReportsAdvance(m, node, now, c, reports[..|reports|-1]); }
  }

  lemma HeartbeatContentAdvances(m: Contents, node: Id, now: int, c: Catalog, reports: seq<ContentReport>)
    ensures ContentsAdvance(m, ContentForgotten(ContentReported(m, node, now, c, reports), node, now, Seen(c, reports)))
  {
    ReportsAdvance(m, node, now, c, reports);
    hide Seen, ContentReported;
  }

  lemma {:induction false} TemplateReportsAdvance(m: Templates, bindings: Bindings, node: Id, now: int, reports: seq<TemplateReport>)
    ensures TemplatesAdvance(m, TemplateReported(m, bindings, node, now, reports))
    decreases |reports|
  {
    if reports != [] {
      TemplateReportsAdvance(m, bindings, node, now, reports[..|reports|-1]);
      hide Revisions, ProofOf;
    }
  }

  lemma HeartbeatTemplatesAdvance(m: Templates, bindings: Bindings, node: Id, now: int, reports: seq<TemplateReport>)
    ensures TemplatesAdvance(m, TemplatesForgotten(TemplateReported(m, bindings, node, now, reports), node, now, SeenRevisions(bindings, node, reports)))
  {
    TemplateReportsAdvance(m, bindings, node, now, reports);
    hide SeenRevisions, TemplateReported;
  }

  lemma BindingsStay(m: Bindings)
    ensures forall k :: k in m ==> BindingAdvances(m[k], m[k])
  {
  }

  lemma FactsStay(f: Facts)
    ensures Advances(f, f)
  {
  }

  lemma HeartbeatAdvances(f: Facts, g: Facts, node: Id, now: int, c: Catalog, reports: seq<ContentReport>, facts: seq<TemplateReport>)
    requires g.bindings == f.bindings
    requires g.content == ContentForgotten(ContentReported(f.content, node, now, c, reports), node, now, Seen(c, reports))
    requires g.templates == TemplatesForgotten(TemplateReported(f.templates, f.bindings, node, now, facts), node, now,
                                               SeenRevisions(f.bindings, node, facts))
    ensures Advances(f, g)
  {
    HeartbeatContentAdvances(f.content, node, now, c, reports);
    HeartbeatTemplatesAdvance(f.templates, f.bindings, node, now, facts);
    BindingsStay(f.bindings);
    hide Seen, SeenRevisions, ContentReported, TemplateReported, ContentForgotten, TemplatesForgotten, ContentAdvances,
         TemplateAdvances, BindingAdvances;
  }

  datatype Began = Began(node: Id, game: Id, admin: Id, reason: string, epoch: nat)

  predicate WellFormed(request: string, reason: string) {
    1 <= |request| <= 128 && reason != ""
  }

  class FactTables {
    var content: Contents
    var bindings: Bindings
    var templates: Templates
    var inventories: map<(Id, string), Inventory>
    var latestScan: map<Id, string>
    var versions: map<(Id, string), string>
    var began: map<string, Began>   // maintenance requests by their ID

    function View(): Facts
      reads this
    {
      Facts(content, bindings, templates, inventories, latestScan, versions)
    }

    // ---- Heartbeats ----

    // The content half of RecordHeartbeat: the reported items, then the facts the heartbeat left out.
    method RecordContent(node: Id, now: int, c: Catalog, reports: seq<ContentReport>)
      modifies `content
      ensures content == ContentForgotten(ContentReported(old(content), node, now, c, reports), node, now, Seen(c, reports))
    {
      ghost var was := content;
      var seen: set<Id> := {};
      for n := 0 to |reports|
        invariant content == ContentReported(was, node, now, c, reports[..n])
        invariant seen == Seen(c, reports[..n])
      {
        var report := reports[n];
        assert reports[..n+1][..n] == reports[..n];
        SeenNext(c, reports, n);
        if report.workshop in c.games {
          var k := (node, c.games[report.workshop]);
          content := content[k := ContentAfter(content, k, Proves(c, k.1, report), now)];
          seen := seen + {k.1};
        }
      }
      assert reports[..|reports|] == reports;
      ForgetContent(node, now, seen);
    }

    method ForgetContent(node: Id, now: int, seen: set<Id>)
      modifies `content
      ensures content == ContentForgotten(old(content), node, now, seen)
    {
      ghost var was := content;
      var left := content.Keys;
      while left != {}
        invariant content.Keys == was.Keys && left <= was.Keys
        invariant forall k :: k in was ==>
          content[k] == if k !in left && k.0 == node && k.1 !in seen then ContentAfter(was, k, UNKNOWN, now) else was[k]
        decreases |left|
      {
        var k :| k in left;
        left := left - {k};
        if k.0 == node && k.1 !in seen { content := content[k := ContentAfter(content, k, UNKNOWN, now)]; }
      }
    }

    // The template half: a fact counts for every revision bound to its key, and for no other.
    method RecordTemplates(node: Id, now: int, reports: seq<TemplateReport>)
      modifies `templates
      ensures templates == TemplatesForgotten(TemplateReported(old(templates), bindings, node, now, reports), node, now,
                                              SeenRevisions(bindings, node, reports))
    {
      ghost var was := templates;
      var seen: set<string> := {};
      for n := 0 to |reports|
        invariant templates == TemplateReported(was, bindings, node, now, reports[..n])
        invariant seen == SeenRevisions(bindings, node, reports[..n])
      {
        assert reports[..n+1][..n] == reports[..n];
        var revisions := Revisions(bindings, node, reports[n].key);
        ApplyTemplate(node, now, ProofOf(reports[n]), revisions);
        seen := seen + revisions;
      }
      assert reports[..|reports|] == reports;
      ForgetTemplates(node, now, seen);
    }

    method ApplyTemplate(node: Id, now: int, p: Proof, revisions: set<string>)
      modifies `templates
      ensures templates == TemplateStep(old(templates), node, now, p, revisions)
    {
      ghost var was := templates;
      var left := revisions;
      while left != {}
        invariant left <= revisions
        invariant forall k :: k in templates <==> k in was || (k.0 == node && k.1 in revisions && k.1 !in left)
        invariant forall k :: k in templates ==>
          templates[k] == if k.0 == node && k.1 in revisions && k.1 !in left then TemplateAfter(was, k, p, now) else was[k]
        decreases |left|
      {
        var r :| r in left;
        left := left - {r};
        templates := templates[(node, r) := TemplateAfter(templates, (node, r), p, now)];
      }
      StepKeys(was, node, now, p, revisions);
    }

    method ForgetTemplates(node: Id, now: int, seen: set<string>)
      modifies `templates
      ensures templates == TemplatesForgotten(old(templates), node, now, seen)
    {
      ghost var was := templates;
      var left := templates.Keys;
      while left != {}
        invariant templates.Keys == was.Keys && left <= was.Keys
        invariant forall k :: k in was ==>
          templates[k] == if k !in left && k.0 == node && k.1 !in seen then TemplateAfter(was, k, UNPROVED, now) else was[k]
        decreases |left|
      {
        var k :| k in left;
        left := left - {k};
        if k.0 == node && k.1 !in seen { templates := templates[k := TemplateAfter(templates, k, UNPROVED, now)]; }
      }
    }

    // RecordHeartbeat on the versioned facts; a heartbeat that names an item or a key twice is refused.
    method RecordHeartbeat(node: Id, now: int, c: Catalog, reports: seq<ContentReport>, facts: seq<TemplateReport>) returns (ok: bool)
      modifies `content, `templates
      ensures ok <==>
        && (forall i, j :: 0 <= i < j < |reports| ==> reports[i].workshop != reports[j].workshop)
        && (forall i, j :: 0 <= i < j < |facts| ==> facts[i].key != facts[j].key)
      ensures !ok ==> View() == old(View())
      ensures ok ==>
        && content == ContentForgotten(ContentReported(old(content), node, now, c, reports), node, now, Seen(c, reports))
        && templates == TemplatesForgotten(TemplateReported(old(templates), bindings, node, now, facts), node, now,
                                           SeenRevisions(bindings, node, facts))
      ensures Advances(old(View()), View())
    {
      ghost var was := View();
      FactsStay(was);
      hide Seen, SeenRevisions, ContentReported, TemplateReported, ContentForgotten, TemplatesForgotten, Advances;
      if !Distinct(reports, facts) { return false; }
      RecordContent(node, now, c, reports);
      RecordTemplates(node, now, facts);
      assert View() == was.(content := content, templates := templates);
      HeartbeatAdvances(was, View(), node, now, c, reports, facts);
      return true;
    }

    // RecordTemplateFact: one fact, outside a heartbeat.
    method RecordTemplateFact(node: Id, revision: string, now: int, r: TemplateReport) returns (ok: bool)
      modifies `templates
      ensures ok <==> !r.confirmed || (r.key != "" && r.algorithm == MANIFEST_V1 && Digest(r.fingerprint))
      ensures !ok ==> templates == old(templates)
      ensures ok ==> templates == old(templates)[(node, revision) := TemplateAfter(old(templates), (node, revision), ProofOf(r), now)]
      ensures Advances(old(View()), View())
    {
      if r.confirmed && (r.key == "" || r.algorithm != MANIFEST_V1 || !Digest(r.fingerprint)) { return false; }
      var k := (node, revision);
      templates := templates[k := TemplateAfter(templates, k, ProofOf(r), now)];
      return true;
    }

    // ---- Administrators ----

    // UpsertTemplateBinding, and template_binding.upsert with an expected generation.
    method UpsertTemplateBinding(node: Id, revision: string, key: string, fingerprint: string, expected: nat) returns (generation: Option<nat>)
      modifies `bindings
      ensures generation.None? ==> bindings == old(bindings)
      ensures generation.Some? <==> key != "" && |key| <= 128 && Digest(fingerprint) && expected == if (node, revision) in old(bindings) then old(bindings)[(node, revision)].generation else 0
      ensures generation.Some? ==>
        && (node, revision) in bindings && bindings[(node, revision)] == TemplateBinding(key, Some(fingerprint), generation.value)
        && bindings == old(bindings)[(node, revision) := bindings[(node, revision)]]
      ensures Advances(old(View()), View())
    {
      var k := (node, revision);
      if key == "" || |key| > 128 || !Digest(fingerprint) { return None; }
      if k !in bindings {
        if expected != 0 { return None; }
        bindings := bindings[k := TemplateBinding(key, Some(fingerprint), 1)];
        return Some(1);
      }
      var b := bindings[k];
      if b.generation != expected { return None; }
      if b.key != key || b.fingerprint != Some(fingerprint) {
        bindings := bindings[k := TemplateBinding(key, Some(fingerprint), b.generation + 1)];
        return Some(b.generation + 1);
      }
      return Some(b.generation);
    }

    // template_binding.upsert in its legacy form: a new key drops the fingerprint a proof would need.
    method SetBindingKey(node: Id, revision: string, key: string)
      modifies `bindings
      ensures (node, revision) in bindings && bindings[(node, revision)].key == key
      ensures bindings == old(bindings)[(node, revision) := bindings[(node, revision)]]
      ensures (node, revision) !in old(bindings) || old(bindings)[(node, revision)].key != key ==> bindings[(node, revision)].fingerprint.None?
      ensures Advances(old(View()), View())
    {
      var k := (node, revision);
      if k !in bindings {
        bindings := bindings[k := TemplateBinding(key, None, 1)];
      } else {
        var b := bindings[k];
        if b.key != key { bindings := bindings[k := TemplateBinding(key, None, b.generation + 1)]; }
      }
    }

    // BeginScopedMaintenance: close the game on the node and open a new epoch.
    // A repeated request gets its epoch again and changes nothing; the same ID for anything else is refused.
    method BeginScopedMaintenance(node: Id, game: Id, admin: Id, request: string, reason: string, expected: nat) returns (epoch: Option<nat>)
      modifies `content, `began
      ensures request in old(began) ==>
        && content == old(content) && began == old(began)
        && (epoch.Some? <==> 1 <= |request| <= 128 && |reason| > 0 && old(began)[request] == Began(node, game, admin, reason, expected + 1))
      ensures request !in old(began) ==>
        && (epoch.Some? <==> 1 <= |request| <= 128 && |reason| > 0 && (node, game) in old(content) && old(content)[(node, game)].epoch == expected)
        && began == (if epoch.Some? then old(began)[request := Began(node, game, admin, reason, expected + 1)] else old(began))
        && (epoch.None? ==> content == old(content))
        && (epoch.Some? ==> content == old(content)[(node, game) := old(content)[(node, game)].(accepting := false, epoch := expected + 1)])
      ensures epoch.Some? ==> epoch.value == expected + 1
      ensures Advances(old(View()), View())
    {
      if !WellFormed(request, reason) { return None; }
      if request in began {
        return if began[request] == Began(node, game, admin, reason, expected + 1) then Some(expected + 1) else None;
      }
      var k := (node, game);
      if k !in content || content[k].epoch != expected { return None; }
      content := content[k := content[k].(accepting := false, epoch := content[k].epoch + 1)];
      began := began[request := Began(node, game, admin, reason, expected + 1)];
      return Some(expected + 1);
    }

    method SetAccepting(node: Id, game: Id, accepting: bool)
      modifies `content
      ensures content == if (node, game) in old(content)
                         then old(content)[(node, game) := old(content)[(node, game)].(accepting := accepting)] else old(content)
      ensures Advances(old(View()), View())
    {
      var k := (node, game);
      if k in content { content := content[k := content[k].(accepting := accepting)]; }
    }

    constructor ()
      ensures content == map[] && bindings == map[] && templates == map[] && began == map[]
    {
      content, bindings, templates, inventories, latestScan, versions := map[], map[], map[], map[], map[], map[];
      began := map[];
    }
  }

  predicate Distinct(content: seq<ContentReport>, templates: seq<TemplateReport>) {
    && (forall i, j :: 0 <= i < j < |content| ==> content[i].workshop != content[j].workshop)
    && (forall i, j :: 0 <= i < j < |templates| ==> templates[i].key != templates[j].key)
  }

  lemma SeenNext(c: Catalog, reports: seq<ContentReport>, n: nat)
    requires n < |reports|
    ensures Seen(c, reports[..n+1]) == Seen(c, reports[..n]) + if reports[n].workshop in c.games then {c.games[reports[n].workshop]} else {}
  {
    var s, t := reports[..n], reports[..n+1];
    forall g | g in Seen(c, t)
      ensures g in Seen(c, s) || (reports[n].workshop in c.games && g == c.games[reports[n].workshop])
    {
      var i :| 0 <= i < |t| && t[i].workshop in c.games && c.games[t[i].workshop] == g;
      if i < n { assert s[i] == t[i]; }
    }
    forall g | g in Seen(c, s)
      ensures g in Seen(c, t)
    {
      var i :| 0 <= i < |s| && s[i].workshop in c.games && c.games[s[i].workshop] == g;
      assert t[i] == s[i];
    }
    assert t[n] == reports[n];
  }

  lemma StepKeys(m: Templates, node: Id, now: int, p: Proof, revisions: set<string>)
    ensures forall k :: k in TemplateStep(m, node, now, p, revisions) <==> k in m || (k.0 == node && k.1 in revisions)
  {
    forall k: (Id, string) | k.0 == node && k.1 in revisions
      ensures k in TemplateStep(m, node, now, p, revisions)
    {
      assert k == (node, k.1);
    }
  }

  // ---- No ABA ----

  // The facts of a node at successive moments, whatever writers ran in between.
  ghost predicate History(trace: seq<Facts>) {
    forall i :: 0 < i < |trace| ==> Advances(trace[i - 1], trace[i])
  }

  lemma {:induction false} TraceAdvances(trace: seq<Facts>, i: nat, j: nat)
    requires History(trace) && i <= j < |trace|
    ensures Advances(trace[i], trace[j])
    decreases j - i
  {
    if i < j {
      TraceAdvances(trace, i, j - 1);
      AdvancesTransitive(trace[i], trace[j - 1], trace[j]);
    }
  }

  // Every identity and fence the candidate froze is what the tables say.
  ghost predicate Holds(f: Facts, c: Candidate) {
    && (c.node, c.game) in f.content && (c.node, c.revision) in f.bindings && (c.node, c.revision) in f.templates
    && var cb := f.content[(c.node, c.game)];
       var tb := f.bindings[(c.node, c.revision)];
       var tf := f.templates[(c.node, c.revision)];
       && ContentIdentity(cb) == (true, Some(c.content), Some(c.sha)) && cb.epoch == c.epoch && cb.revision == c.contentRevision
       && BindingIdentity(tb) == (c.key, Some(c.fingerprint)) && tb.generation == c.generation
       && TemplateIdentity(tf) == (Some(c.key), true, Some(MANIFEST_V1), Some(c.fingerprint)) && tf.revision == c.templateRevision
  }

  lemma ReservedHolds(db: Db, site: Site, q: RunRequest)
    requires Reservable(db, site, q)
    ensures (q.game, q.content) in site.facts.versions && (q.node, q.game) in site.facts.content
    ensures (q.node, q.revision) in site.facts.bindings && (q.node, q.revision) in site.facts.templates
    ensures Holds(site.facts, CandidateOf(site, q))
  {
    hide Quiet, SoundScan, Occupied;
  }

  // A run was reserved at the first moment and its proof stands at the last. Then at every moment in between
  // the node's content, template fact, template binding and maintenance epoch were the candidate's: nothing
  // changed and changed back.
  lemma NoAba(db: Db, site: Site, q: RunRequest, trace: seq<Facts>, now: int, i: nat)
    requires trace != [] && History(trace) && i < |trace|
    requires Reservable(db, site, q) && trace[0] == site.facts
    requires (q.game, q.content) in site.facts.versions && (q.node, q.game) in site.facts.content
    requires (q.node, q.revision) in site.facts.bindings && (q.node, q.revision) in site.facts.templates
    requires FactsStand(trace[|trace| - 1], CandidateOf(site, q), now)
    ensures Holds(trace[i], CandidateOf(site, q))
  {
    ReservedHolds(db, site, q);
    TraceAdvances(trace, 0, i);
    TraceAdvances(trace, i, |trace| - 1);
    var c := CandidateOf(site, q);
    hide Reservable, CandidateOf, History;
    Between(trace[0], trace[i], trace[|trace| - 1], c, now);
  }

  lemma Between(f: Facts, g: Facts, h: Facts, c: Candidate, now: int)
    requires Advances(f, g) && Advances(g, h) && Holds(f, c) && FactsStand(h, c, now)
    ensures Holds(g, c)
  {
    var k, t := (c.node, c.game), (c.node, c.revision);
    assert ContentAdvances(f.content[k], g.content[k]) && ContentAdvances(g.content[k], h.content[k]);
    assert TemplateAdvances(f.templates[t], g.templates[t]) && TemplateAdvances(g.templates[t], h.templates[t]);
    assert BindingAdvances(f.bindings[t], g.bindings[t]) && BindingAdvances(g.bindings[t], h.bindings[t]);
  }

  // A single interruption in between - a changed item, a missing fact, a rebound template, a new epoch -
  // and the proof does not stand again.
  lemma ChangedNeverStands(f: Facts, g: Facts, h: Facts, c: Candidate, now: int)
    requires Holds(f, c) && Advances(f, g) && Advances(g, h) && !Holds(g, c)
    ensures !FactsStand(h, c, now)
  {
    if FactsStand(h, c, now) { Between(f, g, h, c, now); }
  }
}
