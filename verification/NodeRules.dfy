/** What is asked of a node, said in the rows of the site: whether it can host a game, what stands of the facts a run froze,
    and when a run is an effective proof. */
module NodeRules {
  import opened Facts
  import opened Ledger
  import opened Calls

  // ---- One node ----

  // A node that takes players: switched on, not being emptied, heard from within two minutes, of a version the Platform serves.
  predicate NodeServes(site: Site, n: Id) {
    && n in site.nodes
    && var node := site.nodes[n];
       && node.enabled && node.accepting && !node.draining && node.compatible
       && node.heartbeat.Some? && node.heartbeat.value > site.now - 120
  }

  // It reports exactly this content of the game, confirmed, and takes players for it.
  predicate HasContent(site: Site, n: Id, game: Id, content: string) {
    && (n, game) in site.facts.content
    && var row := site.facts.content[(n, game)];
       row.confirmed && row.accepting && row.version == Some(content)
  }

  predicate HasTemplate(site: Site, n: Id, revision: string) {
    (n, revision) in site.facts.bindings && site.facts.bindings[(n, revision)].key != ""
  }

  // Fewer allocations that are neither reclaimed nor released than both of its limits.
  predicate HasSlot(db: Db, site: Site, n: Id)
    requires n in site.nodes
  {
    var held := |set a | a in db.allocations && db.allocations[a].node == n
                         && !db.allocations[a].state.AReclaimed? && !db.allocations[a].state.AReleasedNoEffect?|;
    held < site.nodes[n].desired && held < site.nodes[n].hard
  }

  predicate CanHost(db: Db, site: Site, n: Id, game: Id, content: string, revision: string) {
    NodeServes(site, n) && HasTemplate(site, n, revision) && HasContent(site, n, game, content) && HasSlot(db, site, n)
  }

  lemma SlotIs(db: Db, site: Site, n: Id)
    requires n in site.nodes
    ensures |Occupied(db, n)| >= Limit(site.nodes[n]) <==> !HasSlot(db, site, n)
  {
    assert Occupied(db, n) == set a | a in db.allocations && db.allocations[a].node == n
                                      && !db.allocations[a].state.AReclaimed? && !db.allocations[a].state.AReleasedNoEffect?;
  }

  lemma AvailableIs(db: Db, site: Site, n: Id, game: Id, revision: string, content: string)
    requires n in site.nodes
    ensures NodeReason(db, site, n, game, revision, content).Available? <==> CanHost(db, site, n, game, content, revision)
  {
    SlotIs(db, site, n);
    hide HasSlot, Occupied;
  }

  // ---- The facts of a node ----

  // Heard of within two minutes.
  predicate Recent(at: int, now: int) {
    now - at < 120
  }

  // The node's rows are those the candidate froze: maintenance epoch, confirmed content with its revision, version and digest,
  // template binding with its generation, confirmed template fact with its revision.
  predicate AsFrozen(site: Site, c: Candidate) {
    var content, binding, template := (c.node, c.game), (c.node, c.revision), (c.node, c.revision);
    && content in site.facts.content && binding in site.facts.bindings && template in site.facts.templates
    && var b, t, f := site.facts.content[content], site.facts.bindings[binding], site.facts.templates[template];
       && b.epoch == c.epoch && b.revision == c.contentRevision && b.confirmed
       && b.version == Some(c.content) && b.sha == Some(c.sha) && Recent(b.reportedAt, site.now)
       && t.generation == c.generation && t.fingerprint == Some(c.fingerprint)
       && f.revision == c.templateRevision && f.confirmed && f.key == Some(c.key) && f.fingerprint == Some(c.fingerprint)
       && f.algorithm == Some("template-manifest-sha256-v1") && Recent(f.receivedAt, site.now)
  }

  // A complete, confirmed and recent inventory under this scan, with nothing in it that the Platform does not know.
  predicate ScanClean(site: Site, n: Id, scan: string) {
    && (n, scan) in site.facts.inventories
    && var i := site.facts.inventories[(n, scan)];
       i.complete && i.confirmed && i.unaccounted == 0 && Recent(i.receivedAt, site.now)
  }

  predicate NodeHeard(site: Site, n: Id) {
    && n in site.nodes && site.nodes[n].enabled && site.nodes[n].compatible
    && site.nodes[n].heartbeat.Some? && Recent(site.nodes[n].heartbeat.value, site.now)
  }

  predicate ContentClosed(site: Site, n: Id, game: Id) {
    (n, game) in site.facts.content && !site.facts.content[(n, game)].accepting
  }

  // No unresolved job and no capacity held of the game on the node, but for the allocations named.
  predicate NothingElse(db: Db, n: Id, game: Id, except: set<Id>) {
    && (forall a :: a in db.allocations && db.allocations[a].node == n && db.allocations[a].game == game && a !in except ==>
          db.allocations[a].state.AReclaimed? || db.allocations[a].state.AReleasedNoEffect?)
    && (forall j :: j in db.jobs && db.jobs[j].alloc in db.allocations
                    && db.allocations[db.jobs[j].alloc].node == n && db.allocations[db.jobs[j].alloc].game == game ==>
          db.jobs[j].state.JSucceeded? || db.jobs[j].state.JRejectedNoEffect? || db.jobs[j].state.JFailedWithEffect?)
  }

  lemma FactsAre(site: Site, c: Candidate, n: Id, scan: string)
    ensures FactsAgree(site.facts, c, site.now) <==> AsFrozen(site, c)
    ensures SoundScan(site, n, scan) <==> ScanClean(site, n, scan)
  {
  }

  lemma QuietIs(db: Db, n: Id, game: Id, except: set<Id>)
    ensures Quiet(db, n, game, except) <==> NothingElse(db, n, game, except)
  {
    if NothingElse(db, n, game, except) {
      forall j | j in db.jobs && OpenOn(db, n, game, db.jobs[j].alloc) ensures !OpenJob(db.jobs[j].state) {}
      forall a | a in db.allocations && OpenOn(db, n, game, a) && a !in except ensures Terminal(db.allocations[a].state) {}
    }
    if Quiet(db, n, game, except) {
      forall a | a in db.allocations && db.allocations[a].node == n && db.allocations[a].game == game && a !in except
        ensures db.allocations[a].state.AReclaimed? || db.allocations[a].state.AReleasedNoEffect?
      {
        assert OpenOn(db, n, game, a);
      }
      forall j | j in db.jobs && db.jobs[j].alloc in db.allocations
                 && db.allocations[db.jobs[j].alloc].node == n && db.allocations[db.jobs[j].alloc].game == game
        ensures !OpenJob(db.jobs[j].state)
      {
        assert OpenOn(db, n, game, db.jobs[j].alloc);
      }
    }
  }

  // ---- An effective proof ----

  // A run a human passed, ready and joinable, its server reclaimed, of exactly this node, game, preset, content and template;
  // and everything it froze still stands on a node that takes players and has just been scanned.
  predicate ProofStands(db: Db, site: Site, v: Id, n: Id, game: Id, preset: Id, content: string, revision: string) {
    && v in db.runs
    && var run := db.runs[v];
       && run.state.VPassed? && run.human.HPass? && run.ready && run.joinable
       && run.alloc in db.allocations && db.allocations[run.alloc].state.AReclaimed?
       && run.candidate.node == n && run.candidate.game == game && run.candidate.preset == preset
       && run.candidate.content == content && run.candidate.revision == revision
       && AsFrozen(site, run.candidate)
       && site.facts.bindings[(n, revision)].key == run.candidate.key
       && (game, content) in site.facts.versions && site.facts.versions[(game, content)] == run.candidate.sha
       && NodeHeard(site, n) && site.nodes[n].accepting && !site.nodes[n].draining && site.nodes[n].capable
       && site.nodes[n].scanConfirmed && n in site.facts.latestScan && site.facts.latestScan[n] == site.nodes[n].scan
       && ScanClean(site, n, site.nodes[n].scan)
  }

  lemma EffectiveIs(db: Db, site: Site, v: Id, n: Id, game: Id, preset: Id, content: string, revision: string)
    ensures Effective(db, site, v, n, game, preset, content, revision) <==> ProofStands(db, site, v, n, game, preset, content, revision)
  {
    if v in db.runs { FactsAre(site, db.runs[v].candidate, n, if n in site.nodes then site.nodes[n].scan else ""); }
    hide FactsAgree, SoundScan, ScanClean;
  }

  lemma ScanIs(site: Site, n: Id, scan: string)
    ensures SoundScan(site, n, scan) <==> ScanClean(site, n, scan)
  {
  }
}
