/** The Platform's versioned facts about a node: reported content, template
    bindings and template facts, each with the counter that fences old proofs.
    Times are whole seconds; a NULL column is `None`. */
module Facts {

  datatype Option<+T> = None | Some(value: T)

  // A UUID. Only equality and the order used to break ties matter.
  type Id = nat

  const ONLINE_WINDOW := 120

  const MANIFEST_V1 := "template-manifest-sha256-v1"

  // One row of node_content_bindings.
  datatype ContentBinding = ContentBinding(
    accepting: bool, epoch: nat, revision: nat,
    confirmed: bool, version: Option<string>, sha: Option<string>, reportedAt: int)

  // One row of node_template_bindings.
  datatype TemplateBinding = TemplateBinding(key: string, fingerprint: Option<string>, generation: nat)

  // One row of node_template_facts.
  datatype TemplateFact = TemplateFact(
    key: Option<string>, confirmed: bool, algorithm: Option<string>, fingerprint: Option<string>,
    revision: nat, receivedAt: int)

  // One row of node_inventory_snapshots.
  datatype Inventory = Inventory(complete: bool, confirmed: bool, unaccounted: nat, receivedAt: int)

  datatype Facts = Facts(
    content: map<(Id, Id), ContentBinding>,         // by node and game
    bindings: map<(Id, string), TemplateBinding>,   // by node and template revision
    templates: map<(Id, string), TemplateFact>,     // by node and template revision
    inventories: map<(Id, string), Inventory>,      // by node and scan
    latestScan: map<Id, string>,
    versions: map<(Id, string), string>)            // content digest by game and version; immutable

  // The candidate a validation run froze when it was reserved.
  datatype Candidate = Candidate(
    node: Id, game: Id, preset: Id, content: string, sha: string, revision: string,
    key: string, fingerprint: string, generation: nat,
    epoch: nat, contentRevision: nat, templateRevision: nat)

  // The part of a content row that the content revision counts changes of.
  function ContentIdentity(b: ContentBinding): (bool, Option<string>, Option<string>) {
    (b.confirmed, b.version, b.sha)
  }

  // The part of a template fact that the template revision counts changes of.
  function TemplateIdentity(f: TemplateFact): (Option<string>, bool, Option<string>, Option<string>) {
    (f.key, f.confirmed, f.algorithm, f.fingerprint)
  }

  // The part of a template binding that the generation counts changes of.
  function BindingIdentity(b: TemplateBinding): (string, Option<string>) {
    (b.key, b.fingerprint)
  }

  predicate Fresh(at: int, now: int) {
    at > now - ONLINE_WINDOW
  }

  // Every recorded value is still the reported one.
  predicate FactsAgree(f: Facts, c: Candidate, now: int) {
    && (c.node, c.game) in f.content
    && (c.node, c.revision) in f.bindings
    && (c.node, c.revision) in f.templates
    && var cb := f.content[(c.node, c.game)];
       var tb := f.bindings[(c.node, c.revision)];
       var tf := f.templates[(c.node, c.revision)];
       && cb.epoch == c.epoch
       && cb.revision == c.contentRevision
       && cb.confirmed
       && cb.version == Some(c.content)
       && cb.sha == Some(c.sha)
       && Fresh(cb.reportedAt, now)
       && tb.generation == c.generation
       && tb.fingerprint == Some(c.fingerprint)
       && tf.key == Some(c.key)
       && tf.confirmed
       && tf.algorithm == Some(MANIFEST_V1)
       && tf.fingerprint == Some(c.fingerprint)
       && tf.revision == c.templateRevision
       && Fresh(tf.receivedAt, now)
  }

  // The facts half of effectiveValidationProof, which also asks for the binding key and the version's digest.
  predicate FactsStand(f: Facts, c: Candidate, now: int) {
    && FactsAgree(f, c, now)
    && (c.game, c.content) in f.versions && f.versions[(c.game, c.content)] == c.sha
    && f.bindings[(c.node, c.revision)].key == c.key
  }
}
