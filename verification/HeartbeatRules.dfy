/** What a heartbeat leaves in a node's fact tables, said row by row and column by column. */
module HeartbeatRules {
  import opened Facts
  import opened NodeFacts

  // ---- Content ----

  // A report counts if it is confirmed, names a known version, and gives no digest or exactly the recorded one.
  predicate Counts(c: Catalog, game: Id, r: ContentReport) {
    && r.confirmed && (game, r.version) in c.versions
    && (r.sha != "" ==> c.versions[(game, r.version)].Some? && c.versions[(game, r.version)].value == r.sha)
  }

  // The columns of a content row after a report that counts, or after one that does not.
  predicate SaysContent(b: ContentBinding, counts: bool, version: string, sha: string) {
    if counts then b.confirmed && b.version == Some(version) && (if sha == "" then b.sha.None? else b.sha == Some(sha))
    else !b.confirmed && b.version.None? && b.sha.None?
  }

  // A new row starts closed; an old one keeps its switch and its epoch and counts a change of the three columns, and only that.
  predicate RowFollows(m: Contents, k: (Id, Id), b: ContentBinding, now: int) {
    && b.reportedAt == now
    && (k !in m ==> !b.accepting && b.epoch == 0 && b.revision == if b.confirmed then 1 else 0)
    && (k in m ==>
          && b.accepting == m[k].accepting && b.epoch == m[k].epoch
          && var same := b.confirmed == m[k].confirmed && b.version == m[k].version && b.sha == m[k].sha;
             b.revision == if same then m[k].revision else m[k].revision + 1)
  }

  predicate OneReportEach(c: Catalog, reports: seq<ContentReport>) {
    && (forall i, j :: 0 <= i < j < |reports| ==> reports[i].workshop != reports[j].workshop)
    && (forall v, w :: v in c.games && w in c.games && v != w ==> c.games[v] != c.games[w])
  }

  predicate Names(c: Catalog, r: ContentReport, game: Id) {
    r.workshop in c.games && c.games[r.workshop] == game
  }

  // Each game a heartbeat names has the columns its report earns, each other game of the node is unknown, and other nodes keep theirs.
  lemma HeartbeatSays(m: Contents, node: Id, now: int, c: Catalog, reports: seq<ContentReport>, k: (Id, Id))
    requires OneReportEach(c, reports)
    ensures var n := ContentForgotten(ContentReported(m, node, now, c, reports), node, now, Seen(c, reports));
            && (k.0 != node ==> (k in n <==> k in m) && (k in m ==> n[k] == m[k]))
            && (forall i :: 0 <= i < |reports| && k.0 == node && Names(c, reports[i], k.1) ==>
                  k in n && SaysContent(n[k], Counts(c, k.1, reports[i]), reports[i].version, reports[i].sha) && RowFollows(m, k, n[k], now))
            && (k.0 == node && (forall i :: 0 <= i < |reports| ==> !Names(c, reports[i], k.1)) ==>
                  (k in n <==> k in m) && (k in n ==> SaysContent(n[k], false, "", "") && RowFollows(m, k, n[k], now)))
  {
    ReportedRow(m, node, now, c, reports, k);
    forall i | 0 <= i < |reports| && k.0 == node && Names(c, reports[i], k.1)
      ensures k.1 in Seen(c, reports)
    {
    }
    hide ContentReported;
  }

  // ---- Templates ----

  // A report counts for a template revision of the node that is bound to its key.
  predicate Bound(bindings: Bindings, node: Id, k: (Id, string), r: TemplateReport) {
    k.0 == node && k in bindings && bindings[k].key == r.key
  }

  predicate SaysTemplate(t: TemplateFact, r: TemplateReport) {
    && t.confirmed == r.confirmed
    && t.key == (if r.confirmed && r.key != "" then Some(r.key) else None)
    && t.algorithm == (if r.confirmed && r.algorithm != "" then Some(r.algorithm) else None)
    && t.fingerprint == (if r.confirmed && r.fingerprint != "" then Some(r.fingerprint) else None)
  }

  predicate SaysNothing(t: TemplateFact) {
    !t.confirmed && t.key.None? && t.algorithm.None? && t.fingerprint.None?
  }

  predicate FactFollows(m: Templates, k: (Id, string), t: TemplateFact, now: int) {
    && t.receivedAt == now
    && (k !in m ==> t.revision == if t.confirmed then 1 else 0)
    && (k in m ==>
          var same := t.key == m[k].key && t.confirmed == m[k].confirmed && t.algorithm == m[k].algorithm && t.fingerprint == m[k].fingerprint;
          t.revision == if same then m[k].revision else m[k].revision + 1)
  }

  predicate KeysOnce(reports: seq<TemplateReport>) {
    forall i, j :: 0 <= i < j < |reports| ==> reports[i].key != reports[j].key
  }

  lemma RevisionBound(bindings: Bindings, node: Id, r: TemplateReport, k: (Id, string))
    requires k.0 == node
    ensures k.1 in Revisions(bindings, node, r.key) <==> Bound(bindings, node, k, r)
  {
    assert (node, k.1) == k;
  }

  // One report: the row of a revision bound to its key, and no other.
  lemma FactStep(m: Templates, bindings: Bindings, node: Id, now: int, r: TemplateReport, k: (Id, string))
    ensures var n := TemplateStep(m, node, now, ProofOf(r), Revisions(bindings, node, r.key));
            if Bound(bindings, node, k, r) then k in n && SaysTemplate(n[k], r) && FactFollows(m, k, n[k], now)
            else (k in n <==> k in m) && (k in m ==> n[k] == m[k])
  {
    if k.0 == node { RevisionBound(bindings, node, r, k); }
    hide Revisions, Bound;
    StepKeys(m, node, now, ProofOf(r), Revisions(bindings, node, r.key));
  }

  lemma {:induction false} FactRow(m: Templates, bindings: Bindings, node: Id, now: int, reports: seq<TemplateReport>, k: (Id, string))
    requires KeysOnce(reports)
    ensures var n := TemplateReported(m, bindings, node, now, reports);
            && ((forall i :: 0 <= i < |reports| ==> !Bound(bindings, node, k, reports[i])) ==> (k in n <==> k in m) && (k in m ==> n[k] == m[k]))
            && (forall i :: 0 <= i < |reports| && Bound(bindings, node, k, reports[i]) ==>
                  k in n && SaysTemplate(n[k], reports[i]) && FactFollows(m, k, n[k], now))
    decreases |reports|
  {
    if reports != [] {
      var l := |reports| - 1;
      var front := reports[..l];
      FactRow(m, bindings, node, now, front, k);
      FactStep(TemplateReported(m, bindings, node, now, front), bindings, node, now, reports[l], k);
      hide TemplateStep, Revisions, ProofOf, SaysTemplate;
      assert forall i :: 0 <= i < l ==> front[i] == reports[i];
    }
  }

  lemma {:induction false} SeenBound(bindings: Bindings, node: Id, reports: seq<TemplateReport>, k: (Id, string))
    requires k.0 == node
    ensures k.1 in SeenRevisions(bindings, node, reports) <==> exists i :: 0 <= i < |reports| && Bound(bindings, node, k, reports[i])
    decreases |reports|
  {
    if reports != [] {
      var l := |reports| - 1;
      var front := reports[..l];
      SeenBound(bindings, node, front, k);
      RevisionBound(bindings, node, reports[l], k);
      hide Revisions, Bound;
      assert forall i :: 0 <= i < l ==> front[i] == reports[i];
    }
  }

  // Each template revision bound to a reported key has what the report gives, each other one of the node nothing, and other nodes keep theirs.
  lemma HeartbeatProves(m: Templates, bindings: Bindings, node: Id, now: int, reports: seq<TemplateReport>, k: (Id, string))
    requires KeysOnce(reports)
    ensures var n := TemplatesForgotten(TemplateReported(m, bindings, node, now, reports), node, now, SeenRevisions(bindings, node, reports));
            && (k.0 != node ==> (k in n <==> k in m) && (k in m ==> n[k] == m[k]))
            && (forall i :: 0 <= i < |reports| && Bound(bindings, node, k, reports[i]) ==>
                  k in n && SaysTemplate(n[k], reports[i]) && FactFollows(m, k, n[k], now))
            && (k.0 == node && (forall i :: 0 <= i < |reports| ==> !Bound(bindings, node, k, reports[i])) ==>
                  (k in n <==> k in m) && (k in n ==> SaysNothing(n[k]) && FactFollows(m, k, n[k], now)))
  {
    FactRow(m, bindings, node, now, reports, k);
    if k.0 == node { SeenBound(bindings, node, reports, k); }
    hide TemplateReported, SeenRevisions, Bound;
  }

  // ---- Digests ----

  const HEXADECIMAL := "0123456789abcdef"

  lemma DigestIs(s: string)
    ensures Digest(s) <==> |s| == 64 && forall i :: 0 <= i < |s| ==> s[i] in HEXADECIMAL
  {
    forall c: char
      ensures c in HEXADECIMAL <==> '0' <= c <= '9' || 'a' <= c <= 'f'
    {
      HexadecimalIs(c);
    }
  }

  lemma HexadecimalIs(c: char)
    ensures c in HEXADECIMAL <==> '0' <= c <= '9' || 'a' <= c <= 'f'
  {
    var h := HEXADECIMAL;
    if '0' <= c <= '9' { assert h[c as int - '0' as int] == c; }
    if 'a' <= c <= 'f' { assert h[c as int - 'a' as int + 10] == c; }
  }
}
