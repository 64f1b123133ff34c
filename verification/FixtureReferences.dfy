/** The artifacts of one build agree with one another: what one refers to, another holds. */
module FixtureReferences {
  import opened Catalogues
  import opened Options
  import opened Shipped
  import opened FixtureSpec
  import opened FixtureBuild
  import opened FixtureAttributes
  import opened FixtureLaws
  import opened FixtureTypes
  import opened FixtureOperations
  import opened FixtureResults

  // ---- what a reference stands for ---------------------------------------------------

  predicate IsScene(node: Value, id: Value, version: Value) {
    && Attr(node, "kind") == VEnum(NODE_KIND, "scene")
    && Attr(node, "logical_id") == id && Attr(node, "version_id") == version
  }

  /** A state record named `id`, of the kind that references of kind `kind` stand for. */
  predicate IsRecord(record: Value, id: Value, kind: string) {
    var own := Attr(record, "kind");
    Attr(record, "record_id") == id && own.VEnum? && ResourceKindOf(own.member) == Some(kind)
  }

  ghost predicate HoldsScene(a: Artifacts, id: Value, version: Value) {
    var nodes := Elements(a.manuscript, "nodes");
    exists x :: 0 <= x < |nodes| && IsScene(nodes[x], id, version)
  }

  ghost predicate HoldsRecord(a: Artifacts, id: Value, kind: string) {
    var records := Elements(a.state, "records");
    exists x :: 0 <= x < |records| && IsRecord(records[x], id, kind)
  }

  ghost predicate HoldsPlan(a: Artifacts, id: Value) {
    var items := Elements(a.plans, "items");
    exists x :: 0 <= x < |items| && Attr(items[x], "logical_id") == id
  }

  ghost predicate HoldsFinding(a: Artifacts, id: Value) {
    var findings := Elements(a.findings, "findings");
    exists x :: 0 <= x < |findings| && Attr(findings[x], "finding_id") == id
  }

  ghost predicate HoldsQuery(a: Artifacts, id: Value) {
    var cases := Elements(a.contextGold, "cases");
    exists x :: 0 <= x < |cases| && Attr(Attr(cases[x], "query"), "query_id") == id
  }

  /** The thing of the given kind, id and version exists in the artifacts; summaries and
      entities live outside them. */
  ghost predicate Lands(spec: Spec, a: Artifacts, kind: string, id: string, version: Value) {
    match kind
    case "manuscript_book" => id == "book" && version == Attr(a.manuscript, "revision_id")
    case "manuscript_scene" => HoldsScene(a, VStr(id), version)
    case "plan" => HoldsPlan(a, VStr(id))
    case "finding" => HoldsFinding(a, VStr(id))
    case "context_packet" => HoldsQuery(a, VStr(id))
    case "summary" => id in spec.derivedNodes
    case "entity" => ENTITY_PREFIX <= id
    case _ => HoldsRecord(a, VStr(id), kind)
  }

  // ---- what the artifacts hold ----------------------------------------------------------

  lemma SceneIsHeld(d: Desk, a: Artifacts, scene: string)
    requires Stocked(d) && scene in d.sceneText && a.manuscript == Manuscript(d)
    ensures HoldsScene(a, VStr(scene), VStr(d.sceneVersion[scene]))
  {
    ManuscriptNodes(d);
    var x := SceneQuotes(d, scene, 0, 0);
    assert IsScene(Elements(a.manuscript, "nodes")[x], VStr(scene), VStr(d.sceneVersion[scene]));
  }

  lemma RecordIsRecord(d: Desk, r: Record, kind: string)
    requires Paired(d) && RecordOf(d, r).Done? && ResourceKindOf(r.kind) == Some(kind)
    ensures IsRecord(RecordOf(d, r).value, VStr(r.id), kind)
  {
    RecordHead(r, Choose(STATE_RECORD_KIND, r.kind).value, OptRaw(r.value), PositionValue(r.position),
               Choose(STATE_AUTHORITY, r.authority).value, Each(d, Span, r.evidence).value);
  }

  lemma RecordIsHeld(d: Desk, a: Artifacts, x: nat, kind: string)
    requires Paired(d) && State(d).Done? && a.state == State(d).value
    requires x < |d.spec.records| && ResourceKindOf(d.spec.records[x].kind) == Some(kind)
    ensures HoldsRecord(a, VStr(d.spec.records[x].id), kind)
  {
    EachAt(d, RecordOf, d.spec.records, x);
    RecordIsRecord(d, d.spec.records[x], kind);
    StateHolds(d, Meta(d, "state_snapshot", "r1"), Each(d, RecordOf, d.spec.records).value);
    assert IsRecord(Elements(a.state, "records")[x], VStr(d.spec.records[x].id), kind);
  }

  lemma PlanIsHeld(d: Desk, a: Artifacts, x: nat)
    requires Plans(d).Done? && a.plans == Plans(d).value && x < |d.spec.plans|
    ensures HoldsPlan(a, VStr(d.spec.plans[x].id))
  {
    EachAt(d, PlanItem, d.spec.plans, x);
    AttrAt(PLAN_ITEM, PlanItem(d, d.spec.plans[x]).value.slots, 0);
    AttrAt(PLAN_SNAPSHOT, a.plans.slots, 4);
    assert Attr(Elements(a.plans, "items")[x], "logical_id") == VStr(d.spec.plans[x].id);
  }

  lemma FindingNamed(d: Desk, f: GoldFinding)
    requires Paired(d) && FindingOf(d, f).Done?
    ensures Attr(FindingOf(d, f).value, "finding_id") == VStr(f.id)
  {
    AttrAt(FINDING, FindingOf(d, f).value.slots, 0);
  }

  lemma FindingIsHeld(d: Desk, a: Artifacts, x: nat)
    requires Paired(d) && Findings(d).Done? && a.findings == Findings(d).value && x < |d.spec.findings|
    ensures HoldsFinding(a, VStr(d.spec.findings[x].id))
  {
    EachAt(d, FindingOf, d.spec.findings, x);
    FindingNamed(d, d.spec.findings[x]);
    EvaluationHolds(d, Meta(d, "evaluation_artifact", "gold"), Each(d, FindingOf, d.spec.findings).value);
    assert Attr(Elements(a.findings, "findings")[x], "finding_id") == VStr(d.spec.findings[x].id);
  }

  lemma CaseQueries(d: Desk, q: Query)
    requires Paired(d) && ContextCase(d, q).Done?
    ensures Attr(Attr(ContextCase(d, q).value, "query"), "query_id") == VStr(q.id)
  {
    var meta := Meta(d, "context_query", q.id);
    var operation, target := Choose(CONTEXT_OPERATION, q.operation).value, ResolveTarget(d, q.target).value;
    QueryHead(meta, q, operation, target);
    CaseHolds(q, QueryValue(meta, q, operation, target), Each(d, ContextTarget, q.mandatory).value,
                   Each(d, ContextTarget, q.forbidden).value);
  }

  lemma QueryIsHeld(d: Desk, a: Artifacts, x: nat)
    requires Paired(d) && ContextGold(d).Done? && a.contextGold == ContextGold(d).value && x < |d.spec.queries|
    ensures HoldsQuery(a, VStr(d.spec.queries[x].id))
  {
    EachAt(d, ContextCase, d.spec.queries, x);
    CaseQueries(d, d.spec.queries[x]);
    SuiteHolds(d, GOLD_CONTEXT_SUITE, Meta(d, "gold_context_suite", "r1"), Each(d, ContextCase, d.spec.queries).value);
    assert Attr(Attr(Elements(a.contextGold, "cases")[x], "query"), "query_id") == VStr(d.spec.queries[x].id);
  }

  lemma {:induction false} KindIsDeclared(records: seq<Record>, id: string) returns (x: nat)
    requires id in KindsOf(records)
    ensures x < |records| && records[x].id == id && records[x].kind == KindsOf(records)[id]
  {
    x := |records| - 1;
    if records[x].id != id {
      x := KindIsDeclared(records[..x], id);
    }
  }

  // ---- referential integrity ------------------------------------------------------------

  lemma RecordLands(spec: Spec, a: Artifacts, recordKind: string, kind: string, id: string, version: Value)
    requires ResourceKindOf(recordKind) == Some(kind) && HoldsRecord(a, VStr(id), kind)
    ensures Lands(spec, a, kind, id, version)
  {
  }

  /** The manuscript names the build's book, branch and revision. */
  lemma ManuscriptHome(d: Desk)
    requires Loaded(d)
    ensures var m := Manuscript(d);
      && Attr(m, "book_id") == VStr(BookId(d)) && Attr(m, "branch_id") == VStr(BranchId(d))
      && Attr(m, "revision_id") == VStr(RevisionId(d))
  {
    ManuscriptHolds(d, Meta(d, "manuscript_revision", "r1"), Nodes(d, d.spec.scenes));
  }

  /** What a desk opened on `d.spec` knows about the ids it keeps. */
  ghost predicate Indexed(d: Desk) {
    && Stocked(d)
    && d.recordKinds == KindsOf(d.spec.records)
    && (forall id :: id in d.planIds ==> exists x :: 0 <= x < |d.spec.plans| && d.spec.plans[x].id == id)
    && (forall id :: id in d.findingIds ==> exists x :: 0 <= x < |d.spec.findings| && d.spec.findings[x].id == id)
    && (forall id :: id in d.queryIds ==> exists x :: 0 <= x < |d.spec.queries| && d.spec.queries[x].id == id)
    && (forall id :: id in d.derived ==> id in d.spec.derivedNodes)
  }

  lemma OpenedIsIndexed(h: Digests, spec: Spec)
    ensures Indexed(Opened(h, spec))
  {
    OpenedIsStocked(h, spec);
  }

  lemma TargetLands(d: Desk, a: Artifacts, target: string) returns (kind: string, version: Option<string>)
    requires Indexed(d) && Assemble(d) == Done(a) && ResolveTarget(d, target).Done?
    ensures ResolveTarget(d, target) == Done(Ref(d, target, kind, version))
    ensures Lands(d.spec, a, kind, target, OptStr(version))
  {
    version := None;
    if target == "book" {
      ManuscriptHome(d);
      kind, version := "manuscript_book", Some(RevisionId(d));
    } else if target in d.sceneText {
      SceneIsHeld(d, a, target);
      kind, version := "manuscript_scene", Some(d.sceneVersion[target]);
    } else if target in d.recordKinds {
      kind := ResourceKindOf(d.recordKinds[target]).value;
      var x := KindIsDeclared(d.spec.records, target);
      RecordIsHeld(d, a, x, kind);
      RecordLands(d.spec, a, d.recordKinds[target], kind, target, VNone);
    } else if target in d.planIds {
      kind := "plan";
      var x :| 0 <= x < |d.spec.plans| && d.spec.plans[x].id == target;
      PlanIsHeld(d, a, x);
    } else if target in d.findingIds {
      kind := "finding";
      var x :| 0 <= x < |d.spec.findings| && d.spec.findings[x].id == target;
      FindingIsHeld(d, a, x);
    } else if target in d.derived {
      kind := "summary";
    } else if target in d.queryIds {
      kind := "context_packet";
      var x :| 0 <= x < |d.spec.queries| && d.spec.queries[x].id == target;
      QueryIsHeld(d, a, x);
    } else {
      kind := "entity";
    }
  }

  // ---- every reference lands ---------------------------------------------------------------

  /** A reference names this build's book and branch, and something that exists. */
  ghost predicate RefLands(spec: Spec, a: Artifacts, ref: Value) {
    var id, kind := Attr(ref, "logical_id"), Attr(ref, "kind");
    && Attr(ref, "book_id") == Attr(a.manuscript, "book_id")
    && Attr(ref, "branch_id") == Attr(a.manuscript, "branch_id")
    && id.VStr? && kind.VEnum?
    && Lands(spec, a, kind.member, id.s, Attr(ref, "version_id"))
  }

  lemma LandedRef(d: Desk, a: Artifacts, id: string, kind: string, version: Option<string>)
    requires Loaded(d) && a.manuscript == Manuscript(d) && Lands(d.spec, a, kind, id, OptStr(version))
    ensures RefLands(d.spec, a, Ref(d, id, kind, version))
  {
    RefHolds(d, id, kind, version);
    ManuscriptHome(d);
  }

  lemma BookLands(d: Desk, a: Artifacts)
    requires Loaded(d) && a.manuscript == Manuscript(d)
    ensures RefLands(d.spec, a, BookRef(d))
  {
    ManuscriptHome(d);
    LandedRef(d, a, "book", "manuscript_book", Some(RevisionId(d)));
  }

  lemma SceneLands(d: Desk, a: Artifacts, scene: string)
    requires Stocked(d) && scene in d.sceneText && a.manuscript == Manuscript(d)
    ensures RefLands(d.spec, a, SceneRef(d, scene))
  {
    SceneIsHeld(d, a, scene);
    LandedRef(d, a, scene, "manuscript_scene", Some(d.sceneVersion[scene]));
  }

  lemma ResolvedLands(d: Desk, a: Artifacts, target: string)
    requires Indexed(d) && Assemble(d) == Done(a) && ResolveTarget(d, target).Done?
    ensures RefLands(d.spec, a, ResolveTarget(d, target).value)
  {
    var kind, version := TargetLands(d, a, target);
    LandedRef(d, a, target, kind, version);
  }

  lemma ManuscriptComesFrom(d: Desk, a: Artifacts)
    requires Loaded(d) && Assemble(d) == Done(a)
    ensures a.manuscript == Manuscript(d)
  {
  }

  /** Every reference the builder issues lands in the artifacts of a successful build. */
  lemma IssuedLands(d: Desk, a: Artifacts, ref: Value)
    requires Indexed(d) && Assemble(d) == Done(a) && ref in Issued(d)
    ensures RefLands(d.spec, a, ref)
  {
    ManuscriptComesFrom(d, a);
    if ref == BookRef(d) {
      BookLands(d, a);
    } else if scene :| scene in d.sceneVersion && ref == SceneRef(d, scene) {
      SceneLands(d, a, scene);
    } else {
      var target :| ResolveTarget(d, target) == Done(ref);
      ResolvedLands(d, a, target);
    }
  }

  /** `w` is `v` or a part of it, at any depth. */
  ghost predicate Inside(v: Value, w: Value)
    decreases v
  {
    v == w ||
    match v
    case VList(items) => exists x :: 0 <= x < |items| && Inside(items[x], w)
    case VDict(es) => exists x :: 0 <= x < |es| && Inside(es[x].val, w)
    case VData(_, slots) => exists x :: 0 <= x < |slots| && Inside(slots[x].val, w)
    case _ => false
  }

  lemma {:induction false} CitedInside(g: Ground, v: Value, w: Value)
    requires Cited(g, v) && Inside(v, w)
    ensures Cited(g, w)
    decreases v
  {
    if v != w {
      match v {
        case VList(items) =>
          var x :| 0 <= x < |items| && Inside(items[x], w);
          CitedInside(g, items[x], w);
        case VDict(es) =>
          var x :| 0 <= x < |es| && Inside(es[x].val, w);
          CitedInside(g, es[x].val, w);
        case VData(_, slots) =>
          var x :| 0 <= x < |slots| && Inside(slots[x].val, w);
          CitedInside(g, slots[x].val, w);
        case _ =>
      }
    }
  }

  ghost predicate PartOf(a: Artifacts, w: Value) {
    || Inside(a.manuscript, w) || Inside(a.plans, w) || Inside(a.state, w)
    || Inside(a.findings, w) || Inside(a.contextGold, w) || Inside(a.impactGold, w)
  }

  lemma SoundInside(c: Catalogue, g: Ground, a: Artifacts, w: Value)
    requires Sound(c, g, a) && PartOf(a, w)
    ensures Cited(g, w)
  {
    if Inside(a.manuscript, w) { CitedInside(g, a.manuscript, w); }
    else if Inside(a.plans, w) { CitedInside(g, a.plans, w); }
    else if Inside(a.state, w) { CitedInside(g, a.state, w); }
    else if Inside(a.findings, w) { CitedInside(g, a.findings, w); }
    else if Inside(a.contextGold, w) { CitedInside(g, a.contextGold, w); }
    else { CitedInside(g, a.impactGold, w); }
  }

  /** Whatever is part of an artifact was made from the annotations of the same build. */
  lemma PartIsCited(d: Desk, a: Artifacts, w: Value)
    requires Indexed(d) && Assemble(d) == Done(a) && PartOf(a, w)
    ensures Cited(GroundOf(d), w)
  {
    var c := LibraryShips();
    AssembledIsSound(c, d);
    SoundInside(c, GroundOf(d), a, w);
  }

  /** Whatever the annotations and the prose: in a successful build, at any depth of any of the
      six artifacts, a resource reference lands, an evidence span is exact, and a change
      operation that names a version shows exact text of a scene at that version. */
  lemma CitationsResolve(h: Digests, spec: Spec, w: Value)
    requires Loaded(Opened(h, spec)) && Assemble(Opened(h, spec)).Done?
    requires PartOf(Assemble(Opened(h, spec)).value, w) && w.VData?
    ensures w.cls == RESOURCE_REF ==> RefLands(spec, Assemble(Opened(h, spec)).value, w)
    ensures w.cls == EVIDENCE_SPAN ==> SpanResolves(GroundOf(Opened(h, spec)), w)
    ensures w.cls == CHANGE_OPERATION ==> ChangeResolves(GroundOf(Opened(h, spec)), w)
  {
    var d, a := Opened(h, spec), Assemble(Opened(h, spec)).value;
    OpenedIsIndexed(h, spec);
    PartIsCited(d, a, w);
    if w.cls == RESOURCE_REF {
      IssuedLands(d, a, w);
    } else if w.cls == CHANGE_OPERATION {
      BuiltResolves(d, w);
    }
  }
}
