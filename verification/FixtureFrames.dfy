/** What no annotation sets: the attributes every build fills in alike, whether the builder
    passes a constant, an identifier of its own, or nothing and leaves the default. */
module FixtureFrames {
  import opened JsonValues
  import opened Catalogues
  import opened Serde
  import opened Options
  import opened Shipped
  import opened FixtureSpec
  import opened FixtureBuild
  import opened FixtureAttributes
  import opened FixtureLaws
  import VersionGate

  // ---- frames --------------------------------------------------------------------------

  /** Who built an artifact, when and from what. */
  predicate Sealed(d: Desk, v: Value, kind: string, name: string) {
    var meta := Attr(v, "meta");
    && Attr(meta, "schema_version") == VStr(VersionGate.SCHEMA_VERSION)
    && Attr(meta, "artifact_id") == VStr(DetId(d.h, [d.spec.fixtureId, kind, name]))
    && Attr(meta, "artifact_kind") == VStr(kind)
    && Attr(meta, "created_at") == VStr(FIXED_CREATED_AT) && Attr(meta, "actor") == VStr("fixture-builder")
    && Attr(meta, "tool") == BUILDER_TOOL && Attr(meta, "source_revisions") == VList([BookRef(d)])
    && Attr(meta, "dependencies") == VList([]) && Attr(meta, "warnings") == VList([])
    && Attr(meta, "config_digest").VNone? && Attr(meta, "causation_id").VNone? && Attr(meta, "correlation_id").VNone?
  }

  /** Which book, branch and revision a snapshot is of. */
  predicate Homed(d: Desk, v: Value) {
    && Attr(v, "book_id") == VStr(BookId(d)) && Attr(v, "branch_id") == VStr(BranchId(d))
    && Attr(v, "revision_id") == VStr(RevisionId(d))
  }

  predicate NodeFramed(v: Value) {
    && Attr(v, "locked") == VBool(false) && Attr(v, "metadata") == VDict([])
    && Attr(v, "lock_kind").VNone? && Attr(v, "block_kind").VNone? && Attr(v, "block_payload").VNone?
    && Attr(v, "tombstoned").VNone? && Attr(v, "tombstone_reason").VNone?
  }

  /** The first node is the book, without prose, at the revision. */
  predicate BookFramed(d: Desk, v: Value) {
    && Attr(v, "logical_id") == VStr("book") && Attr(v, "kind") == VEnum(NODE_KIND, "book")
    && Attr(v, "position_key") == VStr("000") && Attr(v, "parent_logical_id").VNone?
    && Attr(v, "content").VNone? && Attr(v, "content_sha256").VNone? && Attr(v, "version_id") == VStr(RevisionId(d))
  }

  predicate PlanFramed(v: Value) {
    Attr(v, "scope").VNone? && Attr(v, "links") == VList([])
  }

  predicate RecordFramed(v: Value) {
    && Attr(v, "object_ref").VNone? && Attr(v, "confidence").VNone?
    && Attr(v, "predicate_registry_version") == VStr("fixture.v1")
    && Attr(Attr(v, "story_position"), "label").VNone?
  }

  predicate FindingFramed(d: Desk, v: Value) {
    var scope, reproduction := Attr(v, "scope"), Attr(v, "reproduction");
    && Attr(scope, "book_id") == VStr(BookId(d)) && Attr(scope, "chapter_ids") == VList([])
    && Attr(v, "evaluation_run_id") == VStr("gold") && Attr(v, "contradicting_evidence") == VList([])
    && Attr(v, "severity_rationale").VNone? && Attr(v, "confidence") == VFloat(1.0)
    && Attr(v, "confidence_basis") == VEnum(CONFIDENCE_BASIS, "deterministic")
    && Attr(v, "evidence_confidence") == VFloat(1.0) && reproduction == GOLD_REPRODUCTION
    && Attr(v, "suggested_action") == VEnum(SUGGESTED_ACTION,
         if Attr(v, "status") == VEnum(FINDING_STATUS, "accepted_intentional") then "dismiss" else "inspect")
  }

  /** One of span and reference is there, and not the other. */
  predicate TargetFramed(v: Value) {
    Attr(v, "span").VNone? <==> !Attr(v, "ref").VNone?
  }

  predicate QueryFramed(d: Desk, v: Value) {
    var id := Attr(v, "query_id");
    && id.VStr? && Sealed(d, v, "context_query", id.s)
    && Attr(v, "referenced_entities") == VList([]) && Attr(v, "referenced_threads") == VList([])
    && Attr(v, "story_time_cutoff").VNone? && Attr(v, "hard_requirements") == VList([])
    && Attr(v, "exclusions") == VList([]) && Attr(v, "model_context_limit").VNone?
    && Attr(v, "policy_version") == VStr("gold.v1")
  }

  predicate ContextCaseFramed(d: Desk, v: Value) {
    && QueryFramed(d, Attr(v, "query"))
    && (forall t :: t in Elements(v, "mandatory") + Elements(v, "forbidden") ==> TargetFramed(t))
  }

  /** An operation that names a version names the one that comes after. */
  predicate OperationFramed(d: Desk, scenario: string, v: Value) {
    var source := Attr(v, "logical_source_id");
    && source.VStr?
    && Attr(v, "after_version") ==
       if Attr(v, "before_version").VNone? then VNone
       else VStr(DetId(d.h, [d.spec.fixtureId, scenario, source.s, "after"]))
  }

  predicate ChangeFramed(v: Value) {
    Attr(v, "evidence") == VList([]) && Attr(v, "confidence") == VFloat(1.0)
  }

  predicate ChangeSetNamed(d: Desk, id: string, v: Value) {
    && Attr(v, "change_set_id") == VStr(DetId(d.h, [d.spec.fixtureId, "change_set", id]))
    && Attr(v, "idempotency_key") == VStr(DetId(d.h, [d.spec.fixtureId, "idempotency", id]))
    && Attr(v, "base_revision") == VStr(RevisionId(d)) && Attr(v, "target_branch") == VStr(BranchId(d))
    && Attr(v, "actor") == VEnum(CHANGE_ACTOR, "author")
  }

  predicate ChangesFramed(d: Desk, id: string, v: Value) {
    && Attr(v, "preservation_constraints") == VList([])
    && (forall op :: op in Elements(v, "operations") ==> OperationFramed(d, id, op))
    && (forall change :: change in Elements(v, "extracted_changes") ==> ChangeFramed(change))
  }

  predicate ChangeSetFramed(d: Desk, id: string, v: Value) {
    Sealed(d, v, "change_set", id) && ChangeSetNamed(d, id, v) && ChangesFramed(d, id, v)
  }

  predicate ImpactCaseFramed(d: Desk, v: Value) {
    var id := Attr(v, "scenario_id");
    id.VStr? && ChangeSetFramed(d, id.s, Attr(v, "change_set"))
  }

  /** The six artifacts, apart from what annotations set. */
  predicate Framed(d: Desk, a: Artifacts) {
    && ManuscriptFramed(d, a.manuscript) && PlansFramed(d, a.plans) && StateFramed(d, a.state)
    && EvaluationFramed(d, a.findings) && ContextFramed(d, a.contextGold) && ImpactFramed(d, a.impactGold)
  }

  predicate ManuscriptFramed(d: Desk, v: Value) {
    var nodes := Elements(v, "nodes");
    && Sealed(d, v, "manuscript_revision", "r1") && Homed(d, v) && Attr(v, "parent_revision_id").VNone?
    && nodes != [] && BookFramed(d, nodes[0]) && forall node :: node in nodes ==> NodeFramed(node)
  }

  predicate PlansFramed(d: Desk, v: Value) {
    && Sealed(d, v, "plan_snapshot", "r1") && Homed(d, v)
    && forall item :: item in Elements(v, "items") ==> PlanFramed(item)
  }

  predicate StateFramed(d: Desk, v: Value) {
    && Sealed(d, v, "state_snapshot", "r1") && Homed(d, v) && Attr(v, "as_of").VNone?
    && forall record :: record in Elements(v, "records") ==> RecordFramed(record)
  }

  predicate EvaluationFramed(d: Desk, v: Value) {
    && Sealed(d, v, "evaluation_artifact", "gold")
    && Attr(v, "run_id") == VStr("gold") && Attr(v, "plan_id") == VStr("gold-annotations")
    && Attr(v, "errors") == VList([]) && Attr(v, "metrics") == VDict([])
    && forall finding :: finding in Elements(v, "findings") ==> FindingFramed(d, finding)
  }

  predicate ContextFramed(d: Desk, v: Value) {
    && Sealed(d, v, "gold_context_suite", "r1") && Attr(v, "fixture_id") == VStr(d.spec.fixtureId)
    && forall one :: one in Elements(v, "cases") ==> ContextCaseFramed(d, one)
  }

  predicate ImpactFramed(d: Desk, v: Value) {
    && Sealed(d, v, "gold_impact_suite", "r1") && Attr(v, "fixture_id") == VStr(d.spec.fixtureId)
    && forall one :: one in Elements(v, "cases") ==> ImpactCaseFramed(d, one)
  }

  // ---- instance by instance ---------------------------------------------------------------

  lemma MetaSeals(d: Desk, v: Value, kind: string, name: string)
    requires Attr(v, "meta") == Meta(d, kind, name)
    ensures Sealed(d, v, kind, name)
  {
    MetaHead(d, kind, name);
    MetaRest(d, kind, name);
  }

  lemma PlanIsFramed(d: Desk, p: Plan)
    requires PlanItem(d, p).Done?
    ensures PlanFramed(PlanItem(d, p).value)
  {
    PlanHolds(p, Choose(PLAN_KIND, p.kind).value, Choose(PLAN_AUTHORITY, p.authority).value);
  }

  lemma RecordIsFramed(d: Desk, r: Record)
    requires Paired(d) && RecordOf(d, r).Done?
    ensures RecordFramed(RecordOf(d, r).value)
  {
    var kind, authority := Choose(STATE_RECORD_KIND, r.kind).value, Choose(STATE_AUTHORITY, r.authority).value;
    var evidence := Each(d, Span, r.evidence).value;
    RecordRest(r, kind, OptRaw(r.value), PositionValue(r.position), authority, evidence);
    RecordTail(r, kind, OptRaw(r.value), PositionValue(r.position), authority, evidence);
    PositionHolds(r.position);
  }

  lemma FindingIsFramed(d: Desk, f: GoldFinding)
    requires Paired(d) && FindingOf(d, f).Done?
    ensures FindingFramed(d, FindingOf(d, f).value)
  {
    FindingParts(d, f);
    var category, status := VEnum(FINDING_CATEGORY, f.category), VEnum(FINDING_STATUS, f.status);
    var severity, primary := VEnum(SEVERITY, f.severity), Span(d, f.primary).value;
    var supporting, dependencies := Each(d, Span, f.supporting).value, Each(d, ResolveTarget, f.dependencies).value;
    FindingHead(d, f, category, status, severity, primary, supporting, dependencies);
    FindingMiddle(d, f, category, status, severity, primary, supporting, dependencies);
    FindingBasis(d, f, category, status, severity, primary, supporting, dependencies);
    FindingGrounds(d, f, category, status, severity, primary, supporting, dependencies);
    FindingTail(d, f, category, status, severity, primary, supporting, dependencies);
    ScopeHolds(d, f);
  }

  lemma TargetIsFramed(d: Desk, t: Target)
    requires Paired(d) && ContextTarget(d, t).Done?
    ensures TargetFramed(ContextTarget(d, t).value)
  {
    if t.quote.Some? {
      TargetHolds(t.reason, Span(d, Cite(t.scene.value, t.quote.value)).value, VNone);
    } else {
      TargetHolds(t.reason, VNone, ResolveTarget(d, if t.record.Some? then t.record.value else t.plan.value).value);
    }
  }

  lemma TargetsAreFramed(d: Desk, ts: seq<Target>)
    requires Paired(d) && Each(d, ContextTarget, ts).Done?
    ensures forall v :: v in Each(d, ContextTarget, ts).value ==> TargetFramed(v)
  {
    var vs := Each(d, ContextTarget, ts).value;
    forall i | 0 <= i < |vs| ensures TargetFramed(vs[i]) {
      EachAt(d, ContextTarget, ts, i);
      TargetIsFramed(d, ts[i]);
    }
  }

  lemma QueryIsFramed(d: Desk, q: Query, operation: Value, target: Value)
    ensures QueryFramed(d, QueryValue(Meta(d, "context_query", q.id), q, operation, target))
  {
    var meta := Meta(d, "context_query", q.id);
    QueryHead(meta, q, operation, target);
    QueryRest(meta, q, operation, target);
    MetaSeals(d, QueryValue(meta, q, operation, target), "context_query", q.id);
  }

  lemma ContextCaseIsFramed(d: Desk, q: Query)
    requires Paired(d) && ContextCase(d, q).Done?
    ensures ContextCaseFramed(d, ContextCase(d, q).value)
  {
    var operation, target := Choose(CONTEXT_OPERATION, q.operation).value, ResolveTarget(d, q.target).value;
    QueryIsFramed(d, q, operation, target);
    TargetsAreFramed(d, q.mandatory);
    TargetsAreFramed(d, q.forbidden);
    CaseHolds(q, QueryValue(Meta(d, "context_query", q.id), q, operation, target),
              Each(d, ContextTarget, q.mandatory).value, Each(d, ContextTarget, q.forbidden).value);
  }

  lemma OperationIsFramed(d: Desk, scenario: string, op: Operation)
    requires Paired(d) && OperationOf(d, scenario, op).Done?
    ensures OperationFramed(d, scenario, OperationOf(d, scenario, op).value)
  {
    var kind := Choose(CHANGE_OP_KIND, op.kind).value;
    if IsQuoted(op) {
      var start := QuotedOperation(d, scenario, op);
      var scene, quote := op.scene.value, CitedText(op);
      OperationHolds(kind, scene, VStr(d.sceneVersion[scene]), AfterVersion(d, scenario, scene),
                     BeforeHash(d.h, quote, op), AfterHash(d.h, op),
                     QuoteDetail(if op.quote.Some? then "quote" else "anchor_quote", quote, op.newText));
    } else {
      OperationHolds(kind, PlainSource(op), VNone, VNone, VNone, VNone, Raw(JObj(op.detail)));
    }
  }

  lemma OperationsAreFramed(d: Desk, scenario: string, ops: seq<Operation>)
    requires Paired(d) && Operations(d, scenario, ops).Done?
    ensures forall v :: v in Operations(d, scenario, ops).value ==> OperationFramed(d, scenario, v)
  {
    var vs := Operations(d, scenario, ops).value;
    forall i | 0 <= i < |vs| ensures OperationFramed(d, scenario, vs[i]) {
      EachAt(Page(d, scenario), OperationOn, ops, i);
      OperationIsFramed(d, scenario, ops[i]);
    }
  }

  lemma ChangesAreFramed(d: Desk, cs: seq<Change>)
    requires Each(d, ChangeOf, cs).Done?
    ensures forall v :: v in Each(d, ChangeOf, cs).value ==> ChangeFramed(v)
  {
    var vs := Each(d, ChangeOf, cs).value;
    forall i | 0 <= i < |vs| ensures ChangeFramed(vs[i]) {
      EachAt(d, ChangeOf, cs, i);
      ChangeHolds(cs[i], Choose(EXTRACTED_CHANGE_KIND, cs[i].kind).value);
    }
  }

  lemma ChangeSetIsNamed(d: Desk, meta: Value, s: Scenario, operations: seq<Value>, changes: seq<Value>)
    ensures ChangeSetNamed(d, s.id, ChangeSetValue(d, meta, s, operations, changes))
  {
    ChangeSetNames(d, meta, s, operations, changes);
  }

  lemma ChangesAreListed(d: Desk, id: string, v: Value, operations: seq<Value>, changes: seq<Value>)
    requires Attr(v, "operations") == VList(operations) && forall op :: op in operations ==> OperationFramed(d, id, op)
    requires Attr(v, "extracted_changes") == VList(changes) && forall c :: c in changes ==> ChangeFramed(c)
    requires Attr(v, "preservation_constraints") == VList([])
    ensures ChangesFramed(d, id, v)
  {
  }

  lemma ChangesAreFramedInSet(d: Desk, meta: Value, s: Scenario, operations: seq<Value>, changes: seq<Value>)
    requires forall v :: v in operations ==> OperationFramed(d, s.id, v)
    requires forall v :: v in changes ==> ChangeFramed(v)
    ensures var v := ChangeSetValue(d, meta, s, operations, changes);
      ChangesFramed(d, s.id, v) && Attr(v, "meta") == meta
  {
    ChangeSetLists(d, meta, s, operations, changes);
    ChangesAreListed(d, s.id, ChangeSetValue(d, meta, s, operations, changes), operations, changes);
  }

  lemma ChangeSetIsFramed(d: Desk, s: Scenario, operations: seq<Value>, changes: seq<Value>)
    requires forall v :: v in operations ==> OperationFramed(d, s.id, v)
    requires forall v :: v in changes ==> ChangeFramed(v)
    ensures ChangeSetFramed(d, s.id, ChangeSetValue(d, Meta(d, "change_set", s.id), s, operations, changes))
  {
    var meta := Meta(d, "change_set", s.id);
    ChangesAreFramedInSet(d, meta, s, operations, changes);
    ChangeSetIsNamed(d, meta, s, operations, changes);
    MetaSeals(d, ChangeSetValue(d, meta, s, operations, changes), "change_set", s.id);
  }

  lemma ImpactCaseIsFramed(d: Desk, s: Scenario)
    requires Paired(d) && ImpactCase(d, s).Done?
    ensures ImpactCaseFramed(d, ImpactCase(d, s).value)
  {
    var operations, changes := Operations(d, s.id, s.operations).value, Each(d, ChangeOf, s.changes).value;
    OperationsAreFramed(d, s.id, s.operations);
    ChangesAreFramed(d, s.changes);
    ChangeSetIsFramed(d, s, operations, changes);
    ImpactCaseHolds(s, ChangeSetValue(d, Meta(d, "change_set", s.id), s, operations, changes),
                    Each(d, ExpectationOf, s.expected).value);
  }

  // ---- artifact by artifact -----------------------------------------------------------------

  lemma NodeValueIsFramed(id: string, kind: string, key: string, parent: Value, title: string, content: Value,
                          hash: Value, version: string)
    ensures NodeFramed(NodeValue(id, kind, key, parent, title, content, hash, version))
  {
    NodeRest(id, kind, key, parent, title, content, hash, version);
  }

  lemma SceneNodeIsFramed(d: Desk, s: Scene, i: nat)
    requires Paired(d) && s.id in d.sceneText
    ensures NodeFramed(SceneNode(d, s, i))
  {
    NodeValueIsFramed(s.id, "scene", PositionKey(i), VStr("book"), s.title, VStr(d.sceneText[s.id]),
                      VStr(d.h.sha(d.sceneText[s.id])), d.sceneVersion[s.id]);
  }

  lemma BookNodeIsFramed(d: Desk)
    ensures NodeFramed(BookNode(d))
  {
    NodeValueIsFramed("book", "book", "000", VNone, d.spec.bookTitle, VNone, VNone, RevisionId(d));
  }

  lemma {:induction false} NodesAreFramed(d: Desk, scenes: seq<Scene>)
    requires Paired(d) && forall s :: s in scenes ==> s.id in d.sceneText
    ensures forall node :: node in Nodes(d, scenes) ==> NodeFramed(node)
  {
    if |scenes| == 0 {
      BookNodeIsFramed(d);
    } else {
      var n := |scenes| - 1;
      NodesAreFramed(d, scenes[..n]);
      SceneNodeIsFramed(d, scenes[n], n + 1);
      OneMoreFramed(Nodes(d, scenes[..n]), SceneNode(d, scenes[n], n + 1));
    }
  }

  lemma OneMoreFramed(front: seq<Value>, node: Value)
    requires NodeFramed(node) && forall v :: v in front ==> NodeFramed(v)
    ensures forall v :: v in front + [node] ==> NodeFramed(v)
  {
  }

  lemma BookIsFramed(d: Desk)
    requires Loaded(d)
    ensures BookFramed(d, Nodes(d, d.spec.scenes)[0])
  {
    BookComesFirst(d, d.spec.scenes);
    NodeHead("book", "book", "000", VNone, d.spec.bookTitle, VNone, VNone, RevisionId(d));
    NodePlace("book", "book", "000", VNone, d.spec.bookTitle, VNone, VNone, RevisionId(d));
    NodeBody("book", "book", "000", VNone, d.spec.bookTitle, VNone, VNone, RevisionId(d));
  }

  lemma ManuscriptIsFramed(d: Desk)
    requires Loaded(d)
    ensures ManuscriptFramed(d, Manuscript(d))
  {
    var nodes := Nodes(d, d.spec.scenes);
    ManuscriptHolds(d, Meta(d, "manuscript_revision", "r1"), nodes);
    MetaSeals(d, Manuscript(d), "manuscript_revision", "r1");
    BookIsFramed(d);
    NodesAreFramed(d, d.spec.scenes);
  }

  lemma PlanItemsAreFramed(d: Desk, ps: seq<Plan>)
    requires Each(d, PlanItem, ps).Done?
    ensures forall v :: v in Each(d, PlanItem, ps).value ==> PlanFramed(v)
  {
    var vs := Each(d, PlanItem, ps).value;
    forall i | 0 <= i < |vs| ensures PlanFramed(vs[i]) {
      EachAt(d, PlanItem, ps, i);
      PlanIsFramed(d, ps[i]);
    }
  }

  lemma PlansAreHomed(d: Desk, meta: Value, items: seq<Value>)
    ensures var v := PlansValue(d, meta, items);
      Homed(d, v) && Attr(v, "meta") == meta && Elements(v, "items") == items
  {
    PlansHolds(d, meta, items);
  }

  lemma PlansAreFramed(d: Desk)
    requires Plans(d).Done?
    ensures PlansFramed(d, Plans(d).value)
  {
    PlanItemsAreFramed(d, d.spec.plans);
    PlansAreHomed(d, Meta(d, "plan_snapshot", "r1"), Each(d, PlanItem, d.spec.plans).value);
    MetaSeals(d, Plans(d).value, "plan_snapshot", "r1");
  }

  lemma RecordsAreFramed(d: Desk, rs: seq<Record>)
    requires Paired(d) && Each(d, RecordOf, rs).Done?
    ensures forall v :: v in Each(d, RecordOf, rs).value ==> RecordFramed(v)
  {
    var vs := Each(d, RecordOf, rs).value;
    forall i | 0 <= i < |vs| ensures RecordFramed(vs[i]) {
      EachAt(d, RecordOf, rs, i);
      RecordIsFramed(d, rs[i]);
    }
  }

  lemma StateIsHomed(d: Desk, meta: Value, records: seq<Value>)
    ensures var v := StateValue(d, meta, records);
      Homed(d, v) && Attr(v, "meta") == meta && Elements(v, "records") == records && Attr(v, "as_of").VNone?
  {
    StateHolds(d, meta, records);
  }

  lemma StateIsFramed(d: Desk)
    requires Paired(d) && State(d).Done?
    ensures StateFramed(d, State(d).value)
  {
    RecordsAreFramed(d, d.spec.records);
    StateIsHomed(d, Meta(d, "state_snapshot", "r1"), Each(d, RecordOf, d.spec.records).value);
    MetaSeals(d, State(d).value, "state_snapshot", "r1");
  }

  lemma EvaluationIsFramed(d: Desk)
    requires Paired(d) && Findings(d).Done?
    ensures EvaluationFramed(d, Findings(d).value)
  {
    var findings := Each(d, FindingOf, d.spec.findings).value;
    EvaluationHolds(d, Meta(d, "evaluation_artifact", "gold"), findings);
    MetaSeals(d, Findings(d).value, "evaluation_artifact", "gold");
    forall x | 0 <= x < |findings| ensures FindingFramed(d, findings[x]) {
      EachAt(d, FindingOf, d.spec.findings, x);
      FindingIsFramed(d, d.spec.findings[x]);
    }
  }

  lemma ContextIsFramed(d: Desk)
    requires Paired(d) && ContextGold(d).Done?
    ensures ContextFramed(d, ContextGold(d).value)
  {
    var cases := Each(d, ContextCase, d.spec.queries).value;
    SuiteHolds(d, GOLD_CONTEXT_SUITE, Meta(d, "gold_context_suite", "r1"), cases);
    MetaSeals(d, ContextGold(d).value, "gold_context_suite", "r1");
    forall x | 0 <= x < |cases| ensures ContextCaseFramed(d, cases[x]) {
      EachAt(d, ContextCase, d.spec.queries, x);
      ContextCaseIsFramed(d, d.spec.queries[x]);
    }
  }

  lemma ImpactIsFramed(d: Desk)
    requires Paired(d) && ImpactGold(d).Done?
    ensures ImpactFramed(d, ImpactGold(d).value)
  {
    var cases := Each(d, ImpactCase, d.spec.scenarios).value;
    SuiteHolds(d, GOLD_IMPACT_SUITE, Meta(d, "gold_impact_suite", "r1"), cases);
    MetaSeals(d, ImpactGold(d).value, "gold_impact_suite", "r1");
    forall x | 0 <= x < |cases| ensures ImpactCaseFramed(d, cases[x]) {
      EachAt(d, ImpactCase, d.spec.scenarios, x);
      ImpactCaseIsFramed(d, d.spec.scenarios[x]);
    }
  }

  /** Whatever the annotations, a successful build fills in the rest alike. */
  lemma BuildIsFramed(d: Desk)
    requires Loaded(d) && Assemble(d).Done?
    ensures Framed(d, Assemble(d).value)
  {
    ManuscriptIsFramed(d);
    PlansAreFramed(d);
    StateIsFramed(d);
    EvaluationIsFramed(d);
    ContextIsFramed(d);
    ImpactIsFramed(d);
  }

  /** A reference the builder issues names this project, book and branch. */
  lemma IssuedIsHomed(d: Desk, ref: Value)
    requires Paired(d) && ref in Issued(d)
    ensures Attr(ref, "project_id") == VStr(ProjectId(d))
    ensures Attr(ref, "book_id") == VStr(BookId(d)) && Attr(ref, "branch_id") == VStr(BranchId(d))
  {
    if ref == BookRef(d) {
      RefHolds(d, "book", "manuscript_book", Some(RevisionId(d)));
    } else if scene :| scene in d.sceneVersion && ref == SceneRef(d, scene) {
      RefHolds(d, scene, "manuscript_scene", Some(d.sceneVersion[scene]));
    } else {
      var target :| ResolveTarget(d, target) == Done(ref);
      var kind, version := ResolvedIsRef(d, target);
      RefHolds(d, target, kind, version);
    }
  }
}
