/** `FixtureBuilder`: from annotations and prose to the six golden artifacts. */
module FixtureBuild {
  import opened JsonValues
  import opened Catalogues
  import opened Serde
  import opened Options
  import opened Texts
  import opened Occurrences
  import opened Shipped
  import opened FixtureSpec
  import SerdeLoops
  import VersionGate

  /** SHA-256 of UTF-8 text, in hex, and the text of UUIDv5 in the URL namespace. */
  datatype Digests = Digests(sha: string -> string, uuid5: string -> string)

  datatype BuildError =
    | UnknownScene(scene: string)
    | QuoteCount(scene: string, quote: string, count: nat)
    | CannotResolve(target: string)
    | NoResourceKind(record: string)
    | UnsupportedTarget(reason: string)
    | NotInEnum(enum: Id, value: string)
    | MissingKey(key: string)

  datatype Built<T> = Done(value: T) | Failed(error: BuildError)

  const FIXED_CREATED_AT := "2026-08-12T00:00:00Z"

  /** The builder's attributes. */
  datatype Desk = Desk(
    h: Digests, spec: Spec,
    sceneText: map<string, string>, sceneVersion: map<string, string>, recordKinds: map<string, string>,
    planIds: set<string>, findingIds: set<string>, derived: set<string>, queryIds: set<string>)

  // ---- identifiers and references -------------------------------------------------

  function DetId(h: Digests, parts: seq<string>): string {
    h.uuid5("litharness://" + Join(parts, '/'))
  }

  function ProjectId(d: Desk): string { DetId(d.h, [d.spec.fixtureId, "project"]) }
  function BookId(d: Desk): string { DetId(d.h, [d.spec.fixtureId, "book"]) }
  function BranchId(d: Desk): string { DetId(d.h, [d.spec.fixtureId, "branch", "main"]) }
  function RevisionId(d: Desk): string { DetId(d.h, [d.spec.fixtureId, "revision", "r1"]) }

  /** A scene version is named by the fixture, the scene and the prose. */
  function VersionId(h: Digests, fixtureId: string, s: Scene): string {
    DetId(h, [fixtureId, s.id, h.sha(s.text)])
  }

  function OptStr(o: Option<string>): Value {
    if o.Some? then VStr(o.value) else VNone
  }

  function OptRaw(o: Option<Json>): Value {
    if o.Some? then Raw(o.value) else VNone
  }

  function Strs(ss: seq<string>): Value {
    VList(seq(|ss|, x requires 0 <= x < |ss| => VStr(ss[x])))
  }

  function Ref(d: Desk, logicalId: string, kind: string, version: Option<string>): Value {
    VData(RESOURCE_REF, [
      Slot("project_id", VStr(ProjectId(d))), Slot("book_id", VStr(BookId(d))),
      Slot("branch_id", VStr(BranchId(d))), Slot("logical_id", VStr(logicalId)),
      Slot("kind", VEnum(RESOURCE_KIND, kind)), Slot("version_id", OptStr(version))])
  }

  function BookRef(d: Desk): Value {
    Ref(d, "book", "manuscript_book", Some(RevisionId(d)))
  }

  /** `scene_version` is filled for the same scenes as `scene_text`. */
  predicate Paired(d: Desk) {
    d.sceneText.Keys == d.sceneVersion.Keys
  }

  function SceneRef(d: Desk, scene: string): Value
    requires scene in d.sceneVersion
  {
    Ref(d, scene, "manuscript_scene", Some(d.sceneVersion[scene]))
  }

  /** `_RECORD_KIND_TO_RESOURCE`, which has no entry for `unknown`. */
  function ResourceKindOf(recordKind: string): Option<string> {
    if recordKind == "event" then Some("state_event")
    else if recordKind in ["assertion", "relationship", "knowledge", "thread", "world_rule"] then Some(recordKind)
    else None
  }

  const ENTITY_PREFIX := "entity:"

  function ResolveTarget(d: Desk, target: string): Built<Value>
    requires Paired(d)
  {
    if target == "book" then Done(BookRef(d))
    else if target in d.sceneText then Done(SceneRef(d, target))
    else if target in d.recordKinds then
      match ResourceKindOf(d.recordKinds[target])
      case Some(kind) => Done(Ref(d, target, kind, None))
      case None => Failed(NoResourceKind(target))
    else if target in d.planIds then Done(Ref(d, target, "plan", None))
    else if target in d.findingIds then Done(Ref(d, target, "finding", None))
    else if target in d.derived then Done(Ref(d, target, "summary", None))
    else if target in d.queryIds then Done(Ref(d, target, "context_packet", None))
    else if ENTITY_PREFIX <= target then Done(Ref(d, target, "entity", None))
    else Failed(CannotResolve(target))
  }

  function SpanValue(source: Value, start: nat, end: nat, hash: string): Value {
    VData(EVIDENCE_SPAN, [
      Slot("source", source), Slot("start", VInt(start)), Slot("end", VInt(end)),
      Slot("content_sha256", VStr(hash)), Slot("anchor_before", VNone), Slot("anchor_after", VNone)])
  }

  function Span(d: Desk, cite: Cite): Built<Value>
    requires Paired(d)
  {
    if cite.scene !in d.sceneText then Failed(UnknownScene(cite.scene))
    else
      var text := d.sceneText[cite.scene];
      var count := Count(text, cite.quote);
      if count != 1 then Failed(QuoteCount(cite.scene, cite.quote, count))
      else
        var start := IndexFrom(text, cite.quote, 0);
        Done(SpanValue(SceneRef(d, cite.scene), start, start + |cite.quote|, d.h.sha(cite.quote)))
  }

  /** `Enum(value)`: the member, or an error. */
  function Choose(enum: Id, value: string): Built<Value> {
    if value in ValuesOf(enum) then Done(VEnum(enum, value)) else Failed(NotInEnum(enum, value))
  }

  /** Builds an element for each of `xs`, stopping at the first error. */
  function Each<C, T>(d: C, f: (C, T) --> Built<Value>, xs: seq<T>): (r: Built<seq<Value>>)
    requires forall x :: x in xs ==> f.requires(d, x)
    ensures r.Done? ==> |r.value| == |xs|
  {
    if |xs| == 0 then Done([])
    else
      var n := |xs| - 1;
      match Each(d, f, xs[..n])
      case Failed(e) => Failed(e)
      case Done(front) =>
        match f(d, xs[n])
        case Done(v) => Done(front + [v])
        case Failed(e) => Failed(e)
  }

  // ---- envelopes ----------------------------------------------------------------------

  const BUILDER_TOOL: Value := VData(TOOL_IDENTITY, [
    Slot("name", VStr("litharness-contracts-fixtures")), Slot("version", VStr("0.1.0"))])

  function Meta(d: Desk, artifactKind: string, name: string): Value {
    VData(ARTIFACT_META, [
      Slot("schema_version", VStr(VersionGate.SCHEMA_VERSION)),
      Slot("artifact_id", VStr(DetId(d.h, [d.spec.fixtureId, artifactKind, name]))),
      Slot("artifact_kind", VStr(artifactKind)), Slot("created_at", VStr(FIXED_CREATED_AT)),
      Slot("actor", VStr("fixture-builder")),
      Slot("tool", BUILDER_TOOL),
      Slot("source_revisions", VList([BookRef(d)])), Slot("dependencies", VList([])),
      Slot("config_digest", VNone), Slot("causation_id", VNone), Slot("correlation_id", VNone),
      Slot("warnings", VList([]))])
  }

  // ---- manuscript ---------------------------------------------------------------------

  function PositionKey(i: nat): string {
    Padded(10 * i)
  }

  function NodeValue(id: string, kind: string, key: string, parent: Value, title: string, content: Value,
                     hash: Value, version: string): Value {
    VData(MANUSCRIPT_NODE, [
      Slot("logical_id", VStr(id)), Slot("kind", VEnum(NODE_KIND, kind)), Slot("position_key", VStr(key)),
      Slot("parent_logical_id", parent), Slot("title", VStr(title)), Slot("content", content),
      Slot("content_sha256", hash), Slot("version_id", VStr(version)), Slot("locked", VBool(false)),
      Slot("metadata", VDict([])), Slot("lock_kind", VNone), Slot("block_kind", VNone),
      Slot("block_payload", VNone), Slot("tombstoned", VNone), Slot("tombstone_reason", VNone)])
  }

  function BookNode(d: Desk): Value {
    NodeValue("book", "book", "000", VNone, d.spec.bookTitle, VNone, VNone, RevisionId(d))
  }

  function SceneNode(d: Desk, s: Scene, i: nat): Value
    requires Paired(d) && s.id in d.sceneText
  {
    var text := d.sceneText[s.id];
    NodeValue(s.id, "scene", PositionKey(i), VStr("book"), s.title, VStr(text), VStr(d.h.sha(text)),
              d.sceneVersion[s.id])
  }

  /** The book, then the scenes numbered from one. */
  function Nodes(d: Desk, scenes: seq<Scene>): (ns: seq<Value>)
    requires Paired(d) && forall s :: s in scenes ==> s.id in d.sceneText
    ensures |ns| == |scenes| + 1
  {
    if |scenes| == 0 then [BookNode(d)]
    else Nodes(d, scenes[..|scenes| - 1]) + [SceneNode(d, scenes[|scenes| - 1], |scenes|)]
  }

  predicate Loaded(d: Desk) {
    Paired(d) && forall s :: s in d.spec.scenes ==> s.id in d.sceneText
  }

  function ManuscriptValue(d: Desk, meta: Value, nodes: seq<Value>): Value {
    VData(MANUSCRIPT_REVISION, [
      Slot("meta", meta), Slot("book_id", VStr(BookId(d))),
      Slot("branch_id", VStr(BranchId(d))), Slot("revision_id", VStr(RevisionId(d))),
      Slot("nodes", VList(nodes)), Slot("parent_revision_id", VNone)])
  }

  function Manuscript(d: Desk): Value
    requires Loaded(d)
  {
    ManuscriptValue(d, Meta(d, "manuscript_revision", "r1"), Nodes(d, d.spec.scenes))
  }

  // ---- plans --------------------------------------------------------------------------

  function PlanValue(p: Plan, kind: Value, authority: Value): Value {
    VData(PLAN_ITEM, [
      Slot("logical_id", VStr(p.id)), Slot("kind", kind), Slot("text", VStr(p.text)), Slot("authority", authority),
      Slot("locked", VBool(p.locked)), Slot("scope", VNone), Slot("links", VList([]))])
  }

  function PlansValue(d: Desk, meta: Value, items: seq<Value>): Value {
    VData(PLAN_SNAPSHOT, [
      Slot("meta", meta), Slot("book_id", VStr(BookId(d))),
      Slot("branch_id", VStr(BranchId(d))), Slot("revision_id", VStr(RevisionId(d))), Slot("items", VList(items))])
  }

  function PlanItem(d: Desk, p: Plan): Built<Value> {
    match Choose(PLAN_KIND, p.kind)
    case Failed(e) => Failed(e)
    case Done(kind) =>
      match Choose(PLAN_AUTHORITY, p.authority)
      case Failed(e) => Failed(e)
      case Done(authority) => Done(PlanValue(p, kind, authority))
  }

  function Plans(d: Desk): Built<Value> {
    match Each(d, PlanItem, d.spec.plans)
    case Failed(e) => Failed(e)
    case Done(items) => Done(PlansValue(d, Meta(d, "plan_snapshot", "r1"), items))
  }

  // ---- state --------------------------------------------------------------------------

  function PositionValue(key: string): Value {
    VData(STORY_POSITION, [Slot("order_key", VStr(key)), Slot("label", VNone)])
  }

  function RecordValue(r: Record, kind: Value, value: Value, position: Value, authority: Value,
                       evidence: seq<Value>): Value {
    VData(STATE_RECORD, [
      Slot("record_id", VStr(r.id)), Slot("kind", kind), Slot("subject", VStr(r.subject)),
      Slot("predicate", VStr(r.pred)), Slot("value", value), Slot("object_ref", VNone),
      Slot("story_position", position),
      Slot("authority", authority), Slot("pov_visibility", Strs(r.povVisibility)),
      Slot("evidence", VList(evidence)), Slot("confidence", VNone),
      Slot("predicate_registry_version", VStr("fixture.v1")), Slot("note", OptStr(r.note))])
  }

  function RecordOf(d: Desk, r: Record): Built<Value>
    requires Paired(d)
  {
    match Choose(STATE_RECORD_KIND, r.kind)
    case Failed(e) => Failed(e)
    case Done(kind) =>
      match Choose(STATE_AUTHORITY, r.authority)
      case Failed(e) => Failed(e)
      case Done(authority) =>
        match Each(d, Span, r.evidence)
        case Failed(e) => Failed(e)
        case Done(evidence) =>
          Done(RecordValue(r, kind, OptRaw(r.value), PositionValue(r.position), authority, evidence))
  }

  function StateValue(d: Desk, meta: Value, records: seq<Value>): Value {
    VData(STATE_SNAPSHOT, [
      Slot("meta", meta), Slot("book_id", VStr(BookId(d))),
      Slot("branch_id", VStr(BranchId(d))), Slot("revision_id", VStr(RevisionId(d))),
      Slot("records", VList(records)), Slot("as_of", VNone)])
  }

  function State(d: Desk): Built<Value>
    requires Paired(d)
  {
    match Each(d, RecordOf, d.spec.records)
    case Failed(e) => Failed(e)
    case Done(records) => Done(StateValue(d, Meta(d, "state_snapshot", "r1"), records))
  }

  // ---- findings -------------------------------------------------------------------------

  function CitedScenes(f: GoldFinding): seq<string> {
    [f.primary.scene] + seq(|f.supporting|, x requires 0 <= x < |f.supporting| => f.supporting[x].scene)
  }

  function SceneIds(f: GoldFinding): seq<string> {
    SortedSet(CitedScenes(f))
  }

  function FindingLead(d: Desk, f: GoldFinding, category: Value, status: Value, severity: Value, primary: Value,
                       supporting: seq<Value>): seq<Slot> {
    [ Slot("finding_id", VStr(f.id)), Slot("category", category), Slot("status", status),
      Slot("scope", ScopeValue(d, f)), Slot("severity", severity), Slot("message", VStr(f.message)),
      Slot("evaluation_run_id", VStr("gold")), Slot("subtype", OptStr(f.subtype)), Slot("primary_span", primary),
      Slot("supporting_evidence", VList(supporting))]
  }

  function FindingRest(f: GoldFinding, claim: Value, reproduction: Value, dependencies: seq<Value>): seq<Slot> {
    [ Slot("contradicting_evidence", VList([])), Slot("rule_or_critic_id", OptStr(f.ruleId)),
      Slot("severity_rationale", VNone), Slot("confidence", VFloat(1.0)),
      Slot("confidence_basis", VEnum(CONFIDENCE_BASIS, "deterministic")), Slot("evidence_confidence", VFloat(1.0)),
      Slot("claim", claim), Slot("reproduction", reproduction),
      Slot("dependencies", VList(dependencies)),
      Slot("suggested_action", VEnum(SUGGESTED_ACTION, SuggestedAction(f.status)))]
  }

  function ScopeValue(d: Desk, f: GoldFinding): Value {
    VData(FINDING_SCOPE, [
      Slot("book_id", VStr(BookId(d))), Slot("chapter_ids", VList([])), Slot("scene_ids", Strs(SceneIds(f)))])
  }

  const GOLD_REPRODUCTION: Value := VData(REPRODUCTION, [
    Slot("config_hash", VStr("fixture")), Slot("policy_version", VStr("gold.v1")), Slot("model_digest", VNone)])

  function FindingValue(d: Desk, f: GoldFinding, category: Value, status: Value, severity: Value, primary: Value,
                        supporting: seq<Value>, dependencies: seq<Value>): Value {
    VData(FINDING, FindingLead(d, f, category, status, severity, primary, supporting)
                   + FindingRest(f, Raw(JObj(f.claim)), GOLD_REPRODUCTION, dependencies))
  }

  function SuggestedAction(status: string): string {
    if status == "accepted_intentional" then "dismiss" else "inspect"
  }

  function FindingOf(d: Desk, f: GoldFinding): Built<Value>
    requires Paired(d)
  {
    match Choose(FINDING_CATEGORY, f.category)
    case Failed(e) => Failed(e)
    case Done(category) =>
      match Choose(FINDING_STATUS, f.status)
      case Failed(e) => Failed(e)
      case Done(status) =>
        match Choose(SEVERITY, f.severity)
        case Failed(e) => Failed(e)
        case Done(severity) =>
          match Span(d, f.primary)
          case Failed(e) => Failed(e)
          case Done(primary) =>
            match Each(d, Span, f.supporting)
            case Failed(e) => Failed(e)
            case Done(supporting) =>
              match Each(d, ResolveTarget, f.dependencies)
              case Failed(e) => Failed(e)
              case Done(dependencies) =>
                Done(FindingValue(d, f, category, status, severity, primary, supporting, dependencies))
  }

  function EvaluationValue(d: Desk, meta: Value, findings: seq<Value>): Value {
    VData(EVALUATION_ARTIFACT, [
      Slot("meta", meta), Slot("run_id", VStr("gold")),
      Slot("plan_id", VStr("gold-annotations")), Slot("findings", VList(findings)),
      Slot("errors", VList([])), Slot("metrics", VDict([]))])
  }

  function Findings(d: Desk): Built<Value>
    requires Paired(d)
  {
    match Each(d, FindingOf, d.spec.findings)
    case Failed(e) => Failed(e)
    case Done(findings) => Done(EvaluationValue(d, Meta(d, "evaluation_artifact", "gold"), findings))
  }

  // ---- context suite --------------------------------------------------------------------

  function TargetValue(reason: string, span: Value, ref: Value): Value {
    VData(GOLD_CONTEXT_TARGET, [Slot("reason", VStr(reason)), Slot("span", span), Slot("ref", ref)])
  }

  function ContextTarget(d: Desk, t: Target): Built<Value>
    requires Paired(d)
  {
    if t.quote.Some? then
      if t.scene.None? then Failed(MissingKey("scene"))
      else
        match Span(d, Cite(t.scene.value, t.quote.value))
        case Failed(e) => Failed(e)
        case Done(span) => Done(TargetValue(t.reason, span, VNone))
    else if t.record.Some? || t.plan.Some? then
      match ResolveTarget(d, if t.record.Some? then t.record.value else t.plan.value)
      case Failed(e) => Failed(e)
      case Done(ref) => Done(TargetValue(t.reason, VNone, ref))
    else Failed(UnsupportedTarget(t.reason))
  }

  function QueryValue(meta: Value, q: Query, operation: Value, target: Value): Value {
    VData(CONTEXT_QUERY, [
      Slot("meta", meta), Slot("query_id", VStr(q.id)), Slot("operation", operation),
      Slot("target", target), Slot("token_budget", VInt(q.tokenBudget)), Slot("pov_character_id", OptStr(q.pov)),
      Slot("intent", OptStr(q.intent)), Slot("referenced_entities", VList([])),
      Slot("referenced_threads", VList([])), Slot("story_time_cutoff", VNone),
      Slot("hard_requirements", VList([])), Slot("exclusions", VList([])), Slot("model_context_limit", VNone),
      Slot("policy_version", VStr("gold.v1"))])
  }

  function ContextCaseValue(q: Query, query: Value, mandatory: seq<Value>, forbidden: seq<Value>): Value {
    VData(GOLD_CONTEXT_CASE, [
      Slot("query", query), Slot("mandatory", VList(mandatory)), Slot("forbidden", VList(forbidden)),
      Slot("notes", OptStr(q.notes))])
  }

  function ContextCase(d: Desk, q: Query): Built<Value>
    requires Paired(d)
  {
    match Choose(CONTEXT_OPERATION, q.operation)
    case Failed(e) => Failed(e)
    case Done(operation) =>
      match ResolveTarget(d, q.target)
      case Failed(e) => Failed(e)
      case Done(target) =>
        match Each(d, ContextTarget, q.mandatory)
        case Failed(e) => Failed(e)
        case Done(mandatory) =>
          match Each(d, ContextTarget, q.forbidden)
          case Failed(e) => Failed(e)
          case Done(forbidden) =>
            var meta := Meta(d, "context_query", q.id);
            Done(ContextCaseValue(q, QueryValue(meta, q, operation, target), mandatory, forbidden))
  }

  function SuiteValue(d: Desk, cls: Id, meta: Value, cases: seq<Value>): Value {
    VData(cls, [
      Slot("meta", meta), Slot("fixture_id", VStr(d.spec.fixtureId)), Slot("cases", VList(cases))])
  }

  function ContextGold(d: Desk): Built<Value>
    requires Paired(d)
  {
    match Each(d, ContextCase, d.spec.queries)
    case Failed(e) => Failed(e)
    case Done(cases) => Done(SuiteValue(d, GOLD_CONTEXT_SUITE, Meta(d, "gold_context_suite", "r1"), cases))
  }

  // ---- impact suite ---------------------------------------------------------------------

  function OperationValue(kind: Value, source: string, before: Value, after: Value, beforeHash: Value,
                          afterHash: Value, detail: Value): Value {
    VData(CHANGE_OPERATION, [
      Slot("kind", kind), Slot("logical_source_id", VStr(source)), Slot("before_version", before),
      Slot("after_version", after), Slot("before_hash", beforeHash), Slot("after_hash", afterHash),
      Slot("detail", detail)])
  }

  function AfterVersion(d: Desk, scenario: string, scene: string): Value {
    VStr(DetId(d.h, [d.spec.fixtureId, scenario, scene, "after"]))
  }

  /** A quote replaces text and says what it replaces; an anchor quote only says where. */
  function QuoteOperation(d: Desk, scenario: string, kind: Value, scene: string, quote: string, op: Operation): Value
    requires scene in d.sceneVersion
  {
    OperationValue(
      kind, scene, VStr(d.sceneVersion[scene]), AfterVersion(d, scenario, scene),
      BeforeHash(d.h, quote, op), AfterHash(d.h, op),
      QuoteDetail(if op.quote.Some? then "quote" else "anchor_quote", quote, op.newText))
  }

  function BeforeHash(h: Digests, quote: string, op: Operation): Value {
    if op.quote.Some? then VStr(h.sha(quote)) else VNone
  }

  function AfterHash(h: Digests, op: Operation): Value {
    if op.quote.Some? && op.newText.Some? then VStr(h.sha(op.newText.value)) else VNone
  }

  function QuoteDetail(key: string, quote: string, newText: Option<string>): Value {
    VDict([Slot(key, VStr(quote)), Slot("new_text", OptStr(newText))])
  }

  /** The annotation cites text of its scene, to replace it or to say where. */
  predicate IsQuoted(op: Operation) {
    op.quote.Some? || op.anchorQuote.Some?
  }

  function CitedText(op: Operation): string
    requires IsQuoted(op)
  {
    if op.quote.Some? then op.quote.value else op.anchorQuote.value
  }

  /** What an annotation without a quote is about: an entity, a scene by its id, or the book. */
  function PlainSource(op: Operation): string {
    if op.entity.Some? then ENTITY_PREFIX + op.entity.value
    else if op.scene.Some? then op.scene.value else "book"
  }

  function PlainOperation(kind: Value, op: Operation): Value {
    OperationValue(kind, PlainSource(op), VNone, VNone, VNone, VNone, Raw(JObj(op.detail)))
  }

  function OperationOf(d: Desk, scenario: string, op: Operation): Built<Value>
    requires Paired(d)
  {
    match Choose(CHANGE_OP_KIND, op.kind)
    case Failed(e) => Failed(e)
    case Done(kind) =>
      if !IsQuoted(op) then Done(PlainOperation(kind, op))
      else if op.scene.None? then Failed(MissingKey("scene"))
      else
        match Span(d, Cite(op.scene.value, CitedText(op)))
        case Failed(e) => Failed(e)
        case Done(_) => Done(QuoteOperation(d, scenario, kind, op.scene.value, CitedText(op), op))
  }

  /** A desk and the scenario being worked on. */
  datatype Page = Page(d: Desk, scenario: string)

  function OperationOn(p: Page, op: Operation): Built<Value>
    requires Paired(p.d)
  {
    OperationOf(p.d, p.scenario, op)
  }

  function Operations(d: Desk, scenario: string, ops: seq<Operation>): Built<seq<Value>>
    requires Paired(d)
  {
    Each(Page(d, scenario), OperationOn, ops)
  }

  function ChangeOf(d: Desk, c: Change): Built<Value> {
    match Choose(EXTRACTED_CHANGE_KIND, c.kind)
    case Failed(e) => Failed(e)
    case Done(kind) => Done(ChangeValue(c, kind))
  }

  function ChangeValue(c: Change, kind: Value): Value {
    VData(EXTRACTED_CHANGE, [
      Slot("kind", kind), Slot("subject", OptStr(c.subject)), Slot("predicate", OptStr(c.pred)),
      Slot("before", OptRaw(c.before)), Slot("after", OptRaw(c.after)), Slot("evidence", VList([])),
      Slot("confidence", VFloat(1.0))])
  }

  function ExpectationOf(d: Desk, e: Expectation): Built<Value>
    requires Paired(d)
  {
    match ResolveTarget(d, e.target)
    case Failed(err) => Failed(err)
    case Done(target) =>
      match Choose(IMPACT_LABEL, e.impact)
      case Failed(err) => Failed(err)
      case Done(impact) => Done(ExpectationValue(e, target, impact))
  }

  function ExpectationValue(e: Expectation, target: Value, impact: Value): Value {
    VData(GOLD_IMPACT_EXPECTATION, [Slot("target", target), Slot("label", impact), Slot("note", OptStr(e.note))])
  }

  function ChangeSetValue(d: Desk, meta: Value, s: Scenario, operations: seq<Value>, changes: seq<Value>): Value {
    VData(CHANGE_SET, [
      Slot("meta", meta),
      Slot("change_set_id", VStr(DetId(d.h, [d.spec.fixtureId, "change_set", s.id]))),
      Slot("base_revision", VStr(RevisionId(d))), Slot("target_branch", VStr(BranchId(d))),
      Slot("actor", VEnum(CHANGE_ACTOR, "author")), Slot("operations", VList(operations)),
      Slot("idempotency_key", VStr(DetId(d.h, [d.spec.fixtureId, "idempotency", s.id]))),
      Slot("extracted_changes", VList(changes)), Slot("declared_intent", OptStr(s.declaredIntent)),
      Slot("preservation_constraints", VList([]))])
  }

  function ImpactCase(d: Desk, s: Scenario): Built<Value>
    requires Paired(d)
  {
    match Operations(d, s.id, s.operations)
    case Failed(e) => Failed(e)
    case Done(operations) => ImpactCaseWith(d, s, operations)
  }

  /** The case, its change operations being built already. */
  function ImpactCaseWith(d: Desk, s: Scenario, operations: seq<Value>): Built<Value>
    requires Paired(d)
  {
    match Each(d, ChangeOf, s.changes)
    case Failed(e) => Failed(e)
    case Done(changes) =>
      match Each(d, ExpectationOf, s.expected)
      case Failed(e) => Failed(e)
      case Done(expected) =>
        var meta := Meta(d, "change_set", s.id);
        Done(ImpactCaseValue(s, ChangeSetValue(d, meta, s, operations, changes), expected))
  }

  function ImpactCaseValue(s: Scenario, changeSet: Value, expected: seq<Value>): Value {
    VData(GOLD_IMPACT_CASE, [
      Slot("scenario_id", VStr(s.id)), Slot("description", VStr(s.description)), Slot("change_set", changeSet),
      Slot("expected", VList(expected))])
  }

  function ImpactGold(d: Desk): Built<Value>
    requires Paired(d)
  {
    match Each(d, ImpactCase, d.spec.scenarios)
    case Failed(e) => Failed(e)
    case Done(cases) => Done(SuiteValue(d, GOLD_IMPACT_SUITE, Meta(d, "gold_impact_suite", "r1"), cases))
  }

  // ---- opening the desk -----------------------------------------------------------------

  function TextsOf(scenes: seq<Scene>): map<string, string> {
    if |scenes| == 0 then map[]
    else TextsOf(scenes[..|scenes| - 1])[scenes[|scenes| - 1].id := scenes[|scenes| - 1].text]
  }

  function VersionsOf(h: Digests, fixtureId: string, scenes: seq<Scene>): map<string, string> {
    if |scenes| == 0 then map[]
    else
      var s := scenes[|scenes| - 1];
      VersionsOf(h, fixtureId, scenes[..|scenes| - 1])[s.id := VersionId(h, fixtureId, s)]
  }

  function KindsOf(records: seq<Record>): map<string, string> {
    if |records| == 0 then map[]
    else KindsOf(records[..|records| - 1])[records[|records| - 1].id := records[|records| - 1].kind]
  }

  function Opened(h: Digests, spec: Spec): Desk {
    Desk(h, spec, TextsOf(spec.scenes), VersionsOf(h, spec.fixtureId, spec.scenes), KindsOf(spec.records),
         set p | p in spec.plans :: p.id, set f | f in spec.findings :: f.id,
         set n | n in spec.derivedNodes, set q | q in spec.queries :: q.id)
  }

  lemma {:induction false} OpenedKeys(h: Digests, fixtureId: string, scenes: seq<Scene>)
    ensures TextsOf(scenes).Keys == VersionsOf(h, fixtureId, scenes).Keys
    ensures forall s :: s in scenes ==> s.id in TextsOf(scenes)
  {
    if |scenes| > 0 {
      var n := |scenes| - 1;
      OpenedKeys(h, fixtureId, scenes[..n]);
      assert forall s :: s in scenes ==> s in scenes[..n] || s == scenes[n];
    }
  }

  /** The desk's text and version for an id are those of one scene, the last of that id. */
  lemma {:induction false} OpenedTexts(h: Digests, fixtureId: string, scenes: seq<Scene>, id: string) returns (x: nat)
    requires id in TextsOf(scenes)
    ensures x < |scenes| && scenes[x].id == id && scenes[x].text == TextsOf(scenes)[id]
    ensures id in VersionsOf(h, fixtureId, scenes)
    ensures VersionsOf(h, fixtureId, scenes)[id] == VersionId(h, fixtureId, scenes[x])
    ensures forall y :: x < y < |scenes| ==> scenes[y].id != id
  {
    x := |scenes| - 1;
    if scenes[x].id != id {
      x := OpenedTexts(h, fixtureId, scenes[..x], id);
    }
  }

  lemma OpenedIsLoaded(h: Digests, spec: Spec)
    ensures Loaded(Opened(h, spec))
  {
    OpenedKeys(h, spec.fixtureId, spec.scenes);
  }

  // ---- the build ------------------------------------------------------------------------

  datatype Artifacts = Artifacts(
    manuscript: Value, plans: Value, state: Value, findings: Value, contextGold: Value, impactGold: Value)

  /** The six artifacts, or the first error in build order. */
  function Assemble(d: Desk): Built<Artifacts>
    requires Loaded(d)
  {
    match Plans(d)
    case Failed(e) => Failed(e)
    case Done(plans) =>
      match State(d)
      case Failed(e) => Failed(e)
      case Done(state) =>
        match Findings(d)
        case Failed(e) => Failed(e)
        case Done(findings) =>
          match ContextGold(d)
          case Failed(e) => Failed(e)
          case Done(context) =>
            match ImpactGold(d)
            case Failed(e) => Failed(e)
            case Done(impact) => Done(Artifacts(Manuscript(d), plans, state, findings, context, impact))
  }

  // ---- the builder ------------------------------------------------------------------------

  lemma {:induction false} EachFailsAt<C, T>(d: C, f: (C, T) --> Built<Value>, xs: seq<T>, n: nat)
    requires forall x :: x in xs ==> f.requires(d, x)
    requires n < |xs| && Each(d, f, xs[..n]).Done? && f(d, xs[n]).Failed?
    ensures Each(d, f, xs) == Failed(f(d, xs[n]).error)
  {
    var last := |xs| - 1;
    if n < last {
      assert xs[..last][..n] == xs[..n];
      EachFailsAt(d, f, xs[..last], n);
    }
  }

  lemma EachGrows<C, T>(d: C, f: (C, T) --> Built<Value>, xs: seq<T>, n: nat)
    requires forall x :: x in xs ==> f.requires(d, x)
    requires n < |xs| && Each(d, f, xs[..n]).Done? && f(d, xs[n]).Done?
    ensures Each(d, f, xs[..n + 1]) == Done(Each(d, f, xs[..n]).value + [f(d, xs[n]).value])
  {
    assert xs[..n + 1][..n] == xs[..n];
  }

  class FixtureBuilder {
    var desk: Desk

    /** `__init__`, once the record kinds are known to be members of their enum. */
    constructor (h: Digests, spec: Spec)
      ensures desk == Opened(h, spec) && Loaded(desk)
    {
      var text: map<string, string> := map[];
      var version: map<string, string> := map[];
      for i := 0 to |spec.scenes|
        invariant text == TextsOf(spec.scenes[..i])
        invariant version == VersionsOf(h, spec.fixtureId, spec.scenes[..i])
      {
        assert spec.scenes[..i + 1][..i] == spec.scenes[..i];
        var s := spec.scenes[i];
        text := text[s.id := s.text];
        version := version[s.id := VersionId(h, spec.fixtureId, s)];
      }
      assert spec.scenes[..|spec.scenes|] == spec.scenes;
      desk := Desk(h, spec, text, version, KindsOf(spec.records),
                   set p | p in spec.plans :: p.id, set f | f in spec.findings :: f.id,
                   set n | n in spec.derivedNodes, set q | q in spec.queries :: q.id);
      OpenedIsLoaded(h, spec);
    }

    method BuildManuscript() returns (artifact: Value)
      requires Loaded(desk)
      ensures artifact == Manuscript(desk)
    {
      var scenes := desk.spec.scenes;
      var nodes := [BookNode(desk)];
      for i := 0 to |scenes|
        invariant nodes == Nodes(desk, scenes[..i])
      {
        assert scenes[..i + 1][..i] == scenes[..i];
        nodes := nodes + [SceneNode(desk, scenes[i], i + 1)];
      }
      assert scenes[..|scenes|] == scenes;
      artifact := ManuscriptValue(desk, Meta(desk, "manuscript_revision", "r1"), nodes);
    }

    method BuildState() returns (r: Built<Value>)
      requires Loaded(desk)
      ensures r == State(desk)
    {
      var xs := desk.spec.records;
      var records: seq<Value> := [];
      for i := 0 to |xs|
        invariant Each(desk, RecordOf, xs[..i]) == Done(records)
      {
        var record := RecordOf(desk, xs[i]);
        if record.Failed? {
          EachFailsAt(desk, RecordOf, xs, i);
          return Failed(record.error);
        }
        EachGrows(desk, RecordOf, xs, i);
        records := records + [record.value];
      }
      assert xs[..|xs|] == xs;
      r := Done(StateValue(desk, Meta(desk, "state_snapshot", "r1"), records));
    }

    method BuildFindings() returns (r: Built<Value>)
      requires Loaded(desk)
      ensures r == Findings(desk)
    {
      var xs := desk.spec.findings;
      var findings: seq<Value> := [];
      for i := 0 to |xs|
        invariant Each(desk, FindingOf, xs[..i]) == Done(findings)
      {
        var finding := FindingOf(desk, xs[i]);
        if finding.Failed? {
          EachFailsAt(desk, FindingOf, xs, i);
          return Failed(finding.error);
        }
        EachGrows(desk, FindingOf, xs, i);
        findings := findings + [finding.value];
      }
      assert xs[..|xs|] == xs;
      r := Done(EvaluationValue(desk, Meta(desk, "evaluation_artifact", "gold"), findings));
    }

    method BuildContextGold() returns (r: Built<Value>)
      requires Loaded(desk)
      ensures r == ContextGold(desk)
    {
      var xs := desk.spec.queries;
      var cases: seq<Value> := [];
      for i := 0 to |xs|
        invariant Each(desk, ContextCase, xs[..i]) == Done(cases)
      {
        var one := ContextCase(desk, xs[i]);
        if one.Failed? {
          EachFailsAt(desk, ContextCase, xs, i);
          return Failed(one.error);
        }
        EachGrows(desk, ContextCase, xs, i);
        cases := cases + [one.value];
      }
      assert xs[..|xs|] == xs;
      r := Done(SuiteValue(desk, GOLD_CONTEXT_SUITE, Meta(desk, "gold_context_suite", "r1"), cases));
    }

    method BuildOperations(s: Scenario) returns (r: Built<seq<Value>>)
      requires Loaded(desk)
      ensures r == Operations(desk, s.id, s.operations)
    {
      var page, ops := Page(desk, s.id), s.operations;
      var operations: seq<Value> := [];
      for i := 0 to |ops|
        invariant Each(page, OperationOn, ops[..i]) == Done(operations)
      {
        var one := OperationOn(page, ops[i]);
        if one.Failed? {
          EachFailsAt(page, OperationOn, ops, i);
          return Failed(one.error);
        }
        EachGrows(page, OperationOn, ops, i);
        operations := operations + [one.value];
      }
      assert ops[..|ops|] == ops;
      r := Done(operations);
    }

    method BuildImpactGold() returns (r: Built<Value>)
      requires Loaded(desk)
      ensures r == ImpactGold(desk)
    {
      var xs := desk.spec.scenarios;
      var cases: seq<Value> := [];
      for i := 0 to |xs|
        invariant Each(desk, ImpactCase, xs[..i]) == Done(cases)
      {
        var operations := BuildOperations(xs[i]);
        var one := if operations.Failed? then Failed(operations.error)
                   else ImpactCaseWith(desk, xs[i], operations.value);
        if one.Failed? {
          EachFailsAt(desk, ImpactCase, xs, i);
          return Failed(one.error);
        }
        EachGrows(desk, ImpactCase, xs, i);
        cases := cases + [one.value];
      }
      assert xs[..|xs|] == xs;
      r := Done(SuiteValue(desk, GOLD_IMPACT_SUITE, Meta(desk, "gold_impact_suite", "r1"), cases));
    }

    method Build() returns (r: Built<map<string, Json>>)
      requires Loaded(desk)
      ensures r == Payloads(desk)
    {
      var manuscript := BuildManuscript();
      var manuscriptJson := SerdeLoops.ToJsonable(manuscript);
      var plans := Plans(desk);
      if plans.Failed? { return Failed(plans.error); }
      var plansJson := SerdeLoops.ToJsonable(plans.value);
      var state := BuildState();
      if state.Failed? { return Failed(state.error); }
      var stateJson := SerdeLoops.ToJsonable(state.value);
      var findings := BuildFindings();
      if findings.Failed? { return Failed(findings.error); }
      var findingsJson := SerdeLoops.ToJsonable(findings.value);
      var context := BuildContextGold();
      if context.Failed? { return Failed(context.error); }
      var contextJson := SerdeLoops.ToJsonable(context.value);
      var impact := BuildImpactGold();
      if impact.Failed? { return Failed(impact.error); }
      var impactJson := SerdeLoops.ToJsonable(impact.value);
      r := Done(map[
        "manuscript.json" := manuscriptJson, "plans.json" := plansJson, "state.json" := stateJson,
        "findings.json" := findingsJson, "context_gold.json" := contextJson, "impact_gold.json" := impactJson]);
    }
  }

  function PayloadsOf(a: Artifacts): map<string, Json> {
    map["manuscript.json" := Encode(a.manuscript), "plans.json" := Encode(a.plans), "state.json" := Encode(a.state),
        "findings.json" := Encode(a.findings), "context_gold.json" := Encode(a.contextGold),
        "impact_gold.json" := Encode(a.impactGold)]
  }

  function Payloads(d: Desk): Built<map<string, Json>>
    requires Loaded(d)
  {
    match Assemble(d)
    case Failed(e) => Failed(e)
    case Done(a) => Done(PayloadsOf(a))
  }

  predicate KindsKnown(records: seq<Record>) {
    forall r :: r in records ==> r.kind in ValuesOf(STATE_RECORD_KIND)
  }

  /** `build_fixture`: open the builder, which rejects unknown record kinds, and build. */
  method BuildFixture(h: Digests, spec: Spec) returns (r: Built<map<string, Json>>)
    ensures KindsKnown(spec.records) ==> r == (OpenedIsLoaded(h, spec); Payloads(Opened(h, spec)))
    ensures !KindsKnown(spec.records) ==>
      exists i :: 0 <= i < |spec.records| && KindsKnown(spec.records[..i]) &&
        spec.records[i].kind !in ValuesOf(STATE_RECORD_KIND) &&
        r == Failed(NotInEnum(STATE_RECORD_KIND, spec.records[i].kind))
  {
    for i := 0 to |spec.records|
      invariant KindsKnown(spec.records[..i])
    {
      if spec.records[i].kind !in ValuesOf(STATE_RECORD_KIND) {
        return Failed(NotInEnum(STATE_RECORD_KIND, spec.records[i].kind));
      }
    }
    assert spec.records[..|spec.records|] == spec.records;
    var b := new FixtureBuilder(h, spec);
    r := b.Build();
  }
}
