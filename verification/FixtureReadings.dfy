/** The annotations, read back from the artifacts they were built into. */
module FixtureReadings {
  import opened JsonValues
  import opened Catalogues
  import opened Serde
  import opened RoundTrip
  import opened Options
  import opened Shipped
  import opened FixtureSpec
  import opened FixtureBuild
  import opened FixtureAttributes
  import opened FixtureLaws
  import opened FixtureOperations

  // ---- attribute values ----------------------------------------------------------------

  function Str(v: Value): string {
    if v.VStr? then v.s else ""
  }

  function OptText(v: Value): Option<string> {
    if v.VStr? then Some(v.s) else None
  }

  function MemberName(v: Value): string {
    if v.VEnum? then v.member else ""
  }

  function Whole(v: Value): int {
    if v.VInt? then v.i else 0
  }

  function Texts(vs: seq<Value>): seq<string> {
    seq(|vs|, x requires 0 <= x < |vs| => Str(vs[x]))
  }

  /** The JSON an attribute prints as, if it prints. */
  function OptJson(v: Value): Option<Json> {
    if v.VNone? then None else Some(Encode(v))
  }

  function Members(v: Value): seq<Member> {
    var j := Encode(v);
    if j.JObj? then j.members else []
  }

  // ---- reading ---------------------------------------------------------------------------

  /** The prose of the scene `id` in a manuscript. */
  function SceneText(nodes: seq<Value>, id: Value): string {
    if |nodes| == 0 then ""
    else
      var node := nodes[|nodes| - 1];
      if Attr(node, "kind") == VEnum(NODE_KIND, "scene") && Attr(node, "logical_id") == id
      then Str(Attr(node, "content"))
      else SceneText(nodes[..|nodes| - 1], id)
  }

  function Cut(text: string, start: Value, end: Value): string {
    if start.VInt? && end.VInt? && 0 <= start.i <= end.i <= |text| then text[start.i..end.i] else ""
  }

  /** What a reference is to. */
  function ReadTargetId(ref: Value): string {
    Str(Attr(ref, "logical_id"))
  }

  /** A span as the citation it was made from: the scene, and the text it delimits there. */
  function ReadCite(nodes: seq<Value>, span: Value): Cite {
    var id := Attr(Attr(span, "source"), "logical_id");
    Cite(Str(id), Cut(SceneText(nodes, id), Attr(span, "start"), Attr(span, "end")))
  }

  function ReadCites(nodes: seq<Value>, spans: seq<Value>): seq<Cite> {
    seq(|spans|, x requires 0 <= x < |spans| => ReadCite(nodes, spans[x]))
  }

  function ReadScene(node: Value): Scene {
    Scene(Str(Attr(node, "logical_id")), Str(Attr(node, "title")), Str(Attr(node, "content")))
  }

  function ReadPlan(v: Value): Plan {
    Plan(Str(Attr(v, "logical_id")), MemberName(Attr(v, "kind")), Str(Attr(v, "text")),
         MemberName(Attr(v, "authority")), Attr(v, "locked") == VBool(true))
  }

  function ReadRecord(nodes: seq<Value>, v: Value): Record {
    Record(
      Str(Attr(v, "record_id")), MemberName(Attr(v, "kind")), Str(Attr(v, "subject")), Str(Attr(v, "predicate")),
      OptJson(Attr(v, "value")), Str(Attr(Attr(v, "story_position"), "order_key")), MemberName(Attr(v, "authority")),
      Texts(Elements(v, "pov_visibility")), ReadCites(nodes, Elements(v, "evidence")), OptText(Attr(v, "note")))
  }

  function ReadFinding(nodes: seq<Value>, v: Value): GoldFinding {
    GoldFinding(
      Str(Attr(v, "finding_id")), MemberName(Attr(v, "category")), OptText(Attr(v, "subtype")),
      MemberName(Attr(v, "status")), MemberName(Attr(v, "severity")), OptText(Attr(v, "rule_or_critic_id")),
      Str(Attr(v, "message")), Members(Attr(v, "claim")), ReadCite(nodes, Attr(v, "primary_span")),
      ReadCites(nodes, Elements(v, "supporting_evidence")), ReadTargetIds(Elements(v, "dependencies")))
  }

  function ReadTargetIds(refs: seq<Value>): seq<string> {
    seq(|refs|, x requires 0 <= x < |refs| => ReadTargetId(refs[x]))
  }

  /** A context target as a citation, or else as the record it is about. */
  function ReadTarget(nodes: seq<Value>, v: Value): Target {
    var reason, span, ref := Str(Attr(v, "reason")), Attr(v, "span"), Attr(v, "ref");
    if span.VNone? then Target(reason, None, None, Some(ReadTargetId(ref)), None)
    else
      var cite := ReadCite(nodes, span);
      Target(reason, Some(cite.scene), Some(cite.quote), None, None)
  }

  function ReadTargets(nodes: seq<Value>, vs: seq<Value>): seq<Target> {
    seq(|vs|, x requires 0 <= x < |vs| => ReadTarget(nodes, vs[x]))
  }

  function ReadQuery(nodes: seq<Value>, v: Value): Query {
    var query := Attr(v, "query");
    Query(
      Str(Attr(query, "query_id")), MemberName(Attr(query, "operation")), ReadTargetId(Attr(query, "target")),
      Whole(Attr(query, "token_budget")), OptText(Attr(query, "pov_character_id")), OptText(Attr(query, "intent")),
      ReadTargets(nodes, Elements(v, "mandatory")), ReadTargets(nodes, Elements(v, "forbidden")),
      OptText(Attr(v, "notes")))
  }

  /** An operation without a version is plain; one with a version replaces what it quotes, or
      else says where. */
  function ReadOperation(v: Value): Operation {
    var kind, source, detail := MemberName(Attr(v, "kind")), OptText(Attr(v, "logical_source_id")), Attr(v, "detail");
    if Attr(v, "before_version").VNone? then Operation(kind, source, None, None, None, None, Members(detail))
    else
      Operation(kind, source, OptText(Entry(detail, "quote")), OptText(Entry(detail, "anchor_quote")),
                OptText(Entry(detail, "new_text")), None, [])
  }

  function ReadChange(v: Value): Change {
    Change(MemberName(Attr(v, "kind")), OptText(Attr(v, "subject")), OptText(Attr(v, "predicate")),
           OptJson(Attr(v, "before")), OptJson(Attr(v, "after")))
  }

  function ReadExpectation(v: Value): Expectation {
    Expectation(ReadTargetId(Attr(v, "target")), MemberName(Attr(v, "label")), OptText(Attr(v, "note")))
  }

  function ReadOperations(vs: seq<Value>): seq<Operation> {
    seq(|vs|, x requires 0 <= x < |vs| => ReadOperation(vs[x]))
  }

  function ReadChanges(vs: seq<Value>): seq<Change> {
    seq(|vs|, x requires 0 <= x < |vs| => ReadChange(vs[x]))
  }

  function ReadExpectations(vs: seq<Value>): seq<Expectation> {
    seq(|vs|, x requires 0 <= x < |vs| => ReadExpectation(vs[x]))
  }

  function ReadScenario(v: Value): Scenario {
    var changeSet := Attr(v, "change_set");
    Scenario(
      Str(Attr(v, "scenario_id")), Str(Attr(v, "description")), OptText(Attr(changeSet, "declared_intent")),
      ReadOperations(Elements(changeSet, "operations")), ReadChanges(Elements(changeSet, "extracted_changes")),
      ReadExpectations(Elements(v, "expected")))
  }

  // ---- what the artifacts keep ------------------------------------------------------------

  /** A null and no value at all build the same. */
  function KeptJson(o: Option<Json>): Option<Json> {
    if o == Some(JNull) then None else o
  }

  /** Scenes that share an id share the prose of the last one. */
  function KeptScene(d: Desk, s: Scene): Scene
    requires s.id in d.sceneText
  {
    s.(text := d.sceneText[s.id])
  }

  function KeptRecord(r: Record): Record {
    r.(value := KeptJson(r.value))
  }

  /** A target keeps its citation, or else the name of its record or plan. */
  function KeptTarget(t: Target): Target {
    if t.quote.Some? then t.(record := None, plan := None)
    else Target(t.reason, None, None, if t.record.Some? then t.record else t.plan, None)
  }

  function KeptTargets(ts: seq<Target>): seq<Target> {
    seq(|ts|, x requires 0 <= x < |ts| => KeptTarget(ts[x]))
  }

  function KeptQuery(q: Query): Query {
    q.(mandatory := KeptTargets(q.mandatory), forbidden := KeptTargets(q.forbidden))
  }

  /** An operation keeps its citation and the new text, or else what it is about and its detail. */
  function KeptOperation(op: Operation): Operation {
    if op.quote.Some? then op.(anchorQuote := None, entity := None, detail := [])
    else if op.anchorQuote.Some? then op.(entity := None, detail := [])
    else Operation(op.kind, Some(PlainSource(op)), None, None, None, None, op.detail)
  }

  function KeptChange(c: Change): Change {
    c.(before := KeptJson(c.before), after := KeptJson(c.after))
  }

  function KeptScenario(s: Scenario): Scenario {
    s.(operations := seq(|s.operations|, x requires 0 <= x < |s.operations| => KeptOperation(s.operations[x])),
       changes := seq(|s.changes|, x requires 0 <= x < |s.changes| => KeptChange(s.changes[x])))
  }

  // ---- instances -------------------------------------------------------------------------

  lemma OptJsonOfRaw(o: Option<Json>)
    ensures OptJson(OptRaw(o)) == KeptJson(o)
  {
    if o.Some? { EncodeUndoesRaw(o.value); }
  }

  lemma MembersOfRaw(ms: seq<Member>)
    ensures Members(Raw(JObj(ms))) == ms
  {
    EncodeUndoesRaw(JObj(ms));
  }

  lemma PlanReads(p: Plan, kind: Value, authority: Value)
    ensures ReadPlan(PlanValue(p, kind, authority)) == p.(kind := MemberName(kind), authority := MemberName(authority))
  {
    PlanHolds(p, kind, authority);
  }

  lemma RecordReads(nodes: seq<Value>, r: Record, kind: Value, authority: Value, evidence: seq<Value>)
    requires ReadCites(nodes, evidence) == r.evidence
    ensures ReadRecord(nodes, RecordValue(r, kind, OptRaw(r.value), PositionValue(r.position), authority, evidence))
         == KeptRecord(r).(kind := MemberName(kind), authority := MemberName(authority))
  {
    var v := RecordValue(r, kind, OptRaw(r.value), PositionValue(r.position), authority, evidence);
    RecordHead(r, kind, OptRaw(r.value), PositionValue(r.position), authority, evidence);
    RecordBody(r, kind, OptRaw(r.value), PositionValue(r.position), authority, evidence);
    RecordTail(r, kind, OptRaw(r.value), PositionValue(r.position), authority, evidence);
    RecordRead(nodes, v, r, evidence);
  }

  lemma RecordRead(nodes: seq<Value>, v: Value, r: Record, evidence: seq<Value>)
    requires Attr(v, "record_id") == VStr(r.id) && Attr(v, "subject") == VStr(r.subject)
    requires Attr(v, "predicate") == VStr(r.pred) && Attr(v, "value") == OptRaw(r.value)
    requires Attr(v, "story_position") == PositionValue(r.position) && Attr(v, "note") == OptStr(r.note)
    requires Attr(v, "pov_visibility") == Strs(r.povVisibility)
    requires Attr(v, "evidence") == VList(evidence) && ReadCites(nodes, evidence) == r.evidence
    ensures ReadRecord(nodes, v) == KeptRecord(r).(
      kind := MemberName(Attr(v, "kind")), authority := MemberName(Attr(v, "authority")))
  {
    PositionHolds(r.position);
    OptJsonOfRaw(r.value);
    assert Texts(Strs(r.povVisibility).items) == r.povVisibility;
  }

  lemma FindingReads(nodes: seq<Value>, d: Desk, f: GoldFinding, category: Value, status: Value, severity: Value,
                     primary: Value, supporting: seq<Value>, dependencies: seq<Value>)
    requires ReadCite(nodes, primary) == f.primary && ReadCites(nodes, supporting) == f.supporting
    requires ReadTargetIds(dependencies) == f.dependencies
    ensures ReadFinding(nodes, FindingValue(d, f, category, status, severity, primary, supporting, dependencies))
         == f.(category := MemberName(category), status := MemberName(status), severity := MemberName(severity))
  {
    FindingHead(d, f, category, status, severity, primary, supporting, dependencies);
    FindingMiddle(d, f, category, status, severity, primary, supporting, dependencies);
    FindingBasis(d, f, category, status, severity, primary, supporting, dependencies);
    FindingGrounds(d, f, category, status, severity, primary, supporting, dependencies);
    FindingTail(d, f, category, status, severity, primary, supporting, dependencies);
    MembersOfRaw(f.claim);
  }

  lemma QueryReads(nodes: seq<Value>, q: Query, meta: Value, operation: Value, target: Value, mandatory: seq<Value>,
                   forbidden: seq<Value>)
    requires ReadTargetId(target) == q.target
    requires ReadTargets(nodes, mandatory) == KeptTargets(q.mandatory)
    requires ReadTargets(nodes, forbidden) == KeptTargets(q.forbidden)
    ensures ReadQuery(nodes, ContextCaseValue(q, QueryValue(meta, q, operation, target), mandatory, forbidden))
         == KeptQuery(q).(operation := MemberName(operation))
  {
    QueryHead(meta, q, operation, target);
    QueryBody(meta, q, operation, target);
    CaseHolds(q, QueryValue(meta, q, operation, target), mandatory, forbidden);
  }

  lemma ChangeReads(c: Change, kind: Value)
    ensures ReadChange(ChangeValue(c, kind)) == KeptChange(c).(kind := MemberName(kind))
  {
    ChangeHolds(c, kind);
    OptJsonOfRaw(c.before);
    OptJsonOfRaw(c.after);
  }

  lemma ExpectationReads(e: Expectation, target: Value, impact: Value)
    requires ReadTargetId(target) == e.target
    ensures ReadExpectation(ExpectationValue(e, target, impact)) == e.(impact := MemberName(impact))
  {
    ExpectationHolds(e, target, impact);
  }

  lemma QuoteReads(d: Desk, scenario: string, kind: Value, scene: string, op: Operation)
    requires scene in d.sceneVersion && IsQuoted(op)
    ensures ReadOperation(QuoteOperation(d, scenario, kind, scene, CitedText(op), op))
         == KeptOperation(op).(kind := MemberName(kind), scene := Some(scene))
  {
    var v := QuoteOperation(d, scenario, kind, scene, CitedText(op), op);
    var detail := QuoteDetail(if op.quote.Some? then "quote" else "anchor_quote", CitedText(op), op.newText);
    OperationHolds(kind, scene, VStr(d.sceneVersion[scene]), AfterVersion(d, scenario, scene),
                   BeforeHash(d.h, CitedText(op), op), AfterHash(d.h, op), detail);
    QuoteRead(v, op, scene);
  }

  lemma QuoteRead(v: Value, op: Operation, scene: string)
    requires IsQuoted(op) && Attr(v, "logical_source_id") == VStr(scene) && !Attr(v, "before_version").VNone?
    requires Attr(v, "detail")
          == QuoteDetail(if op.quote.Some? then "quote" else "anchor_quote", CitedText(op), op.newText)
    ensures ReadOperation(v) == KeptOperation(op).(kind := MemberName(Attr(v, "kind")), scene := Some(scene))
  {
    DetailEntries(if op.quote.Some? then "quote" else "anchor_quote", CitedText(op), op.newText);
    if op.quote.Some? {
      DetailLacks("quote", CitedText(op), op.newText, "anchor_quote");
    }
  }

  lemma DetailLacks(key: string, quote: string, newText: Option<string>, other: string)
    requires other != key && other != "new_text"
    ensures Entry(QuoteDetail(key, quote, newText), other) == VNone
  {
  }

  lemma PlainReads(kind: Value, op: Operation)
    requires !IsQuoted(op)
    ensures ReadOperation(PlainOperation(kind, op)) == KeptOperation(op).(kind := MemberName(kind))
  {
    OperationHolds(kind, PlainSource(op), VNone, VNone, VNone, VNone, Raw(JObj(op.detail)));
    MembersOfRaw(op.detail);
  }

  lemma ScenarioReads(d: Desk, s: Scenario, meta: Value, operations: seq<Value>, changes: seq<Value>,
                      expected: seq<Value>)
    requires ReadOperations(operations) == KeptScenario(s).operations
    requires ReadChanges(changes) == KeptScenario(s).changes && ReadExpectations(expected) == s.expected
    ensures ReadScenario(ImpactCaseValue(s, ChangeSetValue(d, meta, s, operations, changes), expected))
         == KeptScenario(s)
  {
    ChangeSetLists(d, meta, s, operations, changes);
    ImpactCaseHolds(s, ChangeSetValue(d, meta, s, operations, changes), expected);
  }

  // ---- citations and references ---------------------------------------------------------------

  lemma SceneTextStep(d: Desk, front: seq<Value>, s: Scene, i: nat, id: string)
    requires Paired(d) && s.id in d.sceneText
    ensures var text := SceneText(front + [SceneNode(d, s, i)], VStr(id));
      text == if s.id == id then d.sceneText[id] else SceneText(front, VStr(id))
  {
    SceneNodePresents(d, s, i);
    assert (front + [SceneNode(d, s, i)])[..|front|] == front;
  }

  lemma {:induction false} SceneTextIs(d: Desk, scenes: seq<Scene>, id: string)
    requires Paired(d) && forall s :: s in scenes ==> s.id in d.sceneText
    requires exists x :: 0 <= x < |scenes| && scenes[x].id == id
    ensures SceneText(Nodes(d, scenes), VStr(id)) == d.sceneText[id]
  {
    var n := |scenes| - 1;
    if scenes[n].id != id {
      var x :| 0 <= x < |scenes| && scenes[x].id == id;
      assert scenes[..n][x] == scenes[x];
      SceneTextIs(d, scenes[..n], id);
    }
    SceneTextStep(d, Nodes(d, scenes[..n]), scenes[n], n + 1, id);
  }

  /** A span reads as the citation it was built from. */
  lemma CiteIsRead(d: Desk, cite: Cite)
    requires Stocked(d) && Span(d, cite).Done?
    ensures ReadCite(Nodes(d, d.spec.scenes), Span(d, cite).value) == cite
  {
    var start := SpanDelimits(d, cite);
    DelimitedIsRead(d, cite.scene, start, start + |cite.quote|, Span(d, cite).value);
  }

  lemma DelimitedIsRead(d: Desk, scene: string, start: nat, end: nat, span: Value)
    requires Stocked(d) && Delimits(d, scene, start, end, span)
    ensures ReadCite(Nodes(d, d.spec.scenes), span) == Cite(scene, d.sceneText[scene][start..end])
  {
    SpanHolds(SceneRef(d, scene), start, end, d.h.sha(d.sceneText[scene][start..end]));
    RefHolds(d, scene, "manuscript_scene", Some(d.sceneVersion[scene]));
    SceneTextIs(d, d.spec.scenes, scene);
    CiteReads(Nodes(d, d.spec.scenes), span, scene, start, end, d.sceneText[scene]);
  }

  lemma CiteReads(nodes: seq<Value>, span: Value, scene: string, start: nat, end: nat, text: string)
    requires Attr(Attr(span, "source"), "logical_id") == VStr(scene) && SceneText(nodes, VStr(scene)) == text
    requires Attr(span, "start") == VInt(start) && Attr(span, "end") == VInt(end) && start <= end <= |text|
    ensures ReadCite(nodes, span) == Cite(scene, text[start..end])
  {
  }

  lemma CitesAreRead(d: Desk, cites: seq<Cite>)
    requires Stocked(d) && Each(d, Span, cites).Done?
    ensures ReadCites(Nodes(d, d.spec.scenes), Each(d, Span, cites).value) == cites
  {
    forall x | 0 <= x < |cites|
      ensures ReadCite(Nodes(d, d.spec.scenes), Each(d, Span, cites).value[x]) == cites[x]
    {
      EachAt(d, Span, cites, x);
      CiteIsRead(d, cites[x]);
    }
  }

  lemma TargetIdIsRead(d: Desk, target: string)
    requires Paired(d) && ResolveTarget(d, target).Done?
    ensures ReadTargetId(ResolveTarget(d, target).value) == target
  {
    var kind, version := ResolvedIsRef(d, target);
    RefHolds(d, target, kind, version);
  }

  lemma TargetIdsAreRead(d: Desk, targets: seq<string>)
    requires Paired(d) && Each(d, ResolveTarget, targets).Done?
    ensures ReadTargetIds(Each(d, ResolveTarget, targets).value) == targets
  {
    forall x | 0 <= x < |targets| ensures ReadTargetId(Each(d, ResolveTarget, targets).value[x]) == targets[x] {
      EachAt(d, ResolveTarget, targets, x);
      TargetIdIsRead(d, targets[x]);
    }
  }

  // ---- annotation by annotation ------------------------------------------------------------------

  lemma ChoiceIsRead(enum: Id, value: string)
    requires Choose(enum, value).Done?
    ensures MemberName(Choose(enum, value).value) == value
  {
  }

  lemma PlanIsRead(d: Desk, p: Plan)
    requires PlanItem(d, p).Done?
    ensures ReadPlan(PlanItem(d, p).value) == p
  {
    PlanReads(p, Choose(PLAN_KIND, p.kind).value, Choose(PLAN_AUTHORITY, p.authority).value);
    ChoiceIsRead(PLAN_KIND, p.kind);
    ChoiceIsRead(PLAN_AUTHORITY, p.authority);
  }

  lemma RecordIsRead(d: Desk, r: Record)
    requires Stocked(d) && RecordOf(d, r).Done?
    ensures ReadRecord(Nodes(d, d.spec.scenes), RecordOf(d, r).value) == KeptRecord(r)
  {
    CitesAreRead(d, r.evidence);
    RecordReads(Nodes(d, d.spec.scenes), r, Choose(STATE_RECORD_KIND, r.kind).value,
                Choose(STATE_AUTHORITY, r.authority).value, Each(d, Span, r.evidence).value);
    ChoiceIsRead(STATE_RECORD_KIND, r.kind);
    ChoiceIsRead(STATE_AUTHORITY, r.authority);
  }

  lemma FindingIsRead(d: Desk, f: GoldFinding)
    requires Stocked(d) && FindingOf(d, f).Done?
    ensures ReadFinding(Nodes(d, d.spec.scenes), FindingOf(d, f).value) == f
  {
    FindingParts(d, f);
    CiteIsRead(d, f.primary);
    CitesAreRead(d, f.supporting);
    TargetIdsAreRead(d, f.dependencies);
    FindingReads(
      Nodes(d, d.spec.scenes), d, f, VEnum(FINDING_CATEGORY, f.category), VEnum(FINDING_STATUS, f.status),
      VEnum(SEVERITY, f.severity), Span(d, f.primary).value, Each(d, Span, f.supporting).value,
      Each(d, ResolveTarget, f.dependencies).value);
  }

  lemma TargetIsRead(d: Desk, t: Target)
    requires Stocked(d) && ContextTarget(d, t).Done?
    ensures ReadTarget(Nodes(d, d.spec.scenes), ContextTarget(d, t).value) == KeptTarget(t)
  {
    if t.quote.Some? {
      var cite := Cite(t.scene.value, t.quote.value);
      CiteIsRead(d, cite);
      TargetHolds(t.reason, Span(d, cite).value, VNone);
    } else {
      var id := if t.record.Some? then t.record.value else t.plan.value;
      TargetIdIsRead(d, id);
      TargetHolds(t.reason, VNone, ResolveTarget(d, id).value);
    }
  }

  lemma TargetsAreRead(d: Desk, ts: seq<Target>)
    requires Stocked(d) && Each(d, ContextTarget, ts).Done?
    ensures ReadTargets(Nodes(d, d.spec.scenes), Each(d, ContextTarget, ts).value) == KeptTargets(ts)
  {
    forall x | 0 <= x < |ts|
      ensures ReadTarget(Nodes(d, d.spec.scenes), Each(d, ContextTarget, ts).value[x]) == KeptTarget(ts[x])
    {
      EachAt(d, ContextTarget, ts, x);
      TargetIsRead(d, ts[x]);
    }
  }

  /** A built context case reads as its query: the targets to include as those, the targets to
      leave out as those, each in order. */
  lemma QueryIsRead(d: Desk, q: Query)
    requires Stocked(d) && ContextCase(d, q).Done?
    ensures ReadQuery(Nodes(d, d.spec.scenes), ContextCase(d, q).value) == KeptQuery(q)
  {
    TargetIdIsRead(d, q.target);
    TargetsAreRead(d, q.mandatory);
    TargetsAreRead(d, q.forbidden);
    ChoiceIsRead(CONTEXT_OPERATION, q.operation);
    QueryReads(
      Nodes(d, d.spec.scenes), q, Meta(d, "context_query", q.id), Choose(CONTEXT_OPERATION, q.operation).value,
      ResolveTarget(d, q.target).value, Each(d, ContextTarget, q.mandatory).value,
      Each(d, ContextTarget, q.forbidden).value);
  }

  lemma OperationIsRead(d: Desk, scenario: string, op: Operation)
    requires Paired(d) && OperationOf(d, scenario, op).Done?
    ensures ReadOperation(OperationOf(d, scenario, op).value) == KeptOperation(op)
  {
    var kind := Choose(CHANGE_OP_KIND, op.kind).value;
    ChoiceIsRead(CHANGE_OP_KIND, op.kind);
    if IsQuoted(op) {
      var start := QuotedOperation(d, scenario, op);
      QuoteReads(d, scenario, kind, op.scene.value, op);
    } else {
      PlainReads(kind, op);
    }
  }

  lemma OperationsAreRead(d: Desk, scenario: string, ops: seq<Operation>)
    requires Paired(d) && Operations(d, scenario, ops).Done?
    ensures |Operations(d, scenario, ops).value| == |ops|
    ensures forall x :: 0 <= x < |ops| ==>
      ReadOperation(Operations(d, scenario, ops).value[x]) == KeptOperation(ops[x])
  {
    forall x | 0 <= x < |ops| ensures ReadOperation(Operations(d, scenario, ops).value[x]) == KeptOperation(ops[x]) {
      EachAt(Page(d, scenario), OperationOn, ops, x);
      OperationIsRead(d, scenario, ops[x]);
    }
  }

  lemma ChangesAreRead(d: Desk, cs: seq<Change>)
    requires Each(d, ChangeOf, cs).Done?
    ensures forall x :: 0 <= x < |cs| ==> ReadChange(Each(d, ChangeOf, cs).value[x]) == KeptChange(cs[x])
  {
    forall x | 0 <= x < |cs| ensures ReadChange(Each(d, ChangeOf, cs).value[x]) == KeptChange(cs[x]) {
      EachAt(d, ChangeOf, cs, x);
      ChangeReads(cs[x], Choose(EXTRACTED_CHANGE_KIND, cs[x].kind).value);
      ChoiceIsRead(EXTRACTED_CHANGE_KIND, cs[x].kind);
    }
  }

  lemma ExpectationIsRead(d: Desk, e: Expectation)
    requires Paired(d) && ExpectationOf(d, e).Done?
    ensures ReadExpectation(ExpectationOf(d, e).value) == e
  {
    TargetIdIsRead(d, e.target);
    ExpectationReads(e, ResolveTarget(d, e.target).value, Choose(IMPACT_LABEL, e.impact).value);
    ChoiceIsRead(IMPACT_LABEL, e.impact);
  }

  lemma ExpectationsAreRead(d: Desk, es: seq<Expectation>)
    requires Paired(d) && Each(d, ExpectationOf, es).Done?
    ensures ReadExpectations(Each(d, ExpectationOf, es).value) == es
  {
    forall x | 0 <= x < |es| ensures ReadExpectation(Each(d, ExpectationOf, es).value[x]) == es[x] {
      EachAt(d, ExpectationOf, es, x);
      ExpectationIsRead(d, es[x]);
    }
  }

  /** A built impact case reads as its scenario: operations, extracted changes with what they
      change from and to, and expectations, each in order. */
  lemma ScenarioIsRead(d: Desk, s: Scenario)
    requires Paired(d) && ImpactCase(d, s).Done?
    ensures ReadScenario(ImpactCase(d, s).value) == KeptScenario(s)
  {
    var operations := Operations(d, s.id, s.operations).value;
    var changes, expected := Each(d, ChangeOf, s.changes).value, Each(d, ExpectationOf, s.expected).value;
    OperationsAreRead(d, s.id, s.operations);
    ChangesAreRead(d, s.changes);
    ExpectationsAreRead(d, s.expected);
    assert ReadOperations(operations) == KeptScenario(s).operations;
    assert ReadChanges(changes) == KeptScenario(s).changes;
    ScenarioReads(d, s, Meta(d, "change_set", s.id), operations, changes, expected);
  }

  // ---- the whole build ----------------------------------------------------------------------------

  function ReadScenes(nodes: seq<Value>): seq<Scene> {
    seq(|nodes|, x requires 0 <= x < |nodes| => ReadScene(nodes[x]))
  }

  function ReadPlans(vs: seq<Value>): seq<Plan> {
    seq(|vs|, x requires 0 <= x < |vs| => ReadPlan(vs[x]))
  }

  function ReadRecords(nodes: seq<Value>, vs: seq<Value>): seq<Record> {
    seq(|vs|, x requires 0 <= x < |vs| => ReadRecord(nodes, vs[x]))
  }

  function ReadFindings(nodes: seq<Value>, vs: seq<Value>): seq<GoldFinding> {
    seq(|vs|, x requires 0 <= x < |vs| => ReadFinding(nodes, vs[x]))
  }

  function ReadQueries(nodes: seq<Value>, vs: seq<Value>): seq<Query> {
    seq(|vs|, x requires 0 <= x < |vs| => ReadQuery(nodes, vs[x]))
  }

  function ReadScenarios(vs: seq<Value>): seq<Scenario> {
    seq(|vs|, x requires 0 <= x < |vs| => ReadScenario(vs[x]))
  }

  /** The annotations six artifacts were built from, as far as they can tell. */
  function ReadSpec(a: Artifacts): Spec {
    var nodes := Elements(a.manuscript, "nodes");
    Spec(
      Str(Attr(a.contextGold, "fixture_id")), if nodes == [] then "" else Str(Attr(nodes[0], "title")),
      if nodes == [] then [] else ReadScenes(nodes[1..]), ReadPlans(Elements(a.plans, "items")),
      ReadRecords(nodes, Elements(a.state, "records")), ReadFindings(nodes, Elements(a.findings, "findings")), [],
      ReadQueries(nodes, Elements(a.contextGold, "cases")), ReadScenarios(Elements(a.impactGold, "cases")))
  }

  /** What of its annotations a build keeps: everything but the ids of derived nodes, which only
      targets show, and the parts that the definitions above leave out. */
  function KeptSpec(d: Desk): Spec
    requires Loaded(d)
  {
    var spec := d.spec;
    Spec(
      spec.fixtureId, spec.bookTitle,
      seq(|spec.scenes|, x requires 0 <= x < |spec.scenes| => KeptScene(d, spec.scenes[x])), spec.plans,
      seq(|spec.records|, x requires 0 <= x < |spec.records| => KeptRecord(spec.records[x])), spec.findings, [],
      seq(|spec.queries|, x requires 0 <= x < |spec.queries| => KeptQuery(spec.queries[x])),
      seq(|spec.scenarios|, x requires 0 <= x < |spec.scenarios| => KeptScenario(spec.scenarios[x])))
  }

  lemma SceneIsRead(d: Desk, x: nat)
    requires Loaded(d) && x < |d.spec.scenes|
    ensures ReadScene(Nodes(d, d.spec.scenes)[x + 1]) == KeptScene(d, d.spec.scenes[x])
  {
    NodePresents(d, d.spec.scenes, x);
  }

  lemma BookIsRead(d: Desk)
    requires Loaded(d)
    ensures Attr(Nodes(d, d.spec.scenes)[0], "title") == VStr(d.spec.bookTitle)
  {
    BookComesFirst(d, d.spec.scenes);
    NodePlace("book", "book", "000", VNone, d.spec.bookTitle, VNone, VNone, RevisionId(d));
  }

  lemma ScenesAreRead(d: Desk)
    requires Loaded(d)
    ensures ReadScenes(Nodes(d, d.spec.scenes)[1..]) == KeptSpec(d).scenes
  {
    forall x | 0 <= x < |d.spec.scenes|
      ensures ReadScene(Nodes(d, d.spec.scenes)[1..][x]) == KeptScene(d, d.spec.scenes[x])
    {
      SceneIsRead(d, x);
    }
  }

  lemma PlansAreRead(d: Desk)
    requires Plans(d).Done?
    ensures ReadPlans(Elements(Plans(d).value, "items")) == d.spec.plans
  {
    var items := Each(d, PlanItem, d.spec.plans).value;
    PlansHolds(d, Meta(d, "plan_snapshot", "r1"), items);
    forall x | 0 <= x < |items| ensures ReadPlan(items[x]) == d.spec.plans[x] {
      EachAt(d, PlanItem, d.spec.plans, x);
      PlanIsRead(d, d.spec.plans[x]);
    }
  }

  lemma EachRecordIsRead(d: Desk, rs: seq<Record>)
    requires Stocked(d) && Each(d, RecordOf, rs).Done?
    ensures forall x :: 0 <= x < |rs| ==>
      ReadRecord(Nodes(d, d.spec.scenes), Each(d, RecordOf, rs).value[x]) == KeptRecord(rs[x])
  {
    forall x | 0 <= x < |rs|
      ensures ReadRecord(Nodes(d, d.spec.scenes), Each(d, RecordOf, rs).value[x]) == KeptRecord(rs[x])
    {
      EachAt(d, RecordOf, rs, x);
      RecordIsRead(d, rs[x]);
    }
  }

  lemma RecordsAreRead(d: Desk)
    requires Stocked(d) && State(d).Done?
    ensures ReadRecords(Nodes(d, d.spec.scenes), Elements(State(d).value, "records")) == KeptSpec(d).records
  {
    StateHolds(d, Meta(d, "state_snapshot", "r1"), Each(d, RecordOf, d.spec.records).value);
    EachRecordIsRead(d, d.spec.records);
  }

  lemma FindingsAreRead(d: Desk)
    requires Stocked(d) && Findings(d).Done?
    ensures ReadFindings(Nodes(d, d.spec.scenes), Elements(Findings(d).value, "findings")) == d.spec.findings
  {
    var findings := Each(d, FindingOf, d.spec.findings).value;
    EvaluationHolds(d, Meta(d, "evaluation_artifact", "gold"), findings);
    forall x | 0 <= x < |findings| ensures ReadFinding(Nodes(d, d.spec.scenes), findings[x]) == d.spec.findings[x] {
      EachAt(d, FindingOf, d.spec.findings, x);
      FindingIsRead(d, d.spec.findings[x]);
    }
  }

  lemma EachQueryIsRead(d: Desk, qs: seq<Query>)
    requires Stocked(d) && Each(d, ContextCase, qs).Done?
    ensures forall x :: 0 <= x < |qs| ==>
      ReadQuery(Nodes(d, d.spec.scenes), Each(d, ContextCase, qs).value[x]) == KeptQuery(qs[x])
  {
    forall x | 0 <= x < |qs|
      ensures ReadQuery(Nodes(d, d.spec.scenes), Each(d, ContextCase, qs).value[x]) == KeptQuery(qs[x])
    {
      EachAt(d, ContextCase, qs, x);
      QueryIsRead(d, qs[x]);
    }
  }

  lemma QueriesAreRead(d: Desk)
    requires Stocked(d) && ContextGold(d).Done?
    ensures Attr(ContextGold(d).value, "fixture_id") == VStr(d.spec.fixtureId)
    ensures ReadQueries(Nodes(d, d.spec.scenes), Elements(ContextGold(d).value, "cases")) == KeptSpec(d).queries
  {
    SuiteHolds(d, GOLD_CONTEXT_SUITE, Meta(d, "gold_context_suite", "r1"), Each(d, ContextCase, d.spec.queries).value);
    EachQueryIsRead(d, d.spec.queries);
  }

  lemma EachScenarioIsRead(d: Desk, ss: seq<Scenario>)
    requires Paired(d) && Each(d, ImpactCase, ss).Done?
    ensures forall x :: 0 <= x < |ss| ==> ReadScenario(Each(d, ImpactCase, ss).value[x]) == KeptScenario(ss[x])
  {
    forall x | 0 <= x < |ss| ensures ReadScenario(Each(d, ImpactCase, ss).value[x]) == KeptScenario(ss[x]) {
      EachAt(d, ImpactCase, ss, x);
      ScenarioIsRead(d, ss[x]);
    }
  }

  lemma ScenariosAreRead(d: Desk)
    requires Stocked(d) && ImpactGold(d).Done?
    ensures ReadScenarios(Elements(ImpactGold(d).value, "cases")) == KeptSpec(d).scenarios
  {
    SuiteHolds(d, GOLD_IMPACT_SUITE, Meta(d, "gold_impact_suite", "r1"), Each(d, ImpactCase, d.spec.scenarios).value);
    EachScenarioIsRead(d, d.spec.scenarios);
  }

  /** Whatever a successful build was given, its artifacts give back. */
  lemma AnnotationsAreRead(d: Desk)
    requires Stocked(d) && Assemble(d).Done?
    ensures ReadSpec(Assemble(d).value) == KeptSpec(d)
  {
    ManuscriptHolds(d, Meta(d, "manuscript_revision", "r1"), Nodes(d, d.spec.scenes));
    BookIsRead(d);
    ScenesAreRead(d);
    PlansAreRead(d);
    RecordsAreRead(d);
    FindingsAreRead(d);
    QueriesAreRead(d);
    ScenariosAreRead(d);
  }
}
