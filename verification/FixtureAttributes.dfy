/** What each instance the builder makes holds, attribute by attribute: one lemma for a class,
    or a few where it has many attributes. All they rest on is that no two attributes of an
    instance share a name. */
module FixtureAttributes {
  import opened JsonValues
  import opened Catalogues
  import opened Serde
  import opened Options
  import opened Shipped
  import opened FixtureSpec
  import opened FixtureBuild
  import VersionGate

  predicate Apart(slots: seq<Slot>) {
    forall x, y :: 0 <= x < y < |slots| ==> slots[x].name != slots[y].name
  }

  lemma AttrAt(cls: Id, slots: seq<Slot>, x: nat)
    requires x < |slots| && forall y :: 0 <= y < x ==> slots[y].name != slots[x].name
    ensures Attr(VData(cls, slots), slots[x].name) == slots[x].val
  {
  }


  lemma SlotAttr(cls: Id, slots: seq<Slot>, x: nat)
    requires Apart(slots) && x < |slots|
    ensures Attr(VData(cls, slots), slots[x].name) == slots[x].val
  {
  }

  lemma PlanHolds(p: Plan, kind: Value, authority: Value)
    ensures var v := PlanValue(p, kind, authority);
      && Attr(v, "logical_id") == VStr(p.id) && Attr(v, "kind") == kind && Attr(v, "text") == VStr(p.text)
      && Attr(v, "authority") == authority && Attr(v, "locked") == VBool(p.locked) && Attr(v, "scope") == VNone
      && Attr(v, "links") == VList([])
  {
    var slots := PlanValue(p, kind, authority).slots;
    assert Apart(slots);
    SlotAttr(PLAN_ITEM, slots, 0);
    SlotAttr(PLAN_ITEM, slots, 1);
    SlotAttr(PLAN_ITEM, slots, 2);
    SlotAttr(PLAN_ITEM, slots, 3);
    SlotAttr(PLAN_ITEM, slots, 4);
    SlotAttr(PLAN_ITEM, slots, 5);
    SlotAttr(PLAN_ITEM, slots, 6);
  }

  lemma PositionHolds(key: string)
    ensures var v := PositionValue(key);
      && Attr(v, "order_key") == VStr(key) && Attr(v, "label") == VNone
  {
    var slots := PositionValue(key).slots;
    assert Apart(slots);
    SlotAttr(STORY_POSITION, slots, 0);
    SlotAttr(STORY_POSITION, slots, 1);
  }

  lemma RecordApart(r: Record, kind: Value, value: Value, position: Value, authority: Value, evidence: seq<Value>)
    ensures Apart(RecordValue(r, kind, value, position, authority, evidence).slots)
  {
  }

  lemma RecordHead(r: Record, kind: Value, value: Value, position: Value, authority: Value, evidence: seq<Value>)
    ensures var v := RecordValue(r, kind, value, position, authority, evidence);
      && Attr(v, "record_id") == VStr(r.id) && Attr(v, "kind") == kind && Attr(v, "subject") == VStr(r.subject)
  {
    var slots := RecordValue(r, kind, value, position, authority, evidence).slots;
    RecordApart(r, kind, value, position, authority, evidence);
    SlotAttr(STATE_RECORD, slots, 0);
    SlotAttr(STATE_RECORD, slots, 1);
    SlotAttr(STATE_RECORD, slots, 2);
  }

  lemma RecordBody(r: Record, kind: Value, value: Value, position: Value, authority: Value, evidence: seq<Value>)
    ensures var v := RecordValue(r, kind, value, position, authority, evidence);
      && Attr(v, "predicate") == VStr(r.pred) && Attr(v, "value") == value
  {
    var slots := RecordValue(r, kind, value, position, authority, evidence).slots;
    RecordApart(r, kind, value, position, authority, evidence);
    SlotAttr(STATE_RECORD, slots, 3);
    SlotAttr(STATE_RECORD, slots, 4);
  }

  lemma RecordTail(r: Record, kind: Value, value: Value, position: Value, authority: Value, evidence: seq<Value>)
    ensures var v := RecordValue(r, kind, value, position, authority, evidence);
      && Attr(v, "story_position") == position && Attr(v, "authority") == authority
      && Attr(v, "pov_visibility") == Strs(r.povVisibility) && Attr(v, "evidence") == VList(evidence)
      && Attr(v, "note") == OptStr(r.note)
  {
    var slots := RecordValue(r, kind, value, position, authority, evidence).slots;
    RecordApart(r, kind, value, position, authority, evidence);
    SlotAttr(STATE_RECORD, slots, 6);
    SlotAttr(STATE_RECORD, slots, 7);
    SlotAttr(STATE_RECORD, slots, 8);
    SlotAttr(STATE_RECORD, slots, 9);
    SlotAttr(STATE_RECORD, slots, 12);
  }

  lemma RecordRest(r: Record, kind: Value, value: Value, position: Value, authority: Value, evidence: seq<Value>)
    ensures var v := RecordValue(r, kind, value, position, authority, evidence);
      && Attr(v, "object_ref") == VNone && Attr(v, "confidence") == VNone
      && Attr(v, "predicate_registry_version") == VStr("fixture.v1")
  {
    var slots := RecordValue(r, kind, value, position, authority, evidence).slots;
    RecordApart(r, kind, value, position, authority, evidence);
    SlotAttr(STATE_RECORD, slots, 5);
    SlotAttr(STATE_RECORD, slots, 10);
    SlotAttr(STATE_RECORD, slots, 11);
  }

  lemma ScopeHolds(d: Desk, f: GoldFinding)
    ensures var v := ScopeValue(d, f);
      && Attr(v, "book_id") == VStr(BookId(d)) && Attr(v, "chapter_ids") == VList([])
      && Attr(v, "scene_ids") == Strs(SceneIds(f))
  {
    var slots := ScopeValue(d, f).slots;
    assert Apart(slots);
    SlotAttr(FINDING_SCOPE, slots, 0);
    SlotAttr(FINDING_SCOPE, slots, 1);
    SlotAttr(FINDING_SCOPE, slots, 2);
  }

  lemma TargetHolds(reason: string, span: Value, ref: Value)
    ensures var v := TargetValue(reason, span, ref);
      && Attr(v, "reason") == VStr(reason) && Attr(v, "span") == span && Attr(v, "ref") == ref
  {
    var slots := TargetValue(reason, span, ref).slots;
    assert Apart(slots);
    SlotAttr(GOLD_CONTEXT_TARGET, slots, 0);
    SlotAttr(GOLD_CONTEXT_TARGET, slots, 1);
    SlotAttr(GOLD_CONTEXT_TARGET, slots, 2);
  }

  lemma QueryApart(meta: Value, q: Query, operation: Value, target: Value)
    ensures Apart(QueryValue(meta, q, operation, target).slots)
  {
  }

  lemma QueryHead(meta: Value, q: Query, operation: Value, target: Value)
    ensures var v := QueryValue(meta, q, operation, target);
      && Attr(v, "meta") == meta && Attr(v, "query_id") == VStr(q.id) && Attr(v, "operation") == operation
      && Attr(v, "target") == target
  {
    var slots := QueryValue(meta, q, operation, target).slots;
    QueryApart(meta, q, operation, target);
    SlotAttr(CONTEXT_QUERY, slots, 0);
    SlotAttr(CONTEXT_QUERY, slots, 1);
    SlotAttr(CONTEXT_QUERY, slots, 2);
    SlotAttr(CONTEXT_QUERY, slots, 3);
  }

  lemma QueryBody(meta: Value, q: Query, operation: Value, target: Value)
    ensures var v := QueryValue(meta, q, operation, target);
      && Attr(v, "token_budget") == VInt(q.tokenBudget) && Attr(v, "pov_character_id") == OptStr(q.pov)
      && Attr(v, "intent") == OptStr(q.intent)
  {
    var slots := QueryValue(meta, q, operation, target).slots;
    QueryApart(meta, q, operation, target);
    SlotAttr(CONTEXT_QUERY, slots, 4);
    SlotAttr(CONTEXT_QUERY, slots, 5);
    SlotAttr(CONTEXT_QUERY, slots, 6);
  }

  lemma QueryRest(meta: Value, q: Query, operation: Value, target: Value)
    ensures var v := QueryValue(meta, q, operation, target);
      && Attr(v, "referenced_entities") == VList([]) && Attr(v, "referenced_threads") == VList([])
      && Attr(v, "story_time_cutoff") == VNone && Attr(v, "hard_requirements") == VList([])
      && Attr(v, "exclusions") == VList([]) && Attr(v, "model_context_limit") == VNone
      && Attr(v, "policy_version") == VStr("gold.v1")
  {
    var slots := QueryValue(meta, q, operation, target).slots;
    QueryApart(meta, q, operation, target);
    SlotAttr(CONTEXT_QUERY, slots, 7);
    SlotAttr(CONTEXT_QUERY, slots, 8);
    SlotAttr(CONTEXT_QUERY, slots, 9);
    SlotAttr(CONTEXT_QUERY, slots, 10);
    SlotAttr(CONTEXT_QUERY, slots, 11);
    SlotAttr(CONTEXT_QUERY, slots, 12);
    SlotAttr(CONTEXT_QUERY, slots, 13);
  }

  lemma CaseHolds(q: Query, query: Value, mandatory: seq<Value>, forbidden: seq<Value>)
    ensures var v := ContextCaseValue(q, query, mandatory, forbidden);
      && Attr(v, "query") == query && Attr(v, "mandatory") == VList(mandatory)
      && Attr(v, "forbidden") == VList(forbidden) && Attr(v, "notes") == OptStr(q.notes)
  {
    var slots := ContextCaseValue(q, query, mandatory, forbidden).slots;
    assert Apart(slots);
    SlotAttr(GOLD_CONTEXT_CASE, slots, 0);
    SlotAttr(GOLD_CONTEXT_CASE, slots, 1);
    SlotAttr(GOLD_CONTEXT_CASE, slots, 2);
    SlotAttr(GOLD_CONTEXT_CASE, slots, 3);
  }

  lemma SuiteHolds(d: Desk, cls: Id, meta: Value, cases: seq<Value>)
    ensures var v := SuiteValue(d, cls, meta, cases);
      && Attr(v, "meta") == meta && Attr(v, "fixture_id") == VStr(d.spec.fixtureId)
      && Attr(v, "cases") == VList(cases)
  {
    var slots := SuiteValue(d, cls, meta, cases).slots;
    assert Apart(slots);
    SlotAttr(cls, slots, 0);
    SlotAttr(cls, slots, 1);
    SlotAttr(cls, slots, 2);
  }

  lemma OperationHolds(kind: Value, source: string, before: Value, after: Value, beforeHash: Value, afterHash: Value,
                       detail: Value)
    ensures var v := OperationValue(kind, source, before, after, beforeHash, afterHash, detail);
      && Attr(v, "kind") == kind && Attr(v, "logical_source_id") == VStr(source)
      && Attr(v, "before_version") == before && Attr(v, "after_version") == after
      && Attr(v, "before_hash") == beforeHash && Attr(v, "after_hash") == afterHash && Attr(v, "detail") == detail
  {
    var slots := OperationValue(kind, source, before, after, beforeHash, afterHash, detail).slots;
    assert Apart(slots);
    SlotAttr(CHANGE_OPERATION, slots, 0);
    SlotAttr(CHANGE_OPERATION, slots, 1);
    SlotAttr(CHANGE_OPERATION, slots, 2);
    SlotAttr(CHANGE_OPERATION, slots, 3);
    SlotAttr(CHANGE_OPERATION, slots, 4);
    SlotAttr(CHANGE_OPERATION, slots, 5);
    SlotAttr(CHANGE_OPERATION, slots, 6);
  }

  lemma ChangeHolds(c: Change, kind: Value)
    ensures var v := ChangeValue(c, kind);
      && Attr(v, "kind") == kind && Attr(v, "subject") == OptStr(c.subject) && Attr(v, "predicate") == OptStr(c.pred)
      && Attr(v, "before") == OptRaw(c.before) && Attr(v, "after") == OptRaw(c.after)
      && Attr(v, "evidence") == VList([]) && Attr(v, "confidence") == VFloat(1.0)
  {
    var slots := ChangeValue(c, kind).slots;
    assert Apart(slots);
    SlotAttr(EXTRACTED_CHANGE, slots, 0);
    SlotAttr(EXTRACTED_CHANGE, slots, 1);
    SlotAttr(EXTRACTED_CHANGE, slots, 2);
    SlotAttr(EXTRACTED_CHANGE, slots, 3);
    SlotAttr(EXTRACTED_CHANGE, slots, 4);
    SlotAttr(EXTRACTED_CHANGE, slots, 5);
    SlotAttr(EXTRACTED_CHANGE, slots, 6);
  }

  lemma ExpectationHolds(e: Expectation, target: Value, impact: Value)
    ensures var v := ExpectationValue(e, target, impact);
      && Attr(v, "target") == target && Attr(v, "label") == impact && Attr(v, "note") == OptStr(e.note)
  {
    var slots := ExpectationValue(e, target, impact).slots;
    assert Apart(slots);
    SlotAttr(GOLD_IMPACT_EXPECTATION, slots, 0);
    SlotAttr(GOLD_IMPACT_EXPECTATION, slots, 1);
    SlotAttr(GOLD_IMPACT_EXPECTATION, slots, 2);
  }

  lemma ChangeSetApart(d: Desk, meta: Value, s: Scenario, operations: seq<Value>, changes: seq<Value>)
    ensures Apart(ChangeSetValue(d, meta, s, operations, changes).slots)
  {
  }

  lemma ChangeSetLists(d: Desk, meta: Value, s: Scenario, operations: seq<Value>, changes: seq<Value>)
    ensures var v := ChangeSetValue(d, meta, s, operations, changes);
      && Attr(v, "meta") == meta && Attr(v, "operations") == VList(operations)
      && Attr(v, "extracted_changes") == VList(changes) && Attr(v, "declared_intent") == OptStr(s.declaredIntent)
      && Attr(v, "preservation_constraints") == VList([])
  {
    var slots := ChangeSetValue(d, meta, s, operations, changes).slots;
    ChangeSetApart(d, meta, s, operations, changes);
    SlotAttr(CHANGE_SET, slots, 0);
    SlotAttr(CHANGE_SET, slots, 5);
    SlotAttr(CHANGE_SET, slots, 7);
    SlotAttr(CHANGE_SET, slots, 8);
    SlotAttr(CHANGE_SET, slots, 9);
  }

  lemma ChangeSetNames(d: Desk, meta: Value, s: Scenario, operations: seq<Value>, changes: seq<Value>)
    ensures var v := ChangeSetValue(d, meta, s, operations, changes);
      && Attr(v, "change_set_id") == VStr(DetId(d.h, [d.spec.fixtureId, "change_set", s.id]))
      && Attr(v, "base_revision") == VStr(RevisionId(d)) && Attr(v, "target_branch") == VStr(BranchId(d))
      && Attr(v, "actor") == VEnum(CHANGE_ACTOR, "author")
      && Attr(v, "idempotency_key") == VStr(DetId(d.h, [d.spec.fixtureId, "idempotency", s.id]))
  {
    var slots := ChangeSetValue(d, meta, s, operations, changes).slots;
    ChangeSetApart(d, meta, s, operations, changes);
    SlotAttr(CHANGE_SET, slots, 1);
    SlotAttr(CHANGE_SET, slots, 2);
    SlotAttr(CHANGE_SET, slots, 3);
    SlotAttr(CHANGE_SET, slots, 4);
    SlotAttr(CHANGE_SET, slots, 6);
  }

  lemma ImpactCaseHolds(s: Scenario, changeSet: Value, expected: seq<Value>)
    ensures var v := ImpactCaseValue(s, changeSet, expected);
      && Attr(v, "scenario_id") == VStr(s.id) && Attr(v, "description") == VStr(s.description)
      && Attr(v, "change_set") == changeSet && Attr(v, "expected") == VList(expected)
  {
    var slots := ImpactCaseValue(s, changeSet, expected).slots;
    assert Apart(slots);
    SlotAttr(GOLD_IMPACT_CASE, slots, 0);
    SlotAttr(GOLD_IMPACT_CASE, slots, 1);
    SlotAttr(GOLD_IMPACT_CASE, slots, 2);
    SlotAttr(GOLD_IMPACT_CASE, slots, 3);
  }

  lemma ManuscriptHolds(d: Desk, meta: Value, nodes: seq<Value>)
    ensures var v := ManuscriptValue(d, meta, nodes);
      && Attr(v, "meta") == meta && Attr(v, "book_id") == VStr(BookId(d)) && Attr(v, "branch_id") == VStr(BranchId(d))
      && Attr(v, "revision_id") == VStr(RevisionId(d)) && Attr(v, "nodes") == VList(nodes)
      && Attr(v, "parent_revision_id") == VNone
  {
    var slots := ManuscriptValue(d, meta, nodes).slots;
    assert Apart(slots);
    SlotAttr(MANUSCRIPT_REVISION, slots, 0);
    SlotAttr(MANUSCRIPT_REVISION, slots, 1);
    SlotAttr(MANUSCRIPT_REVISION, slots, 2);
    SlotAttr(MANUSCRIPT_REVISION, slots, 3);
    SlotAttr(MANUSCRIPT_REVISION, slots, 4);
    SlotAttr(MANUSCRIPT_REVISION, slots, 5);
  }

  lemma PlansHolds(d: Desk, meta: Value, items: seq<Value>)
    ensures var v := PlansValue(d, meta, items);
      && Attr(v, "meta") == meta && Attr(v, "book_id") == VStr(BookId(d)) && Attr(v, "branch_id") == VStr(BranchId(d))
      && Attr(v, "revision_id") == VStr(RevisionId(d)) && Attr(v, "items") == VList(items)
  {
    var slots := PlansValue(d, meta, items).slots;
    assert Apart(slots);
    SlotAttr(PLAN_SNAPSHOT, slots, 0);
    SlotAttr(PLAN_SNAPSHOT, slots, 1);
    SlotAttr(PLAN_SNAPSHOT, slots, 2);
    SlotAttr(PLAN_SNAPSHOT, slots, 3);
    SlotAttr(PLAN_SNAPSHOT, slots, 4);
  }

  lemma StateHolds(d: Desk, meta: Value, records: seq<Value>)
    ensures var v := StateValue(d, meta, records);
      && Attr(v, "meta") == meta && Attr(v, "book_id") == VStr(BookId(d)) && Attr(v, "branch_id") == VStr(BranchId(d))
      && Attr(v, "revision_id") == VStr(RevisionId(d)) && Attr(v, "records") == VList(records)
      && Attr(v, "as_of") == VNone
  {
    var slots := StateValue(d, meta, records).slots;
    assert Apart(slots);
    SlotAttr(STATE_SNAPSHOT, slots, 0);
    SlotAttr(STATE_SNAPSHOT, slots, 1);
    SlotAttr(STATE_SNAPSHOT, slots, 2);
    SlotAttr(STATE_SNAPSHOT, slots, 3);
    SlotAttr(STATE_SNAPSHOT, slots, 4);
    SlotAttr(STATE_SNAPSHOT, slots, 5);
  }

  lemma EvaluationHolds(d: Desk, meta: Value, findings: seq<Value>)
    ensures var v := EvaluationValue(d, meta, findings);
      && Attr(v, "meta") == meta && Attr(v, "run_id") == VStr("gold")
      && Attr(v, "plan_id") == VStr("gold-annotations") && Attr(v, "findings") == VList(findings)
      && Attr(v, "errors") == VList([]) && Attr(v, "metrics") == VDict([])
  {
    var slots := EvaluationValue(d, meta, findings).slots;
    assert Apart(slots);
    SlotAttr(EVALUATION_ARTIFACT, slots, 0);
    SlotAttr(EVALUATION_ARTIFACT, slots, 1);
    SlotAttr(EVALUATION_ARTIFACT, slots, 2);
    SlotAttr(EVALUATION_ARTIFACT, slots, 3);
    SlotAttr(EVALUATION_ARTIFACT, slots, 4);
    SlotAttr(EVALUATION_ARTIFACT, slots, 5);
  }

  lemma MetaApart(d: Desk, artifactKind: string, name: string)
    ensures Apart(Meta(d, artifactKind, name).slots)
  {
  }

  lemma MetaHead(d: Desk, artifactKind: string, name: string)
    ensures var v := Meta(d, artifactKind, name);
      && Attr(v, "schema_version") == VStr(VersionGate.SCHEMA_VERSION)
      && Attr(v, "artifact_id") == VStr(DetId(d.h, [d.spec.fixtureId, artifactKind, name]))
      && Attr(v, "artifact_kind") == VStr(artifactKind) && Attr(v, "created_at") == VStr(FIXED_CREATED_AT)
      && Attr(v, "actor") == VStr("fixture-builder") && Attr(v, "tool") == BUILDER_TOOL
      && Attr(v, "source_revisions") == VList([BookRef(d)])
  {
    var slots := Meta(d, artifactKind, name).slots;
    MetaApart(d, artifactKind, name);
    SlotAttr(ARTIFACT_META, slots, 0);
    SlotAttr(ARTIFACT_META, slots, 1);
    SlotAttr(ARTIFACT_META, slots, 2);
    SlotAttr(ARTIFACT_META, slots, 3);
    SlotAttr(ARTIFACT_META, slots, 4);
    SlotAttr(ARTIFACT_META, slots, 5);
    SlotAttr(ARTIFACT_META, slots, 6);
  }

  lemma MetaRest(d: Desk, artifactKind: string, name: string)
    ensures var v := Meta(d, artifactKind, name);
      && Attr(v, "dependencies") == VList([]) && Attr(v, "config_digest") == VNone && Attr(v, "causation_id") == VNone
      && Attr(v, "correlation_id") == VNone && Attr(v, "warnings") == VList([])
  {
    var slots := Meta(d, artifactKind, name).slots;
    MetaApart(d, artifactKind, name);
    SlotAttr(ARTIFACT_META, slots, 7);
    SlotAttr(ARTIFACT_META, slots, 8);
    SlotAttr(ARTIFACT_META, slots, 9);
    SlotAttr(ARTIFACT_META, slots, 10);
    SlotAttr(ARTIFACT_META, slots, 11);
  }

  lemma NodeApart(id: string, kind: string, key: string, parent: Value, title: string, content: Value, hash: Value,
                  version: string)
    ensures Apart(NodeValue(id, kind, key, parent, title, content, hash, version).slots)
  {
  }

  lemma NodeHead(id: string, kind: string, key: string, parent: Value, title: string, content: Value, hash: Value,
                 version: string)
    ensures var v := NodeValue(id, kind, key, parent, title, content, hash, version);
      && Attr(v, "logical_id") == VStr(id) && Attr(v, "kind") == VEnum(NODE_KIND, kind)
      && Attr(v, "position_key") == VStr(key)
  {
    var slots := NodeValue(id, kind, key, parent, title, content, hash, version).slots;
    NodeApart(id, kind, key, parent, title, content, hash, version);
    SlotAttr(MANUSCRIPT_NODE, slots, 0);
    SlotAttr(MANUSCRIPT_NODE, slots, 1);
    SlotAttr(MANUSCRIPT_NODE, slots, 2);
  }

  lemma NodePlace(id: string, kind: string, key: string, parent: Value, title: string, content: Value, hash: Value,
                  version: string)
    ensures var v := NodeValue(id, kind, key, parent, title, content, hash, version);
      && Attr(v, "parent_logical_id") == parent && Attr(v, "title") == VStr(title)
  {
    var slots := NodeValue(id, kind, key, parent, title, content, hash, version).slots;
    NodeApart(id, kind, key, parent, title, content, hash, version);
    SlotAttr(MANUSCRIPT_NODE, slots, 3);
    SlotAttr(MANUSCRIPT_NODE, slots, 4);
  }

  lemma NodeBody(id: string, kind: string, key: string, parent: Value, title: string, content: Value, hash: Value,
                 version: string)
    ensures var v := NodeValue(id, kind, key, parent, title, content, hash, version);
      && Attr(v, "content") == content && Attr(v, "content_sha256") == hash && Attr(v, "version_id") == VStr(version)
  {
    var slots := NodeValue(id, kind, key, parent, title, content, hash, version).slots;
    NodeApart(id, kind, key, parent, title, content, hash, version);
    SlotAttr(MANUSCRIPT_NODE, slots, 5);
    SlotAttr(MANUSCRIPT_NODE, slots, 6);
    SlotAttr(MANUSCRIPT_NODE, slots, 7);
  }

  lemma NodeRest(id: string, kind: string, key: string, parent: Value, title: string, content: Value, hash: Value,
                 version: string)
    ensures var v := NodeValue(id, kind, key, parent, title, content, hash, version);
      && Attr(v, "locked") == VBool(false) && Attr(v, "metadata") == VDict([]) && Attr(v, "lock_kind") == VNone
      && Attr(v, "block_kind") == VNone && Attr(v, "block_payload") == VNone && Attr(v, "tombstoned") == VNone
      && Attr(v, "tombstone_reason") == VNone
  {
    var slots := NodeValue(id, kind, key, parent, title, content, hash, version).slots;
    NodeApart(id, kind, key, parent, title, content, hash, version);
    SlotAttr(MANUSCRIPT_NODE, slots, 8);
    SlotAttr(MANUSCRIPT_NODE, slots, 9);
    SlotAttr(MANUSCRIPT_NODE, slots, 10);
    SlotAttr(MANUSCRIPT_NODE, slots, 11);
    SlotAttr(MANUSCRIPT_NODE, slots, 12);
    SlotAttr(MANUSCRIPT_NODE, slots, 13);
    SlotAttr(MANUSCRIPT_NODE, slots, 14);
  }

  lemma RefHolds(d: Desk, id: string, kind: string, version: Option<string>)
    ensures var v := Ref(d, id, kind, version);
      && Attr(v, "project_id") == VStr(ProjectId(d)) && Attr(v, "book_id") == VStr(BookId(d))
      && Attr(v, "branch_id") == VStr(BranchId(d)) && Attr(v, "logical_id") == VStr(id)
      && Attr(v, "kind") == VEnum(RESOURCE_KIND, kind) && Attr(v, "version_id") == OptStr(version)
  {
    var slots := Ref(d, id, kind, version).slots;
    assert Apart(slots);
    SlotAttr(RESOURCE_REF, slots, 0);
    SlotAttr(RESOURCE_REF, slots, 1);
    SlotAttr(RESOURCE_REF, slots, 2);
    SlotAttr(RESOURCE_REF, slots, 3);
    SlotAttr(RESOURCE_REF, slots, 4);
    SlotAttr(RESOURCE_REF, slots, 5);
  }

  lemma SpanHolds(source: Value, start: nat, end: nat, hash: string)
    ensures var v := SpanValue(source, start, end, hash);
      && Attr(v, "source") == source && Attr(v, "start") == VInt(start) && Attr(v, "end") == VInt(end)
      && Attr(v, "content_sha256") == VStr(hash) && Attr(v, "anchor_before") == VNone
      && Attr(v, "anchor_after") == VNone
  {
    var slots := SpanValue(source, start, end, hash).slots;
    assert Apart(slots);
    SlotAttr(EVIDENCE_SPAN, slots, 0);
    SlotAttr(EVIDENCE_SPAN, slots, 1);
    SlotAttr(EVIDENCE_SPAN, slots, 2);
    SlotAttr(EVIDENCE_SPAN, slots, 3);
    SlotAttr(EVIDENCE_SPAN, slots, 4);
    SlotAttr(EVIDENCE_SPAN, slots, 5);
  }

  // A finding's attributes come in two halves.

  predicate NoneShared(a: seq<Slot>, b: seq<Slot>) {
    forall x, y :: 0 <= x < |a| && 0 <= y < |b| ==> a[x].name != b[y].name
  }

  lemma LeadAttr(lead: seq<Slot>, rest: seq<Slot>, x: nat)
    requires Apart(lead) && x < |lead|
    ensures Attr(VData(FINDING, lead + rest), lead[x].name) == lead[x].val
  {
    assert (lead + rest)[x] == lead[x];
  }

  lemma RestAttr(lead: seq<Slot>, rest: seq<Slot>, x: nat)
    requires Apart(rest) && x < |rest| && NoneShared(lead, rest)
    ensures Attr(VData(FINDING, lead + rest), rest[x].name) == rest[x].val
  {
    assert (lead + rest)[|lead| + x] == rest[x];
  }

  lemma LeadApart(d: Desk, f: GoldFinding, category: Value, status: Value, severity: Value, primary: Value,
                  supporting: seq<Value>)
    ensures Apart(FindingLead(d, f, category, status, severity, primary, supporting))
  {
  }

  lemma RestApart(f: GoldFinding, claim: Value, reproduction: Value, dependencies: seq<Value>)
    ensures Apart(FindingRest(f, claim, reproduction, dependencies))
  {
  }

  lemma HalvesShareNone(d: Desk, f: GoldFinding, category: Value, status: Value, severity: Value, primary: Value,
                        supporting: seq<Value>, claim: Value, reproduction: Value, dependencies: seq<Value>)
    ensures NoneShared(FindingLead(d, f, category, status, severity, primary, supporting),
                       FindingRest(f, claim, reproduction, dependencies))
  {
  }

  lemma FindingHead(d: Desk, f: GoldFinding, category: Value, status: Value, severity: Value, primary: Value,
                    supporting: seq<Value>, dependencies: seq<Value>)
    ensures var v := FindingValue(d, f, category, status, severity, primary, supporting, dependencies);
      && Attr(v, "finding_id") == VStr(f.id) && Attr(v, "category") == category && Attr(v, "status") == status
      && Attr(v, "scope") == ScopeValue(d, f) && Attr(v, "severity") == severity
  {
    var lead := FindingLead(d, f, category, status, severity, primary, supporting);
    var rest := FindingRest(f, Raw(JObj(f.claim)), GOLD_REPRODUCTION, dependencies);
    LeadApart(d, f, category, status, severity, primary, supporting);
    LeadAttr(lead, rest, 0);
    LeadAttr(lead, rest, 1);
    LeadAttr(lead, rest, 2);
    LeadAttr(lead, rest, 3);
    LeadAttr(lead, rest, 4);
  }

  lemma FindingMiddle(d: Desk, f: GoldFinding, category: Value, status: Value, severity: Value, primary: Value,
                      supporting: seq<Value>, dependencies: seq<Value>)
    ensures var v := FindingValue(d, f, category, status, severity, primary, supporting, dependencies);
      && Attr(v, "message") == VStr(f.message) && Attr(v, "evaluation_run_id") == VStr("gold")
      && Attr(v, "subtype") == OptStr(f.subtype) && Attr(v, "primary_span") == primary
      && Attr(v, "supporting_evidence") == VList(supporting)
  {
    var lead := FindingLead(d, f, category, status, severity, primary, supporting);
    var rest := FindingRest(f, Raw(JObj(f.claim)), GOLD_REPRODUCTION, dependencies);
    LeadApart(d, f, category, status, severity, primary, supporting);
    LeadAttr(lead, rest, 5);
    LeadAttr(lead, rest, 6);
    LeadAttr(lead, rest, 7);
    LeadAttr(lead, rest, 8);
    LeadAttr(lead, rest, 9);
  }

  lemma FindingBasis(d: Desk, f: GoldFinding, category: Value, status: Value, severity: Value, primary: Value,
                     supporting: seq<Value>, dependencies: seq<Value>)
    ensures var v := FindingValue(d, f, category, status, severity, primary, supporting, dependencies);
      && Attr(v, "contradicting_evidence") == VList([]) && Attr(v, "rule_or_critic_id") == OptStr(f.ruleId)
      && Attr(v, "severity_rationale") == VNone && Attr(v, "confidence") == VFloat(1.0)
  {
    var lead := FindingLead(d, f, category, status, severity, primary, supporting);
    var rest := FindingRest(f, Raw(JObj(f.claim)), GOLD_REPRODUCTION, dependencies);
    RestApart(f, Raw(JObj(f.claim)), GOLD_REPRODUCTION, dependencies);
    HalvesShareNone(d, f, category, status, severity, primary, supporting, Raw(JObj(f.claim)), GOLD_REPRODUCTION,
                    dependencies);
    RestAttr(lead, rest, 0);
    RestAttr(lead, rest, 1);
    RestAttr(lead, rest, 2);
    RestAttr(lead, rest, 3);
  }

  lemma FindingGrounds(d: Desk, f: GoldFinding, category: Value, status: Value, severity: Value, primary: Value,
                       supporting: seq<Value>, dependencies: seq<Value>)
    ensures var v := FindingValue(d, f, category, status, severity, primary, supporting, dependencies);
      && Attr(v, "confidence_basis") == VEnum(CONFIDENCE_BASIS, "deterministic")
      && Attr(v, "evidence_confidence") == VFloat(1.0) && Attr(v, "claim") == Raw(JObj(f.claim))
  {
    var lead := FindingLead(d, f, category, status, severity, primary, supporting);
    var rest := FindingRest(f, Raw(JObj(f.claim)), GOLD_REPRODUCTION, dependencies);
    RestApart(f, Raw(JObj(f.claim)), GOLD_REPRODUCTION, dependencies);
    HalvesShareNone(d, f, category, status, severity, primary, supporting, Raw(JObj(f.claim)), GOLD_REPRODUCTION,
                    dependencies);
    RestAttr(lead, rest, 4);
    RestAttr(lead, rest, 5);
    RestAttr(lead, rest, 6);
  }

  lemma FindingTail(d: Desk, f: GoldFinding, category: Value, status: Value, severity: Value, primary: Value,
                    supporting: seq<Value>, dependencies: seq<Value>)
    ensures var v := FindingValue(d, f, category, status, severity, primary, supporting, dependencies);
      && Attr(v, "reproduction") == GOLD_REPRODUCTION && Attr(v, "dependencies") == VList(dependencies)
      && Attr(v, "suggested_action") == VEnum(SUGGESTED_ACTION, SuggestedAction(f.status))
  {
    var lead := FindingLead(d, f, category, status, severity, primary, supporting);
    var rest := FindingRest(f, Raw(JObj(f.claim)), GOLD_REPRODUCTION, dependencies);
    RestApart(f, Raw(JObj(f.claim)), GOLD_REPRODUCTION, dependencies);
    HalvesShareNone(d, f, category, status, severity, primary, supporting, Raw(JObj(f.claim)), GOLD_REPRODUCTION,
                    dependencies);
    RestAttr(lead, rest, 7);
    RestAttr(lead, rest, 8);
    RestAttr(lead, rest, 9);
  }
}
