/** Each dataclass instance the builder makes is fine: well typed, and cited throughout.
    A lemma named `...Fits` checks one argument list against the declared fields; the one
    named after the instance supplies the parts. */
module FixtureTypes {
  import opened JsonValues
  import opened Catalogues
  import opened Serde
  import opened Options
  import opened Shipped
  import opened FixtureSpec
  import opened FixtureBuild
  import opened FixtureLaws

  lemma ChosenIsFine(c: Catalogue, g: Ground, enum: Id, member: string)
    requires Ships(c) && enum < CLASSES_FROM && Choose(enum, member).Done?
    ensures Fine(c, g, TEnum(enum), Choose(enum, member).value)
  {
    Chosen(c, g, enum, member);
  }

  // ---- envelope -----------------------------------------------------------------------

  lemma ToolFits(c: Catalogue, g: Ground)
    ensures Fits(c, g, TOOL_IDENTITY_FIELDS, BUILDER_TOOL.slots)
  {
  }

  lemma MetaFits(c: Catalogue, g: Ground, d: Desk, kind: string, name: string)
    requires Fine(c, g, TData(TOOL_IDENTITY), BUILDER_TOOL)
    requires Fine(c, g, TList(TData(RESOURCE_REF)), VList([BookRef(d)]))
    ensures Fits(c, g, ARTIFACT_META_FIELDS, Meta(d, kind, name).slots)
  {
    assert Fine(c, g, TList(TStr), VList([])) && Fine(c, g, TList(TData(RESOURCE_REF)), VList([]));
    assert Fine(c, g, TOpt(TStr), VNone);
  }

  lemma SourcesAreFine(c: Catalogue, g: Ground, d: Desk)
    requires Ships(c) && Knows(g, d)
    ensures Fine(c, g, TList(TData(RESOURCE_REF)), VList([BookRef(d)]))
  {
    assert IsIssued(d, BookRef(d));
    RefIsFine(c, g, d, "book", "manuscript_book", Some(RevisionId(d)));
    ListIsFine(c, g, TData(RESOURCE_REF), [BookRef(d)]);
  }

  lemma MetaIsFine(c: Catalogue, g: Ground, d: Desk, kind: string, name: string)
    requires Ships(c) && Knows(g, d)
    ensures Fine(c, g, TData(ARTIFACT_META), Meta(d, kind, name))
  {
    ToolFits(c, g);
    Instance(c, g, TOOL_IDENTITY, BUILDER_TOOL.slots);
    SourcesAreFine(c, g, d);
    MetaFits(c, g, d, kind, name);
    Instance(c, g, ARTIFACT_META, Meta(d, kind, name).slots);
  }

  // ---- manuscript -----------------------------------------------------------------------

  lemma NodeFits(c: Catalogue, g: Ground, id: string, kind: string, key: string, parent: Value, title: string,
                 content: Value, hash: Value, version: string)
    requires Fine(c, g, TEnum(NODE_KIND), VEnum(NODE_KIND, kind)) && Fine(c, g, TOpt(TStr), parent)
    requires Fine(c, g, TOpt(TStr), content) && Fine(c, g, TOpt(TStr), hash)
    ensures Fits(c, g, MANUSCRIPT_NODE_FIELDS, NodeValue(id, kind, key, parent, title, content, hash, version).slots)
  {
    OptStrIsFine(c, g, Some(title));
    OptStrIsFine(c, g, Some(version));
    EmptyIsFine(c, g, TAny);
    NoneIsFine(c, g, TEnum(LOCK_KIND));
    NoneIsFine(c, g, TEnum(BLOCK_KIND));
    NoneIsFine(c, g, TDict(TAny));
    NoneIsFine(c, g, TBool);
    NoneIsFine(c, g, TStr);
  }

  lemma BookNodeIsFine(c: Catalogue, g: Ground, d: Desk)
    requires Ships(c)
    ensures Fine(c, g, TData(MANUSCRIPT_NODE), BookNode(d))
  {
    Chosen(c, g, NODE_KIND, "book");
    NodeFits(c, g, "book", "book", "000", VNone, d.spec.bookTitle, VNone, VNone, RevisionId(d));
    Instance(c, g, MANUSCRIPT_NODE, BookNode(d).slots);
  }

  lemma SceneNodeIsFine(c: Catalogue, g: Ground, d: Desk, s: Scene, i: nat)
    requires Ships(c) && Paired(d) && s.id in d.sceneText
    ensures Fine(c, g, TData(MANUSCRIPT_NODE), SceneNode(d, s, i))
  {
    var text := d.sceneText[s.id];
    Chosen(c, g, NODE_KIND, "scene");
    NodeFits(c, g, s.id, "scene", PositionKey(i), VStr("book"), s.title, VStr(text), VStr(d.h.sha(text)),
             d.sceneVersion[s.id]);
    Instance(c, g, MANUSCRIPT_NODE, SceneNode(d, s, i).slots);
  }

  lemma {:induction false} NodeIsFine(c: Catalogue, g: Ground, d: Desk, scenes: seq<Scene>, x: nat)
    requires Ships(c) && Paired(d) && (forall s :: s in scenes ==> s.id in d.sceneText) && x <= |scenes|
    ensures Fine(c, g, TData(MANUSCRIPT_NODE), Nodes(d, scenes)[x])
  {
    if |scenes| == 0 {
      BookNodeIsFine(c, g, d);
    } else if x < |scenes| {
      NodeIsFine(c, g, d, scenes[..|scenes| - 1], x);
    } else {
      SceneNodeIsFine(c, g, d, scenes[x - 1], x);
    }
  }

  lemma NodesAreFine(c: Catalogue, g: Ground, d: Desk)
    requires Ships(c) && Loaded(d)
    ensures Fine(c, g, TList(TData(MANUSCRIPT_NODE)), VList(Nodes(d, d.spec.scenes)))
  {
    var nodes := Nodes(d, d.spec.scenes);
    forall x | 0 <= x < |nodes| ensures Fine(c, g, TData(MANUSCRIPT_NODE), nodes[x]) {
      NodeIsFine(c, g, d, d.spec.scenes, x);
    }
    ListIsFine(c, g, TData(MANUSCRIPT_NODE), nodes);
  }

  lemma ManuscriptFits(c: Catalogue, g: Ground, d: Desk, meta: Value, nodes: seq<Value>)
    requires Fine(c, g, TData(ARTIFACT_META), meta)
    requires Fine(c, g, TList(TData(MANUSCRIPT_NODE)), VList(nodes))
    ensures Fits(c, g, MANUSCRIPT_REVISION_FIELDS, ManuscriptValue(d, meta, nodes).slots)
  {
  }

  lemma ManuscriptIsFine(c: Catalogue, g: Ground, d: Desk)
    requires Ships(c) && Loaded(d) && Knows(g, d)
    ensures Fine(c, g, TData(MANUSCRIPT_REVISION), Manuscript(d))
  {
    MetaIsFine(c, g, d, "manuscript_revision", "r1");
    NodesAreFine(c, g, d);
    ManuscriptFits(c, g, d, Meta(d, "manuscript_revision", "r1"), Nodes(d, d.spec.scenes));
    Instance(c, g, MANUSCRIPT_REVISION, Manuscript(d).slots);
  }

  // ---- plans ------------------------------------------------------------------------------

  lemma PlanFits(c: Catalogue, g: Ground, p: Plan, kind: Value, authority: Value)
    requires Fine(c, g, TEnum(PLAN_KIND), kind) && Fine(c, g, TEnum(PLAN_AUTHORITY), authority)
    ensures Fits(c, g, PLAN_ITEM_FIELDS, PlanValue(p, kind, authority).slots)
  {
  }

  lemma PlanItemIsFine(c: Catalogue, g: Ground, d: Desk, p: Plan)
    requires Ships(c) && PlanItem(d, p).Done?
    ensures Fine(c, g, TData(PLAN_ITEM), PlanItem(d, p).value)
  {
    ChosenIsFine(c, g, PLAN_KIND, p.kind);
    ChosenIsFine(c, g, PLAN_AUTHORITY, p.authority);
    PlanFits(c, g, p, Choose(PLAN_KIND, p.kind).value, Choose(PLAN_AUTHORITY, p.authority).value);
    Instance(c, g, PLAN_ITEM, PlanItem(d, p).value.slots);
  }

  lemma PlansFit(c: Catalogue, g: Ground, d: Desk, meta: Value, items: seq<Value>)
    requires Fine(c, g, TData(ARTIFACT_META), meta)
    requires Fine(c, g, TList(TData(PLAN_ITEM)), VList(items))
    ensures Fits(c, g, PLAN_SNAPSHOT_FIELDS, PlansValue(d, meta, items).slots)
  {
  }

  lemma PlanItemsAreFine(c: Catalogue, g: Ground, d: Desk)
    requires Ships(c) && Each(d, PlanItem, d.spec.plans).Done?
    ensures Fine(c, g, TList(TData(PLAN_ITEM)), VList(Each(d, PlanItem, d.spec.plans).value))
  {
    forall p | PlanItem(d, p).Done? ensures Fine(c, g, TData(PLAN_ITEM), PlanItem(d, p).value) {
      PlanItemIsFine(c, g, d, p);
    }
    EachIsFine(c, g, TData(PLAN_ITEM), d, PlanItem, d.spec.plans);
  }

  lemma PlansAreFine(c: Catalogue, g: Ground, d: Desk)
    requires Ships(c) && Knows(g, d) && Plans(d).Done?
    ensures Fine(c, g, TData(PLAN_SNAPSHOT), Plans(d).value)
  {
    PlanItemsAreFine(c, g, d);
    MetaIsFine(c, g, d, "plan_snapshot", "r1");
    PlansFit(c, g, d, Meta(d, "plan_snapshot", "r1"), Each(d, PlanItem, d.spec.plans).value);
    Instance(c, g, PLAN_SNAPSHOT, Plans(d).value.slots);
  }

  // ---- state ------------------------------------------------------------------------------

  lemma CitesAreFine(c: Catalogue, d: Desk, cites: seq<Cite>)
    requires Ships(c) && Stocked(d) && Each(d, Span, cites).Done?
    ensures Fine(c, GroundOf(d), TList(TData(EVIDENCE_SPAN)), VList(Each(d, Span, cites).value))
  {
    forall q | Span(d, q).Done? ensures Fine(c, GroundOf(d), TData(EVIDENCE_SPAN), Span(d, q).value) {
      SpanIsFine(c, d, q);
    }
    EachIsFine(c, GroundOf(d), TData(EVIDENCE_SPAN), d, Span, cites);
  }

  lemma PositionFits(c: Catalogue, g: Ground, key: string)
    ensures Fits(c, g, STORY_POSITION_FIELDS, PositionValue(key).slots)
  {
  }

  lemma PositionIsFine(c: Catalogue, g: Ground, key: string)
    requires Ships(c)
    ensures Fine(c, g, TOpt(TData(STORY_POSITION)), PositionValue(key))
  {
    PositionFits(c, g, key);
    Instance(c, g, STORY_POSITION, PositionValue(key).slots);
  }

  lemma RecordFits(c: Catalogue, g: Ground, r: Record, kind: Value, value: Value, position: Value, authority: Value,
                   evidence: seq<Value>)
    requires Fine(c, g, TEnum(STATE_RECORD_KIND), kind) && Fine(c, g, TEnum(STATE_AUTHORITY), authority)
    requires Fine(c, g, TAny, value) && Fine(c, g, TOpt(TData(STORY_POSITION)), position)
    requires Fine(c, g, TList(TStr), Strs(r.povVisibility)) && Fine(c, g, TList(TData(EVIDENCE_SPAN)), VList(evidence))
    ensures Fits(c, g, STATE_RECORD_FIELDS, RecordValue(r, kind, value, position, authority, evidence).slots)
  {
    NoneIsFine(c, g, TStr);
    NoneIsFine(c, g, TFloat);
    OptStrIsFine(c, g, Some("fixture.v1"));
    OptStrIsFine(c, g, r.note);
  }

  lemma RecordInstance(c: Catalogue, g: Ground, r: Record, kind: Value, authority: Value, evidence: seq<Value>)
    requires Ships(c)
    requires Fine(c, g, TEnum(STATE_RECORD_KIND), kind) && Fine(c, g, TEnum(STATE_AUTHORITY), authority)
    requires Fine(c, g, TList(TData(EVIDENCE_SPAN)), VList(evidence))
    ensures Fine(c, g, TData(STATE_RECORD),
                 RecordValue(r, kind, OptRaw(r.value), PositionValue(r.position), authority, evidence))
  {
    var value, position := OptRaw(r.value), PositionValue(r.position);
    OptRawIsFine(c, g, r.value);
    StrsAreFine(c, g, r.povVisibility);
    PositionIsFine(c, g, r.position);
    RecordFits(c, g, r, kind, value, position, authority, evidence);
    Instance(c, g, STATE_RECORD, RecordValue(r, kind, value, position, authority, evidence).slots);
  }

  lemma RecordIsFine(c: Catalogue, d: Desk, r: Record)
    requires Ships(c) && Stocked(d) && RecordOf(d, r).Done?
    ensures Fine(c, GroundOf(d), TData(STATE_RECORD), RecordOf(d, r).value)
  {
    ChosenIsFine(c, GroundOf(d), STATE_RECORD_KIND, r.kind);
    ChosenIsFine(c, GroundOf(d), STATE_AUTHORITY, r.authority);
    CitesAreFine(c, d, r.evidence);
    RecordInstance(c, GroundOf(d), r, Choose(STATE_RECORD_KIND, r.kind).value,
                   Choose(STATE_AUTHORITY, r.authority).value, Each(d, Span, r.evidence).value);
  }

  lemma StateFits(c: Catalogue, g: Ground, d: Desk, meta: Value, records: seq<Value>)
    requires Fine(c, g, TData(ARTIFACT_META), meta)
    requires Fine(c, g, TList(TData(STATE_RECORD)), VList(records))
    ensures Fits(c, g, STATE_SNAPSHOT_FIELDS, StateValue(d, meta, records).slots)
  {
  }

  lemma RecordsAreFine(c: Catalogue, d: Desk)
    requires Ships(c) && Stocked(d) && Each(d, RecordOf, d.spec.records).Done?
    ensures Fine(c, GroundOf(d), TList(TData(STATE_RECORD)), VList(Each(d, RecordOf, d.spec.records).value))
  {
    forall r | RecordOf(d, r).Done? ensures Fine(c, GroundOf(d), TData(STATE_RECORD), RecordOf(d, r).value) {
      RecordIsFine(c, d, r);
    }
    EachIsFine(c, GroundOf(d), TData(STATE_RECORD), d, RecordOf, d.spec.records);
  }

  lemma StateInstance(c: Catalogue, g: Ground, d: Desk, records: seq<Value>)
    requires Ships(c) && Knows(g, d) && Fine(c, g, TList(TData(STATE_RECORD)), VList(records))
    ensures Fine(c, g, TData(STATE_SNAPSHOT), StateValue(d, Meta(d, "state_snapshot", "r1"), records))
  {
    MetaIsFine(c, g, d, "state_snapshot", "r1");
    StateFits(c, g, d, Meta(d, "state_snapshot", "r1"), records);
    Instance(c, g, STATE_SNAPSHOT, StateValue(d, Meta(d, "state_snapshot", "r1"), records).slots);
  }

  lemma StateIsFine(c: Catalogue, d: Desk)
    requires Ships(c) && Stocked(d) && State(d).Done?
    ensures Fine(c, GroundOf(d), TData(STATE_SNAPSHOT), State(d).value)
  {
    RecordsAreFine(c, d);
    StateInstance(c, GroundOf(d), d, Each(d, RecordOf, d.spec.records).value);
  }

  // ---- findings -----------------------------------------------------------------------------

  lemma ScopeFits(c: Catalogue, g: Ground, d: Desk, f: GoldFinding)
    requires Fine(c, g, TList(TStr), Strs(SceneIds(f)))
    ensures Fits(c, g, FINDING_SCOPE_FIELDS, ScopeValue(d, f).slots)
  {
  }

  lemma ScopeIsFine(c: Catalogue, g: Ground, d: Desk, f: GoldFinding)
    requires Ships(c)
    ensures Fine(c, g, TData(FINDING_SCOPE), ScopeValue(d, f))
  {
    StrsAreFine(c, g, SceneIds(f));
    ScopeFits(c, g, d, f);
    Instance(c, g, FINDING_SCOPE, ScopeValue(d, f).slots);
  }

  lemma ReproductionFits(c: Catalogue, g: Ground)
    ensures Fits(c, g, REPRODUCTION_FIELDS, GOLD_REPRODUCTION.slots)
  {
  }

  lemma FindingLeadFits(c: Catalogue, g: Ground, d: Desk, f: GoldFinding, category: Value, status: Value,
                        severity: Value, primary: Value, supporting: seq<Value>)
    requires Fine(c, g, TEnum(FINDING_CATEGORY), category) && Fine(c, g, TEnum(FINDING_STATUS), status)
    requires Fine(c, g, TEnum(SEVERITY), severity) && Fine(c, g, TData(FINDING_SCOPE), ScopeValue(d, f))
    requires Fine(c, g, TOpt(TData(EVIDENCE_SPAN)), primary)
    requires Fine(c, g, TList(TData(EVIDENCE_SPAN)), VList(supporting))
    ensures Fits(c, g, FINDING_LEAD, FindingLead(d, f, category, status, severity, primary, supporting))
  {
    assert Fine(c, g, TStr, VStr(f.id)) && Fine(c, g, TStr, VStr(f.message));
    OptStrIsFine(c, g, Some("gold"));
    OptStrIsFine(c, g, f.subtype);
  }

  lemma FindingRestFits(c: Catalogue, g: Ground, f: GoldFinding, claim: Value, reproduction: Value,
                        dependencies: seq<Value>)
    requires Fine(c, g, TEnum(CONFIDENCE_BASIS), VEnum(CONFIDENCE_BASIS, "deterministic"))
    requires Fine(c, g, TEnum(SUGGESTED_ACTION), VEnum(SUGGESTED_ACTION, SuggestedAction(f.status)))
    requires Fine(c, g, TDict(TAny), claim) && Fine(c, g, TOpt(TData(REPRODUCTION)), reproduction)
    requires Fine(c, g, TList(TData(RESOURCE_REF)), VList(dependencies))
    ensures Fits(c, g, FINDING_REST, FindingRest(f, claim, reproduction, dependencies))
  {
    EmptyIsFine(c, g, TData(EVIDENCE_SPAN));
    OptStrIsFine(c, g, f.ruleId);
    NoneIsFine(c, g, TStr);
    FloatIsFine(c, g, 1.0);
  }

  lemma DependenciesAreFine(c: Catalogue, g: Ground, d: Desk, targets: seq<string>)
    requires Ships(c) && Knows(g, d) && Each(d, ResolveTarget, targets).Done?
    ensures Fine(c, g, TList(TData(RESOURCE_REF)), VList(Each(d, ResolveTarget, targets).value))
  {
    forall t | ResolveTarget(d, t).Done? ensures Fine(c, g, TData(RESOURCE_REF), ResolveTarget(d, t).value) {
      ResolvedIsFine(c, g, d, t);
    }
    EachIsFine(c, g, TData(RESOURCE_REF), d, ResolveTarget, targets);
  }

  lemma ReproductionIsFine(c: Catalogue, g: Ground)
    requires Ships(c)
    ensures Fine(c, g, TOpt(TData(REPRODUCTION)), GOLD_REPRODUCTION)
  {
    ReproductionFits(c, g);
    Instance(c, g, REPRODUCTION, GOLD_REPRODUCTION.slots);
  }

  lemma FindingRestIsFine(c: Catalogue, g: Ground, f: GoldFinding, dependencies: seq<Value>)
    requires Ships(c) && Fine(c, g, TList(TData(RESOURCE_REF)), VList(dependencies))
    ensures Fits(c, g, FINDING_REST, FindingRest(f, Raw(JObj(f.claim)), GOLD_REPRODUCTION, dependencies))
  {
    Chosen(c, g, CONFIDENCE_BASIS, "deterministic");
    Chosen(c, g, SUGGESTED_ACTION, SuggestedAction(f.status));
    RawDictIsFine(c, g, f.claim);
    ReproductionIsFine(c, g);
    FindingRestFits(c, g, f, Raw(JObj(f.claim)), GOLD_REPRODUCTION, dependencies);
  }

  lemma FindingWhole(c: Catalogue, g: Ground, lead: seq<Slot>, rest: seq<Slot>)
    requires Ships(c) && Fits(c, g, FINDING_LEAD, lead) && Fits(c, g, FINDING_REST, rest)
    ensures Fine(c, g, TData(FINDING), VData(FINDING, lead + rest))
  {
    FitsAppend(c, g, FINDING_LEAD, FINDING_REST, lead, rest);
    Instance(c, g, FINDING, lead + rest);
  }

  lemma FindingInstance(c: Catalogue, g: Ground, d: Desk, f: GoldFinding, category: Value, status: Value,
                        severity: Value, primary: Value, supporting: seq<Value>, dependencies: seq<Value>)
    requires Ships(c) && Fine(c, g, TEnum(FINDING_CATEGORY), category) && Fine(c, g, TEnum(FINDING_STATUS), status)
    requires Fine(c, g, TEnum(SEVERITY), severity) && Fine(c, g, TOpt(TData(EVIDENCE_SPAN)), primary)
    requires Fine(c, g, TList(TData(EVIDENCE_SPAN)), VList(supporting))
    requires Fine(c, g, TList(TData(RESOURCE_REF)), VList(dependencies))
    ensures Fine(c, g, TData(FINDING),
                 FindingValue(d, f, category, status, severity, primary, supporting, dependencies))
  {
    var lead := FindingLead(d, f, category, status, severity, primary, supporting);
    var rest := FindingRest(f, Raw(JObj(f.claim)), GOLD_REPRODUCTION, dependencies);
    ScopeIsFine(c, g, d, f);
    FindingLeadFits(c, g, d, f, category, status, severity, primary, supporting);
    FindingRestIsFine(c, g, f, dependencies);
    FindingWhole(c, g, lead, rest);
  }

  lemma FindingIsFine(c: Catalogue, d: Desk, f: GoldFinding)
    requires Ships(c) && Stocked(d) && FindingOf(d, f).Done?
    ensures Fine(c, GroundOf(d), TData(FINDING), FindingOf(d, f).value)
  {
    ChosenIsFine(c, GroundOf(d), FINDING_CATEGORY, f.category);
    ChosenIsFine(c, GroundOf(d), FINDING_STATUS, f.status);
    ChosenIsFine(c, GroundOf(d), SEVERITY, f.severity);
    SpanIsFine(c, d, f.primary);
    CitesAreFine(c, d, f.supporting);
    DependenciesAreFine(c, GroundOf(d), d, f.dependencies);
    FindingInstance(
      c, GroundOf(d), d, f, Choose(FINDING_CATEGORY, f.category).value, Choose(FINDING_STATUS, f.status).value,
      Choose(SEVERITY, f.severity).value, Span(d, f.primary).value, Each(d, Span, f.supporting).value,
      Each(d, ResolveTarget, f.dependencies).value);
  }

  lemma EvaluationFits(c: Catalogue, g: Ground, d: Desk, meta: Value, findings: seq<Value>)
    requires Fine(c, g, TData(ARTIFACT_META), meta)
    requires Fine(c, g, TList(TData(FINDING)), VList(findings))
    ensures Fits(c, g, EVALUATION_ARTIFACT_FIELDS, EvaluationValue(d, meta, findings).slots)
  {
    assert Fine(c, g, TList(TData(EVALUATION_ERROR)), VList([])) && Fine(c, g, TDict(TFloat), VDict([]));
  }

  lemma FindingListIsFine(c: Catalogue, d: Desk)
    requires Ships(c) && Stocked(d) && Each(d, FindingOf, d.spec.findings).Done?
    ensures Fine(c, GroundOf(d), TList(TData(FINDING)), VList(Each(d, FindingOf, d.spec.findings).value))
  {
    forall f | FindingOf(d, f).Done? ensures Fine(c, GroundOf(d), TData(FINDING), FindingOf(d, f).value) {
      FindingIsFine(c, d, f);
    }
    EachIsFine(c, GroundOf(d), TData(FINDING), d, FindingOf, d.spec.findings);
  }

  lemma EvaluationInstance(c: Catalogue, g: Ground, d: Desk, findings: seq<Value>)
    requires Ships(c) && Knows(g, d) && Fine(c, g, TList(TData(FINDING)), VList(findings))
    ensures Fine(c, g, TData(EVALUATION_ARTIFACT),
                 EvaluationValue(d, Meta(d, "evaluation_artifact", "gold"), findings))
  {
    MetaIsFine(c, g, d, "evaluation_artifact", "gold");
    EvaluationFits(c, g, d, Meta(d, "evaluation_artifact", "gold"), findings);
    Instance(c, g, EVALUATION_ARTIFACT,
             EvaluationValue(d, Meta(d, "evaluation_artifact", "gold"), findings).slots);
  }

  lemma FindingsAreFine(c: Catalogue, d: Desk)
    requires Ships(c) && Stocked(d) && Findings(d).Done?
    ensures Fine(c, GroundOf(d), TData(EVALUATION_ARTIFACT), Findings(d).value)
  {
    FindingListIsFine(c, d);
    EvaluationInstance(c, GroundOf(d), d, Each(d, FindingOf, d.spec.findings).value);
  }

  // ---- context suite --------------------------------------------------------------------------

  lemma TargetFits(c: Catalogue, g: Ground, reason: string, span: Value, ref: Value)
    requires Fine(c, g, TOpt(TData(EVIDENCE_SPAN)), span) && Fine(c, g, TOpt(TData(RESOURCE_REF)), ref)
    ensures Fits(c, g, GOLD_CONTEXT_TARGET_FIELDS, TargetValue(reason, span, ref).slots)
  {
  }

  lemma TargetInstance(c: Catalogue, g: Ground, reason: string, span: Value, ref: Value)
    requires Ships(c)
    requires Fine(c, g, TOpt(TData(EVIDENCE_SPAN)), span) && Fine(c, g, TOpt(TData(RESOURCE_REF)), ref)
    ensures Fine(c, g, TData(GOLD_CONTEXT_TARGET), TargetValue(reason, span, ref))
  {
    TargetFits(c, g, reason, span, ref);
    Instance(c, g, GOLD_CONTEXT_TARGET, TargetValue(reason, span, ref).slots);
  }

  lemma QuoteTargetIsFine(c: Catalogue, d: Desk, reason: string, cite: Cite)
    requires Ships(c) && Stocked(d) && Span(d, cite).Done?
    ensures Fine(c, GroundOf(d), TData(GOLD_CONTEXT_TARGET), TargetValue(reason, Span(d, cite).value, VNone))
  {
    SpanIsFine(c, d, cite);
    TargetInstance(c, GroundOf(d), reason, Span(d, cite).value, VNone);
  }

  lemma RefTargetIsFine(c: Catalogue, g: Ground, d: Desk, reason: string, target: string)
    requires Ships(c) && Knows(g, d) && ResolveTarget(d, target).Done?
    ensures Fine(c, g, TData(GOLD_CONTEXT_TARGET), TargetValue(reason, VNone, ResolveTarget(d, target).value))
  {
    ResolvedIsFine(c, g, d, target);
    TargetInstance(c, g, reason, VNone, ResolveTarget(d, target).value);
  }

  lemma TargetIsFine(c: Catalogue, d: Desk, t: Target)
    requires Ships(c) && Stocked(d) && ContextTarget(d, t).Done?
    ensures Fine(c, GroundOf(d), TData(GOLD_CONTEXT_TARGET), ContextTarget(d, t).value)
  {
    if t.quote.Some? {
      QuoteTargetIsFine(c, d, t.reason, Cite(t.scene.value, t.quote.value));
    } else {
      RefTargetIsFine(c, GroundOf(d), d, t.reason, if t.record.Some? then t.record.value else t.plan.value);
    }
  }

  lemma TargetsAreFine(c: Catalogue, d: Desk, ts: seq<Target>)
    requires Ships(c) && Stocked(d) && Each(d, ContextTarget, ts).Done?
    ensures Fine(c, GroundOf(d), TList(TData(GOLD_CONTEXT_TARGET)), VList(Each(d, ContextTarget, ts).value))
  {
    forall t | ContextTarget(d, t).Done?
      ensures Fine(c, GroundOf(d), TData(GOLD_CONTEXT_TARGET), ContextTarget(d, t).value)
    {
      TargetIsFine(c, d, t);
    }
    EachIsFine(c, GroundOf(d), TData(GOLD_CONTEXT_TARGET), d, ContextTarget, ts);
  }

  lemma QueryFits(c: Catalogue, g: Ground, meta: Value, q: Query, operation: Value, target: Value)
    requires Fine(c, g, TEnum(CONTEXT_OPERATION), operation) && Fine(c, g, TData(RESOURCE_REF), target)
    requires Fine(c, g, TData(ARTIFACT_META), meta)
    ensures Fits(c, g, CONTEXT_QUERY_FIELDS, QueryValue(meta, q, operation, target).slots)
  {
    assert Fine(c, g, TStr, VStr(q.id)) && Fine(c, g, TInt, VInt(q.tokenBudget));
    OptStrIsFine(c, g, q.pov);
    OptStrIsFine(c, g, q.intent);
    EmptyIsFine(c, g, TStr);
    EmptyIsFine(c, g, TData(RESOURCE_REF));
    NoneIsFine(c, g, TData(STORY_POSITION));
    NoneIsFine(c, g, TInt);
    OptStrIsFine(c, g, Some("gold.v1"));
  }

  lemma QueryInstance(c: Catalogue, g: Ground, meta: Value, q: Query, operation: Value, target: Value)
    requires Ships(c) && Fine(c, g, TData(ARTIFACT_META), meta)
    requires Fine(c, g, TEnum(CONTEXT_OPERATION), operation) && Fine(c, g, TData(RESOURCE_REF), target)
    ensures Fine(c, g, TData(CONTEXT_QUERY), QueryValue(meta, q, operation, target))
  {
    QueryFits(c, g, meta, q, operation, target);
    Instance(c, g, CONTEXT_QUERY, QueryValue(meta, q, operation, target).slots);
  }

  lemma QueryIsFine(c: Catalogue, g: Ground, d: Desk, q: Query)
    requires Ships(c) && Knows(g, d) && Choose(CONTEXT_OPERATION, q.operation).Done? && ResolveTarget(d, q.target).Done?
    ensures Fine(c, g, TData(CONTEXT_QUERY),
                 QueryValue(Meta(d, "context_query", q.id), q, Choose(CONTEXT_OPERATION, q.operation).value,
                            ResolveTarget(d, q.target).value))
  {
    var operation, target := Choose(CONTEXT_OPERATION, q.operation).value, ResolveTarget(d, q.target).value;
    var meta := Meta(d, "context_query", q.id);
    ChosenIsFine(c, g, CONTEXT_OPERATION, q.operation);
    ResolvedIsFine(c, g, d, q.target);
    MetaIsFine(c, g, d, "context_query", q.id);
    QueryInstance(c, g, meta, q, operation, target);
  }

  lemma ContextCaseFits(c: Catalogue, g: Ground, q: Query, query: Value, mandatory: seq<Value>, forbidden: seq<Value>)
    requires Fine(c, g, TData(CONTEXT_QUERY), query)
    requires Fine(c, g, TList(TData(GOLD_CONTEXT_TARGET)), VList(mandatory))
    requires Fine(c, g, TList(TData(GOLD_CONTEXT_TARGET)), VList(forbidden))
    ensures Fits(c, g, GOLD_CONTEXT_CASE_FIELDS, ContextCaseValue(q, query, mandatory, forbidden).slots)
  {
    OptStrIsFine(c, g, q.notes);
  }

  lemma ContextCaseInstance(c: Catalogue, g: Ground, q: Query, query: Value, mandatory: seq<Value>,
                            forbidden: seq<Value>)
    requires Ships(c) && Fine(c, g, TData(CONTEXT_QUERY), query)
    requires Fine(c, g, TList(TData(GOLD_CONTEXT_TARGET)), VList(mandatory))
    requires Fine(c, g, TList(TData(GOLD_CONTEXT_TARGET)), VList(forbidden))
    ensures Fine(c, g, TData(GOLD_CONTEXT_CASE), ContextCaseValue(q, query, mandatory, forbidden))
  {
    ContextCaseFits(c, g, q, query, mandatory, forbidden);
    Instance(c, g, GOLD_CONTEXT_CASE, ContextCaseValue(q, query, mandatory, forbidden).slots);
  }

  lemma ContextCaseIsFine(c: Catalogue, d: Desk, q: Query)
    requires Ships(c) && Stocked(d) && ContextCase(d, q).Done?
    ensures Fine(c, GroundOf(d), TData(GOLD_CONTEXT_CASE), ContextCase(d, q).value)
  {
    QueryIsFine(c, GroundOf(d), d, q);
    TargetsAreFine(c, d, q.mandatory);
    TargetsAreFine(c, d, q.forbidden);
    ContextCaseInstance(
      c, GroundOf(d), q,
      QueryValue(Meta(d, "context_query", q.id), q, Choose(CONTEXT_OPERATION, q.operation).value,
                 ResolveTarget(d, q.target).value),
      Each(d, ContextTarget, q.mandatory).value, Each(d, ContextTarget, q.forbidden).value);
  }

  lemma ContextSuiteFits(c: Catalogue, g: Ground, d: Desk, meta: Value, cases: seq<Value>)
    requires Fine(c, g, TData(ARTIFACT_META), meta)
    requires Fine(c, g, TList(TData(GOLD_CONTEXT_CASE)), VList(cases))
    ensures Fits(c, g, GOLD_CONTEXT_SUITE_FIELDS,
                 SuiteValue(d, GOLD_CONTEXT_SUITE, meta, cases).slots)
  {
  }

  lemma ContextCasesAreFine(c: Catalogue, d: Desk)
    requires Ships(c) && Stocked(d) && Each(d, ContextCase, d.spec.queries).Done?
    ensures Fine(c, GroundOf(d), TList(TData(GOLD_CONTEXT_CASE)), VList(Each(d, ContextCase, d.spec.queries).value))
  {
    forall q | ContextCase(d, q).Done?
      ensures Fine(c, GroundOf(d), TData(GOLD_CONTEXT_CASE), ContextCase(d, q).value)
    {
      ContextCaseIsFine(c, d, q);
    }
    EachIsFine(c, GroundOf(d), TData(GOLD_CONTEXT_CASE), d, ContextCase, d.spec.queries);
  }

  lemma ContextSuiteInstance(c: Catalogue, g: Ground, d: Desk, cases: seq<Value>)
    requires Ships(c) && Knows(g, d) && Fine(c, g, TList(TData(GOLD_CONTEXT_CASE)), VList(cases))
    ensures Fine(c, g, TData(GOLD_CONTEXT_SUITE),
                 SuiteValue(d, GOLD_CONTEXT_SUITE, Meta(d, "gold_context_suite", "r1"), cases))
  {
    MetaIsFine(c, g, d, "gold_context_suite", "r1");
    ContextSuiteFits(c, g, d, Meta(d, "gold_context_suite", "r1"), cases);
    Instance(c, g, GOLD_CONTEXT_SUITE,
             SuiteValue(d, GOLD_CONTEXT_SUITE, Meta(d, "gold_context_suite", "r1"), cases).slots);
  }

  lemma ContextGoldIsFine(c: Catalogue, d: Desk)
    requires Ships(c) && Stocked(d) && ContextGold(d).Done?
    ensures Fine(c, GroundOf(d), TData(GOLD_CONTEXT_SUITE), ContextGold(d).value)
  {
    ContextCasesAreFine(c, d);
    ContextSuiteInstance(c, GroundOf(d), d, Each(d, ContextCase, d.spec.queries).value);
  }

  // ---- impact suite -----------------------------------------------------------------------------

  lemma OperationFits(c: Catalogue, g: Ground, kind: Value, source: string, before: Value, after: Value,
                      beforeHash: Value, afterHash: Value, detail: Value)
    requires Fine(c, g, TEnum(CHANGE_OP_KIND), kind) && Fine(c, g, TDict(TAny), detail)
    requires Fine(c, g, TOpt(TStr), before) && Fine(c, g, TOpt(TStr), after)
    requires Fine(c, g, TOpt(TStr), beforeHash) && Fine(c, g, TOpt(TStr), afterHash)
    ensures Fits(c, g, CHANGE_OPERATION_FIELDS,
                 OperationValue(kind, source, before, after, beforeHash, afterHash, detail).slots)
  {
  }

  lemma DetailIsFine(c: Catalogue, g: Ground, key: string, quote: string, newText: Option<string>)
    ensures Fine(c, g, TDict(TAny), QuoteDetail(key, quote, newText))
  {
  }

  lemma QuoteOperationFits(c: Catalogue, g: Ground, d: Desk, scenario: string, kind: Value, scene: string,
                           quote: string, op: Operation)
    requires scene in d.sceneVersion && Fine(c, g, TEnum(CHANGE_OP_KIND), kind)
    ensures Fits(c, g, CHANGE_OPERATION_FIELDS, QuoteOperation(d, scenario, kind, scene, quote, op).slots)
  {
    var key := if op.quote.Some? then "quote" else "anchor_quote";
    DetailIsFine(c, g, key, quote, op.newText);
    OperationFits(c, g, kind, scene, VStr(d.sceneVersion[scene]), AfterVersion(d, scenario, scene),
                  BeforeHash(d.h, quote, op), AfterHash(d.h, op), QuoteDetail(key, quote, op.newText));
  }

  lemma PlainOperationFits(c: Catalogue, g: Ground, kind: Value, op: Operation)
    requires Fine(c, g, TEnum(CHANGE_OP_KIND), kind)
    ensures Fits(c, g, CHANGE_OPERATION_FIELDS, PlainOperation(kind, op).slots)
  {
    RawDictIsFine(c, g, op.detail);
    OperationFits(c, g, kind, PlainSource(op), VNone, VNone, VNone, VNone, Raw(JObj(op.detail)));
  }

  lemma OperationOfFits(c: Catalogue, g: Ground, d: Desk, scenario: string, op: Operation)
    requires Paired(d) && OperationOf(d, scenario, op).Done?
    requires Fine(c, g, TEnum(CHANGE_OP_KIND), Choose(CHANGE_OP_KIND, op.kind).value)
    ensures Fits(c, g, CHANGE_OPERATION_FIELDS, OperationOf(d, scenario, op).value.slots)
  {
    var kind := Choose(CHANGE_OP_KIND, op.kind).value;
    if IsQuoted(op) {
      var start := QuotedOperation(d, scenario, op);
      QuoteOperationFits(c, g, d, scenario, kind, op.scene.value, CitedText(op), op);
    } else {
      PlainOperationFits(c, g, kind, op);
    }
  }

  lemma OperationInstance(c: Catalogue, g: Ground, op: Value)
    requires Ships(c) && op.VData? && op.cls == CHANGE_OPERATION && op in g.ops
    requires Fits(c, g, CHANGE_OPERATION_FIELDS, op.slots)
    ensures Fine(c, g, TData(CHANGE_OPERATION), op)
  {
    Instance(c, g, CHANGE_OPERATION, op.slots);
  }

  lemma BuiltIsKnown(d: Desk, s: Scenario, op: Operation)
    requires Loaded(d) && s in d.spec.scenarios && op in s.operations && OperationOf(d, s.id, op).Done?
    ensures OperationOf(d, s.id, op).value in GroundOf(d).ops
  {
    assert IsBuilt(d, OperationOf(d, s.id, op).value);
  }

  lemma BuiltFits(c: Catalogue, d: Desk, s: Scenario, op: Operation)
    requires Ships(c) && Stocked(d) && OperationOf(d, s.id, op).Done?
    ensures Fits(c, GroundOf(d), CHANGE_OPERATION_FIELDS, OperationOf(d, s.id, op).value.slots)
  {
    ChosenIsFine(c, GroundOf(d), CHANGE_OP_KIND, op.kind);
    OperationOfFits(c, GroundOf(d), d, s.id, op);
  }

  lemma OperationIsFine(c: Catalogue, d: Desk, s: Scenario, op: Operation)
    requires Ships(c) && Stocked(d) && s in d.spec.scenarios && op in s.operations
    requires OperationOf(d, s.id, op).Done?
    ensures Fine(c, GroundOf(d), TData(CHANGE_OPERATION), OperationOf(d, s.id, op).value)
  {
    BuiltFits(c, d, s, op);
    BuiltIsKnown(d, s, op);
    OperationInstance(c, GroundOf(d), OperationOf(d, s.id, op).value);
  }

  lemma OperationsAreFine(c: Catalogue, d: Desk, s: Scenario)
    requires Ships(c) && Stocked(d) && s in d.spec.scenarios && Operations(d, s.id, s.operations).Done?
    ensures Fine(c, GroundOf(d), TList(TData(CHANGE_OPERATION)), VList(Operations(d, s.id, s.operations).value))
  {
    var page := Page(d, s.id);
    forall op | op in s.operations && OperationOn(page, op).Done?
      ensures Fine(c, GroundOf(d), TData(CHANGE_OPERATION), OperationOn(page, op).value)
    {
      OperationIsFine(c, d, s, op);
    }
    EachIsFine(c, GroundOf(d), TData(CHANGE_OPERATION), page, OperationOn, s.operations);
  }

  lemma ChangeFits(c: Catalogue, g: Ground, x: Change, kind: Value)
    requires Fine(c, g, TEnum(EXTRACTED_CHANGE_KIND), kind)
    requires Fine(c, g, TAny, OptRaw(x.before)) && Fine(c, g, TAny, OptRaw(x.after))
    ensures Fits(c, g, EXTRACTED_CHANGE_FIELDS, ChangeValue(x, kind).slots)
  {
    OptStrIsFine(c, g, x.subject);
    OptStrIsFine(c, g, x.pred);
    FloatIsFine(c, g, 1.0);
  }

  lemma ChangeIsFine(c: Catalogue, g: Ground, d: Desk, x: Change)
    requires Ships(c) && ChangeOf(d, x).Done?
    ensures Fine(c, g, TData(EXTRACTED_CHANGE), ChangeOf(d, x).value)
  {
    ChosenIsFine(c, g, EXTRACTED_CHANGE_KIND, x.kind);
    OptRawIsFine(c, g, x.before);
    OptRawIsFine(c, g, x.after);
    ChangeFits(c, g, x, Choose(EXTRACTED_CHANGE_KIND, x.kind).value);
    Instance(c, g, EXTRACTED_CHANGE, ChangeOf(d, x).value.slots);
  }

  lemma ExpectationFits(c: Catalogue, g: Ground, e: Expectation, target: Value, impact: Value)
    requires Fine(c, g, TData(RESOURCE_REF), target) && Fine(c, g, TEnum(IMPACT_LABEL), impact)
    ensures Fits(c, g, GOLD_IMPACT_EXPECTATION_FIELDS, ExpectationValue(e, target, impact).slots)
  {
    OptStrIsFine(c, g, e.note);
  }

  lemma ExpectationIsFine(c: Catalogue, g: Ground, d: Desk, e: Expectation)
    requires Ships(c) && Knows(g, d) && ExpectationOf(d, e).Done?
    ensures Fine(c, g, TData(GOLD_IMPACT_EXPECTATION), ExpectationOf(d, e).value)
  {
    ResolvedIsFine(c, g, d, e.target);
    ChosenIsFine(c, g, IMPACT_LABEL, e.impact);
    ExpectationFits(c, g, e, ResolveTarget(d, e.target).value, Choose(IMPACT_LABEL, e.impact).value);
    Instance(c, g, GOLD_IMPACT_EXPECTATION, ExpectationOf(d, e).value.slots);
  }

  lemma ChangeSetFits(c: Catalogue, g: Ground, d: Desk, meta: Value, s: Scenario, operations: seq<Value>,
                      changes: seq<Value>)
    requires Fine(c, g, TData(ARTIFACT_META), meta)
    requires Fine(c, g, TEnum(CHANGE_ACTOR), VEnum(CHANGE_ACTOR, "author"))
    requires Fine(c, g, TList(TData(CHANGE_OPERATION)), VList(operations))
    requires Fine(c, g, TList(TData(EXTRACTED_CHANGE)), VList(changes))
    ensures Fits(c, g, CHANGE_SET_FIELDS, ChangeSetValue(d, meta, s, operations, changes).slots)
  {
    OptStrIsFine(c, g, s.declaredIntent);
    assert Fine(c, g, TList(TStr), VList([]));
  }

  lemma ChangesAreFine(c: Catalogue, g: Ground, d: Desk, xs: seq<Change>)
    requires Ships(c) && Each(d, ChangeOf, xs).Done?
    ensures Fine(c, g, TList(TData(EXTRACTED_CHANGE)), VList(Each(d, ChangeOf, xs).value))
  {
    forall x | ChangeOf(d, x).Done? ensures Fine(c, g, TData(EXTRACTED_CHANGE), ChangeOf(d, x).value) {
      ChangeIsFine(c, g, d, x);
    }
    EachIsFine(c, g, TData(EXTRACTED_CHANGE), d, ChangeOf, xs);
  }

  lemma ExpectationsAreFine(c: Catalogue, g: Ground, d: Desk, es: seq<Expectation>)
    requires Ships(c) && Knows(g, d) && Each(d, ExpectationOf, es).Done?
    ensures Fine(c, g, TList(TData(GOLD_IMPACT_EXPECTATION)), VList(Each(d, ExpectationOf, es).value))
  {
    forall e | ExpectationOf(d, e).Done? ensures Fine(c, g, TData(GOLD_IMPACT_EXPECTATION), ExpectationOf(d, e).value) {
      ExpectationIsFine(c, g, d, e);
    }
    EachIsFine(c, g, TData(GOLD_IMPACT_EXPECTATION), d, ExpectationOf, es);
  }

  lemma ChangeSetInstance(c: Catalogue, g: Ground, d: Desk, meta: Value, s: Scenario, operations: seq<Value>,
                          changes: seq<Value>)
    requires Ships(c) && Fine(c, g, TData(ARTIFACT_META), meta)
    requires Fine(c, g, TList(TData(CHANGE_OPERATION)), VList(operations))
    requires Fine(c, g, TList(TData(EXTRACTED_CHANGE)), VList(changes))
    ensures Fine(c, g, TData(CHANGE_SET), ChangeSetValue(d, meta, s, operations, changes))
  {
    Chosen(c, g, CHANGE_ACTOR, "author");
    ChangeSetFits(c, g, d, meta, s, operations, changes);
    Instance(c, g, CHANGE_SET, ChangeSetValue(d, meta, s, operations, changes).slots);
  }

  lemma ChangeSetIsFine(c: Catalogue, g: Ground, d: Desk, s: Scenario, operations: seq<Value>, changes: seq<Value>)
    requires Ships(c) && Knows(g, d)
    requires Fine(c, g, TList(TData(CHANGE_OPERATION)), VList(operations))
    requires Fine(c, g, TList(TData(EXTRACTED_CHANGE)), VList(changes))
    ensures Fine(c, g, TData(CHANGE_SET),
                 ChangeSetValue(d, Meta(d, "change_set", s.id), s, operations, changes))
  {
    var meta := Meta(d, "change_set", s.id);
    MetaIsFine(c, g, d, "change_set", s.id);
    ChangeSetInstance(c, g, d, meta, s, operations, changes);
  }

  lemma ImpactCaseFits(c: Catalogue, g: Ground, s: Scenario, changeSet: Value, expected: seq<Value>)
    requires Fine(c, g, TData(CHANGE_SET), changeSet)
    requires Fine(c, g, TList(TData(GOLD_IMPACT_EXPECTATION)), VList(expected))
    ensures Fits(c, g, GOLD_IMPACT_CASE_FIELDS, ImpactCaseValue(s, changeSet, expected).slots)
  {
  }

  lemma ImpactCaseInstance(c: Catalogue, g: Ground, s: Scenario, changeSet: Value, expected: seq<Value>)
    requires Ships(c) && Fine(c, g, TData(CHANGE_SET), changeSet)
    requires Fine(c, g, TList(TData(GOLD_IMPACT_EXPECTATION)), VList(expected))
    ensures Fine(c, g, TData(GOLD_IMPACT_CASE), ImpactCaseValue(s, changeSet, expected))
  {
    ImpactCaseFits(c, g, s, changeSet, expected);
    Instance(c, g, GOLD_IMPACT_CASE, ImpactCaseValue(s, changeSet, expected).slots);
  }

  lemma ImpactCaseIsFine(c: Catalogue, d: Desk, s: Scenario)
    requires Ships(c) && Stocked(d) && s in d.spec.scenarios && ImpactCase(d, s).Done?
    ensures Fine(c, GroundOf(d), TData(GOLD_IMPACT_CASE), ImpactCase(d, s).value)
  {
    var g, operations := GroundOf(d), Operations(d, s.id, s.operations).value;
    var changes, expected := Each(d, ChangeOf, s.changes).value, Each(d, ExpectationOf, s.expected).value;
    OperationsAreFine(c, d, s);
    ChangesAreFine(c, g, d, s.changes);
    ChangeSetIsFine(c, g, d, s, operations, changes);
    ExpectationsAreFine(c, g, d, s.expected);
    ImpactCaseInstance(
      c, g, s, ChangeSetValue(d, Meta(d, "change_set", s.id), s, operations, changes), expected);
  }

  lemma ImpactSuiteFits(c: Catalogue, g: Ground, d: Desk, meta: Value, cases: seq<Value>)
    requires Fine(c, g, TData(ARTIFACT_META), meta)
    requires Fine(c, g, TList(TData(GOLD_IMPACT_CASE)), VList(cases))
    ensures Fits(c, g, GOLD_IMPACT_SUITE_FIELDS, SuiteValue(d, GOLD_IMPACT_SUITE, meta, cases).slots)
  {
  }

  lemma ImpactCasesAreFine(c: Catalogue, d: Desk)
    requires Ships(c) && Stocked(d) && Each(d, ImpactCase, d.spec.scenarios).Done?
    ensures Fine(c, GroundOf(d), TList(TData(GOLD_IMPACT_CASE)), VList(Each(d, ImpactCase, d.spec.scenarios).value))
  {
    forall s | s in d.spec.scenarios && ImpactCase(d, s).Done?
      ensures Fine(c, GroundOf(d), TData(GOLD_IMPACT_CASE), ImpactCase(d, s).value)
    {
      ImpactCaseIsFine(c, d, s);
    }
    EachIsFine(c, GroundOf(d), TData(GOLD_IMPACT_CASE), d, ImpactCase, d.spec.scenarios);
  }

  lemma ImpactSuiteInstance(c: Catalogue, g: Ground, d: Desk, cases: seq<Value>)
    requires Ships(c) && Knows(g, d) && Fine(c, g, TList(TData(GOLD_IMPACT_CASE)), VList(cases))
    ensures Fine(c, g, TData(GOLD_IMPACT_SUITE),
                 SuiteValue(d, GOLD_IMPACT_SUITE, Meta(d, "gold_impact_suite", "r1"), cases))
  {
    MetaIsFine(c, g, d, "gold_impact_suite", "r1");
    ImpactSuiteFits(c, g, d, Meta(d, "gold_impact_suite", "r1"), cases);
    Instance(c, g, GOLD_IMPACT_SUITE,
             SuiteValue(d, GOLD_IMPACT_SUITE, Meta(d, "gold_impact_suite", "r1"), cases).slots);
  }

  lemma ImpactGoldIsFine(c: Catalogue, d: Desk)
    requires Ships(c) && Stocked(d) && ImpactGold(d).Done?
    ensures Fine(c, GroundOf(d), TData(GOLD_IMPACT_SUITE), ImpactGold(d).value)
  {
    ImpactCasesAreFine(c, d);
    ImpactSuiteInstance(c, GroundOf(d), d, Each(d, ImpactCase, d.spec.scenarios).value);
  }
}
