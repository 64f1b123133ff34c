/** The artifacts' types meet the conditions the codec and schema laws ask for, in any
    catalogue that defines the names they mention. */
module ShippedIsGood {
  import opened Catalogues
  import opened Shipped

  // ---- tidy fields -----------------------------------------------------------------------

  predicate Basic(c: Catalogue, t: Ty) {
    match t
    case TStr => true
    case TInt => true
    case TBool => true
    case TFloat => true
    case TEnum(e) => e in c.enums
    case TData(k) => k in c.classes
    case _ => false
  }

  /** A basic type, or one of the containers that shipped fields use. */
  predicate Shallow(c: Catalogue, t: Ty) {
    match t
    case TList(u) => Basic(c, if u.TList? then u.elem else u)
    case TDict(u) => u.TAny? || Basic(c, u)
    case _ => Basic(c, t)
  }

  /** A field of a shape that the laws accept, codec and schema alike. */
  predicate Tidy(c: Catalogue, f: Field) {
    match f.ty
    case TAny => f.dflt.Default? && f.dflt.val.VNone?
    case TOpt(u) => Shallow(c, u) && (f.dflt.Default? ==> f.dflt.val.VNone?)
    case TList(_) => Shallow(c, f.ty) && (f.dflt.Default? ==> f.dflt.val.VList? && |f.dflt.val.items| == 0)
    case TDict(_) => Shallow(c, f.ty) && (f.dflt.Default? ==> f.dflt.val.VDict? && |f.dflt.val.entries| == 0)
    case TBool => f.dflt.Default? ==> f.dflt.val.VBool?
    case TInt => f.dflt.Default? ==> f.dflt.val.VInt?
    case TEnum(e) =>
      e in c.enums && (f.dflt.Default? ==> f.dflt.val.VEnum? && f.dflt.val.enum == e && f.dflt.val.member in c.enums[e])
    case TData(k) => k in c.classes && (f.dflt.Default? ==> HasType(c, f.ty, f.dflt.val))
    case _ => f.dflt.NoDefault?
  }

  predicate AllTidy(c: Catalogue, fs: seq<Field>) {
    forall f :: f in fs ==> Tidy(c, f)
  }

  lemma ShallowIsSafe(c: Catalogue, t: Ty)
    requires Shallow(c, t)
    ensures Resolved(c, t) && NullSafe(t) && !t.TAny? && !t.TOpt?
  {
    if t.TList? && t.elem.TList? {
      assert Resolved(c, t.elem) && NullSafe(t.elem);
    }
  }

  lemma TidyIsGoodField(c: Catalogue, f: Field)
    requires Tidy(c, f)
    ensures GoodField(c, f) && OptOnTop(f.ty)
  {
    if Shallow(c, f.ty) {
      ShallowIsSafe(c, f.ty);
    } else if f.ty.TOpt? {
      ShallowIsSafe(c, f.ty.arg);
      assert Resolved(c, f.ty) && OptOnTop(f.ty);
      assert f.dflt.NoDefault? || (f.dflt == Default(VNone) && HasType(c, f.ty, VNone));
    } else {
      assert f.ty.TAny?;
    }
  }

  lemma TidyIsGood(c: Catalogue, fs: seq<Field>)
    requires AllTidy(c, fs) && DistinctFields(fs)
    ensures GoodClass(c, fs) && forall x :: 0 <= x < |fs| ==> OptOnTop(fs[x].ty)
  {
    forall x | 0 <= x < |fs| ensures GoodField(c, fs[x]) && OptOnTop(fs[x].ty) {
      assert fs[x] in fs;
      TidyIsGoodField(c, fs[x]);
    }
  }

  /** A list is tidy when its halves are and no name crosses over. */
  lemma TidyHalves(c: Catalogue, a: seq<Field>, b: seq<Field>)
    requires AllTidy(c, a) && AllTidy(c, b) && DistinctFields(a) && DistinctFields(b)
    requires forall x, y :: 0 <= x < |a| && 0 <= y < |b| ==> a[x].name != b[y].name
    ensures AllTidy(c, a + b) && DistinctFields(a + b)
  {
  }

  // ---- class by class; long lists are checked a few fields at a time -------------------

  /** `c` has an entry for every name here, but for the enums that only manuscript nodes use. */
  ghost predicate Offers(c: Catalogue) {
    && (forall e: Id :: e < CLASSES_FROM && e != BLOCK_KIND && e != LOCK_KIND ==> e in c.enums)
    && (forall k: Id :: CLASSES_FROM <= k < IDS ==> k in c.classes)
  }

  predicate OffersBlocks(c: Catalogue) {
    BLOCK_KIND in c.enums && LOCK_KIND in c.enums
  }

  lemma ResourceRefIsTidy(c: Catalogue)
    requires Offers(c)
    ensures AllTidy(c, RESOURCE_REF_FIELDS) && DistinctFields(RESOURCE_REF_FIELDS)
  {
    var fs := RESOURCE_REF_FIELDS;
    forall f | f in fs ensures Tidy(c, f) {
      var x :| 0 <= x < |fs| && fs[x] == f;
    }
  }

  lemma EvidenceSpanIsTidy(c: Catalogue)
    requires Offers(c)
    ensures AllTidy(c, EVIDENCE_SPAN_FIELDS) && DistinctFields(EVIDENCE_SPAN_FIELDS)
  {
    var fs := EVIDENCE_SPAN_FIELDS;
    forall f | f in fs ensures Tidy(c, f) {
      var x :| 0 <= x < |fs| && fs[x] == f;
    }
  }

  lemma StoryPositionIsTidy(c: Catalogue)
    requires Offers(c)
    ensures AllTidy(c, STORY_POSITION_FIELDS) && DistinctFields(STORY_POSITION_FIELDS)
  {
  }

  lemma ToolIdentityIsTidy(c: Catalogue)
    requires Offers(c)
    ensures AllTidy(c, TOOL_IDENTITY_FIELDS) && DistinctFields(TOOL_IDENTITY_FIELDS)
  {
  }

  lemma ArtifactMetaNamesDiffer()
    ensures DistinctFields(ARTIFACT_META_FIELDS)
  {
  }

  lemma ArtifactMetaIsTidy(c: Catalogue)
    requires Offers(c)
    ensures AllTidy(c, ARTIFACT_META_FIELDS) && DistinctFields(ARTIFACT_META_FIELDS)
  {
    var fs := ARTIFACT_META_FIELDS;
    forall f | f in fs ensures Tidy(c, f) {
      var x :| 0 <= x < |fs| && fs[x] == f;
    }
    ArtifactMetaNamesDiffer();
  }

  lemma ManuscriptNodeNamesDiffer()
    ensures DistinctFields(MANUSCRIPT_NODE_FIELDS)
  {
  }

  lemma ManuscriptNodeIsTidy(c: Catalogue)
    requires Offers(c)
    requires OffersBlocks(c)
    ensures AllTidy(c, MANUSCRIPT_NODE_FIELDS) && DistinctFields(MANUSCRIPT_NODE_FIELDS)
  {
    var fs := MANUSCRIPT_NODE_FIELDS;
    forall f | f in fs ensures Tidy(c, f) {
      var x :| 0 <= x < |fs| && fs[x] == f;
      if x < 4 { } else if x < 8 { } else if x < 12 { } else { }
    }
    ManuscriptNodeNamesDiffer();
  }

  lemma ManuscriptRevisionIsTidy(c: Catalogue)
    requires Offers(c)
    ensures AllTidy(c, MANUSCRIPT_REVISION_FIELDS) && DistinctFields(MANUSCRIPT_REVISION_FIELDS)
  {
    var fs := MANUSCRIPT_REVISION_FIELDS;
    forall f | f in fs ensures Tidy(c, f) {
      var x :| 0 <= x < |fs| && fs[x] == f;
    }
  }

  lemma StateRecordNamesDiffer()
    ensures DistinctFields(STATE_RECORD_FIELDS)
  {
  }

  lemma StateRecordIsTidy(c: Catalogue)
    requires Offers(c)
    requires "proposed" in c.enums[STATE_AUTHORITY]
    ensures AllTidy(c, STATE_RECORD_FIELDS) && DistinctFields(STATE_RECORD_FIELDS)
  {
    var fs := STATE_RECORD_FIELDS;
    forall f | f in fs ensures Tidy(c, f) {
      var x :| 0 <= x < |fs| && fs[x] == f;
      if x < 4 { } else if x < 8 { } else if x < 12 { } else { }
    }
    StateRecordNamesDiffer();
  }

  lemma StateSnapshotIsTidy(c: Catalogue)
    requires Offers(c)
    ensures AllTidy(c, STATE_SNAPSHOT_FIELDS) && DistinctFields(STATE_SNAPSHOT_FIELDS)
  {
    var fs := STATE_SNAPSHOT_FIELDS;
    forall f | f in fs ensures Tidy(c, f) {
      var x :| 0 <= x < |fs| && fs[x] == f;
    }
  }

  lemma PlanItemIsTidy(c: Catalogue)
    requires Offers(c)
    ensures AllTidy(c, PLAN_ITEM_FIELDS) && DistinctFields(PLAN_ITEM_FIELDS)
  {
    var fs := PLAN_ITEM_FIELDS;
    forall f | f in fs ensures Tidy(c, f) {
      var x :| 0 <= x < |fs| && fs[x] == f;
      if x < 4 { } else { }
    }
  }

  lemma PlanSnapshotIsTidy(c: Catalogue)
    requires Offers(c)
    ensures AllTidy(c, PLAN_SNAPSHOT_FIELDS) && DistinctFields(PLAN_SNAPSHOT_FIELDS)
  {
  }

  lemma FindingScopeIsTidy(c: Catalogue)
    requires Offers(c)
    ensures AllTidy(c, FINDING_SCOPE_FIELDS) && DistinctFields(FINDING_SCOPE_FIELDS)
  {
  }

  lemma ReproductionIsTidy(c: Catalogue)
    requires Offers(c)
    ensures AllTidy(c, REPRODUCTION_FIELDS) && DistinctFields(REPRODUCTION_FIELDS)
  {
  }

  lemma FindingStartsTidy(c: Catalogue)
    requires Offers(c)
    ensures AllTidy(c, FINDING_LEAD)
  {
    var fs := FINDING_LEAD;
    forall f | f in fs ensures Tidy(c, f) {
      var x :| 0 <= x < |fs| && fs[x] == f;
    }
  }

  lemma FindingEndsTidy(c: Catalogue)
    requires Offers(c)
    requires "unknown" in c.enums[CONFIDENCE_BASIS]
    requires "inspect" in c.enums[SUGGESTED_ACTION]
    ensures AllTidy(c, FINDING_REST)
  {
    var fs := FINDING_REST;
    forall f | f in fs ensures Tidy(c, f) {
      var x :| 0 <= x < |fs| && fs[x] == f;
      if x < 4 { } else if x < 8 { } else { }
    }
  }

  lemma FindingNamesDiffer()
    ensures DistinctFields(FINDING_LEAD) && DistinctFields(FINDING_REST)
  {
  }

  lemma FindingHalvesDiffer()
    ensures forall x, y :: 0 <= x < |FINDING_LEAD| && 0 <= y < |FINDING_REST| ==>
      FINDING_LEAD[x].name != FINDING_REST[y].name
  {
  }

  lemma FindingIsTidy(c: Catalogue)
    requires Offers(c)
    requires "unknown" in c.enums[CONFIDENCE_BASIS]
    requires "inspect" in c.enums[SUGGESTED_ACTION]
    ensures AllTidy(c, FINDING_FIELDS) && DistinctFields(FINDING_FIELDS)
  {
    FindingStartsTidy(c);
    FindingEndsTidy(c);
    FindingNamesDiffer();
    FindingHalvesDiffer();
    TidyHalves(c, FINDING_LEAD, FINDING_REST);
  }

  lemma EvaluationErrorIsTidy(c: Catalogue)
    requires Offers(c)
    ensures AllTidy(c, EVALUATION_ERROR_FIELDS) && DistinctFields(EVALUATION_ERROR_FIELDS)
  {
  }

  lemma EvaluationArtifactIsTidy(c: Catalogue)
    requires Offers(c)
    ensures AllTidy(c, EVALUATION_ARTIFACT_FIELDS) && DistinctFields(EVALUATION_ARTIFACT_FIELDS)
  {
    var fs := EVALUATION_ARTIFACT_FIELDS;
    forall f | f in fs ensures Tidy(c, f) {
      var x :| 0 <= x < |fs| && fs[x] == f;
    }
  }

  lemma ContextQueryNamesDiffer()
    ensures DistinctFields(CONTEXT_QUERY_FIELDS)
  {
  }

  lemma ContextQueryIsTidy(c: Catalogue)
    requires Offers(c)
    ensures AllTidy(c, CONTEXT_QUERY_FIELDS) && DistinctFields(CONTEXT_QUERY_FIELDS)
  {
    var fs := CONTEXT_QUERY_FIELDS;
    forall f | f in fs ensures Tidy(c, f) {
      var x :| 0 <= x < |fs| && fs[x] == f;
      if x < 4 { } else if x < 8 { } else if x < 12 { } else { }
    }
    ContextQueryNamesDiffer();
  }

  lemma ChangeOperationIsTidy(c: Catalogue)
    requires Offers(c)
    ensures AllTidy(c, CHANGE_OPERATION_FIELDS) && DistinctFields(CHANGE_OPERATION_FIELDS)
  {
    var fs := CHANGE_OPERATION_FIELDS;
    forall f | f in fs ensures Tidy(c, f) {
      var x :| 0 <= x < |fs| && fs[x] == f;
    }
  }

  lemma ExtractedChangeIsTidy(c: Catalogue)
    requires Offers(c)
    ensures AllTidy(c, EXTRACTED_CHANGE_FIELDS) && DistinctFields(EXTRACTED_CHANGE_FIELDS)
  {
    var fs := EXTRACTED_CHANGE_FIELDS;
    forall f | f in fs ensures Tidy(c, f) {
      var x :| 0 <= x < |fs| && fs[x] == f;
    }
  }

  lemma ChangeSetNamesDiffer()
    ensures DistinctFields(CHANGE_SET_FIELDS)
  {
  }

  lemma ChangeSetIsTidy(c: Catalogue)
    requires Offers(c)
    ensures AllTidy(c, CHANGE_SET_FIELDS) && DistinctFields(CHANGE_SET_FIELDS)
  {
    var fs := CHANGE_SET_FIELDS;
    forall f | f in fs ensures Tidy(c, f) {
      var x :| 0 <= x < |fs| && fs[x] == f;
    }
    ChangeSetNamesDiffer();
  }

  lemma GoldContextTargetIsTidy(c: Catalogue)
    requires Offers(c)
    ensures AllTidy(c, GOLD_CONTEXT_TARGET_FIELDS) && DistinctFields(GOLD_CONTEXT_TARGET_FIELDS)
  {
  }

  lemma GoldContextCaseIsTidy(c: Catalogue)
    requires Offers(c)
    ensures AllTidy(c, GOLD_CONTEXT_CASE_FIELDS) && DistinctFields(GOLD_CONTEXT_CASE_FIELDS)
  {
  }

  lemma GoldContextSuiteIsTidy(c: Catalogue)
    requires Offers(c)
    ensures AllTidy(c, GOLD_CONTEXT_SUITE_FIELDS) && DistinctFields(GOLD_CONTEXT_SUITE_FIELDS)
  {
  }

  lemma GoldImpactExpectationIsTidy(c: Catalogue)
    requires Offers(c)
    ensures AllTidy(c, GOLD_IMPACT_EXPECTATION_FIELDS) && DistinctFields(GOLD_IMPACT_EXPECTATION_FIELDS)
  {
  }

  lemma GoldImpactCaseIsTidy(c: Catalogue)
    requires Offers(c)
    ensures AllTidy(c, GOLD_IMPACT_CASE_FIELDS) && DistinctFields(GOLD_IMPACT_CASE_FIELDS)
  {
  }

  lemma GoldImpactSuiteIsTidy(c: Catalogue)
    requires Offers(c)
    ensures AllTidy(c, GOLD_IMPACT_SUITE_FIELDS) && DistinctFields(GOLD_IMPACT_SUITE_FIELDS)
  {
  }

  lemma EventEnvelopeNamesDiffer()
    ensures DistinctFields(EVENT_ENVELOPE_FIELDS)
  {
  }

  lemma EventEnvelopeIsTidy(c: Catalogue)
    requires Offers(c)
    ensures AllTidy(c, EVENT_ENVELOPE_FIELDS) && DistinctFields(EVENT_ENVELOPE_FIELDS)
  {
    var fs := EVENT_ENVELOPE_FIELDS;
    forall f | f in fs ensures Tidy(c, f) {
      var x :| 0 <= x < |fs| && fs[x] == f;
      if x < 4 { } else if x < 8 { } else if x < 12 { } else { }
    }
    EventEnvelopeNamesDiffer();
  }

  /** The enum values that fields of `c` default to. */
  ghost predicate OffersDefaults(c: Catalogue)
    requires Offers(c)
  {
    && "proposed" in c.enums[STATE_AUTHORITY]
    && "unknown" in c.enums[CONFIDENCE_BASIS]
    && "inspect" in c.enums[SUGGESTED_ACTION]
  }

  /** Whatever class the identity names, its fields are tidy and distinct. */
  lemma EveryClassIsTidy(c: Catalogue, k: Id)
    requires Offers(c) && OffersDefaults(c) && (k == MANUSCRIPT_NODE ==> OffersBlocks(c))
    ensures AllTidy(c, FieldsOf(k)) && DistinctFields(FieldsOf(k))
  {
    match k {
      case RESOURCE_REF => ResourceRefIsTidy(c);
      case EVIDENCE_SPAN => EvidenceSpanIsTidy(c);
      case STORY_POSITION => StoryPositionIsTidy(c);
      case TOOL_IDENTITY => ToolIdentityIsTidy(c);
      case ARTIFACT_META => ArtifactMetaIsTidy(c);
      case MANUSCRIPT_NODE => ManuscriptNodeIsTidy(c);
      case MANUSCRIPT_REVISION => ManuscriptRevisionIsTidy(c);
      case STATE_RECORD => StateRecordIsTidy(c);
      case STATE_SNAPSHOT => StateSnapshotIsTidy(c);
      case PLAN_ITEM => PlanItemIsTidy(c);
      case PLAN_SNAPSHOT => PlanSnapshotIsTidy(c);
      case FINDING_SCOPE => FindingScopeIsTidy(c);
      case REPRODUCTION => ReproductionIsTidy(c);
      case FINDING => FindingIsTidy(c);
      case EVALUATION_ERROR => EvaluationErrorIsTidy(c);
      case EVALUATION_ARTIFACT => EvaluationArtifactIsTidy(c);
      case CONTEXT_QUERY => ContextQueryIsTidy(c);
      case CHANGE_OPERATION => ChangeOperationIsTidy(c);
      case EXTRACTED_CHANGE => ExtractedChangeIsTidy(c);
      case CHANGE_SET => ChangeSetIsTidy(c);
      case GOLD_CONTEXT_TARGET => GoldContextTargetIsTidy(c);
      case GOLD_CONTEXT_CASE => GoldContextCaseIsTidy(c);
      case GOLD_CONTEXT_SUITE => GoldContextSuiteIsTidy(c);
      case GOLD_IMPACT_EXPECTATION => GoldImpactExpectationIsTidy(c);
      case GOLD_IMPACT_CASE => GoldImpactCaseIsTidy(c);
      case GOLD_IMPACT_SUITE => GoldImpactSuiteIsTidy(c);
      case EVENT_ENVELOPE => EventEnvelopeIsTidy(c);
      case _ =>
    }
  }

  lemma EveryEnumHasUnknown(e: Id)
    requires e < CLASSES_FROM
    ensures UNKNOWN in ValuesOf(e)
  {
  }
}
