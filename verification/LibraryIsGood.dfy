/** Every shipped type meets every condition the codec and schema laws ask for: one short
    lemma per class, and one that keeps its fields' names apart; then all of them together,
    in any catalogue that is complete. The library itself comes last. */
module LibraryIsGood {
  import opened Catalogues
  import opened Shipped
  import opened ShippedIsGood
  import opened Library

  /** `c` has an entry for every name of the library, but for the Conductor's own. */
  ghost predicate OffersAll(c: Catalogue) {
    && Offers(c)
    && (forall e: Id :: IDS <= e < DIRECTIVE_KIND ==> e in c.enums)
    && (forall k: Id :: MORE_CLASSES_FROM <= k < DIRECTIVE ==> k in c.classes)
  }

  ghost predicate OffersConductor(c: Catalogue) {
    && (forall e: Id :: DIRECTIVE_KIND <= e < MORE_CLASSES_FROM ==> e in c.enums)
    && (forall k: Id :: DIRECTIVE <= k < ALL_IDS ==> k in c.classes)
    && "received" in c.enums[DIRECTIVE_STATUS] && "deterministic" in c.enums[VERDICT_SOURCE]
    && "open" in c.enums[EXCEPTION_STATUS]
  }

  lemma ModelIdentifierIsTidy(c: Catalogue)
    requires OffersAll(c)
    ensures AllTidy(c, MODEL_IDENTIFIER_FIELDS) && DistinctFields(MODEL_IDENTIFIER_FIELDS)
  {
  }

  lemma PatchOpIsTidy(c: Catalogue)
    requires OffersAll(c)
    ensures AllTidy(c, PATCH_OP_FIELDS) && DistinctFields(PATCH_OP_FIELDS)
  {
  }

  lemma BoundedPatchNamesDiffer()
    ensures DistinctFields(BOUNDED_PATCH_FIELDS)
  {
  }

  lemma BoundedPatchIsTidy(c: Catalogue)
    requires OffersAll(c)
    ensures AllTidy(c, BOUNDED_PATCH_FIELDS) && DistinctFields(BOUNDED_PATCH_FIELDS)
  {
    var fs := BOUNDED_PATCH_FIELDS;
    forall f | f in fs ensures Tidy(c, f) {
      var x :| 0 <= x < |fs| && fs[x] == f;
    }
    BoundedPatchNamesDiffer();
  }

  lemma StateCandidateIsTidy(c: Catalogue)
    requires OffersAll(c)
    requires "proposed" in c.enums[CANDIDATE_STATUS]
    ensures AllTidy(c, STATE_CANDIDATE_FIELDS) && DistinctFields(STATE_CANDIDATE_FIELDS)
  {
  }

  lemma StateCandidateBatchIsTidy(c: Catalogue)
    requires OffersAll(c)
    ensures AllTidy(c, STATE_CANDIDATE_BATCH_FIELDS) && DistinctFields(STATE_CANDIDATE_BATCH_FIELDS)
  {
    var fs := STATE_CANDIDATE_BATCH_FIELDS;
    forall f | f in fs ensures Tidy(c, f) {
      var x :| 0 <= x < |fs| && fs[x] == f;
    }
  }

  lemma DetectorSpecIsTidy(c: Catalogue)
    requires OffersAll(c)
    ensures AllTidy(c, DETECTOR_SPEC_FIELDS) && DistinctFields(DETECTOR_SPEC_FIELDS)
  {
  }

  lemma CriticSpecIsTidy(c: Catalogue)
    requires OffersAll(c)
    ensures AllTidy(c, CRITIC_SPEC_FIELDS) && DistinctFields(CRITIC_SPEC_FIELDS)
  {
  }

  lemma EvaluationPlanNamesDiffer()
    ensures DistinctFields(EVALUATION_PLAN_FIELDS)
  {
  }

  lemma EvaluationPlanIsTidy(c: Catalogue)
    requires OffersAll(c)
    ensures AllTidy(c, EVALUATION_PLAN_FIELDS) && DistinctFields(EVALUATION_PLAN_FIELDS)
  {
    var fs := EVALUATION_PLAN_FIELDS;
    forall f | f in fs ensures Tidy(c, f) {
      var x :| 0 <= x < |fs| && fs[x] == f;
    }
    EvaluationPlanNamesDiffer();
  }

  lemma ContextItemNamesDiffer()
    ensures DistinctFields(CONTEXT_ITEM_FIELDS)
  {
  }

  lemma ContextItemIsTidy(c: Catalogue)
    requires OffersAll(c)
    requires "derived" in c.enums[STATE_AUTHORITY]
    ensures AllTidy(c, CONTEXT_ITEM_FIELDS) && DistinctFields(CONTEXT_ITEM_FIELDS)
  {
    var fs := CONTEXT_ITEM_FIELDS;
    forall f | f in fs ensures Tidy(c, f) {
      var x :| 0 <= x < |fs| && fs[x] == f;
    }
    ContextItemNamesDiffer();
  }

  lemma PacketSectionIsTidy(c: Catalogue)
    requires OffersAll(c)
    ensures AllTidy(c, PACKET_SECTION_FIELDS) && DistinctFields(PACKET_SECTION_FIELDS)
  {
  }

  lemma RejectedCandidateIsTidy(c: Catalogue)
    requires OffersAll(c)
    ensures AllTidy(c, REJECTED_CANDIDATE_FIELDS) && DistinctFields(REJECTED_CANDIDATE_FIELDS)
  {
  }

  lemma TokenBudgetIsTidy(c: Catalogue)
    requires OffersAll(c)
    ensures AllTidy(c, TOKEN_BUDGET_FIELDS) && DistinctFields(TOKEN_BUDGET_FIELDS)
  {
  }

  lemma ContextPacketNamesDiffer()
    ensures DistinctFields(CONTEXT_PACKET_FIELDS)
  {
  }

  lemma ContextPacketIsTidy(c: Catalogue)
    requires OffersAll(c)
    ensures AllTidy(c, CONTEXT_PACKET_FIELDS) && DistinctFields(CONTEXT_PACKET_FIELDS)
  {
    var fs := CONTEXT_PACKET_FIELDS;
    forall f | f in fs ensures Tidy(c, f) {
      var x :| 0 <= x < |fs| && fs[x] == f;
    }
    ContextPacketNamesDiffer();
  }

  lemma ImpactPathEdgeIsTidy(c: Catalogue)
    requires OffersAll(c)
    ensures AllTidy(c, IMPACT_PATH_EDGE_FIELDS) && DistinctFields(IMPACT_PATH_EDGE_FIELDS)
  {
  }

  lemma ImpactItemIsTidy(c: Catalogue)
    requires OffersAll(c)
    ensures AllTidy(c, IMPACT_ITEM_FIELDS) && DistinctFields(IMPACT_ITEM_FIELDS)
  {
  }

  lemma ImpactReportIsTidy(c: Catalogue)
    requires OffersAll(c)
    ensures AllTidy(c, IMPACT_REPORT_FIELDS) && DistinctFields(IMPACT_REPORT_FIELDS)
  {
    var fs := IMPACT_REPORT_FIELDS;
    forall f | f in fs ensures Tidy(c, f) {
      var x :| 0 <= x < |fs| && fs[x] == f;
    }
  }

  lemma RevisionStepNamesDiffer()
    ensures DistinctFields(REVISION_STEP_FIELDS)
  {
  }

  lemma RevisionStepIsTidy(c: Catalogue)
    requires OffersAll(c)
    ensures AllTidy(c, REVISION_STEP_FIELDS) && DistinctFields(REVISION_STEP_FIELDS)
  {
    var fs := REVISION_STEP_FIELDS;
    forall f | f in fs ensures Tidy(c, f) {
      var x :| 0 <= x < |fs| && fs[x] == f;
    }
    RevisionStepNamesDiffer();
  }

  lemma RevisionPlanNamesDiffer()
    ensures DistinctFields(REVISION_PLAN_FIELDS)
  {
  }

  lemma RevisionPlanIsTidy(c: Catalogue)
    requires OffersAll(c)
    ensures AllTidy(c, REVISION_PLAN_FIELDS) && DistinctFields(REVISION_PLAN_FIELDS)
  {
    var fs := REVISION_PLAN_FIELDS;
    forall f | f in fs ensures Tidy(c, f) {
      var x :| 0 <= x < |fs| && fs[x] == f;
    }
    RevisionPlanNamesDiffer();
  }

  lemma GenerationParamsIsTidy(c: Catalogue)
    requires OffersAll(c)
    ensures AllTidy(c, GENERATION_PARAMS_FIELDS) && DistinctFields(GENERATION_PARAMS_FIELDS)
  {
  }

  lemma NoParamsIsTyped(c: Catalogue)
    requires GENERATION_PARAMS in c.classes && c.classes[GENERATION_PARAMS] == GENERATION_PARAMS_FIELDS
    ensures HasType(c, TData(GENERATION_PARAMS), NO_PARAMS)
  {
  }

  lemma GenerationRequestNamesDiffer()
    ensures DistinctFields(GENERATION_REQUEST_FIELDS)
  {
  }

  lemma GenerationRequestIsTidy(c: Catalogue)
    requires OffersAll(c)
    requires c.classes[GENERATION_PARAMS] == GENERATION_PARAMS_FIELDS
    ensures AllTidy(c, GENERATION_REQUEST_FIELDS) && DistinctFields(GENERATION_REQUEST_FIELDS)
  {
    NoParamsIsTyped(c);
    var fs := GENERATION_REQUEST_FIELDS;
    forall f | f in fs ensures Tidy(c, f) {
      var x :| 0 <= x < |fs| && fs[x] == f;
    }
    GenerationRequestNamesDiffer();
  }

  lemma TokenUsageIsTidy(c: Catalogue)
    requires OffersAll(c)
    ensures AllTidy(c, TOKEN_USAGE_FIELDS) && DistinctFields(TOKEN_USAGE_FIELDS)
  {
  }

  lemma ValidationOutcomeIsTidy(c: Catalogue)
    requires OffersAll(c)
    ensures AllTidy(c, VALIDATION_OUTCOME_FIELDS) && DistinctFields(VALIDATION_OUTCOME_FIELDS)
  {
  }

  lemma GenerationCandidateNamesDiffer()
    ensures DistinctFields(GENERATION_CANDIDATE_FIELDS)
  {
  }

  lemma GenerationCandidateIsTidy(c: Catalogue)
    requires OffersAll(c)
    ensures AllTidy(c, GENERATION_CANDIDATE_FIELDS) && DistinctFields(GENERATION_CANDIDATE_FIELDS)
  {
    var fs := GENERATION_CANDIDATE_FIELDS;
    forall f | f in fs ensures Tidy(c, f) {
      var x :| 0 <= x < |fs| && fs[x] == f;
    }
    GenerationCandidateNamesDiffer();
  }

  lemma InputRefIsTidy(c: Catalogue)
    requires OffersAll(c)
    ensures AllTidy(c, INPUT_REF_FIELDS) && DistinctFields(INPUT_REF_FIELDS)
  {
  }

  lemma RunManifestNamesDiffer()
    ensures DistinctFields(RUN_MANIFEST_FIELDS)
  {
  }

  lemma RunManifestIsTidy(c: Catalogue)
    requires OffersAll(c)
    ensures AllTidy(c, RUN_MANIFEST_FIELDS) && DistinctFields(RUN_MANIFEST_FIELDS)
  {
    var fs := RUN_MANIFEST_FIELDS;
    forall f | f in fs ensures Tidy(c, f) {
      var x :| 0 <= x < |fs| && fs[x] == f;
    }
    RunManifestNamesDiffer();
  }

  lemma JobRecordNamesDiffer()
    ensures DistinctFields(JOB_RECORD_FIELDS)
  {
  }

  lemma JobRecordIsTidy(c: Catalogue)
    requires OffersAll(c)
    ensures AllTidy(c, JOB_RECORD_FIELDS) && DistinctFields(JOB_RECORD_FIELDS)
  {
    var fs := JOB_RECORD_FIELDS;
    forall f | f in fs ensures Tidy(c, f) {
      var x :| 0 <= x < |fs| && fs[x] == f;
    }
    JobRecordNamesDiffer();
  }

  lemma ExportFileIsTidy(c: Catalogue)
    requires OffersAll(c)
    ensures AllTidy(c, EXPORT_FILE_FIELDS) && DistinctFields(EXPORT_FILE_FIELDS)
  {
  }

  lemma ExportManifestIsTidy(c: Catalogue)
    requires OffersAll(c)
    ensures AllTidy(c, EXPORT_MANIFEST_FIELDS) && DistinctFields(EXPORT_MANIFEST_FIELDS)
  {
    var fs := EXPORT_MANIFEST_FIELDS;
    forall f | f in fs ensures Tidy(c, f) {
      var x :| 0 <= x < |fs| && fs[x] == f;
    }
  }

  lemma DirectiveNamesDiffer()
    ensures DistinctFields(DIRECTIVE_FIELDS)
  {
  }

  lemma DirectiveIsTidy(c: Catalogue)
    requires OffersAll(c) && OffersConductor(c)
    ensures AllTidy(c, DIRECTIVE_FIELDS) && DistinctFields(DIRECTIVE_FIELDS)
  {
    var fs := DIRECTIVE_FIELDS;
    forall f | f in fs ensures Tidy(c, f) {
      var x :| 0 <= x < |fs| && fs[x] == f;
      if x < 4 { } else if x < 8 { } else if x < 12 { } else { }
    }
    DirectiveNamesDiffer();
  }

  lemma GateResultNamesDiffer()
    ensures DistinctFields(GATE_RESULT_FIELDS)
  {
  }

  lemma GateResultIsTidy(c: Catalogue)
    requires OffersAll(c) && OffersConductor(c)
    ensures AllTidy(c, GATE_RESULT_FIELDS) && DistinctFields(GATE_RESULT_FIELDS)
  {
    var fs := GATE_RESULT_FIELDS;
    forall f | f in fs ensures Tidy(c, f) {
      var x :| 0 <= x < |fs| && fs[x] == f;
    }
    GateResultNamesDiffer();
  }

  lemma PolicyDecisionRecordStartsTidy(c: Catalogue)
    requires OffersAll(c) && OffersConductor(c)
    ensures AllTidy(c, POLICY_DECISION_RECORD_LEAD)
  {
    var fs := POLICY_DECISION_RECORD_LEAD;
    forall f | f in fs ensures Tidy(c, f) {
      var x :| 0 <= x < |fs| && fs[x] == f;
    }
  }

  lemma PolicyDecisionRecordEndsTidy(c: Catalogue)
    requires OffersAll(c) && OffersConductor(c)
    ensures AllTidy(c, POLICY_DECISION_RECORD_REST)
  {
    var fs := POLICY_DECISION_RECORD_REST;
    forall f | f in fs ensures Tidy(c, f) {
      var x :| 0 <= x < |fs| && fs[x] == f;
    }
  }

  lemma PolicyDecisionRecordNamesDiffer()
    ensures DistinctFields(POLICY_DECISION_RECORD_LEAD) && DistinctFields(POLICY_DECISION_RECORD_REST)
  {
  }

  lemma PolicyDecisionRecordHalvesDiffer()
    ensures forall x, y :: 0 <= x < |POLICY_DECISION_RECORD_LEAD| && 0 <= y < |POLICY_DECISION_RECORD_REST| ==>
      POLICY_DECISION_RECORD_LEAD[x].name != POLICY_DECISION_RECORD_REST[y].name
  {
  }

  lemma PolicyDecisionRecordIsTidy(c: Catalogue)
    requires OffersAll(c) && OffersConductor(c)
    ensures AllTidy(c, POLICY_DECISION_RECORD_FIELDS) && DistinctFields(POLICY_DECISION_RECORD_FIELDS)
  {
    PolicyDecisionRecordStartsTidy(c);
    PolicyDecisionRecordEndsTidy(c);
    PolicyDecisionRecordNamesDiffer();
    PolicyDecisionRecordHalvesDiffer();
    TidyHalves(c, POLICY_DECISION_RECORD_LEAD, POLICY_DECISION_RECORD_REST);
  }

  lemma ExceptionRecordNamesDiffer()
    ensures DistinctFields(EXCEPTION_RECORD_FIELDS)
  {
  }

  lemma ExceptionRecordIsTidy(c: Catalogue)
    requires OffersAll(c) && OffersConductor(c)
    ensures AllTidy(c, EXCEPTION_RECORD_FIELDS) && DistinctFields(EXCEPTION_RECORD_FIELDS)
  {
    var fs := EXCEPTION_RECORD_FIELDS;
    forall f | f in fs ensures Tidy(c, f) {
      var x :| 0 <= x < |fs| && fs[x] == f;
      if x < 4 { } else if x < 8 { } else if x < 12 { } else { }
    }
    ExceptionRecordNamesDiffer();
  }

  lemma DigestEntryStartsTidy(c: Catalogue)
    requires OffersAll(c) && OffersConductor(c)
    ensures AllTidy(c, DIGEST_ENTRY_LEAD)
  {
    var fs := DIGEST_ENTRY_LEAD;
    forall f | f in fs ensures Tidy(c, f) {
      var x :| 0 <= x < |fs| && fs[x] == f;
    }
  }

  lemma DigestEntryEndsTidy(c: Catalogue)
    requires OffersAll(c) && OffersConductor(c)
    ensures AllTidy(c, DIGEST_ENTRY_REST)
  {
    var fs := DIGEST_ENTRY_REST;
    forall f | f in fs ensures Tidy(c, f) {
      var x :| 0 <= x < |fs| && fs[x] == f;
    }
  }

  lemma DigestEntryNamesDiffer()
    ensures DistinctFields(DIGEST_ENTRY_LEAD) && DistinctFields(DIGEST_ENTRY_REST)
  {
  }

  lemma DigestEntryHalvesDiffer()
    ensures forall x, y :: 0 <= x < |DIGEST_ENTRY_LEAD| && 0 <= y < |DIGEST_ENTRY_REST| ==>
      DIGEST_ENTRY_LEAD[x].name != DIGEST_ENTRY_REST[y].name
  {
  }

  lemma DigestEntryIsTidy(c: Catalogue)
    requires OffersAll(c) && OffersConductor(c)
    ensures AllTidy(c, DIGEST_ENTRY_FIELDS) && DistinctFields(DIGEST_ENTRY_FIELDS)
  {
    DigestEntryStartsTidy(c);
    DigestEntryEndsTidy(c);
    DigestEntryNamesDiffer();
    DigestEntryHalvesDiffer();
    TidyHalves(c, DIGEST_ENTRY_LEAD, DIGEST_ENTRY_REST);
  }

  /** The defaults the fields of `c` lean on. */
  ghost predicate OffersAllDefaults(c: Catalogue)
    requires OffersAll(c)
  {
    && OffersDefaults(c)
    && "proposed" in c.enums[CANDIDATE_STATUS] && "derived" in c.enums[STATE_AUTHORITY]
    && c.classes[GENERATION_PARAMS] == GENERATION_PARAMS_FIELDS
  }

  /** Whatever further class the identity names, its fields are tidy and distinct. */
  lemma MoreClassIsTidy(c: Catalogue, k: Id)
    requires OffersAll(c) && OffersAllDefaults(c) && (k >= DIRECTIVE ==> OffersConductor(c))
    ensures AllTidy(c, MoreFieldsOf(k)) && DistinctFields(MoreFieldsOf(k))
  {
    match k {
      case MODEL_IDENTIFIER => ModelIdentifierIsTidy(c);
      case PATCH_OP => PatchOpIsTidy(c);
      case BOUNDED_PATCH => BoundedPatchIsTidy(c);
      case STATE_CANDIDATE => StateCandidateIsTidy(c);
      case STATE_CANDIDATE_BATCH => StateCandidateBatchIsTidy(c);
      case DETECTOR_SPEC => DetectorSpecIsTidy(c);
      case CRITIC_SPEC => CriticSpecIsTidy(c);
      case EVALUATION_PLAN => EvaluationPlanIsTidy(c);
      case CONTEXT_ITEM => ContextItemIsTidy(c);
      case PACKET_SECTION => PacketSectionIsTidy(c);
      case REJECTED_CANDIDATE => RejectedCandidateIsTidy(c);
      case TOKEN_BUDGET => TokenBudgetIsTidy(c);
      case CONTEXT_PACKET => ContextPacketIsTidy(c);
      case IMPACT_PATH_EDGE => ImpactPathEdgeIsTidy(c);
      case IMPACT_ITEM => ImpactItemIsTidy(c);
      case IMPACT_REPORT => ImpactReportIsTidy(c);
      case REVISION_STEP => RevisionStepIsTidy(c);
      case REVISION_PLAN => RevisionPlanIsTidy(c);
      case GENERATION_PARAMS => GenerationParamsIsTidy(c);
      case GENERATION_REQUEST => GenerationRequestIsTidy(c);
      case TOKEN_USAGE => TokenUsageIsTidy(c);
      case VALIDATION_OUTCOME => ValidationOutcomeIsTidy(c);
      case GENERATION_CANDIDATE => GenerationCandidateIsTidy(c);
      case INPUT_REF => InputRefIsTidy(c);
      case RUN_MANIFEST => RunManifestIsTidy(c);
      case JOB_RECORD => JobRecordIsTidy(c);
      case EXPORT_FILE => ExportFileIsTidy(c);
      case EXPORT_MANIFEST => ExportManifestIsTidy(c);
      case DIRECTIVE => DirectiveIsTidy(c);
      case GATE_RESULT => GateResultIsTidy(c);
      case POLICY_DECISION_RECORD => PolicyDecisionRecordIsTidy(c);
      case EXCEPTION_RECORD => ExceptionRecordIsTidy(c);
      case DIGEST_ENTRY => DigestEntryIsTidy(c);
      case _ =>
    }
  }

  lemma MoreEnumsHaveUnknown(e: Id)
    requires IDS <= e < MORE_CLASSES_FROM
    ensures UNKNOWN in MoreValuesOf(e)
  {
  }

  // ---- complete catalogues --------------------------------------------------------------------

  predicate IsEnum(x: Id) {
    x < CLASSES_FROM || IDS <= x < MORE_CLASSES_FROM
  }

  predicate IsClass(x: Id) {
    CLASSES_FROM <= x < IDS || MORE_CLASSES_FROM <= x < ALL_IDS
  }

  /** `c` holds the library's entry for the identity `x`, and no other. */
  predicate HoldsOne(c: Catalogue, x: Id) {
    && (x in c.enums <==> IsEnum(x))
    && (x in c.classes <==> IsClass(x))
    && (IsEnum(x) ==> c.enums[x] == if x < CLASSES_FROM then ValuesOf(x) else MoreValuesOf(x))
    && (IsClass(x) ==> c.classes[x] == if x < IDS then FieldsOf(x) else MoreFieldsOf(x))
  }

  /** `c` is the library's catalogue, said entry by entry. */
  ghost predicate Complete(c: Catalogue) {
    forall x: Id :: HoldsOne(c, x)
  }

  lemma LibraryHoldsOne(x: Id)
    ensures HoldsOne(LIBRARY, x)
  {
  }

  lemma LibraryIsComplete()
    ensures Complete(LIBRARY)
  {
    forall x: Id ensures HoldsOne(LIBRARY, x) {
      LibraryHoldsOne(x);
    }
  }

  lemma HoldsShippedEnum(c: Catalogue, e: Id)
    requires Complete(c) && e < CLASSES_FROM
    ensures e in c.enums && c.enums[e] == ValuesOf(e)
  {
    assert HoldsOne(c, e);
  }

  lemma HoldsMoreEnum(c: Catalogue, e: Id)
    requires Complete(c) && IDS <= e < MORE_CLASSES_FROM
    ensures e in c.enums && c.enums[e] == MoreValuesOf(e)
  {
    assert HoldsOne(c, e);
  }

  lemma HoldsMoreClass(c: Catalogue, k: Id)
    requires Complete(c) && MORE_CLASSES_FROM <= k < ALL_IDS
    ensures k in c.classes && c.classes[k] == MoreFieldsOf(k)
  {
    assert HoldsOne(c, k);
  }

  lemma CompleteOffersAll(c: Catalogue)
    requires Complete(c)
    ensures OffersAll(c) && OffersBlocks(c)
  {
    forall x: Id ensures (IsEnum(x) ==> x in c.enums) && (IsClass(x) ==> x in c.classes) {
      assert HoldsOne(c, x);
    }
  }

  lemma DefaultsAreMembers()
    ensures "proposed" in STATE_AUTHORITY_VALUES && "derived" in STATE_AUTHORITY_VALUES
    ensures "unknown" in CONFIDENCE_BASIS_VALUES && "inspect" in SUGGESTED_ACTION_VALUES
    ensures "proposed" in CANDIDATE_STATUS_VALUES && "received" in DIRECTIVE_STATUS_VALUES
    ensures "deterministic" in VERDICT_SOURCE_VALUES && "open" in EXCEPTION_STATUS_VALUES
  {
  }

  lemma EnumsOfferDefaults(c: Catalogue)
    requires OffersAll(c) && c.classes[GENERATION_PARAMS] == GENERATION_PARAMS_FIELDS
    requires c.enums[STATE_AUTHORITY] == STATE_AUTHORITY_VALUES && c.enums[CONFIDENCE_BASIS] == CONFIDENCE_BASIS_VALUES
    requires c.enums[SUGGESTED_ACTION] == SUGGESTED_ACTION_VALUES
    requires c.enums[CANDIDATE_STATUS] == CANDIDATE_STATUS_VALUES
    ensures OffersAllDefaults(c)
  {
    DefaultsAreMembers();
  }

  lemma ShippedEnumsOf(c: Catalogue)
    requires Complete(c)
    ensures STATE_AUTHORITY in c.enums && c.enums[STATE_AUTHORITY] == STATE_AUTHORITY_VALUES
    ensures CONFIDENCE_BASIS in c.enums && c.enums[CONFIDENCE_BASIS] == CONFIDENCE_BASIS_VALUES
    ensures SUGGESTED_ACTION in c.enums && c.enums[SUGGESTED_ACTION] == SUGGESTED_ACTION_VALUES
  {
    HoldsShippedEnum(c, STATE_AUTHORITY);
    HoldsShippedEnum(c, CONFIDENCE_BASIS);
    HoldsShippedEnum(c, SUGGESTED_ACTION);
  }

  lemma CompleteOffersDefaults(c: Catalogue)
    requires Complete(c)
    ensures OffersAll(c) && OffersAllDefaults(c)
  {
    CompleteOffersAll(c);
    ShippedEnumsOf(c);
    HoldsMoreEnum(c, CANDIDATE_STATUS);
    HoldsMoreClass(c, GENERATION_PARAMS);
    EnumsOfferDefaults(c);
  }

  lemma ConductorEnumsOf(c: Catalogue)
    requires Complete(c)
    ensures DIRECTIVE_STATUS in c.enums && c.enums[DIRECTIVE_STATUS] == DIRECTIVE_STATUS_VALUES
    ensures VERDICT_SOURCE in c.enums && c.enums[VERDICT_SOURCE] == VERDICT_SOURCE_VALUES
    ensures EXCEPTION_STATUS in c.enums && c.enums[EXCEPTION_STATUS] == EXCEPTION_STATUS_VALUES
  {
    HoldsMoreEnum(c, DIRECTIVE_STATUS);
    HoldsMoreEnum(c, VERDICT_SOURCE);
    HoldsMoreEnum(c, EXCEPTION_STATUS);
  }

  lemma CompleteOffersConductor(c: Catalogue)
    requires Complete(c)
    ensures OffersConductor(c)
  {
    DefaultsAreMembers();
    ConductorEnumsOf(c);
    forall x: Id ensures (IsEnum(x) ==> x in c.enums) && (IsClass(x) ==> x in c.classes) {
      assert HoldsOne(c, x);
    }
  }

  lemma ClassIsTidy(c: Catalogue, k: Id)
    requires Complete(c) && k in c.classes
    ensures AllTidy(c, c.classes[k]) && DistinctFields(c.classes[k])
  {
    assert HoldsOne(c, k);
    CompleteOffersAll(c);
    CompleteOffersDefaults(c);
    CompleteOffersConductor(c);
    if k < IDS {
      EveryClassIsTidy(c, k);
    } else {
      MoreClassIsTidy(c, k);
    }
  }

  lemma EnumHasUnknown(c: Catalogue, e: Id)
    requires Complete(c) && e in c.enums
    ensures UNKNOWN in c.enums[e]
  {
    assert HoldsOne(c, e);
    if e < CLASSES_FROM { EveryEnumHasUnknown(e); } else { MoreEnumsHaveUnknown(e); }
  }

  ghost predicate ReadyAt(c: Catalogue, k: Id) {
    && k in c.classes
    && GoodClass(c, c.classes[k])
    && forall x :: 0 <= x < |c.classes[k]| ==> OptOnTop(c.classes[k][x].ty)
  }

  lemma ReadyThroughout(c: Catalogue)
    requires forall x: Id :: !(x in c.enums && x in c.classes)
    requires forall e :: e in c.enums ==> UNKNOWN in c.enums[e]
    requires forall k :: k in c.classes ==> ReadyAt(c, k)
    ensures SchemaReady(c)
  {
  }

  lemma NoNameIsBoth(c: Catalogue, x: Id)
    requires Complete(c)
    ensures !(x in c.enums && x in c.classes)
  {
    assert HoldsOne(c, x);
  }

  /** A complete catalogue is one that the codec and schema laws hold of. */
  lemma CompleteIsReady(c: Catalogue)
    requires Complete(c)
    ensures SchemaReady(c)
  {
    forall x: Id ensures !(x in c.enums && x in c.classes) {
      NoNameIsBoth(c, x);
    }
    forall e | e in c.enums ensures UNKNOWN in c.enums[e] {
      EnumHasUnknown(c, e);
    }
    forall k | k in c.classes ensures ReadyAt(c, k) {
      ClassIsTidy(c, k);
      TidyIsGood(c, c.classes[k]);
    }
    ReadyThroughout(c);
  }

  /** The shipped library is such a catalogue: all of its dataclasses and enums. */
  lemma LibraryIsReady()
    ensures SchemaReady(LIBRARY)
  {
    LibraryIsComplete();
    CompleteIsReady(LIBRARY);
  }
}
