/** The rest of the shipped contract types, and the catalogue of all of them. */
module Library {
  import opened Catalogues
  import opened Shipped

  // ---- identities -------------------------------------------------------------------

  const PATCH_OP_KIND: Id := 46
  const CANDIDATE_STATUS: Id := 47
  const CONTEXT_ITEM_KIND: Id := 48
  const IMPACT_CLASS: Id := 49
  const STEP_ACTION: Id := 50
  const APPROVAL_MODE: Id := 51
  const GENERATION_KIND: Id := 52
  const GENERATION_STATUS: Id := 53
  const JOB_STATUS: Id := 54
  const EXPORT_FORMAT: Id := 55
  const DIRECTIVE_KIND: Id := 56
  const DIRECTIVE_STATUS: Id := 57
  const GATE_KIND: Id := 58
  const VERDICT_SOURCE: Id := 59
  const POLICY_OUTCOME: Id := 60
  const EXCEPTION_KIND: Id := 61
  const EXCEPTION_STATUS: Id := 62

  const MODEL_IDENTIFIER: Id := 63
  const PATCH_OP: Id := 64
  const BOUNDED_PATCH: Id := 65
  const STATE_CANDIDATE: Id := 66
  const STATE_CANDIDATE_BATCH: Id := 67
  const DETECTOR_SPEC: Id := 68
  const CRITIC_SPEC: Id := 69
  const EVALUATION_PLAN: Id := 70
  const CONTEXT_ITEM: Id := 71
  const PACKET_SECTION: Id := 72
  const REJECTED_CANDIDATE: Id := 73
  const TOKEN_BUDGET: Id := 74
  const CONTEXT_PACKET: Id := 75
  const IMPACT_PATH_EDGE: Id := 76
  const IMPACT_ITEM: Id := 77
  const IMPACT_REPORT: Id := 78
  const REVISION_STEP: Id := 79
  const REVISION_PLAN: Id := 80
  const GENERATION_PARAMS: Id := 81
  const GENERATION_REQUEST: Id := 82
  const TOKEN_USAGE: Id := 83
  const VALIDATION_OUTCOME: Id := 84
  const GENERATION_CANDIDATE: Id := 85
  const INPUT_REF: Id := 86
  const RUN_MANIFEST: Id := 87
  const JOB_RECORD: Id := 88
  const EXPORT_FILE: Id := 89
  const EXPORT_MANIFEST: Id := 90
  const DIRECTIVE: Id := 91
  const GATE_RESULT: Id := 92
  const POLICY_DECISION_RECORD: Id := 93
  const EXCEPTION_RECORD: Id := 94
  const DIGEST_ENTRY: Id := 95

  const MORE_CLASSES_FROM: Id := 63
  const ALL_IDS: Id := 96

  // ---- enums ----------------------------------------------------------------------

  const PATCH_OP_KIND_VALUES: seq<string> := ["replace_span", "insert_after", "delete_span", "unknown"]
  const CANDIDATE_STATUS_VALUES: seq<string> := ["proposed", "accepted", "rejected", "unknown"]
  const CONTEXT_ITEM_KIND_VALUES: seq<string> := [
    "exact_prose", "plan", "fact", "event", "thread", "summary", "finding", "author_rule", "unknown"
  ]
  const IMPACT_CLASS_VALUES: seq<string> := [
    "invalidate_recompute", "structured_update", "repair_candidate", "review_warning", "preserve", "no_action",
    "unknown"
  ]
  const STEP_ACTION_VALUES: seq<string> := [
    "recompute", "propose_repair", "structured_update", "warn", "no_op", "unknown"
  ]
  const APPROVAL_MODE_VALUES: seq<string> := [
    "automatic", "review_after", "author_required", "never_automatic", "unknown"
  ]
  const GENERATION_KIND_VALUES: seq<string> := ["scene_draft", "continuation", "repair", "structured", "unknown"]
  const GENERATION_STATUS_VALUES: seq<string> := ["complete", "failed", "rejected", "truncated", "unknown"]
  const JOB_STATUS_VALUES: seq<string> := [
    "queued", "running", "succeeded", "failed", "cancelled", "poisoned", "parked", "unknown"
  ]
  const EXPORT_FORMAT_VALUES: seq<string> := ["markdown", "docx", "text", "epub", "unknown"]
  const DIRECTIVE_KIND_VALUES: seq<string> := [
    "premise", "constraint", "arc_note", "tone_note", "chapter_note", "veto", "control", "unknown"
  ]
  const DIRECTIVE_STATUS_VALUES: seq<string> := [
    "received", "interpreted", "applied", "conflicted", "superseded", "unknown"
  ]
  const GATE_KIND_VALUES: seq<string> := ["shape", "integrity", "craft", "budget", "unknown"]
  const VERDICT_SOURCE_VALUES: seq<string> := [
    "deterministic", "calibrated_critic", "uncalibrated_critic", "human", "model_self_report", "unknown"
  ]
  const POLICY_OUTCOME_VALUES: seq<string> := [
    "accept", "retry", "repair", "regenerate", "park", "escalate", "unknown"
  ]
  const EXCEPTION_KIND_VALUES: seq<string> := [
    "repeated_gate_failure", "constraint_conflict", "budget_exhausted", "provider_unavailable",
    "publication_decision", "integrity_violation", "unknown"
  ]
  const EXCEPTION_STATUS_VALUES: seq<string> := ["open", "acknowledged", "resolved", "dismissed", "unknown"]

  function MoreValuesOf(enum: Id): seq<string> {
    match enum
    case PATCH_OP_KIND => PATCH_OP_KIND_VALUES
    case CANDIDATE_STATUS => CANDIDATE_STATUS_VALUES
    case CONTEXT_ITEM_KIND => CONTEXT_ITEM_KIND_VALUES
    case IMPACT_CLASS => IMPACT_CLASS_VALUES
    case STEP_ACTION => STEP_ACTION_VALUES
    case APPROVAL_MODE => APPROVAL_MODE_VALUES
    case GENERATION_KIND => GENERATION_KIND_VALUES
    case GENERATION_STATUS => GENERATION_STATUS_VALUES
    case JOB_STATUS => JOB_STATUS_VALUES
    case EXPORT_FORMAT => EXPORT_FORMAT_VALUES
    case DIRECTIVE_KIND => DIRECTIVE_KIND_VALUES
    case DIRECTIVE_STATUS => DIRECTIVE_STATUS_VALUES
    case GATE_KIND => GATE_KIND_VALUES
    case VERDICT_SOURCE => VERDICT_SOURCE_VALUES
    case POLICY_OUTCOME => POLICY_OUTCOME_VALUES
    case EXCEPTION_KIND => EXCEPTION_KIND_VALUES
    case EXCEPTION_STATUS => EXCEPTION_STATUS_VALUES
    case _ => []
  }

  // ---- dataclasses ----------------------------------------------------------------

  const MODEL_IDENTIFIER_FIELDS: seq<Field> := [
    Need("provider", TStr), Need("model", TStr), Maybe("version_or_digest", TStr),
    Maybe("request_profile", TStr), Maybe("template_version", TStr)
  ]

  const PATCH_OP_FIELDS: seq<Field> := [
    Need("kind", TEnum(PATCH_OP_KIND)), Need("target_span", TData(EVIDENCE_SPAN)), Maybe("new_text", TStr)
  ]

  const BOUNDED_PATCH_FIELDS: seq<Field> := [
    Need("meta", TData(ARTIFACT_META)), Need("target", TData(RESOURCE_REF)), Need("base_version_id", TStr),
    Need("base_content_sha256", TStr), Listed("ops", TData(PATCH_OP)), Need("idempotency_key", TStr),
    Maybe("licensed_by_finding_id", TStr), Maybe("author_request_id", TStr)
  ]

  const STATE_CANDIDATE_FIELDS: seq<Field> := [
    Need("candidate_id", TStr), Need("record", TData(STATE_RECORD)),
    Maybe("extraction_source", TData(RESOURCE_REF)), Maybe("rationale", TStr),
    Choice("status", CANDIDATE_STATUS, "proposed")
  ]

  const STATE_CANDIDATE_BATCH_FIELDS: seq<Field> := [
    Need("meta", TData(ARTIFACT_META)), Need("book_id", TStr), Need("branch_id", TStr),
    Need("base_revision_id", TStr), Listed("candidates", TData(STATE_CANDIDATE)), Need("idempotency_key", TStr),
    Maybe("expected_base_version", TStr)
  ]

  const DETECTOR_SPEC_FIELDS: seq<Field> := [
    Need("detector_id", TStr), Need("version", TStr)
  ]

  const CRITIC_SPEC_FIELDS: seq<Field> := [
    Need("critic_id", TStr), Maybe("model", TData(MODEL_IDENTIFIER))
  ]

  const EVALUATION_PLAN_FIELDS: seq<Field> := [
    Need("meta", TData(ARTIFACT_META)), Need("plan_id", TStr), Need("manuscript_revision", TData(RESOURCE_REF)),
    Listed("detectors", TData(DETECTOR_SPEC)), Maybe("state_snapshot", TData(RESOURCE_REF)),
    Maybe("context_packet_id", TStr), Many("critics", TData(CRITIC_SPEC)),
    Many("categories", TEnum(FINDING_CATEGORY)), Maybe("thresholds_profile", TStr), Maybe("seed", TInt)
  ]

  const CONTEXT_ITEM_FIELDS: seq<Field> := [
    Need("item_id", TStr), Need("kind", TEnum(CONTEXT_ITEM_KIND)), Need("source", TData(RESOURCE_REF)),
    Need("text", TStr), Need("token_count", TInt), Choice("authority", STATE_AUTHORITY, "derived"),
    Maybe("confidence", TFloat), Maybe("story_scope", TData(RESOURCE_REF)), Many("pov_visibility", TStr),
    Many("provenance", TData(EVIDENCE_SPAN)), Many("dependencies", TData(RESOURCE_REF)), Table("scores", TFloat)
  ]

  const PACKET_SECTION_FIELDS: seq<Field> := [
    Need("name", TStr), Listed("items", TData(CONTEXT_ITEM))
  ]

  const REJECTED_CANDIDATE_FIELDS: seq<Field> := [
    Need("reason", TStr), Maybe("item_id", TStr), Maybe("source", TData(RESOURCE_REF))
  ]

  const TOKEN_BUDGET_FIELDS: seq<Field> := [
    Need("limit", TInt), Need("used", TInt), Tally("reserved_output")
  ]

  const CONTEXT_PACKET_FIELDS: seq<Field> := [
    Need("meta", TData(ARTIFACT_META)), Need("packet_id", TStr), Need("query_id", TStr),
    Need("source_snapshot", TData(RESOURCE_REF)), Listed("sections", TData(PACKET_SECTION)),
    Need("budget", TData(TOKEN_BUDGET)), Many("consumed_sources", TData(RESOURCE_REF)),
    Many("rejected_candidates", TData(REJECTED_CANDIDATE))
  ]

  const IMPACT_PATH_EDGE_FIELDS: seq<Field> := [
    Need("edge_type", TStr), Need("from_ref", TData(RESOURCE_REF)), Need("to_ref", TData(RESOURCE_REF)),
    Maybe("authority", TStr)
  ]

  const IMPACT_ITEM_FIELDS: seq<Field> := [
    Need("target", TData(RESOURCE_REF)), Need("impact_class", TEnum(IMPACT_CLASS)), Maybe("confidence", TFloat),
    Maybe("reason", TStr), Many("reason_paths", TList(TData(IMPACT_PATH_EDGE)))
  ]

  const IMPACT_REPORT_FIELDS: seq<Field> := [
    Need("meta", TData(ARTIFACT_META)), Need("report_id", TStr), Need("change_set_id", TStr),
    Listed("impacts", TData(IMPACT_ITEM)), Maybe("graph_version", TStr), Many("coverage_warnings", TStr)
  ]

  const REVISION_STEP_FIELDS: seq<Field> := [
    Need("step_id", TStr), Need("target", TData(RESOURCE_REF)), Need("action", TEnum(STEP_ACTION)),
    Need("approval", TEnum(APPROVAL_MODE)), Maybe("reason", TStr), Maybe("finding_id", TStr),
    Maybe("confidence", TFloat), Many("preconditions", TStr), Many("preservation_constraints", TStr)
  ]

  const REVISION_PLAN_FIELDS: seq<Field> := [
    Need("meta", TData(ARTIFACT_META)), Need("plan_id", TStr), Need("base_revision", TStr),
    Need("change_set_id", TStr), Listed("steps", TData(REVISION_STEP)), Maybe("graph_version", TStr),
    Many("excluded_candidates", TData(IMPACT_ITEM)), Table("estimated_cost", TFloat), Many("risks", TStr)
  ]

  const GENERATION_PARAMS_FIELDS: seq<Field> := [
    Maybe("temperature", TFloat), Maybe("top_p", TFloat), Maybe("max_tokens", TInt), Maybe("seed", TInt),
    Many("stop", TStr)
  ]

  /** `GenerationParams()`. */
  const NO_PARAMS: Value := VData(GENERATION_PARAMS, [
    Slot("temperature", VNone), Slot("top_p", VNone), Slot("max_tokens", VNone), Slot("seed", VNone),
    Slot("stop", VList([]))
  ])

  const GENERATION_REQUEST_FIELDS: seq<Field> := [
    Need("meta", TData(ARTIFACT_META)), Need("request_id", TStr), Need("kind", TEnum(GENERATION_KIND)),
    Need("target", TData(RESOURCE_REF)), Need("model", TData(MODEL_IDENTIFIER)), Need("idempotency_key", TStr),
    Maybe("context_packet_id", TStr), Field("params", TData(GENERATION_PARAMS), Default(NO_PARAMS)),
    Maybe("output_schema_id", TStr)
  ]

  const TOKEN_USAGE_FIELDS: seq<Field> := [
    Maybe("input_tokens", TInt), Maybe("output_tokens", TInt)
  ]

  const VALIDATION_OUTCOME_FIELDS: seq<Field> := [
    Need("check", TStr), Need("passed", TBool), Maybe("detail", TStr)
  ]

  const GENERATION_CANDIDATE_FIELDS: seq<Field> := [
    Need("meta", TData(ARTIFACT_META)), Need("candidate_id", TStr), Need("request_id", TStr),
    Need("status", TEnum(GENERATION_STATUS)), Maybe("content", TStr), Maybe("patch", TData(BOUNDED_PATCH)),
    Maybe("token_usage", TData(TOKEN_USAGE)), Many("validations", TData(VALIDATION_OUTCOME))
  ]

  const INPUT_REF_FIELDS: seq<Field> := [
    Need("ref", TData(RESOURCE_REF)), Maybe("content_sha256", TStr)
  ]

  const RUN_MANIFEST_FIELDS: seq<Field> := [
    Need("meta", TData(ARTIFACT_META)), Need("run_id", TStr), Need("purpose", TStr),
    Many("inputs", TData(INPUT_REF)), Maybe("model", TData(MODEL_IDENTIFIER)), Maybe("code_version", TStr),
    Maybe("platform", TStr), Maybe("started_at", TStr), Maybe("finished_at", TStr), Maybe("outcome", TStr)
  ]

  const JOB_RECORD_FIELDS: seq<Field> := [
    Need("meta", TData(ARTIFACT_META)), Need("job_id", TStr), Need("job_kind", TStr),
    Need("status", TEnum(JOB_STATUS)), Tally("attempts"), Maybe("idempotency_key", TStr),
    Maybe("input_digest", TStr), Maybe("error", TStr), Maybe("lease_holder", TStr),
    Maybe("lease_expires_at", TFloat), Maybe("payload", TDict(TAny)), Maybe("priority", TInt)
  ]

  const EXPORT_FILE_FIELDS: seq<Field> := [
    Need("path", TStr), Need("sha256", TStr), Maybe("size_bytes", TInt)
  ]

  const EXPORT_MANIFEST_FIELDS: seq<Field> := [
    Need("meta", TData(ARTIFACT_META)), Need("export_id", TStr),
    Need("manuscript_revision", TData(RESOURCE_REF)), Need("format", TEnum(EXPORT_FORMAT)),
    Need("renderer", TData(TOOL_IDENTITY)), Maybe("settings_digest", TStr), Many("files", TData(EXPORT_FILE))
  ]

  const DIRECTIVE_FIELDS: seq<Field> := [
    Need("meta", TData(ARTIFACT_META)), Need("directive_id", TStr), Need("kind", TEnum(DIRECTIVE_KIND)),
    Need("body", TStr), Choice("status", DIRECTIVE_STATUS, "received"), Maybe("book_id", TStr),
    Maybe("branch_id", TStr), Many("targets", TData(RESOURCE_REF)), Maybe("interpretation", TStr),
    Many("produced_constraint_ids", TStr), Maybe("received_at", TStr), Maybe("interpreted_at", TStr),
    Tally("precedence"), Maybe("superseded_by", TStr)
  ]

  const GATE_RESULT_FIELDS: seq<Field> := [
    Need("gate", TEnum(GATE_KIND)), Need("rule_or_critic_id", TStr), Need("passed", TBool),
    Choice("verdict_source", VERDICT_SOURCE, "deterministic"), Flag("blocking", true), Many("vetoes", TStr),
    Maybe("detail", TStr), Maybe("score", TFloat), Maybe("threshold", TFloat), Maybe("calibration_id", TStr)
  ]

  const POLICY_DECISION_RECORD_LEAD: seq<Field> := [
    Need("meta", TData(ARTIFACT_META)), Need("decision_id", TStr), Need("outcome", TEnum(POLICY_OUTCOME)),
    Maybe("subject", TData(RESOURCE_REF)), Maybe("job_id", TStr), Many("gates", TData(GATE_RESULT)),
    Maybe("provider", TStr), Maybe("model", TStr), Maybe("profile", TStr)
  ]

  const POLICY_DECISION_RECORD_REST: seq<Field> := [
    Many("fell_back_from", TStr), Tally("invocations"), Tally("total_tokens"), Maybe("cost_usd", TFloat),
    Maybe("policy_config_digest", TStr), Tally("attempt"), Maybe("decided_at", TStr),
    Maybe("resulting_revision_id", TStr), Maybe("escalation_id", TStr)
  ]

  const POLICY_DECISION_RECORD_FIELDS: seq<Field> := POLICY_DECISION_RECORD_LEAD + POLICY_DECISION_RECORD_REST

  const EXCEPTION_RECORD_FIELDS: seq<Field> := [
    Need("meta", TData(ARTIFACT_META)), Need("exception_id", TStr), Need("kind", TEnum(EXCEPTION_KIND)),
    Need("summary", TStr), Choice("status", EXCEPTION_STATUS, "open"), Maybe("subject", TData(RESOURCE_REF)),
    Maybe("job_id", TStr), Maybe("decision_id", TStr), Many("suggested_actions", TStr),
    Maybe("raised_at", TStr), Maybe("resolved_at", TStr), Maybe("resolution", TStr),
    Maybe("resolved_by_directive_id", TStr), Tally("attempts")
  ]

  const DIGEST_ENTRY_LEAD: seq<Field> := [
    Need("meta", TData(ARTIFACT_META)), Need("digest_id", TStr), Need("period_start", TStr),
    Need("period_end", TStr), Maybe("book_id", TStr), Tally("ticks"), Tally("jobs_succeeded"),
    Tally("jobs_failed"), Tally("units_parked"), Tally("candidates_accepted"), Tally("candidates_refused")
  ]

  const DIGEST_ENTRY_REST: seq<Field> := [
    Tally("findings_opened"), Tally("findings_closed"), Tally("exceptions_open"), Tally("words_accepted"),
    Tally("invocations"), Tally("total_tokens"), Maybe("spend_usd", TFloat), Maybe("budget_usd", TFloat),
    Many("audit_samples", TData(RESOURCE_REF)), Many("notes", TStr), Table("extra", TAny)
  ]

  const DIGEST_ENTRY_FIELDS: seq<Field> := DIGEST_ENTRY_LEAD + DIGEST_ENTRY_REST

  function MoreFieldsOf(cls: Id): seq<Field> {
    match cls
    case MODEL_IDENTIFIER => MODEL_IDENTIFIER_FIELDS
    case PATCH_OP => PATCH_OP_FIELDS
    case BOUNDED_PATCH => BOUNDED_PATCH_FIELDS
    case STATE_CANDIDATE => STATE_CANDIDATE_FIELDS
    case STATE_CANDIDATE_BATCH => STATE_CANDIDATE_BATCH_FIELDS
    case DETECTOR_SPEC => DETECTOR_SPEC_FIELDS
    case CRITIC_SPEC => CRITIC_SPEC_FIELDS
    case EVALUATION_PLAN => EVALUATION_PLAN_FIELDS
    case CONTEXT_ITEM => CONTEXT_ITEM_FIELDS
    case PACKET_SECTION => PACKET_SECTION_FIELDS
    case REJECTED_CANDIDATE => REJECTED_CANDIDATE_FIELDS
    case TOKEN_BUDGET => TOKEN_BUDGET_FIELDS
    case CONTEXT_PACKET => CONTEXT_PACKET_FIELDS
    case IMPACT_PATH_EDGE => IMPACT_PATH_EDGE_FIELDS
    case IMPACT_ITEM => IMPACT_ITEM_FIELDS
    case IMPACT_REPORT => IMPACT_REPORT_FIELDS
    case REVISION_STEP => REVISION_STEP_FIELDS
    case REVISION_PLAN => REVISION_PLAN_FIELDS
    case GENERATION_PARAMS => GENERATION_PARAMS_FIELDS
    case GENERATION_REQUEST => GENERATION_REQUEST_FIELDS
    case TOKEN_USAGE => TOKEN_USAGE_FIELDS
    case VALIDATION_OUTCOME => VALIDATION_OUTCOME_FIELDS
    case GENERATION_CANDIDATE => GENERATION_CANDIDATE_FIELDS
    case INPUT_REF => INPUT_REF_FIELDS
    case RUN_MANIFEST => RUN_MANIFEST_FIELDS
    case JOB_RECORD => JOB_RECORD_FIELDS
    case EXPORT_FILE => EXPORT_FILE_FIELDS
    case EXPORT_MANIFEST => EXPORT_MANIFEST_FIELDS
    case DIRECTIVE => DIRECTIVE_FIELDS
    case GATE_RESULT => GATE_RESULT_FIELDS
    case POLICY_DECISION_RECORD => POLICY_DECISION_RECORD_FIELDS
    case EXCEPTION_RECORD => EXCEPTION_RECORD_FIELDS
    case DIGEST_ENTRY => DIGEST_ENTRY_FIELDS
    case _ => []
  }

  const LIBRARY: Catalogue := Catalogue(
    (map e: Id | 0 <= e < CLASSES_FROM :: ValuesOf(e))
    + (map e: Id | IDS <= e < MORE_CLASSES_FROM :: MoreValuesOf(e)),
    (map k: Id | CLASSES_FROM <= k < IDS :: FieldsOf(k))
    + (map k: Id | MORE_CLASSES_FROM <= k < ALL_IDS :: MoreFieldsOf(k)))
}
