/** The shipped contract types that the six golden artifacts and the event envelope are
    made of, as their dataclass and enum statements declare them. */
module Shipped {
  import opened Catalogues

  // ---- field shorthands -------------------------------------------------------------

  function Need(name: string, t: Ty): Field { Field(name, t, NoDefault) }
  function Listed(name: string, t: Ty): Field { Field(name, TList(t), NoDefault) }
  function Maybe(name: string, t: Ty): Field { Field(name, TOpt(t), Default(VNone)) }
  function Many(name: string, t: Ty): Field { Field(name, TList(t), Default(VList([]))) }
  function Table(name: string, t: Ty): Field { Field(name, TDict(t), Default(VDict([]))) }
  function Free(name: string): Field { Field(name, TAny, Default(VNone)) }
  function Flag(name: string, b: bool): Field { Field(name, TBool, Default(VBool(b))) }
  function Tally(name: string): Field { Field(name, TInt, Default(VInt(0))) }
  function Choice(name: string, enum: Id, member: string): Field {
    Field(name, TEnum(enum), Default(VEnum(enum, member)))
  }

  // ---- identities -------------------------------------------------------------------

  const RESOURCE_KIND: Id := 0
  const NODE_KIND: Id := 1
  const BLOCK_KIND: Id := 2
  const LOCK_KIND: Id := 3
  const STATE_RECORD_KIND: Id := 4
  const STATE_AUTHORITY: Id := 5
  const PLAN_KIND: Id := 6
  const PLAN_AUTHORITY: Id := 7
  const FINDING_CATEGORY: Id := 8
  const FINDING_STATUS: Id := 9
  const SEVERITY: Id := 10
  const CONFIDENCE_BASIS: Id := 11
  const SUGGESTED_ACTION: Id := 12
  const CONTEXT_OPERATION: Id := 13
  const CHANGE_ACTOR: Id := 14
  const CHANGE_OP_KIND: Id := 15
  const EXTRACTED_CHANGE_KIND: Id := 16
  const IMPACT_LABEL: Id := 17
  const EVENT_TYPE: Id := 18

  const RESOURCE_REF: Id := 19
  const EVIDENCE_SPAN: Id := 20
  const STORY_POSITION: Id := 21
  const TOOL_IDENTITY: Id := 22
  const ARTIFACT_META: Id := 23
  const MANUSCRIPT_NODE: Id := 24
  const MANUSCRIPT_REVISION: Id := 25
  const STATE_RECORD: Id := 26
  const STATE_SNAPSHOT: Id := 27
  const PLAN_ITEM: Id := 28
  const PLAN_SNAPSHOT: Id := 29
  const FINDING_SCOPE: Id := 30
  const REPRODUCTION: Id := 31
  const FINDING: Id := 32
  const EVALUATION_ERROR: Id := 33
  const EVALUATION_ARTIFACT: Id := 34
  const CONTEXT_QUERY: Id := 35
  const CHANGE_OPERATION: Id := 36
  const EXTRACTED_CHANGE: Id := 37
  const CHANGE_SET: Id := 38
  const GOLD_CONTEXT_TARGET: Id := 39
  const GOLD_CONTEXT_CASE: Id := 40
  const GOLD_CONTEXT_SUITE: Id := 41
  const GOLD_IMPACT_EXPECTATION: Id := 42
  const GOLD_IMPACT_CASE: Id := 43
  const GOLD_IMPACT_SUITE: Id := 44
  const EVENT_ENVELOPE: Id := 45

  const CLASSES_FROM: Id := 19
  const IDS: Id := 46

  // ---- enums ----------------------------------------------------------------------

  const RESOURCE_KIND_VALUES: seq<string> := [
    "manuscript_book", "manuscript_part", "manuscript_chapter", "manuscript_scene", "manuscript_block", "plan",
    "entity", "assertion", "state_event", "relationship", "knowledge", "thread", "world_rule", "summary",
    "embedding", "context_packet", "finding", "graph_node", "generation_candidate", "revision_plan",
    "export_artifact", "job", "unknown"
  ]
  const NODE_KIND_VALUES: seq<string> := ["book", "part", "chapter", "scene", "block", "unknown"]
  const BLOCK_KIND_VALUES: seq<string> := [
    "prose", "status_window", "level_up", "quest_log", "system_message", "unknown"
  ]
  const LOCK_KIND_VALUES: seq<string> := ["none", "content", "structure", "published", "unknown"]
  const STATE_RECORD_KIND_VALUES: seq<string> := [
    "assertion", "event", "relationship", "knowledge", "thread", "world_rule", "unknown"
  ]
  const STATE_AUTHORITY_VALUES: seq<string> := ["author_locked", "accepted_canon", "derived", "proposed", "unknown"]
  const PLAN_KIND_VALUES: seq<string> := [
    "premise", "book_plan", "chapter_plan", "scene_plan", "constraint", "promise", "world_rule", "unknown"
  ]
  const PLAN_AUTHORITY_VALUES: seq<string> := ["intended", "possible", "canonical_in_prose", "unknown"]
  const FINDING_CATEGORY_VALUES: seq<string> := [
    "timeline", "knowledge", "physical_state", "inventory", "relationship", "location", "causality",
    "promise_payoff", "world_rule", "style", "repetition", "pacing", "unknown"
  ]
  const FINDING_STATUS_VALUES: seq<string> := [
    "open", "accepted_intentional", "confirmed", "fixed", "false_positive", "deferred", "superseded",
    "evaluation_error", "unknown"
  ]
  const SEVERITY_VALUES: seq<string> := ["info", "minor", "major", "critical", "unknown"]
  const CONFIDENCE_BASIS_VALUES: seq<string> := [
    "deterministic", "calibrated_model", "ensemble", "heuristic", "unknown"
  ]
  const SUGGESTED_ACTION_VALUES: seq<string> := [
    "inspect", "update_state", "repair_span", "revise_plan", "dismiss", "unknown"
  ]
  const CONTEXT_OPERATION_VALUES: seq<string> := [
    "draft_scene", "continue", "evaluate", "repair", "plan", "answer", "unknown"
  ]
  const CHANGE_ACTOR_VALUES: seq<string> := ["author", "system", "import", "unknown"]
  const CHANGE_OP_KIND_VALUES: seq<string> := [
    "replace_span", "insert", "delete", "move", "rename", "reorder", "split", "merge", "unknown"
  ]
  const EXTRACTED_CHANGE_KIND_VALUES: seq<string> := [
    "fact_changed", "entity_renamed", "event_moved", "event_added", "event_removed", "plan_changed",
    "pov_changed", "rule_changed", "surface_only", "unknown"
  ]
  const IMPACT_LABEL_VALUES: seq<string> := ["must_update", "inspect", "derived_only", "safe_preserve", "unknown"]
  const EVENT_TYPE_VALUES: seq<string> := [
    "PlanChanged", "ManuscriptCandidateCreated", "ManuscriptRevisionAccepted", "StateCandidatesExtracted",
    "StateRecordsAccepted", "ContextPacketCreated", "EvaluationCompleted", "FindingStatusChanged",
    "ImpactAnalyzed", "RevisionPlanApproved", "ArtifactInvalidated", "ArtifactRecomputed", "ExportCreated",
    "JobFailed", "TickCompleted", "DirectiveIngested", "PolicyDecisionRecorded", "ExceptionRaised",
    "ExceptionResolved", "DigestPublished", "ProviderFellBack", "BudgetExhausted", "unknown"
  ]

  function ValuesOf(enum: Id): seq<string> {
    match enum
    case RESOURCE_KIND => RESOURCE_KIND_VALUES
    case NODE_KIND => NODE_KIND_VALUES
    case BLOCK_KIND => BLOCK_KIND_VALUES
    case LOCK_KIND => LOCK_KIND_VALUES
    case STATE_RECORD_KIND => STATE_RECORD_KIND_VALUES
    case STATE_AUTHORITY => STATE_AUTHORITY_VALUES
    case PLAN_KIND => PLAN_KIND_VALUES
    case PLAN_AUTHORITY => PLAN_AUTHORITY_VALUES
    case FINDING_CATEGORY => FINDING_CATEGORY_VALUES
    case FINDING_STATUS => FINDING_STATUS_VALUES
    case SEVERITY => SEVERITY_VALUES
    case CONFIDENCE_BASIS => CONFIDENCE_BASIS_VALUES
    case SUGGESTED_ACTION => SUGGESTED_ACTION_VALUES
    case CONTEXT_OPERATION => CONTEXT_OPERATION_VALUES
    case CHANGE_ACTOR => CHANGE_ACTOR_VALUES
    case CHANGE_OP_KIND => CHANGE_OP_KIND_VALUES
    case EXTRACTED_CHANGE_KIND => EXTRACTED_CHANGE_KIND_VALUES
    case IMPACT_LABEL => IMPACT_LABEL_VALUES
    case EVENT_TYPE => EVENT_TYPE_VALUES
    case _ => []
  }

  // ---- dataclasses ----------------------------------------------------------------

  const RESOURCE_REF_FIELDS: seq<Field> := [
    Need("project_id", TStr), Need("book_id", TStr), Need("branch_id", TStr), Need("logical_id", TStr),
    Need("kind", TEnum(RESOURCE_KIND)), Maybe("version_id", TStr)
  ]

  const EVIDENCE_SPAN_FIELDS: seq<Field> := [
    Need("source", TData(RESOURCE_REF)), Need("start", TInt), Need("end", TInt), Need("content_sha256", TStr),
    Maybe("anchor_before", TStr), Maybe("anchor_after", TStr)
  ]

  const STORY_POSITION_FIELDS: seq<Field> := [
    Need("order_key", TStr), Maybe("label", TStr)
  ]

  const TOOL_IDENTITY_FIELDS: seq<Field> := [
    Need("name", TStr), Need("version", TStr)
  ]

  const ARTIFACT_META_FIELDS: seq<Field> := [
    Need("schema_version", TStr), Need("artifact_id", TStr), Need("artifact_kind", TStr),
    Need("created_at", TStr), Need("actor", TStr), Need("tool", TData(TOOL_IDENTITY)),
    Many("source_revisions", TData(RESOURCE_REF)), Many("dependencies", TData(RESOURCE_REF)),
    Maybe("config_digest", TStr), Maybe("causation_id", TStr), Maybe("correlation_id", TStr),
    Many("warnings", TStr)
  ]

  const MANUSCRIPT_NODE_FIELDS: seq<Field> := [
    Need("logical_id", TStr), Need("kind", TEnum(NODE_KIND)), Need("position_key", TStr),
    Maybe("parent_logical_id", TStr), Maybe("title", TStr), Maybe("content", TStr),
    Maybe("content_sha256", TStr), Maybe("version_id", TStr), Flag("locked", false), Table("metadata", TAny),
    Maybe("lock_kind", TEnum(LOCK_KIND)), Maybe("block_kind", TEnum(BLOCK_KIND)),
    Maybe("block_payload", TDict(TAny)), Maybe("tombstoned", TBool), Maybe("tombstone_reason", TStr)
  ]

  const MANUSCRIPT_REVISION_FIELDS: seq<Field> := [
    Need("meta", TData(ARTIFACT_META)), Need("book_id", TStr), Need("branch_id", TStr),
    Need("revision_id", TStr), Listed("nodes", TData(MANUSCRIPT_NODE)), Maybe("parent_revision_id", TStr)
  ]

  const STATE_RECORD_FIELDS: seq<Field> := [
    Need("record_id", TStr), Need("kind", TEnum(STATE_RECORD_KIND)), Need("subject", TStr),
    Need("predicate", TStr), Free("value"), Maybe("object_ref", TStr),
    Maybe("story_position", TData(STORY_POSITION)), Choice("authority", STATE_AUTHORITY, "proposed"),
    Many("pov_visibility", TStr), Many("evidence", TData(EVIDENCE_SPAN)), Maybe("confidence", TFloat),
    Maybe("predicate_registry_version", TStr), Maybe("note", TStr)
  ]

  const STATE_SNAPSHOT_FIELDS: seq<Field> := [
    Need("meta", TData(ARTIFACT_META)), Need("book_id", TStr), Need("branch_id", TStr),
    Need("revision_id", TStr), Listed("records", TData(STATE_RECORD)), Maybe("as_of", TData(STORY_POSITION))
  ]

  const PLAN_ITEM_FIELDS: seq<Field> := [
    Need("logical_id", TStr), Need("kind", TEnum(PLAN_KIND)), Need("text", TStr),
    Need("authority", TEnum(PLAN_AUTHORITY)), Flag("locked", false), Maybe("scope", TData(RESOURCE_REF)),
    Many("links", TData(RESOURCE_REF))
  ]

  const PLAN_SNAPSHOT_FIELDS: seq<Field> := [
    Need("meta", TData(ARTIFACT_META)), Need("book_id", TStr), Need("branch_id", TStr),
    Need("revision_id", TStr), Listed("items", TData(PLAN_ITEM))
  ]

  const FINDING_SCOPE_FIELDS: seq<Field> := [
    Need("book_id", TStr), Many("chapter_ids", TStr), Many("scene_ids", TStr)
  ]

  const REPRODUCTION_FIELDS: seq<Field> := [
    Maybe("config_hash", TStr), Maybe("policy_version", TStr), Maybe("model_digest", TStr)
  ]

  const FINDING_LEAD: seq<Field> := [
    Need("finding_id", TStr), Need("category", TEnum(FINDING_CATEGORY)), Need("status", TEnum(FINDING_STATUS)),
    Need("scope", TData(FINDING_SCOPE)), Need("severity", TEnum(SEVERITY)), Need("message", TStr),
    Maybe("evaluation_run_id", TStr), Maybe("subtype", TStr), Maybe("primary_span", TData(EVIDENCE_SPAN)),
    Many("supporting_evidence", TData(EVIDENCE_SPAN))
  ]

  const FINDING_REST: seq<Field> := [
    Many("contradicting_evidence", TData(EVIDENCE_SPAN)), Maybe("rule_or_critic_id", TStr),
    Maybe("severity_rationale", TStr), Maybe("confidence", TFloat),
    Choice("confidence_basis", CONFIDENCE_BASIS, "unknown"), Maybe("evidence_confidence", TFloat),
    Table("claim", TAny), Maybe("reproduction", TData(REPRODUCTION)), Many("dependencies", TData(RESOURCE_REF)),
    Choice("suggested_action", SUGGESTED_ACTION, "inspect")
  ]

  const FINDING_FIELDS: seq<Field> := FINDING_LEAD + FINDING_REST

  const EVALUATION_ERROR_FIELDS: seq<Field> := [
    Need("stage", TStr), Need("reason", TStr), Maybe("detail", TStr)
  ]

  const EVALUATION_ARTIFACT_FIELDS: seq<Field> := [
    Need("meta", TData(ARTIFACT_META)), Need("run_id", TStr), Need("plan_id", TStr),
    Listed("findings", TData(FINDING)), Many("errors", TData(EVALUATION_ERROR)), Table("metrics", TFloat)
  ]

  const CONTEXT_QUERY_FIELDS: seq<Field> := [
    Need("meta", TData(ARTIFACT_META)), Need("query_id", TStr), Need("operation", TEnum(CONTEXT_OPERATION)),
    Need("target", TData(RESOURCE_REF)), Need("token_budget", TInt), Maybe("pov_character_id", TStr),
    Maybe("intent", TStr), Many("referenced_entities", TStr), Many("referenced_threads", TStr),
    Maybe("story_time_cutoff", TData(STORY_POSITION)), Many("hard_requirements", TData(RESOURCE_REF)),
    Many("exclusions", TData(RESOURCE_REF)), Maybe("model_context_limit", TInt), Maybe("policy_version", TStr)
  ]

  const CHANGE_OPERATION_FIELDS: seq<Field> := [
    Need("kind", TEnum(CHANGE_OP_KIND)), Need("logical_source_id", TStr), Maybe("before_version", TStr),
    Maybe("after_version", TStr), Maybe("before_hash", TStr), Maybe("after_hash", TStr), Table("detail", TAny)
  ]

  const EXTRACTED_CHANGE_FIELDS: seq<Field> := [
    Need("kind", TEnum(EXTRACTED_CHANGE_KIND)), Maybe("subject", TStr), Maybe("predicate", TStr),
    Free("before"), Free("after"), Many("evidence", TData(EVIDENCE_SPAN)), Maybe("confidence", TFloat)
  ]

  const CHANGE_SET_FIELDS: seq<Field> := [
    Need("meta", TData(ARTIFACT_META)), Need("change_set_id", TStr), Need("base_revision", TStr),
    Need("target_branch", TStr), Need("actor", TEnum(CHANGE_ACTOR)),
    Listed("operations", TData(CHANGE_OPERATION)), Need("idempotency_key", TStr),
    Many("extracted_changes", TData(EXTRACTED_CHANGE)), Maybe("declared_intent", TStr),
    Many("preservation_constraints", TStr)
  ]

  const GOLD_CONTEXT_TARGET_FIELDS: seq<Field> := [
    Need("reason", TStr), Maybe("span", TData(EVIDENCE_SPAN)), Maybe("ref", TData(RESOURCE_REF))
  ]

  const GOLD_CONTEXT_CASE_FIELDS: seq<Field> := [
    Need("query", TData(CONTEXT_QUERY)), Many("mandatory", TData(GOLD_CONTEXT_TARGET)),
    Many("forbidden", TData(GOLD_CONTEXT_TARGET)), Maybe("notes", TStr)
  ]

  const GOLD_CONTEXT_SUITE_FIELDS: seq<Field> := [
    Need("meta", TData(ARTIFACT_META)), Need("fixture_id", TStr), Listed("cases", TData(GOLD_CONTEXT_CASE))
  ]

  const GOLD_IMPACT_EXPECTATION_FIELDS: seq<Field> := [
    Need("target", TData(RESOURCE_REF)), Need("label", TEnum(IMPACT_LABEL)), Maybe("note", TStr)
  ]

  const GOLD_IMPACT_CASE_FIELDS: seq<Field> := [
    Need("scenario_id", TStr), Need("description", TStr), Need("change_set", TData(CHANGE_SET)),
    Listed("expected", TData(GOLD_IMPACT_EXPECTATION))
  ]

  const GOLD_IMPACT_SUITE_FIELDS: seq<Field> := [
    Need("meta", TData(ARTIFACT_META)), Need("fixture_id", TStr), Listed("cases", TData(GOLD_IMPACT_CASE))
  ]

  const EVENT_ENVELOPE_FIELDS: seq<Field> := [
    Need("schema_version", TStr), Need("event_id", TStr), Need("event_type", TEnum(EVENT_TYPE)),
    Need("created_at", TStr), Need("actor", TStr), Need("project_id", TStr), Need("idempotency_key", TStr),
    Maybe("book_id", TStr), Maybe("branch_id", TStr), Maybe("revision_id", TStr), Maybe("causation_id", TStr),
    Maybe("correlation_id", TStr), Maybe("expected_version", TStr), Table("payload", TAny),
    Maybe("payload_digest", TStr)
  ]

  function FieldsOf(cls: Id): seq<Field> {
    match cls
    case RESOURCE_REF => RESOURCE_REF_FIELDS
    case EVIDENCE_SPAN => EVIDENCE_SPAN_FIELDS
    case STORY_POSITION => STORY_POSITION_FIELDS
    case TOOL_IDENTITY => TOOL_IDENTITY_FIELDS
    case ARTIFACT_META => ARTIFACT_META_FIELDS
    case MANUSCRIPT_NODE => MANUSCRIPT_NODE_FIELDS
    case MANUSCRIPT_REVISION => MANUSCRIPT_REVISION_FIELDS
    case STATE_RECORD => STATE_RECORD_FIELDS
    case STATE_SNAPSHOT => STATE_SNAPSHOT_FIELDS
    case PLAN_ITEM => PLAN_ITEM_FIELDS
    case PLAN_SNAPSHOT => PLAN_SNAPSHOT_FIELDS
    case FINDING_SCOPE => FINDING_SCOPE_FIELDS
    case REPRODUCTION => REPRODUCTION_FIELDS
    case FINDING => FINDING_FIELDS
    case EVALUATION_ERROR => EVALUATION_ERROR_FIELDS
    case EVALUATION_ARTIFACT => EVALUATION_ARTIFACT_FIELDS
    case CONTEXT_QUERY => CONTEXT_QUERY_FIELDS
    case CHANGE_OPERATION => CHANGE_OPERATION_FIELDS
    case EXTRACTED_CHANGE => EXTRACTED_CHANGE_FIELDS
    case CHANGE_SET => CHANGE_SET_FIELDS
    case GOLD_CONTEXT_TARGET => GOLD_CONTEXT_TARGET_FIELDS
    case GOLD_CONTEXT_CASE => GOLD_CONTEXT_CASE_FIELDS
    case GOLD_CONTEXT_SUITE => GOLD_CONTEXT_SUITE_FIELDS
    case GOLD_IMPACT_EXPECTATION => GOLD_IMPACT_EXPECTATION_FIELDS
    case GOLD_IMPACT_CASE => GOLD_IMPACT_CASE_FIELDS
    case GOLD_IMPACT_SUITE => GOLD_IMPACT_SUITE_FIELDS
    case EVENT_ENVELOPE => EVENT_ENVELOPE_FIELDS
    case _ => []
  }
}
