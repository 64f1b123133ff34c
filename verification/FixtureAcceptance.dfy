/** When a build succeeds, and which error it reports when it does not. */
module FixtureAcceptance {
  import opened JsonValues
  import opened Catalogues
  import opened Options
  import opened Occurrences
  import opened Shipped
  import opened FixtureSpec
  import opened FixtureBuild
  import opened FixtureLaws
  import opened FixtureResults

  // ---- what is acceptable ---------------------------------------------------------------

  /** The quote occurs in its scene, any two of its occurrences overlapping. */
  ghost predicate Citable(d: Desk, cite: Cite) {
    && cite.scene in d.sceneText
    && (exists i: nat :: OccursAt(d.sceneText[cite.scene], cite.quote, i))
    && (forall i: nat, k: nat ::
          OccursAt(d.sceneText[cite.scene], cite.quote, i) && OccursAt(d.sceneText[cite.scene], cite.quote, k) ==>
          i == k || Overlap(cite.quote, i, k))
  }

  ghost predicate AllCitable(d: Desk, cites: seq<Cite>) {
    forall cite :: cite in cites ==> Citable(d, cite)
  }

  /** The namespaces a target id is looked up in, in order. */
  predicate Claims(d: Desk, n: nat, target: string) {
    match n
    case 0 => target == "book"
    case 1 => target in d.sceneText
    case 2 => target in d.recordKinds
    case 3 => target in d.planIds
    case 4 => target in d.findingIds
    case 5 => target in d.derived
    case 6 => target in d.queryIds
    case 7 => ENTITY_PREFIX <= target
    case _ => false
  }

  /** The resource kind of what a namespace holds, if it has one. */
  function ClaimedKind(d: Desk, n: nat, target: string): Option<string>
    requires Claims(d, n, target)
  {
    match n
    case 0 => Some("manuscript_book")
    case 1 => Some("manuscript_scene")
    case 2 => ResourceKindOf(d.recordKinds[target])
    case 3 => Some("plan")
    case 4 => Some("finding")
    case 5 => Some("summary")
    case 6 => Some("context_packet")
    case _ => Some("entity")
  }

  /** `n` is the first namespace to claim the target. */
  predicate ClaimsFirst(d: Desk, n: nat, target: string) {
    Claims(d, n, target) && forall m: nat :: m < n ==> !Claims(d, m, target)
  }

  /** Some namespace claims the target, and the first to do so has a kind for it. */
  ghost predicate Resolvable(d: Desk, target: string) {
    exists n: nat :: ClaimsFirst(d, n, target) && ClaimedKind(d, n, target).Some?
  }

  ghost predicate AllResolvable(d: Desk, targets: seq<string>) {
    forall target :: target in targets ==> Resolvable(d, target)
  }

  predicate PlanIsOk(p: Plan) {
    p.kind in PLAN_KIND_VALUES && p.authority in PLAN_AUTHORITY_VALUES
  }

  ghost predicate RecordIsOk(d: Desk, r: Record) {
    r.kind in STATE_RECORD_KIND_VALUES && r.authority in STATE_AUTHORITY_VALUES && AllCitable(d, r.evidence)
  }

  predicate FindingIsChosen(f: GoldFinding) {
    f.category in FINDING_CATEGORY_VALUES && f.status in FINDING_STATUS_VALUES && f.severity in SEVERITY_VALUES
  }

  ghost predicate FindingIsOk(d: Desk, f: GoldFinding) {
    FindingIsChosen(f) && Citable(d, f.primary) && AllCitable(d, f.supporting) && AllResolvable(d, f.dependencies)
  }

  ghost predicate TargetIsOk(d: Desk, t: Target) {
    if t.quote.Some? then t.scene.Some? && Citable(d, Cite(t.scene.value, t.quote.value))
    else if t.record.Some? then Resolvable(d, t.record.value)
    else t.plan.Some? && Resolvable(d, t.plan.value)
  }

  ghost predicate TargetsAreOk(d: Desk, ts: seq<Target>) {
    forall t :: t in ts ==> TargetIsOk(d, t)
  }

  ghost predicate QueryIsOk(d: Desk, q: Query) {
    && q.operation in CONTEXT_OPERATION_VALUES && Resolvable(d, q.target)
    && TargetsAreOk(d, q.mandatory) && TargetsAreOk(d, q.forbidden)
  }

  ghost predicate OperationIsOk(d: Desk, op: Operation) {
    && op.kind in CHANGE_OP_KIND_VALUES
    && (IsQuoted(op) ==> op.scene.Some? && Citable(d, Cite(op.scene.value, CitedText(op))))
  }

  predicate ChangeIsOk(c: Change) {
    c.kind in EXTRACTED_CHANGE_KIND_VALUES
  }

  ghost predicate ExpectationIsOk(d: Desk, e: Expectation) {
    e.impact in IMPACT_LABEL_VALUES && Resolvable(d, e.target)
  }

  ghost predicate ScenarioIsOk(d: Desk, s: Scenario) {
    && (forall op :: op in s.operations ==> OperationIsOk(d, op))
    && (forall c :: c in s.changes ==> ChangeIsOk(c))
    && (forall e :: e in s.expected ==> ExpectationIsOk(d, e))
  }

  /** Every enum value is one, every quote is found, and every target resolves. */
  ghost predicate SpecIsOk(d: Desk) {
    && (forall p :: p in d.spec.plans ==> PlanIsOk(p))
    && (forall r :: r in d.spec.records ==> RecordIsOk(d, r))
    && (forall f :: f in d.spec.findings ==> FindingIsOk(d, f))
    && (forall q :: q in d.spec.queries ==> QueryIsOk(d, q))
    && (forall s :: s in d.spec.scenarios ==> ScenarioIsOk(d, s))
  }

  // ---- part by part -------------------------------------------------------------------------

  lemma {:induction false} EachDoneIff<C, T>(d: C, f: (C, T) --> Built<Value>, xs: seq<T>)
    requires forall x :: x in xs ==> f.requires(d, x)
    ensures Each(d, f, xs).Done? <==> forall x :: x in xs ==> f(d, x).Done?
  {
    if |xs| > 0 {
      var n := |xs| - 1;
      EachDoneIff(d, f, xs[..n]);
      assert xs == xs[..n] + [xs[n]];
    }
  }

  lemma SpanDoneIff(d: Desk, cite: Cite)
    requires Paired(d)
    ensures Span(d, cite).Done? <==> Citable(d, cite)
  {
    SpanAcceptsIff(d, cite);
  }

  lemma SpansDoneIff(d: Desk, cites: seq<Cite>)
    requires Paired(d)
    ensures Each(d, Span, cites).Done? <==> AllCitable(d, cites)
  {
    EachDoneIff(d, Span, cites);
    forall cite | cite in cites ensures Span(d, cite).Done? <==> Citable(d, cite) {
      SpanDoneIff(d, cite);
    }
  }

  lemma FirstClaimIsUnique(d: Desk, m: nat, n: nat, target: string)
    requires ClaimsFirst(d, m, target) && ClaimsFirst(d, n, target)
    ensures m == n
  {
  }

  /** A target resolves to the kind of the first namespace that claims it, at a version only if
      that is the book or a scene, and fails if that has no kind for it. */
  lemma ResolvesByFirstClaim(d: Desk, target: string, n: nat)
    requires Paired(d) && ClaimsFirst(d, n, target)
    ensures ResolveTarget(d, target).Done? <==> ClaimedKind(d, n, target).Some?
    ensures ResolveTarget(d, target).Done? ==>
      && ResolveTarget(d, target) == Done(Ref(d, target, ClaimedKind(d, n, target).value, ClaimedVersion(d, n, target)))
  {
    assert forall m: nat :: m < n ==> !Claims(d, m, target);
    assert n > 0 ==> !Claims(d, 0, target);
    assert n > 1 ==> !Claims(d, 1, target);
    assert n > 2 ==> !Claims(d, 2, target);
    assert n > 3 ==> !Claims(d, 3, target);
    assert n > 4 ==> !Claims(d, 4, target);
    assert n > 5 ==> !Claims(d, 5, target);
    assert n > 6 ==> !Claims(d, 6, target);
  }

  function ClaimedVersion(d: Desk, n: nat, target: string): Option<string>
    requires Paired(d) && Claims(d, n, target)
  {
    if n == 0 then Some(RevisionId(d)) else if n == 1 then Some(d.sceneVersion[target]) else None
  }

  lemma FirstClaim(d: Desk, target: string) returns (n: nat)
    ensures n < 8 ==> ClaimsFirst(d, n, target)
    ensures n == 8 ==> forall m: nat :: !Claims(d, m, target)
    ensures n <= 8
  {
    n := if Claims(d, 0, target) then 0 else if Claims(d, 1, target) then 1 else if Claims(d, 2, target) then 2
         else if Claims(d, 3, target) then 3 else if Claims(d, 4, target) then 4 else if Claims(d, 5, target) then 5
         else if Claims(d, 6, target) then 6 else if Claims(d, 7, target) then 7 else 8;
  }

  lemma ResolvesIff(d: Desk, target: string)
    requires Paired(d)
    ensures ResolveTarget(d, target).Done? <==> Resolvable(d, target)
  {
    var n := FirstClaim(d, target);
    if n < 8 {
      ResolvesByFirstClaim(d, target, n);
      if Resolvable(d, target) {
        var m: nat :| ClaimsFirst(d, m, target) && ClaimedKind(d, m, target).Some?;
        FirstClaimIsUnique(d, m, n, target);
      }
    } else {
      assert !Claims(d, 0, target) && !Claims(d, 1, target) && !Claims(d, 2, target) && !Claims(d, 3, target);
      assert !Claims(d, 4, target) && !Claims(d, 5, target) && !Claims(d, 6, target) && !Claims(d, 7, target);
    }
  }

  /** Every record kind but `unknown` has a resource kind, its own name or that with `state_`
      in front, whichever the contracts know. */
  lemma RecordKindsHaveResources(kind: string)
    requires kind in STATE_RECORD_KIND_VALUES
    ensures ResourceKindOf(kind).None? <==> kind == "unknown"
    ensures ResourceKindOf(kind).Some? ==>
      && ResourceKindOf(kind).value in RESOURCE_KIND_VALUES
      && (ResourceKindOf(kind).value == kind || ResourceKindOf(kind).value == "state_" + kind)
  {
  }

  lemma PlanDoneIff(d: Desk, p: Plan)
    ensures PlanItem(d, p).Done? <==> PlanIsOk(p)
  {
  }

  lemma RecordDoneIff(d: Desk, r: Record)
    requires Paired(d)
    ensures RecordOf(d, r).Done? <==> RecordIsOk(d, r)
  {
    SpansDoneIff(d, r.evidence);
  }

  lemma TargetsResolveIff(d: Desk, targets: seq<string>)
    requires Paired(d)
    ensures Each(d, ResolveTarget, targets).Done? <==> AllResolvable(d, targets)
  {
    EachDoneIff(d, ResolveTarget, targets);
    forall target | target in targets ensures ResolveTarget(d, target).Done? <==> Resolvable(d, target) {
      ResolvesIff(d, target);
    }
  }

  predicate FindingPartsDone(d: Desk, f: GoldFinding)
    requires Paired(d)
  {
    && Span(d, f.primary).Done? && Each(d, Span, f.supporting).Done?
    && Each(d, ResolveTarget, f.dependencies).Done?
  }

  lemma FindingNeedsParts(d: Desk, f: GoldFinding)
    requires Paired(d)
    ensures FindingOf(d, f).Done? <==>
      && Choose(FINDING_CATEGORY, f.category).Done? && Choose(FINDING_STATUS, f.status).Done?
      && Choose(SEVERITY, f.severity).Done? && FindingPartsDone(d, f)
  {
  }

  lemma FindingChoicesIff(f: GoldFinding)
    ensures FindingIsChosen(f) <==>
      && Choose(FINDING_CATEGORY, f.category).Done? && Choose(FINDING_STATUS, f.status).Done?
      && Choose(SEVERITY, f.severity).Done?
  {
  }

  lemma FindingPartsIff(d: Desk, f: GoldFinding)
    requires Paired(d)
    ensures FindingIsChosen(f) && FindingPartsDone(d, f) <==> FindingIsOk(d, f)
  {
    SpanDoneIff(d, f.primary);
    SpansDoneIff(d, f.supporting);
    TargetsResolveIff(d, f.dependencies);
  }

  lemma FindingDoneIff(d: Desk, f: GoldFinding)
    requires Paired(d)
    ensures FindingOf(d, f).Done? <==> FindingIsOk(d, f)
  {
    FindingNeedsParts(d, f);
    FindingChoicesIff(f);
    FindingPartsIff(d, f);
  }

  lemma TargetDoneIff(d: Desk, t: Target)
    requires Paired(d)
    ensures ContextTarget(d, t).Done? <==> TargetIsOk(d, t)
  {
    if t.quote.Some? {
      if t.scene.Some? { SpanDoneIff(d, Cite(t.scene.value, t.quote.value)); }
    } else if t.record.Some? || t.plan.Some? {
      ResolvesIff(d, if t.record.Some? then t.record.value else t.plan.value);
    }
  }

  lemma TargetsDoneIff(d: Desk, ts: seq<Target>)
    requires Paired(d)
    ensures Each(d, ContextTarget, ts).Done? <==> TargetsAreOk(d, ts)
  {
    EachDoneIff(d, ContextTarget, ts);
    forall t | t in ts ensures ContextTarget(d, t).Done? <==> TargetIsOk(d, t) {
      TargetDoneIff(d, t);
    }
  }

  predicate QueryPartsDone(d: Desk, q: Query)
    requires Paired(d)
  {
    && ResolveTarget(d, q.target).Done?
    && Each(d, ContextTarget, q.mandatory).Done? && Each(d, ContextTarget, q.forbidden).Done?
  }

  lemma QueryNeedsParts(d: Desk, q: Query)
    requires Paired(d)
    ensures ContextCase(d, q).Done? <==> Choose(CONTEXT_OPERATION, q.operation).Done? && QueryPartsDone(d, q)
  {
  }

  lemma QueryPartsIff(d: Desk, q: Query)
    requires Paired(d)
    ensures q.operation in CONTEXT_OPERATION_VALUES && QueryPartsDone(d, q) <==> QueryIsOk(d, q)
  {
    ResolvesIff(d, q.target);
    TargetsDoneIff(d, q.mandatory);
    TargetsDoneIff(d, q.forbidden);
  }

  lemma QueryDoneIff(d: Desk, q: Query)
    requires Paired(d)
    ensures ContextCase(d, q).Done? <==> QueryIsOk(d, q)
  {
    QueryNeedsParts(d, q);
    QueryPartsIff(d, q);
  }

  lemma OperationDoneIff(d: Desk, scenario: string, op: Operation)
    requires Paired(d)
    ensures OperationOf(d, scenario, op).Done? <==> OperationIsOk(d, op)
  {
    if IsQuoted(op) && op.scene.Some? {
      SpanDoneIff(d, Cite(op.scene.value, CitedText(op)));
    }
  }

  lemma OperationsDoneIff(d: Desk, scenario: string, ops: seq<Operation>)
    requires Paired(d)
    ensures Operations(d, scenario, ops).Done? <==> forall op :: op in ops ==> OperationIsOk(d, op)
  {
    EachDoneIff(Page(d, scenario), OperationOn, ops);
    forall op | op in ops ensures OperationOn(Page(d, scenario), op).Done? <==> OperationIsOk(d, op) {
      OperationDoneIff(d, scenario, op);
    }
  }

  lemma ChangesDoneIff(d: Desk, cs: seq<Change>)
    ensures Each(d, ChangeOf, cs).Done? <==> forall c :: c in cs ==> ChangeIsOk(c)
  {
    EachDoneIff(d, ChangeOf, cs);
    forall c | c in cs ensures ChangeOf(d, c).Done? <==> ChangeIsOk(c) {
    }
  }

  lemma ExpectationsDoneIff(d: Desk, es: seq<Expectation>)
    requires Paired(d)
    ensures Each(d, ExpectationOf, es).Done? <==> forall e :: e in es ==> ExpectationIsOk(d, e)
  {
    EachDoneIff(d, ExpectationOf, es);
    forall e | e in es ensures ExpectationOf(d, e).Done? <==> ExpectationIsOk(d, e) {
      ResolvesIff(d, e.target);
    }
  }

  lemma ScenarioDoneIff(d: Desk, s: Scenario)
    requires Paired(d)
    ensures ImpactCase(d, s).Done? <==> ScenarioIsOk(d, s)
  {
    OperationsDoneIff(d, s.id, s.operations);
    ChangesDoneIff(d, s.changes);
    ExpectationsDoneIff(d, s.expected);
  }

  // ---- artifact by artifact -------------------------------------------------------------------

  lemma PlansDoneIff(d: Desk)
    ensures Plans(d).Done? <==> forall p :: p in d.spec.plans ==> PlanIsOk(p)
  {
    EachDoneIff(d, PlanItem, d.spec.plans);
    forall p | p in d.spec.plans ensures PlanItem(d, p).Done? <==> PlanIsOk(p) {
      PlanDoneIff(d, p);
    }
  }

  lemma StateDoneIff(d: Desk)
    requires Paired(d)
    ensures State(d).Done? <==> forall r :: r in d.spec.records ==> RecordIsOk(d, r)
  {
    EachDoneIff(d, RecordOf, d.spec.records);
    forall r | r in d.spec.records ensures RecordOf(d, r).Done? <==> RecordIsOk(d, r) {
      RecordDoneIff(d, r);
    }
  }

  lemma FindingsDoneIff(d: Desk)
    requires Paired(d)
    ensures Findings(d).Done? <==> forall f :: f in d.spec.findings ==> FindingIsOk(d, f)
  {
    EachDoneIff(d, FindingOf, d.spec.findings);
    forall f | f in d.spec.findings ensures FindingOf(d, f).Done? <==> FindingIsOk(d, f) {
      FindingDoneIff(d, f);
    }
  }

  lemma ContextDoneIff(d: Desk)
    requires Paired(d)
    ensures ContextGold(d).Done? <==> forall q :: q in d.spec.queries ==> QueryIsOk(d, q)
  {
    EachDoneIff(d, ContextCase, d.spec.queries);
    forall q | q in d.spec.queries ensures ContextCase(d, q).Done? <==> QueryIsOk(d, q) {
      QueryDoneIff(d, q);
    }
  }

  lemma ImpactDoneIff(d: Desk)
    requires Paired(d)
    ensures ImpactGold(d).Done? <==> forall s :: s in d.spec.scenarios ==> ScenarioIsOk(d, s)
  {
    EachDoneIff(d, ImpactCase, d.spec.scenarios);
    forall s | s in d.spec.scenarios ensures ImpactCase(d, s).Done? <==> ScenarioIsOk(d, s) {
      ScenarioDoneIff(d, s);
    }
  }

  // ---- which error ------------------------------------------------------------------------------

  function ErrorOf<T>(r: Built<T>): Option<BuildError> {
    if r.Failed? then Some(r.error) else None
  }

  /** A citation fails for its scene, or else for how often its quote can be found without
      overlap. */
  lemma SpanFailsFor(d: Desk, cite: Cite)
    requires Paired(d) && Span(d, cite).Failed?
    ensures cite.scene !in d.sceneText ==> Span(d, cite).error == UnknownScene(cite.scene)
    ensures cite.scene in d.sceneText ==>
      && Count(d.sceneText[cite.scene], cite.quote) != 1
      && Span(d, cite).error == QuoteCount(cite.scene, cite.quote, Count(d.sceneText[cite.scene], cite.quote))
  {
  }

  /** A target fails for want of a resource kind when some namespace claims it, and otherwise for
      want of a namespace. */
  lemma ResolveFailsFor(d: Desk, target: string)
    requires Paired(d) && ResolveTarget(d, target).Failed?
    ensures ResolveTarget(d, target).error
         == if exists n: nat :: Claims(d, n, target) then NoResourceKind(target) else CannotResolve(target)
  {
    var n := FirstClaim(d, target);
    if n < 8 {
      ResolvesByFirstClaim(d, target, n);
    } else {
      assert !Claims(d, 0, target) && !Claims(d, 1, target) && !Claims(d, 2, target) && !Claims(d, 3, target);
      assert !Claims(d, 4, target) && !Claims(d, 5, target) && !Claims(d, 6, target) && !Claims(d, 7, target);
    }
  }

  /** A context target fails for its citation, a citation without a scene for that; without a
      citation it fails for what it names, and naming nothing, for that. */
  lemma TargetFailsFor(d: Desk, t: Target)
    requires Paired(d)
    ensures ErrorOf(ContextTarget(d, t)) ==
      if t.quote.Some? && t.scene.None? then Some(MissingKey("scene"))
      else if t.quote.Some? then ErrorOf(Span(d, Cite(t.scene.value, t.quote.value)))
      else if t.record.Some? then ErrorOf(ResolveTarget(d, t.record.value))
      else if t.plan.Some? then ErrorOf(ResolveTarget(d, t.plan.value))
      else Some(UnsupportedTarget(t.reason))
  {
  }

  /** Where the first error stands, or the length when there is none. */
  function FirstFault(errors: seq<Option<BuildError>>): (n: nat)
    ensures n <= |errors| && forall m :: 0 <= m < n ==> errors[m].None?
    ensures n < |errors| ==> errors[n].Some?
  {
    if errors == [] || errors[0].Some? then 0 else 1 + FirstFault(errors[1..])
  }

  lemma FirstFaultIs(errors: seq<Option<BuildError>>, n: nat)
    requires n <= |errors| && (forall m :: 0 <= m < n ==> errors[m].None?) && (n < |errors| ==> errors[n].Some?)
    ensures FirstFault(errors) == n
  {
  }

  /** `r` reports the first error of some checks made in order. */
  predicate Reports<T>(r: Built<T>, errors: seq<Option<BuildError>>) {
    var n := FirstFault(errors);
    ErrorOf(r) == if n < |errors| then errors[n] else None
  }

  /** A record fails for its kind, authority and evidence, in that order. */
  lemma RecordFailsFor(d: Desk, r: Record)
    requires Paired(d)
    ensures Reports(RecordOf(d, r), [
      ErrorOf(Choose(STATE_RECORD_KIND, r.kind)), ErrorOf(Choose(STATE_AUTHORITY, r.authority)),
      ErrorOf(Each(d, Span, r.evidence))])
  {
    var errors := [
      ErrorOf(Choose(STATE_RECORD_KIND, r.kind)), ErrorOf(Choose(STATE_AUTHORITY, r.authority)),
      ErrorOf(Each(d, Span, r.evidence))];
    FirstFaultIs(errors, if errors[0].Some? then 0 else if errors[1].Some? then 1 else if errors[2].Some? then 2
                 else 3);
  }

  /** A finding fails for its category, status, severity, spans and dependencies, in that order. */
  lemma FindingFailsFor(d: Desk, f: GoldFinding)
    requires Paired(d)
    ensures Reports(FindingOf(d, f), [
      ErrorOf(Choose(FINDING_CATEGORY, f.category)), ErrorOf(Choose(FINDING_STATUS, f.status)),
      ErrorOf(Choose(SEVERITY, f.severity)), ErrorOf(Span(d, f.primary)), ErrorOf(Each(d, Span, f.supporting)),
      ErrorOf(Each(d, ResolveTarget, f.dependencies))])
  {
    var errors := [
      ErrorOf(Choose(FINDING_CATEGORY, f.category)), ErrorOf(Choose(FINDING_STATUS, f.status)),
      ErrorOf(Choose(SEVERITY, f.severity)), ErrorOf(Span(d, f.primary)), ErrorOf(Each(d, Span, f.supporting)),
      ErrorOf(Each(d, ResolveTarget, f.dependencies))];
    FirstFaultIs(errors, if errors[0].Some? then 0 else if errors[1].Some? then 1 else if errors[2].Some? then 2
                 else if errors[3].Some? then 3 else if errors[4].Some? then 4 else if errors[5].Some? then 5
                 else 6);
  }

  /** A context case fails for its operation, target, mandatory and forbidden targets, in that
      order. */
  lemma QueryFailsFor(d: Desk, q: Query)
    requires Paired(d)
    ensures Reports(ContextCase(d, q), [
      ErrorOf(Choose(CONTEXT_OPERATION, q.operation)), ErrorOf(ResolveTarget(d, q.target)),
      ErrorOf(Each(d, ContextTarget, q.mandatory)), ErrorOf(Each(d, ContextTarget, q.forbidden))])
  {
    var errors := [
      ErrorOf(Choose(CONTEXT_OPERATION, q.operation)), ErrorOf(ResolveTarget(d, q.target)),
      ErrorOf(Each(d, ContextTarget, q.mandatory)), ErrorOf(Each(d, ContextTarget, q.forbidden))];
    FirstFaultIs(errors, if errors[0].Some? then 0 else if errors[1].Some? then 1 else if errors[2].Some? then 2
                 else if errors[3].Some? then 3 else 4);
  }

  /** An operation fails for its kind, and one with a quote then for its scene and citation. */
  lemma OperationFailsFor(d: Desk, scenario: string, op: Operation)
    requires Paired(d)
    ensures Reports(OperationOf(d, scenario, op), [
      ErrorOf(Choose(CHANGE_OP_KIND, op.kind)),
      if !IsQuoted(op) then None else if op.scene.None? then Some(MissingKey("scene"))
      else ErrorOf(Span(d, Cite(op.scene.value, CitedText(op))))])
  {
    var errors := [
      ErrorOf(Choose(CHANGE_OP_KIND, op.kind)),
      if !IsQuoted(op) then None else if op.scene.None? then Some(MissingKey("scene"))
      else ErrorOf(Span(d, Cite(op.scene.value, CitedText(op))))];
    FirstFaultIs(errors, if errors[0].Some? then 0 else if errors[1].Some? then 1 else 2);
  }

  /** An impact case fails for its operations, extracted changes and expectations, in that order. */
  lemma ScenarioFailsFor(d: Desk, s: Scenario)
    requires Paired(d)
    ensures Reports(ImpactCase(d, s), [
      ErrorOf(Operations(d, s.id, s.operations)), ErrorOf(Each(d, ChangeOf, s.changes)),
      ErrorOf(Each(d, ExpectationOf, s.expected))])
  {
    var errors := [
      ErrorOf(Operations(d, s.id, s.operations)), ErrorOf(Each(d, ChangeOf, s.changes)),
      ErrorOf(Each(d, ExpectationOf, s.expected))];
    FirstFaultIs(errors, if errors[0].Some? then 0 else if errors[1].Some? then 1 else if errors[2].Some? then 2
                 else 3);
  }

  // ---- the build ---------------------------------------------------------------------------------

  /** A build succeeds exactly when its annotations are acceptable. */
  lemma BuildSucceedsIff(d: Desk)
    requires Loaded(d)
    ensures Payloads(d).Done? <==> SpecIsOk(d)
  {
    PlansDoneIff(d);
    StateDoneIff(d);
    FindingsDoneIff(d);
    ContextDoneIff(d);
    ImpactDoneIff(d);
  }

  /** The errors of the artifacts that can fail, in the order they are built. */
  function StageErrors(d: Desk): (errors: seq<Option<BuildError>>)
    requires Paired(d)
    ensures |errors| == 5
  {
    [ErrorOf(Plans(d)), ErrorOf(State(d)), ErrorOf(Findings(d)), ErrorOf(ContextGold(d)), ErrorOf(ImpactGold(d))]
  }

  lemma AssemblySteps(d: Desk)
    requires Loaded(d)
    ensures ErrorOf(Payloads(d)) ==
      if Plans(d).Failed? then ErrorOf(Plans(d)) else if State(d).Failed? then ErrorOf(State(d))
      else if Findings(d).Failed? then ErrorOf(Findings(d)) else if ContextGold(d).Failed? then ErrorOf(ContextGold(d))
      else ErrorOf(ImpactGold(d))
  {
  }

  lemma FirstOfFive<T>(r: Built<T>, errors: seq<Option<BuildError>>)
    requires |errors| == 5
    requires ErrorOf(r) == if errors[0].Some? then errors[0] else if errors[1].Some? then errors[1]
      else if errors[2].Some? then errors[2] else if errors[3].Some? then errors[3] else errors[4]
    ensures Reports(r, errors)
  {
    FirstFaultIs(errors, if errors[0].Some? then 0 else if errors[1].Some? then 1 else if errors[2].Some? then 2
                 else if errors[3].Some? then 3 else if errors[4].Some? then 4 else 5);
  }

  /** It fails for the first artifact that does: plans, state, findings, context and impact suite. */
  lemma BuildFailsFor(d: Desk)
    requires Loaded(d)
    ensures Reports(Payloads(d), StageErrors(d))
  {
    AssemblySteps(d);
    FirstOfFive(Payloads(d), StageErrors(d));
  }
}
