/** What a successful build promises about the six artifacts together. */
module FixtureResults {
  import opened JsonValues
  import opened Catalogues
  import opened Serde
  import opened Options
  import opened Texts
  import opened Occurrences
  import opened Shipped
  import opened FixtureSpec
  import opened FixtureBuild
  import opened FixtureAttributes
  import opened FixtureLaws
  import opened FixtureTypes
  import opened FixtureOperations
  import Library
  import LibraryIsGood
  import RoundTrip
  import SchemaGen
  import Validation
  import VersionGate

  // ---- the library ------------------------------------------------------------------------

  lemma CompleteShips(c: Catalogue)
    requires LibraryIsGood.Complete(c)
    ensures Ships(c)
  {
    forall x: Id ensures ShipsOne(c, x) {
      assert LibraryIsGood.HoldsOne(c, x);
    }
  }

  /** The results below hold of any catalogue that ships the artifacts' types; the library's
      own is one. */
  lemma LibraryQualifies()
    ensures Ships(Library.LIBRARY) && SchemaReady(Library.LIBRARY)
  {
    LibraryIsGood.LibraryIsComplete();
    LibraryIsGood.LibraryIsReady();
    CompleteShips(Library.LIBRARY);
  }

  lemma LibraryShips() returns (c: Catalogue)
    ensures Ships(c) && SchemaReady(c)
  {
    LibraryQualifies();
    c := Library.LIBRARY;
  }

  // ---- quotes ----------------------------------------------------------------------------

  /** The builder accepts a citation exactly when its scene is known and the quote occurs
      there, any two of its occurrences overlapping; the documented "exactly once" is
      sufficient, and for a quote without a proper border necessary too. */
  lemma SpanAcceptsIff(d: Desk, cite: Cite)
    requires Paired(d)
    ensures Span(d, cite).Done? <==>
      && cite.scene in d.sceneText
      && (exists i: nat :: OccursAt(d.sceneText[cite.scene], cite.quote, i))
      && (forall i: nat, k: nat ::
            OccursAt(d.sceneText[cite.scene], cite.quote, i) && OccursAt(d.sceneText[cite.scene], cite.quote, k) ==>
            i == k || Overlap(cite.quote, i, k))
    ensures cite.scene in d.sceneText && OccursOnce(d.sceneText[cite.scene], cite.quote) ==> Span(d, cite).Done?
    ensures Span(d, cite).Done? && !HasBorder(cite.quote) ==> OccursOnce(d.sceneText[cite.scene], cite.quote)
    ensures cite.quote == "" ==> (Span(d, cite).Done? <==> cite.scene in d.sceneText && d.sceneText[cite.scene] == "")
  {
    if cite.scene in d.sceneText {
      CountedOnceIff(d.sceneText[cite.scene], cite.quote);
      if Span(d, cite).Done? && !HasBorder(cite.quote) {
        BorderlessOccursOnce(d.sceneText[cite.scene], cite.quote);
      }
    }
  }

  // ---- citations and types -------------------------------------------------------------

  /** The six artifacts are well typed; at any depth, every evidence span in them resolves in
      the manuscript's nodes, and every reference and change operation is the builder's own. */
  ghost predicate Sound(c: Catalogue, g: Ground, a: Artifacts) {
    && Attr(a.manuscript, "nodes") == VList(g.nodes)
    && Fine(c, g, TData(MANUSCRIPT_REVISION), a.manuscript) && Fine(c, g, TData(PLAN_SNAPSHOT), a.plans)
    && Fine(c, g, TData(STATE_SNAPSHOT), a.state) && Fine(c, g, TData(EVALUATION_ARTIFACT), a.findings)
    && Fine(c, g, TData(GOLD_CONTEXT_SUITE), a.contextGold) && Fine(c, g, TData(GOLD_IMPACT_SUITE), a.impactGold)
  }

  lemma ManuscriptNodes(d: Desk)
    requires Loaded(d)
    ensures Attr(Manuscript(d), "nodes") == VList(GroundOf(d).nodes)
  {
    ManuscriptHolds(d, Meta(d, "manuscript_revision", "r1"), Nodes(d, d.spec.scenes));
  }

  lemma AssembledIsSound(c: Catalogue, d: Desk)
    requires Ships(c) && Stocked(d) && Assemble(d).Done?
    ensures Sound(c, GroundOf(d), Assemble(d).value)
  {
    ManuscriptNodes(d);
    ManuscriptIsFine(c, GroundOf(d), d);
    PlansAreFine(c, GroundOf(d), d);
    StateIsFine(c, d);
    FindingsAreFine(c, d);
    ContextGoldIsFine(c, d);
    ImpactGoldIsFine(c, d);
  }

  /** Whatever the annotations and the prose: if the build succeeds, its artifacts are sound. */
  lemma BuildIsSound(c: Catalogue, h: Digests, spec: Spec)
    requires Ships(c)
    ensures Loaded(Opened(h, spec))
    ensures Assemble(Opened(h, spec)).Done? ==>
      Sound(c, GroundOf(Opened(h, spec)), Assemble(Opened(h, spec)).value)
    ensures forall op :: op in GroundOf(Opened(h, spec)).ops ==> ChangeResolves(GroundOf(Opened(h, spec)), op)
  {
    OpenedIsStocked(h, spec);
    forall op | op in GroundOf(Opened(h, spec)).ops ensures ChangeResolves(GroundOf(Opened(h, spec)), op) {
      BuiltResolves(Opened(h, spec), op);
    }
    if Assemble(Opened(h, spec)).Done? {
      AssembledIsSound(c, Opened(h, spec));
    }
  }

  /** A scene node's hash is that of its content, and its version is named by the fixture,
      the scene and that hash. */
  predicate Stamped(h: Digests, fixtureId: string, node: Value) {
    var id, content := Attr(node, "logical_id"), Attr(node, "content");
    && id.VStr? && content.VStr?
    && Attr(node, "content_sha256") == VStr(h.sha(content.s))
    && Attr(node, "version_id") == VStr(DetId(h, [fixtureId, id.s, h.sha(content.s)]))
  }

  /** Every node after the book is stamped, even when scenes share an id: all of them then
      carry the last one's prose and version. */
  lemma SceneNodesAreStamped(h: Digests, spec: Spec, x: nat)
    requires Loaded(Opened(h, spec)) && 0 < x < |GroundOf(Opened(h, spec)).nodes|
    ensures Stamped(h, spec.fixtureId, GroundOf(Opened(h, spec)).nodes[x])
  {
    NodePresents(Opened(h, spec), spec.scenes, x - 1);
    var y := OpenedTexts(h, spec.fixtureId, spec.scenes, spec.scenes[x - 1].id);
  }

  // ---- fixed points ----------------------------------------------------------------------

  /** The payload of `v` passes the version gate, parses back to `v`, and validates against
      the schema generated for its class. */
  ghost predicate Survives(c: Catalogue, k: Id, v: Value, floatText: real -> string) {
    && k in c.classes
    && VersionGate.ParseArtifact(c, TData(k), Encode(v), floatText) == VersionGate.Parsed(v)
    && Validation.Validates(SchemaGen.DocumentOf(c, k), Encode(v))
  }

  /** The classes of the artifacts: those whose first field is the envelope. */
  predicate Enveloped(k: Id) {
    && CLASSES_FROM <= k < IDS
    && |FieldsOf(k)| > 0
    && FieldsOf(k)[0] == Need("meta", TData(ARTIFACT_META))
  }

  lemma EnvelopeCarriesMeta(c: Catalogue, k: Id)
    requires Ships(c) && Enveloped(k)
    ensures VersionGate.CarriesMeta(c, k, ARTIFACT_META)
  {
    assert ShipsOne(c, k) && ShipsOne(c, ARTIFACT_META);
    assert ARTIFACT_META_FIELDS[0].name == "schema_version";
  }

  lemma StampedVersion(d: Desk, kind: string, name: string, k: Id, slots: seq<Slot>)
    requires |slots| > 0 && slots[0] == Slot("meta", Meta(d, kind, name))
    ensures VersionGate.VersionOf(VData(k, slots)) == VStr(VersionGate.SCHEMA_VERSION)
  {
    AttrAt(k, slots, 0);
    MetaHead(d, kind, name);
  }

  lemma StampedSurvives(c: Catalogue, d: Desk, kind: string, name: string, k: Id, v: Value, floatText: real -> string)
    requires Ships(c) && SchemaReady(c) && Enveloped(k) && HasType(c, TData(k), v)
    requires |v.slots| > 0 && v.slots[0] == Slot("meta", Meta(d, kind, name))
    ensures Survives(c, k, v, floatText)
  {
    EnvelopeCarriesMeta(c, k);
    StampedVersion(d, kind, name, k, v.slots);
    VersionGate.LibraryMajor();
    VersionGate.ArtifactRoundTripsIff(c, k, ARTIFACT_META, v, floatText);
    RoundTrip.RoundTrips(c, TData(k), v);
    Validation.RewrittenPayloadValidates(c, k, Encode(v));
  }

  lemma ManuscriptValueSurvives(c: Catalogue, g: Ground, d: Desk, nodes: seq<Value>, floatText: real -> string)
    requires Ships(c) && SchemaReady(c)
    requires Fine(c, g, TData(MANUSCRIPT_REVISION), ManuscriptValue(d, Meta(d, "manuscript_revision", "r1"), nodes))
    ensures Survives(c, MANUSCRIPT_REVISION, ManuscriptValue(d, Meta(d, "manuscript_revision", "r1"), nodes), floatText)
  {
    StampedSurvives(c, d, "manuscript_revision", "r1", MANUSCRIPT_REVISION,
                    ManuscriptValue(d, Meta(d, "manuscript_revision", "r1"), nodes), floatText);
  }

  lemma ManuscriptSurvives(c: Catalogue, d: Desk, floatText: real -> string)
    requires Ships(c) && SchemaReady(c) && Loaded(d)
    ensures Survives(c, MANUSCRIPT_REVISION, Manuscript(d), floatText)
  {
    ManuscriptIsFine(c, GroundOf(d), d);
    ManuscriptValueSurvives(c, GroundOf(d), d, Nodes(d, d.spec.scenes), floatText);
  }

  lemma PlansValueSurvives(c: Catalogue, g: Ground, d: Desk, items: seq<Value>, floatText: real -> string)
    requires Ships(c) && SchemaReady(c)
    requires Fine(c, g, TData(PLAN_SNAPSHOT), PlansValue(d, Meta(d, "plan_snapshot", "r1"), items))
    ensures Survives(c, PLAN_SNAPSHOT, PlansValue(d, Meta(d, "plan_snapshot", "r1"), items), floatText)
  {
    StampedSurvives(c, d, "plan_snapshot", "r1", PLAN_SNAPSHOT, PlansValue(d, Meta(d, "plan_snapshot", "r1"), items),
                    floatText);
  }

  lemma PlansSurvive(c: Catalogue, d: Desk, floatText: real -> string)
    requires Ships(c) && SchemaReady(c) && Stocked(d) && Plans(d).Done?
    ensures Survives(c, PLAN_SNAPSHOT, Plans(d).value, floatText)
  {
    PlansAreFine(c, GroundOf(d), d);
    PlansValueSurvives(c, GroundOf(d), d, Each(d, PlanItem, d.spec.plans).value, floatText);
  }

  lemma StateValueSurvives(c: Catalogue, g: Ground, d: Desk, records: seq<Value>, floatText: real -> string)
    requires Ships(c) && SchemaReady(c)
    requires Fine(c, g, TData(STATE_SNAPSHOT), StateValue(d, Meta(d, "state_snapshot", "r1"), records))
    ensures Survives(c, STATE_SNAPSHOT, StateValue(d, Meta(d, "state_snapshot", "r1"), records), floatText)
  {
    StampedSurvives(c, d, "state_snapshot", "r1", STATE_SNAPSHOT,
                    StateValue(d, Meta(d, "state_snapshot", "r1"), records), floatText);
  }

  lemma StateSurvives(c: Catalogue, d: Desk, floatText: real -> string)
    requires Ships(c) && SchemaReady(c) && Stocked(d) && State(d).Done?
    ensures Survives(c, STATE_SNAPSHOT, State(d).value, floatText)
  {
    StateIsFine(c, d);
    StateValueSurvives(c, GroundOf(d), d, Each(d, RecordOf, d.spec.records).value, floatText);
  }

  lemma EvaluationSurvives(c: Catalogue, g: Ground, d: Desk, findings: seq<Value>, floatText: real -> string)
    requires Ships(c) && SchemaReady(c)
    requires Fine(c, g, TData(EVALUATION_ARTIFACT),
                  EvaluationValue(d, Meta(d, "evaluation_artifact", "gold"), findings))
    ensures Survives(c, EVALUATION_ARTIFACT, EvaluationValue(d, Meta(d, "evaluation_artifact", "gold"), findings),
                     floatText)
  {
    StampedSurvives(c, d, "evaluation_artifact", "gold", EVALUATION_ARTIFACT,
                    EvaluationValue(d, Meta(d, "evaluation_artifact", "gold"), findings), floatText);
  }

  lemma FindingsSurvive(c: Catalogue, d: Desk, floatText: real -> string)
    requires Ships(c) && SchemaReady(c) && Stocked(d) && Findings(d).Done?
    ensures Survives(c, EVALUATION_ARTIFACT, Findings(d).value, floatText)
  {
    FindingsAreFine(c, d);
    EvaluationSurvives(c, GroundOf(d), d, Each(d, FindingOf, d.spec.findings).value, floatText);
  }

  lemma SuitesAreEnveloped()
    ensures Enveloped(GOLD_CONTEXT_SUITE) && Enveloped(GOLD_IMPACT_SUITE)
  {
  }

  lemma SuiteSurvives(c: Catalogue, g: Ground, d: Desk, k: Id, kind: string, cases: seq<Value>,
                      floatText: real -> string)
    requires Ships(c) && SchemaReady(c) && Enveloped(k)
    requires Fine(c, g, TData(k), SuiteValue(d, k, Meta(d, kind, "r1"), cases))
    ensures Survives(c, k, SuiteValue(d, k, Meta(d, kind, "r1"), cases), floatText)
  {
    StampedSurvives(c, d, kind, "r1", k, SuiteValue(d, k, Meta(d, kind, "r1"), cases), floatText);
  }

  lemma ContextGoldSurvives(c: Catalogue, d: Desk, floatText: real -> string)
    requires Ships(c) && SchemaReady(c) && Stocked(d) && ContextGold(d).Done?
    ensures Survives(c, GOLD_CONTEXT_SUITE, ContextGold(d).value, floatText)
  {
    ContextGoldIsFine(c, d);
    SuitesAreEnveloped();
    SuiteSurvives(c, GroundOf(d), d, GOLD_CONTEXT_SUITE, "gold_context_suite",
                  Each(d, ContextCase, d.spec.queries).value, floatText);
  }

  lemma ImpactGoldSurvives(c: Catalogue, d: Desk, floatText: real -> string)
    requires Ships(c) && SchemaReady(c) && Stocked(d) && ImpactGold(d).Done?
    ensures Survives(c, GOLD_IMPACT_SUITE, ImpactGold(d).value, floatText)
  {
    ImpactGoldIsFine(c, d);
    SuitesAreEnveloped();
    SuiteSurvives(c, GroundOf(d), d, GOLD_IMPACT_SUITE, "gold_impact_suite",
                  Each(d, ImpactCase, d.spec.scenarios).value, floatText);
  }

  ghost predicate AllSurvive(c: Catalogue, a: Artifacts, floatText: real -> string) {
    && Survives(c, MANUSCRIPT_REVISION, a.manuscript, floatText) && Survives(c, PLAN_SNAPSHOT, a.plans, floatText)
    && Survives(c, STATE_SNAPSHOT, a.state, floatText) && Survives(c, EVALUATION_ARTIFACT, a.findings, floatText)
    && Survives(c, GOLD_CONTEXT_SUITE, a.contextGold, floatText)
    && Survives(c, GOLD_IMPACT_SUITE, a.impactGold, floatText)
  }

  lemma AssembledSurvives(c: Catalogue, d: Desk, floatText: real -> string)
    requires Ships(c) && SchemaReady(c) && Stocked(d) && Assemble(d).Done?
    ensures AllSurvive(c, Assemble(d).value, floatText)
  {
    ManuscriptSurvives(c, d, floatText);
    PlansSurvive(c, d, floatText);
    StateSurvives(c, d, floatText);
    FindingsSurvive(c, d, floatText);
    ContextGoldSurvives(c, d, floatText);
    ImpactGoldSurvives(c, d, floatText);
  }

  /** Every artifact of a successful build is a fixed point of reading and writing. */
  lemma BuildSurvives(c: Catalogue, h: Digests, spec: Spec, floatText: real -> string)
    requires Ships(c) && SchemaReady(c)
    ensures Loaded(Opened(h, spec))
    ensures Assemble(Opened(h, spec)).Done? ==> AllSurvive(c, Assemble(Opened(h, spec)).value, floatText)
  {
    OpenedIsStocked(h, spec);
    if Assemble(Opened(h, spec)).Done? {
      AssembledSurvives(c, Opened(h, spec), floatText);
    }
  }

  // ---- positions ---------------------------------------------------------------------------

  lemma BookKey(d: Desk)
    ensures Attr(BookNode(d), "position_key") == VStr(PositionKey(0))
  {
    AttrAt(MANUSCRIPT_NODE, BookNode(d).slots, 2);
    assert Zeros(2) == "00";
  }

  lemma {:induction false} NodeKey(d: Desk, scenes: seq<Scene>, x: nat)
    requires Paired(d) && (forall s :: s in scenes ==> s.id in d.sceneText) && x <= |scenes|
    ensures Attr(Nodes(d, scenes)[x], "position_key") == VStr(PositionKey(x))
  {
    if |scenes| == 0 {
      BookKey(d);
    } else if x < |scenes| {
      NodeKey(d, scenes[..|scenes| - 1], x);
    } else {
      SceneNodePresents(d, scenes[x - 1], x);
    }
  }

  /** No two nodes of a manuscript share a position key, however many scenes there are. */
  lemma PositionKeysAreDistinct(d: Desk, x: nat, y: nat)
    requires Loaded(d) && x < |GroundOf(d).nodes| && y < |GroundOf(d).nodes| && x != y
    ensures Attr(GroundOf(d).nodes[x], "position_key") != Attr(GroundOf(d).nodes[y], "position_key")
  {
    NodeKey(d, d.spec.scenes, x);
    NodeKey(d, d.spec.scenes, y);
    NumberOfPadded(10 * x);
    NumberOfPadded(10 * y);
  }

  lemma DecimalDigits(n: nat)
    requires n < 1000
    ensures n < 10 ==> Decimal(n) == [Digit(n)]
    ensures 10 <= n < 100 ==> Decimal(n) == [Digit(n / 10), Digit(n % 10)]
    ensures 100 <= n ==> Decimal(n) == [Digit(n / 100), Digit(n / 10 % 10), Digit(n % 10)]
  {
    if 10 <= n {
      assert Decimal(n) == Decimal(n / 10) + [Digit(n % 10)];
      if n < 100 {
        assert Decimal(n / 10) == [Digit(n / 10)];
      } else {
        assert n / 10 / 10 == n / 100;
        assert Decimal(n / 100) == [Digit(n / 100)];
        assert Decimal(n / 10) == Decimal(n / 100) + [Digit(n / 10 % 10)];
      }
    }
  }

  lemma PaddedDigits(n: nat)
    requires n < 1000
    ensures Padded(n) == [Digit(n / 100), Digit(n / 10 % 10), Digit(n % 10)]
  {
    DecimalDigits(n);
    assert Zeros(1) == "0" && Zeros(2) == "00";
    if n < 10 {
      assert n / 100 == 0 && n / 10 % 10 == 0;
    } else if n < 100 {
      assert n / 100 == 0 && n / 10 % 10 == n / 10;
    }
  }

  lemma ThreeAscend(a: nat, b: nat, c: nat, x: nat, y: nat, z: nat)
    requires a < 10 && b < 10 && c < 10 && x < 10 && y < 10 && z < 10
    requires a < x || (a == x && (b < y || (b == y && c < z)))
    ensures Less([Digit(a), Digit(b), Digit(c)], [Digit(x), Digit(y), Digit(z)])
  {
    var s, t := [Digit(a), Digit(b), Digit(c)], [Digit(x), Digit(y), Digit(z)];
    assert s[1..] == [Digit(b), Digit(c)] && t[1..] == [Digit(y), Digit(z)];
    assert s[1..][1..] == [Digit(c)] && t[1..][1..] == [Digit(z)];
  }

  lemma DigitsOf(n: nat)
    requires n < 1000
    ensures n / 100 < 10 && n == 100 * (n / 100) + 10 * (n / 10 % 10) + n % 10
  {
  }

  lemma PaddedAscends(m: nat, n: nat)
    requires m < n < 1000
    ensures Less(Padded(m), Padded(n))
  {
    PaddedDigits(m);
    PaddedDigits(n);
    DigitsOf(m);
    DigitsOf(n);
    var a, b, c, x, y, z := m / 100, m / 10 % 10, m % 10, n / 100, n / 10 % 10, n % 10;
    ThreeAscend(a, b, c, x, y, z);
  }

  lemma PaddedWraps()
    ensures Padded(990) == "990" && Padded(1000) == "1000" && !Less(Padded(990), Padded(1000))
  {
    PaddedDigits(990);
    assert Decimal(100) == Decimal(10) + "0" && Decimal(10) == Decimal(1) + "0";
  }

  predicate KeyedBefore(a: Value, b: Value) {
    var m, n := Attr(a, "position_key"), Attr(b, "position_key");
    m.VStr? && n.VStr? && Less(m.s, n.s)
  }

  /** The nodes are in code-point order of their position keys. */
  predicate KeysAscend(nodes: seq<Value>) {
    forall x, y :: 0 <= x < y < |nodes| ==> KeyedBefore(nodes[x], nodes[y])
  }

  /** Sorting a manuscript by position key restores its order exactly up to 99 scenes. */
  lemma PositionKeysAscendIff(d: Desk)
    requires Loaded(d)
    ensures KeysAscend(GroundOf(d).nodes) <==> |d.spec.scenes| <= 99
  {
    var nodes := GroundOf(d).nodes;
    if |d.spec.scenes| <= 99 {
      forall x, y | 0 <= x < y < |nodes| ensures KeyedBefore(nodes[x], nodes[y]) {
        NodeKey(d, d.spec.scenes, x);
        NodeKey(d, d.spec.scenes, y);
        PaddedAscends(10 * x, 10 * y);
      }
    } else {
      NodeKey(d, d.spec.scenes, 99);
      NodeKey(d, d.spec.scenes, 100);
      PaddedWraps();
      assert !KeyedBefore(nodes[99], nodes[100]);
    }
  }

  // ---- finding scopes -------------------------------------------------------------------------

  predicate Cites(span: Value, scene: string) {
    Attr(Attr(span, "source"), "logical_id") == VStr(scene)
  }

  /** A scene is cited by the finding's primary span or by one of its supporting spans. */
  ghost predicate CitedBy(finding: Value, scene: string) {
    var supporting := Attr(finding, "supporting_evidence");
    Cites(Attr(finding, "primary_span"), scene) ||
    (supporting.VList? && exists x :: 0 <= x < |supporting.items| && Cites(supporting.items[x], scene))
  }

  lemma SpanCites(d: Desk, cite: Cite)
    requires Paired(d) && Span(d, cite).Done?
    ensures forall u :: Cites(Span(d, cite).value, u) <==> u == cite.scene
  {
    var start := SpanDelimits(d, cite);
    DelimitedCites(d, cite.scene, start, start + |cite.quote|, Span(d, cite).value);
  }

  lemma DelimitedCites(d: Desk, scene: string, start: nat, end: nat, span: Value)
    requires Paired(d) && Delimits(d, scene, start, end, span)
    ensures forall u :: Cites(span, u) <==> u == scene
  {
    SpanHolds(SceneRef(d, scene), start, end, d.h.sha(d.sceneText[scene][start..end]));
    RefHolds(d, scene, "manuscript_scene", Some(d.sceneVersion[scene]));
  }

  function ScenesOf(cites: seq<Cite>): set<string> {
    set q | q in cites :: q.scene
  }

  lemma BuiltFindingReads(d: Desk, f: GoldFinding)
    requires Paired(d) && FindingOf(d, f).Done?
    ensures var v := FindingOf(d, f).value;
      && Attr(v, "status") == VEnum(FINDING_STATUS, f.status)
      && Attr(v, "suggested_action") == VEnum(SUGGESTED_ACTION, SuggestedAction(f.status))
      && Attr(v, "scope") == ScopeValue(d, f)
      && Attr(v, "primary_span") == Span(d, f.primary).value
      && Attr(v, "supporting_evidence") == VList(Each(d, Span, f.supporting).value)
  {
    FindingParts(d, f);
    var category, status := VEnum(FINDING_CATEGORY, f.category), VEnum(FINDING_STATUS, f.status);
    var severity, primary := VEnum(SEVERITY, f.severity), Span(d, f.primary).value;
    var supporting, dependencies := Each(d, Span, f.supporting).value, Each(d, ResolveTarget, f.dependencies).value;
    FindingHead(d, f, category, status, severity, primary, supporting, dependencies);
    FindingMiddle(d, f, category, status, severity, primary, supporting, dependencies);
    FindingTail(d, f, category, status, severity, primary, supporting, dependencies);
  }

  lemma SpansCite(d: Desk, cites: seq<Cite>, u: string)
    requires Paired(d) && Each(d, Span, cites).Done?
    ensures (exists x :: 0 <= x < |cites| && Cites(Each(d, Span, cites).value[x], u)) <==> u in ScenesOf(cites)
  {
    forall x | 0 <= x < |cites| ensures Cites(Each(d, Span, cites).value[x], u) <==> cites[x].scene == u {
      EachAt(d, Span, cites, x);
      SpanCites(d, cites[x]);
    }
  }

  lemma CitedScenesAre(f: GoldFinding, u: string)
    ensures u in CitedScenes(f) <==> u == f.primary.scene || u in ScenesOf(f.supporting)
  {
    var all := CitedScenes(f);
    assert all[0] == f.primary.scene;
    assert forall x :: 0 <= x < |f.supporting| ==> all[x + 1] == f.supporting[x].scene;
  }

  lemma BuiltScope(d: Desk, f: GoldFinding)
    requires Paired(d) && FindingOf(d, f).Done?
    ensures Attr(Attr(FindingOf(d, f).value, "scope"), "scene_ids") == Strs(SceneIds(f))
  {
    BuiltFindingReads(d, f);
    ScopeHolds(d, f);
  }

  lemma BuiltCites(d: Desk, f: GoldFinding, u: string)
    requires Paired(d) && FindingOf(d, f).Done?
    ensures CitedBy(FindingOf(d, f).value, u) <==> u == f.primary.scene || u in ScenesOf(f.supporting)
  {
    BuiltFindingReads(d, f);
    SpanCites(d, f.primary);
    SpansCite(d, f.supporting, u);
  }

  /** A built finding's scope lists exactly the scenes its spans cite, in strictly ascending
      order, so without repeats. */
  lemma ScopeIsWhatIsCited(d: Desk, f: GoldFinding) returns (ids: seq<string>)
    requires Paired(d) && FindingOf(d, f).Done?
    ensures Attr(Attr(FindingOf(d, f).value, "scope"), "scene_ids") == Strs(ids)
    ensures StrictlySorted(ids)
    ensures forall u :: u in ids <==> CitedBy(FindingOf(d, f).value, u)
  {
    ids := SceneIds(f);
    BuiltScope(d, f);
    SortedSetIs(CitedScenes(f));
    forall u ensures u in ids <==> CitedBy(FindingOf(d, f).value, u) {
      BuiltCites(d, f, u);
      CitedScenesAre(f, u);
    }
  }

  /** The order and the repetition of the supporting citations leave no trace in the scope. */
  lemma ScopeIgnoresOrder(d: Desk, f: GoldFinding, g: GoldFinding)
    requires f.primary.scene == g.primary.scene && ScenesOf(f.supporting) == ScenesOf(g.supporting)
    ensures ScopeValue(d, f) == ScopeValue(d, g)
  {
    forall u ensures u in CitedScenes(f) <==> u in CitedScenes(g) {
      CitedScenesAre(f, u);
      CitedScenesAre(g, u);
    }
    SortedSetIgnoresOrder(CitedScenes(f), CitedScenes(g));
  }

  /** A finding suggests dismissal exactly when its status says the author meant it. */
  lemma DismissedIffIntentional(d: Desk, f: GoldFinding)
    requires Paired(d) && FindingOf(d, f).Done?
    ensures var v := FindingOf(d, f).value;
      Attr(v, "suggested_action") == VEnum(SUGGESTED_ACTION, "dismiss") <==>
      Attr(v, "status") == VEnum(FINDING_STATUS, "accepted_intentional")
  {
    BuiltFindingReads(d, f);
  }

  // ---- deterministic identifiers ---------------------------------------------------------------

  predicate SlashFree(s: string) {
    '/' !in s
  }

  /** No two texts share a digest, and no digest contains a slash. */
  ghost predicate Collisionless(h: Digests) {
    && (forall a, b :: h.uuid5(a) == h.uuid5(b) ==> a == b)
    && (forall a, b :: h.sha(a) == h.sha(b) ==> a == b)
    && (forall a :: SlashFree(h.sha(a)))
  }

  /** Identifiers agree exactly when their parts, cut at every slash, do. */
  lemma DetIdsIff(h: Digests, a: seq<string>, b: seq<string>)
    requires Collisionless(h) && |a| > 0 && |b| > 0
    ensures DetId(h, a) == DetId(h, b) <==> Join(a, '/') == Join(b, '/')
    ensures DetId(h, a) == DetId(h, b) <==> Pieces(a, '/') == Pieces(b, '/')
  {
    var prefix := "litharness://";
    assert (prefix + Join(a, '/'))[|prefix|..] == Join(a, '/');
    assert (prefix + Join(b, '/'))[|prefix|..] == Join(b, '/');
    JoinsAgreeIff(a, b, '/');
  }

  /** So slash-free parts are told apart. */
  lemma DetIdSeparates(h: Digests, a: seq<string>, b: seq<string>)
    requires Collisionless(h) && |a| > 0 && |b| > 0
    requires (forall p :: p in a ==> SlashFree(p)) && (forall p :: p in b ==> SlashFree(p))
    ensures DetId(h, a) == DetId(h, b) <==> a == b
  {
    DetIdsIff(h, a, b);
    PiecesOfPlain(a, '/');
    PiecesOfPlain(b, '/');
  }

  /** Two scenes share a version exactly when their prose agrees and their fixture and scene
      ids, joined by a slash, do. */
  lemma VersionIdsIff(h: Digests, f: string, s: Scene, g: string, t: Scene)
    requires Collisionless(h)
    ensures VersionId(h, f, s) == VersionId(h, g, t) <==> f + "/" + s.id == g + "/" + t.id && s.text == t.text
  {
    DetIdsIff(h, [f, s.id, h.sha(s.text)], [g, t.id, h.sha(t.text)]);
    JoinThree(f, s.id, h.sha(s.text));
    JoinThree(g, t.id, h.sha(t.text));
    if f + "/" + s.id + "/" + h.sha(s.text) == g + "/" + t.id + "/" + h.sha(t.text) {
      assert SlashFree(h.sha(s.text)) && SlashFree(h.sha(t.text));
      LastSeparator(f + "/" + s.id, h.sha(s.text), g + "/" + t.id, h.sha(t.text), '/');
    }
  }

  /** Within one fixture a version changes exactly when the scene or its prose does, whatever
      the ids look like. */
  lemma VersionsWithinFixture(h: Digests, f: string, s: Scene, t: Scene)
    requires Collisionless(h)
    ensures VersionId(h, f, s) == VersionId(h, f, t) <==> s.id == t.id && s.text == t.text
  {
    VersionIdsIff(h, f, s, f, t);
    var n := |f + "/"|;
    assert (f + "/" + s.id)[n..] == s.id && (f + "/" + t.id)[n..] == t.id;
  }

  /** Across fixtures too, if the fixture ids hold no slash. */
  lemma VersionSeparates(h: Digests, f: string, s: Scene, g: string, t: Scene)
    requires Collisionless(h) && SlashFree(f) && SlashFree(g)
    ensures VersionId(h, f, s) == VersionId(h, g, t) <==> f == g && s.id == t.id && s.text == t.text
  {
    VersionIdsIff(h, f, s, g, t);
    BeforeOfHead(f, '/', s.id);
    BeforeOfHead(g, '/', t.id);
    if f == g {
      VersionsWithinFixture(h, f, s, t);
    }
  }

  /** Otherwise two fixtures can claim one version. */
  lemma SlashesCollide(h: Digests, f: string, g: string, id: string, title: string, text: string)
    ensures VersionId(h, f, Scene(g + "/" + id, title, text)) == VersionId(h, f + "/" + g, Scene(id, title, text))
  {
    var hash := h.sha(text);
    JoinThree(f, g + "/" + id, hash);
    JoinThree(f + "/" + g, id, hash);
    assert f + "/" + (g + "/" + id) + "/" + hash == (f + "/" + g) + "/" + id + "/" + hash;
  }

  lemma JoinThree(a: string, b: string, c: string)
    ensures Join([a, b, c], '/') == a + "/" + b + "/" + c
  {
    assert [a, b, c][1..] == [b, c] && [b, c][1..] == [c];
    assert Join([b, c], '/') == b + "/" + c;
  }
}
