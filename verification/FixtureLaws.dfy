/** What the built artifacts promise: every citation resolves in the built manuscript, and
    every artifact is a well-typed contract value. */
module FixtureLaws {
  import opened JsonValues
  import opened Catalogues
  import opened Serde
  import opened RoundTrip
  import opened Options
  import opened Occurrences
  import opened Shipped
  import opened FixtureSpec
  import opened FixtureBuild
  import opened FixtureAttributes

  // ---- citations ------------------------------------------------------------------

  /** What citations are judged against: the nodes of the manuscript, the references the
      builder may issue, and the change operations it may build. */
  datatype Ground = Ground(h: Digests, nodes: seq<Value>, refs: iset<Value>, ops: iset<Value>)

  /** The book, a scene at its version, or a target that resolves. */
  ghost predicate IsIssued(d: Desk, ref: Value)
    requires Paired(d)
  {
    || ref == BookRef(d)
    || (exists scene :: scene in d.sceneVersion && ref == SceneRef(d, scene))
    || (exists target :: ResolveTarget(d, target) == Done(ref))
  }

  ghost function Issued(d: Desk): iset<Value>
    requires Paired(d)
  {
    iset ref | IsIssued(d, ref)
  }

  /** `op` is built from an annotation of some scenario. */
  ghost predicate IsBuilt(d: Desk, op: Value)
    requires Paired(d)
  {
    exists s, o :: s in d.spec.scenarios && o in s.operations && OperationOf(d, s.id, o) == Done(op)
  }

  ghost function BuiltOps(d: Desk): iset<Value>
    requires Paired(d)
  {
    iset op | IsBuilt(d, op)
  }

  ghost function GroundOf(d: Desk): Ground
    requires Loaded(d)
  {
    Ground(d.h, Nodes(d, d.spec.scenes), Issued(d), BuiltOps(d))
  }

  ghost predicate Knows(g: Ground, d: Desk) {
    Paired(d) && g.refs == Issued(d)
  }

  /** The text at `[start, end)` occurs nowhere earlier. */
  predicate Leftmost(text: string, start: nat, end: nat)
    requires start <= end <= |text|
  {
    forall i: nat :: i < start ==> !OccursAt(text, text[start..end], i)
  }

  /** `node` is a scene of the given identity and version, and `[start, end)` is where the text
      with the given hash first occurs in its prose. */
  predicate Quotes(h: Digests, node: Value, scene: Value, version: Value, start: Value, end: Value, hash: Value) {
    && node.VData? && node.cls == MANUSCRIPT_NODE
    && Attr(node, "kind") == VEnum(NODE_KIND, "scene")
    && Attr(node, "logical_id") == scene
    && Attr(node, "version_id") == version
    && var content := Attr(node, "content");
      content.VStr? && start.VInt? && end.VInt?
      && 0 <= start.i <= end.i <= |content.s|
      && hash == VStr(h.sha(content.s[start.i..end.i]))
      && Leftmost(content.s, start.i, end.i)
  }

  /** An evidence span names a scene node of the manuscript and exact text inside it. */
  ghost predicate SpanResolves(g: Ground, span: Value) {
    var source := Attr(span, "source");
    exists x :: 0 <= x < |g.nodes| && Quotes(
      g.h, g.nodes[x], Attr(source, "logical_id"), Attr(source, "version_id"),
      Attr(span, "start"), Attr(span, "end"), Attr(span, "content_sha256"))
  }

  /** Every span anywhere inside `v` resolves, and every reference and every change operation
      is one the builder makes. */
  ghost predicate Cited(g: Ground, v: Value) {
    match v
    case VList(items) => forall x :: 0 <= x < |items| ==> Cited(g, items[x])
    case VDict(es) => forall x :: 0 <= x < |es| ==> Cited(g, es[x].val)
    case VData(cls, slots) =>
      && (cls == RESOURCE_REF ==> v in g.refs)
      && (cls == EVIDENCE_SPAN ==> SpanResolves(g, v))
      && (cls == CHANGE_OPERATION ==> v in g.ops)
      && forall x :: 0 <= x < |slots| ==> Cited(g, slots[x].val)
    case _ => true
  }

  // ---- fine values -------------------------------------------------------------------

  /** `c` holds the shipped types under their own identities. */
  ghost predicate Ships(c: Catalogue) {
    forall x: Id :: ShipsOne(c, x)
  }

  predicate ShipsOne(c: Catalogue, x: Id) {
    && (x < CLASSES_FROM ==> x in c.enums && c.enums[x] == ValuesOf(x))
    && (CLASSES_FROM <= x < IDS ==> x in c.classes && c.classes[x] == FieldsOf(x))
  }

  /** Well typed, with every citation inside resolving. */
  ghost predicate Fine(c: Catalogue, g: Ground, t: Ty, v: Value) {
    HasType(c, t, v) && Cited(g, v)
  }

  /** `slots` are fine attributes for the fields `fs`. */
  ghost predicate Fits(c: Catalogue, g: Ground, fs: seq<Field>, slots: seq<Slot>) {
    |slots| == |fs| && forall x :: 0 <= x < |slots| ==> FitsAt(c, g, fs[x], slots[x])
  }

  ghost predicate FitsAt(c: Catalogue, g: Ground, f: Field, s: Slot) {
    s.name == f.name && Fine(c, g, f.ty, s.val)
  }

  lemma FieldByField(c: Catalogue, g: Ground, k: Id, slots: seq<Slot>)
    requires k in c.classes && Fits(c, g, c.classes[k], slots)
    requires k == RESOURCE_REF ==> VData(k, slots) in g.refs
    requires k == EVIDENCE_SPAN ==> SpanResolves(g, VData(k, slots))
    requires k == CHANGE_OPERATION ==> VData(k, slots) in g.ops
    ensures Fine(c, g, TData(k), VData(k, slots)) && Fine(c, g, TOpt(TData(k)), VData(k, slots))
  {
    assert HasType(c, TData(k), VData(k, slots));
  }

  lemma Instance(c: Catalogue, g: Ground, k: Id, slots: seq<Slot>)
    requires Ships(c) && CLASSES_FROM <= k < IDS && Fits(c, g, FieldsOf(k), slots)
    requires k == RESOURCE_REF ==> VData(k, slots) in g.refs
    requires k == EVIDENCE_SPAN ==> SpanResolves(g, VData(k, slots))
    requires k == CHANGE_OPERATION ==> VData(k, slots) in g.ops
    ensures Fine(c, g, TData(k), VData(k, slots)) && Fine(c, g, TOpt(TData(k)), VData(k, slots))
  {
    assert ShipsOne(c, k);
    FieldByField(c, g, k, slots);
  }

  lemma FitsAppend(c: Catalogue, g: Ground, fs: seq<Field>, gs: seq<Field>, a: seq<Slot>, b: seq<Slot>)
    requires Fits(c, g, fs, a) && Fits(c, g, gs, b)
    ensures Fits(c, g, fs + gs, a + b)
  {
  }

  lemma OptStrIsFine(c: Catalogue, g: Ground, o: Option<string>)
    ensures Fine(c, g, TOpt(TStr), OptStr(o))
  {
    assert o.Some? ==> HasType(c, TStr, VStr(o.value));
  }

  lemma EmptyIsFine(c: Catalogue, g: Ground, t: Ty)
    ensures Fine(c, g, TList(t), VList([])) && Fine(c, g, TDict(t), VDict([]))
  {
  }

  lemma NoneIsFine(c: Catalogue, g: Ground, t: Ty)
    ensures Fine(c, g, TOpt(t), VNone)
  {
  }

  lemma FloatIsFine(c: Catalogue, g: Ground, r: real)
    ensures Fine(c, g, TOpt(TFloat), VFloat(r))
  {
    assert HasType(c, TFloat, VFloat(r));
  }

  lemma Chosen(c: Catalogue, g: Ground, enum: Id, member: string)
    requires Ships(c) && enum < CLASSES_FROM && member in ValuesOf(enum)
    ensures Fine(c, g, TEnum(enum), VEnum(enum, member))
  {
    assert ShipsOne(c, enum);
  }

  lemma {:induction false} RawIsFine(c: Catalogue, g: Ground, v: Value)
    requires IsRaw(v)
    ensures Fine(c, g, TAny, v)
    decreases v
  {
    match v {
      case VList(vs) => forall x | 0 <= x < |vs| ensures Cited(g, vs[x]) { RawIsFine(c, g, vs[x]); }
      case VDict(es) => forall x | 0 <= x < |es| ensures Cited(g, es[x].val) { RawIsFine(c, g, es[x].val); }
      case _ =>
    }
  }

  lemma OptRawIsFine(c: Catalogue, g: Ground, o: Option<Json>)
    ensures Fine(c, g, TAny, OptRaw(o))
  {
    if o.Some? { RawIsRaw(o.value); }
    RawIsFine(c, g, OptRaw(o));
  }

  /** A JSON object kept as `dict[str, Any]`. */
  lemma RawDictIsFine(c: Catalogue, g: Ground, ms: seq<Member>)
    ensures Fine(c, g, TDict(TAny), Raw(JObj(ms)))
  {
    RawIsRaw(JObj(ms));
    RawIsFine(c, g, Raw(JObj(ms)));
    assert forall x :: 0 <= x < |ms| ==> HasType(c, TAny, RawMembers(ms)[x].val);
  }

  lemma StrsAreFine(c: Catalogue, g: Ground, ss: seq<string>)
    ensures Fine(c, g, TList(TStr), Strs(ss))
  {
  }

  lemma ListIsFine(c: Catalogue, g: Ground, t: Ty, vs: seq<Value>)
    requires forall x :: 0 <= x < |vs| ==> Fine(c, g, t, vs[x])
    ensures Fine(c, g, TList(t), VList(vs))
  {
  }

  lemma {:induction false} EachIsFine<C, T>(
    c: Catalogue, g: Ground, t: Ty, d: C, f: (C, T) --> Built<Value>, xs: seq<T>)
    requires forall x :: x in xs ==> f.requires(d, x)
    requires forall x :: x in xs && f(d, x).Done? ==> Fine(c, g, t, f(d, x).value)
    requires Each(d, f, xs).Done?
    ensures forall i :: 0 <= i < |xs| ==> Fine(c, g, t, Each(d, f, xs).value[i])
    ensures Fine(c, g, TList(t), VList(Each(d, f, xs).value))
  {
    if |xs| > 0 {
      var n := |xs| - 1;
      EachIsFine(c, g, t, d, f, xs[..n]);
      assert xs[n] in xs;
    }
    ListIsFine(c, g, t, Each(d, f, xs).value);
  }

  lemma {:induction false} EachAt<C, T>(d: C, f: (C, T) --> Built<Value>, xs: seq<T>, x: nat)
    requires forall y :: y in xs ==> f.requires(d, y)
    requires x < |xs| && Each(d, f, xs).Done?
    ensures f(d, xs[x]).Done? && Each(d, f, xs).value[x] == f(d, xs[x]).value
  {
    if x < |xs| - 1 {
      EachAt(d, f, xs[..|xs| - 1], x);
    }
  }

  // ---- references and spans ---------------------------------------------------------

  /** A desk whose scene texts come from its own scenes. */
  ghost predicate Stocked(d: Desk) {
    Loaded(d) && forall id :: id in d.sceneText ==> exists x :: 0 <= x < |d.spec.scenes| && d.spec.scenes[x].id == id
  }

  lemma OpenedIsStocked(h: Digests, spec: Spec)
    ensures Stocked(Opened(h, spec))
  {
    OpenedIsLoaded(h, spec);
    forall id | id in TextsOf(spec.scenes) ensures exists x :: 0 <= x < |spec.scenes| && spec.scenes[x].id == id {
      var x := OpenedTexts(h, spec.fixtureId, spec.scenes, id);
    }
  }

  lemma RefFits(c: Catalogue, g: Ground, d: Desk, id: string, kind: string, version: Option<string>)
    requires Fine(c, g, TEnum(RESOURCE_KIND), VEnum(RESOURCE_KIND, kind))
    ensures Fits(c, g, RESOURCE_REF_FIELDS, Ref(d, id, kind, version).slots)
  {
    OptStrIsFine(c, g, version);
  }

  lemma RefIsFine(c: Catalogue, g: Ground, d: Desk, id: string, kind: string, version: Option<string>)
    requires Ships(c) && kind in ValuesOf(RESOURCE_KIND) && Ref(d, id, kind, version) in g.refs
    ensures Fine(c, g, TData(RESOURCE_REF), Ref(d, id, kind, version))
    ensures Fine(c, g, TOpt(TData(RESOURCE_REF)), Ref(d, id, kind, version))
  {
    Chosen(c, g, RESOURCE_KIND, kind);
    RefFits(c, g, d, id, kind, version);
    Instance(c, g, RESOURCE_REF, Ref(d, id, kind, version).slots);
  }

  lemma SceneRefIsFine(c: Catalogue, g: Ground, d: Desk, scene: string)
    requires Ships(c) && Knows(g, d) && scene in d.sceneVersion
    ensures Fine(c, g, TData(RESOURCE_REF), SceneRef(d, scene))
  {
    assert IsIssued(d, SceneRef(d, scene));
    RefIsFine(c, g, d, scene, "manuscript_scene", Some(d.sceneVersion[scene]));
  }

  /** A resolved target is a reference of a kind the contracts know. */
  lemma ResolvedIsRef(d: Desk, target: string) returns (kind: string, version: Option<string>)
    requires Paired(d) && ResolveTarget(d, target).Done?
    ensures ResolveTarget(d, target) == Done(Ref(d, target, kind, version)) && kind in RESOURCE_KIND_VALUES
  {
    version := None;
    if target == "book" { kind, version := "manuscript_book", Some(RevisionId(d)); }
    else if target in d.sceneText { kind, version := "manuscript_scene", Some(d.sceneVersion[target]); }
    else if target in d.recordKinds { kind := ResourceKindOf(d.recordKinds[target]).value; }
    else if target in d.planIds { kind := "plan"; }
    else if target in d.findingIds { kind := "finding"; }
    else if target in d.derived { kind := "summary"; }
    else if target in d.queryIds { kind := "context_packet"; }
    else { kind := "entity"; }
  }

  lemma ResolvedIsFine(c: Catalogue, g: Ground, d: Desk, target: string)
    requires Ships(c) && Knows(g, d) && ResolveTarget(d, target).Done?
    ensures Fine(c, g, TData(RESOURCE_REF), ResolveTarget(d, target).value)
    ensures Fine(c, g, TOpt(TData(RESOURCE_REF)), ResolveTarget(d, target).value)
  {
    var kind, version := ResolvedIsRef(d, target);
    assert IsIssued(d, ResolveTarget(d, target).value);
    RefIsFine(c, g, d, target, kind, version);
  }

  lemma {:induction false} NodeAt(d: Desk, scenes: seq<Scene>, x: nat)
    requires Paired(d) && forall s :: s in scenes ==> s.id in d.sceneText
    requires x < |scenes|
    ensures Nodes(d, scenes)[x + 1] == SceneNode(d, scenes[x], x + 1)
  {
    if x < |scenes| - 1 {
      NodeAt(d, scenes[..|scenes| - 1], x);
    }
  }

  lemma {:induction false} BookComesFirst(d: Desk, scenes: seq<Scene>)
    requires Paired(d) && forall s :: s in scenes ==> s.id in d.sceneText
    ensures Nodes(d, scenes)[0] == BookNode(d)
  {
    if |scenes| > 0 {
      BookComesFirst(d, scenes[..|scenes| - 1]);
    }
  }

  /** A node presents the `i`-th scene of the desk. */
  predicate Presents(d: Desk, s: Scene, i: nat, node: Value)
    requires Paired(d) && s.id in d.sceneText
  {
    && node.VData? && node.cls == MANUSCRIPT_NODE
    && Attr(node, "logical_id") == VStr(s.id)
    && Attr(node, "kind") == VEnum(NODE_KIND, "scene")
    && Attr(node, "position_key") == VStr(PositionKey(i))
    && Attr(node, "parent_logical_id") == VStr("book") && Attr(node, "title") == VStr(s.title)
    && Attr(node, "content") == VStr(d.sceneText[s.id])
    && Attr(node, "content_sha256") == VStr(d.h.sha(d.sceneText[s.id]))
    && Attr(node, "version_id") == VStr(d.sceneVersion[s.id])
  }

  lemma SceneNodePresents(d: Desk, s: Scene, i: nat)
    requires Paired(d) && s.id in d.sceneText
    ensures Presents(d, s, i, SceneNode(d, s, i))
  {
    var content, hash := VStr(d.sceneText[s.id]), VStr(d.h.sha(d.sceneText[s.id]));
    NodeHead(s.id, "scene", PositionKey(i), VStr("book"), s.title, content, hash, d.sceneVersion[s.id]);
    NodePlace(s.id, "scene", PositionKey(i), VStr("book"), s.title, content, hash, d.sceneVersion[s.id]);
    NodeBody(s.id, "scene", PositionKey(i), VStr("book"), s.title, content, hash, d.sceneVersion[s.id]);
  }

  /** The nodes after the book present the scenes in order. */
  lemma NodePresents(d: Desk, scenes: seq<Scene>, x: nat)
    requires Paired(d) && (forall s :: s in scenes ==> s.id in d.sceneText) && x < |scenes|
    ensures Presents(d, scenes[x], x + 1, Nodes(d, scenes)[x + 1])
  {
    NodeAt(d, scenes, x);
    SceneNodePresents(d, scenes[x], x + 1);
  }

  /** Prose that the builder found in a scene is quoted by that scene's node. */
  lemma SceneQuotes(d: Desk, scene: string, a: nat, b: nat) returns (x: nat)
    requires Stocked(d) && scene in d.sceneText && a <= b <= |d.sceneText[scene]|
    requires Leftmost(d.sceneText[scene], a, b)
    ensures x < |GroundOf(d).nodes|
    ensures Quotes(d.h, GroundOf(d).nodes[x], VStr(scene), VStr(d.sceneVersion[scene]), VInt(a), VInt(b),
                   VStr(d.h.sha(d.sceneText[scene][a..b])))
  {
    var y :| 0 <= y < |d.spec.scenes| && d.spec.scenes[y].id == scene;
    NodePresents(d, d.spec.scenes, y);
    x := y + 1;
  }

  lemma QuotedSpanResolves(g: Ground, x: nat, source: Value, start: nat, end: nat, hash: string)
    requires x < |g.nodes|
    requires Quotes(g.h, g.nodes[x], Attr(source, "logical_id"), Attr(source, "version_id"), VInt(start), VInt(end),
                    VStr(hash))
    ensures SpanResolves(g, SpanValue(source, start, end, hash))
  {
    SpanHolds(source, start, end, hash);
  }

  /** `span` delimits `[start, end)` of a scene's prose, where its text first occurs. */
  predicate Delimits(d: Desk, scene: string, start: nat, end: nat, span: Value)
    requires Paired(d)
  {
    && scene in d.sceneText
    && start <= end <= |d.sceneText[scene]|
    && Leftmost(d.sceneText[scene], start, end)
    && span == SpanValue(SceneRef(d, scene), start, end, d.h.sha(d.sceneText[scene][start..end]))
  }

  lemma SpanDelimits(d: Desk, cite: Cite) returns (start: nat)
    requires Paired(d) && Span(d, cite).Done?
    ensures Delimits(d, cite.scene, start, start + |cite.quote|, Span(d, cite).value)
    ensures d.sceneText[cite.scene][start..start + |cite.quote|] == cite.quote
  {
    var text := d.sceneText[cite.scene];
    start := IndexFrom(text, cite.quote, 0);
    CountedOnceIsLocated(text, cite.quote);
  }

  lemma DelimitedResolves(d: Desk, scene: string, start: nat, end: nat, span: Value)
    requires Stocked(d) && Delimits(d, scene, start, end, span)
    ensures SpanResolves(GroundOf(d), span)
  {
    var x := SceneQuotes(d, scene, start, end);
    RefHolds(d, scene, "manuscript_scene", Some(d.sceneVersion[scene]));
    QuotedSpanResolves(GroundOf(d), x, SceneRef(d, scene), start, end, d.h.sha(d.sceneText[scene][start..end]));
  }

  /** Every span the builder returns is exact: it names a scene node of the manuscript at
      that node's version, lies inside its prose, and hashes the text it delimits. */
  lemma SpanIsExact(d: Desk, cite: Cite)
    requires Stocked(d) && Span(d, cite).Done?
    ensures SpanResolves(GroundOf(d), Span(d, cite).value)
  {
    var start := SpanDelimits(d, cite);
    DelimitedResolves(d, cite.scene, start, start + |cite.quote|, Span(d, cite).value);
  }

  lemma SpanFits(c: Catalogue, g: Ground, source: Value, start: nat, end: nat, hash: string)
    requires Fine(c, g, TData(RESOURCE_REF), source)
    ensures Fits(c, g, EVIDENCE_SPAN_FIELDS, SpanValue(source, start, end, hash).slots)
  {
  }

  lemma DelimitedIsFine(c: Catalogue, d: Desk, scene: string, start: nat, end: nat, span: Value)
    requires Ships(c) && Stocked(d) && Delimits(d, scene, start, end, span)
    requires Fine(c, GroundOf(d), TData(RESOURCE_REF), SceneRef(d, scene))
    ensures Fine(c, GroundOf(d), TData(EVIDENCE_SPAN), span)
    ensures Fine(c, GroundOf(d), TOpt(TData(EVIDENCE_SPAN)), span)
  {
    DelimitedResolves(d, scene, start, end, span);
    SpanFits(c, GroundOf(d), SceneRef(d, scene), start, end, d.h.sha(d.sceneText[scene][start..end]));
    Instance(c, GroundOf(d), EVIDENCE_SPAN, span.slots);
  }

  lemma SceneSpanIsFine(c: Catalogue, d: Desk, scene: string, start: nat, end: nat, span: Value)
    requires Ships(c) && Stocked(d) && Delimits(d, scene, start, end, span)
    ensures Fine(c, GroundOf(d), TData(EVIDENCE_SPAN), span)
    ensures Fine(c, GroundOf(d), TOpt(TData(EVIDENCE_SPAN)), span)
  {
    SceneRefIsFine(c, GroundOf(d), d, scene);
    DelimitedIsFine(c, d, scene, start, end, span);
  }

  /** Every span the builder returns is exact, and well typed besides. */
  lemma SpanIsFine(c: Catalogue, d: Desk, cite: Cite)
    requires Ships(c) && Stocked(d) && Span(d, cite).Done?
    ensures Fine(c, GroundOf(d), TData(EVIDENCE_SPAN), Span(d, cite).value)
    ensures Fine(c, GroundOf(d), TOpt(TData(EVIDENCE_SPAN)), Span(d, cite).value)
  {
    var start := SpanDelimits(d, cite);
    SceneSpanIsFine(c, d, cite.scene, start, start + |cite.quote|, Span(d, cite).value);
  }

  /** The parts a built finding is put together from. */
  lemma FindingParts(d: Desk, f: GoldFinding)
    requires Paired(d) && FindingOf(d, f).Done?
    ensures Span(d, f.primary).Done? && Each(d, Span, f.supporting).Done?
    ensures Each(d, ResolveTarget, f.dependencies).Done?
    ensures FindingOf(d, f).value == FindingValue(
      d, f, VEnum(FINDING_CATEGORY, f.category), VEnum(FINDING_STATUS, f.status), VEnum(SEVERITY, f.severity),
      Span(d, f.primary).value, Each(d, Span, f.supporting).value, Each(d, ResolveTarget, f.dependencies).value)
  {
  }

  /** What the builder has established when it emits a quote-bearing operation. */
  lemma QuotedOperation(d: Desk, scenario: string, op: Operation) returns (start: nat)
    requires Paired(d) && OperationOf(d, scenario, op).Done? && IsQuoted(op)
    ensures op.scene.Some? && op.scene.value in d.sceneText
    ensures var text, quote := d.sceneText[op.scene.value], CitedText(op);
      start + |quote| <= |text| && text[start..start + |quote|] == quote
    ensures Choose(CHANGE_OP_KIND, op.kind).Done?
    ensures OperationOf(d, scenario, op).value
      == QuoteOperation(d, scenario, Choose(CHANGE_OP_KIND, op.kind).value, op.scene.value, CitedText(op), op)
  {
    start := SpanDelimits(d, Cite(op.scene.value, CitedText(op)));
  }
}
