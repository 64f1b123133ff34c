/** Which scenes the change operations of a build are about, and when those exist. */
module FixtureSources {
  import opened Catalogues
  import opened Options
  import opened Shipped
  import opened FixtureSpec
  import opened FixtureBuild
  import opened FixtureAttributes
  import opened FixtureLaws
  import opened FixtureOperations
  import opened FixtureResults
  import opened FixtureReferences

  // ---- landing -------------------------------------------------------------------------

  predicate IsSceneNamed(node: Value, id: Value) {
    Attr(node, "kind") == VEnum(NODE_KIND, "scene") && Attr(node, "logical_id") == id
  }

  /** The operation is about the book, an entity, or a scene the manuscript holds. */
  ghost predicate SourceLands(a: Artifacts, op: Value) {
    var id, nodes := Attr(op, "logical_source_id"), Elements(a.manuscript, "nodes");
    || id == VStr("book")
    || (id.VStr? && ENTITY_PREFIX <= id.s)
    || exists x :: 0 <= x < |nodes| && IsSceneNamed(nodes[x], id)
  }

  ghost predicate HasScene(spec: Spec, id: string) {
    exists x :: 0 <= x < |spec.scenes| && spec.scenes[x].id == id
  }

  /** The annotation cites text, or is about an entity, the book or a scene of the fixture. The
      builder checks the scene of a citation, and of nothing else. */
  ghost predicate Placed(spec: Spec, op: Operation) {
    IsQuoted(op) || op.entity.Some? || op.scene.None? || op.scene.value == "book" ||
    ENTITY_PREFIX <= op.scene.value || HasScene(spec, op.scene.value)
  }

  lemma BookIsNoScene(d: Desk, id: Value)
    ensures !IsSceneNamed(BookNode(d), id)
  {
    NodeHead("book", "book", "000", VNone, d.spec.bookTitle, VNone, VNone, RevisionId(d));
  }

  lemma PresentedIsNamed(d: Desk, s: Scene, i: nat, node: Value, id: string)
    requires Paired(d) && s.id in d.sceneText && Presents(d, s, i, node)
    ensures IsSceneNamed(node, VStr(id)) <==> s.id == id
  {
  }

  lemma NodeNamedIff(d: Desk, x: nat, id: string)
    requires Loaded(d) && x < |d.spec.scenes|
    ensures IsSceneNamed(GroundOf(d).nodes[x + 1], VStr(id)) <==> d.spec.scenes[x].id == id
  {
    NodePresents(d, d.spec.scenes, x);
    PresentedIsNamed(d, d.spec.scenes[x], x + 1, GroundOf(d).nodes[x + 1], id);
  }

  lemma NamedHasScene(d: Desk, x: nat, id: string)
    requires Loaded(d) && x < |GroundOf(d).nodes| && IsSceneNamed(GroundOf(d).nodes[x], VStr(id))
    ensures HasScene(d.spec, id)
  {
    if x == 0 {
      BookComesFirst(d, d.spec.scenes);
      BookIsNoScene(d, VStr(id));
    } else {
      NodeNamedIff(d, x - 1, id);
    }
  }

  lemma ScenesHeldIff(d: Desk, id: string)
    requires Loaded(d)
    ensures HasScene(d.spec, id) <==>
            exists x :: 0 <= x < |GroundOf(d).nodes| && IsSceneNamed(GroundOf(d).nodes[x], VStr(id))
  {
    if HasScene(d.spec, id) {
      var x :| 0 <= x < |d.spec.scenes| && d.spec.scenes[x].id == id;
      NodeNamedIff(d, x, id);
    }
    if x :| 0 <= x < |GroundOf(d).nodes| && IsSceneNamed(GroundOf(d).nodes[x], VStr(id)) {
      NamedHasScene(d, x, id);
    }
  }

  lemma ManuscriptLists(d: Desk)
    requires Loaded(d)
    ensures Elements(Manuscript(d), "nodes") == GroundOf(d).nodes
  {
    ManuscriptNodes(d);
  }

  /** A built operation lands exactly when its annotation is placed. */
  lemma SourceLandsIff(d: Desk, a: Artifacts, scenario: string, op: Operation)
    requires Stocked(d) && a.manuscript == Manuscript(d) && OperationOf(d, scenario, op).Done?
    ensures SourceLands(a, OperationOf(d, scenario, op).value) <==> Placed(d.spec, op)
  {
    OperationNames(d, scenario, op);
    ManuscriptLists(d);
    ScenesHeldIff(d, if IsQuoted(op) then op.scene.value else PlainSource(op));
  }

  // ---- every operation of a build ----------------------------------------------------------

  lemma InsideData(cls: Id, slots: seq<Slot>, x: nat, w: Value)
    requires x < |slots| && Inside(slots[x].val, w)
    ensures Inside(VData(cls, slots), w)
  {
  }

  lemma InsideList(items: seq<Value>, x: nat, w: Value)
    requires x < |items| && Inside(items[x], w)
    ensures Inside(VList(items), w)
  {
  }

  lemma ChangeSetHolds(d: Desk, meta: Value, s: Scenario, operations: seq<Value>, changes: seq<Value>, y: nat)
    requires y < |operations|
    ensures Inside(ChangeSetValue(d, meta, s, operations, changes), operations[y])
  {
    InsideList(operations, y, operations[y]);
    InsideData(CHANGE_SET, ChangeSetValue(d, meta, s, operations, changes).slots, 5, operations[y]);
  }

  lemma CaseHolds(s: Scenario, changeSet: Value, expected: seq<Value>, w: Value)
    requires Inside(changeSet, w)
    ensures Inside(ImpactCaseValue(s, changeSet, expected), w)
  {
    InsideData(GOLD_IMPACT_CASE, ImpactCaseValue(s, changeSet, expected).slots, 2, w);
  }

  lemma CaseHoldsOperation(d: Desk, s: Scenario, y: nat)
    requires Paired(d) && ImpactCase(d, s).Done? && y < |s.operations|
    ensures OperationOf(d, s.id, s.operations[y]).Done?
    ensures Inside(ImpactCase(d, s).value, OperationOf(d, s.id, s.operations[y]).value)
  {
    var operations, changes := Operations(d, s.id, s.operations).value, Each(d, ChangeOf, s.changes).value;
    var meta, expected := Meta(d, "change_set", s.id), Each(d, ExpectationOf, s.expected).value;
    EachAt(Page(d, s.id), OperationOn, s.operations, y);
    ChangeSetHolds(d, meta, s, operations, changes, y);
    CaseHolds(s, ChangeSetValue(d, meta, s, operations, changes), expected, operations[y]);
  }

  lemma SuiteHoldsOperation(d: Desk, x: nat, y: nat)
    requires Paired(d) && ImpactGold(d).Done?
    requires x < |d.spec.scenarios| && y < |d.spec.scenarios[x].operations|
    ensures var s := d.spec.scenarios[x];
      && OperationOf(d, s.id, s.operations[y]).Done?
      && Inside(ImpactGold(d).value, OperationOf(d, s.id, s.operations[y]).value)
  {
    var s, cases := d.spec.scenarios[x], Each(d, ImpactCase, d.spec.scenarios).value;
    EachAt(d, ImpactCase, d.spec.scenarios, x);
    CaseHoldsOperation(d, s, y);
    InsideList(cases, x, OperationOf(d, s.id, s.operations[y]).value);
    InsideData(GOLD_IMPACT_SUITE, ImpactGold(d).value.slots, 2, OperationOf(d, s.id, s.operations[y]).value);
  }

  predicate IsChange(w: Value) {
    w.VData? && w.cls == CHANGE_OPERATION
  }

  ghost predicate AllLand(a: Artifacts) {
    forall w :: PartOf(a, w) && IsChange(w) ==> SourceLands(a, w)
  }

  ghost predicate AllPlaced(spec: Spec) {
    forall s, o :: s in spec.scenarios && o in s.operations ==> Placed(spec, o)
  }

  lemma BuiltIsChange(d: Desk, scenario: string, op: Operation)
    requires Paired(d) && OperationOf(d, scenario, op).Done?
    ensures IsChange(OperationOf(d, scenario, op).value)
  {
  }

  lemma BuiltIsPart(d: Desk, a: Artifacts, x: nat, y: nat)
    requires Indexed(d) && Assemble(d) == Done(a)
    requires x < |d.spec.scenarios| && y < |d.spec.scenarios[x].operations|
    ensures var s := d.spec.scenarios[x];
      && OperationOf(d, s.id, s.operations[y]).Done?
      && PartOf(a, OperationOf(d, s.id, s.operations[y]).value)
  {
    ImpactComesFrom(d, a);
    SuiteHoldsOperation(d, x, y);
  }

  lemma ImpactComesFrom(d: Desk, a: Artifacts)
    requires Loaded(d) && Assemble(d) == Done(a)
    ensures ImpactGold(d) == Done(a.impactGold)
  {
  }

  lemma LandsAt(a: Artifacts, w: Value)
    requires AllLand(a) && PartOf(a, w) && IsChange(w)
    ensures SourceLands(a, w)
  {
  }

  lemma LandedIsPlaced(d: Desk, a: Artifacts, s: Scenario, o: Operation)
    requires Indexed(d) && Assemble(d) == Done(a) && AllLand(a) && s in d.spec.scenarios && o in s.operations
    ensures Placed(d.spec, o)
  {
    var x :| 0 <= x < |d.spec.scenarios| && d.spec.scenarios[x] == s;
    var y :| 0 <= y < |s.operations| && s.operations[y] == o;
    BuiltIsPart(d, a, x, y);
    BuiltIsChange(d, s.id, o);
    LandsAt(a, OperationOf(d, s.id, o).value);
    BuiltLandsIff(d, a, s.id, o);
  }

  lemma BuiltLandsIff(d: Desk, a: Artifacts, scenario: string, op: Operation)
    requires Indexed(d) && Assemble(d) == Done(a) && OperationOf(d, scenario, op).Done?
    ensures SourceLands(a, OperationOf(d, scenario, op).value) <==> Placed(d.spec, op)
  {
    ManuscriptComesFrom(d, a);
    SourceLandsIff(d, a, scenario, op);
  }

  lemma PlacedLands(d: Desk, a: Artifacts, w: Value)
    requires Indexed(d) && Assemble(d) == Done(a) && AllPlaced(d.spec) && PartOf(a, w) && IsChange(w)
    ensures SourceLands(a, w)
  {
    PartIsCited(d, a, w);
    var s, o :| s in d.spec.scenarios && o in s.operations && OperationOf(d, s.id, o) == Done(w);
    BuiltLandsIff(d, a, s.id, o);
  }

  /** In a successful build every change operation is about something that exists exactly when
      every annotated operation is placed. */
  lemma SourcesLandIff(h: Digests, spec: Spec)
    requires Loaded(Opened(h, spec)) && Assemble(Opened(h, spec)).Done?
    ensures AllLand(Assemble(Opened(h, spec)).value) <==> AllPlaced(spec)
  {
    var d, a := Opened(h, spec), Assemble(Opened(h, spec)).value;
    OpenedIsIndexed(h, spec);
    if AllLand(a) {
      forall s, o | s in spec.scenarios && o in s.operations ensures Placed(spec, o) {
        LandedIsPlaced(d, a, s, o);
      }
    }
    if AllPlaced(spec) {
      forall w | PartOf(a, w) && IsChange(w) ensures SourceLands(a, w) {
        PlacedLands(d, a, w);
      }
    }
  }

  // ---- an operation about nothing -------------------------------------------------------------

  const MOVE_GHOST: Operation := Operation("move", Some("ghost"), None, None, None, None, [])

  const GHOST_SCENARIO: Scenario := Scenario("s1", "A scene that is not there.", None, [MOVE_GHOST], [], [])

  const GHOST_FIXTURE: Spec := Spec("f1", "Untitled", [], [], [], [], [], [], [GHOST_SCENARIO])

  lemma GhostIsBuilt(d: Desk)
    requires Paired(d)
    ensures ImpactCase(d, GHOST_SCENARIO).Done?
  {
    var page, ops := Page(d, "s1"), [MOVE_GHOST];
    assert CHANGE_OP_KIND_VALUES[3] == "move";
    assert Each(page, OperationOn, ops[..0]) == Done([]);
    EachGrows(page, OperationOn, ops, 0);
    assert ops[..1] == ops;
  }

  lemma GhostSuiteIsBuilt(d: Desk)
    requires Paired(d) && d.spec.scenarios == [GHOST_SCENARIO]
    ensures ImpactGold(d).Done?
  {
    var xs := d.spec.scenarios;
    GhostIsBuilt(d);
    assert Each(d, ImpactCase, xs[..0]) == Done([]);
    EachGrows(d, ImpactCase, xs, 0);
    assert xs[..1] == xs;
  }

  /** The fixture has no scene, and moves one: it builds, and the operation lands nowhere. */
  lemma GhostBuilds(h: Digests)
    ensures Loaded(Opened(h, GHOST_FIXTURE)) && Assemble(Opened(h, GHOST_FIXTURE)).Done?
    ensures !AllLand(Assemble(Opened(h, GHOST_FIXTURE)).value)
  {
    var d := Opened(h, GHOST_FIXTURE);
    OpenedIsLoaded(h, GHOST_FIXTURE);
    GhostSuiteIsBuilt(d);
    assert Assemble(d).Done?;
    SourcesLandIff(h, GHOST_FIXTURE);
    assert !Placed(GHOST_FIXTURE, MOVE_GHOST);
    assert GHOST_SCENARIO in GHOST_FIXTURE.scenarios && MOVE_GHOST in GHOST_SCENARIO.operations;
  }
}
