/** What a built change operation says about the manuscript. */
module FixtureOperations {
  import opened JsonValues
  import opened Catalogues
  import opened Serde
  import opened Options
  import opened Shipped
  import opened FixtureSpec
  import opened FixtureBuild
  import opened FixtureAttributes
  import opened FixtureLaws

  // ---- reading an operation ------------------------------------------------------------

  /** The entry of a dict, or `None`. */
  function Entry(v: Value, key: string): Value {
    if v.VDict? && SlotIndex(v.entries, key) < |v.entries| then v.entries[SlotIndex(v.entries, key)].val else VNone
  }

  /** The hash that stands for a text, and nothing for no text. */
  function HashOf(h: Digests, text: Value): Value {
    if text.VStr? then VStr(h.sha(text.s)) else VNone
  }

  /** The text an operation's detail shows: the quote it replaces, or its anchor. */
  function Shown(op: Value): Value {
    var quote := Entry(Attr(op, "detail"), "quote");
    if quote.VStr? then quote else Entry(Attr(op, "detail"), "anchor_quote")
  }

  /** `node` is the scene the operation names, at the version it names, and holds the shown
      text at `[a, b)`. */
  predicate HoldsShown(node: Value, op: Value, a: nat, b: nat) {
    && node.VData? && node.cls == MANUSCRIPT_NODE
    && Attr(node, "kind") == VEnum(NODE_KIND, "scene")
    && Attr(node, "logical_id") == Attr(op, "logical_source_id")
    && Attr(node, "version_id") == Attr(op, "before_version")
    && var content := Attr(node, "content");
      content.VStr? && a <= b <= |content.s| && Shown(op) == VStr(content.s[a..b])
  }

  /** A replaced quote is hashed, and the text that replaces it; an anchor is not. */
  predicate HashesItsDetail(h: Digests, op: Value) {
    var quote, newText := Entry(Attr(op, "detail"), "quote"), Entry(Attr(op, "detail"), "new_text");
    && Attr(op, "before_hash") == HashOf(h, quote)
    && Attr(op, "after_hash") == if quote.VStr? then HashOf(h, newText) else VNone
  }

  /** A change operation that names a version shows exact text of a scene of the manuscript at
      that version, and hashes what it replaces. One that names none hashes nothing. */
  ghost predicate ChangeResolves(g: Ground, op: Value) {
    if Attr(op, "before_version").VNone? then Attr(op, "before_hash").VNone? && Attr(op, "after_hash").VNone?
    else
      && HashesItsDetail(g.h, op)
      && exists x, a: nat, b: nat :: 0 <= x < |g.nodes| && HoldsShown(g.nodes[x], op, a, b)
  }

  // ---- what was built --------------------------------------------------------------------

  lemma DetailEntries(key: string, quote: string, newText: Option<string>)
    requires key in {"quote", "anchor_quote"}
    ensures var detail := QuoteDetail(key, quote, newText);
      && Entry(detail, key) == VStr(quote)
      && (key != "quote" ==> Entry(detail, "quote") == VNone)
      && Entry(detail, "new_text") == OptStr(newText)
  {
    var entries := QuoteDetail(key, quote, newText).entries;
    assert entries[0].name == key && entries[1].name == "new_text";
  }

  /** `op` names the scene at its version, shows the quote, and hashes accordingly. */
  predicate Reads(d: Desk, op: Value, scene: string, quote: string)
    requires scene in d.sceneVersion
  {
    && Attr(op, "logical_source_id") == VStr(scene) && Attr(op, "before_version") == VStr(d.sceneVersion[scene])
    && Shown(op) == VStr(quote) && HashesItsDetail(d.h, op)
  }

  lemma QuoteOperationReads(d: Desk, scenario: string, kind: Value, scene: string, op: Operation) returns (v: Value)
    requires scene in d.sceneVersion && IsQuoted(op)
    ensures v == QuoteOperation(d, scenario, kind, scene, CitedText(op), op) && Reads(d, v, scene, CitedText(op))
  {
    v := QuoteOperation(d, scenario, kind, scene, CitedText(op), op);
    var quote, key := CitedText(op), if op.quote.Some? then "quote" else "anchor_quote";
    var before, after := VStr(d.sceneVersion[scene]), AfterVersion(d, scenario, scene);
    var beforeHash, afterHash := BeforeHash(d.h, quote, op), AfterHash(d.h, op);
    DetailEntries(key, quote, op.newText);
    OperationHolds(kind, scene, before, after, beforeHash, afterHash, QuoteDetail(key, quote, op.newText));
  }

  lemma PlainOperationReads(kind: Value, op: Operation)
    ensures var v := PlainOperation(kind, op);
      && Attr(v, "logical_source_id") == VStr(PlainSource(op)) && Attr(v, "before_version").VNone?
      && Attr(v, "before_hash").VNone? && Attr(v, "after_hash").VNone?
  {
    OperationHolds(kind, PlainSource(op), VNone, VNone, VNone, VNone, Raw(JObj(op.detail)));
  }

  /** The scene a built operation names, in full: the cited one, or what the annotation says. */
  lemma OperationNames(d: Desk, scenario: string, op: Operation)
    requires Paired(d) && OperationOf(d, scenario, op).Done?
    ensures IsQuoted(op) ==> op.scene.Some? && op.scene.value in d.sceneText
    ensures var v := OperationOf(d, scenario, op).value;
      && Attr(v, "logical_source_id") == VStr(if IsQuoted(op) then op.scene.value else PlainSource(op))
      && (Attr(v, "before_version").VNone? <==> !IsQuoted(op))
  {
    var kind := Choose(CHANGE_OP_KIND, op.kind).value;
    if IsQuoted(op) {
      var start := QuotedOperation(d, scenario, op);
      var v := QuoteOperationReads(d, scenario, kind, op.scene.value, op);
    } else {
      PlainOperationReads(kind, op);
    }
  }

  /** A quote-bearing operation hashes the quote and the new text its detail shows; one that
      only anchors hashes nothing. */
  lemma OperationHashesItsDetail(d: Desk, scenario: string, op: Operation)
    requires Paired(d) && OperationOf(d, scenario, op).Done? && IsQuoted(op)
    ensures var v := OperationOf(d, scenario, op).value;
      HashesItsDetail(d.h, v) && Shown(v) == VStr(CitedText(op))
  {
    var start := QuotedOperation(d, scenario, op);
    var v := QuoteOperationReads(d, scenario, Choose(CHANGE_OP_KIND, op.kind).value, op.scene.value, op);
  }

  lemma ShownIsHeld(d: Desk, op: Value, scene: string, start: nat, end: nat)
    requires Stocked(d) && scene in d.sceneText && start <= end <= |d.sceneText[scene]|
    requires Attr(op, "logical_source_id") == VStr(scene) && Attr(op, "before_version") == VStr(d.sceneVersion[scene])
    requires Shown(op) == VStr(d.sceneText[scene][start..end])
    ensures exists x, a: nat, b: nat :: 0 <= x < |GroundOf(d).nodes| && HoldsShown(GroundOf(d).nodes[x], op, a, b)
  {
    var y :| 0 <= y < |d.spec.scenes| && d.spec.scenes[y].id == scene;
    NodePresents(d, d.spec.scenes, y);
    assert HoldsShown(GroundOf(d).nodes[y + 1], op, start, end);
  }

  lemma ReadsResolve(d: Desk, op: Value, scene: string, start: nat, quote: string)
    requires Stocked(d) && scene in d.sceneText && start + |quote| <= |d.sceneText[scene]|
    requires d.sceneText[scene][start..start + |quote|] == quote && Reads(d, op, scene, quote)
    ensures ChangeResolves(GroundOf(d), op)
  {
    ShownIsHeld(d, op, scene, start, start + |quote|);
  }

  lemma QuoteResolves(d: Desk, scenario: string, kind: Value, scene: string, start: nat, op: Operation)
    requires Stocked(d) && IsQuoted(op) && scene in d.sceneText
    requires start + |CitedText(op)| <= |d.sceneText[scene]|
    requires d.sceneText[scene][start..start + |CitedText(op)|] == CitedText(op)
    ensures ChangeResolves(GroundOf(d), QuoteOperation(d, scenario, kind, scene, CitedText(op), op))
  {
    var v := QuoteOperationReads(d, scenario, kind, scene, op);
    ReadsResolve(d, v, scene, start, CitedText(op));
  }

  lemma QuotedResolves(d: Desk, scenario: string, op: Operation)
    requires Stocked(d) && OperationOf(d, scenario, op).Done? && IsQuoted(op)
    ensures ChangeResolves(GroundOf(d), OperationOf(d, scenario, op).value)
  {
    var start := QuotedOperation(d, scenario, op);
    QuoteResolves(d, scenario, Choose(CHANGE_OP_KIND, op.kind).value, op.scene.value, start, op);
  }

  /** Every operation the builder returns resolves in the manuscript; the quote-bearing ones,
      and only they, name a version. */
  lemma OperationResolves(d: Desk, scenario: string, op: Operation)
    requires Stocked(d) && OperationOf(d, scenario, op).Done?
    ensures ChangeResolves(GroundOf(d), OperationOf(d, scenario, op).value)
    ensures Attr(OperationOf(d, scenario, op).value, "before_version").VNone? <==> !IsQuoted(op)
  {
    OperationNames(d, scenario, op);
    if IsQuoted(op) {
      QuotedResolves(d, scenario, op);
    } else {
      PlainOperationReads(Choose(CHANGE_OP_KIND, op.kind).value, op);
    }
  }

  lemma BuiltResolves(d: Desk, op: Value)
    requires Stocked(d) && op in BuiltOps(d)
    ensures ChangeResolves(GroundOf(d), op)
  {
    var s, o :| s in d.spec.scenarios && o in s.operations && OperationOf(d, s.id, o) == Done(op);
    OperationResolves(d, s.id, o);
  }
}
