/** The emitted schemas against the codec. */
module Validation {
  import opened JsonValues
  import opened Catalogues
  import opened Serde
  import opened RoundTrip
  import opened SchemaGen
  import Evolution

  // ---- the validator ------------------------------------------------------------

  /** JSON Schema draft 2020-12: Core sections 8.2.3.1 (`$ref`), 8.2.4 (`$defs`), 10.3.1.2
      (`items`), 10.3.2.1 (`properties`) and 10.3.2.3 (`additionalProperties`), and
      Validation sections 6.1.1 (`type`), 6.1.2 (`enum`) and 6.5.3 (`required`).
      A definition that is itself a bare reference is rejected; the generator emits none.
      `integer` matches integers as `json.loads` reads them, so not `1.0`. */
  predicate Valid(defs: map<Id, Schema>, s: Schema, j: Json)
    decreases j, if s.SRef? then 1 else 0, s
  {
    match s
    case SAny => true
    case SBoolean => j.JBool?
    case SInteger => j.JInt?
    case SNumber => j.JInt? || j.JNum?
    case SString => j.JStr?
    case SArray(items) => j.JArr? && forall x :: 0 <= x < |j.items| ==> Valid(defs, items, j.items[x])
    case SMap(rest) => j.JObj? && forall x :: 0 <= x < |j.members| ==> Valid(defs, rest, j.members[x].val)
    case SEnum(values) => j.JStr? && j.s in values
    case SRef(n) => n in defs && !defs[n].SRef? && Valid(defs, defs[n], j)
    case SObject(ps, required) =>
      && j.JObj?
      && (forall n: string :: n in required ==> Has(j.members, n))
      && (forall x :: 0 <= x < |ps| ==>
           (var i := IndexOf(j.members, ps[x].name);
            i < |j.members| ==> Valid(defs, ps[x].schema, j.members[i].val)))
  }

  predicate Validates(doc: Document, j: Json) {
    Valid(doc.defs, doc.root, j)
  }

  // ---- closed documents -----------------------------------------------------------

  function References(s: Schema): set<Id> {
    match s
    case SRef(n) => {n}
    case SArray(items) => References(items)
    case SMap(rest) => References(rest)
    case SObject(ps, _) => set x, n | 0 <= x < |ps| && n in References(ps[x].schema) :: n
    case _ => {}
  }

  lemma {:induction false} TypeReferences(t: Ty)
    ensures References(TypeSchemaOf(t)) == Mentions(t)
  {
    match t {
      case TOpt(u) => TypeReferences(u);
      case TList(u) => TypeReferences(u);
      case TDict(u) => TypeReferences(u);
      case _ =>
    }
  }

  lemma ClassReferences(fs: seq<Field>)
    ensures References(ClassSchemaOf(fs)) == FieldMentions(fs)
  {
    var ps := PropertiesOf(fs);
    forall x | 0 <= x < |fs| ensures References(ps[x].schema) == Mentions(fs[x].ty) {
      PropertiesAt(fs, x);
      TypeReferences(fs[x].ty);
    }
    assert forall n :: n in References(ClassSchemaOf(fs)) <==>
      exists x :: 0 <= x < |fs| && n in References(ps[x].schema);
  }

  lemma DefinitionReferences(c: Catalogue, n: Id)
    requires Linked(c) && n in Names(c)
    ensures References(DefinitionOf(c, n)) == Successors(c, n)
  {
    if n in c.classes {
      ClassReferences(c.classes[n]);
    }
  }

  /** No placeholder survives, every reference resolves, and the root has a definition
      exactly when it reaches itself. */
  lemma DocumentIsClosed(c: Catalogue, k: Id)
    requires Linked(c) && k in c.classes
    ensures var doc := DocumentOf(c, k);
      && References(doc.root) <= doc.defs.Keys
      && (forall n :: n in doc.defs ==>
            doc.defs[n] != SAny && !doc.defs[n].SRef? && References(doc.defs[n]) <= doc.defs.Keys)
      && (k in doc.defs <==> Reaches(c, Successors(c, k), k))
      && (k in doc.defs ==> doc.defs[k] == doc.root)
  {
    var doc := DocumentOf(c, k);
    DocumentServes(c, k);
    ClassReferences(c.classes[k]);
    SuccessorsNamed(c, k);
    forall n | n in doc.defs ensures References(doc.defs[n]) <= doc.defs.Keys {
      DefinitionReferences(c, n);
    }
  }

  lemma SuccessorsNamed(c: Catalogue, n: Id)
    requires Linked(c)
    ensures Successors(c, n) <= Names(c)
  {
    if n in c.classes {
      var fs := c.classes[n];
      forall x | 0 <= x < |fs| ensures Mentions(fs[x].ty) <= Names(c) {
        ResolvedMentions(c, fs[x].ty);
      }
      MentionsCovered(fs, Names(c));
    }
  }

  lemma ReachableStep(c: Catalogue, k: Id, n: Id)
    requires Linked(c) && n in Reachable(c, k)
    ensures Successors(c, n) <= Reachable(c, k)
  {
    SuccessorsNamed(c, n);
    var path :| IsPath(c, Successors(c, k), path, n);
    forall m | m in Successors(c, n) ensures m in Reachable(c, k) {
      assert IsPath(c, Successors(c, k), path + [m], m);
    }
  }

  /** `defs` defines every name in `ns`, and what those definitions mention. */
  ghost predicate Serves(c: Catalogue, defs: map<Id, Schema>, ns: set<Id>) {
    && ns <= Names(c) * defs.Keys
    && forall n :: n in ns ==> defs[n] == DefinitionOf(c, n) && Successors(c, n) <= ns
  }

  lemma DocumentServes(c: Catalogue, k: Id)
    requires Linked(c) && k in c.classes
    ensures Serves(c, DocumentOf(c, k).defs, Reachable(c, k))
    ensures Successors(c, k) <= Reachable(c, k)
  {
    SuccessorsNamed(c, k);
    forall n | n in Successors(c, k) ensures n in Reachable(c, k) {
      ReachesDirect(c, Successors(c, k), n);
    }
    forall n | n in Reachable(c, k) ensures Successors(c, n) <= Reachable(c, k) {
      ReachableStep(c, k, n);
    }
  }

  // ---- what validity of an object means, field by field ---------------------------

  /** The schema's demand on one field of an object. */
  predicate FieldValid(defs: map<Id, Schema>, f: Field, ms: seq<Member>) {
    var i := IndexOf(ms, f.name);
    if i < |ms| then Valid(defs, TypeSchemaOf(f.ty), ms[i].val) else !Required(f)
  }

  lemma ObjectValidIff(defs: map<Id, Schema>, fs: seq<Field>, j: Json)
    ensures Valid(defs, ClassSchemaOf(fs), j) <==>
      j.JObj? && forall x :: 0 <= x < |fs| ==> FieldValid(defs, fs[x], j.members)
  {
    var ps, req := PropertiesOf(fs), RequiredOf(fs);
    forall x | 0 <= x < |fs| ensures ps[x] == Property(fs[x].name, TypeSchemaOf(fs[x].ty)) {
      PropertiesAt(fs, x);
    }
    forall x | 0 <= x < |fs| ensures Required(fs[x]) ==> fs[x].name in req {
      RequiredNames(fs, fs[x].name);
    }
    if j.JObj? && forall x :: 0 <= x < |fs| ==> FieldValid(defs, fs[x], j.members) {
      forall n: string | n in req ensures Has(j.members, n) {
        RequiredNames(fs, n);
        var x :| 0 <= x < |fs| && Required(fs[x]) && fs[x].name == n;
        assert FieldValid(defs, fs[x], j.members);
      }
    }
    if Valid(defs, ClassSchemaOf(fs), j) {
      forall x | 0 <= x < |fs| ensures FieldValid(defs, fs[x], j.members) {
        assert ps[x].name == fs[x].name;
      }
    }
  }

  lemma {:induction false} FieldsOkIff(c: Catalogue, k: Id, fs: seq<Field>, ms: seq<Member>)
    ensures DecodeFields(c, k, fs, ms).Ok? <==> forall x :: 0 <= x < |fs| ==> DecodeField(c, k, fs[x], ms).Ok?
  {
    if |fs| > 0 {
      var n := |fs| - 1;
      FieldsOkIff(c, k, fs[..n], ms);
      assert forall x :: 0 <= x < n ==> fs[..n][x] == fs[x];
    }
  }

  lemma {:induction false} ItemsOkIff(c: Catalogue, t: Ty, items: seq<Json>)
    ensures DecodeItems(c, t, items).Ok? <==> forall x :: 0 <= x < |items| ==> Decode(c, t, items[x]).Ok?
  {
    if |items| > 0 {
      var n := |items| - 1;
      ItemsOkIff(c, t, items[..n]);
      assert forall x :: 0 <= x < n ==> items[..n][x] == items[x];
    }
  }

  lemma {:induction false} EntriesOkIff(c: Catalogue, t: Ty, ms: seq<Member>)
    ensures DecodeEntries(c, t, ms).Ok? <==> forall x :: 0 <= x < |ms| ==> Decode(c, t, ms[x].val).Ok?
  {
    if |ms| > 0 {
      var n := |ms| - 1;
      EntriesOkIff(c, t, ms[..n]);
      assert forall x :: 0 <= x < n ==> ms[..n][x] == ms[x];
    }
  }

  // ---- repairing a payload ----------------------------------------------------------

  /** `j` as a strict producer would have written it: no null where the field is
      Optional, and `unknown` for every enum value nobody declared. */
  function Repair(c: Catalogue, t: Ty, j: Json): Json
    decreases j, t
  {
    match t
    case TOpt(u) => if j.JNull? then j else Repair(c, u, j)
    case TList(u) => if j.JArr? then JArr(RepairItems(c, u, j.items)) else j
    case TDict(u) => if j.JObj? then JObj(RepairEntries(c, u, j.members)) else j
    case TEnum(e) =>
      if e !in c.enums || (j.JStr? && j.s in c.enums[e]) then j else JStr(UNKNOWN)
    case TData(k) =>
      if j.JObj? && k in c.classes then JObj(RepairMembers(c, c.classes[k], j.members)) else j
    case _ => j
  }

  function RepairItems(c: Catalogue, t: Ty, items: seq<Json>): (out: seq<Json>)
    ensures |out| == |items|
    decreases items
  {
    if |items| == 0 then [] else
    RepairItems(c, t, items[..|items| - 1]) + [Repair(c, t, items[|items| - 1])]
  }

  function RepairEntries(c: Catalogue, t: Ty, ms: seq<Member>): (out: seq<Member>)
    ensures |out| == |ms|
    decreases ms
  {
    if |ms| == 0 then [] else
    RepairEntries(c, t, ms[..|ms| - 1]) + [Member(ms[|ms| - 1].key, Repair(c, t, ms[|ms| - 1].val))]
  }

  function RepairMembers(c: Catalogue, fs: seq<Field>, ms: seq<Member>): seq<Member>
    decreases ms
  {
    if |ms| == 0 then []
    else
      var m := ms[|ms| - 1];
      var front, i := RepairMembers(c, fs, ms[..|ms| - 1]), FieldIndex(fs, m.key);
      if i == |fs| then front + [m]
      else if fs[i].ty.TOpt? && m.val.JNull? then front
      else front + [Member(m.key, Repair(c, fs[i].ty, m.val))]
  }

  lemma {:induction false} RepairItemsAt(c: Catalogue, t: Ty, items: seq<Json>, x: nat)
    requires x < |items|
    ensures RepairItems(c, t, items)[x] == Repair(c, t, items[x])
  {
    if x < |items| - 1 {
      RepairItemsAt(c, t, items[..|items| - 1], x);
    }
  }

  lemma {:induction false} RepairEntriesAt(c: Catalogue, t: Ty, ms: seq<Member>, x: nat)
    requires x < |ms|
    ensures RepairEntries(c, t, ms)[x] == Member(ms[x].key, Repair(c, t, ms[x].val))
  {
    if x < |ms| - 1 {
      RepairEntriesAt(c, t, ms[..|ms| - 1], x);
    }
  }

  lemma {:induction false} RepairMembersLookup(c: Catalogue, fs: seq<Field>, ms: seq<Member>, name: string)
    requires DistinctKeys(ms) && HasField(fs, name)
    ensures var f, out := fs[FieldIndex(fs, name)], RepairMembers(c, fs, ms);
      if Has(ms, name) && !(f.ty.TOpt? && Get(ms, name).JNull?)
      then Has(out, name) && Get(out, name) == Repair(c, f.ty, Get(ms, name))
      else !Has(out, name)
  {
    if |ms| > 0 {
      var n := |ms| - 1;
      var front, out := RepairMembers(c, fs, ms[..n]), RepairMembers(c, fs, ms);
      RepairMembersLookup(c, fs, ms[..n], name);
      if out != front {
        assert out[..|out| - 1] == front;
      }
    }
  }

  // ---- agreement ----------------------------------------------------------------------

  lemma {:induction false} SafeNoneIsAny(t: Ty)
    requires t.TOpt? && NullSafe(t)
    ensures TypeSchemaOf(t) == SAny
  {
    if t.arg.TOpt? {
      SafeNoneIsAny(t.arg);
    }
  }

  lemma {:induction false} NullIsInvalid(c: Catalogue, defs: map<Id, Schema>, ns: set<Id>, t: Ty)
    requires Serves(c, defs, ns) && Resolved(c, t) && Mentions(t) <= ns
    requires !t.TAny? && (t.TOpt? ==> !NullSafe(t))
    ensures !Valid(defs, TypeSchemaOf(t), JNull)
  {
    if t.TOpt? {
      NullIsInvalid(c, defs, ns, t.arg);
    }
  }

  /** A null is an answer to a `None` arm that the schema repeats only next to `Any`. */
  lemma NullValidIff(c: Catalogue, defs: map<Id, Schema>, ns: set<Id>, t: Ty)
    requires Serves(c, defs, ns) && Resolved(c, t) && Mentions(t) <= ns && t.TOpt?
    ensures Valid(defs, TypeSchemaOf(t), JNull) <==> NullSafe(t)
  {
    if NullSafe(t) {
      SafeNoneIsAny(t);
    } else {
      NullIsInvalid(c, defs, ns, t);
    }
  }

  /** No null in `j` answers a `None` arm, other than the outermost one of a field, unless
      the arm stands next to `Any`. */
  predicate Bare(c: Catalogue, t: Ty, j: Json)
    decreases j, t
  {
    match t
    case TOpt(u) => if j.JNull? then NullSafe(t) else Bare(c, u, j)
    case TList(u) => j.JArr? ==> forall x :: 0 <= x < |j.items| ==> Bare(c, u, j.items[x])
    case TDict(u) => j.JObj? ==> forall x :: 0 <= x < |j.members| ==> Bare(c, u, j.members[x].val)
    case TData(k) =>
      j.JObj? && k in c.classes ==>
        forall x :: 0 <= x < |c.classes[k]| ==> BareField(c, c.classes[k][x], j.members)
    case _ => true
  }

  predicate BareField(c: Catalogue, f: Field, ms: seq<Member>)
    decreases ms, 0
  {
    var i := IndexOf(ms, f.name);
    i < |ms| ==> (f.ty.TOpt? && ms[i].val.JNull?) || Bare(c, f.ty, ms[i].val)
  }

  /** The emitted schema accepts the repair of a payload exactly when the decoder accepts the
      payload and the payload is bare. */
  lemma {:induction false} RepairValidIff(c: Catalogue, defs: map<Id, Schema>, ns: set<Id>, t: Ty, j: Json)
    requires Declared(c) && Linked(c) && Serves(c, defs, ns) && Resolved(c, t) && Mentions(t) <= ns
    requires UniqueKeys(j)
    ensures Valid(defs, TypeSchemaOf(t), Repair(c, t, j)) <==> Decode(c, t, j).Ok? && Bare(c, t, j)
    decreases j, t, 2
  {
    match t {
      case TOpt(u) =>
        if j.JNull? { NullValidIff(c, defs, ns, t); } else { RepairValidIff(c, defs, ns, u, j); }
      case TList(u) => if j.JArr? { ItemsRepairValidIff(c, defs, ns, u, j.items); }
      case TDict(u) => if j.JObj? { EntriesRepairValidIff(c, defs, ns, u, j.members); }
      case TData(k) => InstanceRepairValidIff(c, defs, ns, k, j);
      case _ =>
    }
  }

  lemma {:induction false} ItemsRepairValidIff(
    c: Catalogue, defs: map<Id, Schema>, ns: set<Id>, u: Ty, items: seq<Json>)
    requires Declared(c) && Linked(c) && Serves(c, defs, ns) && Resolved(c, u) && Mentions(u) <= ns
    requires UniqueKeys(JArr(items))
    ensures Valid(defs, SArray(TypeSchemaOf(u)), JArr(RepairItems(c, u, items))) <==>
            DecodeItems(c, u, items).Ok? && forall x :: 0 <= x < |items| ==> Bare(c, u, items[x])
    decreases items
  {
    var out := RepairItems(c, u, items);
    forall x | 0 <= x < |items|
      ensures Valid(defs, TypeSchemaOf(u), out[x]) <==> Decode(c, u, items[x]).Ok? && Bare(c, u, items[x])
    {
      RepairItemsAt(c, u, items, x);
      RepairValidIff(c, defs, ns, u, items[x]);
    }
    ItemsOkIff(c, u, items);
    ItemsValidIff(c, defs, u, items, out);
  }

  /** Element by element agreement is agreement on the array. */
  lemma ItemsValidIff(c: Catalogue, defs: map<Id, Schema>, u: Ty, items: seq<Json>, out: seq<Json>)
    requires |out| == |items|
    requires forall x :: 0 <= x < |items| ==>
      (Valid(defs, TypeSchemaOf(u), out[x]) <==> Decode(c, u, items[x]).Ok? && Bare(c, u, items[x]))
    ensures Valid(defs, SArray(TypeSchemaOf(u)), JArr(out)) <==>
            (forall x :: 0 <= x < |items| ==> Decode(c, u, items[x]).Ok?) &&
            (forall x :: 0 <= x < |items| ==> Bare(c, u, items[x]))
  {
    if Valid(defs, SArray(TypeSchemaOf(u)), JArr(out)) {
      assert forall x :: 0 <= x < |items| ==> Valid(defs, TypeSchemaOf(u), out[x]);
    }
  }

  lemma {:induction false} EntriesRepairValidIff(
    c: Catalogue, defs: map<Id, Schema>, ns: set<Id>, u: Ty, ms: seq<Member>)
    requires Declared(c) && Linked(c) && Serves(c, defs, ns) && Resolved(c, u) && Mentions(u) <= ns
    requires UniqueKeys(JObj(ms))
    ensures Valid(defs, SMap(TypeSchemaOf(u)), JObj(RepairEntries(c, u, ms))) <==>
            DecodeEntries(c, u, ms).Ok? && forall x :: 0 <= x < |ms| ==> Bare(c, u, ms[x].val)
    decreases ms
  {
    var out := RepairEntries(c, u, ms);
    forall x | 0 <= x < |ms|
      ensures Valid(defs, TypeSchemaOf(u), out[x].val) <==> Decode(c, u, ms[x].val).Ok? && Bare(c, u, ms[x].val)
    {
      RepairEntriesAt(c, u, ms, x);
      RepairValidIff(c, defs, ns, u, ms[x].val);
    }
    EntriesOkIff(c, u, ms);
    EntriesValidIff(c, defs, u, ms, out);
  }

  /** Value by value agreement is agreement on the object. */
  lemma EntriesValidIff(c: Catalogue, defs: map<Id, Schema>, u: Ty, ms: seq<Member>, out: seq<Member>)
    requires |out| == |ms|
    requires forall x :: 0 <= x < |ms| ==>
      (Valid(defs, TypeSchemaOf(u), out[x].val) <==> Decode(c, u, ms[x].val).Ok? && Bare(c, u, ms[x].val))
    ensures Valid(defs, SMap(TypeSchemaOf(u)), JObj(out)) <==>
            (forall x :: 0 <= x < |ms| ==> Decode(c, u, ms[x].val).Ok?) &&
            (forall x :: 0 <= x < |ms| ==> Bare(c, u, ms[x].val))
  {
    if Valid(defs, SMap(TypeSchemaOf(u)), JObj(out)) {
      assert forall x :: 0 <= x < |ms| ==> Valid(defs, TypeSchemaOf(u), out[x].val);
    }
  }

  lemma {:induction false} InstanceRepairValidIff(
    c: Catalogue, defs: map<Id, Schema>, ns: set<Id>, k: Id, j: Json)
    requires Declared(c) && Linked(c) && Serves(c, defs, ns) && k in c.classes && Successors(c, k) <= ns
    requires UniqueKeys(j)
    ensures Valid(defs, ClassSchemaOf(c.classes[k]), Repair(c, TData(k), j)) <==>
            Decode(c, TData(k), j).Ok? && Bare(c, TData(k), j)
    decreases j, TData(k), 0
  {
    var fs := c.classes[k];
    ObjectValidIff(defs, fs, Repair(c, TData(k), j));
    if j.JObj? {
      FieldsOkIff(c, k, fs, j.members);
      forall x | 0 <= x < |fs|
        ensures FieldValid(defs, fs[x], RepairMembers(c, fs, j.members)) <==>
                DecodeField(c, k, fs[x], j.members).Ok? && BareField(c, fs[x], j.members)
      {
        FieldRepairValidIff(c, defs, ns, k, x, j.members);
      }
    }
  }

  lemma {:induction false} FieldRepairValidIff(
    c: Catalogue, defs: map<Id, Schema>, ns: set<Id>, k: Id, x: nat, ms: seq<Member>)
    requires Declared(c) && Linked(c) && Serves(c, defs, ns) && k in c.classes && Successors(c, k) <= ns
    requires UniqueKeys(JObj(ms)) && x < |c.classes[k]|
    ensures FieldValid(defs, c.classes[k][x], RepairMembers(c, c.classes[k], ms)) <==>
            DecodeField(c, k, c.classes[k][x], ms).Ok? && BareField(c, c.classes[k][x], ms)
    decreases ms, 0
  {
    var fs, f := c.classes[k], c.classes[k][x];
    assert DistinctFields(fs) && FieldIndex(fs, f.name) == x;
    FieldIsLinked(c, k, x);
    RepairMembersLookup(c, fs, ms, f.name);
    var i := IndexOf(ms, f.name);
    if i < |ms| && !(f.ty.TOpt? && ms[i].val.JNull?) {
      RepairValidIff(c, defs, ns, f.ty, ms[i].val);
    }
  }

  /** In a ready catalogue every payload is bare. */
  lemma {:induction false} ReadyIsBare(c: Catalogue, t: Ty, j: Json)
    requires SchemaReady(c) && NullSafe(t)
    ensures Bare(c, t, j)
    decreases j, t
  {
    match t {
      case TOpt(u) => if !j.JNull? { ReadyIsBare(c, u, j); }
      case TList(u) =>
        if j.JArr? { forall x | 0 <= x < |j.items| ensures Bare(c, u, j.items[x]) { ReadyIsBare(c, u, j.items[x]); } }
      case TDict(u) =>
        if j.JObj? {
          forall x | 0 <= x < |j.members| ensures Bare(c, u, j.members[x].val) { ReadyIsBare(c, u, j.members[x].val); }
        }
      case TData(k) =>
        if j.JObj? && k in c.classes {
          forall x | 0 <= x < |c.classes[k]| ensures BareField(c, c.classes[k][x], j.members) {
            var f := c.classes[k][x];
            var i := IndexOf(j.members, f.name);
            assert OptOnTop(f.ty);
            if i < |j.members| && !(f.ty.TOpt? && j.members[i].val.JNull?) {
              ReadyIsBare(c, if f.ty.TOpt? then f.ty.arg else f.ty, j.members[i].val);
            }
          }
        }
      case _ =>
    }
  }

  /** For the document the generator emits, payload by payload: the repair validates exactly
      when the decoder accepts the payload and no null in it hides from the schema. */
  lemma RepairValidatesIff(c: Catalogue, k: Id, j: Json)
    requires Declared(c) && Linked(c) && k in c.classes && UniqueKeys(j)
    ensures Validates(DocumentOf(c, k), Repair(c, TData(k), j)) <==>
            Decode(c, TData(k), j).Ok? && Bare(c, TData(k), j)
  {
    DocumentServes(c, k);
    InstanceRepairValidIff(c, DocumentOf(c, k).defs, Reachable(c, k), k, j);
  }

  /** So decoder and document agree on a payload exactly when it does not decode or is bare,
      which in a ready catalogue is always. */
  lemma AcceptsIffRepairValidates(c: Catalogue, k: Id, j: Json)
    requires Declared(c) && Linked(c) && k in c.classes && UniqueKeys(j)
    ensures (Decode(c, TData(k), j).Ok? <==> Validates(DocumentOf(c, k), Repair(c, TData(k), j))) <==>
            (Decode(c, TData(k), j).Ok? ==> Bare(c, TData(k), j))
    ensures SchemaReady(c) ==>
            (Decode(c, TData(k), j).Ok? <==> Validates(DocumentOf(c, k), Repair(c, TData(k), j)))
  {
    RepairValidatesIff(c, k, j);
    if SchemaReady(c) {
      ReadyIsBare(c, TData(k), j);
    }
  }

  lemma ReadyIsLinked(c: Catalogue)
    requires WellFormed(c)
    ensures Linked(c)
  {
    forall k, x | k in c.classes && 0 <= x < |c.classes[k]| ensures Resolved(c, c.classes[k][x].ty) {
      assert GoodClass(c, c.classes[k]) && GoodField(c, c.classes[k][x]);
    }
  }

  // ---- strict payloads decode -----------------------------------------------------------

  lemma {:induction false} ValidDecodes(c: Catalogue, defs: map<Id, Schema>, ns: set<Id>, t: Ty, j: Json)
    requires Linked(c) && Serves(c, defs, ns) && Resolved(c, t) && Mentions(t) <= ns
    requires Valid(defs, TypeSchemaOf(t), j)
    ensures Decode(c, t, j).Ok?
    decreases j, t, 1
  {
    match t {
      case TOpt(u) => if !j.JNull? { ValidDecodes(c, defs, ns, u, j); }
      case TList(u) =>
        ItemsOkIff(c, u, j.items);
        forall x | 0 <= x < |j.items| ensures Decode(c, u, j.items[x]).Ok? {
          ValidDecodes(c, defs, ns, u, j.items[x]);
        }
      case TDict(u) =>
        EntriesOkIff(c, u, j.members);
        forall x | 0 <= x < |j.members| ensures Decode(c, u, j.members[x].val).Ok? {
          ValidDecodes(c, defs, ns, u, j.members[x].val);
        }
      case TData(k) => ValidInstanceDecodes(c, defs, ns, k, j);
      case _ =>
    }
  }

  lemma {:induction false} ValidInstanceDecodes(c: Catalogue, defs: map<Id, Schema>, ns: set<Id>, k: Id, j: Json)
    requires Linked(c) && Serves(c, defs, ns) && k in c.classes && Successors(c, k) <= ns
    requires Valid(defs, ClassSchemaOf(c.classes[k]), j)
    ensures Decode(c, TData(k), j).Ok?
    decreases j, TData(k), 0
  {
    var fs := c.classes[k];
    ObjectValidIff(defs, fs, j);
    FieldsOkIff(c, k, fs, j.members);
    forall x | 0 <= x < |fs| ensures DecodeField(c, k, fs[x], j.members).Ok? {
      assert FieldValid(defs, fs[x], j.members);
      FieldIsLinked(c, k, x);
      var i := IndexOf(j.members, fs[x].name);
      if i < |j.members| {
        ValidDecodes(c, defs, ns, fs[x].ty, j.members[i].val);
      }
    }
  }

  /** Every payload the schema admits, the library reads. */
  lemma ValidatingPayloadDecodes(c: Catalogue, k: Id, j: Json)
    requires Linked(c) && k in c.classes && Validates(DocumentOf(c, k), j)
    ensures Decode(c, TData(k), j).Ok?
  {
    DocumentServes(c, k);
    ValidInstanceDecodes(c, DocumentOf(c, k).defs, Reachable(c, k), k, j);
  }

  // ---- what is written ------------------------------------------------------------------

  /** What a writer prints for a well-typed value validates exactly when it is bare. */
  lemma {:induction false} EncodedValidIff(c: Catalogue, defs: map<Id, Schema>, ns: set<Id>, t: Ty, v: Value)
    requires WellFormed(c) && Serves(c, defs, ns) && Resolved(c, t) && Mentions(t) <= ns && HasType(c, t, v)
    ensures Valid(defs, TypeSchemaOf(t), Encode(v)) <==> Bare(c, t, Encode(v))
    decreases v, t, 2
  {
    match t {
      case TOpt(u) =>
        if v.VNone? { NullValidIff(c, defs, ns, t); } else { EncodedValidIff(c, defs, ns, u, v); }
      case TList(u) => EncodedItemsValidIff(c, defs, ns, u, v);
      case TDict(u) => EncodedEntriesValidIff(c, defs, ns, u, v);
      case TData(k) => EncodedInstanceValidIff(c, defs, ns, k, v);
      case _ =>
    }
  }

  lemma {:induction false} EncodedItemsValidIff(c: Catalogue, defs: map<Id, Schema>, ns: set<Id>, u: Ty, v: Value)
    requires WellFormed(c) && Serves(c, defs, ns) && Resolved(c, u) && Mentions(u) <= ns && HasType(c, TList(u), v)
    ensures Valid(defs, SArray(TypeSchemaOf(u)), Encode(v)) <==> Bare(c, TList(u), Encode(v))
    decreases v, u, 3
  {
    forall x | 0 <= x < |v.items|
      ensures Valid(defs, TypeSchemaOf(u), EncodeItems(v.items)[x]) <==> Bare(c, u, EncodeItems(v.items)[x])
    {
      EncodeItemsAt(v.items, x);
      EncodedValidIff(c, defs, ns, u, v.items[x]);
    }
  }

  lemma {:induction false} EncodedEntriesValidIff(c: Catalogue, defs: map<Id, Schema>, ns: set<Id>, u: Ty, v: Value)
    requires WellFormed(c) && Serves(c, defs, ns) && Resolved(c, u) && Mentions(u) <= ns && HasType(c, TDict(u), v)
    ensures Valid(defs, SMap(TypeSchemaOf(u)), Encode(v)) <==> Bare(c, TDict(u), Encode(v))
    decreases v, u, 3
  {
    forall x | 0 <= x < |v.entries|
      ensures Valid(defs, TypeSchemaOf(u), EncodeEntries(v.entries)[x].val) <==>
              Bare(c, u, EncodeEntries(v.entries)[x].val)
    {
      EncodeEntriesAt(v.entries, x);
      EncodedValidIff(c, defs, ns, u, v.entries[x].val);
    }
  }

  lemma {:induction false} EncodedInstanceValidIff(c: Catalogue, defs: map<Id, Schema>, ns: set<Id>, k: Id, v: Value)
    requires WellFormed(c) && Serves(c, defs, ns) && k in c.classes && Successors(c, k) <= ns
    requires HasType(c, TData(k), v)
    ensures Valid(defs, ClassSchemaOf(c.classes[k]), Encode(v)) <==> Bare(c, TData(k), Encode(v))
    decreases v, TData(k), 1
  {
    var fs, ms := c.classes[k], EncodeSlots(v.slots);
    forall x | 0 <= x < |fs| ensures FieldValid(defs, fs[x], ms) <==> BareField(c, fs[x], ms) {
      EncodedFieldValidIff(c, defs, ns, k, v, x);
    }
    ObjectValidIff(defs, fs, JObj(ms));
  }

  lemma {:induction false} EncodedFieldValidIff(
    c: Catalogue, defs: map<Id, Schema>, ns: set<Id>, k: Id, v: Value, x: nat)
    requires WellFormed(c) && Serves(c, defs, ns) && k in c.classes && Successors(c, k) <= ns
    requires HasType(c, TData(k), v) && x < |c.classes[k]|
    ensures var ms := EncodeSlots(v.slots);
      FieldValid(defs, c.classes[k][x], ms) <==> BareField(c, c.classes[k][x], ms)
    decreases v, TData(k), 0
  {
    var fs, f, val := c.classes[k], c.classes[k][x], v.slots[x].val;
    assert GoodClass(c, fs) && GoodField(c, f);
    EncodeSlotsLookup(v.slots, f.name);
    assert SlotIndex(v.slots, f.name) == x;
    MentionsOfField(fs, x);
    if !val.VNone? {
      EncodedValidIff(c, defs, ns, f.ty, val);
    }
  }

  lemma EncodedIsValid(c: Catalogue, defs: map<Id, Schema>, ns: set<Id>, t: Ty, v: Value)
    requires SchemaReady(c) && Serves(c, defs, ns) && Resolved(c, t) && Mentions(t) <= ns
    requires HasType(c, t, v) && NullSafe(t)
    ensures Valid(defs, TypeSchemaOf(t), Encode(v))
  {
    EncodedValidIff(c, defs, ns, t, v);
    ReadyIsBare(c, t, Encode(v));
  }

  /** Whatever a reader accepted, with unknown keys, nulls and future enum values, what it
      writes back satisfies its own schema exactly when that is bare. */
  lemma RewrittenPayloadValidates(c: Catalogue, k: Id, j: Json)
    requires WellFormed(c) && k in c.classes && Decode(c, TData(k), j).Ok?
    ensures var out := Norm(c, TData(k), j).value;
      && (Validates(DocumentOf(c, k), out) <==> Bare(c, TData(k), out))
      && (SchemaReady(c) ==> Validates(DocumentOf(c, k), out))
  {
    ReadyIsLinked(c);
    DocumentServes(c, k);
    DecodeSound(c, TData(k), j);
    EncodedInstanceValidIff(c, DocumentOf(c, k).defs, Reachable(c, k), k, Decode(c, TData(k), j).value);
    if SchemaReady(c) {
      ReadyIsBare(c, TData(k), Norm(c, TData(k), j).value);
    }
  }

  /** A payload checked against the new schema is safe to hand to an old reader, and what the
      old reader writes satisfies the old schema, if bare. */
  lemma NewSchemaIsSafeForOldReader(c: Catalogue, c': Catalogue, k: Id, j: Json)
    requires WellFormed(c) && WellFormed(c') && Evolution.Enlarges(c, c') && k in c.classes
    requires Validates(DocumentOf(c', k), j)
    ensures Decode(c, TData(k), j).Ok?
    ensures var out := Norm(c, TData(k), j).value;
      && (Validates(DocumentOf(c, k), out) <==> Bare(c, TData(k), out))
      && (SchemaReady(c) ==> Validates(DocumentOf(c, k), out))
  {
    ReadyIsLinked(c');
    ValidatingPayloadDecodes(c', k, j);
    Evolution.EvolutionSquare(c, c', TData(k), j);
    RewrittenPayloadValidates(c, k, j);
  }
}
