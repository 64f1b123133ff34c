/** The contract types: what `dataclasses.fields` and `get_type_hints` say about
    the classes, and the Python values that live in them. */
module Catalogues {
  /** A class or enum. The source tells them apart by identity, and by `__name__` where it
      writes schemas; names are distinct, so one number stands for both. */
  type Id = nat

  /** A type hint. `TOpt(t)` is `t | None`. */
  datatype Ty =
    | TAny
    | TBool
    | TInt
    | TFloat
    | TStr
    | TOpt(arg: Ty)
    | TList(elem: Ty)
    | TDict(val: Ty)
    | TEnum(name: Id)
    | TData(name: Id)

  /** A Python value. An instance keeps its attributes in field order. */
  datatype Value =
    | VNone
    | VBool(b: bool)
    | VInt(i: int)
    | VFloat(r: real)
    | VStr(s: string)
    | VList(items: seq<Value>)
    | VDict(entries: seq<Slot>)
    | VEnum(enum: Id, member: string)
    | VData(cls: Id, slots: seq<Slot>)

  datatype Slot = Slot(name: string, val: Value)

  datatype Default = NoDefault | Default(val: Value)

  datatype Field = Field(name: string, ty: Ty, dflt: Default)

  /** Enums with their values, dataclasses with their fields. */
  datatype Catalogue = Catalogue(enums: map<Id, seq<string>>, classes: map<Id, seq<Field>>)

  const UNKNOWN := "unknown"

  // ---- fields ---------------------------------------------------------------

  predicate DistinctFields(fs: seq<Field>) {
    forall x, y :: 0 <= x < y < |fs| ==> fs[x].name != fs[y].name
  }

  /** `_is_optional` on the hint, with no default of either kind. */
  predicate Required(f: Field) {
    f.dflt.NoDefault? && !f.ty.TOpt?
  }

  /** The attribute a missing key leaves behind. */
  function Absent(f: Field): Value
    requires !Required(f)
  {
    if f.dflt.Default? then f.dflt.val else VNone
  }

  /** A field that is `None` after its key was left out. */
  predicate ReadsNone(f: Field) {
    !Required(f) && Absent(f) == VNone
  }

  function SlotIndex(slots: seq<Slot>, name: string): (i: nat)
    ensures i <= |slots|
    ensures i < |slots| ==> slots[i].name == name
    ensures forall x :: 0 <= x < i ==> slots[x].name != name
  {
    if |slots| == 0 then 0
    else
      var n := |slots| - 1;
      var i := SlotIndex(slots[..n], name);
      if i < n then i
      else if slots[n].name == name then n
      else |slots|
  }

  /** The attribute `name` of an instance, or `None`. */
  function Attr(v: Value, name: string): Value {
    if v.VData? && SlotIndex(v.slots, name) < |v.slots| then v.slots[SlotIndex(v.slots, name)].val else VNone
  }

  /** The elements of a list attribute. */
  function Elements(v: Value, name: string): seq<Value> {
    var list := Attr(v, name);
    if list.VList? then list.items else []
  }

  function FieldIndex(fs: seq<Field>, name: string): (i: nat)
    ensures i <= |fs|
    ensures i < |fs| ==> fs[i].name == name
    ensures forall x :: 0 <= x < i ==> fs[x].name != name
  {
    if |fs| == 0 then 0
    else
      var n := |fs| - 1;
      var i := FieldIndex(fs[..n], name);
      if i < n then i
      else if fs[n].name == name then n
      else |fs|
  }

  /** Field names are attributes in Python, hence distinct. */
  predicate Declared(c: Catalogue) {
    forall k :: k in c.classes ==> DistinctFields(c.classes[k])
  }

  predicate HasField(fs: seq<Field>, name: string) {
    FieldIndex(fs, name) < |fs|
  }

  // ---- typing -----------------------------------------------------------------

  /** Every enum and dataclass `t` mentions exists. */
  predicate Resolved(c: Catalogue, t: Ty) {
    match t
    case TOpt(u) => Resolved(c, u)
    case TList(u) => Resolved(c, u)
    case TDict(u) => Resolved(c, u)
    case TEnum(e) => e in c.enums
    case TData(k) => k in c.classes
    case _ => true
  }

  /** A value built of plain Python containers and scalars, as `json.loads` builds it. */
  predicate IsRaw(v: Value) {
    match v
    case VList(items) => forall x :: 0 <= x < |items| ==> IsRaw(items[x])
    case VDict(es) => forall x :: 0 <= x < |es| ==> IsRaw(es[x].val)
    case VEnum(_, _) => false
    case VData(_, _) => false
    case _ => true
  }

  predicate HasType(c: Catalogue, t: Ty, v: Value)
    decreases v, t
  {
    match t
    case TAny => IsRaw(v)
    case TBool => v.VBool?
    case TInt => v.VInt?
    case TFloat => v.VFloat?
    case TStr => v.VStr?
    case TOpt(u) => v.VNone? || HasType(c, u, v)
    case TList(u) => v.VList? && forall x :: 0 <= x < |v.items| ==> HasType(c, u, v.items[x])
    case TDict(u) => v.VDict? && forall x :: 0 <= x < |v.entries| ==> HasType(c, u, v.entries[x].val)
    case TEnum(e) => v.VEnum? && v.enum == e && e in c.enums && v.member in c.enums[e]
    case TData(k) =>
      && v.VData? && v.cls == k && k in c.classes
      && |v.slots| == |c.classes[k]|
      && forall x :: 0 <= x < |v.slots| ==>
        v.slots[x].name == c.classes[k][x].name && HasType(c, c.classes[k][x].ty, v.slots[x].val)
  }

  // ---- well-formed catalogues -----------------------------------------------

  /** What a field must satisfy for a dropped `None` to come back as `None`. */
  predicate GoodField(c: Catalogue, f: Field) {
    && Resolved(c, f.ty)
    && (f.ty.TAny? ==> f.dflt == Default(VNone))
    && (f.ty.TOpt? ==> f.dflt in {NoDefault, Default(VNone)})
    && (f.dflt.Default? ==> HasType(c, f.ty, f.dflt.val))
  }

  predicate GoodClass(c: Catalogue, fs: seq<Field>) {
    DistinctFields(fs) && forall x :: 0 <= x < |fs| ==> GoodField(c, fs[x])
  }

  predicate WellFormed(c: Catalogue) {
    && c.enums.Keys !! c.classes.Keys
    && (forall e :: e in c.enums ==> UNKNOWN in c.enums[e])
    && (forall k :: k in c.classes ==> GoodClass(c, c.classes[k]))
  }

  /** A `None` arm occurs inside `t` only next to `Any`, whose schema admits null. */
  predicate NullSafe(t: Ty) {
    match t
    case TOpt(u) => u.TAny? || (u.TOpt? && NullSafe(u))
    case TList(u) => NullSafe(u)
    case TDict(u) => NullSafe(u)
    case _ => true
  }

  /** Other `None` arms are the outermost constructor of a field's hint. */
  predicate OptOnTop(t: Ty) {
    NullSafe(if t.TOpt? then t.arg else t)
  }

  predicate SchemaReady(c: Catalogue) {
    WellFormed(c) && forall k :: k in c.classes ==>
      forall x :: 0 <= x < |c.classes[k]| ==> OptOnTop(c.classes[k][x].ty)
  }
}
