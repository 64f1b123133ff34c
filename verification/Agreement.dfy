/** Where decoder and schema agree on every payload. */
module Agreement {
  import opened JsonValues
  import opened Catalogues
  import opened Serde
  import opened RoundTrip
  import opened SchemaGen
  import opened Validation

  // A payload that decodes can only fail its schema by a null at a buried `None` arm. Whether
  // a hint has such a payload is read off the classes here.

  /** Some payload decodes at `t`. */
  ghost predicate Admits(c: Catalogue, t: Ty) {
    exists j :: UniqueKeys(j) && Decode(c, t, j).Ok?
  }

  /** `j` decodes at `t` by a null the schema does not know of. */
  predicate Exposes(c: Catalogue, t: Ty, j: Json) {
    UniqueKeys(j) && Decode(c, t, j).Ok? && !Bare(c, t, j)
  }

  ghost predicate Exposed(c: Catalogue, t: Ty) {
    exists j :: Exposes(c, t, j)
  }

  // ---- what is read off the classes --------------------------------------------------

  /** `t` without the `None` arms on top of it. */
  function Strip(t: Ty): (u: Ty)
    ensures !u.TOpt? && Mentions(u) == Mentions(t)
  {
    if t.TOpt? then Strip(t.arg) else t
  }

  /** Nothing decodes at `t`, if nothing decodes at the classes of `dead`. */
  predicate Barren(c: Catalogue, dead: set<Id>, t: Ty) {
    || (t.TData? && t.name in dead)
    || (t.TEnum? && t.name in c.enums && c.enums[t.name] == [])
  }

  /** Some field is demanded that nothing can fill. */
  predicate DeadClass(c: Catalogue, dead: set<Id>, fs: seq<Field>) {
    exists x :: 0 <= x < |fs| && Required(fs[x]) && Barren(c, dead, fs[x].ty)
  }

  predicate Dead(c: Catalogue, dead: set<Id>) {
    dead <= c.classes.Keys && forall k :: k in dead ==> DeadClass(c, dead, c.classes[k])
  }

  /** No field buries a `None` arm, or leads to a class outside. */
  predicate SafeClass(c: Catalogue, safe: set<Id>, dead: set<Id>, fs: seq<Field>) {
    forall x :: 0 <= x < |fs| ==> SafeField(c, safe, dead, fs[x])
  }

  predicate Safe(c: Catalogue, safe: set<Id>, dead: set<Id>) {
    safe <= c.classes.Keys && forall k :: k in safe ==> SafeClass(c, safe, dead, c.classes[k])
  }

  predicate SafeField(c: Catalogue, safe: set<Id>, dead: set<Id>, f: Field) {
    NullSafe(Strip(f.ty)) && Mentions(f.ty) * c.classes.Keys <= safe + dead
  }

  /** The classes in `ns` can be divided into dead ones and safe ones. */
  ghost predicate Sheltered(c: Catalogue, ns: set<Id>) {
    exists safe, dead :: Dead(c, dead) && Safe(c, safe, dead) && ns * c.classes.Keys <= safe + dead
  }

  // ---- sheltered classes hide no null ------------------------------------------------

  lemma {:induction false} DeadAdmitsNothing(c: Catalogue, dead: set<Id>, k: Id, j: Json)
    requires Dead(c, dead) && k in dead
    ensures Decode(c, TData(k), j).Err?
    decreases j, 1
  {
    if j.JObj? {
      var fs := c.classes[k];
      var x :| 0 <= x < |fs| && Required(fs[x]) && Barren(c, dead, fs[x].ty);
      NothingFills(c, dead, k, fs[x], j.members);
      FieldsOkIff(c, k, fs, j.members);
    }
  }

  lemma {:induction false} NothingFills(c: Catalogue, dead: set<Id>, k: Id, f: Field, ms: seq<Member>)
    requires Dead(c, dead) && Required(f) && Barren(c, dead, f.ty)
    ensures DecodeField(c, k, f, ms).Err?
    decreases ms, 0
  {
    var i := IndexOf(ms, f.name);
    if i < |ms| && f.ty.TData? {
      DeadAdmitsNothing(c, dead, f.ty.name, ms[i].val);
    }
  }

  /** On anything but null, the arms on top do not matter. */
  lemma {:induction false} StripDecodes(c: Catalogue, t: Ty, j: Json)
    requires j.JNull? ==> !t.TOpt?
    ensures Decode(c, t, j) == Decode(c, Strip(t), j) && Bare(c, t, j) == Bare(c, Strip(t), j)
  {
    if t.TOpt? {
      StripDecodes(c, t.arg, j);
    }
  }

  lemma {:induction false} ShelteredIsBare(c: Catalogue, safe: set<Id>, dead: set<Id>, t: Ty, j: Json)
    requires Dead(c, dead) && Safe(c, safe, dead)
    requires NullSafe(t) && Mentions(t) * c.classes.Keys <= safe + dead
    requires Decode(c, t, j).Ok?
    ensures Bare(c, t, j)
    decreases j, t
  {
    match t {
      case TOpt(u) => if !j.JNull? { ShelteredIsBare(c, safe, dead, u, j); }
      case TList(u) => ShelteredItemsAreBare(c, safe, dead, u, j.items);
      case TDict(u) => ShelteredEntriesAreBare(c, safe, dead, u, j.members);
      case TData(k) =>
        assert k in Mentions(t) * c.classes.Keys;
        if k in dead {
          DeadAdmitsNothing(c, dead, k, j);
        } else {
          ShelteredInstanceIsBare(c, safe, dead, k, j.members);
        }
      case _ =>
    }
  }

  lemma {:induction false} ShelteredItemsAreBare(
    c: Catalogue, safe: set<Id>, dead: set<Id>, u: Ty, items: seq<Json>)
    requires Dead(c, dead) && Safe(c, safe, dead)
    requires NullSafe(u) && Mentions(u) * c.classes.Keys <= safe + dead
    requires DecodeItems(c, u, items).Ok?
    ensures forall x :: 0 <= x < |items| ==> Bare(c, u, items[x])
    decreases items
  {
    ItemsOkIff(c, u, items);
    forall x | 0 <= x < |items| ensures Bare(c, u, items[x]) {
      ShelteredIsBare(c, safe, dead, u, items[x]);
    }
  }

  lemma {:induction false} ShelteredEntriesAreBare(
    c: Catalogue, safe: set<Id>, dead: set<Id>, u: Ty, ms: seq<Member>)
    requires Dead(c, dead) && Safe(c, safe, dead)
    requires NullSafe(u) && Mentions(u) * c.classes.Keys <= safe + dead
    requires DecodeEntries(c, u, ms).Ok?
    ensures forall x :: 0 <= x < |ms| ==> Bare(c, u, ms[x].val)
    decreases ms
  {
    EntriesOkIff(c, u, ms);
    forall x | 0 <= x < |ms| ensures Bare(c, u, ms[x].val) {
      ShelteredIsBare(c, safe, dead, u, ms[x].val);
    }
  }

  lemma {:induction false} ShelteredInstanceIsBare(
    c: Catalogue, safe: set<Id>, dead: set<Id>, k: Id, ms: seq<Member>)
    requires Dead(c, dead) && Safe(c, safe, dead) && k in safe
    requires DecodeFields(c, k, c.classes[k], ms).Ok?
    ensures Bare(c, TData(k), JObj(ms))
    decreases ms, 1
  {
    FieldsOkIff(c, k, c.classes[k], ms);
    forall x | 0 <= x < |c.classes[k]| ensures BareField(c, c.classes[k][x], ms) {
      ShelteredFieldIsBare(c, safe, dead, k, x, ms);
    }
  }

  lemma {:induction false} ShelteredFieldIsBare(
    c: Catalogue, safe: set<Id>, dead: set<Id>, k: Id, x: nat, ms: seq<Member>)
    requires Dead(c, dead) && Safe(c, safe, dead)
    requires k in safe && x < |c.classes[k]| && DecodeField(c, k, c.classes[k][x], ms).Ok?
    ensures BareField(c, c.classes[k][x], ms)
    decreases ms, 0
  {
    var f := c.classes[k][x];
    assert SafeField(c, safe, dead, f);
    var i := IndexOf(ms, f.name);
    if i < |ms| && !(f.ty.TOpt? && ms[i].val.JNull?) {
      StripDecodes(c, f.ty, ms[i].val);
      ShelteredIsBare(c, safe, dead, Strip(f.ty), ms[i].val);
    }
  }

  // ---- a class outside every shelter has a payload to show for it --------------------

  /** The members of a payload for the leading fields `fs`: those of `given`, and some value
      for every other required field. */
  ghost function Filled(c: Catalogue, fs: seq<Field>, given: map<string, Json>): seq<Member> {
    if |fs| == 0 then []
    else
      var f := fs[|fs| - 1];
      var front := Filled(c, fs[..|fs| - 1], given);
      if f.name in given then front + [Member(f.name, given[f.name])]
      else if Required(f) && Admits(c, f.ty) then front + [Member(f.name, Sample(c, f.ty))]
      else front
  }

  ghost function Sample(c: Catalogue, t: Ty): (j: Json)
    requires Admits(c, t)
    ensures UniqueKeys(j) && Decode(c, t, j).Ok?
  {
    var j :| UniqueKeys(j) && Decode(c, t, j).Ok?;
    j
  }

  /** What a filled payload says about one field. */
  ghost predicate Answered(c: Catalogue, f: Field, given: map<string, Json>, ms: seq<Member>) {
    if f.name in given then Has(ms, f.name) && Get(ms, f.name) == given[f.name]
    else if Required(f) && Admits(c, f.ty) then Has(ms, f.name) && Get(ms, f.name) == Sample(c, f.ty)
    else !Has(ms, f.name)
  }

  lemma {:induction false} FilledLookup(c: Catalogue, fs: seq<Field>, given: map<string, Json>, x: nat)
    requires DistinctFields(fs) && x < |fs|
    ensures Answered(c, fs[x], given, Filled(c, fs, given))
  {
    var n := |fs| - 1;
    var front, ms := Filled(c, fs[..n], given), Filled(c, fs, given);
    if x < n {
      FilledLookup(c, fs[..n], given, x);
      if ms != front { AnsweredStill(c, fs[x], given, front, ms[|front|]); }
    } else {
      LastAnswered(c, fs, given);
    }
  }

  lemma AnsweredStill(c: Catalogue, f: Field, given: map<string, Json>, front: seq<Member>, m: Member)
    requires Answered(c, f, given, front) && m.key != f.name
    ensures Answered(c, f, given, front + [m])
  {
    AppendLookup(front, m, f.name);
  }

  lemma LastAnswered(c: Catalogue, fs: seq<Field>, given: map<string, Json>)
    requires DistinctFields(fs) && |fs| > 0
    ensures Answered(c, fs[|fs| - 1], given, Filled(c, fs, given))
  {
    var f, front, ms := fs[|fs| - 1], Filled(c, fs[..|fs| - 1], given), Filled(c, fs, given);
    FilledKeys(c, fs[..|fs| - 1], given);
    assert !Has(front, f.name);
    if ms != front { AppendLookup(front, ms[|front|], f.name); }
  }

  lemma AppendLookup(front: seq<Member>, m: Member, name: string)
    ensures var ms := front + [m];
      if Has(front, name) then Has(ms, name) && Get(ms, name) == Get(front, name)
      else if m.key == name then Has(ms, name) && Get(ms, name) == m.val
      else !Has(ms, name)
  {
    assert (front + [m])[..|front|] == front;
  }

  lemma {:induction false} FilledKeys(c: Catalogue, fs: seq<Field>, given: map<string, Json>)
    requires DistinctFields(fs)
    ensures var ms := Filled(c, fs, given);
      DistinctKeys(ms) && forall y :: 0 <= y < |ms| ==> HasField(fs, ms[y].key)
  {
    if |fs| > 0 {
      var n := |fs| - 1;
      FilledKeys(c, fs[..n], given);
    }
  }

  lemma FilledDecodes(c: Catalogue, k: Id, given: map<string, Json>)
    requires Declared(c) && k in c.classes
    requires forall x :: 0 <= x < |c.classes[k]| ==> Fillable(c, c.classes[k][x], given)
    ensures var j := JObj(Filled(c, c.classes[k], given)); UniqueKeys(j) && Decode(c, TData(k), j).Ok?
  {
    var fs := c.classes[k];
    var ms := Filled(c, fs, given);
    FilledKeys(c, fs, given);
    forall x | 0 <= x < |fs| ensures DecodeField(c, k, fs[x], ms).Ok? {
      assert Fillable(c, fs[x], given);
      FilledLookup(c, fs, given, x);
    }
    FieldsOkIff(c, k, fs, ms);
    forall y | 0 <= y < |ms| ensures UniqueKeys(ms[y].val) {
      var x := FieldIndex(fs, ms[y].key);
      assert Fillable(c, fs[x], given);
      FilledLookup(c, fs, given, x);
    }
  }

  ghost predicate Fillable(c: Catalogue, f: Field, given: map<string, Json>) {
    if f.name in given then UniqueKeys(given[f.name]) && Decode(c, f.ty, given[f.name]).Ok?
    else Required(f) ==> Admits(c, f.ty)
  }

  ghost function Empty(c: Catalogue): set<Id> {
    set k | k in c.classes && !Admits(c, TData(k))
  }

  lemma AdmitsUnlessBarren(c: Catalogue, t: Ty)
    requires Resolved(c, t) && !Barren(c, Empty(c), t)
    ensures Admits(c, t)
  {
    var j :=
      match t
      case TBool => JBool(false)
      case TInt => JInt(0)
      case TFloat => JInt(0)
      case TStr => JStr("")
      case TList(_) => JArr([])
      case TDict(_) => JObj([])
      case TEnum(e) => JStr(c.enums[e][0])
      case _ => JNull;
    if !t.TData? {
      assert UniqueKeys(j) && Decode(c, t, j).Ok?;
    }
  }

  lemma EmptyIsDead(c: Catalogue)
    requires Declared(c) && Linked(c)
    ensures Dead(c, Empty(c))
  {
    forall k | k in Empty(c) ensures DeadClass(c, Empty(c), c.classes[k]) {
      var fs := c.classes[k];
      if !DeadClass(c, Empty(c), fs) {
        forall x | 0 <= x < |fs| ensures Fillable(c, fs[x], map[]) {
          if Required(fs[x]) { AdmitsUnlessBarren(c, fs[x].ty); }
        }
        FilledDecodes(c, k, map[]);
        assert false;
      }
    }
  }

  /** No payload decodes at a class exactly when it lies in a dead set. */
  lemma EmptyIff(c: Catalogue, k: Id)
    requires Declared(c) && Linked(c) && k in c.classes
    ensures (exists dead :: Dead(c, dead) && k in dead) <==> !Admits(c, TData(k))
  {
    EmptyIsDead(c);
    if dead :| Dead(c, dead) && k in dead {
      forall j ensures Decode(c, TData(k), j).Err? { DeadAdmitsNothing(c, dead, k, j); }
    }
  }

  /** A field that can hide a null does so in some payload of its class. */
  lemma FieldExposes(c: Catalogue, k: Id, x: nat, w: Json)
    requires Declared(c) && k in c.classes && x < |c.classes[k]| && Admits(c, TData(k))
    requires Exposes(c, c.classes[k][x].ty, w) && !w.JNull?
    ensures Exposed(c, TData(k))
  {
    var fs := c.classes[k];
    var given := map[fs[x].name := w];
    forall y | 0 <= y < |fs| ensures Fillable(c, fs[y], given) {
      if y != x && Required(fs[y]) { RequiredAdmits(c, k, y); }
    }
    FilledDecodes(c, k, given);
    FilledLookup(c, fs, given, x);
    var j := JObj(Filled(c, fs, given));
    assert !BareField(c, fs[x], j.members);
    assert Exposes(c, TData(k), j);
  }

  lemma RequiredAdmits(c: Catalogue, k: Id, y: nat)
    requires k in c.classes && y < |c.classes[k]| && Required(c.classes[k][y]) && Admits(c, TData(k))
    ensures Admits(c, c.classes[k][y].ty)
  {
    var fs, j := c.classes[k], Sample(c, TData(k));
    FieldsOkIff(c, k, fs, j.members);
    var i := IndexOf(j.members, fs[y].name);
    assert DecodeField(c, k, fs[y], j.members).Ok?;
    assert UniqueKeys(j.members[i].val);
  }

  /** A payload that decodes although its repair does not validate. */
  function Unrepaired(t: Ty): Json {
    match t
    case TList(u) => JArr([Unrepaired(u)])
    case TDict(u) => JObj([Member("", Unrepaired(u))])
    case _ => JNull
  }

  lemma {:induction false} NestedNoneExposes(c: Catalogue, t: Ty)
    requires !NullSafe(t)
    ensures Exposes(c, t, Unrepaired(t))
  {
    match t {
      case TOpt(u) =>
      case TList(u) =>
        NestedNoneExposes(c, u);
        ItemsOkIff(c, u, [Unrepaired(u)]);
        assert !Bare(c, u, Unrepaired(t).items[0]);
      case TDict(u) =>
        NestedNoneExposes(c, u);
        EntriesOkIff(c, u, [Member("", Unrepaired(u))]);
        assert !Bare(c, u, Unrepaired(t).members[0].val);
      case _ =>
    }
  }

  /** `j` in the place where `t` mentions a name. */
  function Wrap(t: Ty, j: Json): Json {
    match t
    case TOpt(u) => Wrap(u, j)
    case TList(u) => JArr([Wrap(u, j)])
    case TDict(u) => JObj([Member("", Wrap(u, j))])
    case _ => j
  }

  lemma {:induction false} MentionExposes(c: Catalogue, t: Ty, k: Id, j: Json)
    requires Linked(c) && Resolved(c, t) && k in c.classes && k in Mentions(t)
    requires Exposes(c, TData(k), j)
    ensures Exposes(c, t, Wrap(t, j)) && !Wrap(t, j).JNull?
  {
    match t {
      case TOpt(u) => MentionExposes(c, u, k, j);
      case TList(u) =>
        MentionExposes(c, u, k, j);
        ItemsOkIff(c, u, [Wrap(u, j)]);
        assert !Bare(c, u, Wrap(t, j).items[0]);
      case TDict(u) =>
        MentionExposes(c, u, k, j);
        EntriesOkIff(c, u, [Member("", Wrap(u, j))]);
        assert !Bare(c, u, Wrap(t, j).members[0].val);
      case _ =>
    }
  }

  /** The classes that hide no null, those without a payload aside. */
  ghost function Unexposed(c: Catalogue): set<Id> {
    set k | k in c.classes && Admits(c, TData(k)) && !Exposed(c, TData(k))
  }

  lemma UnexposedIsSafe(c: Catalogue)
    requires Declared(c) && Linked(c)
    ensures Safe(c, Unexposed(c), Empty(c))
  {
    forall k, x | k in Unexposed(c) && 0 <= x < |c.classes[k]|
      ensures SafeField(c, Unexposed(c), Empty(c), c.classes[k][x])
    {
      UnexposedField(c, k, x);
    }
  }

  lemma UnexposedField(c: Catalogue, k: Id, x: nat)
    requires Declared(c) && Linked(c) && k in Unexposed(c) && x < |c.classes[k]|
    ensures SafeField(c, Unexposed(c), Empty(c), c.classes[k][x])
  {
    var f := c.classes[k][x];
    if !NullSafe(Strip(f.ty)) {
      var w := Unrepaired(Strip(f.ty));
      NestedNoneExposes(c, Strip(f.ty));
      StripDecodes(c, f.ty, w);
      FieldExposes(c, k, x, w);
    }
    forall n | n in Mentions(f.ty) * c.classes.Keys ensures n in Unexposed(c) + Empty(c) {
      if Exposed(c, TData(n)) {
        var w :| Exposes(c, TData(n), w);
        MentionExposes(c, f.ty, n, w);
        FieldExposes(c, k, x, Wrap(f.ty, w));
      }
    }
  }

  // ---- agreement --------------------------------------------------------------------

  /** No payload of a hint hides a null exactly when the hint buries no `None` arm and the
      classes it mentions are sheltered. */
  lemma ExposedIff(c: Catalogue, t: Ty)
    requires Declared(c) && Linked(c) && Resolved(c, t)
    ensures Exposed(c, t) <==> !(NullSafe(t) && Sheltered(c, Mentions(t)))
  {
    if NullSafe(t) && Sheltered(c, Mentions(t)) {
      var safe, dead :| Dead(c, dead) && Safe(c, safe, dead) && Mentions(t) * c.classes.Keys <= safe + dead;
      forall j | UniqueKeys(j) && Decode(c, t, j).Ok? ensures Bare(c, t, j) {
        ShelteredIsBare(c, safe, dead, t, j);
      }
    } else if !NullSafe(t) {
      NestedNoneExposes(c, t);
    } else {
      EmptyIsDead(c);
      UnexposedIsSafe(c);
      var k :| k in Mentions(t) * c.classes.Keys && k !in Unexposed(c) + Empty(c);
      var j :| Exposes(c, TData(k), j);
      MentionExposes(c, t, k, j);
    }
  }

  lemma {:induction false} OnlyNullReadsNone(c: Catalogue, t: Ty, j: Json)
    requires Decode(c, t, j).Ok? && Decode(c, t, j).value.VNone?
    ensures j.JNull? && (t.TAny? || t.TOpt?)
  {
    if t.TOpt? && !j.JNull? {
      OnlyNullReadsNone(c, t.arg, j);
    }
  }

  /** Reading a payload and writing it back hides no null it did not hide before. */
  lemma {:induction false} RewritingKeepsNulls(c: Catalogue, t: Ty, j: Json)
    requires Declared(c) && Decode(c, t, j).Ok? && Bare(c, t, Encode(Decode(c, t, j).value))
    ensures Bare(c, t, j)
    decreases j, t
  {
    match t {
      case TOpt(u) =>
        if !j.JNull? {
          if Decode(c, u, j).value.VNone? { OnlyNullReadsNone(c, u, j); }
          RewritingKeepsNulls(c, u, j);
        }
      case TList(u) => RewritingKeepsItemNulls(c, u, j.items);
      case TDict(u) => RewritingKeepsEntryNulls(c, u, j.members);
      case TData(k) =>
        forall x | 0 <= x < |c.classes[k]| ensures BareField(c, c.classes[k][x], j.members) {
          RewritingKeepsFieldNulls(c, k, x, j.members);
        }
      case _ =>
    }
  }

  lemma {:induction false} RewritingKeepsItemNulls(c: Catalogue, u: Ty, items: seq<Json>)
    requires Declared(c) && DecodeItems(c, u, items).Ok?
    requires Bare(c, TList(u), JArr(EncodeItems(DecodeItems(c, u, items).value)))
    ensures forall x :: 0 <= x < |items| ==> Bare(c, u, items[x])
    decreases items
  {
    var vs := DecodeItems(c, u, items).value;
    forall x | 0 <= x < |items| ensures Bare(c, u, items[x]) {
      DecodeItemsAt(c, u, items, x);
      EncodeItemsAt(vs, x);
      RewritingKeepsNulls(c, u, items[x]);
    }
  }

  lemma {:induction false} RewritingKeepsEntryNulls(c: Catalogue, u: Ty, ms: seq<Member>)
    requires Declared(c) && DecodeEntries(c, u, ms).Ok?
    requires Bare(c, TDict(u), JObj(EncodeEntries(DecodeEntries(c, u, ms).value)))
    ensures forall x :: 0 <= x < |ms| ==> Bare(c, u, ms[x].val)
    decreases ms
  {
    var es := DecodeEntries(c, u, ms).value;
    forall x | 0 <= x < |ms| ensures Bare(c, u, ms[x].val) {
      DecodeEntriesAt(c, u, ms, x);
      EncodeEntriesAt(es, x);
      RewritingKeepsNulls(c, u, ms[x].val);
    }
  }

  lemma {:induction false} RewritingKeepsFieldNulls(c: Catalogue, k: Id, x: nat, ms: seq<Member>)
    requires Declared(c) && k in c.classes && x < |c.classes[k]|
    requires DecodeFields(c, k, c.classes[k], ms).Ok?
    requires BareField(c, c.classes[k][x], EncodeSlots(DecodeFields(c, k, c.classes[k], ms).value))
    ensures BareField(c, c.classes[k][x], ms)
    decreases ms, 0
  {
    var f, val := c.classes[k][x], DecodeFields(c, k, c.classes[k], ms).value[x].val;
    RewrittenMember(c, k, x, ms);
    var i := IndexOf(ms, f.name);
    if i < |ms| {
      if val.VNone? {
        OnlyNullReadsNone(c, f.ty, ms[i].val);
      } else if !(f.ty.TOpt? && ms[i].val.JNull?) {
        RewritingKeepsNulls(c, f.ty, ms[i].val);
      }
    }
  }

  lemma RewrittenMember(c: Catalogue, k: Id, x: nat, ms: seq<Member>)
    requires Declared(c) && k in c.classes && x < |c.classes[k]|
    requires DecodeFields(c, k, c.classes[k], ms).Ok?
    ensures var f, slots := c.classes[k][x], DecodeFields(c, k, c.classes[k], ms).value;
      var out := EncodeSlots(slots);
      && DecodeField(c, k, f, ms) == Ok(slots[x].val)
      && (!slots[x].val.VNone? ==> Has(out, f.name) && Get(out, f.name) == Encode(slots[x].val))
  {
    var fs, slots := c.classes[k], DecodeFields(c, k, c.classes[k], ms).value;
    forall y | 0 <= y < |fs| ensures slots[y].name == fs[y].name {
      DecodeFieldsAt(c, k, fs, ms, y);
    }
    DecodeFieldsAt(c, k, fs, ms, x);
    assert SlotIndex(slots, fs[x].name) == x;
    EncodeSlotsLookup(slots, fs[x].name);
  }

  ghost predicate AgreesAt(c: Catalogue, defs: map<Id, Schema>, t: Ty, j: Json) {
    Decode(c, t, j).Ok? <==> Valid(defs, TypeSchemaOf(t), Repair(c, t, j))
  }

  /** Decoder and schema agree on every payload of a hint exactly when no `None` arm hides
      below its top, except next to `Any`, nor in the classes it leads to. */
  lemma AgreementIff(c: Catalogue, defs: map<Id, Schema>, ns: set<Id>, t: Ty)
    requires Declared(c) && Linked(c) && Serves(c, defs, ns) && Resolved(c, t) && Mentions(t) <= ns
    ensures (forall j :: UniqueKeys(j) ==> AgreesAt(c, defs, t, j)) <==>
            NullSafe(t) && Sheltered(c, Mentions(t))
    ensures SchemaReady(c) ==> ((forall j :: UniqueKeys(j) ==> AgreesAt(c, defs, t, j)) <==> NullSafe(t))
  {
    forall j | UniqueKeys(j) ensures AgreesAt(c, defs, t, j) <==> !Exposes(c, t, j) {
      RepairValidIff(c, defs, ns, t, j);
    }
    ExposedIff(c, t);
    if SchemaReady(c) {
      ReadyIsSheltered(c, Mentions(t));
    }
  }

  ghost predicate DocumentAgreesAt(c: Catalogue, k: Id, j: Json)
    requires k in c.classes
  {
    Decode(c, TData(k), j).Ok? <==> Validates(DocumentOf(c, k), Repair(c, TData(k), j))
  }

  /** The same for an emitted document. */
  lemma DocumentAgreesIff(c: Catalogue, k: Id)
    requires Declared(c) && Linked(c) && k in c.classes
    ensures (forall j :: UniqueKeys(j) ==> DocumentAgreesAt(c, k, j)) <==> Sheltered(c, {k})
  {
    forall j | UniqueKeys(j) ensures DocumentAgreesAt(c, k, j) <==> !Exposes(c, TData(k), j) {
      RepairValidatesIff(c, k, j);
    }
    assert Mentions(TData(k)) == {k};
    ExposedIff(c, TData(k));
  }

  /** In a ready catalogue every class is sheltered, so only the hint itself matters. */
  lemma ReadyIsSheltered(c: Catalogue, ns: set<Id>)
    requires SchemaReady(c)
    ensures Sheltered(c, ns)
  {
    forall k, x | k in c.classes && 0 <= x < |c.classes[k]|
      ensures SafeField(c, c.classes.Keys, {}, c.classes[k][x])
    {
      assert OptOnTop(c.classes[k][x].ty);
      StripIsSafe(c.classes[k][x].ty);
    }
    assert Safe(c, c.classes.Keys, {}) && Dead(c, {});
  }

  lemma {:induction false} StripIsSafe(t: Ty)
    requires OptOnTop(t)
    ensures NullSafe(Strip(t))
  {
    if t.TOpt? {
      StripIsSafe(t.arg);
    }
  }

  // ---- the writer -------------------------------------------------------------------

  lemma WriterHidesIff(c: Catalogue, t: Ty)
    requires WellFormed(c) && Resolved(c, t)
    ensures (forall v :: HasType(c, t, v) ==> Bare(c, t, Encode(v))) <==> NullSafe(t) && Sheltered(c, Mentions(t))
  {
    ReadyIsLinked(c);
    ExposedIff(c, t);
    if Exposed(c, t) {
      var j :| Exposes(c, t, j);
      DecodeSound(c, t, j);
      var v := Decode(c, t, j).value;
      if Bare(c, t, Encode(v)) { RewritingKeepsNulls(c, t, j); }
      assert HasType(c, t, v) && !Bare(c, t, Encode(v));
    } else {
      var safe, dead :| Dead(c, dead) && Safe(c, safe, dead) && Mentions(t) * c.classes.Keys <= safe + dead;
      forall v | HasType(c, t, v) ensures Bare(c, t, Encode(v)) {
        RoundTrips(c, t, v);
        ShelteredIsBare(c, safe, dead, t, Encode(v));
      }
    }
  }

  /** Everything a writer prints at a hint validates exactly under the same condition. */
  lemma WriterAgreesIff(c: Catalogue, defs: map<Id, Schema>, ns: set<Id>, t: Ty)
    requires WellFormed(c) && Serves(c, defs, ns) && Resolved(c, t) && Mentions(t) <= ns
    ensures (forall v :: HasType(c, t, v) ==> Valid(defs, TypeSchemaOf(t), Encode(v))) <==>
            NullSafe(t) && Sheltered(c, Mentions(t))
  {
    forall v | HasType(c, t, v) ensures Valid(defs, TypeSchemaOf(t), Encode(v)) <==> Bare(c, t, Encode(v)) {
      EncodedValidIff(c, defs, ns, t, v);
    }
    WriterHidesIff(c, t);
  }

  /** And every instance of a class prints as its emitted document asks. */
  lemma DocumentWriterAgreesIff(c: Catalogue, k: Id)
    requires WellFormed(c) && k in c.classes
    ensures (forall v :: HasType(c, TData(k), v) ==> Validates(DocumentOf(c, k), Encode(v))) <==> Sheltered(c, {k})
  {
    ReadyIsLinked(c);
    DocumentServes(c, k);
    var doc := DocumentOf(c, k);
    forall v | HasType(c, TData(k), v) ensures Validates(doc, Encode(v)) <==> Bare(c, TData(k), Encode(v)) {
      EncodedInstanceValidIff(c, doc.defs, Reachable(c, k), k, v);
    }
    assert Mentions(TData(k)) == {k};
    WriterHidesIff(c, TData(k));
  }

  // ---- inputs on which they disagree ------------------------------------------------

  /** A null at a buried `None` arm is a payload on which they disagree. */
  lemma {:induction false} NestedNoneDisagrees(c: Catalogue, defs: map<Id, Schema>, ns: set<Id>, t: Ty)
    requires Serves(c, defs, ns) && Resolved(c, t) && Mentions(t) <= ns && !NullSafe(t)
    ensures UniqueKeys(Unrepaired(t)) && Decode(c, t, Unrepaired(t)).Ok?
    ensures !Valid(defs, TypeSchemaOf(t), Repair(c, t, Unrepaired(t)))
  {
    NestedNoneExposes(c, t);
    match t {
      case TOpt(u) => NullIsInvalid(c, defs, ns, u);
      case TList(u) =>
        NestedNoneDisagrees(c, defs, ns, u);
        RepairItemsAt(c, u, [Unrepaired(u)], 0);
      case TDict(u) =>
        NestedNoneDisagrees(c, defs, ns, u);
        RepairEntriesAt(c, u, [Member("", Unrepaired(u))], 0);
      case _ =>
    }
  }

  /** A class with one field of type `list[str | None]` is well formed; its document rejects
      a payload the library reads, which repairing leaves as it is. */
  lemma ListOfOptionalsDisagrees()
    ensures var c := Catalogue(map[], map[0 := [Field("x", TList(TOpt(TStr)), NoDefault)]]);
      var j := JObj([Member("x", JArr([JNull]))]);
      && WellFormed(c) && NullSafe(TData(0)) && UniqueKeys(j)
      && Decode(c, TData(0), j).Ok? && !Validates(DocumentOf(c, 0), Repair(c, TData(0), j))
      && !Sheltered(c, {0})
  {
    var f := Field("x", TList(TOpt(TStr)), NoDefault);
    BuriedClassDisagrees(Catalogue(map[], map[0 := [f]]), f, JObj([Member("x", JArr([JNull]))]));
  }

  lemma BuriedClassDisagrees(c: Catalogue, f: Field, j: Json)
    requires c.enums == map[] && c.classes == map[0 := [f]] && f == Field("x", TList(TOpt(TStr)), NoDefault)
    requires j == JObj([Member("x", JArr([JNull]))])
    ensures WellFormed(c) && Exposes(c, TData(0), j)
    ensures !Validates(DocumentOf(c, 0), Repair(c, TData(0), j)) && !Sheltered(c, {0})
  {
    assert c.classes[0] == [f] && GoodField(c, f);
    ReadyIsLinked(c);
    BuriedFieldExposes(c, f);
    RepairValidatesIff(c, 0, j);
    ExposedIff(c, TData(0));
    assert Mentions(TData(0)) == {0};
  }

  lemma BuriedFieldExposes(c: Catalogue, f: Field)
    requires c.classes == map[0 := [f]] && f == Field("x", TList(TOpt(TStr)), NoDefault)
    ensures Exposes(c, TData(0), JObj([Member("x", JArr([JNull]))]))
  {
    var ms := [Member("x", JArr([JNull]))];
    assert IndexOf(ms, "x") == 0;
    NestedNoneExposes(c, f.ty);
    assert ms[0].val == Unrepaired(f.ty);
    FieldsOkIff(c, 0, [f], ms);
    assert !BareField(c, c.classes[0][0], ms);
  }
}
