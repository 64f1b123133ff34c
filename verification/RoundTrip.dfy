/** The codec's laws: decoding is sound, encoding is lossless, and what a reader
    does not name cannot reach it. */
module RoundTrip {
  import opened JsonValues
  import opened Catalogues
  import opened Serde

  // ---- sequences, element by element ------------------------------------------

  lemma {:induction false} EncodeItemsAt(vs: seq<Value>, x: nat)
    requires x < |vs|
    ensures EncodeItems(vs)[x] == Encode(vs[x])
  {
    var n := |vs| - 1;
    if x < n {
      EncodeItemsAt(vs[..n], x);
    }
  }

  lemma {:induction false} EncodeEntriesAt(es: seq<Slot>, x: nat)
    requires x < |es|
    ensures EncodeEntries(es)[x] == Member(es[x].name, Encode(es[x].val))
  {
    var n := |es| - 1;
    if x < n {
      EncodeEntriesAt(es[..n], x);
    }
  }

  lemma {:induction false} DecodeItemsAt(c: Catalogue, t: Ty, items: seq<Json>, x: nat)
    requires DecodeItems(c, t, items).Ok? && x < |items|
    ensures Decode(c, t, items[x]) == Ok(DecodeItems(c, t, items).value[x])
  {
    var n := |items| - 1;
    if x < n {
      DecodeItemsAt(c, t, items[..n], x);
    }
  }

  lemma {:induction false} DecodeEntriesAt(c: Catalogue, t: Ty, ms: seq<Member>, x: nat)
    requires DecodeEntries(c, t, ms).Ok? && x < |ms|
    ensures var e := DecodeEntries(c, t, ms).value[x];
      e.name == ms[x].key && Decode(c, t, ms[x].val) == Ok(e.val)
  {
    var n := |ms| - 1;
    if x < n {
      DecodeEntriesAt(c, t, ms[..n], x);
    }
  }

  lemma {:induction false} DecodeFieldsAt(c: Catalogue, k: Id, fs: seq<Field>, ms: seq<Member>, x: nat)
    requires DecodeFields(c, k, fs, ms).Ok? && x < |fs|
    ensures var s := DecodeFields(c, k, fs, ms).value[x];
      s.name == fs[x].name && DecodeField(c, k, fs[x], ms) == Ok(s.val)
  {
    var n := |fs| - 1;
    if x < n {
      DecodeFieldsAt(c, k, fs[..n], ms, x);
    }
  }

  lemma {:induction false} DecodeItemsIs(c: Catalogue, t: Ty, items: seq<Json>, vs: seq<Value>)
    requires |vs| == |items|
    requires forall x :: 0 <= x < |items| ==> Decode(c, t, items[x]) == Ok(vs[x])
    ensures DecodeItems(c, t, items) == Ok(vs)
  {
    if |items| > 0 {
      var n := |items| - 1;
      DecodeItemsIs(c, t, items[..n], vs[..n]);
      assert vs[..n] + [vs[n]] == vs;
    }
  }

  lemma {:induction false} DecodeEntriesIs(c: Catalogue, t: Ty, ms: seq<Member>, es: seq<Slot>)
    requires |es| == |ms|
    requires forall x :: 0 <= x < |ms| ==> es[x].name == ms[x].key && Decode(c, t, ms[x].val) == Ok(es[x].val)
    ensures DecodeEntries(c, t, ms) == Ok(es)
  {
    if |ms| > 0 {
      var n := |ms| - 1;
      DecodeEntriesIs(c, t, ms[..n], es[..n]);
      assert es[..n] + [es[n]] == es;
    }
  }

  lemma {:induction false} DecodeFieldsIs(c: Catalogue, k: Id, fs: seq<Field>, ms: seq<Member>, ss: seq<Slot>)
    requires |ss| == |fs|
    requires forall x :: 0 <= x < |fs| ==> ss[x].name == fs[x].name && DecodeField(c, k, fs[x], ms) == Ok(ss[x].val)
    ensures DecodeFields(c, k, fs, ms) == Ok(ss)
  {
    if |fs| > 0 {
      var n := |fs| - 1;
      DecodeFieldsIs(c, k, fs[..n], ms, ss[..n]);
      assert ss[..n] + [ss[n]] == ss;
    }
  }

  /** A dataclass's members are its non-`None` attributes, in order. */
  lemma {:induction false} EncodeSlotsLookup(slots: seq<Slot>, name: string)
    requires forall x, y :: 0 <= x < y < |slots| ==> slots[x].name != slots[y].name
    ensures
      var i := SlotIndex(slots, name);
      if i < |slots| && !slots[i].val.VNone?
      then Has(EncodeSlots(slots), name) && Get(EncodeSlots(slots), name) == Encode(slots[i].val)
      else !Has(EncodeSlots(slots), name)
  {
    if |slots| > 0 {
      var n := |slots| - 1;
      EncodeSlotsLookup(slots[..n], name);
      var front, all := EncodeSlots(slots[..n]), EncodeSlots(slots);
      if !slots[n].val.VNone? {
        assert all[..|all| - 1] == front;
      } else {
        assert all == front;
      }
    }
  }

  // ---- soundness ------------------------------------------------------------------

  lemma {:induction false} RawIsRaw(j: Json)
    ensures IsRaw(Raw(j))
    decreases j
  {
    match j {
      case JArr(items) =>
        forall x | 0 <= x < |items| ensures IsRaw(RawItems(items)[x]) { RawItemAt(items, x); RawIsRaw(items[x]); }
      case JObj(ms) =>
        forall x | 0 <= x < |ms| ensures IsRaw(RawMembers(ms)[x].val) { RawMemberAt(ms, x); RawIsRaw(ms[x].val); }
      case _ =>
    }
  }

  lemma {:induction false} RawItemAt(items: seq<Json>, x: nat)
    requires x < |items|
    ensures RawItems(items)[x] == Raw(items[x])
  {
    var n := |items| - 1;
    if x < n {
      RawItemAt(items[..n], x);
    }
  }

  lemma {:induction false} RawMemberAt(ms: seq<Member>, x: nat)
    requires x < |ms|
    ensures RawMembers(ms)[x] == Slot(ms[x].key, Raw(ms[x].val))
  {
    var n := |ms| - 1;
    if x < n {
      RawMemberAt(ms[..n], x);
    }
  }

  /** Whatever the decoder returns has the type it was asked for. */
  lemma {:induction false} DecodeSound(c: Catalogue, t: Ty, j: Json)
    requires WellFormed(c) && Resolved(c, t) && Decode(c, t, j).Ok?
    ensures HasType(c, t, Decode(c, t, j).value)
    decreases j, t
  {
    var v := Decode(c, t, j).value;
    match t {
      case TAny => RawIsRaw(j);
      case TOpt(u) => if !j.JNull? { DecodeSound(c, u, j); }
      case TList(u) =>
        forall x | 0 <= x < |v.items| ensures HasType(c, u, v.items[x]) {
          DecodeItemsAt(c, u, j.items, x);
          DecodeSound(c, u, j.items[x]);
        }
      case TDict(u) =>
        forall x | 0 <= x < |v.entries| ensures HasType(c, u, v.entries[x].val) {
          DecodeEntriesAt(c, u, j.members, x);
          DecodeSound(c, u, j.members[x].val);
        }
      case TData(k) =>
        var fs := c.classes[k];
        forall x | 0 <= x < |fs| ensures v.slots[x].name == fs[x].name && HasType(c, fs[x].ty, v.slots[x].val) {
          DecodeFieldsAt(c, k, fs, j.members, x);
          assert GoodField(c, fs[x]);
          var i := IndexOf(j.members, fs[x].name);
          if i < |j.members| {
            DecodeSound(c, fs[x].ty, j.members[i].val);
          }
        }
      case _ =>
    }
  }

  // ---- round trip -----------------------------------------------------------------

  lemma {:induction false} RawUndoesEncode(v: Value)
    requires IsRaw(v)
    ensures Raw(Encode(v)) == v
    decreases v
  {
    match v {
      case VList(vs) =>
        forall x | 0 <= x < |vs| ensures RawItems(EncodeItems(vs))[x] == vs[x] {
          EncodeItemsAt(vs, x);
          RawItemAt(EncodeItems(vs), x);
          RawUndoesEncode(vs[x]);
        }
      case VDict(es) =>
        forall x | 0 <= x < |es| ensures RawMembers(EncodeEntries(es))[x] == es[x] {
          EncodeEntriesAt(es, x);
          RawMemberAt(EncodeEntries(es), x);
          RawUndoesEncode(es[x].val);
        }
      case _ =>
    }
  }

  /** The other direction: data kept under `Any` prints as it was read. */
  lemma {:induction false} EncodeUndoesRaw(j: Json)
    ensures Encode(Raw(j)) == j
    decreases j
  {
    match j {
      case JArr(items) =>
        forall x | 0 <= x < |items| ensures EncodeItems(RawItems(items))[x] == items[x] {
          RawItemAt(items, x);
          EncodeItemsAt(RawItems(items), x);
          EncodeUndoesRaw(items[x]);
        }
      case JObj(ms) =>
        forall x | 0 <= x < |ms| ensures EncodeEntries(RawMembers(ms))[x] == ms[x] {
          RawMemberAt(ms, x);
          EncodeEntriesAt(RawMembers(ms), x);
          EncodeUndoesRaw(ms[x].val);
        }
      case _ =>
    }
  }

  /** Every `None` attribute of an instance anywhere inside `v` belongs to a field that
      reads as `None` when its key is left out. */
  predicate Readable(c: Catalogue, v: Value)
    decreases v
  {
    match v
    case VList(items) => forall x :: 0 <= x < |items| ==> Readable(c, items[x])
    case VDict(es) => forall x :: 0 <= x < |es| ==> Readable(c, es[x].val)
    case VData(k, slots) =>
      && k in c.classes && |slots| == |c.classes[k]|
      && forall x :: 0 <= x < |slots| ==> SlotReadable(c, c.classes[k][x], slots[x])
    case _ => true
  }

  predicate SlotReadable(c: Catalogue, f: Field, s: Slot)
    decreases s
  {
    Readable(c, s.val) && (s.val.VNone? ==> ReadsNone(f))
  }

  /** A well-typed value survives the wire exactly when it is readable. */
  lemma {:induction false} RoundTripsIff(c: Catalogue, t: Ty, v: Value)
    requires Declared(c) && HasType(c, t, v)
    ensures Decode(c, t, Encode(v)) == Ok(v) <==> Readable(c, v)
    decreases v, t
  {
    match t {
      case TAny =>
        RawUndoesEncode(v);
        RawIsReadable(c, v);
      case TOpt(u) => if !v.VNone? { RoundTripsIff(c, u, v); }
      case TList(u) =>
        forall x | 0 <= x < |v.items|
          ensures Decode(c, u, EncodeItems(v.items)[x]) == Ok(v.items[x]) <==> Readable(c, v.items[x])
        {
          EncodeItemsAt(v.items, x);
          RoundTripsIff(c, u, v.items[x]);
        }
        ItemsReturnIff(c, u, EncodeItems(v.items), v.items);
      case TDict(u) =>
        var ms := EncodeEntries(v.entries);
        forall x | 0 <= x < |ms|
          ensures v.entries[x].name == ms[x].key
          ensures Decode(c, u, ms[x].val) == Ok(v.entries[x].val) <==> Readable(c, v.entries[x].val)
        {
          EncodeEntriesAt(v.entries, x);
          RoundTripsIff(c, u, v.entries[x].val);
        }
        EntriesReturnIff(c, u, ms, v.entries);
      case TData(k) => InstanceReturnsIff(c, k, v);
      case _ =>
    }
  }

  lemma ItemsReturnIff(c: Catalogue, t: Ty, items: seq<Json>, vs: seq<Value>)
    requires |items| == |vs|
    ensures DecodeItems(c, t, items) == Ok(vs) <==>
            forall x :: 0 <= x < |vs| ==> Decode(c, t, items[x]) == Ok(vs[x])
  {
    if forall x :: 0 <= x < |vs| ==> Decode(c, t, items[x]) == Ok(vs[x]) {
      DecodeItemsIs(c, t, items, vs);
    } else if DecodeItems(c, t, items).Ok? {
      var x :| 0 <= x < |vs| && Decode(c, t, items[x]) != Ok(vs[x]);
      DecodeItemsAt(c, t, items, x);
    }
  }

  lemma EntriesReturnIff(c: Catalogue, t: Ty, ms: seq<Member>, es: seq<Slot>)
    requires |ms| == |es| && forall x :: 0 <= x < |es| ==> es[x].name == ms[x].key
    ensures DecodeEntries(c, t, ms) == Ok(es) <==>
            forall x :: 0 <= x < |es| ==> Decode(c, t, ms[x].val) == Ok(es[x].val)
  {
    if forall x :: 0 <= x < |es| ==> Decode(c, t, ms[x].val) == Ok(es[x].val) {
      DecodeEntriesIs(c, t, ms, es);
    } else if DecodeEntries(c, t, ms).Ok? {
      var x :| 0 <= x < |es| && Decode(c, t, ms[x].val) != Ok(es[x].val);
      DecodeEntriesAt(c, t, ms, x);
    }
  }

  lemma FieldsReturnIff(c: Catalogue, k: Id, fs: seq<Field>, ms: seq<Member>, ss: seq<Slot>)
    requires |fs| == |ss| && forall x :: 0 <= x < |fs| ==> ss[x].name == fs[x].name
    ensures DecodeFields(c, k, fs, ms) == Ok(ss) <==>
            forall x :: 0 <= x < |fs| ==> DecodeField(c, k, fs[x], ms) == Ok(ss[x].val)
  {
    if forall x :: 0 <= x < |fs| ==> DecodeField(c, k, fs[x], ms) == Ok(ss[x].val) {
      DecodeFieldsIs(c, k, fs, ms, ss);
    } else if DecodeFields(c, k, fs, ms).Ok? {
      var x :| 0 <= x < |fs| && DecodeField(c, k, fs[x], ms) != Ok(ss[x].val);
      DecodeFieldsAt(c, k, fs, ms, x);
    }
  }

  lemma {:induction false} InstanceReturnsIff(c: Catalogue, k: Id, v: Value)
    requires Declared(c) && HasType(c, TData(k), v)
    ensures Decode(c, TData(k), Encode(v)) == Ok(v) <==> Readable(c, v)
    decreases v, TData(k), 1
  {
    var fs, ms := c.classes[k], EncodeSlots(v.slots);
    forall x | 0 <= x < |fs|
      ensures DecodeField(c, k, fs[x], ms) == Ok(v.slots[x].val) <==> SlotReadable(c, fs[x], v.slots[x])
    {
      SlotReturnsIff(c, k, v, x);
    }
    FieldsReturnIff(c, k, fs, ms, v.slots);
  }

  lemma {:induction false} SlotReturnsIff(c: Catalogue, k: Id, v: Value, x: nat)
    requires Declared(c) && HasType(c, TData(k), v) && x < |v.slots|
    ensures DecodeField(c, k, c.classes[k][x], EncodeSlots(v.slots)) == Ok(v.slots[x].val) <==>
            SlotReadable(c, c.classes[k][x], v.slots[x])
    decreases v, TData(k), 0
  {
    if v.slots[x].val.VNone? {
      NoneNeedsNoneDefault(c, k, v, x);
    } else {
      FieldReturnsIff(c, k, v, x);
      RoundTripsIff(c, c.classes[k][x].ty, v.slots[x].val);
    }
  }

  /** A `None` attribute comes back as `None` exactly when its field reads as `None` for
      want of a key: it defaults to `None`, or is Optional and has no default. */
  lemma NoneNeedsNoneDefault(c: Catalogue, k: Id, v: Value, x: nat)
    requires k in c.classes && DistinctFields(c.classes[k]) && HasType(c, TData(k), v)
    requires x < |v.slots| && v.slots[x].val.VNone?
    ensures DecodeField(c, k, c.classes[k][x], EncodeSlots(v.slots)) == Ok(VNone) <==> ReadsNone(c.classes[k][x])
  {
    EncodeSlotsLookup(v.slots, c.classes[k][x].name);
    assert SlotIndex(v.slots, c.classes[k][x].name) == x;
  }

  lemma FieldReturnsIff(c: Catalogue, k: Id, v: Value, x: nat)
    requires k in c.classes && DistinctFields(c.classes[k]) && HasType(c, TData(k), v)
    requires x < |v.slots| && !v.slots[x].val.VNone?
    ensures var f, val := c.classes[k][x], v.slots[x].val;
      DecodeField(c, k, f, EncodeSlots(v.slots)) == Ok(val) <==> Decode(c, f.ty, Encode(val)) == Ok(val)
  {
    EncodeSlotsLookup(v.slots, c.classes[k][x].name);
    assert SlotIndex(v.slots, c.classes[k][x].name) == x;
  }

  lemma {:induction false} RawIsReadable(c: Catalogue, v: Value)
    requires IsRaw(v)
    ensures Readable(c, v)
    decreases v
  {
    match v {
      case VList(vs) => forall x | 0 <= x < |vs| ensures Readable(c, vs[x]) { RawIsReadable(c, vs[x]); }
      case VDict(es) => forall x | 0 <= x < |es| ensures Readable(c, es[x].val) { RawIsReadable(c, es[x].val); }
      case _ =>
    }
  }

  /** In a well-formed catalogue every well-typed value is readable. */
  lemma {:induction false} WellTypedIsReadable(c: Catalogue, t: Ty, v: Value)
    requires WellFormed(c) && HasType(c, t, v)
    ensures Readable(c, v)
    decreases v, t
  {
    match t {
      case TAny => RawIsReadable(c, v);
      case TOpt(u) => if !v.VNone? { WellTypedIsReadable(c, u, v); }
      case TList(u) =>
        forall x | 0 <= x < |v.items| ensures Readable(c, v.items[x]) { WellTypedIsReadable(c, u, v.items[x]); }
      case TDict(u) =>
        forall x | 0 <= x < |v.entries| ensures Readable(c, v.entries[x].val) {
          WellTypedIsReadable(c, u, v.entries[x].val);
        }
      case TData(k) =>
        forall x | 0 <= x < |v.slots|
          ensures Readable(c, v.slots[x].val) && (v.slots[x].val.VNone? ==> ReadsNone(c.classes[k][x]))
        {
          assert GoodClass(c, c.classes[k]) && GoodField(c, c.classes[k][x]);
          WellTypedIsReadable(c, c.classes[k][x].ty, v.slots[x].val);
        }
      case _ =>
    }
  }

  /** So every well-typed value of a well-formed catalogue survives the wire. */
  lemma RoundTrips(c: Catalogue, t: Ty, v: Value)
    requires WellFormed(c) && HasType(c, t, v)
    ensures Decode(c, t, Encode(v)) == Ok(v)
  {
    assert forall k :: k in c.classes ==> GoodClass(c, c.classes[k]);
    WellTypedIsReadable(c, t, v);
    RoundTripsIff(c, t, v);
  }

  /** A default that is not `None` is not the only thing that loses a `None`: so does a
      required field, whose missing key is an error. */
  lemma RequiredLosesNone()
    ensures var c := Catalogue(map[], map[0 := [Field("x", TAny, NoDefault)]]);
      var v := VData(0, [Slot("x", VNone)]);
      Declared(c) && HasType(c, TData(0), v) && Decode(c, TData(0), Encode(v)).Err?
  {
    var c := Catalogue(map[], map[0 := [Field("x", TAny, NoDefault)]]);
    var v := VData(0, [Slot("x", VNone)]);
    NoneNeedsNoneDefault(c, 0, v, 0);
    assert DecodeFields(c, 0, c.classes[0], EncodeSlots(v.slots)).Err? by {
      if DecodeFields(c, 0, c.classes[0], EncodeSlots(v.slots)).Ok? {
        DecodeFieldsAt(c, 0, c.classes[0], EncodeSlots(v.slots), 0);
      }
    }
  }

  // ---- normalisation ----------------------------------------------------------------

  /** Read a payload and write it back. */
  function Norm(c: Catalogue, t: Ty, j: Json): Result<Json> {
    match Decode(c, t, j)
    case Ok(v) => Ok(Encode(v))
    case Err(e) => Err(e)
  }

  /** Rewriting a payload loses nothing the reader saw, and rewriting twice changes
      nothing: exactly the payloads some well-typed value prints as are fixed. */
  lemma NormIsRetraction(c: Catalogue, t: Ty, j: Json)
    requires WellFormed(c) && Resolved(c, t)
    ensures Norm(c, t, j).Ok? <==> Decode(c, t, j).Ok?
    ensures Norm(c, t, j).Ok? ==> Decode(c, t, Norm(c, t, j).value) == Decode(c, t, j)
    ensures Norm(c, t, j).Ok? ==> Norm(c, t, Norm(c, t, j).value) == Norm(c, t, j)
    ensures Norm(c, t, j) == Ok(j) <==> exists v :: HasType(c, t, v) && Encode(v) == j
  {
    if Decode(c, t, j).Ok? {
      DecodeSound(c, t, j);
      RoundTrips(c, t, Decode(c, t, j).value);
    }
    if v :| HasType(c, t, v) && Encode(v) == j {
      RoundTrips(c, t, v);
    }
  }

  /** Two payloads a reader of `t` cannot tell apart: at every dataclass position they agree
      on the fields the class names, and on nothing else; at every float position an integer
      may stand for the float it widens to. */
  ghost predicate Agree(c: Catalogue, t: Ty, j: Json, k: Json)
    decreases j, t
  {
    match t
    case TOpt(u) => (j.JNull? <==> k.JNull?) && (!j.JNull? ==> Agree(c, u, j, k))
    case TList(u) =>
      if j.JArr? && k.JArr?
      then |j.items| == |k.items| && forall x :: 0 <= x < |j.items| ==> Agree(c, u, j.items[x], k.items[x])
      else j == k
    case TDict(u) =>
      if j.JObj? && k.JObj?
      then
        && |j.members| == |k.members|
        && forall x :: 0 <= x < |j.members| ==>
          j.members[x].key == k.members[x].key && Agree(c, u, j.members[x].val, k.members[x].val)
      else j == k
    case TData(cls) =>
      if j.JObj? && k.JObj? && cls in c.classes
      then forall x :: 0 <= x < |c.classes[cls]| ==>
        (var f := c.classes[cls][x];
         var a, b := IndexOf(j.members, f.name), IndexOf(k.members, f.name);
         (a < |j.members| <==> b < |k.members|) &&
         (a < |j.members| && b < |k.members| ==> Agree(c, f.ty, j.members[a].val, k.members[b].val)))
      else j == k
    case TFloat => Widened(j) == Widened(k)
    case _ => j == k
  }

  /** The float that `float(i)` makes of an integer. */
  function Widened(j: Json): Json {
    if j.JInt? then JNum(j.i as real) else j
  }

  /** Members no class names, and the way a whole number is written where a float is read,
      never change the result: not the value, and not the error when there is one. */
  lemma {:induction false} UnnamedMembersAreInvisible(c: Catalogue, t: Ty, j: Json, k: Json)
    requires Agree(c, t, j, k)
    ensures Decode(c, t, j) == Decode(c, t, k)
    decreases j, t
  {
    match t {
      case TOpt(u) => if !j.JNull? { UnnamedMembersAreInvisible(c, u, j, k); }
      case TList(u) => if j.JArr? && k.JArr? { AgreeItems(c, u, j.items, k.items); }
      case TDict(u) => if j.JObj? && k.JObj? { AgreeEntries(c, u, j.members, k.members); }
      case TData(cls) =>
        if j.JObj? && k.JObj? && cls in c.classes {
          AgreeFields(c, cls, c.classes[cls], j.members, k.members);
        }
      case _ =>
    }
  }

  lemma {:induction false} AgreeItems(c: Catalogue, t: Ty, a: seq<Json>, b: seq<Json>)
    requires |a| == |b| && forall x :: 0 <= x < |a| ==> Agree(c, t, a[x], b[x])
    ensures DecodeItems(c, t, a) == DecodeItems(c, t, b)
    decreases a
  {
    if |a| > 0 {
      var n := |a| - 1;
      AgreeItems(c, t, a[..n], b[..n]);
      UnnamedMembersAreInvisible(c, t, a[n], b[n]);
    }
  }

  lemma {:induction false} AgreeEntries(c: Catalogue, t: Ty, a: seq<Member>, b: seq<Member>)
    requires |a| == |b| && forall x :: 0 <= x < |a| ==> a[x].key == b[x].key && Agree(c, t, a[x].val, b[x].val)
    ensures DecodeEntries(c, t, a) == DecodeEntries(c, t, b)
    decreases a
  {
    if |a| > 0 {
      var n := |a| - 1;
      AgreeEntries(c, t, a[..n], b[..n]);
      UnnamedMembersAreInvisible(c, t, a[n].val, b[n].val);
    }
  }

  lemma {:induction false} AgreeFields(c: Catalogue, k: Id, fs: seq<Field>, a: seq<Member>, b: seq<Member>)
    requires forall x :: 0 <= x < |fs| ==>
      (var i, l := IndexOf(a, fs[x].name), IndexOf(b, fs[x].name);
       (i < |a| <==> l < |b|) && (i < |a| && l < |b| ==> Agree(c, fs[x].ty, a[i].val, b[l].val)))
    ensures DecodeFields(c, k, fs, a) == DecodeFields(c, k, fs, b)
    decreases a, |fs|
  {
    if |fs| > 0 {
      var n := |fs| - 1;
      AgreeFields(c, k, fs[..n], a, b);
      var i, l := IndexOf(a, fs[n].name), IndexOf(b, fs[n].name);
      if i < |a| {
        UnnamedMembersAreInvisible(c, fs[n].ty, a[i].val, b[l].val);
      }
    }
  }

  // ---- trimming -------------------------------------------------------------------

  /** `j` without the members a reader of `t` ignores, at every dataclass position. */
  function Trim(c: Catalogue, t: Ty, j: Json): Json
    decreases j, t
  {
    match t
    case TOpt(u) => if j.JNull? then j else Trim(c, u, j)
    case TList(u) => if j.JArr? then JArr(TrimItems(c, u, j.items)) else j
    case TDict(u) => if j.JObj? then JObj(TrimEntries(c, u, j.members)) else j
    case TData(k) =>
      if j.JObj? && k in c.classes then JObj(TrimMembers(c, c.classes[k], j.members)) else j
    case _ => j
  }

  function TrimItems(c: Catalogue, t: Ty, items: seq<Json>): (out: seq<Json>)
    ensures |out| == |items|
    decreases items
  {
    if |items| == 0 then [] else
    TrimItems(c, t, items[..|items| - 1]) + [Trim(c, t, items[|items| - 1])]
  }

  function TrimEntries(c: Catalogue, t: Ty, ms: seq<Member>): (out: seq<Member>)
    ensures |out| == |ms|
    decreases ms
  {
    if |ms| == 0 then [] else
    TrimEntries(c, t, ms[..|ms| - 1]) + [Member(ms[|ms| - 1].key, Trim(c, t, ms[|ms| - 1].val))]
  }

  function TrimMembers(c: Catalogue, fs: seq<Field>, ms: seq<Member>): seq<Member>
    decreases ms
  {
    if |ms| == 0 then []
    else
      var m := ms[|ms| - 1];
      var front, i := TrimMembers(c, fs, ms[..|ms| - 1]), FieldIndex(fs, m.key);
      if i < |fs| then front + [Member(m.key, Trim(c, fs[i].ty, m.val))] else front
  }

  lemma {:induction false} TrimItemsAt(c: Catalogue, t: Ty, items: seq<Json>, x: nat)
    requires x < |items|
    ensures TrimItems(c, t, items)[x] == Trim(c, t, items[x])
  {
    if x < |items| - 1 {
      TrimItemsAt(c, t, items[..|items| - 1], x);
    }
  }

  lemma {:induction false} TrimEntriesAt(c: Catalogue, t: Ty, ms: seq<Member>, x: nat)
    requires x < |ms|
    ensures TrimEntries(c, t, ms)[x] == Member(ms[x].key, Trim(c, t, ms[x].val))
  {
    if x < |ms| - 1 {
      TrimEntriesAt(c, t, ms[..|ms| - 1], x);
    }
  }

  /** A trimmed object holds the named members, trimmed in turn, and no others. */
  lemma {:induction false} TrimMembersLookup(c: Catalogue, fs: seq<Field>, ms: seq<Member>, name: string)
    ensures var i, out := FieldIndex(fs, name), TrimMembers(c, fs, ms);
      if i < |fs| && Has(ms, name)
      then Has(out, name) && Get(out, name) == Trim(c, fs[i].ty, Get(ms, name))
      else !Has(out, name)
  {
    if |ms| > 0 {
      var n := |ms| - 1;
      TrimMembersLookup(c, fs, ms[..n], name);
      var front, out := TrimMembers(c, fs, ms[..n]), TrimMembers(c, fs, ms);
      if HasField(fs, ms[n].key) {
        assert out[..|out| - 1] == front;
      }
    }
  }

  /** Trimming is invisible to the reader, whatever it returns. */
  lemma TrimmingIsInvisible(c: Catalogue, t: Ty, j: Json)
    requires forall k :: k in c.classes ==> DistinctFields(c.classes[k])
    ensures Decode(c, t, Trim(c, t, j)) == Decode(c, t, j)
  {
    TrimAgrees(c, t, j);
    UnnamedMembersAreInvisible(c, t, j, Trim(c, t, j));
  }

  lemma {:induction false} TrimAgrees(c: Catalogue, t: Ty, j: Json)
    requires forall k :: k in c.classes ==> DistinctFields(c.classes[k])
    ensures Agree(c, t, j, Trim(c, t, j))
    ensures j.JNull? <==> Trim(c, t, j).JNull?
    decreases j, t
  {
    match t {
      case TOpt(u) => if !j.JNull? { TrimAgrees(c, u, j); }
      case TList(u) =>
        if j.JArr? {
          forall x | 0 <= x < |j.items| ensures Agree(c, u, j.items[x], TrimItems(c, u, j.items)[x]) {
            TrimItemsAt(c, u, j.items, x);
            TrimAgrees(c, u, j.items[x]);
          }
        }
      case TDict(u) =>
        if j.JObj? {
          forall x | 0 <= x < |j.members|
            ensures j.members[x].key == TrimEntries(c, u, j.members)[x].key
            ensures Agree(c, u, j.members[x].val, TrimEntries(c, u, j.members)[x].val)
          {
            TrimEntriesAt(c, u, j.members, x);
            TrimAgrees(c, u, j.members[x].val);
          }
        }
      case TData(k) =>
        if j.JObj? && k in c.classes {
          var fs := c.classes[k];
          forall x | 0 <= x < |fs|
            ensures var a, b := IndexOf(j.members, fs[x].name), IndexOf(TrimMembers(c, fs, j.members), fs[x].name);
              (a < |j.members| <==> b < |TrimMembers(c, fs, j.members)|) &&
              (a < |j.members| && b < |TrimMembers(c, fs, j.members)| ==>
                Agree(c, fs[x].ty, j.members[a].val, TrimMembers(c, fs, j.members)[b].val))
          {
            assert FieldIndex(fs, fs[x].name) == x;
            TrimMembersLookup(c, fs, j.members, fs[x].name);
            var a := IndexOf(j.members, fs[x].name);
            if a < |j.members| {
              TrimAgrees(c, fs[x].ty, j.members[a].val);
            }
          }
        }
      case _ =>
    }
  }
}
