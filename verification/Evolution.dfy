/** Schema evolution within a major version: what an old reader and a new reader
    make of the same bytes. */
module Evolution {
  import opened JsonValues
  import opened Catalogues
  import opened Serde
  import opened RoundTrip

  // ---- additive catalogues ------------------------------------------------------

  /** The fields of `fs` that `old` also has, in the order of `fs`. */
  function KeepNamed(fs: seq<Field>, prior: seq<Field>): (kept: seq<Field>)
    ensures |kept| <= |fs|
  {
    if |fs| == 0 then []
    else
      var front := KeepNamed(fs[..|fs| - 1], prior);
      if HasField(prior, fs[|fs| - 1].name) then front + [fs[|fs| - 1]] else front
  }

  /** A field an older producer could not have written, and whose absence reads as `None`. */
  predicate Additive(f: Field) {
    (f.ty.TOpt? && f.dflt in {NoDefault, Default(VNone)}) || (f.ty.TAny? && f.dflt == Default(VNone))
  }

  predicate ClassEnlarges(fs: seq<Field>, fs': seq<Field>) {
    KeepNamed(fs', fs) == fs
  }

  predicate ClassExtends(fs: seq<Field>, fs': seq<Field>) {
    && ClassEnlarges(fs, fs')
    && forall x :: 0 <= x < |fs'| ==> HasField(fs, fs'[x].name) || Additive(fs'[x])
  }

  predicate MembersExtend(ms: seq<string>, ms': seq<string>) {
    forall m :: m in ms ==> m in ms'
  }

  /** `c'` keeps every class, field and enum value of `c`, with the old fields a
      subsequence of the new. It may add anything. */
  predicate Enlarges(c: Catalogue, c': Catalogue) {
    && c.enums.Keys <= c'.enums.Keys
    && c.classes.Keys <= c'.classes.Keys
    && (forall e :: e in c.enums ==> MembersExtend(c.enums[e], c'.enums[e]))
    && (forall k :: k in c.classes ==> ClassEnlarges(c.classes[k], c'.classes[k]))
  }

  /** `c'` adds to classes of `c` only fields that read as `None` when they are left out. */
  predicate Extends(c: Catalogue, c': Catalogue) {
    && Enlarges(c, c')
    && forall k :: k in c.classes ==> ClassExtends(c.classes[k], c'.classes[k])
  }

  // ---- forgetting and upgrading ---------------------------------------------------

  /** What a reader of `c` can hold of a newer value: unknown attributes dropped,
      unknown enum values degraded, at every depth. */
  function Forget(c: Catalogue, v: Value): Value
    decreases v
  {
    match v
    case VList(items) => VList(ForgetItems(c, items))
    case VDict(es) => VDict(ForgetEntries(c, es))
    case VEnum(e, m) =>
      if e !in c.enums then VNone
      else if m in c.enums[e] then v
      else VEnum(e, UNKNOWN)
    case VData(k, slots) =>
      if k !in c.classes then VNone
      else VData(k, ForgetSlots(c, c.classes[k], slots))
    case _ => v
  }

  function ForgetItems(c: Catalogue, vs: seq<Value>): (ws: seq<Value>)
    ensures |ws| == |vs|
    decreases vs
  {
    if |vs| == 0 then [] else
    ForgetItems(c, vs[..|vs| - 1]) + [Forget(c, vs[|vs| - 1])]
  }

  function ForgetEntries(c: Catalogue, es: seq<Slot>): (fs: seq<Slot>)
    ensures |fs| == |es|
    decreases es
  {
    if |es| == 0 then [] else
    ForgetEntries(c, es[..|es| - 1]) + [Slot(es[|es| - 1].name, Forget(c, es[|es| - 1].val))]
  }

  function ForgetSlots(c: Catalogue, prior: seq<Field>, slots: seq<Slot>): seq<Slot>
    decreases slots
  {
    if |slots| == 0 then []
    else
      var s := slots[|slots| - 1];
      var front := ForgetSlots(c, prior, slots[..|slots| - 1]);
      if HasField(prior, s.name) then front + [Slot(s.name, Forget(c, s.val))] else front
  }

  /** An old value as an instance of the new classes: added attributes are `None`. */
  function Upgrade(c: Catalogue, v: Value): Value
    decreases v
  {
    match v
    case VList(items) => VList(UpgradeItems(c, items))
    case VDict(es) => VDict(UpgradeEntries(c, es))
    case VData(k, slots) =>
      if k in c.classes then VData(k, UpgradeSlots(c, c.classes[k], slots)) else v
    case _ => v
  }

  function UpgradeItems(c: Catalogue, vs: seq<Value>): (ws: seq<Value>)
    ensures |ws| == |vs|
    decreases vs
  {
    if |vs| == 0 then [] else
    UpgradeItems(c, vs[..|vs| - 1]) + [Upgrade(c, vs[|vs| - 1])]
  }

  function UpgradeEntries(c: Catalogue, es: seq<Slot>): (fs: seq<Slot>)
    ensures |fs| == |es|
    decreases es
  {
    if |es| == 0 then [] else
    UpgradeEntries(c, es[..|es| - 1]) + [Slot(es[|es| - 1].name, Upgrade(c, es[|es| - 1].val))]
  }

  function UpgradeSlots(c: Catalogue, fs: seq<Field>, slots: seq<Slot>): (ss: seq<Slot>)
    ensures |ss| == |fs|
    decreases slots, |fs|
  {
    if |fs| == 0 then []
    else
      var f := fs[|fs| - 1];
      var i := SlotIndex(slots, f.name);
      UpgradeSlots(c, fs[..|fs| - 1], slots) +
      [Slot(f.name, if i < |slots| then Upgrade(c, slots[i].val) else VNone)]
  }

  // ---- elementwise facts --------------------------------------------------------

  lemma {:induction false} ForgetItemsAt(c: Catalogue, vs: seq<Value>, x: nat)
    requires x < |vs|
    ensures ForgetItems(c, vs)[x] == Forget(c, vs[x])
  {
    if x < |vs| - 1 {
      ForgetItemsAt(c, vs[..|vs| - 1], x);
    }
  }

  lemma {:induction false} ForgetEntriesAt(c: Catalogue, es: seq<Slot>, x: nat)
    requires x < |es|
    ensures ForgetEntries(c, es)[x] == Slot(es[x].name, Forget(c, es[x].val))
  {
    if x < |es| - 1 {
      ForgetEntriesAt(c, es[..|es| - 1], x);
    }
  }

  lemma {:induction false} UpgradeItemsAt(c: Catalogue, vs: seq<Value>, x: nat)
    requires x < |vs|
    ensures UpgradeItems(c, vs)[x] == Upgrade(c, vs[x])
  {
    if x < |vs| - 1 {
      UpgradeItemsAt(c, vs[..|vs| - 1], x);
    }
  }

  lemma {:induction false} UpgradeEntriesAt(c: Catalogue, es: seq<Slot>, x: nat)
    requires x < |es|
    ensures UpgradeEntries(c, es)[x] == Slot(es[x].name, Upgrade(c, es[x].val))
  {
    if x < |es| - 1 {
      UpgradeEntriesAt(c, es[..|es| - 1], x);
    }
  }

  lemma {:induction false} UpgradeSlotsAt(c: Catalogue, fs: seq<Field>, slots: seq<Slot>, x: nat)
    requires x < |fs|
    ensures var i := SlotIndex(slots, fs[x].name);
      UpgradeSlots(c, fs, slots)[x] ==
      Slot(fs[x].name, if i < |slots| then Upgrade(c, slots[i].val) else VNone)
  {
    if x < |fs| - 1 {
      UpgradeSlotsAt(c, fs[..|fs| - 1], slots, x);
    }
  }

  /** Every old field is one of the new ones, unchanged. */
  lemma {:induction false} KeptField(fs: seq<Field>, prior: seq<Field>, x: nat) returns (y: nat)
    requires x < |KeepNamed(fs, prior)|
    ensures y < |fs| && fs[y] == KeepNamed(fs, prior)[x] && HasField(prior, fs[y].name)
  {
    var n := |fs| - 1;
    if x < |KeepNamed(fs[..n], prior)| {
      y := KeptField(fs[..n], prior, x);
    } else {
      y := n;
    }
  }

  // ---- the square -------------------------------------------------------------------

  /** An old well-typed value has nothing to forget. */
  lemma {:induction false} ForgetIsIdentity(c: Catalogue, t: Ty, v: Value)
    requires HasType(c, t, v)
    ensures Forget(c, v) == v
    decreases v, t
  {
    match t {
      case TAny => ForgetRaw(c, v);
      case TOpt(u) => if !v.VNone? { ForgetIsIdentity(c, u, v); }
      case TList(u) =>
        forall x | 0 <= x < |v.items| ensures ForgetItems(c, v.items)[x] == v.items[x] {
          ForgetItemsAt(c, v.items, x);
          ForgetIsIdentity(c, u, v.items[x]);
        }
      case TDict(u) =>
        forall x | 0 <= x < |v.entries| ensures ForgetEntries(c, v.entries)[x] == v.entries[x] {
          ForgetEntriesAt(c, v.entries, x);
          ForgetIsIdentity(c, u, v.entries[x].val);
        }
      case TData(k) =>
        var fs := c.classes[k];
        forall x | 0 <= x < |fs| ensures Kept(c, fs, v.slots[x]) {
          ForgetIsIdentity(c, fs[x].ty, v.slots[x].val);
        }
        ForgetKeepsAll(c, fs, v.slots);
      case _ =>
    }
  }

  predicate Kept(c: Catalogue, prior: seq<Field>, s: Slot) {
    HasField(prior, s.name) && Forget(c, s.val) == s.val
  }

  lemma {:induction false} ForgetKeepsAll(c: Catalogue, prior: seq<Field>, slots: seq<Slot>)
    requires forall x :: 0 <= x < |slots| ==> Kept(c, prior, slots[x])
    ensures ForgetSlots(c, prior, slots) == slots
  {
    if |slots| > 0 {
      var n := |slots| - 1;
      var front, last := slots[..n], slots[n];
      ForgetKeepsAll(c, prior, front);
      assert Kept(c, prior, last) && Slot(last.name, Forget(c, last.val)) == last;
      assert front + [last] == slots;
    }
  }

  lemma {:induction false} ForgetRaw(c: Catalogue, v: Value)
    requires IsRaw(v)
    ensures Forget(c, v) == v
    decreases v
  {
    match v {
      case VList(vs) =>
        forall x | 0 <= x < |vs| ensures ForgetItems(c, vs)[x] == vs[x] {
          ForgetItemsAt(c, vs, x);
          ForgetRaw(c, vs[x]);
        }
      case VDict(es) =>
        forall x | 0 <= x < |es| ensures ForgetEntries(c, es)[x] == es[x] {
          ForgetEntriesAt(c, es, x);
          ForgetRaw(c, es[x].val);
        }
      case _ =>
    }
  }

  /** The evolution square. Any payload the new reader accepts, the old reader
      accepts too, and it sees exactly the new reader's value with the additions
      forgotten. */
  lemma {:induction false} EvolutionSquare(c: Catalogue, c': Catalogue, t: Ty, j: Json)
    requires WellFormed(c) && WellFormed(c') && Enlarges(c, c') && Resolved(c, t)
    requires Decode(c', t, j).Ok?
    ensures Decode(c, t, j) == Ok(Forget(c, Decode(c', t, j).value))
    decreases j, t
  {
    var v := Decode(c', t, j).value;
    match t {
      case TAny => RawIsRaw(j); ForgetRaw(c, v);
      case TOpt(u) => if !j.JNull? { EvolutionSquare(c, c', u, j); }
      case TList(u) =>
        var ws := ForgetItems(c, v.items);
        forall x | 0 <= x < |j.items| ensures Decode(c, u, j.items[x]) == Ok(ws[x]) {
          DecodeItemsAt(c', u, j.items, x);
          ForgetItemsAt(c, v.items, x);
          EvolutionSquare(c, c', u, j.items[x]);
        }
        DecodeItemsIs(c, u, j.items, ws);
      case TDict(u) =>
        var ws := ForgetEntries(c, v.entries);
        forall x | 0 <= x < |j.members|
          ensures ws[x].name == j.members[x].key && Decode(c, u, j.members[x].val) == Ok(ws[x].val)
        {
          DecodeEntriesAt(c', u, j.members, x);
          ForgetEntriesAt(c, v.entries, x);
          EvolutionSquare(c, c', u, j.members[x].val);
        }
        DecodeEntriesIs(c, u, j.members, ws);
      case TData(k) =>
        var fs, prior := c'.classes[k], c.classes[k];
        assert ClassEnlarges(prior, fs);
        forall x | 0 <= x < |fs| && HasField(prior, fs[x].name) ensures SquareAt(c, c', k, fs[x], j.members) {
          SquareField(c, c', k, j.members, x);
        }
        SquareFields(c, c', k, prior, fs, j.members);
      case TEnum(e) =>
        assert MembersExtend(c.enums[e], c'.enums[e]);
      case _ =>
    }
  }

  /** The square at one field. */
  ghost predicate SquareAt(c: Catalogue, c': Catalogue, k: Id, f: Field, ms: seq<Member>) {
    DecodeField(c', k, f, ms).Ok? ==>
      DecodeField(c, k, f, ms) == Ok(Forget(c, DecodeField(c', k, f, ms).value))
  }

  lemma DecodeFieldsAppend(c: Catalogue, k: Id, front: seq<Field>, f: Field, ms: seq<Member>, slots: seq<Slot>)
    requires DecodeFields(c, k, front, ms) == Ok(slots)
    ensures DecodeFields(c, k, front + [f], ms) ==
      match DecodeField(c, k, f, ms)
      case Ok(v) => Ok(slots + [Slot(f.name, v)])
      case Err(e) => Err(e)
  {
    assert (front + [f])[..|front|] == front;
  }

  lemma ForgetSlotsAppend(c: Catalogue, prior: seq<Field>, front: seq<Slot>, s: Slot)
    ensures ForgetSlots(c, prior, front + [s]) ==
      if HasField(prior, s.name) then ForgetSlots(c, prior, front) + [Slot(s.name, Forget(c, s.val))]
      else ForgetSlots(c, prior, front)
  {
    assert (front + [s])[..|front|] == front;
  }

  /** Where the square holds at each kept field, it holds of all the attributes. */
  lemma {:induction false} SquareFields(
    c: Catalogue, c': Catalogue, k: Id, prior: seq<Field>, fs: seq<Field>, ms: seq<Member>)
    requires DecodeFields(c', k, fs, ms).Ok?
    requires forall x :: 0 <= x < |fs| && HasField(prior, fs[x].name) ==> SquareAt(c, c', k, fs[x], ms)
    ensures DecodeFields(c, k, KeepNamed(fs, prior), ms) ==
            Ok(ForgetSlots(c, prior, DecodeFields(c', k, fs, ms).value))
    decreases |fs|
  {
    if |fs| > 0 {
      var front, f := fs[..|fs| - 1], fs[|fs| - 1];
      assert fs == front + [f];
      SquareFields(c, c', k, prior, front, ms);
      var slots := DecodeFields(c', k, front, ms).value;
      DecodeFieldsAppend(c', k, front, f, ms, slots);
      ForgetSlotsAppend(c, prior, slots, Slot(f.name, DecodeField(c', k, f, ms).value));
      if HasField(prior, f.name) {
        assert SquareAt(c, c', k, f, ms);
        DecodeFieldsAppend(c, k, KeepNamed(front, prior), f, ms, ForgetSlots(c, prior, slots));
      }
    }
  }

  lemma {:induction false} SquareField(c: Catalogue, c': Catalogue, k: Id, ms: seq<Member>, x: nat)
    requires WellFormed(c) && WellFormed(c') && Enlarges(c, c') && k in c.classes
    requires x < |c'.classes[k]| && HasField(c.classes[k], c'.classes[k][x].name)
    ensures SquareAt(c, c', k, c'.classes[k][x], ms)
    decreases ms, 0
  {
    var f := c'.classes[k][x];
    OldFieldIsGood(c, c', k, x);
    if DecodeField(c', k, f, ms).Ok? {
      var i := IndexOf(ms, f.name);
      if i < |ms| {
        EvolutionSquare(c, c', f.ty, ms[i].val);
      } else if f.dflt.Default? {
        ForgetIsIdentity(c, f.ty, f.dflt.val);
      }
    }
  }

  lemma OldFieldIsGood(c: Catalogue, c': Catalogue, k: Id, x: nat)
    requires WellFormed(c) && WellFormed(c') && Enlarges(c, c') && k in c.classes
    requires x < |c'.classes[k]| && HasField(c.classes[k], c'.classes[k][x].name)
    ensures c'.classes[k][x] in c.classes[k] && GoodField(c, c'.classes[k][x])
  {
    var prior, all := c.classes[k], c'.classes[k];
    assert ClassEnlarges(prior, all) && GoodClass(c, prior) && GoodClass(c', all);
    var i := FieldIndex(prior, all[x].name);
    var y := KeptField(all, prior, i);
  }

  /** Two successive upgrades forgotten one after the other, or in one step. */
  lemma {:induction false} ForgetComposes(c: Catalogue, c': Catalogue, v: Value)
    requires Enlarges(c, c')
    ensures Forget(c, Forget(c', v)) == Forget(c, v)
    decreases v, 1
  {
    match v {
      case VList(vs) => ForgetComposesItems(c, c', vs);
      case VDict(es) => ForgetComposesEntries(c, c', es);
      case VEnum(e, m) =>
        if e in c.enums { assert MembersExtend(c.enums[e], c'.enums[e]); }
      case VData(k, slots) =>
        if k in c.classes { ForgetComposesSlots(c, c', k, slots); }
      case _ =>
    }
  }

  lemma {:induction false} ForgetComposesItems(c: Catalogue, c': Catalogue, vs: seq<Value>)
    requires Enlarges(c, c')
    ensures ForgetItems(c, ForgetItems(c', vs)) == ForgetItems(c, vs)
    decreases vs, 0
  {
    forall x | 0 <= x < |vs| ensures ForgetItems(c, ForgetItems(c', vs))[x] == ForgetItems(c, vs)[x] {
      ForgetItemsAt(c', vs, x);
      ForgetItemsAt(c, ForgetItems(c', vs), x);
      ForgetItemsAt(c, vs, x);
      ForgetComposes(c, c', vs[x]);
    }
  }

  lemma {:induction false} ForgetComposesEntries(c: Catalogue, c': Catalogue, es: seq<Slot>)
    requires Enlarges(c, c')
    ensures ForgetEntries(c, ForgetEntries(c', es)) == ForgetEntries(c, es)
    decreases es, 0
  {
    forall x | 0 <= x < |es| ensures ForgetEntries(c, ForgetEntries(c', es))[x] == ForgetEntries(c, es)[x] {
      ForgetEntriesAt(c', es, x);
      ForgetEntriesAt(c, ForgetEntries(c', es), x);
      ForgetEntriesAt(c, es, x);
      ForgetComposes(c, c', es[x].val);
    }
  }

  lemma {:induction false} ForgetComposesSlots(c: Catalogue, c': Catalogue, k: Id, slots: seq<Slot>)
    requires Enlarges(c, c') && k in c.classes
    ensures ForgetSlots(c, c.classes[k], ForgetSlots(c', c'.classes[k], slots)) == ForgetSlots(c, c.classes[k], slots)
    decreases slots
  {
    if |slots| > 0 {
      var n, s := |slots| - 1, slots[|slots| - 1];
      ForgetComposesSlots(c, c', k, slots[..n]);
      ForgetComposes(c, c', s.val);
      OldNamesStay(c, c', k, s.name);
      var inner, all := ForgetSlots(c', c'.classes[k], slots[..n]), ForgetSlots(c', c'.classes[k], slots);
      if HasField(c'.classes[k], s.name) {
        assert all[..|all| - 1] == inner;
      } else {
        assert all == inner;
      }
    }
  }

  lemma OldNamesStay(c: Catalogue, c': Catalogue, k: Id, name: string)
    requires Enlarges(c, c') && k in c.classes
    ensures HasField(c.classes[k], name) ==> HasField(c'.classes[k], name)
  {
    if HasField(c.classes[k], name) {
      assert ClassEnlarges(c.classes[k], c'.classes[k]);
      var y := KeptField(c'.classes[k], c.classes[k], FieldIndex(c.classes[k], name));
      assert c'.classes[k][y].name == name;
    }
  }

  // ---- upgrading ---------------------------------------------------------------------

  /** Upgrading adds nothing a writer prints, and forgetting undoes it. */
  lemma {:induction false} UpgradePreservesBytes(c: Catalogue, c': Catalogue, t: Ty, v: Value)
    requires WellFormed(c) && WellFormed(c') && Extends(c, c') && HasType(c, t, v)
    ensures HasType(c', t, Upgrade(c', v))
    ensures Encode(Upgrade(c', v)) == Encode(v)
    ensures Upgrade(c', v).VNone? <==> v.VNone?
    decreases v, t
  {
    match t {
      case TAny => UpgradeRaw(c', v);
      case TOpt(u) => if !v.VNone? { UpgradePreservesBytes(c, c', u, v); }
      case TList(u) => UpgradeList(c, c', u, v);
      case TDict(u) => UpgradeDict(c, c', u, v);
      case TData(k) => UpgradeInstance(c, c', k, v);
      case TEnum(e) => assert MembersExtend(c.enums[e], c'.enums[e]);
      case _ =>
    }
  }

  lemma {:induction false} UpgradeList(c: Catalogue, c': Catalogue, u: Ty, v: Value)
    requires WellFormed(c) && WellFormed(c') && Extends(c, c') && HasType(c, TList(u), v)
    ensures HasType(c', TList(u), Upgrade(c', v)) && Encode(Upgrade(c', v)) == Encode(v)
    decreases v, u, 1
  {
    var ws := UpgradeItems(c', v.items);
    forall x | 0 <= x < |ws| ensures HasType(c', u, ws[x]) && Encode(ws[x]) == Encode(v.items[x]) {
      UpgradeItemsAt(c', v.items, x);
      UpgradePreservesBytes(c, c', u, v.items[x]);
    }
    SameItemsEncode(ws, v.items);
  }

  lemma {:induction false} SameItemsEncode(vs: seq<Value>, ws: seq<Value>)
    requires |vs| == |ws| && forall x :: 0 <= x < |vs| ==> Encode(vs[x]) == Encode(ws[x])
    ensures EncodeItems(vs) == EncodeItems(ws)
  {
    if |vs| > 0 {
      SameItemsEncode(vs[..|vs| - 1], ws[..|ws| - 1]);
    }
  }

  lemma {:induction false} UpgradeDict(c: Catalogue, c': Catalogue, u: Ty, v: Value)
    requires WellFormed(c) && WellFormed(c') && Extends(c, c') && HasType(c, TDict(u), v)
    ensures HasType(c', TDict(u), Upgrade(c', v)) && Encode(Upgrade(c', v)) == Encode(v)
    decreases v, u, 1
  {
    var ws := UpgradeEntries(c', v.entries);
    forall x | 0 <= x < |ws|
      ensures HasType(c', u, ws[x].val) && ws[x].name == v.entries[x].name
      ensures Encode(ws[x].val) == Encode(v.entries[x].val)
    {
      UpgradeEntriesAt(c', v.entries, x);
      UpgradePreservesBytes(c, c', u, v.entries[x].val);
    }
    SameEntriesEncode(ws, v.entries);
  }

  lemma {:induction false} SameEntriesEncode(es: seq<Slot>, fs: seq<Slot>)
    requires |es| == |fs|
    requires forall x :: 0 <= x < |es| ==> es[x].name == fs[x].name && Encode(es[x].val) == Encode(fs[x].val)
    ensures EncodeEntries(es) == EncodeEntries(fs)
  {
    if |es| > 0 {
      SameEntriesEncode(es[..|es| - 1], fs[..|fs| - 1]);
    }
  }

  lemma {:induction false} UpgradeRaw(c: Catalogue, v: Value)
    requires IsRaw(v)
    ensures Upgrade(c, v) == v
    decreases v
  {
    match v {
      case VList(vs) =>
        forall x | 0 <= x < |vs| ensures UpgradeItems(c, vs)[x] == vs[x] {
          UpgradeItemsAt(c, vs, x);
          UpgradeRaw(c, vs[x]);
        }
      case VDict(es) =>
        forall x | 0 <= x < |es| ensures UpgradeEntries(c, es)[x] == es[x] {
          UpgradeEntriesAt(c, es, x);
          UpgradeRaw(c, es[x].val);
        }
      case _ =>
    }
  }

  /** What the upgraded instance holds at a field: something that prints as the old
      attribute, or `None`. */
  ghost predicate PrintsAs(prior: seq<Field>, slots: seq<Slot>, f: Field, s: Slot)
    requires |slots| == |prior|
  {
    && s.name == f.name
    && (!HasField(prior, f.name) ==> s.val.VNone?)
    && (forall i :: 0 <= i < |prior| && prior[i] == f ==>
          Encode(s.val) == Encode(slots[i].val) && (s.val.VNone? <==> slots[i].val.VNone?))
  }

  lemma {:induction false} UpgradeInstance(c: Catalogue, c': Catalogue, k: Id, v: Value)
    requires WellFormed(c) && WellFormed(c') && Extends(c, c') && k in c.classes && HasType(c, TData(k), v)
    ensures HasType(c', TData(k), Upgrade(c', v))
    ensures Encode(Upgrade(c', v)) == Encode(v)
    decreases v, TData(k), 1
  {
    var prior, fs := c.classes[k], c'.classes[k];
    forall x | 0 <= x < |fs| ensures HasType(c', fs[x].ty, UpgradeSlots(c', fs, v.slots)[x].val)
      ensures PrintsAs(prior, v.slots, fs[x], UpgradeSlots(c', fs, v.slots)[x])
    {
      UpgradedField(c, c', k, v, x);
    }
    UpgradedInstance(c', k, prior, v.slots);
  }

  lemma UpgradedInstance(c': Catalogue, k: Id, prior: seq<Field>, slots: seq<Slot>)
    requires k in c'.classes && ClassExtends(prior, c'.classes[k])
    requires |slots| == |prior| && forall x :: 0 <= x < |prior| ==> slots[x].name == prior[x].name
    requires var fs := c'.classes[k];
      forall x :: 0 <= x < |fs| ==>
        HasType(c', fs[x].ty, UpgradeSlots(c', fs, slots)[x].val) &&
        PrintsAs(prior, slots, fs[x], UpgradeSlots(c', fs, slots)[x])
    ensures var w := VData(k, UpgradeSlots(c', c'.classes[k], slots));
      HasType(c', TData(k), w) && Encode(w) == JObj(EncodeSlots(slots))
  {
    var ups := UpgradeSlots(c', c'.classes[k], slots);
    UpgradedSlotsBytes(prior, c'.classes[k], slots, ups, |ups|);
    assert ups[..|ups|] == ups && c'.classes[k][..|ups|] == c'.classes[k];
    assert slots[..|prior|] == slots;
  }

  lemma {:induction false} UpgradedField(c: Catalogue, c': Catalogue, k: Id, v: Value, x: nat)
    requires WellFormed(c) && WellFormed(c') && Extends(c, c') && k in c.classes && HasType(c, TData(k), v)
    requires x < |c'.classes[k]|
    ensures var f, s := c'.classes[k][x], UpgradeSlots(c', c'.classes[k], v.slots)[x];
      HasType(c', f.ty, s.val) && PrintsAs(c.classes[k], v.slots, f, s)
    decreases v, TData(k), 0
  {
    var f, prior := c'.classes[k][x], c.classes[k];
    UpgradeSlotsAt(c', c'.classes[k], v.slots, x);
    SlotOfField(prior, v.slots, f.name);
    if HasField(prior, f.name) {
      var i := FieldIndex(prior, f.name);
      SameField(c, c', k, x, i);
      UpgradePreservesBytes(c, c', f.ty, v.slots[i].val);
      OnlyIndex(prior, i);
    } else {
      assert ClassExtends(prior, c'.classes[k]);
      assert Additive(f);
      assert f !in prior;
    }
  }

  lemma OnlyIndex(fs: seq<Field>, i: nat)
    requires i < |fs| && forall x, y :: 0 <= x < y < |fs| ==> fs[x].name != fs[y].name
    ensures forall l :: 0 <= l < |fs| && fs[l] == fs[i] ==> l == i
  {
  }

  lemma SlotOfField(fs: seq<Field>, slots: seq<Slot>, name: string)
    requires |fs| == |slots| && forall x :: 0 <= x < |fs| ==> slots[x].name == fs[x].name
    ensures SlotIndex(slots, name) == FieldIndex(fs, name)
  {
    var i, j := SlotIndex(slots, name), FieldIndex(fs, name);
    assert j < |fs| ==> slots[j].name == name;
    assert i < |slots| ==> fs[i].name == name;
  }

  lemma SameField(c: Catalogue, c': Catalogue, k: Id, x: nat, i: nat)
    requires WellFormed(c) && WellFormed(c') && Enlarges(c, c') && k in c.classes
    requires x < |c'.classes[k]| && i < |c.classes[k]| && c.classes[k][i].name == c'.classes[k][x].name
    ensures c'.classes[k][x] == c.classes[k][i] && DistinctFields(c.classes[k])
  {
    assert HasField(c.classes[k], c'.classes[k][x].name);
    OldFieldIsGood(c, c', k, x);
    assert DistinctFields(c.classes[k]);
  }

  lemma EncodeSlotsStep(slots: seq<Slot>, m: nat)
    requires m < |slots|
    ensures EncodeSlots(slots[..m + 1]) ==
      if slots[m].val.VNone? then EncodeSlots(slots[..m])
      else EncodeSlots(slots[..m]) + [Member(slots[m].name, Encode(slots[m].val))]
  {
    assert slots[..m + 1][..m] == slots[..m];
  }

  /** One more upgraded attribute prints as the old one at `m`, or not at all. */
  lemma UpgradedSlotBytes(prior: seq<Field>, f: Field, slots: seq<Slot>, ups: seq<Slot>, n: nat, m: nat)
    requires |slots| == |prior| && n < |ups| && PrintsAs(prior, slots, f, ups[n])
    requires m <= |slots| && EncodeSlots(ups[..n]) == EncodeSlots(slots[..m])
    requires HasField(prior, f.name) ==> m < |prior| && prior[m] == f && slots[m].name == f.name
    ensures EncodeSlots(ups[..n + 1]) == EncodeSlots(slots[..if HasField(prior, f.name) then m + 1 else m])
  {
    EncodeSlotsStep(ups, n);
    if HasField(prior, f.name) {
      EncodeSlotsStep(slots, m);
    }
  }

  lemma KeepNamedNext(fs: seq<Field>, prior: seq<Field>, n: nat)
    requires n < |fs|
    ensures KeepNamed(fs[..n + 1], prior)
         == KeepNamed(fs[..n], prior) + (if HasField(prior, fs[n].name) then [fs[n]] else [])
  {
    assert fs[..n + 1][..n] == fs[..n];
  }

  lemma {:induction false} KeepNamedPrefix(fs: seq<Field>, prior: seq<Field>, n: nat)
    requires n <= |fs|
    ensures KeepNamed(fs[..n], prior) <= KeepNamed(fs, prior)
    decreases |fs| - n
  {
    if n == |fs| {
      assert fs[..n] == fs;
    } else {
      KeepNamedPrefix(fs, prior, n + 1);
      KeepNamedNext(fs, prior, n);
    }
  }

  /** A kept field stands in `prior` where the fields kept before it end. */
  lemma KeptAt(fs: seq<Field>, prior: seq<Field>, n: nat)
    requires n < |fs| && HasField(prior, fs[n].name) && KeepNamed(fs, prior) <= prior
    ensures var m := |KeepNamed(fs[..n], prior)|; m < |prior| && prior[m] == fs[n]
  {
    KeepNamedNext(fs, prior, n);
    KeepNamedPrefix(fs, prior, n + 1);
    var kept := KeepNamed(fs[..n + 1], prior);
    assert kept[|kept| - 1] == prior[|kept| - 1];
  }

  /** The first `n` upgraded attributes print as the old attributes among them. */
  predicate PrintsUpTo(prior: seq<Field>, fs: seq<Field>, slots: seq<Slot>, ups: seq<Slot>, n: nat)
    requires n <= |fs| == |ups|
  {
    var m := |KeepNamed(fs[..n], prior)|;
    m <= |slots| && EncodeSlots(ups[..n]) == EncodeSlots(slots[..m])
  }

  lemma PrintsOneMore(prior: seq<Field>, fs: seq<Field>, slots: seq<Slot>, ups: seq<Slot>, n: nat)
    requires n < |fs| == |ups| && |slots| == |prior| && KeepNamed(fs, prior) <= prior
    requires forall x :: 0 <= x < |prior| ==> slots[x].name == prior[x].name
    requires PrintsAs(prior, slots, fs[n], ups[n]) && PrintsUpTo(prior, fs, slots, ups, n)
    ensures PrintsUpTo(prior, fs, slots, ups, n + 1)
  {
    var m := |KeepNamed(fs[..n], prior)|;
    KeepNamedNext(fs, prior, n);
    if HasField(prior, fs[n].name) {
      KeptAt(fs, prior, n);
    }
    UpgradedSlotBytes(prior, fs[n], slots, ups, n, m);
  }

  lemma {:induction false} UpgradedSlotsBytes(
    prior: seq<Field>, fs: seq<Field>, slots: seq<Slot>, ups: seq<Slot>, n: nat)
    requires n <= |fs| == |ups| && |slots| == |prior| && KeepNamed(fs, prior) <= prior
    requires forall x :: 0 <= x < |prior| ==> slots[x].name == prior[x].name
    requires forall x :: 0 <= x < |fs| ==> PrintsAs(prior, slots, fs[x], ups[x])
    ensures PrintsUpTo(prior, fs, slots, ups, n)
    decreases n
  {
    if n > 0 {
      UpgradedSlotsBytes(prior, fs, slots, ups, n - 1);
      assert PrintsAs(prior, slots, fs[n - 1], ups[n - 1]);
      PrintsOneMore(prior, fs, slots, ups, n - 1);
    }
  }

  /** A library upgrade rewrites nothing. The new reader decodes what the old writer
      printed, prints it back byte for byte, and the old value is what it forgets to. */
  lemma UpgradeIsByteStable(c: Catalogue, c': Catalogue, t: Ty, v: Value)
    requires WellFormed(c) && WellFormed(c') && Extends(c, c') && Resolved(c, t) && HasType(c, t, v)
    ensures Decode(c', t, Encode(v)) == Ok(Upgrade(c', v))
    ensures Norm(c', t, Encode(v)) == Ok(Encode(v))
    ensures Forget(c, Upgrade(c', v)) == v
  {
    UpgradePreservesBytes(c, c', t, v);
    ResolvedStays(c, c', t);
    RoundTrips(c', t, Upgrade(c', v));
    EvolutionSquare(c, c', t, Encode(v));
    RoundTrips(c, t, v);
  }

  lemma {:induction false} ResolvedStays(c: Catalogue, c': Catalogue, t: Ty)
    requires Enlarges(c, c') && Resolved(c, t)
    ensures Resolved(c', t)
  {
    match t {
      case TOpt(u) => ResolvedStays(c, c', u);
      case TList(u) => ResolvedStays(c, c', u);
      case TDict(u) => ResolvedStays(c, c', u);
      case _ =>
    }
  }

  // ---- successive versions ------------------------------------------------------------

  /** Enlargements compose, so the square holds across any number of releases. */
  lemma EnlargesTransitive(c: Catalogue, c': Catalogue, c'': Catalogue)
    requires Enlarges(c, c') && Enlarges(c', c'')
    ensures Enlarges(c, c'')
  {
    forall e | e in c.enums ensures MembersExtend(c.enums[e], c''.enums[e]) {
      assert MembersExtend(c.enums[e], c'.enums[e]) && MembersExtend(c'.enums[e], c''.enums[e]);
    }
    forall k | k in c.classes ensures ClassEnlarges(c.classes[k], c''.classes[k]) {
      assert ClassEnlarges(c.classes[k], c'.classes[k]) && ClassEnlarges(c'.classes[k], c''.classes[k]);
      forall n: string ensures HasField(c.classes[k], n) ==> HasField(c'.classes[k], n) {
        OldNamesStay(c, c', k, n);
      }
      KeepNamedTwice(c''.classes[k], c'.classes[k], c.classes[k]);
    }
  }

  /** So do additive changes. */
  lemma ExtendsTransitive(c: Catalogue, c': Catalogue, c'': Catalogue)
    requires Extends(c, c') && Extends(c', c'')
    ensures Extends(c, c'')
  {
    EnlargesTransitive(c, c', c'');
    forall k | k in c.classes ensures ClassExtends(c.classes[k], c''.classes[k]) {
      assert ClassEnlarges(c.classes[k], c''.classes[k]);
      assert ClassExtends(c.classes[k], c'.classes[k]) && ClassExtends(c'.classes[k], c''.classes[k]);
      forall x | 0 <= x < |c''.classes[k]| && !HasField(c.classes[k], c''.classes[k][x].name)
        ensures Additive(c''.classes[k][x])
      {
        if HasField(c'.classes[k], c''.classes[k][x].name) {
          KeptFieldHere(c''.classes[k], c'.classes[k], x);
        }
      }
    }
  }

  lemma {:induction false} KeepNamedTwice(fs: seq<Field>, mid: seq<Field>, prior: seq<Field>)
    requires forall n: string :: HasField(prior, n) ==> HasField(mid, n)
    ensures KeepNamed(KeepNamed(fs, mid), prior) == KeepNamed(fs, prior)
  {
    if |fs| > 0 {
      var n := |fs| - 1;
      KeepNamedTwice(fs[..n], mid, prior);
      if HasField(mid, fs[n].name) {
        var kept := KeepNamed(fs, mid);
        assert kept[..|kept| - 1] == KeepNamed(fs[..n], mid);
      }
    }
  }

  lemma {:induction false} KeptFieldHere(fs: seq<Field>, prior: seq<Field>, x: nat)
    requires x < |fs| && HasField(prior, fs[x].name)
    ensures fs[x] in KeepNamed(fs, prior)
  {
    if x < |fs| - 1 {
      KeptFieldHere(fs[..|fs| - 1], prior, x);
    }
  }

  /** A reader two releases behind sees what the reader one release behind would pass on. */
  lemma SquaresCompose(c: Catalogue, c': Catalogue, c'': Catalogue, t: Ty, j: Json)
    requires WellFormed(c) && WellFormed(c') && WellFormed(c'')
    requires Enlarges(c, c') && Enlarges(c', c'') && Resolved(c, t) && Decode(c'', t, j).Ok?
    ensures Decode(c, t, j) == Ok(Forget(c, Forget(c', Decode(c'', t, j).value)))
  {
    ResolvedStays(c, c', t);
    EvolutionSquare(c', c'', t, j);
    EvolutionSquare(c, c', t, j);
  }

  // ---- what the new reader demands on top -------------------------------------------

  /** The old reader accepts a payload exactly when the new reader accepts it without
      the members the old classes do not name. */
  lemma OldAcceptsIffNewAcceptsTrimmed(c: Catalogue, c': Catalogue, t: Ty, j: Json)
    requires WellFormed(c) && WellFormed(c') && Extends(c, c') && Resolved(c, t)
    ensures Decode(c, t, j).Ok? <==> Decode(c', t, Trim(c, t, j)).Ok?
  {
    assert forall k :: k in c.classes ==> GoodClass(c, c.classes[k]);
    TrimmingIsInvisible(c, t, j);
    if Decode(c', t, Trim(c, t, j)).Ok? {
      EvolutionSquare(c, c', t, Trim(c, t, j));
    }
    if Decode(c, t, j).Ok? {
      NewAcceptsTrimmed(c, c', t, j);
    }
  }

  lemma {:induction false} NewAcceptsTrimmed(c: Catalogue, c': Catalogue, t: Ty, j: Json)
    requires WellFormed(c) && Extends(c, c') && Resolved(c, t) && Decode(c, t, j).Ok?
    ensures Decode(c', t, Trim(c, t, j)).Ok?
    decreases j, t
  {
    match t {
      case TOpt(u) => if !j.JNull? { NewAcceptsTrimmed(c, c', u, j); }
      case TList(u) => NewAcceptsItems(c, c', u, j.items);
      case TDict(u) => NewAcceptsEntries(c, c', u, j.members);
      case TData(k) =>
        var fs' := c'.classes[k];
        assert ClassExtends(c.classes[k], fs');
        forall x | 0 <= x < |fs'|
          ensures DecodeField(c', k, fs'[x], TrimMembers(c, c.classes[k], j.members)).Ok?
        {
          NewAcceptsField(c, c', k, j.members, x);
        }
        FieldsAllOk(c', k, fs', TrimMembers(c, c.classes[k], j.members));
      case TEnum(e) => assert MembersExtend(c.enums[e], c'.enums[e]);
      case _ =>
    }
  }

  lemma {:induction false} NewAcceptsItems(c: Catalogue, c': Catalogue, t: Ty, items: seq<Json>)
    requires WellFormed(c) && Extends(c, c') && Resolved(c, t) && DecodeItems(c, t, items).Ok?
    ensures DecodeItems(c', t, TrimItems(c, t, items)).Ok?
    decreases items
  {
    if |items| > 0 {
      NewAcceptsItems(c, c', t, items[..|items| - 1]);
      NewAcceptsTrimmed(c, c', t, items[|items| - 1]);
    }
  }

  lemma {:induction false} NewAcceptsEntries(c: Catalogue, c': Catalogue, t: Ty, ms: seq<Member>)
    requires WellFormed(c) && Extends(c, c') && Resolved(c, t) && DecodeEntries(c, t, ms).Ok?
    ensures DecodeEntries(c', t, TrimEntries(c, t, ms)).Ok?
    decreases ms
  {
    if |ms| > 0 {
      NewAcceptsEntries(c, c', t, ms[..|ms| - 1]);
      NewAcceptsTrimmed(c, c', t, ms[|ms| - 1].val);
    }
  }

  lemma {:induction false} NewAcceptsField(c: Catalogue, c': Catalogue, k: Id, ms: seq<Member>, x: nat)
    requires WellFormed(c) && Extends(c, c') && k in c.classes && DecodeFields(c, k, c.classes[k], ms).Ok?
    requires x < |c'.classes[k]|
    ensures DecodeField(c', k, c'.classes[k][x], TrimMembers(c, c.classes[k], ms)).Ok?
    decreases ms, 0
  {
    var prior, f := c.classes[k], c'.classes[k][x];
    assert ClassExtends(prior, c'.classes[k]) && GoodClass(c, prior);
    TrimMembersLookup(c, prior, ms, f.name);
    if HasField(prior, f.name) {
      KeptFieldHere(c'.classes[k], prior, x);
      var i := FieldIndex(prior, f.name);
      assert prior[i] == f && GoodField(c, f);
      DecodeFieldsAt(c, k, prior, ms, i);
      var l := IndexOf(ms, f.name);
      if l < |ms| {
        NewAcceptsTrimmed(c, c', f.ty, ms[l].val);
      }
    }
  }

  lemma {:induction false} FieldsAllOk(c: Catalogue, k: Id, fs: seq<Field>, ms: seq<Member>)
    requires forall x :: 0 <= x < |fs| ==> DecodeField(c, k, fs[x], ms).Ok?
    ensures DecodeFields(c, k, fs, ms).Ok?
  {
    if |fs| > 0 {
      FieldsAllOk(c, k, fs[..|fs| - 1], ms);
    }
  }

  // ---- why additions default to None ------------------------------------------------

  /** Re-encoding a payload that lacks a key leaves the key out exactly when the field
      defaults to `None`. Any other default would rewrite every stored artifact. */
  lemma AbsentKeyStaysAbsentIff(c: Catalogue, k: Id, ms: seq<Member>, x: nat)
    requires k in c.classes && DistinctFields(c.classes[k]) && x < |c.classes[k]|
    requires !Has(ms, c.classes[k][x].name) && Decode(c, TData(k), JObj(ms)).Ok?
    ensures !Has(Norm(c, TData(k), JObj(ms)).value.members, c.classes[k][x].name)
        <==> c.classes[k][x].dflt in {NoDefault, Default(VNone)}
    ensures c.classes[k][x].dflt !in {NoDefault, Default(VNone)} ==> Norm(c, TData(k), JObj(ms)) != Ok(JObj(ms))
  {
    var fs := c.classes[k];
    var slots := DecodeFields(c, k, fs, ms).value;
    forall y | 0 <= y < |fs| ensures slots[y].name == fs[y].name {
      DecodeFieldsAt(c, k, fs, ms, y);
    }
    DecodeFieldsAt(c, k, fs, ms, x);
    assert SlotIndex(slots, fs[x].name) == x;
    EncodeSlotsLookup(slots, fs[x].name);
  }
}
