/** Rewriting a payload, said of the payload alone. */
module Settling {
  import opened JsonValues
  import opened Catalogues
  import opened Serde
  import opened RoundTrip

  // ---- the settled form ---------------------------------------------------------------

  /** `j` as a writer of `t` would have put it: members in field order, the unnamed ones gone
      and the absent ones at their defaults, nulls left out, integers at float positions
      written as floats, and unrecognised enum values as `unknown`. */
  function Settle(c: Catalogue, t: Ty, j: Json): Json
    decreases j, t
  {
    match t
    case TOpt(u) => if j.JNull? then j else Settle(c, u, j)
    case TList(u) => if j.JArr? then JArr(SettleItems(c, u, j.items)) else j
    case TDict(u) => if j.JObj? then JObj(SettleEntries(c, u, j.members)) else j
    case TEnum(e) => if e in c.enums && j.JStr? && j.s in c.enums[e] then j else JStr(UNKNOWN)
    case TData(k) => if j.JObj? && k in c.classes then JObj(SettleFields(c, c.classes[k], j.members)) else j
    case TFloat => if j.JInt? then JNum(j.i as real) else j
    case _ => j
  }

  function SettleItems(c: Catalogue, t: Ty, items: seq<Json>): (out: seq<Json>)
    ensures |out| == |items|
    decreases items
  {
    if |items| == 0 then [] else
    SettleItems(c, t, items[..|items| - 1]) + [Settle(c, t, items[|items| - 1])]
  }

  function SettleEntries(c: Catalogue, t: Ty, ms: seq<Member>): (out: seq<Member>)
    ensures |out| == |ms|
    decreases ms
  {
    if |ms| == 0 then [] else
    SettleEntries(c, t, ms[..|ms| - 1]) + [Member(ms[|ms| - 1].key, Settle(c, t, ms[|ms| - 1].val))]
  }

  function SettleFields(c: Catalogue, fs: seq<Field>, ms: seq<Member>): seq<Member>
    decreases ms, |fs|
  {
    if |fs| == 0 then []
    else
      var f := fs[|fs| - 1];
      var front, j := SettleFields(c, fs[..|fs| - 1], ms), SettleField(c, f, ms);
      if j.JNull? then front else front + [Member(f.name, j)]
  }

  /** What the member for `f` holds, null standing for no member. */
  function SettleField(c: Catalogue, f: Field, ms: seq<Member>): Json
    decreases ms, 0
  {
    var i := IndexOf(ms, f.name);
    if i < |ms| then Settle(c, f.ty, ms[i].val)
    else if f.dflt.Default? then Encode(f.dflt.val) else JNull
  }

  /** Reading a payload and writing it back settles it, in any catalogue. */
  lemma {:induction false} RewritingSettles(c: Catalogue, t: Ty, j: Json)
    requires Decode(c, t, j).Ok?
    ensures Norm(c, t, j) == Ok(Settle(c, t, j))
    decreases j, t
  {
    match t {
      case TAny => EncodeUndoesRaw(j);
      case TOpt(u) => if !j.JNull? { RewritingSettles(c, u, j); }
      case TList(u) => ItemsSettle(c, u, j.items);
      case TDict(u) => EntriesSettle(c, u, j.members);
      case TData(k) => FieldsSettle(c, k, c.classes[k], j.members);
      case _ =>
    }
  }

  lemma {:induction false} ItemsSettle(c: Catalogue, t: Ty, items: seq<Json>)
    requires DecodeItems(c, t, items).Ok?
    ensures EncodeItems(DecodeItems(c, t, items).value) == SettleItems(c, t, items)
    decreases items
  {
    if |items| > 0 {
      var n := |items| - 1;
      var vs := DecodeItems(c, t, items).value;
      ItemsSettle(c, t, items[..n]);
      RewritingSettles(c, t, items[n]);
      assert vs[..n] == DecodeItems(c, t, items[..n]).value;
    }
  }

  lemma {:induction false} EntriesSettle(c: Catalogue, t: Ty, ms: seq<Member>)
    requires DecodeEntries(c, t, ms).Ok?
    ensures EncodeEntries(DecodeEntries(c, t, ms).value) == SettleEntries(c, t, ms)
    decreases ms
  {
    if |ms| > 0 {
      var n := |ms| - 1;
      var es := DecodeEntries(c, t, ms).value;
      EntriesSettle(c, t, ms[..n]);
      RewritingSettles(c, t, ms[n].val);
      assert es[..n] == DecodeEntries(c, t, ms[..n]).value;
    }
  }

  lemma {:induction false} FieldsSettle(c: Catalogue, k: Id, fs: seq<Field>, ms: seq<Member>)
    requires DecodeFields(c, k, fs, ms).Ok?
    ensures EncodeSlots(DecodeFields(c, k, fs, ms).value) == SettleFields(c, fs, ms)
    decreases ms, |fs|
  {
    if |fs| > 0 {
      var n := |fs| - 1;
      var slots := DecodeFields(c, k, fs, ms).value;
      FieldsSettle(c, k, fs[..n], ms);
      FieldSettles(c, k, fs[n], ms);
      assert slots[..n] == DecodeFields(c, k, fs[..n], ms).value;
      assert slots[n] == Slot(fs[n].name, DecodeField(c, k, fs[n], ms).value);
    }
  }

  lemma {:induction false} FieldSettles(c: Catalogue, k: Id, f: Field, ms: seq<Member>)
    requires DecodeField(c, k, f, ms).Ok?
    ensures Encode(DecodeField(c, k, f, ms).value) == SettleField(c, f, ms)
    decreases ms, 0
  {
    var i := IndexOf(ms, f.name);
    if i < |ms| {
      RewritingSettles(c, f.ty, ms[i].val);
    }
  }

  /** So a reader of a well-formed catalogue tells two payloads apart exactly when they
      settle apart. */
  lemma SameReadingIff(c: Catalogue, t: Ty, j: Json, k: Json)
    requires WellFormed(c) && Resolved(c, t) && Decode(c, t, j).Ok? && Decode(c, t, k).Ok?
    ensures Decode(c, t, j) == Decode(c, t, k) <==> Settle(c, t, j) == Settle(c, t, k)
  {
    RewritingSettles(c, t, j);
    RewritingSettles(c, t, k);
    NormIsRetraction(c, t, j);
    NormIsRetraction(c, t, k);
  }

  /** A settled payload reads as the payload it came from, and is settled. */
  lemma SettlingIsInvisible(c: Catalogue, t: Ty, j: Json)
    requires WellFormed(c) && Resolved(c, t) && Decode(c, t, j).Ok?
    ensures Decode(c, t, Settle(c, t, j)) == Decode(c, t, j)
    ensures Settle(c, t, Settle(c, t, j)) == Settle(c, t, j)
  {
    RewritingSettles(c, t, j);
    NormIsRetraction(c, t, j);
    RewritingSettles(c, t, Settle(c, t, j));
  }
}
