/** Which error a payload raises: that of its first failing position. */
module Failures {
  import opened JsonValues
  import opened Catalogues
  import opened Serde
  import opened RoundTrip

  // The decoder fails exactly when some position fails by itself, and it reports the first
  // such position in traversal order.

  // ---- positions ----------------------------------------------------------------

  /** The reason `t` rejects `j` without looking inside it. */
  function Mismatch(c: Catalogue, t: Ty, j: Json): seq<Reason> {
    match t
    case TList(_) => if j.JArr? then [] else [ExpectedList]
    case TDict(_) => if j.JObj? then [] else [ExpectedObject]
    case TEnum(e) =>
      if e !in c.enums then [UnsupportedType]
      else if (j.JStr? && j.s in c.enums[e]) || UNKNOWN in c.enums[e] then []
      else [NotAMember(e)]
    case TData(k) =>
      if k !in c.classes then [UnsupportedType]
      else if j.JObj? then [] else [ExpectedObject]
    case TFloat => if j.JInt? || j.JNum? then [] else [ExpectedNumber]
    case TInt => if j.JInt? then [] else [ExpectedInteger]
    case TBool => if j.JBool? then [] else [ExpectedBoolean]
    case TStr => if j.JStr? then [] else [ExpectedString]
    case TAny => []
    case TOpt(_) => []
  }

  /** The error raised by the position that `trail` names, if it fails by itself.
      A trail counts children in the order the decoder visits them: list elements,
      dict entries, and the declared fields of a dataclass. */
  function FailureAt(c: Catalogue, t: Ty, j: Json, trail: seq<nat>): seq<DecodeError>
    decreases j, t, 1
  {
    if t.TOpt? then if j.JNull? then [] else FailureAt(c, t.arg, j, trail)
    else if trail == [] then
      if Mismatch(c, t, j) == [] then [] else [DecodeError([], Mismatch(c, t, j)[0])]
    else
      var i, rest := trail[0], trail[1..];
      match t
      case TList(u) =>
        if j.JArr? && i < |j.items| then Lift(Idx(i), FailureAt(c, u, j.items[i], rest)) else []
      case TDict(u) =>
        if j.JObj? && i < |j.members|
        then Lift(Key(j.members[i].key), FailureAt(c, u, j.members[i].val, rest)) else []
      case TData(k) =>
        if j.JObj? && k in c.classes && i < |c.classes[k]|
        then FailureAtField(c, k, c.classes[k][i], j.members, rest) else []
      case _ => []
  }

  function FailureAtField(c: Catalogue, k: Id, f: Field, ms: seq<Member>, rest: seq<nat>): seq<DecodeError>
    decreases ms, 0
  {
    var l := IndexOf(ms, f.name);
    if l < |ms| then Lift(Key(f.name), FailureAt(c, f.ty, ms[l].val, rest))
    else if Required(f) && rest == [] then [DecodeError([], MissingField(f.name, k))]
    else []
  }

  function Lift(step: Step, es: seq<DecodeError>): seq<DecodeError> {
    if es == [] then [] else [Under(step, es[0])]
  }

  predicate Fails(c: Catalogue, t: Ty, j: Json, trail: seq<nat>) {
    FailureAt(c, t, j, trail) != []
  }

  /** Traversal order. */
  predicate NoLater(a: seq<nat>, b: seq<nat>) {
    a == [] || (b != [] && (a[0] < b[0] || (a[0] == b[0] && NoLater(a[1..], b[1..]))))
  }

  // ---- the first failure --------------------------------------------------------

  /** Sound: no error, no failing position. */
  lemma {:induction false} AcceptedHasNoFailure(c: Catalogue, t: Ty, j: Json, trail: seq<nat>)
    requires Decode(c, t, j).Ok?
    ensures !Fails(c, t, j, trail)
    decreases j, t
  {
    match t {
      case TOpt(u) => if !j.JNull? { AcceptedHasNoFailure(c, u, j, trail); }
      case TList(u) =>
        if trail != [] && trail[0] < |j.items| {
          DecodeItemsAt(c, u, j.items, trail[0]);
          AcceptedHasNoFailure(c, u, j.items[trail[0]], trail[1..]);
        }
      case TDict(u) =>
        if trail != [] && trail[0] < |j.members| {
          DecodeEntriesAt(c, u, j.members, trail[0]);
          AcceptedHasNoFailure(c, u, j.members[trail[0]].val, trail[1..]);
        }
      case TData(k) =>
        if trail != [] && trail[0] < |c.classes[k]| {
          DecodeFieldsAt(c, k, c.classes[k], j.members, trail[0]);
          AcceptedFieldHasNoFailure(c, k, c.classes[k][trail[0]], j.members, trail[1..]);
        }
      case _ =>
    }
  }

  lemma {:induction false} AcceptedFieldHasNoFailure(c: Catalogue, k: Id, f: Field, ms: seq<Member>, rest: seq<nat>)
    requires DecodeField(c, k, f, ms).Ok?
    ensures FailureAtField(c, k, f, ms, rest) == []
    decreases ms, 0
  {
    var l := IndexOf(ms, f.name);
    if l < |ms| {
      AcceptedHasNoFailure(c, f.ty, ms[l].val, rest);
    }
  }

  /** Complete: an error comes from a failing position. */
  lemma {:induction false} ErrorHasTrail(c: Catalogue, t: Ty, j: Json) returns (trail: seq<nat>)
    requires Decode(c, t, j).Err?
    ensures FailureAt(c, t, j, trail) == [Decode(c, t, j).error]
    ensures forall b :: Fails(c, t, j, b) ==> NoLater(trail, b)
    decreases j, t, 1
  {
    trail := [];
    match t {
      case TOpt(u) => trail := ErrorHasTrail(c, u, j);
      case TList(u) => if j.JArr? { trail := FirstBadItem(c, u, j.items); }
      case TDict(u) => if j.JObj? { trail := FirstBadEntry(c, u, j.members); }
      case TData(k) => if j.JObj? && k in c.classes { trail := FirstBadField(c, k, j.members); }
      case _ =>
    }
  }

  lemma {:induction false} ItemsErrorIndex(c: Catalogue, t: Ty, items: seq<Json>) returns (n: nat)
    requires DecodeItems(c, t, items).Err?
    ensures n < |items| && DecodeItems(c, t, items[..n]).Ok? && Decode(c, t, items[n]).Err?
    ensures DecodeItems(c, t, items).error == Under(Idx(n), Decode(c, t, items[n]).error)
  {
    n := |items| - 1;
    if DecodeItems(c, t, items[..n]).Err? {
      var m := ItemsErrorIndex(c, t, items[..n]);
      assert items[..n][..m] == items[..m];
      n := m;
    }
  }

  lemma {:induction false} FirstBadItem(c: Catalogue, t: Ty, items: seq<Json>) returns (trail: seq<nat>)
    requires DecodeItems(c, t, items).Err?
    ensures FailureAt(c, TList(t), JArr(items), trail) == [DecodeItems(c, t, items).error]
    ensures forall b :: Fails(c, TList(t), JArr(items), b) ==> NoLater(trail, b)
    decreases items
  {
    var n := ItemsErrorIndex(c, t, items);
    var rest := ErrorHasTrail(c, t, items[n]);
    trail := [n] + rest;
    forall b | Fails(c, TList(t), JArr(items), b) ensures NoLater(trail, b) {
      if b[0] < n {
        DecodeItemsAt(c, t, items[..n], b[0]);
        AcceptedHasNoFailure(c, t, items[b[0]], b[1..]);
      } else if b[0] == n {
        assert NoLater(rest, b[1..]);
      }
    }
  }

  lemma {:induction false} EntriesErrorIndex(c: Catalogue, t: Ty, ms: seq<Member>) returns (n: nat)
    requires DecodeEntries(c, t, ms).Err?
    ensures n < |ms| && DecodeEntries(c, t, ms[..n]).Ok? && Decode(c, t, ms[n].val).Err?
    ensures DecodeEntries(c, t, ms).error == Under(Key(ms[n].key), Decode(c, t, ms[n].val).error)
  {
    n := |ms| - 1;
    if DecodeEntries(c, t, ms[..n]).Err? {
      var m := EntriesErrorIndex(c, t, ms[..n]);
      assert ms[..n][..m] == ms[..m];
      n := m;
    }
  }

  lemma {:induction false} FirstBadEntry(c: Catalogue, t: Ty, ms: seq<Member>) returns (trail: seq<nat>)
    requires DecodeEntries(c, t, ms).Err?
    ensures FailureAt(c, TDict(t), JObj(ms), trail) == [DecodeEntries(c, t, ms).error]
    ensures forall b :: Fails(c, TDict(t), JObj(ms), b) ==> NoLater(trail, b)
    decreases ms
  {
    var n := EntriesErrorIndex(c, t, ms);
    var rest := ErrorHasTrail(c, t, ms[n].val);
    trail := [n] + rest;
    forall b | Fails(c, TDict(t), JObj(ms), b) ensures NoLater(trail, b) {
      if b[0] < n {
        DecodeEntriesAt(c, t, ms[..n], b[0]);
        AcceptedHasNoFailure(c, t, ms[b[0]].val, b[1..]);
      } else if b[0] == n {
        assert NoLater(rest, b[1..]);
      }
    }
  }

  lemma {:induction false} FieldsErrorIndex(c: Catalogue, k: Id, fs: seq<Field>, ms: seq<Member>) returns (n: nat)
    requires DecodeFields(c, k, fs, ms).Err?
    ensures n < |fs| && DecodeFields(c, k, fs[..n], ms).Ok? && DecodeField(c, k, fs[n], ms).Err?
    ensures DecodeFields(c, k, fs, ms).error == DecodeField(c, k, fs[n], ms).error
  {
    n := |fs| - 1;
    if DecodeFields(c, k, fs[..n], ms).Err? {
      var m := FieldsErrorIndex(c, k, fs[..n], ms);
      assert fs[..n][..m] == fs[..m];
      n := m;
    }
  }

  lemma {:induction false} FirstBadField(c: Catalogue, k: Id, ms: seq<Member>) returns (trail: seq<nat>)
    requires k in c.classes && DecodeFields(c, k, c.classes[k], ms).Err?
    ensures FailureAt(c, TData(k), JObj(ms), trail) == [DecodeFields(c, k, c.classes[k], ms).error]
    ensures forall b :: Fails(c, TData(k), JObj(ms), b) ==> NoLater(trail, b)
    decreases ms
  {
    var fs := c.classes[k];
    var n := FieldsErrorIndex(c, k, fs, ms);
    var l := IndexOf(ms, fs[n].name);
    var rest: seq<nat> := [];
    if l < |ms| {
      rest := ErrorHasTrail(c, fs[n].ty, ms[l].val);
    }
    trail := [n] + rest;
    forall b | Fails(c, TData(k), JObj(ms), b) ensures NoLater(trail, b) {
      if b[0] < n {
        DecodeFieldsAt(c, k, fs[..n], ms, b[0]);
        AcceptedFieldHasNoFailure(c, k, fs[b[0]], ms, b[1..]);
      } else if b[0] == n && l < |ms| {
        assert FailureAtField(c, k, fs[n], ms, b[1..]) != [];
        assert Fails(c, fs[n].ty, ms[l].val, b[1..]);
      }
    }
  }

  /** The decoder fails with `e` exactly when `e` belongs to a failing position that no
      other failing position precedes; it accepts exactly when no position fails. */
  lemma DecodeReportsFirstFailure(c: Catalogue, t: Ty, j: Json, e: DecodeError)
    ensures Decode(c, t, j) == Err(e) <==>
      exists a :: FailureAt(c, t, j, a) == [e] && forall b :: Fails(c, t, j, b) ==> NoLater(a, b)
    ensures Decode(c, t, j).Ok? <==> forall b :: !Fails(c, t, j, b)
  {
    if Decode(c, t, j).Err? {
      var a := ErrorHasTrail(c, t, j);
      assert Fails(c, t, j, a);
      forall b | FailureAt(c, t, j, b) == [e] && forall d :: Fails(c, t, j, d) ==> NoLater(b, d)
        ensures e == Decode(c, t, j).error
      {
        NoLaterAntisymmetric(a, b);
      }
    } else {
      forall b ensures FailureAt(c, t, j, b) == [] {
        AcceptedHasNoFailure(c, t, j, b);
      }
    }
  }

  lemma {:induction false} NoLaterAntisymmetric(a: seq<nat>, b: seq<nat>)
    requires NoLater(a, b) && NoLater(b, a)
    ensures a == b
  {
    if a != [] && b != [] {
      NoLaterAntisymmetric(a[1..], b[1..]);
      assert a == [a[0]] + a[1..] && b == [b[0]] + b[1..];
    }
  }

  // ---- the path -------------------------------------------------------------------

  /** The reported path navigates the payload to the value that is wrong: one of the
      wrong kind, or an object without the missing key. */
  lemma {:induction false} PathLeadsToCulprit(c: Catalogue, t: Ty, j: Json) returns (u: Ty, bad: Json)
    requires UniqueKeys(j) && Decode(c, t, j).Err?
    ensures var e := Decode(c, t, j).error;
      && Leads(j, e.path, bad)
      && Decode(c, u, bad).Err?
      && if e.reason.MissingField?
         then u == TData(e.reason.cls) && bad.JObj? && !Has(bad.members, e.reason.field)
         else Mismatch(c, u, bad) == [e.reason]
    decreases j, t
  {
    var e := Decode(c, t, j).error;
    u, bad := t, j;
    match t {
      case TOpt(arg) => u, bad := PathLeadsToCulprit(c, arg, j);
      case TList(elem) =>
        if j.JArr? {
          var n := ItemsErrorIndex(c, elem, j.items);
          u, bad := PathLeadsToCulprit(c, elem, j.items[n]);
          LeadsUnder(j, Idx(n), j.items[n], Decode(c, elem, j.items[n]).error, bad);
        }
      case TDict(val) =>
        if j.JObj? {
          var n := EntriesErrorIndex(c, val, j.members);
          assert IndexOf(j.members, j.members[n].key) == n;
          u, bad := PathLeadsToCulprit(c, val, j.members[n].val);
          LeadsUnder(j, Key(j.members[n].key), j.members[n].val, Decode(c, val, j.members[n].val).error, bad);
        }
      case TData(k) =>
        if j.JObj? && k in c.classes {
          var n := FieldsErrorIndex(c, k, c.classes[k], j.members);
          var f := c.classes[k][n];
          var l := IndexOf(j.members, f.name);
          if l < |j.members| {
            u, bad := PathLeadsToCulprit(c, f.ty, j.members[l].val);
            LeadsUnder(j, Key(f.name), j.members[l].val, Decode(c, f.ty, j.members[l].val).error, bad);
          }
        }
      case _ =>
    }
  }

  lemma LeadsUnder(j: Json, step: Step, child: Json, e: DecodeError, bad: Json)
    requires Leads(child, e.path, bad)
    requires match step
      case Idx(i) => j.JArr? && i < |j.items| && j.items[i] == child
      case Key(k) => j.JObj? && Has(j.members, k) && Get(j.members, k) == child
    ensures Leads(j, Under(step, e).path, bad)
  {
    assert ([step] + e.path)[1..] == e.path;
  }
}
