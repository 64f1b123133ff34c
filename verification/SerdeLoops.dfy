/** `to_jsonable` and `from_jsonable` as they run: loops, and a path threaded down. */
module SerdeLoops {
  import opened JsonValues
  import opened Catalogues
  import opened Serde

  method ToJsonable(v: Value) returns (j: Json)
    ensures j == Encode(v)
    decreases v
  {
    match v {
      case VNone => j := JNull;
      case VBool(b) => j := JBool(b);
      case VInt(i) => j := JInt(i);
      case VFloat(r) => j := JNum(r);
      case VStr(s) => j := JStr(s);
      case VEnum(_, m) => j := JStr(m);
      case VList(items) =>
        var out: seq<Json> := [];
        for i := 0 to |items|
          invariant out == EncodeItems(items[..i])
        {
          assert items[..i + 1][..i] == items[..i];
          var item := ToJsonable(items[i]);
          out := out + [item];
        }
        assert items[..|items|] == items;
        j := JArr(out);
      case VDict(es) =>
        var out: seq<Member> := [];
        for i := 0 to |es|
          invariant out == EncodeEntries(es[..i])
        {
          assert es[..i + 1][..i] == es[..i];
          var val := ToJsonable(es[i].val);
          out := out + [Member(es[i].name, val)];
        }
        assert es[..|es|] == es;
        j := JObj(out);
      case VData(_, slots) =>
        var out: seq<Member> := [];
        for i := 0 to |slots|
          invariant out == EncodeSlots(slots[..i])
        {
          assert slots[..i + 1][..i] == slots[..i];
          if slots[i].val.VNone? {
            continue;
          }
          var val := ToJsonable(slots[i].val);
          out := out + [Member(slots[i].name, val)];
        }
        assert slots[..|slots|] == slots;
        j := JObj(out);
    }
  }

  /** `r` with its error path, if any, read from the root instead of from `path`. */
  function Rooted<T>(path: seq<Step>, r: Result<T>): Result<T> {
    match r
    case Ok(v) => Ok(v)
    case Err(e) => Err(DecodeError(path + e.path, e.reason))
  }

  /** A child's error, rooted at the child, is the parent's error rooted at the parent. */
  lemma RootedUnder(path: seq<Step>, step: Step, e: DecodeError)
    ensures DecodeError((path + [step]) + e.path, e.reason) == DecodeError(path + Under(step, e).path, e.reason)
  {
    assert (path + [step]) + e.path == path + ([step] + e.path);
  }

  /** The generated `__init__`: keyword arguments, then defaults. */
  function Construct(fs: seq<Field>, kwargs: map<string, Value>): (slots: seq<Slot>)
    ensures |slots| == |fs|
  {
    if |fs| == 0 then []
    else
      var f := fs[|fs| - 1];
      var v := if f.name in kwargs then kwargs[f.name] else if f.dflt.Default? then f.dflt.val else VNone;
      Construct(fs[..|fs| - 1], kwargs) + [Slot(f.name, v)]
  }

  lemma ConstructIgnoresOthers(fs: seq<Field>, kwargs: map<string, Value>, name: string, v: Value)
    requires forall x :: 0 <= x < |fs| ==> fs[x].name != name
    ensures Construct(fs, kwargs[name := v]) == Construct(fs, kwargs)
  {
    if |fs| > 0 {
      ConstructIgnoresOthers(fs[..|fs| - 1], kwargs, name, v);
    }
  }

  lemma FirstItemError(c: Catalogue, t: Ty, items: seq<Json>, n: nat)
    requires n < |items| && DecodeItems(c, t, items[..n]).Ok? && Decode(c, t, items[n]).Err?
    ensures DecodeItems(c, t, items) == Err(Under(Idx(n), Decode(c, t, items[n]).error))
  {
    var last := |items| - 1;
    if n < last {
      assert items[..last][..n] == items[..n];
      FirstItemError(c, t, items[..last], n);
    }
  }

  lemma FirstEntryError(c: Catalogue, t: Ty, ms: seq<Member>, n: nat)
    requires n < |ms| && DecodeEntries(c, t, ms[..n]).Ok? && Decode(c, t, ms[n].val).Err?
    ensures DecodeEntries(c, t, ms) == Err(Under(Key(ms[n].key), Decode(c, t, ms[n].val).error))
  {
    var last := |ms| - 1;
    if n < last {
      assert ms[..last][..n] == ms[..n];
      FirstEntryError(c, t, ms[..last], n);
    }
  }

  lemma FirstFieldError(c: Catalogue, k: Id, fs: seq<Field>, ms: seq<Member>, n: nat)
    requires n < |fs| && DecodeFields(c, k, fs[..n], ms).Ok? && DecodeField(c, k, fs[n], ms).Err?
    ensures DecodeFields(c, k, fs, ms) == Err(DecodeField(c, k, fs[n], ms).error)
  {
    var last := |fs| - 1;
    if n < last {
      assert fs[..last][..n] == fs[..n];
      FirstFieldError(c, k, fs[..last], ms, n);
    }
  }

  method FromJsonable(c: Catalogue, t: Ty, data: Json, path: seq<Step>) returns (r: Result<Value>)
    requires Declared(c)
    ensures r == Rooted(path, Decode(c, t, data))
    decreases data, t
  {
    match t {
      case TAny => r := Ok(Raw(data));
      case TOpt(u) =>
        if data.JNull? {
          r := Ok(VNone);
        } else {
          r := FromJsonable(c, u, data, path);
        }
      case TList(u) =>
        if !data.JArr? {
          return Err(DecodeError(path, ExpectedList));
        }
        var items := ItemsFromJsonable(c, u, data.items, path);
        r := match items case Ok(vs) => Ok(VList(vs)) case Err(e) => Err(e);
      case TDict(u) =>
        if !data.JObj? {
          return Err(DecodeError(path, ExpectedObject));
        }
        var entries := EntriesFromJsonable(c, u, data.members, path);
        r := match entries case Ok(es) => Ok(VDict(es)) case Err(e) => Err(e);
      case TEnum(e) =>
        if e !in c.enums {
          r := Err(DecodeError(path, UnsupportedType));
        } else if data.JStr? && data.s in c.enums[e] {
          r := Ok(VEnum(e, data.s));
        } else if UNKNOWN in c.enums[e] {
          r := Ok(VEnum(e, UNKNOWN));
        } else {
          r := Err(DecodeError(path, NotAMember(e)));
        }
      case TData(k) =>
        if k !in c.classes {
          return Err(DecodeError(path, UnsupportedType));
        }
        if !data.JObj? {
          return Err(DecodeError(path, ExpectedObject));
        }
        var slots := FieldsFromJsonable(c, k, data.members, path);
        r := match slots case Ok(ss) => Ok(VData(k, ss)) case Err(e) => Err(e);
      case TFloat =>
        r := if data.JInt? then Ok(VFloat(data.i as real))
             else if data.JNum? then Ok(VFloat(data.r))
             else Err(DecodeError(path, ExpectedNumber));
      case TInt => r := if data.JInt? then Ok(VInt(data.i)) else Err(DecodeError(path, ExpectedInteger));
      case TBool => r := if data.JBool? then Ok(VBool(data.b)) else Err(DecodeError(path, ExpectedBoolean));
      case TStr => r := if data.JStr? then Ok(VStr(data.s)) else Err(DecodeError(path, ExpectedString));
    }
  }

  /** The list comprehension over `enumerate(data)`. */
  method ItemsFromJsonable(c: Catalogue, u: Ty, items: seq<Json>, path: seq<Step>) returns (r: Result<seq<Value>>)
    requires Declared(c)
    ensures r == Rooted(path, DecodeItems(c, u, items))
    decreases items
  {
    var out: seq<Value> := [];
    for i := 0 to |items|
      invariant DecodeItems(c, u, items[..i]) == Ok(out)
    {
      var item := FromJsonable(c, u, items[i], path + [Idx(i)]);
      if item.Err? {
        RootedUnder(path, Idx(i), Decode(c, u, items[i]).error);
        FirstItemError(c, u, items, i);
        return Err(item.error);
      }
      assert items[..i + 1][..i] == items[..i];
      out := out + [item.value];
    }
    assert items[..|items|] == items;
    r := Ok(out);
  }

  /** The dict comprehension over `data.items()`. */
  method EntriesFromJsonable(c: Catalogue, u: Ty, ms: seq<Member>, path: seq<Step>) returns (r: Result<seq<Slot>>)
    requires Declared(c)
    ensures r == Rooted(path, DecodeEntries(c, u, ms))
    decreases ms
  {
    var out: seq<Slot> := [];
    for i := 0 to |ms|
      invariant DecodeEntries(c, u, ms[..i]) == Ok(out)
    {
      var val := FromJsonable(c, u, ms[i].val, path + [Key(ms[i].key)]);
      if val.Err? {
        RootedUnder(path, Key(ms[i].key), Decode(c, u, ms[i].val).error);
        FirstEntryError(c, u, ms, i);
        return Err(val.error);
      }
      assert ms[..i + 1][..i] == ms[..i];
      out := out + [Slot(ms[i].key, val.value)];
    }
    assert ms[..|ms|] == ms;
    r := Ok(out);
  }

  /** The loop over `dataclasses.fields(tp)` filling `kwargs`, then `tp(**kwargs)`. */
  method FieldsFromJsonable(c: Catalogue, k: Id, ms: seq<Member>, path: seq<Step>) returns (r: Result<seq<Slot>>)
    requires Declared(c) && k in c.classes
    ensures r == Rooted(path, DecodeFields(c, k, c.classes[k], ms))
    decreases ms
  {
    var fs := c.classes[k];
    var kwargs: map<string, Value> := map[];
    for n := 0 to |fs|
      invariant DecodeFields(c, k, fs[..n], ms) == Ok(Construct(fs[..n], kwargs))
      invariant forall x :: n <= x < |fs| ==> fs[x].name !in kwargs
    {
      var f, i := fs[n], IndexOf(ms, fs[n].name);
      assert fs[..n + 1][..n] == fs[..n];
      if i < |ms| {
        var val := FromJsonable(c, f.ty, ms[i].val, path + [Key(f.name)]);
        if val.Err? {
          RootedUnder(path, Key(f.name), Decode(c, f.ty, ms[i].val).error);
          FirstFieldError(c, k, fs, ms, n);
          return Err(val.error);
        }
        ConstructIgnoresOthers(fs[..n], kwargs, f.name, val.value);
        kwargs := kwargs[f.name := val.value];
      } else if f.dflt.NoDefault? {
        if !f.ty.TOpt? {
          FirstFieldError(c, k, fs, ms, n);
          return Err(DecodeError(path, MissingField(f.name, k)));
        }
        ConstructIgnoresOthers(fs[..n], kwargs, f.name, VNone);
        kwargs := kwargs[f.name := VNone];
      }
    }
    assert fs[..|fs|] == fs;
    r := Ok(Construct(fs, kwargs));
  }
}
