/** `to_jsonable` and `from_jsonable`: the functions that say what they compute. */
module Serde {
  import opened JsonValues
  import opened Catalogues

  datatype Reason =
    | ExpectedList
    | ExpectedObject
    | ExpectedNumber
    | ExpectedInteger
    | ExpectedBoolean
    | ExpectedString
    | NotAMember(enum: Id)
    | MissingField(field: string, cls: Id)
    | UnsupportedType

  datatype DecodeError = DecodeError(path: seq<Step>, reason: Reason)

  datatype Result<T> = Ok(value: T) | Err(error: DecodeError)

  function Under(step: Step, e: DecodeError): DecodeError {
    DecodeError([step] + e.path, e.reason)
  }

  function Fail<T>(reason: Reason): Result<T> {
    Err(DecodeError([], reason))
  }

  // ---- to_jsonable ------------------------------------------------------------

  function Encode(v: Value): Json {
    match v
    case VNone => JNull
    case VBool(b) => JBool(b)
    case VInt(i) => JInt(i)
    case VFloat(r) => JNum(r)
    case VStr(s) => JStr(s)
    case VList(items) => JArr(EncodeItems(items))
    case VDict(es) => JObj(EncodeEntries(es))
    case VEnum(_, m) => JStr(m)
    case VData(_, slots) => JObj(EncodeSlots(slots))
  }

  function EncodeItems(vs: seq<Value>): (js: seq<Json>)
    ensures |js| == |vs|
  {
    if |vs| == 0 then [] else
    EncodeItems(vs[..|vs| - 1]) + [Encode(vs[|vs| - 1])]
  }

  function EncodeEntries(es: seq<Slot>): (ms: seq<Member>)
    ensures |ms| == |es|
  {
    if |es| == 0 then [] else
    EncodeEntries(es[..|es| - 1]) + [Member(es[|es| - 1].name, Encode(es[|es| - 1].val))]
  }

  /** Attributes that are `None` leave no member. */
  function EncodeSlots(slots: seq<Slot>): seq<Member> {
    if |slots| == 0 then []
    else
      var last := slots[|slots| - 1];
      var front := EncodeSlots(slots[..|slots| - 1]);
      if last.val.VNone? then front else front + [Member(last.name, Encode(last.val))]
  }

  // ---- from_jsonable ----------------------------------------------------------

  /** The data an `Any` field receives untouched. */
  function Raw(j: Json): Value {
    match j
    case JNull => VNone
    case JBool(b) => VBool(b)
    case JInt(i) => VInt(i)
    case JNum(r) => VFloat(r)
    case JStr(s) => VStr(s)
    case JArr(items) => VList(RawItems(items))
    case JObj(ms) => VDict(RawMembers(ms))
  }

  function RawItems(items: seq<Json>): (vs: seq<Value>)
    ensures |vs| == |items|
  {
    if |items| == 0 then [] else
    RawItems(items[..|items| - 1]) + [Raw(items[|items| - 1])]
  }

  function RawMembers(ms: seq<Member>): (es: seq<Slot>)
    ensures |es| == |ms|
  {
    if |ms| == 0 then [] else
    RawMembers(ms[..|ms| - 1]) + [Slot(ms[|ms| - 1].key, Raw(ms[|ms| - 1].val))]
  }

  /** Decodes `j` at type `t`. An error's path starts at `j`. */
  function Decode(c: Catalogue, t: Ty, j: Json): Result<Value>
    decreases j, t
  {
    match t
    case TAny => Ok(Raw(j))
    case TOpt(u) => if j.JNull? then Ok(VNone) else Decode(c, u, j)
    case TList(u) =>
      if !j.JArr? then Fail(ExpectedList) else
      (match DecodeItems(c, u, j.items)
       case Ok(vs) => Ok(VList(vs))
       case Err(e) => Err(e))
    case TDict(u) =>
      if !j.JObj? then Fail(ExpectedObject) else
      (match DecodeEntries(c, u, j.members)
       case Ok(es) => Ok(VDict(es))
       case Err(e) => Err(e))
    case TEnum(e) =>
      if e !in c.enums then Fail(UnsupportedType)
      else if j.JStr? && j.s in c.enums[e] then Ok(VEnum(e, j.s))
      else if UNKNOWN in c.enums[e] then Ok(VEnum(e, UNKNOWN))
      else Fail(NotAMember(e))
    case TData(k) =>
      if k !in c.classes then Fail(UnsupportedType)
      else if !j.JObj? then Fail(ExpectedObject) else
      (match DecodeFields(c, k, c.classes[k], j.members)
       case Ok(slots) => Ok(VData(k, slots))
       case Err(e) => Err(e))
    case TFloat =>
      if j.JInt? then Ok(VFloat(j.i as real))
      else if j.JNum? then Ok(VFloat(j.r))
      else Fail(ExpectedNumber)
    case TInt => if j.JInt? then Ok(VInt(j.i)) else Fail(ExpectedInteger)
    case TBool => if j.JBool? then Ok(VBool(j.b)) else Fail(ExpectedBoolean)
    case TStr => if j.JStr? then Ok(VStr(j.s)) else Fail(ExpectedString)
  }

  function DecodeItems(c: Catalogue, t: Ty, items: seq<Json>): (r: Result<seq<Value>>)
    ensures r.Ok? ==> |r.value| == |items|
    decreases items
  {
    if |items| == 0 then Ok([])
    else
      var n := |items| - 1;
      match DecodeItems(c, t, items[..n])
      case Err(e) => Err(e)
      case Ok(vs) =>
        match Decode(c, t, items[n])
        case Ok(v) => Ok(vs + [v])
        case Err(e) => Err(Under(Idx(n), e))
  }

  function DecodeEntries(c: Catalogue, t: Ty, ms: seq<Member>): (r: Result<seq<Slot>>)
    ensures r.Ok? ==> |r.value| == |ms|
    decreases ms
  {
    if |ms| == 0 then Ok([])
    else
      var n := |ms| - 1;
      match DecodeEntries(c, t, ms[..n])
      case Err(e) => Err(e)
      case Ok(es) =>
        match Decode(c, t, ms[n].val)
        case Ok(v) => Ok(es + [Slot(ms[n].key, v)])
        case Err(e) => Err(Under(Key(ms[n].key), e))
  }

  /** The attributes of an instance of `k` for the leading fields `fs`. */
  function DecodeFields(c: Catalogue, k: Id, fs: seq<Field>, ms: seq<Member>): (r: Result<seq<Slot>>)
    ensures r.Ok? ==> |r.value| == |fs|
    decreases ms, |fs|
  {
    if |fs| == 0 then Ok([])
    else
      var n := |fs| - 1;
      match DecodeFields(c, k, fs[..n], ms)
      case Err(e) => Err(e)
      case Ok(slots) =>
        match DecodeField(c, k, fs[n], ms)
        case Ok(v) => Ok(slots + [Slot(fs[n].name, v)])
        case Err(e) => Err(e)
  }

  function DecodeField(c: Catalogue, k: Id, f: Field, ms: seq<Member>): Result<Value>
    decreases ms, 0
  {
    var i := IndexOf(ms, f.name);
    if i < |ms| then
      match Decode(c, f.ty, ms[i].val)
      case Ok(v) => Ok(v)
      case Err(e) => Err(Under(Key(f.name), e))
    else if Required(f) then Fail(MissingField(f.name, k))
    else Ok(Absent(f))
  }
}
