/** Parsed JSON, as `json.loads` returns it. */
module JsonValues {

  /** An object keeps its members in order, so that equality of two values is
      equality of the text they print as. */
  datatype Json =
    | JNull
    | JBool(b: bool)
    | JInt(i: int)
    | JNum(r: real)
    | JStr(s: string)
    | JArr(items: seq<Json>)
    | JObj(members: seq<Member>)

  datatype Member = Member(key: string, val: Json)

  /** Where `key` first occurs, or the length when it does not. */
  function IndexOf(ms: seq<Member>, key: string): (i: nat)
    ensures i <= |ms|
    ensures i < |ms| ==> ms[i].key == key
    ensures forall x :: 0 <= x < i ==> ms[x].key != key
  {
    if |ms| == 0 then 0
    else
      var n := |ms| - 1;
      var i := IndexOf(ms[..n], key);
      if i < n then i
      else if ms[n].key == key then n
      else |ms|
  }

  predicate Has(ms: seq<Member>, key: string) {
    IndexOf(ms, key) < |ms|
  }

  function Get(ms: seq<Member>, key: string): Json
    requires Has(ms, key)
  {
    ms[IndexOf(ms, key)].val
  }

  predicate DistinctKeys(ms: seq<Member>) {
    forall x, y :: 0 <= x < y < |ms| ==> ms[x].key != ms[y].key
  }

  /** Keys are distinct in every object inside `j`: what a Python dict guarantees. */
  predicate UniqueKeys(j: Json) {
    match j
    case JArr(items) => forall x :: 0 <= x < |items| ==> UniqueKeys(items[x])
    case JObj(ms) => DistinctKeys(ms) && forall x :: 0 <= x < |ms| ==> UniqueKeys(ms[x].val)
    case _ => true
  }

  /** One step from a value into a child: an array index or an object key. */
  datatype Step = Idx(i: nat) | Key(k: string)

  /** Whether following `path` from `j` ends at `target`. */
  predicate Leads(j: Json, path: seq<Step>, target: Json)
    decreases path
  {
    if path == [] then j == target
    else match path[0]
      case Idx(i) => j.JArr? && i < |j.items| && Leads(j.items[i], path[1..], target)
      case Key(k) => j.JObj? && Has(j.members, k) && Leads(Get(j.members, k), path[1..], target)
  }
}
