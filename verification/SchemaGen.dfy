/** `json_schema`: a memoised depth-first walk of the class graph, and the schema it
    is meant to produce. */
module SchemaGen {
  import opened Catalogues

  /** A schema document fragment. `SAny` is `{}`, which is both the schema of `Any` and
      the placeholder that breaks recursion. */
  datatype Schema =
    | SAny
    | SBoolean
    | SInteger
    | SNumber
    | SString
    | SArray(items: Schema)
    | SMap(additional: Schema)
    | SEnum(values: seq<string>)
    | SRef(name: Id)
    | SObject(properties: seq<Property>, required: seq<string>)

  datatype Property = Property(name: string, schema: Schema)

  datatype Document = Document(title: Id, root: Schema, defs: map<Id, Schema>)

  // ---- the schema of a type, without any memo -------------------------------------

  function TypeSchemaOf(t: Ty): Schema {
    match t
    case TAny => SAny
    case TOpt(u) => TypeSchemaOf(u)
    case TList(u) => SArray(TypeSchemaOf(u))
    case TDict(u) => SMap(TypeSchemaOf(u))
    case TEnum(e) => SRef(e)
    case TData(k) => SRef(k)
    case TBool => SBoolean
    case TInt => SInteger
    case TFloat => SNumber
    case TStr => SString
  }

  function PropertiesOf(fs: seq<Field>): (ps: seq<Property>)
    ensures |ps| == |fs|
  {
    if |fs| == 0 then [] else
    PropertiesOf(fs[..|fs| - 1]) + [Property(fs[|fs| - 1].name, TypeSchemaOf(fs[|fs| - 1].ty))]
  }

  function RequiredOf(fs: seq<Field>): seq<string> {
    if |fs| == 0 then []
    else
      var front, f := RequiredOf(fs[..|fs| - 1]), fs[|fs| - 1];
      if Required(f) then front + [f.name] else front
  }

  lemma {:induction false} PropertiesAt(fs: seq<Field>, x: nat)
    requires x < |fs|
    ensures PropertiesOf(fs)[x] == Property(fs[x].name, TypeSchemaOf(fs[x].ty))
  {
    if x < |fs| - 1 {
      PropertiesAt(fs[..|fs| - 1], x);
    }
  }

  lemma {:induction false} RequiredNames(fs: seq<Field>, n: string)
    ensures n in RequiredOf(fs) <==> exists x :: 0 <= x < |fs| && Required(fs[x]) && fs[x].name == n
  {
    if |fs| > 0 {
      var last := |fs| - 1;
      RequiredNames(fs[..last], n);
      if x :| 0 <= x < |fs| && Required(fs[x]) && fs[x].name == n && x < last {
        assert fs[..last][x] == fs[x];
      }
    }
  }

  /** Required names come in field order, each once. */
  lemma {:induction false} RequiredInOrder(fs: seq<Field>, x: nat, y: nat)
    requires DistinctFields(fs) && x < y < |RequiredOf(fs)|
    ensures FieldIndex(fs, RequiredOf(fs)[x]) < FieldIndex(fs, RequiredOf(fs)[y])
  {
    var last := |fs| - 1;
    var front := RequiredOf(fs[..last]);
    RequiredNames(fs[..last], front[x]);
    if y < |front| {
      RequiredNames(fs[..last], front[y]);
      RequiredInOrder(fs[..last], x, y);
    }
  }

  lemma OneMoreField(fs: seq<Field>, n: nat)
    requires n < |fs|
    ensures PropertiesOf(fs[..n + 1]) == PropertiesOf(fs[..n]) + [Property(fs[n].name, TypeSchemaOf(fs[n].ty))]
    ensures RequiredOf(fs[..n + 1]) == RequiredOf(fs[..n]) + (if Required(fs[n]) then [fs[n].name] else [])
  {
    assert fs[..n + 1][..n] == fs[..n];
  }

  function ClassSchemaOf(fs: seq<Field>): Schema {
    SObject(PropertiesOf(fs), RequiredOf(fs))
  }

  function DefinitionOf(c: Catalogue, n: Id): Schema
    requires n in Names(c)
  {
    if n in c.enums then SEnum(c.enums[n]) else ClassSchemaOf(c.classes[n])
  }

  // ---- the class graph --------------------------------------------------------------

  function Names(c: Catalogue): set<Id> {
    c.enums.Keys + c.classes.Keys
  }

  /** The enums and dataclasses a type mentions. */
  function Mentions(t: Ty): set<Id> {
    match t
    case TOpt(u) => Mentions(u)
    case TList(u) => Mentions(u)
    case TDict(u) => Mentions(u)
    case TEnum(e) => {e}
    case TData(k) => {k}
    case _ => {}
  }

  /** The names the fields of `fs` mention. */
  function FieldMentions(fs: seq<Field>): set<Id> {
    set x, n | 0 <= x < |fs| && n in Mentions(fs[x].ty) :: n
  }

  lemma MentionsCovered(fs: seq<Field>, s: set<Id>)
    requires forall x :: 0 <= x < |fs| ==> Mentions(fs[x].ty) <= s
    ensures FieldMentions(fs) <= s
  {
  }

  lemma MentionsOfField(fs: seq<Field>, x: nat)
    requires x < |fs|
    ensures Mentions(fs[x].ty) <= FieldMentions(fs)
  {
  }

  function Successors(c: Catalogue, n: Id): set<Id> {
    if n in c.classes then FieldMentions(c.classes[n]) else {}
  }

  /** `path` runs from a name in `from` along mentions to `n`. */
  ghost predicate IsPath(c: Catalogue, from: set<Id>, path: seq<Id>, n: Id) {
    && |path| > 0 && path[0] in from && path[|path| - 1] == n
    && forall x :: 0 <= x < |path| - 1 ==> path[x + 1] in Successors(c, path[x])
  }

  ghost predicate Reaches(c: Catalogue, from: set<Id>, n: Id) {
    exists path :: IsPath(c, from, path, n)
  }

  ghost predicate Closed(c: Catalogue, s: set<Id>) {
    forall n :: n in s ==> Successors(c, n) <= s
  }

  /** The names reachable from the fields of class `k`. */
  ghost function Reachable(c: Catalogue, k: Id): set<Id> {
    set n | n in Names(c) && Reaches(c, Successors(c, k), n)
  }

  /** What the generator must return, said without a traversal. */
  ghost function DocumentOf(c: Catalogue, k: Id): Document
    requires k in c.classes
  {
    Document(k, ClassSchemaOf(c.classes[k]), map n | n in Reachable(c, k) :: DefinitionOf(c, n))
  }

  /** Everything in `s` is reachable from `from`. */
  ghost predicate AllReached(c: Catalogue, from: set<Id>, s: set<Id>) {
    forall n :: n in s ==> Reaches(c, from, n)
  }

  lemma AllReachedMore(c: Catalogue, from: set<Id>, more: set<Id>, s: set<Id>)
    requires from <= more && AllReached(c, from, s)
    ensures AllReached(c, more, s)
  {
    forall n | n in s ensures Reaches(c, more, n) {
      var path :| IsPath(c, from, path, n);
      assert IsPath(c, more, path, n);
    }
  }

  lemma AllReachedUnion(c: Catalogue, from: set<Id>, a: set<Id>, b: set<Id>, s: set<Id>)
    requires AllReached(c, from, a) && AllReached(c, from, b) && s <= a + b
    ensures AllReached(c, from, s)
  {
  }

  lemma AllReachedThrough(c: Catalogue, k: Id, s: set<Id>)
    requires AllReached(c, Successors(c, k), s)
    ensures AllReached(c, {k}, s + {k})
  {
    forall n | n in s + {k} ensures Reaches(c, {k}, n) {
      if n == k { ReachesDirect(c, {k}, k); } else { ReachesThrough(c, {k}, k, n); }
    }
  }

  lemma ReachesDirect(c: Catalogue, from: set<Id>, n: Id)
    requires n in from
    ensures Reaches(c, from, n)
  {
    assert IsPath(c, from, [n], n);
  }

  lemma ReachesThrough(c: Catalogue, from: set<Id>, m: Id, n: Id)
    requires m in from && Reaches(c, Successors(c, m), n)
    ensures Reaches(c, from, n)
  {
    var path :| IsPath(c, Successors(c, m), path, n);
    assert IsPath(c, from, [m] + path, n);
  }

  lemma {:induction false} ReachStaysInside(c: Catalogue, from: set<Id>, s: set<Id>, path: seq<Id>, n: Id)
    requires Closed(c, s) && from <= s && IsPath(c, from, path, n)
    ensures n in s
    decreases |path|
  {
    if |path| > 1 {
      var front := path[..|path| - 1];
      assert IsPath(c, from, front, front[|front| - 1]);
      ReachStaysInside(c, from, s, front, front[|front| - 1]);
      assert path[|path| - 1] in Successors(c, path[|path| - 2]);
    }
  }

  /** A set closed under mentions, holding the starting names and only reachable ones,
      is the reachable set. */
  lemma ClosureIsReachable(c: Catalogue, k: Id, s: set<Id>)
    requires Closed(c, s) && Successors(c, k) <= s <= Names(c)
    requires AllReached(c, Successors(c, k), s)
    ensures s == Reachable(c, k)
  {
    forall n | n in Reachable(c, k) ensures n in s {
      var path :| IsPath(c, Successors(c, k), path, n);
      ReachStaysInside(c, Successors(c, k), s, path, n);
    }
  }

  /** Names in a well-formed catalogue are defined, and mention only defined names. */
  ghost predicate Linked(c: Catalogue) {
    && c.enums.Keys !! c.classes.Keys
    && forall k :: k in c.classes ==>
      forall x :: 0 <= x < |c.classes[k]| ==> Resolved(c, c.classes[k][x].ty)
  }

  lemma FieldIsLinked(c: Catalogue, k: Id, n: nat)
    requires Linked(c) && k in c.classes && n < |c.classes[k]|
    ensures Resolved(c, c.classes[k][n].ty) && Mentions(c.classes[k][n].ty) <= Successors(c, k)
  {
    MentionsOfField(c.classes[k], n);
  }

  lemma {:induction false} ResolvedMentions(c: Catalogue, t: Ty)
    requires Resolved(c, t)
    ensures Mentions(t) <= Names(c)
  {
    match t {
      case TOpt(u) => ResolvedMentions(c, u);
      case TList(u) => ResolvedMentions(c, u);
      case TDict(u) => ResolvedMentions(c, u);
      case _ =>
    }
  }

  // ---- the traversal ------------------------------------------------------------------

  /** The closure of `json_schema`: `defs` is shared by the two nested functions. */
  class Generator {
    const c: Catalogue
    var defs: map<Id, Schema>
    /** Classes whose entry is still the placeholder. */
    ghost var open: set<Id>

    constructor (c: Catalogue)
      ensures this.c == c && defs == map[] && open == {}
    {
      this.c := c;
      defs := map[];
      open := {};
    }

    /** Every finished entry is the definition of its name, and everything it mentions
        has an entry too. */
    ghost predicate Valid()
      reads this
    {
      && Linked(c)
      && defs.Keys <= Names(c)
      && open <= defs.Keys
      && forall n :: n in defs.Keys - open ==>
        defs[n] == DefinitionOf(c, n) && Successors(c, n) <= defs.Keys
    }

    /** With nothing open, `defs` is finished and complete. */
    lemma Finished()
      requires Valid() && open == {}
      ensures Closed(c, defs.Keys) && defs.Keys <= Names(c)
      ensures defs == map n | n in defs.Keys :: DefinitionOf(c, n)
    {
    }

    method TypeSchema(t: Ty) returns (s: Schema)
      requires Valid() && Resolved(c, t)
      modifies this
      ensures Valid() && open == old(open) && old(defs).Keys <= defs.Keys
      ensures s == TypeSchemaOf(t) && Mentions(t) <= defs.Keys
      ensures AllReached(c, Mentions(t), defs.Keys - old(defs).Keys)
      decreases Names(c) - defs.Keys, 0, t
    {
      match t {
        case TAny => s := SAny;
        case TOpt(u) => s := TypeSchema(u);
        case TList(u) =>
          var items := TypeSchema(u);
          s := SArray(items);
        case TDict(u) =>
          var additional := TypeSchema(u);
          s := SMap(additional);
        case TEnum(e) =>
          if e !in defs {
            defs := defs[e := SEnum(c.enums[e])];
            ReachesDirect(c, {e}, e);
          }
          s := SRef(e);
        case TData(k) =>
          if k !in defs {
            ghost var before := defs.Keys;
            defs := defs[k := SAny];
            open := open + {k};
            assert k in Names(c) - before && Names(c) - defs.Keys == Names(c) - before - {k};
            var body := ClassSchema(k);
            AllReachedThrough(c, k, defs.Keys - before - {k});
            assert defs.Keys - before - {k} + {k} == defs.Keys - before;
            defs := defs[k := body];
            open := open - {k};
          }
          s := SRef(k);
        case TBool => s := SBoolean;
        case TInt => s := SInteger;
        case TFloat => s := SNumber;
        case TStr => s := SString;
      }
    }

    method ClassSchema(k: Id) returns (s: Schema)
      requires Valid() && k in c.classes
      modifies this
      ensures Valid() && open == old(open) && old(defs).Keys <= defs.Keys
      ensures s == ClassSchemaOf(c.classes[k]) && Successors(c, k) <= defs.Keys
      ensures AllReached(c, Successors(c, k), defs.Keys - old(defs).Keys)
      decreases Names(c) - defs.Keys, 1
    {
      var fs := c.classes[k];
      var properties: seq<Property> := [];
      var required: seq<string> := [];
      for n := 0 to |fs|
        invariant Valid() && open == old(open) && old(defs).Keys <= defs.Keys
        invariant properties == PropertiesOf(fs[..n]) && required == RequiredOf(fs[..n])
        invariant forall x :: 0 <= x < n ==> Mentions(fs[x].ty) <= defs.Keys
        invariant AllReached(c, Successors(c, k), defs.Keys - old(defs).Keys)
      {
        OneMoreField(fs, n);
        ghost var before := defs.Keys;
        assert Names(c) - before <= Names(c) - old(defs).Keys;
        FieldIsLinked(c, k, n);
        var schema := TypeSchema(fs[n].ty);
        AllReachedMore(c, Mentions(fs[n].ty), Successors(c, k), defs.Keys - before);
        AllReachedUnion(c, Successors(c, k), before - old(defs).Keys, defs.Keys - before, defs.Keys - old(defs).Keys);
        properties := properties + [Property(fs[n].name, schema)];
        if Required(fs[n]) {
          required := required + [fs[n].name];
        }
      }
      assert fs[..|fs|] == fs;
      MentionsCovered(fs, defs.Keys);
      s := SObject(properties, required);
    }
  }

  /** `json_schema(cls)`. The root goes through `dataclass_schema` directly, so it has a
      definition only if the walk comes back to it. */
  method JsonSchema(c: Catalogue, k: Id) returns (doc: Document)
    requires Linked(c) && k in c.classes
    ensures doc == DocumentOf(c, k) && doc.title == k
  {
    var g := new Generator(c);
    var root := g.ClassSchema(k);
    g.Finished();
    ClosureIsReachable(c, k, g.defs.Keys);
    doc := Document(k, root, g.defs);
  }
}
