/** `parse_artifact`: the major-version gate in front of the decoder. */
module VersionGate {
  import opened JsonValues
  import opened Catalogues
  import opened Serde
  import opened RoundTrip
  import opened Texts
  import opened Options

  const SCHEMA_VERSION := "1.2.0"
  const META := "meta"
  const VERSION := "schema_version"

  /** Unparseable covers a payload that declares no version and one whose version has no
      integer before the first dot. */
  datatype Parse = Parsed(value: Value) | Unparseable | Incompatible(version: string) | Rejected(error: DecodeError)

  // ---- versions -----------------------------------------------------------------

  /** `int(s)` on plain decimal text with an optional sign. */
  function Int(s: string): Option<int> {
    if s == "" then None
    else
      var digits := if s[0] in {'+', '-'} then s[1..] else s;
      if digits == "" || !AllDigits(digits) then None
      else
        var n: int := Number(digits);
        Some(if s[0] == '-' then -n else n)
  }

  function Major(version: string): Option<int> {
    Int(Before(version, '.'))
  }

  const LIBRARY_MAJOR: int := 1

  lemma LibraryMajor()
    ensures Major(SCHEMA_VERSION) == Some(LIBRARY_MAJOR)
  {
    assert SCHEMA_VERSION == "1" + ['.'] + "2.0";
    BeforeOfHead("1", '.', "2.0");
    assert "1"[..0] == "";
  }

  /** `str(j)`. A container's text is cut after its opening bracket, where no integer can
      start; the text of a float is the interpreter's. */
  function Text(j: Json, floatText: real -> string): string {
    match j
    case JNull => "None"
    case JBool(b) => if b then "True" else "False"
    case JInt(i) => if i < 0 then "-" + Decimal(-i) else Decimal(i)
    case JNum(r) => floatText(r)
    case JStr(s) => s
    case JArr(_) => "["
    case JObj(_) => "{"
  }

  predicate DeclaresVersion(j: Json) {
    j.JObj? && Has(j.members, VERSION)
  }

  predicate MetaDeclares(data: Json) {
    data.JObj? && Has(data.members, META) && DeclaresVersion(Get(data.members, META))
  }

  /** `declared_schema_version`: the envelope's version, else the top level's. */
  function DeclaredVersion(data: Json, floatText: real -> string): Option<string> {
    if MetaDeclares(data) then Some(Text(Get(Get(data.members, META).members, VERSION), floatText))
    else if DeclaresVersion(data) then Some(Text(Get(data.members, VERSION), floatText))
    else None
  }

  predicate Passes(data: Json, floatText: real -> string) {
    var v := DeclaredVersion(data, floatText);
    v.Some? && Major(v.value) == Some(LIBRARY_MAJOR)
  }

  function ParseArtifact(c: Catalogue, t: Ty, data: Json, floatText: real -> string): Parse {
    match DeclaredVersion(data, floatText)
    case None => Unparseable
    case Some(version) =>
      match Major(version)
      case None => Unparseable
      case Some(major) =>
        if Some(major) != Major(SCHEMA_VERSION) then Incompatible(version)
        else
          match Decode(c, t, data)
          case Ok(v) => Parsed(v)
          case Err(e) => Rejected(e)
  }

  lemma {:induction false} NumberIsOne(s: string)
    requires AllDigits(s) && s != ""
    ensures Number(s) == 1 <==> s == Zeros(|s| - 1) + "1"
  {
    var front := s[..|s| - 1];
    if front == "" {
      assert s == [s[0]] && Zeros(0) + "1" == "1";
      assert Number(front) == 0;
    } else {
      NumberIsZero(front);
      assert s == front + [s[|s| - 1]];
      assert (Zeros(|s| - 1) + "1")[..|s| - 1] == Zeros(|s| - 1);
    }
  }

  lemma {:induction false} NumberIsZero(s: string)
    requires AllDigits(s)
    ensures Number(s) == 0 <==> s == Zeros(|s|)
  {
    if s != "" {
      var n := |s| - 1;
      NumberIsZero(s[..n]);
      ZerosAreZero(|s|);
      assert s == s[..n] + [s[n]];
      assert Zeros(|s|)[..n] == Zeros(n);
    }
  }

  predicate SpellsOne(s: string, n: nat) {
    s == Zeros(n) + "1" || s == "+" + (Zeros(n) + "1")
  }

  /** A one, give or take a plus sign and leading zeros. */
  ghost predicate IsOne(s: string) {
    exists n: nat :: SpellsOne(s, n)
  }

  lemma IntIsOneIff(s: string)
    ensures Int(s) == Some(1) <==> IsOne(s)
  {
    if Int(s) == Some(1) {
      var digits := if s[0] in {'+', '-'} then s[1..] else s;
      NumberIsOne(digits);
      assert s == digits || s == [s[0]] + digits;
      assert SpellsOne(s, |digits| - 1);
    }
    if n: nat :| SpellsOne(s, n) {
      OneSpeltOut(s, n);
    }
  }

  lemma OneSpeltOut(s: string, n: nat)
    requires SpellsOne(s, n)
    ensures Int(s) == Some(1)
  {
    var digits := Zeros(n) + "1";
    assert |digits| == n + 1 && AllDigits(digits);
    NumberIsOne(digits);
    DigitsSpellTheirNumber(digits);
  }

  lemma DigitsSpellTheirNumber(digits: string)
    requires AllDigits(digits) && digits != ""
    ensures Int(digits) == Some(Number(digits)) && Int("+" + digits) == Some(Number(digits))
  {
    var signed := "+" + digits;
    assert signed[0] == '+' && signed[1..] == digits;
    assert IsDigit(digits[0]);
  }

  /** The gate lets a payload through exactly when the text before the first dot of its
      version spells one. */
  lemma PassesIff(data: Json, floatText: real -> string)
    ensures Passes(data, floatText) <==>
      var version := DeclaredVersion(data, floatText);
      version.Some? && IsOne(Before(version.value, '.'))
  {
    if DeclaredVersion(data, floatText).Some? {
      IntIsOneIff(Before(DeclaredVersion(data, floatText).value, '.'));
    }
  }

  /** Minor and patch drift is invisible to the gate. */
  lemma OnlyTheMajorMatters(a: Json, b: Json, floatText: real -> string)
    requires DeclaredVersion(a, floatText).Some? && DeclaredVersion(b, floatText).Some?
    requires Before(DeclaredVersion(a, floatText).value, '.') == Before(DeclaredVersion(b, floatText).value, '.')
    ensures Passes(a, floatText) == Passes(b, floatText)
  {
  }

  /** The gate reads back the major a release wrote: `n.rest` passes exactly when `n` is the
      library's major. */
  lemma ReleasePassesIff(data: Json, floatText: real -> string, n: nat, rest: string)
    requires DeclaredVersion(data, floatText) == Some(Decimal(n) + ['.'] + rest)
    ensures Major(Decimal(n) + ['.'] + rest) == Some(n)
    ensures Passes(data, floatText) <==> n == LIBRARY_MAJOR
  {
    BeforeOfHead(Decimal(n), '.', rest);
    DigitsSpellTheirNumber(Decimal(n));
    NumberOfDecimal(n);
  }

  lemma ParsedIff(c: Catalogue, t: Ty, data: Json, floatText: real -> string, v: Value)
    ensures ParseArtifact(c, t, data, floatText) == Parsed(v) <==>
            Passes(data, floatText) && Decode(c, t, data) == Ok(v)
  {
    LibraryMajor();
  }

  // ---- what the gate answers -----------------------------------------------------------

  /** The text a `meta` object declares. */
  function MetaVersion(data: Json, floatText: real -> string): string
    requires MetaDeclares(data)
  {
    Text(Get(Get(data.members, META).members, VERSION), floatText)
  }

  /** A payload is unparseable exactly when it declares no version, or one whose text before
      the first dot is no integer. */
  lemma UnparseableIff(c: Catalogue, t: Ty, data: Json, floatText: real -> string)
    ensures ParseArtifact(c, t, data, floatText).Unparseable? <==>
      if MetaDeclares(data) then Int(Before(MetaVersion(data, floatText), '.')).None?
      else !DeclaresVersion(data) || Int(Before(Text(Get(data.members, VERSION), floatText), '.')).None?
  {
  }

  /** It is incompatible exactly when it declares a version with another major, whether or not
      the rest of it decodes, and the answer carries that version. */
  lemma IncompatibleIff(c: Catalogue, t: Ty, data: Json, floatText: real -> string, version: string)
    ensures ParseArtifact(c, t, data, floatText) == Incompatible(version) <==>
      && DeclaredVersion(data, floatText) == Some(version)
      && Int(Before(version, '.')).Some? && !IsOne(Before(version, '.'))
  {
    LibraryMajor();
    IntIsOneIff(Before(version, '.'));
  }

  /** And it is rejected with an error exactly when it passes and the decoder fails with it. */
  lemma RejectedIff(c: Catalogue, t: Ty, data: Json, floatText: real -> string, e: DecodeError)
    ensures ParseArtifact(c, t, data, floatText) == Rejected(e) <==>
      Passes(data, floatText) && Decode(c, t, data) == Err(e)
  {
    LibraryMajor();
  }

  /** A release of another major is incompatible, whatever the rest of the payload holds. */
  lemma ForeignReleaseIsIncompatible(c: Catalogue, t: Ty, data: Json, floatText: real -> string, n: nat, rest: string)
    requires DeclaredVersion(data, floatText) == Some(Decimal(n) + ['.'] + rest) && n != LIBRARY_MAJOR
    ensures ParseArtifact(c, t, data, floatText) == Incompatible(Decimal(n) + ['.'] + rest)
  {
    ReleasePassesIff(data, floatText, n, rest);
    LibraryMajor();
  }

  /** The major that a JSON value declares: a string's own, and an integer itself. Neither a
      null, a boolean nor a container declares one. */
  lemma MajorOfText(j: Json, floatText: real -> string)
    requires !j.JNum?
    ensures Major(Text(j, floatText)) ==
      if j.JStr? then Int(Before(j.s, '.')) else if j.JInt? then Some(j.i) else None
  {
    if j.JInt? {
      MajorOfInteger(j.i);
    } else if !j.JStr? {
      MajorOfWord(Text(j, floatText));
    }
  }

  lemma MajorOfWord(s: string)
    requires s in {"None", "True", "False", "[", "{"}
    ensures Major(s) == None
  {
    BeforeOfHead(s, '.', "");
    assert s[0] !in {'+', '-'} && !IsDigit(s[0]);
  }

  lemma MajorOfInteger(i: int)
    ensures Major(if i < 0 then "-" + Decimal(-i) else Decimal(i)) == Some(i)
  {
    var digits := Decimal(if i < 0 then -i else i);
    NumberOfDecimal(if i < 0 then -i else i);
    DigitsSpellTheirNumber(digits);
    BeforeOfHead(digits, '.', "");
    if i < 0 {
      var s := "-" + digits;
      assert s[0] == '-' && s[1..] == digits;
      BeforeOfHead(s, '.', "");
    }
  }

  // ---- artifacts --------------------------------------------------------------------

  predicate Demands(c: Catalogue, k: Id, name: string, t: Ty) {
    && k in c.classes
    && HasField(c.classes[k], name)
    && c.classes[k][FieldIndex(c.classes[k], name)].ty == t
    && Required(c.classes[k][FieldIndex(c.classes[k], name)])
  }

  /** A class of artifacts that carry an `m`, the envelope with the version. */
  predicate CarriesMeta(c: Catalogue, k: Id, m: Id) {
    Demands(c, k, META, TData(m)) && Demands(c, m, VERSION, TStr)
  }

  function VersionOf(v: Value): Value {
    Attr(Attr(v, META), VERSION)
  }

  /** A required field of a decoded instance holds what its key decodes to. */
  lemma RequiredAttr(c: Catalogue, k: Id, name: string, t: Ty, j: Json)
    requires Demands(c, k, name, t) && Decode(c, TData(k), j).Ok?
    ensures Has(j.members, name)
    ensures Decode(c, t, Get(j.members, name)) == Ok(Attr(Decode(c, TData(k), j).value, name))
  {
    var fs, x := c.classes[k], FieldIndex(c.classes[k], name);
    var slots := DecodeFields(c, k, fs, j.members).value;
    forall y | 0 <= y <= x ensures slots[y].name == fs[y].name {
      DecodeFieldsAt(c, k, fs, j.members, y);
    }
    DecodeFieldsAt(c, k, fs, j.members, x);
    assert SlotIndex(slots, name) == x;
  }

  /** A decoded envelope carries the version its payload declares. */
  lemma EnvelopeDeclares(c: Catalogue, k: Id, m: Id, data: Json, floatText: real -> string)
    requires CarriesMeta(c, k, m) && Decode(c, TData(k), data).Ok?
    ensures var version := VersionOf(Decode(c, TData(k), data).value);
      version.VStr? && DeclaredVersion(data, floatText) == Some(version.s)
  {
    RequiredAttr(c, k, META, TData(m), data);
    RequiredAttr(c, m, VERSION, TStr, Get(data.members, META));
  }

  /** What the gate checked is what the reader gets: the decoded envelope's version is the
      declared one and has the library's major, whatever the top level also says. */
  lemma GateBindsEnvelope(c: Catalogue, k: Id, m: Id, data: Json, floatText: real -> string)
    requires CarriesMeta(c, k, m) && ParseArtifact(c, TData(k), data, floatText).Parsed?
    ensures var version := VersionOf(ParseArtifact(c, TData(k), data, floatText).value);
      && version.VStr?
      && DeclaredVersion(data, floatText) == Some(version.s)
      && Major(version.s) == Some(LIBRARY_MAJOR)
  {
    ParsedIff(c, TData(k), data, floatText, ParseArtifact(c, TData(k), data, floatText).value);
    EnvelopeDeclares(c, k, m, data, floatText);
  }

  /** An artifact survives the gate and the wire exactly when its own envelope carries the
      library's major. */
  lemma ArtifactRoundTripsIff(c: Catalogue, k: Id, m: Id, v: Value, floatText: real -> string)
    requires WellFormed(c) && CarriesMeta(c, k, m) && HasType(c, TData(k), v)
    ensures VersionOf(v).VStr?
    ensures ParseArtifact(c, TData(k), Encode(v), floatText) == Parsed(v) <==>
            Major(VersionOf(v).s) == Some(LIBRARY_MAJOR)
  {
    RoundTrips(c, TData(k), v);
    EnvelopeDeclares(c, k, m, Encode(v), floatText);
    ParsedIff(c, TData(k), Encode(v), floatText, v);
  }

  // ---- the event envelope -------------------------------------------------------------

  /** A class that carries its version at the top level, with no `meta` field. */
  predicate CarriesVersion(c: Catalogue, k: Id) {
    Demands(c, k, VERSION, TStr) && !HasField(c.classes[k], META)
  }

  /** The guarantee for such a class needs the payload's `meta`, which the class ignores,
      to declare no version. */
  lemma GateBindsTopLevel(c: Catalogue, k: Id, data: Json, floatText: real -> string)
    requires CarriesVersion(c, k) && ParseArtifact(c, TData(k), data, floatText).Parsed?
    requires !MetaDeclares(data)
    ensures var version := Attr(ParseArtifact(c, TData(k), data, floatText).value, VERSION);
      version.VStr? && DeclaredVersion(data, floatText) == Some(version.s) && Major(version.s) == Some(LIBRARY_MAJOR)
  {
    var v := ParseArtifact(c, TData(k), data, floatText).value;
    ParsedIff(c, TData(k), data, floatText, v);
    RequiredAttr(c, k, VERSION, TStr, data);
  }

  /** Exactly: for such a class the checked version is the decoded one unless a stray `meta`
      declares another text. */
  lemma GateReadsTopLevelIff(c: Catalogue, k: Id, data: Json, floatText: real -> string)
    requires CarriesVersion(c, k) && Decode(c, TData(k), data).Ok?
    ensures var version := Attr(Decode(c, TData(k), data).value, VERSION);
      && version.VStr?
      && (DeclaredVersion(data, floatText) == Some(version.s) <==>
          (MetaDeclares(data) ==> MetaVersion(data, floatText) == version.s))
  {
    RequiredAttr(c, k, VERSION, TStr, data);
  }

  /** And what passes the gate carries the library's major exactly when no stray `meta`
      stands in for a top level of another. */
  lemma GateBindsMajorIff(c: Catalogue, k: Id, data: Json, floatText: real -> string)
    requires CarriesVersion(c, k) && Decode(c, TData(k), data).Ok?
    ensures var version := Attr(Decode(c, TData(k), data).value, VERSION);
      && version.VStr?
      && ((Passes(data, floatText) ==> Major(version.s) == Some(LIBRARY_MAJOR)) <==>
          (MetaDeclares(data) && Major(MetaVersion(data, floatText)) == Some(LIBRARY_MAJOR) ==>
            Major(version.s) == Some(LIBRARY_MAJOR)))
  {
    RequiredAttr(c, k, VERSION, TStr, data);
  }

  /** Without that hypothesis it fails for every class of the kind: an ignored `meta`
      object opens the gate for any decodable payload, of any version. */
  lemma ForeignMetaOpensTheGate(c: Catalogue, k: Id, ms: seq<Member>, floatText: real -> string)
    requires CarriesVersion(c, k) && Decode(c, TData(k), JObj(ms)).Ok?
    ensures var meta := Member(META, JObj([Member(VERSION, JStr(SCHEMA_VERSION))]));
      ParseArtifact(c, TData(k), JObj([meta] + ms), floatText) == Parsed(Decode(c, TData(k), JObj(ms)).value)
  {
    var meta := Member(META, JObj([Member(VERSION, JStr(SCHEMA_VERSION))]));
    DeclaredByMeta(meta, ms, floatText);
    MemberIgnored(c, k, meta, ms);
    ParsedIff(c, TData(k), JObj([meta] + ms), floatText, Decode(c, TData(k), JObj(ms)).value);
  }

  lemma DeclaredByMeta(meta: Member, ms: seq<Member>, floatText: real -> string)
    requires meta == Member(META, JObj([Member(VERSION, JStr(SCHEMA_VERSION))]))
    ensures Passes(JObj([meta] + ms), floatText)
  {
    var inner := [Member(VERSION, JStr(SCHEMA_VERSION))];
    assert IndexOf([meta] + ms, META) == 0 by { assert ([meta] + ms)[0].key == META; }
    assert IndexOf(inner, VERSION) == 0 by { assert inner[0].key == VERSION; }
    LibraryMajor();
  }

  /** A leading member the class does not name changes nothing. */
  lemma MemberIgnored(c: Catalogue, k: Id, m: Member, ms: seq<Member>)
    requires k in c.classes && !HasField(c.classes[k], m.key)
    ensures Decode(c, TData(k), JObj([m] + ms)) == Decode(c, TData(k), JObj(ms))
  {
    var fs := c.classes[k];
    forall x | 0 <= x < |fs| ensures DecodeField(c, k, fs[x], [m] + ms) == DecodeField(c, k, fs[x], ms) {
      assert HasField(fs, fs[x].name);
      PrependOther(m, ms, fs[x].name);
    }
    SameFieldsDecode(c, k, fs, [m] + ms, ms);
  }

  lemma PrependOther(m: Member, ms: seq<Member>, name: string)
    requires m.key != name
    ensures Has([m] + ms, name) <==> Has(ms, name)
    ensures Has(ms, name) ==> Get([m] + ms, name) == Get(ms, name)
  {
    var all := [m] + ms;
    var i, j := IndexOf(all, name), IndexOf(ms, name);
    assert forall x :: 0 < x < |all| ==> all[x] == ms[x - 1];
    assert i > 0;
    assert j < |ms| ==> all[j + 1].key == name;
    assert i < |all| ==> ms[i - 1].key == name;
  }

  lemma {:induction false} SameFieldsDecode(c: Catalogue, k: Id, fs: seq<Field>, a: seq<Member>, b: seq<Member>)
    requires forall x :: 0 <= x < |fs| ==> DecodeField(c, k, fs[x], a) == DecodeField(c, k, fs[x], b)
    ensures DecodeFields(c, k, fs, a) == DecodeFields(c, k, fs, b)
  {
    if |fs| > 0 {
      SameFieldsDecode(c, k, fs[..|fs| - 1], a, b);
    }
  }
}
