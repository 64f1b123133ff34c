/** The event envelope carries its version at the top level, where the gate looks last. */
module EventGate {
  import opened JsonValues
  import opened Catalogues
  import opened Serde
  import opened RoundTrip
  import opened Texts
  import opened Options
  import opened Shipped
  import opened FixtureAttributes
  import opened FixtureLaws
  import opened VersionGate

  lemma EventCarriesVersion(c: Catalogue)
    requires Ships(c)
    ensures CarriesVersion(c, EVENT_ENVELOPE)
  {
    assert ShipsOne(c, EVENT_ENVELOPE);
    assert EVENT_ENVELOPE_FIELDS[0].name == "schema_version";
  }

  /** An event of any version parses when a stray `meta` object declares the library's. */
  lemma StrayMetaAdmitsAnyEvent(c: Catalogue, ms: seq<Member>, floatText: real -> string)
    requires Ships(c) && Decode(c, TData(EVENT_ENVELOPE), JObj(ms)).Ok?
    ensures ParseArtifact(c, TData(EVENT_ENVELOPE), JObj([STRAY_META] + ms), floatText)
         == Parsed(Decode(c, TData(EVENT_ENVELOPE), JObj(ms)).value)
  {
    EventCarriesVersion(c);
    ForeignMetaOpensTheGate(c, EVENT_ENVELOPE, ms, floatText);
  }

  const STRAY_META: Member := Member("meta", JObj([Member("schema_version", JStr(SCHEMA_VERSION))]))

  const FOREIGN_MEMBERS: seq<Member> := [
    Member("schema_version", JStr("2.0.0")), Member("event_id", JStr("e1")),
    Member("event_type", JStr("JobFailed")), Member("created_at", JStr("2026-08-12T00:00:00Z")),
    Member("actor", JStr("system")), Member("project_id", JStr("p1")), Member("idempotency_key", JStr("k1"))]

  /** The value those members decode to. */
  const FOREIGN_EVENT: Value := VData(EVENT_ENVELOPE, [
    Slot("schema_version", VStr("2.0.0")), Slot("event_id", VStr("e1")),
    Slot("event_type", VEnum(EVENT_TYPE, "JobFailed")), Slot("created_at", VStr("2026-08-12T00:00:00Z")),
    Slot("actor", VStr("system")), Slot("project_id", VStr("p1")), Slot("idempotency_key", VStr("k1")),
    Slot("book_id", VNone), Slot("branch_id", VNone), Slot("revision_id", VNone), Slot("causation_id", VNone),
    Slot("correlation_id", VNone), Slot("expected_version", VNone), Slot("payload", VDict([])),
    Slot("payload_digest", VNone)])

  predicate ForeignAt(c: Catalogue, f: Field, s: Slot) {
    s.name == f.name && DecodeField(c, EVENT_ENVELOPE, f, FOREIGN_MEMBERS) == Ok(s.val)
  }

  lemma ForeignFieldDecodes(c: Catalogue, x: nat)
    requires EVENT_TYPE in c.enums && "JobFailed" in c.enums[EVENT_TYPE] && x < |EVENT_ENVELOPE_FIELDS|
    ensures ForeignAt(c, EVENT_ENVELOPE_FIELDS[x], FOREIGN_EVENT.slots[x])
  {
    var fs, ms := EVENT_ENVELOPE_FIELDS, FOREIGN_MEMBERS;
    if x < 7 {
      assert ms[x].key == fs[x].name;
    } else {
      assert !Has(ms, fs[x].name);
    }
  }

  lemma FieldsDecode(c: Catalogue, fs: seq<Field>, slots: seq<Slot>)
    requires |fs| == |slots| && forall x :: 0 <= x < |fs| ==> ForeignAt(c, fs[x], slots[x])
    ensures DecodeFields(c, EVENT_ENVELOPE, fs, FOREIGN_MEMBERS) == Ok(slots)
  {
    DecodeFieldsIs(c, EVENT_ENVELOPE, fs, FOREIGN_MEMBERS, slots);
  }

  lemma ForeignFieldsDecode(c: Catalogue)
    requires EVENT_TYPE in c.enums && "JobFailed" in c.enums[EVENT_TYPE]
    ensures DecodeFields(c, EVENT_ENVELOPE, EVENT_ENVELOPE_FIELDS, FOREIGN_MEMBERS) == Ok(FOREIGN_EVENT.slots)
  {
    forall x | 0 <= x < |EVENT_ENVELOPE_FIELDS|
      ensures ForeignAt(c, EVENT_ENVELOPE_FIELDS[x], FOREIGN_EVENT.slots[x])
    {
      ForeignFieldDecodes(c, x);
    }
    FieldsDecode(c, EVENT_ENVELOPE_FIELDS, FOREIGN_EVENT.slots);
  }

  lemma JobFailedIsAnEvent()
    ensures "JobFailed" in EVENT_TYPE_VALUES
  {
    assert EVENT_TYPE_VALUES[13] == "JobFailed";
  }

  lemma TwoIsForeign()
    ensures Major("2.0.0") == Some(2)
  {
    assert "2.0.0" == "2" + ['.'] + "0.0";
    BeforeOfHead("2", '.', "0.0");
    assert "2"[..0] == "";
  }

  lemma EventsAreShipped(c: Catalogue)
    requires Ships(c)
    ensures EVENT_ENVELOPE in c.classes && c.classes[EVENT_ENVELOPE] == EVENT_ENVELOPE_FIELDS
    ensures EVENT_TYPE in c.enums && c.enums[EVENT_TYPE] == EVENT_TYPE_VALUES
  {
    assert ShipsOne(c, EVENT_ENVELOPE) && ShipsOne(c, EVENT_TYPE);
  }

  lemma ForeignEventDecodes(c: Catalogue)
    requires EVENT_ENVELOPE in c.classes && c.classes[EVENT_ENVELOPE] == EVENT_ENVELOPE_FIELDS
    requires EVENT_TYPE in c.enums && c.enums[EVENT_TYPE] == EVENT_TYPE_VALUES
    ensures Decode(c, TData(EVENT_ENVELOPE), JObj(FOREIGN_MEMBERS)) == Ok(FOREIGN_EVENT)
  {
    JobFailedIsAnEvent();
    ForeignFieldsDecode(c);
  }

  /** An event that carries version 2.0.0, which the library does not speak, and parses. */
  lemma ForeignEventParses(c: Catalogue, floatText: real -> string)
    requires Ships(c)
    ensures ParseArtifact(c, TData(EVENT_ENVELOPE), JObj([STRAY_META] + FOREIGN_MEMBERS), floatText)
         == Parsed(FOREIGN_EVENT)
    ensures Attr(FOREIGN_EVENT, "schema_version") == VStr("2.0.0")
    ensures Major("2.0.0") != Some(LIBRARY_MAJOR)
  {
    EventsAreShipped(c);
    ForeignEventDecodes(c);
    StrayMetaAdmitsAnyEvent(c, FOREIGN_MEMBERS, floatText);
    AttrAt(EVENT_ENVELOPE, FOREIGN_EVENT.slots, 0);
    TwoIsForeign();
  }
}
