/** The additions made since release 1.0 follow the rules: the library extends what a 1.0
    reader knows, so the evolution laws apply to it. */
module Releases {
  import opened JsonValues
  import opened Catalogues
  import opened Serde
  import opened RoundTrip
  import opened Evolution
  import opened Shipped
  import opened ShippedIsGood
  import opened Library
  import opened LibraryIsGood

  // ---- what a 1.0 reader knows --------------------------------------------------------

  /** Before locks, blocks and tombstones. */
  const NODE_1_0: seq<Field> := MANUSCRIPT_NODE_FIELDS[..10]

  /** Before leases, payloads and priorities. */
  const JOB_1_0: seq<Field> := JOB_RECORD_FIELDS[..8]

  const JOB_STATUS_1_0: seq<string> := ["queued", "running", "succeeded", "failed", "cancelled", "poisoned", "unknown"]

  /** Before the Conductor's events. */
  const EVENT_TYPE_1_0: seq<string> := EVENT_TYPE_VALUES[..14] + ["unknown"]

  /** Types added as a whole: the enums of locks and blocks, and the Conductor's types. */
  predicate Added(x: Id) {
    x == BLOCK_KIND || x == LOCK_KIND || DIRECTIVE_KIND <= x <= EXCEPTION_STATUS || DIRECTIVE <= x <= DIGEST_ENTRY
  }

  /** The library as release 1.0 had it. */
  function Earlier(c: Catalogue): Catalogue {
    Catalogue(
      map e | e in c.enums && !Added(e) ::
        if e == JOB_STATUS then JOB_STATUS_1_0 else if e == EVENT_TYPE then EVENT_TYPE_1_0 else c.enums[e],
      map k | k in c.classes && !Added(k) ::
        if k == MANUSCRIPT_NODE then NODE_1_0 else if k == JOB_RECORD then JOB_1_0 else c.classes[k])
  }

  // ---- it is a good catalogue -----------------------------------------------------------

  lemma EarlierOffers(c: Catalogue)
    requires OffersAll(c) && OffersAllDefaults(c)
    ensures OffersAll(Earlier(c)) && OffersAllDefaults(Earlier(c))
  {
  }

  lemma NodesWereTidy(c: Catalogue)
    requires Offers(c)
    ensures AllTidy(c, NODE_1_0) && DistinctFields(NODE_1_0)
  {
    var fs := NODE_1_0;
    forall f | f in fs ensures Tidy(c, f) {
      var x :| 0 <= x < |fs| && fs[x] == f;
    }
    ManuscriptNodeNamesDiffer();
  }

  lemma JobsWereTidy(c: Catalogue)
    requires OffersAll(c)
    ensures AllTidy(c, JOB_1_0) && DistinctFields(JOB_1_0)
  {
    JobRecordIsTidy(c);
    assert forall f :: f in JOB_1_0 ==> f in JOB_RECORD_FIELDS;
  }

  lemma EarlierClassIsTidy(c: Catalogue, k: Id)
    requires Complete(c) && k in Earlier(c).classes
    ensures AllTidy(Earlier(c), Earlier(c).classes[k]) && DistinctFields(Earlier(c).classes[k])
  {
    CompleteOffersDefaults(c);
    EarlierOffers(c);
    assert HoldsOne(c, k);
    if k == MANUSCRIPT_NODE {
      NodesWereTidy(Earlier(c));
    } else if k == JOB_RECORD {
      JobsWereTidy(Earlier(c));
    } else if k < IDS {
      EveryClassIsTidy(Earlier(c), k);
    } else {
      MoreClassIsTidy(Earlier(c), k);
    }
  }

  lemma EarlierEnumHasUnknown(c: Catalogue, e: Id)
    requires WellFormed(c) && e in Earlier(c).enums
    ensures UNKNOWN in Earlier(c).enums[e]
  {
    assert EVENT_TYPE_1_0[14] == UNKNOWN && JOB_STATUS_1_0[6] == UNKNOWN;
  }

  lemma EarlierReadyAt(c: Catalogue, k: Id)
    requires Complete(c) && k in Earlier(c).classes
    ensures ReadyAt(Earlier(c), k)
  {
    EarlierClassIsTidy(c, k);
    TidyIsGood(Earlier(c), Earlier(c).classes[k]);
  }

  /** Release 1.0 was a catalogue that the codec and schema laws hold of. */
  lemma EarlierIsReady(c: Catalogue)
    requires Complete(c)
    ensures SchemaReady(Earlier(c))
  {
    CompleteIsReady(c);
    forall e | e in Earlier(c).enums ensures UNKNOWN in Earlier(c).enums[e] {
      EarlierEnumHasUnknown(c, e);
    }
    forall k | k in Earlier(c).classes ensures ReadyAt(Earlier(c), k) {
      EarlierReadyAt(c, k);
    }
    ReadyThroughout(Earlier(c));
  }

  // ---- the library extends it ---------------------------------------------------------------

  /** The fields a prefix keeps are the prefix. */
  lemma {:induction false} KeepPrefix(fs: seq<Field>, prior: seq<Field>, n: nat)
    requires forall x :: 0 <= x < |fs| ==> (HasField(prior, fs[x].name) <==> x < n)
    ensures KeepNamed(fs, prior) == if n <= |fs| then fs[..n] else fs
  {
    if |fs| > 0 {
      var m := |fs| - 1;
      KeepPrefix(fs[..m], prior, n);
      if m < n {
        assert fs[..m] + [fs[m]] == fs;
      } else {
        assert fs[..m][..n] == fs[..n];
      }
    }
  }

  lemma PrefixExtends(fs: seq<Field>, n: nat)
    requires n <= |fs| && DistinctFields(fs)
    requires forall x :: n <= x < |fs| ==> Additive(fs[x])
    ensures ClassExtends(fs[..n], fs)
  {
    var prior := fs[..n];
    forall x | 0 <= x < |fs| ensures HasField(prior, fs[x].name) <==> x < n {
      var i := FieldIndex(prior, fs[x].name);
      assert x < n ==> prior[x] == fs[x];
      assert i < n ==> prior[i] == fs[i];
    }
    KeepPrefix(fs, prior, n);
  }

  lemma AdditionsAreAdditive()
    ensures forall x :: 10 <= x < |MANUSCRIPT_NODE_FIELDS| ==> Additive(MANUSCRIPT_NODE_FIELDS[x])
    ensures forall x :: 8 <= x < |JOB_RECORD_FIELDS| ==> Additive(JOB_RECORD_FIELDS[x])
  {
  }

  lemma MembersAreAdded()
    ensures MembersExtend(JOB_STATUS_1_0, JOB_STATUS_VALUES) && MembersExtend(EVENT_TYPE_1_0, EVENT_TYPE_VALUES)
  {
    forall m | m in EVENT_TYPE_1_0 ensures m in EVENT_TYPE_VALUES {
      assert m in EVENT_TYPE_VALUES[..14] || m == EVENT_TYPE_VALUES[22];
    }
  }

  predicate HoldsClass(c: Catalogue, k: Id, fs: seq<Field>) {
    k in c.classes ==> c.classes[k] == fs
  }

  predicate HoldsEnum(c: Catalogue, e: Id, values: seq<string>) {
    e in c.enums ==> c.enums[e] == values
  }

  /** `c` holds what was added to, as it is now. */
  predicate HoldsAdditions(c: Catalogue) {
    && HoldsClass(c, MANUSCRIPT_NODE, MANUSCRIPT_NODE_FIELDS)
    && HoldsClass(c, JOB_RECORD, JOB_RECORD_FIELDS)
    && HoldsEnum(c, EVENT_TYPE, EVENT_TYPE_VALUES)
    && HoldsEnum(c, JOB_STATUS, JOB_STATUS_VALUES)
  }

  lemma ClassesHeld(c: Catalogue)
    requires Complete(c)
    ensures HoldsClass(c, MANUSCRIPT_NODE, MANUSCRIPT_NODE_FIELDS) && HoldsClass(c, JOB_RECORD, JOB_RECORD_FIELDS)
  {
    assert HoldsOne(c, MANUSCRIPT_NODE);
    HoldsMoreClass(c, JOB_RECORD);
  }

  lemma EnumsHeld(c: Catalogue)
    requires Complete(c)
    ensures HoldsEnum(c, EVENT_TYPE, EVENT_TYPE_VALUES) && HoldsEnum(c, JOB_STATUS, JOB_STATUS_VALUES)
  {
    HoldsShippedEnum(c, EVENT_TYPE);
    HoldsMoreEnum(c, JOB_STATUS);
  }

  lemma CompleteHoldsAdditions(c: Catalogue)
    requires Complete(c)
    ensures HoldsAdditions(c)
  {
    ClassesHeld(c);
    EnumsHeld(c);
  }

  lemma AdditionsExtend(c: Catalogue)
    requires WellFormed(c) && HoldsAdditions(c)
    ensures Extends(Earlier(c), c)
  {
    forall k | k in Earlier(c).classes ensures ClassExtends(Earlier(c).classes[k], c.classes[k]) {
      assert GoodClass(c, c.classes[k]);
      AdditionsAreAdditive();
      var fs := c.classes[k];
      var n := if k == MANUSCRIPT_NODE then 10 else if k == JOB_RECORD then 8 else |fs|;
      PrefixExtends(fs, n);
      assert fs[..|fs|] == fs;
    }
    MembersAreAdded();
  }

  /** Everything added since release 1.0 is additive in the sense the laws need. */
  lemma LibraryExtendsEarlier(c: Catalogue)
    requires Complete(c)
    ensures Extends(Earlier(c), c)
  {
    CompleteIsReady(c);
    CompleteHoldsAdditions(c);
    AdditionsExtend(c);
  }

  /** Whatever today's library accepts, at any class release 1.0 had, a 1.0 reader accepts
      too, and sees the same value without the additions. */
  lemma EarlierReaderKeepsUp(c: Catalogue, k: Id, j: Json)
    requires Complete(c) && k in Earlier(c).classes && Decode(c, TData(k), j).Ok?
    ensures Decode(Earlier(c), TData(k), j) == Ok(Forget(Earlier(c), Decode(c, TData(k), j).value))
  {
    EarlierIsReady(c);
    CompleteIsReady(c);
    LibraryExtendsEarlier(c);
    EvolutionSquare(Earlier(c), c, TData(k), j);
  }

  /** No 1.0 artifact changes a byte when today's library rewrites it. */
  lemma EarlierArtifactsAreStable(c: Catalogue, k: Id, v: Value)
    requires Complete(c) && k in Earlier(c).classes && HasType(Earlier(c), TData(k), v)
    ensures Norm(c, TData(k), Encode(v)) == Ok(Encode(v))
    ensures Forget(Earlier(c), Decode(c, TData(k), Encode(v)).value) == v
  {
    EarlierIsReady(c);
    CompleteIsReady(c);
    LibraryExtendsEarlier(c);
    UpgradeIsByteStable(Earlier(c), c, TData(k), v);
  }
}
