# Litharness contracts: a verified model

`litharness-contracts` is the typed boundary between a set of writing tools. Its dataclasses
are the source of truth: one codec (`_serde.py`) reads and writes every artifact, one
generator (`_schema.py`) emits JSON Schema for them, and one builder (`fixture_build.py`) turns
annotated prose into six golden artifacts that must agree with each other. This project models
those three and proves what they promise together.

The codec is modelled over an arbitrary finite catalogue of mutually recursive dataclasses and
enums. Type hints, field defaults and field order are data (`Catalogues`), JSON objects are
ordered member lists, so "byte-identical" is equality of JSON values, and a value of the model
is the Python value, with an instance's attributes in field order. All 60 shipped dataclasses
and 36 shipped enums are written out (`Shipped`, `Library`) and proved to meet the conditions
that the general laws ask of a catalogue.

How the files build on each other:

| file | content |
|---|---|
| `JsonValues`, `Catalogues`, `Options`, `Texts` | JSON, types, values, and the string operations used |
| `Serde`, `SerdeLoops` | the codec as functions, and its loops as methods proved equal to them |
| `RoundTrip`, `Settling` | type soundness, round trip, what unnamed members can do, what rewriting does to a payload |
| `Evolution`, `Releases` | old and new readers of the same bytes; the additions since 1.0 |
| `Failures` | which position a decoding error comes from |
| `SchemaGen`, `Validation` | the memoised generator, its pure meaning, and codec against schema, payload by payload |
| `Agreement` | for which classes codec and schema agree on every payload |
| `VersionGate`, `EventGate` | `parse_artifact`, and events, which carry their version elsewhere |
| `Shipped`, `ShippedIsGood`, `Library`, `LibraryIsGood` | the shipped types and their well-formedness |
| `Occurrences` | `str.count` and `str.index` |
| `FixtureSpec`, `FixtureBuild` | `def.json` and the builder |
| `FixtureAttributes` | what each built instance holds, attribute by attribute |
| `FixtureLaws`, `FixtureTypes` | spans resolve and every instance is well typed, builder by builder |
| `FixtureOperations`, `FixtureSources` | what change operations say about the manuscript, and what they are about |
| `FixtureResults`, `FixtureReferences` | what a successful build promises as a whole |
| `FixtureReadings`, `FixtureFrames` | the annotations read back from the artifacts, and what no annotation sets |
| `FixtureFiles`, `FixtureAcceptance` | which artifact lies under which name; when a build succeeds, and why it fails |

The results to read first: `RoundTrip.RoundTrips` and `RoundTrip.NormIsRetraction` (the codec),
`Evolution.EvolutionSquare` and `Evolution.UpgradeIsByteStable` (versions),
`Failures.DecodeReportsFirstFailure` (errors), `SchemaGen.JsonSchema` with
`Validation.RepairValidatesIff` and `Agreement.DocumentAgreesIff` (schemas), and
`FixtureReferences.CitationsResolve` with `FixtureReadings.AnnotationsAreRead`,
`FixtureFiles.BuildFilesRead` and `FixtureAcceptance.BuildSucceedsIff` (builds).

The loops of the source are methods with invariants, each proved equal to a recursive function
of its inputs; the laws are then lemmas about the functions. The generator and the builder are
classes, since the source mutates `defs` and fills its lists in place.

Where a property does not hold of every input, the model follows the code, and the condition is
proved to be exact, for all inputs:

* A value survives the wire exactly when every `None` attribute inside it belongs to a field that
  reads as `None` when its key is left out (`RoundTripsIff`). A default other than `None` breaks
  this, and so does a required field of type `Any` (`RequiredLosesNone`); the shipped types have
  neither. For the same reason an added field leaves the bytes of an accepted payload alone
  exactly when it defaults to `None` or to nothing (`AbsentKeyStaysAbsentIff`).
* Decoder and emitted document agree on a payload exactly when it does not decode, or no null in it
  answers a `None` arm buried in a hint (`RepairValidatesIff`, `AcceptsIffRepairValidates`):
  `{"x": [null]}` decodes at a class whose field `x` is a list of optional strings, and the schema
  of such a list does not admit null (`ListOfOptionalsDisagrees`). What a writer prints validates
  exactly when it holds no such null (`EncodedValidIff`). Over all payloads of a class, they agree
  exactly when its own fields and those of the classes it leads to bury no `None` arm, except next
  to `Any`; classes that no payload decodes at do not count (`AgreementIff`, `DocumentAgreesIff`,
  `EmptyIff`), and the writer obeys its schema exactly then (`WriterAgreesIff`,
  `DocumentWriterAgreesIff`). The shipped types meet the condition.
* The module comment of `fixture_build.py` says a quote "must occur exactly once"; the code checks
  that the greedy count is one. The two agree for every text exactly when the quote has no proper
  border (`CountOneMeansOnceIffBorderless`): `aa` passes in `aaa`. `SpanAcceptsIff` says what is
  accepted, and every law about spans holds of the accepted ones, repeated or not.
* A change operation that cites text resolves in the manuscript. One that does not takes its scene
  from the annotation unchecked, so it can name a scene that is not there (`GhostBuilds`); every
  operation of a build is about something that exists exactly when every annotation is
  (`SourcesLandIff`).
* The six files give the annotations back (`AnnotationsAreRead`, with `KeptSpec` for what they keep).
  A build forgets the ids of derived nodes, all but the last prose of scenes that share an id,
  whether a value was null or absent, and what a context target or an operation says besides the
  one thing it is built from: its citation, or else what it names with its detail.
* The position keys of a manuscript sort in scene order exactly up to 99 scenes
  (`PositionKeysAscendIff`), and are distinct always.
* The version gate looks inside `meta` before the top level, also for a class that has no `meta`.
  For those, the event envelope among them, it checks the version that is decoded exactly when a
  `meta` that declares a version declares the same text (`GateReadsTopLevelIff`), and what passes has
  the library's major exactly when no such `meta` stands over another major (`GateBindsMajorIff`); an
  event of version 2.0.0 can pass (`ForeignEventParses`).
* Two scenes share a version exactly when their prose agrees and so do their fixture and scene
  ids, joined by a slash (`VersionIdsIff`). Within one fixture that tells scenes apart always;
  across fixtures a slash in a fixture id can defeat it (`SlashesCollide`).

Two readings to know about. `integer` in a schema is taken as JSON integers only, as the decoder
does; section 6.1.1 of JSON Schema Validation (draft 2020-12) would also admit `1.0`, so the
schema laws speak of payloads whose integral numbers are written as integers. The documentation
of `JobRecord` (`src/litharness_contracts/runs.py:83-84`) says `priority` defaults to 0; the
code, and the model, default it to `None`.

## Model

| member | source | states |
|---|---|---|
| SerdeLoops.ToJsonable | src/litharness_contracts/_serde.py:38-60 | the loop over fields that skips `None` attributes, and the comprehensions, compute `Encode`; encoding has no error case on a modelled value |
| SerdeLoops.FromJsonable | src/litharness_contracts/_serde.py:70-137 | the decoder as written, path threaded down, returns what `Decode` returns with the error path read from the root |
| SerdeLoops.ItemsFromJsonable | src/litharness_contracts/_serde.py:85-89 | a list stops at its first bad element and reports its index |
| SerdeLoops.EntriesFromJsonable | src/litharness_contracts/_serde.py:91-95 | an object read as a dict stops at its first bad value and reports its key |
| SerdeLoops.FieldsFromJsonable | src/litharness_contracts/_serde.py:105-118 | filling `kwargs` field by field and calling the constructor gives each field its decoded, default or `None` attribute, in field order |
| RoundTrip.DecodeSound | src/litharness_contracts/_serde.py:70-137 | whatever the decoder returns has the type it was asked for |
| RoundTrip.RoundTripsIff | src/litharness_contracts/_serde.py:38-137 | over any catalogue with distinct field names, a well-typed value is what its encoding decodes to exactly when every `None` attribute inside it, at any depth, is of such a field |
| RoundTrip.WellTypedIsReadable | src/litharness_contracts/_serde.py:44-51 | in a well-formed catalogue every `None` attribute of a well-typed value is of such a field |
| RoundTrip.RequiredLosesNone | src/litharness_contracts/_serde.py:110-117 | a required `Any` field that holds `None` is lost on the wire: the encoding does not decode |
| RoundTrip.RoundTrips | src/litharness_contracts/_serde.py:38-118 | so in a well-formed catalogue, recursive ones included, decoding an encoded value returns it, for every well-typed value |
| RoundTrip.RawUndoesEncode | src/litharness_contracts/_serde.py:72-73 | a plain value survives the wire under `Any` |
| RoundTrip.EncodeUndoesRaw | src/litharness_contracts/_serde.py:72-73 | data kept under `Any` is written back unchanged |
| RoundTrip.NoneNeedsNoneDefault | src/litharness_contracts/_serde.py:44-51 | a `None` attribute comes back as `None` exactly when its field reads as `None` for want of a key: not required, and `None` by default or for having an optional hint |
| RoundTrip.NormIsRetraction | src/litharness_contracts/_serde.py:38-118 | rewriting a payload keeps what the reader saw, rewriting twice changes nothing, and the fixed payloads are exactly those that well-typed values print as |
| RoundTrip.UnnamedMembersAreInvisible | src/litharness_contracts/_serde.py:105-123 | payloads that agree on the named fields at every depth, up to writing a float position as an integer, decode to the same value or the same error |
| RoundTrip.TrimmingIsInvisible | src/litharness_contracts/_serde.py:105-118 | deleting every member no class names, at every dataclass position, changes neither value nor error |
| RoundTrip.TrimMembersLookup | src/litharness_contracts/_serde.py:110-112 | a trimmed object has the named members it had, and no other |
| Settling.RewritingSettles | src/litharness_contracts/_serde.py:44-123 | in any catalogue, reading a payload and writing it back gives its settled form: members in field order, absent ones at their defaults, nulls left out, integers at float positions as floats, unrecognised enum values as `unknown` |
| Settling.SameReadingIff | src/litharness_contracts/_serde.py:70-137 | two payloads read as the same value exactly when they settle to the same payload |
| Settling.SettlingIsInvisible | src/litharness_contracts/_serde.py:70-137 | the settled payload reads as the original, and settles to itself |
| Evolution.EvolutionSquare | src/litharness_contracts/_serde.py:97-118 | whatever fields, required or not, enum values and types a release adds: any payload the new reader accepts, the old one accepts, and gets the new value with the additions dropped and added enum values read as `unknown`, at every depth |
| Evolution.ForgetIsIdentity | src/litharness_contracts/_serde.py:97-118 | an old value has nothing to forget |
| Evolution.ForgetComposes | src/litharness_contracts/_serde.py:97-118 | forgetting two releases one after the other is forgetting both at once |
| Evolution.EnlargesTransitive | src/litharness_contracts/_serde.py:5-10 | releases that add anything compose |
| Evolution.ExtendsTransitive | src/litharness_contracts/_serde.py:5-10 | so do releases whose added fields may be left out |
| Evolution.SquaresCompose | src/litharness_contracts/_serde.py:97-118 | a reader two releases behind sees what the one between would pass on |
| Evolution.UpgradePreservesBytes | src/litharness_contracts/manuscript.py:91-96 | an old value seen as an instance of the new classes is well typed and prints the same bytes |
| Evolution.UpgradeIsByteStable | src/litharness_contracts/manuscript.py:91-96 | the new reader decodes what the old writer printed, prints it back byte for byte, key order included, and forgets it to the old value |
| Evolution.OldAcceptsIffNewAcceptsTrimmed | src/litharness_contracts/_serde.py:105-118 | the old reader accepts a payload exactly when the new reader accepts it without the members the old classes do not name |
| Evolution.AbsentKeyStaysAbsentIff | src/litharness_contracts/manuscript.py:91-96 | an absent key stays absent after rewriting exactly when its field defaults to `None`; any other default changes the bytes of existing artifacts |
| Releases.EarlierIsReady | src/litharness_contracts/manuscript.py:71-101 | the library as release 1.0 had it, without the fields, enum values and types the source marks as added since, is a well-formed catalogue |
| Releases.LibraryExtendsEarlier | src/litharness_contracts/runs.py:93-100 | today's library extends release 1.0 additively: the fields of manuscript nodes and job records, the event types, the job status and the types added since |
| Releases.EarlierReaderKeepsUp | src/litharness_contracts/events.py:14-22 | whatever the library accepts today at a class of release 1.0, a 1.0 reader accepts and sees without the additions |
| Releases.EarlierArtifactsAreStable | src/litharness_contracts/runs.py:95-96 | no 1.0 artifact changes a byte when the library rewrites it |
| Failures.AcceptedHasNoFailure | src/litharness_contracts/_serde.py:70-137 | a payload that decodes has no failing position |
| Failures.DecodeReportsFirstFailure | src/litharness_contracts/_serde.py:70-137 | decoding fails with an error exactly when it belongs to a failing position that no failing position precedes, and succeeds exactly when none fails |
| Failures.PathLeadsToCulprit | src/litharness_contracts/_serde.py:89-117 | the reported path navigates the payload to a value of the wrong kind, or to an object that lacks the reported field |
| SchemaGen.Generator.TypeSchema | src/litharness_contracts/_schema.py:30-62 | the schema of a type, the definitions it mentions added to `defs` once each and nothing unreachable with them; it returns on cyclic class graphs |
| SchemaGen.Generator.ClassSchema | src/litharness_contracts/_schema.py:64-79 | the loop over fields returns the properties and the required names of the class, whatever `defs` held before |
| SchemaGen.Generator.Finished | src/litharness_contracts/_schema.py:49-53 | once no class is open, no placeholder is left in `defs` and it is closed under mentions |
| SchemaGen.JsonSchema | src/litharness_contracts/_schema.py:27-90 | the document has the root schema and exactly the reachable names, each with its own memo-independent definition |
| SchemaGen.ClosureIsReachable | src/litharness_contracts/_schema.py:45-53 | a set closed under mentions that holds the names the fields mention and only reachable ones is the set of reachable names |
| SchemaGen.PropertiesAt | src/litharness_contracts/_schema.py:68-69 | one property per field, in field order, with the schema of its hint |
| SchemaGen.RequiredNames | src/litharness_contracts/_schema.py:18-24 | a name is required exactly when its field has neither a default nor an optional hint |
| SchemaGen.RequiredInOrder | src/litharness_contracts/_schema.py:66-71 | required names come in field order, each once |
| Validation.TypeReferences | src/litharness_contracts/_schema.py:30-62 | the `$ref`s of a type schema are the enums and dataclasses its hint mentions |
| Validation.DocumentIsClosed | src/litharness_contracts/_schema.py:81-90 | every `$ref` resolves, no definition is a placeholder, and the root is defined exactly when it reaches itself, as the root schema |
| Validation.ObjectValidIff | src/litharness_contracts/_schema.py:72-79 | an object validates against a class schema exactly when every field does, unknown members being free |
| Validation.RepairMembersLookup | src/litharness_contracts/_serde.py:110-117 | the repaired object keeps the named members, repaired, except nulls where `None` is allowed |
| Validation.RepairValidIff | src/litharness_contracts/_schema.py:30-62 | at any hint, in any catalogue: the repair of a payload validates exactly when the payload decodes and no null in it answers a `None` arm below the top of a field or hint, unless that arm stands next to `Any` |
| Validation.RepairValidatesIff | src/litharness_contracts/_schema.py:81-90 | the same for the emitted document of any class, payload by payload |
| Validation.AcceptsIffRepairValidates | src/litharness_contracts/_serde.py:70-137 | in any catalogue decoder and emitted document agree on a payload, once nulls in optional fields are deleted and unrecognised enum values replaced by `unknown`, exactly when it does not decode or hides no null; in a ready catalogue, always |
| Validation.ValidatingPayloadDecodes | src/litharness_contracts/_schema.py:68-79 | in any catalogue whose hints resolve, every payload that validates decodes |
| Validation.EncodedValidIff | src/litharness_contracts/_serde.py:44-60 | what a well-typed value of a well-formed catalogue prints as validates exactly when it hides no null |
| Validation.EncodedIsValid | src/litharness_contracts/_serde.py:44-60 | so in a ready catalogue every well-typed value prints as a payload its schema accepts |
| Validation.RewrittenPayloadValidates | src/litharness_contracts/_serde.py:38-118 | whatever was read, with unknown keys, nulls and future enum values, is written back as a payload that validates exactly when that hides no null, and in a ready catalogue always |
| Validation.NewSchemaIsSafeForOldReader | src/litharness_contracts/_serde.py:5-10 | a payload valid under the new schema decodes for the old reader, who writes back a payload valid under the old one exactly when that hides no null, whatever the release added |
| Agreement.AgreementIff | src/litharness_contracts/_schema.py:34-44 | decoder and schema agree on every payload of a hint exactly when no `None` arm hides in it and the classes it leads to divide into ones nothing decodes at and ones whose fields hide none; in a ready catalogue the hint alone decides |
| Agreement.DocumentAgreesIff | src/litharness_contracts/_schema.py:81-90 | decoder and emitted document agree on every payload exactly when the root class is in such a division |
| Agreement.WriterAgreesIff | src/litharness_contracts/_serde.py:44-60 | every well-typed value of a hint prints as a payload its schema accepts exactly under the same condition |
| Agreement.DocumentWriterAgreesIff | src/litharness_contracts/_serde.py:44-60 | every instance of a class prints as its emitted document asks exactly when the class is in such a division |
| Agreement.ExposedIff | src/litharness_contracts/_serde.py:75-82 | some payload of a hint decodes with a null its schema does not know of exactly when the condition fails |
| Agreement.EmptyIff | src/litharness_contracts/_serde.py:105-118 | no payload decodes at a class exactly when it lies in a set of classes that each demand a field nothing can fill |
| Agreement.NestedNoneDisagrees | src/litharness_contracts/_schema.py:34-38 | for a hint that hides a `None` arm, the payload with a null there decodes and its repair does not validate |
| Agreement.ListOfOptionalsDisagrees | src/litharness_contracts/_schema.py:64-90 | a well-formed class with a field `list[str | None]` has an emitted document that rejects the repair of a payload the decoder reads |
| VersionGate.LibraryMajor | src/litharness_contracts/_serde.py:20-35 | the library speaks major 1 |
| VersionGate.IntIsOneIff | src/litharness_contracts/_serde.py:31-35 | an integer text is one exactly when it is zeros and a one, after an optional plus sign |
| VersionGate.PassesIff | src/litharness_contracts/_serde.py:140-157 | the gate passes a payload exactly when the text before the first dot of its declared version spells one |
| VersionGate.OnlyTheMajorMatters | src/litharness_contracts/_serde.py:31-35 | payloads whose versions agree up to the first dot fare alike |
| VersionGate.ReleasePassesIff | src/litharness_contracts/_serde.py:31-35 | a version written as a decimal major, a dot and anything passes exactly when that major is the library's |
| VersionGate.UnparseableIff | src/litharness_contracts/_serde.py:31-35 | a payload is unparseable exactly when the text its `meta` declares, or else its top level, has no integer before the first dot, or neither declares any |
| VersionGate.IncompatibleIff | src/litharness_contracts/_serde.py:151-157 | it is incompatible, and reported with its version, exactly when the text before the first dot of that version is an integer other than one, whatever else it holds |
| VersionGate.RejectedIff | src/litharness_contracts/_serde.py:153-158 | it is rejected with an error exactly when it passes and the decoder fails with that error |
| VersionGate.ForeignReleaseIsIncompatible | src/litharness_contracts/_serde.py:154-157 | a release of another major is incompatible, whatever the rest of the payload holds |
| VersionGate.MajorOfText | src/litharness_contracts/_serde.py:31-35 | the major of a declared string is that of its text, of a declared integer itself; null, booleans and containers have none |
| VersionGate.EnvelopeDeclares | src/litharness_contracts/_serde.py:140-148 | the version of a decoded envelope is the declared one |
| VersionGate.GateBindsEnvelope | src/litharness_contracts/_serde.py:151-158 | a parsed artifact carries the version that was checked, and it has the library major, whatever the top level says |
| VersionGate.ArtifactRoundTripsIff | src/litharness_contracts/_serde.py:151-158 | an artifact passes the gate and parses back to itself exactly when its own version has the library major |
| VersionGate.GateBindsTopLevel | src/litharness_contracts/_serde.py:140-148 | the same for a class with a top-level version, when no stray `meta` declares one |
| VersionGate.GateReadsTopLevelIff | src/litharness_contracts/_serde.py:140-148 | for a class with a top-level version, the checked text is the decoded version exactly when a `meta` object that declares a version declares the same text |
| VersionGate.GateBindsMajorIff | src/litharness_contracts/_serde.py:140-158 | passing the gate means the decoded version has the library's major exactly when no `meta` that declares this major stands over a top level of another |
| VersionGate.ForeignMetaOpensTheGate | src/litharness_contracts/_serde.py:142-145 | without that condition it fails: any decodable payload parses once a `meta` object with the library version is put in front |
| LibraryIsGood.LibraryIsReady | src/litharness_contracts/ids.py:17-72 | all shipped dataclasses are well formed: distinct field names, resolved hints, well-typed defaults, `None` defaults where `None` is allowed, no `None` arm below the top of a hint, and every enum has `unknown` |
| LibraryIsGood.ClassIsTidy | src/litharness_contracts/conductor.py:65-92 | each class of the library, by identity: its fields are of accepted shapes and its names distinct |
| ShippedIsGood.EveryClassIsTidy | src/litharness_contracts/envelope.py:15-49 | the same for each class the artifacts are made of, in any catalogue that defines what it mentions |
| Texts.NumberOfDecimal | src/litharness_contracts/fixture_build.py:186-186 | decimal text denotes the number it was printed from |
| Texts.NumberOfPadded | src/litharness_contracts/fixture_build.py:186-186 | padding with zeros never confuses two numbers |
| Texts.SortedSetIs | src/litharness_contracts/fixture_build.py:250-252 | `sorted(set)` is strictly ascending and holds exactly the words given |
| Texts.SortedSetIgnoresOrder | src/litharness_contracts/fixture_build.py:250-252 | it does not depend on the order or repetition of the words |
| Texts.JoinIsInjective | src/litharness_contracts/fixture_build.py:68-69 | a join of slash-free parts can be taken apart in one way only |
| Texts.JoinsAgreeIff | src/litharness_contracts/fixture_build.py:68-69 | two joins are equal exactly when their parts, cut at every slash, are |
| Occurrences.CountIsMaximal | src/litharness_contracts/fixture_build.py:141-141 | the greedy count of a non-empty quote is the largest number of pairwise disjoint occurrences |
| Occurrences.CountedOnceIff | src/litharness_contracts/fixture_build.py:141-146 | the count is one exactly when the quote occurs and any two different occurrences overlap, the empty quote included |
| Occurrences.CountedOnceIsLocated | src/litharness_contracts/fixture_build.py:147-147 | the located start is the leftmost occurrence, inside the text, and every other one overlaps it |
| Occurrences.CountOneMeansOnceIffBorderless | src/litharness_contracts/fixture_build.py:4-6 | a count of one means a single occurrence, in every text, exactly for quotes without a proper border |
| Occurrences.CountedOnceOccursTwice | src/litharness_contracts/fixture_build.py:4-6 | the smallest quote that is counted once and occurs twice |
| FixtureBuild.FixtureBuilder.constructor | src/litharness_contracts/fixture_build.py:81-101 | the loop over scenes leaves the texts and versions of `Opened`, for the same scenes |
| FixtureBuild.FixtureBuilder.BuildManuscript | src/litharness_contracts/fixture_build.py:170-200 | the loop appends the book and then one node per scene, numbered from one |
| FixtureBuild.FixtureBuilder.BuildState | src/litharness_contracts/fixture_build.py:221-245 | one record per annotation in order, or the first error |
| FixtureBuild.FixtureBuilder.BuildFindings | src/litharness_contracts/fixture_build.py:247-284 | one finding per annotation in order, or the first error |
| FixtureBuild.FixtureBuilder.BuildContextGold | src/litharness_contracts/fixture_build.py:286-311 | one case per query in order, or the first error |
| FixtureBuild.FixtureBuilder.BuildOperations | src/litharness_contracts/fixture_build.py:325-359 | one change operation per annotation in order, or the first error |
| FixtureBuild.FixtureBuilder.BuildImpactGold | src/litharness_contracts/fixture_build.py:322-402 | one case per scenario in order, or the first error |
| FixtureBuild.FixtureBuilder.Build | src/litharness_contracts/fixture_build.py:406-415 | the six payloads, or the first error in build order |
| FixtureBuild.BuildFixture | src/litharness_contracts/fixture_build.py:418-419 | a whole build; the first unknown record kind is refused before anything is built |
| FixtureBuild.EachFailsAt | src/litharness_contracts/fixture_build.py:154-155 | a loop over annotations fails with the error of the first one that fails |
| FixtureBuild.OpenedTexts | src/litharness_contracts/fixture_build.py:89-94 | the text and version kept for a scene id are those of the last scene with that id |
| FixtureLaws.ResolvedIsRef | src/litharness_contracts/fixture_build.py:118-135 | every target that resolves is a reference of a kind the contracts know |
| FixtureLaws.SpanDelimits | src/litharness_contracts/fixture_build.py:137-153 | a span delimits its quote in the scene, at the scene's version and where it first occurs |
| FixtureLaws.SpanIsExact | src/litharness_contracts/fixture_build.py:137-152 | it resolves in the built manuscript: same node, same version, offsets of the first occurrence inside the content, hash of that slice |
| FixtureLaws.SpanIsFine | src/litharness_contracts/fixture_build.py:137-152 | and is a well-typed evidence span besides |
| FixtureLaws.NodePresents | src/litharness_contracts/fixture_build.py:180-193 | the nodes after the book present the scenes in order, with their title, parent, content, hash and version |
| FixtureOperations.OperationResolves | src/litharness_contracts/fixture_build.py:326-359 | every built operation resolves: a quote-bearing or anchored one names a scene node at its version that holds the text its detail shows, and hashes what it replaces; the others, and only they, name no version and hash nothing |
| FixtureOperations.OperationNames | src/litharness_contracts/fixture_build.py:326-359 | the scene an operation names is the cited one, or else its entity, its scene as written, or the book |
| FixtureOperations.OperationHashesItsDetail | src/litharness_contracts/fixture_build.py:329-351 | an operation built from a quote or an anchor hashes the quote and the new text its detail shows; an anchor alone hashes nothing |
| FixtureTypes.OperationIsFine | src/litharness_contracts/fixture_build.py:326-359 | every built operation is a well-typed change operation |
| FixtureTypes.ManuscriptIsFine | src/litharness_contracts/fixture_build.py:170-200 | the manuscript is a well-typed revision |
| FixtureTypes.PlansAreFine | src/litharness_contracts/fixture_build.py:202-219 | the plans are a well-typed snapshot |
| FixtureTypes.StateIsFine | src/litharness_contracts/fixture_build.py:221-245 | the state is a well-typed snapshot whose evidence resolves in the manuscript |
| FixtureTypes.FindingsAreFine | src/litharness_contracts/fixture_build.py:247-284 | the findings are a well-typed evaluation whose spans resolve in the manuscript |
| FixtureTypes.ContextGoldIsFine | src/litharness_contracts/fixture_build.py:286-320 | the context suite is well typed and its target spans resolve in the manuscript |
| FixtureTypes.ImpactGoldIsFine | src/litharness_contracts/fixture_build.py:322-402 | the impact suite is well typed, and its operations are those built from the scenarios |
| FixtureResults.SpanAcceptsIff | src/litharness_contracts/fixture_build.py:137-146 | a citation is accepted exactly when its scene is known and the quote occurs with any two occurrences overlapping; one occurrence suffices, and is implied for a borderless quote; an empty quote is accepted in an empty scene |
| FixtureResults.LibraryQualifies | src/litharness_contracts/goldens.py:20-72 | the shipped library is a catalogue the build results apply to |
| FixtureResults.BuildIsSound | src/litharness_contracts/fixture_build.py:406-415 | for every spec on which the build succeeds, all six artifacts are well typed, every evidence span in them, at any depth, resolves in the manuscript of the same build, and every reference and change operation is one the builder makes, those operations resolving too |
| FixtureResults.SceneNodesAreStamped | src/litharness_contracts/fixture_build.py:91-94 | every scene node hashes its own content and is versioned by fixture, scene and that hash, even when scenes share an id |
| FixtureResults.BuildSurvives | src/litharness_contracts/fixture_build.py:406-415 | each of the six payloads passes the version gate, parses back to the artifact that was built, and validates against its schema |
| FixtureResults.PositionKeysAreDistinct | src/litharness_contracts/fixture_build.py:186-186 | no two nodes of a manuscript share a position key |
| FixtureResults.PositionKeysAscendIff | src/litharness_contracts/fixture_build.py:171-193 | position keys ascend in node order exactly when there are at most 99 scenes |
| FixtureResults.ScopeIsWhatIsCited | src/litharness_contracts/fixture_build.py:250-258 | a finding's scene ids are strictly sorted and are exactly the scenes its primary and supporting spans cite |
| FixtureResults.ScopeIgnoresOrder | src/litharness_contracts/fixture_build.py:250-252 | they do not depend on the order or repetition of the supporting citations |
| FixtureResults.DismissedIffIntentional | src/litharness_contracts/fixture_build.py:275-279 | a finding suggests dismissal exactly when its status is `accepted_intentional` |
| FixtureResults.DetIdSeparates | src/litharness_contracts/fixture_build.py:68-69 | identifiers made of slash-free parts are equal exactly when the parts are, given a collision-free UUID |
| FixtureResults.DetIdsIff | src/litharness_contracts/fixture_build.py:68-69 | any identifiers are equal exactly when their parts, cut at every slash, are |
| FixtureResults.VersionIdsIff | src/litharness_contracts/fixture_build.py:91-94 | two scenes share a version exactly when their prose agrees and their fixture and scene ids, joined by a slash, do |
| FixtureResults.VersionsWithinFixture | src/litharness_contracts/fixture_build.py:91-94 | within one fixture, exactly when scene id and prose agree, whatever the ids look like |
| FixtureResults.VersionSeparates | src/litharness_contracts/fixture_build.py:91-94 | across fixtures whose ids hold no slash, exactly when fixture id, scene id and prose agree |
| FixtureResults.SlashesCollide | src/litharness_contracts/fixture_build.py:68-69 | with a slash in a fixture id, scenes of two fixtures share a version |
| EventGate.EventCarriesVersion | src/litharness_contracts/events.py:63-79 | the event envelope has a required top-level version and no `meta` |
| EventGate.StrayMetaAdmitsAnyEvent | src/litharness_contracts/_serde.py:142-145 | so any event that decodes parses when a stray `meta` declares the library version |
| EventGate.ForeignEventParses | src/litharness_contracts/_serde.py:142-158 | an event payload of version 2.0.0 that parses, and carries version 2.0.0 |
| FixtureReferences.CitationsResolve | src/litharness_contracts/fixture_build.py:406-415 | for every spec on which the build succeeds, at any depth of any of the six artifacts: a resource reference names this book and branch and an element the artifacts hold (or a listed summary or an entity), an evidence span delimits exact text of a scene node at its version, and a change operation that names a version shows such text |
| FixtureReferences.IssuedLands | src/litharness_contracts/fixture_build.py:105-135 | every reference the builder can issue, to the book, a scene or a resolved target, lands in the artifacts of a successful build |
| FixtureReferences.CitedInside | src/litharness_contracts/fixture_build.py:406-415 | what holds of all citations and references of an artifact holds of each part of it |
| FixtureReferences.TargetLands | src/litharness_contracts/fixture_build.py:118-135 | in a successful build, every target that resolves is held by the artifacts under the kind, id and version its reference states |
| FixtureReferences.KindIsDeclared | src/litharness_contracts/fixture_build.py:95-97 | the kind kept for a record id is that of a record with the id |
| FixtureSources.SourceLandsIff | src/litharness_contracts/fixture_build.py:353-359 | a built operation is about the book, an entity or a scene of the manuscript exactly when its annotation cites text, names an entity, names no scene, or names the book, an entity id or a scene of the fixture |
| FixtureSources.SourcesLandIff | src/litharness_contracts/fixture_build.py:325-359 | in a successful build every change operation, at any depth, is about something that exists exactly when every annotated operation is such |
| FixtureSources.GhostBuilds | src/litharness_contracts/fixture_build.py:353-359 | the failing input: a fixture without scenes that moves one builds, and its operation lands nowhere |
| FixtureReadings.AnnotationsAreRead | src/litharness_contracts/fixture_build.py:163-402 | the artifacts of a successful build give the annotations back: titles, plans, records, findings, queries and scenarios in order, each field from the attribute of its name, each citation from its span and the prose of the manuscript, up to what the two are documented to drop |
| FixtureReadings.CiteIsRead | src/litharness_contracts/fixture_build.py:137-153 | a span reads as the scene and quote it was built from |
| FixtureReadings.PlanIsRead | src/litharness_contracts/fixture_build.py:202-210 | a plan item reads as its annotation |
| FixtureReadings.RecordIsRead | src/litharness_contracts/fixture_build.py:222-240 | a state record reads as its annotation, subject, predicate, value and evidence included; a null value as none |
| FixtureReadings.FindingIsRead | src/litharness_contracts/fixture_build.py:253-282 | a finding reads as its annotation, spans, claim and dependencies included |
| FixtureReadings.TargetIsRead | src/litharness_contracts/fixture_build.py:313-320 | a context target reads as its reason with its citation, or else with the record or plan it names |
| FixtureReadings.QueryIsRead | src/litharness_contracts/fixture_build.py:289-307 | a context case reads as its query: mandatory targets as mandatory and forbidden ones as forbidden, each in order |
| FixtureReadings.OperationIsRead | src/litharness_contracts/fixture_build.py:326-361 | an operation reads as its kind, scene, quote or anchor and new text, or else as what it is about and its detail |
| FixtureReadings.ScenarioIsRead | src/litharness_contracts/fixture_build.py:322-397 | an impact case reads as its scenario: operations, extracted changes with what they change from and to, and expectations, each in order |
| FixtureFiles.BuildFilesRead | src/litharness_contracts/fixture_build.py:406-419 | the map a build returns has the six golden names and no others; the payload under each parses at the class of that name, validates against its schema, and all six parse to the artifacts built |
| FixtureFiles.SameFilesSameArtifacts | src/litharness_contracts/fixture_build.py:406-419 | fixtures that build the same files build the same artifacts |
| FixtureFiles.SameFilesSameAnnotations | src/litharness_contracts/fixture_build.py:1-9 | and have the same annotations, as far as a build keeps them, whatever digests they were built with |
| FixtureFrames.BuildIsFramed | src/litharness_contracts/fixture_build.py:166-402 | every attribute that no annotation sets is as the source passes it or leaves it by default: envelopes, identifiers, revisions, versions after a change, constants, empty lists |
| FixtureFrames.IssuedIsHomed | src/litharness_contracts/fixture_build.py:105-116 | every reference names the project, book and branch of the fixture |
| FixtureAcceptance.BuildSucceedsIff | src/litharness_contracts/fixture_build.py:406-415 | a build succeeds exactly when every enum value is a member, every quote occurs in its scene with all occurrences overlapping, every context target cites or names something, and every target is claimed by a namespace that has a kind for it |
| FixtureAcceptance.BuildFailsFor | src/litharness_contracts/fixture_build.py:406-415 | a build that fails reports the first artifact that does, in build order |
| FixtureAcceptance.ResolvesByFirstClaim | src/litharness_contracts/fixture_build.py:118-135 | a target resolves to the kind of the first namespace that claims it, and carries a version exactly for the book and scenes |
| FixtureAcceptance.RecordKindsHaveResources | src/litharness_contracts/fixture_build.py:58-65 | every record kind but `unknown` has a resource kind the contracts know: its own name, or that with `state_` in front |
| FixtureAcceptance.SpanFailsFor | src/litharness_contracts/fixture_build.py:137-145 | a citation fails for its scene, or else for a count other than one, which it reports |
| FixtureAcceptance.ResolveFailsFor | src/litharness_contracts/fixture_build.py:118-135 | a target fails for want of a kind when some namespace claims it, and otherwise for want of a namespace |
| FixtureAcceptance.TargetFailsFor | src/litharness_contracts/fixture_build.py:313-320 | a context target fails for its citation, or what it names, or naming nothing |
| FixtureAcceptance.RecordFailsFor | src/litharness_contracts/fixture_build.py:222-240 | a record reports the first of its kind, authority and evidence that fails |
| FixtureAcceptance.FindingFailsFor | src/litharness_contracts/fixture_build.py:253-282 | a finding reports the first of its category, status, severity, spans and dependencies that fails |
| FixtureAcceptance.QueryFailsFor | src/litharness_contracts/fixture_build.py:289-307 | a context case reports the first of its operation, target, mandatory and forbidden targets that fails |
| FixtureAcceptance.OperationFailsFor | src/litharness_contracts/fixture_build.py:326-361 | an operation reports its kind before its scene and citation |
| FixtureAcceptance.ScenarioFailsFor | src/litharness_contracts/fixture_build.py:322-397 | an impact case reports the first of its operations, extracted changes and expectations that fails |

## Left out

- JSON text: the model starts from parsed JSON values. `json.dumps`, `json.loads`, file reading and writing, and newline normalisation are library I/O.
- SHA-256, UUIDv5 and UTF-8 are functions given from outside (`Digests`); only the identifier laws assume that they do not collide.
- Python reflection (`dataclasses.fields`, `get_type_hints`, `get_origin`): catalogues are data. Classes and enums are numbers where the source has class objects and, in `$defs`, their `__name__`; names are taken to be distinct.
- Unions of more than one type besides `None`, which codec and generator reject by raising, have no form in the model; nor have hints outside the supported ones.
- NaN, infinities and rounding: floats are reals, and an integer read as a float is exact.
- VersionGate.IntIsOneIff: `int()` is modelled on plain decimal text with an optional sign; whitespace, underscores and non-ASCII digits are not modelled, and the text of a float version is a parameter.
- VersionGate.PassesIff: the same reading of `int()`, so a version with a blank before its major, which the code lets through, is refused by the model.
- SchemaGen.JsonSchema: `$schema`, `$id` and the alphabetical order of `$defs` are not modelled; definitions are a map, and `title` is the identity of the class.
- VersionGate.UnparseableIff: the same reading of `int()`.
- VersionGate.IncompatibleIff: the same reading of `int()`.
- Values that Python can hold but no contract type describes: dict keys other than strings, and arbitrary objects under `Any`, for which the encoder raises.
- FixtureBuild.BuildFixture: `def.json` is a typed record. A missing key (other than the `scene` of a quote) or an entry of another JSON kind is not modelled.
- FixtureBuild.FixtureBuilder.BuildOperations: an explicit null for `new_text` is not told apart from its absence.
- `plans`, `_context_target`, `_spans` and the other comprehensions of the builder are functions that stop at the first error, as the source's are expressions.
- Jobs, leases, directives, exceptions, policy gates, patches and impact propagation: the repository declares their data shapes, which are in the catalogue, and no code that acts on them.
- `fixtures/__init__.py`, `tools/`, the tests, the committed schemas and the two books: path lookup, packaging checks and finite examples.
