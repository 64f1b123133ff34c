/** The map `build` returns: which artifact lies under which name, and what a reader makes of
    the six files together. */
module FixtureFiles {
  import opened JsonValues
  import opened Catalogues
  import opened Serde
  import opened Shipped
  import opened FixtureSpec
  import opened FixtureBuild
  import opened FixtureLaws
  import opened FixtureResults
  import opened FixtureReadings
  import SchemaGen
  import Validation
  import VersionGate

  /** The class that the golden file of each name holds an instance of. */
  function ClassOf(name: string): Id {
    match name
    case "manuscript.json" => MANUSCRIPT_REVISION
    case "plans.json" => PLAN_SNAPSHOT
    case "state.json" => STATE_SNAPSHOT
    case "findings.json" => EVALUATION_ARTIFACT
    case "context_gold.json" => GOLD_CONTEXT_SUITE
    case _ => GOLD_IMPACT_SUITE
  }

  const GOLDEN: set<string> := {
    "manuscript.json", "plans.json", "state.json", "findings.json", "context_gold.json", "impact_gold.json"}

  /** What a reader of the golden file `name` gets, or `None`. */
  function ReadFile(c: Catalogue, files: map<string, Json>, name: string, floatText: real -> string): Value {
    if name !in files then VNone
    else
      match VersionGate.ParseArtifact(c, TData(ClassOf(name)), files[name], floatText)
      case Parsed(v) => v
      case _ => VNone
  }

  /** The six artifacts, each parsed from the file of its name. */
  function ReadFiles(c: Catalogue, files: map<string, Json>, floatText: real -> string): Artifacts {
    Artifacts(
      ReadFile(c, files, "manuscript.json", floatText), ReadFile(c, files, "plans.json", floatText),
      ReadFile(c, files, "state.json", floatText), ReadFile(c, files, "findings.json", floatText),
      ReadFile(c, files, "context_gold.json", floatText), ReadFile(c, files, "impact_gold.json", floatText))
  }

  /** The file `name` is there, parses at its class, and validates against its class's schema. */
  ghost predicate FileIsGood(c: Catalogue, files: map<string, Json>, name: string, floatText: real -> string) {
    && name in files && ClassOf(name) in c.classes
    && VersionGate.ParseArtifact(c, TData(ClassOf(name)), files[name], floatText).Parsed?
    && Validation.Validates(SchemaGen.DocumentOf(c, ClassOf(name)), files[name])
  }

  lemma Classes()
    ensures ClassOf("manuscript.json") == MANUSCRIPT_REVISION && ClassOf("plans.json") == PLAN_SNAPSHOT
    ensures ClassOf("state.json") == STATE_SNAPSHOT && ClassOf("findings.json") == EVALUATION_ARTIFACT
    ensures ClassOf("context_gold.json") == GOLD_CONTEXT_SUITE && ClassOf("impact_gold.json") == GOLD_IMPACT_SUITE
  {
  }

  /** The file `name` holds `v`, which survives there. */
  ghost predicate Holds(c: Catalogue, files: map<string, Json>, name: string, v: Value, floatText: real -> string) {
    name in files && files[name] == Encode(v) && Survives(c, ClassOf(name), v, floatText)
  }

  lemma HeldIsRead(c: Catalogue, files: map<string, Json>, name: string, v: Value, floatText: real -> string)
    requires Holds(c, files, name, v, floatText)
    ensures FileIsGood(c, files, name, floatText) && ReadFile(c, files, name, floatText) == v
  {
  }

  lemma PayloadNames(a: Artifacts)
    ensures PayloadsOf(a).Keys == GOLDEN
  {
  }

  lemma FirstPayloads(a: Artifacts)
    ensures var files := PayloadsOf(a);
      && files["manuscript.json"] == Encode(a.manuscript) && files["plans.json"] == Encode(a.plans)
      && files["state.json"] == Encode(a.state)
  {
  }

  lemma LastPayloads(a: Artifacts)
    ensures var files := PayloadsOf(a);
      && files["findings.json"] == Encode(a.findings) && files["context_gold.json"] == Encode(a.contextGold)
      && files["impact_gold.json"] == Encode(a.impactGold)
  {
  }

  lemma PayloadsHold(c: Catalogue, a: Artifacts, floatText: real -> string)
    requires AllSurvive(c, a, floatText)
    ensures var files := PayloadsOf(a);
      && Holds(c, files, "manuscript.json", a.manuscript, floatText)
      && Holds(c, files, "plans.json", a.plans, floatText) && Holds(c, files, "state.json", a.state, floatText)
      && Holds(c, files, "findings.json", a.findings, floatText)
      && Holds(c, files, "context_gold.json", a.contextGold, floatText)
      && Holds(c, files, "impact_gold.json", a.impactGold, floatText)
  {
    Classes();
    FirstPayloads(a);
    LastPayloads(a);
  }

  /** The six golden files and no others, all of them good. */
  ghost predicate FilesAreGood(c: Catalogue, files: map<string, Json>, floatText: real -> string) {
    && files.Keys == GOLDEN
    && FileIsGood(c, files, "manuscript.json", floatText) && FileIsGood(c, files, "plans.json", floatText)
    && FileIsGood(c, files, "state.json", floatText) && FileIsGood(c, files, "findings.json", floatText)
    && FileIsGood(c, files, "context_gold.json", floatText) && FileIsGood(c, files, "impact_gold.json", floatText)
  }

  /** Artifacts that survive are what a reader finds, each under its own name. */
  lemma PayloadsRead(c: Catalogue, a: Artifacts, floatText: real -> string)
    requires AllSurvive(c, a, floatText)
    ensures ReadFiles(c, PayloadsOf(a), floatText) == a
  {
    var files := PayloadsOf(a);
    PayloadsHold(c, a, floatText);
    HeldIsRead(c, files, "manuscript.json", a.manuscript, floatText);
    HeldIsRead(c, files, "plans.json", a.plans, floatText);
    HeldIsRead(c, files, "state.json", a.state, floatText);
    HeldIsRead(c, files, "findings.json", a.findings, floatText);
    HeldIsRead(c, files, "context_gold.json", a.contextGold, floatText);
    HeldIsRead(c, files, "impact_gold.json", a.impactGold, floatText);
  }

  lemma PayloadsAreGood(c: Catalogue, a: Artifacts, floatText: real -> string)
    requires AllSurvive(c, a, floatText)
    ensures FilesAreGood(c, PayloadsOf(a), floatText)
  {
    var files := PayloadsOf(a);
    PayloadNames(a);
    PayloadsHold(c, a, floatText);
    HeldIsRead(c, files, "manuscript.json", a.manuscript, floatText);
    HeldIsRead(c, files, "plans.json", a.plans, floatText);
    HeldIsRead(c, files, "state.json", a.state, floatText);
    HeldIsRead(c, files, "findings.json", a.findings, floatText);
    HeldIsRead(c, files, "context_gold.json", a.contextGold, floatText);
    HeldIsRead(c, files, "impact_gold.json", a.impactGold, floatText);
  }

  /** Whatever the annotations and the prose: the map a build returns has the six golden files
      and no others; each parses at the class its name stands for and validates against the
      schema of that class; and together they read as the artifacts built. */
  lemma BuildFilesRead(c: Catalogue, h: Digests, spec: Spec, floatText: real -> string)
    requires Ships(c) && SchemaReady(c)
    ensures Loaded(Opened(h, spec))
    ensures var r := Payloads(Opened(h, spec));
      r.Done? ==>
        FilesAreGood(c, r.value, floatText) && Assemble(Opened(h, spec)) == Done(ReadFiles(c, r.value, floatText))
  {
    BuildSurvives(c, h, spec, floatText);
    if Payloads(Opened(h, spec)).Done? {
      PayloadsAreGood(c, Assemble(Opened(h, spec)).value, floatText);
      PayloadsRead(c, Assemble(Opened(h, spec)).value, floatText);
    }
  }

  /** Two fixtures that build the same files build the same artifacts. */
  lemma SameFilesSameArtifacts(h: Digests, spec: Spec, h': Digests, spec': Spec)
    requires Loaded(Opened(h, spec)) && Payloads(Opened(h, spec)).Done?
    requires Loaded(Opened(h', spec')) && Payloads(Opened(h', spec')) == Payloads(Opened(h, spec))
    ensures Assemble(Opened(h, spec)) == Assemble(Opened(h', spec'))
  {
    var c := LibraryShips();
    BuildFilesRead(c, h, spec, _ => "");
    BuildFilesRead(c, h', spec', _ => "");
  }

  /** And have the same annotations, as far as a build keeps them, whatever digests they were
      built with. */
  lemma SameFilesSameAnnotations(h: Digests, spec: Spec, h': Digests, spec': Spec)
    requires Loaded(Opened(h, spec)) && Payloads(Opened(h, spec)).Done?
    requires Loaded(Opened(h', spec')) && Payloads(Opened(h', spec')) == Payloads(Opened(h, spec))
    ensures KeptSpec(Opened(h, spec)) == KeptSpec(Opened(h', spec'))
  {
    SameFilesSameArtifacts(h, spec, h', spec');
    OpenedIsStocked(h, spec);
    OpenedIsStocked(h', spec');
    AnnotationsAreRead(Opened(h, spec));
    AnnotationsAreRead(Opened(h', spec'));
  }
}
