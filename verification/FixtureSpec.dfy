/** The annotations of one fixture: `def.json` as parsed, with each scene's prose read in
    and its line endings normalised. */
module FixtureSpec {
  import opened JsonValues
  import opened Options

  datatype Scene = Scene(id: string, title: string, text: string)

  datatype Cite = Cite(scene: string, quote: string)

  datatype Plan = Plan(id: string, kind: string, text: string, authority: string, locked: bool)

  datatype Record = Record(
    id: string, kind: string, subject: string, pred: string, value: Option<Json>, position: string,
    authority: string, povVisibility: seq<string>, evidence: seq<Cite>, note: Option<string>)

  datatype GoldFinding = GoldFinding(
    id: string, category: string, subtype: Option<string>, status: string, severity: string,
    ruleId: Option<string>, message: string, claim: seq<Member>, primary: Cite, supporting: seq<Cite>,
    dependencies: seq<string>)

  /** A context target cites a quote, or else names a record, or else a plan. */
  datatype Target = Target(
    reason: string, scene: Option<string>, quote: Option<string>, record: Option<string>, plan: Option<string>)

  datatype Query = Query(
    id: string, operation: string, target: string, tokenBudget: int, pov: Option<string>, intent: Option<string>,
    mandatory: seq<Target>, forbidden: seq<Target>, notes: Option<string>)

  datatype Operation = Operation(
    kind: string, scene: Option<string>, quote: Option<string>, anchorQuote: Option<string>,
    newText: Option<string>, entity: Option<string>, detail: seq<Member>)

  datatype Change = Change(
    kind: string, subject: Option<string>, pred: Option<string>, before: Option<Json>, after: Option<Json>)

  datatype Expectation = Expectation(target: string, impact: string, note: Option<string>)

  datatype Scenario = Scenario(
    id: string, description: string, declaredIntent: Option<string>, operations: seq<Operation>,
    changes: seq<Change>, expected: seq<Expectation>)

  datatype Spec = Spec(
    fixtureId: string, bookTitle: string, scenes: seq<Scene>, plans: seq<Plan>, records: seq<Record>,
    findings: seq<GoldFinding>, derivedNodes: seq<string>, queries: seq<Query>, scenarios: seq<Scenario>)
}
