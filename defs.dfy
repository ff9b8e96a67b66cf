/** The definitions a run works on: pages with their elements, scenarios with
    their flow of steps, testcases, rows of test data and the run metadata that
    the orchestrator writes for the worker. All of them are read-only inputs of
    the engine; they reach it through the runtime snapshot. */
module Defs {
  import opened Wrappers
  import opened Js

  /** One element of a page. `locator` is the capability string the driver
      resolves; the other descriptors serve particular handlers (pagination,
      toggle labels, dropdowns). A descriptor the page does not carry is "". */
  datatype ElementDef = ElementDef(
    name: string,
    locator: string,
    requiredJobTitleLocator: string,
    numberOfPages: string,
    nextPage: string,
    onLocator: string,
    offLocator: string,
    dropdownLocator: string)

  /** A page definition: its name (the `page` field, "" when absent) and its
      elements. */
  datatype PageDef = PageDef(page: string, elements: seq<ElementDef>)

  /** The `type` field of a step: "step", "assert", "output", or anything else. */
  datatype StepKind = ActionKind | AssertKind | OutputKind | OtherKind

  /** One entry of a scenario's `flow`. Fields a step does not carry are ""
      (or `undefined` for `expected`); which of them matter depends on `kind`. */
  datatype Step = Step(
    kind: StepKind,
    page: string,
    element: string,
    action: string,
    assertType: string,
    expected: Value,
    key: string)

  datatype Scenario = Scenario(scenarioId: string, name: string, flow: seq<Step>)

  datatype Testcase = Testcase(testcaseId: string, name: string, scenarios: seq<string>)

  /** One `{id, value}` item of a test-data row; `id` is a step id. */
  datatype DataItem = DataItem(id: string, value: Value)

  /** The chosen test-data row of a testcase; `None` when the chosen row does
      not exist (`rows[row_used - 1]` is undefined and disappears from the
      JSON). */
  datatype TestData = TestData(testcaseId: string, data: Option<seq<DataItem>>)

  /** The `run.json` record. */
  datatype RunMeta = RunMeta(
    testcaseCount: nat,
    scenarioCount: nat,
    pageCount: nat,
    runMode: string,
    reportName: string,
    createdAt: string,
    url: string,
    email: string,
    password: string,
    userId: string)
}
