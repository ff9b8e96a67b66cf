/** Everything the core throws, as values. */
module Errors {
  import opened Js
  import opened Driver

  datatype Error =
    // data store
    | UserIdRequired
    | MissingOutput(userId: string, testcaseId: string, scenarioId: string, key: string)
    // flow interpreter
    | PageNotFound(page: string)
    | ElementNotFound(element: string, page: string)
    | NoPageContext                          // an element step before any page
    | NotVisibleInTime(selector: string)
    | DriverFailure(call: Call)
    | NotAString(operation: string)          // a string method applied to a non-string
    | NotIterable(value: Value)              // `for (const x of v)` over a non-iterable
    | NoDigitsInPagination(text: string)
    | JobNotFound(jobId: Value, totalPages: nat)
    | InvalidCheckboxAction(desired: string)
    | AssertionFailed(actual: string, expected: Value)
    | NotFoundInList(expected: Value)
    | JobIdNotInUrl(url: string)
    | UnknownOutputAction(action: string)
    // composer
    | ScenarioNotFound(scenarioId: string)
    | NoTestData(testcaseId: string)
    // snapshot
    | RuntimeDirNotSet
    | FileNotFound(path: string)
    | MalformedFile(path: string)
    | InvalidWriterInput
    // orchestrator
    | NoTestcasesFound
    | MainDataNotFound
}
