# A verified model of a metadata-driven test runner

The system runs browser tests that are described as data, not code. A user
stores pages (named elements with locators), scenarios (a flow of steps over
those pages) and testcases (a list of scenario ids plus a row of test data).
A server route starts a run, and the server's orchestrator prepares it in two
steps:

- it fetches the closure of definitions the testcases need;
- it writes them as a runtime snapshot of five JSON files under
  `runtime/user_<id>`.

It then launches a worker. The worker loads the snapshot. For every testcase
it slices the data row per scenario, resolves `{scenario.key}` placeholders
against the outputs earlier scenarios stored, and interprets each scenario's
flow against the browser.

This project models that core in Dafny and proves properties of the model.
There is one module per source file, plus a few shared modules.

| module | models |
|---|---|
| `OutputStore` (data_store.dfy) | `DataStore`, the per-user output store user → testcase → scenario → key → value, as a class over a nested `map` |
| `Placeholder` (placeholder.dfy) | the full-string placeholder pattern of the resolver |
| `Resolver` (resolver.dfy) | `resolveScenarioData`: a loop method proved equal to a recursive definition, and that definition proved equal to a field-by-field reference |
| `EngineCore`, `Handlers`, `Assertions`, `Engine` | `MetaEngine`: page and element lookup, `escapeRegex`, the `saveJobID` URL extraction, every action handler, the assertion engine, output actions, and `runScenario` over a flow |
| `Composer` (composer.dfy) | the test body of `metaRunner.spec.js`: `scenarioMap`, `injected0`, `injected1`, the per-testcase scenario loop and the single `resetUser` before the suite |
| `Files`, `ConfigLoader`, `RuntimeWriter` | the runtime snapshot as a map from path to parsed document: the writer that wipes and refills the user's directory, and the loaders that read it back |
| `RunPipeline` (run_pipeline.dfy) | `currentRuns` as a class of per-user run records, `executeRunPipeline`, and the close and error handlers |
| `RunRoute` (run_route.dfy) | the guard of `POST /runTestcases` |

The shared modules are these:

- `Js` holds JavaScript values and the string built-ins the code relies on: `trim`, ASCII `toLowerCase`, `split`, `join`, decimal formatting.
- `Driver` is the browser as the engine sees it. A `World` answers every question, and decides whether any call fails, as a function of the history of calls issued so far. Questions are recorded in the history too, so checks, polls and clicks can be counted.
- `Defs` holds the definitions: pages, elements, steps, scenarios, testcases, test data and the `run.json` record.
- `Errors` holds every error the code throws, as a value.
- `Wrappers` holds `Option`, `Result` and `Outcome`.

Code that mutates state is modelled as state: the store, the run registry, the
file system and the driver's history. Code that loops is modelled by methods
with loop invariants, each proved equal to a specification function. The
properties are proved about those functions.

The database, the clock, the child process and the working directory are
parameters:

- every query is a function of its arguments and the user id (`Db`, `RouteDb`);
- `startedAt`, `failedAt` and `createdAt` are clock readings passed in;
- `pid` stands for the spawned child.

A falsy user id (`undefined`, `null`, `0`, `""`) is modelled as `""`.

### Where the code and its written description differ

The model follows the code in each case:

- A run whose worker exits with code 0 goes back to `idle`, not to a separate "completed" status (server/runPipeline.js:173).
- Autocomplete clicks the exact match if there is one, else the first option. A skill of `multiSelectCreate` clicks the exact option, else the "Create …" option. There is no third fallback tier (framework/utils/metaEngine.js:216-226, 256-284).
- A missing placeholder reference fails the whole `resolveScenarioData` call; no partially resolved object is returned (framework/utils/resolveScenarioData.js:45-50).

## Model

| member | source | states |
|---|---|---|
| OutputStore.DataStore.constructor | framework/utils/dataStore.js:2-5 | a new store holds no outputs |
| OutputStore.DataStore.EnsureContainer | framework/utils/dataStore.js:8-20 | a falsy user id fails with "userId is required" and changes nothing; otherwise the user, testcase and scenario containers exist afterwards and existing containers are kept |
| OutputStore.WithContainer | framework/utils/dataStore.js:11-19 | afterwards the three levels exist, the only new user is `u`, and every path reads as before |
| OutputStore.DataStore.SetScenarioOutput | framework/utils/dataStore.js:23-26 | a falsy user id fails and changes nothing; otherwise the store becomes the old one with the value written at its path |
| OutputStore.GetAfterSet | framework/utils/dataStore.js:23-31 | a read after a write of the same path returns the written value, whatever was there before |
| OutputStore.SetChangesOnlyItsPath | framework/utils/dataStore.js:8-26 | a write leaves every other user, testcase, scenario and key reading as before |
| OutputStore.ResolvePlaceholder | framework/utils/dataStore.js:44-54 | succeeds exactly when the stored value is defined, returns it, and otherwise fails with an error naming user, testcase, scenario and key |
| OutputStore.ScenarioAllAgreesWithLookup | framework/utils/dataStore.js:29-36 | every key `getScenarioAll` returns reads as `getScenarioOutput` reads it, every key with a defined output is among them, and a missing container gives `{}` |
| OutputStore.TestcaseAllAgreesWithScenarioAll | framework/utils/dataStore.js:39-41 | `getTestcaseAll` is empty for a missing testcase and holds each scenario container `getScenarioAll` returns |
| OutputStore.DataStore.ResetUser | framework/utils/dataStore.js:57-60 | a falsy user id fails and changes nothing; otherwise the user's container becomes empty |
| OutputStore.ResetUserIsolates | framework/utils/dataStore.js:57-60 | after a reset nothing of the user reads as defined, and every other user's container is exactly as before |
| OutputStore.DataStore.ResetAll | framework/utils/dataStore.js:63-65 | afterwards the store is empty and every read is `undefined` |
| Placeholder.MatchPlaceholderSound | framework/utils/resolveScenarioData.js:24-42 | every match is a brace, blanks, an identifier of `[a-zA-Z0-9_-]`, a dot, an identifier, blanks and a brace, with the two identifiers as its groups |
| Placeholder.MatchPlaceholderComplete | framework/utils/resolveScenarioData.js:24-42 | every string of that form matches, with its scenario id and key as the groups |
| Placeholder.EmbeddedIsNotPlaceholder | framework/utils/resolveScenarioData.js:24-39 | text before the opening brace, or text after the closing brace that does not end in a brace, makes the whole string a non-match, so such embedded placeholders are not interpolated |
| Resolver.ResolveScenarioData | framework/utils/resolveScenarioData.js:17-56 | the method computes the resolver's definition on the store's current outputs; it has no `modifies` clause, so it never writes the store |
| Resolver.ResolveAll | framework/utils/resolveScenarioData.js:20-53 | the loop over `Object.entries` fills `resolved` as the recursive definition does, stopping at the first failing field |
| Resolver.ResolveValue | framework/utils/resolveScenarioData.js:28-52 | a non-string or a string that is not a placeholder is kept; a placeholder is read from the store |
| Resolver.ResolveEntriesIsPointwise | framework/utils/resolveScenarioData.js:26-53 | for distinct keys, filling `resolved` field by field equals resolving every field on its own, in order |
| Resolver.ResolveDataObject | framework/utils/resolveScenarioData.js:17-56 | on an object the resolver equals that field-by-field reference |
| Resolver.ResolvedPairsShape | framework/utils/resolveScenarioData.js:26-53 | the reference keeps every field id in place, succeeds exactly when every field resolves, and otherwise fails with the first failing field's error |
| Resolver.ResolvedPairsFirstError | framework/utils/resolveScenarioData.js:44-52 | a failure carries the error of a field all of whose predecessors resolve |
| Resolver.ResolveKeepsFields | framework/utils/resolveScenarioData.js:20-53 | a successful result has the same field ids in the same order, and each value equals that field resolved on its own |
| Resolver.ResolveFailsOnMissingOutput | framework/utils/resolveScenarioData.js:41-52 | the call fails exactly when some field is a placeholder whose output is undefined, and the error names a placeholder whose output is undefined |
| Resolver.ResolveLiteralIsIdentity | framework/utils/resolveScenarioData.js:28-38 | an object without placeholder-shaped strings resolves to itself |
| Resolver.NonObjectUnchanged | framework/utils/resolveScenarioData.js:18 | a value that is not an object or array is returned as it is |
| EngineCore.WaitForElement | framework/utils/metaEngine.js:28-38 | one wait for visibility is issued; it passes exactly when the driver does not fail it, and otherwise fails with "not visible in time" for the locator |
| EngineCore.GetPageConfig | framework/utils/metaEngine.js:12-16 | succeeds exactly for a configured page name, with its configuration, and otherwise fails with "Page not found" |
| EngineCore.FindElement | framework/utils/metaEngine.js:19 | the index of the first element with the name, or the length when there is none |
| EngineCore.GetElement | framework/utils/metaEngine.js:18-25 | needs a page context; succeeds exactly when some element has the name, returns the first such element, and otherwise fails naming element and page |
| EngineCore.EscapeRegex | framework/utils/metaEngine.js:465-467 | escaping never shortens the text |
| EngineCore.EscapeRegexRoundTrip | framework/utils/metaEngine.js:465-467 | the escaped text is a literal pattern, and unescaping it gives back the text |
| EngineCore.EscapePlainText | framework/utils/metaEngine.js:465-467 | text without special characters is left as it is |
| EngineCore.DigitsAt | framework/utils/metaEngine.js:355 | the length of the maximal run of digits at a position |
| EngineCore.ExtractJobIdPosition | framework/utils/metaEngine.js:355 | a found id sits at a position where `/j/`, digits and `/` match, with no match before it |
| EngineCore.ExtractJobIdSound | framework/utils/metaEngine.js:355-361 | a found id is a nonempty digit run at the leftmost match of `/\/j\/(\d+)\//` |
| EngineCore.ExtractJobIdComplete | framework/utils/metaEngine.js:355-361 | a URL `pre/j/<digits>/post` with no earlier match yields those digits |
| Handlers.ToggleAlreadySet | framework/utils/metaEngine.js:151-166 | when on is wanted and the on-label shows, or off is wanted and the off-label shows, the toggle only waits and looks: no click |
| Handlers.ToggleClicksOnce | framework/utils/metaEngine.js:151-175 | the toggle clicks at most once; a passing toggle that clicked ends by asserting the label of the wanted state (on for yes/private/on/true, else off) |
| Handlers.ToggleClicksWhenUnset | framework/utils/metaEngine.js:151-175 | a toggle not showing the wanted label is clicked exactly once after the two looks; after a passing click the wanted state's label is expected and decides the outcome |
| Handlers.CheckboxRejectsOtherValues | framework/utils/metaEngine.js:177-197 | a desired value other than check/uncheck (after lower-casing and trimming) fails with "Invalid checkbox action" once the box was read |
| Handlers.CheckboxIdempotent | framework/utils/metaEngine.js:177-194 | a box already in the wanted state is never clicked: wait, read, expect |
| Handlers.CheckboxPassMeansState | framework/utils/metaEngine.js:184-194 | a passing checkbox step ends with a passing expectation of the wanted state |
| Handlers.TrimAll | framework/utils/metaEngine.js:247 | one entry per option text, each trimmed, in order, proved from the recursion |
| Handlers.FirstExact | framework/utils/metaEngine.js:251-253 | a found option equals the value ignoring case; none found means no option does |
| Handlers.FirstExactIsFirst | framework/utils/metaEngine.js:251-253 | the option found is the first one equal to the value ignoring case: every earlier option differs |
| Handlers.ClickOption | framework/utils/metaEngine.js:269-270 | a passing click scrolls the option into view and force-clicks its first match |
| Handlers.AutocompletePrefersExact | framework/utils/metaEngine.js:251-274 | with an exact option that the strict pattern finds, that option is clicked and nothing else |
| Handlers.AutocompleteFallsBackToFirst | framework/utils/metaEngine.js:276-287 | without an exact option the first option is clicked when there is one, and nothing is clicked otherwise |
| Handlers.SelectIgnoresFill | framework/utils/metaEngine.js:290-302 | `select` passes exactly when the wait, the click, the option's wait and the option's click pass; a failing `fill` is ignored |
| Handlers.SkillsOf | framework/utils/metaEngine.js:203 | `for…of` over an array yields its items, over a string its characters, over anything else nothing iterable |
| Handlers.Chars | framework/utils/metaEngine.js:203 | a string iterates as one one-character string per character, in order, proved from the recursion |
| Handlers.OptionTexts | framework/utils/metaEngine.js:212-213 | one entry per option text, each trimmed and lower-cased, in order, proved from the recursion |
| Handlers.RunMultiSelectCreate | framework/utils/metaEngine.js:199-230 | the loop over the skills computes the handler's definition |
| Handlers.SelectSkillClicksOneOption | framework/utils/metaEngine.js:203-228 | one skill only extends the history and, when it passes, clicks exactly one option, the one chosen from the option texts |
| Handlers.SelectSkillsOnePerSkill | framework/utils/metaEngine.js:199-230 | a passing `multiSelectCreate` clicks exactly one option per skill |
| Handlers.FirstDigitRunFrom | framework/utils/metaEngine.js:126 | `text.match(/\d+/)`: a nonempty digit run, or none when the text has no digit |
| Handlers.DigitsValueOfDecimal | framework/utils/metaEngine.js:126 | `parseInt` of a number's decimal form is the number |
| Handlers.FindJobTitle | framework/utils/metaEngine.js:117-149 | the paging loop computes the search's definition |
| Handlers.SearchPagesBounded | framework/utils/metaEngine.js:130-144 | the search only extends the history and checks the title's visibility at most once per page |
| Handlers.SearchPagesNextClicks | framework/utils/metaEngine.js:130-144 | the next-page button is pressed at most `totalPages - 1` times |
| Handlers.SearchPagesClicksVisibleTitle | framework/utils/metaEngine.js:130-137 | a passing search ends by clicking the title right after seeing it visible |
| Handlers.SearchPagesStopsAtVisible | framework/utils/metaEngine.js:130-137 | the search stops at the first page where the title is visible: that check is the last call but the title click, which decides the outcome |
| Handlers.SearchPagesNotFound | framework/utils/metaEngine.js:130-148 | a title that never shows throws "not found after checking N pages", after one check per page and one next-page click between pages |
| Assertions.CleanListMeaning | framework/utils/metaEngine.js:330-332 | the cleaned list holds exactly the nonempty trimmed, lower-cased item texts |
| Assertions.PollAttempts | framework/utils/metaEngine.js:328-337 | the poll loop for any number of attempts computes the poll's definition |
| Assertions.PollArrayContains | framework/utils/metaEngine.js:327-338 | `arrayContains` is the poll limited to 5 attempts |
| Assertions.PollListBounded | framework/utils/metaEngine.js:327-338 | at most one read per attempt; success means the last read listed the expected value; failure is "not found in list" |
| Assertions.PollListExhausts | framework/utils/metaEngine.js:327-338 | a value never listed fails after exactly one read and one 300 ms pause per attempt |
| Assertions.UpperCaseNeverListed | framework/utils/metaEngine.js:330-334 | an expected value containing an upper-case letter never matches, because only the items are lower-cased |
| Assertions.PerformAssert | framework/utils/metaEngine.js:305-348 | the assertion method, case by case over the assert type, computes the assertion's definition |
| Assertions.ContainsMeansSubstring | framework/utils/metaEngine.js:322-325 | `contains` passes exactly when the expected string occurs in the element's text |
| Assertions.ValueMeansEqual | framework/utils/metaEngine.js:340-343 | `value` passes exactly when the input value equals the expected value |
| Assertions.UnknownAssertOnlyWaits | framework/utils/metaEngine.js:345-346 | an unknown assert type only waits for the element and passes |
| Engine.UploadItems | framework/utils/metaEngine.js:70-74 | each file name is joined to `<cwd>/uploadFiles`, in order; a non-string name fails |
| Engine.UploadFiles | framework/utils/metaEngine.js:65-81 | an array gives one path per item; a string gives one path |
| Engine.PerformAction | framework/utils/metaEngine.js:41-114 | the dispatch method computes the action's definition |
| Engine.ActionWaitsFirst | framework/utils/metaEngine.js:42-46 | an element named other than `JobTitle` is waited for first, and a failed wait stops the action |
| Engine.UploadSetsNamedFiles | framework/utils/metaEngine.js:65-74 | an upload of names sets exactly their paths as input files |
| Engine.UnknownActionOnlyWaits | framework/utils/metaEngine.js:42-112 | an unknown action adds no call of its own and passes: it is the element wait alone for a waited-for element, no call otherwise |
| Engine.OutputAction | framework/utils/metaEngine.js:350-367 | `saveJobID` reads the URL and fails with "Job ID not found in URL" when there is no match; any other action fails as unknown |
| Engine.SaveJobIdIsFromUrl | framework/utils/metaEngine.js:353-361 | a saved id is the digit run of the leftmost `/j/<digits>/` in the URL |
| Engine.SaveJobIdFindsId | framework/utils/metaEngine.js:353-361 | a URL holding `/j/<id>/` with no earlier match yields `id` |
| Engine.Trims | framework/utils/metaEngine.js:415 | one entry per piece, each trimmed, in order, proved from the recursion |
| Engine.NonEmptyMeaning | framework/utils/metaEngine.js:416 | `filter(Boolean)` keeps exactly the nonempty pieces |
| Engine.ListData | framework/utils/metaEngine.js:409-419 | list data is always an array: an array is kept, a non-string is wrapped as `[v]` |
| Engine.ListDataOfEmpty | framework/utils/metaEngine.js:412-416 | `""` becomes `[]` |
| Engine.ListDataOfTwo | framework/utils/metaEngine.js:412-416 | `"a, b"` becomes `["a", "b"]` |
| Engine.StepBody | framework/utils/metaEngine.js:398-460 | a step never changes the current page or its configuration |
| Engine.SkippedStepIssuesNothing | framework/utils/metaEngine.js:404-428 | a data step with no data for `<scenario_id>_<index>` is skipped without a driver call |
| Engine.EmptyOrNullIsNoData | framework/utils/metaEngine.js:420-428 | `""` or `null` as data skips every data step except the two list actions |
| Engine.DataStepGetsItsData | framework/utils/metaEngine.js:420-432 | other present data reaches the action unchanged |
| Engine.EmptyListIsPerformed | framework/utils/metaEngine.js:409-432 | `multiSelectCreate` with `""` is performed with `[]`, not skipped |
| Engine.OtherActionGetsNull | framework/utils/metaEngine.js:401-432 | an action outside the data-required set is performed with `null` data |
| Engine.AssertNeverSkipped | framework/utils/metaEngine.js:438-444 | an assertion always runs, against the scenario data's value when defined, else the step's `expected` |
| Engine.ElementBeforeAnyPage | framework/utils/metaEngine.js:386-399 | an element step before any page fails for lack of a page context |
| Engine.UnknownPageStops | framework/utils/metaEngine.js:393-396 | switching to an unknown page stops the flow with "Page not found" |
| Engine.OutputStepStoresJobId | framework/utils/metaEngine.js:449-457 | a passing `saveJobID` step stores the URL's id under user, testcase, scenario and key |
| Engine.StepOutputsIsolated | framework/utils/metaEngine.js:449-457 | a step writes no other user's, testcase's or scenario's outputs |
| Engine.RunFlowOutputsIsolated | framework/utils/metaEngine.js:389-461 | neither does a whole flow |
| Engine.MetaEngine.constructor | framework/utils/metaEngine.js:6-9 | the engine keeps its page, its page configurations, the output store and the working directory |
| Engine.MetaEngine.RunStep | framework/utils/metaEngine.js:389-460 | one loop turn: page switch, then the step; the new page, configuration, history and store are the step's definition |
| Engine.MetaEngine.RunBody | framework/utils/metaEngine.js:398-460 | the step by its type, on the current page |
| Engine.MetaEngine.RunAction | framework/utils/metaEngine.js:398-433 | an action step's driver calls and outcome are its definition |
| Engine.MetaEngine.RunAssert | framework/utils/metaEngine.js:438-444 | an assert step's driver calls and outcome are its definition |
| Engine.MetaEngine.RunOutput | framework/utils/metaEngine.js:449-460 | an output step's driver calls, store write and outcome are its definition |
| Engine.MetaEngine.RunScenario | framework/utils/metaEngine.js:369-462 | `runScenario` starts with no page, runs the flow in order and stops at the first failure; its history and store are the flow's definition |
| Composer.BuildScenarioMap | framework/tests/metaRunner.spec.js:14-17 | the loop builds the scenario map's definition |
| Composer.ScenarioMapLastWins | framework/tests/metaRunner.spec.js:14-17 | an id is a key exactly when some scenario has it, and maps to the last such scenario |
| Composer.BuildInjected0 | framework/tests/metaRunner.spec.js:74-76 | the loop builds `injected0`'s definition |
| Composer.DataByIdReadsLast | framework/tests/metaRunner.spec.js:74-76 | reading an id from `injected0` gives the value of the last item with that id |
| Composer.DataByIdAbsent | framework/tests/metaRunner.spec.js:74-76 | an id is missing exactly when no item has it |
| Composer.DataByIdLastWins | framework/tests/metaRunner.spec.js:74-76 | a present id holds the last item's value |
| Composer.BuildSlice | framework/tests/metaRunner.spec.js:84-90 | the loop builds `injected1`'s definition |
| Composer.SliceMeaning | framework/tests/metaRunner.spec.js:84-90 | `injected1` has exactly the step ids of data-required actions or asserts, each with `injected0`'s value, possibly undefined |
| Composer.SliceUnique | framework/tests/metaRunner.spec.js:84-90 | `injected1` has no key twice |
| Composer.FindTestData | framework/tests/metaRunner.spec.js:72 | a found entry has the testcase's id; none found means no entry has it |
| Composer.FindTestDataIsFirst | framework/tests/metaRunner.spec.js:72 | the entry found is the first with the testcase's id: no earlier entry has it |
| Composer.MissingTestDataStops | framework/tests/metaRunner.spec.js:72-74 | a testcase without test data fails before any scenario runs |
| Composer.UnknownScenarioStops | framework/tests/metaRunner.spec.js:79-82 | an id missing from the map fails with "Scenario not found" and runs nothing |
| Composer.ScenarioSeesItsSlice | framework/tests/metaRunner.spec.js:84-95 | a scenario receives, for each of its data step ids, the resolved `injected0` value and nothing else |
| Composer.RunScenariosIsolated | framework/tests/metaRunner.spec.js:79-95 | a testcase writes no outputs of other users or testcases |
| Composer.TestcaseIsolated | framework/tests/metaRunner.spec.js:68-95 | neither does a whole test body |
| Composer.SkippedTests | framework/tests/metaRunner.spec.js:19 | exactly the given number of results, every one skipped, proved from the recursion |
| Composer.RunTestcases | framework/tests/metaRunner.spec.js:19-69 | one result per testcase |
| Composer.SerialSkipsAfterFailure | framework/tests/metaRunner.spec.js:19-95 | in serial mode every testcase after a failed one is skipped, and a skipped one follows a failed or skipped one |
| Composer.OtherModesRunAll | framework/tests/metaRunner.spec.js:19-95 | in any other mode every testcase runs, whatever the earlier ones did |
| Composer.RunTestcasesIsolated | framework/tests/metaRunner.spec.js:68-95 | the testcases of one user leave every other user's outputs as they were |
| Composer.SuiteIsolatesUsers | framework/tests/metaRunner.spec.js:29-95 | the suite has one result per testcase and leaves other users' outputs alone |
| Composer.SuiteSerialShape | framework/tests/metaRunner.spec.js:19-95 | a serial suite, a failing `beforeAll` included, skips every testcase after the first failure |
| Composer.Runner.constructor | framework/tests/metaRunner.spec.js:14-17 | the runner holds the scenario map built from the loaded scenarios |
| Composer.Runner.RunTestcase | framework/tests/metaRunner.spec.js:70-95 | a test body's outcome, driver calls and store are the testcase's definition |
| Composer.Runner.RunSuite | framework/tests/metaRunner.spec.js:19-95 | `resetUser` once, then the test bodies in the configured mode; results, driver calls and store are the suite's definition |
| ConfigLoader.ReadDoc | framework/utils/configLoader.js:6-18 | an unset `RUNTIME_DIR`, a missing file and an unparsable file each fail with their own error; otherwise the parsed file is returned |
| ConfigLoader.RunJson | framework/utils/configLoader.js:6-18 | fails without `RUNTIME_DIR`; otherwise returns exactly the record in `run.json` |
| ConfigLoader.PageArray | framework/utils/configLoader.js:21-30 | fails without `RUNTIME_DIR`; otherwise returns exactly the array in `pages.json` |
| ConfigLoader.LoadPages | framework/utils/configLoader.js:21-43 | the loop computes `loadPages`' definition and fails without `RUNTIME_DIR` |
| ConfigLoader.PagesByNameKeys | framework/utils/configLoader.js:33-40 | a name is a key exactly when it is nonempty and some entry carries it |
| ConfigLoader.PagesByNameLastWins | framework/utils/configLoader.js:39 | each key holds the whole last entry with that name |
| ConfigLoader.LoadScenarios | framework/utils/configLoader.js:46-59 | fails without `RUNTIME_DIR`; otherwise returns exactly the array in `scenarios.json` |
| ConfigLoader.LoadTestCases | framework/utils/configLoader.js:62-75 | fails without `RUNTIME_DIR`; otherwise returns exactly the array in `testcases.json` |
| ConfigLoader.LoadTestData | framework/utils/configLoader.js:77-88 | fails without `RUNTIME_DIR`; otherwise returns exactly the array in `testdata.json` |
| Files.JoinPath | server/runtimeWriter.js:15-19 | the joined path lies below the directory and ends with the name |
| Files.WithoutTree | server/runtimeWriter.js:22-25 | the directory and everything below it are gone, everything else is kept |
| Files.FileSystem.RemoveTree | server/runtimeWriter.js:22-25 | the file system loses exactly the directory's tree |
| Files.FileSystem.WriteFile | server/runtimeWriter.js:33-36 | the file is created or replaced and nothing else changes |
| RuntimeWriter.WriterOutcome | server/runtimeWriter.js:6-19 | "Invalid input" unless the three arrays are arrays, checked first; then "userId is required" for a falsy id; otherwise the directory `runtime/user_<id>` |
| RuntimeWriter.WriteRuntimeFiles | server/runtimeWriter.js:5-76 | a rejected input changes no file; an accepted one leaves the old files minus the user's directory, plus the five files, and returns the directory |
| RuntimeWriter.SnapshotReplacesDir | server/runtimeWriter.js:15-72 | below the directory there are exactly the five files afterwards: snapshots never merge |
| RuntimeWriter.SnapshotKeepsOthers | server/runtimeWriter.js:15-72 | nothing outside the directory changes |
| RuntimeWriter.WriteThenLoad | server/runtimeWriter.js:33-76 | the loaders read back exactly the testcases, scenarios, pages by name and test data written; `run.json` has the three counts, `reportName` is `time`, and the login fields, mode and user are copied from the input |
| RunPipeline.RunRegistry.constructor | server/runPipeline.js:10 | no user has a run record |
| RunPipeline.RunRegistry.InitUserRun | server/runPipeline.js:13-24 | creates an idle record with every other field null only for a user without one, and returns the user's record |
| RunPipeline.RunRegistry.BeginRun | server/runPipeline.js:32-37 | the record becomes running since now, with `finishedAt`, `runtimeDir` and `process` null |
| RunPipeline.RunRegistry.StartRun | server/runPipeline.js:27-37 | the synchronous entry of `executeRunPipeline`: the record is running since now and otherwise empty, whatever it was; a record that was not running makes a permitted transition |
| RunPipeline.RunRegistry.SetRuntimeDir | server/runPipeline.js:120 | only the record's `runtimeDir` changes |
| RunPipeline.RunRegistry.SetProcess | server/runPipeline.js:153 | only the record's `process` changes |
| RunPipeline.RunRegistry.MarkFailed | server/runPipeline.js:190-197 | the record becomes failed, finished now, with no process |
| RunPipeline.RunRegistry.OnClose | server/runPipeline.js:170-177 | the record becomes idle for exit code 0 and failed otherwise, finished now, with no process; a running record makes a permitted transition |
| RunPipeline.RunRegistry.OnSpawnError | server/runPipeline.js:179-186 | the record becomes failed, finished now, with no process; a running record makes a permitted transition |
| RunPipeline.CloseStatus | server/runPipeline.js:173 | idle exactly for exit code 0, and never running |
| RunPipeline.HandlersEndTheRun | server/runPipeline.js:170-186 | both handlers move a running record out of the running state |
| RunPipeline.Dedup | server/runPipeline.js:52-54 | `[...new Set(xs)]` has the same members as `xs` and no duplicates |
| RunPipeline.DedupOfDistinct | server/runPipeline.js:52-54 | a list without duplicates is kept as it is |
| RunPipeline.ScenarioRefsMeaning | server/runPipeline.js:53 | the flattened scenario ids are exactly those some testcase lists |
| RunPipeline.FlowPages | server/runPipeline.js:65 | the flow's page names, step by step |
| RunPipeline.PageRefsMeaning | server/runPipeline.js:65 | the flattened page names are exactly those some step of some scenario names |
| RunPipeline.ScenarioIdsClosure | server/runPipeline.js:52-54 | the scenario ids fetched are the deduplicated union of the testcases' scenarios |
| RunPipeline.PageNamesClosure | server/runPipeline.js:64-66 | the page names fetched are the deduplicated union of the scenarios' flow pages |
| RunPipeline.ChosenRow | server/runPipeline.js:86-89 | a testcase's data is `rows[row_used - 1]`, absent when that row does not exist |
| RunPipeline.TestDataOf | server/runPipeline.js:86-89 | one entry per data row, in order |
| RunPipeline.BrowserArgsShape | server/runPipeline.js:134 | one `--project=<b>` per selected browser, in order |
| RunPipeline.PipelineInput | server/runPipeline.js:40-118 | no testcases fails with "No testcases found"; missing main data fails with "Main data not found"; otherwise the writer receives three arrays and the user |
| RunPipeline.ExecuteRunPipeline | server/runPipeline.js:26-198 | the record becomes running, then ends running with the runtime directory and process after a launch, or failed with `finishedAt` set and no process after an error; the files become the snapshot or stay unchanged |
| RunPipeline.ContinuePipeline | server/runPipeline.js:39-198 | the same from the running record on |
| RunPipeline.RecordAfterConsistent | server/runPipeline.js:170-197 | the record the pipeline leaves is consistent, and running exactly when the worker was launched |
| RunPipeline.LaunchSeesSnapshot | server/runPipeline.js:108-151 | the worker launched with `RUNTIME_DIR` loads exactly the testcases, closure scenarios, closure pages and chosen rows the pipeline fetched, and gets one `--project` argument per browser |
| RunPipeline.PipelineWritesOnlyUserDir | server/runPipeline.js:108-118 | no file outside the user's runtime directory changes |
| RunRoute.AdmitMeaning | server/routes/run.js:29-74 | a run is triggered exactly when the user has none running and the mode selects some testcase; otherwise the answer is 400 "A run is already in progress" or 400 "No testcases found to run", in that order |
| RunRoute.ByIdsUsesRequest | server/routes/run.js:54-56 | mode `byIds` runs the given ids, none when the field is absent |
| RunRoute.UnknownModeRejected | server/routes/run.js:33-74 | an unknown mode selects nothing and is rejected with 400 |
| RunRoute.RunTestcases | server/routes/run.js:24-103 | a rejected request changes no record and no file; a triggered one runs the pipeline on the selected ids and answers with their count |

## Left out

- The browser and Playwright: locators, `expect`, timeouts, `pressSequentially` delays and regular-expression text filters are driver calls whose answers and failures come from an abstract `World`. The 70 s and 10 s timeouts and every `waitForTimeout` are recorded as calls, not as time.
- Regular-expression syntax in `multiSelectCreate`'s options: the skill is put into `^skill$` and `Create…skill` without escaping, and the driver decides what such a filter matches.
- `replace` with `$` patterns in the job title locator: the replacement text is used literally.
- Numbers are unbounded integers. `parseInt` of the page count and JavaScript number precision are not modelled.
- Lower-casing is ASCII only. `trim` uses the JavaScript white-space set for ASCII and a few common code points.
- The SQL database: every query is a given function of its arguments and the user. The `testruns` insert and the returned `testrunId` of run.js are not modelled, nor is the 500 answer when a query throws.
- JSON text: a snapshot file holds the value it parses to. A file whose content has the wrong shape for its loader is reported as malformed. `JSON.parse` of the actual text is not modelled.
- `path.join` normalisation: paths are joined with `/` and not normalised.
- The `mkdirSync` of the runtime directory and of the worker's report directories, the `execution.log` stream, and stdout or stderr forwarding.
- The child process: `spawn` is reduced to a process id. Its end is the separate `OnClose` or `OnSpawnError` event on the registry.
- Concurrency. Playwright may run testcases in parallel (`test.describe.configure` with mode `parallel`), several users run at once, and the route does not await the pipeline. The model runs each of these sequentially. The route's check of the running status and the pipeline's setting of it are separated by awaits in the source, so two requests can both pass the check. The model does not capture that race.
- Worker restarts: outside serial mode Playwright starts a new worker after a failed test, which runs `beforeAll` (and `resetUser`) again before the next test. The model resets once; a testcase reads only its own outputs, so its results do not depend on that.
- The `beforeAll` login on one fixed site (framework/tests/metaRunner.spec.js:31-44), `resolvedData` and the allure attachments: they produce reports, not behaviour of the core.
- Console output of every module.
- `viewMode` is accepted by the route and the pipeline but never written to the snapshot, so the model drops it.
- Engine.MetaEngine.RunScenario: `scenarioData` defaults to `{}` in the source; the model always receives the resolved object the composer passes.
- Handlers.FindJobTitle: an element without `requiredJobTitleLocator` is given the empty locator; the source throws a `TypeError` at the `replace` (framework/utils/metaEngine.js:117-120), which fails the action like any other error.
- RunPipeline.ExecuteRunPipeline: `selectedBrowsers` is always a list. A request without it makes the source throw at the `map` (server/runPipeline.js:134) after the snapshot is written and `runtimeDir` is set, leaving a failed record with a runtime directory; the model does not take that path.
- Object keys are own properties only. The store's containers, the scenario map, `pagesByName` and the run registry are maps of the keys written into them, so a name a plain JavaScript object inherits (`__proto__`, `constructor`, `toString`, …) is not modelled: in the source, writing `__proto__` goes through its setter and reading such a name yields the inherited member (framework/utils/dataStore.js:25-30, framework/tests/metaRunner.spec.js:14-16, framework/utils/configLoader.js:33-39).
