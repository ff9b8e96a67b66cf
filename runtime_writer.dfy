/** The server's side of the runtime snapshot, server/runtimeWriter.js: the
    input is checked, the user's directory `runtime/user_<id>` below the
    server's working directory is removed and five files are written into it,
    the last one the `run.json` metadata record. */
module RuntimeWriter {
  import opened Wrappers
  import opened Errors
  import opened Defs
  import opened Files
  import ConfigLoader

  /** A value the writer receives as an array: it either is one or is not. */
  datatype JsonArray<T> = Array(items: seq<T>) | NotArray

  /** The site the worker logs into, from the user's main data. */
  datatype MainData = MainData(url: string, email: string, password: string)

  datatype WriterInput = WriterInput(
    testData: seq<TestData>,
    testcases: JsonArray<Testcase>,
    scenarios: JsonArray<Scenario>,
    pages: JsonArray<PageDef>,
    runMode: string,
    time: string,
    mainData: MainData,
    userId: string)

  /** `path.join(process.cwd(), "runtime", "user_" + userId)`. */
  function UserRuntimeDir(cwd: string, userId: string): string
  {
    JoinPath(JoinPath(cwd, "runtime"), "user_" + userId)
  }

  /** "Invalid input" is checked before the user id; then the directory is
      the result. */
  function WriterOutcome(cwd: string, input: WriterInput): (r: Result<string, Error>)
    ensures r.Ok? <==> input.testcases.Array? && input.scenarios.Array? && input.pages.Array? && input.userId != ""
    ensures !(input.testcases.Array? && input.scenarios.Array? && input.pages.Array?) ==> r == Err(InvalidWriterInput)
    ensures input.testcases.Array? && input.scenarios.Array? && input.pages.Array? && input.userId == "" ==>
              r == Err(UserIdRequired)
    ensures r.Ok? ==> r.value == UserRuntimeDir(cwd, input.userId)
  {
    if !input.testcases.Array? || !input.scenarios.Array? || !input.pages.Array? then Err(InvalidWriterInput)
    else if input.userId == "" then Err(UserIdRequired)
    else Ok(UserRuntimeDir(cwd, input.userId))
  }

  /** The `meta` record of an accepted input; `createdAt` is the clock's
      reading as an ISO string. */
  function Meta(input: WriterInput, createdAt: string): RunMeta
    requires input.testcases.Array? && input.scenarios.Array? && input.pages.Array?
  {
    RunMeta(
      testcaseCount := |input.testcases.items|,
      scenarioCount := |input.scenarios.items|,
      pageCount := |input.pages.items|,
      runMode := input.runMode,
      reportName := input.time,
      createdAt := createdAt,
      url := input.mainData.url,
      email := input.mainData.email,
      password := input.mainData.password,
      userId := input.userId)
  }

  /** The five file names, in the order they are written. */
  const SnapshotNames: seq<string> := ["testcases.json", "scenarios.json", "pages.json", "testdata.json", "run.json"]

  /** The file map after an accepted write into `dir`. */
  function Snapshot(files: map<string, Doc>, dir: string, input: WriterInput, createdAt: string): map<string, Doc>
    requires input.testcases.Array? && input.scenarios.Array? && input.pages.Array?
  {
    WithoutTree(files, dir)
      [JoinPath(dir, "testcases.json") := TestcasesDoc(input.testcases.items)]
      [JoinPath(dir, "scenarios.json") := ScenariosDoc(input.scenarios.items)]
      [JoinPath(dir, "pages.json") := PagesDoc(input.pages.items)]
      [JoinPath(dir, "testdata.json") := TestDataDoc(input.testData)]
      [JoinPath(dir, "run.json") := MetaDoc(Meta(input, createdAt))]
  }

  /** `writeRuntimeFiles`: on success the directory is returned. */
  method WriteRuntimeFiles(fs: FileSystem, cwd: string, input: WriterInput, createdAt: string)
    returns (r: Result<string, Error>)
    modifies fs
    ensures r == WriterOutcome(cwd, input)
    ensures r.Err? ==> fs.files == old(fs.files)
    ensures r.Ok? ==> fs.files == Snapshot(old(fs.files), r.value, input, createdAt)
  {
    if !input.testcases.Array? || !input.scenarios.Array? || !input.pages.Array? {
      return Err(InvalidWriterInput);
    }
    if input.userId == "" {
      return Err(UserIdRequired);
    }
    var dir := UserRuntimeDir(cwd, input.userId);
    fs.RemoveTree(dir);
    fs.WriteFile(JoinPath(dir, "testcases.json"), TestcasesDoc(input.testcases.items));
    fs.WriteFile(JoinPath(dir, "scenarios.json"), ScenariosDoc(input.scenarios.items));
    fs.WriteFile(JoinPath(dir, "pages.json"), PagesDoc(input.pages.items));
    fs.WriteFile(JoinPath(dir, "testdata.json"), TestDataDoc(input.testData));
    var meta := Meta(input, createdAt);
    fs.WriteFile(JoinPath(dir, "run.json"), MetaDoc(meta));
    r := Ok(dir);
  }

  /** Snapshots never merge: below the directory there are exactly the five
      files afterwards, whatever was there before. */
  lemma SnapshotReplacesDir(files: map<string, Doc>, dir: string, input: WriterInput, createdAt: string, p: string)
    requires input.testcases.Array? && input.scenarios.Array? && input.pages.Array?
    requires Under(p, dir)
    ensures p in Snapshot(files, dir, input, createdAt) <==> exists i :: 0 <= i < |SnapshotNames| && p == JoinPath(dir, SnapshotNames[i])
  {
    if p in Snapshot(files, dir, input, createdAt) {
      var names := SnapshotNames;
      if p == JoinPath(dir, names[0]) {
      } else if p == JoinPath(dir, names[1]) {
      } else if p == JoinPath(dir, names[2]) {
      } else if p == JoinPath(dir, names[3]) {
      } else {
        assert p == JoinPath(dir, names[4]);
      }
    }
  }

  /** Nothing outside the directory is touched. */
  lemma SnapshotKeepsOthers(files: map<string, Doc>, dir: string, input: WriterInput, createdAt: string, p: string)
    requires input.testcases.Array? && input.scenarios.Array? && input.pages.Array?
    requires !Under(p, dir)
    ensures p in Snapshot(files, dir, input, createdAt) <==> p in files
    ensures p in files ==> Snapshot(files, dir, input, createdAt)[p] == files[p]
  {
  }

  /** The worker started with `RUNTIME_DIR` set to the returned directory reads
      back what was written: the same testcases, scenarios and test data, the
      pages keyed by name, and a `run.json` whose counts are the array
      lengths. */
  lemma WriteThenLoad(fs0: map<string, Doc>, cwd: string, input: WriterInput, createdAt: string)
    requires WriterOutcome(cwd, input).Ok?
    ensures var dir := WriterOutcome(cwd, input).value;
            var files := Snapshot(fs0, dir, input, createdAt);
            && ConfigLoader.LoadTestCases(dir, files) == Ok(input.testcases.items)
            && ConfigLoader.LoadScenarios(dir, files) == Ok(input.scenarios.items)
            && ConfigLoader.LoadPagesSpec(dir, files) == Ok(ConfigLoader.PagesByName(input.pages.items))
            && ConfigLoader.LoadTestData(dir, files) == Ok(input.testData)
            && ConfigLoader.RunJson(dir, files).Ok?
            && var m := ConfigLoader.RunJson(dir, files).value;
               && m.testcaseCount == |input.testcases.items|
               && m.scenarioCount == |input.scenarios.items|
               && m.pageCount == |input.pages.items|
               && m.runMode == input.runMode && m.reportName == input.time && m.createdAt == createdAt
               && m.url == input.mainData.url && m.email == input.mainData.email
               && m.password == input.mainData.password && m.userId == input.userId
  {
    var dir := WriterOutcome(cwd, input).value;
    assert dir != "" by {
      assert |dir| >= 1;
    }
    var names := SnapshotNames;
    forall i, j | 0 <= i < j < |names|
      ensures JoinPath(dir, names[i]) != JoinPath(dir, names[j])
    {
      JoinPathInjective(dir, names[i], names[j]);
    }
  }
}
