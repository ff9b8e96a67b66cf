/** The run orchestrator of server/runPipeline.js: a per-user run record
    (`currentRuns`), the pipeline that fetches the closure of definitions a
    run needs, writes the runtime snapshot and launches the worker, and the
    worker's `close`/`error` handlers. The database is a set of query
    functions, the clock a reading passed in, the child process the id it is
    given. */
module RunPipeline {
  import opened Wrappers
  import opened Errors
  import opened Defs
  import opened Files
  import opened RuntimeWriter
  import ConfigLoader

  datatype Status = Idle | Running | Failed

  /** A clock reading. */
  type Time = nat

  /** `currentRuns[userId]`; `None` stands for `null`, `process` for the
      child process handle. */
  datatype RunRecord = RunRecord(
    status: Status,
    startedAt: Option<Time>,
    finishedAt: Option<Time>,
    runtimeDir: Option<string>,
    process: Option<nat>)

  /** The record `initUserRun` creates. */
  const FreshRecord := RunRecord(Idle, None, None, None, None)

  /** What every record keeps: a running run has not finished, a run that is
      not running has no process, and only a record that never ran lacks a
      start time. */
  predicate Consistent(rec: RunRecord)
  {
    && (rec.status == Running ==> rec.finishedAt.None?)
    && (rec.status != Running ==> rec.process.None?)
    && (rec.status != Idle ==> rec.startedAt.Some?)
    && (rec.finishedAt.Some? ==> rec.startedAt.Some?)
  }

  /** A status change the orchestrator can make. */
  predicate Transition(a: Status, b: Status)
  {
    (a != Running && b == Running) || (a == Running && b != Running)
  }

  class RunRegistry {
    var runs: map<string, RunRecord>

    predicate Valid()
      reads this
    {
      forall u :: u in runs ==> Consistent(runs[u])
    }

    constructor ()
      ensures runs == map[] && Valid()
    {
      runs := map[];
    }

    /** `initUserRun`: a fresh idle record only when the user has none. */
    method InitUserRun(u: string) returns (rec: RunRecord)
      requires Valid()
      modifies this
      ensures Valid()
      ensures u in old(runs) ==> runs == old(runs)
      ensures u !in old(runs) ==> runs == old(runs)[u := FreshRecord]
      ensures u in runs && rec == runs[u]
    {
      if u !in runs {
        runs := runs[u := FreshRecord];
      }
      rec := runs[u];
    }

    /** The run begins: running, started now, every other field reset. */
    method BeginRun(u: string, now: Time)
      requires Valid() && u in runs
      modifies this
      ensures Valid()
      ensures runs == old(runs)[u := RunRecord(Running, Some(now), None, None, None)]
    {
      runs := runs[u := RunRecord(Running, Some(now), None, None, None)];
    }

    /** The synchronous start of `executeRunPipeline`: the record is made if
        need be, then marked running. */
    method StartRun(u: string, now: Time)
      requires Valid()
      modifies this
      ensures Valid()
      ensures runs == old(runs)[u := RunRecord(Running, Some(now), None, None, None)]
      ensures u in old(runs) && old(runs)[u].status != Running ==> Transition(old(runs)[u].status, runs[u].status)
    {
      var _ := InitUserRun(u);
      BeginRun(u, now);
    }

    method SetRuntimeDir(u: string, dir: string)
      requires Valid() && u in runs
      modifies this
      ensures Valid()
      ensures runs == old(runs)[u := old(runs)[u].(runtimeDir := Some(dir))]
    {
      runs := runs[u := runs[u].(runtimeDir := Some(dir))];
    }

    /** `currentRun.process = child`, right after the spawn of a running run. */
    method SetProcess(u: string, pid: nat)
      requires Valid() && u in runs && runs[u].status == Running
      modifies this
      ensures Valid()
      ensures runs == old(runs)[u := old(runs)[u].(process := Some(pid))]
    {
      runs := runs[u := runs[u].(process := Some(pid))];
    }

    /** The pipeline's `catch` and the child's `error` handler: failed,
        finished now, no process. */
    method MarkFailed(u: string, now: Time)
      requires Valid() && u in runs && runs[u].startedAt.Some?
      modifies this
      ensures Valid()
      ensures runs == old(runs)[u := old(runs)[u].(status := Failed, finishedAt := Some(now), process := None)]
    {
      runs := runs[u := runs[u].(status := Failed, finishedAt := Some(now), process := None)];
    }

    /** The child's `close` handler: exit code 0 makes the record idle again,
        any other code (or none, after a signal) failed. */
    method OnClose(u: string, code: Option<int>, now: Time)
      requires Valid() && u in runs && runs[u].startedAt.Some?
      modifies this
      ensures Valid()
      ensures runs == old(runs)[u := old(runs)[u].(status := CloseStatus(code), finishedAt := Some(now), process := None)]
      ensures old(runs)[u].status == Running ==> Transition(old(runs)[u].status, runs[u].status)
    {
      runs := runs[u := runs[u].(status := CloseStatus(code), finishedAt := Some(now), process := None)];
    }

    /** The child's `error` handler. */
    method OnSpawnError(u: string, now: Time)
      requires Valid() && u in runs && runs[u].startedAt.Some?
      modifies this
      ensures Valid()
      ensures runs == old(runs)[u := old(runs)[u].(status := Failed, finishedAt := Some(now), process := None)]
      ensures old(runs)[u].status == Running ==> Transition(old(runs)[u].status, runs[u].status)
    {
      MarkFailed(u, now);
    }
  }

  /** The status a `close` event leaves: "idle" (not "completed") for exit
      code 0. */
  function CloseStatus(code: Option<int>): (s: Status)
    ensures s == Idle <==> code == Some(0)
    ensures s != Running
  {
    if code == Some(0) then Idle else Failed
  }

  /** A run's `close` and `error` handlers both end it. */
  lemma HandlersEndTheRun(code: Option<int>)
    ensures Transition(Running, CloseStatus(code)) && Transition(Running, Failed)
    ensures !Transition(Running, Running)
  {
  }

  // ---------------------------------------------------------------------
  // The closure of definitions a run needs
  // ---------------------------------------------------------------------

  predicate NoDuplicates(xs: seq<string>)
  {
    forall i, j :: 0 <= i < j < |xs| ==> xs[i] != xs[j]
  }

  /** `[...new Set(xs)]`: each value once, at the place it first occurs. */
  function Dedup(xs: seq<string>): (r: seq<string>)
    ensures forall x :: x in r <==> x in xs
    ensures NoDuplicates(r)
  {
    if xs == [] then []
    else
      var d := Dedup(xs[..|xs| - 1]);
      var x := xs[|xs| - 1];
      assert forall y :: y in xs <==> y in xs[..|xs| - 1] || y == x;
      if x in d then d else d + [x]
  }

  /** A list without repetitions is its own set. */
  lemma {:induction false} DedupOfDistinct(xs: seq<string>)
    requires NoDuplicates(xs)
    ensures Dedup(xs) == xs
  {
    if xs != [] {
      var init := xs[..|xs| - 1];
      DedupOfDistinct(init);
      assert xs[|xs| - 1] !in init;
      assert init + [xs[|xs| - 1]] == xs;
    }
  }

  /** `testcases.flatMap(tc => tc.scenarios)`. */
  function ScenarioRefs(tcs: seq<Testcase>): seq<string>
  {
    if tcs == [] then [] else tcs[0].scenarios + ScenarioRefs(tcs[1..])
  }

  lemma {:induction false} ScenarioRefsMeaning(tcs: seq<Testcase>, id: string)
    ensures id in ScenarioRefs(tcs) <==> exists i :: 0 <= i < |tcs| && id in tcs[i].scenarios
  {
    if tcs != [] {
      ScenarioRefsMeaning(tcs[1..], id);
      assert forall i :: 1 <= i < |tcs| ==> tcs[1..][i - 1] == tcs[i];
    }
  }

  /** `sc.flow.map(b => b.page)`. */
  function FlowPages(flow: seq<Step>): (r: seq<string>)
    ensures |r| == |flow| && forall i :: 0 <= i < |flow| ==> r[i] == flow[i].page
  {
    if flow == [] then [] else [flow[0].page] + FlowPages(flow[1..])
  }

  /** `scenarios.flatMap(sc => sc.flow.map(b => b.page))`. */
  function PageRefs(scs: seq<Scenario>): seq<string>
  {
    if scs == [] then [] else FlowPages(scs[0].flow) + PageRefs(scs[1..])
  }

  lemma {:induction false} PageRefsMeaning(scs: seq<Scenario>, name: string)
    ensures name in PageRefs(scs) <==>
              exists i, j :: 0 <= i < |scs| && 0 <= j < |scs[i].flow| && scs[i].flow[j].page == name
  {
    if scs != [] {
      PageRefsMeaning(scs[1..], name);
      assert forall i :: 1 <= i < |scs| ==> scs[1..][i - 1] == scs[i];
      if name in FlowPages(scs[0].flow) {
        var j :| 0 <= j < |scs[0].flow| && FlowPages(scs[0].flow)[j] == name;
      }
    }
  }

  /** The scenario ids to fetch: every id some testcase refers to, once. */
  function ScenarioIds(tcs: seq<Testcase>): seq<string>
  {
    Dedup(ScenarioRefs(tcs))
  }

  /** The page names to fetch: every page some step of a fetched scenario
      names, once. */
  function PageNames(scs: seq<Scenario>): seq<string>
  {
    Dedup(PageRefs(scs))
  }

  lemma ScenarioIdsClosure(tcs: seq<Testcase>, id: string)
    ensures id in ScenarioIds(tcs) <==> exists i :: 0 <= i < |tcs| && id in tcs[i].scenarios
    ensures NoDuplicates(ScenarioIds(tcs))
  {
    ScenarioRefsMeaning(tcs, id);
  }

  lemma PageNamesClosure(scs: seq<Scenario>, name: string)
    ensures name in PageNames(scs) <==>
              exists i, j :: 0 <= i < |scs| && 0 <= j < |scs[i].flow| && scs[i].flow[j].page == name
    ensures NoDuplicates(PageNames(scs))
  {
    PageRefsMeaning(scs, name);
  }

  // ---------------------------------------------------------------------
  // Test data rows and browser arguments
  // ---------------------------------------------------------------------

  /** One row of the test-data query: all rows of a testcase and the
      1-based number of the one to use. */
  datatype DataRow = DataRow(testcaseId: string, rows: seq<seq<DataItem>>, rowUsed: int)

  /** `{testcase_id, data: rows[row_used - 1]}`; an index outside the rows
      gives `undefined`. */
  function ChosenRow(row: DataRow): (t: TestData)
    ensures t.testcaseId == row.testcaseId
    ensures t.data.Some? <==> 1 <= row.rowUsed <= |row.rows|
    ensures t.data.Some? ==> t.data.value == row.rows[row.rowUsed - 1]
  {
    TestData(row.testcaseId, if 1 <= row.rowUsed <= |row.rows| then Some(row.rows[row.rowUsed - 1]) else None)
  }

  function TestDataOf(rows: seq<DataRow>): (r: seq<TestData>)
    ensures |r| == |rows|
    ensures forall i :: 0 <= i < |rows| ==> r[i] == ChosenRow(rows[i])
  {
    if rows == [] then [] else [ChosenRow(rows[0])] + TestDataOf(rows[1..])
  }

  /** `--project=<b>` for each selected browser, in order. */
  function BrowserArgs(browsers: seq<string>): seq<string>
  {
    if browsers == [] then [] else ["--project=" + browsers[0]] + BrowserArgs(browsers[1..])
  }

  /** One argument per browser, in order, each the flag followed by the
      browser's name. */
  lemma {:induction false} BrowserArgsShape(browsers: seq<string>)
    ensures |BrowserArgs(browsers)| == |browsers|
    ensures forall i :: 0 <= i < |browsers| ==>
              |BrowserArgs(browsers)[i]| == 10 + |browsers[i]|
              && BrowserArgs(browsers)[i][..10] == "--project="
              && BrowserArgs(browsers)[i][10..] == browsers[i]
  {
    if browsers != [] {
      BrowserArgsShape(browsers[1..]);
      var a := "--project=" + browsers[0];
      assert a[..10] == "--project=" && a[10..] == browsers[0];
      assert forall i :: 1 <= i < |browsers| ==> BrowserArgs(browsers)[i] == BrowserArgs(browsers[1..])[i - 1];
    }
  }

  // ---------------------------------------------------------------------
  // The pipeline
  // ---------------------------------------------------------------------

  /** The queries of the pipeline, each given the ids it asks for and the
      user id. */
  datatype Db = Db(
    testcases: (seq<string>, string) -> seq<Testcase>,
    scenarios: (seq<string>, string) -> seq<Scenario>,
    pages: (seq<string>, string) -> seq<PageDef>,
    testData: (seq<string>, string) -> seq<DataRow>,
    mainData: string -> seq<MainData>)

  /** Steps 1 to 3.2: what the pipeline hands the writer, or why it stops. */
  function PipelineInput(db: Db, testcaseIds: seq<string>, runMode: string, time: string, u: string): (r: Result<WriterInput, Error>)
    ensures |db.testcases(testcaseIds, u)| == 0 ==> r == Err(NoTestcasesFound)
    ensures |db.testcases(testcaseIds, u)| > 0 && |db.mainData(u)| == 0 ==> r == Err(MainDataNotFound)
    ensures r.Ok? ==> r.value.testcases.Array? && r.value.scenarios.Array? && r.value.pages.Array? && r.value.userId == u
  {
    var testcases := db.testcases(testcaseIds, u);
    if |testcases| == 0 then Err(NoTestcasesFound)
    else
      var scenarios := db.scenarios(ScenarioIds(testcases), u);
      var pages := db.pages(PageNames(scenarios), u);
      var testData := TestDataOf(db.testData(testcaseIds, u));
      var mains := db.mainData(u);
      if |mains| == 0 then Err(MainDataNotFound)
      else Ok(WriterInput(testData, Array(testcases), Array(scenarios), Array(pages), runMode, time, mains[0], u))
  }

  /** How the worker is launched: `npx playwright test` with these arguments,
      `RUNTIME_DIR` and `USER_ID` in its environment. */
  datatype Launch = Launch(runtimeDir: string, args: seq<string>, userId: string)

  function PipelineOutcome(db: Db, cwd: string, testcaseIds: seq<string>, browsers: seq<string>, runMode: string, time: string, u: string): Result<Launch, Error>
  {
    match PipelineInput(db, testcaseIds, runMode, time, u)
    case Err(e) => Err(e)
    case Ok(input) =>
      match WriterOutcome(cwd, input)
      case Err(e) => Err(e)
      case Ok(dir) => Ok(Launch(dir, BrowserArgs(browsers), u))
  }

  /** The user's record once the pipeline has launched the worker or
      stopped. */
  function RecordAfter(outcome: Result<Launch, Error>, startedAt: Time, failedAt: Time, pid: nat): RunRecord
  {
    match outcome
    case Ok(launch) => RunRecord(Running, Some(startedAt), None, Some(launch.runtimeDir), Some(pid))
    case Err(_) => RunRecord(Failed, Some(startedAt), Some(failedAt), None, None)
  }

  /** The files once the pipeline has launched the worker or stopped. */
  function FilesAfter(files: map<string, Doc>, db: Db, cwd: string, testcaseIds: seq<string>, runMode: string, time: string, u: string, createdAt: string): map<string, Doc>
  {
    match PipelineInput(db, testcaseIds, runMode, time, u)
    case Err(_) => files
    case Ok(input) =>
      match WriterOutcome(cwd, input)
      case Err(_) => files
      case Ok(dir) => Snapshot(files, dir, input, createdAt)
  }

  /** `executeRunPipeline` up to the launch of the worker: `startedAt` is the
      clock at entry, `failedAt` at the failure if there is one, `pid` the
      handle the spawned child gets. Its first part, before any query, is
      synchronous: the record is running before the caller goes on. */
  method ExecuteRunPipeline(reg: RunRegistry, fs: FileSystem, db: Db, cwd: string, testcaseIds: seq<string>,
                            browsers: seq<string>, runMode: string, time: string, u: string,
                            startedAt: Time, failedAt: Time, createdAt: string, pid: nat)
    returns (r: Result<Launch, Error>)
    requires reg.Valid()
    modifies reg, fs
    ensures reg.Valid()
    ensures r == PipelineOutcome(db, cwd, testcaseIds, browsers, runMode, time, u)
    ensures reg.runs == old(reg.runs)[u := RecordAfter(r, startedAt, failedAt, pid)]
    ensures fs.files == FilesAfter(old(fs.files), db, cwd, testcaseIds, runMode, time, u, createdAt)
  {
    ghost var runs0 := reg.runs;
    reg.StartRun(u, startedAt);
    r := ContinuePipeline(reg, fs, db, cwd, testcaseIds, browsers, runMode, time, u, startedAt, failedAt, createdAt, pid);
    RecordReplaced(runs0, u, RunRecord(Running, Some(startedAt), None, None, None), RecordAfter(r, startedAt, failedAt, pid));
  }

  lemma RecordReplaced(runs: map<string, RunRecord>, u: string, a: RunRecord, b: RunRecord)
    ensures runs[u := a][u := b] == runs[u := b]
  {
  }

  /** The pipeline after its first `await`: fetch, write, launch; on any
      failure the record is marked failed. */
  method ContinuePipeline(reg: RunRegistry, fs: FileSystem, db: Db, cwd: string, testcaseIds: seq<string>,
                          browsers: seq<string>, runMode: string, time: string, u: string,
                          startedAt: Time, failedAt: Time, createdAt: string, pid: nat)
    returns (r: Result<Launch, Error>)
    requires reg.Valid() && u in reg.runs && reg.runs[u] == RunRecord(Running, Some(startedAt), None, None, None)
    modifies reg, fs
    ensures reg.Valid()
    ensures r == PipelineOutcome(db, cwd, testcaseIds, browsers, runMode, time, u)
    ensures reg.runs == old(reg.runs)[u := RecordAfter(r, startedAt, failedAt, pid)]
    ensures fs.files == FilesAfter(old(fs.files), db, cwd, testcaseIds, runMode, time, u, createdAt)
  {
    var planned := PipelineInput(db, testcaseIds, runMode, time, u);
    if planned.Err? {
      reg.MarkFailed(u, failedAt);
      return Err(planned.error);
    }
    var written := WriteRuntimeFiles(fs, cwd, planned.value, createdAt);
    if written.Err? {
      reg.MarkFailed(u, failedAt);
      return Err(written.error);
    }
    var dir := written.value;
    reg.SetRuntimeDir(u, dir);
    var args := BrowserArgs(browsers);
    reg.SetProcess(u, pid);
    r := Ok(Launch(dir, args, u));
  }

  /** Every record the pipeline leaves is consistent, and a failure leaves it
      failed, finished and without a process. */
  lemma RecordAfterConsistent(outcome: Result<Launch, Error>, startedAt: Time, failedAt: Time, pid: nat)
    ensures Consistent(RecordAfter(outcome, startedAt, failedAt, pid))
    ensures var rec := RecordAfter(outcome, startedAt, failedAt, pid);
            (rec.status == Running <==> outcome.Ok?)
            && (outcome.Err? ==> rec.status == Failed && rec.finishedAt == Some(failedAt) && rec.process.None?)
  {
  }

  /** A launched worker finds, in its `RUNTIME_DIR`, the testcases fetched for
      the run, the scenarios and pages of their closure and one test-data
      entry per fetched data row. */
  lemma LaunchSeesSnapshot(files: map<string, Doc>, db: Db, cwd: string, testcaseIds: seq<string>, browsers: seq<string>,
                           runMode: string, time: string, u: string, createdAt: string)
    requires PipelineOutcome(db, cwd, testcaseIds, browsers, runMode, time, u).Ok?
    ensures var launch := PipelineOutcome(db, cwd, testcaseIds, browsers, runMode, time, u).value;
            var after := FilesAfter(files, db, cwd, testcaseIds, runMode, time, u, createdAt);
            var testcases := db.testcases(testcaseIds, u);
            var scenarios := db.scenarios(ScenarioIds(testcases), u);
            && launch.userId == u && launch.args == BrowserArgs(browsers)
            && ConfigLoader.LoadTestCases(launch.runtimeDir, after) == Ok(testcases)
            && ConfigLoader.LoadScenarios(launch.runtimeDir, after) == Ok(scenarios)
            && ConfigLoader.LoadPagesSpec(launch.runtimeDir, after) == Ok(ConfigLoader.PagesByName(db.pages(PageNames(scenarios), u)))
            && ConfigLoader.LoadTestData(launch.runtimeDir, after) == Ok(TestDataOf(db.testData(testcaseIds, u)))
  {
    var input := PipelineInput(db, testcaseIds, runMode, time, u).value;
    WriteThenLoad(files, cwd, input, createdAt);
  }

  /** The pipeline writes the user's own directory and nothing else. */
  lemma PipelineWritesOnlyUserDir(files: map<string, Doc>, db: Db, cwd: string, testcaseIds: seq<string>,
                                  runMode: string, time: string, u: string, createdAt: string, p: string)
    requires !Under(p, UserRuntimeDir(cwd, u))
    ensures var after := FilesAfter(files, db, cwd, testcaseIds, runMode, time, u, createdAt);
            (p in after <==> p in files) && (p in files ==> after[p] == files[p])
  {
    var plan := PipelineInput(db, testcaseIds, runMode, time, u);
    if plan.Ok? && WriterOutcome(cwd, plan.value).Ok? {
      SnapshotKeepsOthers(files, UserRuntimeDir(cwd, u), plan.value, createdAt, p);
    }
  }
}
