/** The testcase composer of framework/tests/metaRunner.spec.js: scenarios
    indexed by id, the testcase's data row flattened into a step-id object,
    each scenario given the slice of that object its data steps need, with
    placeholders resolved, and the scenarios run one after another on one
    engine. */
module Composer {
  import opened Wrappers
  import opened Js
  import opened Driver
  import opened Errors
  import opened Defs
  import opened OutputStore
  import opened Resolver
  import opened Engine
  import opened Placeholder

  // ---------------------------------------------------------------------
  // scenarioMap
  // ---------------------------------------------------------------------

  /** `scenarioMap[s.scenario_id] = s` for each scenario in turn. */
  function ScenarioMap(ss: seq<Scenario>): map<string, Scenario>
  {
    if ss == [] then map[]
    else
      var last := ss[|ss| - 1];
      ScenarioMap(ss[..|ss| - 1])[last.scenarioId := last]
  }

  method BuildScenarioMap(ss: seq<Scenario>) returns (m: map<string, Scenario>)
    ensures m == ScenarioMap(ss)
  {
    m := map[];
    for i := 0 to |ss|
      invariant m == ScenarioMap(ss[..i])
    {
      assert ss[..i + 1][..i] == ss[..i];
      m := m[ss[i].scenarioId := ss[i]];
    }
    assert ss[..|ss|] == ss;
  }

  /** The map holds exactly the ids of the scenarios, each bound to the last
      scenario with that id. */
  lemma {:induction false} ScenarioMapLastWins(ss: seq<Scenario>, id: string)
    ensures id in ScenarioMap(ss) <==> exists i :: 0 <= i < |ss| && ss[i].scenarioId == id
    ensures id in ScenarioMap(ss) ==>
              exists i :: 0 <= i < |ss| && ss[i] == ScenarioMap(ss)[id] && ss[i].scenarioId == id
                          && forall j :: i < j < |ss| ==> ss[j].scenarioId != id
  {
    if ss != [] {
      var init := ss[..|ss| - 1];
      ScenarioMapLastWins(init, id);
      assert forall i :: 0 <= i < |init| ==> init[i] == ss[i];
      if ss[|ss| - 1].scenarioId != id && id in ScenarioMap(init) {
        var i :| 0 <= i < |init| && init[i] == ScenarioMap(init)[id] && init[i].scenarioId == id
                 && forall j :: i < j < |init| ==> init[j].scenarioId != id;
        assert forall j :: i < j < |ss| ==> ss[j].scenarioId != id;
      }
    }
  }

  // ---------------------------------------------------------------------
  // injected0 and injected1
  // ---------------------------------------------------------------------

  /** `injected0[item.id] = item.value` for each item of the row in turn. */
  function DataById(items: seq<DataItem>): seq<(string, Value)>
  {
    if items == [] then []
    else
      var last := items[|items| - 1];
      Put(DataById(items[..|items| - 1]), last.id, last.value)
  }

  method BuildInjected0(items: seq<DataItem>) returns (o: seq<(string, Value)>)
    ensures o == DataById(items)
  {
    o := [];
    for i := 0 to |items|
      invariant o == DataById(items[..i])
    {
      assert items[..i + 1][..i] == items[..i];
      o := Put(o, items[i].id, items[i].value);
    }
    assert items[..|items|] == items;
  }

  /** No item of the row has the id. */
  ghost predicate NoItemHas(items: seq<DataItem>, id: string)
  {
    forall i :: 0 <= i < |items| ==> items[i].id != id
  }

  /** The last item of a row is the last one applied. */
  lemma DataByIdStep(items: seq<DataItem>, id: string)
    requires items != []
    ensures Get(DataById(items), id)
         == if items[|items| - 1].id == id then Some(items[|items| - 1].value) else Get(DataById(items[..|items| - 1]), id)
  {
  }

  /** What `injected0[id]` holds, read from the row backwards: the last item
      with the id wins. */
  function LastValue(items: seq<DataItem>, id: string): Option<Value>
  {
    if items == [] then None
    else if items[|items| - 1].id == id then Some(items[|items| - 1].value)
    else LastValue(items[..|items| - 1], id)
  }

  lemma {:induction false} DataByIdReadsLast(items: seq<DataItem>, id: string)
    ensures Get(DataById(items), id) == LastValue(items, id)
  {
    if items != [] {
      DataByIdReadsLast(items[..|items| - 1], id);
      DataByIdStep(items, id);
    }
  }

  lemma {:induction false} LastValueAbsent(items: seq<DataItem>, id: string)
    ensures LastValue(items, id).None? <==> NoItemHas(items, id)
  {
    if items != [] {
      var init := items[..|items| - 1];
      LastValueAbsent(init, id);
      assert forall i :: 0 <= i < |init| ==> items[i] == init[i];
    }
  }

  /** An id reads nothing exactly when no item has it. */
  lemma DataByIdAbsent(items: seq<DataItem>, id: string)
    ensures Get(DataById(items), id).None? <==> NoItemHas(items, id)
  {
    DataByIdReadsLast(items, id);
    LastValueAbsent(items, id);
  }

  /** The item an id reads was the last with that id. */
  ghost predicate LastWith(items: seq<DataItem>, id: string, g: Option<Value>)
  {
    exists i :: 0 <= i < |items| && items[i].id == id && g == Some(items[i].value)
                && forall j :: i < j < |items| ==> items[j].id != id
  }

  lemma {:induction false} LastValueIsLast(items: seq<DataItem>, id: string)
    ensures LastValue(items, id).Some? ==> LastWith(items, id, LastValue(items, id))
  {
    if items != [] {
      var n := |items| - 1;
      var init := items[..n];
      if items[n].id != id && LastValue(init, id).Some? {
        LastValueIsLast(init, id);
        var i :| 0 <= i < |init| && init[i].id == id && LastValue(init, id) == Some(init[i].value)
                 && forall j :: i < j < |init| ==> init[j].id != id;
        assert items[i] == init[i];
        assert forall j :: i < j < |items| ==> items[j].id != id;
      }
    }
  }

  /** An id that some item has reads the value of the last item with it. */
  lemma DataByIdLastWins(items: seq<DataItem>, id: string)
    ensures Get(DataById(items), id).Some? ==> LastWith(items, id, Get(DataById(items), id))
  {
    DataByIdReadsLast(items, id);
    LastValueIsLast(items, id);
  }

  /** A step whose action or assertion type needs data. */
  predicate IsDataStep(step: Step)
  {
    step.action in DataRequiredActions || step.assertType in DataRequiredActions
  }

  /** `injected0[k]`: `undefined` when the row has no such id. */
  function DataValue(injected0: seq<(string, Value)>, k: string): Value
  {
    match Get(injected0, k)
    case Some(v) => v
    case None => Undefined
  }

  /** `injected1`: for each data step in turn, its id bound to the row's value
      (possibly `undefined`). */
  function Slice(scenarioId: string, flow: seq<Step>, injected0: seq<(string, Value)>): seq<(string, Value)>
  {
    if flow == [] then []
    else
      var n := |flow| - 1;
      var prev := Slice(scenarioId, flow[..n], injected0);
      if IsDataStep(flow[n]) then Put(prev, StepId(scenarioId, n), DataValue(injected0, StepId(scenarioId, n)))
      else prev
  }

  method BuildSlice(scenarioId: string, flow: seq<Step>, injected0: seq<(string, Value)>) returns (o: seq<(string, Value)>)
    ensures o == Slice(scenarioId, flow, injected0)
  {
    o := [];
    for i := 0 to |flow|
      invariant o == Slice(scenarioId, flow[..i], injected0)
    {
      assert flow[..i + 1][..i] == flow[..i];
      if IsDataStep(flow[i]) {
        var id := StepId(scenarioId, i);
        o := Put(o, id, DataValue(injected0, id));
      }
    }
    assert flow[..|flow|] == flow;
  }

  /** The slice has exactly the ids of the data steps, each with the row's
      value for it. */
  lemma {:induction false} SliceMeaning(scenarioId: string, flow: seq<Step>, injected0: seq<(string, Value)>, k: string)
    ensures Get(Slice(scenarioId, flow, injected0), k).Some?
        <==> exists i :: 0 <= i < |flow| && IsDataStep(flow[i]) && k == StepId(scenarioId, i)
    ensures Get(Slice(scenarioId, flow, injected0), k).Some? ==>
              Get(Slice(scenarioId, flow, injected0), k) == Some(DataValue(injected0, k))
  {
    if flow != [] {
      var n := |flow| - 1;
      SliceMeaning(scenarioId, flow[..n], injected0, k);
      assert forall i :: 0 <= i < n ==> flow[..n][i] == flow[i];
    }
  }

  /** The slice is an object with distinct keys. */
  lemma {:induction false} SliceUnique(scenarioId: string, flow: seq<Step>, injected0: seq<(string, Value)>)
    ensures UniqueKeys(Slice(scenarioId, flow, injected0))
  {
    if flow != [] {
      SliceUnique(scenarioId, flow[..|flow| - 1], injected0);
    }
  }

  // ---------------------------------------------------------------------
  // The per-testcase loop
  // ---------------------------------------------------------------------

  /** `testdataArr.find(...)`: the first data entry of the testcase. */
  function FindTestData(tds: seq<TestData>, testcaseId: string): (r: Option<TestData>)
    ensures r.Some? ==> r.value in tds && r.value.testcaseId == testcaseId
    ensures r.None? ==> forall i :: 0 <= i < |tds| ==> tds[i].testcaseId != testcaseId
  {
    if tds == [] then None
    else if tds[0].testcaseId == testcaseId then Some(tds[0])
    else FindTestData(tds[1..], testcaseId)
  }

  /** `find` returns the first match: no entry before the one found belongs
      to the testcase. */
  lemma {:induction false} FindTestDataIsFirst(tds: seq<TestData>, testcaseId: string) returns (i: nat)
    requires FindTestData(tds, testcaseId).Some?
    ensures i < |tds| && tds[i] == FindTestData(tds, testcaseId).value
    ensures forall j :: 0 <= j < i ==> tds[j].testcaseId != testcaseId
  {
    if tds[0].testcaseId == testcaseId {
      i := 0;
    } else {
      var k := FindTestDataIsFirst(tds[1..], testcaseId);
      i := k + 1;
      assert forall j :: 1 <= j < i ==> tds[j] == tds[1..][j - 1];
    }
  }

  /** Where the composer stands: how it ended, the page history and the
      outputs. */
  datatype Progress = Progress(outcome: Outcome<Error>, history: seq<Call>, outputs: Outputs)

  /** The fixed inputs of a testcase run. */
  datatype Setup = Setup(world: World, pages: map<string, PageDef>, cwd: string, userId: string)

  /** One scenario of a testcase: look it up, slice and resolve its data, run
      it. */
  function ScenarioStep(s: Setup, tc: Testcase, smap: map<string, Scenario>, injected0: seq<(string, Value)>,
                        scId: string, h: seq<Call>, o: Outputs): Progress
  {
    if scId !in smap then Progress(Fail(ScenarioNotFound(scId)), h, o)
    else
      var sc := smap[scId];
      match ResolveData(o, s.userId, tc.testcaseId, Obj(Slice(sc.scenarioId, sc.flow, injected0)))
      case Err(e) => Progress(Fail(e), h, o)
      case Ok(data) =>
        var c := Context(s.world, s.pages, s.cwd, s.userId, tc.testcaseId, sc.scenarioId, data);
        var run := ScenarioRun(c, sc.flow, h, o);
        Progress(run.outcome, run.state.history, run.state.outputs)
  }

  /** The scenarios from `i` on, in order, stopping at the first failure. */
  function RunScenarios(s: Setup, tc: Testcase, smap: map<string, Scenario>, injected0: seq<(string, Value)>,
                        i: nat, h: seq<Call>, o: Outputs): Progress
    decreases |tc.scenarios| - i
  {
    if i >= |tc.scenarios| then Progress(Pass, h, o)
    else
      var p := ScenarioStep(s, tc, smap, injected0, tc.scenarios[i], h, o);
      if p.outcome.Fail? then p else RunScenarios(s, tc, smap, injected0, i + 1, p.history, p.outputs)
  }

  /** The body of a testcase's test. */
  function TestcaseRun(s: Setup, tc: Testcase, smap: map<string, Scenario>, tds: seq<TestData>,
                       h: seq<Call>, o: Outputs): Progress
  {
    match FindTestData(tds, tc.testcaseId)
    case None => Progress(Fail(NoTestData(tc.testcaseId)), h, o)
    case Some(td) =>
      match td.data
      case None => Progress(Fail(NoTestData(tc.testcaseId)), h, o)
      case Some(items) => RunScenarios(s, tc, smap, DataById(items), 0, h, o)
  }

  /** A scenario id the map does not know stops the testcase there. */
  lemma UnknownScenarioStops(s: Setup, tc: Testcase, smap: map<string, Scenario>, injected0: seq<(string, Value)>,
                             i: nat, h: seq<Call>, o: Outputs)
    requires i < |tc.scenarios| && tc.scenarios[i] !in smap
    ensures RunScenarios(s, tc, smap, injected0, i, h, o) == Progress(Fail(ScenarioNotFound(tc.scenarios[i])), h, o)
  {
  }

  /** A testcase without a data row fails before anything runs. */
  lemma MissingTestDataStops(s: Setup, tc: Testcase, smap: map<string, Scenario>, tds: seq<TestData>,
                             h: seq<Call>, o: Outputs)
    requires forall i :: 0 <= i < |tds| ==> tds[i].testcaseId != tc.testcaseId
    ensures TestcaseRun(s, tc, smap, tds, h, o) == Progress(Fail(NoTestData(tc.testcaseId)), h, o)
  {
  }

  /** A testcase writes outputs only under its own user and testcase. */
  lemma {:induction false} RunScenariosIsolated(s: Setup, tc: Testcase, smap: map<string, Scenario>,
                                                injected0: seq<(string, Value)>, i: nat, h: seq<Call>, o: Outputs,
                                                u: string, t: string, sc: string, k: string)
    requires (u, t) != (s.userId, tc.testcaseId)
    ensures Lookup(RunScenarios(s, tc, smap, injected0, i, h, o).outputs, u, t, sc, k) == Lookup(o, u, t, sc, k)
    decreases |tc.scenarios| - i
  {
    if i < |tc.scenarios| {
      var scId := tc.scenarios[i];
      var p := ScenarioStep(s, tc, smap, injected0, scId, h, o);
      if scId in smap {
        var scn := smap[scId];
        var r := ResolveData(o, s.userId, tc.testcaseId, Obj(Slice(scn.scenarioId, scn.flow, injected0)));
        if r.Ok? {
          var c := Context(s.world, s.pages, s.cwd, s.userId, tc.testcaseId, scn.scenarioId, r.value);
          RunFlowOutputsIsolated(c, scn.flow, 0, RunState("", None, h, o), u, t, sc, k);
        }
      }
      if p.outcome.Pass? {
        RunScenariosIsolated(s, tc, smap, injected0, i + 1, p.history, p.outputs, u, t, sc, k);
      }
    }
  }

  /** Two objects with the same keys in the same order find a key at the same
      position. */
  lemma FindSameKeys(a: seq<(string, Value)>, b: seq<(string, Value)>, k: string)
    requires KeysOf(a) == KeysOf(b)
    ensures Find(a, k) == Find(b, k)
  {
    var i := Find(a, k);
    assert |a| == |KeysOf(a)| == |b|;
    assert forall j :: 0 <= j < |a| ==> a[j].0 == KeysOf(a)[j] == b[j].0;
    FindIsFirst(b, k, i);
  }

  /** A scenario is run with its own slice of the row, resolved: the id of a
      data step carries the row's value for it resolved on its own (copied,
      or the stored output for a placeholder), and no other id has data. */
  lemma ScenarioSeesItsSlice(o: Outputs, u: string, t: string, scenarioId: string, flow: seq<Step>,
                             injected0: seq<(string, Value)>, k: string)
    requires ResolveData(o, u, t, Obj(Slice(scenarioId, flow, injected0))).Ok?
    ensures var data := ResolveData(o, u, t, Obj(Slice(scenarioId, flow, injected0))).value;
            data.Obj?
            && ((exists i :: 0 <= i < |flow| && IsDataStep(flow[i]) && k == StepId(scenarioId, i)) ==>
                  ResolveField(o, u, t, DataValue(injected0, k)) == Ok(Field(data, k)))
            && (!(exists i :: 0 <= i < |flow| && IsDataStep(flow[i]) && k == StepId(scenarioId, i)) ==>
                  Field(data, k) == Undefined)
  {
    var slice := Slice(scenarioId, flow, injected0);
    SliceUnique(scenarioId, flow, injected0);
    SliceMeaning(scenarioId, flow, injected0, k);
    ResolveKeepsFields(o, u, t, slice);
    var data := ResolveData(o, u, t, Obj(slice)).value;
    FindSameKeys(slice, data.fields, k);
    var j := Find(slice, k);
    if j < |slice| {
      assert Get(slice, k) == Some(slice[j].1);
      assert Get(data.fields, k) == Some(data.fields[j].1);
    }
  }

  /** A testcase writes outputs only under its own user and testcase. */
  lemma TestcaseIsolated(s: Setup, tc: Testcase, smap: map<string, Scenario>, tds: seq<TestData>,
                         h: seq<Call>, o: Outputs, u: string, t: string, sc: string, k: string)
    requires (u, t) != (s.userId, tc.testcaseId)
    ensures Lookup(TestcaseRun(s, tc, smap, tds, h, o).outputs, u, t, sc, k) == Lookup(o, u, t, sc, k)
  {
    var td := FindTestData(tds, tc.testcaseId);
    if td.Some? && td.value.data.Some? {
      RunScenariosIsolated(s, tc, smap, DataById(td.value.data.value), 0, h, o, u, t, sc, k);
    }
  }

  /** How one test of the suite ended: it ran to an outcome, or Playwright
      skipped it. */
  datatype TestResult = Ran(outcome: Outcome<Error>) | Skipped

  /** The result of every testcase's test, in order, with the history and the
      outputs after the last one that ran. */
  datatype SuiteResult = SuiteResult(results: seq<TestResult>, history: seq<Call>, outputs: Outputs)

  /** `test.describe.configure({ mode: runMode })` selects Playwright's serial
      mode exactly for the mode name "serial". */
  predicate IsSerial(runMode: string)
  {
    runMode == "serial"
  }

  /** `n` tests reported as skipped. */
  function SkippedTests(n: nat): (r: seq<TestResult>)
    ensures |r| == n && forall j :: 0 <= j < n ==> r[j] == Skipped
  {
    if n == 0 then [] else [Skipped] + SkippedTests(n - 1)
  }

  /** The testcases from `i` on, each run as its own test. In serial mode a
      failing test skips every later one; in the other modes a failing test
      does not stop the next. */
  function RunTestcases(s: Setup, tcs: seq<Testcase>, smap: map<string, Scenario>, tds: seq<TestData>, serial: bool,
                        i: nat, h: seq<Call>, o: Outputs): (r: SuiteResult)
    ensures |r.results| == if i <= |tcs| then |tcs| - i else 0
    decreases |tcs| - i
  {
    if i >= |tcs| then SuiteResult([], h, o)
    else
      var p := TestcaseRun(s, tcs[i], smap, tds, h, o);
      if serial && p.outcome.Fail? then SuiteResult([Ran(p.outcome)] + SkippedTests(|tcs| - i - 1), p.history, p.outputs)
      else
        var rest := RunTestcases(s, tcs, smap, tds, serial, i + 1, p.history, p.outputs);
        SuiteResult([Ran(p.outcome)] + rest.results, rest.history, rest.outputs)
  }

  /** A test that ran and failed. */
  predicate Failed(t: TestResult)
  {
    t.Ran? && t.outcome.Fail?
  }

  /** Serial mode's promise: every test after a failed one is skipped, and a
      skipped test directly follows a failed or a skipped one. */
  predicate SerialShape(results: seq<TestResult>)
  {
    && (forall j, k :: 0 <= j < k < |results| && Failed(results[j]) ==> results[k] == Skipped)
    && (forall k :: 0 <= k < |results| && results[k] == Skipped ==>
          k > 0 && (results[k - 1] == Skipped || Failed(results[k - 1])))
  }

  /** A failure followed only by skipped tests has serial mode's shape. */
  lemma FailThenSkippedShape(e: Error, n: nat)
    ensures SerialShape([Ran(Fail(e))] + SkippedTests(n))
  {
    var r := [Ran(Fail(e))] + SkippedTests(n);
    assert forall k :: 1 <= k < |r| ==> r[k] == Skipped;
  }

  /** A passing test in front of results of serial shape keeps the shape. */
  lemma PassThenShape(rest: seq<TestResult>)
    requires SerialShape(rest)
    ensures SerialShape([Ran(Pass)] + rest)
  {
    var r := [Ran(Pass)] + rest;
    assert forall k :: 1 <= k < |r| ==> r[k] == rest[k - 1];
    assert |rest| > 0 ==> rest[0] != Skipped;
  }

  /** In serial mode the tests after the first failure are skipped, and only
      those. */
  lemma {:induction false} SerialSkipsAfterFailure(s: Setup, tcs: seq<Testcase>, smap: map<string, Scenario>,
                                                   tds: seq<TestData>, i: nat, h: seq<Call>, o: Outputs)
    ensures SerialShape(RunTestcases(s, tcs, smap, tds, true, i, h, o).results)
    decreases |tcs| - i
  {
    if i < |tcs| {
      var p := TestcaseRun(s, tcs[i], smap, tds, h, o);
      if p.outcome.Fail? {
        FailThenSkippedShape(p.outcome.error, |tcs| - i - 1);
      } else {
        SerialSkipsAfterFailure(s, tcs, smap, tds, i + 1, p.history, p.outputs);
        PassThenShape(RunTestcases(s, tcs, smap, tds, true, i + 1, p.history, p.outputs).results);
      }
    }
  }

  /** Every test ran. */
  predicate AllRan(results: seq<TestResult>)
  {
    forall j :: 0 <= j < |results| ==> results[j].Ran?
  }

  /** In the other modes every test runs, whatever the earlier ones did. */
  lemma {:induction false} OtherModesRunAll(s: Setup, tcs: seq<Testcase>, smap: map<string, Scenario>,
                                            tds: seq<TestData>, i: nat, h: seq<Call>, o: Outputs)
    ensures AllRan(RunTestcases(s, tcs, smap, tds, false, i, h, o).results)
    decreases |tcs| - i
  {
    if i < |tcs| {
      var p := TestcaseRun(s, tcs[i], smap, tds, h, o);
      OtherModesRunAll(s, tcs, smap, tds, i + 1, p.history, p.outputs);
      var rest := RunTestcases(s, tcs, smap, tds, false, i + 1, p.history, p.outputs).results;
      var r := RunTestcases(s, tcs, smap, tds, false, i, h, o).results;
      assert r == [Ran(p.outcome)] + rest;
      assert forall j :: 1 <= j < |r| ==> r[j] == rest[j - 1];
    }
  }

  /** One step of the suite loop. */
  lemma RunTestcasesUnfold(s: Setup, tcs: seq<Testcase>, smap: map<string, Scenario>, tds: seq<TestData>, serial: bool,
                           i: nat, h: seq<Call>, o: Outputs)
    requires i < |tcs|
    ensures var p := TestcaseRun(s, tcs[i], smap, tds, h, o);
            var r := RunTestcases(s, tcs, smap, tds, serial, i, h, o);
            var rest := RunTestcases(s, tcs, smap, tds, serial, i + 1, p.history, p.outputs);
            && (serial && p.outcome.Fail? ==>
                  r == SuiteResult([Ran(p.outcome)] + SkippedTests(|tcs| - i - 1), p.history, p.outputs))
            && (!(serial && p.outcome.Fail?) ==>
                  r == SuiteResult([Ran(p.outcome)] + rest.results, rest.history, rest.outputs))
  {
  }

  /** The whole suite: the user's outputs are reset once, before any testcase.
      Without a user id the reset in `beforeAll` throws: the first test fails
      and, in serial mode, the rest are skipped; in the other modes every test
      fails the same way. */
  function Suite(s: Setup, tcs: seq<Testcase>, smap: map<string, Scenario>, tds: seq<TestData>, serial: bool,
                 h: seq<Call>, o: Outputs): SuiteResult
  {
    if s.userId == "" then
      if serial && |tcs| > 0 then SuiteResult([Ran(Fail(UserIdRequired))] + SkippedTests(|tcs| - 1), h, o)
      else SuiteResult(seq(|tcs|, _ => Ran(Fail(UserIdRequired))), h, o)
    else RunTestcases(s, tcs, smap, tds, serial, 0, h, ResetUserSpec(o, s.userId))
  }

  /** A suite in serial mode, with or without a user id, has serial mode's
      shape. */
  lemma SuiteSerialShape(s: Setup, tcs: seq<Testcase>, smap: map<string, Scenario>, tds: seq<TestData>,
                         h: seq<Call>, o: Outputs)
    ensures SerialShape(Suite(s, tcs, smap, tds, true, h, o).results)
  {
    if s.userId == "" {
      if |tcs| > 0 {
        FailThenSkippedShape(UserIdRequired, |tcs| - 1);
      }
    } else {
      SerialSkipsAfterFailure(s, tcs, smap, tds, 0, h, ResetUserSpec(o, s.userId));
    }
  }

  /** Testcases of other users never touch a user's outputs. */
  lemma {:induction false} RunTestcasesIsolated(s: Setup, tcs: seq<Testcase>, smap: map<string, Scenario>, tds: seq<TestData>,
                                                serial: bool, i: nat, h: seq<Call>, o: Outputs,
                                                u: string, t: string, sc: string, k: string)
    requires u != s.userId
    ensures Lookup(RunTestcases(s, tcs, smap, tds, serial, i, h, o).outputs, u, t, sc, k) == Lookup(o, u, t, sc, k)
    decreases |tcs| - i
  {
    if i < |tcs| {
      var p := TestcaseRun(s, tcs[i], smap, tds, h, o);
      TestcaseIsolated(s, tcs[i], smap, tds, h, o, u, t, sc, k);
      if !(serial && p.outcome.Fail?) {
        RunTestcasesIsolated(s, tcs, smap, tds, serial, i + 1, p.history, p.outputs, u, t, sc, k);
      }
    }
  }

  /** A suite reports one result per testcase and leaves every other user's
      outputs as they were. */
  lemma SuiteIsolatesUsers(s: Setup, tcs: seq<Testcase>, smap: map<string, Scenario>, tds: seq<TestData>, serial: bool,
                           h: seq<Call>, o: Outputs, u: string, t: string, sc: string, k: string)
    requires u != s.userId
    ensures |Suite(s, tcs, smap, tds, serial, h, o).results| == |tcs|
    ensures Lookup(Suite(s, tcs, smap, tds, serial, h, o).outputs, u, t, sc, k) == Lookup(o, u, t, sc, k)
  {
    if s.userId != "" {
      RunTestcasesIsolated(s, tcs, smap, tds, serial, 0, h, ResetUserSpec(o, s.userId), u, t, sc, k);
    }
  }

  /** Runs testcases on one engine: the test bodies, after the user's outputs
      are reset once. */
  class Runner {
    const engine: MetaEngine
    const scenarioMap: map<string, Scenario>
    const testData: seq<TestData>

    constructor (engine: MetaEngine, scenarios: seq<Scenario>, testData: seq<TestData>)
      ensures this.engine == engine && this.scenarioMap == ScenarioMap(scenarios) && this.testData == testData
    {
      this.engine := engine;
      var m := BuildScenarioMap(scenarios);
      this.scenarioMap := m;
      this.testData := testData;
    }

    function SetupFor(u: string): Setup
      reads this, engine
    {
      Setup(engine.page.world, engine.pagesConfig, engine.cwd, u)
    }

    /** One testcase's test body. */
    method RunTestcase(u: string, tc: Testcase) returns (r: Outcome<Error>)
      modifies engine.page, engine.store
      ensures var p := TestcaseRun(SetupFor(u), tc, scenarioMap, testData, old(engine.page.history), old(engine.store.userOutputs));
              r == p.outcome && engine.page.history == p.history && engine.store.userOutputs == p.outputs
    {
      var td := FindTestData(testData, tc.testcaseId);
      if td.None? || td.value.data.None? {
        return Fail(NoTestData(tc.testcaseId));
      }
      var injected0 := BuildInjected0(td.value.data.value);
      ghost var h0, o0 := engine.page.history, engine.store.userOutputs;
      for i := 0 to |tc.scenarios|
        invariant RunScenarios(SetupFor(u), tc, scenarioMap, injected0, i, engine.page.history, engine.store.userOutputs)
               == RunScenarios(SetupFor(u), tc, scenarioMap, injected0, 0, h0, o0)
      {
        var scId := tc.scenarios[i];
        if scId !in scenarioMap {
          return Fail(ScenarioNotFound(scId));
        }
        var sc := scenarioMap[scId];
        var injected1 := BuildSlice(sc.scenarioId, sc.flow, injected0);
        var data := ResolveScenarioData(engine.store, u, tc.testcaseId, Obj(injected1));
        if data.Err? {
          return Fail(data.error);
        }
        r := engine.RunScenario(u, tc.testcaseId, sc, data.value);
        if r.Fail? {
          return;
        }
      }
      r := Pass;
    }

    /** `beforeAll`'s reset of the user, then every testcase's test in turn;
        `runMode` is the mode `run.json` configures the suite with. */
    method RunSuite(u: string, tcs: seq<Testcase>, runMode: string) returns (results: seq<TestResult>)
      modifies engine.page, engine.store
      ensures var r := Suite(SetupFor(u), tcs, scenarioMap, testData, IsSerial(runMode),
                             old(engine.page.history), old(engine.store.userOutputs));
              results == r.results && engine.page.history == r.history && engine.store.userOutputs == r.outputs
    {
      var serial := IsSerial(runMode);
      var reset := engine.store.ResetUser(u);
      if reset.Fail? {
        if serial && |tcs| > 0 {
          return [Ran(Fail(UserIdRequired))] + SkippedTests(|tcs| - 1);
        }
        return seq(|tcs|, _ => Ran(Fail(UserIdRequired)));
      }
      ghost var setup := SetupFor(u);
      ghost var r0 := RunTestcases(setup, tcs, scenarioMap, testData, serial, 0, engine.page.history, engine.store.userOutputs);
      results := [];
      var i := 0;
      while i < |tcs|
        invariant 0 <= i <= |tcs|
        invariant var r := RunTestcases(setup, tcs, scenarioMap, testData, serial, i, engine.page.history, engine.store.userOutputs);
                  results + r.results == r0.results && r.history == r0.history && r.outputs == r0.outputs
      {
        RunTestcasesUnfold(setup, tcs, scenarioMap, testData, serial, i, engine.page.history, engine.store.userOutputs);
        var one := RunTestcase(u, tcs[i]);
        if serial && one.Fail? {
          results := results + ([Ran(one)] + SkippedTests(|tcs| - i - 1));
          return;
        }
        ghost var before := results;
        results := results + [Ran(one)];
        assert before + ([Ran(one)] + RunTestcases(setup, tcs, scenarioMap, testData, serial, i + 1, engine.page.history, engine.store.userOutputs).results)
            == results + RunTestcases(setup, tcs, scenarioMap, testData, serial, i + 1, engine.page.history, engine.store.userOutputs).results;
        i := i + 1;
      }
    }
  }
}
