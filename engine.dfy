/** The flow interpreter of framework/utils/metaEngine.js: `performAction`,
    `executeOutputAction` and `runScenario`, which walks a scenario's flow,
    switches pages, picks each step's data, skips data steps without data,
    performs actions and assertions and stores outputs under the user, the
    testcase and the scenario. */
module Engine {
  import opened Wrappers
  import opened Js
  import opened Driver
  import opened Errors
  import opened Defs
  import opened EngineCore
  import opened Handlers
  import opened Assertions
  import opened OutputStore

  // ---------------------------------------------------------------------
  // performAction
  // ---------------------------------------------------------------------

  /** `path.join(process.cwd(), "uploadFiles", name)`. */
  function UploadPath(cwd: string, name: string): string
  {
    cwd + "/uploadFiles/" + name
  }

  /** The files of an upload: one path per array item, each of which must be
      a string, or the one path of a string. */
  function UploadFiles(cwd: string, data: Value): (r: Result<seq<string>, Error>)
    ensures data.Arr? ==> (r.Ok? <==> forall i :: 0 <= i < |data.items| ==> data.items[i].Str?)
    ensures data.Arr? && r.Ok? ==>
              |r.value| == |data.items| && forall i :: 0 <= i < |data.items| ==> r.value[i] == UploadPath(cwd, data.items[i].s)
    ensures data.Str? ==> r == Ok([UploadPath(cwd, data.s)])
    ensures r.Err? ==> r.error == NotAString("path.join")
  {
    if data.Arr? then UploadItems(cwd, data.items)
    else if data.Str? then Ok([UploadPath(cwd, data.s)])
    else Err(NotAString("path.join"))
  }

  function UploadItems(cwd: string, items: seq<Value>): (r: Result<seq<string>, Error>)
    ensures r.Ok? <==> forall i :: 0 <= i < |items| ==> items[i].Str?
    ensures r.Ok? ==> |r.value| == |items| && forall i :: 0 <= i < |items| ==> r.value[i] == UploadPath(cwd, items[i].s)
    ensures r.Err? ==> r.error == NotAString("path.join")
  {
    if items == [] then Ok([])
    else if !items[0].Str? then Err(NotAString("path.join"))
    else
      match UploadItems(cwd, items[1..])
      case Err(e) => Err(e)
      case Ok(rest) =>
        assert forall i :: 1 <= i < |items| ==> items[i] == items[1..][i - 1];
        Ok([UploadPath(cwd, items[0].s)] + rest)
  }

  /** Elements other than the job title are waited for before any action. */
  predicate WaitsBeforeAction(el: ElementDef)
  {
    el.name != "" && el.name != "JobTitle"
  }

  /** The `switch (action)` of `performAction`, after the wait. */
  function Dispatch(w: World, h: seq<Call>, el: ElementDef, action: string, data: Value, cwd: string): Exec
  {
    var loc := el.locator;
    if action == "click" || action == "toggle" then Issue(w, h, Click(loc))
    else if action == "input" || action == "date" || action == "editor" then Issue(w, h, Fill(loc, data))
    else if action == "select" then HandleSelect(w, h, loc, data)
    else if action == "upload" then
      match UploadFiles(cwd, data)
      case Err(e) => Exec(Fail(e), h)
      case Ok(files) => Issue(w, h, SetInputFiles(loc, files))
    else if action == "autocomplete" then Autocomplete(w, h, el, data)
    else if action == "toggleState" then ToggleState(w, h, el, data)
    else if action == "multiSelectCreate" then MultiSelectCreate(w, h, el, data)
    else if action == "checkbox" then SetCheckbox(w, h, el, data)
    else if action == "clickPerticularJobTitle" then ClickParticularJobTitle(w, h, el, data)
    else Exec(Pass, h)
  }

  /** `performAction(element, action, data)`. */
  function ActionSpec(w: World, h: seq<Call>, el: ElementDef, action: string, data: Value, cwd: string): Exec
  {
    if WaitsBeforeAction(el) then
      var e0 := WaitForElement(w, h, el.locator);
      if e0.outcome.Fail? then e0 else Dispatch(w, e0.history, el, action, data, cwd)
    else Dispatch(w, h, el, action, data, cwd)
  }

  method PerformAction(w: World, h: seq<Call>, el: ElementDef, action: string, data: Value, cwd: string) returns (e: Exec)
    ensures e == ActionSpec(w, h, el, action, data, cwd)
  {
    var cur := h;
    if WaitsBeforeAction(el) {
      var e0 := WaitForElement(w, h, el.locator);
      if e0.outcome.Fail? {
        return e0;
      }
      cur := e0.history;
    }
    if action == "multiSelectCreate" {
      e := RunMultiSelectCreate(w, cur, el, data);
    } else if action == "clickPerticularJobTitle" {
      e := FindJobTitle(w, cur, el, data);
    } else {
      e := Dispatch(w, cur, el, action, data, cwd);
    }
  }

  /** A named element other than the job title is waited for first: when it
      does not show, the action is not attempted. The job title, whose search
      pages through the results, is not waited for. */
  lemma ActionWaitsFirst(w: World, h: seq<Call>, el: ElementDef, action: string, data: Value, cwd: string)
    ensures WaitsBeforeAction(el) && w.fails(h, WaitVisible(el.locator)) ==>
              ActionSpec(w, h, el, action, data, cwd) == Exec(Fail(NotVisibleInTime(el.locator)), h + [WaitVisible(el.locator)])
    ensures WaitsBeforeAction(el) && !w.fails(h, WaitVisible(el.locator)) ==>
              ActionSpec(w, h, el, action, data, cwd) == Dispatch(w, h + [WaitVisible(el.locator)], el, action, data, cwd)
    ensures !WaitsBeforeAction(el) ==> ActionSpec(w, h, el, action, data, cwd) == Dispatch(w, h, el, action, data, cwd)
  {
  }

  /** An upload sets exactly the files named by the data, under the upload
      directory; a non-string name fails before anything is set. */
  lemma UploadSetsNamedFiles(w: World, h: seq<Call>, el: ElementDef, names: seq<string>, cwd: string)
    ensures var files := seq(|names|, i requires 0 <= i < |names| => UploadPath(cwd, names[i]));
            Dispatch(w, h, el, "upload", Arr(seq(|names|, i requires 0 <= i < |names| => Str(names[i]))), cwd)
              == Issue(w, h, SetInputFiles(el.locator, files))
  {
    var items := seq(|names|, i requires 0 <= i < |names| => Str(names[i]));
    var r := UploadFiles(cwd, Arr(items));
    assert r.Ok?;
    assert r.value == seq(|names|, i requires 0 <= i < |names| => UploadPath(cwd, names[i]));
  }

  /** An action the interpreter does not know adds nothing to the element
      wait: the switch itself issues no call and passes, so the whole action is
      the wait alone for a waited-for element and no call at all otherwise. */
  lemma UnknownActionOnlyWaits(w: World, h: seq<Call>, el: ElementDef, action: string, data: Value, cwd: string)
    requires action !in {"click", "toggle", "input", "date", "editor", "select", "upload", "autocomplete",
                         "toggleState", "multiSelectCreate", "checkbox", "clickPerticularJobTitle"}
    ensures Dispatch(w, h, el, action, data, cwd) == Exec(Pass, h)
    ensures WaitsBeforeAction(el) ==> ActionSpec(w, h, el, action, data, cwd) == WaitForElement(w, h, el.locator)
    ensures !WaitsBeforeAction(el) ==> ActionSpec(w, h, el, action, data, cwd) == Exec(Pass, h)
  {
  }

  // ---------------------------------------------------------------------
  // executeOutputAction
  // ---------------------------------------------------------------------

  /** What an output step produced and the history after it. */
  datatype OutputExec = OutputExec(value: Result<string, Error>, history: seq<Call>)

  /** `executeOutputAction(action)`: "saveJobID" reads the URL and returns the
      digits of its first `/j/<digits>/`; any other action is rejected. */
  function OutputAction(w: World, h: seq<Call>, action: string): (r: OutputExec)
    ensures action != "saveJobID" ==> r == OutputExec(Err(UnknownOutputAction(action)), h)
    ensures action == "saveJobID" ==> r.history == h + [AskUrl]
    ensures action == "saveJobID" && r.value.Err? ==> r.value.error == JobIdNotInUrl(w.url(h))
  {
    if action == "saveJobID" then
      var url := w.url(h);
      OutputExec(match ExtractJobId(url) case Some(id) => Ok(id) case None => Err(JobIdNotInUrl(url)), h + [AskUrl])
    else OutputExec(Err(UnknownOutputAction(action)), h)
  }

  /** A saved job id is a nonempty digit run that stands between "/j/" and "/"
      in the current URL, at the leftmost such place; a URL of that form
      always yields its id. */
  lemma SaveJobIdIsFromUrl(w: World, h: seq<Call>)
    ensures var r := OutputAction(w, h, "saveJobID");
            r.value.Ok? ==> r.value.value != [] && AllDigits(r.value.value)
                            && exists p: nat :: JobIdAt(w.url(h), p) && r.value.value == w.url(h)[p + 3..p + 3 + DigitsAt(w.url(h), p + 3)]
                                           && forall q :: 0 <= q < p ==> !JobIdAt(w.url(h), q)
  {
    if ExtractJobId(w.url(h)).Some? {
      ExtractJobIdSound(w.url(h), 0);
    }
  }

  lemma SaveJobIdFindsId(w: World, h: seq<Call>, pre: string, id: string, post: string)
    requires w.url(h) == pre + "/j/" + id + "/" + post
    requires id != [] && AllDigits(id)
    requires forall q :: 0 <= q < |pre| ==> !JobIdAt(pre + "/j/" + id + "/" + post, q)
    ensures OutputAction(w, h, "saveJobID").value == Ok(id)
  {
    ExtractJobIdComplete(pre, id, post);
  }

  // ---------------------------------------------------------------------
  // runScenario
  // ---------------------------------------------------------------------

  /** The actions whose step takes its data from the scenario data and is
      skipped without it. */
  const DataRequiredActions: set<string> := {
    "clickPerticularJobTitle", "checkbox", "multiSelectCreate", "toggleState", "autocomplete",
    "editor", "date", "upload", "select", "input", "text", "arrayContains" }

  /** The id of the step at `index`, which keys its data: `<scenario>_<index>`. */
  function StepId(scenarioId: string, index: nat): string
  {
    scenarioId + "_" + DecimalString(index)
  }

  /** Each piece trimmed (`map((v) => v.trim())`). */
  function Trims(parts: seq<string>): (r: seq<string>)
    ensures |r| == |parts| && forall j :: 0 <= j < |parts| ==> r[j] == Trim(parts[j])
  {
    if parts == [] then [] else [Trim(parts[0])] + Trims(parts[1..])
  }

  /** The nonempty pieces as strings (`filter(Boolean)`). */
  function NonEmpty(ts: seq<string>): seq<Value>
  {
    if ts == [] then []
    else if ts[0] == [] then NonEmpty(ts[1..])
    else [Str(ts[0])] + NonEmpty(ts[1..])
  }

  /** The kept pieces are exactly the nonempty ones, as strings. */
  lemma {:induction false} NonEmptyMeaning(ts: seq<string>)
    ensures var r := NonEmpty(ts);
            forall i :: 0 <= i < |r| ==> r[i].Str? && r[i].s != [] && r[i].s in ts
    ensures forall t :: t in ts && t != [] ==> Str(t) in NonEmpty(ts)
  {
    if ts != [] {
      var rest := ts[1..];
      NonEmptyMeaning(rest);
      assert ts == [ts[0]] + rest;
      if ts[0] != [] {
        var r := NonEmpty(ts);
        assert r == [Str(ts[0])] + NonEmpty(rest);
        assert forall i :: 1 <= i < |r| ==> r[i] == NonEmpty(rest)[i - 1];
      }
    }
  }

  /** The pieces of a comma-separated list, trimmed, without the empty ones. */
  function CleanParts(parts: seq<string>): seq<Value>
  {
    NonEmpty(Trims(parts))
  }

  /** The list data of a multi-select or an upload: an array as it is, a
      string split on commas, anything else as a one-item array. */
  function ListData(v: Value): (r: Value)
    ensures r.Arr?
    ensures v.Arr? ==> r == v
    ensures !v.Arr? && !v.Str? ==> r == Arr([v])
  {
    if v.Arr? then v
    else if v.Str? then Arr(CleanParts(Split(v.s, ',')))
    else Arr([v])
  }

  /** The data of a data step: `null` when the scenario data has nothing for
      the step id. */
  function StepData(scenarioData: Value, stepId: string, action: string): Value
  {
    var v := Field(scenarioData, stepId);
    if v == Undefined then Null
    else if action == "multiSelectCreate" || action == "upload" then ListData(v)
    else v
  }

  /** `data === undefined || data === null || data === ""`. */
  predicate NoData(d: Value)
  {
    d.Undefined? || d.Null? || d == Str("")
  }

  /** The interpreter's state between steps: the current page (no page is ""),
      its configuration, the driver history and the output store. */
  datatype RunState = RunState(currentPage: string, pageConfig: Option<PageDef>, history: seq<Call>, outputs: Outputs)

  datatype Run = Run(outcome: Outcome<Error>, state: RunState)

  /** Everything a scenario run depends on besides its state. */
  datatype Context = Context(
    world: World,
    pages: map<string, PageDef>,
    cwd: string,
    userId: string,
    testcaseId: string,
    scenarioId: string,
    scenarioData: Value)

  /** An action step: find the element, pick the data (skip a data step
      without any), perform the action. */
  function ActionStep(c: Context, index: nat, step: Step, st: RunState): Run
  {
    match GetElement(st.pageConfig, step.element)
    case Err(e) => Run(Fail(e), st)
    case Ok(el) =>
      var required := step.action in DataRequiredActions;
      var data := if required then StepData(c.scenarioData, StepId(c.scenarioId, index), step.action) else Null;
      if required && NoData(data) then Run(Pass, st)
      else
        var e := ActionSpec(c.world, st.history, el, step.action, data, c.cwd);
        Run(e.outcome, st.(history := e.history))
  }

  /** The expected value of an assertion: the scenario data's, when it has one
      for the step id, else the step's own. */
  function Expected(c: Context, index: nat, step: Step): Value
  {
    var given := Field(c.scenarioData, StepId(c.scenarioId, index));
    if given != Undefined then given else step.expected
  }

  function AssertStep(c: Context, index: nat, step: Step, st: RunState): Run
  {
    match GetElement(st.pageConfig, step.element)
    case Err(e) => Run(Fail(e), st)
    case Ok(el) =>
      var e := AssertSpec(c.world, st.history, el, step.assertType, Expected(c, index, step));
      Run(e.outcome, st.(history := e.history))
  }

  /** An output step: produce the value, then store it (which needs a user). */
  function OutputStep(c: Context, step: Step, st: RunState): Run
  {
    var o := OutputAction(c.world, st.history, step.action);
    match o.value
    case Err(e) => Run(Fail(e), st.(history := o.history))
    case Ok(id) =>
      if c.userId == "" then Run(Fail(UserIdRequired), st.(history := o.history))
      else Run(Pass, st.(history := o.history, outputs := Stored(st.outputs, c.userId, c.testcaseId, c.scenarioId, step.key, Str(id))))
  }

  /** What a step does once its page is the current one. */
  function StepBody(c: Context, index: nat, step: Step, st: RunState): (r: Run)
    ensures r.state.currentPage == st.currentPage && r.state.pageConfig == st.pageConfig
  {
    match step.kind
    case ActionKind => ActionStep(c, index, step, st)
    case AssertKind => AssertStep(c, index, step, st)
    case OutputKind => OutputStep(c, step, st)
    case OtherKind => Run(Pass, st)
  }

  /** A step naming a page other than the current one first switches to it. */
  predicate ChangesPage(step: Step, st: RunState)
  {
    step.page != "" && step.page != st.currentPage
  }

  function StepSpec(c: Context, index: nat, step: Step, st: RunState): Run
  {
    if ChangesPage(step, st) then
      match GetPageConfig(c.pages, step.page)
      case Err(e) => Run(Fail(e), st.(currentPage := step.page))
      case Ok(pc) => StepBody(c, index, step, st.(currentPage := step.page, pageConfig := Some(pc)))
    else StepBody(c, index, step, st)
  }

  /** The steps from `i` on, stopping at the first failure. */
  function RunFlow(c: Context, flow: seq<Step>, i: nat, st: RunState): Run
    decreases |flow| - i
  {
    if i >= |flow| then Run(Pass, st)
    else
      var r := StepSpec(c, i, flow[i], st);
      if r.outcome.Fail? then r else RunFlow(c, flow, i + 1, r.state)
  }

  /** `runScenario`: the flow from its first step, with no current page. */
  function ScenarioRun(c: Context, flow: seq<Step>, h: seq<Call>, o: Outputs): Run
  {
    RunFlow(c, flow, 0, RunState("", None, h, o))
  }

  /** A data step with no data for its id is skipped without a driver call,
      once its page and element are found. */
  lemma SkippedStepIssuesNothing(c: Context, index: nat, step: Step, st: RunState)
    requires step.kind == ActionKind && step.action in DataRequiredActions && !ChangesPage(step, st)
    requires GetElement(st.pageConfig, step.element).Ok?
    requires Field(c.scenarioData, StepId(c.scenarioId, index)) == Undefined
    ensures StepSpec(c, index, step, st) == Run(Pass, st)
  {
  }

  /** An empty string or `null` as step data is no data, for every action but
      the two list actions. */
  lemma EmptyOrNullIsNoData(c: Context, index: nat, step: Step, st: RunState)
    requires step.kind == ActionKind && step.action in DataRequiredActions && !ChangesPage(step, st)
    requires step.action != "multiSelectCreate" && step.action != "upload"
    requires GetElement(st.pageConfig, step.element).Ok?
    requires Field(c.scenarioData, StepId(c.scenarioId, index)) == Str("")
             || Field(c.scenarioData, StepId(c.scenarioId, index)) == Null
    ensures StepSpec(c, index, step, st) == Run(Pass, st)
  {
  }

  /** A data step with data other than `null` and "" is performed with that
      data as it is, for every action but the two list actions. */
  lemma DataStepGetsItsData(c: Context, index: nat, step: Step, st: RunState, v: Value)
    requires step.kind == ActionKind && step.action in DataRequiredActions && !ChangesPage(step, st)
    requires step.action != "multiSelectCreate" && step.action != "upload"
    requires GetElement(st.pageConfig, step.element).Ok?
    requires Field(c.scenarioData, StepId(c.scenarioId, index)) == v
    requires v != Undefined && v != Null && v != Str("")
    ensures var el := GetElement(st.pageConfig, step.element).value;
            var e := ActionSpec(c.world, st.history, el, step.action, v, c.cwd);
            StepSpec(c, index, step, st) == Run(e.outcome, st.(history := e.history))
  {
  }

  /** An action outside the data-required set is performed with `null` data,
      whatever the scenario data holds. */
  lemma OtherActionGetsNull(c: Context, index: nat, step: Step, st: RunState)
    requires step.kind == ActionKind && step.action !in DataRequiredActions && !ChangesPage(step, st)
    requires GetElement(st.pageConfig, step.element).Ok?
    ensures var el := GetElement(st.pageConfig, step.element).value;
            var e := ActionSpec(c.world, st.history, el, step.action, Null, c.cwd);
            StepSpec(c, index, step, st) == Run(e.outcome, st.(history := e.history))
  {
  }

  /** An assertion is never skipped: whatever the scenario data holds, it is
      checked, against the scenario data's value for its step id when that is
      defined and against the step's own `expected` otherwise. */
  lemma AssertNeverSkipped(c: Context, index: nat, step: Step, st: RunState)
    requires step.kind == AssertKind && !ChangesPage(step, st)
    requires GetElement(st.pageConfig, step.element).Ok?
    ensures var el := GetElement(st.pageConfig, step.element).value;
            var given := Field(c.scenarioData, StepId(c.scenarioId, index));
            var expected := if given != Undefined then given else step.expected;
            var e := AssertSpec(c.world, st.history, el, step.assertType, expected);
            StepSpec(c, index, step, st) == Run(e.outcome, st.(history := e.history))
  {
  }

  /** A list action's string data that holds only commas and blanks becomes an
      empty list, which is performed rather than skipped. */
  lemma EmptyListIsPerformed(c: Context, index: nat, step: Step, st: RunState)
    requires step.kind == ActionKind && step.action == "multiSelectCreate" && !ChangesPage(step, st)
    requires GetElement(st.pageConfig, step.element).Ok?
    requires Field(c.scenarioData, StepId(c.scenarioId, index)) == Str("")
    ensures var el := GetElement(st.pageConfig, step.element).value;
            var e := ActionSpec(c.world, st.history, el, step.action, Arr([]), c.cwd);
            StepSpec(c, index, step, st) == Run(e.outcome, st.(history := e.history))
  {
    ListDataOfEmpty();
  }

  lemma ListDataOfEmpty()
    ensures ListData(Str("")) == Arr([])
  {
    ListDataOfBlank("");
  }

  /** A string of blanks without a comma is one empty piece once trimmed, so
      it gives the empty list too. */
  lemma ListDataOfBlank(s: string)
    requires ',' !in s && AllSpace(s)
    ensures ListData(Str(s)) == Arr([])
  {
    NoSeparator(s);
    var i, j := TrimShape(s);
    assert Trim(s) == [];
    var ts := Trims([s]);
    assert ts == [[]];
    assert NonEmpty(ts) == [] by {
      assert ts[0] == [] && ts[1..] == [];
    }
  }

  /** Two comma-separated skills are trimmed: "kotlin, java" gives the two
      names without the blank. */
  lemma ListDataOfTwo(a: string, b: string)
    requires ',' !in a && ',' !in b && Trim(a) != [] && Trim(b) != []
    ensures ListData(Str(a + "," + b)) == Arr([Str(Trim(a)), Str(Trim(b))])
  {
    var s := a + "," + b;
    SplitAtSeparator(a, b);
    NoSeparator(b);
    assert Split(s, ',') == [a, b];
    CleanTwo(a, b);
  }

  lemma CleanTwo(a: string, b: string)
    requires Trim(a) != [] && Trim(b) != []
    ensures CleanParts([a, b]) == [Str(Trim(a)), Str(Trim(b))]
  {
    var ta, tb := Trim(a), Trim(b);
    assert Trims([a, b]) == [ta, tb];
    NonEmptyTwo(ta, tb);
  }

  lemma NonEmptyTwo(x: string, y: string)
    requires x != [] && y != []
    ensures NonEmpty([x, y]) == [Str(x), Str(y)]
  {
    var ts := [x, y];
    assert ts[0] == x && ts[1..] == [y];
    assert NonEmpty([y]) == [Str(y)] by {
      assert [y][0] == y && [y][1..] == [];
    }
    assert NonEmpty(ts) == [Str(x)] + NonEmpty([y]);
  }

  lemma SplitAtSeparator(a: string, b: string)
    requires ',' !in a
    ensures Split(a + "," + b, ',') == [a] + Split(b, ',')
  {
    var s := a + "," + b;
    var i := IndexOfChar(s, ',');
    assert s[|a|] == ',';
    assert s[..|a|] == a && s[|a| + 1..] == b;
  }

  lemma NoSeparator(s: string)
    requires ',' !in s
    ensures Split(s, ',') == [s]
  {
  }

  /** A step before any page that names an element fails for want of a page. */
  lemma ElementBeforeAnyPage(c: Context, flow: seq<Step>, h: seq<Call>, o: Outputs)
    requires |flow| > 0 && flow[0].page == "" && (flow[0].kind == ActionKind || flow[0].kind == AssertKind)
    ensures ScenarioRun(c, flow, h, o).outcome == Fail(NoPageContext)
  {
  }

  /** A step naming an unknown page stops the scenario with PageNotFound. */
  lemma UnknownPageStops(c: Context, flow: seq<Step>, i: nat, st: RunState)
    requires i < |flow| && ChangesPage(flow[i], st) && flow[i].page !in c.pages
    ensures RunFlow(c, flow, i, st).outcome == Fail(PageNotFound(flow[i].page))
  {
  }

  /** An output step that succeeds stores the job id of the current URL under
      the user, the testcase, the scenario and the step's key. */
  lemma OutputStepStoresJobId(c: Context, index: nat, step: Step, st: RunState)
    requires step.kind == OutputKind && step.action == "saveJobID" && !ChangesPage(step, st)
    requires StepSpec(c, index, step, st).outcome == Pass
    ensures var id := ExtractJobId(c.world.url(st.history));
            id.Some? && c.userId != ""
            && Lookup(StepSpec(c, index, step, st).state.outputs, c.userId, c.testcaseId, c.scenarioId, step.key) == Str(id.value)
  {
    var id := ExtractJobId(c.world.url(st.history));
    GetAfterSet(st.outputs, c.userId, c.testcaseId, c.scenarioId, step.key, Str(id.value));
  }

  /** A step writes outputs only under its own user, testcase and scenario. */
  lemma StepOutputsIsolated(c: Context, index: nat, step: Step, st: RunState, u: string, t: string, s: string, k: string)
    requires (u, t, s) != (c.userId, c.testcaseId, c.scenarioId)
    ensures Lookup(StepSpec(c, index, step, st).state.outputs, u, t, s, k) == Lookup(st.outputs, u, t, s, k)
  {
    if step.kind == OutputKind {
      var st1 := if ChangesPage(step, st) && step.page in c.pages
                 then st.(currentPage := step.page, pageConfig := Some(c.pages[step.page])) else st;
      var o := OutputAction(c.world, st1.history, step.action);
      if o.value.Ok? && c.userId != "" {
        SetChangesOnlyItsPath(st.outputs, c.userId, c.testcaseId, c.scenarioId, step.key, Str(o.value.value), u, t, s, k);
      }
    }
  }

  /** A scenario writes outputs only under its own user, testcase and
      scenario: other tenants, other testcases and other scenarios read as
      before. */
  lemma {:induction false} RunFlowOutputsIsolated(c: Context, flow: seq<Step>, i: nat, st: RunState, u: string, t: string, s: string, k: string)
    requires (u, t, s) != (c.userId, c.testcaseId, c.scenarioId)
    ensures Lookup(RunFlow(c, flow, i, st).state.outputs, u, t, s, k) == Lookup(st.outputs, u, t, s, k)
    decreases |flow| - i
  {
    if i < |flow| {
      var r := StepSpec(c, i, flow[i], st);
      StepOutputsIsolated(c, i, flow[i], st, u, t, s, k);
      if r.outcome.Pass? {
        RunFlowOutputsIsolated(c, flow, i + 1, r.state, u, t, s, k);
      }
    }
  }

  /** The engine of one browser page: it runs scenarios against the page and
      records what output steps produce in the store. */
  class MetaEngine {
    const page: Page
    const pagesConfig: map<string, PageDef>
    const store: DataStore
    const cwd: string

    constructor (page: Page, pagesConfig: map<string, PageDef>, store: DataStore, cwd: string)
      ensures this.page == page && this.pagesConfig == pagesConfig && this.store == store && this.cwd == cwd
    {
      this.page := page;
      this.pagesConfig := pagesConfig;
      this.store := store;
      this.cwd := cwd;
    }

    function ContextFor(u: string, t: string, scenarioId: string, scenarioData: Value): Context
      reads this
    {
      Context(page.world, pagesConfig, cwd, u, t, scenarioId, scenarioData)
    }

    /** One step of the flow against the page and the store. */
    method RunStep(u: string, t: string, scenarioId: string, scenarioData: Value, index: nat, step: Step, currentPage: string, pageConfig: Option<PageDef>)
      returns (r: Outcome<Error>, currentPage': string, pageConfig': Option<PageDef>)
      modifies page, store
      ensures var run := StepSpec(ContextFor(u, t, scenarioId, scenarioData), index, step, RunState(currentPage, pageConfig, old(page.history), old(store.userOutputs)));
              r == run.outcome && currentPage' == run.state.currentPage && pageConfig' == run.state.pageConfig
              && page.history == run.state.history && store.userOutputs == run.state.outputs
    {
      currentPage', pageConfig' := currentPage, pageConfig;
      if step.page != "" && step.page != currentPage {
        currentPage' := step.page;
        var pc := GetPageConfig(pagesConfig, step.page);
        if pc.Err? {
          return Fail(pc.error), currentPage', pageConfig';
        }
        pageConfig' := Some(pc.value);
      }
      r := RunBody(u, t, scenarioId, scenarioData, index, step, currentPage', pageConfig');
    }

    /** The step once its page is the current one. */
    method RunBody(u: string, t: string, scenarioId: string, scenarioData: Value, index: nat, step: Step, currentPage: string, pageConfig: Option<PageDef>)
      returns (r: Outcome<Error>)
      modifies page, store
      ensures var run := StepBody(ContextFor(u, t, scenarioId, scenarioData), index, step, RunState(currentPage, pageConfig, old(page.history), old(store.userOutputs)));
              r == run.outcome && page.history == run.state.history && store.userOutputs == run.state.outputs
    {
      match step.kind {
        case ActionKind =>
          r := RunAction(u, t, scenarioId, scenarioData, index, step, currentPage, pageConfig);
        case AssertKind =>
          r := RunAssert(u, t, scenarioId, scenarioData, index, step, currentPage, pageConfig);
        case OutputKind =>
          r := RunOutput(u, t, scenarioId, scenarioData, step, currentPage, pageConfig);
        case OtherKind =>
          r := Pass;
      }
    }

    method RunAction(u: string, t: string, scenarioId: string, scenarioData: Value, index: nat, step: Step, ghost currentPage: string, pageConfig: Option<PageDef>)
      returns (r: Outcome<Error>)
      modifies page
      ensures var run := ActionStep(ContextFor(u, t, scenarioId, scenarioData), index, step, RunState(currentPage, pageConfig, old(page.history), store.userOutputs));
              r == run.outcome && page.history == run.state.history
    {
      var el := GetElement(pageConfig, step.element);
      if el.Err? {
        return Fail(el.error);
      }
      var data := Null;
      if step.action in DataRequiredActions {
        data := StepData(scenarioData, StepId(scenarioId, index), step.action);
        if NoData(data) {
          return Pass;
        }
      }
      var e := PerformAction(page.world, page.history, el.value, step.action, data, cwd);
      page.history := e.history;
      r := e.outcome;
    }

    method RunAssert(u: string, t: string, scenarioId: string, scenarioData: Value, index: nat, step: Step, ghost currentPage: string, pageConfig: Option<PageDef>)
      returns (r: Outcome<Error>)
      modifies page
      ensures var run := AssertStep(ContextFor(u, t, scenarioId, scenarioData), index, step, RunState(currentPage, pageConfig, old(page.history), store.userOutputs));
              r == run.outcome && page.history == run.state.history
    {
      var el := GetElement(pageConfig, step.element);
      if el.Err? {
        return Fail(el.error);
      }
      var e := PerformAssert(page.world, page.history, el.value, step.assertType, Expected(ContextFor(u, t, scenarioId, scenarioData), index, step));
      page.history := e.history;
      r := e.outcome;
    }

    method RunOutput(u: string, t: string, scenarioId: string, scenarioData: Value, step: Step, ghost currentPage: string, ghost pageConfig: Option<PageDef>)
      returns (r: Outcome<Error>)
      modifies page, store
      ensures var run := OutputStep(ContextFor(u, t, scenarioId, scenarioData), step, RunState(currentPage, pageConfig, old(page.history), old(store.userOutputs)));
              r == run.outcome && page.history == run.state.history && store.userOutputs == run.state.outputs
    {
      var o := OutputAction(page.world, page.history, step.action);
      page.history := o.history;
      if o.value.Err? {
        return Fail(o.value.error);
      }
      r := store.SetScenarioOutput(u, t, scenarioId, step.key, Str(o.value.value));
    }

    /** `runScenario(userId, testCaseId, scenario, scenarioData)`. */
    method RunScenario(u: string, t: string, scenario: Scenario, scenarioData: Value) returns (r: Outcome<Error>)
      modifies page, store
      ensures var run := ScenarioRun(ContextFor(u, t, scenario.scenarioId, scenarioData), scenario.flow,
                                     old(page.history), old(store.userOutputs));
              r == run.outcome && page.history == run.state.history && store.userOutputs == run.state.outputs
    {
      var c := ContextFor(u, t, scenario.scenarioId, scenarioData);
      var flow := scenario.flow;
      var currentPage := "";
      var pageConfig: Option<PageDef> := None;
      ghost var st0 := RunState("", None, page.history, store.userOutputs);
      for i := 0 to |flow|
        invariant RunFlow(c, flow, i, RunState(currentPage, pageConfig, page.history, store.userOutputs))
               == RunFlow(c, flow, 0, st0)
      {
        r, currentPage, pageConfig := RunStep(u, t, scenario.scenarioId, scenarioData, i, flow[i], currentPage, pageConfig);
        if r.Fail? {
          return;
        }
      }
      r := Pass;
    }
  }
}
