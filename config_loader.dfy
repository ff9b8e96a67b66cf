/** The worker's side of the runtime snapshot, framework/utils/configLoader.js:
    every loader needs the `RUNTIME_DIR` environment variable ("" when it is
    unset), reads one file of that directory and parses it; `loadPages`
    further turns the page array into an object keyed by page name. */
module ConfigLoader {
  import opened Wrappers
  import opened Errors
  import opened Defs
  import opened Files

  /** The env check, `readFileSync` and `JSON.parse` every loader starts with. */
  function ReadDoc(runtime: string, files: map<string, Doc>, name: string): (r: Result<Doc, Error>)
    ensures runtime == "" ==> r == Err(RuntimeDirNotSet)
    ensures runtime != "" && JoinPath(runtime, name) !in files ==> r == Err(FileNotFound(JoinPath(runtime, name)))
    ensures runtime != "" && JoinPath(runtime, name) in files && files[JoinPath(runtime, name)] == Unparsable ==>
              r == Err(MalformedFile(JoinPath(runtime, name)))
    ensures r.Ok? <==> runtime != "" && JoinPath(runtime, name) in files && files[JoinPath(runtime, name)] != Unparsable
    ensures r.Ok? ==> r.value == files[JoinPath(runtime, name)]
  {
    if runtime == "" then Err(RuntimeDirNotSet)
    else
      var path := JoinPath(runtime, name);
      if path !in files then Err(FileNotFound(path))
      else if files[path] == Unparsable then Err(MalformedFile(path))
      else Ok(files[path])
  }

  /** `runJson`: the `run.json` record. */
  function RunJson(runtime: string, files: map<string, Doc>): (r: Result<RunMeta, Error>)
    ensures runtime == "" ==> r == Err(RuntimeDirNotSet)
    ensures var d := ReadDoc(runtime, files, "run.json"); (r.Ok? <==> d.Ok? && d.value.MetaDoc?) && (r.Ok? ==> d.value == MetaDoc(r.value))
  {
    match ReadDoc(runtime, files, "run.json")
    case Ok(MetaDoc(m)) => Ok(m)
    case Ok(_) => Err(MalformedFile(JoinPath(runtime, "run.json")))
    case Err(e) => Err(e)
  }

  /** The parsed `pages.json` array. */
  function PageArray(runtime: string, files: map<string, Doc>): (r: Result<seq<PageDef>, Error>)
    ensures runtime == "" ==> r == Err(RuntimeDirNotSet)
    ensures var d := ReadDoc(runtime, files, "pages.json"); (r.Ok? <==> d.Ok? && d.value.PagesDoc?) && (r.Ok? ==> d.value == PagesDoc(r.value))
  {
    match ReadDoc(runtime, files, "pages.json")
    case Ok(PagesDoc(arr)) => Ok(arr)
    case Ok(_) => Err(MalformedFile(JoinPath(runtime, "pages.json")))
    case Err(e) => Err(e)
  }

  /** `pagesByName` after the loop has seen `arr`: entries without a page name
      are skipped, a later entry replaces an earlier one of the same name. */
  function PagesByName(arr: seq<PageDef>): map<string, PageDef>
  {
    if arr == [] then map[]
    else
      var m := PagesByName(arr[..|arr| - 1]);
      var page := arr[|arr| - 1];
      if page.page == "" then m else m[page.page := page]
  }

  /** `loadPages`. */
  function LoadPagesSpec(runtime: string, files: map<string, Doc>): Result<map<string, PageDef>, Error>
  {
    match PageArray(runtime, files)
    case Ok(arr) => Ok(PagesByName(arr))
    case Err(e) => Err(e)
  }

  method LoadPages(runtime: string, files: map<string, Doc>) returns (r: Result<map<string, PageDef>, Error>)
    ensures r == LoadPagesSpec(runtime, files)
    ensures runtime == "" ==> r == Err(RuntimeDirNotSet)
  {
    var parsed := PageArray(runtime, files);
    if parsed.Err? {
      return Err(parsed.error);
    }
    var arr := parsed.value;
    var pagesByName: map<string, PageDef> := map[];
    for i := 0 to |arr|
      invariant pagesByName == PagesByName(arr[..i])
    {
      assert arr[..i + 1][..i] == arr[..i];
      var page := arr[i];
      if page.page == "" {
        continue;
      }
      pagesByName := pagesByName[page.page := page];
    }
    assert arr[..|arr|] == arr;
    r := Ok(pagesByName);
  }

  /** A name is a key exactly when some entry carries it, and "" never is. */
  lemma {:induction false} PagesByNameKeys(arr: seq<PageDef>)
    ensures forall name :: name in PagesByName(arr) <==>
              name != "" && exists i :: 0 <= i < |arr| && arr[i].page == name
  {
    if arr != [] {
      var init := arr[..|arr| - 1];
      PagesByNameKeys(init);
      assert forall i :: 0 <= i < |init| ==> init[i] == arr[i];
    }
  }

  /** Entry `i` carries `name` and no later entry does. */
  ghost predicate LastNamed(arr: seq<PageDef>, i: int, name: string)
  {
    0 <= i < |arr| && arr[i].page == name && forall j :: i < j < |arr| ==> arr[j].page != name
  }

  lemma {:induction false} PagesByNameLastIndex(arr: seq<PageDef>, name: string) returns (i: int)
    requires name in PagesByName(arr)
    ensures LastNamed(arr, i, name) && arr[i] == PagesByName(arr)[name]
  {
    PagesByNameKeys(arr);
    var init := arr[..|arr| - 1];
    var last := arr[|arr| - 1];
    if last.page == name {
      assert PagesByName(arr) == PagesByName(init)[name := last];
      i := |arr| - 1;
    } else {
      assert PagesByName(arr)[name] == PagesByName(init)[name];
      i := PagesByNameLastIndex(init, name);
      assert init[i] == arr[i];
      assert forall j :: i < j < |init| ==> init[j] == arr[j];
    }
  }

  /** Each key holds the last entry with that name, whole. */
  lemma PagesByNameLastWins(arr: seq<PageDef>, name: string)
    requires name in PagesByName(arr)
    ensures exists i :: LastNamed(arr, i, name) && arr[i] == PagesByName(arr)[name]
  {
    var i := PagesByNameLastIndex(arr, name);
    assert LastNamed(arr, i, name) && arr[i] == PagesByName(arr)[name];
  }

  /** `loadScenarios`: the parsed array as it is. */
  function LoadScenarios(runtime: string, files: map<string, Doc>): (r: Result<seq<Scenario>, Error>)
    ensures runtime == "" ==> r == Err(RuntimeDirNotSet)
    ensures var d := ReadDoc(runtime, files, "scenarios.json"); (r.Ok? <==> d.Ok? && d.value.ScenariosDoc?) && (r.Ok? ==> d.value == ScenariosDoc(r.value))
  {
    match ReadDoc(runtime, files, "scenarios.json")
    case Ok(ScenariosDoc(arr)) => Ok(arr)
    case Ok(_) => Err(MalformedFile(JoinPath(runtime, "scenarios.json")))
    case Err(e) => Err(e)
  }

  /** `loadTestCases`: the parsed array as it is. */
  function LoadTestCases(runtime: string, files: map<string, Doc>): (r: Result<seq<Testcase>, Error>)
    ensures runtime == "" ==> r == Err(RuntimeDirNotSet)
    ensures var d := ReadDoc(runtime, files, "testcases.json"); (r.Ok? <==> d.Ok? && d.value.TestcasesDoc?) && (r.Ok? ==> d.value == TestcasesDoc(r.value))
  {
    match ReadDoc(runtime, files, "testcases.json")
    case Ok(TestcasesDoc(arr)) => Ok(arr)
    case Ok(_) => Err(MalformedFile(JoinPath(runtime, "testcases.json")))
    case Err(e) => Err(e)
  }

  /** `loadTestData`: the parsed array as it is. */
  function LoadTestData(runtime: string, files: map<string, Doc>): (r: Result<seq<TestData>, Error>)
    ensures runtime == "" ==> r == Err(RuntimeDirNotSet)
    ensures var d := ReadDoc(runtime, files, "testdata.json"); (r.Ok? <==> d.Ok? && d.value.TestDataDoc?) && (r.Ok? ==> d.value == TestDataDoc(r.value))
  {
    match ReadDoc(runtime, files, "testdata.json")
    case Ok(TestDataDoc(arr)) => Ok(arr)
    case Ok(_) => Err(MalformedFile(JoinPath(runtime, "testdata.json")))
    case Err(e) => Err(e)
  }
}
