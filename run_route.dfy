/** The guard of the `/runTestcases` route (server/routes/run.js): a user with
    a run in progress is turned away, the testcases to run are chosen by the
    request's mode, an empty choice is turned away too, and only then is the
    pipeline started, without waiting for it. */
module RunRoute {
  import opened Wrappers
  import opened Js
  import opened Errors
  import opened Files
  import opened RunPipeline

  /** The request body; `testcaseIds` is `None` when the field is absent. */
  datatype Request = Request(
    mode: string,
    testcaseIds: Option<seq<string>>,
    groupId: string,
    tag: string,
    selectedBrowsers: seq<string>,
    runMode: string,
    viewMode: string,
    time: string)

  /** The id queries of the route: all of a user's testcases, those with a
      tag, those of a group. */
  datatype RouteDb = RouteDb(
    allIds: string -> seq<string>,
    byTag: (string, string) -> seq<string>,
    byGroup: string -> seq<string>)

  datatype Response =
    | Rejected(status: nat, message: string)
    | Triggered(message: string, testcaseIds: seq<string>)

  /** `idsToRun` after the four `mode` branches; any other mode leaves it
      empty. */
  function IdsToRun(rdb: RouteDb, u: string, req: Request): seq<string>
  {
    if req.mode == "all" then rdb.allIds(u)
    else if req.mode == "byTag" then rdb.byTag(u, req.tag)
    else if req.mode == "byIds" then (if req.testcaseIds.Some? then req.testcaseIds.value else [])
    else if req.mode == "byGroup" then rdb.byGroup(req.groupId)
    else []
  }

  predicate IsRunning(runs: map<string, RunRecord>, u: string)
  {
    u in runs && runs[u].status == Running
  }

  /** The route's answer, before the pipeline is started. */
  function Admit(runs: map<string, RunRecord>, rdb: RouteDb, u: string, req: Request): Response
  {
    if IsRunning(runs, u) then Rejected(400, "A run is already in progress")
    else
      var ids := IdsToRun(rdb, u, req);
      if |ids| == 0 then Rejected(400, "No testcases found to run")
      else Triggered("Triggered execution for " + DecimalString(|ids|) + " testcases", ids)
  }

  /** A run is triggered exactly when the user has none in progress and the
      mode selects at least one testcase, and then it runs those. */
  lemma AdmitMeaning(runs: map<string, RunRecord>, rdb: RouteDb, u: string, req: Request)
    ensures Admit(runs, rdb, u, req).Triggered? <==> !IsRunning(runs, u) && |IdsToRun(rdb, u, req)| > 0
    ensures IsRunning(runs, u) ==> Admit(runs, rdb, u, req) == Rejected(400, "A run is already in progress")
    ensures !IsRunning(runs, u) && |IdsToRun(rdb, u, req)| == 0 ==>
              Admit(runs, rdb, u, req) == Rejected(400, "No testcases found to run")
    ensures Admit(runs, rdb, u, req).Triggered? ==> Admit(runs, rdb, u, req).testcaseIds == IdsToRun(rdb, u, req)
  {
  }

  /** Mode `byIds` runs the given ids, none when the field is absent. */
  lemma ByIdsUsesRequest(rdb: RouteDb, u: string, req: Request)
    requires req.mode == "byIds"
    ensures req.testcaseIds.None? ==> IdsToRun(rdb, u, req) == []
    ensures req.testcaseIds.Some? ==> IdsToRun(rdb, u, req) == req.testcaseIds.value
  {
  }

  /** An unknown mode is a rejected request, unless a run is in progress,
      which is rejected first. */
  lemma UnknownModeRejected(runs: map<string, RunRecord>, rdb: RouteDb, u: string, req: Request)
    requires req.mode !in {"all", "byTag", "byIds", "byGroup"}
    ensures IdsToRun(rdb, u, req) == []
    ensures Admit(runs, rdb, u, req).Rejected? && Admit(runs, rdb, u, req).status == 400
  {
  }

  /** `POST /runTestcases`: the answer is given whatever the pipeline then
      does; a rejected request changes no record and no file. */
  method RunTestcases(reg: RunRegistry, fs: FileSystem, rdb: RouteDb, db: Db, cwd: string, u: string, req: Request,
                      startedAt: Time, failedAt: Time, createdAt: string, pid: nat)
    returns (resp: Response)
    requires reg.Valid()
    modifies reg, fs
    ensures reg.Valid()
    ensures resp == Admit(old(reg.runs), rdb, u, req)
    ensures resp.Rejected? ==> reg.runs == old(reg.runs) && fs.files == old(fs.files)
    ensures resp.Triggered? ==>
              var outcome := PipelineOutcome(db, cwd, resp.testcaseIds, req.selectedBrowsers, req.runMode, req.time, u);
              && reg.runs == old(reg.runs)[u := RecordAfter(outcome, startedAt, failedAt, pid)]
              && fs.files == FilesAfter(old(fs.files), db, cwd, resp.testcaseIds, req.runMode, req.time, u, createdAt)
  {
    resp := Admit(reg.runs, rdb, u, req);
    if resp.Triggered? {
      var _ := ExecuteRunPipeline(reg, fs, db, cwd, resp.testcaseIds, req.selectedBrowsers, req.runMode, req.time, u,
                                  startedAt, failedAt, createdAt, pid);
    }
  }
}
