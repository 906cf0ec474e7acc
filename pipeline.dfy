/** One job of the current worker (styleguard.py) as a function of the workspace and of
    what the outside world answers, and the worker loop as a fold over its queue. */
module Pipeline {
  import opened Text
  import opened Errors
  import opened Settings
  import opened Validation
  import opened FileFilter
  import opened Remotes
  import opened WorkDirs
  import opened Styler
  import opened StyleCheck
  import opened Feedback

  /** The one call of a job that raises something other than PRHandlerException, if any. */
  datatype Fault =
    | MergeableQuery  // asking GitHub whether the PR is mergeable
    | PrQuery         // fetching the repository and PR objects in get_pr
    | StylerDownload  // reading or writing a styler file
    | PatchWrite      // writing the patch file
    | GistUpload      // creating the gist
    | StatusPost      // posting a commit status

  /** Everything a job learns from git, GitHub and the formatter. */
  datatype JobOracle = JobOracle(
    mergeable: Mergeability,    // the `mergeable` flag after the delay
    remoteListing: string,      // output of `git remote -v`
    diffNames: string,          // output of `git diff --name-only --diff-filter=AM`
    prFiles: seq<ChangedFile>,  // the PR's file list from the API
    restyled: set<string>,      // paths the formatter rewrites
    applyCheck: string,         // output of `git apply --index --check`
    gistUrl: string,            // html_url of a created gist
    apiBaseSha: string,         // base.sha of the PR as `get_pull` returns it
    apiHeadSha: string,         // head.sha of the PR as `get_pull` returns it
    fault: Option<Fault>)

  /** The workspace and published effects at the point a step ended, and how it ended. */
  datatype Stage<T> = Stage(ws: Workspace, effects: seq<Effect>, result: Result<T>)

  function Crashed(what: string): Failure {
    Crash(what + " raised")
  }

  // ---------------------------------------------------------------- retrieval

  predicate Fetchable(f: ChangedFile) {
    f.status == "modified" || f.status == "added"
  }

  /** `file_process_pr`'s `changed_files`: added or modified files, in API order. */
  function ChangedNames(files: seq<ChangedFile>): (names: seq<string>)
    ensures |names| <= |files|
    ensures forall p :: p in names <==> exists k :: 0 <= k < |files| && Fetchable(files[k]) && files[k].filename == p
  {
    if files == [] then []
    else
      var last := files[|files| - 1];
      var init := ChangedNames(files[..|files| - 1]);
      assert forall k :: 0 <= k < |files| - 1 ==> files[..|files| - 1][k] == files[k];
      if Fetchable(last) then init + [last.filename] else init
  }

  /** `file_process_pr`'s `filtered_files`: the changed files the filter keeps, each checked
      on its own as it arrives. */
  function FilteredNames(files: seq<ChangedFile>): seq<string> {
    if files == [] then []
    else
      var last := files[|files| - 1];
      var init := FilteredNames(files[..|files| - 1]);
      if Fetchable(last) && Keep(last.filename) then init + [last.filename] else init
  }

  /** Filtering each file as it is appended gives the filtered changed list. */
  lemma {:induction false} FilteredIsFilterOfChanged(files: seq<ChangedFile>)
    ensures FilteredNames(files) == FilterFileList(ChangedNames(files))
  {
    if files != [] {
      var last := files[|files| - 1];
      FilteredIsFilterOfChanged(files[..|files| - 1]);
      if Fetchable(last) {
        FilterAppend(ChangedNames(files[..|files| - 1]), [last.filename]);
        assert FilterFileList([last.filename]) == if Keep(last.filename) then [last.filename] else [];
      }
    }
  }

  /** What a retrieval leaves behind: the repository, every changed path, and the
      in-scope ones that are style-checked. */
  datatype Retrieved = Retrieved(repo: RepoDir, changed: seq<string>, filtered: seq<string>)

  function NoBaseRemoteMessage(gitUrl: string): string {
    "Base remote does not exist yet, with URL " + gitUrl + " Please create it first in the local git repo."
  }

  /** `git_process_pr` as written: the raw `remote -v` listing is scanned line by line, and
      a line of fewer than three tokens raises IndexError, which is not a PRHandlerException.
      It agrees with the corrected `GitProcessPr` on every listing without such a line. */
  function GitProcessPrAsWritten(pr: PullRequest, o: JobOracle, repo: RepoDir): (r: Result<Retrieved>)
    ensures FirstShortLine(RemoteLines(o.remoteListing)).Some? ==> r.Err? && r.failure.Crash?
    ensures FirstShortLine(RemoteLines(o.remoteListing)).None? ==> r == GitProcessPr(pr, o, repo)
  {
    match ScanOutcome(RemoteLines(o.remoteListing), pr.base.repo.gitUrl, pr.base.repo.sshUrl)
    case ShortLine(_) => Err(Crash("IndexError: list index out of range"))
    case NoBaseRemote => Err(HandlerError(NoBaseRemoteMessage(pr.base.repo.gitUrl)))
    case Found(_) =>
      var changed := Words(o.diffNames);
      Ok(Retrieved(CheckoutBranch(CheckoutIdle(repo), PrBranchName(pr.number)), changed, FilterFileList(changed)))
  }

  /** git ends every line of `remote -v` with a newline, so as written every retrieval from
      a mirror with remotes escapes `run`. */
  lemma AsWrittenRetrievalCrashes(pr: PullRequest, o: JobOracle, repo: RepoDir)
    requires o.remoteListing != [] && o.remoteListing[|o.remoteListing| - 1] == '\n'
    ensures GitProcessPrAsWritten(pr, o, repo).Err? && GitProcessPrAsWritten(pr, o, repo).failure.Crash?
  {
    UnstrippedListingAlwaysRaises(o.remoteListing, pr.base.repo.gitUrl, pr.base.repo.sshUrl);
  }

  /** `git_process_pr` corrected: back to master, find the base remote (a missing one
      raises), then the PR lands on `pr-<n>`; a dirty tree refuses both checkouts. */
  function GitProcessPr(pr: PullRequest, o: JobOracle, repo: RepoDir): (r: Result<Retrieved>)
    ensures r.Err? <==> BaseRemote(o.remoteListing, pr.base.repo.gitUrl, pr.base.repo.sshUrl).None?
    ensures r.Err? ==> r.failure.HandlerError?
    ensures r.Ok? && !repo.dirty ==> r.value.repo == RepoDir(OnBranch(PrBranchName(pr.number)), false)
    ensures r.Ok? && repo.dirty ==> r.value.repo == repo
    ensures r.Ok? ==> r.value.changed == Words(o.diffNames)
    ensures r.Ok? ==> r.value.filtered == FilterFileList(r.value.changed)
  {
    match BaseRemote(o.remoteListing, pr.base.repo.gitUrl, pr.base.repo.sshUrl)
    case None =>
      Err(HandlerError(NoBaseRemoteMessage(pr.base.repo.gitUrl)))
    case Some(_) =>
      var changed := Words(o.diffNames);
      Ok(Retrieved(CheckoutBranch(CheckoutIdle(repo), PrBranchName(pr.number)), changed, FilterFileList(changed)))
  }

  /** `file_process_pr`: download the in-scope files and commit them to a fresh repository. */
  function FileProcessPr(o: JobOracle): (r: Retrieved)
    ensures r.changed == ChangedNames(o.prFiles)
    ensures r.filtered == FilterFileList(r.changed)
    ensures r.repo == RepoDir(PrSnapshot(r.filtered), false)
  {
    FilteredIsFilterOfChanged(o.prFiles);
    Retrieved(RepoDir(PrSnapshot(FilteredNames(o.prFiles)), false), ChangedNames(o.prFiles), FilteredNames(o.prFiles))
  }

  /** `get_pr`: retrieve the PR by the configured method, then fetch the styler from the
      commit `StylerSource` picks, read off the PR that `get_pull` returns now, which
      may be newer than the webhook's payload. An unknown fetch method leaves `changed_files` unbound. */
  function GetPr(cfg: Config, pr: PullRequest, o: JobOracle, ws: Workspace): (s: Stage<seq<string>>)
    ensures s.effects == []
    ensures s.result.Ok? ==> Retrieval(cfg, pr, o, ws).Ok? && s.ws.styler == ws.styler + FetchedStyler(
      if exists k :: 0 <= k < |StylerFiles| && StylerFiles[k] in Retrieval(cfg, pr, o, ws).value.changed
      then o.apiHeadSha else o.apiBaseSha)
    ensures s.ws.repo.dirty ==> ws.repo.dirty
    ensures s.ws.styler == ws.styler || s.result.Ok?
  {
    if o.fault == Some(PrQuery) then Stage(ws, [], Err(Crashed("get_pull")))
    else
      match Retrieval(cfg, pr, o, ws)
      case Err(f) =>
        // the mirror was put back on master before the base remote was looked up
        var ws1 := if cfg.fetchMethod.GitMirror? then ws.(repo := CheckoutIdle(ws.repo)) else ws;
        Stage(ws1, [], Err(f))
      case Ok(got) =>
        var ws1 := ws.(repo := got.repo);
        StylerCommitChoice(got.changed, o.apiBaseSha, o.apiHeadSha);
        var commit := SourceCommit(StylerSource(got.changed), o.apiBaseSha, o.apiHeadSha).value;
        if o.fault == Some(StylerDownload) then Stage(ws1, [], Err(Crashed("get_contents")))
        else Stage(ws1.(styler := ws.styler + FetchedStyler(commit)), [], Ok(got.filtered))
  }

  /** The retrieval branch of `get_pr`. */
  function Retrieval(cfg: Config, pr: PullRequest, o: JobOracle, ws: Workspace): (r: Result<Retrieved>)
    ensures r.Ok? ==> !r.value.repo.dirty || ws.repo.dirty
    ensures r.Ok? ==> r.value.filtered == FilterFileList(r.value.changed)
    ensures cfg.fetchMethod.UnknownFetch? ==> r.Err? && r.failure.Crash?
  {
    match cfg.fetchMethod
    case GitMirror => GitProcessPr(pr, o, ws.repo)
    case FileFetch => Ok(FileProcessPr(o))
    case UnknownFetch(_) => Err(Crash("UnboundLocalError: changed_files"))
  }

  // ---------------------------------------------------------------- one job

  /** The body of the try block in `run`: retrieve, style, publish a gist for a patch,
      then report unless feedback is suppressed. */
  function Body(cfg: Config, pr: PullRequest, o: JobOracle, ws: Workspace): (s: Stage<StyleResult>)
    ensures s.ws.repo.dirty ==> ws.repo.dirty || o.fault == Some(PatchWrite)
  {
    var g := GetPr(cfg, pr, o, ws);
    match g.result
    case Err(f) => Stage(g.ws, [], Err(f))
    case Ok(files) => StyleAndReport(cfg, pr, o, g.ws, files)
  }

  /** `check_style` on the retrieved files, then the reporting steps on its result. */
  function StyleAndReport(cfg: Config, pr: PullRequest, o: JobOracle, ws: Workspace, files: seq<string>): (s: Stage<StyleResult>)
    ensures s.ws.styler == ws.styler && s.ws.repo.kind == ws.repo.kind
    ensures s.ws.repo.dirty <==>
      (s.result.Err? && s.result.failure.Crash? && o.fault == Some(PatchWrite)
       && (ws.repo.dirty || AnyRestyled(files, o.restyled)))
  {
    var c := CheckStyle(pr.number, pr.htmlUrl, files, o.restyled, o.fault == Some(PatchWrite),
                        o.applyCheck, ws.repo);
    var ws1 := ws.(repo := c.repo);
    match c.result
    case Err(f) => Stage(ws1, c.effects, Err(f))
    case Ok(result) =>
      var r := Report(cfg, pr, o, result);
      Stage(ws1, c.effects + r.effects, r.result)
  }

  datatype Reported = Reported(effects: seq<Effect>, result: Result<StyleResult>)

  /** After a successful style check: a gist for a patch, then the status unless feedback
      is suppressed. A failure here is never a failed patch write. */
  function Report(cfg: Config, pr: PullRequest, o: JobOracle, result: StyleResult): (r: Reported)
    ensures r.result.Ok? ==> r.result.value == result
    ensures result.patchFileName != "" && o.fault != Some(GistUpload) ==>
      |r.effects| >= 1 && r.effects[0] == CreateGist(result, pr.head.sha)
    ensures result.patchFileName == "" ==> forall k :: 0 <= k < |r.effects| ==> !r.effects[k].GistCreated?
    ensures cfg.suppressFeedback ==> forall k :: 0 <= k < |r.effects| ==> !r.effects[k].StatusCreated?
    ensures var status := PublishResults(cfg.feedbackMethod, result,
        if result.patchFileName != "" then Some(o.gistUrl) else None, pr.head.sha);
      r.result.Ok? && !cfg.suppressFeedback ==>
        status.Ok? && r.effects != [] && r.effects[|r.effects| - 1] == status.value
  {
    var patched := result.patchFileName != "";
    if patched && o.fault == Some(GistUpload) then Reported([], Err(Crashed("create_gist")))
    else
      var effects := if patched then [CreateGist(result, pr.head.sha)] else [];
      var gist := if patched then Some(o.gistUrl) else None;
      if cfg.suppressFeedback then Reported(effects, Ok(result))
      else
        match PublishResults(cfg.feedbackMethod, result, gist, pr.head.sha)
        case Err(f) => Reported(effects, Err(f))
        case Ok(status) =>
          if o.fault == Some(StatusPost) then Reported(effects, Err(Crashed("create_status")))
          else Reported(effects + [status], Ok(result))
  }

  /** How a dequeued job ends. `failure` is None when `run` reaches `task_done`. */
  datatype JobEnd = JobEnd(ws: Workspace, effects: seq<Effect>, verdict: Verdict, failure: Option<Failure>)

  /** One iteration of `run` after the dequeue: validation outside the try block (its
      pending status and its GitHub query can raise there, with no clean-up), then for a
      valid PR the body, with `clean_up` in the finally clause; a PRHandlerException is
      logged and swallowed, anything else propagates after the clean-up. */
  function RunJob(cfg: Config, pr: PullRequest, o: JobOracle, ws: Workspace): (e: JobEnd)
    ensures e.verdict == ValidatePr(cfg, pr, o.mergeable)
    ensures e.failure.Some? ==> e.failure.value.Crash?
    ensures ValidatePr(cfg, pr, o.mergeable).verified && o.fault != Some(MergeableQuery) ==>
      var s := Body(cfg, pr, o, ws);
      && (e.failure.Some? <==> s.result.Err? && s.result.failure.Crash?)
      && e.ws == CleanUp(cfg.fetchMethod, s.ws)
      && e.effects == s.effects
  {
    var v := ValidatePr(cfg, pr, o.mergeable);
    if v.queried && o.fault == Some(MergeableQuery) then
      JobEnd(ws, [], v, Some(Crashed("get_pull")))
    else if v.postsPending && o.fault == Some(StatusPost) then
      JobEnd(ws, [], v, Some(Crashed("create_status")))
    else
      var pending := if v.postsPending then [StatusCreated(pr.head.sha, "pending", PendingDescription, None)] else [];
      if !v.verified then JobEnd(ws, pending, v, None)
      else
        var s := Body(cfg, pr, o, ws);
        var cleaned := CleanUp(cfg.fetchMethod, s.ws);
        match s.result
        case Ok(_) => JobEnd(cleaned, s.effects, v, None)
        case Err(HandlerError(_)) => JobEnd(cleaned, s.effects, v, None)
        case Err(Crash(m)) => JobEnd(cleaned, s.effects, v, Some(Crash(m)))
  }

  /** A PR that fails validation never touches the workspace. */
  lemma SkippedJobLeavesWorkspace(cfg: Config, pr: PullRequest, o: JobOracle, ws: Workspace)
    requires !ValidatePr(cfg, pr, o.mergeable).verified
    ensures RunJob(cfg, pr, o, ws).ws == ws
    ensures RunJob(cfg, pr, o, ws).failure.None? ==>
      RunJob(cfg, pr, o, ws).effects == if ValidatePr(cfg, pr, o.mergeable).postsPending
        then [StatusCreated(pr.head.sha, "pending", PendingDescription, None)] else []
  {
  }

  /** Whatever the body does, a validated job ends with the styler directory emptied and
      the repository emptied (per-file mode) or, in git mode, on master unless the tree is
      dirty; starting from a clean tree, only a job that ends the thread leaves it dirty. */
  lemma ValidatedJobIsCleanedUp(cfg: Config, pr: PullRequest, o: JobOracle, ws: Workspace)
    requires ValidatePr(cfg, pr, o.mergeable).verified
    requires o.fault != Some(MergeableQuery)
    ensures RunJob(cfg, pr, o, ws).ws.styler == []
    ensures cfg.fetchMethod.GitMirror? && !RunJob(cfg, pr, o, ws).ws.repo.dirty ==>
      RunJob(cfg, pr, o, ws).ws.repo.kind == OnBranch(IdleBranch)
    ensures cfg.fetchMethod.GitMirror? && !ws.repo.dirty && RunJob(cfg, pr, o, ws).ws.repo.dirty ==>
      RunJob(cfg, pr, o, ws).failure.Some?
    ensures cfg.fetchMethod.FileFetch? ==> RunJob(cfg, pr, o, ws).ws.repo == RepoDir(NoRepo, false)
  {
  }

  /** A worker that starts a job idle is idle after it, validated or not, failed or not,
      except when writing the patch raised in git mode: then the restyled files are still
      uncommitted in the mirror. */
  lemma {:induction false} JobPreservesIdle(cfg: Config, pr: PullRequest, o: JobOracle, ws: Workspace)
    requires Idle(cfg.fetchMethod, ws)
    requires !(cfg.fetchMethod.GitMirror? && o.fault == Some(PatchWrite))
    ensures Idle(cfg.fetchMethod, RunJob(cfg, pr, o, ws).ws)
  {
    var e := RunJob(cfg, pr, o, ws);
    if e.verdict.verified && !(e.verdict.postsPending && o.fault == Some(StatusPost))
       && o.fault != Some(MergeableQuery) {
      var s := Body(cfg, pr, o, ws);
      CleanUpRestoresIdle(cfg.fetchMethod, s.ws);
    }
  }

  /** Git mode: a patch-write crash ends the thread with the mirror still dirty on the PR
      branch, since the clean-up's checkout of master is refused. */
  lemma PatchWriteCrashLeavesMirrorDirty(cfg: Config, pr: PullRequest, o: JobOracle, ws: Workspace)
    requires cfg.fetchMethod.GitMirror? && Idle(cfg.fetchMethod, ws)
    requires ValidatePr(cfg, pr, o.mergeable).verified
    requires o.fault == Some(PatchWrite)
    requires BaseRemote(o.remoteListing, pr.base.repo.gitUrl, pr.base.repo.sshUrl).Some?
    requires exists k :: 0 <= k < |Words(o.diffNames)| && Keep(Words(o.diffNames)[k]) && Words(o.diffNames)[k] in o.restyled
    ensures RunJob(cfg, pr, o, ws).failure.Some?
    ensures RunJob(cfg, pr, o, ws).ws.repo == RepoDir(OnBranch(PrBranchName(pr.number)), true)
  {
    var changed := Words(o.diffNames);
    var k :| 0 <= k < |changed| && Keep(changed[k]) && changed[k] in o.restyled;
    FilterMembership(changed, changed[k]);
    var files := FilterFileList(changed);
    var j :| 0 <= j < |files| && files[j] == changed[k];
    GitPatchWriteBody(cfg, pr, o, ws);
  }

  /** The body of a git-mode job whose patch write fails after the formatter changed an
      in-scope file: it raises a crash on the PR branch with the tree dirty. */
  lemma GitPatchWriteBody(cfg: Config, pr: PullRequest, o: JobOracle, ws: Workspace)
    requires cfg.fetchMethod.GitMirror? && !ws.repo.dirty
    requires o.fault == Some(PatchWrite)
    requires BaseRemote(o.remoteListing, pr.base.repo.gitUrl, pr.base.repo.sshUrl).Some?
    requires AnyRestyled(FilterFileList(Words(o.diffNames)), o.restyled)
    ensures Body(cfg, pr, o, ws).result.Err? && Body(cfg, pr, o, ws).result.failure.Crash?
    ensures Body(cfg, pr, o, ws).ws.repo == RepoDir(OnBranch(PrBranchName(pr.number)), true)
  {
    var g := GetPr(cfg, pr, o, ws);
    assert g.result == Ok(FilterFileList(Words(o.diffNames)));
    assert g.ws.repo == RepoDir(OnBranch(PrBranchName(pr.number)), false);
  }

  /** When everything succeeds, the last thing a validated job does is post exactly one
      status on the head commit: red with the gist's link when the formatter changed
      something, green otherwise. */
  lemma {:induction false} SuccessfulJobReports(cfg: Config, pr: PullRequest, o: JobOracle, ws: Workspace)
    requires ValidatePr(cfg, pr, o.mergeable).verified
    requires o.fault.None? && o.applyCheck == ""
    requires cfg.fetchMethod.FileFetch? && cfg.feedbackMethod == "status" && !cfg.suppressFeedback
    ensures var e := RunJob(cfg, pr, o, ws);
      && e.failure.None? && e.effects != []
      && e.effects[|e.effects| - 1].StatusCreated?
      && e.effects[|e.effects| - 1].commit == pr.head.sha
      && (e.effects[|e.effects| - 1].state == "failure" <==>
          exists k :: 0 <= k < |FilteredNames(o.prFiles)| && FilteredNames(o.prFiles)[k] in o.restyled)
  {
    var files := FilteredNames(o.prFiles);
    FileModeRetrieves(cfg, pr, o, ws);
    var g := GetPr(cfg, pr, o, ws);
    FaultFreeReport(cfg, pr, o, g.ws, files);
    var s := Body(cfg, pr, o, ws);
    assert s == StyleAndReport(cfg, pr, o, g.ws, files);
    assert RunJob(cfg, pr, o, ws).effects == s.effects;
  }

  /** A fault-free per-file retrieval hands the filtered files over on a clean snapshot. */
  lemma FileModeRetrieves(cfg: Config, pr: PullRequest, o: JobOracle, ws: Workspace)
    requires o.fault.None? && cfg.fetchMethod.FileFetch?
    ensures GetPr(cfg, pr, o, ws).result == Ok(FilteredNames(o.prFiles))
    ensures GetPr(cfg, pr, o, ws).ws.repo == RepoDir(PrSnapshot(FilteredNames(o.prFiles)), false)
  {
  }

  /** On a clean tree with no faults, styling and status feedback end with the status on
      the head commit, red iff some file was restyled. */
  lemma FaultFreeReport(cfg: Config, pr: PullRequest, o: JobOracle, ws: Workspace, files: seq<string>)
    requires o.fault.None? && o.applyCheck == "" && !ws.repo.dirty
    requires cfg.feedbackMethod == "status" && !cfg.suppressFeedback
    ensures var s := StyleAndReport(cfg, pr, o, ws, files);
      && s.result.Ok? && s.effects != []
      && s.effects[|s.effects| - 1].StatusCreated?
      && s.effects[|s.effects| - 1].commit == pr.head.sha
      && (s.effects[|s.effects| - 1].state == "failure" <==> AnyRestyled(files, o.restyled))
  {
    var c := CheckStyle(pr.number, pr.htmlUrl, files, o.restyled, false, "", ws.repo);
    assert c.result.Ok?;
    var patched := c.result.value.patchFileName != "";
    assert patched <==> AnyRestyled(files, o.restyled);
    var gist := if patched then Some(o.gistUrl) else None;
    var p := PublishResults(cfg.feedbackMethod, c.result.value, gist, pr.head.sha);
    assert p.Ok? && (p.value.state == "failure" <==> patched);
    var r := Report(cfg, pr, o, c.result.value);
    assert r.result.Ok? && r.effects[|r.effects| - 1] == p.value;
    var s := StyleAndReport(cfg, pr, o, ws, files);
    assert s.effects == c.effects + r.effects;
  }


  // ---------------------------------------------------------------- the worker loop

  /** The worker thread between two dequeues: the shared queue (its items and the count of
      unfinished tasks), the workspace, everything published so far, whether the thread is
      still running, and how many payloads it has taken. */
  datatype WorkerState = WorkerState(
    queue: seq<PullRequest>,
    unfinished: nat,
    ws: Workspace,
    effects: seq<Effect>,
    alive: bool,
    dequeued: nat)

  /** `Queue.task_done` is called once per `put` at most: every queued item is unfinished. */
  predicate Accounted(w: WorkerState) {
    w.unfinished >= |w.queue|
  }

  /** One iteration of `run`: take the head of the queue, run the job, then `task_done`
      unless an exception escaped, which ends the thread. `task_done` with no unfinished
      task raises ValueError. */
  function Step(cfg: Config, w: WorkerState, o: JobOracle): (w': WorkerState)
    requires w.alive && w.queue != []
    ensures w'.queue == w.queue[1..] && w'.dequeued == w.dequeued + 1
    ensures w'.effects == w.effects + RunJob(cfg, w.queue[0], o, w.ws).effects
    ensures IsPrefix(w.effects, w'.effects)
    ensures w'.ws == RunJob(cfg, w.queue[0], o, w.ws).ws
    ensures w'.alive <==> RunJob(cfg, w.queue[0], o, w.ws).failure.None? && w.unfinished > 0
    ensures w'.unfinished == if w'.alive then w.unfinished - 1 else w.unfinished
  {
    var e := RunJob(cfg, w.queue[0], o, w.ws);
    var rest := w.(queue := w.queue[1..], dequeued := w.dequeued + 1, ws := e.ws, effects := w.effects + e.effects);
    if e.failure.Some? || w.unfinished == 0 then rest.(alive := false)
    else rest.(unfinished := w.unfinished - 1)
  }

  /** A job that completes settles its task; the balance is kept. */
  lemma StepKeepsAccounts(cfg: Config, w: WorkerState, o: JobOracle)
    requires w.alive && w.queue != [] && Accounted(w)
    ensures Accounted(Step(cfg, w, o))
    ensures Step(cfg, w, o).alive ==> Step(cfg, w, o).unfinished == w.unfinished - 1
    ensures Step(cfg, w, o).alive <==> RunJob(cfg, w.queue[0], o, w.ws).failure.None?
  {
  }

  /** The `i`-th payload the thread takes is answered by `world(i)`. */
  function Drain(cfg: Config, w: WorkerState, world: nat -> JobOracle): (d: WorkerState)
    ensures d.queue == [] || !d.alive
    ensures w.dequeued <= d.dequeued <= w.dequeued + |w.queue|
    ensures d.queue == w.queue[d.dequeued - w.dequeued..]
    decreases |w.queue|
  {
    if !w.alive || w.queue == [] then w
    else
      var next := Step(cfg, w, world(w.dequeued));
      var d := Drain(cfg, next, world);
      assert w.queue[1..][d.dequeued - next.dequeued..] == w.queue[d.dequeued - w.dequeued..];
      d
  }

  /** Running until the queue is empty or the thread dies settles every task that was
      taken, except the one whose exception ended the thread; so when it survives and the
      queue was balanced, `Queue.join` returns. */
  lemma {:induction false} DrainAccounting(cfg: Config, w: WorkerState, world: nat -> JobOracle)
    requires w.alive && Accounted(w)
    ensures var d := Drain(cfg, w, world);
      && Accounted(d)
      && d.unfinished + (d.dequeued - w.dequeued) == w.unfinished + (if d.alive then 0 else 1)
      && (d.alive && w.unfinished == |w.queue| ==> d.unfinished == 0)
    decreases |w.queue|
  {
    if w.queue != [] {
      var next := Step(cfg, w, world(w.dequeued));
      assert Drain(cfg, w, world) == Drain(cfg, next, world);
      if next.alive {
        DrainAccounting(cfg, next, world);
      }
    }
  }

  predicate IsPrefix<T(==)>(a: seq<T>, b: seq<T>) {
    |a| <= |b| && b[..|a|] == a
  }

  /** What has been published is never retracted: each job's effects are appended. */
  lemma {:induction false} DrainExtendsEffects(cfg: Config, w: WorkerState, world: nat -> JobOracle)
    ensures IsPrefix(w.effects, Drain(cfg, w, world).effects)
    decreases |w.queue|
  {
    if w.alive && w.queue != [] {
      var next := Step(cfg, w, world(w.dequeued));
      assert Drain(cfg, w, world) == Drain(cfg, next, world);
      DrainExtendsEffects(cfg, next, world);
      PrefixTransitive(w.effects, next.effects, Drain(cfg, next, world).effects);
    }
  }

  lemma PrefixTransitive<T>(a: seq<T>, b: seq<T>, c: seq<T>)
    requires IsPrefix(a, b) && IsPrefix(b, c)
    ensures IsPrefix(a, c)
  {
    assert c[..|b|][..|a|] == c[..|a|];
  }

  /** Between jobs the worker is idle, as long as no patch write raises in git mode. */
  lemma {:induction false} DrainPreservesIdle(cfg: Config, w: WorkerState, world: nat -> JobOracle)
    requires Idle(cfg.fetchMethod, w.ws)
    requires forall i: nat :: !(cfg.fetchMethod.GitMirror? && world(i).fault == Some(PatchWrite))
    ensures Idle(cfg.fetchMethod, Drain(cfg, w, world).ws)
    decreases |w.queue|
  {
    if w.alive && w.queue != [] {
      JobPreservesIdle(cfg, w.queue[0], world(w.dequeued), w.ws);
      DrainPreservesIdle(cfg, Step(cfg, w, world(w.dequeued)), world);
    }
  }
}
