/** The current worker as the thread object it is: a shared FIFO queue and a handler whose
    fields are the payload in hand, the two working directories and what it has published.
    Every method is proved to do what the job model in `Pipeline` says. */
module Worker {
  import opened Text
  import opened Errors
  import opened Settings
  import opened Validation
  import opened FileFilter
  import opened Remotes
  import opened WorkDirs
  import opened Styler
  import opened StyleCheck
  import opened Feedback
  import opened Pipeline
  import opened Queues

  class PrHandler {
    const cfg: Config
    const queue: JobQueue<PullRequest>
    var payload: Option<PullRequest>
    var repo: RepoDir
    var styler: seq<StylerFile>
    var effects: seq<Effect>
    var alive: bool
    var dequeued: nat

    function Ws(): Workspace
      reads this
    {
      Workspace(repo, styler)
    }

    function State(): WorkerState
      reads this, queue
    {
      WorkerState(queue.items, queue.unfinished, Ws(), effects, alive, dequeued)
    }

    /** A handler that passed its start-up checks, over an idle workspace. */
    constructor (cfg: Config, queue: JobQueue<PullRequest>, repo: RepoDir)
      ensures this.cfg == cfg && this.queue == queue && this.repo == repo
      ensures payload.None? && styler == [] && effects == [] && alive && dequeued == 0
    {
      this.cfg := cfg;
      this.queue := queue;
      this.repo := repo;
      payload := None;
      styler := [];
      effects := [];
      alive := true;
      dequeued := 0;
    }

    // ------------------------------------------------------------ retrieval

    /** `file_process_pr`: walk the PR's file list, collecting the added or modified
        paths and the in-scope ones among them; then commit what was downloaded. */
    method FileProcessPr(files: seq<ChangedFile>) returns (changed: seq<string>, filtered: seq<string>)
      modifies this
      ensures changed == ChangedNames(files) && filtered == FilteredNames(files)
      ensures repo == RepoDir(PrSnapshot(filtered), false)
      ensures styler == old(styler) && effects == old(effects) && alive == old(alive)
      ensures payload == old(payload) && dequeued == old(dequeued)
    {
      changed, filtered := [], [];
      var downloaded: seq<string> := [];
      for i := 0 to |files|
        invariant changed == ChangedNames(files[..i]) && filtered == FilteredNames(files[..i])
        invariant downloaded == filtered
        invariant repo == old(repo) && styler == old(styler) && effects == old(effects)
        invariant alive == old(alive) && payload == old(payload) && dequeued == old(dequeued)
      {
        var f := files[i];
        assert FilterFileList([f.filename]) == if Keep(f.filename) then [f.filename] else [];
        if f.status == "modified" || f.status == "added" {
          changed := changed + [f.filename];
          if FilterFileList([f.filename]) != [] {
            filtered := filtered + [f.filename];
            downloaded := downloaded + [f.filename];
          }
        }
        assert files[..i + 1][..i] == files[..i];
      }
      assert files[..|files|] == files;
      repo := RepoDir(PrSnapshot(downloaded), false);
    }

    /** `git_process_pr`: back to master, scan `git remote -v` for the base remote, then
        fetch and check out the PR on `pr-<n>`; the diff lists the changed files. */
    method GitProcessPr(pr: PullRequest, o: JobOracle) returns (r: Result<Retrieved>)
      modifies this
      ensures r == Pipeline.GitProcessPr(pr, o, old(repo))
      ensures r.Ok? ==> repo == r.value.repo
      ensures r.Err? ==> repo == CheckoutIdle(old(repo))
      ensures styler == old(styler) && effects == old(effects) && alive == old(alive)
      ensures payload == old(payload) && dequeued == old(dequeued)
    {
      repo := CheckoutIdle(repo);
      var remote := FindBaseRemote(RemoteLines(o.remoteListing), pr.base.repo.gitUrl, pr.base.repo.sshUrl);
      if remote.None? {
        r := Err(HandlerError(NoBaseRemoteMessage(pr.base.repo.gitUrl)));
        return;
      }
      repo := CheckoutBranch(repo, PrBranchName(pr.number));
      var changed := Words(o.diffNames);
      r := Ok(Retrieved(repo, changed, FilterFileList(changed)));
    }

    /** `_fetch_styler_files`' loop: each styler file is written under its basename, and
        the formatter is made executable. */
    method FetchStylerFiles(paths: seq<string>, commit: string)
      modifies this
      ensures styler == old(styler) + FetchedFiles(paths, commit)
      ensures repo == old(repo) && effects == old(effects) && alive == old(alive)
      ensures payload == old(payload) && dequeued == old(dequeued)
    {
      ghost var all := FetchedFiles(paths, commit);
      for i := 0 to |paths|
        invariant styler == old(styler) + all[..i]
        invariant repo == old(repo) && effects == old(effects)
        invariant alive == old(alive) && payload == old(payload) && dequeued == old(dequeued)
      {
        var file := FetchedFile(paths[i], commit);
        assert all[i] == file;
        assert all[..i + 1] == all[..i] + [file];
        styler := styler + [file];
      }
      assert all[..|paths|] == all;
    }

    /** `get_pr`. */
    method GetPr(pr: PullRequest, o: JobOracle) returns (r: Result<seq<string>>)
      modifies this
      ensures var s := Pipeline.GetPr(cfg, pr, o, old(Ws()));
        r == s.result && Ws() == s.ws && effects == old(effects)
      ensures alive == old(alive) && payload == old(payload) && dequeued == old(dequeued)
    {
      if o.fault == Some(PrQuery) {
        return Err(Crashed("get_pull"));
      }
      var got: Retrieved;
      match cfg.fetchMethod {
        case GitMirror =>
          var g := GitProcessPr(pr, o);
          if g.Err? {
            return Err(g.failure);
          }
          got := g.value;
        case FileFetch =>
          var changed, filtered := FileProcessPr(o.prFiles);
          FilteredIsFilterOfChanged(o.prFiles);
          got := Retrieved(repo, changed, filtered);
        case UnknownFetch(_) =>
          return Err(Crash("UnboundLocalError: changed_files"));
      }
      assert Retrieval(cfg, pr, o, old(Ws())) == Ok(got);
      StylerCommitChoice(got.changed, o.apiBaseSha, o.apiHeadSha);
      var source := StylerSource(got.changed);
      var commit := SourceCommit(source, o.apiBaseSha, o.apiHeadSha);
      if o.fault == Some(StylerDownload) {
        return Err(Crashed("get_contents"));
      }
      FetchStylerFiles(StylerFiles, commit.value);
      r := Ok(got.filtered);
    }

    // ------------------------------------------------------------ styling

    /** `check_style`: run the formatter over each file, then act on `git status`. */
    method CheckStyle(n: nat, url: string, files: seq<string>, o: JobOracle) returns (r: Result<StyleResult>)
      modifies this
      ensures var c := StyleCheck.CheckStyle(n, url, files, o.restyled, o.fault == Some(PatchWrite),
                                             o.applyCheck, old(repo));
        r == c.result && repo == c.repo && effects == old(effects) + c.effects
      ensures styler == old(styler) && alive == old(alive) && payload == old(payload) && dequeued == old(dequeued)
    {
      for i := 0 to |files|
        invariant repo.kind == old(repo).kind
        invariant repo.dirty == (old(repo).dirty || exists k :: 0 <= k < i && files[k] in o.restyled)
        invariant effects == old(effects) && styler == old(styler)
        invariant alive == old(alive) && payload == old(payload) && dequeued == old(dequeued)
      {
        if files[i] in o.restyled {
          repo := repo.(dirty := true);
        }
      }
      if repo.dirty {
        var name := PatchName(n);
        if o.fault == Some(PatchWrite) {
          return Err(Crash("IOError writing " + name));
        }
        effects := effects + [PatchSaved(name)];
        repo := repo.(dirty := false);
        if o.applyCheck != "" {
          return Err(HandlerError("Patch" + name + " does not apply cleanly, aborting!"));
        }
        r := Ok(StyleResult(n, url, name));
      } else {
        r := Ok(StyleResult(n, url, ""));
      }
      repo := repo.(dirty := false);
    }

    // ------------------------------------------------------------ one job

    /** The try block of `run`. */
    method Body(pr: PullRequest, o: JobOracle) returns (r: Result<StyleResult>)
      modifies this
      ensures var s := Pipeline.Body(cfg, pr, o, old(Ws()));
        r == s.result && effects == old(effects) + s.effects && Ws() == s.ws
      ensures alive == old(alive) && payload == old(payload) && dequeued == old(dequeued)
    {
      var files := GetPr(pr, o);
      if files.Err? {
        return Err(files.failure);
      }
      r := StyleAndReport(pr, o, files.value);
    }

    method StyleAndReport(pr: PullRequest, o: JobOracle, files: seq<string>) returns (r: Result<StyleResult>)
      modifies this
      ensures var s := Pipeline.StyleAndReport(cfg, pr, o, old(Ws()), files);
        r == s.result && effects == old(effects) + s.effects && Ws() == s.ws
      ensures alive == old(alive) && payload == old(payload) && dequeued == old(dequeued)
    {
      var result := CheckStyle(pr.number, pr.htmlUrl, files, o);
      if result.Err? {
        return result;
      }
      r := Report(pr, o, result.value);
    }

    /** The gist and the status, as `run` and `publish_results` issue them. */
    method Report(pr: PullRequest, o: JobOracle, result: StyleResult) returns (r: Result<StyleResult>)
      modifies this
      ensures var rep := Pipeline.Report(cfg, pr, o, result);
        r == rep.result && effects == old(effects) + rep.effects
      ensures Ws() == old(Ws()) && alive == old(alive) && payload == old(payload) && dequeued == old(dequeued)
    {
      var patched := result.patchFileName != "";
      var gist: Option<string> := None;
      if patched {
        if o.fault == Some(GistUpload) {
          return Err(Crashed("create_gist"));
        }
        effects := effects + [CreateGist(result, pr.head.sha)];
        gist := Some(o.gistUrl);
      }
      if !cfg.suppressFeedback {
        var status := PublishResults(cfg.feedbackMethod, result, gist, pr.head.sha);
        if status.Err? {
          return Err(status.failure);
        }
        if o.fault == Some(StatusPost) {
          return Err(Crashed("create_status"));
        }
        effects := effects + [status.value];
      }
      r := Ok(result);
    }

    /** `clean_up`. */
    method CleanUp()
      modifies this
      ensures Ws() == WorkDirs.CleanUp(cfg.fetchMethod, old(Ws()))
      ensures effects == old(effects) && alive == old(alive) && payload == old(payload) && dequeued == old(dequeued)
    {
      match cfg.fetchMethod {
        case GitMirror =>
          repo := CheckoutIdle(repo);
        case FileFetch =>
          repo := RepoDir(NoRepo, false);
        case UnknownFetch(_) =>
      }
      styler := [];
    }

    /** The try block and its finally clause for a valid PR; true iff an exception other
        than PRHandlerException escapes them. */
    method RunValidated(pr: PullRequest, o: JobOracle) returns (escaped: bool)
      requires ValidatePr(cfg, pr, o.mergeable).verified && o.fault != Some(MergeableQuery)
      modifies this
      ensures var e := RunJob(cfg, pr, o, old(Ws()));
        Ws() == e.ws && effects == old(effects) + e.effects && (escaped <==> e.failure.Some?)
      ensures alive == old(alive) && payload == old(payload) && dequeued == old(dequeued)
    {
      var result := Body(pr, o);
      CleanUp();
      escaped := result.Err? && result.failure.Crash?;
    }

    /** One pass of `run`'s loop. */
    method ProcessNext(o: JobOracle)
      requires alive && queue.items != []
      modifies this, queue
      ensures State() == Step(cfg, old(State()), o)
    {
      ghost var job := RunJob(cfg, queue.items[0], o, Ws());
      var pr := queue.Get();
      payload := Some(pr);
      dequeued := dequeued + 1;
      var v := ValidatePr(cfg, pr, o.mergeable);
      if v.queried && o.fault == Some(MergeableQuery) {
        alive := false;
        return;
      }
      if v.postsPending {
        if o.fault == Some(StatusPost) {
          alive := false;
          return;
        }
        var pending := AddStatus(pr.head.sha, "pending", PendingDescription, None);
        effects := effects + [pending.value];
      }
      if v.verified {
        var escaped := RunValidated(pr, o);
        if escaped {
          alive := false;
          return;
        }
      }
      var ok := queue.TaskDone();
      if !ok {
        alive := false;
      }
    }

    /** `run`, until the queue is empty or an exception ends the thread; the `i`-th payload
        taken is answered by `world(i)`. */
    method Run(world: nat -> JobOracle)
      modifies this, queue
      ensures State() == Drain(cfg, old(State()), world)
    {
      while alive && queue.items != []
        invariant Drain(cfg, State(), world) == Drain(cfg, old(State()), world)
        decreases |queue.items|
      {
        ProcessNext(world(dequeued));
      }
    }
  }
}
