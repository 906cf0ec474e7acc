/** The older worker, ofCodeStyleGuard.py: the same pipeline over the webhook event, with
    validation that always queries GitHub, a per-file retrieval that always gives up, no
    styler download, no pending status, and feedback folded into `add_status`. */
module Legacy {
  import opened Text
  import opened Errors
  import opened Settings
  import opened Validation
  import opened FileFilter
  import opened Remotes
  import opened WorkDirs
  import opened StyleCheck
  import opened Feedback
  import opened Pipeline
  import opened Queues

  const StylerMissing: string := "Fetching styler is not yet implemented. Wait for PyGithub patch"

  /** `git_process_pr` and `file_process_pr` of the old worker, with the repository as
      they leave it. git_command strips the trailing newlines of `remote -v`; per-file
      retrieval downloads the in-scope files and then raises before committing them. */
  function LegacyRetrieval(cfg: Config, ev: HookEvent, o: JobOracle, repo: RepoDir): (r: (RepoDir, Result<seq<string>>))
    ensures cfg.fetchMethod.FileFetch? ==> r.1.Err?
    ensures cfg.fetchMethod.GitMirror? && r.1.Ok? && !repo.dirty ==> r.0 == RepoDir(OnBranch(PrBranchName(ev.pullRequest.number)), false)
    ensures cfg.fetchMethod.GitMirror? && repo.dirty ==> r.0 == repo
    ensures r.0.dirty == repo.dirty
  {
    match cfg.fetchMethod
    case GitMirror =>
      var onMaster := CheckoutIdle(repo);
      var base := ev.pullRequest.base.repo;
      var lines := RemoteLines(RStripChars(o.remoteListing, {'\n'}));
      (match ScanOutcome(lines, base.gitUrl, base.sshUrl)
       case ShortLine(_) => (onMaster, Err(Crash("IndexError: list index out of range")))
       case NoBaseRemote =>
         (onMaster, Err(HandlerError(NoBaseRemoteMessage(base.gitUrl))))
       case Found(_) =>
         (CheckoutBranch(onMaster, PrBranchName(ev.pullRequest.number)),
          Ok(Words(RStripChars(o.diffNames, {'\n'})))))
    case FileFetch =>
      if o.fault == Some(PrQuery) then (repo, Err(Crashed("get_pull")))
      else (RepoDir(Downloaded(FilteredNames(o.prFiles)), repo.dirty), Err(HandlerError(StylerMissing)))
    case UnknownFetch(_) => (repo, Err(Crash("UnboundLocalError: changed_files")))
  }

  /** `publish_results` with `add_status` and `add_comment`: status feedback makes the gist
      first when there is a patch, then posts red with its link, or green; the state is
      never checked. Comment feedback and any other method raise. */
  function LegacyPublish(cfg: Config, ev: HookEvent, o: JobOracle, result: StyleResult): (r: Reported)
    ensures r.result.Ok? ==> r.result.value == result && cfg.feedbackMethod == "status"
    ensures r.result.Ok? ==>
              && r.effects != [] && r.effects[|r.effects| - 1].StatusCreated?
              && r.effects[|r.effects| - 1].commit == ev.pullRequest.head.sha
              && (r.effects[|r.effects| - 1].state == "failure" <==> result.patchFileName != "")
    ensures r.result.Ok? && result.patchFileName != "" ==>
              && r.effects[0] == CreateGist(result, ev.pullRequest.head.sha)
              && r.effects[|r.effects| - 1].targetUrl == Some(o.gistUrl)
    ensures forall k :: 0 <= k < |r.effects| ==> !(r.effects[k].StatusCreated? && r.effects[k].state == "pending")
  {
    var head := ev.pullRequest.head.sha;
    if cfg.feedbackMethod == "status" then
      if result.patchFileName != "" then
        if o.fault == Some(GistUpload) then Reported([], Err(Crashed("create_gist")))
        else
          var gist := CreateGist(result, head);
          if o.fault == Some(StatusPost) then Reported([gist], Err(Crashed("create_status")))
          else Reported([gist, StatusCreated(head, "failure", FailureDescription, Some(o.gistUrl))], Ok(result))
      else if o.fault == Some(StatusPost) then Reported([], Err(Crashed("create_status")))
      else Reported([StatusCreated(head, "success", SuccessDescription, None)], Ok(result))
    else if cfg.feedbackMethod == "comment" then
      Reported([], Err(HandlerError("Feedback via comments not yet implemented. Aborting.")))
    else
      Reported([], Err(HandlerError("Unknown feedback method: " + cfg.feedbackMethod)))
  }

  /** The old `clean_up`: it never touches a styler directory. */
  function LegacyCleanUp(fetch: FetchMethod, repo: RepoDir): (r: RepoDir)
    ensures fetch.GitMirror? && !repo.dirty ==> r == repo.(kind := OnBranch(IdleBranch))
    ensures fetch.GitMirror? && repo.dirty ==> r == repo
    ensures fetch.FileFetch? ==> r == RepoDir(NoRepo, false)
    ensures fetch.UnknownFetch? ==> r == repo
  {
    match fetch
    case GitMirror => CheckoutIdle(repo)
    case FileFetch => RepoDir(NoRepo, false)
    case UnknownFetch(_) => repo
  }

  datatype LegacyEnd = LegacyEnd(repo: RepoDir, effects: seq<Effect>, verdict: Verdict, failure: Option<Failure>)

  /** The try block of the old `run`: retrieve, check the style (which filters again),
      publish. */
  function LegacyBody(cfg: Config, ev: HookEvent, o: JobOracle, repo: RepoDir): (s: (RepoDir, seq<Effect>, Option<Failure>))
  {
    var (repo1, got) := LegacyRetrieval(cfg, ev, o, repo);
    match got
    case Err(f) => (repo1, [], Some(f))
    case Ok(files) => LegacyStyleAndPublish(cfg, ev, o, files, repo1)
  }

  /** `check_style` on the retrieved files, then `publish_results`. */
  function LegacyStyleAndPublish(cfg: Config, ev: HookEvent, o: JobOracle, files: seq<string>, repo: RepoDir)
    : (s: (RepoDir, seq<Effect>, Option<Failure>))
  {
    var pr := ev.pullRequest;
    var c := CheckStyle(pr.number, pr.htmlUrl, FilterFileList(files), o.restyled,
                        o.fault == Some(PatchWrite), o.applyCheck, repo);
    match c.result
    case Err(f) => (c.repo, c.effects, Some(f))
    case Ok(result) =>
      var rep := LegacyPublish(cfg, ev, o, result);
      (c.repo, c.effects + rep.effects, if rep.result.Err? then Some(rep.result.failure) else None)
  }

  /** One iteration of the old `run` after the dequeue. Validation always asks GitHub, so
      a failing query ends the thread whatever the payload. */
  function LegacyRunJob(cfg: Config, ev: HookEvent, o: JobOracle, repo: RepoDir): (e: LegacyEnd)
    ensures e.verdict == LegacyValidatePr(cfg, ev, o.mergeable)
    ensures e.failure.Some? ==> e.failure.value.Crash?
    ensures LegacyValidatePr(cfg, ev, o.mergeable).verified && o.fault != Some(MergeableQuery) ==>
      var s := LegacyBody(cfg, ev, o, repo);
      && (e.failure.Some? <==> s.2.Some? && s.2.value.Crash?)
      && e.repo == LegacyCleanUp(cfg.fetchMethod, s.0)
      && e.effects == s.1
  {
    var v := LegacyValidatePr(cfg, ev, o.mergeable);
    if o.fault == Some(MergeableQuery) then LegacyEnd(repo, [], v, Some(Crashed("get_pull")))
    else if !v.verified then LegacyEnd(repo, [], v, None)
    else
      var (repo1, effects, failure) := LegacyBody(cfg, ev, o, repo);
      var cleaned := LegacyCleanUp(cfg.fetchMethod, repo1);
      match failure
      case Some(Crash(m)) => LegacyEnd(cleaned, effects, v, Some(Crash(m)))
      case _ => LegacyEnd(cleaned, effects, v, None)
  }

  /** Per-file mode never gets as far as styling: nothing is published and the repository
      directory is emptied again. */
  lemma FileModeNeverStyles(cfg: Config, ev: HookEvent, o: JobOracle, repo: RepoDir)
    requires cfg.fetchMethod.FileFetch?
    ensures LegacyRunJob(cfg, ev, o, repo).effects == []
    ensures LegacyRunJob(cfg, ev, o, repo).verdict.verified && o.fault != Some(MergeableQuery) ==>
      LegacyRunJob(cfg, ev, o, repo).repo == RepoDir(NoRepo, false)
  {
  }

  /** The old worker never posts a pending status. */
  lemma NeverPending(cfg: Config, ev: HookEvent, o: JobOracle, repo: RepoDir)
    ensures var e := LegacyRunJob(cfg, ev, o, repo);
      forall k :: 0 <= k < |e.effects| ==> !(e.effects[k].StatusCreated? && e.effects[k].state == "pending")
  {
  }

  /** In git mode a `remote -v` listing that still has a line of fewer than three tokens
      after its trailing newlines are stripped (an empty listing, say) ends the thread. */
  lemma ShortRemoteLineCrashes(cfg: Config, ev: HookEvent, o: JobOracle, repo: RepoDir)
    requires cfg.fetchMethod.GitMirror? && o.fault.None?
    requires LegacyValidatePr(cfg, ev, o.mergeable).verified
    requires FirstShortLine(RemoteLines(RStripChars(o.remoteListing, {'\n'}))).Some?
    ensures LegacyRunJob(cfg, ev, o, repo).failure.Some?
    ensures LegacyRunJob(cfg, ev, o, repo).repo == CheckoutIdle(repo)
  {
  }

  /** The empty listing of a mirror without remotes is such a listing. */
  lemma EmptyListingIsShort()
    ensures FirstShortLine(RemoteLines(RStripChars("", {'\n'}))) == Some(0)
  {
  }

  /** A failing mergeability query ends the old worker even for a payload the checks
      reject; the current worker asks only after the checks pass. */
  lemma QueryFaultOnRejectedPayload(cfg: Config, ev: HookEvent, pr: PullRequest, o: JobOracle, repo: RepoDir, ws: Workspace)
    requires o.fault == Some(MergeableQuery)
    requires pr.merged && ev.pullRequest.merged
    ensures LegacyRunJob(cfg, ev, o, repo).failure.Some?
    ensures RunJob(cfg, pr, o, ws).failure.None?
  {
  }

  // ---------------------------------------------------------------- the old worker loop

  datatype LegacyState = LegacyState(
    queue: seq<HookEvent>,
    unfinished: nat,
    repo: RepoDir,
    effects: seq<Effect>,
    alive: bool,
    dequeued: nat)

  function LegacyStep(cfg: Config, w: LegacyState, o: JobOracle): (w': LegacyState)
    requires w.alive && w.queue != []
    ensures w'.queue == w.queue[1..] && w'.dequeued == w.dequeued + 1
    ensures w'.repo == LegacyRunJob(cfg, w.queue[0], o, w.repo).repo
    ensures w'.effects == w.effects + LegacyRunJob(cfg, w.queue[0], o, w.repo).effects
    ensures w'.alive <==> LegacyRunJob(cfg, w.queue[0], o, w.repo).failure.None? && w.unfinished > 0
    ensures w'.unfinished == if w'.alive then w.unfinished - 1 else w.unfinished
  {
    var e := LegacyRunJob(cfg, w.queue[0], o, w.repo);
    var rest := w.(queue := w.queue[1..], dequeued := w.dequeued + 1, repo := e.repo, effects := w.effects + e.effects);
    if e.failure.Some? || w.unfinished == 0 then rest.(alive := false)
    else rest.(unfinished := w.unfinished - 1)
  }

  function LegacyDrain(cfg: Config, w: LegacyState, world: nat -> JobOracle): (d: LegacyState)
    ensures d.queue == [] || !d.alive
    ensures w.dequeued <= d.dequeued <= w.dequeued + |w.queue|
    ensures d.queue == w.queue[d.dequeued - w.dequeued..]
    decreases |w.queue|
  {
    if !w.alive || w.queue == [] then w
    else
      var next := LegacyStep(cfg, w, world(w.dequeued));
      var d := LegacyDrain(cfg, next, world);
      assert w.queue[1..][d.dequeued - next.dequeued..] == w.queue[d.dequeued - w.dequeued..];
      d
  }

  /** In per-file mode the old worker publishes nothing, however long it runs. */
  lemma {:induction false} FileModeDrainPublishesNothing(cfg: Config, w: LegacyState, world: nat -> JobOracle)
    requires cfg.fetchMethod.FileFetch?
    ensures LegacyDrain(cfg, w, world).effects == w.effects
    decreases |w.queue|
  {
    if w.alive && w.queue != [] {
      var next := LegacyStep(cfg, w, world(w.dequeued));
      FileModeNeverStyles(cfg, w.queue[0], world(w.dequeued), w.repo);
      assert next.effects == w.effects;
      FileModeDrainPublishesNothing(cfg, next, world);
    }
  }

  /** The old thread object. */
  class LegacyHandler {
    const cfg: Config
    const queue: JobQueue<HookEvent>
    var payload: Option<HookEvent>
    var repo: RepoDir
    var effects: seq<Effect>
    var alive: bool
    var dequeued: nat

    function State(): LegacyState
      reads this, queue
    {
      LegacyState(queue.items, queue.unfinished, repo, effects, alive, dequeued)
    }

    constructor (cfg: Config, queue: JobQueue<HookEvent>, repo: RepoDir)
      ensures this.cfg == cfg && this.queue == queue && this.repo == repo
      ensures payload.None? && effects == [] && alive && dequeued == 0
    {
      this.cfg := cfg;
      this.queue := queue;
      this.repo := repo;
      payload := None;
      effects := [];
      alive := true;
      dequeued := 0;
    }

    /** The old `file_process_pr`: keeps only in-scope added or modified files, writes
        each into the repository directory, then gives up. */
    method FileProcessPr(files: seq<ChangedFile>) returns (changed: seq<string>, failure: Failure)
      modifies this
      ensures changed == FilteredNames(files) && failure == HandlerError(StylerMissing)
      ensures repo == RepoDir(Downloaded(changed), old(repo).dirty)
      ensures effects == old(effects) && alive == old(alive) && payload == old(payload) && dequeued == old(dequeued)
    {
      changed := [];
      for i := 0 to |files|
        invariant changed == FilteredNames(files[..i])
        invariant effects == old(effects) && alive == old(alive) && payload == old(payload) && dequeued == old(dequeued)
        invariant repo == old(repo)
      {
        var f := files[i];
        assert FilterFileList([f.filename]) == if Keep(f.filename) then [f.filename] else [];
        if (f.status == "modified" || f.status == "added") && FilterFileList([f.filename]) != [] {
          changed := changed + [f.filename];
        }
        assert files[..i + 1][..i] == files[..i];
      }
      assert files[..|files|] == files;
      repo := RepoDir(Downloaded(changed), repo.dirty);
      failure := HandlerError(StylerMissing);
    }

    /** The old `git_process_pr`, scanning the stripped `remote -v` output. */
    method GitProcessPr(o: JobOracle) returns (r: Result<seq<string>>)
      requires payload.Some?
      modifies this
      ensures (repo, r) == LegacyRetrieval(cfg.(fetchMethod := GitMirror), old(payload).value, o, old(repo))
      ensures effects == old(effects) && alive == old(alive) && payload == old(payload) && dequeued == old(dequeued)
    {
      var ev := payload.value;
      repo := CheckoutIdle(repo);
      var base := ev.pullRequest.base.repo;
      var lines := RemoteLines(RStripChars(o.remoteListing, {'\n'}));
      var lookup := ScanRemotes(lines, base.gitUrl, base.sshUrl);
      match lookup {
        case ShortLine(_) =>
          r := Err(Crash("IndexError: list index out of range"));
        case NoBaseRemote =>
          r := Err(HandlerError(NoBaseRemoteMessage(base.gitUrl)));
        case Found(_) =>
          repo := CheckoutBranch(repo, PrBranchName(ev.pullRequest.number));
          r := Ok(Words(RStripChars(o.diffNames, {'\n'})));
      }
    }

    /** The retrieval step of the old `run`, dispatching on the fetch method. */
    method Retrieve(o: JobOracle) returns (r: Result<seq<string>>)
      requires payload.Some?
      modifies this
      ensures (repo, r) == LegacyRetrieval(cfg, old(payload).value, o, old(repo))
      ensures effects == old(effects) && alive == old(alive) && payload == old(payload) && dequeued == old(dequeued)
    {
      match cfg.fetchMethod {
        case GitMirror =>
          r := GitProcessPr(o);
        case FileFetch =>
          if o.fault == Some(PrQuery) {
            r := Err(Crashed("get_pull"));
          } else {
            var changed, f := FileProcessPr(o.prFiles);
            r := Err(f);
          }
        case UnknownFetch(_) =>
          r := Err(Crash("UnboundLocalError: changed_files"));
      }
    }

    /** The try block of the old `run`. */
    method Body(o: JobOracle) returns (failure: Option<Failure>)
      requires payload.Some?
      modifies this
      ensures var s := LegacyBody(cfg, old(payload).value, o, old(repo));
        repo == s.0 && effects == old(effects) + s.1 && failure == s.2
      ensures alive == old(alive) && payload == old(payload) && dequeued == old(dequeued)
    {
      var ev := payload.value;
      var files := Retrieve(o);
      if files.Err? {
        return Some(files.failure);
      }
      var s := LegacyStyleAndPublish(cfg, ev, o, files.value, repo);
      repo := s.0;
      effects := effects + s.1;
      failure := s.2;
    }

    /** One pass of the old `run` loop. */
    method ProcessNext(o: JobOracle)
      requires alive && queue.items != []
      modifies this, queue
      ensures State() == LegacyStep(cfg, old(State()), o)
    {
      var ev := queue.Get();
      payload := Some(ev);
      dequeued := dequeued + 1;
      var v := LegacyValidatePr(cfg, ev, o.mergeable);
      if o.fault == Some(MergeableQuery) {
        alive := false;
        return;
      }
      if v.verified {
        var failure := Body(o);
        repo := LegacyCleanUp(cfg.fetchMethod, repo);
        if failure.Some? && failure.value.Crash? {
          alive := false;
          return;
        }
      }
      var ok := queue.TaskDone();
      if !ok {
        alive := false;
      }
    }

    method Run(world: nat -> JobOracle)
      modifies this, queue
      ensures State() == LegacyDrain(cfg, old(State()), world)
    {
      while alive && queue.items != []
        invariant LegacyDrain(cfg, State(), world) == LegacyDrain(cfg, old(State()), world)
        decreases |queue.items|
      {
        ProcessNext(world(dequeued));
      }
    }
  }
}
