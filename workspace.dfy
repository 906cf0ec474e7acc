/** The worker's on-disk state and the calls it makes to the outside world. */
module WorkDirs {
  import opened Text
  import opened Settings

  /** What the repository directory holds. */
  datatype RepoKind =
    | OnBranch(branch: string)         // the long-lived clone, checked out on a branch
    | PrSnapshot(files: seq<string>)   // a throw-away repository committing the fetched PR files
    | Downloaded(files: seq<string>)   // fetched PR files that were never committed
    | NoRepo                           // an empty directory

  /** `dirty` is what `git status --porcelain` reports: uncommitted changes in the tree. */
  datatype RepoDir = RepoDir(kind: RepoKind, dirty: bool)

  /** A styler file in the styler directory: its basename, the commit it was read at,
      and whether it was made executable. */
  datatype StylerFile = StylerFile(name: string, commit: string, executable: bool)

  datatype Workspace = Workspace(repo: RepoDir, styler: seq<StylerFile>)

  /** Writes that outlive a job: the patch file, and the two GitHub calls that publish. */
  datatype Effect =
    | PatchSaved(fileName: string)
    | GistCreated(descFile: string, patchFile: string, description: string)
    | StatusCreated(commit: string, state: string, description: string, targetUrl: Option<string>)

  /** `git checkout <branch>` on the mirror. A tree is dirty only with restyled PR files,
      which differ between a PR branch and any other, so git refuses the checkout and
      `git_command` swallows its error: the mirror stays where it was. */
  function CheckoutBranch(repo: RepoDir, branch: string): (r: RepoDir)
    ensures r.dirty == repo.dirty
    ensures !repo.dirty ==> r.kind == OnBranch(branch)
    ensures repo.dirty ==> r == repo
  {
    if repo.dirty then repo else repo.(kind := OnBranch(branch))
  }

  /** The mirror's `checkout master`. */
  function CheckoutIdle(repo: RepoDir): (r: RepoDir)
    ensures r.dirty == repo.dirty
    ensures !repo.dirty ==> r.kind == OnBranch(IdleBranch)
    ensures repo.dirty ==> r == repo
  {
    CheckoutBranch(repo, IdleBranch)
  }

  /** `clean_up`: the mirror is checked out on master, a per-file snapshot is deleted and
      its directory recreated empty, and the styler directory is emptied. An unknown fetch
      method cleans only the styler. */
  function CleanUp(fetch: FetchMethod, ws: Workspace): (r: Workspace)
    ensures r.styler == []
    ensures fetch.GitMirror? && !ws.repo.dirty ==> r.repo.kind == OnBranch(IdleBranch)
    ensures fetch.GitMirror? && ws.repo.dirty ==> r.repo == ws.repo
    ensures fetch.FileFetch? ==> r.repo.kind == NoRepo
    ensures fetch.FileFetch? || fetch.UnknownFetch? || ws.repo.dirty == r.repo.dirty
  {
    var repo :=
      match fetch
      case GitMirror => CheckoutIdle(ws.repo)
      case FileFetch => RepoDir(NoRepo, false)
      case UnknownFetch(_) => ws.repo;
    Workspace(repo, [])
  }

  /** The state the worker must be in between jobs. */
  predicate Idle(fetch: FetchMethod, ws: Workspace) {
    && ws.styler == []
    && !ws.repo.dirty
    && (fetch.GitMirror? ==> ws.repo.kind == OnBranch(IdleBranch))
    && (fetch.FileFetch? ==> ws.repo.kind == NoRepo)
  }

  /** Clean-up restores the between-jobs state from any clean tree, and from any tree at
      all in per-file mode. */
  lemma CleanUpRestoresIdle(fetch: FetchMethod, ws: Workspace)
    requires !ws.repo.dirty || fetch.FileFetch?
    ensures Idle(fetch, CleanUp(fetch, ws))
  {
  }

  lemma CleanUpIdempotent(fetch: FetchMethod, ws: Workspace)
    ensures CleanUp(fetch, CleanUp(fetch, ws)) == CleanUp(fetch, ws)
  {
  }
}
