/** The static configuration the worker reads once (styleguard_config.py) and the
    records GitHub hands it: a pull request as the REST API returns it, the webhook
    event that wraps one, and an entry of a pull request's changed-file list. */
module Settings {

  /** `cfg['fetch_method']`: 'git' keeps a long-lived clone, 'file' downloads the PR's files. */
  datatype FetchMethod = GitMirror | FileFetch | UnknownFetch(name: string)

  datatype Config = Config(
    repoGitUrl: string,        // cfg['repo_git_url']
    fetchMethod: FetchMethod,  // cfg['fetch_method']
    feedbackMethod: string,    // cfg['feedback_method']: "status", "comment" or anything else
    suppressFeedback: bool)    // cfg['suppress_feedback']: verify only, never publish

  const ConfiguredRepoGitUrl: string := "git://github.com/bilderbuchi/openFrameworks.git"

  /** Addresses whose POST requests the older webhook endpoint accepts. */
  const GithubIps: set<string> :=
    {"207.97.227.253", "50.57.128.197", "108.171.174.178", "50.57.231.61", "127.0.0.1"}

  /** The branch the mirror returns to between jobs. */
  const IdleBranch: string := "master"

  datatype RepoRef = RepoRef(gitUrl: string, sshUrl: string, fullName: string)

  /** One side of a pull request: branch name, commit and owning repository. */
  datatype Ref = Ref(ref: string, sha: string, repo: RepoRef)

  datatype PullRequest = PullRequest(
    number: nat,
    state: string,    // "open" or "closed"
    merged: bool,
    htmlUrl: string,
    title: string,
    base: Ref,
    head: Ref)

  /** The webhook event the older worker consumes: the PR sits under `pull_request`. */
  datatype HookEvent = HookEvent(
    action: string,
    number: nat,
    repository: RepoRef,
    pullRequest: PullRequest)

  /** An entry of `get_files()`: a path and its status ("added", "modified", "removed", ...). */
  datatype ChangedFile = ChangedFile(filename: string, status: string)
}
