/** What the worker checks before its thread starts: the GitHub credentials, the local
    mirror, and the `owner/repo` path later requests are built from. */
module Startup {
  import opened Text
  import opened Errors
  import opened Settings
  import opened WorkDirs

  /** The `ofbot_codestyle_status` entry of the credentials file. */
  datatype Credentials = Credentials(scopes: seq<string>, token: string)

  /** `init_authentication`'s three outcomes: an API handle (with its token), the error
      code 1, or an exception. */
  datatype Auth = Authenticated(token: string) | AuthFailed | AuthRaised(message: string)

  /** Status feedback needs a token holding both the `repo:status` and the `gist` scope,
      and the token must be accepted (`credentialsValid`). styleguard.py raises for
      comment feedback; ofCodeStyleGuard.py returns 1 (`commentRaises` false). */
  function InitAuthentication(feedbackMethod: string, creds: Credentials, credentialsValid: bool,
                              commentRaises: bool): (a: Auth)
    ensures a.Authenticated? <==>
      feedbackMethod == "status" && "repo:status" in creds.scopes && "gist" in creds.scopes && credentialsValid
    ensures a.Authenticated? ==> a.token == creds.token
    ensures a.AuthRaised? <==> feedbackMethod == "comment" && commentRaises
  {
    if feedbackMethod == "status" then
      if "repo:status" in creds.scopes && "gist" in creds.scopes then
        if credentialsValid then Authenticated(creds.token) else AuthFailed
      else AuthFailed
    else if feedbackMethod == "comment" then
      if commentRaises then AuthRaised("Comment auth not yet implemented!") else AuthFailed
    else AuthFailed
  }

  /** The character set `rstrip('.git')` removes from the end of the URL. */
  const GitSuffixChars: set<char> := {'.', 'g', 'i', 't'}

  /** `OWNER_REPO` as written: `rstrip` with a string argument strips any trailing run of
      the characters `.`, `g`, `i`, `t`, not the suffix `.git`; `None` is the IndexError of
      a URL without `github.com/`. */
  function OwnerRepoAsWritten(url: string): Option<string> {
    SecondField(RStripChars(url, GitSuffixChars), "github.com/")
  }

  /** `OWNER_REPO` as intended: drop one `.git` suffix, keep what follows `github.com/`. */
  function OwnerRepo(url: string): (r: Option<string>)
    ensures r.None? <==> IndexOf(RemoveSuffix(url, ".git"), "github.com/").None?
  {
    SecondField(RemoveSuffix(url, ".git"), "github.com/")
  }

  /** Stripping stops at the first character outside the set. */
  lemma {:induction false} RStripCharsStops(s: string, t: string, chars: set<char>)
    requires s == [] || s[|s| - 1] !in chars
    requires forall i :: 0 <= i < |t| ==> t[i] in chars
    ensures RStripChars(s + t, chars) == s
    decreases |t|
  {
    if t == [] {
      assert s + t == s;
    } else {
      var u := s + t;
      assert u[..|u| - 1] == s + t[..|t| - 1];
      assert u[|u| - 1] == t[|t| - 1];
      RStripCharsStops(s, t[..|t| - 1], chars);
    }
  }

  /** A mismatching character rules an occurrence out. */
  lemma NotOccursAt(s: string, pat: string, j: nat, k: nat)
    requires j + k < |s| && k < |pat| && s[j + k] != pat[k]
    ensures !OccursAt(s, pat, j)
  {
    if j + |pat| <= |s| {
      assert s[j..j + |pat|][k] == s[j + k];
    }
  }

  lemma IndexOfIs(s: string, pat: string, j: nat)
    requires pat != [] && OccursAt(s, pat, j)
    requires forall i: nat :: i < j ==> !OccursAt(s, pat, i)
    ensures IndexOf(s, pat) == Some(j)
  {
  }

  /** A repository whose name ends in `t` loses more than its `.git`: for
      `git://github.com/o/widget.git` the code computes `o/widge`; the intended path is
      `o/widget`. */
  lemma OwnerRepoStripsTooMuch()
    ensures OwnerRepoAsWritten("git://github.com/o/widget.git") == Some("o/widge")
    ensures OwnerRepo("git://github.com/o/widget.git") == Some("o/widget")
  {
    StrippedWidget();
    SuffixRemovedWidget();
  }

  lemma StrippedWidget()
    ensures OwnerRepoAsWritten("git://github.com/o/widget.git") == Some("o/widge")
  {
    var stem := "git://github.com/o/widge";
    assert "git://github.com/o/widget.git" == stem + "t.git";
    RStripCharsStops(stem, "t.git", GitSuffixChars);
    NoEarlyMatch(stem);
    SecondFieldOfTail(stem, "github.com/", 6);
    assert stem[17..] == "o/widge";
  }

  lemma SuffixRemovedWidget()
    ensures OwnerRepo("git://github.com/o/widget.git") == Some("o/widget")
  {
    var stem := "git://github.com/o/widget";
    assert "git://github.com/o/widget.git" == stem + ".git";
    OwnerRepoOfStem(stem);
  }

  lemma OwnerRepoOfStem(stem: string)
    requires stem == "git://github.com/o/widget"
    ensures OwnerRepo(stem + ".git") == Some("o/widget")
  {
    RemoveAddedSuffix(stem, ".git");
    NoEarlyMatch(stem);
    SecondFieldOfTail(stem, "github.com/", 6);
    assert stem[17..] == "o/widget";
  }

  /** Removing a suffix that was just appended gives the stem back. */
  lemma RemoveAddedSuffix(stem: string, suffix: string)
    ensures RemoveSuffix(stem + suffix, suffix) == stem
  {
    var s := stem + suffix;
    assert s[|s| - |suffix|..] == suffix;
    assert s[..|s| - |suffix|] == stem;
  }

  /** When the separator occurs at `i` and what follows is shorter than the separator,
      the second field is all of that tail. */
  lemma SecondFieldOfTail(s: string, sep: string, i: nat)
    requires sep != [] && IndexOf(s, sep) == Some(i)
    requires |s| < i + 2 * |sep|
    ensures SecondField(s, sep) == Some(s[i + |sep|..])
  {
    var after := s[i + |sep|..];
    var r := IndexOf(after, sep);
    assert |after| < |sep|;
    assert r.None?;
  }

  /** `github.com/` sits right after `git://`, and nowhere earlier. */
  lemma NoEarlyMatch(s: string)
    requires s == "git://github.com/o/widge" || s == "git://github.com/o/widget"
    ensures IndexOf(s, "github.com/") == Some(6)
  {
    var pat := "github.com/";
    forall i: nat | i < 6 ensures !OccursAt(s, pat, i) {
      NotOccursAt(s, pat, i, if i < 3 then 3 - i else 3);
    }
    assert s[6..17] == pat;
    IndexOfIs(s, pat, 6);
  }

  /** The globals the intake reads: the token and the `owner/repo` path. */
  datatype Globals = Globals(token: string, ownerRepo: string)

  /** styleguard.py's `PrHandler.__init__` up to starting the thread. `hasGitDir` and
      `dirty` describe the local mirror (only git mode looks at it). A failure here is an
      exception out of the constructor: the worker never starts. */
  function StartCurrent(cfg: Config, creds: Credentials, credentialsValid: bool, hasGitDir: bool,
                        repo: RepoDir): (r: Result<Globals>)
    ensures r.Ok? <==>
      && InitAuthentication(cfg.feedbackMethod, creds, credentialsValid, true).Authenticated?
      && (cfg.fetchMethod.GitMirror? ==> hasGitDir && !repo.dirty)
      && OwnerRepo(cfg.repoGitUrl).Some?
    ensures r.Ok? ==>
              && cfg.feedbackMethod == "status" && "repo:status" in creds.scopes && "gist" in creds.scopes
              && credentialsValid
    ensures r.Ok? ==> Some(r.value.ownerRepo) == OwnerRepo(cfg.repoGitUrl) && r.value.token == creds.token
  {
    match InitAuthentication(cfg.feedbackMethod, creds, credentialsValid, true)
    case AuthRaised(m) => Err(HandlerError(m))
    case AuthFailed => Err(HandlerError("Initialization failed. Aborting."))
    case Authenticated(token) =>
      if cfg.fetchMethod.GitMirror? && !hasGitDir then Err(HandlerError("Not a git repo directory"))
      else if cfg.fetchMethod.GitMirror? && repo.dirty then Err(HandlerError("Local git repo is dirty! Correct this first!"))
      else
        match OwnerRepo(cfg.repoGitUrl)
        case None => Err(Crash("IndexError: list index out of range"))
        case Some(ownerRepo) => Ok(Globals(token, ownerRepo))
  }

  /** ofCodeStyleGuard.py's constructor: every failed check ends the process
      (`sys.exit`), which is an error here; it computes no globals. */
  function StartLegacy(cfg: Config, creds: Credentials, credentialsValid: bool, hasGitDir: bool,
                       repo: RepoDir): (r: Result<string>)
    ensures r.Ok? <==>
      InitAuthentication(cfg.feedbackMethod, creds, credentialsValid, false).Authenticated?
      && (cfg.fetchMethod.GitMirror? ==> hasGitDir && !repo.dirty)
    ensures r.Err? ==> r.failure.Crash?
  {
    match InitAuthentication(cfg.feedbackMethod, creds, credentialsValid, false)
    case Authenticated(token) =>
      if cfg.fetchMethod.GitMirror? && (!hasGitDir || repo.dirty) then Err(Crash("SystemExit"))
      else Ok(token)
    case _ => Err(Crash("SystemExit"))
  }

  /** Neither worker can be started with comment feedback. */
  lemma CommentFeedbackNeverStarts(cfg: Config, creds: Credentials, valid: bool, hasGitDir: bool, repo: RepoDir)
    requires cfg.feedbackMethod == "comment"
    ensures StartCurrent(cfg, creds, valid, hasGitDir, repo).Err?
    ensures StartLegacy(cfg, creds, valid, hasGitDir, repo).Err?
  {
  }

  /** With the shipped repository URL the two computations agree: the name ends in `s`. */
  lemma ConfiguredOwnerRepo()
    ensures OwnerRepoAsWritten(ConfiguredRepoGitUrl) == OwnerRepo(ConfiguredRepoGitUrl)
  {
    var url := ConfiguredRepoGitUrl;
    assert url == "git://github.com/" + "bilderbuchi/openFrameworks" + ".git";
    var stem := "git://github.com/" + "bilderbuchi/openFrameworks";
    assert stem[|stem| - 1] == 's';
    RStripCharsStops(stem, ".git", GitSuffixChars);
    assert url[|url| - 4..] == ".git";
    assert RemoveSuffix(url, ".git") == stem;
  }
}
