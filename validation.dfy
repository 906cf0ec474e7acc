/** Whether a dequeued pull request is processed at all (`validate_pr`). */
module Validation {
  import opened Settings

  /** `mergeable` as GitHub reports it: true, false, or null while still being computed. */
  datatype Mergeability = Mergeable | NotMergeable | NotYetKnown

  const PendingDescription: string := "Code style check postponed until PR is mergeable"

  /** What validate_pr decided and which external calls it made. */
  datatype Verdict = Verdict(
    verified: bool,      // the return value
    queried: bool,       // GitHub was asked (after the delay) whether the PR is mergeable
    postsPending: bool)  // a `pending` status is added to the head commit

  /** styleguard.py: three payload checks, each of which can clear the flag; only when
      all three pass is mergeability queried, and `== True` treats null like false. */
  function ValidatePr(cfg: Config, pr: PullRequest, mergeable: Mergeability): (v: Verdict)
    ensures v.verified <==>
      pr.base.repo.gitUrl == cfg.repoGitUrl && pr.state == "open" && !pr.merged && mergeable == Mergeable
    ensures v.queried <==> pr.base.repo.gitUrl == cfg.repoGitUrl && pr.state == "open" && !pr.merged
    ensures v.postsPending <==> v.queried && mergeable != Mergeable && !cfg.suppressFeedback
  {
    var verified := pr.base.repo.gitUrl == cfg.repoGitUrl;
    var verified := if pr.state == "open" then verified else false;
    var verified := if pr.merged == false then verified else false;
    if verified then
      var isMergeable := mergeable == Mergeable;
      Verdict(verified && isMergeable, true, !isMergeable && !cfg.suppressFeedback)
    else
      Verdict(false, false, false)
  }

  /** An already merged pull request is rejected without any further call to GitHub. */
  lemma MergedShortCircuits(cfg: Config, pr: PullRequest, mergeable: Mergeability)
    requires pr.merged
    ensures !ValidatePr(cfg, pr, mergeable).verified
    ensures !ValidatePr(cfg, pr, mergeable).queried
    ensures !ValidatePr(cfg, pr, mergeable).postsPending
  {
  }

  /** A pull request whose mergeability GitHub has not computed yet is postponed like an
      unmergeable one. */
  lemma UnknownIsPostponed(cfg: Config, pr: PullRequest)
    ensures ValidatePr(cfg, pr, NotYetKnown) == ValidatePr(cfg, pr, NotMergeable)
  {
  }

  /** ofCodeStyleGuard.py: the event's repository URL must match, the action must not be
      `closed`, the PR must not be merged; mergeability is queried unconditionally and no
      pending status is ever added. */
  function LegacyValidatePr(cfg: Config, ev: HookEvent, mergeable: Mergeability): (v: Verdict)
    ensures v.verified <==>
      ev.repository.gitUrl == cfg.repoGitUrl && ev.action != "closed" && !ev.pullRequest.merged
      && mergeable == Mergeable
    ensures v.queried && !v.postsPending
  {
    var verified := ev.repository.gitUrl == cfg.repoGitUrl;
    var verified := if ev.action != "closed" then verified else false;
    var verified := if ev.pullRequest.merged == false then verified else false;
    var isMergeable := mergeable == Mergeable;
    Verdict(verified && isMergeable, true, false)
  }
}
