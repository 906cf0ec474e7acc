/** Reporting back to the pull request: the gist holding the patch, and the commit status. */
module Feedback {
  import opened Text
  import opened Errors
  import opened WorkDirs
  import opened StyleCheck

  /** The states GitHub's Status API accepts. */
  const StatusStates: set<string> := {"success", "failure", "error", "pending"}

  const FailureDescription: string := "PR does not conform to style. Click for details."
  const SuccessDescription: string := "PR conforms to code style."

  /** `add_status`: an unknown state is refused before anything is posted; an empty or
      missing target URL posts a status without one. */
  function AddStatus(commit: string, state: string, description: string, targetUrl: Option<string>): (r: Result<Effect>)
    ensures r.Ok? <==> state in StatusStates
    ensures r.Err? ==> r.failure.HandlerError?
    ensures r.Ok? ==> r.value.StatusCreated? && r.value.commit == commit
    ensures r.Ok? ==> r.value.StatusCreated? && r.value.state == state && r.value.description == description
    ensures r.Ok? ==> (r.value.targetUrl.Some? <==> Truthy(targetUrl))
    ensures r.Ok? && r.value.targetUrl.Some? ==> r.value.targetUrl == targetUrl
  {
    if state !in StatusStates then
      Err(HandlerError("Status state " + state + "is invalid!"))
    else if Truthy(targetUrl) then
      Ok(StatusCreated(commit, state, description, targetUrl))
    else
      Ok(StatusCreated(commit, state, description, None))
  }

  /** `publish_results`: with status feedback, a patch that was published as a gist turns
      the commit red with a link to the gist; everything else turns it green. Comment
      feedback and any other method raise. `gist` is the gist's URL when one was made. */
  function PublishResults(feedbackMethod: string, result: StyleResult, gist: Option<string>,
                          commit: string): (r: Result<Effect>)
    ensures r.Ok? <==> feedbackMethod == "status"
    ensures r.Err? ==> r.failure.HandlerError?
    ensures r.Ok? ==> r.value.StatusCreated? && r.value.commit == commit
    ensures r.Ok? ==> (r.value.state == "failure" <==> result.patchFileName != "" && gist.Some?)
    ensures r.Ok? ==> (r.value.state == "success" <==> !(result.patchFileName != "" && gist.Some?))
    ensures r.Ok? && r.value.state == "failure" ==> r.value.targetUrl == gist || !Truthy(gist)
  {
    if feedbackMethod == "status" then
      if result.patchFileName != "" && gist.Some? then
        AddStatus(commit, "failure", FailureDescription, gist)
      else
        AddStatus(commit, "success", SuccessDescription, None)
    else if feedbackMethod == "comment" then
      Err(HandlerError("Comment feedback not yet implemented. Aborting."))
    else
      Err(HandlerError("Unknown feedback method: " + feedbackMethod))
  }

  function GistDescription(n: nat): string {
    "OF Code style patch for PR " + NatToString(n)
  }

  /** The abbreviated commit id, git's seven leading hex digits. */
  function ShortSha(sha: string): (s: string)
    ensures |sha| >= 7 ==> |s| == 7 && StartsWith(sha, s)
  {
    Slice(sha, 0, 7)
  }

  /** The description file's name as the code builds it: `sha[1:7]` starts at the SECOND
      character, so six digits follow the PR number and the first one is lost. */
  function GistDescFileNameAsWritten(n: nat, headSha: string): string {
    "OF_PR" + NatToString(n) + "-" + Slice(headSha, 1, 7) + ".md"
  }

  /** The description file's name with the abbreviated id it evidently means. */
  function GistDescFileName(n: nat, headSha: string): string {
    "OF_PR" + NatToString(n) + "-" + ShortSha(headSha) + ".md"
  }

  /** Two heads that differ only in their first digit get the same description file name
      as written; the corrected name tells them apart. */
  lemma GistNameDropsFirstDigit()
    ensures GistDescFileNameAsWritten(42, "0123456789") == GistDescFileNameAsWritten(42, "f123456789")
    ensures GistDescFileName(42, "0123456789") != GistDescFileName(42, "f123456789")
  {
    assert Slice("0123456789", 1, 7) == "0123456789"[1..7];
    assert Slice("f123456789", 1, 7) == "f123456789"[1..7];
    assert "0123456789"[1..7] == "f123456789"[1..7];
    var p := "OF_PR" + NatToString(42) + "-";
    assert GistDescFileName(42, "0123456789")[|p|] == ShortSha("0123456789")[0] == '0';
    assert GistDescFileName(42, "f123456789")[|p|] == ShortSha("f123456789")[0] == 'f';
  }

  /** The corrected name embeds the abbreviated id: heads whose ids differ within their
      first seven digits never share a description file name. */
  lemma GistDescFileNameKeysShortSha(n: nat, a: string, b: string)
    requires |a| >= 7 && |b| >= 7 && a[..7] != b[..7]
    ensures GistDescFileName(n, a) != GistDescFileName(n, b)
  {
    var p := "OF_PR" + NatToString(n) + "-";
    var k :| 0 <= k < 7 && a[k] != b[k];
    assert GistDescFileName(n, a)[|p| + k] == a[k];
    assert GistDescFileName(n, b)[|p| + k] == b[k];
  }

  /** `create_gist`: one public gist with the filled-in description file and the patch. */
  function CreateGist(result: StyleResult, headSha: string): (e: Effect)
    ensures e.GistCreated? && e.patchFile == PatchName(result.prNumber)
    ensures e.descFile == GistDescFileName(result.prNumber, headSha)
    ensures e.description == GistDescription(result.prNumber)
  {
    GistCreated(GistDescFileName(result.prNumber, headSha), PatchName(result.prNumber),
                GistDescription(result.prNumber))
  }
}
