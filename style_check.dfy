/** `check_style`: format the in-scope files, turn any change into a patch, check that
    the patch applies to the reset tree, and leave the tree reset. */
module StyleCheck {
  import opened Text
  import opened Errors
  import opened WorkDirs

  /** The dict `check_style` returns. */
  datatype StyleResult = StyleResult(prNumber: nat, prUrl: string, patchFileName: string)

  /** The patch file, keyed by PR number: `pr-<n>.patch`. */
  function PatchName(n: nat): string {
    "pr-" + NatToString(n) + ".patch"
  }

  lemma PatchNamesDistinct(a: nat, b: nat)
    requires a != b
    ensures PatchName(a) != PatchName(b)
  {
    if PatchName(a) == PatchName(b) {
      var sa, sb := NatToString(a), NatToString(b);
      assert PatchName(a)[3..|PatchName(a)| - 6] == sa;
      assert PatchName(b)[3..|PatchName(b)| - 6] == sb;
      NatToStringInjective(a, b);
    }
  }

  /** The formatter rewrites at least one of `files` (it leaves the others alone). */
  predicate AnyRestyled(files: seq<string>, restyled: set<string>) {
    exists k :: 0 <= k < |files| && files[k] in restyled
  }

  datatype CheckOutcome = CheckOutcome(repo: RepoDir, effects: seq<Effect>, result: Result<StyleResult>)

  /** One run of `check_style` over `files` in PR `n`. The oracles: `restyled` is the set of
      files the formatter changes; `patchWriteFails` says that writing the patch file
      raises; `applyCheck` is the output of `git apply --index --check`. */
  function CheckStyle(n: nat, url: string, files: seq<string>, restyled: set<string>,
                      patchWriteFails: bool, applyCheck: string, repo: RepoDir): (c: CheckOutcome)
    // the tree is clean afterwards except when writing the patch raised
    ensures c.repo.kind == repo.kind
    ensures c.repo.dirty <==> c.result.Err? && c.result.failure.Crash?
    // writing the patch of a tree the formatter left dirty raises out of `check_style`
    ensures (repo.dirty || AnyRestyled(files, restyled)) && patchWriteFails <==> c.result.Err? && c.result.failure.Crash?
    // a patch is produced exactly when the tree was dirty after formatting
    ensures c.effects == (if c.repo.dirty || (!repo.dirty && !AnyRestyled(files, restyled)) then [] else [PatchSaved(PatchName(n))])
    ensures c.result.Ok? ==> c.result.value.prNumber == n && c.result.value.prUrl == url
    ensures c.result.Ok? ==> (c.result.value.patchFileName == "" <==> !repo.dirty && !AnyRestyled(files, restyled))
    ensures c.result.Ok? && c.result.value.patchFileName != "" ==> c.result.value.patchFileName == PatchName(n)
    // a patch that does not apply to the reset tree is never returned
    ensures c.result.Err? && c.result.failure.HandlerError? <==>
      (repo.dirty || AnyRestyled(files, restyled)) && !patchWriteFails && applyCheck != ""
  {
    var styled := repo.(dirty := repo.dirty || AnyRestyled(files, restyled));
    if styled.dirty then
      var name := PatchName(n);
      if patchWriteFails then
        CheckOutcome(styled, [], Err(Crash("IOError writing " + name)))
      else
        var reset := styled.(dirty := false);
        if applyCheck != "" then
          CheckOutcome(reset, [PatchSaved(name)], Err(HandlerError("Patch" + name + " does not apply cleanly, aborting!")))
        else
          CheckOutcome(reset, [PatchSaved(name)], Ok(StyleResult(n, url, name)))
    else
      CheckOutcome(styled, [], Ok(StyleResult(n, url, "")))
  }

  /** A run in which the formatter changes nothing leaves a clean tree exactly as it was,
      writes nothing and reports no patch. */
  lemma NoOpRunIsIdentity(n: nat, url: string, files: seq<string>, restyled: set<string>,
                          patchWriteFails: bool, applyCheck: string, repo: RepoDir)
    requires !repo.dirty
    requires forall k :: 0 <= k < |files| ==> files[k] !in restyled
    ensures CheckStyle(n, url, files, restyled, patchWriteFails, applyCheck, repo)
      == CheckOutcome(repo, [], Ok(StyleResult(n, url, "")))
  {
  }
}
