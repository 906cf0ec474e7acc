# ofCodeStyleGuard in Dafny

ofCodeStyleGuard is a GitHub webhook bot for openFrameworks. Each pull request it
receives goes on a queue, and a single worker thread handles the queue in order:

- It validates the pull request: the right repository, open, not merged, and mergeable.
- It gets the changed files. In git mode it uses a local mirror; in file mode it
  downloads them.
- It keeps only the C++ sources in scope.
- It runs the `ofStyler` formatter over those files.
- If styling changed anything, it saves a patch and checks that the patch applies.
- It reports back. Status feedback posts a GitHub commit status, plus a gist with the
  patch when there is one.
- It cleans the working directories.

This project models two versions of the bot:

- `styleguard.py`, the current one.
- `ofCodeStyleGuard.py`, the older Flask-based one.

What the bot learns from git, GitHub or the formatter is modelled as input, and the
commands whose failure the model does not follow are listed under "## Left out". A
`JobOracle` record stands for one job's view of the world:

- the mergeability answer;
- the `git remote -v` text;
- the `git diff --name-only` text;
- the API's list of changed files;
- the set of files the formatter rewrites;
- the output of `git apply --check`;
- the URL of a created gist;
- the base and head commits of the PR as `get_pull` returns it when the job runs;
- at most one failing network or file operation.

What stays is every decision the bot makes on those inputs, and the state it keeps:

- the repository directory: its checkout and whether it is dirty;
- the styler directory;
- the queue.

Where the code has a bug (see "## Findings"), the job model uses the corrected code and
models the code as written beside it.

The Python code relies on two kinds of exception:

- A `PRHandlerException` is logged by `run` and the loop goes on. In the model it is
  `HandlerError`.
- Any other exception escapes `run` and ends the worker thread. In the model it is
  `Crash`.

The code is organised as follows:

- Pure functions give the meaning of each step: `Pipeline.RunJob` for one job, and
  `Pipeline.Step` and `Pipeline.Drain` for the worker loop.
- The imperative parts of the source stay imperative:
  - the FIFO queue is the class `Queues.JobQueue`;
  - the worker threads are the classes `Worker.PrHandler` and `Legacy.LegacyHandler`, with
    their loops over the queue, the remotes, the changed files and the styler files.
- Each method is proved to leave exactly the state that the pure function describes.

Modules, one per file: `Text` (the Python string operations used), `Settings`, `Errors`,
`GitCommand`, `Validation`, `FileFilter`, `Remotes`, `WorkDirs`, `Styler`, `StyleCheck`,
`Feedback`, `Pipeline`, `Queues`, `Worker`, `Startup`, `Intake`, `Legacy`, `Logging`.

## Model

| member | source | states |
|---|---|---|
| FileFilter.FilterMembership | styleguard.py:374-389 | a path is in the filtered list iff it is in the input and its lower-case form ends in `.cpp`/`.h` and starts with `examples`, `addons`, `apps` or `libs/openframeworks` |
| FileFilter.FilterSubsequence | styleguard.py:383-389 | the filtered list is an order-preserving subsequence of the input |
| FileFilter.FilterLength | styleguard.py:383-389 | filtering never lengthens the list |
| FileFilter.FilterKeepsKept | styleguard.py:383-389 | a list whose every path is in scope is returned unchanged |
| FileFilter.FilterAllKept | styleguard.py:383-389 | every path in the result is in scope |
| FileFilter.FilterIdempotent | styleguard.py:383-389 | filtering twice equals filtering once |
| FileFilter.FilterAppend | styleguard.py:383-389 | filtering distributes over concatenation, so each path is judged on its own |
| FileFilter.KeptExamples | styleguard.py:384-388 | the prefix test is a raw string prefix: `appsfoo.cpp` is kept, and so are mixed-case paths |
| FileFilter.DroppedExamples | styleguard.py:384-388 | `apps/bar.hpp`, `docs/foo.cpp` and `README.md` are dropped |
| FileFilter.LowerExamples | styleguard.py:384 | the lower-case forms of the mixed-case paths the filter compares |
| FileFilter.ScenarioFiles | ofCodeStyleGuard.py:285-291 | a README next to an example source is filtered away |
| Validation.ValidatePr | styleguard.py:159-204 | valid iff base URL matches the configuration, state is open, not merged, and mergeable; mergeability is queried iff the first three hold; a pending status is due iff queried, not mergeable, and feedback not suppressed |
| Validation.MergedShortCircuits | styleguard.py:174-182 | a merged PR is rejected without any query or status |
| Validation.UnknownIsPostponed | styleguard.py:185-195 | an undecided mergeability is treated as not mergeable |
| Validation.LegacyValidatePr | ofCodeStyleGuard.py:116-158 | valid iff repository URL matches, action is not closed, not merged, and mergeable; the query is always made and no pending status is ever due |
| GitCommand.GitCommandResult | styleguard.py:510-540 | output is returned iff requested, and then unchanged |
| GitCommand.LegacyGitCommandResult | ofCodeStyleGuard.py:400-416 | output is returned iff requested; successful output loses its trailing newlines |
| GitCommand.ShowRefTestAlwaysTrue | styleguard.py:268-269 | the branch-existence test never sees output, in both versions |
| Remotes.NeverCreatesBaseBranch | styleguard.py:268-289 | so the base branch is always checked out and merged, never created, and the PR branch is then fetched and checked out |
| Remotes.RemoteLines | styleguard.py:248 | the listing is split at newlines and each line into whitespace-separated tokens |
| Remotes.LastMatch | styleguard.py:250-255 | the index of the last line whose third token is `(fetch)` and whose URL is the base `git_url` or `ssh_url`, or none |
| Remotes.FirstShortLine | styleguard.py:250-251 | the first line with fewer than three tokens, where `rem[2]` fails |
| Remotes.ScanRemotes | styleguard.py:246-260 | the loop as written: a short line before the end raises, otherwise the last matching remote, otherwise no base remote |
| Remotes.FindBaseRemote | styleguard.py:246-260 | the corrected loop: the remote name of the last matching line, none iff no line matches |
| Remotes.BaseRemote | styleguard.py:246-257 | a base remote is found iff some line of the listing matches |
| Remotes.UnstrippedListingAlwaysRaises | styleguard.py:247-251 | a listing ending in a newline always has a short line |
| Remotes.StrippedListingScans | ofCodeStyleGuard.py:169-171 | once trailing newlines are stripped, a listing of well-formed lines parses back to those lines |
| Remotes.PrBranchNamesDistinct | styleguard.py:284-285 | different PR numbers get different local branches |
| Styler.AnyIn | styleguard.py:225 | holds iff some styler path is in the changed list |
| Styler.StylerSource | styleguard.py:225-231 | the source is `pr` or `base` |
| Styler.SourceCommit | styleguard.py:348-353 | `base` gives the base sha, `pr` the head sha, any other source raises |
| Styler.StylerCommitChoice | styleguard.py:222-233 | the head sha is used iff one of the three styler paths is among the unfiltered changed files |
| Styler.BasenameIsLastComponent | styleguard.py:358-359 | a destination name is the longest slash-free suffix of the path |
| Styler.BasenameOfJoin | styleguard.py:359 | a file name under a directory keeps its own name |
| Styler.FetchedFiles | styleguard.py:356-370 | one styler file per path, the k-th fetched from the k-th path at the given commit |
| Styler.FetchedFormatter | styleguard.py:369-370 | `ofStyler` is stored as `ofStyler` and made executable |
| Styler.FetchedSupportFile | styleguard.py:356-370 | a slash-free file name not ending in `r` (both support files are such names) is stored under that name and not made executable |
| Styler.FetchedStylerContents | styleguard.py:222-224 | the styler directory receives exactly the three files, in order, from the chosen commit |
| StyleCheck.CheckStyle | styleguard.py:391-431 | the checkout is kept; dirty output gives `pr-<n>.patch` and a saved patch, clean output gives `''`; a non-empty apply check raises a handler error; a patch write fails on a dirty tree iff the check escapes as a crash, leaving the tree dirty; the result echoes number and URL |
| StyleCheck.PatchNamesDistinct | styleguard.py:404 | different PRs get different patch files |
| StyleCheck.NoOpRunIsIdentity | styleguard.py:403-431 | a clean tree that the formatter leaves alone gives an empty patch name and no effect |
| Feedback.AddStatus | styleguard.py:452-465 | a status is posted iff its state is success, failure, error or pending, otherwise a handler error; a target URL is attached iff one is given |
| Feedback.PublishResults | styleguard.py:433-450 | status feedback posts failure iff there is a patch and a gist, otherwise success; comment and any other method raise a handler error |
| Feedback.ShortSha | styleguard.py:483-484 | the short sha is the first seven characters |
| Feedback.GistNameDropsFirstDigit | styleguard.py:483-484 | the name as written ignores the first sha character, and the corrected name does not |
| Feedback.GistDescFileNameKeysShortSha | styleguard.py:483-484 | corrected names of heads with different short shas differ |
| Feedback.CreateGist | styleguard.py:472-490 | the gist holds the description file and `pr-<n>.patch`, under the PR's description |
| WorkDirs.CheckoutBranch | styleguard.py:270-288 | a clean mirror is checked out on the branch; a dirty one, holding restyled PR files git refuses to overwrite, stays as it was |
| WorkDirs.CheckoutIdle | styleguard.py:496 | a clean mirror is checked out on `master`; a dirty one, holding restyled PR files git refuses to overwrite, stays as it was |
| WorkDirs.CleanUp | styleguard.py:492-502 | the styler directory is emptied; a clean mirror is back on `master` and a dirty one unchanged; file mode has an empty repository directory |
| WorkDirs.CleanUpRestoresIdle | styleguard.py:492-502 | from a clean tree, or in file mode, clean-up reaches the idle state |
| WorkDirs.CleanUpIdempotent | styleguard.py:492-502 | cleaning twice is cleaning once |
| Pipeline.ChangedNames | styleguard.py:317-319 | the names of exactly the added or modified files |
| Pipeline.FilteredIsFilterOfChanged | styleguard.py:317-321 | the per-file filter loop equals filtering the changed list |
| Pipeline.GitProcessPrAsWritten | styleguard.py:237-300 | as written: a remote line of fewer than three tokens escapes as a crash; without one, it agrees with the corrected `GitProcessPr` |
| Pipeline.AsWrittenRetrievalCrashes | styleguard.py:247-251 | as written, every newline-terminated `remote -v` listing makes git-mode retrieval crash |
| Pipeline.GitProcessPr | styleguard.py:237-300 | corrected lookup: fails with a handler error iff no base remote; otherwise a clean mirror ends on the PR branch and a dirty one stays as it was, returning the diff's tokens and their filtered list |
| Pipeline.FileProcessPr | styleguard.py:302-341 | the changed list is exactly the added or modified files of the PR; the filtered list is its filter; a fresh clean snapshot of the filtered files |
| Pipeline.GetPr | styleguard.py:206-235 | no effects; on success the styler files are added from the head commit `get_pull` reports if a styler path changed, else from its base commit; the tree is never made dirty |
| Pipeline.Retrieval | styleguard.py:216-220 | the filtered list is the filter of the changed list; an unknown fetch method escapes `run` |
| Pipeline.Body | styleguard.py:105-112 | the tree ends dirty only if it was, or a patch write failed |
| Pipeline.StyleAndReport | styleguard.py:107-112 | the styler files and checkout are untouched; dirty iff the patch write failed |
| Pipeline.Report | styleguard.py:108-112 | a gist first when there is a patch; no gist without one; no status when feedback is suppressed; otherwise the published status comes last |
| Pipeline.RunJob | styleguard.py:96-124 | the verdict is the validation's; only exceptions other than PRHandlerException end the thread; for a validated PR, the thread ends iff the body raises such an exception, and the job ends with the body's effects and the cleaned-up workspace |
| Pipeline.SkippedJobLeavesWorkspace | styleguard.py:104-119 | an invalid PR leaves the workspace alone and publishes at most the pending status |
| Pipeline.ValidatedJobIsCleanedUp | styleguard.py:105-117 | a validated job always ends with the styler directory empty, the per-file repository empty, and a clean mirror on `master`; from a clean mirror, only a job that ends the thread leaves it dirty |
| Pipeline.JobPreservesIdle | styleguard.py:96-124 | the idle state survives every job, except a failed patch write on the mirror |
| Pipeline.PatchWriteCrashLeavesMirrorDirty | styleguard.py:403-408 | a failed patch write ends the thread and leaves the mirror dirty on the PR branch `pr-<n>` |
| Pipeline.GitPatchWriteBody | styleguard.py:391-408 | in git mode, a failed patch write after the formatter changed an in-scope file raises a crash and leaves the tree dirty on the PR branch |
| Pipeline.FileModeRetrieves | styleguard.py:206-235 | a fault-free per-file retrieval hands over the filtered files on a clean snapshot |
| Pipeline.FaultFreeReport | styleguard.py:104-112 | on a clean tree without faults, status feedback ends with the head-commit status, failure iff some file was restyled |
| Pipeline.SuccessfulJobReports | styleguard.py:104-124 | a fault-free file-mode job posts a status on the head commit, failure iff some filtered file was restyled |
| Pipeline.Step | styleguard.py:96-124 | the queue head is taken; its effects are appended; the thread survives iff no escaping exception and `task_done` succeeds |
| Pipeline.StepKeepsAccounts | styleguard.py:100-122 | the unfinished count still covers the queue |
| Pipeline.Drain | styleguard.py:96-124 | the loop stops only with an empty queue or a dead thread, having taken a prefix of the queue |
| Pipeline.DrainAccounting | styleguard.py:100-122 | `task_done` is called once per dequeued payload except the one that ended the thread; a balanced queue is fully done |
| Pipeline.DrainExtendsEffects | styleguard.py:96-124 | published effects are only ever appended |
| Pipeline.DrainPreservesIdle | styleguard.py:96-124 | the workspace is idle between jobs unless a patch write failed on the mirror |
| Queues.JobQueue.constructor | styleguard.py:52 | an empty queue with no unfinished tasks |
| Queues.JobQueue.Put | styleguard.py:577 | appends and adds an unfinished task |
| Queues.JobQueue.Get | styleguard.py:100 | takes the head, FIFO |
| Queues.JobQueue.TaskDone | styleguard.py:122 | succeeds iff a task is unfinished, then one fewer |
| Worker.PrHandler.constructor | styleguard.py:59-63 | a worker on its queue with no payload |
| Worker.PrHandler.FileProcessPr | styleguard.py:302-341 | the loop builds exactly the changed and filtered lists and a clean snapshot |
| Worker.PrHandler.GitProcessPr | styleguard.py:237-300 | equals `Pipeline.GitProcessPr`, with the mirror checked out on `master` (if clean) on failure |
| Worker.PrHandler.FetchStylerFiles | styleguard.py:343-370 | the loop appends exactly `FetchedFiles` |
| Worker.PrHandler.GetPr | styleguard.py:206-235 | equals `Pipeline.GetPr` |
| Worker.PrHandler.CheckStyle | styleguard.py:391-431 | equals `StyleCheck.CheckStyle` |
| Worker.PrHandler.Body | styleguard.py:105-112 | equals `Pipeline.Body` |
| Worker.PrHandler.StyleAndReport | styleguard.py:107-112 | equals `Pipeline.StyleAndReport` |
| Worker.PrHandler.Report | styleguard.py:108-112 | equals `Pipeline.Report` |
| Worker.PrHandler.CleanUp | styleguard.py:492-502 | equals `WorkDirs.CleanUp` |
| Worker.PrHandler.RunValidated | styleguard.py:105-117 | the try block and its clean-up for a valid PR leave the workspace and effects `Pipeline.RunJob` gives, and report an escaping exception iff the job ends the thread |
| Worker.PrHandler.ProcessNext | styleguard.py:97-124 | one iteration equals `Pipeline.Step` |
| Worker.PrHandler.Run | styleguard.py:96-124 | the loop equals `Pipeline.Drain` |
| Startup.InitAuthentication | styleguard.py:126-157 | authenticated iff status feedback, both scopes present and the credentials valid; the comment branch raises iff its call fails |
| Startup.OwnerRepo | styleguard.py:91-92 | defined iff `github.com/` occurs once the `.git` suffix is removed |
| Startup.OwnerRepoStripsTooMuch | styleguard.py:91-92 | for `.../o/widget.git` the code as written gives `o/widge`, the corrected one `o/widget` |
| Startup.ConfiguredOwnerRepo | styleguard.py:91-92 | for the configured URL both agree |
| Startup.StartCurrent | styleguard.py:59-94 | starts iff authentication succeeds (status feedback, both scopes, valid credentials), in git mode the mirror exists and is clean, and the configured URL names a GitHub repository; owner/repo and token come from the configuration and credentials |
| Startup.StartLegacy | ofCodeStyleGuard.py:31-56 | starts iff authentication succeeds and, in git mode, the mirror exists and is clean; otherwise exits |
| Startup.CommentFeedbackNeverStarts | ofCodeStyleGuard.py:107-110 | comment feedback never gets a running worker, in either version |
| Intake.PullsUrlsDistinct | styleguard.py:568-569 | different PR numbers query different API URLs |
| Intake.Enqueued | styleguard.py:563-587 | an int payload is queued iff the API reply is ok; a dict payload always; anything else never |
| Intake.HandlePayload | styleguard.py:563-587 | the queue grows by exactly `Enqueued` |
| Intake.LegacyApiPr | ofCodeStyleGuard.py:439-460 | nothing from outside the allow-list; the form payload if present; else the sample file for localhost, else a crash |
| Intake.LegacyPost | ofCodeStyleGuard.py:439-470 | the queue grows by exactly the accepted payload |
| Legacy.LegacyRetrieval | ofCodeStyleGuard.py:160-274 | file mode always raises; in git mode a clean mirror succeeds only on the PR branch and a dirty one is never moved; the tree's dirtiness is kept |
| Legacy.LegacyPublish | ofCodeStyleGuard.py:336-367 | success only with status feedback, ending with a status on the head commit, failure iff a patch; with a patch the gist is created first and the status links to it; never a pending status |
| Legacy.LegacyCleanUp | ofCodeStyleGuard.py:389-397 | a clean mirror back on `master`, a dirty one unchanged; file mode empty; styler untouched |
| Legacy.LegacyRunJob | ofCodeStyleGuard.py:58-81 | the verdict is the legacy validation's; only non-handler exceptions end the thread; for a validated PR, the thread ends iff the body raises such an exception, after clean-up, with the body's effects |
| Legacy.FileModeNeverStyles | ofCodeStyleGuard.py:262 | file mode publishes nothing and ends with an empty repository directory |
| Legacy.NeverPending | ofCodeStyleGuard.py:146-148 | the old worker never posts a pending status |
| Legacy.ShortRemoteLineCrashes | ofCodeStyleGuard.py:169-171 | a short remote line still ends the thread, with the mirror checked out on `master` if it was clean |
| Legacy.EmptyListingIsShort | ofCodeStyleGuard.py:169-171 | an empty listing is such a line |
| Legacy.QueryFaultOnRejectedPayload | ofCodeStyleGuard.py:139-143 | a failing mergeability query kills the old worker even for a merged PR; the current worker never asks |
| Legacy.LegacyStep | ofCodeStyleGuard.py:58-81 | one iteration of the old loop |
| Legacy.LegacyDrain | ofCodeStyleGuard.py:58-81 | stops only with an empty queue or a dead thread, having taken a prefix |
| Legacy.FileModeDrainPublishesNothing | ofCodeStyleGuard.py:58-81 | in file mode the old worker never publishes anything |
| Legacy.LegacyHandler.constructor | ofCodeStyleGuard.py:31-35 | a worker on its queue with no payload |
| Legacy.LegacyHandler.FileProcessPr | ofCodeStyleGuard.py:225-262 | the loop collects exactly the in-scope added/modified files, then raises |
| Legacy.LegacyHandler.GitProcessPr | ofCodeStyleGuard.py:160-223 | equals the git branch of `LegacyRetrieval` |
| Legacy.LegacyHandler.Retrieve | ofCodeStyleGuard.py:64-67 | equals `LegacyRetrieval` |
| Legacy.LegacyHandler.Body | ofCodeStyleGuard.py:63-70 | equals the try block |
| Legacy.LegacyHandler.ProcessNext | ofCodeStyleGuard.py:60-79 | one iteration equals `LegacyStep` |
| Legacy.LegacyHandler.Run | ofCodeStyleGuard.py:58-81 | the loop equals `LegacyDrain` |
| Logging.Destinations | styleguard.py:24-48 | stderr gets WARNING and up, stdout DEBUG and INFO, both only above the logger's level |
| Logging.ExactlyOneStream | styleguard.py:36-48 | a record that passes the logger's level, at DEBUG or above, reaches exactly one stream |
| Logging.QuietRecords | styleguard.py:36-48 | records below the logger's level or below DEBUG are not emitted |

## Left out

- Subprocesses, the GitHub API, HTTP downloads, files, `sleep` and threads are modelled as oracle inputs. The patch text, file contents and the gist description template are not modelled.
- `git_command` swallows every failing git command (styleguard.py:528-540). The model follows the commands whose output it reads (`remote -v`, `diff --name-only`, `status --porcelain`, `apply --check`) and the refused checkout of a dirty mirror. It assumes that every other git command succeeds: `fetch`, `merge`, the other checkouts, `reset --hard`, `submodule update`, and file mode's `init`, `add` and `commit`. A failed fetch or checkout of the PR branch would leave the mirror on the base branch without an exception, and a failed `reset --hard` would leave the tree dirty. `Pipeline.JobPreservesIdle` and `Pipeline.DrainPreservesIdle` hold under this assumption.
- File mode's `get_files()` and its per-file downloads (styleguard.py:317-331) can raise and end the thread. These failures are not modelled; of the GitHub calls in `get_pr`, only `get_pull` and the styler download can fail in the model.
- Only one GitHub or file operation per job can fail in the model, and only the ones that matter: the mergeability query, the PR query, the styler download, the patch write, the gist upload and the status post.
- `config.get`, the rate-limit log call and the JSON dump of `last_payload.json` are left out. They only log or write files.
- The worker loop is modelled as draining a finite queue. The thread itself, its daemon flag, the Flask server and `Queue.join` are left out.
- Python's `is "status"` comparison is modelled as string equality. This relies on the interning of the literal.
- The configuration is a `Config` value. The stored settings file lacks `suppress_feedback` and `styler_local_path`, which styleguard.py reads. styleguard_module.py does not define the `my_config` and `my_queue` that ofCodeStyleGuard.py imports.
- An int payload is a `nat`. A negative PR number is not modelled.
- Legacy.LegacyPublish: the old `add_status` posts to a hard-coded `bilderbuchi/openFrameworks` repository. The model does not record which repository a status goes to.
- Feedback.CreateGist: names the gist's description file with the corrected seven-character short sha, not the `sha[1:7]` of styleguard.py:483-484. `Feedback.GistDescFileNameAsWritten` models the code as written.
- Legacy.LegacyPublish: the old `create_gist` also takes `sha[1:7]` (ofCodeStyleGuard.py:380). The model uses the corrected name for both versions.
- Pipeline.GitProcessPr: uses the corrected remote lookup. As written, styleguard.py:247-251 raises IndexError on the empty last line of every real `remote -v` listing, which `Pipeline.GitProcessPrAsWritten` models. So the git-mode results of `GetPr`, `Body`, `RunJob`, `Step`, `Drain` and their lemmas hold for the corrected program only.
- Pipeline.RunJob: for the code as written, every validated git-mode job whose `remote -v` output ends in a newline would end the worker thread after clean-up, without `task_done` (`Pipeline.AsWrittenRetrievalCrashes`). The job model instead continues with the corrected lookup.
- Worker.PrHandler.GitProcessPr: its loop is the corrected `Remotes.FindBaseRemote`. The raising loop as written is `Remotes.ScanRemotes`, which the old worker's `Legacy.LegacyHandler.GitProcessPr` uses on its stripped listing.
- Startup.StartCurrent: computes owner/repo with the corrected `Startup.OwnerRepo` rather than `rstrip('.git')` (styleguard.py:91-92). For the shipped URL both agree (`Startup.ConfiguredOwnerRepo`).
- Legacy.LegacyHandler.Body: the old `check_style` is taken by value from `StyleCheck.CheckStyle`. Only the current worker has it as a loop method.
- WorkDirs.CleanUp: whatever file mode leaves in the repository directory is represented only by the snapshot kind. The directory's contents are not modelled.
- `add_file_logger` and log formatting are left out. Only where a record goes is modelled.
- `style_file` is the `restyled` set. Whatever the formatter does to a file is not modelled.
- Non-ASCII file names are not modelled. `style_file` encodes its command line as ASCII (styleguard.py:549-550), so an in-scope file name outside ASCII raises a Unicode error there. That is not a CalledProcessError, so it would escape `run` and end the worker; the model treats every file as one the formatter can be called on.
- `Text.Lower` lowers ASCII letters only. File mode filters the API's unicode names, whose `lower()` also maps other letters, e.g. U+212A KELVIN SIGN to `k`; the model does not follow that.

## Findings

| source | as written | input that shows it | evidently intended | confidence | as-written member | corrected member |
|---|---|---|---|---|---|---|
| styleguard.py:247-251 | `git remote -v` output is split at `\n` unstripped, so its trailing newline gives an empty last line and `rem[2]` raises IndexError, which escapes `run` and ends the worker | any non-empty listing ending in `\n`, e.g. `"origin u (fetch)\n"` | strip trailing newlines as the older git_command did (ofCodeStyleGuard.py:409), or skip short lines | not executed; high | Remotes.ScanRemotes, Pipeline.GitProcessPrAsWritten, Pipeline.AsWrittenRetrievalCrashes | Remotes.FindBaseRemote, Remotes.BaseRemote, Pipeline.GitProcessPr |
| styleguard.py:91-92 | `rstrip('.git')` strips any trailing `.`, `g`, `i`, `t` characters rather than the suffix | `git://github.com/o/widget.git` gives `o/widge` | remove the `.git` suffix, giving `o/widget` | not executed; high | Startup.OwnerRepoAsWritten, Startup.OwnerRepoStripsTooMuch | Startup.OwnerRepo |
| styleguard.py:483-484 | the gist file name takes `sha[1:7]`, which drops the first character of the short sha | heads `0123456789…` and `f123456789…` of PR 42 get the same name | the usual seven-character short sha `sha[0:7]` | not executed; medium | Feedback.GistDescFileNameAsWritten, Feedback.GistNameDropsFirstDigit | Feedback.GistDescFileName |
