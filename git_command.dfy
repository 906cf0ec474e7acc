/** What `git_command` hands back to its caller, given how the git subprocess ended. */
module GitCommand {
  import opened Text

  /** A git run: exit status 0 with its output, or a non-zero exit (CalledProcessError)
      with the output it captured. */
  datatype CmdOutcome = Succeeded(output: string) | Failed(output: string)

  /** styleguard.py: the output (of a success or of a failure) is returned only when
      `return_output` is set; otherwise the function falls off its end and returns None. */
  function GitCommandResult(run: CmdOutcome, returnOutput: bool): (r: Option<string>)
    ensures !returnOutput <==> r.None?
    ensures r.Some? ==> r.value == run.output
  {
    if !returnOutput then None
    else match run
      case Succeeded(out) => Some(out)
      case Failed(out) => Some(out)
  }

  /** ofCodeStyleGuard.py: as above, except that a successful output loses its trailing
      newlines. */
  function LegacyGitCommandResult(run: CmdOutcome, returnOutput: bool): (r: Option<string>)
    ensures !returnOutput <==> r.None?
    ensures r.Some? && run.Succeeded? ==> r.value == RStripChars(run.output, {'\n'})
    ensures r.Some? && run.Succeeded? ==> r.value == [] || r.value[|r.value| - 1] != '\n'
    ensures r.Some? && run.Failed? ==> r.value == run.output
  {
    if !returnOutput then None
    else match run
      case Succeeded(out) => Some(RStripChars(out, {'\n'}))
      case Failed(out) => Some(out)
  }

  /** The branch-existence test calls `git_command` without `return_output`, so
      `not git_command(...)` holds whatever git answered: the "branch exists" path is
      always taken. */
  lemma ShowRefTestAlwaysTrue(run: CmdOutcome)
    ensures !Truthy(GitCommandResult(run, false))
    ensures !Truthy(LegacyGitCommandResult(run, false))
  {
  }
}
