/** Finding the local remote that points at the pull request's base repository, and the
    branch names and git commands the mirror-sync retrieval builds from the PR number. */
module Remotes {
  import opened Text
  import opened GitCommand

  /** `git remote -v` output as the worker tokenises it: `[x.split() for x in s.split('\n')]`. */
  function RemoteLines(listing: string): (lines: seq<seq<string>>)
    ensures |lines| == |SplitOn(listing, '\n')|
    ensures forall k :: 0 <= k < |lines| ==> lines[k] == Words(SplitOn(listing, '\n')[k])
  {
    var raw := SplitOn(listing, '\n');
    seq(|raw|, k requires 0 <= k < |raw| => Words(raw[k]))
  }

  /** A remote line names the base repository for fetching: third token `(fetch)`, and
      the URL equal to the base repository's git or ssh URL. */
  predicate Matches(line: seq<string>, gitUrl: string, sshUrl: string) {
    |line| >= 3 && line[2] == "(fetch)" && (line[1] == gitUrl || line[1] == sshUrl)
  }

  /** Index of the last matching line: every later line does not match. */
  function LastMatch(lines: seq<seq<string>>, gitUrl: string, sshUrl: string): (r: Option<nat>)
    ensures r.Some? ==> r.value < |lines| && Matches(lines[r.value], gitUrl, sshUrl)
    ensures r.Some? ==> forall j :: r.value < j < |lines| ==> !Matches(lines[j], gitUrl, sshUrl)
    ensures r.None? ==> forall j :: 0 <= j < |lines| ==> !Matches(lines[j], gitUrl, sshUrl)
  {
    if lines == [] then None
    else if Matches(lines[|lines| - 1], gitUrl, sshUrl) then Some(|lines| - 1)
    else LastMatch(lines[..|lines| - 1], gitUrl, sshUrl)
  }

  /** Index of the first line with fewer than three tokens, where `rem[2]` raises. */
  function FirstShortLine(lines: seq<seq<string>>): (r: Option<nat>)
    ensures r.Some? ==> r.value < |lines| && |lines[r.value]| < 3
    ensures r.Some? ==> forall j :: 0 <= j < r.value ==> |lines[j]| >= 3
    ensures r.None? ==> forall j :: 0 <= j < |lines| ==> |lines[j]| >= 3
  {
    if lines == [] then None
    else if |lines[0]| < 3 then Some(0)
    else match FirstShortLine(lines[1..])
      case None => None
      case Some(j) => Some(j + 1)
  }

  /** The result of the remote scan as written in both workers. */
  datatype Lookup =
    | Found(remote: string)    // base_remote
    | NoBaseRemote             // PRHandlerException: base remote does not exist yet
    | ShortLine(index: nat)    // IndexError at rem[2]: escapes the worker loop

  /** What the scan as written ends with: the first short line raises before any later
      line is read; otherwise the last match, or no match at all. */
  function ScanOutcome(lines: seq<seq<string>>, gitUrl: string, sshUrl: string): Lookup {
    match FirstShortLine(lines)
    case Some(i) => ShortLine(i)
    case None =>
      match LastMatch(lines, gitUrl, sshUrl)
      case None => NoBaseRemote
      case Some(k) => Found(lines[k][0])
  }

  /** The loop over `my_remotes` as written: a line with fewer than three tokens raises at
      `rem[2]`; otherwise every matching `(fetch)` line overwrites `base_remote`, so the last
      one wins, and no match at all is an error. */
  method ScanRemotes(lines: seq<seq<string>>, gitUrl: string, sshUrl: string) returns (r: Lookup)
    ensures r == ScanOutcome(lines, gitUrl, sshUrl)
    ensures FirstShortLine(lines).Some? ==> r == ShortLine(FirstShortLine(lines).value)
    ensures FirstShortLine(lines).None? && LastMatch(lines, gitUrl, sshUrl).None? ==> r == NoBaseRemote
    ensures FirstShortLine(lines).None? && LastMatch(lines, gitUrl, sshUrl).Some? ==>
      r == Found(lines[LastMatch(lines, gitUrl, sshUrl).value][0])
  {
    var baseRemote: Option<string> := None;
    var i := 0;
    while i < |lines|
      invariant 0 <= i <= |lines|
      invariant forall j :: 0 <= j < i ==> |lines[j]| >= 3
      invariant baseRemote.None? <==> LastMatch(lines[..i], gitUrl, sshUrl).None?
      invariant baseRemote.Some? ==> baseRemote.value == lines[LastMatch(lines[..i], gitUrl, sshUrl).value][0]
    {
      var rem := lines[i];
      if |rem| < 3 {
        assert FirstShortLine(lines) == Some(i) by { FirstShortLineIs(lines, i); }
        return ShortLine(i);
      }
      if rem[2] == "(fetch)" {
        if rem[1] == gitUrl || rem[1] == sshUrl {
          baseRemote := Some(rem[0]);
        }
      }
      assert lines[..i + 1][..i] == lines[..i];
      i := i + 1;
    }
    assert lines[..i] == lines;
    FirstShortLineNone(lines);
    if baseRemote.None? {
      return NoBaseRemote;
    }
    return Found(baseRemote.value);
  }

  lemma FirstShortLineIs(lines: seq<seq<string>>, i: nat)
    requires i < |lines| && |lines[i]| < 3
    requires forall j :: 0 <= j < i ==> |lines[j]| >= 3
    ensures FirstShortLine(lines) == Some(i)
  {
    var r := FirstShortLine(lines);
    assert |lines[i]| < 3;
    assert r.Some? ==> |lines[r.value]| < 3;
  }

  lemma FirstShortLineNone(lines: seq<seq<string>>)
    requires forall j :: 0 <= j < |lines| ==> |lines[j]| >= 3
    ensures FirstShortLine(lines).None?
  {
  }

  /** The scan that skips lines too short to be a remote: what the loop is meant to do.
      It never fails on the shape of the listing and finds the last matching remote. */
  method FindBaseRemote(lines: seq<seq<string>>, gitUrl: string, sshUrl: string) returns (r: Option<string>)
    ensures r.None? <==> LastMatch(lines, gitUrl, sshUrl).None?
    ensures r.Some? ==> r.value == lines[LastMatch(lines, gitUrl, sshUrl).value][0]
  {
    r := None;
    for i := 0 to |lines|
      invariant r.None? <==> LastMatch(lines[..i], gitUrl, sshUrl).None?
      invariant r.Some? ==> r.value == lines[LastMatch(lines[..i], gitUrl, sshUrl).value][0]
    {
      var rem := lines[i];
      if |rem| >= 3 && rem[2] == "(fetch)" && (rem[1] == gitUrl || rem[1] == sshUrl) {
        r := Some(rem[0]);
      }
      assert lines[..i + 1][..i] == lines[..i];
    }
    assert lines[..|lines|] == lines;
  }

  /** The lookup the pipeline uses, as a function of the listing text. */
  function BaseRemote(listing: string, gitUrl: string, sshUrl: string): (r: Option<string>)
    ensures r.Some? <==> exists k :: 0 <= k < |RemoteLines(listing)| && Matches(RemoteLines(listing)[k], gitUrl, sshUrl)
  {
    var lines := RemoteLines(listing);
    match LastMatch(lines, gitUrl, sshUrl)
    case None => None
    case Some(k) => Some(lines[k][0])
  }

  /** styleguard.py passes the raw output of `git remote -v` to the scan. git ends every
      line with a newline, so the listing's last field is the empty string, whose token
      list is empty: the scan raises IndexError on that line, whatever the remotes are. */
  lemma UnstrippedListingAlwaysRaises(listing: string, gitUrl: string, sshUrl: string)
    requires listing != [] && listing[|listing| - 1] == '\n'
    ensures FirstShortLine(RemoteLines(listing)).Some?
  {
    SplitOnTrailing(listing, '\n');
    var lines := RemoteLines(listing);
    assert lines[|lines| - 1] == Words("") == [];
    assert |lines[|lines| - 1]| < 3;
  }

  /** ofCodeStyleGuard.py strips trailing newlines first (git_command with return_output),
      so a listing of well-formed remote lines scans without IndexError. */
  lemma StrippedListingScans(lines: seq<seq<string>>)
    requires |lines| >= 1
    requires forall k :: 0 <= k < |lines| ==> |lines[k]| >= 3 && forall i :: 0 <= i < |lines[k]| ==> IsWord(lines[k][i])
    ensures RemoteLines(RStripChars(JoinWith(UnwordsAll(lines), '\n') + "\n", {'\n'})) == lines
  {
    var text := JoinWith(UnwordsAll(lines), '\n');
    LastLineNotNewline(lines);
    assert RStripChars(text + "\n", {'\n'}) == text by {
      assert (text + "\n")[..|text + "\n"| - 1] == text;
    }
    forall k | 0 <= k < |lines| {
      UnwordsNoNewline(lines[k]);
    }
    SplitJoinLines(UnwordsAll(lines));
    var raw := SplitOn(text, '\n');
    assert raw == UnwordsAll(lines);
    forall k | 0 <= k < |lines| ensures Words(raw[k]) == lines[k] {
      WordsUnwords(lines[k]);
    }
  }

  /** The text of one remote line per token list. */
  function UnwordsAll(lines: seq<seq<string>>): (r: seq<string>)
    ensures |r| == |lines|
    ensures forall k :: 0 <= k < |lines| ==> r[k] == Unwords(lines[k])
  {
    seq(|lines|, k requires 0 <= k < |lines| => Unwords(lines[k]))
  }

  lemma {:induction false} UnwordsNoNewline(ws: seq<string>)
    requires forall i :: 0 <= i < |ws| ==> IsWord(ws[i])
    ensures forall j :: 0 <= j < |Unwords(ws)| ==> Unwords(ws)[j] != '\n'
  {
    if |ws| > 1 {
      UnwordsNoNewline(ws[1..]);
      var u := Unwords(ws);
      assert u == ws[0] + " " + Unwords(ws[1..]);
      forall j | 0 <= j < |u| ensures u[j] != '\n' {
        if j < |ws[0]| {
          assert u[j] == ws[0][j];
        } else if j > |ws[0]| {
          assert u[j] == Unwords(ws[1..])[j - |ws[0]| - 1];
        }
      }
    }
  }

  lemma LastLineNotNewline(lines: seq<seq<string>>)
    requires |lines| >= 1
    requires forall k :: 0 <= k < |lines| ==> |lines[k]| >= 3 && forall i :: 0 <= i < |lines[k]| ==> IsWord(lines[k][i])
    ensures var t := JoinWith(UnwordsAll(lines), '\n'); t != [] && t[|t| - 1] != '\n'
  {
    var parts := UnwordsAll(lines);
    JoinEndsWithLast(parts, '\n');
    var last := lines[|lines| - 1];
    UnwordsNoNewline(last);
    WordsUnwords(last);
    assert Unwords(last) != [];
  }

  lemma {:induction false} JoinEndsWithLast(parts: seq<string>, c: char)
    requires |parts| >= 1
    ensures var t := JoinWith(parts, c); |t| >= |parts[|parts| - 1]| && t[|t| - |parts[|parts| - 1]|..] == parts[|parts| - 1]
  {
    if |parts| > 1 {
      JoinEndsWithLast(parts[1..], c);
    }
  }

  lemma {:induction false} SplitJoinLines(parts: seq<string>)
    requires |parts| >= 1
    requires forall k, j :: 0 <= k < |parts| && 0 <= j < |parts[k]| ==> parts[k][j] != '\n'
    ensures SplitOn(JoinWith(parts, '\n'), '\n') == parts
  {
    SplitJoin(parts, '\n');
  }

  /** Splitting on a separator undoes joining fields that do not contain it. */
  lemma {:induction false} SplitJoin(parts: seq<string>, c: char)
    requires |parts| >= 1
    requires forall k, j :: 0 <= k < |parts| && 0 <= j < |parts[k]| ==> parts[k][j] != c
    ensures SplitOn(JoinWith(parts, c), c) == parts
    decreases |parts|, |parts[0]|
  {
    if |parts| == 1 {
      SplitField(parts[0], [], c);
    } else {
      SplitJoin(parts[1..], c);
      SplitField(parts[0], JoinWith(parts[1..], c), c);
    }
  }

  /** Splitting `field + [c] + rest` (or `field` alone) starts with `field`. */
  lemma {:induction false} SplitField(field: string, rest: string, c: char)
    requires forall j :: 0 <= j < |field| ==> field[j] != c
    ensures rest == [] ==> SplitOn(field, c) == [field]
    ensures SplitOn(field + [c] + rest, c) == [field] + SplitOn(rest, c)
    decreases |field|
  {
    if field != [] {
      SplitField(field[1..], rest, c);
      assert (field + [c] + rest)[1..] == field[1..] + [c] + rest;
      assert [field[0]] + field[1..] == field;
    } else {
      assert ([] + [c] + rest)[1..] == rest;
    }
  }

  // ---------------------------------------------------------------- names and commands

  /** The disposable local branch the pull request is fetched into. */
  function PrBranchName(n: nat): string {
    "pr-" + NatToString(n)
  }

  /** The refspec `pull/<n>/head:pr-<n>` of GitHub's pull-request ref convention. */
  function PullRefspec(n: nat): string {
    "pull/" + NatToString(n) + "/head:" + PrBranchName(n)
  }

  lemma PrBranchNamesDistinct(a: nat, b: nat)
    requires a != b
    ensures PrBranchName(a) != PrBranchName(b)
  {
    if PrBranchName(a) == PrBranchName(b) {
      assert PrBranchName(a)[3..] == NatToString(a);
      assert PrBranchName(b)[3..] == NatToString(b);
      NatToStringInjective(a, b);
    }
  }

  /** The git invocations of the mirror-sync retrieval; `Text` gives the argument string
      passed to `git_command`. */
  datatype GitCmd =
    | Fetch(remote: string)
    | FetchRef(remote: string, refspec: string)
    | ShowRef(branch: string)
    | Checkout(branch: string)
    | CheckoutNew(branch: string, startPoint: string)
    | Merge(upstream: string)
    | SubmoduleUpdate
    | DiffNames(range: string)
  {
    function Text(): string {
      match this
      case Fetch(r) => "fetch " + r
      case FetchRef(r, spec) => "fetch " + r + " " + spec
      case ShowRef(b) => "show-ref --verify --heads --quiet -- refs/heads/" + b
      case Checkout(b) => "checkout " + b
      case CheckoutNew(b, start) => "checkout -b " + b + " " + start
      case Merge(u) => "merge " + u
      case SubmoduleUpdate => "submodule update --init"
      case DiffNames(range) => "diff --name-only --diff-filter=AM " + range
    }
  }

  /** The git commands `git_process_pr` issues once the base remote is known, in order.
      `showRef` is what the branch-existence test received from `git_command`. */
  function BaseAndPrCommands(remote: string, baseRef: string, n: nat, showRef: Option<string>): seq<GitCmd> {
    [Fetch(remote), ShowRef(baseRef)]
    + (if !Truthy(showRef) then [Checkout(baseRef), Merge(remote + "/" + baseRef)]
       else [CheckoutNew(baseRef, remote + "/" + baseRef)])
    + [SubmoduleUpdate,
       FetchRef(remote, PullRefspec(n)),
       Checkout(PrBranchName(n)),
       SubmoduleUpdate,
       DiffNames(baseRef + "..." + PrBranchName(n))]
  }

  /** Since the existence test never sees output, the base branch is always checked out
      and merged, the pull request lands on `pr-<n>`, and `checkout -b` is never issued. */
  lemma NeverCreatesBaseBranch(remote: string, baseRef: string, n: nat, run: CmdOutcome)
    ensures var cmds := BaseAndPrCommands(remote, baseRef, n, GitCommandResult(run, false));
      && cmds[2] == Checkout(baseRef) && cmds[3] == Merge(remote + "/" + baseRef)
      && cmds[5] == FetchRef(remote, "pull/" + NatToString(n) + "/head:pr-" + NatToString(n))
      && cmds[6] == Checkout(PrBranchName(n))
      && forall k :: 0 <= k < |cmds| ==> !cmds[k].CheckoutNew?
  {
  }
}
