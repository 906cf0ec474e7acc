/** Which revision the style tool and its configuration are taken from, and where they go. */
module Styler {
  import opened Text
  import opened Errors
  import opened WorkDirs

  const StyleDir: string := "scripts/dev/style/"

  /** The formatter binary, its configuration and the header template. */
  const StylerFiles: seq<string> :=
    [StyleDir + "ofStyler", StyleDir + "openFrameworks_style.cfg", StyleDir + "core_header.txt"]

  /** `any(x in ys for x in xs)`. */
  predicate AnyIn(xs: seq<string>, ys: seq<string>)
    ensures AnyIn(xs, ys) <==> exists k :: 0 <= k < |xs| && xs[k] in ys
  {
    xs != [] && (xs[0] in ys || AnyIn(xs[1..], ys))
  }

  /** A PR that changes any styler file is checked with its own styler ('pr'); otherwise
      the base branch's styler is current ('base'). The test uses the UNFILTERED list. */
  function StylerSource(changed: seq<string>): (source: string)
    ensures source == "pr" || source == "base"
  {
    if AnyIn(StylerFiles, changed) then "pr" else "base"
  }

  /** `_fetch_styler_files`' choice of commit; an unknown source is an error. */
  function SourceCommit(source: string, baseSha: string, headSha: string): (r: Result<string>)
    ensures r.Ok? <==> source == "base" || source == "pr"
    ensures r.Ok? ==> r.value == if source == "pr" then headSha else baseSha
  {
    if source == "base" then Ok(baseSha)
    else if source == "pr" then Ok(headSha)
    else Err(HandlerError("Unknown source: " + source))
  }

  /** The commit the styler is taken from: the head when the PR touches a styler file,
      the base otherwise; the selection never reaches the error branch. */
  lemma StylerCommitChoice(changed: seq<string>, baseSha: string, headSha: string)
    ensures SourceCommit(StylerSource(changed), baseSha, headSha).Ok?
    ensures SourceCommit(StylerSource(changed), baseSha, headSha).value
      == if exists k :: 0 <= k < |StylerFiles| && StylerFiles[k] in changed then headSha else baseSha
  {
  }

  /** `os.path.basename`: everything after the last `/`. */
  function Basename(path: string): string {
    if path == [] || path[|path| - 1] == '/' then []
    else Basename(path[..|path| - 1]) + [path[|path| - 1]]
  }

  /** The basename is the longest suffix of the path without a `/`. */
  lemma {:induction false} BasenameIsLastComponent(path: string)
    ensures var b := Basename(path);
      && |b| <= |path| && b == path[|path| - |b|..]
      && (forall i :: 0 <= i < |b| ==> b[i] != '/')
      && (|b| == |path| || path[|path| - |b| - 1] == '/')
  {
    if path != [] && path[|path| - 1] != '/' {
      var init := path[..|path| - 1];
      BasenameIsLastComponent(init);
      var b := Basename(path);
      assert b == Basename(init) + [path[|path| - 1]];
      assert init[|init| - |Basename(init)|..] + [path[|path| - 1]] == path[|path| - |b|..];
    }
  }

  /** The basename of a file in a directory is the file's own name. */
  lemma {:induction false} BasenameOfJoin(dir: string, name: string)
    requires forall i :: 0 <= i < |name| ==> name[i] != '/'
    requires dir != [] && dir[|dir| - 1] == '/'
    ensures Basename(dir + name) == name
    decreases |name|
  {
    var p := dir + name;
    if name == [] {
      assert p == dir;
    } else {
      var init := name[..|name| - 1];
      assert p[..|p| - 1] == dir + init;
      BasenameOfJoin(dir, init);
      assert name == init + [name[|name| - 1]];
    }
  }

  function FetchedFile(path: string, commit: string): StylerFile {
    StylerFile(Basename(path), commit, EndsWith(path, "ofStyler"))
  }

  /** The styler directory after fetching: one file per styler path, named by its
      basename, read at `commit`; only the path ending in `ofStyler` is made executable. */
  function FetchedStyler(commit: string): seq<StylerFile> {
    FetchedFiles(StylerFiles, commit)
  }

  /** One styler file per path, in order. */
  function FetchedFiles(paths: seq<string>, commit: string): (fs: seq<StylerFile>)
    ensures |fs| == |paths|
    ensures forall k :: 0 <= k < |paths| ==> fs[k] == FetchedFile(paths[k], commit)
  {
    seq(|paths|, k requires 0 <= k < |paths| => FetchedFile(paths[k], commit))
  }

  lemma FetchedFormatter(commit: string)
    ensures FetchedFile(StyleDir + "ofStyler", commit) == StylerFile("ofStyler", commit, true)
  {
    BasenameOfJoin(StyleDir, "ofStyler");
    var p := StyleDir + "ofStyler";
    assert p[|p| - 8..] == "ofStyler";
  }

  /** A styler file other than the formatter keeps its name and is not made executable. */
  lemma FetchedSupportFile(name: string, commit: string)
    requires name != [] && name[|name| - 1] != 'r'
    requires forall i :: 0 <= i < |name| ==> name[i] != '/'
    ensures FetchedFile(StyleDir + name, commit) == StylerFile(name, commit, false)
  {
    BasenameOfJoin(StyleDir, name);
    NotEndsWith(StyleDir + name, "ofStyler", 0);
  }

  /** The styler directory after fetching: the three files under their basenames, read at
      `commit`, only the formatter executable. */
  lemma FetchedStylerContents(commit: string)
    ensures FetchedStyler(commit) == [
      StylerFile("ofStyler", commit, true),
      StylerFile("openFrameworks_style.cfg", commit, false),
      StylerFile("core_header.txt", commit, false)]
  {
    FetchedFormatter(commit);
    FetchedSupportFile("openFrameworks_style.cfg", commit);
    FetchedSupportFile("core_header.txt", commit);
  }
}
