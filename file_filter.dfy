/** Which changed files are style-checked: `filter_file_list`, identical in both workers. */
module FileFilter {
  import opened Text

  /** `os.path.sep` on the POSIX host the worker runs on. */
  const Sep: char := '/'

  /** A path is in scope iff its lower-cased form ends with `.cpp` or `.h` and starts with
      one of the whitelisted names. The start test is a raw string prefix, not a match on
      the first directory component. */
  predicate Keep(path: string) {
    InScope(LowerStr(path))
  }

  /** The test on the already lower-cased path. */
  predicate InScope(l: string) {
    (EndsWith(l, ".cpp") || EndsWith(l, ".h"))
    && (StartsWith(l, "examples") || StartsWith(l, "addons") || StartsWith(l, "apps")
        || StartsWith(l, "libs" + [Sep] + "openframeworks"))
  }

  /** The list comprehension: the in-scope paths, in their original order. */
  function FilterFileList(files: seq<string>): seq<string> {
    if files == [] then []
    else (if Keep(files[0]) then [files[0]] else []) + FilterFileList(files[1..])
  }

  /** `a` occurs in `b` in order, possibly with gaps. */
  predicate IsSubsequence<T(==)>(a: seq<T>, b: seq<T>)
    decreases |b|
  {
    a == [] || (b != [] && ((a[0] == b[0] && IsSubsequence(a[1..], b[1..])) || IsSubsequence(a, b[1..])))
  }

  lemma {:induction false} FilterMembership(files: seq<string>, p: string)
    ensures p in FilterFileList(files) <==> p in files && Keep(p)
  {
    if files != [] {
      FilterMembership(files[1..], p);
      assert files == [files[0]] + files[1..];
    }
  }

  lemma {:induction false} FilterSubsequence(files: seq<string>)
    ensures IsSubsequence(FilterFileList(files), files)
  {
    if files != [] {
      FilterSubsequence(files[1..]);
      var r := FilterFileList(files);
      if Keep(files[0]) {
        assert r[0] == files[0] && r[1..] == FilterFileList(files[1..]);
      } else {
        assert r == FilterFileList(files[1..]);
      }
    }
  }

  lemma {:induction false} FilterLength(files: seq<string>)
    ensures |FilterFileList(files)| <= |files|
  {
    if files != [] {
      FilterLength(files[1..]);
    }
  }

  /** A list whose every path is in scope passes through unchanged. */
  lemma {:induction false} FilterKeepsKept(files: seq<string>)
    requires forall k :: 0 <= k < |files| ==> Keep(files[k])
    ensures FilterFileList(files) == files
  {
    if files != [] {
      FilterKeepsKept(files[1..]);
    }
  }

  lemma {:induction false} FilterAllKept(files: seq<string>)
    ensures forall k :: 0 <= k < |FilterFileList(files)| ==> Keep(FilterFileList(files)[k])
  {
    if files != [] {
      FilterAllKept(files[1..]);
    }
  }

  lemma FilterIdempotent(files: seq<string>)
    ensures FilterFileList(FilterFileList(files)) == FilterFileList(files)
  {
    FilterAllKept(files);
    FilterKeepsKept(FilterFileList(files));
  }

  /** The filter works path by path, so it distributes over concatenation; appending one
      file at a time (as the per-file retrieval loop does) builds the same list. */
  lemma {:induction false} FilterAppend(a: seq<string>, b: seq<string>)
    ensures FilterFileList(a + b) == FilterFileList(a) + FilterFileList(b)
  {
    if a != [] {
      assert (a + b)[1..] == a[1..] + b;
      FilterAppend(a[1..], b);
    } else {
      assert a + b == b;
    }
  }

  /** Paths the filter keeps: the extension's case is ignored, and the prefix is a raw
      string prefix, so `appsfoo.cpp` is in scope. */
  lemma KeptExamples()
    ensures Keep("examples/foo.cpp")
    ensures Keep("addons/ofxFoo/Foo.H")
    ensures Keep("appsfoo.cpp")
    ensures Keep("libs/openFrameworks/app/ofAppRunner.h")
  {
    KeptExample();
    KeptAddon();
    KeptRawPrefix();
    KeptCore();
  }

  lemma KeptExample()
    ensures Keep("examples/foo.cpp")
  {
    LowerKeepsLowerCase("examples/foo.cpp");
    assert InScope("examples/foo.cpp");
  }

  /** Upper-case letters anywhere, the extension included, are folded first. */
  lemma KeptAddon()
    ensures Keep("addons/ofxFoo/Foo.H")
  {
    LowerExamples();
    assert InScope("addons/ofxfoo/foo.h");
  }

  /** `apps` matches as a raw prefix of `appsfoo.cpp`. */
  lemma KeptRawPrefix()
    ensures Keep("appsfoo.cpp")
  {
    LowerKeepsLowerCase("appsfoo.cpp");
    assert InScope("appsfoo.cpp");
  }

  lemma KeptCore()
    ensures Keep("libs/openFrameworks/app/ofAppRunner.h")
  {
    LowerExamples();
    var m := "libs/openframeworks/app/ofapprunner.h";
    assert "libs" + [Sep] + "openframeworks" == "libs/openframeworks";
    assert m[..19] == "libs/openframeworks";
    assert InScope(m);
  }

  /** Lower-casing leaves a path without upper-case letters as it is. */
  lemma LowerKeepsLowerCase(s: string)
    requires forall i :: 0 <= i < |s| ==> !('A' <= s[i] <= 'Z')
    ensures LowerStr(s) == s
  {
  }

  /** The lower-case forms of the mixed-case example paths. */
  lemma LowerExamples()
    ensures LowerStr("addons/ofxFoo/Foo.H") == "addons/ofxfoo/foo.h"
    ensures LowerStr("libs/openFrameworks/app/ofAppRunner.h") == "libs/openframeworks/app/ofapprunner.h"
    ensures LowerStr("README.md") == "readme.md"
  {
  }

  /** Paths the filter drops: outside the whitelisted roots, or `.hpp` under one. */
  lemma DroppedExamples()
    ensures !Keep("docs/foo.cpp")
    ensures !Keep("apps/bar.hpp")
    ensures !Keep("README.md")
  {
    LowerExamples();
    LowerKeepsLowerCase("docs/foo.cpp");
    LowerKeepsLowerCase("apps/bar.hpp");
    var d := "docs/foo.cpp";
    NotStartsWith(d, "examples", 0);
    NotStartsWith(d, "addons", 0);
    NotStartsWith(d, "apps", 0);
    NotStartsWith(d, "libs" + [Sep] + "openframeworks", 0);
    assert !InScope(d);
    var h := "apps/bar.hpp";
    NotEndsWith(h, ".cpp", 2);
    NotEndsWith(h, ".h", 1);
    assert !InScope(h);
    var r := "readme.md";
    NotEndsWith(r, ".cpp", 0);
    NotEndsWith(r, ".h", 0);
    assert !InScope(r);
  }

  /** Changed files [examples/foo.cpp, README.md]: only the first is styled. */
  lemma ScenarioFiles()
    ensures FilterFileList(["examples/foo.cpp", "README.md"]) == ["examples/foo.cpp"]
  {
    KeptExamples();
    DroppedExamples();
    var files := ["examples/foo.cpp", "README.md"];
    assert files[1..] == ["README.md"];
    assert files[1..][1..] == [];
  }
}
