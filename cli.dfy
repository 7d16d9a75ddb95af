// The command line's pure helpers: test-file recognition, greeting, and test-folder discovery.
module Cli {
  import opened Wrappers
  import opened Strings
  import opened Configuration

  predicate IsTestConfiguration(file: string)
  {
    EndsWith(file, "configuration.yaml")
  }

  predicate IsTestFile(file: string)
  {
    EndsWith(file, ".yaml") && !IsTestConfiguration(file)
  }

  /** A test configuration is itself a YAML file, yet never a test file. */
  lemma ConfigurationIsNotTest(file: string)
    requires IsTestConfiguration(file)
    ensures EndsWith(file, ".yaml") && !IsTestFile(file)
  {
    var n := |file|;
    assert file[n - 5..] == file[n - 18..][13..];
  }

  /**
   * The configuration test goes by suffix, not by file name: any name ending in
   * `configuration.yaml` is skipped, while other YAML files are tests whatever else they hold.
   */
  lemma TestFileBySuffix()
    ensures !IsTestFile("reconfiguration.yaml") && !IsTestFile("tests/configuration.yaml")
    ensures IsTestFile("configuration-tests.yaml") && IsTestFile("greeting.yaml")
    ensures !IsTestFile("greeting.yml")
  {
    assert "reconfiguration.yaml"[2..] == "configuration.yaml";
    assert "tests/configuration.yaml"[6..] == "configuration.yaml";
    assert "configuration-tests.yaml"[19..] == ".yaml";
    assert "configuration-tests.yaml"[6..] != "configuration.yaml";
    assert "greeting.yaml"[8..] == ".yaml";
  }

  function InitialGreeting(c: ConfigurationModel): (r: string)
    ensures c.begin.Some? ==> r == c.begin.value.greeting
    ensures c.begin.None? ==> r == "Hello"
  {
    match c.begin
    case Some(b) => b.greeting
    case None => "Hello"
  }

  predicate IsUserBeginning(c: ConfigurationModel)
  {
    c.begin.Some? && c.begin.value.withWhom == "user"
  }

  /**
   * Without a `begin` block the chatbot speaks first and greets with `Hello`; the user begins only
   * under a `begin` block naming them, whose greeting is then the one configured.
   */
  lemma BeginningAndGreeting(c: ConfigurationModel)
    ensures c.begin.None? ==> !IsUserBeginning(c) && InitialGreeting(c) == "Hello"
    ensures IsUserBeginning(c) ==> c.begin.Some? && InitialGreeting(c) == c.begin.value.greeting
  {
  }

  /** `os.path.basename`: the text after the last `/`. */
  function Basename(path: string): (r: string)
    ensures EndsWith(path, r)
    ensures forall i :: 0 <= i < |r| ==> r[i] != '/'
    ensures |r| < |path| ==> path[|path| - |r| - 1] == '/'
  {
    if path == [] || path[|path| - 1] == '/' then []
    else Basename(path[..|path| - 1]) + [path[|path| - 1]]
  }

  /** `os.path.join` of two components. */
  function JoinPath(a: string, b: string): (r: string)
    ensures StartsWith(b, "/") ==> r == b
    ensures !StartsWith(b, "/") ==> EndsWith(r, b) && StartsWith(r, a)
  {
    if StartsWith(b, "/") then b
    else if a == [] || EndsWith(a, "/") then a + b
    else a + "/" + b
  }

  predicate InTestFolder(root: string)
  {
    Basename(root) == "tests" || Basename(root) == "test"
  }

  /** One `os.walk` step: a folder and the names of the files directly inside it. */
  datatype WalkEntry = WalkEntry(root: string, files: seq<string>)

  function FolderTests(root: string, files: seq<string>): seq<string>
  {
    if files == [] then []
    else
      FolderTests(root, files[..|files| - 1])
      + (if InTestFolder(root) && IsTestFile(files[|files| - 1]) then [JoinPath(root, files[|files| - 1])] else [])
  }

  /** The tests discovered in a folder walk, in walk order. */
  function DiscoveredTests(walk: seq<WalkEntry>): seq<string>
  {
    if walk == [] then []
    else DiscoveredTests(walk[..|walk| - 1]) + FolderTests(walk[|walk| - 1].root, walk[|walk| - 1].files)
  }

  /** The folder filter of `test`. */
  method CollectTests(walk: seq<WalkEntry>) returns (tests: seq<string>)
    ensures tests == DiscoveredTests(walk)
  {
    tests := [];
    var i := 0;
    while i < |walk|
      invariant 0 <= i <= |walk|
      invariant tests == DiscoveredTests(walk[..i])
    {
      assert walk[..i + 1][..i] == walk[..i];
      var found := CollectFolderTests(walk[i].root, walk[i].files);
      tests := tests + found;
      i := i + 1;
    }
    assert walk[..i] == walk;
  }

  /** The inner loop over one folder's files. */
  method CollectFolderTests(root: string, files: seq<string>) returns (tests: seq<string>)
    ensures tests == FolderTests(root, files)
  {
    tests := [];
    var keep := InTestFolder(root);
    var j := 0;
    while j < |files|
      invariant 0 <= j <= |files|
      invariant tests == FolderTests(root, files[..j])
    {
      assert files[..j + 1][..j] == files[..j];
      if keep && IsTestFile(files[j]) {
        tests := tests + [JoinPath(root, files[j])];
      }
      j := j + 1;
    }
    assert files[..j] == files;
  }

  /** Every file kept is a test file directly inside a `tests` or `test` folder, and conversely. */
  lemma {:induction false} FolderTestsExactly(root: string, files: seq<string>, t: string)
    ensures t in FolderTests(root, files) <==>
              InTestFolder(root) && exists f :: f in files && IsTestFile(f) && t == JoinPath(root, f)
  {
    if files != [] {
      var front := files[..|files| - 1];
      FolderTestsExactly(root, front, t);
      assert files == front + [files[|files| - 1]];
      if InTestFolder(root) && (exists f :: f in files && IsTestFile(f) && t == JoinPath(root, f)) {
        var f :| f in files && IsTestFile(f) && t == JoinPath(root, f);
        if f != files[|files| - 1] {
          assert f in front;
        }
      }
    }
  }

  lemma {:induction false} DiscoveredTestsExactly(walk: seq<WalkEntry>, t: string)
    ensures t in DiscoveredTests(walk) <==>
              exists e, f :: e in walk && InTestFolder(e.root) && f in e.files && IsTestFile(f) && t == JoinPath(e.root, f)
  {
    if walk != [] {
      var front := walk[..|walk| - 1];
      var last := walk[|walk| - 1];
      DiscoveredTestsExactly(front, t);
      FolderTestsExactly(last.root, last.files, t);
      assert walk == front + [last];
      if exists e, f :: e in walk && InTestFolder(e.root) && f in e.files && IsTestFile(f) && t == JoinPath(e.root, f) {
        var e, f :| e in walk && InTestFolder(e.root) && f in e.files && IsTestFile(f) && t == JoinPath(e.root, f);
        if e != last {
          assert e in front;
        }
      }
    }
  }
}
