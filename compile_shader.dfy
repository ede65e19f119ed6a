/** The shader build driver (resources/shaders/compile_shader.py): checks the
    argument count, gathers the `.vert` and then the `.frag` sources directly
    inside the shader directory, and runs the compiler once per source,
    stopping at the first non-zero exit status.

    The directory listing is an input (the entry names in the order the
    platform lists them), and the compiler is an oracle from a command line
    to an exit status. */
module CompileShader {
  import opened Ordered

  /** The usage line, given the script path that `__file__` names. */
  function Usage(script: string): string {
    "Usage: python " + script + " <SHADERS_DIR> <COMPILER_PATH>"
  }

  /** What `glob` matches for the pattern `*` + ext: a name ending in `ext`
      that is not hidden (a leading `.` is only matched by a pattern that
      starts with one). */
  predicate Matches(name: string, ext: string) {
    EndsWith(name, ext) && !StartsWith(name, ".")
  }

  /** Every character is a `/` (the empty string included). */
  predicate AllSlashes(s: string) {
    forall i :: 0 <= i < |s| ==> s[i] == '/'
  }

  /** `str.rstrip("/")`. */
  function TrimSlashes(s: string): (r: string)
    ensures |r| <= |s| && r == s[..|r|]
    ensures r == [] || r[|r| - 1] != '/'
    ensures forall i :: |r| <= i < |s| ==> s[i] == '/'
  {
    if s != [] && s[|s| - 1] == '/' then TrimSlashes(s[..|s| - 1]) else s
  }

  /** The directory `glob` lists for the pattern made of `dir`, a slash and
      `*` + ext: the head that `os.path.split` gives, which is everything
      up to the last `/`, with its trailing slashes removed unless it is
      made of slashes only. */
  function GlobDir(dir: string): string {
    var head := dir + "/";
    if AllSlashes(head) then head else TrimSlashes(head)
  }

  /** `os.path.join(d, name)`. */
  function PathJoin(d: string, name: string): string {
    if d == [] || d[|d| - 1] == '/' then d + name else d + "/" + name
  }

  /** The path `glob` yields for the entry `name` of the listed directory. */
  function Under(dir: string, name: string): string {
    PathJoin(GlobDir(dir), name)
  }

  /** The listed directory is `dir` with its trailing slashes dropped, and
      the path joins it to the name with exactly one `/`; a directory made
      of slashes only (or empty) keeps them all. */
  lemma {:induction false} UnderJoinsOnce(dir: string, name: string)
    ensures AllSlashes(dir) ==> GlobDir(dir) == dir + "/" && Under(dir, name) == dir + "/" + name
    ensures !AllSlashes(dir) ==>
              var d := GlobDir(dir);
              && d == TrimSlashes(dir)
              && Under(dir, name) == d + "/" + name
              && d != [] && d[|d| - 1] != '/'
              && dir == d + dir[|d|..] && AllSlashes(dir[|d|..])
  {
    var head := dir + "/";
    if AllSlashes(dir) {
      assert AllSlashes(head);
    } else {
      var i :| 0 <= i < |dir| && dir[i] != '/';
      assert head[i] != '/';
      assert head[..|head| - 1] == dir;
      assert TrimSlashes(head) == TrimSlashes(dir);
      var d := TrimSlashes(dir);
      assert |d| > i;
      assert dir == d + dir[|d|..];
    }
  }

  /** A directory ending in a letter is listed as it is. */
  lemma PlainDir(dir: string)
    requires dir != [] && dir[|dir| - 1] != '/'
    ensures GlobDir(dir) == dir
  {
    UnderJoinsOnce(dir, "");
    assert TrimSlashes(dir) == dir;
  }

  /** One or two trailing slashes on a directory ending in a letter are
      dropped. */
  lemma SlashesDropped(dir: string)
    requires dir != [] && dir[|dir| - 1] != '/'
    ensures GlobDir(dir + "/") == dir && GlobDir(dir + "//") == dir
  {
    PlainDir(dir);
    var one := dir + "/";
    var two := dir + "//";
    assert one[|dir| - 1] != '/' && two[|dir| - 1] != '/';
    UnderJoinsOnce(one, "");
    UnderJoinsOnce(two, "");
    assert one[..|one| - 1] == dir && two[..|two| - 1] == one;
    assert TrimSlashes(one) == dir;
  }

  /** A directory given with or without trailing slashes yields the same
      paths, so `shaders/` gives `shaders/a.vert` and not `shaders//a.vert`;
      the root directory `/` gives `//a.vert`, as `os.path.join("//", name)`
      does. */
  lemma TrailingSlashIgnored()
    ensures Under("shaders/", "a.vert") == "shaders/a.vert"
    ensures Under("shaders//", "a.vert") == Under("shaders", "a.vert")
    ensures Under("/", "a.vert") == "//a.vert"
    ensures Under("", "a.vert") == "/a.vert"
  {
    var plain := "shaders";
    assert plain[|plain| - 1] == 's';
    PlainDir(plain);
    SlashesDropped(plain);
    assert "shaders/" == plain + "/" && "shaders//" == plain + "//";
    assert plain + "/" + "a.vert" == "shaders/a.vert";
    UnderJoinsOnce("/", "a.vert");
    UnderJoinsOnce("", "a.vert");
    assert AllSlashes("/");
  }

  /** `glob` over the directory `d` with the pattern `*` + ext: the matching
      direct entries of `d`, in listing order, as paths under it. The
      pattern has no `**`, so `recursive=True` changes nothing. */
  function Glob(d: string, listing: seq<string>, ext: string): (r: seq<string>)
    ensures |r| <= |listing|
  {
    if listing == [] then []
    else (if Matches(listing[0], ext) then [PathJoin(d, listing[0])] else [])
         + Glob(d, listing[1..], ext)
  }

  /** A path is globbed exactly when it names a matching entry. */
  lemma {:induction false} GlobMembers(d: string, listing: seq<string>, ext: string, p: string)
    ensures p in Glob(d, listing, ext) <==>
            exists i :: 0 <= i < |listing| && Matches(listing[i], ext) && p == PathJoin(d, listing[i])
  {
    if listing != [] {
      GlobMembers(d, listing[1..], ext, p);
      var head := if Matches(listing[0], ext) then [PathJoin(d, listing[0])] else [];
      assert Glob(d, listing, ext) == head + Glob(d, listing[1..], ext);
      if exists i :: 0 <= i < |listing| && Matches(listing[i], ext) && p == PathJoin(d, listing[i]) {
        var i :| 0 <= i < |listing| && Matches(listing[i], ext) && p == PathJoin(d, listing[i]);
        if i > 0 {
          assert listing[1..][i - 1] == listing[i];
        }
      }
      if p in Glob(d, listing[1..], ext) {
        var i :| 0 <= i < |listing[1..]| && Matches(listing[1..][i], ext) && p == PathJoin(d, listing[1..][i]);
        assert listing[i + 1] == listing[1..][i];
      }
    }
  }

  /** The source list: every `.vert` match, then every `.frag` match. */
  function Sources(dir: string, listing: seq<string>): seq<string> {
    Glob(GlobDir(dir), listing, ".vert") + Glob(GlobDir(dir), listing, ".frag")
  }

  /** The command for one source. */
  function Command(compiler: string, src: string): seq<string> {
    [compiler, src, "-o", src + ".spv"]
  }

  /** `" ".join(tokens)`. */
  function Join(tokens: seq<string>): string {
    if tokens == [] then ""
    else if |tokens| == 1 then tokens[0]
    else tokens[0] + " " + Join(tokens[1..])
  }

  /** The logged line of a command is its four tokens separated by single
      spaces. */
  lemma CommandLine(compiler: string, src: string)
    ensures Join(Command(compiler, src)) == compiler + " " + src + " -o " + src + ".spv"
  {
    var cmd := Command(compiler, src);
    assert cmd[1..][1..][1..] == [src + ".spv"];
    assert Join(cmd[1..][1..]) == "-o" + " " + (src + ".spv");
    assert Join(cmd[1..]) == src + " " + ("-o" + " " + (src + ".spv"));
  }

  /** What one run of the script does: its exit status, the lines it prints
      to standard output and to standard error, and the compiler commands it
      runs, in order. */
  datatype Outcome = Outcome(status: int, stdout: seq<string>, stderr: seq<string>, invoked: seq<seq<string>>)

  /** The outcome the script promises: a usage error on a wrong argument
      count; otherwise the outcome of compiling the sources. */
  function Expected(argv: seq<string>, listing: seq<string>, run: seq<string> -> int, script: string): Outcome {
    if |argv| != 3 then Outcome(1, [], [Usage(script)], [])
    else Compiled(argv[2], Sources(argv[1], listing), run)
  }

  /** Compiling `srcs` in order: each command is logged, then run; a
      non-zero exit status ends the batch with status 1, and a batch that
      runs out of sources ends with status 0. */
  function Compiled(compiler: string, srcs: seq<string>, run: seq<string> -> int): Outcome {
    if srcs == [] then Outcome(0, [], [], [])
    else
      var cmd := Command(compiler, srcs[0]);
      if run(cmd) != 0 then Outcome(1, [Join(cmd)], [], [cmd])
      else After([Join(cmd)], [cmd], Compiled(compiler, srcs[1..], run))
  }

  /** A run that first logged `printed` and ran `invoked`, then went on as
      `rest`. */
  function After(printed: seq<string>, invoked: seq<seq<string>>, rest: Outcome): Outcome {
    Outcome(rest.status, printed + rest.stdout, rest.stderr, invoked + rest.invoked)
  }

  /** `main(argv)`. */
  method RunMain(argv: seq<string>, listing: seq<string>, run: seq<string> -> int, script: string)
    returns (r: Outcome)
    ensures r == Expected(argv, listing, run, script)
  {
    if |argv| != 3 {
      return Outcome(1, [], [Usage(script)], []);
    }

    var shadersDir := GlobDir(argv[1]);
    var srcs := Glob(shadersDir, listing, ".vert");
    srcs := srcs + Glob(shadersDir, listing, ".frag");

    var compilerPath := argv[2];
    var printed: seq<string> := [];
    var invoked: seq<seq<string>> := [];
    for i := 0 to |srcs|
      invariant Compiled(compilerPath, srcs, run) == After(printed, invoked, Compiled(compilerPath, srcs[i..], run))
    {
      var cmd := [compilerPath, srcs[i], "-o", srcs[i] + ".spv"];
      assert srcs[i..][0] == srcs[i] && srcs[i..][1..] == srcs[i + 1..];
      printed := printed + [Join(cmd)];
      invoked := invoked + [cmd];
      var ret := run(cmd);
      if ret != 0 {
        return Outcome(1, printed, [], invoked);
      }
    }
    return Outcome(0, printed, [], invoked);
  }

  /** The exit status is 0 exactly when every source compiles, and 1
      otherwise. */
  lemma {:induction false} CompiledStatus(compiler: string, srcs: seq<string>, run: seq<string> -> int)
    ensures Compiled(compiler, srcs, run).status in {0, 1}
    ensures Compiled(compiler, srcs, run).status == 0 <==>
            forall src :: src in srcs ==> run(Command(compiler, src)) == 0
  {
    if srcs != [] {
      CompiledStatus(compiler, srcs[1..], run);
      assert forall src :: src in srcs <==> src == srcs[0] || src in srcs[1..];
    }
  }

  /** The commands run are the sources' commands in order, up to and
      including the first that fails; each is logged once, and every one
      but the last run succeeds. */
  lemma {:induction false} StopsAtFirstFailure(compiler: string, srcs: seq<string>, run: seq<string> -> int)
    ensures var o := Compiled(compiler, srcs, run);
            && |o.invoked| <= |srcs| && (srcs != [] ==> |o.invoked| > 0)
            && |o.stdout| == |o.invoked| && o.stderr == []
            && (forall i :: 0 <= i < |o.invoked| ==> o.invoked[i] == Command(compiler, srcs[i]))
            && (forall i :: 0 <= i < |o.invoked| ==> o.stdout[i] == Join(o.invoked[i]))
            && (forall i :: 0 <= i < |o.invoked| - 1 ==> run(o.invoked[i]) == 0)
            && (o.status == 1 <==> |o.invoked| > 0 && run(o.invoked[|o.invoked| - 1]) != 0)
            && (o.status == 0 ==> |o.invoked| == |srcs|)
  {
    CompiledCounts(compiler, srcs, run);
    CompiledCommands(compiler, srcs, run);
    CompiledStops(compiler, srcs, run);
  }

  /** How many commands a batch runs and logs. */
  lemma {:induction false} CompiledCounts(compiler: string, srcs: seq<string>, run: seq<string> -> int)
    ensures var o := Compiled(compiler, srcs, run);
            && |o.invoked| <= |srcs| && (srcs != [] ==> |o.invoked| > 0)
            && |o.stdout| == |o.invoked| && o.stderr == []
            && (o.status == 0 ==> |o.invoked| == |srcs|)
  {
    if srcs != [] {
      CompiledCounts(compiler, srcs[1..], run);
    }
  }

  /** The `i`-th command run is the `i`-th source's, logged as run. */
  lemma {:induction false} CompiledCommands(compiler: string, srcs: seq<string>, run: seq<string> -> int)
    ensures var o := Compiled(compiler, srcs, run);
            && |o.invoked| <= |srcs| && |o.stdout| == |o.invoked|
            && (forall i :: 0 <= i < |o.invoked| ==> o.invoked[i] == Command(compiler, srcs[i]))
            && (forall i :: 0 <= i < |o.invoked| ==> o.stdout[i] == Join(o.invoked[i]))
  {
    if srcs != [] {
      CompiledCommands(compiler, srcs[1..], run);
      var cmd := Command(compiler, srcs[0]);
      if run(cmd) == 0 {
        var rest := Compiled(compiler, srcs[1..], run);
        var o := After([Join(cmd)], [cmd], rest);
        assert Compiled(compiler, srcs, run) == o;
        forall i | 0 < i < |o.invoked|
          ensures o.invoked[i] == Command(compiler, srcs[i]) && o.stdout[i] == Join(o.invoked[i])
        {
          assert o.invoked[i] == rest.invoked[i - 1] && o.stdout[i] == rest.stdout[i - 1];
          assert srcs[1..][i - 1] == srcs[i];
        }
      }
    }
  }

  /** Every command but the last succeeds, and the status is 1 exactly
      when the last one fails. */
  lemma {:induction false} CompiledStops(compiler: string, srcs: seq<string>, run: seq<string> -> int)
    ensures var o := Compiled(compiler, srcs, run);
            && (forall i :: 0 <= i < |o.invoked| - 1 ==> run(o.invoked[i]) == 0)
            && (o.status == 1 <==> |o.invoked| > 0 && run(o.invoked[|o.invoked| - 1]) != 0)
  {
    if srcs != [] {
      CompiledStops(compiler, srcs[1..], run);
      var cmd := Command(compiler, srcs[0]);
      if run(cmd) == 0 {
        var rest := Compiled(compiler, srcs[1..], run);
        var o := After([Join(cmd)], [cmd], rest);
        assert Compiled(compiler, srcs, run) == o;
        assert forall i :: 0 < i < |o.invoked| ==> o.invoked[i] == rest.invoked[i - 1];
        if |rest.invoked| > 0 {
          assert o.invoked[|o.invoked| - 1] == rest.invoked[|rest.invoked| - 1];
        }
      }
    }
  }

  /** Every source is a `.vert` or `.frag` entry directly inside the
      directory, and every `.vert` source comes before every `.frag` one. */
  lemma SourcesAreDirectShaders(dir: string, listing: seq<string>)
    ensures var srcs := Sources(dir, listing);
            forall i :: 0 <= i < |srcs| ==>
              exists j :: 0 <= j < |listing| && srcs[i] == Under(dir, listing[j]) &&
                          (if i < |Glob(GlobDir(dir), listing, ".vert")| then Matches(listing[j], ".vert")
                           else Matches(listing[j], ".frag"))
  {
    var d := GlobDir(dir);
    var verts := Glob(d, listing, ".vert");
    var frags := Glob(d, listing, ".frag");
    var srcs := verts + frags;
    forall i | 0 <= i < |srcs|
      ensures exists j :: 0 <= j < |listing| && srcs[i] == Under(dir, listing[j]) &&
                          (if i < |verts| then Matches(listing[j], ".vert") else Matches(listing[j], ".frag"))
    {
      if i < |verts| {
        GlobMembers(d, listing, ".vert", srcs[i]);
        assert srcs[i] in verts;
      } else {
        GlobMembers(d, listing, ".frag", srcs[i]);
        assert srcs[i] == frags[i - |verts|];
      }
    }
  }

  /** The sample listing used below: two shaders and a text file. */
  const SampleListing := ["a.vert", "notes.txt", "b.frag"]

  /** Of the sample listing, only `a.vert` is a vertex shader. */
  lemma SampleVertices()
    ensures Glob("/s", SampleListing, ".vert") == ["/s/a.vert"]
  {
    assert "a.vert"[..1] == ['a'] && "a.vert"[1..] == ".vert";
    assert "b.frag"[1..] != ".vert";
    assert "notes.txt"[4..] == ['s', '.', 't', 'x', 't'];
    assert PathJoin("/s", "a.vert") == "/s/a.vert";
    assert Glob("/s", ["b.frag"], ".vert") == [];
    assert Glob("/s", ["notes.txt", "b.frag"], ".vert") == [];
  }

  /** Of the sample listing, only `b.frag` is a fragment shader. */
  lemma SampleFragments()
    ensures Glob("/s", SampleListing, ".frag") == ["/s/b.frag"]
  {
    assert "b.frag"[..1] == ['b'] && "b.frag"[1..] == ".frag";
    assert "a.vert"[1..] != ".frag";
    assert "notes.txt"[4..] == ['s', '.', 't', 'x', 't'];
    assert PathJoin("/s", "b.frag") == "/s/b.frag";
    assert Glob("/s", ["b.frag"], ".frag") == ["/s/b.frag"];
    assert Glob("/s", ["notes.txt", "b.frag"], ".frag") == ["/s/b.frag"];
  }

  /** A directory holding `a.vert`, `notes.txt` and `b.frag`, in that
      listing order, yields exactly its two shaders, vertex first. */
  lemma SampleSources()
    ensures Sources("/s", SampleListing) == ["/s/a.vert", "/s/b.frag"]
  {
    var d := "/s";
    assert d[|d| - 1] == 's';
    PlainDir(d);
    SampleVertices();
    SampleFragments();
  }

  /** A trailing slash on the directory argument changes nothing: the
      batch runs the same commands and prints the same lines. */
  lemma {:induction false} TrailingSlashSameBatch(argv: seq<string>, listing: seq<string>, run: seq<string> -> int, script: string)
    requires |argv| == 3 && argv[1] != [] && argv[1][|argv[1]| - 1] != '/'
    ensures Expected(argv[1 := argv[1] + "/"], listing, run, script) == Expected(argv, listing, run, script)
  {
    PlainDir(argv[1]);
    SlashesDropped(argv[1]);
  }

  /** `a.vert` fails to compile: `b.frag` is never attempted or logged, the
      unrelated `notes.txt` is never passed to the compiler, and the status
      is 1. */
  lemma FailingVertexStopsBatch(run: seq<string> -> int)
    requires run(Command("glslc", "/s/a.vert")) != 0
    ensures var o := Expected(["compile_shader.py", "/s", "glslc"], SampleListing, run, "compile_shader.py");
            o.status == 1 && o.invoked == [Command("glslc", "/s/a.vert")]
            && o.stdout == [Join(Command("glslc", "/s/a.vert"))]
  {
    SampleSources();
  }
}
