/**
 * The two Buck files the generator writes under `lib/`: `lib/BUCK`, with a
 * `prebuilt_jar` and two `remote_file` rules per library, and `lib/DEFS`,
 * with the path-addressing helper and one `_GoalsPathVar` per module.
 *
 * The sha1 checksums come from the Maven repository; the network is a
 * parameter `fetch` from URL to the (stripped) response body, `None` when
 * the download fails, which ends the run.
 */
module Buck {
  import opened Wrappers
  import opened Text
  import opened Define
  import opened PathGoal
  import opened Links

  const RepoUrl := "https://repo1.maven.org/maven2/"

  // ---------------------------------------------------------------- header and Python literals

  /** The origin paths of the modules, in registry order. */
  function SourcePaths(sources: seq<Sources>): (r: seq<string>)
    ensures |r| == |sources|
  {
    seq(|sources|, i requires 0 <= i < |sources| => sources[i].sourcePath)
  }

  /** `generated_header()`: names every module's origin path, space separated. */
  function GeneratedHeader(sources: seq<Sources>): string
  {
    "Generated using UP " + Join(SourcePaths(sources), " ")
  }

  /** A Python string literal in single quotes (no escaping is modelled). */
  function Quoted(s: string): string
  {
    "'" + s + "'"
  }

  /** The Python rendering of a list of strings. */
  function PyList(xs: seq<string>): string
  {
    "[" + Join(seq(|xs|, i requires 0 <= i < |xs| => Quoted(xs[i])), ", ") + "]"
  }

  /** The Python rendering of a string dictionary, in insertion order. */
  function PyDict(pairs: seq<(string, string)>): string
  {
    "{" + Join(seq(|pairs|, i requires 0 <= i < |pairs| => Quoted(pairs[i].0) + ": " + Quoted(pairs[i].1)), ", ") + "}"
  }

  // ---------------------------------------------------------------- lib/BUCK

  /** Where an artifact of a library lives in the Maven repository. */
  function ArtifactUrl(m: MavenCoords, kind: JarKind): string
  {
    RepoUrl + m.RepoPath() + JarSuffix(kind)
  }

  /** Where the artifact's checksum is published: the artifact URL plus `.sha1`. */
  function Sha1Url(m: MavenCoords, kind: JarKind): string
  {
    ArtifactUrl(m, kind) + ".sha1"
  }

  datatype RemoteFile = RemoteFile(name: string, out: string, url: string, sha1: string)
  datatype PrebuiltJar = PrebuiltJar(name: string, binaryJar: string, sourceJar: string, deps: seq<string>)

  /** The three rules emitted for one library. */
  datatype LibraryTargets = LibraryTargets(jar: PrebuiltJar, binary: RemoteFile, sources: RemoteFile)

  /** The `remote_file` downloading one artifact of a library. */
  function RemoteFor(l: LibraryJar, kind: JarKind, sha1: string): RemoteFile
  {
    RemoteFile(l.name + "_" + KindName(kind), l.mavenCoords.Filename() + JarSuffix(kind), ArtifactUrl(l.mavenCoords, kind), sha1)
  }

  /** The rules for one library, given the checksums of its binary and sources jars. */
  function TargetsFor(l: LibraryJar, sha1Jar: string, sha1Src: string): LibraryTargets
  {
    LibraryTargets(
      PrebuiltJar(l.name, ":" + l.name + "_jar", ":" + l.name + "_src", l.deps),
      RemoteFor(l, Jar, sha1Jar),
      RemoteFor(l, Src, sha1Src))
  }

  /** The `prebuilt_jar` rule's text; each renderer concatenates its template's pieces. */
  function RenderPrebuilt(p: PrebuiltJar): string
  {
    Join(["prebuilt_jar(\n  name = '", p.name, "',\n  binary_jar = '", p.binaryJar,
    "',\n  source_jar = '", p.sourceJar, "',\n    visibility = public,\n    deps = ", PyList(p.deps), ",\n)\n"], "")
  }

  function RenderRemote(r: RemoteFile): string
  {
    Join(["remote_file(\n  name = '", r.name, "',\n  out = '", r.out, "',\n  url = '", r.url,
    "',\n  sha1 = '", r.sha1, "'\n)\n"], "")
  }

  /** The text appended to `lib/BUCK` for one library. */
  function LibraryBlock(l: LibraryJar, t: LibraryTargets): string
  {
    Join(["\n# Generated from ", l.sourcePath, "/DEER:\n# library_jar('", l.name, "', '", l.mavenCoords.ToString(), "'...\n",
    RenderPrebuilt(t.jar), "\n", RenderRemote(t.binary), "\n", RenderRemote(t.sources)], "")
  }

  /** The checksums of one library's binary and sources jars, fetched in that order; the first failing URL otherwise. */
  function LibrarySha1s(m: MavenCoords, fetch: string -> Option<string>): Result<(string, string), string>
  {
    match fetch(Sha1Url(m, Jar))
    case None => Err(Sha1Url(m, Jar))
    case Some(a) =>
      match fetch(Sha1Url(m, Src))
      case None => Err(Sha1Url(m, Src))
      case Some(b) => Ok((a, b))
  }

  /**
   * The checksums of every library, fetched in registry order; the first
   * failing download stops the run and is reported by its URL.
   */
  function Sha1s(libs: seq<LibraryJar>, fetch: string -> Option<string>): Result<seq<(string, string)>, string>
  {
    if |libs| == 0 then Ok([])
    else
      match Sha1s(libs[..|libs| - 1], fetch)
      case Err(u) => Err(u)
      case Ok(prefix) =>
        match LibrarySha1s(libs[|libs| - 1].mavenCoords, fetch)
        case Err(u) => Err(u)
        case Ok(pair) => Ok(prefix + [pair])
  }

  /** The library blocks, in registry order. */
  function LibraryBlocks(libs: seq<LibraryJar>, sha1s: seq<(string, string)>): string
    requires |sha1s| == |libs|
  {
    if |libs| == 0 then ""
    else
      var n := |libs| - 1;
      LibraryBlocks(libs[..n], sha1s[..n]) + LibraryBlock(libs[n], TargetsFor(libs[n], sha1s[n].0, sha1s[n].1))
  }

  /** The content of `lib/BUCK`, or the URL whose download failed. */
  function LibrariesFile(sources: seq<Sources>, libs: seq<LibraryJar>, fetch: string -> Option<string>): Result<string, string>
  {
    match Sha1s(libs, fetch)
    case Err(u) => Err(u)
    case Ok(h) =>
      assert |h| == |libs| by { Sha1sLength(libs, fetch); }
      Ok(BuckHeader(sources) + LibraryBlocks(libs, h))
  }

  /** The first line of `lib/BUCK`. */
  function BuckHeader(sources: seq<Sources>): string
  {
    "# " + GeneratedHeader(sources) + "\n"
  }

  lemma {:induction false} Sha1sLength(libs: seq<LibraryJar>, fetch: string -> Option<string>)
    requires Sha1s(libs, fetch).Ok?
    ensures |Sha1s(libs, fetch).value| == |libs|
  {
    if |libs| > 0 {
      Sha1sLength(libs[..|libs| - 1], fetch);
    }
  }

  /** Once a download has failed, later libraries change nothing: the run has already stopped. */
  lemma {:induction false} Sha1sStopped(libs: seq<LibraryJar>, fetch: string -> Option<string>, j: nat)
    requires j <= |libs| && Sha1s(libs[..j], fetch).Err?
    ensures Sha1s(libs, fetch) == Sha1s(libs[..j], fetch)
  {
    if j < |libs| {
      var n := |libs| - 1;
      assert libs[..n][..j] == libs[..j];
      Sha1sStopped(libs[..n], fetch, j);
    } else {
      assert libs[..j] == libs;
    }
  }

  /** The two `read_url` calls for one library: binary jar checksum, then sources jar checksum. */
  method FetchLibrarySha1s(m: MavenCoords, fetch: string -> Option<string>) returns (r: Result<(string, string), string>)
    ensures r == LibrarySha1s(m, fetch)
  {
    var urlJar := Sha1Url(m, Jar);
    var sha1Jar := fetch(urlJar);
    if sha1Jar.None? {
      return Err(urlJar);
    }
    var urlSrc := Sha1Url(m, Src);
    var sha1Src := fetch(urlSrc);
    if sha1Src.None? {
      return Err(urlSrc);
    }
    r := Ok((sha1Jar.value, sha1Src.value));
  }

  /** One more library: the run stops at its first failing download or gains its pair of checksums. */
  lemma Sha1sExtend(libs: seq<LibraryJar>, fetch: string -> Option<string>, i: nat)
    requires i < |libs| && Sha1s(libs[..i], fetch).Ok?
    ensures Sha1s(libs[..i + 1], fetch) ==
      match LibrarySha1s(libs[i].mavenCoords, fetch)
      case Err(u) => Err(u)
      case Ok(pair) => Ok(Sha1s(libs[..i], fetch).value + [pair])
  {
    assert libs[..i + 1][..i] == libs[..i];
  }

  /** One more library: its block follows the blocks before it. */
  lemma LibraryBlocksExtend(libs: seq<LibraryJar>, sha1s: seq<(string, string)>, i: nat, pair: (string, string))
    requires i < |libs| && |sha1s| == i
    ensures LibraryBlocks(libs[..i + 1], sha1s + [pair]) ==
      LibraryBlocks(libs[..i], sha1s) + LibraryBlock(libs[i], TargetsFor(libs[i], pair.0, pair.1))
  {
    assert libs[..i + 1][..i] == libs[..i];
    assert (sha1s + [pair])[..i] == sha1s;
  }

  /** `generate_libraries`: the content of `lib/BUCK`, built library by library, or the URL whose download failed. */
  method GenerateLibraries(sources: seq<Sources>, libs: seq<LibraryJar>, fetch: string -> Option<string>)
    returns (r: Result<string, string>)
    ensures r == LibrariesFile(sources, libs, fetch)
  {
    var content := BuckHeader(sources);
    ghost var sha1s: seq<(string, string)> := [];
    for i := 0 to |libs|
      invariant |sha1s| == i
      invariant Sha1s(libs[..i], fetch) == Ok(sha1s)
      invariant content == BuckHeader(sources) + LibraryBlocks(libs[..i], sha1s)
    {
      var l := libs[i];
      var pair := FetchLibrarySha1s(l.mavenCoords, fetch);
      Sha1sExtend(libs, fetch, i);
      if pair.Err? {
        Sha1sStopped(libs, fetch, i + 1);
        return Err(pair.error);
      }
      var block := LibraryBlock(l, TargetsFor(l, pair.value.0, pair.value.1));
      LibraryBlocksExtend(libs, sha1s, i, pair.value);
      AppendAssoc(BuckHeader(sources), LibraryBlocks(libs[..i], sha1s), block);
      sha1s := sha1s + [pair.value];
      content := content + block;
    }
    assert libs[..|libs|] == libs;
    Sha1sLength(libs, fetch);
    r := Ok(content);
  }

  /** The run gets past `lib/BUCK` exactly when every checksum download succeeds. */
  lemma {:induction false} Sha1sSucceed(libs: seq<LibraryJar>, fetch: string -> Option<string>)
    ensures Sha1s(libs, fetch).Ok? <==>
      forall i, k :: 0 <= i < |libs| ==> fetch(Sha1Url(libs[i].mavenCoords, k)).Some?
  {
    if |libs| > 0 {
      var n := |libs| - 1;
      Sha1sSucceed(libs[..n], fetch);
      if forall i, k :: 0 <= i < |libs| ==> fetch(Sha1Url(libs[i].mavenCoords, k)).Some? {
        forall i, k | 0 <= i < n
          ensures fetch(Sha1Url(libs[..n][i].mavenCoords, k)).Some?
        {
          assert libs[..n][i] == libs[i];
        }
      }
      if Sha1s(libs, fetch).Ok? {
        forall i, k | 0 <= i < |libs|
          ensures fetch(Sha1Url(libs[i].mavenCoords, k)).Some?
        {
          if i < n {
            assert libs[..n][i] == libs[i];
          } else {
            assert k == Jar || k == Src;
          }
        }
      }
    }
  }

  /** The `i`-th pair of checksums is what the two `.sha1` URLs of library `i` returned. */
  lemma {:induction false} Sha1sAt(libs: seq<LibraryJar>, fetch: string -> Option<string>, i: nat)
    requires Sha1s(libs, fetch).Ok? && i < |libs|
    ensures |Sha1s(libs, fetch).value| == |libs|
    ensures fetch(Sha1Url(libs[i].mavenCoords, Jar)).Some? && fetch(Sha1Url(libs[i].mavenCoords, Src)).Some?
    ensures Sha1s(libs, fetch).value[i] ==
      (fetch(Sha1Url(libs[i].mavenCoords, Jar)).value, fetch(Sha1Url(libs[i].mavenCoords, Src)).value)
  {
    var n := |libs| - 1;
    Sha1sLength(libs, fetch);
    Sha1sLength(libs[..n], fetch);
    if i < n {
      Sha1sAt(libs[..n], fetch, i);
      assert libs[..n][i] == libs[i];
    }
  }

  /**
   * A failed run reports the first failing download in request order: some
   * library `i` and kind `k` whose `.sha1` URL failed, every download of the
   * libraries before `i` having succeeded, and the binary jar's too when the
   * failure is the sources jar's.
   */
  lemma {:induction false} Sha1sFirstFailure(libs: seq<LibraryJar>, fetch: string -> Option<string>)
    requires Sha1s(libs, fetch).Err?
    ensures exists i, k ::
      0 <= i < |libs| &&
      Sha1s(libs, fetch).error == Sha1Url(libs[i].mavenCoords, k) &&
      fetch(Sha1Url(libs[i].mavenCoords, k)).None? &&
      (k == Src ==> fetch(Sha1Url(libs[i].mavenCoords, Jar)).Some?) &&
      forall j, kj :: 0 <= j < i ==> fetch(Sha1Url(libs[j].mavenCoords, kj)).Some?
  {
    var n := |libs| - 1;
    var m := libs[n].mavenCoords;
    if Sha1s(libs[..n], fetch).Err? {
      Sha1sFirstFailure(libs[..n], fetch);
      var i, k :| 0 <= i < n &&
        Sha1s(libs[..n], fetch).error == Sha1Url(libs[..n][i].mavenCoords, k) &&
        fetch(Sha1Url(libs[..n][i].mavenCoords, k)).None? &&
        (k == Src ==> fetch(Sha1Url(libs[..n][i].mavenCoords, Jar)).Some?) &&
        forall j, kj :: 0 <= j < i ==> fetch(Sha1Url(libs[..n][j].mavenCoords, kj)).Some?;
      assert libs[..n][i] == libs[i];
      forall j, kj | 0 <= j < i
        ensures fetch(Sha1Url(libs[j].mavenCoords, kj)).Some?
      {
        assert libs[..n][j] == libs[j];
      }
    } else {
      Sha1sSucceed(libs[..n], fetch);
      forall j, kj | 0 <= j < n
        ensures fetch(Sha1Url(libs[j].mavenCoords, kj)).Some?
      {
        assert libs[..n][j] == libs[j];
      }
      if fetch(Sha1Url(m, Jar)).None? {
        assert Sha1s(libs, fetch).error == Sha1Url(libs[n].mavenCoords, Jar);
      } else {
        assert Sha1s(libs, fetch).error == Sha1Url(libs[n].mavenCoords, Src);
      }
    }
  }

  /**
   * The rules of one library refer to each other consistently: the
   * `prebuilt_jar` names the two `remote_file` rules, each of which saves
   * `{filename}{suffix}` downloaded from the repository path, and the
   * checksum was fetched from that download URL plus `.sha1`.
   */
  lemma TargetsCrossReference(l: LibraryJar, sha1Jar: string, sha1Src: string)
    ensures var t := TargetsFor(l, sha1Jar, sha1Src);
      t.jar.name == l.name && t.jar.deps == l.deps &&
      t.jar.binaryJar == ":" + t.binary.name && t.jar.sourceJar == ":" + t.sources.name &&
      t.binary.out == l.mavenCoords.Filename() + ".jar" &&
      t.sources.out == l.mavenCoords.Filename() + "-sources.jar" &&
      t.binary.url == RepoUrl + l.mavenCoords.RepoPath() + ".jar" &&
      t.sources.url == RepoUrl + l.mavenCoords.RepoPath() + "-sources.jar" &&
      Sha1Url(l.mavenCoords, Jar) == t.binary.url + ".sha1" &&
      Sha1Url(l.mavenCoords, Src) == t.sources.url + ".sha1" &&
      t.binary.sha1 == sha1Jar && t.sources.sha1 == sha1Src
  {
  }

  /**
   * The library-jar link points at Buck's output of the matching
   * `remote_file` rule in `//lib`: `buck-out/gen/lib/{rule}/{out}`.
   */
  lemma LibJarLinkTargetsRemoteOutput(l: LibraryJar, kind: JarKind, sha1: string)
    ensures LibJarLink(l, kind).target == "buck-out/gen/lib/" + RemoteFor(l, kind, sha1).name + "/" + RemoteFor(l, kind, sha1).out
  {
  }

  // ---------------------------------------------------------------- lib/DEFS

  /** The lines of the helper code emitted at the top of `lib/DEFS`. */
  const HelperLines := [
      "",
      "def _normalize_path_and_goal(path_goal):",
      "    pg = path_goal.split(':')",
      "    if len(pg) == 2:",
      "        return pg[0] + ':' + pg[1]",
      "    else:",
      "        return pg[0] + ':' + pg[0].split('/')[-1]",
      "",
      "def _normalize_path_and_goal_dict(d):",
      "    return {_normalize_path_and_goal(k): _normalize_path_and_goal(v)",
      "            for k, v in d.iteritems()}",
      "",
      "class _GoalsPathVar(object):",
      "    def __init__(self, root, path, alias = None):",
      "        self.root = root",
      "        self.path = path",
      "        self.alias = _normalize_path_and_goal_dict(alias or {})",
      "",
      "    def __floordiv__(self, path_goal):",
      "        suffix = _normalize_path_and_goal(path_goal)",
      "        # try to find library var substitution",
      "        if suffix in self.alias:",
      "            return self.alias[suffix]",
      "",
      "        return str(self) + '/' + suffix",
      "",
      "    def __str__(self):",
      "        return '//' + (self.root + self.path).lstrip('/')",
      ""]

  /** The helper code itself; module PathGoal models what it computes. */
  const HelperPrelude := Join(HelperLines, "\n")

  /** The two constants: the visibility list and the root variable. */
  const DefsConstants := "\npublic = ['PUBLIC']\nroot = _GoalsPathVar('', '')\n"

  /** The lines defining one module's variable. */
  function DefsEntry(s: Sources): string
  {
    Join(["\n# Generated from ", s.sourcePath, "/DEER:\n# sources('", s.name, "'...\n",
          s.name, " = _GoalsPathVar('", s.sourcePath, "', '", s.path, "', alias = ", PyDict(s.alias), ")\n"], "")
  }

  function DefsEntries(sources: seq<Sources>): string
  {
    if |sources| == 0 then ""
    else DefsEntries(sources[..|sources| - 1]) + DefsEntry(sources[|sources| - 1])
  }

  /** The content of `lib/DEFS`. */
  function DefsFile(sources: seq<Sources>): string
  {
    DefsHead(sources) + DefsEntries(sources)
  }

  /** What `lib/DEFS` holds before the module variables: the header line, the helper code and the constants. */
  function DefsHead(sources: seq<Sources>): string
  {
    "# " + GeneratedHeader(sources) + HelperPrelude + DefsConstants
  }

  /** `generate_defs`: the content of `lib/DEFS`. */
  method GenerateDefs(sources: seq<Sources>) returns (content: string)
    ensures content == DefsFile(sources)
  {
    content := AppendDefsEntries(DefsHead(sources), sources);
  }

  /** The loop of `generate_defs`: appends the variable of each module, in registry order. */
  method AppendDefsEntries(head: string, sources: seq<Sources>) returns (content: string)
    ensures content == head + DefsEntries(sources)
  {
    content := head;
    for i := 0 to |sources|
      invariant content == head + DefsEntries(sources[..i])
    {
      assert sources[..i + 1][..i] == sources[..i];
      var entry := DefsEntry(sources[i]);
      assert DefsEntries(sources[..i + 1]) == DefsEntries(sources[..i]) + entry;
      AppendAssoc(head, DefsEntries(sources[..i]), entry);
      content := content + entry;
    }
    assert sources[..|sources|] == sources;
  }

  /** The value Buck binds to a module's variable when it loads `lib/DEFS`. */
  function DefsVariable(s: Sources): GoalsPathVar
  {
    NewGoalsPathVar(s.sourcePath, s.path, s.alias)
  }

  /** The `root` constant is the variable with empty root, path and alias table. */
  lemma RootConstant()
    ensures RootVar() == GoalsPathVar("", "", map[])
  {
    assert NormalizedPairs([]) == [];
  }
}
