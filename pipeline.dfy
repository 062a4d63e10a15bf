/**
 * `generate`: the generators run in order over one registry snapshot, and
 * the properties that tie their outputs together: the IDE descriptors and
 * the link farm name the same jars, the `.link/src` references appear
 * exactly when that sub-tree has links, the three sub-trees never share a
 * mount, a run stops at the first failing download or the first link whose
 * mount already exists, and, for a module whose `path` is empty, its `lib/DEFS` variable
 * names the Buck target whose outputs the farm links.
 */
module Pipeline {
  import opened Wrappers
  import opened Text
  import opened Define
  import opened PathGoal
  import opened Links
  import opened Buck
  import opened Ide

  /** The link farm after a run: generated sources, then library jars, then output jars. */
  function LinkFarm(sources: seq<Sources>, libs: seq<LibraryJar>): seq<Link>
  {
    TreeLinks(GeneratedSrcLink, GeneratedSrcsOf, sources) + LibJarLinks(libs) + TreeLinks(OutputJarLink, OutputJarsOf, sources)
  }

  /** The IDE project `generate_project` writes: the IDEA libraries, the IDEA module and the Eclipse classpath. */
  datatype ProjectFiles = ProjectFiles(ideaLibraries: seq<TextFile>, iml: TextFile, classpath: string)

  /** The project files for a registry snapshot; the module file is named after the project. */
  function ProjectFor(sources: seq<Sources>, libs: seq<LibraryJar>, projectName: string): ProjectFiles
  {
    ProjectFiles(IdeaLibraryFiles(libs), TextFile(projectName + ".iml", ImlFile(sources, libs)), ClasspathFile(sources, libs))
  }

  /** Everything a completed run produces. */
  datatype Outputs = Outputs(defs: string, buck: string, farm: seq<Link>, project: ProjectFiles)

  /**
   * A run either completes, stops at the first checksum download that fails,
   * or stops at the first link whose mount already exists. `lib/DEFS` is
   * written before any download, so it exists in every case; a link clash
   * leaves `lib/BUCK` written too, with the links created before it.
   */
  datatype RunResult =
    | Completed(outputs: Outputs)
    | Aborted(failedUrl: string, defs: string)
    | LinkClash(mount: string, defs: string, buck: string, created: seq<Link>)

  /** What `generate` produces from a registry snapshot. */
  function Run(sources: seq<Sources>, libs: seq<LibraryJar>, projectName: string, fetch: string -> Option<string>): RunResult
  {
    match LibrariesFile(sources, libs, fetch)
    case Err(u) => Aborted(u, DefsFile(sources))
    case Ok(buck) =>
      var farm := LinkFarm(sources, libs);
      match FirstClash(farm)
      case Some(k) => LinkClash(farm[k].mount, DefsFile(sources), buck, farm[..k])
      case None => Completed(Outputs(DefsFile(sources), buck, farm, ProjectFor(sources, libs, projectName)))
  }

  /**
   * `prepare_link_folder` and the three `symlink_*` steps: the links the
   * emptied farm receives, generated sources, then library jars, then output
   * jars, in the order `symlink_to` is called.
   */
  method PopulateLinkFarm(sources: seq<Sources>, libs: seq<LibraryJar>) returns (farm: seq<Link>)
    ensures farm == LinkFarm(sources, libs)
  {
    farm := [];
    var srcLinks := SymlinkGeneratedSrcs(sources);
    farm := farm + srcLinks;
    var jarLinks := SymlinkLibJars(libs);
    farm := farm + jarLinks;
    var outLinks := SymlinkOutputJars(sources);
    farm := farm + outLinks;
    assert [] + srcLinks == srcLinks;
  }

  /** `generate_project`: the IDEA libraries, then the IDEA module, then the Eclipse classpath. */
  method GenerateProject(sources: seq<Sources>, libs: seq<LibraryJar>, projectName: string) returns (project: ProjectFiles)
    ensures project == ProjectFor(sources, libs, projectName)
  {
    var ideaLibraries := GenerateIdeaLibraries(libs);
    var iml := GenerateIdeaModule(sources, libs);
    var classpath := GenerateEclipseClasspath(sources, libs);
    project := ProjectFiles(ideaLibraries, TextFile(projectName + ".iml", iml), classpath);
  }

  /** `generate(root_dir)`: the generators in the order the source calls them, over the registry's declarations. */
  method Generate(reg: Registry, projectName: string, fetch: string -> Option<string>) returns (r: RunResult)
    ensures r == Run(reg.sources, reg.libraries, projectName, fetch)
  {
    var sources, libs := reg.sources, reg.libraries;
    var defs := GenerateDefs(sources);
    var buck := GenerateLibraries(sources, libs, fetch);
    if buck.Err? {
      return Aborted(buck.error, defs);
    }
    var planned := PopulateLinkFarm(sources, libs);
    var farm, clash := CreateLinks(planned);
    if clash.Some? {
      return LinkClash(planned[clash.value].mount, defs, buck.value, farm);
    }
    var project := GenerateProject(sources, libs, projectName);
    r := Completed(Outputs(defs, buck.value, farm, project));
  }

  /**
   * A run aborts exactly when some checksum download fails, reporting the
   * URL of the first that does, in the order `generate_libraries` requests
   * them: every download for earlier libraries succeeded, and the jar's
   * before a failing sources checksum. `lib/DEFS` is the same in every case.
   */
  lemma RunAbortsIffDownloadFails(sources: seq<Sources>, libs: seq<LibraryJar>, projectName: string, fetch: string -> Option<string>)
    ensures var r := Run(sources, libs, projectName, fetch);
      (r.Aborted? <==> exists i, k :: 0 <= i < |libs| && fetch(Sha1Url(libs[i].mavenCoords, k)).None?) &&
      (r.Aborted? ==>
         r.defs == DefsFile(sources) &&
         exists i, k ::
           0 <= i < |libs| && r.failedUrl == Sha1Url(libs[i].mavenCoords, k) &&
           fetch(r.failedUrl).None? &&
           (k == Src ==> fetch(Sha1Url(libs[i].mavenCoords, Jar)).Some?) &&
           forall j, kj :: 0 <= j < i ==> fetch(Sha1Url(libs[j].mavenCoords, kj)).Some?) &&
      (r.LinkClash? ==> r.defs == DefsFile(sources)) &&
      (r.Completed? ==> r.outputs.defs == DefsFile(sources))
  {
    Sha1sSucceed(libs, fetch);
    if Sha1s(libs, fetch).Err? {
      Sha1sFirstFailure(libs, fetch);
    }
  }

  /**
   * Once every download succeeds, a run stops exactly when some link of the
   * farm lands on an earlier link's mount or on a directory made for it.
   */
  lemma RunStopsIffMountOccupied(sources: seq<Sources>, libs: seq<LibraryJar>, projectName: string, fetch: string -> Option<string>)
    ensures var farm := LinkFarm(sources, libs);
      Run(sources, libs, projectName, fetch).LinkClash? <==>
        (forall i, k :: 0 <= i < |libs| ==> fetch(Sha1Url(libs[i].mavenCoords, k)).Some?) && !Creatable(farm, |farm|)
  {
    Sha1sSucceed(libs, fetch);
    FirstClashSpec(LinkFarm(sources, libs));
    RunOutcome(sources, libs, projectName, fetch);
  }

  /**
   * A run that stops at a link stops at the first link whose mount already
   * exists; the links before it, none of which meets an earlier one, are
   * created, and `lib/BUCK` is written.
   */
  lemma RunStopsAtFirstOccupied(sources: seq<Sources>, libs: seq<LibraryJar>, projectName: string, fetch: string -> Option<string>)
    requires Run(sources, libs, projectName, fetch).LinkClash?
    ensures var r := Run(sources, libs, projectName, fetch);
      var farm := LinkFarm(sources, libs);
      LibrariesFile(sources, libs, fetch) == Ok(r.buck) &&
      exists k :: 0 <= k < |farm| && r.mount == farm[k].mount && r.created == farm[..k] &&
        Creatable(farm, k) && exists i :: 0 <= i < k && r.mount in Occupied(farm[i].mount)
  {
    FirstClashSpec(LinkFarm(sources, libs));
    RunOutcome(sources, libs, projectName, fetch);
  }

  /** Helper of the lemmas above: the three outcomes of a run, by the download result and the first clash. */
  lemma RunOutcome(sources: seq<Sources>, libs: seq<LibraryJar>, projectName: string, fetch: string -> Option<string>)
    ensures var r := Run(sources, libs, projectName, fetch);
      var farm := LinkFarm(sources, libs);
      (r.LinkClash? <==> Sha1s(libs, fetch).Ok? && FirstClash(farm).Some?) &&
      (r.LinkClash? ==>
         LibrariesFile(sources, libs, fetch) == Ok(r.buck) &&
         r.mount == farm[FirstClash(farm).value].mount && r.created == farm[..FirstClash(farm).value])
  {
  }

  /**
   * Two modules with the same `path` but different origins that both list
   * one `link_output_jars` entry stop the run once the downloads succeed:
   * the second `symlink_to` finds the first one's mount.
   */
  lemma SharedOutputJarStopsRun(sources: seq<Sources>, libs: seq<LibraryJar>, projectName: string, fetch: string -> Option<string>,
                                a: nat, b: nat, local: string)
    requires a < |sources| && b < |sources|
    requires sources[a].path == sources[b].path && sources[a].sourcePath != sources[b].sourcePath
    requires local in sources[a].linkOutputJars && local in sources[b].linkOutputJars
    requires forall i, k :: 0 <= i < |libs| ==> fetch(Sha1Url(libs[i].mavenCoords, k)).Some?
    ensures Run(sources, libs, projectName, fetch).LinkClash?
  {
    SharedOutputJarRepeatsMount(sources, a, b, local);
    OutputMountRepeatInFarm(sources, libs);
    RunStopsIffMountOccupied(sources, libs, projectName, fetch);
  }

  /** Helper of SharedOutputJarStopsRun: two output-jar links with one mount are two farm links with one mount. */
  lemma OutputMountRepeatInFarm(sources: seq<Sources>, libs: seq<LibraryJar>)
    requires SharesMount(TreeLinks(OutputJarLink, OutputJarsOf, sources))
    ensures var farm := LinkFarm(sources, libs); !Creatable(farm, |farm|)
  {
    RepeatInLastPart(TreeLinks(GeneratedSrcLink, GeneratedSrcsOf, sources), LibJarLinks(libs),
                     TreeLinks(OutputJarLink, OutputJarsOf, sources));
  }

  /** Helper of OutputMountRepeatInFarm: a repeated mount in the last part cannot be created in the whole. */
  lemma RepeatInLastPart(a: seq<Link>, b: seq<Link>, c: seq<Link>)
    requires SharesMount(c)
    ensures !Creatable(a + b + c, |a + b + c|)
  {
    var x, y :| 0 <= x < y < |c| && c[x].mount == c[y].mount;
    var base := |a| + |b|;
    assert (a + b + c)[base + x] == c[x] && (a + b + c)[base + y] == c[y];
  }

  /**
   * A module whose generated-source path lies below the path of a later
   * module's generated-source entry stops the run once the downloads
   * succeed: `mkdir` made the later mount a directory for the earlier link
   * (`x/y:g` in one module, then `x:h` in the next).
   */
  lemma NestedGeneratedSrcStopsRun(sources: seq<Sources>, libs: seq<LibraryJar>, projectName: string, fetch: string -> Option<string>,
                                   a: nat, la: nat, b: nat, lb: nat)
    requires a < b < |sources| && la < |sources[a].linkGeneratedSrcs| && lb < |sources[b].linkGeneratedSrcs|
    requires var p := ModulePathAndGoal(sources[a], sources[a].linkGeneratedSrcs[la]).0;
      var q := ModulePathAndGoal(sources[b], sources[b].linkGeneratedSrcs[lb]).0;
      0 < |q| < |p| && p[..|q|] == q && p[|q|] == '/'
    requires forall i, k :: 0 <= i < |libs| ==> fetch(Sha1Url(libs[i].mavenCoords, k)).Some?
    ensures Run(sources, libs, projectName, fetch).LinkClash?
  {
    var outer := GeneratedSrcLink(sources[a], sources[a].linkGeneratedSrcs[la]);
    var inner := GeneratedSrcLink(sources[b], sources[b].linkGeneratedSrcs[lb]);
    var p := ModulePathAndGoal(sources[a], sources[a].linkGeneratedSrcs[la]).0;
    var q := ModulePathAndGoal(sources[b], sources[b].linkGeneratedSrcs[lb]).0;
    assert outer.mount == LinkSrc + "/" + p && inner.mount == LinkSrc + "/" + q;
    AncestorUnder(LinkSrc, p, q);
    TreeLinksOrdered(GeneratedSrcLink, GeneratedSrcsOf, sources, a, la, b, lb);
    NestedInFirstPart(TreeLinks(GeneratedSrcLink, GeneratedSrcsOf, sources), LibJarLinks(libs),
                      TreeLinks(OutputJarLink, OutputJarsOf, sources), outer, inner);
    RunStopsIffMountOccupied(sources, libs, projectName, fetch);
  }

  /** Helper of NestedGeneratedSrcStopsRun: a later link on an earlier link's directory cannot be created in the whole. */
  lemma NestedInFirstPart(a: seq<Link>, b: seq<Link>, c: seq<Link>, u: Link, v: Link)
    requires Before(a, u, v) && v.mount in Ancestors(u.mount)
    ensures !Creatable(a + b + c, |a + b + c|)
  {
    var x, y :| 0 <= x < y < |a| && a[x] == u && a[y] == v;
    assert (a + b + c)[x] == u && (a + b + c)[y] == v;
  }

  // ---------------------------------------------------------------- the three sub-trees

  /** Every generated-source mount lies under `.link/src/`. */
  lemma GeneratedSrcMountsUnderRoot(sources: seq<Sources>, k: nat)
    requires k < |TreeLinks(GeneratedSrcLink, GeneratedSrcsOf, sources)|
    ensures StartsWith(TreeLinks(GeneratedSrcLink, GeneratedSrcsOf, sources)[k].mount, LinkSrc + "/")
  {
    TreeLinksSound(GeneratedSrcLink, GeneratedSrcsOf, sources, k);
    var i, j :| 0 <= i < |sources| && 0 <= j < |GeneratedSrcsOf(sources[i])| &&
      TreeLinks(GeneratedSrcLink, GeneratedSrcsOf, sources)[k] == GeneratedSrcLink(sources[i], GeneratedSrcsOf(sources[i])[j]);
    GeneratedSrcTargetEndsWithPath(sources[i], GeneratedSrcsOf(sources[i])[j]);
  }

  /** Every output-jar mount lies under `.link/jar/`. */
  lemma OutputJarMountsUnderRoot(sources: seq<Sources>, k: nat)
    requires k < |TreeLinks(OutputJarLink, OutputJarsOf, sources)|
    ensures StartsWith(TreeLinks(OutputJarLink, OutputJarsOf, sources)[k].mount, LinkJar + "/")
  {
    TreeLinksSound(OutputJarLink, OutputJarsOf, sources, k);
    var i, j :| 0 <= i < |sources| && 0 <= j < |OutputJarsOf(sources[i])| &&
      TreeLinks(OutputJarLink, OutputJarsOf, sources)[k] == OutputJarLink(sources[i], OutputJarsOf(sources[i])[j]);
    OutputJarMirrorsTarget(sources[i], OutputJarsOf(sources[i])[j]);
  }

  /** Every library-jar mount lies under `.link/lib/`. */
  lemma LibJarMountsUnderRoot(libs: seq<LibraryJar>, k: nat)
    requires k < |LibJarLinks(libs)|
    ensures StartsWith(LibJarLinks(libs)[k].mount, LinkLib + "/")
  {
    assert |libs| > 0;
    LibJarLinksAt(libs, 0);
    LibJarLinksAt(libs, k / 2);
    if k % 2 == 0 {
      assert k == 2 * (k / 2);
      LibJarLinkUnderRoot(libs[k / 2], Jar);
    } else {
      assert k == 2 * (k / 2) + 1;
      LibJarLinkUnderRoot(libs[k / 2], Src);
    }
  }

  /** One library-jar mount lies under `.link/lib/`. */
  lemma LibJarLinkUnderRoot(l: LibraryJar, kind: JarKind)
    ensures StartsWith(LibJarLink(l, kind).mount, LinkLib + "/")
  {
    var m := LibJarLink(l, kind).mount;
    assert m == (LinkLib + "/") + (l.name + JarSuffix(kind));
  }

  /** Proof helper: position `x` of `a + b + c` is in `a`, `b` or `c` according to the lengths. */
  lemma ConcatThreeAt<T>(a: seq<T>, b: seq<T>, c: seq<T>, x: nat)
    requires x < |a| + |b| + |c|
    ensures |a + b + c| == |a| + |b| + |c|
    ensures x < |a| ==> (a + b + c)[x] == a[x]
    ensures |a| <= x < |a| + |b| ==> (a + b + c)[x] == b[x - |a|]
    ensures |a| + |b| <= x ==> (a + b + c)[x] == c[x - |a| - |b|]
  {
  }

  /** Each farm mount lies under the root of the sub-tree its position falls in. */
  lemma FarmMountUnderRoot(sources: seq<Sources>, libs: seq<LibraryJar>, x: nat)
    requires x < |LinkFarm(sources, libs)|
    ensures var gs := |TreeLinks(GeneratedSrcLink, GeneratedSrcsOf, sources)|;
      var gl := gs + |LibJarLinks(libs)|;
      var m := LinkFarm(sources, libs)[x].mount;
      (x < gs ==> StartsWith(m, LinkSrc + "/")) &&
      (gs <= x < gl ==> StartsWith(m, LinkLib + "/")) &&
      (gl <= x ==> StartsWith(m, LinkJar + "/"))
  {
    var src := TreeLinks(GeneratedSrcLink, GeneratedSrcsOf, sources);
    var lib := LibJarLinks(libs);
    var out := TreeLinks(OutputJarLink, OutputJarsOf, sources);
    ConcatThreeAt(src, lib, out, x);
    if x < |src| {
      GeneratedSrcMountsUnderRoot(sources, x);
    } else if x < |src| + |lib| {
      LibJarMountsUnderRoot(libs, x - |src|);
    } else {
      OutputJarMountsUnderRoot(sources, x - |src| - |lib|);
    }
  }

  /**
   * The three sub-trees never share a mount: the farm's links at positions
   * from different sub-trees have different mounts.
   */
  lemma FarmSubtreesDisjoint(sources: seq<Sources>, libs: seq<LibraryJar>, x: nat, y: nat)
    requires var gs := |TreeLinks(GeneratedSrcLink, GeneratedSrcsOf, sources)|;
      var gl := gs + |LibJarLinks(libs)|;
      x < y < |LinkFarm(sources, libs)| && (x < gs <= y || x < gl <= y)
    ensures LinkFarm(sources, libs)[x].mount != LinkFarm(sources, libs)[y].mount
  {
    FarmMountUnderRoot(sources, libs, x);
    FarmMountUnderRoot(sources, libs, y);
    RootTag(LinkFarm(sources, libs)[x].mount);
    RootTag(LinkFarm(sources, libs)[y].mount);
  }

  /** The sub-tree roots `.link/src/`, `.link/lib/` and `.link/jar/` first differ at position 6. */
  lemma RootTag(m: string)
    ensures StartsWith(m, LinkSrc + "/") ==> m[6] == 's'
    ensures StartsWith(m, LinkLib + "/") ==> m[6] == 'l'
    ensures StartsWith(m, LinkJar + "/") ==> m[6] == 'j'
  {
    if StartsWith(m, LinkSrc + "/") {
      assert m[6] == (LinkSrc + "/")[6];
    }
    if StartsWith(m, LinkLib + "/") {
      assert m[6] == (LinkLib + "/")[6];
    }
    if StartsWith(m, LinkJar + "/") {
      assert m[6] == (LinkJar + "/")[6];
    }
  }

  // ---------------------------------------------------------------- IDE descriptors against the farm

  /**
   * The IDEA library of library `i` and its `.classpath` entry (when it is
   * not excluded) reference exactly the farm's two links for that library.
   */
  lemma IdeReferencesFarmLinks(sources: seq<Sources>, libs: seq<LibraryJar>, i: nat)
    requires i < |libs|
    ensures var lib := LinkFarm(sources, libs)[|TreeLinks(GeneratedSrcLink, GeneratedSrcsOf, sources)|..];
      var file := IdeaLibraryFiles(libs)[i];
      2 * i + 1 < |lib| &&
      file == IdeaLibraryFile(libs[i]) &&
      IdeaLibraryFor(libs[i]).classesJar == lib[2 * i].mount &&
      IdeaLibraryFor(libs[i]).sourcesJar == lib[2 * i + 1].mount &&
      LibEntryFor(libs[i]) == LibEntry(lib[2 * i].mount, lib[2 * i + 1].mount)
  {
    var src := TreeLinks(GeneratedSrcLink, GeneratedSrcsOf, sources);
    var lib := LibJarLinks(libs);
    var out := TreeLinks(OutputJarLink, OutputJarsOf, sources);
    assert LinkFarm(sources, libs)[|src|..] == lib + out;
    LibJarLinksAt(libs, i);
    IdeaLibraryFilesAt(libs, i);
    IdeaLibraryRootsAreMounts(libs[i]);
    LibEntryUsesMounts(libs[i]);
  }

  /**
   * Every library `.classpath` lists belongs to a non-excluded library whose
   * two jar links are in the farm; its paths are those links' mounts
   * (`Ide.LibEntryUsesMounts`).
   */
  lemma ClasspathLibrariesAreFarmLinks(sources: seq<Sources>, libs: seq<LibraryJar>, e: ClasspathEntry)
    requires e in LibEntries(libs)
    ensures exists i ::
      0 <= i < |libs| && !libs[i].exclude && e == LibEntryFor(libs[i]) &&
      LibJarLink(libs[i], Jar) in LinkFarm(sources, libs) && LibJarLink(libs[i], Src) in LinkFarm(sources, libs)
  {
    LibEntriesExactlyIncluded(libs, e);
    var i :| 0 <= i < |libs| && !libs[i].exclude && e == LibEntryFor(libs[i]);
    LibJarLinksInFarm(sources, libs, i);
  }

  /** Both jar links of every library are in the farm. */
  lemma LibJarLinksInFarm(sources: seq<Sources>, libs: seq<LibraryJar>, i: nat)
    requires i < |libs|
    ensures LibJarLink(libs[i], Jar) in LinkFarm(sources, libs) && LibJarLink(libs[i], Src) in LinkFarm(sources, libs)
  {
    LibJarLinksAt(libs, i);
    assert LibJarLinks(libs)[2 * i] in LibJarLinks(libs);
    assert LibJarLinks(libs)[2 * i + 1] in LibJarLinks(libs);
  }

  // ---------------------------------------------------------------- lib/DEFS against the farm

  /** Stripping a separator that `s` does not start with leaves `s` as it is. */
  lemma LStripAfterSlash(s: string)
    requires |s| == 0 || s[0] != '/'
    ensures LStrip("/" + s, '/') == s && LStrip(s, '/') == s
  {
    assert ("/" + s)[1..] == s;
  }

  /** At the root of its origin, a module resolves a reference exactly as written. */
  lemma ModulePathAndGoalAtRoot(s: Sources, local: string)
    requires s.path == "" && (|local| == 0 || local[0] != '/')
    ensures ModulePathAndGoal(s, local) == GetPathAndGoal(local)
  {
    assert s.path + "/" + local == "/" + local;
    LStripAfterSlash(local);
  }

  /** At the root of its origin, a module's `lib/DEFS` variable prints as `//{source_path}`. */
  lemma DefsVariableAtRoot(s: Sources)
    requires s.path == "" && |s.sourcePath| > 0 && s.sourcePath[0] != '/'
    ensures PathVarString(DefsVariable(s)) == "//" + s.sourcePath
  {
    assert s.sourcePath + s.path == s.sourcePath;
    LStripAfterSlash(s.sourcePath);
  }

  /** A reference that no alias captures resolves to `{variable}/{path}:{goal}`. */
  lemma UnaliasedFloorDiv(v: GoalsPathVar, pathGoal: string)
    requires Normalize(pathGoal) !in v.alias
    ensures FloorDiv(v, pathGoal) == PathVarString(v) + "/" + GetPathAndGoal(pathGoal).0 + ":" + GetPathAndGoal(pathGoal).1
  {
    var p := GetPathAndGoal(pathGoal).0;
    var g := GetPathAndGoal(pathGoal).1;
    assert Normalize(pathGoal) == p + [':'] + g;
    assert (PathVarString(v) + "/") + ((p + ":") + g) == PathVarString(v) + "/" + p + ":" + g;
  }

  /**
   * For a module at the root of its origin (`path` empty), a reference
   * `local` resolves through the module's `lib/DEFS` variable to the target
   * `//{source_path}/{p}:{g}`, and the farm links exactly that target's
   * outputs: its jar `buck-out/gen/{source_path}/{p}/{g}.jar` and its
   * annotation output `buck-out/annotation/{source_path}/{p}/__{g}_gen__/{p}`.
   */
  lemma DefsVariableNamesLinkedTarget(s: Sources, local: string)
    requires s.path == "" && |s.sourcePath| > 0 && s.sourcePath[0] != '/'
    requires |local| == 0 || local[0] != '/'
    requires Normalize(local) !in DefsVariable(s).alias
    ensures var p := GetPathAndGoal(local).0; var g := GetPathAndGoal(local).1;
      FloorDiv(DefsVariable(s), local) == "//" + s.sourcePath + "/" + p + ":" + g &&
      OutputJarLink(s, local).target == "buck-out/gen/" + s.sourcePath + "/" + p + "/" + g + ".jar" &&
      GeneratedSrcLink(s, local).target == "buck-out/annotation/" + s.sourcePath + "/" + p + "/__" + g + "_gen__/" + p
  {
    DefsVariableAtRoot(s);
    UnaliasedFloorDiv(DefsVariable(s), local);
    OutputJarAtRoot(s, local);
    GeneratedSrcAtRoot(s, local);
  }

  /** At the root of its origin, an output-jar link targets `buck-out/gen/{source_path}/{p}/{g}.jar`. */
  lemma OutputJarAtRoot(s: Sources, local: string)
    requires s.path == "" && (|local| == 0 || local[0] != '/')
    ensures OutputJarLink(s, local).target ==
      "buck-out/gen/" + s.sourcePath + "/" + GetPathAndGoal(local).0 + "/" + GetPathAndGoal(local).1 + ".jar"
  {
    ModulePathAndGoalAtRoot(s, local);
  }

  /** At the root of its origin, a generated-source link targets the annotation output of `{p}:{g}`. */
  lemma GeneratedSrcAtRoot(s: Sources, local: string)
    requires s.path == "" && (|local| == 0 || local[0] != '/')
    ensures GeneratedSrcLink(s, local).target ==
      "buck-out/annotation/" + s.sourcePath + "/" + GetPathAndGoal(local).0 + "/__" + GetPathAndGoal(local).1 + "_gen__/" + GetPathAndGoal(local).0
  {
    ModulePathAndGoalAtRoot(s, local);
  }
}
