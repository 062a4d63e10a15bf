/**
 * The IDE descriptors: one IntelliJ IDEA library file per library, the
 * IDEA module file (`{project}.iml`) and the Eclipse `.classpath`. Every
 * jar they reference is a mount of the `.link/lib` sub-tree, and the
 * generated sources are referenced through `.link/src`.
 */
module Ide {
  import opened Text
  import opened Define
  import opened Links

  const IdeaLibrariesDir := ".idea/libraries"
  const XmlHeader := "<?xml version=\"1.0\" encoding=\"UTF-8\"?>\n"

  /** A file the generator writes, by path relative to the project root. */
  datatype TextFile = TextFile(path: string, content: string)

  /** Some module declares `link_generated_srcs`, so `.link/src` has content. */
  predicate AnyGeneratedSrcs(sources: seq<Sources>)
  {
    exists i :: 0 <= i < |sources| && sources[i].linkGeneratedSrcs != []
  }

  /** `.link/src` is referenced exactly when the generated-source sub-tree has links. */
  lemma AnyGeneratedSrcsIffLinks(sources: seq<Sources>)
    ensures AnyGeneratedSrcs(sources) <==> TreeLinks(GeneratedSrcLink, GeneratedSrcsOf, sources) != []
  {
    TreeLinksEmpty(GeneratedSrcLink, GeneratedSrcsOf, sources);
    if !AnyGeneratedSrcs(sources) {
      assert forall i :: 0 <= i < |sources| ==> GeneratedSrcsOf(sources[i]) == [];
    } else {
      var i :| 0 <= i < |sources| && sources[i].linkGeneratedSrcs != [];
      assert GeneratedSrcsOf(sources[i]) != [];
    }
  }

  // ---------------------------------------------------------------- IDEA libraries

  /** The IDEA library describing one `library_jar`: its binary and sources jars as project-relative paths. */
  datatype IdeaLibrary = IdeaLibrary(fileName: string, name: string, classesJar: string, sourcesJar: string)

  function IdeaLibraryFor(l: LibraryJar): IdeaLibrary
  {
    IdeaLibrary("lib_" + l.name + ".xml", "lib_" + l.name,
                LinkLib + "/" + l.name + JarSuffix(Jar), LinkLib + "/" + l.name + JarSuffix(Src))
  }

  function RenderIdeaLibrary(lib: IdeaLibrary): string
  {
    Join([XmlHeader, "<component name=\"libraryTable\">\n", "  <library name=\"", lib.name, "\">\n",
          "    <CLASSES>\n", "      <root url=\"jar://$PROJECT_DIR$/", lib.classesJar, "!/\" />\n", "    </CLASSES>\n",
          "    <JAVADOC />\n",
          "    <SOURCES>\n", "      <root url=\"jar://$PROJECT_DIR$/", lib.sourcesJar, "!/\" />\n", "    </SOURCES>\n",
          "  </library>\n", "</component>\n"], "")
  }

  function IdeaLibraryFile(l: LibraryJar): TextFile
  {
    var lib := IdeaLibraryFor(l);
    TextFile(IdeaLibrariesDir + "/" + lib.fileName, RenderIdeaLibrary(lib))
  }

  /** The library files, in registry order; `.idea/libraries` holds nothing else. */
  function IdeaLibraryFiles(libs: seq<LibraryJar>): (r: seq<TextFile>)
    ensures |r| == |libs|
  {
    if |libs| == 0 then []
    else IdeaLibraryFiles(libs[..|libs| - 1]) + [IdeaLibraryFile(libs[|libs| - 1])]
  }

  /** `generate_idea_libraries`: the files it writes into the emptied `.idea/libraries`, in order. */
  method GenerateIdeaLibraries(libs: seq<LibraryJar>) returns (files: seq<TextFile>)
    ensures files == IdeaLibraryFiles(libs)
  {
    files := [];
    for i := 0 to |libs|
      invariant files == IdeaLibraryFiles(libs[..i])
    {
      assert libs[..i + 1][..i] == libs[..i];
      files := files + [IdeaLibraryFile(libs[i])];
    }
    assert libs[..|libs|] == libs;
  }

  /** The `i`-th library file describes library `i`. */
  lemma {:induction false} IdeaLibraryFilesAt(libs: seq<LibraryJar>, i: nat)
    requires i < |libs|
    ensures IdeaLibraryFiles(libs)[i] == IdeaLibraryFile(libs[i])
  {
    var n := |libs| - 1;
    if i < n {
      IdeaLibraryFilesAt(libs[..n], i);
      assert libs[..n][i] == libs[i];
    }
  }

  /** An IDEA library's class and source roots are the two `.link/lib` mounts of its library. */
  lemma IdeaLibraryRootsAreMounts(l: LibraryJar)
    ensures IdeaLibraryFor(l).classesJar == LibJarLink(l, Jar).mount
    ensures IdeaLibraryFor(l).sourcesJar == LibJarLink(l, Src).mount
    ensures IdeaLibraryFile(l).path == IdeaLibrariesDir + "/" + IdeaLibraryFor(l).name + ".xml"
  {
  }

  // ---------------------------------------------------------------- IDEA module

  /** A `<sourceFolder>` of the module; only `.link/src` is marked generated. */
  datatype SourceFolder = SourceFolder(path: string, generated: bool)

  /** One folder per module origin path, then `.link/src` when some module links generated sources. */
  function ImlSourceFolders(sources: seq<Sources>): seq<SourceFolder>
  {
    seq(|sources|, i requires 0 <= i < |sources| => SourceFolder(sources[i].sourcePath, false)) +
    (if AnyGeneratedSrcs(sources) then [SourceFolder(LinkSrc, true)] else [])
  }

  /** The libraries the module depends on: every library, `exclude` or not, in registry order. */
  function ImlLibraryNames(libs: seq<LibraryJar>): seq<string>
  {
    seq(|libs|, i requires 0 <= i < |libs| => IdeaLibraryFor(libs[i]).name)
  }

  function RenderSourceFolder(f: SourceFolder): string
  {
    Join(["<sourceFolder url=\"file://$MODULE_DIR$/", f.path, "\" isTestSource=\"false\"",
          if f.generated then " generated=\"true\" />" else " />"], "")
  }

  function RenderOrderEntry(name: string): string
  {
    Join(["<orderEntry type=\"library\" name=\"", name, "\" scope=\"COMPILE\" level=\"project\" />"], "")
  }

  function RenderSourceFolders(folders: seq<SourceFolder>): (r: seq<string>)
    ensures |r| == |folders|
  {
    seq(|folders|, i requires 0 <= i < |folders| => RenderSourceFolder(folders[i]))
  }

  function RenderOrderEntries(names: seq<string>): (r: seq<string>)
    ensures |r| == |names|
  {
    seq(|names|, i requires 0 <= i < |names| => RenderOrderEntry(names[i]))
  }

  /** The `.iml` text; the folders and the order entries each continue the line before them. */
  function ImlText(folders: seq<string>, entries: seq<string>): string
  {
    Join([XmlHeader, "<module type=\"JAVA_MODULE\" version=\"4\">\n",
          "  <component name=\"NewModuleRootManager\" inherit-compiler-output=\"true\">\n",
          "    <exclude-output />\n", "    <content url=\"file://$MODULE_DIR$\">\n",
          "      <excludeFolder url=\"file://$MODULE_DIR$/.out\" isTestSource=\"false\" />\n",
          "      <excludeFolder url=\"file://$MODULE_DIR$/buck-out\" isTestSource=\"false\" />",
          Join(folders, "\n      "),
          "\n    </content>\n", "    <orderEntry type=\"inheritedJdk\" />\n",
          "    <orderEntry type=\"sourceFolder\" forTests=\"false\" />",
          Join(entries, "\n    "),
          "\n  </component>\n", "</module>"], "")
  }

  /** The module file's content for the registry. */
  function ImlFile(sources: seq<Sources>, libs: seq<LibraryJar>): string
  {
    ImlText(RenderSourceFolders(ImlSourceFolders(sources)), RenderOrderEntries(ImlLibraryNames(libs)))
  }

  /** `generate_idea_project`'s `.iml` content, with the source folders collected module by module. */
  method GenerateIdeaModule(sources: seq<Sources>, libs: seq<LibraryJar>) returns (iml: string)
    ensures iml == ImlFile(sources, libs)
  {
    var contentSources: seq<string> := [];
    for i := 0 to |sources|
      invariant contentSources == RenderSourceFolders(ImlSourceFolders(sources))[..i]
    {
      contentSources := contentSources + [RenderSourceFolder(SourceFolder(sources[i].sourcePath, false))];
    }
    if AnyGeneratedSrcs(sources) {
      contentSources := contentSources + [RenderSourceFolder(SourceFolder(LinkSrc, true))];
    }
    assert contentSources == RenderSourceFolders(ImlSourceFolders(sources));
    iml := ImlText(contentSources, RenderOrderEntries(ImlLibraryNames(libs)));
  }

  /**
   * The module's folders: origin paths in registry order, then `.link/src`
   * exactly when the generated-source sub-tree has links.
   */
  lemma ImlSourceFoldersLayout(sources: seq<Sources>)
    ensures var f := ImlSourceFolders(sources);
      (forall i :: 0 <= i < |sources| ==> f[i] == SourceFolder(sources[i].sourcePath, false)) &&
      (|f| == |sources| + 1 <==> TreeLinks(GeneratedSrcLink, GeneratedSrcsOf, sources) != []) &&
      (|f| == |sources| + 1 ==> f[|sources|] == SourceFolder(LinkSrc, true)) &&
      |sources| <= |f| <= |sources| + 1
  {
    AnyGeneratedSrcsIffLinks(sources);
  }

  /**
   * The module lists every library, excluded ones included, in registry
   * order, each by the name of the IDEA library file written for it.
   */
  lemma ImlListsEveryLibrary(libs: seq<LibraryJar>, i: nat)
    requires i < |libs|
    ensures |ImlLibraryNames(libs)| == |libs| == |IdeaLibraryFiles(libs)|
    ensures ImlLibraryNames(libs)[i] == "lib_" + libs[i].name
    ensures IdeaLibraryFiles(libs)[i].path == IdeaLibrariesDir + "/" + ImlLibraryNames(libs)[i] + ".xml"
  {
    IdeaLibraryFilesAt(libs, i);
  }

  // ---------------------------------------------------------------- Eclipse classpath

  const OutputPath := ".out/.ecj/classes"
  const JreContainer := "org.eclipse.jdt.launching.JRE_CONTAINER/org.eclipse.jdt.internal.debug.ui.launcher.StandardVMType/JavaSE-1.8"

  datatype ClasspathEntry =
    | SrcEntry(path: string)
    | OptionalSrcEntry(path: string)
    | OutputEntry(path: string)
    | ContainerEntry(path: string)
    | LibEntry(path: string, sourcePath: string)

  /** The entry for one library: its `.link/lib` jar with the sources jar attached. */
  function LibEntryFor(l: LibraryJar): ClasspathEntry
  {
    LibEntry(LinkLib + "/" + l.name + JarSuffix(Jar), LinkLib + "/" + l.name + JarSuffix(Src))
  }

  /** The library entries: one per library not marked `exclude`, in registry order. */
  function LibEntries(libs: seq<LibraryJar>): seq<ClasspathEntry>
  {
    if |libs| == 0 then []
    else
      var l := libs[|libs| - 1];
      LibEntries(libs[..|libs| - 1]) + (if l.exclude then [] else [LibEntryFor(l)])
  }

  function SrcEntries(sources: seq<Sources>): (r: seq<ClasspathEntry>)
    ensures |r| == |sources|
  {
    seq(|sources|, i requires 0 <= i < |sources| => SrcEntry(sources[i].sourcePath))
  }

  /** Everything `.classpath` lists, in order. */
  function ClasspathEntries(sources: seq<Sources>, libs: seq<LibraryJar>): seq<ClasspathEntry>
  {
    SrcEntries(sources) +
    (if AnyGeneratedSrcs(sources) then [OptionalSrcEntry(LinkSrc)] else []) +
    [OutputEntry(OutputPath), ContainerEntry(JreContainer)] +
    LibEntries(libs)
  }

  function RenderEntry(e: ClasspathEntry): string
  {
    match e
    case SrcEntry(p) => Join(["<classpathentry kind=\"src\" path=\"", p, "\"/>"], "")
    case OptionalSrcEntry(p) =>
      Join(["<classpathentry kind=\"src\" path=\"", p, "\">",
            "<attributes><attribute name=\"optional\" value=\"true\"/></attributes>", "</classpathentry>"], "")
    case OutputEntry(p) => Join(["<classpathentry kind=\"output\" path=\"", p, "\"/>"], "")
    case ContainerEntry(p) => Join(["<classpathentry kind=\"con\" path=\"", p, "\"/>"], "")
    case LibEntry(p, sp) => Join(["<classpathentry kind=\"lib\" path=\"", p, "\" sourcepath=\"", sp, "\"/>"], "")
  }

  function RenderEntries(es: seq<ClasspathEntry>): (r: seq<string>)
    ensures |r| == |es|
  {
    seq(|es|, i requires 0 <= i < |es| => RenderEntry(es[i]))
  }

  /** The `.classpath` text; the first entry continues the `<classpath>` line. */
  function ClasspathText(entries: seq<string>): string
  {
    Join([XmlHeader, "<classpath>", Join(entries, "\n  "), "\n</classpath>\n"], "")
  }

  function ClasspathFile(sources: seq<Sources>, libs: seq<LibraryJar>): string
  {
    ClasspathText(RenderEntries(ClasspathEntries(sources, libs)))
  }

  /** Rendering distributes over concatenation of entry lists. */
  lemma RenderEntriesAppend(a: seq<ClasspathEntry>, b: seq<ClasspathEntry>)
    ensures RenderEntries(a + b) == RenderEntries(a) + RenderEntries(b)
  {
  }

  /** `generate_eclipse_project`'s `.classpath` content, with the entries collected step by step. */
  method GenerateEclipseClasspath(sources: seq<Sources>, libs: seq<LibraryJar>) returns (classpath: string)
    ensures classpath == ClasspathFile(sources, libs)
  {
    var entries := CollectSrcEntries(sources);
    var fixed := (if AnyGeneratedSrcs(sources) then [OptionalSrcEntry(LinkSrc)] else []) +
      [OutputEntry(OutputPath), ContainerEntry(JreContainer)];
    if AnyGeneratedSrcs(sources) {
      entries := entries + [RenderEntry(OptionalSrcEntry(LinkSrc))];
    }
    entries := entries + [RenderEntry(OutputEntry(OutputPath))];
    entries := entries + [RenderEntry(ContainerEntry(JreContainer))];
    assert entries == RenderEntries(SrcEntries(sources)) + RenderEntries(fixed);
    RenderEntriesAppend(SrcEntries(sources), fixed);
    entries := CollectLibEntries(entries, libs);
    RenderEntriesAppend(SrcEntries(sources) + fixed, LibEntries(libs));
    assert SrcEntries(sources) + fixed + LibEntries(libs) == ClasspathEntries(sources, libs);
    classpath := ClasspathText(entries);
  }

  /** The first loop of `generate_eclipse_project`: one source entry per origin, in registry order. */
  method CollectSrcEntries(sources: seq<Sources>) returns (entries: seq<string>)
    ensures entries == RenderEntries(SrcEntries(sources))
  {
    entries := [];
    for i := 0 to |sources|
      invariant entries == RenderEntries(SrcEntries(sources[..i]))
    {
      assert SrcEntries(sources[..i + 1]) == SrcEntries(sources[..i]) + [SrcEntry(sources[i].sourcePath)];
      entries := entries + [RenderEntry(SrcEntry(sources[i].sourcePath))];
    }
    assert sources[..|sources|] == sources;
  }

  /** The library loop of `generate_eclipse_project`: appends an entry for each library not excluded. */
  method CollectLibEntries(start: seq<string>, libs: seq<LibraryJar>) returns (entries: seq<string>)
    ensures entries == start + RenderEntries(LibEntries(libs))
  {
    entries := start;
    for i := 0 to |libs|
      invariant entries == start + RenderEntries(LibEntries(libs[..i]))
    {
      assert libs[..i + 1][..i] == libs[..i];
      var added := if libs[i].exclude then [] else [LibEntryFor(libs[i])];
      assert LibEntries(libs[..i + 1]) == LibEntries(libs[..i]) + added;
      RenderEntriesAppend(LibEntries(libs[..i]), added);
      if !libs[i].exclude {
        entries := entries + [RenderEntry(LibEntryFor(libs[i]))];
      }
    }
    assert libs[..|libs|] == libs;
  }

  /**
   * The order of `.classpath`: the origin paths in registry order, then the
   * optional `.link/src` entry exactly when the generated-source sub-tree has
   * links, then the output and JRE entries, then the library entries.
   */
  lemma ClasspathLayout(sources: seq<Sources>, libs: seq<LibraryJar>)
    ensures var es := ClasspathEntries(sources, libs);
      var k := |sources| + (if TreeLinks(GeneratedSrcLink, GeneratedSrcsOf, sources) != [] then 1 else 0);
      |es| == k + 2 + |LibEntries(libs)| &&
      (forall i :: 0 <= i < |sources| ==> es[i] == SrcEntry(sources[i].sourcePath)) &&
      (k > |sources| ==> es[|sources|] == OptionalSrcEntry(LinkSrc)) &&
      es[k] == OutputEntry(OutputPath) && es[k + 1] == ContainerEntry(JreContainer) &&
      es[k + 2..] == LibEntries(libs)
  {
    AnyGeneratedSrcsIffLinks(sources);
  }

  /** A library entry points at the two `.link/lib` mounts of its library. */
  lemma LibEntryUsesMounts(l: LibraryJar)
    ensures LibEntryFor(l) == LibEntry(LibJarLink(l, Jar).mount, LibJarLink(l, Src).mount)
  {
  }

  /** `.classpath` lists a library exactly when it is not excluded. */
  lemma {:induction false} LibEntriesExactlyIncluded(libs: seq<LibraryJar>, e: ClasspathEntry)
    ensures e in LibEntries(libs) <==> exists i :: 0 <= i < |libs| && !libs[i].exclude && e == LibEntryFor(libs[i])
  {
    if |libs| > 0 {
      var n := |libs| - 1;
      LibEntriesExactlyIncluded(libs[..n], e);
      if e in LibEntries(libs[..n]) {
        var i :| 0 <= i < n && !libs[..n][i].exclude && e == LibEntryFor(libs[..n][i]);
        assert libs[..n][i] == libs[i];
      }
      if exists i :: 0 <= i < |libs| && !libs[i].exclude && e == LibEntryFor(libs[i]) {
        var i :| 0 <= i < |libs| && !libs[i].exclude && e == LibEntryFor(libs[i]);
        if i < n {
          assert libs[..n][i] == libs[i];
        }
      }
    }
  }

  /** The library entries number the libraries not marked `exclude`. */
  lemma {:induction false} LibEntriesCount(libs: seq<LibraryJar>)
    ensures |LibEntries(libs)| == |set i | 0 <= i < |libs| && !libs[i].exclude|
  {
    if |libs| > 0 {
      var n := |libs| - 1;
      LibEntriesCount(libs[..n]);
      var before := set i | 0 <= i < n && !libs[..n][i].exclude;
      var after := set i | 0 <= i < |libs| && !libs[i].exclude;
      assert before == set i | 0 <= i < n && !libs[i].exclude;
      if libs[n].exclude {
        assert after == before;
      } else {
        assert after == before + {n};
      }
    }
  }
}
