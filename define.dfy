/**
 * The definition side of the generator: Maven coordinates, the two kinds
 * of declarations a DEER file makes (`sources` and `library_jar`), and the
 * process-wide registry those declarations are appended to.
 */
module Define {
  import opened Wrappers
  import opened Text

  /** A Maven coordinate; an empty classifier means "no classifier". */
  datatype MavenCoords = MavenCoords(group: string, artifact: string, version: string, classifier: string)
  {
    /** The artifact file's base name: the non-empty fields among artifact, version, classifier joined by `-`. */
    function Filename(): string
    {
      Join(NonEmpty([artifact, version, classifier]), "-")
    }

    /** Path of the artifact below a Maven repository root. */
    function RepoPath(): string
    {
      ReplaceChar(group, '.', '/') + "/" + artifact + "/" + version + "/" + Filename()
    }

    /** Display form; the classifier segment is omitted when empty. */
    function ToString(): string
    {
      if classifier != "" then group + ":" + artifact + ":" + classifier + ":" + version
      else group + ":" + artifact + ":" + version
    }

    /** No field contains the coordinate separator `:`. */
    predicate ColonFree()
    {
      ':' !in group && ':' !in artifact && ':' !in version && ':' !in classifier
    }
  }

  /** A `sources(...)` declaration, stamped with the origin path of its DEER file. */
  datatype Sources = Sources(
    sourcePath: string,
    name: string,
    path: string,
    alias: seq<(string, string)>,    // an insertion-ordered dict
    linkGeneratedSrcs: seq<string>,
    linkOutputJars: seq<string>)

  /** A `library_jar(...)` declaration, stamped with the origin path of its DEER file. */
  datatype LibraryJar = LibraryJar(
    sourcePath: string,
    name: string,
    mavenCoords: MavenCoords,
    exclude: bool,
    deps: seq<string>)

  /**
   * Parses `group:artifact:version` or `group:artifact:classifier:version`;
   * any other number of `:`-separated segments is an error carrying the
   * message the source raises.
   */
  function ParseMavenCoords(coords: string): (r: Result<MavenCoords, string>)
    ensures r.Ok? <==> Count(coords, ':') == 2 || Count(coords, ':') == 3
    ensures r.Ok? ==> r.value.ColonFree()
    ensures r.Err? ==> r.error == "Cannot parse maven coords: " + coords
  {
    var parts := Split(coords, ':');
    SplitSpec(coords, ':');
    SplitCount(coords, ':');
    if |parts| == 3 then
      Ok(MavenCoords(parts[0], parts[1], parts[2], ""))
    else if |parts| == 4 then
      Ok(MavenCoords(parts[0], parts[1], parts[3], parts[2]))
    else
      Err("Cannot parse maven coords: " + coords)
  }

  /** `g:a:v` with colon-free segments parses with an empty classifier. */
  lemma ParseThreeSegments(g: string, a: string, v: string)
    requires ':' !in g && ':' !in a && ':' !in v
    ensures ParseMavenCoords(g + ":" + a + ":" + v) == Ok(MavenCoords(g, a, v, ""))
  {
    var s := g + ":" + a + ":" + v;
    JoinThree(g, a, v, [':']);
    SplitJoin([g, a, v], ':');
  }

  /** `g:a:c:v` with colon-free segments parses with classifier `c` and version `v`. */
  lemma ParseFourSegments(g: string, a: string, c: string, v: string)
    requires ':' !in g && ':' !in a && ':' !in c && ':' !in v
    ensures ParseMavenCoords(g + ":" + a + ":" + c + ":" + v) == Ok(MavenCoords(g, a, v, c))
  {
    var s := g + ":" + a + ":" + c + ":" + v;
    JoinFour(g, a, c, v, [':']);
    SplitJoin([g, a, c, v], ':');
  }

  /** Displaying a coordinate and parsing it back gives the same coordinate. */
  lemma DisplayParseRoundTrip(m: MavenCoords)
    requires m.ColonFree()
    ensures ParseMavenCoords(m.ToString()) == Ok(m)
  {
    if m.classifier != "" {
      ParseFourSegments(m.group, m.artifact, m.classifier, m.version);
    } else {
      ParseThreeSegments(m.group, m.artifact, m.version);
    }
  }

  /** Parsing and then displaying reproduces the input whenever the classifier segment, if any, is non-empty. */
  lemma ParseDisplayRoundTrip(coords: string, m: MavenCoords)
    requires ParseMavenCoords(coords) == Ok(m)
    requires m.classifier != "" || Count(coords, ':') == 2
    ensures m.ToString() == coords
  {
    var parts := Split(coords, ':');
    SplitSpec(coords, ':');
    SplitCount(coords, ':');
    if |parts| == 3 {
      assert parts == [parts[0], parts[1], parts[2]];
      JoinThree(parts[0], parts[1], parts[2], [':']);
    } else {
      assert parts == [parts[0], parts[1], parts[2], parts[3]];
      JoinFour(parts[0], parts[1], parts[2], parts[3], [':']);
    }
  }

  /** A four-segment string with an empty classifier segment displays in its three-segment form. */
  lemma ParseEmptyClassifier(coords: string, m: MavenCoords)
    requires ParseMavenCoords(coords) == Ok(m)
    requires m.classifier == "" && Count(coords, ':') == 3
    ensures coords == m.group + ":" + m.artifact + "::" + m.version
    ensures m.ToString() == m.group + ":" + m.artifact + ":" + m.version
  {
    SplitCount(coords, ':');
    assert Split(coords, ':') == [m.group, m.artifact, "", m.version];
    EmptyThirdSegment(coords, m.group, m.artifact, m.version);
  }

  lemma EmptyThirdSegment(coords: string, g: string, a: string, v: string)
    requires Split(coords, ':') == [g, a, "", v]
    ensures coords == g + ":" + a + "::" + v
  {
    SplitIntoFour(coords, ':', g, a, "", v);
    assert g + [':'] + a + [':'] + "" + [':'] + v == g + ":" + a + "::" + v;
  }

  /** The filename's closed form: `artifact-version`, plus `-classifier` only when there is one. */
  lemma FilenameShape(m: MavenCoords)
    requires m.artifact != "" && m.version != ""
    ensures m.Filename() == m.artifact + "-" + m.version + (if m.classifier == "" then "" else "-" + m.classifier)
  {
    var parts := [m.artifact, m.version, m.classifier];
    assert parts[1..] == [m.version, m.classifier];
    assert parts[1..][1..] == [m.classifier];
    assert NonEmpty([m.classifier]) == (if m.classifier == "" then [] else [m.classifier]) by {
      assert [m.classifier][1..] == [];
    }
    if m.classifier == "" {
      assert NonEmpty(parts) == [m.artifact, m.version];
      JoinTwo(m.artifact, m.version, "-");
    } else {
      assert NonEmpty(parts) == [m.artifact, m.version, m.classifier];
      JoinThree(m.artifact, m.version, m.classifier, "-");
    }
  }

  /**
   * No stray separator: when no field contains `-`, splitting the filename
   * on `-` gives back exactly the non-empty fields, so it has no empty
   * piece (no leading, trailing or doubled dash).
   */
  lemma FilenameSplitsIntoFields(m: MavenCoords)
    requires NonEmpty([m.artifact, m.version, m.classifier]) != []
    requires '-' !in m.artifact && '-' !in m.version && '-' !in m.classifier
    ensures Split(m.Filename(), '-') == NonEmpty([m.artifact, m.version, m.classifier])
    ensures forall i :: 0 <= i < |Split(m.Filename(), '-')| ==> Split(m.Filename(), '-')[i] != ""
  {
    var parts := NonEmpty([m.artifact, m.version, m.classifier]);
    SplitJoin(parts, '-');
  }

  /**
   * The repository path is the group with every `.` turned into `/`,
   * followed by `/artifact/version/filename`.
   */
  lemma RepoPathShape(m: MavenCoords)
    ensures var p := m.RepoPath(); var g := p[..|m.group|];
      |p| > |m.group| &&
      '.' !in g &&
      (forall i :: 0 <= i < |m.group| ==> g[i] == (if m.group[i] == '.' then '/' else m.group[i])) &&
      p[|m.group|..] == "/" + m.artifact + "/" + m.version + "/" + m.Filename()
  {
    var g := ReplaceChar(m.group, '.', '/');
    var p := m.RepoPath();
    assert p == g + ("/" + m.artifact + "/" + m.version + "/" + m.Filename());
    assert p[..|m.group|] == g;
  }

  /**
   * The module-level state of the definition side: the origin path set
   * before each DEER file runs, and the two append-only declaration lists.
   */
  class Registry {
    var currentPath: Option<string>
    var sources: seq<Sources>
    var libraries: seq<LibraryJar>

    /** Start of the process: no origin path, no declarations. */
    constructor ()
      ensures currentPath == None && sources == [] && libraries == []
    {
      currentPath := None;
      sources := [];
      libraries := [];
    }

    /** `set_current_path`: later declarations are stamped with `path`. */
    method SetCurrentPath(path: string)
      modifies this
      ensures currentPath == Some(path)
      ensures sources == old(sources) && libraries == old(libraries)
    {
      currentPath := Some(path);
    }

    /** `sources(name, **kw)`: appends one record stamped with the current origin path. */
    method DeclareSources(name: string, path: string, alias: seq<(string, string)>,
                          linkGeneratedSrcs: seq<string>, linkOutputJars: seq<string>)
      requires currentPath.Some?
      modifies this
      ensures sources == old(sources) + [Sources(old(currentPath).value, name, path, alias, linkGeneratedSrcs, linkOutputJars)]
      ensures libraries == old(libraries) && currentPath == old(currentPath)
    {
      sources := sources + [Sources(currentPath.value, name, path, alias, linkGeneratedSrcs, linkOutputJars)];
    }

    /**
     * `library_jar(name, maven_coords, **kw)`: parses the coordinate and
     * appends one record stamped with the current origin path; a coordinate
     * that does not parse raises and appends nothing.
     */
    method DeclareLibraryJar(name: string, coords: string, exclude: bool, deps: seq<string>)
      returns (r: Result<LibraryJar, string>)
      requires currentPath.Some?
      modifies this
      ensures r.Ok? <==> ParseMavenCoords(coords).Ok?
      ensures r.Err? ==> r.error == ParseMavenCoords(coords).error
      ensures r.Ok? ==> r.value == LibraryJar(old(currentPath).value, name, ParseMavenCoords(coords).value, exclude, deps)
      ensures libraries == if r.Ok? then old(libraries) + [r.value] else old(libraries)
      ensures sources == old(sources) && currentPath == old(currentPath)
    {
      var parsed := ParseMavenCoords(coords);
      if parsed.Err? {
        return Err(parsed.error);
      }
      var l := LibraryJar(currentPath.value, name, parsed.value, exclude, deps);
      libraries := libraries + [l];
      r := Ok(l);
    }
  }
}
