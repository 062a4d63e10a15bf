/**
 * The symlink farm under `.link`: generated-source directories, library
 * jars and module output jars, each exposed at a stable path. A link is a
 * (mount, target) pair of paths relative to the project root; creating it
 * on disk is outside the model.
 */
module Links {
  import opened Wrappers
  import opened Text
  import opened Define
  import opened PathGoal

  datatype Link = Link(mount: string, target: string, isDirectory: bool)

  const LinkLib := ".link/lib"
  const LinkJar := ".link/jar"
  const LinkSrc := ".link/src"

  /** The two artifacts fetched for every library: the binary jar and the sources jar. */
  datatype JarKind = Jar | Src

  /** The kind's key in `jar_suffixes`, also the suffix of its `remote_file` goal. */
  function KindName(kind: JarKind): string
  {
    match kind
    case Jar => "jar"
    case Src => "src"
  }

  /** `jar_suffixes[kind]`. */
  function JarSuffix(kind: JarKind): string
  {
    match kind
    case Jar => ".jar"
    case Src => "-sources.jar"
  }

  /** `f'{s.path}/{local}'.lstrip('/')` split into path and goal. */
  function ModulePathAndGoal(s: Sources, local: string): (string, string)
  {
    GetPathAndGoal(LStrip(s.path + "/" + local, '/'))
  }

  // ---------------------------------------------------------------- per-module links

  /** The link for one `link_generated_srcs` entry: the annotation processor's output directory. */
  function GeneratedSrcLink(s: Sources, local: string): Link
  {
    var (path, goal) := ModulePathAndGoal(s, local);
    Link(LinkSrc + "/" + path,
         "buck-out/annotation/" + s.sourcePath + "/" + path + "/__" + goal + "_gen__/" + path,
         true)
  }

  /** The link for one `link_output_jars` entry: the jar Buck builds for that goal. */
  function OutputJarLink(s: Sources, local: string): Link
  {
    var (path, goal) := ModulePathAndGoal(s, local);
    var tail := "/" + path + "/" + goal + ".jar";
    Link(LinkJar + tail, "buck-out/gen/" + s.sourcePath + tail, false)
  }

  /** The entries a module declares in `link_generated_srcs`. */
  function GeneratedSrcsOf(s: Sources): seq<string> { s.linkGeneratedSrcs }

  /** The entries a module declares in `link_output_jars`. */
  function OutputJarsOf(s: Sources): seq<string> { s.linkOutputJars }

  /**
   * The links `rule` makes for the entries `locals` of one module, in order.
   * `symlink_generated_srcs` and `symlink_output_jars` share this shape: one
   * link per declared entry, module by module; they differ in the rule and
   * in which declaration they read.
   */
  function ModuleLinks(rule: (Sources, string) -> Link, s: Sources, locals: seq<string>): (r: seq<Link>)
    ensures |r| == |locals|
  {
    if |locals| == 0 then []
    else ModuleLinks(rule, s, locals[..|locals| - 1]) + [rule(s, locals[|locals| - 1])]
  }

  /** The links `rule` makes for what each module declares, in registry order. */
  function TreeLinks(rule: (Sources, string) -> Link, declared: Sources -> seq<string>, sources: seq<Sources>): seq<Link>
  {
    if |sources| == 0 then []
    else
      var s := sources[|sources| - 1];
      TreeLinks(rule, declared, sources[..|sources| - 1]) + ModuleLinks(rule, s, declared(s))
  }

  /** `symlink_generated_srcs`: the links it creates, in creation order. */
  method SymlinkGeneratedSrcs(sources: seq<Sources>) returns (links: seq<Link>)
    ensures links == TreeLinks(GeneratedSrcLink, GeneratedSrcsOf, sources)
  {
    links := [];
    for i := 0 to |sources|
      invariant links == TreeLinks(GeneratedSrcLink, GeneratedSrcsOf, sources[..i])
    {
      links := AppendModuleLinks(GeneratedSrcLink, sources[i], sources[i].linkGeneratedSrcs, links);
      assert sources[..i + 1][..i] == sources[..i];
    }
    assert sources[..|sources|] == sources;
  }

  /** `symlink_output_jars`: the links it creates, in creation order. */
  method SymlinkOutputJars(sources: seq<Sources>) returns (links: seq<Link>)
    ensures links == TreeLinks(OutputJarLink, OutputJarsOf, sources)
  {
    links := [];
    for i := 0 to |sources|
      invariant links == TreeLinks(OutputJarLink, OutputJarsOf, sources[..i])
    {
      links := AppendModuleLinks(OutputJarLink, sources[i], sources[i].linkOutputJars, links);
      assert sources[..i + 1][..i] == sources[..i];
    }
    assert sources[..|sources|] == sources;
  }

  /** The inner loop of both: one link per entry of module `s`, appended in order. */
  method AppendModuleLinks(rule: (Sources, string) -> Link, s: Sources, locals: seq<string>, start: seq<Link>)
    returns (links: seq<Link>)
    ensures links == start + ModuleLinks(rule, s, locals)
  {
    links := start;
    for j := 0 to |locals|
      invariant links == start + ModuleLinks(rule, s, locals[..j])
    {
      assert locals[..j + 1][..j] == locals[..j];
      links := links + [rule(s, locals[j])];
    }
    assert locals[..|locals|] == locals;
  }

  /** The `k`-th link of a module is the link for its `k`-th declared entry. */
  lemma {:induction false} ModuleLinksAt(rule: (Sources, string) -> Link, s: Sources, locals: seq<string>, k: nat)
    requires k < |locals|
    ensures ModuleLinks(rule, s, locals)[k] == rule(s, locals[k])
  {
    var n := |locals| - 1;
    if k < n {
      ModuleLinksAt(rule, s, locals[..n], k);
    }
  }

  /** Every declared entry of every module gets its link. */
  lemma {:induction false} TreeLinksComplete(rule: (Sources, string) -> Link, declared: Sources -> seq<string>, sources: seq<Sources>, i: nat, j: nat)
    requires i < |sources| && j < |declared(sources[i])|
    ensures rule(sources[i], declared(sources[i])[j]) in TreeLinks(rule, declared, sources)
  {
    var n := |sources| - 1;
    var prefix := TreeLinks(rule, declared, sources[..n]);
    var m := ModuleLinks(rule, sources[n], declared(sources[n]));
    assert TreeLinks(rule, declared, sources) == prefix + m;
    if i < n {
      TreeLinksComplete(rule, declared, sources[..n], i, j);
      assert sources[..n][i] == sources[i];
    } else {
      ModuleLinksAt(rule, sources[n], declared(sources[n]), j);
      assert (prefix + m)[|prefix| + j] == m[j];
    }
  }

  /** Every link of the tree is the link for some declared entry of some module. */
  lemma {:induction false} TreeLinksSound(rule: (Sources, string) -> Link, declared: Sources -> seq<string>, sources: seq<Sources>, k: nat)
    requires k < |TreeLinks(rule, declared, sources)|
    ensures exists i, j ::
      0 <= i < |sources| && 0 <= j < |declared(sources[i])| &&
      TreeLinks(rule, declared, sources)[k] == rule(sources[i], declared(sources[i])[j])
  {
    var n := |sources| - 1;
    var prefix := TreeLinks(rule, declared, sources[..n]);
    if k < |prefix| {
      TreeLinksSound(rule, declared, sources[..n], k);
      var i, j :| 0 <= i < n && 0 <= j < |declared(sources[..n][i])| &&
        prefix[k] == rule(sources[..n][i], declared(sources[..n][i])[j]);
      assert sources[..n][i] == sources[i];
    } else {
      var j := k - |prefix|;
      ModuleLinksAt(rule, sources[n], declared(sources[n]), j);
    }
  }

  /** The tree is empty exactly when no module declares an entry for it. */
  lemma {:induction false} TreeLinksEmpty(rule: (Sources, string) -> Link, declared: Sources -> seq<string>, sources: seq<Sources>)
    ensures TreeLinks(rule, declared, sources) == [] <==> forall i :: 0 <= i < |sources| ==> declared(sources[i]) == []
  {
    if |sources| > 0 {
      var n := |sources| - 1;
      TreeLinksEmpty(rule, declared, sources[..n]);
      var m := ModuleLinks(rule, sources[n], declared(sources[n]));
      assert TreeLinks(rule, declared, sources) == TreeLinks(rule, declared, sources[..n]) + m;
      if forall i :: 0 <= i < |sources| ==> declared(sources[i]) == [] {
        forall i | 0 <= i < n
          ensures declared(sources[..n][i]) == []
        {
          assert sources[..n][i] == sources[i];
        }
      }
      if TreeLinks(rule, declared, sources) == [] {
        forall i | 0 <= i < |sources|
          ensures declared(sources[i]) == []
        {
          if i < n {
            assert sources[..n][i] == sources[i];
          }
        }
      }
    }
  }

  /** `u` occurs in `t` at some position before one where `v` occurs. */
  predicate Before(t: seq<Link>, u: Link, v: Link)
  {
    exists x, y :: 0 <= x < y < |t| && t[x] == u && t[y] == v
  }

  /** A link of an earlier module comes before every link of a later one. */
  lemma {:induction false} TreeLinksOrdered(rule: (Sources, string) -> Link, declared: Sources -> seq<string>, sources: seq<Sources>,
                                            a: nat, ja: nat, b: nat, jb: nat)
    requires a < b < |sources| && ja < |declared(sources[a])| && jb < |declared(sources[b])|
    ensures Before(TreeLinks(rule, declared, sources), rule(sources[a], declared(sources[a])[ja]), rule(sources[b], declared(sources[b])[jb]))
  {
    var n := |sources| - 1;
    var u := rule(sources[a], declared(sources[a])[ja]);
    var v := rule(sources[b], declared(sources[b])[jb]);
    var prefix := TreeLinks(rule, declared, sources[..n]);
    var m := ModuleLinks(rule, sources[n], declared(sources[n]));
    var t := TreeLinks(rule, declared, sources);
    assert t == prefix + m;
    assert sources[..n][a] == sources[a];
    if b < n {
      TreeLinksOrdered(rule, declared, sources[..n], a, ja, b, jb);
      assert sources[..n][b] == sources[b];
      var x, y :| 0 <= x < y < |prefix| && prefix[x] == u && prefix[y] == v;
      assert t[x] == prefix[x] && t[y] == prefix[y];
    } else {
      TreeLinksComplete(rule, declared, sources[..n], a, ja);
      var x :| 0 <= x < |prefix| && prefix[x] == u;
      ModuleLinksAt(rule, sources[n], declared(sources[n]), jb);
      var y := |prefix| + jb;
      assert t[x] == prefix[x] && t[y] == m[jb];
    }
  }

  /**
   * An output-jar mount mirrors Buck's output path: below `.link/jar` it is
   * the target with `buck-out/gen/{source_path}` taken off.
   */
  lemma OutputJarMirrorsTarget(s: Sources, local: string)
    ensures var l := OutputJarLink(s, local);
      StartsWith(l.mount, LinkJar + "/") && !l.isDirectory &&
      l.target == "buck-out/gen/" + s.sourcePath + l.mount[|LinkJar|..]
  {
    var pg := ModulePathAndGoal(s, local);
    var tail := "/" + pg.0 + "/" + pg.1 + ".jar";
    SlashTail(LinkJar, tail);
  }

  /** A path followed by a tail that starts with `/` lies below that path, and the tail is what follows it. */
  lemma SlashTail(dir: string, tail: string)
    requires |tail| > 0 && tail[0] == '/'
    ensures StartsWith(dir + tail, dir + "/") && (dir + tail)[|dir|..] == tail
  {
    assert (dir + tail)[..|dir| + 1] == dir + "/";
  }

  /**
   * A generated-source mount names the package path, and the target is the
   * annotation output for that path and its goal, ending in the same path.
   */
  lemma GeneratedSrcTargetEndsWithPath(s: Sources, local: string)
    ensures var l := GeneratedSrcLink(s, local);
      var path := ModulePathAndGoal(s, local).0;
      var goal := ModulePathAndGoal(s, local).1;
      l.mount == LinkSrc + "/" + path && StartsWith(l.mount, LinkSrc + "/") && l.isDirectory &&
      l.target == "buck-out/annotation/" + s.sourcePath + "/" + path + "/__" + goal + "_gen__/" + path &&
      l.target[|l.target| - |path|..] == path
  {
  }

  // ---------------------------------------------------------------- library jars

  /** The file link for one artifact of a library: `.link/lib/{name}{suffix}` to the `remote_file` output. */
  function LibJarLink(l: LibraryJar, kind: JarKind): Link
  {
    Link(LinkLib + "/" + l.name + JarSuffix(kind),
         "buck-out/gen/lib/" + l.name + "_" + KindName(kind) + "/" + l.mavenCoords.Filename() + JarSuffix(kind),
         false)
  }

  /** All library-jar links: binary then sources for each library, in registry order. */
  function LibJarLinks(libs: seq<LibraryJar>): seq<Link>
  {
    if |libs| == 0 then []
    else
      var l := libs[|libs| - 1];
      LibJarLinks(libs[..|libs| - 1]) + [LibJarLink(l, Jar), LibJarLink(l, Src)]
  }

  /** `symlink_lib_jars`: the links it creates, in creation order. */
  method SymlinkLibJars(libs: seq<LibraryJar>) returns (links: seq<Link>)
    ensures links == LibJarLinks(libs)
  {
    links := [];
    for i := 0 to |libs|
      invariant links == LibJarLinks(libs[..i])
    {
      assert libs[..i + 1][..i] == libs[..i];
      links := links + [LibJarLink(libs[i], Jar)];
      links := links + [LibJarLink(libs[i], Src)];
    }
    assert libs[..|libs|] == libs;
  }

  /** Exactly two links per library: its binary jar at `2i` and its sources jar at `2i + 1`. */
  lemma {:induction false} LibJarLinksAt(libs: seq<LibraryJar>, i: nat)
    requires i < |libs|
    ensures |LibJarLinks(libs)| == 2 * |libs|
    ensures LibJarLinks(libs)[2 * i] == LibJarLink(libs[i], Jar)
    ensures LibJarLinks(libs)[2 * i + 1] == LibJarLink(libs[i], Src)
  {
    var n := |libs| - 1;
    if i < n {
      LibJarLinksAt(libs[..n], i);
      assert libs[..n][i] == libs[i];
    } else if n > 0 {
      LibJarLinksAt(libs[..n], 0);
    }
  }

  /** Equal strings that end in suffixes `x` and `y`, with `y` ending in `x`, differ only in that `y`'s extra prefix. */
  lemma SameEnding(a: string, x: string, b: string, y: string)
    requires a + x == b + y && |x| <= |y| && y[|y| - |x|..] == x
    ensures a == b + y[..|y| - |x|]
  {
    var t := a + x;
    assert a == t[..|a|];
    assert b + y[..|y| - |x|] == t[..|t| - |x|];
  }

  /**
   * Distinct library names give distinct mounts, provided no name is
   * another's name followed by `-sources`.
   */
  lemma LibJarMountsDistinct(libs: seq<LibraryJar>, i: nat, j: nat, ki: JarKind, kj: JarKind)
    requires i < |libs| && j < |libs| && (i, ki) != (j, kj)
    requires forall a, b :: 0 <= a < |libs| && 0 <= b < |libs| && a != b ==> libs[a].name != libs[b].name
    requires forall a, b :: 0 <= a < |libs| && 0 <= b < |libs| ==> libs[a].name != libs[b].name + "-sources"
    ensures LibJarLink(libs[i], ki).mount != LibJarLink(libs[j], kj).mount
  {
    var p := LinkLib + "/";
    var ni, nj := libs[i].name, libs[j].name;
    SuffixedNamesDiffer(ni, ki, nj, kj);
    assert LibJarLink(libs[i], ki).mount == p + (ni + JarSuffix(ki));
    assert LibJarLink(libs[j], kj).mount == p + (nj + JarSuffix(kj));
    SameMiddle(p, ni + JarSuffix(ki), nj + JarSuffix(kj), "");
  }

  /** Helper of LibJarMountsDistinct: the file names `{name}{suffix}` of two different jars differ. */
  lemma SuffixedNamesDiffer(ni: string, ki: JarKind, nj: string, kj: JarKind)
    requires (ni, ki) != (nj, kj)
    requires ni != nj + "-sources" && nj != ni + "-sources"
    ensures ni + JarSuffix(ki) != nj + JarSuffix(kj)
  {
    var si, sj := JarSuffix(ki), JarSuffix(kj);
    if ni + si == nj + sj {
      if ki == kj {
        assert nj + sj[..|sj| - |si|] == nj;
        SameEnding(ni, si, nj, sj);
      } else if ki == Jar {
        assert sj[..|sj| - |si|] == "-sources";
        SameEnding(ni, si, nj, sj);
      } else {
        assert si[..|si| - |sj|] == "-sources";
        SameEnding(nj, sj, ni, si);
      }
    }
  }

  /** Without that proviso two libraries can claim one mount: `x` and `x-sources`. */
  lemma LibJarMountClash(l: LibraryJar, m: LibraryJar)
    requires m.name == l.name + "-sources"
    ensures LibJarLink(m, Jar).mount == LibJarLink(l, Src).mount
  {
  }

  /**
   * Two modules with the same `path` that declare the same entry claim one
   * mount in `.link/jar` and one in `.link/src`, because neither mount
   * depends on `source_path`; their targets differ when their origins do.
   */
  lemma ModuleMountClash(s: Sources, t: Sources, local: string)
    requires s.path == t.path && s.sourcePath != t.sourcePath
    ensures OutputJarLink(s, local).mount == OutputJarLink(t, local).mount
    ensures OutputJarLink(s, local).target != OutputJarLink(t, local).target
    ensures GeneratedSrcLink(s, local).mount == GeneratedSrcLink(t, local).mount
    ensures GeneratedSrcLink(s, local).target != GeneratedSrcLink(t, local).target
  {
    var (path, goal) := ModulePathAndGoal(s, local);
    var jarTail := "/" + path + "/" + goal + ".jar";
    var srcTail := "/" + path + "/__" + goal + "_gen__/" + path;
    assert OutputJarLink(s, local).target == ("buck-out/gen/" + s.sourcePath) + jarTail;
    assert OutputJarLink(t, local).target == ("buck-out/gen/" + t.sourcePath) + jarTail;
    assert GeneratedSrcLink(s, local).target == ("buck-out/annotation/" + s.sourcePath) + srcTail;
    assert GeneratedSrcLink(t, local).target == ("buck-out/annotation/" + t.sourcePath) + srcTail;
    SameMiddle("buck-out/gen/", s.sourcePath, t.sourcePath, jarTail);
    SameMiddle("buck-out/annotation/", s.sourcePath, t.sourcePath, srcTail);
  }

  /** Two links of `t` share one mount. */
  predicate SharesMount(t: seq<Link>)
  {
    exists x, y :: 0 <= x < y < |t| && t[x].mount == t[y].mount
  }

  /** Two such modules put two links with one mount into the output-jar sub-tree. */
  lemma SharedOutputJarRepeatsMount(sources: seq<Sources>, a: nat, b: nat, local: string)
    requires a < |sources| && b < |sources|
    requires sources[a].path == sources[b].path && sources[a].sourcePath != sources[b].sourcePath
    requires local in sources[a].linkOutputJars && local in sources[b].linkOutputJars
    ensures SharesMount(TreeLinks(OutputJarLink, OutputJarsOf, sources))
  {
    var out := TreeLinks(OutputJarLink, OutputJarsOf, sources);
    ModuleMountClash(sources[a], sources[b], local);
    var ja :| 0 <= ja < |OutputJarsOf(sources[a])| && OutputJarsOf(sources[a])[ja] == local;
    var jb :| 0 <= jb < |OutputJarsOf(sources[b])| && OutputJarsOf(sources[b])[jb] == local;
    if a < b {
      TreeLinksOrdered(OutputJarLink, OutputJarsOf, sources, a, ja, b, jb);
      BeforeSharesMount(out, OutputJarLink(sources[a], local), OutputJarLink(sources[b], local));
    } else {
      TreeLinksOrdered(OutputJarLink, OutputJarsOf, sources, b, jb, a, ja);
      BeforeSharesMount(out, OutputJarLink(sources[b], local), OutputJarLink(sources[a], local));
    }
  }

  /** Helper of SharedOutputJarRepeatsMount: two ordered links with one mount are a shared mount. */
  lemma BeforeSharesMount(t: seq<Link>, u: Link, v: Link)
    requires Before(t, u, v) && u.mount == v.mount
    ensures SharesMount(t)
  {
    var x, y :| 0 <= x < y < |t| && t[x] == u && t[y] == v;
    assert t[x].mount == t[y].mount;
  }

  /** Strings with a common prefix and suffix are equal only when their middles are. */
  lemma SameMiddle(p: string, x: string, y: string, q: string)
    ensures (p + x) + q == (p + y) + q ==> x == y
  {
    if (p + x) + q == (p + y) + q {
      assert |x| == |y|;
      assert x == ((p + x) + q)[|p|..|p| + |x|];
      assert y == ((p + y) + q)[|p|..|p| + |y|];
    }
  }

  // ---------------------------------------------------------------- creating the links

  /**
   * The directories above a mount that `mount.parent.mkdir(parents=True)`
   * leaves in place: every non-empty prefix that a `/` of the mount ends
   * (see AncestorsHolds).
   */
  function Ancestors(m: string): set<string>
    decreases |m|
  {
    if |m| <= 1 then {}
    else
      var n := |m| - 1;
      Ancestors(m[..n]) + if m[n] == '/' then {m[..n]} else {}
  }

  /** `d` is a directory of mount `m` exactly when `m` continues `d` with a `/`. */
  lemma {:induction false} AncestorsHolds(m: string, d: string)
    ensures d in Ancestors(m) <==> 0 < |d| < |m| && m[..|d|] == d && m[|d|] == '/'
    decreases |m|
  {
    if |m| > 1 {
      var n := |m| - 1;
      AncestorsHolds(m[..n], d);
      if |d| < n {
        assert m[..n][..|d|] == m[..|d|] && m[..n][|d|] == m[|d|];
      }
    }
  }

  /** The paths that exist once a link is created at `m`: the link itself and its directories. */
  function Occupied(m: string): (r: set<string>)
    ensures m in r
  {
    {m} + Ancestors(m)
  }

  /** A mount one directory level, or more, below `q` puts `q` among its directories. */
  lemma AncestorUnder(root: string, p: string, q: string)
    requires 0 < |q| < |p| && p[..|q|] == q && p[|q|] == '/'
    ensures root + "/" + q in Ancestors(root + "/" + p)
  {
    var m := root + "/" + p;
    var d := root + "/" + q;
    assert m[..|d|] == d by {
      forall k | 0 <= k < |d|
        ensures m[k] == d[k]
      {
        if k > |root| {
          assert m[k] == p[k - |root| - 1] && d[k] == q[k - |root| - 1];
          assert p[..|q|][k - |root| - 1] == p[k - |root| - 1];
        }
      }
    }
    assert m[|d|] == p[|q|];
    AncestorsHolds(m, d);
  }

  /** The paths that exist in the farm once `links` are created. */
  function Existing(links: seq<Link>): set<string>
  {
    if |links| == 0 then {}
    else Existing(links[..|links| - 1]) + Occupied(links[|links| - 1].mount)
  }

  /** A path exists in the farm exactly when some created link occupies it. */
  lemma {:induction false} ExistingHolds(links: seq<Link>, d: string)
    ensures d in Existing(links) <==> exists j :: 0 <= j < |links| && d in Occupied(links[j].mount)
  {
    if |links| > 0 {
      var n := |links| - 1;
      ExistingHolds(links[..n], d);
      if d in Existing(links[..n]) {
        var j :| 0 <= j < n && d in Occupied(links[..n][j].mount);
        assert links[j] == links[..n][j];
      } else if exists j :: 0 <= j < |links| && d in Occupied(links[j].mount) {
        var j :| 0 <= j < |links| && d in Occupied(links[j].mount);
        assert j == n;
      }
    }
  }

  /**
   * The position of the first link whose mount already exists when its
   * turn comes, as a link or as a directory made for an earlier link, where
   * `symlink_to` raises `FileExistsError`; `None` when every link is created.
   */
  function FirstClash(links: seq<Link>): (r: Option<nat>)
    ensures r.Some? ==> r.value < |links|
  {
    if |links| == 0 then None
    else
      var n := |links| - 1;
      match FirstClash(links[..n])
      case Some(k) => Some(k)
      case None => if links[n].mount in Existing(links[..n]) then Some(n) else None
  }

  /**
   * Creation fails exactly when some link's mount is an earlier link's
   * mount or one of its directories, and it fails at the first such link:
   * no link before it meets one made earlier still.
   */
  lemma {:induction false} FirstClashSpec(links: seq<Link>)
    ensures FirstClash(links).None? <==> Creatable(links, |links|)
    ensures FirstClash(links).Some? ==>
      var k := FirstClash(links).value;
      Creatable(links, k) && exists i :: 0 <= i < k && links[k].mount in Occupied(links[i].mount)
  {
    if |links| > 0 {
      var n := |links| - 1;
      FirstClashSpec(links[..n]);
      if FirstClash(links[..n]).Some? {
        ClashInPrefix(links, n);
      } else {
        ClashAtLast(links);
      }
    }
  }

  /** Helper of FirstClashSpec: a clash inside the prefix of length `n` is a clash of the whole sequence. */
  lemma ClashInPrefix(links: seq<Link>, n: nat)
    requires n <= |links|
    requires var pre := links[..n];
      FirstClash(pre).Some? &&
      var k := FirstClash(pre).value;
      Creatable(pre, k) && exists i :: 0 <= i < k && pre[k].mount in Occupied(pre[i].mount)
    ensures var k := FirstClash(links[..n]).value;
      k < n && Creatable(links, k) && !Creatable(links, |links|) &&
      exists i :: 0 <= i < k && links[k].mount in Occupied(links[i].mount)
  {
    var pre := links[..n];
    var k := FirstClash(pre).value;
    var i :| 0 <= i < k && pre[k].mount in Occupied(pre[i].mount);
    assert pre[i] == links[i] && pre[k] == links[k];
    CreatablePrefix(links, k);
    assert pre[..k] == links[..k];
  }

  /** Helper of FirstClashSpec: past a clash-free prefix, the last link clashes exactly when its mount already exists. */
  lemma ClashAtLast(links: seq<Link>)
    requires |links| > 0
    requires var n := |links| - 1; Creatable(links[..n], n)
    ensures var n := |links| - 1;
      Creatable(links, n) &&
      (links[n].mount in Existing(links[..n]) <==> !Creatable(links, |links|)) &&
      (links[n].mount in Existing(links[..n]) ==> exists i :: 0 <= i < n && links[n].mount in Occupied(links[i].mount))
  {
    var n := |links| - 1;
    var pre := links[..n];
    CreatablePrefix(links, n);
    ExistingHolds(pre, links[n].mount);
    if links[n].mount in Existing(pre) {
      var i :| 0 <= i < n && links[n].mount in Occupied(pre[i].mount);
      assert links[i] == pre[i];
    } else {
      forall i, j | 0 <= i < j < |links|
        ensures links[j].mount !in Occupied(links[i].mount)
      {
        assert pre[i] == links[i];
        if j < n {
          assert pre[j] == links[j];
        }
      }
    }
  }

  /** No link among the first `k` lands on a path an earlier one made. */
  predicate Creatable(links: seq<Link>, k: nat)
    requires k <= |links|
  {
    forall i, j :: 0 <= i < j < k ==> links[j].mount !in Occupied(links[i].mount)
  }

  /** Whether the first `k` links can be created is a property of the prefix of length `k` alone. */
  lemma CreatablePrefix(links: seq<Link>, k: nat)
    requires k <= |links|
    ensures Creatable(links, k) <==> Creatable(links[..k], k)
  {
    assert forall i :: 0 <= i < k ==> links[..k][i] == links[i];
  }

  /** Once a prefix has a clash, the whole sequence has that clash. */
  lemma {:induction false} FirstClashPrefix(links: seq<Link>, j: nat)
    requires j <= |links| && FirstClash(links[..j]).Some?
    ensures FirstClash(links) == FirstClash(links[..j])
  {
    if j < |links| {
      var n := |links| - 1;
      assert links[..n][..j] == links[..j];
      FirstClashPrefix(links[..n], j);
    } else {
      assert links[..j] == links;
    }
  }

  /**
   * A link whose mount is a directory of an earlier link's mount cannot be
   * created: `symlink_to` finds the directory `mkdir` made.
   */
  lemma MountOnDirectoryClashes(a: Link, b: Link)
    requires b.mount in Ancestors(a.mount)
    ensures FirstClash([a, b]) == Some(1)
  {
    assert [a, b][..1] == [a];
    assert [a][..0] == [];
    assert b.mount in Existing([a]);
  }

  /** One more link: the farm gains its mount and directories, or the prefix reaches its first clash. */
  lemma CreateStep(links: seq<Link>, i: nat)
    requires i < |links|
    ensures Existing(links[..i + 1]) == Existing(links[..i]) + Occupied(links[i].mount)
    ensures FirstClash(links[..i]).None? ==>
      FirstClash(links[..i + 1]) == if links[i].mount in Existing(links[..i]) then Some(i) else None
  {
    assert links[..i + 1][..i] == links[..i];
  }

  /**
   * The `mkdir` and `symlink_to` calls of the three steps, in order, on a
   * farm that is empty at the start: each link makes the directories above
   * its mount and creates its mount, or raises when the mount already
   * exists, leaving the links created so far.
   */
  method CreateLinks(links: seq<Link>) returns (created: seq<Link>, clash: Option<nat>)
    ensures clash == FirstClash(links)
    ensures created == if clash.Some? then links[..clash.value] else links
  {
    var existing: set<string> := {};
    created := [];
    for i := 0 to |links|
      invariant created == links[..i]
      invariant existing == Existing(links[..i])
      invariant FirstClash(links[..i]).None?
    {
      CreateStep(links, i);
      if links[i].mount in existing {
        clash := Some(i);
        FirstClashPrefix(links, i + 1);
        return;
      }
      created := created + [links[i]];
      existing := existing + Occupied(links[i].mount);
    }
    clash := None;
    assert links[..|links|] == links;
  }
}
