# UP (highlands) generator core in Dafny

UP is the project generator of the highlands repository. Each `DEER` file declares
source modules (`sources(...)`) and Maven libraries (`library_jar(...)`). UP collects these
declarations in a registry and then writes the following outputs from them:

- `lib/DEFS`: one path variable per source module, plus the helper code these variables
  run on when Buck loads them.
- `lib/BUCK`: a `prebuilt_jar` and two `remote_file` targets per library. Each checksum is
  downloaded from Maven Central.
- the `.link` farm, with three sub-trees of symbolic links:
  - `.link/src` for generated sources;
  - `.link/lib` for library jars;
  - `.link/jar` for module output jars.
- the IDE descriptors:
  - one IntelliJ IDEA library file per library;
  - the IDEA module `{project}.iml`;
  - the Eclipse `.classpath`.

The project models each of these steps. It proves the following about them:

- Maven coordinates whose fields contain no colon parse and print back without loss. The one
  exception is an empty classifier segment: `g:a::v` parses, but prints back as `g:a:v`.
- The emitted `//` operator resolves module references in a fixed way, and alias
  normalisation is idempotent with the last declaration winning.
- Each generator method produces exactly what its specification function describes.
- The outputs agree with one another:
  - The IDE files reference exactly the farm's library mounts.
  - The `.link/src` entries appear exactly when that sub-tree has links.
  - The three farm sub-trees never share a mount.
  - A run aborts exactly when a checksum download fails, reporting the first one that fails.
  - Once the downloads succeed, a run stops exactly when some farm link's mount already exists,
    either as an earlier link or as a directory made for one, and it stops at the first such link.
    Two modules with the same `path` but different origins that list the same `link_output_jars`
    entry are one such case. Another is a generated-source entry `x/y:g` in one module followed
    by `x:h` in a later one.
  - For a module whose `path` is empty, its `lib/DEFS` variable names the Buck target whose
    outputs the farm links. For a non-empty `path` the two disagree (see "## Left out").

Modules, one per file:

| module | file | models |
|---|---|---|
| `Wrappers` | `wrappers.dfy` | `Option` and `Result` |
| `Text` | `text.dfy` | `str.split`, `join`, `lstrip('/')`, `replace`, `[-1]` as used by the source |
| `Define` | `define.dfy` | `MavenCoords`, `parse_maven_coords`, the `Sources`/`LibraryJar` records, and the registry globals as the class `Registry` |
| `PathGoal` | `pathgoal.dfy` | `_get_path_and_goal` and the helper code emitted into `lib/DEFS` (`_normalize_path_and_goal`, `_normalize_path_and_goal_dict`, `_GoalsPathVar`) |
| `Links` | `links.dfy` | `symlink_generated_srcs`, `symlink_lib_jars` and `symlink_output_jars` as loops producing the links they create |
| `Buck` | `buck.dfy` | `generate_libraries` (`lib/BUCK`) and `generate_defs` (`lib/DEFS`) |
| `Ide` | `ide.dfy` | `generate_idea_libraries`, the `.iml` part of `generate_idea_project`, and the `.classpath` part of `generate_eclipse_project` |
| `Pipeline` | `pipeline.dfy` | `generate` and `generate_project`, plus the properties that relate the outputs |

Conventions:

- **Paths.** Every output path is relative to the project root: `root_dir / x` is modelled as `x`.
- **Links.** A link is its mount, its target and its `target_is_directory` flag.
- **Downloads.** `read_url` is the parameter `fetch: string -> Option<string>`. `None` stands for
  the `IOError` after which the source prints a message and exits. In that case only
  `lib/DEFS` has been written, and the run ends as `Pipeline.Aborted`.
- **Link creation.** The farm is a set of existing paths. Creating a link adds its mount and every
  directory above it, because `mount.parent.mkdir(parents=True)` creates those directories.
  `symlink_to` on a mount that already exists, as a link or as a directory, raises
  `FileExistsError`. That ends the run as `Pipeline.LinkClash` with `lib/DEFS`, `lib/BUCK` and
  the links created before it.
- **Registry.** `Define.Registry` holds the module globals `current_path`,
  `definitions_sources` and `definitions_library`. Its methods are the DSL calls.
  `Pipeline.Generate` reads a snapshot of it.

## Model

| member | source | states |
|---|---|---|
| Text.SplitSpec | up/generate.py:450 | the pieces of `split(':')` contain no separator and joined with it give back the input |
| Text.SplitJoin | up/define.py:59 | splitting separator-free pieces joined by the separator returns exactly those pieces |
| Text.LStrip | up/generate.py:253 | `lstrip(c)` yields a suffix of the input that does not start with `c`, and everything removed was `c` |
| Text.LastSegmentSpec | up/generate.py:452 | `split('/')[-1]` is the separator-free tail of the input, preceded by `/` when shorter than the input |
| Text.ReplaceChar | up/define.py:41 | `replace('.', '/')` keeps the length and maps each character independently |
| Text.NonEmpty | up/define.py:34-37 | the filter `if e` keeps only non-empty pieces, each taken from the input |
| Text.NonEmptyAppend | up/define.py:34-37 | filtering a concatenation filters each part, so kept pieces stay in input order |
| Text.NonEmptySingle | up/define.py:34-37 | a single piece is kept exactly when it is non-empty; with `NonEmptyAppend` this fixes the filter on every input |
| Define.MavenCoords.Filename | up/define.py:33-37 | `filename()`: the non-empty fields among artifact, version and classifier joined by `-`; its shape is proved by `FilenameShape` and `FilenameSplitsIntoFields` |
| Define.MavenCoords.RepoPath | up/define.py:39-43 | `repo_path()`; its shape is proved by `RepoPathShape` |
| Define.MavenCoords.ToString | up/define.py:45-47 | `str()`: `g:a:c:v` with a classifier, `g:a:v` without; the round trips with the parser are proved by `DisplayParseRoundTrip` and `ParseDisplayRoundTrip` |
| Define.ParseMavenCoords | up/define.py:58-68 | parsing succeeds exactly for three or four colon-separated segments; success yields colon-free fields; failure carries the `Cannot parse maven coords: …` message |
| Define.ParseThreeSegments | up/define.py:58-63 | `g:a:v` parses to group `g`, artifact `a`, version `v`, empty classifier |
| Define.ParseFourSegments | up/define.py:64-66 | `g:a:c:v` parses with the third segment as classifier and the fourth as version |
| Define.DisplayParseRoundTrip | up/define.py:45-68 | parsing the `str()` of colon-free coordinates gives them back |
| Define.ParseDisplayRoundTrip | up/define.py:45-68 | printing parsed coordinates reproduces the input unless it had an empty classifier segment |
| Define.ParseEmptyClassifier | up/define.py:45-68 | the one lossy case: `g:a::v` parses to an empty classifier and prints back as `g:a:v` |
| Define.EmptyThirdSegment | up/define.py:64-66 | four segments with an empty third one come from `g:a::v` |
| Define.FilenameShape | up/define.py:33-37 | `filename()` is `artifact-version`, followed by `-classifier` when the classifier is set |
| Define.FilenameSplitsIntoFields | up/define.py:33-37 | for dash-free fields, not all empty, splitting `filename()` at `-` gives back the non-empty fields in order |
| Define.RepoPathShape | up/define.py:39-43 | `repo_path()` is the group with dots turned into slashes, then `/artifact/version/filename` |
| Define.Registry.constructor | up/define.py:71-73 | the registry starts with no origin path and empty declaration lists |
| Define.Registry.SetCurrentPath | up/define.py:78-80 | sets the origin path and leaves both declaration lists unchanged |
| Define.Registry.DeclareSources | up/define.py:84-89 | appends exactly one record, stamped with the current origin path; nothing else changes |
| Define.Registry.DeclareLibraryJar | up/define.py:93-99 | appends the stamped record exactly when the coordinates parse; otherwise it returns the parse error and appends nothing |
| PathGoal.GetPathAndGoal | up/generate.py:449-453 | `_get_path_and_goal`; characterised by `PathIsBeforeFirstColon`, `ExplicitGoalSplits` and `DefaultGoalIsLastSegment` |
| PathGoal.Normalize | up/generate.py:227-232 | `_normalize_path_and_goal`; characterised by `NormalizeSpec` and `NormalizeIdempotent` |
| PathGoal.NormalizeAlias | up/generate.py:234-242 | the alias table `__init__` stores; characterised by `NormalizeAliasKeys`, `NormalizeAliasWellFormed` and `NormalizeAliasLastWins` |
| PathGoal.FloorDiv | up/generate.py:244-250 | `__floordiv__`; characterised by `AliasShortCircuits`, `DefaultGoal`, `ExplicitGoal` and `FloorDivHasOneColon` |
| PathGoal.PathIsBeforeFirstColon | up/generate.py:449-453 | the path is the colon-free text before the first colon; path and goal are colon-free |
| PathGoal.ExplicitGoalSplits | up/generate.py:449-453 | with exactly one colon, `path:goal` rebuilds the input |
| PathGoal.DefaultGoalIsLastSegment | up/generate.py:449-453 | otherwise the goal is the last `/`-segment of the path |
| PathGoal.NormalizeSpec | up/generate.py:227-232 | `_normalize_path_and_goal` always yields exactly one colon and keeps a one-colon input unchanged |
| PathGoal.NormalizeIdempotent | up/generate.py:227-232 | normalising twice equals normalising once |
| PathGoal.ToTableEntries | up/generate.py:234-236 | the dict comprehension's keys are exactly the given keys, each bound to a value paired with it |
| PathGoal.ToTableLastWins | up/generate.py:234-236 | for colliding keys, the last pair in order wins |
| PathGoal.NormalizeAliasKeys | up/generate.py:234-236 | the alias table's keys are exactly the normalised alias keys |
| PathGoal.NormalizeAliasWellFormed | up/generate.py:234-242 | every key and value of the alias table has exactly one colon |
| PathGoal.NormalizeAliasLastWins | up/generate.py:234-236 | an alias whose normalised key is not repeated later maps to its normalised value |
| PathGoal.PathVarString | up/generate.py:252-253 | `str()` is `//` followed by `root + path` with all its leading slashes removed |
| PathGoal.AliasShortCircuits | up/generate.py:244-248 | an aliased reference resolves to the alias value, whatever the root and path |
| PathGoal.DefaultGoal | up/generate.py:244-250 | a colon-free reference resolves to `str(self)/ref:lastSegment` |
| PathGoal.ExplicitGoal | up/generate.py:244-250 | a one-colon reference resolves to `str(self)/ref` |
| PathGoal.FloorDivHasOneColon | up/generate.py:238-253 | for colon-free root and path, every resolved target has exactly one colon |
| PathGoal.RootVar | up/generate.py:258 | the `root` constant prints as `//` and has no aliases |
| PathGoal.RootFloorDivTripleSlash | up/generate.py:250-258 | as written, `root // 'p:g'` yields `///p:g` |
| PathGoal.FloorDivCorrected | up/generate.py:244-253 | an unaliased resolution always starts with `//` |
| PathGoal.FloorDivCorrectedAgrees | up/generate.py:244-253 | the corrected operator agrees with the written one for every variable whose `str()` is not `//`; `str()` is `//` for `root` and for any module whose `source_path + path` is empty or all slashes |
| PathGoal.CorrectedHasTwoLeadingSlashes | up/generate.py:244-253 | a corrected, unaliased resolution has exactly two leading slashes |
| PathGoal.RootFloorDivCorrected | up/generate.py:250-258 | with the correction, `root // 'p:g'` is `//p:g` |
| Links.GeneratedSrcLink | up/generate.py:159-167 | the link for one `link_generated_srcs` entry; characterised by `GeneratedSrcTargetEndsWithPath` |
| Links.OutputJarLink | up/generate.py:205-214 | the link for one `link_output_jars` entry; characterised by `OutputJarMirrorsTarget` |
| Links.LibJarLink | up/generate.py:177-187 | the link for one library artifact; characterised by `LibJarLinkTargetsRemoteOutput` and `LibJarMountsDistinct` |
| Links.SymlinkGeneratedSrcs | up/generate.py:150-168 | the loop creates exactly the generated-source links of all modules, module by module, entry by entry |
| Links.SymlinkOutputJars | up/generate.py:196-215 | the loop creates exactly the output-jar links of all modules, in declaration order |
| Links.AppendModuleLinks | up/generate.py:159-167 | the inner loop appends one link per declared entry of one module, in order |
| Links.ModuleLinksAt | up/generate.py:159-167 | the `k`-th link of a module is the link for its `k`-th entry |
| Links.TreeLinksComplete | up/generate.py:155-167 | every declared entry of every module gets its link |
| Links.TreeLinksSound | up/generate.py:155-167 | every created link is the link of some declared entry |
| Links.TreeLinksEmpty | up/generate.py:155-159 | no links are created exactly when no module declares an entry |
| Links.OutputJarMirrorsTarget | up/generate.py:205-214 | an output-jar link is a file link under `.link/jar/` whose target is `buck-out/gen/{source_path}` followed by the mount's own tail |
| Links.GeneratedSrcTargetEndsWithPath | up/generate.py:159-167 | a generated-source link is a directory link `.link/src/{path}` to `buck-out/annotation/{source_path}/{path}/__{goal}_gen__/{path}` |
| Links.SymlinkLibJars | up/generate.py:171-193 | the loop creates exactly a binary link and a sources link per library, in registry order |
| Links.LibJarLinksAt | up/generate.py:177-193 | there are `2n` links; link `2i` is library `i`'s jar and link `2i+1` its sources jar |
| Links.LibJarMountsDistinct | up/generate.py:177-187 | for distinct library names, none equal to another's name plus `-sources`, all library mounts differ |
| Links.LibJarMountClash | up/generate.py:177-187 | a library named `x-sources` takes the same mount as the sources jar of `x` |
| Links.ModuleMountClash | up/generate.py:160-211 | two modules with the same `path` claim one `.link/jar` mount and one `.link/src` mount for a shared entry, with different targets when their origins differ |
| Links.TreeLinksOrdered | up/generate.py:155-167 | every link of an earlier module is created before every link of a later one |
| Links.SharedOutputJarRepeatsMount | up/generate.py:201-214 | two such modules put two links with one mount into the output-jar sub-tree |
| Links.AncestorsHolds | up/generate.py:165-166 | the directories `mkdir(parents=True)` leaves above a mount are exactly its non-empty prefixes followed by `/` |
| Links.Occupied | up/generate.py:165-167 | a created link's mount exists afterwards; the other paths it adds are its `Ancestors`, characterised by `AncestorsHolds` |
| Links.AncestorUnder | up/generate.py:163-166 | a mount `{root}/{p}` has `{root}/{q}` among its directories when `p` continues `q` with `/` |
| Links.ExistingHolds | up/generate.py:164-214 | a path exists in the farm exactly when some created link is at it or has it as a directory |
| Links.FirstClash | up/generate.py:164-214 | the position where `symlink_to` first meets an existing path lies inside the link sequence |
| Links.FirstClashSpec | up/generate.py:164-214 | creation fails exactly when some link's mount is an earlier link's mount or one of its directories, and it fails at the first such link |
| Links.CreatablePrefix | up/generate.py:164-214 | whether the first `k` links can be created depends on those `k` links alone |
| Links.FirstClashPrefix | up/generate.py:164-214 | a clash among the first links is the clash of the whole sequence; later links change nothing |
| Links.MountOnDirectoryClashes | up/generate.py:165-167 | a link whose mount is a directory made for an earlier link cannot be created |
| Links.CreateLinks | up/generate.py:164-214 | the `mkdir`/`symlink_to` loop over a set of existing paths stops at `FirstClash` and leaves exactly the links before it |
| Buck.LibrarySha1s | up/generate.py:85-91 | one library's two checksums, or the first URL that fails; characterised by `Sha1sAt` and `Sha1sFirstFailure` |
| Buck.Sha1s | up/generate.py:79-91 | the download loop over all libraries; characterised by `Sha1sLength`, `Sha1sSucceed`, `Sha1sAt` and `Sha1sFirstFailure` |
| Buck.LibraryBlock | up/generate.py:93-117 | the text of one library's three targets; its cross-references are proved by `TargetsCrossReference` |
| Buck.LibrariesFile | up/generate.py:73-119 | `lib/BUCK`, or the first failing URL; `GenerateLibraries` is proved equal to it |
| Buck.FetchLibrarySha1s | up/generate.py:85-91 | fetches the jar checksum, then the sources checksum; the first failing URL stops the run |
| Buck.Sha1sLength | up/generate.py:79-91 | a successful download loop yields one checksum pair per library |
| Buck.Sha1sStopped | up/generate.py:64-91 | once a download fails, later libraries change nothing |
| Buck.Sha1sExtend | up/generate.py:79-91 | one loop step adds one library's pair or stops at its failure |
| Buck.LibraryBlocksExtend | up/generate.py:93-117 | one loop step appends exactly that library's three targets |
| Buck.GenerateLibraries | up/generate.py:73-119 | the loop yields the header plus each library's block, or the first failing URL |
| Buck.Sha1sSucceed | up/generate.py:64-91 | the downloads succeed exactly when every checksum URL of every library can be fetched |
| Buck.Sha1sAt | up/generate.py:85-91 | pair `i` holds library `i`'s fetched jar and sources checksums |
| Buck.Sha1sFirstFailure | up/generate.py:64-91 | a failure reports the first URL in request order that cannot be fetched |
| Buck.TargetsCrossReference | up/generate.py:93-117 | `prebuilt_jar` references both `remote_file`s by name; the `out` and `url` values follow the coordinates; the checksum URL is the artifact URL plus `.sha1` |
| Buck.LibJarLinkTargetsRemoteOutput | up/generate.py:177-181 | a library link targets `buck-out/gen/lib/{remote_file name}/{remote_file out}` |
| Buck.GenerateDefs | up/generate.py:218-273 | `lib/DEFS` is the header, the helper code, the two constants, then one variable per module |
| Buck.AppendDefsEntries | up/generate.py:261-271 | the loop appends each module's variable in registry order |
| Buck.DefsEntry | up/generate.py:267-271 | one module's `lib/DEFS` entry |
| Buck.DefsFile | up/generate.py:218-273 | `lib/DEFS`; `GenerateDefs` is proved equal to it |
| Buck.DefsVariable | up/generate.py:270 | the `_GoalsPathVar` a module's entry constructs; its behaviour is proved by `DefsVariableAtRoot` and `DefsVariableNamesLinkedTarget` |
| Buck.RootConstant | up/generate.py:256-259 | `root` is the variable with empty root, path and alias table |
| Ide.AnyGeneratedSrcsIffLinks | up/generate.py:334-336 | the `any(...)` test holds exactly when the generated-source sub-tree has links |
| Ide.GenerateIdeaLibraries | up/generate.py:284-317 | the loop writes exactly one library file per library, in registry order |
| Ide.IdeaLibraryFor | up/generate.py:295-302 | the file name, library name and two jar roots of one IDEA library; characterised by `IdeaLibraryRootsAreMounts` |
| Ide.RenderIdeaLibrary | up/generate.py:304-316 | the XML text of one IDEA library |
| Ide.IdeaLibraryFilesAt | up/generate.py:292-316 | file `i` describes library `i` |
| Ide.IdeaLibraryRootsAreMounts | up/generate.py:295-312 | the CLASSES and SOURCES roots are the library's two `.link/lib` mounts; the file is `.idea/libraries/lib_{name}.xml` |
| Ide.GenerateIdeaModule | up/generate.py:320-356 | the `.iml` text is built from the source folders and order entries collected by the loops |
| Ide.ImlSourceFoldersLayout | up/generate.py:328-338 | the source folders are the origins in order, plus generated `.link/src` exactly when that sub-tree has links |
| Ide.ImlListsEveryLibrary | up/generate.py:340-342 | the module lists every library, excluded ones too, under the name of its library file |
| Ide.ImlFile | up/generate.py:328-355 | the `.iml` text; characterised by `ImlSourceFoldersLayout` and `ImlListsEveryLibrary` |
| Ide.ClasspathFile | up/generate.py:401-429 | the `.classpath` text; characterised by `ClasspathLayout`, `LibEntriesExactlyIncluded` and `LibEntriesCount` |
| Ide.GenerateEclipseClasspath | up/generate.py:401-429 | `.classpath` holds the entries collected by the loops, in order |
| Ide.CollectSrcEntries | up/generate.py:403-404 | one source entry per origin, in registry order |
| Ide.CollectLibEntries | up/generate.py:415-421 | appends one library entry per library that is not excluded, in order |
| Ide.ClasspathLayout | up/generate.py:401-423 | order: origins, the optional `.link/src` exactly when it has links, output, JRE, libraries |
| Ide.LibEntryUsesMounts | up/generate.py:416-421 | a library entry's path and source path are its two `.link/lib` mounts |
| Ide.LibEntriesExactlyIncluded | up/generate.py:415-421 | an entry is listed exactly when it belongs to a library not marked `exclude` |
| Ide.LibEntriesCount | up/generate.py:415-421 | the number of library entries is the number of libraries not excluded |
| Pipeline.LinkFarm | up/generate.py:39-42 | the links of the three steps, in creation order; characterised by `FarmMountUnderRoot` and `FarmSubtreesDisjoint` |
| Pipeline.ProjectFor | up/generate.py:276-281 | the IDE files of `generate_project` |
| Pipeline.Run | up/generate.py:35-45 | the outcome of `generate`; characterised by `RunAbortsIffDownloadFails` and `RunStopsIffMountOccupied` |
| Pipeline.PopulateLinkFarm | up/generate.py:39-42 | the links the emptied farm receives, the three sub-trees in the order the steps run |
| Pipeline.GenerateProject | up/generate.py:276-281 | the IDE files come from one registry snapshot; the module is named after the project |
| Pipeline.Generate | up/generate.py:35-45 | runs the generators in source order; aborts with only `lib/DEFS` written when a download fails, and stops with `lib/DEFS`, `lib/BUCK` and the links so far when a mount already exists |
| Pipeline.RunAbortsIffDownloadFails | up/generate.py:35-45 | aborts exactly when some checksum download fails; reports the first failing URL in request order (all earlier libraries' downloads, and the jar's before a failing sources checksum, succeeded); `lib/DEFS` is the same in every outcome |
| Pipeline.RunStopsIffMountOccupied | up/generate.py:35-45 | the run stops at a link exactly when every checksum download succeeds and some farm link's mount is an earlier link's mount or one of its directories |
| Pipeline.RunStopsAtFirstOccupied | up/generate.py:39-42 | such a run stops at the first link whose mount already exists, with the links before it created and `lib/BUCK` written |
| Pipeline.SharedOutputJarStopsRun | up/generate.py:196-214 | two modules with the same `path`, different origins and a shared `link_output_jars` entry stop the run once the downloads succeed |
| Pipeline.NestedGeneratedSrcStopsRun | up/generate.py:155-167 | a generated-source path lying below a later module's generated-source path stops the run once the downloads succeed (`x/y:g`, then `x:h`) |
| Pipeline.GeneratedSrcMountsUnderRoot | up/generate.py:150-164 | every generated-source mount lies under `.link/src/` |
| Pipeline.OutputJarMountsUnderRoot | up/generate.py:196-211 | every output-jar mount lies under `.link/jar/` |
| Pipeline.LibJarMountsUnderRoot | up/generate.py:171-184 | every library mount lies under `.link/lib/` |
| Pipeline.FarmMountUnderRoot | up/generate.py:39-42 | each farm position's mount lies under the root of its sub-tree |
| Pipeline.FarmSubtreesDisjoint | up/generate.py:39-42 | links from different sub-trees never share a mount |
| Pipeline.IdeReferencesFarmLinks | up/generate.py:301-312 | library `i`'s IDEA roots and `.classpath` entry are the mounts of farm links `2i` and `2i+1` of the library sub-tree |
| Pipeline.ClasspathLibrariesAreFarmLinks | up/generate.py:415-421 | every `.classpath` library entry belongs to a non-excluded library whose two links are in the farm |
| Pipeline.LibJarLinksInFarm | up/generate.py:190-193 | both jar links of every library are in the farm |
| Pipeline.ModulePathAndGoalAtRoot | up/generate.py:160 | for a module with empty `path`, a reference is resolved exactly as written |
| Pipeline.DefsVariableAtRoot | up/generate.py:252-253 | for an empty `path`, the module's `lib/DEFS` variable prints as `//{source_path}` |
| Pipeline.UnaliasedFloorDiv | up/generate.py:244-250 | an unaliased reference resolves to `{variable}/{path}:{goal}` |
| Pipeline.DefsVariableNamesLinkedTarget | up/generate.py:244-270 | through the `lib/DEFS` variable, a reference names `//{source_path}/{p}:{g}`, and the farm links exactly that target's jar and annotation output |
| Pipeline.OutputJarAtRoot | up/generate.py:205-209 | for an empty `path`, the output-jar target is `buck-out/gen/{source_path}/{p}/{g}.jar` |
| Pipeline.GeneratedSrcAtRoot | up/generate.py:159-162 | for an empty `path`, the generated-source target is the annotation output of `{p}:{g}` |

## Left out

- Filesystem effects are left out: `write_text`, `mkdir`, `symlink_to`, `rmtree`, `exists`.
  - Each generator returns the text or the links it would write.
  - The farm and `.idea/libraries` are modelled as emptied before they are rebuilt.
  - Link creation never dereferences a target, so the model never needs targets to exist.
- All `print` output is left out, including `print_banner`, `print_final` and the per-entry progress lines.
- `generate_defs` calls `iterdir` on every module directory (lines 264-265) only to print. A missing directory raises there; that failure is not modelled.
- `prepare_link_folder` writes `.link/readme.md`. That text is not modelled; only the emptying of the farm is.
- Fixed boilerplate files are not modelled: `.idea/modules.xml`, `.idea/misc.xml` and the Eclipse `.project`. They are templates whose only variable is the project name.
- The commented-out `.factorypath` block is not modelled.
- `read_url` is the `fetch` parameter. It covers the network, the UTF-8 decoding and the `strip()`; the value it returns stands for the stripped body.
- `up/__main__.py` is not part of this model. It copies and executes the `DEER` files and calls `set_current_path` before each one.
- `pathlib` normalisation of joined paths (`root_dir / f'...'`) is not modelled. Paths are plain strings relative to the project root.
- Python `repr` of `deps` lists and `alias` dicts uses plain single quotes, with no escaping of quotes or backslashes inside names.
- `alias` is a sequence of pairs, so one declaration may repeat a key.
  - `Buck.PyDict` then prints both pairs, where Python's dict `repr` prints the key once with its last value.
  - The emitted `_normalize_path_and_goal_dict` runs on Python 2 (`iteritems`), where dict order is not insertion order.
  - When two aliases normalise to the same key, the model lets the later pair win.
- Links.LibJarMountsDistinct: proved only for distinct library names, none equal to another's name plus `-sources`. The source checks neither. On duplicate names, or on such a name, the run stops at the repeated mount (`Pipeline.RunStopsIffMountOccupied`).
- A clash is a mount that already exists, as an earlier link or as a directory made for one. These other failures are not modelled:
  - a mount below an earlier directory link, where `mount.parent.exists()` follows that link;
  - `mkdir` failing because a parent is a file link;
  - two different strings that `pathlib` turns into one path.
- `library_jar` raises on coordinates that do not parse. The exception ends the whole run before
  `generate` starts; `Define.Registry.DeclareLibraryJar` returns the error with the registry
  unchanged, and what happens to the run after it is not modelled.
- Pipeline.DefsVariableNamesLinkedTarget: stated only for a module whose `path` is empty and whose `source_path` is non-empty and does not start with `/`, and for a reference that no alias captures and that does not start with `/`.
  - The link steps join `path` and the reference with `/` before stripping.
  - The `lib/DEFS` variable concatenates `root + path` with no separator.
  - The two therefore agree only when `path` is empty or starts with `/`.
  - For example, `source_path = 'app'` and `path = 'src'` give a variable that prints as `//appsrc`, while the links point into `buck-out/gen/app/src/`.
  - A reference with a leading `/` disagrees even for an empty `path`. With `source_path = 'app'` and `link_output_jars = ['/src:main']`, the links strip the slash and target `buck-out/gen/app/src/main.jar`, while the variable gives `//app//src:main`.
- `generate` writes `lib/DEFS` before `lib/BUCK`; the model keeps that order.
- `.link/lib` leaf names are the library name alone. No group prefix is added when two leaf names collide.
- The IDEA module lists every library; `exclude` filters only `.classpath`.

## Findings

| source | as written | input that shows it | evidently intended | confidence | as-written member | corrected member |
|---|---|---|---|---|---|---|
| up/generate.py:250-258 | `__floordiv__` returns `str(self) + '/' + suffix`, and `str(root)` is already `//` | `root // 'lib:guava'` gives `///lib:guava` | `//lib:guava`, a valid Buck target in the root cell | medium, not executed | PathGoal.RootFloorDivTripleSlash | PathGoal.FloorDivCorrected |

`PathGoal.RootFloorDivCorrected` proves the intended result for `root`. `PathGoal.FloorDivCorrectedAgrees` shows that the correction changes nothing for any variable whose `str()` is not `//`. That is why the module-level properties in `Pipeline` can be stated on the operator as written.
