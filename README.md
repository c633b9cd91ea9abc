# A verified model of the xeus-python Conan recipe

`conanfile.py` is a Conan 1.x recipe that fetches xeus-python (a Jupyter
kernel for Python), patches its CMake project, builds Debug and Release in one
multi-configuration build folder, and packages the result. Most of the recipe
drives git, CMake, brew and Conan's copy helpers. This project models the
decision rules underneath that plumbing, on abstract values instead of a real
disk, and proves what they do:

- `Toolchain` models `_get_tc`. It picks a CMake generator for the platform
  and fills the toolchain's cache variables one key at a time. A missing
  dependency raises. `GetTc` mirrors the recipe statement by statement and
  is proved equal to the reference function `Toolchain`.
- `Patching` models the patch step of `source`: six strict
  `tools.replace_in_file` calls on xeus-python's `CMakeLists.txt`, then an
  appended install command.
  - `ReplaceAll` is Python's `str.replace`.
  - `CMakeLists` is the file, rewritten in place.
- `Packaging` models `package` and `_pkg_bin`. The package folder
  (`PackageFolder`) holds a map from each file to the path it was copied
  from, plus a set of directories.
  - `Copy` is one call of Conan's `self.copy`.
  - `Cleanup` is the loop that unlinks loose files in `lib/`.
  - `Valid` (the predicate `Closed`) keeps the folder a tree: every folder
    leading to a file or a directory is a directory. The constructor
    establishes it, and every method keeps it.
  - The functions `CopyFiles`, `PkgBinFiles`, `HeaderFiles` and
    `CleanLib` describe the resulting folder. Lemmas relate them to the
    routing rule `Route`, which sends a file name by its extension.
- `BuildDriver` models `build`. Each CMake invocation is abstracted to one of
  three outcomes: success, a Conan exception, or any other failure. The
  model covers the order of the calls and which failures end the step.
- `Paths` holds posix path helpers: basename, join, ancestors and direct
  children. `Wrappers` holds `Option` and `Result`.

Cache variables are keyed by the enumeration `Toolchain.Var`, not by their
names. `Toolchain.Name` gives each variable its CMake spelling, and
`NamesDistinct` proves the spellings distinct. A map keyed by `Var` is
therefore the recipe's dictionary keyed by name.

The model follows the code as written:

- `_get_tc` looks up `xeus`, `xeus-zmq`, `pybind11` and `pybind11_json` one
  after another. The first missing one raises, so the error names that
  dependency only, not every missing one.
- In `build`, only a Conan exception from `configure` is caught. A failed
  Debug build or install propagates and stops Release from being built.
- `replace_in_file` is strict: a missing pattern raises and leaves the
  patches before it applied.
- Running `source` a second time on an already patched `CMakeLists.txt`
  fails loudly at the first patch: its old version requirement is gone,
  and no later replacement and not the install text bring it back. So a
  second run never patches a file twice (`RerunStopsAtFirstPatch`).

## Model

| member | source | states |
|---|---|---|
| `Toolchain.GetTc` | conanfile.py:96-143 | Filling the variables key by key, with the Linux- and Macos-only keys in between and each dependency looked up where the recipe looks it up, gives exactly the reference toolchain, error included |
| `Toolchain.Toolchain` | conanfile.py:96-143 | The reference toolchain: it is produced iff all four dependency roots are supplied; otherwise the error names a looked-up dependency that is missing |
| `Toolchain.Generator` | conanfile.py:96-103 | A generator is chosen iff the OS is Macos or Linux, and it is then Xcode or Ninja Multi-Config |
| `Toolchain.StoredInOrder` | conanfile.py:104-142 | The recipe's sequence of dictionary stores leaves exactly the keys enabled on the platform, each holding its reference value |
| `Toolchain.GeneratorPerPlatform` | conanfile.py:96-103 | The generator is Xcode iff the OS is Macos, Ninja Multi-Config iff Linux, and left to `CMakeToolchain`'s default (chosen from the compiler settings) iff neither |
| `Toolchain.TogglesOnOff` | conanfile.py:104-105 | `BUILD_TESTING` is ON iff `testing` and `BUILD_SHARED_LIBS` is ON iff `shared`; otherwise each is OFF |
| `Toolchain.TogglesIndependent` | conanfile.py:104-105 | Changing `testing`/`shared` changes only those two keys: same outcome, same generator, every other variable unchanged |
| `Toolchain.VariableKeysPerPlatform` | conanfile.py:104-142 | The key set is the common keys, plus `CMAKE_CONFIGURATION_TYPES` exactly on Linux and `OpenMP_ROOT` exactly on Macos |
| `Toolchain.PlatformOnlyVariables` | conanfile.py:109-117 | `CMAKE_CONFIGURATION_TYPES` is present iff Linux, with value `Debug;Release;RelWithDebInfo`; `OpenMP_ROOT` is present iff Macos, with the libomp prefix as value |
| `Toolchain.DependencyRootsForwarded` | conanfile.py:121-138 | Each dependency's root is forwarded under its own key, and `ZeroMQ_ROOT` is the xeus-zmq root joined with `CMake` |
| `Toolchain.MissingDependencyFails` | conanfile.py:121-138 | No toolchain iff some required dependency is missing; the error names the first missing one in lookup order, and all before it are present |
| `Toolchain.FirstMissing` | conanfile.py:121-137 | The reported name is one of those looked up and is missing; nothing is reported iff all are present |
| `Toolchain.FirstMissingRequired` | conanfile.py:121-137 | The four lookups in the recipe's order: xeus, xeus-zmq, pybind11, pybind11_json |
| `Toolchain.NamesDistinct` | conanfile.py:104-142 | Distinct cache variables have distinct CMake names |
| `Paths.JoinPath` | conanfile.py:127 | `Path(a, b)` ends with `b`, and is `a/b` when `a` is non-empty and has no trailing separator |
| `Patching.ReplaceAll` | conanfile.py:59-65 | `str.replace` as `replace_in_file` uses it: a non-empty pattern that does not occur leaves the text unchanged |
| `Patching.ContainsIffOccurs` | conanfile.py:59-65 | The presence test of `replace_in_file` (`find`) holds iff some suffix of the text starts with the pattern |
| `Patching.ApplyPatches` | conanfile.py:59-65 | The strict calls in order: with no raise the text is every replacement applied in turn; a raise reports the index of a patch of the list |
| `Patching.ReplaceAllSplits` | conanfile.py:59-65 | `replace_in_file` replaces every occurrence: the text is its pattern-free pieces joined by the pattern, and the result is the same pieces joined by the replacement |
| `Patching.SplitJoin` | conanfile.py:59-65 | Joining the pieces with the pattern gives back the text |
| `Patching.SplitReplace` | conanfile.py:59-65 | Joining the pieces with the replacement gives the replaced text |
| `Patching.SplitPiecesClean` | conanfile.py:59-65 | No piece between occurrences contains the pattern |
| `Patching.ReplaceKeepsPattern` | conanfile.py:61-63 | A replacement that begins with its own pattern leaves the pattern present |
| `Patching.ReplaceGrows` | conanfile.py:61-63 | Replacing with a text at least as long never shrinks the text, and grows it when a longer replacement has something to replace |
| `Patching.SelfExtendingReplaceNotIdempotent` | conanfile.py:61-63 | A replacement that extends its pattern changes its own output again |
| `Patching.DestinationPatchesNotIdempotent` | conanfile.py:61-63 | Each DESTINATION patch appends `/$<CONFIG>` to its search text, so a second application changes the file again |
| `Patching.ApplyPatchesStopsAtFirstMissing` | conanfile.py:59-65 | Strict patching either applies every patch in order, or stops at the first pattern missing from the text patched so far, with the earlier patches applied |
| `Patching.ReplaceCreatesNoOccurrence` | conanfile.py:59-65 | Replacing with a text apart from `q` (no overlap in either direction) cannot create an occurrence of `q` |
| `Patching.ReplaceRemoves` | conanfile.py:59 | A replacement apart from its own pattern leaves no occurrence of the pattern |
| `Patching.AppendCreatesNoOccurrence` | conanfile.py:78-79 | Appending a text apart from `q` to a text without `q` creates no `q` |
| `Patching.PatchesApartFromMinimumVersion` | conanfile.py:59-77 | Every replacement of `source`, and the install text, is apart from the old requirement `cmake_minimum_required(VERSION 3.4.3)` |
| `Patching.RerunStopsAtFirstPatch` | conanfile.py:58-79 | Running the patches again on the result of `source` (install text included) raises at the first patch and leaves the text as it is; the same holds after a run that raised at a later patch |
| `Patching.CMakeLists.ReplaceInFile` | conanfile.py:59-65 | One strict call: it reports whether the pattern was present, replaces every occurrence if so, and leaves the file unchanged otherwise |
| `Patching.CMakeLists.Append` | conanfile.py:78-79 | The install text is appended at the end of the file |
| `Patching.CMakeLists.ReplaceEachInFile` | conanfile.py:59-65 | The calls in order, stopped by the first raise, leave the text and report the index that raised as the reference run does |
| `Patching.CMakeLists.Source` | conanfile.py:58-79 | The six patches, then the install text appended only when none of them raised |
| `Paths.Basename` | conanfile.py:229-234 | The name a flattening copy keeps has no separator and is no longer than the path |
| `Paths.BasenameIsLast` | conanfile.py:229-234 | The basename is a suffix of the path that is preceded by a separator or is the whole path |
| `Paths.SuffixOnBasename` | conanfile.py:229-234 | A `*.ext` glob matches a relative path exactly when it matches its basename |
| `Paths.BasenameOfChild` | conanfile.py:229-234 | A file flattened into a folder keeps its name |
| `Packaging.CopyFiles` | conanfile.py:229-234 | One `self.copy`: every file stays, only entries under `dst` gain or change contents, and a pattern matching no walked file changes nothing |
| `Packaging.Matches` | conanfile.py:229-234 | The glob `*<suffix>` holds iff the path is some text followed by the suffix |
| `Packaging.CopyDirs` | conanfile.py:229-234 | One `self.copy` only adds directories, and none when the pattern matches no walked file. The new ones are `dst` and the folders leading to it, plus, with `keep_path=True`, folders below `dst` |
| `Packaging.CopyKeepsClosed` | conanfile.py:229-234 | A copy keeps the package folder a tree: every folder leading to a file or directory is a directory |
| `Packaging.Route` | conanfile.py:229-241 | Artifacts are routed only to `bin/<build_type>` or `lib/<build_type>`, and a `.pdb` is routed iff debug symbols are wanted |
| `Packaging.DebugSymbols` | conanfile.py:236-238 | `.pdb` files are wanted only with Visual Studio, and never for Release or MinSizeRel |
| `Packaging.PkgBinDirs` | conanfile.py:229-241 | `_pkg_bin` only adds directories: `bin/<build_type>`, `lib/<build_type>` and the folders leading to them |
| `Packaging.PkgBinFiles` | conanfile.py:224-241 | `_pkg_bin` keeps every file, and changes or adds entries only under `bin/<build_type>` and `lib/<build_type>` |
| `Packaging.HeaderDirs` | conanfile.py:250-251 | The header copies only add directories: `include` and folders below it |
| `Packaging.HeaderFiles` | conanfile.py:250-251 | The header copies keep every file, and change or add entries only under `include` |
| `Packaging.CleanLib` | conanfile.py:246-248 | The cleanup keeps only unchanged files not directly in `lib/`, and keeps every file outside `lib/` |
| `Packaging.PackagedDirs` | conanfile.py:243-253 | `package` only adds directories: `include` and folders below it, and `bin/<build_type>`, `lib/<build_type>` and the folders leading to them |
| `Packaging.PackagedFiles` | conanfile.py:243-253 | `package` keeps every file not directly in `lib/`, and changes or adds entries only under `include`, `bin/<build_type>` and `lib/<build_type>` |
| `Packaging.Origin` | conanfile.py:229-234 | The file found for a destination is a matching file that copies onto it; when none is found, no matching file copies onto it (that it is the last such file is `OriginIsLast`) |
| `Packaging.OriginIsLast` | conanfile.py:229-234 | The file found for a destination is the last walked file that matches and copies onto it, as each later copy overwrites the earlier one |
| `Packaging.LastNamed` | conanfile.py:229-234 | The file found for a name is a walked file with that name and no later walked file has that name; when none is found, no walked file has it |
| `Packaging.CopyFilesAt` | conanfile.py:229-234 | After one copy, an entry holds the copy of its last source file if it has one, and is otherwise untouched |
| `Packaging.CopyDirsAt` | conanfile.py:229-234 | After one copy, the directories are the old ones plus the folders leading to each copied destination |
| `Packaging.FlatOrigin` | conanfile.py:229-234 | With `keep_path=False`, a destination directly in `dst` receives the last walked file with its name, if that name matches |
| `Packaging.KeptOrigin` | conanfile.py:250-251 | With `keep_path=True`, `dst/<rel>` receives the copy of `rel` exactly when `rel` was walked and matches |
| `Packaging.FlatCopyAt` | conanfile.py:229-234 | One flattening copy, entry by entry |
| `Packaging.CopyTwoAt` | conanfile.py:229-234 | Two consecutive flattening copies into one folder, entry by entry |
| `Packaging.BinCopiesAt` | conanfile.py:229-230 | `.exe` and `.dll` files land in `bin/<build_type>/<basename>` |
| `Packaging.LibCopiesAt` | conanfile.py:231-241 | `.so`, `.dylib`, `.a`, `.lib`, and `.pdb` when debug symbols are wanted, land in `lib/<build_type>/<basename>` |
| `Packaging.BinLibDisjoint` | conanfile.py:229-234 | No name is both an executable or DLL and a library |
| `Packaging.BinLibApart` | conanfile.py:226-227 | `bin/<build_type>/...` and `lib/<build_type>/...` never coincide |
| `Packaging.PkgBinRouting` | conanfile.py:224-241 | After `_pkg_bin`, an entry receives a file iff some walked file with its name is routed by `Route` to the folder it sits in. It then holds the last such file from `<build_folder>/<build_type>`. Every other entry is unchanged |
| `Packaging.PkgBinPlacesEachArtifact` | conanfile.py:224-241 | Every walked artifact that `Route` sends somewhere is present there under its basename, as a copy of a walked file of that name |
| `Packaging.PdbOnlyWithDebugSymbols` | conanfile.py:236-241 | A walked `.pdb` reaches `lib/<build_type>` iff the build type is Debug or RelWithDebInfo and the compiler is Visual Studio |
| `Packaging.HeaderRouting` | conanfile.py:250-251 | Every `.h`/`.hpp` under `xeus-python/src/cpp` lands at the same relative path under `include`, as a copy of it, and nothing else changes |
| `Packaging.CleanLibExact` | conanfile.py:246-248 | The cleanup removes exactly the files directly in `lib/`; files deeper down or elsewhere keep their contents |
| `Packaging.CleanLibIdempotent` | conanfile.py:246-248 | Cleaning twice is cleaning once |
| `Packaging.RoutedNotInLib` | conanfile.py:226-227 | A routed artifact never lands directly in `lib/` |
| `Packaging.IncludedNotInLib` | conanfile.py:250-251 | Headers never land directly in `lib/` |
| `Packaging.PackagedLibHasNoLooseFiles` | conanfile.py:243-253 | After `package`, no file sits directly in `lib/` |
| `Packaging.PackagedKeepsInstalledAndHeaders` | conanfile.py:243-253 | Outside `bin/<build_type>` and `lib/<build_type>` (for example the other build type's installed `lib/Debug/libx.so`), and inside them for names `Route` sends nowhere, `package` keeps every installed file not directly in `lib/` and adds every header, nothing more |
| `Packaging.PackageFolder.Copy` | conanfile.py:229-234 | One `self.copy` over the walked files in order updates files and directories as `CopyFiles`/`CopyDirs` describe, and keeps the folder a tree |
| `Packaging.PackageFolder.PkgBin` | conanfile.py:224-241 | The copy calls of `_pkg_bin`, the `.pdb` one conditional, give `PkgBinFiles`/`PkgBinDirs` |
| `Packaging.PackageFolder.CopyHeaders` | conanfile.py:250-251 | The two header copies give `HeaderFiles`/`HeaderDirs` |
| `Packaging.PackageFolder.Cleanup` | conanfile.py:246-248 | Listing a missing `lib/` raises and changes nothing; since the folder is a tree, no file then lies below `lib/`. Otherwise, in any listing order, it unlinks exactly the regular files directly in `lib/` and keeps every directory |
| `Packaging.PackageFolder.Package` | conanfile.py:243-253 | Cleanup, then headers, then `_pkg_bin`: the folder `PackagedFiles`/`PackagedDirs` describe, or unchanged when the cleanup raises |
| `BuildDriver.Escapes` | conanfile.py:189-211 | Only a failure escapes; a non-Conan failure always does, and a `configure` escapes iff it fails otherwise than with a Conan exception, and a `build` or `install` escapes iff it fails |
| `BuildDriver.Run` | conanfile.py:196-211 | The calls made are a non-empty prefix of the schedule, all of it when nothing escapes, with the escaping call last |
| `BuildDriver.FirstEscape` | conanfile.py:196-211 | The first call whose failure escapes `build`, with every call before it not escaping; none iff no call escapes |
| `BuildDriver.ConfigureCMake` | conanfile.py:184-194 | A Conan exception from `configure` is swallowed, and any other failure escapes |
| `BuildDriver.Invoke` | conanfile.py:205-211 | Any failure of `cmake.build` or `cmake.install` escapes |
| `BuildDriver.Build` | conanfile.py:196-211 | The calls made and the escaping call are the reference run's: the schedule up to the first escaping failure |
| `BuildDriver.DebugBeforeRelease` | conanfile.py:203-211 | Every Debug call comes before every Release call, and Release is built only after Debug was built and installed |
| `BuildDriver.ConfigureFailuresSwallowed` | conanfile.py:189-192 | When only `configure` calls fail, and only with Conan exceptions, every call of the schedule is made and nothing escapes |
| `BuildDriver.BuildStopsAtFirstEscape` | conanfile.py:196-211 | The build completes iff no failure escapes; otherwise it stops right after the first escaping call, with every call before it made |

## Left out

- `git clone` and `git checkout` in `source` (conanfile.py:48-56): they are external processes using the network, and their errors are only printed.
- The `brew --prefix libomp` subprocess (conanfile.py:113-116): its output is the opaque input `Request.libompPrefix`.
- `system_requirements` (conanfile.py:155-161): shell commands only.
- CMakeDeps/CMakeToolchain `generate`, and what CMake's `configure`, `build` and `install` do (conanfile.py:163-211): they are foreign tools. Only their order and whether each failure escapes are modelled.
- The text appended to `conan_toolchain.cmake` (conanfile.py:171-182): file I/O, and it uses dependencies that `_get_tc` does not look up.
- `_save_git_path`, `_save_package_id` and `_merge_packages` (conanfile.py:14-15, 256-258): they come from the `bundleutils` python_requires, which is not part of this model. So how the Debug package (`_merge_from`) merges into the Release one (`_merge_to`) is not modelled.
- `package_info`, `configure` (conanfile.py:145-153: it forces `zeromq` to be shared and, because the `layout` method header at conanfile.py:149 is commented out, also assigns `self.cpp.package.libdirs = ["lib"]` and `self.cpp.package.bindirs = ["bin"]`), `init` and every `print`: they have no behaviour to state beyond an assignment or logging.
- `Path(...)` normalisation: build folder, dependency roots and libomp prefix are taken as normalised absolute posix paths. `pathlib` drops `.` components, so `Path(".", "CMake")` is `CMake` while `JoinPath(".", "CMake")` is `./CMake`; `JoinPath` agrees with `pathlib` only on normalised roots.
- Glob semantics beyond `*<suffix>`, and case-insensitive matching: a pattern is a case-sensitive suffix test. Conan 1.x's `self.copy` defaults to `ignore_case=True` and lower-cases both the pattern and the file names on every OS, so the recipe copies `XPYTHON.EXE` or `foo.DLL`, but `Matches` and `Route` do not.
- Symbolic links, file contents and timestamps: a packaged file is represented by the path it was copied from.
- Copying a file onto a path that is an existing directory: `shutil.copy2` then writes the file inside it, as `<dst>/<name>/<name>`. The model writes the file entry at `<dst>/<name>` instead, so a file and a directory with the same path may coexist. `Closed` states only that every folder leading to a file or directory is a directory, not that files and directories are disjoint.
- Line endings of the appended install text: `open(..., "a")` in text mode writes `\n` as `\r\n` on Windows. The model appends `InstallText` as written.
- Encoding in `replace_in_file`: it decodes the file, then writes it back as UTF-8, which drops a byte-order mark. The model treats the file as a string of characters without an encoding.
- Patching.CMakeLists.ReplaceEachInFile: the six `replace_in_file` calls of `source` are written as one loop over the patch list in source order, not as six separate statements.
- Patching.DestinationPatchesNotIdempotent: proves only that a second application changes the text. It does not prove the text then holds `/$<CONFIG>/$<CONFIG>`.
- Packaging.PkgBinPlacesEachArtifact: names the winning origin only as some walked file with that basename. `PkgBinRouting` pins it to the last one in walk order.
