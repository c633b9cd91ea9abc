/** The `package` step of the recipe: the cleanup of loose files in `lib/`,
    the header copies and `_pkg_bin`, the per-build-type copy of binaries and
    libraries. The package folder is abstracted to the files it holds (each
    mapped to the path it was copied from) and the directories it holds, all
    named by posix paths relative to the package folder. */
module Packaging {
  import opened Wrappers
  import opened Paths

  /** `os.path.join(dst, name)` for a relative destination folder. */
  function Under(dst: string, name: string): string {
    dst + "/" + name
  }

  /** `k` lies somewhere below folder `dst`. */
  predicate IsUnder(k: string, dst: string) {
    |dst| + 1 <= |k| && k[..|dst| + 1] == dst + "/"
  }

  /** The part of `k` below folder `dst`. */
  function Rest(k: string, dst: string): string
    requires IsUnder(k, dst)
  {
    k[|dst| + 1..]
  }

  lemma UnderIsUnder(dst: string, name: string)
    ensures IsUnder(Under(dst, name), dst)
  {
    assert Under(dst, name)[..|dst| + 1] == dst + "/";
  }

  /** A folder that a path lies below leads to it. */
  lemma FolderOfUnder(k: string, dst: string)
    requires dst != [] && IsUnder(k, dst)
    ensures dst in Ancestors(k)
  {
    assert k[|dst|] == '/' && k[..|dst|] == dst;
  }

  lemma UnderRest(k: string, dst: string)
    requires IsUnder(k, dst)
    ensures k == Under(dst, Rest(k, dst))
  {
  }

  /** Where Conan's `copy` puts the file found at relative path `rel`:
      the whole relative path with `keep_path=True`, only its basename otherwise. */
  function Dest(rel: string, dst: string, keepPath: bool): string {
    Under(dst, if keepPath then rel else Basename(rel))
  }

  /** The glob `*<suffix>` on a relative path: any text, then `suffix`.
      Since `*` also matches `/`, the glob is a suffix test. */
  function Matches(rel: string, suffix: string): (m: bool)
    ensures m <==> exists t :: rel == t + suffix
  {
    if EndsWith(rel, suffix) then
      assert rel == rel[..|rel| - |suffix|] + suffix;
      true
    else
      assert forall t :: rel == t + suffix ==> rel[|t|..] == suffix;
      false
  }

  /** `d` is folder `dst` itself or one of the folders leading to it. */
  predicate Leading(d: string, dst: string) {
    d == dst || d in Ancestors(dst)
  }

  /** The folders leading to a path below `dst` are those leading to `dst`
      and those below it; none below it when the rest is a plain name. */
  lemma AncestorsOfUnder(dst: string, x: string)
    requires dst != []
    ensures forall d :: d in Ancestors(Under(dst, x)) ==> Leading(d, dst) || (IsUnder(d, dst) && '/' in x)
  {
    var p := Under(dst, x);
    forall d | d in Ancestors(p)
      ensures Leading(d, dst) || (IsUnder(d, dst) && '/' in x)
    {
      var i :| 0 < i < |p| && p[i] == '/' && d == p[..i];
      if i < |dst| {
        assert dst[i] == '/' && d == dst[..i];
      } else if i > |dst| {
        assert d[..|dst| + 1] == dst + "/";
        assert x[i - |dst| - 1] == p[i];
      }
    }
  }

  // ---------------------------------------------------------------------------
  // One `self.copy(pattern, src, dst, keep_path)` call

  /** The files after copying, in walk order `rels`, every file of `src`
      that matches the pattern: a later file overwrites an earlier one that
      lands on the same destination. */
  function CopyFiles(files: map<string, string>, src: string, rels: seq<string>,
                     suffix: string, dst: string, keepPath: bool): (out: map<string, string>)
    ensures files.Keys <= out.Keys
    ensures forall k :: k in out && !(k in files && out[k] == files[k]) ==> IsUnder(k, dst)
    ensures (forall rel :: rel in rels ==> !Matches(rel, suffix)) ==> out == files
    decreases |rels|
  {
    if rels == [] then files
    else
      var before := CopyFiles(files, src, rels[..|rels| - 1], suffix, dst, keepPath);
      var rel := rels[|rels| - 1];
      assert rels == rels[..|rels| - 1] + [rel];
      if Matches(rel, suffix) then
        UnderIsUnder(dst, if keepPath then rel else Basename(rel));
        before[Dest(rel, dst, keepPath) := Under(src, rel)]
      else before
  }

  /** The directories after the same copy: the folders leading to every
      destination are created. */
  function CopyDirs(dirs: set<string>, rels: seq<string>, suffix: string,
                    dst: string, keepPath: bool): (out: set<string>)
    ensures dirs <= out
    ensures (forall rel :: rel in rels ==> !Matches(rel, suffix)) ==> out == dirs
    ensures dst != [] ==> forall d :: d in out && d !in dirs ==> Leading(d, dst) || (keepPath && IsUnder(d, dst))
    decreases |rels|
  {
    if rels == [] then dirs
    else
      var before := CopyDirs(dirs, rels[..|rels| - 1], suffix, dst, keepPath);
      var rel := rels[|rels| - 1];
      assert rels == rels[..|rels| - 1] + [rel];
      if Matches(rel, suffix) then
        if dst != [] then
          AncestorsOfUnder(dst, if keepPath then rel else Basename(rel));
          before + Ancestors(Dest(rel, dst, keepPath))
        else before + Ancestors(Dest(rel, dst, keepPath))
      else before
  }

  /** The file whose copy ends up at `k`: the last matching one in walk
      order whose destination is `k`. */
  function Origin(rels: seq<string>, suffix: string, dst: string, keepPath: bool,
                  k: string): (r: Option<string>)
    ensures r.Some? ==> r.value in rels && Matches(r.value, suffix) && Dest(r.value, dst, keepPath) == k
    ensures r.None? ==> forall x :: x in rels && Matches(x, suffix) ==> Dest(x, dst, keepPath) != k
    decreases |rels|
  {
    if rels == [] then None
    else
      var rel := rels[|rels| - 1];
      assert rels == rels[..|rels| - 1] + [rel];
      if Matches(rel, suffix) && Dest(rel, dst, keepPath) == k then Some(rel)
      else Origin(rels[..|rels| - 1], suffix, dst, keepPath, k)
  }

  /** No walked file after position `i` matches and copies onto `k`. */
  predicate NoLaterLanding(rels: seq<string>, i: nat, suffix: string, dst: string, keepPath: bool, k: string) {
    forall j :: i < j < |rels| ==> !(Matches(rels[j], suffix) && Dest(rels[j], dst, keepPath) == k)
  }

  /** Appending a file that does not land on `k` keeps `NoLaterLanding`. */
  lemma NoLaterLandingSnoc(init: seq<string>, rel: string, i: nat, suffix: string, dst: string, keepPath: bool, k: string)
    requires NoLaterLanding(init, i, suffix, dst, keepPath, k)
    requires !(Matches(rel, suffix) && Dest(rel, dst, keepPath) == k)
    ensures NoLaterLanding(init + [rel], i, suffix, dst, keepPath, k)
  {
    var rels := init + [rel];
    forall j | i < j < |rels|
      ensures !(Matches(rels[j], suffix) && Dest(rels[j], dst, keepPath) == k)
    {
      if j < |init| {
        assert rels[j] == init[j];
      }
    }
  }

  /** The file `Origin` finds is the last one in walk order that lands on `k`:
      no later walked file both matches and copies onto `k`. */
  lemma {:induction false} OriginIsLast(rels: seq<string>, suffix: string, dst: string, keepPath: bool, k: string)
    requires Origin(rels, suffix, dst, keepPath, k).Some?
    ensures exists i ::
      0 <= i < |rels| && rels[i] == Origin(rels, suffix, dst, keepPath, k).value && NoLaterLanding(rels, i, suffix, dst, keepPath, k)
    decreases |rels|
  {
    var o := Origin(rels, suffix, dst, keepPath, k);
    var init := rels[..|rels| - 1];
    var rel := rels[|rels| - 1];
    assert rels == init + [rel];
    if Matches(rel, suffix) && Dest(rel, dst, keepPath) == k {
      assert o == Some(rel);
      assert rels[|rels| - 1] == o.value && NoLaterLanding(rels, |rels| - 1, suffix, dst, keepPath, k);
    } else {
      assert o == Origin(init, suffix, dst, keepPath, k);
      OriginIsLast(init, suffix, dst, keepPath, k);
      var i :| 0 <= i < |init| && init[i] == o.value && NoLaterLanding(init, i, suffix, dst, keepPath, k);
      NoLaterLandingSnoc(init, rel, i, suffix, dst, keepPath, k);
      assert rels[i] == init[i];
    }
  }

  /** The last file in walk order whose basename is `name`. */
  function LastNamed(rels: seq<string>, name: string): (r: Option<string>)
    ensures r.Some? ==> r.value in rels && Basename(r.value) == name
    ensures r.Some? ==> exists i ::
      0 <= i < |rels| && rels[i] == r.value && (forall j :: i < j < |rels| ==> Basename(rels[j]) != name)
    ensures r.None? ==> forall x :: x in rels ==> Basename(x) != name
    decreases |rels|
  {
    if rels == [] then None
    else
      var rel := rels[|rels| - 1];
      assert rels == rels[..|rels| - 1] + [rel];
      if Basename(rel) == name then Some(rel) else LastNamed(rels[..|rels| - 1], name)
  }

  /** After a copy, `k` holds the copy of its source file if it has one and
      is otherwise untouched. */
  lemma {:induction false} CopyFilesAt(files: map<string, string>, src: string, rels: seq<string>,
                                       suffix: string, dst: string, keepPath: bool, k: string)
    ensures var out := CopyFiles(files, src, rels, suffix, dst, keepPath);
            var s := Origin(rels, suffix, dst, keepPath, k);
            && (k in out <==> k in files || s.Some?)
            && (k in out ==> out[k] == if s.Some? then Under(src, s.value) else files[k])
    decreases |rels|
  {
    if rels != [] {
      var init := rels[..|rels| - 1];
      var rel := rels[|rels| - 1];
      var before := CopyFiles(files, src, init, suffix, dst, keepPath);
      CopyFilesAt(files, src, init, suffix, dst, keepPath, k);
      if Matches(rel, suffix) {
        assert CopyFiles(files, src, rels, suffix, dst, keepPath) == before[Dest(rel, dst, keepPath) := Under(src, rel)];
      } else {
        assert CopyFiles(files, src, rels, suffix, dst, keepPath) == before;
      }
      if Matches(rel, suffix) && Dest(rel, dst, keepPath) == k {
        assert Origin(rels, suffix, dst, keepPath, k) == Some(rel);
      } else {
        assert Origin(rels, suffix, dst, keepPath, k) == Origin(init, suffix, dst, keepPath, k);
      }
    }
  }

  /** After a copy, the directories are the old ones and the folders leading
      to each matching file's destination. */
  lemma {:induction false} CopyDirsAt(dirs: set<string>, rels: seq<string>, suffix: string,
                                      dst: string, keepPath: bool, k: string)
    ensures k in CopyDirs(dirs, rels, suffix, dst, keepPath) <==>
            k in dirs || exists x :: x in rels && Matches(x, suffix) && k in Ancestors(Dest(x, dst, keepPath))
    decreases |rels|
  {
    if rels != [] {
      var rel := rels[|rels| - 1];
      assert rels == rels[..|rels| - 1] + [rel];
      CopyDirsAt(dirs, rels[..|rels| - 1], suffix, dst, keepPath, k);
    }
  }

  /** With `keep_path=False` the destination is decided by the basename:
      `k` receives the last file named like `k`, when `k` sits directly in
      `dst` and its name matches. */
  lemma {:induction false} FlatOrigin(rels: seq<string>, suffix: string, dst: string, k: string)
    requires '/' !in suffix
    ensures Origin(rels, suffix, dst, false, k) ==
            if k == Under(dst, Basename(k)) && EndsWith(Basename(k), suffix)
            then LastNamed(rels, Basename(k)) else None
    decreases |rels|
  {
    if rels != [] {
      var rel := rels[|rels| - 1];
      FlatOrigin(rels[..|rels| - 1], suffix, dst, k);
      SuffixOnBasename(rel, suffix);
      BasenameOfChild(dst, Basename(rel));
    }
  }

  /** With `keep_path=True` the file at `dst/<rel>` is the copy of `rel`,
      for every matching `rel` that was found. */
  lemma {:induction false} KeptOrigin(rels: seq<string>, suffix: string, dst: string, k: string)
    ensures Origin(rels, suffix, dst, true, k) ==
            if IsUnder(k, dst) && Rest(k, dst) in rels && Matches(Rest(k, dst), suffix)
            then Some(Rest(k, dst)) else None
    decreases |rels|
  {
    if rels != [] {
      var rel := rels[|rels| - 1];
      assert rels == rels[..|rels| - 1] + [rel];
      KeptOrigin(rels[..|rels| - 1], suffix, dst, k);
      if IsUnder(k, dst) {
        UnderRest(k, dst);
      }
    }
  }

  /** The folder is a tree: every folder leading to a file or to a
      directory is itself a directory. */
  predicate Closed(files: map<string, string>, dirs: set<string>) {
    && (forall k :: k in files ==> Ancestors(k) <= dirs)
    && (forall d :: d in dirs ==> Ancestors(d) <= dirs)
  }

  /** A folder leading to a folder of `p` leads to `p`. */
  lemma AncestorsOfAncestor(p: string, a: string)
    requires a in Ancestors(p)
    ensures Ancestors(a) <= Ancestors(p)
  {
    var i :| 0 < i < |p| && p[i] == '/' && a == p[..i];
    forall b | b in Ancestors(a)
      ensures b in Ancestors(p)
    {
      var j :| 0 < j < |a| && a[j] == '/' && b == a[..j];
      assert p[j] == '/' && b == p[..j];
    }
  }

  /** A copy keeps the folder a tree: it creates the folders leading to
      each file it writes. */
  lemma {:induction false} CopyKeepsClosed(files: map<string, string>, dirs: set<string>, src: string,
                                           rels: seq<string>, suffix: string, dst: string, keepPath: bool)
    requires Closed(files, dirs)
    ensures Closed(CopyFiles(files, src, rels, suffix, dst, keepPath), CopyDirs(dirs, rels, suffix, dst, keepPath))
    decreases |rels|
  {
    if rels != [] {
      var rel := rels[|rels| - 1];
      CopyKeepsClosed(files, dirs, src, rels[..|rels| - 1], suffix, dst, keepPath);
      if Matches(rel, suffix) {
        var dest := Dest(rel, dst, keepPath);
        forall a | a in Ancestors(dest)
          ensures Ancestors(a) <= Ancestors(dest)
        {
          AncestorsOfAncestor(dest, a);
        }
      }
    }
  }

  // ---------------------------------------------------------------------------
  // `_pkg_bin(build_type)`

  /** `.pdb` debug information is packaged for debug-like builds made with
      Visual Studio only. */
  function DebugSymbols(buildType: string, compiler: string): (wanted: bool)
    ensures wanted ==> compiler == "Visual Studio"
    ensures buildType == "Release" || buildType == "MinSizeRel" ==> !wanted
  {
    (buildType == "Debug" || buildType == "RelWithDebInfo") && compiler == "Visual Studio"
  }

  function BinDir(buildType: string): string { "bin/" + buildType }
  function LibDir(buildType: string): string { "lib/" + buildType }
  function BuildDir(buildFolder: string, buildType: string): string { buildFolder + "/" + buildType }

  /** The routing rule by extension, stated on a file name on its own:
      executables and DLLs to `bin/<build_type>`, libraries (and, when
      debug symbols are wanted, `.pdb` files) to `lib/<build_type>`,
      nothing for any other name. */
  function Route(buildType: string, compiler: string, name: string): (r: Option<string>)
    ensures r.Some? ==> r.value == BinDir(buildType) || r.value == LibDir(buildType)
    ensures EndsWith(name, ".pdb") ==> (r.Some? <==> DebugSymbols(buildType, compiler))
  {
    assert EndsWith(name, ".pdb") ==>
      name[|name| - 4..][3] == 'b' && name[|name| - 4..][1] == 'p' && name[|name| - 3..][0] == 'p';
    if EndsWith(name, ".exe") || EndsWith(name, ".dll") then Some(BinDir(buildType))
    else if EndsWith(name, ".so") || EndsWith(name, ".dylib") || EndsWith(name, ".a") || EndsWith(name, ".lib")
    then Some(LibDir(buildType))
    else if EndsWith(name, ".pdb") && DebugSymbols(buildType, compiler) then Some(LibDir(buildType))
    else None
  }

  /** Two consecutive flattening copy calls from one folder into another. */
  function CopyTwo(files: map<string, string>, src: string, rels: seq<string>,
                   first: string, second: string, dst: string): map<string, string>
  {
    CopyFiles(CopyFiles(files, src, rels, first, dst, false), src, rels, second, dst, false)
  }

  /** The first two copy calls of `_pkg_bin`, into `bin/<build_type>`. */
  function BinCopies(files: map<string, string>, buildType: string, buildFolder: string,
                     rels: seq<string>): map<string, string>
  {
    CopyTwo(files, BuildDir(buildFolder, buildType), rels, ".exe", ".dll", BinDir(buildType))
  }

  /** The remaining copy calls of `_pkg_bin`, into `lib/<build_type>`; the
      `.pdb` one only when debug symbols are wanted. */
  function LibCopies(files: map<string, string>, buildType: string, compiler: string,
                     buildFolder: string, rels: seq<string>): map<string, string>
  {
    var src := BuildDir(buildFolder, buildType);
    var f4 := CopyTwo(files, src, rels, ".so", ".dylib", LibDir(buildType));
    var f6 := CopyTwo(f4, src, rels, ".a", ".lib", LibDir(buildType));
    if DebugSymbols(buildType, compiler) then CopyFiles(f6, src, rels, ".pdb", LibDir(buildType), false)
    else f6
  }

  /** The files after `_pkg_bin`: its copy calls in order, each from
      `<build_folder>/<build_type>` with `keep_path=False`. */
  function PkgBinFiles(files: map<string, string>, buildType: string, compiler: string,
                       buildFolder: string, rels: seq<string>): (out: map<string, string>)
    ensures files.Keys <= out.Keys
    ensures forall k :: k in out && !(k in files && out[k] == files[k]) ==>
      IsUnder(k, BinDir(buildType)) || IsUnder(k, LibDir(buildType))
  {
    LibCopies(BinCopies(files, buildType, buildFolder, rels), buildType, compiler, buildFolder, rels)
  }

  /** The directories after `_pkg_bin`. */
  function PkgBinDirs(dirs: set<string>, buildType: string, compiler: string,
                      rels: seq<string>): (out: set<string>)
    ensures dirs <= out
    ensures forall d :: d in out && d !in dirs ==> Leading(d, BinDir(buildType)) || Leading(d, LibDir(buildType))
  {
    var d1 := CopyDirs(dirs, rels, ".exe", BinDir(buildType), false);
    var d2 := CopyDirs(d1, rels, ".dll", BinDir(buildType), false);
    var d3 := CopyDirs(d2, rels, ".so", LibDir(buildType), false);
    var d4 := CopyDirs(d3, rels, ".dylib", LibDir(buildType), false);
    var d5 := CopyDirs(d4, rels, ".a", LibDir(buildType), false);
    var d6 := CopyDirs(d5, rels, ".lib", LibDir(buildType), false);
    if DebugSymbols(buildType, compiler) then CopyDirs(d6, rels, ".pdb", LibDir(buildType), false)
    else d6
  }

  /** One flattening copy: `k` receives the last file named like `k` when
      `k` sits directly in `dst` and its name matches; nothing else changes. */
  lemma FlatCopyAt(files: map<string, string>, src: string, rels: seq<string>,
                   suffix: string, dst: string, k: string)
    requires '/' !in suffix
    ensures var out := CopyFiles(files, src, rels, suffix, dst, false);
            var name := Basename(k);
            var hit := k == Under(dst, name) && EndsWith(name, suffix) && LastNamed(rels, name).Some?;
            && (k in out <==> k in files || hit)
            && (k in out ==> out[k] == if hit then Under(src, LastNamed(rels, name).value) else files[k])
  {
    CopyFilesAt(files, src, rels, suffix, dst, false, k);
    FlatOrigin(rels, suffix, dst, k);
  }

  /** Two flattening copies: `k` receives the last file named like `k` when
      `k` sits directly in `dst` and its name matches either pattern. */
  lemma CopyTwoAt(files: map<string, string>, src: string, rels: seq<string>,
                  first: string, second: string, dst: string, k: string)
    requires '/' !in first && '/' !in second
    ensures var out := CopyTwo(files, src, rels, first, second, dst);
            var name := Basename(k);
            var hit := k == Under(dst, name) && (EndsWith(name, first) || EndsWith(name, second))
                       && LastNamed(rels, name).Some?;
            && (k in out <==> k in files || hit)
            && (k in out ==> out[k] == if hit then Under(src, LastNamed(rels, name).value) else files[k])
  {
    FlatCopyAt(files, src, rels, first, dst, k);
    FlatCopyAt(CopyFiles(files, src, rels, first, dst, false), src, rels, second, dst, k);
  }

  /** Executables and DLLs land in `bin/<build_type>`. */
  lemma BinCopiesAt(files: map<string, string>, buildType: string, buildFolder: string,
                    rels: seq<string>, k: string)
    ensures var out := BinCopies(files, buildType, buildFolder, rels);
            var name := Basename(k);
            var hit := k == Under(BinDir(buildType), name) && (EndsWith(name, ".exe") || EndsWith(name, ".dll"))
                       && LastNamed(rels, name).Some?;
            && (k in out <==> k in files || hit)
            && (k in out ==> out[k] == if hit then Under(BuildDir(buildFolder, buildType), LastNamed(rels, name).value)
                                       else files[k])
  {
    CopyTwoAt(files, BuildDir(buildFolder, buildType), rels, ".exe", ".dll", BinDir(buildType), k);
  }

  /** The names `_pkg_bin` sends to `lib/<build_type>`. */
  predicate LibArtifact(buildType: string, compiler: string, name: string) {
    || EndsWith(name, ".so") || EndsWith(name, ".dylib") || EndsWith(name, ".a") || EndsWith(name, ".lib")
    || (EndsWith(name, ".pdb") && DebugSymbols(buildType, compiler))
  }

  /** Libraries, and `.pdb` files when debug symbols are wanted, land in
      `lib/<build_type>`. */
  lemma LibCopiesAt(files: map<string, string>, buildType: string, compiler: string,
                    buildFolder: string, rels: seq<string>, k: string)
    ensures var out := LibCopies(files, buildType, compiler, buildFolder, rels);
            var name := Basename(k);
            var hit := k == Under(LibDir(buildType), name) && LibArtifact(buildType, compiler, name)
                       && LastNamed(rels, name).Some?;
            && (k in out <==> k in files || hit)
            && (k in out ==> out[k] == if hit then Under(BuildDir(buildFolder, buildType), LastNamed(rels, name).value)
                                       else files[k])
  {
    var src := BuildDir(buildFolder, buildType);
    var lib := LibDir(buildType);
    var f4 := CopyTwo(files, src, rels, ".so", ".dylib", lib);
    var f6 := CopyTwo(f4, src, rels, ".a", ".lib", lib);
    CopyTwoAt(files, src, rels, ".so", ".dylib", lib, k);
    CopyTwoAt(f4, src, rels, ".a", ".lib", lib, k);
    if DebugSymbols(buildType, compiler) {
      FlatCopyAt(f6, src, rels, ".pdb", lib, k);
    }
  }

  /** A name cannot be both an executable or DLL and a library. */
  lemma BinLibDisjoint(name: string)
    requires EndsWith(name, ".exe") || EndsWith(name, ".dll")
    ensures !EndsWith(name, ".so") && !EndsWith(name, ".dylib") && !EndsWith(name, ".a")
    ensures !EndsWith(name, ".lib") && !EndsWith(name, ".pdb")
  {
    assert name[|name| - 1] in "el";
  }

  /** `bin/...` and `lib/...` destinations never coincide. */
  lemma BinLibApart(buildType: string, name: string)
    ensures Under(BinDir(buildType), name) != Under(LibDir(buildType), name)
  {
    assert Under(BinDir(buildType), name)[0] == 'b';
    assert Under(LibDir(buildType), name)[0] == 'l';
  }

  /** The six or seven copy calls of `_pkg_bin` carry out the routing rule:
      `k` receives a file exactly when some found file is named like `k`
      and routed to the folder `k` sits in, and then it holds the last such
      file in walk order; every other entry is untouched. */
  lemma PkgBinRouting(files: map<string, string>, buildType: string, compiler: string,
                      buildFolder: string, rels: seq<string>, k: string)
    ensures var out := PkgBinFiles(files, buildType, compiler, buildFolder, rels);
            var name := Basename(k);
            var d := Route(buildType, compiler, name);
            var routed := d.Some? && k == Under(d.value, name) && LastNamed(rels, name).Some?;
            && (k in out <==> k in files || routed)
            && (k in out ==> out[k] == if routed then Under(BuildDir(buildFolder, buildType), LastNamed(rels, name).value)
                                       else files[k])
  {
    var name := Basename(k);
    var f2 := BinCopies(files, buildType, buildFolder, rels);
    BinCopiesAt(files, buildType, buildFolder, rels, k);
    LibCopiesAt(f2, buildType, compiler, buildFolder, rels, k);
    BinLibApart(buildType, name);
    if EndsWith(name, ".exe") || EndsWith(name, ".dll") {
      BinLibDisjoint(name);
    }
  }

  /** Every found executable, DLL and library is packaged, flattened to its
      name in the folder of its kind, as a copy of a found file of that name. */
  lemma PkgBinPlacesEachArtifact(files: map<string, string>, buildType: string, compiler: string,
                                 buildFolder: string, rels: seq<string>, rel: string)
    requires rel in rels
    requires Route(buildType, compiler, Basename(rel)).Some?
    ensures var out := PkgBinFiles(files, buildType, compiler, buildFolder, rels);
            var k := Under(Route(buildType, compiler, Basename(rel)).value, Basename(rel));
            k in out && exists g :: g in rels && Basename(g) == Basename(rel)
                                 && out[k] == Under(BuildDir(buildFolder, buildType), g)
  {
    var name := Basename(rel);
    var k := Under(Route(buildType, compiler, name).value, name);
    BasenameOfChild(Route(buildType, compiler, name).value, name);
    PkgBinRouting(files, buildType, compiler, buildFolder, rels, k);
  }

  /** A `.pdb` file that was found reaches `lib/<build_type>` exactly for
      debug-like Visual Studio builds. */
  lemma PdbOnlyWithDebugSymbols(files: map<string, string>, buildType: string, compiler: string,
                                buildFolder: string, rels: seq<string>, rel: string)
    requires rel in rels && EndsWith(rel, ".pdb")
    requires Under(LibDir(buildType), Basename(rel)) !in files
    ensures Under(LibDir(buildType), Basename(rel)) in PkgBinFiles(files, buildType, compiler, buildFolder, rels)
            <==> DebugSymbols(buildType, compiler)
  {
    var name := Basename(rel);
    SuffixOnBasename(rel, ".pdb");
    BasenameOfChild(LibDir(buildType), name);
    assert name[|name| - 1] == 'b';
    PkgBinRouting(files, buildType, compiler, buildFolder, rels, Under(LibDir(buildType), name));
  }

  // ---------------------------------------------------------------------------
  // The header copies of `package`

  const HeaderSource := "xeus-python/src/cpp"
  const IncludeDir := "include"

  /** The files after copying `*.h`, then `*.hpp`, keeping their relative paths. */
  function HeaderFiles(files: map<string, string>, rels: seq<string>): (out: map<string, string>)
    ensures files.Keys <= out.Keys
    ensures forall k :: k in out && !(k in files && out[k] == files[k]) ==> IsUnder(k, IncludeDir)
  {
    CopyFiles(CopyFiles(files, HeaderSource, rels, ".h", IncludeDir, true), HeaderSource, rels, ".hpp", IncludeDir, true)
  }

  function HeaderDirs(dirs: set<string>, rels: seq<string>): (out: set<string>)
    ensures dirs <= out
    ensures forall d :: d in out && d !in dirs ==> d == IncludeDir || IsUnder(d, IncludeDir)
  {
    assert Ancestors(IncludeDir) == {} by {
      forall i | 0 < i < |IncludeDir| ensures IncludeDir[i] != '/' {}
    }
    CopyDirs(CopyDirs(dirs, rels, ".h", IncludeDir, true), rels, ".hpp", IncludeDir, true)
  }

  predicate IsHeader(rel: string) {
    Matches(rel, ".h") || Matches(rel, ".hpp")
  }

  /** Every header found under `xeus-python/src/cpp` lands at the same
      relative path under `include`, and nothing else changes. */
  lemma HeaderRouting(files: map<string, string>, rels: seq<string>, k: string)
    ensures var out := HeaderFiles(files, rels);
            var header := IsUnder(k, IncludeDir) && Rest(k, IncludeDir) in rels && IsHeader(Rest(k, IncludeDir));
            && (k in out <==> k in files || header)
            && (k in out ==> out[k] == if header then Under(HeaderSource, Rest(k, IncludeDir)) else files[k])
  {
    var f1 := CopyFiles(files, HeaderSource, rels, ".h", IncludeDir, true);
    CopyFilesAt(files, HeaderSource, rels, ".h", IncludeDir, true, k);
    KeptOrigin(rels, ".h", IncludeDir, k);
    CopyFilesAt(f1, HeaderSource, rels, ".hpp", IncludeDir, true, k);
    KeptOrigin(rels, ".hpp", IncludeDir, k);
  }

  // ---------------------------------------------------------------------------
  // The cleanup loop of `package`

  /** `k` is an entry directly inside `lib/`. */
  predicate InLib(k: string) {
    DirectChild(k, "lib")
  }

  /** The files once every regular file directly inside `lib/` is removed. */
  function CleanLib(files: map<string, string>): (out: map<string, string>)
    ensures forall k :: k in out ==> k in files && out[k] == files[k] && !InLib(k)
    ensures forall k :: k in files && !IsUnder(k, "lib") ==> k in out
  {
    map k | k in files && !InLib(k) :: files[k]
  }

  /** The cleanup removes exactly the loose files of `lib/`: files deeper
      down, and files elsewhere, keep their contents. */
  lemma CleanLibExact(files: map<string, string>, k: string)
    ensures k in CleanLib(files) <==> k in files && !InLib(k)
    ensures k in CleanLib(files) ==> CleanLib(files)[k] == files[k]
  {
  }

  /** Cleaning twice is cleaning once. */
  lemma CleanLibIdempotent(files: map<string, string>)
    ensures CleanLib(CleanLib(files)) == CleanLib(files)
  {
  }

  // ---------------------------------------------------------------------------
  // The whole `package` step

  /** The files after `package`, when `lib/` exists: cleanup, headers, then
      `_pkg_bin` for the configured build type. */
  function PackagedFiles(files: map<string, string>, buildType: string, compiler: string,
                         buildFolder: string, headers: seq<string>, artifacts: seq<string>): (out: map<string, string>)
    ensures forall k :: k in files && !InLib(k) ==> k in out
    ensures forall k :: k in out && !(k in files && out[k] == files[k]) ==>
      IsUnder(k, IncludeDir) || IsUnder(k, BinDir(buildType)) || IsUnder(k, LibDir(buildType))
  {
    PkgBinFiles(HeaderFiles(CleanLib(files), headers), buildType, compiler, buildFolder, artifacts)
  }

  function PackagedDirs(dirs: set<string>, buildType: string, compiler: string,
                        headers: seq<string>, artifacts: seq<string>): (out: set<string>)
    ensures dirs <= out
    ensures forall d :: d in out && d !in dirs ==>
      d == IncludeDir || IsUnder(d, IncludeDir) || Leading(d, BinDir(buildType)) || Leading(d, LibDir(buildType))
  {
    PkgBinDirs(HeaderDirs(dirs, headers), buildType, compiler, artifacts)
  }

  /** A routed artifact never lands directly in `lib/`. */
  lemma RoutedNotInLib(buildType: string, compiler: string, k: string)
    requires Route(buildType, compiler, Basename(k)).Some?
    requires k == Under(Route(buildType, compiler, Basename(k)).value, Basename(k))
    ensures !InLib(k)
  {
    if Route(buildType, compiler, Basename(k)) == Some(BinDir(buildType)) {
      assert k[0] == 'b';
    } else {
      assert k[4..][|buildType|] == '/';
    }
  }

  /** Nothing below `include/` is directly in `lib/`. */
  lemma IncludedNotInLib(k: string)
    requires IsUnder(k, IncludeDir)
    ensures !InLib(k)
  {
    assert k[0] == 'i';
  }

  /** After `package`, `lib/` holds no loose file: the cleanup removed the
      installed ones and the copies only write into `lib/<build_type>/`. */
  lemma PackagedLibHasNoLooseFiles(files: map<string, string>, buildType: string, compiler: string,
                                   buildFolder: string, headers: seq<string>,
                                   artifacts: seq<string>, k: string)
    requires k in PackagedFiles(files, buildType, compiler, buildFolder, headers, artifacts)
    ensures !InLib(k)
  {
    var cleaned := CleanLib(files);
    var withHeaders := HeaderFiles(cleaned, headers);
    PkgBinRouting(withHeaders, buildType, compiler, buildFolder, artifacts, k);
    if k !in withHeaders {
      RoutedNotInLib(buildType, compiler, k);
    } else {
      HeaderRouting(cleaned, headers, k);
      if k !in cleaned {
        IncludedNotInLib(k);
      } else {
        CleanLibExact(files, k);
      }
    }
  }

  /** `package` keeps every file installed deeper inside `lib/`, or anywhere
      else outside the copy destinations `bin/<build_type>` and
      `lib/<build_type>` (such as the other build type's installed
      libraries), and packages every header. Inside those destinations the
      same holds for every name that `Route` sends nowhere. */
  lemma PackagedKeepsInstalledAndHeaders(files: map<string, string>, buildType: string, compiler: string,
                                         buildFolder: string, headers: seq<string>,
                                         artifacts: seq<string>, k: string)
    requires Route(buildType, compiler, Basename(k)).None? ||
             (!IsUnder(k, BinDir(buildType)) && !IsUnder(k, LibDir(buildType)))
    ensures var out := PackagedFiles(files, buildType, compiler, buildFolder, headers, artifacts);
            var header := IsUnder(k, IncludeDir) && Rest(k, IncludeDir) in headers && IsHeader(Rest(k, IncludeDir));
            && (k in out <==> (k in files && !InLib(k)) || header)
            && (header ==> out[k] == Under(HeaderSource, Rest(k, IncludeDir)))
            && (!header && k in out ==> out[k] == files[k])
  {
    var cleaned := CleanLib(files);
    var name := Basename(k);
    var d := Route(buildType, compiler, name);
    if d.Some? {
      UnderIsUnder(d.value, name);
    }
    PkgBinRouting(HeaderFiles(cleaned, headers), buildType, compiler, buildFolder, artifacts, k);
    HeaderRouting(cleaned, headers, k);
  }

  /** The package folder, which Conan's copy helpers and the cleanup change
      in place. */
  class PackageFolder {
    /** Every regular file, mapped to the path it was copied from. */
    var files: map<string, string>
    /** Every directory. */
    var dirs: set<string>

    /** The folder is a tree. */
    ghost predicate Valid()
      reads this
    {
      Closed(files, dirs)
    }

    constructor (installed: map<string, string>, folders: set<string>)
      requires Closed(installed, folders)
      ensures Valid()
      ensures files == installed && dirs == folders
    {
      files := installed;
      dirs := folders;
    }

    /** `self.copy("*<suffix>", src=src, dst=dst, keep_path=keepPath)`,
        visiting the files found under `src` in walk order `rels`. */
    method Copy(suffix: string, src: string, dst: string, keepPath: bool, rels: seq<string>)
      requires Valid()
      modifies this
      ensures Valid()
      ensures files == CopyFiles(old(files), src, rels, suffix, dst, keepPath)
      ensures dirs == CopyDirs(old(dirs), rels, suffix, dst, keepPath)
    {
      for i := 0 to |rels|
        invariant files == CopyFiles(old(files), src, rels[..i], suffix, dst, keepPath)
        invariant dirs == CopyDirs(old(dirs), rels[..i], suffix, dst, keepPath)
      {
        var rel := rels[i];
        assert rels[..i + 1][..i] == rels[..i];
        if EndsWith(rel, suffix) {
          var dest := dst + "/" + (if keepPath then rel else Basename(rel));
          dirs := dirs + Ancestors(dest);
          files := files[dest := src + "/" + rel];
        }
      }
      assert rels[..|rels|] == rels;
      CopyKeepsClosed(old(files), old(dirs), src, rels, suffix, dst, keepPath);
    }

    /** `_pkg_bin(build_type)`. */
    method PkgBin(buildType: string, compiler: string, buildFolder: string, rels: seq<string>)
      requires Valid()
      modifies this
      ensures Valid()
      ensures files == PkgBinFiles(old(files), buildType, compiler, buildFolder, rels)
      ensures dirs == PkgBinDirs(old(dirs), buildType, compiler, rels)
    {
      var srcDir := buildFolder + "/" + buildType;
      var dstLib := "lib/" + buildType;
      var dstBin := "bin/" + buildType;
      Copy(".exe", srcDir, dstBin, false, rels);
      Copy(".dll", srcDir, dstBin, false, rels);
      Copy(".so", srcDir, dstLib, false, rels);
      Copy(".dylib", srcDir, dstLib, false, rels);
      Copy(".a", srcDir, dstLib, false, rels);
      Copy(".lib", srcDir, dstLib, false, rels);
      if (buildType == "Debug" || buildType == "RelWithDebInfo") && compiler == "Visual Studio" {
        Copy(".pdb", srcDir, dstLib, false, rels);
      }
    }

    /** The two header copies of `package`. */
    method CopyHeaders(rels: seq<string>)
      requires Valid()
      modifies this
      ensures Valid()
      ensures files == HeaderFiles(old(files), rels)
      ensures dirs == HeaderDirs(old(dirs), rels)
    {
      Copy(".h", "xeus-python/src/cpp", "include", true, rels);
      Copy(".hpp", "xeus-python/src/cpp", "include", true, rels);
    }

    /** The cleanup loop: iterate over the entries of `lib/` in whatever
        order the directory lists them and unlink those that are regular
        files. Listing a missing `lib/` raises, reported as `raised`. */
    method Cleanup() returns (raised: bool)
      requires Valid()
      modifies this
      ensures Valid()
      ensures raised <==> "lib" !in old(dirs)
      ensures dirs == old(dirs)
      ensures files == if raised then old(files) else CleanLib(old(files))
      ensures raised ==> forall k :: k in files ==> !IsUnder(k, "lib")
    {
      if "lib" !in dirs {
        forall k | k in files
          ensures !IsUnder(k, "lib")
        {
          if IsUnder(k, "lib") {
            FolderOfUnder(k, "lib");
            assert false;
          }
        }
        return true;
      }
      var children := set k | k in files.Keys + dirs && InLib(k);
      var todo := children;
      while todo != {}
        invariant todo <= children
        invariant dirs == old(dirs)
        invariant forall k :: k in files <==> k in old(files) && !(k in children && k !in todo)
        invariant forall k :: k in files ==> files[k] == old(files)[k]
        decreases todo
      {
        var child :| child in todo;
        if child in files {
          files := files - {child};
        }
        todo := todo - {child};
      }
      assert files == CleanLib(old(files));
      raised := false;
    }

    /** `package` up to the merge of build types: cleanup, headers, then
        `_pkg_bin` for the configured build type. An exception in the
        cleanup ends the step before any copy. */
    method Package(buildType: string, compiler: string, buildFolder: string,
                   headers: seq<string>, artifacts: seq<string>) returns (raised: bool)
      requires Valid()
      modifies this
      ensures Valid()
      ensures raised <==> "lib" !in old(dirs)
      ensures raised ==> files == old(files) && dirs == old(dirs)
      ensures !raised ==> files == PackagedFiles(old(files), buildType, compiler, buildFolder, headers, artifacts)
      ensures !raised ==> dirs == PackagedDirs(old(dirs), buildType, compiler, headers, artifacts)
    {
      raised := Cleanup();
      if raised {
        return;
      }
      CopyHeaders(headers);
      PkgBin(buildType, compiler, buildFolder, artifacts);
    }
  }
}
