/** The `source` step: literal find/replace patches on the wrapped project's
    CMakeLists.txt, then an appended install command. */
module Patching {
  import opened Wrappers

  /** `p` is a prefix of `s`. */
  predicate IsPrefix(p: string, s: string) {
    |p| <= |s| && s[..|p|] == p
  }

  /** `p` occurs somewhere in `s` (Python's `s.find(p) != -1`). */
  predicate Contains(s: string, p: string)
    decreases |s|
  {
    IsPrefix(p, s) || (s != [] && Contains(s[1..], p))
  }

  /** `Contains` is what `find` searches for: some suffix of `s` starts with `p`. */
  lemma {:induction false} ContainsIffOccurs(s: string, p: string)
    ensures Contains(s, p) <==> exists i :: 0 <= i <= |s| && IsPrefix(p, s[i..])
    decreases |s|
  {
    assert s[0..] == s;
    if s != [] {
      var tail := s[1..];
      ContainsIffOccurs(tail, p);
      if Contains(tail, p) {
        var i :| 0 <= i <= |tail| && IsPrefix(p, tail[i..]);
        assert tail[i..] == s[i + 1..];
      }
      if exists i :: 0 < i <= |s| && IsPrefix(p, s[i..]) {
        var i :| 0 < i <= |s| && IsPrefix(p, s[i..]);
        assert s[i..] == tail[i - 1..];
      }
    }
  }

  /** Python's `s.replace(p, r)`: scanning left to right, every non-overlapping
      occurrence of `p` is replaced; an empty `p` matches between every two
      characters and at both ends. */
  function ReplaceAll(s: string, p: string, r: string): (t: string)
    ensures p != [] && !Contains(s, p) ==> t == s
    decreases |s|
  {
    if p == [] then (if s == [] then r else r + [s[0]] + ReplaceAll(s[1..], p, r))
    else if IsPrefix(p, s) then r + ReplaceAll(s[|p|..], p, r)
    else if s == [] then []
    else [s[0]] + ReplaceAll(s[1..], p, r)
  }

  /** The pieces of `s` between the occurrences of `p` that `ReplaceAll` finds. */
  function Split(s: string, p: string): (pieces: seq<string>)
    requires p != []
    ensures |pieces| > 0
    decreases |s|
  {
    if IsPrefix(p, s) then [[]] + Split(s[|p|..], p)
    else if s == [] then [[]]
    else
      var rest := Split(s[1..], p);
      [[s[0]] + rest[0]] + rest[1..]
  }

  /** The pieces glued together with `sep` between each two. */
  function Join(pieces: seq<string>, sep: string): string
    requires |pieces| > 0
    decreases |pieces|
  {
    if |pieces| == 1 then pieces[0] else pieces[0] + sep + Join(pieces[1..], sep)
  }

  /** A prefix of `s` that starts with `p` means `p` is a prefix of `s`. */
  lemma PrefixTransitive(p: string, q: string, s: string)
    requires IsPrefix(p, q) && IsPrefix(q, s)
    ensures IsPrefix(p, s)
  {
    assert s[..|p|] == q[..|p|];
  }

  /** A common first character keeps a prefix a prefix. */
  lemma PrefixCons(c: char, q: string, t: string)
    requires IsPrefix(q, t)
    ensures IsPrefix([c] + q, [c] + t)
  {
    assert ([c] + t)[..|q| + 1] == [c] + t[..|q|];
  }

  /** Gluing a character onto the first piece glues it onto the joined text. */
  lemma JoinCons(c: char, pieces: seq<string>, sep: string)
    requires |pieces| > 0
    ensures Join([[c] + pieces[0]] + pieces[1..], sep) == [c] + Join(pieces, sep)
  {
    var glued := [[c] + pieces[0]] + pieces[1..];
    assert glued[1..] == pieces[1..];
  }

  /** Joining the pieces with the pattern gives back the text. */
  lemma {:induction false} SplitJoin(s: string, p: string)
    requires p != []
    ensures Join(Split(s, p), p) == s
    decreases |s|
  {
    if IsPrefix(p, s) {
      var tail := s[|p|..];
      SplitJoin(tail, p);
      assert ([[]] + Split(tail, p))[1..] == Split(tail, p);
      assert s == p + tail;
    } else if s != [] {
      SplitJoin(s[1..], p);
      JoinCons(s[0], Split(s[1..], p), p);
      assert [s[0]] + s[1..] == s;
    }
  }

  /** The first piece is a prefix of the text. */
  lemma {:induction false} SplitFirstIsPrefix(s: string, p: string)
    requires p != []
    ensures IsPrefix(Split(s, p)[0], s)
    decreases |s|
  {
    if !IsPrefix(p, s) && s != [] {
      var tail := s[1..];
      var rest := Split(tail, p);
      SplitFirstIsPrefix(tail, p);
      assert Split(s, p)[0] == [s[0]] + rest[0];
      PrefixCons(s[0], rest[0], tail);
      assert [s[0]] + tail == s;
    }
  }

  /** Joining the pieces with the replacement gives `ReplaceAll`'s result. */
  lemma {:induction false} SplitReplace(s: string, p: string, r: string)
    requires p != []
    ensures Join(Split(s, p), r) == ReplaceAll(s, p, r)
    decreases |s|
  {
    if IsPrefix(p, s) {
      var tail := s[|p|..];
      SplitReplace(tail, p, r);
      assert ([[]] + Split(tail, p))[1..] == Split(tail, p);
    } else if s != [] {
      SplitReplace(s[1..], p, r);
      JoinCons(s[0], Split(s[1..], p), r);
    }
  }

  /** No piece contains the pattern. */
  lemma {:induction false} SplitPiecesClean(s: string, p: string)
    requires p != []
    ensures forall i :: 0 <= i < |Split(s, p)| ==> !Contains(Split(s, p)[i], p)
    decreases |s|
  {
    var pieces := Split(s, p);
    assert !Contains([], p);
    if IsPrefix(p, s) {
      SplitPiecesClean(s[|p|..], p);
      assert forall i :: 0 < i < |pieces| ==> pieces[i] == Split(s[|p|..], p)[i - 1];
    } else if s != [] {
      var tail := s[1..];
      SplitPiecesClean(tail, p);
      SplitFirstIsPrefix(tail, p);
      var rest := Split(tail, p);
      var first := [s[0]] + rest[0];
      assert pieces[0] == first;
      assert forall i :: 0 < i < |pieces| ==> pieces[i] == rest[i];
      assert IsPrefix(first, s) by {
        assert s[..|first|] == [s[0]] + tail[..|rest[0]|];
      }
      if IsPrefix(p, first) {
        PrefixTransitive(p, first, s);
      }
      assert first[1..] == rest[0];
    }
  }

  /** `ReplaceAll` replaces ALL occurrences: `s` is its pieces joined by `p`,
      no piece contains `p`, and the result is the same pieces joined by `r`.
      For a pattern that overlaps itself these three facts do not pin down
      the left-to-right scan: `"aaa"` splits cleanly around `"aa"` both as
      `["", "a"]` and as `["a", ""]`, and `Split` is the first of them. None
      of the recipe's patterns overlaps itself. */
  lemma ReplaceAllSplits(s: string, p: string, r: string)
    requires p != []
    ensures Join(Split(s, p), p) == s
    ensures Join(Split(s, p), r) == ReplaceAll(s, p, r)
    ensures forall i :: 0 <= i < |Split(s, p)| ==> !Contains(Split(s, p)[i], p)
  {
    SplitJoin(s, p);
    SplitReplace(s, p, r);
    SplitPiecesClean(s, p);
  }

  /** Replacing with a longer text grows the text when the pattern occurs
      and never shrinks it. */
  lemma {:induction false} ReplaceGrows(s: string, p: string, r: string)
    requires p != [] && |r| >= |p|
    ensures |ReplaceAll(s, p, r)| >= |s|
    ensures Contains(s, p) && |r| > |p| ==> |ReplaceAll(s, p, r)| > |s|
    decreases |s|
  {
    if IsPrefix(p, s) {
      ReplaceGrows(s[|p|..], p, r);
    } else if s != [] {
      ReplaceGrows(s[1..], p, r);
    }
  }

  /** A replacement that starts with its own pattern keeps the pattern present. */
  lemma {:induction false} ReplaceKeepsPattern(s: string, p: string, q: string)
    requires p != [] && Contains(s, p)
    ensures Contains(ReplaceAll(s, p, p + q), p)
    decreases |s|
  {
    var r := ReplaceAll(s, p, p + q);
    if IsPrefix(p, s) {
      assert r[..|p|] == p;
    } else {
      ReplaceKeepsPattern(s[1..], p, q);
      assert r[1..] == ReplaceAll(s[1..], p, p + q);
    }
  }

  /** A replacement that extends its own pattern is not idempotent:
      applying it to its own output changes the text again. */
  lemma SelfExtendingReplaceNotIdempotent(s: string, p: string, q: string)
    requires p != [] && q != [] && Contains(s, p)
    ensures ReplaceAll(ReplaceAll(s, p, p + q), p, p + q) != ReplaceAll(s, p, p + q)
  {
    var once := ReplaceAll(s, p, p + q);
    ReplaceKeepsPattern(s, p, q);
    ReplaceGrows(once, p, p + q);
  }

  /** One `tools.replace_in_file(file, search, replace)` call. */
  datatype Patch = Patch(search: string, replace: string)

  /** The CMake version requirement, raised for policy CMP0091. */
  const MinimumVersion := Patch("cmake_minimum_required(VERSION 3.4.3)", "cmake_minimum_required(VERSION 3.21)")
  /** The Python lookup, switched to the FindPython module. */
  const FindPython := Patch("find_package(PythonInterp ${PythonLibsNew_FIND_VERSION} REQUIRED",
    "find_package(Python " + "${PythonLibsNew_FIND_VERSION} " + "COMPONENTS Interpreter " + "Development REQUIRED")
  /** The text the three install destinations gain: a per-configuration subdirectory. */
  const ConfigSubdir := "/$<CONFIG>"
  const ArchiveSearch := "ARCHIVE DESTINATION " + "${CMAKE_INSTALL_LIBDIR}"
  const LibrarySearch := "LIBRARY DESTINATION " + "${CMAKE_INSTALL_LIBDIR}"
  const RuntimeSearch := "RUNTIME DESTINATION " + "${CMAKE_INSTALL_BINDIR}"
  /** The three install destinations, each moved into that subdirectory. */
  const ArchiveDestination := Patch(ArchiveSearch, ArchiveSearch + ConfigSubdir)
  const LibraryDestination := Patch(LibrarySearch, LibrarySearch + ConfigSubdir)
  const RuntimeDestination := Patch(RuntimeSearch, RuntimeSearch + ConfigSubdir)
  /** Linking with the release Python library in every configuration. */
  const ReleasePythonLink := Patch("target_link_libraries(${target_name} PRIVATE ${PYTHON_LIBRARIES})",
    "target_link_libraries(" + "${target_name} PRIVATE " + "${Python_LIBRARY_RELEASE})")

  /** The patches `source` applies, in order. Their longer texts above are
      written as concatenations cut at word boundaries; each is the same
      string as the recipe's literal. */
  const Patches: seq<Patch> :=
    [MinimumVersion, FindPython, ArchiveDestination, LibraryDestination, RuntimeDestination, ReleasePythonLink]

  /** What `source` appends after the patches: make `xpython` depend on both
      libraries and run a per-configuration install after it is built. It is
      written as its four parts: the dependency line, the head of the custom
      command, its `--install` and `--config` arguments, and its `--prefix`
      argument with the closing parenthesis. */
  const InstallText: string := InstallDependency + InstallCommandHead + InstallCommandConfig + InstallCommandPrefix
  const InstallDependency := "\nadd_dependencies(xpython " + "xeus-python-static xeus-python)\n\n"
  const InstallCommandHead := "add_custom_command(TARGET " + "xpython POST_BUILD\n" + "    COMMAND \"${CMAKE_COMMAND}\"\n"
  const InstallCommandConfig := "    --install " + "${CMAKE_CURRENT_BINARY_DIR}\n" + "    --config $<CONFIG>\n"
  const InstallCommandPrefix := "    --prefix " + "${CMAKE_CURRENT_BINARY_DIR}" + "/install/$<CONFIG>\n" + ")\n\n\n"

  /** The text after every patch of `ps` in turn, whether or not each was found. */
  function ReplaceEach(text: string, ps: seq<Patch>): string
    decreases |ps|
  {
    if ps == [] then text else ReplaceEach(ReplaceAll(text, ps[0].search, ps[0].replace), ps[1..])
  }

  /** What a run of strict `replace_in_file` calls leaves: the file text, and the
      index of the patch whose pattern was missing if one raised. */
  datatype PatchRun = PatchRun(text: string, missing: Option<nat>)

  function ApplyPatches(text: string, ps: seq<Patch>): (run: PatchRun)
    ensures run.missing.None? ==> run.text == ReplaceEach(text, ps)
    ensures run.missing.Some? ==> run.missing.value < |ps|
    decreases |ps|
  {
    if ps == [] then PatchRun(text, None)
    else if !Contains(text, ps[0].search) then PatchRun(text, Some(0))
    else
      var run := ApplyPatches(ReplaceAll(text, ps[0].search, ps[0].replace), ps[1..]);
      match run.missing
      case None => run
      case Some(i) => PatchRun(run.text, Some(i + 1))
  }

  /** Strict patching either applies every patch, or stops at the first one
      whose pattern is missing from the text as patched so far; the patches
      before it stay applied (each call saves the file). */
  lemma {:induction false} ApplyPatchesStopsAtFirstMissing(text: string, ps: seq<Patch>)
    ensures var run := ApplyPatches(text, ps);
      match run.missing
      case None =>
        && run.text == ReplaceEach(text, ps)
        && forall j :: 0 <= j < |ps| ==> Contains(ReplaceEach(text, ps[..j]), ps[j].search)
      case Some(i) =>
        && i < |ps|
        && run.text == ReplaceEach(text, ps[..i])
        && !Contains(run.text, ps[i].search)
        && forall j :: 0 <= j < i ==> Contains(ReplaceEach(text, ps[..j]), ps[j].search)
    decreases |ps|
  {
    if ps != [] && Contains(text, ps[0].search) {
      var next := ReplaceAll(text, ps[0].search, ps[0].replace);
      ApplyPatchesStopsAtFirstMissing(next, ps[1..]);
      forall j | 0 < j <= |ps| ensures ReplaceEach(text, ps[..j]) == ReplaceEach(next, ps[1..][..j - 1]) {
        assert ps[..j][1..] == ps[1..][..j - 1];
      }
      assert ReplaceEach(text, ps[..0]) == text;
      forall j | 0 < j < |ps| ensures ps[j] == ps[1..][j - 1] { }
    } else if ps != [] {
      assert ReplaceEach(text, ps[..0]) == text;
    }
  }

  /** The CMakeLists.txt file that `source` rewrites in place. */
  class CMakeLists {
    var text: string

    constructor (initial: string)
      ensures text == initial
    {
      text := initial;
    }

    /** `tools.replace_in_file` in its default strict mode: `found` is false
        exactly when the pattern is absent, in which case it raises and the
        file is left as it was. */
    method ReplaceInFile(search: string, replace: string) returns (found: bool)
      modifies this
      ensures found == Contains(old(text), search)
      ensures text == if found then ReplaceAll(old(text), search, replace) else old(text)
    {
      found := Contains(text, search);
      if found {
        text := ReplaceAll(text, search, replace);
      }
    }

    /** Opening the file in append mode and writing `s`. */
    method Append(s: string)
      modifies this
      ensures text == old(text) + s
    {
      text := text + s;
    }

    /** Strict `replace_in_file` calls on this file, one per patch of `ps`
        in order, stopping at the first that raises. `missing` is the index
        of that patch. */
    method ReplaceEachInFile(ps: seq<Patch>) returns (missing: Option<nat>)
      modifies this
      ensures PatchRun(text, missing) == ApplyPatches(old(text), ps)
    {
      ghost var run := ApplyPatches(text, ps);
      for k := 0 to |ps|
        invariant run == Shift(ApplyPatches(text, ps[k..]), k)
      {
        var found := ReplaceInFile(ps[k].search, ps[k].replace);
        assert ps[k..][1..] == ps[k + 1..];
        if !found {
          return Some(k);
        }
      }
      missing := None;
    }

    /** The patching part of `source`: the six replacements in order, the
        first missing pattern aborting the rest, then the install text
        appended at the end of the file. `missing` is the index of the patch
        that raised. */
    method Source() returns (missing: Option<nat>)
      modifies this
      ensures missing == ApplyPatches(old(text), Patches).missing
      ensures text == if missing.None? then ApplyPatches(old(text), Patches).text + InstallText
                      else ApplyPatches(old(text), Patches).text
    {
      missing := ReplaceEachInFile(Patches);
      if missing.None? {
        Append(InstallText);
      }
    }
  }

  /** A run of later patches seen from `n` patches earlier. */
  function Shift(run: PatchRun, n: nat): PatchRun {
    match run.missing
    case None => run
    case Some(i) => PatchRun(run.text, Some(i + n))
  }

  /** The three DESTINATION patches extend their own pattern with `/$<CONFIG>`,
      so applying one again to a text it already changed adds a second
      `/$<CONFIG>`: they are not idempotent. */
  lemma DestinationPatchesNotIdempotent(s: string, patch: Patch)
    requires patch == ArchiveDestination || patch == LibraryDestination || patch == RuntimeDestination
    requires Contains(s, patch.search)
    ensures patch.replace == patch.search + ConfigSubdir
    ensures var once := ReplaceAll(s, patch.search, patch.replace);
      ReplaceAll(once, patch.search, patch.replace) != once
  {
    SelfExtendingReplaceNotIdempotent(s, patch.search, ConfigSubdir);
  }

  // ---------------------------------------------------------------------------
  // Running the patches a second time

  /** `a` and `b` line up: one is a prefix of the other. */
  predicate Compatible(a: string, b: string) {
    IsPrefix(a, b) || IsPrefix(b, a)
  }

  /** No occurrence of `q` can overlap a copy of `r`: no proper suffix of `q`
      lines up with `r`, and no suffix of `r` lines up with `q`. */
  predicate Apart(q: string, r: string) {
    && r != []
    && (forall i :: 0 < i < |q| ==> !Compatible(q[i..], r))
    && (forall k :: 0 <= k < |r| ==> !Compatible(r[k..], q))
  }

  lemma ApartNonEmpty(q: string, r: string)
    requires Apart(q, r)
    ensures q != [] && !Compatible(r, q)
  {
    assert r[0..] == r;
    assert !Compatible(r[0..], q);
  }

  /** A prefix of `b + c` lines up with `b`. */
  lemma PrefixOfConcat(a: string, b: string, c: string)
    requires IsPrefix(a, b + c)
    ensures Compatible(a, b)
  {
    if |a| <= |b| {
      assert (b + c)[..|a|] == b[..|a|];
    } else {
      assert a[..|b|] == (b + c)[..|b|];
    }
  }

  /** An occurrence in a suffix is an occurrence. */
  lemma {:induction false} ContainsSuffix(s: string, j: nat, q: string)
    requires j <= |s|
    ensures Contains(s[j..], q) ==> Contains(s, q)
    decreases j
  {
    if j > 0 {
      ContainsSuffix(s[1..], j - 1, q);
      assert s[1..][j - 1..] == s[j..];
    }
  }

  /** An occurrence of `q` in `a + b` lies within `b` when no suffix of `a`
      lines up with `q`. */
  lemma {:induction false} ContainsPastApart(a: string, b: string, q: string)
    requires forall k :: 0 <= k < |a| ==> !Compatible(a[k..], q)
    ensures Contains(a + b, q) ==> Contains(b, q)
    decreases |a|
  {
    if a == [] {
      assert a + b == b;
    } else {
      assert a[0..] == a;
      assert !Compatible(a[0..], q);
      if IsPrefix(q, a + b) {
        PrefixOfConcat(q, a, b);
        assert false;
      }
      forall k | 0 <= k < |a[1..]| ensures !Compatible(a[1..][k..], q) {
        assert a[1..][k..] == a[k + 1..];
      }
      ContainsPastApart(a[1..], b, q);
      assert (a + b)[1..] == a[1..] + b;
    }
  }

  /** No suffix of `q` starts a text that begins with `r`. */
  lemma ApartNotPrefix(q: string, r: string, x: string, i: nat)
    requires Apart(q, r) && i < |q|
    ensures !IsPrefix(q[i..], r + x)
  {
    ApartNonEmpty(q, r);
    assert q[0..] == q;
    assert !Compatible(q[i..], r);
    if IsPrefix(q[i..], r + x) {
      PrefixOfConcat(q[i..], r, x);
      assert false;
    }
  }

  /** A suffix of `q` that starts the replaced text already started the text:
      an occurrence cannot begin in one piece and run into a replacement. */
  lemma {:induction false} PrefixThroughReplace(s: string, p: string, r: string, q: string, i: nat)
    requires p != [] && Apart(q, r) && i <= |q|
    requires IsPrefix(q[i..], ReplaceAll(s, p, r))
    ensures IsPrefix(q[i..], s)
    decreases |s|
  {
    if i < |q| {
      if IsPrefix(p, s) {
        ApartNotPrefix(q, r, ReplaceAll(s[|p|..], p, r), i);
        assert false;
      } else if s != [] {
        var x := ReplaceAll(s[1..], p, r);
        assert ReplaceAll(s, p, r) == [s[0]] + x;
        assert q[i..] == [q[i]] + q[i + 1..];
        assert q[i] == s[0] && IsPrefix(q[i + 1..], x) by {
          assert ([s[0]] + x)[..|q[i..]|] == [s[0]] + x[..|q[i + 1..]|];
        }
        PrefixThroughReplace(s[1..], p, r, q, i + 1);
        assert s[..|q[i..]|] == [s[0]] + s[1..][..|q[i + 1..]|];
      } else {
        assert false;
      }
    }
  }

  /** Replacing a pattern with a text apart from `q` creates no occurrence of `q`. */
  lemma {:induction false} ReplaceCreatesNoOccurrence(s: string, p: string, r: string, q: string)
    requires p != [] && Apart(q, r) && !Contains(s, q)
    ensures !Contains(ReplaceAll(s, p, r), q)
    decreases |s|
  {
    if IsPrefix(p, s) {
      var tail := s[|p|..];
      ContainsSuffix(s, |p|, q);
      ReplaceCreatesNoOccurrence(tail, p, r, q);
      ContainsPastApart(r, ReplaceAll(tail, p, r), q);
      assert ReplaceAll(s, p, r) == r + ReplaceAll(tail, p, r);
    } else if s != [] {
      ReplaceCreatesNoOccurrence(s[1..], p, r, q);
      if IsPrefix(q, ReplaceAll(s, p, r)) {
        assert q[0..] == q;
        PrefixThroughReplace(s, p, r, q, 0);
        assert false;
      }
      assert ReplaceAll(s, p, r) == [s[0]] + ReplaceAll(s[1..], p, r);
    }
  }

  /** A replacement apart from its own pattern removes every occurrence of it. */
  lemma {:induction false} ReplaceRemoves(s: string, p: string, r: string)
    requires p != [] && Apart(p, r)
    ensures !Contains(ReplaceAll(s, p, r), p)
    decreases |s|
  {
    if IsPrefix(p, s) {
      var tail := s[|p|..];
      ReplaceRemoves(tail, p, r);
      ContainsPastApart(r, ReplaceAll(tail, p, r), p);
      assert ReplaceAll(s, p, r) == r + ReplaceAll(tail, p, r);
    } else if s != [] {
      ReplaceRemoves(s[1..], p, r);
      if IsPrefix(p, ReplaceAll(s, p, r)) {
        assert p[0..] == p;
        PrefixThroughReplace(s, p, r, p, 0);
        assert false;
      }
      assert ReplaceAll(s, p, r) == [s[0]] + ReplaceAll(s[1..], p, r);
    }
  }

  /** `q` does not start `a + b` when `a` does not start with `q` and `b` is
      apart from `q`. */
  lemma AppendNotPrefix(a: string, b: string, q: string)
    requires Apart(q, b) && a != [] && !IsPrefix(q, a)
    ensures !IsPrefix(q, a + b)
  {
    if |q| <= |a| {
      assert (a + b)[..|q|] == a[..|q|];
    } else if |q| <= |a| + |b| {
      assert (a + b)[..|q|][|a|..] == b[..|q| - |a|];
      assert !Compatible(q[|a|..], b);
    }
  }

  /** Appending a text apart from `q` to a text without `q` creates no `q`. */
  lemma {:induction false} AppendCreatesNoOccurrence(a: string, b: string, q: string)
    requires Apart(q, b) && !Contains(a, q)
    ensures !Contains(a + b, q)
    decreases |a|
  {
    ApartNonEmpty(q, b);
    if a == [] {
      ContainsPastApart(b, [], q);
      assert b + [] == b;
      assert a + b == b;
    } else {
      AppendNotPrefix(a, b, q);
      AppendCreatesNoOccurrence(a[1..], b, q);
      assert (a + b)[1..] == a[1..] + b;
    }
  }

  /** Patches whose replacements are all apart from `q` create no `q`. */
  lemma {:induction false} ReplaceEachKeepsOut(s: string, ps: seq<Patch>, q: string)
    requires forall j :: 0 <= j < |ps| ==> ps[j].search != [] && Apart(q, ps[j].replace)
    requires !Contains(s, q)
    ensures !Contains(ReplaceEach(s, ps), q)
    decreases |ps|
  {
    if ps != [] {
      ReplaceCreatesNoOccurrence(s, ps[0].search, ps[0].replace, q);
      ReplaceEachKeepsOut(ReplaceAll(s, ps[0].search, ps[0].replace), ps[1..], q);
    }
  }

  /** The start of `a + b` lies in `a`. */
  lemma PrefixOfPrefix(x: string, a: string, b: string)
    requires IsPrefix(a + b, x)
    ensures IsPrefix(a, x)
  {
    assert (a + b)[..|a|] == a;
  }

  /** Two texts apart from `q` are apart from `q` once concatenated. */
  lemma ApartConcat(q: string, a: string, b: string)
    requires Apart(q, a) && Apart(q, b)
    ensures Apart(q, a + b)
  {
    forall i | 0 < i < |q| ensures !Compatible(q[i..], a + b) {
      if IsPrefix(q[i..], a + b) {
        PrefixOfConcat(q[i..], a, b);
        assert false;
      }
      if IsPrefix(a + b, q[i..]) {
        PrefixOfPrefix(q[i..], a, b);
        assert false;
      }
    }
    forall k | 0 <= k < |a + b| ensures !Compatible((a + b)[k..], q) {
      if k < |a| {
        assert (a + b)[k..] == a[k..] + b;
        if IsPrefix(q, a[k..] + b) {
          PrefixOfConcat(q, a[k..], b);
          assert false;
        }
        if IsPrefix(a[k..] + b, q) {
          PrefixOfPrefix(q, a[k..], b);
          assert false;
        }
      } else {
        assert (a + b)[k..] == b[k - |a|..];
      }
    }
  }

  /** `c` does not occur in `s`. */
  predicate Lacks(s: string, c: char)
  {
    forall k :: 0 <= k < |s| ==> s[k] != c
  }

  /** After its first character, `q` never has `x` followed by `y`. */
  predicate NeverFollowedBy(q: string, x: char, y: char)
  {
    forall i :: 0 < i < |q| && q[i] == x ==> i + 1 < |q| && q[i + 1] != y
  }

  /** A criterion for `Apart` when `r` is longer than `q`: the character
      `c` of `q` is missing from `r`, no proper suffix of `q` begins like `r`
      (with `x` and `y`), and no suffix of `r` can end a prefix of `q` (`r`
      ends with `z`, missing from `q`, or `q` begins with a character missing
      from `r`). */
  lemma ApartFromLonger(q: string, r: string, m: nat, c: char, x: char, y: char, z: char)
    requires |r| > |q| && m < |q| && q[m] == c && r[0] == x && r[1] == y && r[|r| - 1] == z
    requires Lacks(r, c)
    requires Lacks(q, x) || NeverFollowedBy(q, x, y)
    requires Lacks(q, z) || Lacks(r, q[0])
    ensures Apart(q, r)
  {
    forall i | 0 < i < |q| ensures !Compatible(q[i..], r) {
      if q[i] != r[0] {
        assert q[i..][0] != r[0];
      } else {
        assert q[i..][1] != r[1];
      }
    }
    forall k | 0 <= k < |r| ensures !Compatible(r[k..], q) {
      assert k + m < |r| ==> r[k..][m] == r[k + m];
      assert r[k..][|r| - k - 1] == r[|r| - 1];
    }
  }

  /** A criterion for `Apart` when `r` is shorter than `q`: the character
      `c` of `r` is missing from `q`, `r` begins with no later character of
      `q`, and `q` begins with no later character of `r`. */
  lemma ApartFromShorter(q: string, r: string, j: nat, c: char)
    requires 0 < |r| < |q| && j < |r| && r[j] == c
    requires Lacks(q, c)
    requires forall i :: 0 < i < |q| ==> q[i] != r[0]
    requires forall k :: 0 < k < |r| ==> r[k] != q[0]
    ensures Apart(q, r)
  {
    forall i | 0 < i < |q| ensures !Compatible(q[i..], r) {
      assert q[i..][0] == q[i];
      assert i + j < |q| ==> q[i..][j] == q[i + j];
    }
    forall k | 0 <= k < |r| ensures !Compatible(r[k..], q) {
      assert r[k..][0] == r[k];
    }
  }

  /** Characters that begin or end the replacements and are missing from the
      old version requirement. */
  lemma MinimumVersionLacksHeads()
    ensures var q := MinimumVersion.search;
      forall i :: 0 <= i < |q| ==> q[i] != 'f' && q[i] != 'A' && q[i] != 'L' && q[i] != 't'
  {
  }

  lemma MinimumVersionLacksEnds()
    ensures var q := MinimumVersion.search;
      forall i :: 0 <= i < |q| ==> q[i] != 'D' && q[i] != '>' && q[i] != '\n' && q[i] != '2'
  {
  }

  /** Pairs of characters that begin replacements and never occur together
      in the old version requirement. */
  lemma MinimumVersionNeverStartsRuntime()
    ensures NeverFollowedBy(MinimumVersion.search, 'R', 'U')
  {
  }

  lemma MinimumVersionNeverStartsAdd()
    ensures NeverFollowedBy(MinimumVersion.search, 'a', 'd')
  {
  }

  lemma MinimumVersionHasNoDoubleSpace()
    ensures NeverFollowedBy(MinimumVersion.search, ' ', ' ')
  {
  }

  /** The old and the new version requirement both begin with `c`, which
      occurs in neither again. */
  lemma MinimumVersionLacksLaterC()
    ensures var q := MinimumVersion.search;
      forall i :: 0 < i < |q| ==> q[i] != 'c'
  {
  }

  lemma ReplacementLacksLaterC()
    ensures var r := MinimumVersion.replace;
      forall k :: 0 < k < |r| ==> r[k] != 'c'
  {
  }

  lemma MinimumVersionApartFromItsReplacement()
    ensures Apart(MinimumVersion.search, MinimumVersion.replace)
  {
    MinimumVersionLacksEnds();
    MinimumVersionLacksLaterC();
    ReplacementLacksLaterC();
    ApartFromShorter(MinimumVersion.search, MinimumVersion.replace, 33, '2');
  }

  /** The version digit `4` is missing from `FindPython.replace`. */
  lemma FindPythonLacksVersionDigit()
    ensures var r := FindPython.replace;
      forall k :: 0 <= k < |r| ==> r[k] != '4'
  {
  }

  lemma MinimumVersionApartFromFindPython()
    ensures Apart(MinimumVersion.search, FindPython.replace)
  {
    FindPythonLacksVersionDigit();
    MinimumVersionLacksHeads();
    MinimumVersionLacksEnds();
    ApartFromLonger(MinimumVersion.search, FindPython.replace, 33, '4', 'f', 'i', 'D');
  }

  /** The version digit `4` is missing from `ArchiveDestination.replace`. */
  lemma ArchiveLacksVersionDigit()
    ensures var r := ArchiveDestination.replace;
      forall k :: 0 <= k < |r| ==> r[k] != '4'
  {
  }

  lemma MinimumVersionApartFromArchive()
    ensures Apart(MinimumVersion.search, ArchiveDestination.replace)
  {
    ArchiveLacksVersionDigit();
    MinimumVersionLacksHeads();
    MinimumVersionLacksEnds();
    ApartFromLonger(MinimumVersion.search, ArchiveDestination.replace, 33, '4', 'A', 'R', '>');
  }

  /** The version digit `4` is missing from `LibraryDestination.replace`. */
  lemma LibraryLacksVersionDigit()
    ensures var r := LibraryDestination.replace;
      forall k :: 0 <= k < |r| ==> r[k] != '4'
  {
  }

  lemma MinimumVersionApartFromLibrary()
    ensures Apart(MinimumVersion.search, LibraryDestination.replace)
  {
    LibraryLacksVersionDigit();
    MinimumVersionLacksHeads();
    MinimumVersionLacksEnds();
    ApartFromLonger(MinimumVersion.search, LibraryDestination.replace, 33, '4', 'L', 'I', '>');
  }

  /** The version digit `4` is missing from `RuntimeDestination.replace`. */
  lemma RuntimeLacksVersionDigit()
    ensures var r := RuntimeDestination.replace;
      forall k :: 0 <= k < |r| ==> r[k] != '4'
  {
  }

  lemma MinimumVersionApartFromRuntime()
    ensures Apart(MinimumVersion.search, RuntimeDestination.replace)
  {
    RuntimeLacksVersionDigit();
    MinimumVersionNeverStartsRuntime();
    MinimumVersionLacksEnds();
    ApartFromLonger(MinimumVersion.search, RuntimeDestination.replace, 33, '4', 'R', 'U', '>');
  }

  /** The version digit `4` and the letter `c` are missing from `ReleasePythonLink.replace`. */
  lemma LinkLacksVersionDigit()
    ensures var r := ReleasePythonLink.replace;
      forall k :: 0 <= k < |r| ==> r[k] != '4' && r[k] != 'c'
  {
  }

  lemma MinimumVersionApartFromLink()
    ensures Apart(MinimumVersion.search, ReleasePythonLink.replace)
  {
    LinkLacksVersionDigit();
    MinimumVersionLacksHeads();
    ApartFromLonger(MinimumVersion.search, ReleasePythonLink.replace, 33, '4', 't', 'a', ')');
  }

  /** The version digit `4` is missing from `InstallDependency`. */
  lemma DependencyLacksVersionDigit()
    ensures var r := InstallDependency;
      forall k :: 0 <= k < |r| ==> r[k] != '4'
  {
  }

  lemma MinimumVersionApartFromDependency()
    ensures Apart(MinimumVersion.search, InstallDependency)
  {
    DependencyLacksVersionDigit();
    MinimumVersionLacksEnds();
    ApartFromLonger(MinimumVersion.search, InstallDependency, 33, '4', '\n', 'a', '\n');
  }

  /** The version digit `4` is missing from `InstallCommandHead`. */
  lemma CommandHeadLacksVersionDigit()
    ensures var r := InstallCommandHead;
      forall k :: 0 <= k < |r| ==> r[k] != '4'
  {
  }

  lemma MinimumVersionApartFromCommandHead()
    ensures Apart(MinimumVersion.search, InstallCommandHead)
  {
    CommandHeadLacksVersionDigit();
    MinimumVersionNeverStartsAdd();
    MinimumVersionLacksEnds();
    ApartFromLonger(MinimumVersion.search, InstallCommandHead, 33, '4', 'a', 'd', '\n');
  }

  /** The version digit `4` is missing from `InstallCommandConfig`. */
  lemma CommandConfigLacksVersionDigit()
    ensures var r := InstallCommandConfig;
      forall k :: 0 <= k < |r| ==> r[k] != '4'
  {
  }

  lemma MinimumVersionApartFromCommandConfig()
    ensures Apart(MinimumVersion.search, InstallCommandConfig)
  {
    CommandConfigLacksVersionDigit();
    MinimumVersionHasNoDoubleSpace();
    MinimumVersionLacksEnds();
    ApartFromLonger(MinimumVersion.search, InstallCommandConfig, 33, '4', ' ', ' ', '\n');
  }

  /** The version digit `4` is missing from `InstallCommandPrefix`. */
  lemma CommandPrefixLacksVersionDigit()
    ensures var r := InstallCommandPrefix;
      forall k :: 0 <= k < |r| ==> r[k] != '4'
  {
  }

  lemma MinimumVersionApartFromCommandPrefix()
    ensures Apart(MinimumVersion.search, InstallCommandPrefix)
  {
    CommandPrefixLacksVersionDigit();
    MinimumVersionHasNoDoubleSpace();
    MinimumVersionLacksEnds();
    ApartFromLonger(MinimumVersion.search, InstallCommandPrefix, 33, '4', ' ', ' ', '\n');
  }

  /** The old version requirement cannot be recreated by any replacement of
      `source` or by the install text. */
  lemma PatchesApartFromMinimumVersion()
    ensures forall j :: 0 <= j < |Patches| ==> Patches[j].search != [] && Apart(MinimumVersion.search, Patches[j].replace)
    ensures Apart(MinimumVersion.search, InstallText)
  {
    var q := MinimumVersion.search;
    MinimumVersionApartFromItsReplacement();
    MinimumVersionApartFromFindPython();
    MinimumVersionApartFromArchive();
    MinimumVersionApartFromLibrary();
    MinimumVersionApartFromRuntime();
    MinimumVersionApartFromLink();
    MinimumVersionApartFromDependency();
    MinimumVersionApartFromCommandHead();
    MinimumVersionApartFromCommandConfig();
    MinimumVersionApartFromCommandPrefix();
    ApartConcat(q, InstallDependency, InstallCommandHead);
    ApartConcat(q, InstallDependency + InstallCommandHead, InstallCommandConfig);
    ApartConcat(q, InstallDependency + InstallCommandHead + InstallCommandConfig, InstallCommandPrefix);
  }

  /** Running `source` again on the file it patched fails loudly at the first
      patch and leaves the file as it is: the first patch removed the old
      version requirement, and neither the later patches nor the install text
      bring it back. So a re-run never applies a patch twice. */
  lemma RerunStopsAtFirstPatch(t: string)
    ensures var run := ApplyPatches(t, Patches);
      && (run.missing.None? ==>
            ApplyPatches(run.text + InstallText, Patches) == PatchRun(run.text + InstallText, Some(0)))
      && (run.missing.Some? && run.missing.value > 0 ==>
            ApplyPatches(run.text, Patches) == PatchRun(run.text, Some(0)))
  {
    var q := MinimumVersion.search;
    var run := ApplyPatches(t, Patches);
    ApplyPatchesStopsAtFirstMissing(t, Patches);
    if run.missing != Some(0) {
      var n := if run.missing.None? then |Patches| else run.missing.value;
      assert Patches[..0] == [];
      assert Contains(t, q);
      PatchesApartFromMinimumVersion();
      var t1 := ReplaceAll(t, q, MinimumVersion.replace);
      ReplaceRemoves(t, q, MinimumVersion.replace);
      var rest := Patches[..n][1..];
      ReplaceEachKeepsOut(t1, rest, q);
      assert run.text == ReplaceEach(t1, rest) by {
        assert Patches[..n][0] == MinimumVersion;
        assert Patches[..|Patches|] == Patches;
      }
      if run.missing.None? {
        AppendCreatesNoOccurrence(run.text, InstallText, q);
      }
    }
  }
}
