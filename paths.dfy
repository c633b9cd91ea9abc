/** Posix-style relative paths as strings: suffix tests, basenames and the
    directories a path lies under. */
module Paths {

  /** `s` ends with `suffix` (a `*<suffix>` glob, tested on one name). */
  predicate EndsWith(s: string, suffix: string) {
    |suffix| <= |s| && s[|s| - |suffix|..] == suffix
  }

  /** The last component of `p`, what `os.path.basename` returns. */
  function Basename(p: string): (b: string)
    ensures '/' !in b
    ensures |b| <= |p|
    decreases |p|
  {
    if p == [] then []
    else if p[|p| - 1] == '/' then []
    else Basename(p[..|p| - 1]) + [p[|p| - 1]]
  }

  /** A name without a separator is its own basename. */
  lemma {:induction false} BasenameOfName(b: string)
    requires '/' !in b
    ensures Basename(b) == b
    decreases |b|
  {
    if b != [] {
      assert '/' !in b[..|b| - 1];
      BasenameOfName(b[..|b| - 1]);
      assert b[..|b| - 1] + [b[|b| - 1]] == b;
    }
  }

  /** Putting a file under a directory does not change its basename. */
  lemma {:induction false} BasenameUnder(dir: string, rel: string)
    ensures Basename(dir + "/" + rel) == Basename(rel)
    decreases |rel|
  {
    var p := dir + "/" + rel;
    if rel == [] {
      assert p[|p| - 1] == '/';
    } else {
      assert p[|p| - 1] == rel[|rel| - 1];
      if rel[|rel| - 1] != '/' {
        var shorter := rel[..|rel| - 1];
        assert p[..|p| - 1] == dir + "/" + shorter;
        BasenameUnder(dir, shorter);
        assert Basename(p) == Basename(dir + "/" + shorter) + [p[|p| - 1]];
      }
    }
  }

  /** A name placed directly under a directory keeps that name as basename. */
  lemma BasenameOfChild(dir: string, name: string)
    requires '/' !in name
    ensures Basename(dir + "/" + name) == name
  {
    BasenameUnder(dir, name);
    BasenameOfName(name);
  }

  /** The basename is the last component: a suffix of the path that is the
      whole path or is preceded by a separator. */
  lemma {:induction false} BasenameIsLast(p: string)
    ensures EndsWith(p, Basename(p))
    ensures |Basename(p)| == |p| || p[|p| - |Basename(p)| - 1] == '/'
    decreases |p|
  {
    if p != [] && p[|p| - 1] != '/' {
      var q := p[..|p| - 1];
      BasenameIsLast(q);
      var bq := Basename(q);
      assert Basename(p) == bq + [p[|p| - 1]];
      assert p[|p| - |bq| - 1..] == q[|q| - |bq|..] + [p[|p| - 1]];
      if |bq| < |q| {
        assert p[|p| - |bq| - 2] == q[|q| - |bq| - 1];
      }
    }
  }

  /** A `*<suffix>` glob whose suffix has no separator matches a relative
      path exactly when it matches the path's basename. */
  lemma SuffixOnBasename(p: string, suffix: string)
    requires '/' !in suffix
    ensures EndsWith(p, suffix) <==> EndsWith(Basename(p), suffix)
  {
    BasenameIsLast(p);
    var b := Basename(p);
    if |suffix| <= |b| {
      assert b[|b| - |suffix|..] == p[|p| - |suffix|..];
    }
  }

  /** The directories that must exist for `p` to exist:
      every proper prefix of `p` that ends just before a `/`. */
  function Ancestors(p: string): set<string> {
    set i | 0 < i < |p| && p[i] == '/' :: p[..i]
  }

  /** `k` names an entry directly inside directory `dir`. */
  predicate DirectChild(k: string, dir: string) {
    |dir| + 1 < |k| && k[..|dir| + 1] == dir + "/" && '/' !in k[|dir| + 1..]
  }

  /** `pathlib`'s join of a posix path with one more component. */
  function JoinPath(a: string, b: string): (r: string)
    ensures EndsWith(r, b)
    ensures a != [] && a[|a| - 1] != '/' ==> r == a + "/" + b
  {
    if a == [] then b
    else if a[|a| - 1] == '/' then a + b
    else a + "/" + b
  }
}
