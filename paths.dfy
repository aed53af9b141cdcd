/**
 * Node's `path.resolve(dir, relative)` on POSIX paths, for the relative
 * template literals the generator and its routes use. A path is its list of
 * segments below the file-system root.
 */
module Paths {
  import opened Strings

  type Path = seq<string>

  function Parent(p: Path): (r: Path)
    ensures p != [] ==> r + [p[|p| - 1]] == p
  {
    if p == [] then [] else p[..|p| - 1]
  }

  /** `b` is `a` or lies below it. */
  predicate IsPrefix(a: Path, b: Path) {
    |a| <= |b| && b[..|a|] == a
  }

  /** Applies the segments of a relative path: empty and `.` segments are skipped, `..` goes up. */
  function ResolveSegs(base: Path, segs: seq<string>): Path
    decreases |segs|
  {
    if segs == [] then base
    else if segs[0] == "" || segs[0] == "." then ResolveSegs(base, segs[1..])
    else if segs[0] == ".." then ResolveSegs(Parent(base), segs[1..])
    else ResolveSegs(base + [segs[0]], segs[1..])
  }

  /** `path.resolve(base, rel)` for a `rel` that does not start with `/`. */
  function Resolve(base: Path, rel: string): Path {
    ResolveSegs(base, Split(rel, '/'))
  }

  /** The directory holding `webpack-config-generator.js`; its absolute prefix is not modelled. */
  const FnDir: Path := ["functions", "webpack-config-generator"]

  /** The directory holding `lib/generateFiles.js`. */
  const LibDir: Path := FnDir + ["lib"]

  /** A segment `path.resolve` keeps as it is. */
  predicate Plain(s: string) {
    s != "" && s != "." && s != ".." && '/' !in s
  }

  lemma {:induction false} ResolvePlain(base: Path, segs: seq<string>)
    requires forall i :: 0 <= i < |segs| ==> Plain(segs[i])
    ensures ResolveSegs(base, segs) == base + segs
    decreases |segs|
  {
    if segs != [] {
      ResolvePlain(base + [segs[0]], segs[1..]);
      assert base + [segs[0]] + segs[1..] == base + segs;
    }
  }

  lemma {:induction false} ResolveAppend(base: Path, a: seq<string>, b: seq<string>)
    ensures ResolveSegs(base, a + b) == ResolveSegs(ResolveSegs(base, a), b)
    decreases |a|
  {
    if a != [] {
      assert (a + b)[1..] == a[1..] + b;
      if a[0] == "" || a[0] == "." {
        ResolveAppend(base, a[1..], b);
      } else if a[0] == ".." {
        ResolveAppend(Parent(base), a[1..], b);
      } else {
        ResolveAppend(base + [a[0]], a[1..], b);
      }
    } else {
      assert a + b == b;
    }
  }

  lemma SplitCons(a: string, rest: string)
    requires '/' !in a
    ensures Split(a + "/" + rest, '/') == [a] + Split(rest, '/')
  {
    IndexOfAppend(a, '/', rest);
    var s := a + "/" + rest;
    assert s == a + ['/'] + rest;
    assert s[..|a|] == a && s[|a| + 1..] == rest;
  }

  lemma SplitSingle(a: string)
    requires '/' !in a
    ensures Split(a, '/') == [a]
  {
    IndexOfAbsent(a, '/');
  }
}
