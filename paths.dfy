/** Node's `path.resolve` and `path.relative`, over paths written as sequences of
    segments. An absolute path is the sequence of names below the root. */
module Paths {

  type Segment = string

  /** An absolute path: `["home", "u", "src"]` stands for `/home/u/src`. */
  type Path = seq<Segment>

  /** A segment that names a directory entry, as in a normalised path. */
  predicate IsPlainSegment(s: Segment) { |s| > 0 && s != "." && s != ".." && '/' !in s }

  predicate IsNormal(p: seq<Segment>) { forall i :: 0 <= i < |p| ==> IsPlainSegment(p[i]) }

  /** The text of a path, as Node prints it. */
  function Render(p: Path): string
  {
    if p == [] then "/" else RenderSegments(p)
  }

  function RenderSegments(p: Path): string
  {
    if p == [] then "" else "/" + p[0] + RenderSegments(p[1..])
  }

  /** One segment of `path.resolve`: `..` climbs (the root stays the root), `.` and
      empty segments stay, any other name descends. */
  function Step(base: Path, seg: Segment): Path
  {
    if seg == ".." then (if base == [] then [] else base[..|base| - 1])
    else if seg == "." || seg == "" then base
    else base + [seg]
  }

  /** `path.resolve(base, rel)` for a relative `rel`; `path.resolve(a, b, c)` is
      `Resolve(Resolve(a, b), c)`. */
  function Resolve(base: Path, rel: seq<Segment>): (r: Path)
    ensures |r| <= |base| + |rel|
    decreases |rel|
  {
    if rel == [] then base else Resolve(Step(base, rel[0]), rel[1..])
  }

  function CommonPrefixLength(a: Path, b: Path): (k: nat)
    ensures k <= |a| && k <= |b| && a[..k] == b[..k]
    ensures k < |a| && k < |b| ==> a[k] != b[k]
  {
    if a == [] || b == [] || a[0] != b[0] then 0
    else
      var k := 1 + CommonPrefixLength(a[1..], b[1..]);
      assert a[..k] == [a[0]] + a[1..][..k - 1];
      assert b[..k] == [b[0]] + b[1..][..k - 1];
      k
  }

  function Ups(n: nat): (r: seq<Segment>)
    ensures |r| == n && forall i :: 0 <= i < n ==> r[i] == ".."
  {
    seq(n, _ => "..")
  }

  /** `path.relative(from, to)`: climb out of what the two paths do not share, then
      descend into the rest of `to`. Equal paths give the empty relative path. */
  function Relative(from: Path, to: Path): (r: seq<Segment>)
    ensures from == to ==> r == []
    ensures IsNormal(to) ==> forall i :: 0 <= i < |r| ==> r[i] == ".." || IsPlainSegment(r[i])
  {
    var k := CommonPrefixLength(from, to);
    Ups(|from| - k) + to[k..]
  }

  /** Resolving a normalised relative path appends it. */
  lemma {:induction false} ResolveAppends(base: Path, rel: seq<Segment>)
    requires IsNormal(rel)
    ensures Resolve(base, rel) == base + rel
    decreases |rel|
  {
    if rel != [] {
      assert IsPlainSegment(rel[0]);
      ResolveAppends(base + [rel[0]], rel[1..]);
      assert base + [rel[0]] + rel[1..] == base + rel;
    }
  }

  /** Each leading `..` drops one segment of the base. */
  lemma {:induction false} ResolveClimbs(base: Path, n: nat, rest: seq<Segment>)
    requires n <= |base|
    ensures Resolve(base, Ups(n) + rest) == Resolve(base[..|base| - n], rest)
    decreases n
  {
    if n == 0 {
      assert Ups(0) + rest == rest;
      assert base[..|base|] == base;
    } else {
      var rel := Ups(n) + rest;
      assert rel[0] == "..";
      assert rel[1..] == Ups(n - 1) + rest;
      var up := base[..|base| - 1];
      assert Step(base, "..") == up;
      ResolveClimbs(up, n - 1, rest);
      assert up[..|up| - (n - 1)] == base[..|base| - n];
    }
  }

  /** Round trip: resolving the relative path from `from` to a normalised `to`
      against `from` gives back `to`. */
  lemma RelativeRoundTrip(from: Path, to: Path)
    requires IsNormal(to)
    ensures Resolve(from, Relative(from, to)) == to
  {
    var k := CommonPrefixLength(from, to);
    var rest := to[k..];
    ResolveClimbs(from, |from| - k, rest);
    assert from[..|from| - (|from| - k)] == to[..k];
    NormalSuffix(to, k);
    ResolveAppends(to[..k], rest);
    assert to[..k] + rest == to;
  }

  lemma NormalSuffix(p: seq<Segment>, k: nat)
    requires IsNormal(p) && k <= |p|
    ensures IsNormal(p[k..])
  {
    forall i | 0 <= i < |p[k..]| ensures IsPlainSegment(p[k..][i]) {
      assert p[k..][i] == p[k + i];
    }
  }

  /** A path below `dir` is made relative to `dir` by dropping `dir`. */
  lemma RelativeOfNested(dir: Path, rel: seq<Segment>)
    ensures Relative(dir, dir + rel) == rel
  {
    var k := CommonPrefixLength(dir, dir + rel);
    assert k == |dir|;
    assert Ups(0) + (dir + rel)[|dir|..] == rel;
  }

  /** Re-rooting: a source `srcDir/rel` lands at `destDir/rel`. */
  lemma ReRootNested(srcDir: Path, destDir: Path, rel: seq<Segment>)
    requires IsNormal(rel)
    ensures Resolve(destDir, Relative(srcDir, srcDir + rel)) == destDir + rel
  {
    RelativeOfNested(srcDir, rel);
    ResolveAppends(destDir, rel);
  }
}
