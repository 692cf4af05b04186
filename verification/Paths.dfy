/** Absolute paths as sequences of segments, and the separation check that every update starts with. */
module Paths {

  type Path = seq<string>

  /** A path as `path.resolve` leaves it: no segment is the parent marker. */
  predicate Normal(p: Path) { ".." !in p }

  function CommonPrefix(a: Path, b: Path): nat {
    if a != [] && b != [] && a[0] == b[0] then 1 + CommonPrefix(a[1..], b[1..]) else 0
  }

  lemma {:induction false} CommonPrefixIsLongest(a: Path, b: Path)
    ensures CommonPrefix(a, b) <= |a| && CommonPrefix(a, b) <= |b|
    ensures a[..CommonPrefix(a, b)] == b[..CommonPrefix(a, b)]
    ensures CommonPrefix(a, b) < |a| && CommonPrefix(a, b) < |b| ==> a[CommonPrefix(a, b)] != b[CommonPrefix(a, b)]
  {
    if a != [] && b != [] && a[0] == b[0] {
      CommonPrefixIsLongest(a[1..], b[1..]);
      var n := CommonPrefix(a[1..], b[1..]);
      assert a[..n + 1] == [a[0]] + a[1..][..n] && b[..n + 1] == [b[0]] + b[1..][..n];
    }
  }

  /** `path.relative(a, b)`: climb out of what `a` does not share with `b`, then descend into `b`. */
  function Relative(a: Path, b: Path): Path
    requires CommonPrefix(a, b) <= |a| && CommonPrefix(a, b) <= |b|
  {
    seq(|a| - CommonPrefix(a, b), _ => "..") + b[CommonPrefix(a, b)..]
  }

  /** The relative path is empty or does not begin by climbing out. */
  predicate Contained(a: Path, b: Path) {
    CommonPrefixIsLongest(a, b);
    var rel := Relative(a, b);
    rel == [] || rel[0] != ".."
  }

  lemma ContainedIsPrefix(a: Path, b: Path)
    requires Normal(b)
    ensures Contained(a, b) <==> a <= b
  {
    CommonPrefixIsLongest(a, b);
    var n := CommonPrefix(a, b);
    assert a <= b ==> forall k :: 0 <= k < |a| ==> a[k] == b[k];
    if n == |a| {
      assert a == a[..n] == b[..n];
      assert Relative(a, b) == b[n..];
      if n < |b| {
        assert b[n] in b;
      }
    } else {
      assert Relative(a, b)[0] == "..";
    }
  }

  predicate Separate(a: Path, b: Path) { !(a <= b) && !(b <= a) }

  predicate PairwiseSeparate(ps: seq<Path>) {
    forall i, j :: 0 <= i < j < |ps| ==> Separate(ps[i], ps[j])
  }

  /** The nested loops that refuse overlapping update paths: no path may contain another. */
  method ValidatePaths(ps: seq<Path>) returns (ok: bool)
    requires forall p :: p in ps ==> Normal(p)
    ensures ok <==> PairwiseSeparate(ps)
  {
    for a := 0 to |ps|
      invariant forall i, j :: 0 <= i < a && i < j < |ps| ==> Separate(ps[i], ps[j])
    {
      for b := a + 1 to |ps|
        invariant forall j :: a < j < b ==> Separate(ps[a], ps[j])
      {
        ContainedIsPrefix(ps[a], ps[b]);
        ContainedIsPrefix(ps[b], ps[a]);
        if Contained(ps[a], ps[b]) || Contained(ps[b], ps[a]) {
          return false;
        }
      }
    }
    return true;
  }

  // ---- Names derived from a path and a generated id ----

  function Last(p: Path): string requires p != [] { p[|p| - 1] }

  /** `p + ext`: the entry beside `p` whose name is the name of `p` followed by `ext`. */
  function Beside(p: Path, ext: string): Path
    requires p != []
  {
    p[..|p| - 1] + [Last(p) + ext]
  }

  predicate EndsWith(s: string, id: string) { |id| <= |s| && s[|s| - |id|..] == id }

  /** The id ends no segment of the path. */
  predicate Unnamed(p: Path, id: string) {
    forall k :: 0 <= k < |p| ==> !EndsWith(p[k], id)
  }

  lemma ConcatEndsWith(s: string, id: string)
    ensures EndsWith(s + id, id)
  {
    assert (s + id)[|s|..] == id;
  }

  /** A prefix agrees with what it is a prefix of, segment by segment. */
  lemma PrefixSegments(x: Path, y: Path)
    ensures x <= y <==> |x| <= |y| && forall k :: 0 <= k < |x| ==> x[k] == y[k]
  {
    assert |x| <= |y| ==> |y[..|x|]| == |x|;
    assert x <= y ==> y[..|x|] == x;
  }

  lemma BesideIsSeparate(a: Path, b: Path, kind: string, id: string)
    requires Separate(a, b) && Unnamed(b, id)
    ensures Separate(Beside(a, kind + id), b)
  {
    var x := Beside(a, kind + id);
    assert Last(x) == (Last(a) + kind) + id;
    ConcatEndsWith(Last(a) + kind, id);
    PrefixSegments(x, b);
    PrefixSegments(b, x);
    PrefixSegments(b, a);
  }

  lemma BesidesAreSeparate(a: Path, b: Path, kindA: string, idA: string, kindB: string, idB: string)
    requires Separate(a, b) && Unnamed(b, idA) && Unnamed(a, idB)
    requires |a| == |b| && (forall k :: 0 <= k < |a| - 1 ==> a[k] == b[k]) ==>
      Last(a) + (kindA + idA) != Last(b) + (kindB + idB)
    ensures Separate(Beside(a, kindA + idA), Beside(b, kindB + idB))
  {
    BesideIsSeparate(a, b, kindA, idA);
    BesideIsSeparate(b, a, kindB, idB);
    var x, y := Beside(a, kindA + idA), Beside(b, kindB + idB);
    PrefixSegments(x, b);
    PrefixSegments(y, a);
    PrefixSegments(x, y);
    PrefixSegments(y, x);
    assert x[|x| - 1] == Last(a) + (kindA + idA) && y[|y| - 1] == Last(b) + (kindB + idB);
    assert forall k :: 0 <= k < |x| - 1 ==> x[k] == a[k];
    assert forall k :: 0 <= k < |y| - 1 ==> y[k] == b[k];
  }

  lemma NamesSeparate(p: Path, x: string, y: string)
    requires p != [] && x != y
    ensures Separate(Beside(p, x), Beside(p, y))
    ensures x != "" ==> Separate(p, Beside(p, x))
  {
    assert Last(Beside(p, x)) == Last(p) + x && Last(Beside(p, y)) == Last(p) + y;
    assert (Last(p) + x)[|Last(p)|..] == x && (Last(p) + y)[|Last(p)|..] == y;
    assert |Beside(p, x)| == |p| == |Beside(p, y)|;
    if x != "" {
      assert |Last(p) + x| != |Last(p)|;
    }
  }
}
