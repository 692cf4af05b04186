/** A file system as a map from paths to entries, and the two operations an update performs on it. */
module Disks {
  import opened Paths

  datatype Node = Directory | File(content: string)
  type Disk = map<Path, Node>

  /** Everything at or below one path, by relative path; empty when nothing is there. */
  type Tree = map<Path, Node>

  function TreeAt(d: Disk, p: Path): (t: Tree)
    ensures forall q :: q in t <==> p + q in d
    ensures forall q :: q in t ==> t[q] == d[p + q]
  {
    var rels := set k | k in d.Keys && p <= k :: k[|p|..];
    assert forall q :: p + q in d ==> (p + q)[|p|..] == q && p <= p + q;
    assert forall q :: q in rels ==> p + q in d by {
      forall q | q in rels ensures p + q in d {
        var k :| k in d.Keys && p <= k && q == k[|p|..];
        assert p + q == k;
      }
    }
    map q | q in rels :: d[p + q]
  }

  predicate Covered(p: Path, areas: set<Path>) { exists a | a in areas :: a <= p }

  /** The two disks agree on every path outside the given areas. */
  predicate WritesOnly(d: Disk, d': Disk, areas: set<Path>) {
    forall p | p in d.Keys + d'.Keys :: Covered(p, areas) || (p in d && p in d' && d[p] == d'[p])
  }

  /** A completed `cpSync`: the source's entries are added under the destination. */
  function CopyTree(d: Disk, src: Path, dst: Path): Disk {
    var added := set k | k in d.Keys && src <= k :: dst + k[|src|..];
    AddedBelow(d, src, dst);
    map p | p in d.Keys + added :: if dst <= p && src + p[|dst|..] in d then d[src + p[|dst|..]] else d[p]
  }

  /** A completed `renameSync`, allowed here to replace whatever is at the destination. */
  function MoveTree(d: Disk, src: Path, dst: Path): Disk {
    var rest := set p | p in d.Keys && !(src <= p) && !(dst <= p);
    var added := set k | k in d.Keys && src <= k :: dst + k[|src|..];
    AddedBelow(d, src, dst);
    map p | p in rest + added :: if dst <= p then d[src + p[|dst|..]] else d[p]
  }

  /** The paths that a copy or a move creates are those below `dst` whose counterpart below `src` exists. */
  lemma AddedBelow(d: Disk, src: Path, dst: Path)
    ensures forall p :: p in (set k | k in d.Keys && src <= k :: dst + k[|src|..]) <==>
      dst <= p && src + p[|dst|..] in d
  {
    forall p
      ensures p in (set k | k in d.Keys && src <= k :: dst + k[|src|..]) <==> dst <= p && src + p[|dst|..] in d
    {
      forall k | k in d.Keys && src <= k && p == dst + k[|src|..]
        ensures dst <= p && src + p[|dst|..] == k
      {
        assert p[|dst|..] == k[|src|..];
      }
      if dst <= p && src + p[|dst|..] in d {
        var k := src + p[|dst|..];
        assert src <= k && k[|src|..] == p[|dst|..];
        assert p == dst + k[|src|..];
      }
    }
  }

  /** Two prefixes of one path are comparable. */
  lemma PrefixesCompare(a: Path, q: Path, r: Path)
    requires a <= q + r
    ensures a <= q || q <= a
  {
    PrefixSegments(a, q + r);
    PrefixSegments(a, q);
    PrefixSegments(q, a);
  }

  lemma TreeUnchanged(d: Disk, d': Disk, areas: set<Path>, q: Path)
    requires WritesOnly(d, d', areas)
    requires forall a :: a in areas ==> Separate(a, q)
    ensures TreeAt(d', q) == TreeAt(d, q)
  {
    forall r: Path
      ensures q + r in d <==> q + r in d'
      ensures q + r in d ==> d[q + r] == d'[q + r]
    {
      forall a | a in areas && a <= q + r
        ensures false
      {
        PrefixesCompare(a, q, r);
      }
      assert !Covered(q + r, areas);
    }
    assert TreeAt(d', q).Keys == TreeAt(d, q).Keys;
  }

  lemma SplitAt(p: Path, q: Path)
    ensures p <= p + q && (p + q)[|p|..] == q
    ensures p <= q ==> p + q[|p|..] == q
  {
  }

  lemma EmptyBelow(d: Disk, dst: Path, p: Path)
    requires TreeAt(d, dst) == map[]
    ensures dst <= p ==> p !in d
  {
    if dst <= p {
      SplitAt(dst, p);
      assert p[|dst|..] !in TreeAt(d, dst);
    }
  }

  lemma CopyTreeAdds(d: Disk, src: Path, dst: Path)
    requires TreeAt(d, dst) == map[]
    ensures TreeAt(CopyTree(d, src, dst), dst) == TreeAt(d, src)
  {
    hide TreeAt;
    AddedBelow(d, src, dst);
    var d' := CopyTree(d, src, dst);
    var t, t' := TreeAt(d, src), TreeAt(d', dst);
    forall q
      ensures q in t <==> q in t'
      ensures q in t ==> t[q] == t'[q]
    {
      SplitAt(dst, q);
      EmptyBelow(d, dst, dst + q);
    }
    assert t.Keys == t'.Keys;
  }

  lemma CopyTreeFrame(d: Disk, src: Path, dst: Path)
    ensures WritesOnly(d, CopyTree(d, src, dst), {dst})
  {
    AddedBelow(d, src, dst);
    var d' := CopyTree(d, src, dst);
    forall p | p in d.Keys + d'.Keys
      ensures Covered(p, {dst}) || (p in d && p in d' && d[p] == d'[p])
    {
      if dst <= p {
        assert dst in {dst};
      }
    }
  }

  lemma MovedBelow(d: Disk, src: Path, dst: Path, q: Path)
    ensures var d' := MoveTree(d, src, dst);
      (dst + q in d' <==> src + q in d) && (src + q in d ==> d'[dst + q] == d[src + q])
  {
    AddedBelow(d, src, dst);
    SplitAt(dst, q);
  }

  lemma MoveTreeAdds(d: Disk, src: Path, dst: Path)
    ensures TreeAt(MoveTree(d, src, dst), dst) == TreeAt(d, src)
  {
    hide TreeAt, MoveTree;
    var t, t' := TreeAt(d, src), TreeAt(MoveTree(d, src, dst), dst);
    forall q
      ensures q in t <==> q in t'
      ensures q in t ==> t[q] == t'[q]
    {
      MovedBelow(d, src, dst, q);
    }
    assert t.Keys == t'.Keys;
  }

  lemma MoveTreeClears(d: Disk, src: Path, dst: Path)
    requires Separate(src, dst)
    ensures TreeAt(MoveTree(d, src, dst), src) == map[]
  {
    AddedBelow(d, src, dst);
    var d' := MoveTree(d, src, dst);
    forall q ensures src + q !in d' {
      SplitAt(src, q);
      if dst <= src + q {
        PrefixesCompare(dst, src, q);
        assert false;
      }
    }
    assert TreeAt(d', src).Keys == {};
  }

  lemma MoveTreeFrame(d: Disk, src: Path, dst: Path)
    ensures WritesOnly(d, MoveTree(d, src, dst), {src, dst})
  {
    AddedBelow(d, src, dst);
    var d' := MoveTree(d, src, dst);
    forall p | p in d.Keys + d'.Keys
      ensures Covered(p, {src, dst}) || (p in d && p in d' && d[p] == d'[p])
    {
      if src <= p {
        assert src in {src, dst};
      } else if dst <= p {
        assert dst in {src, dst};
      }
    }
  }

  lemma WriteKeepsFiles(d: Disk, d': Disk, dst: Path, p: Path)
    requires WritesOnly(d, d', {dst}) && TreeAt(d, dst) == map[] && p in d
    ensures p in d' && d'[p] == d[p]
  {
    EmptyBelow(d, dst, p);
    assert !Covered(p, {dst});
  }

  /** Where a rename takes an entry. */
  function Carried(src: Path, dst: Path, p: Path): Path { if src <= p then dst + p[|src|..] else p }

  /** Onto a clear target a rename takes every entry with it, and no two to one path. */
  lemma MoveCarries(d: Disk, src: Path, dst: Path, p: Path)
    requires TreeAt(d, dst) == map[] && p in d
    ensures var d' := MoveTree(d, src, dst); Carried(src, dst, p) in d' && d'[Carried(src, dst, p)] == d[p]
  {
    EmptyBelow(d, dst, p);
    AddedBelow(d, src, dst);
    if src <= p {
      SplitAt(src, p);
      SplitAt(dst, p[|src|..]);
    }
  }

  lemma CarriedApart(d: Disk, src: Path, dst: Path, p: Path, q: Path)
    requires TreeAt(d, dst) == map[] && p in d && q in d && p != q
    ensures Carried(src, dst, p) != Carried(src, dst, q)
  {
    EmptyBelow(d, dst, p);
    EmptyBelow(d, dst, q);
    SplitAt(src, p);
    SplitAt(src, q);
    if src <= p {
      SplitAt(dst, p[|src|..]);
    }
    if src <= q {
      SplitAt(dst, q[|src|..]);
    }
  }
}
