/** The places an update reads and writes, and why no two of them overlap. */
module UpdatePlan {
  import opened Paths
  import opened Disks

  const UUID_LENGTH := 36

  /** The part of the journal that never changes during a transaction. */
  datatype Plan = Plan(root: Path, app: Path, candidate: Path, data: Path, id: string) {
    function Inputs(): seq<Path> { [root, app, candidate, data] }

    function Backup(): Path { root + [id] }

    /** A generated id that names nothing the plan was given. */
    predicate NewId(x: string) {
      |x| == UUID_LENGTH && Unnamed(root, x) && Unnamed(app, x) && Unnamed(candidate, x) && Unnamed(data, x)
    }

    predicate Valid() { PairwiseSeparate(Inputs()) && NewId(id) }

    /** An id drawn by a recovery run: new to the plan and to every name on disk. */
    predicate FreshSuffix(d: Disk, x: string) {
      NewId(x) && x != id && forall p | p in d.Keys :: Unnamed(p, x)
    }
  }

  /** The trees of a transaction; the last four belong to the recovery run that drew `suffix`. */
  datatype Place =
    | App | Data | Candidate
    | BackupApp | BackupData
    | StagedApp | DisplacedApp
    | RestoreApp(suffix: string) | RestoreData(suffix: string)
    | FailedApp(suffix: string) | FailedData(suffix: string)

  function Anchor(plan: Plan, p: Place): Path {
    match p
    case App | StagedApp | DisplacedApp | RestoreApp(_) | FailedApp(_) => plan.app
    case Data | RestoreData(_) | FailedData(_) => plan.data
    case Candidate => plan.candidate
    case BackupApp | BackupData => plan.root
  }

  function Kind(p: Place): string {
    match p
    case StagedApp => ".update-"
    case DisplacedApp => ".previous-"
    case RestoreApp(_) | RestoreData(_) => ".restore-"
    case FailedApp(_) | FailedData(_) => ".failed-"
    case _ => ""
  }

  predicate BesideData(p: Place) { p.RestoreData? || p.FailedData? }

  function Tail(plan: Plan, p: Place): string {
    match p
    case StagedApp | DisplacedApp => plan.id
    case RestoreApp(x) => x
    case RestoreData(x) => x
    case FailedApp(x) => x
    case FailedData(x) => x
    case _ => ""
  }

  function Loc(plan: Plan, p: Place): Path
    requires plan.Valid()
  {
    AnchorsNonempty(plan);
    match p
    case BackupApp => plan.root + [plan.id, "app"]
    case BackupData => plan.root + [plan.id, "data"]
    case _ => if Kind(p) == "" then Anchor(plan, p) else Beside(Anchor(plan, p), Kind(p) + Tail(plan, p))
  }

  lemma AnchorsNonempty(plan: Plan)
    requires plan.Valid()
    ensures plan.root != [] && plan.app != [] && plan.data != [] && plan.candidate != []
    ensures Separate(plan.root, plan.app) && Separate(plan.root, plan.data) && Separate(plan.root, plan.candidate)
    ensures Separate(plan.app, plan.data) && Separate(plan.app, plan.candidate) && Separate(plan.candidate, plan.data)
  {
    var ps := plan.Inputs();
    assert Separate(ps[0], ps[1]) && Separate(ps[0], ps[2]) && Separate(ps[0], ps[3]);
    assert Separate(ps[1], ps[2]) && Separate(ps[1], ps[3]) && Separate(ps[2], ps[3]);
  }

  /** The suffix of a place is a generated id, other than that of the transaction. */
  predicate Scoped(plan: Plan, p: Place) {
    (BesideData(p) || p.RestoreApp? || p.FailedApp?) ==> plan.NewId(Tail(plan, p)) && Tail(plan, p) != plan.id
  }

  lemma ExtendSeparate(a: Path, b: Path, z: Path)
    requires Separate(a, b)
    ensures Separate(a + z, b)
  {
    PrefixSegments(a + z, b);
    PrefixSegments(b, a + z);
    PrefixSegments(a, b);
    PrefixSegments(b, a);
    assert forall k :: 0 <= k < |a| ==> (a + z)[k] == a[k];
  }

  lemma EqualEndings(a: string, b: string, k1: string, t1: string, k2: string, t2: string)
    requires a + (k1 + t1) == b + (k2 + t2) && |t1| == |t2|
    ensures t1 == t2 && a + k1 == b + k2
  {
    var s := a + (k1 + t1);
    assert s == (a + k1) + t1 && s == (b + k2) + t2;
    assert s[|s| - |t1|..] == t1 && s[|s| - |t2|..] == t2;
    assert s[..|s| - |t1|] == a + k1 && s[..|s| - |t2|] == b + k2;
  }

  lemma AnchorsSeparate(plan: Plan, p: Place, q: Place)
    requires plan.Valid() && Anchor(plan, p) != Anchor(plan, q)
    ensures Separate(Anchor(plan, p), Anchor(plan, q))
  {
    AnchorsNonempty(plan);
  }

  lemma TailsAreNew(plan: Plan, p: Place)
    requires plan.Valid() && Scoped(plan, p) && Kind(p) != ""
    ensures plan.NewId(Tail(plan, p))
  {
  }

  lemma NamedSeparate(plan: Plan, p: Place, q: Place)
    requires plan.Valid() && Scoped(plan, p) && Kind(p) != ""
    requires !q.BackupApp? && !q.BackupData? && Kind(q) == "" && p != q
    ensures Separate(Loc(plan, p), Loc(plan, q))
  {
    AnchorsNonempty(plan);
    TailsAreNew(plan, p);
    if Anchor(plan, p) != Anchor(plan, q) {
      AnchorsSeparate(plan, p, q);
      BesideIsSeparate(Anchor(plan, p), Anchor(plan, q), Kind(p), Tail(plan, p));
    } else {
      NamesSeparate(Anchor(plan, p), Kind(p) + Tail(plan, p), "");
    }
  }

  lemma SameTail(plan: Plan, p: Place, q: Place, u: string, v: string)
    requires plan.Valid() && Scoped(plan, p) && Scoped(plan, q) && Kind(p) != "" && Kind(q) != ""
    requires u + (Kind(p) + Tail(plan, p)) == v + (Kind(q) + Tail(plan, q))
    ensures Tail(plan, p) == Tail(plan, q) && u + Kind(p) == v + Kind(q)
  {
    TailsAreNew(plan, p);
    TailsAreNew(plan, q);
    EqualEndings(u, v, Kind(p), Tail(plan, p), Kind(q), Tail(plan, q));
  }

  lemma KindsAndTails(plan: Plan, p: Place, q: Place)
    requires Kind(p) == Kind(q) != "" && Tail(plan, p) == Tail(plan, q) && BesideData(p) == BesideData(q)
    ensures p == q
  {
  }

  /** The names added beside the app all differ, and so do those added beside the data. */
  lemma ExtensionsDiffer(plan: Plan, p: Place, q: Place)
    requires plan.Valid() && Scoped(plan, p) && Scoped(plan, q)
    requires Kind(p) != "" && Kind(q) != "" && p != q && BesideData(p) == BesideData(q)
    ensures Kind(p) + Tail(plan, p) != Kind(q) + Tail(plan, q)
  {
    var e, f := Kind(p) + Tail(plan, p), Kind(q) + Tail(plan, q);
    if e == f {
      assert "" + e == "" + f;
      SameTail(plan, p, q, "", "");
      assert "" + Kind(p) == Kind(p) && "" + Kind(q) == Kind(q);
      KindsAndTails(plan, p, q);
    }
  }

  lemma KindsReadFromTheEnd(u: string, v: string, p: Place, q: Place)
    requires Kind(p) != "" && Kind(q) != "" && BesideData(p) != BesideData(q)
    requires u + Kind(p) == v + Kind(q)
    ensures Kind(p) == Kind(q) ==> u == v
    ensures p.StagedApp? || p.DisplacedApp? || q.StagedApp? || q.DisplacedApp? || Kind(p) == Kind(q)
  {
    var s, t := u + Kind(p), v + Kind(q);
    assert s[|s| - 2] == Kind(p)[|Kind(p)| - 2] && t[|t| - 2] == Kind(q)[|Kind(q)| - 2];
    assert s[..|u|] == u && t[..|v|] == v;
  }

  lemma TransactionTails(plan: Plan, p: Place, q: Place)
    requires plan.Valid() && Scoped(plan, p) && Scoped(plan, q) && BesideData(p) != BesideData(q)
    requires Kind(p) != "" && Kind(q) != "" && Tail(plan, p) == Tail(plan, q)
    ensures !p.StagedApp? && !p.DisplacedApp? && !q.StagedApp? && !q.DisplacedApp?
  {
  }

  /** A name added beside the app is never a name added beside the data. */
  lemma NamesDiffer(plan: Plan, p: Place, q: Place, u: string, v: string)
    requires plan.Valid() && Scoped(plan, p) && Scoped(plan, q)
    requires Kind(p) != "" && Kind(q) != "" && BesideData(p) != BesideData(q) && u != v
    ensures u + (Kind(p) + Tail(plan, p)) != v + (Kind(q) + Tail(plan, q))
  {
    if u + (Kind(p) + Tail(plan, p)) == v + (Kind(q) + Tail(plan, q)) {
      SameTail(plan, p, q, u, v);
      TransactionTails(plan, p, q);
      KindsReadFromTheEnd(u, v, p, q);
      assert false;
    }
  }

  lemma NamedLoc(plan: Plan, p: Place)
    requires plan.Valid() && Kind(p) != ""
    ensures Anchor(plan, p) == (if BesideData(p) then plan.data else plan.app) != []
    ensures Loc(plan, p) == Beside(Anchor(plan, p), Kind(p) + Tail(plan, p))
  {
    AnchorsNonempty(plan);
  }

  lemma SameSideSeparate(plan: Plan, p: Place, q: Place)
    requires plan.Valid() && Scoped(plan, p) && Scoped(plan, q) && BesideData(p) == BesideData(q)
    requires Kind(p) != "" && Kind(q) != "" && p != q
    ensures Separate(Loc(plan, p), Loc(plan, q))
  {
    hide Separate, Loc, Kind, Anchor, Tail, Scoped;
    NamedLoc(plan, p);
    NamedLoc(plan, q);
    ExtensionsDiffer(plan, p, q);
    NamesSeparate(Anchor(plan, p), Kind(p) + Tail(plan, p), Kind(q) + Tail(plan, q));
  }

  lemma OtherSideSeparate(plan: Plan, p: Place, q: Place)
    requires plan.Valid() && Scoped(plan, p) && Scoped(plan, q) && BesideData(p) != BesideData(q)
    requires Kind(p) != "" && Kind(q) != ""
    ensures Separate(Loc(plan, p), Loc(plan, q))
  {
    var a, b := Anchor(plan, p), Anchor(plan, q);
    TailsAreNew(plan, p);
    TailsAreNew(plan, q);
    NamedLoc(plan, p);
    NamedLoc(plan, q);
    AnchorsNonempty(plan);
    assert Separate(a, b) && Unnamed(b, Tail(plan, p)) && Unnamed(a, Tail(plan, q));
    hide Separate, Loc, Kind, Anchor, Tail, Scoped, Unnamed;
    if Last(a) != Last(b) {
      NamesDiffer(plan, p, q, Last(a), Last(b));
    } else if |a| == |b| && forall k :: 0 <= k < |a| - 1 ==> a[k] == b[k] {
      SeparateDiffer(a, b);
    }
    BesidesAreSeparate(a, b, Kind(p), Tail(plan, p), Kind(q), Tail(plan, q));
  }

  lemma SeparateDiffer(a: Path, b: Path)
    requires Separate(a, b) && |a| == |b| && a != [] && forall k :: 0 <= k < |a| - 1 ==> a[k] == b[k]
    ensures Last(a) != Last(b)
  {
    PrefixSegments(a, b);
  }

  lemma BackupSeparate(plan: Plan, p: Place, q: Place)
    requires plan.Valid() && Scoped(plan, q)
    requires p.BackupApp? || p.BackupData?
    requires p != q
    ensures Separate(Loc(plan, p), Loc(plan, q))
  {
    AnchorsNonempty(plan);
    if q.BackupApp? || q.BackupData? {
      assert Loc(plan, p)[|plan.root| + 1] != Loc(plan, q)[|plan.root| + 1];
    } else {
      if Kind(q) != "" {
        TailsAreNew(plan, q);
        BesideIsSeparate(Anchor(plan, q), plan.root, Kind(q), Tail(plan, q));
      }
      assert Separate(plan.root, Loc(plan, q));
      ExtendSeparate(plan.root, Loc(plan, q), Loc(plan, p)[|plan.root|..]);
      assert Loc(plan, p) == plan.root + Loc(plan, p)[|plan.root|..];
    }
  }

  /** No two places of a transaction contain one another, because its four input paths do not;
      those of different recovery runs included. */
  lemma PlacesSeparate(plan: Plan, p: Place, q: Place)
    requires plan.Valid() && Scoped(plan, p) && Scoped(plan, q) && p != q
    ensures Separate(Loc(plan, p), Loc(plan, q))
  {
    hide Scoped, Loc, Separate;
    AnchorsNonempty(plan);
    if p.BackupApp? || p.BackupData? {
      BackupSeparate(plan, p, q);
    } else if q.BackupApp? || q.BackupData? {
      BackupSeparate(plan, q, p);
      Symmetric(Loc(plan, p), Loc(plan, q));
    } else if Kind(p) != "" && Kind(q) != "" {
      if BesideData(p) == BesideData(q) {
        SameSideSeparate(plan, p, q);
      } else {
        OtherSideSeparate(plan, p, q);
      }
    } else if Kind(p) != "" {
      NamedSeparate(plan, p, q);
    } else if Kind(q) != "" {
      NamedSeparate(plan, q, p);
      Symmetric(Loc(plan, p), Loc(plan, q));
    } else {
      InputsSeparate(plan, p, q);
    }
  }

  lemma InputsSeparate(plan: Plan, p: Place, q: Place)
    requires plan.Valid() && p != q && Kind(p) == "" && Kind(q) == ""
    requires !p.BackupApp? && !p.BackupData? && !q.BackupApp? && !q.BackupData?
    ensures Separate(Loc(plan, p), Loc(plan, q))
  {
    AnchorsNonempty(plan);
  }

  lemma Symmetric(a: Path, b: Path)
    requires Separate(b, a)
    ensures Separate(a, b)
  {
  }

  /** Nothing stands at the places named by an id that ends no name on disk. */
  lemma FreshPlaceEmpty(plan: Plan, d: Disk, p: Place)
    requires plan.Valid() && Kind(p) != ""
    requires forall k | k in d.Keys :: Unnamed(k, Tail(plan, p))
    ensures TreeAt(d, Loc(plan, p)) == map[]
  {
    AnchorsNonempty(plan);
    var at := Loc(plan, p);
    ConcatEndsWith(Last(Anchor(plan, p)) + Kind(p), Tail(plan, p));
    assert at[|at| - 1] == (Last(Anchor(plan, p)) + Kind(p)) + Tail(plan, p);
    forall q
      ensures at + q !in d
    {
      assert EndsWith((at + q)[|at| - 1], Tail(plan, p));
    }
    assert TreeAt(d, at).Keys == {};
  }
}
