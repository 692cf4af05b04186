/** No run of the update helper deletes or overwrites a file or a tree. */
module UpdateConservation {
  import opened Paths
  import opened Disks
  import opened UpdatePlan
  import opened UpdateMachine
  import opened UpdateSafety
  import opened UpdateRuns

  predicate IsMove(act: Action) { act.Move? || act.MoveIfPresent? }

  /** This step renames: the operation took effect, and there was something to rename. */
  predicate Renames(plan: Plan, s: State, ch: Choice)
    requires plan.Valid()
  {
    && IsMove(Act(s.ctl)) && Exists(plan, s.disk, Act(s.ctl).src)
    && (Judge(plan, s, ch).Returns? || (Judge(plan, s, ch).Dies? && ch.applied))
  }

  lemma StepDisk(plan: Plan, s: State, ch: Choice)
    requires plan.Valid()
    ensures Step(plan, s, ch).disk ==
      if Act(s.ctl).Rest? then s.disk else Perform(plan, s.disk, Act(s.ctl), ch, Judge(plan, s, ch))
  {
    hide Perform, Judge, ControlAfter, Launch;
  }

  /** What one step does to the disk. */
  lemma StepWrites(plan: Plan, s: State, ch: Choice)
    requires plan.Valid()
    ensures var act, d, d' := Act(s.ctl), s.disk, Step(plan, s, ch).disk;
      match act
      case Rest | Check | Journal(_) => d' == d
      case Copy(_, dst) => WritesOnly(d, d', {Loc(plan, dst)})
      case Move(src, dst) =>
        d' == if Renames(plan, s, ch) then MoveTree(d, Loc(plan, src), Loc(plan, dst)) else d
      case MoveIfPresent(src, dst) =>
        d' == if Renames(plan, s, ch) then MoveTree(d, Loc(plan, src), Loc(plan, dst)) else d
      case Await => WritesOnly(d, d', {plan.data})
      case Verify => WritesOnly(d, d', VerifyAreas(plan))
  {
    hide Step, Judge, Loc, CopyTree, MoveTree, Exists, VerifyAreas;
    StepDisk(plan, s, ch);
    NothingWritten(s.disk);
    match Act(s.ctl)
    case Copy(src, dst) => CopyTreeFrame(s.disk, Loc(plan, src), Loc(plan, dst));
    case _ =>
  }

  lemma NothingWritten(d: Disk)
    ensures forall areas :: WritesOnly(d, d, areas)
  {
  }

  // ---- Files ----

  /** Where a step takes the file at `p`. */
  function Carry(plan: Plan, s: State, ch: Choice, p: Path): Path
    requires plan.Valid()
  {
    if Renames(plan, s, ch) then Carried(Loc(plan, Act(s.ctl).src), Loc(plan, Act(s.ctl).dst), p) else p
  }

  /** Neither verification nor the client that is waited for may write here now. */
  predicate Spared(plan: Plan, c: Control, p: Path) {
    && (Act(c).Verify? ==> !Covered(p, VerifyAreas(plan)))
    && (Act(c).Await? ==> !Covered(p, {plan.data}))
  }

  lemma WriteSpares(d: Disk, d': Disk, areas: set<Path>, p: Path)
    requires WritesOnly(d, d', areas) && p in d && !Covered(p, areas)
    ensures p in d' && d'[p] == d[p]
  {
  }

  /** No operation of the helper deletes or overwrites a file: each keeps its content, at a path of its own. */
  lemma StepCarriesFiles(plan: Plan, o: Originals<Tree>, s: State, ch: Choice, p: Path)
    requires Inv(plan, o, s) && p in s.disk && Spared(plan, s.ctl, p)
    ensures var q, d' := Carry(plan, s, ch, p), Step(plan, s, ch).disk; q in d' && d'[q] == s.disk[p]
    ensures forall r :: r in s.disk && r != p ==> Carry(plan, s, ch, r) != Carry(plan, s, ch, p)
  {
    hide Step, Judge, Loc, TreeAt, CopyTree, MoveTree, Inv, TableInv, WritesOnly, VerifyAreas, Covered, Act, Carried;
    InvValid(plan, o, s);
    TargetIsClear(plan, o, s);
    StepWrites(plan, s, ch);
    var d' := Step(plan, s, ch).disk;
    if Act(s.ctl).Copy? {
      WriteKeepsFiles(s.disk, d', Loc(plan, Act(s.ctl).dst), p);
    } else if Act(s.ctl).Await? {
      WriteSpares(s.disk, d', {plan.data}, p);
    } else if Act(s.ctl).Verify? {
      WriteSpares(s.disk, d', VerifyAreas(plan), p);
    } else if Renames(plan, s, ch) {
      var src, dst := Loc(plan, Act(s.ctl).src), Loc(plan, Act(s.ctl).dst);
      MoveCarries(s.disk, src, dst, p);
      forall r | r in s.disk && r != p
        ensures Carried(src, dst, r) != Carried(src, dst, p)
      {
        CarriedApart(s.disk, src, dst, p, r);
      }
    }
  }

  /** Where a run takes the file at `p`. */
  function CarryAll(plan: Plan, s: State, chs: seq<Choice>, p: Path): Path
    requires plan.Valid()
  {
    if chs == [] then p
    else
      var before := chs[..|chs| - 1];
      Carry(plan, Run(plan, s, before), chs[|chs| - 1], CarryAll(plan, s, before, p))
  }

  /** The file is never where verification or the client writes. */
  ghost predicate AlwaysSpared(plan: Plan, s: State, chs: seq<Choice>, p: Path)
    requires plan.Valid()
  {
    forall k :: 0 <= k < |chs| ==> Spared(plan, Run(plan, s, chs[..k]).ctl, CarryAll(plan, s, chs[..k], p))
  }

  lemma SparedBefore(plan: Plan, s: State, chs: seq<Choice>, p: Path)
    requires plan.Valid() && chs != [] && AlwaysSpared(plan, s, chs, p)
    ensures var before := chs[..|chs| - 1];
      AlwaysSpared(plan, s, before, p) && Spared(plan, Run(plan, s, before).ctl, CarryAll(plan, s, before, p))
  {
    hide Run, Spared, CarryAll;
    var n := |chs| - 1;
    assert forall k :: 0 <= k < n ==> chs[..n][..k] == chs[..k];
  }

  /** Displaced, failed and half-restored trees included: each file on disk at any moment of the protocol survives
      every later crash, failure and recovery run, and two files never end at one path. */
  lemma {:induction false} FilesSurvive(plan: Plan, o: Originals<Tree>, s: State, chs: seq<Choice>, p: Path)
    requires Inv(plan, o, s) && p in s.disk && AlwaysSpared(plan, s, chs, p)
    ensures var q, d' := CarryAll(plan, s, chs, p), Run(plan, s, chs).disk; q in d' && d'[q] == s.disk[p]
    decreases |chs|
  {
    hide Step, Carry, AlwaysSpared, Spared, Inv, OriginalsFrom;
    InvValid(plan, o, s);
    if chs != [] {
      var before := chs[..|chs| - 1];
      SparedBefore(plan, s, chs, p);
      FilesSurvive(plan, o, s, before, p);
      RunKeepsInv(plan, o, s, before);
      StepCarriesFiles(plan, OriginalsFrom(plan, o, s, before), Run(plan, s, before), chs[|chs| - 1],
                       CarryAll(plan, s, before, p));
    }
  }

  lemma {:induction false} FilesStayApart(plan: Plan, o: Originals<Tree>, s: State, chs: seq<Choice>, p: Path, q: Path)
    requires Inv(plan, o, s) && p in s.disk && q in s.disk && p != q
    requires AlwaysSpared(plan, s, chs, p) && AlwaysSpared(plan, s, chs, q)
    ensures CarryAll(plan, s, chs, p) != CarryAll(plan, s, chs, q)
    decreases |chs|
  {
    hide Step, Carry, AlwaysSpared, Spared, Inv, OriginalsFrom;
    InvValid(plan, o, s);
    if chs != [] {
      var before := chs[..|chs| - 1];
      SparedBefore(plan, s, chs, p);
      SparedBefore(plan, s, chs, q);
      FilesStayApart(plan, o, s, before, p, q);
      FilesSurvive(plan, o, s, before, p);
      FilesSurvive(plan, o, s, before, q);
      RunKeepsInv(plan, o, s, before);
      StepCarriesFiles(plan, OriginalsFrom(plan, o, s, before), Run(plan, s, before), chs[|chs| - 1],
                       CarryAll(plan, s, before, p));
    }
  }

  // ---- Trees ----

  /** Where a step takes the tree at a place. */
  function TreeCarry(plan: Plan, s: State, ch: Choice, p: Place): Place
    requires plan.Valid()
  {
    if Renames(plan, s, ch) && Act(s.ctl).src == p then Act(s.ctl).dst else p
  }

  lemma ActionPlacesScoped(plan: Plan, c: Control)
    requires plan.Valid() && SuffixDrawn(plan, c.pc)
    ensures Act(c).Copy? || IsMove(Act(c)) ==>
      Scoped(plan, Act(c).src) && Scoped(plan, Act(c).dst) && Act(c).src != Act(c).dst
  {
    hide Plan.NewId;
  }

  lemma TreeApart(plan: Plan, d: Disk, d': Disk, a: Place, b: Place, p: Place)
    requires plan.Valid() && Scoped(plan, a) && Scoped(plan, b) && Scoped(plan, p) && p != a && p != b
    requires WritesOnly(d, d', {Loc(plan, a), Loc(plan, b)})
    ensures Trees(plan, d')(p) == Trees(plan, d)(p)
  {
    hide Loc, Scoped, TreeAt, WritesOnly, Separate;
    PlacesSeparate(plan, a, p);
    PlacesSeparate(plan, b, p);
    TreeUnchanged(d, d', {Loc(plan, a), Loc(plan, b)}, Loc(plan, p));
  }

  lemma VerifyApart(plan: Plan, d: Disk, d': Disk, p: Place)
    requires plan.Valid() && Scoped(plan, p) && p != Data && WritesOnly(d, d', VerifyAreas(plan))
    ensures Trees(plan, d')(p) == Trees(plan, d)(p)
  {
    assert Loc(plan, Data) == plan.data && Scoped(plan, Data);
    hide Scoped, TreeAt, WritesOnly, Separate;
    PlacesSeparate(plan, Data, p);
    LogsSeparate(plan, p, "validation.log");
    LogsSeparate(plan, p, "validation-processes.json");
    LogsSeparate(plan, p, "validation-processes.json.new");
    TreeUnchanged(d, d', VerifyAreas(plan), Loc(plan, p));
  }

  lemma InvSuffix(plan: Plan, o: Originals<Tree>, s: State)
    requires Inv(plan, o, s)
    ensures plan.Valid() && SuffixDrawn(plan, s.ctl.pc)
  {
  }

  lemma RenameCarriesTree(plan: Plan, d: Disk, src: Place, dst: Place, p: Place)
    requires plan.Valid() && Scoped(plan, src) && Scoped(plan, dst) && Scoped(plan, p) && src != dst
    requires !Exists(plan, d, dst) && Exists(plan, d, p)
    ensures var d' := MoveTree(d, Loc(plan, src), Loc(plan, dst));
      Trees(plan, d')(if p == src then dst else p) == Trees(plan, d)(p)
  {
    hide Loc, Scoped, TreeAt, MoveTree, WritesOnly;
    if p == src {
      MoveTreeAdds(d, Loc(plan, src), Loc(plan, dst));
    } else {
      MoveTreeFrame(d, Loc(plan, src), Loc(plan, dst));
      TreeApart(plan, d, MoveTree(d, Loc(plan, src), Loc(plan, dst)), src, dst, p);
    }
  }

  lemma WriteSparesTree(plan: Plan, d: Disk, d': Disk, dst: Place, p: Place)
    requires plan.Valid() && Scoped(plan, dst) && Scoped(plan, p) && p != dst && WritesOnly(d, d', {Loc(plan, dst)})
    ensures Trees(plan, d')(p) == Trees(plan, d)(p)
  {
    hide Loc, Scoped, TreeAt, WritesOnly;
    assert {Loc(plan, dst), Loc(plan, dst)} == {Loc(plan, dst)};
    TreeApart(plan, d, d', dst, dst, p);
  }

  /** The data are written by others: verification, and the client that is waited for. */
  predicate WrittenByOthers(c: Control, p: Place) { p.Data? && (Act(c).Verify? || Act(c).Await?) }

  /** Every tree at any place, of this or an earlier recovery run, is after each step whole at the place
      to which the step takes it. */
  lemma StepCarriesTree(plan: Plan, o: Originals<Tree>, s: State, ch: Choice, p: Place)
    requires Inv(plan, o, s) && Scoped(plan, p) && Exists(plan, s.disk, p) && !WrittenByOthers(s.ctl, p)
    ensures Trees(plan, Step(plan, s, ch).disk)(TreeCarry(plan, s, ch, p)) == Trees(plan, s.disk)(p)
    ensures Scoped(plan, TreeCarry(plan, s, ch, p))
  {
    hide Step, Judge, Loc, TreeAt, CopyTree, MoveTree, Inv, TableInv, WritesOnly, VerifyAreas, Scoped, Act;
    InvSuffix(plan, o, s);
    TargetIsClear(plan, o, s);
    ActionPlacesScoped(plan, s.ctl);
    StepWrites(plan, s, ch);
    var d' := Step(plan, s, ch).disk;
    if Act(s.ctl).Copy? {
      WriteSparesTree(plan, s.disk, d', Act(s.ctl).dst, p);
    } else if Act(s.ctl).Await? {
      DataSparesTree(plan, s.disk, d', p);
    } else if Act(s.ctl).Verify? {
      VerifyApart(plan, s.disk, d', p);
    } else if Renames(plan, s, ch) {
      RenameCarriesTree(plan, s.disk, Act(s.ctl).src, Act(s.ctl).dst, p);
    }
  }

  lemma DataSparesTree(plan: Plan, d: Disk, d': Disk, p: Place)
    requires plan.Valid() && Scoped(plan, p) && p != Data && WritesOnly(d, d', {plan.data})
    ensures Trees(plan, d')(p) == Trees(plan, d)(p)
  {
    assert Loc(plan, Data) == plan.data;
    hide Loc, TreeAt, WritesOnly;
    WriteSparesTree(plan, d, d', Data, p);
  }

  function TreeCarryAll(plan: Plan, s: State, chs: seq<Choice>, p: Place): Place
    requires plan.Valid()
  {
    if chs == [] then p
    else
      var before := chs[..|chs| - 1];
      TreeCarry(plan, Run(plan, s, before), chs[|chs| - 1], TreeCarryAll(plan, s, before, p))
  }

  ghost predicate NeverWrittenByOthers(plan: Plan, s: State, chs: seq<Choice>, p: Place)
    requires plan.Valid()
  {
    forall k :: 0 <= k < |chs| ==> !WrittenByOthers(Run(plan, s, chs[..k]).ctl, TreeCarryAll(plan, s, chs[..k], p))
  }

  lemma NotWrittenBefore(plan: Plan, s: State, chs: seq<Choice>, p: Place)
    requires plan.Valid() && chs != [] && NeverWrittenByOthers(plan, s, chs, p)
    ensures var before := chs[..|chs| - 1];
      && NeverWrittenByOthers(plan, s, before, p)
      && !WrittenByOthers(Run(plan, s, before).ctl, TreeCarryAll(plan, s, before, p))
  {
    hide Run, WrittenByOthers, TreeCarryAll;
    var n := |chs| - 1;
    assert forall k :: 0 <= k < n ==> chs[..n][..k] == chs[..k];
  }

  /** A tree that stands at any place stands whole at some place ever after. */
  lemma {:induction false} TreesSurvive(plan: Plan, o: Originals<Tree>, s: State, chs: seq<Choice>, p: Place)
    requires Inv(plan, o, s) && Scoped(plan, p) && Exists(plan, s.disk, p) && NeverWrittenByOthers(plan, s, chs, p)
    ensures var q := TreeCarryAll(plan, s, chs, p);
      Scoped(plan, q) && Trees(plan, Run(plan, s, chs).disk)(q) == Trees(plan, s.disk)(p)
    decreases |chs|
  {
    hide Step, TreeCarry, NeverWrittenByOthers, WrittenByOthers, Inv, OriginalsFrom, Loc, Scoped;
    InvValid(plan, o, s);
    if chs != [] {
      var before := chs[..|chs| - 1];
      NotWrittenBefore(plan, s, chs, p);
      TreesSurvive(plan, o, s, before, p);
      RunKeepsInv(plan, o, s, before);
      StepCarriesTree(plan, OriginalsFrom(plan, o, s, before), Run(plan, s, before), chs[|chs| - 1],
                      TreeCarryAll(plan, s, before, p));
    }
  }

  /** Places that no operation takes anything from. */
  predicate Aside(p: Place) {
    p.DisplacedApp? || p.BackupApp? || p.BackupData? || p.FailedApp? || p.FailedData?
  }

  lemma AsideIsNoSource(c: Control, p: Place)
    requires Aside(p)
    ensures IsMove(Act(c)) ==> Act(c).src != p
  {
  }

  /** The displaced app, both backups and the failed trees of every recovery run stay where they are, whatever
      happens later, verification included. */
  lemma {:induction false} AsideTreesStay(plan: Plan, o: Originals<Tree>, s: State, chs: seq<Choice>, p: Place)
    requires Inv(plan, o, s) && Aside(p) && Scoped(plan, p) && Exists(plan, s.disk, p)
    ensures Trees(plan, Run(plan, s, chs).disk)(p) == Trees(plan, s.disk)(p)
    decreases |chs|
  {
    hide Step, Inv, OriginalsFrom, Loc, Scoped, TreeAt;
    InvValid(plan, o, s);
    if chs != [] {
      var before := chs[..|chs| - 1];
      AsideTreesStay(plan, o, s, before, p);
      RunKeepsInv(plan, o, s, before);
      AsideIsNoSource(Run(plan, s, before).ctl, p);
      StepCarriesTree(plan, OriginalsFrom(plan, o, s, before), Run(plan, s, before), chs[|chs| - 1], p);
    }
  }

  // ---- Files outside the app and the data stay where they are ----

  /** The path lies outside everything the transaction, or the recovery run in progress, may write. */
  predicate Bystander(plan: Plan, pc: Pc, p: Path)
    requires plan.Valid()
  {
    && !(plan.app <= p) && !Covered(p, VerifyAreas(plan))
    && !(Loc(plan, BackupApp) <= p) && !(Loc(plan, BackupData) <= p)
    && !(Loc(plan, StagedApp) <= p) && !(Loc(plan, DisplacedApp) <= p)
    && (pc.Recover? ==> Unnamed(p, pc.suffix))
  }

  lemma UnnamedIsOutside(plan: Plan, place: Place, p: Path)
    requires plan.Valid() && Kind(place) != "" && Unnamed(p, Tail(plan, place))
    ensures !(Loc(plan, place) <= p)
  {
    AnchorsNonempty(plan);
    var at := Loc(plan, place);
    ConcatEndsWith(Last(Anchor(plan, place)) + Kind(place), Tail(plan, place));
    assert at[|at| - 1] == (Last(Anchor(plan, place)) + Kind(place)) + Tail(plan, place);
    PrefixSegments(at, p);
  }

  lemma BystanderOutside(plan: Plan, pc: Pc, p: Path, place: Place)
    requires plan.Valid() && Bystander(plan, pc, p) && !place.Candidate?
    requires OfRun(SuffixOf(pc), place)
    ensures !(Loc(plan, place) <= p)
  {
    assert plan.data in VerifyAreas(plan);
    match place
    case RestoreApp(_) => UnnamedIsOutside(plan, place, p);
    case RestoreData(_) => UnnamedIsOutside(plan, place, p);
    case FailedApp(_) => UnnamedIsOutside(plan, place, p);
    case FailedData(_) => UnnamedIsOutside(plan, place, p);
    case _ =>
  }

  lemma MoveSpares(plan: Plan, d: Disk, src: Place, dst: Place, ch: Choice, out: Outcome, p: Path)
    requires plan.Valid() && p in d && !(Loc(plan, src) <= p) && !(Loc(plan, dst) <= p)
    ensures var d' := MoveAfter(plan, d, src, dst, ch, out); p in d' && d'[p] == d[p]
  {
    MoveTreeFrame(d, Loc(plan, src), Loc(plan, dst));
    WriteSpares(d, MoveTree(d, Loc(plan, src), Loc(plan, dst)), {Loc(plan, src), Loc(plan, dst)}, p);
  }

  /** The candidate is read but never written or moved. */
  predicate SparesCandidate(act: Action) {
    match act
    case Copy(_, dst) => !dst.Candidate?
    case Move(src, dst) => !src.Candidate? && !dst.Candidate?
    case MoveIfPresent(src, dst) => !src.Candidate? && !dst.Candidate?
    case _ => true
  }

  lemma CandidateIsSpared(c: Control)
    ensures SparesCandidate(Act(c))
  {
  }

  lemma PerformSpares(plan: Plan, pc: Pc, d: Disk, act: Action, ch: Choice, out: Outcome, p: Path)
    requires plan.Valid() && Bystander(plan, pc, p) && PlacesOfRun(SuffixOf(pc), act) && p in d
    requires SparesCandidate(act)
    ensures var d' := Perform(plan, d, act, ch, out); p in d' && d'[p] == d[p]
  {
    match act
    case Copy(src, dst) =>
      BystanderOutside(plan, pc, p, dst);
      CopyTreeFrame(d, Loc(plan, src), Loc(plan, dst));
      assert !Covered(p, {Loc(plan, dst)});
    case Move(src, dst) =>
      BystanderOutside(plan, pc, p, src);
      BystanderOutside(plan, pc, p, dst);
      MoveSpares(plan, d, src, dst, ch, out, p);
    case MoveIfPresent(src, dst) =>
      BystanderOutside(plan, pc, p, src);
      BystanderOutside(plan, pc, p, dst);
      MoveSpares(plan, d, src, dst, ch, out, p);
    case _ =>
  }

  lemma SuffixIsKeptOrDrawn(plan: Plan, s: State, ch: Choice)
    requires plan.Valid()
    ensures var pc' := Step(plan, s, ch).ctl.pc;
      pc'.Recover? ==>
        (s.ctl.pc.Recover? && pc'.suffix == s.ctl.pc.suffix) || plan.FreshSuffix(s.disk, pc'.suffix)
  {
    StepControl(plan, s, ch);
    if s.ctl.pc.StartingRecovery? {
    } else {
      SuffixKept(s.ctl, ch);
    }
  }

  lemma StepStaysBystander(plan: Plan, s: State, ch: Choice, p: Path)
    requires plan.Valid() && Bystander(plan, s.ctl.pc, p) && p in s.disk
    ensures Bystander(plan, Step(plan, s, ch).ctl.pc, p)
  {
    SuffixIsKeptOrDrawn(plan, s, ch);
  }

  lemma StepSparesBystander(plan: Plan, s: State, ch: Choice, p: Path)
    requires plan.Valid() && SuffixDrawn(plan, s.ctl.pc) && Bystander(plan, s.ctl.pc, p) && p in s.disk
    ensures p in Step(plan, s, ch).disk && Step(plan, s, ch).disk[p] == s.disk[p]
  {
    StepDisk(plan, s, ch);
    if !Act(s.ctl).Rest? {
      PlacesKnown(plan, s.ctl);
      CandidateIsSpared(s.ctl);
      PerformSpares(plan, s.ctl.pc, s.disk, Act(s.ctl), ch, Judge(plan, s, ch), p);
    }
  }

  lemma {:induction false} BystandersStay(plan: Plan, s0: State, chs: seq<Choice>, p: Path)
    requires Prepped(plan, s0) && Bystander(plan, Idle, p) && p in s0.disk
    ensures var s := Run(plan, s0, chs); Bystander(plan, s.ctl.pc, p) && p in s.disk && s.disk[p] == s0.disk[p]
  {
    hide Step;
    if chs != [] {
      var k := |chs| - 1;
      PreppedInv(plan, s0);
      RunKeepsInv(plan, OriginalsOf(plan, s0), s0, chs[..k]);
      BystandersStay(plan, s0, chs[..k], p);
      StepStaysBystander(plan, Run(plan, s0, chs[..k]), chs[k], p);
      StepSparesBystander(plan, Run(plan, s0, chs[..k]), chs[k], p);
    }
  }

  // ---- Nothing is lost ----

  lemma UntouchedOrBacked<X>(o: Originals<X>, c: Control, v: Table<X>)
    requires TableInv(o, c, v)
    ensures (Untouched(o, v) || Backed(o, v)) && v.candidate == o.candidate
  {
    hide PcInv;
  }

  lemma InvUntouchedOrBacked(plan: Plan, o: Originals<Tree>, s: State)
    requires Inv(plan, o, s)
    ensures plan.Valid()
    ensures var now := Trees(plan, s.disk);
      && ((now(App) == o.app && now(Data) == o.data) || (now(BackupApp) == o.app && now(BackupData) == o.data))
      && now(Candidate) == o.candidate
  {
    hide TableInv, TreeAt, Loc;
    UntouchedOrBacked(o, s.ctl, View(plan, s.disk, SuffixOf(s.ctl.pc)));
  }

  /** In every state of every run the original app and data are whole, in their places or in the backups; the
      candidate is whole; and every other file on disk at preparation is where it was, as it was.
      The helper's log files are not counted. */
  lemma NothingIsLost(plan: Plan, s0: State, chs: seq<Choice>)
    requires Prepped(plan, s0)
    ensures var o := OriginalsFrom(plan, OriginalsOf(plan, s0), s0, chs);
      var d := Run(plan, s0, chs).disk;
      var now := Trees(plan, d);
      && ((now(App) == o.app && now(Data) == o.data) || (now(BackupApp) == o.app && now(BackupData) == o.data))
      && now(Candidate) == Trees(plan, s0.disk)(Candidate)
      && forall p :: p in s0.disk && !(plan.app <= p) && !Covered(p, VerifyAreas(plan)) ==> p in d && d[p] == s0.disk[p]
  {
    hide Run, OriginalsFrom, Inv, VerifyAreas, TreeAt, Loc, Prepped, Covered;
    PreppedInv(plan, s0);
    RunKeepsInv(plan, OriginalsOf(plan, s0), s0, chs);
    AppIsFixed(plan, OriginalsOf(plan, s0), s0, chs);
    InvUntouchedOrBacked(plan, OriginalsFrom(plan, OriginalsOf(plan, s0), s0, chs), Run(plan, s0, chs));
    forall p | p in s0.disk && !(plan.app <= p) && !Covered(p, VerifyAreas(plan))
      ensures p in Run(plan, s0, chs).disk && Run(plan, s0, chs).disk[p] == s0.disk[p]
    {
      StartsAsBystander(plan, s0, p);
      BystandersStay(plan, s0, chs, p);
    }
  }

  lemma StartsAsBystander(plan: Plan, s0: State, p: Path)
    requires Prepped(plan, s0) && p in s0.disk && !(plan.app <= p) && !Covered(p, VerifyAreas(plan))
    ensures Bystander(plan, Idle, p)
  {
    EmptyBelow(s0.disk, Loc(plan, BackupApp), p);
    EmptyBelow(s0.disk, Loc(plan, BackupData), p);
    EmptyBelow(s0.disk, Loc(plan, StagedApp), p);
    EmptyBelow(s0.disk, Loc(plan, DisplacedApp), p);
  }
}
