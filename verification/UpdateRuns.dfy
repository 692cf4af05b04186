/** What holds in every run of the update helper, over any number of crashes, failures and restarts. */
module UpdateRuns {
  import opened Paths
  import opened Disks
  import opened UpdatePlan
  import opened UpdateMachine
  import opened UpdateSafety

  function OriginalsOf(plan: Plan, s: State): Originals<Tree>
    requires plan.Valid()
  {
    Originals(Trees(plan, s.disk)(App), Trees(plan, s.disk)(Data), Trees(plan, s.disk)(Candidate))
  }

  /** beginUpdate leaves a prepared transaction: validated paths and a new id keep all its places empty. */
  lemma BeginPrepares(plan: Plan, d: Disk)
    requires PairwiseSeparate(plan.Inputs()) && plan.NewId(plan.id)
    requires forall p | p in d.Keys :: Unnamed(p, plan.id)
    ensures Prepped(plan, Begin(plan, d))
  {
    hide TreeAt, Loc;
    BackupStartsEmpty(plan, d, BackupApp);
    BackupStartsEmpty(plan, d, BackupData);
    BesideStartsEmpty(plan, d, StagedApp);
    BesideStartsEmpty(plan, d, DisplacedApp);
  }

  lemma BackupStartsEmpty(plan: Plan, d: Disk, p: Place)
    requires plan.Valid() && (p.BackupApp? || p.BackupData?)
    requires forall k | k in d.Keys :: Unnamed(k, plan.id)
    ensures TreeAt(Begin(plan, d).disk, Loc(plan, p)) == map[]
  {
    var at := Loc(plan, p);
    assert at[|plan.root|] == plan.id;
    forall q
      ensures at + q !in Begin(plan, d).disk
    {
      assert (at + q)[|plan.root|] == plan.id;
      assert EndsWith(plan.id, plan.id);
      assert |at + q| > |plan.Backup()|;
    }
    assert TreeAt(Begin(plan, d).disk, at).Keys == {};
  }

  lemma BesideStartsEmpty(plan: Plan, d: Disk, p: Place)
    requires plan.Valid() && (p.StagedApp? || p.DisplacedApp?)
    requires forall k | k in d.Keys :: Unnamed(k, plan.id)
    ensures TreeAt(Begin(plan, d).disk, Loc(plan, p)) == map[]
  {
    FreshPlaceEmpty(plan, d, p);
    AnchorsNonempty(plan);
    BesideIsSeparate(Anchor(plan, p), plan.root, Kind(p), plan.id);
    ExtendSeparate(plan.root, Loc(plan, p), [plan.id]);
    assert TreeAt(d, Loc(plan, p)).Keys == {};
    forall q
      ensures Loc(plan, p) + q !in Begin(plan, d).disk
    {
      SplitAt(Loc(plan, p), q);
      assert q !in TreeAt(d, Loc(plan, p));
    }
    assert TreeAt(Begin(plan, d).disk, Loc(plan, p)).Keys == {};
  }

  lemma PreppedInv(plan: Plan, s: State)
    requires Prepped(plan, s)
    ensures Inv(plan, OriginalsOf(plan, s), s)
  {
  }

  lemma InvValid(plan: Plan, o: Originals<Tree>, s: State)
    requires Inv(plan, o, s)
    ensures plan.Valid()
  {
  }

  /** The trees that the update starts from, as the run has shown them so far. */
  function OriginalsFrom(plan: Plan, o: Originals<Tree>, s: State, chs: seq<Choice>): Originals<Tree>
    requires plan.Valid()
  {
    if chs == [] then o
    else
      var before := chs[..|chs| - 1];
      OriginalsAfter(plan, OriginalsFrom(plan, o, s, before), Run(plan, s, before), chs[|chs| - 1])
  }

  lemma {:induction false} RunKeepsInv(plan: Plan, o: Originals<Tree>, s: State, chs: seq<Choice>)
    requires Inv(plan, o, s)
    ensures Inv(plan, OriginalsFrom(plan, o, s, chs), Run(plan, s, chs))
    decreases |chs|
  {
    hide Step, OriginalsAfter, Inv;
    InvValid(plan, o, s);
    var inv := Inv(plan, OriginalsFrom(plan, o, s, chs), Run(plan, s, chs));
    if chs != [] {
      var before := chs[..|chs| - 1];
      RunKeepsInv(plan, o, s, before);
      StepKeepsInv(plan, OriginalsFrom(plan, o, s, before), Run(plan, s, before), chs[|chs| - 1]);
    }
    assert inv;
  }

  lemma OnlyDataChange(plan: Plan, o: Originals<Tree>, s: State, ch: Choice)
    requires plan.Valid()
    ensures OriginalsAfter(plan, o, s, ch).app == o.app && OriginalsAfter(plan, o, s, ch).candidate == o.candidate
  {
    hide Step, Trees;
  }

  /** Only the data of an update that is still 'prepared' may be changed by its client. */
  lemma {:induction false} AppIsFixed(plan: Plan, o: Originals<Tree>, s: State, chs: seq<Choice>)
    requires plan.Valid()
    ensures OriginalsFrom(plan, o, s, chs).app == o.app && OriginalsFrom(plan, o, s, chs).candidate == o.candidate
    decreases |chs|
  {
    hide Run, Step, Trees;
    if chs != [] {
      AppIsFixed(plan, o, s, chs[..|chs| - 1]);
    }
  }

  lemma PhaseWritten(c: Control, ch: Choice, out: Outcome)
    ensures var p := ControlAfter(c, ch, out).phase; p == c.phase || (Act(c).Journal? && p == Act(c).phase)
  {
    hide Next, Handler, Act;
  }

  /** No write takes the journal back to the two phases before the backups are complete. */
  lemma WritesGoForward<X>(o: Originals<X>, c: Control, v: Table<X>)
    requires TableInv(o, c, v)
    ensures !c.phase.Prepared? ==> !(Act(c).Journal? && Act(c).phase.Prepared?) && !Act(c).Await?
    ensures !c.phase.Prepared? && !c.phase.BackingUp? ==> !(Act(c).Journal? && Act(c).phase.BackingUp?)
  {
    hide RecoverInv, PhaseInv, Backed, Untouched, Unused;
  }

  lemma ControlStaysBegun<X>(o: Originals<X>, c: Control, v: Table<X>, ch: Choice, out: Outcome)
    requires TableInv(o, c, v) && !c.phase.Prepared?
    ensures var c' := ControlAfter(c, ch, out);
      !c'.phase.Prepared? && !Act(c).Await? && (!c.phase.BackingUp? ==> !c'.phase.BackingUp?)
  {
    hide ControlAfter, TableInv, Act;
    PhaseWritten(c, ch, out);
    WritesGoForward(o, c, v);
  }

  lemma StepStaysBegun(plan: Plan, o: Originals<Tree>, s: State, ch: Choice)
    requires Inv(plan, o, s) && !s.ctl.phase.Prepared?
    ensures !Step(plan, s, ch).ctl.phase.Prepared? && OriginalsAfter(plan, o, s, ch) == o
  {
    hide Step, ControlAfter, Judge, TableInv, Act, Tabulate;
    ControlStaysBegun(o, s.ctl, View(plan, s.disk, SuffixOf(s.ctl.pc)), ch, Judge(plan, s, ch));
    StepControl(plan, s, ch);
  }

  /** Once the update has begun to work, the trees it started from are fixed. */
  lemma {:induction false} BegunStaysBegun(plan: Plan, o: Originals<Tree>, s: State, chs: seq<Choice>)
    requires Inv(plan, o, s) && !s.ctl.phase.Prepared?
    ensures OriginalsFrom(plan, o, s, chs) == o && !Run(plan, s, chs).ctl.phase.Prepared?
    ensures Inv(plan, o, Run(plan, s, chs))
    decreases |chs|
  {
    hide Step, OriginalsAfter, Inv;
    InvValid(plan, o, s);
    RunKeepsInv(plan, o, s, chs);
    if chs != [] {
      var before := chs[..|chs| - 1];
      BegunStaysBegun(plan, o, s, before);
      StepStaysBegun(plan, o, Run(plan, s, before), chs[|chs| - 1]);
    }
  }

  lemma TerminalMeaning<X>(o: Originals<X>, c: Control, v: Table<X>)
    requires TableInv(o, c, v)
    ensures c.phase.RolledBack? ==> v.app == o.app && v.data == o.data
    ensures c.phase.Complete? ==> v.app == o.candidate && c.verified
    ensures c.phase.Failed? && c.commitThrew ==> v.app == o.candidate
    ensures c.phase.Failed? && !c.commitThrew ==> v.app == o.app && v.data == o.data
    ensures c.phase.Prepared? ==> v.app == o.app && v.data == o.data
  {
  }

  /** What a journal means for the trees, given those that the update started from. */
  ghost predicate MeansWhatItSays(plan: Plan, o: Originals<Tree>, s: State)
    requires plan.Valid()
  {
    var now := Trees(plan, s.disk);
    && (s.ctl.phase.RolledBack? ==> now(App) == o.app && now(Data) == o.data)
    && (s.ctl.phase.Complete? ==> now(App) == o.candidate && s.ctl.verified)
    && (s.ctl.phase.Failed? ==>
          if s.ctl.commitThrew then now(App) == o.candidate else now(App) == o.app && now(Data) == o.data)
  }

  lemma InvMeans(plan: Plan, o: Originals<Tree>, s: State)
    requires Inv(plan, o, s)
    ensures MeansWhatItSays(plan, o, s)
    ensures s.ctl.phase.Prepared? ==> Trees(plan, s.disk)(App) == o.app && Trees(plan, s.disk)(Data) == o.data
  {
    hide TableInv, TreeAt, Loc;
    TerminalMeaning(o, s.ctl, View(plan, s.disk, SuffixOf(s.ctl.pc)));
  }

  /** The meaning of a terminal journal, in any run from a prepared transaction. App and candidate are those
      at preparation; the data are those that the client left when the helper had waited for it. */
  lemma CrashSafety(plan: Plan, s0: State, chs: seq<Choice>)
    requires Prepped(plan, s0)
    ensures var o := OriginalsFrom(plan, OriginalsOf(plan, s0), s0, chs);
      && MeansWhatItSays(plan, o, Run(plan, s0, chs))
      && o.app == Trees(plan, s0.disk)(App) && o.candidate == Trees(plan, s0.disk)(Candidate)
  {
    hide Step, Inv, Run, OriginalsFrom, MeansWhatItSays;
    PreppedInv(plan, s0);
    RunKeepsInv(plan, OriginalsOf(plan, s0), s0, chs);
    AppIsFixed(plan, OriginalsOf(plan, s0), s0, chs);
    InvMeans(plan, OriginalsFrom(plan, OriginalsOf(plan, s0), s0, chs), Run(plan, s0, chs));
  }

  /** From the `k`-th state on, no helper waits for the client of a prepared update. */
  ghost predicate NoneAwaited(plan: Plan, s: State, chs: seq<Choice>, k: nat)
    requires plan.Valid()
  {
    forall i :: k <= i < |chs| ==> !Act(Run(plan, s, chs[..i]).ctl).Await?
  }

  lemma {:induction false} OriginalsKept(plan: Plan, o: Originals<Tree>, s: State, chs: seq<Choice>, k: nat)
    requires plan.Valid() && k <= |chs| && NoneAwaited(plan, s, chs, k)
    ensures OriginalsFrom(plan, o, s, chs) == OriginalsFrom(plan, o, s, chs[..k])
    decreases |chs|
  {
    hide Run, Trees, Step;
    if k == |chs| {
      assert chs[..k] == chs;
    } else {
      var n := |chs| - 1;
      assert chs[..n][..k] == chs[..k];
      assert forall i :: k <= i < n ==> chs[..n][..i] == chs[..i];
      OriginalsKept(plan, o, s, chs[..n], k);
    }
  }

  /** The trees meant are those in place when executeUpdate starts, which it then snapshots: 'rolled-back' restores
      them, 'failed' has left them alone, or the write of 'complete' has thrown. */
  lemma RestoresWhatPreflightFound(plan: Plan, s0: State, chs: seq<Choice>, k: nat)
    requires Prepped(plan, s0) && k <= |chs| && NoneAwaited(plan, s0, chs, k)
    requires Run(plan, s0, chs[..k]).ctl.pc == Exec(Preflight)
    ensures var s := Run(plan, s0, chs);
      var found := Trees(plan, Run(plan, s0, chs[..k]).disk);
      var now := Trees(plan, s.disk);
      s.ctl.phase.RolledBack? || (s.ctl.phase.Failed? && !s.ctl.commitThrew) ==>
        now(App) == found(App) && now(Data) == found(Data)
  {
    hide Run, Step, OriginalsFrom, TableInv, Tabulate, NoneAwaited, TreeAt, Loc;
    CrashSafety(plan, s0, chs);
    var o := OriginalsFrom(plan, OriginalsOf(plan, s0), s0, chs[..k]);
    var s := Run(plan, s0, chs[..k]);
    OriginalsKept(plan, OriginalsOf(plan, s0), s0, chs, k);
    PreppedInv(plan, s0);
    RunKeepsInv(plan, OriginalsOf(plan, s0), s0, chs[..k]);
    PreflightIsPrepared(o, s.ctl, View(plan, s.disk, ""));
    InvMeans(plan, o, s);
  }

  lemma PreflightIsPrepared<X>(o: Originals<X>, c: Control, v: Table<X>)
    requires TableInv(o, c, v) && c.pc == Exec(Preflight)
    ensures c.phase.Prepared?
  {
  }

  /** One step, seen from the journal and the helper alone. */
  lemma StepControl(plan: Plan, s: State, ch: Choice)
    requires plan.Valid()
    ensures Step(plan, s, ch).ctl ==
      if !Act(s.ctl).Rest? then ControlAfter(s.ctl, ch, Judge(plan, s, ch))
      else if ch.kind.Start? then Launch(s.ctl, ch.kind.recover) else s.ctl
  {
    hide Step, Perform, ControlAfter, Judge, Launch;
    if Act(s.ctl).Rest? {
      StepAtRest(plan, s, ch);
    } else {
      StepAtWork(plan, s, ch);
    }
  }

  /** The choice by which the journal write of 'complete' throws. */
  predicate CommitThrows(plan: Plan, s: State, ch: Choice)
    requires plan.Valid()
  {
    s.ctl.pc == Exec(WriteComplete) && ch.kind.Throws?
  }

  lemma JudgeJournal(plan: Plan, s: State, ch: Choice)
    requires plan.Valid() && Act(s.ctl).Journal? && !s.ctl.pc.StartingRecovery?
    ensures Judge(plan, s, ch) == Ending(ch.kind, true)
  {
  }

  lemma CommitControl(c: Control, ch: Choice, out: Outcome)
    ensures ControlAfter(c, ch, out).commitThrew <==> c.commitThrew || (out.Raises? && c.pc == Exec(WriteComplete))
  {
    hide Next, Handler, Strands, Act;
  }

  lemma CommitFlag(plan: Plan, s: State, ch: Choice)
    requires plan.Valid()
    ensures Step(plan, s, ch).ctl.commitThrew <==> s.ctl.commitThrew || CommitThrows(plan, s, ch)
  {
    hide Step, Judge, ControlAfter;
    StepControl(plan, s, ch);
    CommitControl(s.ctl, ch, Judge(plan, s, ch));
    if s.ctl.pc == Exec(WriteComplete) {
      JudgeJournal(plan, s, ch);
    }
  }

  ghost predicate CommitThrewIn(plan: Plan, s: State, chs: seq<Choice>)
    requires plan.Valid()
  {
    exists k :: 0 <= k < |chs| && CommitThrows(plan, Run(plan, s, chs[..k]), chs[k])
  }

  lemma CommitThrewInLast(plan: Plan, s: State, chs: seq<Choice>)
    requires plan.Valid() && chs != []
    ensures var n := |chs| - 1;
      CommitThrewIn(plan, s, chs) <==>
        CommitThrewIn(plan, s, chs[..n]) || CommitThrows(plan, Run(plan, s, chs[..n]), chs[n])
  {
    hide Run, CommitThrows;
    var n := |chs| - 1;
    assert forall k :: 0 <= k < n ==> chs[..n][..k] == chs[..k] && chs[..n][k] == chs[k];
  }

  /** The flag in `CrashSafety` records exactly whether the run took that choice. */
  lemma {:induction false} CommitThrewExactly(plan: Plan, s0: State, chs: seq<Choice>)
    requires Prepped(plan, s0)
    ensures Run(plan, s0, chs).ctl.commitThrew <==> CommitThrewIn(plan, s0, chs)
  {
    hide Step;
    if chs != [] {
      CommitThrewExactly(plan, s0, chs[..|chs| - 1]);
      CommitThrewInLast(plan, s0, chs);
      CommitFlag(plan, Run(plan, s0, chs[..|chs| - 1]), chs[|chs| - 1]);
    }
  }

  lemma JournalStep(plan: Plan, s: State, ch: Choice)
    requires plan.Valid() && Act(s.ctl).Journal? && !s.ctl.pc.StartingRecovery?
    ensures ch.kind.Done? ==> Step(plan, s, ch) == State(s.disk, ControlAfter(s.ctl, ch, Returns))
    ensures ch.kind.Throws? ==> Step(plan, s, ch) == State(s.disk, ControlAfter(s.ctl, ch, Raises(ch.kind.unsafe)))
  {
    hide Step, Perform, ControlAfter;
    StepAtWork(plan, s, ch);
    PerformIdle(plan, s.disk, Act(s.ctl), ch, Judge(plan, s, ch));
  }

  lemma AfterThrownCommit(c: Control, ch: Choice, unsafe: bool, a: Choice, b: Choice)
    requires c.pc == Exec(WriteComplete)
    ensures var c1 := ControlAfter(c, ch, Raises(unsafe));
      var c2 := ControlAfter(c1, a, Returns);
      c1.pc == NotingError(false) && c2.pc == Deciding(false) && ControlAfter(c2, b, Returns).phase.Failed?
  {
  }

  lemma ThrownCommitSteps(plan: Plan, s: State, ch: Choice, a: Choice, b: Choice)
    requires plan.Valid() && CommitThrows(plan, s, ch) && a.kind.Done? && b.kind.Done?
    ensures var s' := Step(plan, Step(plan, Step(plan, s, ch), a), b); s'.ctl.phase.Failed? && s'.disk == s.disk
  {
    AfterThrownCommit(s.ctl, ch, ch.kind.unsafe, a, b);
    JournalStep(plan, s, ch);
    JournalStep(plan, Step(plan, s, ch), a);
    JournalStep(plan, Step(plan, Step(plan, s, ch), a), b);
  }

  lemma AppInstalled<X>(o: Originals<X>, c: Control, v: Table<X>)
    requires TableInv(o, c, v) && c.pc == Exec(WriteComplete)
    ensures v.app == o.candidate
  {
  }

  /** If that write throws and the two writes after it do not, 'failed' is published over the new app. */
  lemma ThrownCommitPublishesFailed(plan: Plan, o: Originals<Tree>, s: State, ch: Choice, a: Choice, b: Choice)
    requires Inv(plan, o, s) && CommitThrows(plan, s, ch) && a.kind.Done? && b.kind.Done?
    ensures Step(plan, Step(plan, Step(plan, s, ch), a), b).ctl.phase.Failed?
    ensures Trees(plan, Step(plan, Step(plan, Step(plan, s, ch), a), b).disk)(App) == o.candidate
  {
    ThrownCommitSteps(plan, s, ch, a, b);
    AppInstalled(o, s.ctl, View(plan, s.disk, ""));
  }

  // ---- Backups ----

  predicate BackupsComplete(plan: Plan, o: Originals<Tree>, d: Disk)
    requires plan.Valid()
  {
    Trees(plan, d)(BackupApp) == o.app && Trees(plan, d)(BackupData) == o.data
  }

  lemma TableKeepsBackups<X>(o: Originals<X>, c: Control, ch: Choice, out: Outcome, v: Table<X>, v': Table<X>)
    requires TableInv(o, c, v) && Effect(Act(c), ch.applied, out, v, v') && !Act(c).Rest? && !out.Waits?
    requires !c.phase.Prepared? && !c.phase.BackingUp?
    ensures v'.backupApp == v.backupApp && v'.backupData == v.backupData
  {
    hide PhaseInv, RecoverInv, Handling;
  }

  lemma StepKeepsBackups(plan: Plan, o: Originals<Tree>, s: State, ch: Choice)
    requires Inv(plan, o, s) && BackupsComplete(plan, o, s.disk) && !s.ctl.phase.Prepared? && !s.ctl.phase.BackingUp?
    ensures var s' := Step(plan, s, ch);
      BackupsComplete(plan, o, s'.disk) && !s'.ctl.phase.Prepared? && !s'.ctl.phase.BackingUp?
  {
    hide Step, Perform, ControlAfter, Judge, Trees, TableInv;
    if Act(s.ctl).Rest? {
      StepAtRest(plan, s, ch);
    } else {
      var x := SuffixOf(s.ctl.pc);
      var out := Judge(plan, s, ch);
      StepAtWork(plan, s, ch);
      if out.Waits? {
        PerformIdle(plan, s.disk, Act(s.ctl), ch, Waits);
        WaitingKeepsControl(s.ctl, ch);
      } else {
        StepRefines(plan, o, s, ch);
        ControlStaysBegun(o, s.ctl, View(plan, s.disk, x), ch, out);
        TableKeepsBackups(o, s.ctl, ch, out, View(plan, s.disk, x), View(plan, Step(plan, s, ch).disk, x));
      }
    }
  }

  lemma BackedUpMeans<X>(o: Originals<X>, c: Control, v: Table<X>)
    requires TableInv(o, c, v) && c.phase.BackedUp?
    ensures v.backupApp == o.app && v.backupData == o.data
  {
  }

  lemma InvBacked(plan: Plan, o: Originals<Tree>, s: State)
    requires Inv(plan, o, s) && s.ctl.phase.BackedUp?
    ensures BackupsComplete(plan, o, s.disk)
  {
    hide TableInv;
    BackedUpMeans(o, s.ctl, View(plan, s.disk, SuffixOf(s.ctl.pc)));
  }

  /** Once 'backed-up' has been durable, both backups equal the originals in every later state. */
  lemma {:induction false} BackupsAreImmutable(plan: Plan, o: Originals<Tree>, s: State, chs: seq<Choice>)
    requires Inv(plan, o, s) && s.ctl.phase.BackedUp?
    ensures var s' := Run(plan, s, chs);
      BackupsComplete(plan, o, s'.disk) && !s'.ctl.phase.Prepared? && !s'.ctl.phase.BackingUp?
    decreases |chs|
  {
    hide Step, Inv, BackupsComplete;
    InvValid(plan, o, s);
    if chs == [] {
      InvBacked(plan, o, s);
    } else {
      BegunStaysBegun(plan, o, s, chs[..|chs| - 1]);
      BackupsAreImmutable(plan, o, s, chs[..|chs| - 1]);
      StepKeepsBackups(plan, o, Run(plan, s, chs[..|chs| - 1]), chs[|chs| - 1]);
    }
  }

  // ---- The helper always comes to rest ----

  function ExecRank(l: ExecLine): nat {
    match l
    case Preflight => 27
    case Stopping => 26
    case WriteBackingUp => 25
    case CopyingApp => 24
    case CopyingData => 23
    case WriteBackedUp => 22
    case CopyingCandidate => 21
    case ValidatingStage => 20
    case WriteInstalling => 19
    case MovingAppAside => 18
    case MovingStagedIn => 17
    case WriteVerifying => 16
    case VerifyingApp => 15
    case WriteComplete => 14
  }

  function RecoverRank(l: RecoverLine): nat {
    match l
    case RestoringApp => 10
    case RestoringData => 9
    case MovingAppOut => 8
    case MovingAppBack => 7
    case MovingDataOut => 6
    case MovingDataBack => 5
    case WriteRolledBack => 4
  }

  /** At most this many operations remain before the helper process ends. */
  function Rank(pc: Pc): nat {
    match pc
    case Idle | Crashed | Returned => 0
    case HelperFailing => 1
    case HelperNoting => 2
    case RecoveryFailing => 3
    case Recover(l, _) => RecoverRank(l)
    case StartingRecovery => 11
    case Deciding(_) => 12
    case NotingError(_) => 13
    case Exec(l) => ExecRank(l)
    case StoppingOrphans => 28
    case Waiting(_) => 29
  }

  lemma NextRank(c: Control, suffix: string)
    requires !Act(c).Rest?
    ensures Rank(Next(c, suffix)) < Rank(c.pc)
  {
  }

  lemma HandlerRank(c: Control, unsafe: bool)
    requires !Act(c).Rest?
    ensures Rank(Handler(c, unsafe)) < Rank(c.pc)
  {
  }

  lemma RankFalls(c: Control, ch: Choice, out: Outcome)
    requires !Act(c).Rest? && !out.Waits?
    ensures Rank(ControlAfter(c, ch, out).pc) < Rank(c.pc)
  {
    NextRank(c, ch.suffix);
    HandlerRank(c, out.Raises? && out.unsafe);
    RankZero(Crashed);
    hide Written, Next, Handler, Rank;
  }

  lemma HelperComesToRest(plan: Plan, s: State, ch: Choice)
    requires plan.Valid() && !Act(s.ctl).Rest? && !Judge(plan, s, ch).Waits?
    ensures Rank(Step(plan, s, ch).ctl.pc) < Rank(s.ctl.pc)
  {
    RankFalls(s.ctl, ch, Judge(plan, s, ch));
  }

  /** Nobody starts another helper, the process is not killed, and no journal write throws. */
  predicate CleanChoice(plan: Plan, s: State, ch: Choice)
    requires plan.Valid()
  {
    !ch.kind.Start? && !ch.kind.Crashes? && !(Act(s.ctl).Journal? && ch.kind.Throws?)
  }

  ghost predicate CleanChoices(plan: Plan, s: State, chs: seq<Choice>)
    requires plan.Valid()
  {
    forall k :: 0 <= k < |chs| ==> CleanChoice(plan, Run(plan, s, chs[..k]), chs[k])
  }

  lemma JudgeKinds(plan: Plan, s: State, ch: Choice)
    requires plan.Valid()
    ensures Judge(plan, s, ch).Dies? ==> ch.kind.Crashes?
    ensures Act(s.ctl).Journal? && Judge(plan, s, ch).Raises? ==> ch.kind.Throws?
  {
    hide Plan.FreshSuffix, Exists;
  }

  /** Nobody starts another helper, and the process is not killed. */
  ghost predicate NotKilled(chs: seq<Choice>) {
    forall k :: 0 <= k < |chs| ==> !chs[k].kind.Start? && !chs[k].kind.Crashes?
  }

  /** Some journal write of the run throws and strands the helper. */
  ghost predicate StrandedIn(plan: Plan, s: State, chs: seq<Choice>)
    requires plan.Valid()
  {
    exists k :: 0 <= k < |chs| && chs[k].kind.Throws? && Strands(Run(plan, s, chs[..k]).ctl, chs[k])
  }

  lemma StrandedInLast(plan: Plan, s: State, chs: seq<Choice>)
    requires plan.Valid() && chs != []
    ensures var n := |chs| - 1;
      StrandedIn(plan, s, chs) <==>
        StrandedIn(plan, s, chs[..n]) || (chs[n].kind.Throws? && Strands(Run(plan, s, chs[..n]).ctl, chs[n]))
  {
    hide Run, Strands;
    var n := |chs| - 1;
    assert forall k :: 0 <= k < n ==> chs[..n][..k] == chs[..k] && chs[..n][k] == chs[k];
  }

  /** A stranded helper: it notes an error, or has ended, and an intermediate phase stays. */
  predicate Stuck(c: Control) {
    !Settled(c.phase) && (c.pc.Returned? || (c.pc.HelperNoting? && !c.phase.Prepared?))
  }

  lemma ControlStays(c: Control, ch: Choice, out: Outcome)
    requires !out.Dies? && !Act(c).Rest?
    ensures c.clean && !c.pc.Crashed? && !c.pc.Idle? && !(out.Raises? && Strands(c, ch)) ==>
      var c' := ControlAfter(c, ch, out); c'.clean && !c'.pc.Crashed? && !c'.pc.Idle?
    ensures Stuck(c) ==> Stuck(ControlAfter(c, ch, out))
  {
    hide ExecAct, RecoverAct;
  }

  lemma ControlStrands(c: Control, ch: Choice, unsafe: bool)
    requires Strands(c, ch)
    ensures Stuck(ControlAfter(c, ch, Raises(unsafe))) && !ControlAfter(c, ch, Raises(unsafe)).clean
  {
    hide Next;
  }

  lemma StrandsJudged(plan: Plan, s: State, ch: Choice)
    requires plan.Valid() && Strands(s.ctl, ch)
    ensures Judge(plan, s, ch).Raises? <==> ch.kind.Throws?
    ensures !Act(s.ctl).Rest?
  {
    hide Exists;
  }

  predicate Running(c: Control) { c.clean && !c.pc.Crashed? && !c.pc.Idle? }

  lemma StrandStep(plan: Plan, s: State, ch: Choice)
    requires plan.Valid() && !ch.kind.Start? && !ch.kind.Crashes?
    ensures Stuck(s.ctl) ==> Stuck(Step(plan, s, ch).ctl)
    ensures Running(s.ctl) && !(ch.kind.Throws? && Strands(s.ctl, ch)) ==> Running(Step(plan, s, ch).ctl)
    ensures ch.kind.Throws? && Strands(s.ctl, ch) ==> Stuck(Step(plan, s, ch).ctl)
  {
    hide Step, Judge, ControlAfter, Strands, Act, Stuck;
    StepControl(plan, s, ch);
    JudgeKinds(plan, s, ch);
    if Strands(s.ctl, ch) {
      StrandsJudged(plan, s, ch);
      if ch.kind.Throws? {
        ControlStrands(s.ctl, ch, Judge(plan, s, ch).unsafe);
      }
    }
    if !Act(s.ctl).Rest? {
      ControlStays(s.ctl, ch, Judge(plan, s, ch));
    }
  }

  /** A running helper either runs on, or has been stranded and stays so. */
  lemma {:induction false} RunsOrIsStuck(plan: Plan, s: State, chs: seq<Choice>)
    requires plan.Valid() && Running(s.ctl) && NotKilled(chs)
    ensures if StrandedIn(plan, s, chs) then Stuck(Run(plan, s, chs).ctl) else Running(Run(plan, s, chs).ctl)
    decreases |chs|
  {
    hide Step, Running, Stuck, StrandedIn, Strands;
    if chs == [] {
      assert !StrandedIn(plan, s, chs) by { NotStrandedYet(plan, s); }
    } else {
      var n := |chs| - 1;
      RunsOrIsStuck(plan, s, chs[..n]);
      StrandedInLast(plan, s, chs);
      StrandStep(plan, Run(plan, s, chs[..n]), chs[n]);
    }
  }

  lemma NotStrandedYet(plan: Plan, s: State)
    requires plan.Valid()
    ensures !StrandedIn(plan, s, [])
  {
  }

  lemma CleanMeaning<X>(o: Originals<X>, c: Control, v: Table<X>)
    requires TableInv(o, c, v) && c.clean && c.pc.Returned?
    ensures Settled(c.phase)
  {
  }

  /** An executing helper that was started on a prepared journal and is not killed leaves a settled phase behind
      exactly when no write that throws strands it. */
  lemma HelperOutcomeExactly(plan: Plan, o: Originals<Tree>, s: State, start: Choice, chs: seq<Choice>)
    requires Inv(plan, o, s) && Act(s.ctl).Rest? && s.ctl.phase.Prepared? && start.kind == Start(false)
    requires NotKilled(chs) && Act(Run(plan, Step(plan, s, start), chs).ctl).Rest?
    ensures Settled(Run(plan, Step(plan, s, start), chs).ctl.phase) <==> !StrandedIn(plan, Step(plan, s, start), chs)
  {
    hide Step, Run, TableInv, OriginalsFrom, OriginalsAfter, StrandedIn, NotKilled, Tabulate, Trees;
    var s1 := Step(plan, s, start);
    var o1 := OriginalsAfter(plan, o, s, start);
    var s' := Run(plan, s1, chs);
    StepKeepsInv(plan, o, s, start);
    StepControl(plan, s, start);
    RunsOrIsStuck(plan, s1, chs);
    RunKeepsInv(plan, o1, s1, chs);
    RestingPlaces(s'.ctl);
    if !StrandedIn(plan, s1, chs) {
      CleanMeaning(OriginalsFrom(plan, o1, s1, chs), s'.ctl, View(plan, s'.disk, SuffixOf(s'.ctl.pc)));
    }
  }

  /** So one never leaves an intermediate phase behind if no write throws. */
  lemma HelperOutcome(plan: Plan, o: Originals<Tree>, s: State, start: Choice, chs: seq<Choice>)
    requires Inv(plan, o, s) && Act(s.ctl).Rest? && s.ctl.phase.Prepared? && start.kind == Start(false)
    requires CleanChoices(plan, Step(plan, s, start), chs)
    ensures var c := Run(plan, Step(plan, s, start), chs).ctl;
      Act(c).Rest? ==> Terminal(c.phase) || c.phase.RecoveryRequired?
  {
    hide Step, Run, Act, Inv;
    InvValid(plan, o, s);
    if Act(Run(plan, Step(plan, s, start), chs).ctl).Rest? {
      HelperOutcomeExactly(plan, o, s, start, chs);
    }
  }

  // ---- An error that forbids restoring ----

  /** The helper is leaving after such an error: noting it, or done. */
  predicate Leaving(c: Control) {
    && !c.phase.Prepared?
    && match c.pc
       case NotingError(unsafe) => unsafe && c.mem.Verifying?
       case Deciding(unsafe) => unsafe
       case HelperNoting | Returned | Crashed => true
       case _ => false
  }

  lemma ControlLeaves(c: Control, ch: Choice, out: Outcome)
    requires Leaving(c)
    ensures Leaving(ControlAfter(c, ch, out)) && (Act(c).Rest? || Act(c).Journal?)
  {
  }

  /** The outcome has been published unless it is still to be written. */
  predicate Published(c: Control) {
    !c.pc.Crashed? && (c.pc.HelperNoting? || c.pc.Returned? ==> c.phase.RecoveryRequired?)
  }

  lemma ControlPublishes(c: Control, ch: Choice, out: Outcome)
    requires Leaving(c) && Published(c) && !out.Dies? && !(Act(c).Journal? && out.Raises?)
    ensures Published(ControlAfter(c, ch, out))
  {
  }

  lemma LeavingStep(plan: Plan, s: State, ch: Choice)
    requires plan.Valid() && Leaving(s.ctl) && !ch.kind.Start?
    ensures Leaving(Step(plan, s, ch).ctl) && Step(plan, s, ch).disk == s.disk
    ensures Published(s.ctl) && CleanChoice(plan, s, ch) ==> Published(Step(plan, s, ch).ctl)
  {
    hide Step, Perform, ControlAfter, Judge, Leaving, Published;
    if Act(s.ctl).Rest? {
      StepAtRest(plan, s, ch);
    } else {
      var out := Judge(plan, s, ch);
      StepAtWork(plan, s, ch);
      ControlLeaves(s.ctl, ch, out);
      PerformIdle(plan, s.disk, Act(s.ctl), ch, out);
      JudgeKinds(plan, s, ch);
      if Published(s.ctl) && CleanChoice(plan, s, ch) {
        ControlPublishes(s.ctl, ch, out);
      }
    }
  }

  lemma {:induction false} LeavingRun(plan: Plan, s: State, chs: seq<Choice>)
    requires plan.Valid() && Leaving(s.ctl) && forall k :: 0 <= k < |chs| ==> !chs[k].kind.Start?
    ensures Leaving(Run(plan, s, chs).ctl) && Run(plan, s, chs).disk == s.disk
    ensures Published(s.ctl) && CleanChoices(plan, s, chs) ==> Published(Run(plan, s, chs).ctl)
    decreases |chs|
  {
    hide Step, Leaving, Published, CleanChoice;
    if chs != [] {
      var n := |chs| - 1;
      assert forall k :: 0 <= k < n ==> chs[..n][..k] == chs[..k] && chs[..n][k] == chs[k];
      LeavingRun(plan, s, chs[..n]);
      LeavingStep(plan, Run(plan, s, chs[..n]), chs[n]);
    }
  }

  lemma HandlingUnsafe<X>(o: Originals<X>, c: Control, v: Table<X>)
    requires TableInv(o, c, v) && c.pc == NotingError(true)
    ensures Leaving(c) && Published(c)
  {
  }

  /** After an error that forbids restoring, this helper touches neither app nor data, or anything else;
      and if it is not killed and no write throws, 'recovery-required' is what it leaves. */
  lemma UnsafeErrorIsNotRestored(plan: Plan, o: Originals<Tree>, s: State, chs: seq<Choice>)
    requires Inv(plan, o, s) && s.ctl.pc == NotingError(true) && forall k :: 0 <= k < |chs| ==> !chs[k].kind.Start?
    ensures var s' := Run(plan, s, chs);
      s'.disk == s.disk && (CleanChoices(plan, s, chs) && Act(s'.ctl).Rest? ==> s'.ctl.phase.RecoveryRequired?)
  {
    hide Step, CleanChoice;
    HandlingUnsafe(o, s.ctl, View(plan, s.disk, ""));
    LeavingRun(plan, s, chs);
  }

  /** The helper reopens the app only in a terminal phase with an app in place. */
  predicate Reopens(plan: Plan, s: State)
    requires plan.Valid()
  {
    s.ctl.pc.Returned? && Terminal(s.ctl.phase) && Exists(plan, s.disk, App)
  }

  /** Whatever is reopened is the whole old app or the whole new one, never a mixture. */
  lemma ReopenedAppIsWhole(plan: Plan, s0: State, chs: seq<Choice>)
    requires Prepped(plan, s0) && Reopens(plan, Run(plan, s0, chs))
    ensures var app := Trees(plan, Run(plan, s0, chs).disk)(App);
      app == Trees(plan, s0.disk)(App) || app == Trees(plan, s0.disk)(Candidate)
  {
    CrashSafety(plan, s0, chs);
  }

  // ---- Recovery is repeatable and ends ----

  /** Where an undisturbed recovery run takes the journal. */
  function Recovered(p: Phase): Phase {
    if Terminal(p) then p else if Early(p) then Failed else RolledBack
  }

  /** Where the catch block of executeUpdate takes the journal, from the phase in memory, if it is not disturbed. */
  function Handled(unsafe: bool, p: Phase): Phase {
    if unsafe then RecoveryRequired else if p.Installing? || p.Verifying? || p.RollingBack? then RolledBack else Failed
  }

  /** A recovery run, or the handling of an error, in progress that will end in phase `goal`. */
  predicate Underway(c: Control, goal: Phase) {
    match c.pc
    case Waiting(recover) => !c.nested && recover && Recovered(c.phase) == goal
    case StoppingOrphans => !c.nested && Recovered(c.phase) == goal
    case StartingRecovery => Recovered(c.phase) == goal && (c.nested ==> !Early(c.phase) && !Terminal(c.phase))
    case Recover(_, _) => goal.RolledBack?
    case NotingError(unsafe) => Handled(unsafe, c.mem) == goal
    case Deciding(unsafe) => goal == if unsafe then RecoveryRequired else Failed
    case HelperNoting => goal == if c.phase.Prepared? then Failed else c.phase
    case HelperFailing => goal.Failed?
    case Returned => c.phase == goal
    case _ => false
  }

  /** `left` is the disk as a client still to be waited for leaves it. */
  function Undisturbed(x: string, left: Disk): Choice { Choice(Done, false, false, left, x) }

  lemma RecoveryAdvances(c: Control, ch: Choice, goal: Phase)
    requires Underway(c, goal) && (c.pc.Recover? || c.pc.StartingRecovery?)
    ensures Underway(ControlAfter(c, ch, Returns), goal)
    ensures ControlAfter(c, ch, Returns).commitThrew == c.commitThrew
  {
    hide Handler, ExecAct, ExecNext, Strands;
  }

  lemma ErrorAdvances(c: Control, ch: Choice, goal: Phase)
    requires Underway(c, goal) && (c.pc.NotingError? || c.pc.Deciding?)
    ensures Underway(ControlAfter(c, ch, Returns), goal)
    ensures ControlAfter(c, ch, Returns).commitThrew == c.commitThrew
  {
    hide Handler, ExecAct, ExecNext, RecoverAct, RecoverNext, Strands;
  }

  lemma OtherAdvances(c: Control, ch: Choice, goal: Phase)
    requires Underway(c, goal) && !c.pc.Returned? && !c.pc.Recover? && !c.pc.StartingRecovery?
    requires !c.pc.NotingError? && !c.pc.Deciding?
    ensures Underway(ControlAfter(c, ch, Returns), goal)
    ensures ControlAfter(c, ch, Returns).commitThrew == c.commitThrew
  {
    hide Handler, ExecAct, ExecNext, RecoverAct, RecoverNext, Strands;
  }

  lemma ControlAdvances(c: Control, ch: Choice, goal: Phase)
    requires Underway(c, goal) && !c.pc.Returned?
    ensures Underway(ControlAfter(c, ch, Returns), goal)
    ensures ControlAfter(c, ch, Returns).commitThrew == c.commitThrew
  {
    hide ControlAfter, Underway;
    if c.pc.Recover? || c.pc.StartingRecovery? {
      RecoveryAdvances(c, ch, goal);
    } else if c.pc.NotingError? || c.pc.Deciding? {
      ErrorAdvances(c, ch, goal);
    } else {
      OtherAdvances(c, ch, goal);
    }
  }

  /** In recovery every source is there, because the backups are. */
  lemma SourcesReady<X>(o: Originals<X>, c: Control, v: Table<X>, goal: Phase)
    requires TableInv(o, c, v) && Underway(c, goal)
    ensures Act(c).Copy? || Act(c).Move? ==> v.At(Act(c).src) != v.none
  {
  }

  /** Until recovery has drawn its suffix it has not touched the disk. */
  predicate SuffixFree(plan: Plan, s: State, x: string, left: Disk) {
    || s.ctl.pc.Recover? || s.ctl.pc.Returned? || s.ctl.pc.HelperNoting? || s.ctl.pc.HelperFailing?
    || (plan.FreshSuffix(s.disk, x) && plan.FreshSuffix(left, x))
  }

  lemma RecoveryStepReturns(plan: Plan, o: Originals<Tree>, s: State, x: string, left: Disk, goal: Phase)
    requires Inv(plan, o, s) && Underway(s.ctl, goal) && SuffixFree(plan, s, x, left) && !s.ctl.pc.Returned?
    ensures Judge(plan, s, Undisturbed(x, left)).Returns?
  {
    hide TreeAt, CopyTree, MoveTree, Torn, Loc, TableInv;
    var y := SuffixOf(s.ctl.pc);
    PlacesKnown(plan, s.ctl);
    SourcesReady(o, s.ctl, View(plan, s.disk, y), goal);
    if Act(s.ctl).Copy? || Act(s.ctl).Move? {
      ViewAt(plan, s.disk, y, Act(s.ctl).src);
    }
  }

  lemma BeforeSuffix(c: Control, ch: Choice, goal: Phase)
    requires Underway(c, goal)
    ensures var pc' := ControlAfter(c, ch, Returns).pc;
      || pc'.Recover? || pc'.Returned? || pc'.HelperNoting? || pc'.HelperFailing?
      || Act(c).Check? || Act(c).Await? || Act(c).Journal?
  {
  }

  lemma RestingPlaces(c: Control)
    ensures Act(c).Rest? <==> c.pc.Idle? || c.pc.Crashed? || c.pc.Returned?
  {
  }

  lemma WaitingPlaces(c: Control, goal: Phase)
    requires Underway(c, goal) && (Act(c).Check? || Act(c).Await? || Act(c).Journal?)
    ensures !c.pc.Returned?
    ensures c.pc.Recover? || c.pc.HelperNoting? || c.pc.HelperFailing? ==>
      forall ch :: var pc' := ControlAfter(c, ch, Returns).pc; pc'.Returned? || pc'.HelperNoting? || pc'.HelperFailing?
  {
  }

  lemma CheckedDisk(plan: Plan, s: State, x: string, left: Disk)
    requires plan.Valid() && (Act(s.ctl).Check? || Act(s.ctl).Await? || Act(s.ctl).Journal?)
    ensures Perform(plan, s.disk, Act(s.ctl), Undisturbed(x, left), Returns) in {s.disk, left}
  {
  }

  lemma RecoveryStepAdvances(plan: Plan, o: Originals<Tree>, s: State, x: string, left: Disk, goal: Phase)
    requires Inv(plan, o, s) && Underway(s.ctl, goal) && SuffixFree(plan, s, x, left) && !s.ctl.pc.Returned?
    ensures var s' := Step(plan, s, Undisturbed(x, left));
      && Underway(s'.ctl, goal) && SuffixFree(plan, s', x, left) && Rank(s'.ctl.pc) < Rank(s.ctl.pc)
      && s'.ctl.commitThrew == s.ctl.commitThrew
  {
    hide Step, Perform, ControlAfter, Rank, Plan.FreshSuffix, Judge, Act, Inv;
    InvValid(plan, o, s);
    RecoveryStepReturns(plan, o, s, x, left, goal);
    RestingPlaces(s.ctl);
    StepAtWork(plan, s, Undisturbed(x, left));
    RankFalls(s.ctl, Undisturbed(x, left), Returns);
    ControlAdvances(s.ctl, Undisturbed(x, left), goal);
    BeforeSuffix(s.ctl, Undisturbed(x, left), goal);
    if Act(s.ctl).Check? || Act(s.ctl).Await? || Act(s.ctl).Journal? {
      WaitingPlaces(s.ctl, goal);
      CheckedDisk(plan, s, x, left);
    }
  }

  function Repeat(plan: Plan, s: State, ch: Choice, n: nat): State
    requires plan.Valid()
    decreases n
  {
    if n == 0 then s else Repeat(plan, Step(plan, s, ch), ch, n - 1)
  }

  lemma RankZero(pc: Pc)
    ensures Rank(pc) == 0 <==> pc.Idle? || pc.Crashed? || pc.Returned?
    ensures Rank(pc) <= 29
  {
  }

  lemma {:induction false} UndisturbedRunEnds(plan: Plan, o: Originals<Tree>, s: State, x: string, left: Disk,
                                              goal: Phase, n: nat) returns (o': Originals<Tree>)
    requires Inv(plan, o, s) && Underway(s.ctl, goal) && SuffixFree(plan, s, x, left) && Rank(s.ctl.pc) <= n
    ensures EndsIn(plan, o', Repeat(plan, s, Undisturbed(x, left), n), goal, s.ctl.commitThrew)
    ensures o'.app == o.app && o'.candidate == o.candidate
    ensures !s.ctl.phase.Prepared? || !s.ctl.pc.Waiting? ==> o' == o
    decreases n
  {
    hide Step, Rank, SuffixFree, Inv, OriginalsAfter, Undisturbed, Underway, EndsIn, Plan.Valid;
    InvValid(plan, o, s);
    o' := o;
    if n == 0 {
      EndsNow(plan, o, s, goal);
    } else {
      var ch := Undisturbed(x, left);
      UndisturbedOriginals(plan, o, s, x, left);
      UndisturbedStep(plan, o, s, x, left, goal, n);
      o' := UndisturbedRunEnds(plan, OriginalsAfter(plan, o, s, ch), Step(plan, s, ch), x, left, goal, n - 1);
    }
  }

  /** The helper has ended, in this phase, and the journal means what it says. */
  ghost predicate EndsIn(plan: Plan, o: Originals<Tree>, s: State, goal: Phase, threw: bool)
    requires plan.Valid()
  {
    s.ctl.pc.Returned? && s.ctl.phase == goal && s.ctl.commitThrew == threw && MeansWhatItSays(plan, o, s)
  }

  lemma EndsNow(plan: Plan, o: Originals<Tree>, s: State, goal: Phase)
    requires Inv(plan, o, s) && Underway(s.ctl, goal) && Rank(s.ctl.pc) == 0
    ensures plan.Valid() && EndsIn(plan, o, s, goal, s.ctl.commitThrew)
  {
    hide Inv, Underway, Rank, MeansWhatItSays;
    InvValid(plan, o, s);
    RestsAtGoal(s.ctl, goal);
    InvMeans(plan, o, s);
  }

  lemma RestsAtGoal(c: Control, goal: Phase)
    requires Underway(c, goal)
    ensures Rank(c.pc) == 0 ==> c.pc.Returned? && c.phase == goal
  {
  }

  lemma NeverWaitsAgain(plan: Plan, o: Originals<Tree>, s: State, ch: Choice)
    requires plan.Valid() && !ch.kind.Start?
    ensures !s.ctl.pc.Waiting? ==> OriginalsAfter(plan, o, s, ch) == o && !Step(plan, s, ch).ctl.pc.Waiting?
  {
    hide Step, Judge, Trees, Written, Strands, ExecAct, RecoverAct;
    StepControl(plan, s, ch);
    WaitsOnlyFirst(s.ctl);
  }

  lemma WaitsOnlyFirst(c: Control)
    ensures Act(c).Await? ==> c.pc.Waiting?
  {
  }

  lemma UndisturbedOriginals(plan: Plan, o: Originals<Tree>, s: State, x: string, left: Disk)
    requires Inv(plan, o, s)
    ensures plan.Valid()
    ensures var s', o' := Step(plan, s, Undisturbed(x, left)), OriginalsAfter(plan, o, s, Undisturbed(x, left));
      && Inv(plan, o', s') && o'.app == o.app && o'.candidate == o.candidate
      && (!s.ctl.phase.Prepared? || !s.ctl.pc.Waiting? ==>
            o' == o && (!s'.ctl.phase.Prepared? || !s'.ctl.pc.Waiting?))
  {
    hide Step, Inv, OriginalsAfter;
    InvValid(plan, o, s);
    var ch := Undisturbed(x, left);
    StepKeepsInv(plan, o, s, ch);
    if !s.ctl.phase.Prepared? {
      StepStaysBegun(plan, o, s, ch);
    }
    OnlyDataChange(plan, o, s, ch);
    NeverWaitsAgain(plan, o, s, ch);
  }

  lemma UndisturbedStep(plan: Plan, o: Originals<Tree>, s: State, x: string, left: Disk, goal: Phase, n: nat)
    requires Inv(plan, o, s) && Underway(s.ctl, goal) && SuffixFree(plan, s, x, left) && Rank(s.ctl.pc) <= n && n > 0
    ensures var s' := Step(plan, s, Undisturbed(x, left));
      && Underway(s'.ctl, goal) && SuffixFree(plan, s', x, left) && Rank(s'.ctl.pc) <= n - 1
      && s'.ctl.commitThrew == s.ctl.commitThrew
  {
    hide Step, Rank, SuffixFree, Inv;
    InvValid(plan, o, s);
    RankZero(s.ctl.pc);
    if s.ctl.pc.Returned? {
      StepAtRest(plan, s, Undisturbed(x, left));
    } else {
      RecoveryStepAdvances(plan, o, s, x, left, goal);
    }
  }

  /** From whatever a crash or a failure left, one recovery run that is not disturbed ends the transaction, and the
      journal means what it says: in 'rolled-back', and in 'failed' unless the write of 'complete' had thrown, app
      and data are the originals; those of an update still 'prepared' have the data that its client leaves. */
  lemma RecoveryCompletes(plan: Plan, o: Originals<Tree>, s: State, start: Choice, x: string, left: Disk)
    returns (o': Originals<Tree>)
    requires Inv(plan, o, s) && Act(s.ctl).Rest? && start.kind == Start(true)
    requires plan.FreshSuffix(s.disk, x) && plan.FreshSuffix(left, x)
    ensures var s' := Repeat(plan, Step(plan, s, start), Undisturbed(x, left), 29);
      && s'.ctl.pc.Returned? && Terminal(s'.ctl.phase) && s'.ctl.phase == Recovered(s.ctl.phase)
      && MeansWhatItSays(plan, o', s') && s'.ctl.commitThrew == s.ctl.commitThrew
      && (s'.ctl.phase.RolledBack? ==>
            Trees(plan, s'.disk)(App) == o.app && Trees(plan, s'.disk)(Data) == o.data)
    ensures o'.app == o.app && o'.candidate == o.candidate && (!s.ctl.phase.Prepared? ==> o' == o)
  {
    hide Step, Rank, Plan.FreshSuffix, TableInv, Repeat, Trees, Tabulate;
    StepKeepsInv(plan, o, s, start);
    StepAtRest(plan, s, start);
    RankZero(Step(plan, s, start).ctl.pc);
    o' := UndisturbedRunEnds(plan, o, Step(plan, s, start), x, left, Recovered(s.ctl.phase), 29);
  }

  /** A helper at rest, or one that has found the transaction ended. */
  predicate AtEnd(c: Control, p: Phase) {
    && c.phase == p && Terminal(p)
    && (Act(c).Rest? || c.pc.Waiting? || c.pc.StoppingOrphans? || c.pc.StartingRecovery? || c.pc.HelperNoting?)
  }

  lemma EndedStep(plan: Plan, s: State, ch: Choice, p: Phase)
    requires plan.Valid() && AtEnd(s.ctl, p)
    ensures AtEnd(Step(plan, s, ch).ctl, p) && Step(plan, s, ch).disk == s.disk
  {
    hide Step, Perform, Judge, ControlAfter, Act;
    RestingPlaces(s.ctl);
    if Act(s.ctl).Rest? {
      StepAtRest(plan, s, ch);
      EndedLaunch(s.ctl, ch, p);
    } else {
      EndedControl(s.ctl, ch, Judge(plan, s, ch), p);
      StepAtWork(plan, s, ch);
      PerformIdle(plan, s.disk, Act(s.ctl), ch, Judge(plan, s, ch));
    }
  }

  lemma EndedLaunch(c: Control, ch: Choice, p: Phase)
    requires AtEnd(c, p)
    ensures ch.kind.Start? ==> AtEnd(Launch(c, ch.kind.recover), p)
  {
  }

  lemma EndedControl(c: Control, ch: Choice, out: Outcome, p: Phase)
    requires AtEnd(c, p) && !Act(c).Rest?
    ensures AtEnd(ControlAfter(c, ch, out), p) && (Act(c).Check? || Act(c).Journal?)
  {
    hide Strands, ExecAct, RecoverAct;
  }

  /** Once the transaction has ended, further helpers change neither the disk nor the phase. */
  lemma {:induction false} EndedStaysEnded(plan: Plan, s: State, chs: seq<Choice>)
    requires plan.Valid() && Act(s.ctl).Rest? && Terminal(s.ctl.phase)
    ensures Run(plan, s, chs).disk == s.disk && Run(plan, s, chs).ctl.phase == s.ctl.phase
    ensures AtEnd(Run(plan, s, chs).ctl, s.ctl.phase)
    decreases |chs|
  {
    hide Step;
    if chs != [] {
      EndedStaysEnded(plan, s, chs[..|chs| - 1]);
      EndedStep(plan, Run(plan, s, chs[..|chs| - 1]), chs[|chs| - 1], s.ctl.phase);
    }
  }

  // ---- The lock ----

  /** A terminal phase on disk, and the write that put it there cut short before it removed the lock. */
  predicate LeavesLock(c: Control, ch: Choice, out: Outcome) {
    && Act(c).Journal? && Terminal(Act(c).phase) && c.lock
    && (out.Raises? || out.Dies?) && ch.applied && !ch.unlinked
  }

  /** An ended transaction is unlocked by every step but that one. */
  lemma EndedIsUnlockedExactly(plan: Plan, s: State, ch: Choice)
    requires plan.Valid() && !Act(s.ctl).Rest? && (Terminal(s.ctl.phase) ==> !s.ctl.lock)
    ensures (Terminal(Step(plan, s, ch).ctl.phase) ==> !Step(plan, s, ch).ctl.lock)
      <==> !LeavesLock(s.ctl, ch, Judge(plan, s, ch))
  {
    hide Step, Judge, Next, Handler, Strands, Act;
    StepControl(plan, s, ch);
  }

  /** The write of 'rolled-back' throws after it has removed the lock. */
  predicate RollbackThrows(s: State, ch: Choice) {
    s.ctl.pc.Recover? && s.ctl.pc.at.WriteRolledBack? && ch.kind.Throws? && ch.applied && ch.unlinked
  }

  /** A live journal is locked, also one that is about to be written. */
  predicate LockInv(c: Control) { (Terminal(c.phase) || c.lock) && (c.pc.RecoveryFailing? ==> c.lock) }

  lemma ControlKeepsLock<X>(o: Originals<X>, c: Control, v: Table<X>, ch: Choice, out: Outcome)
    requires TableInv(o, c, v) && LockInv(c) && !Act(c).Rest?
    ensures LockInv(ControlAfter(c, ch, out)) <==>
      !(c.pc.Recover? && c.pc.at.WriteRolledBack? && out.Raises? && ch.applied && ch.unlinked)
  {
  }

  /** A step keeps the lock on a live journal exactly when it is not that one. */
  lemma StepKeepsLockExactly(plan: Plan, o: Originals<Tree>, s: State, ch: Choice)
    requires Inv(plan, o, s) && LockInv(s.ctl)
    ensures LockInv(Step(plan, s, ch).ctl) <==> !RollbackThrows(s, ch)
  {
    hide Step, Judge, TableInv, ControlAfter, Act, Tabulate, Launch;
    StepControl(plan, s, ch);
    RollbackJudged(plan, s, ch);
    if Act(s.ctl).Rest? {
      LaunchKeepsLock(s.ctl, ch);
    } else {
      ControlKeepsLock(o, s.ctl, View(plan, s.disk, SuffixOf(s.ctl.pc)), ch, Judge(plan, s, ch));
    }
  }

  lemma RollbackJudged(plan: Plan, s: State, ch: Choice)
    requires plan.Valid()
    ensures RollbackThrows(s, ch) <==>
      s.ctl.pc.Recover? && s.ctl.pc.at.WriteRolledBack? && Judge(plan, s, ch).Raises? && ch.applied && ch.unlinked
  {
    hide Judge;
    if s.ctl.pc.Recover? && s.ctl.pc.at.WriteRolledBack? {
      JudgeJournal(plan, s, ch);
    }
  }

  lemma LaunchKeepsLock(c: Control, ch: Choice)
    requires LockInv(c) && Act(c).Rest?
    ensures LockInv(if ch.kind.Start? then Launch(c, ch.kind.recover) else c) && !c.pc.Recover?
  {
  }

  ghost predicate NoRollbackThrows(plan: Plan, s: State, chs: seq<Choice>)
    requires plan.Valid()
  {
    forall k :: 0 <= k < |chs| ==> !RollbackThrows(Run(plan, s, chs[..k]), chs[k])
  }

  lemma NoneThrewBefore(plan: Plan, s: State, chs: seq<Choice>)
    requires plan.Valid() && chs != [] && NoRollbackThrows(plan, s, chs)
    ensures var n := |chs| - 1;
      NoRollbackThrows(plan, s, chs[..n]) && !RollbackThrows(Run(plan, s, chs[..n]), chs[n])
  {
    hide Run, RollbackThrows;
    var n := |chs| - 1;
    assert forall k :: 0 <= k < n ==> chs[..n][..k] == chs[..k] && chs[..n][k] == chs[k];
  }

  /** In every run without it, active.lock exists whenever the journal is not terminal. */
  lemma {:induction false} LiveJournalIsLocked(plan: Plan, s0: State, chs: seq<Choice>)
    requires Prepped(plan, s0)
    requires NoRollbackThrows(plan, s0, chs)
    ensures LockInv(Run(plan, s0, chs).ctl)
    decreases |chs|
  {
    hide Step, RollbackThrows, NoRollbackThrows, Inv;
    PreppedInv(plan, s0);
    if chs != [] {
      var n := |chs| - 1;
      NoneThrewBefore(plan, s0, chs);
      LiveJournalIsLocked(plan, s0, chs[..n]);
      RunKeepsInv(plan, OriginalsOf(plan, s0), s0, chs[..n]);
      var o := OriginalsFrom(plan, OriginalsOf(plan, s0), s0, chs[..n]);
      StepKeepsLockExactly(plan, o, Run(plan, s0, chs[..n]), chs[n]);
    }
  }

  /** After it, the write that follows publishes a live journal without a lock. */
  lemma RollbackThrowsUnlocks(plan: Plan, s: State, ch: Choice, next: Choice)
    requires plan.Valid() && RollbackThrows(s, ch) && next.kind.Done?
    ensures var c := Step(plan, Step(plan, s, ch), next).ctl; c.phase.RecoveryRequired? && !c.lock
  {
    hide Step;
    JournalStep(plan, s, ch);
    JournalStep(plan, Step(plan, s, ch), next);
  }
}
