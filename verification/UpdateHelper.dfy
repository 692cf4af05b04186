/** executeUpdate, recoverUpdate and the helper's main function as code over a mutable disk and journal.
    Every operation may return, throw or be cut short; `log` records what happened, and the state is
    always the one the machine reaches on that log, so all that is proved of its runs holds here. */
module UpdateHelper {
  import opened Disks
  import opened UpdatePlan
  import opened UpdateMachine
  import opened UpdateSafety
  import opened UpdateRuns
  import opened UpdateOrder

  /** Control has moved from `c` to `c'` as the outcome of its operation says. */
  predicate Moves(c: Control, c': Control, r: Outcome, suffix: string) {
    match r
    case Returns => c'.pc == Next(c, suffix) && c'.nested == (c.nested || c.pc.NotingError?)
    case Raises(unsafe) => c'.pc == Handler(c, unsafe)
    case Dies => c'.pc.Crashed?
    case Waits => false
  }

  lemma ControlMoves(c: Control, ch: Choice, r: Outcome)
    requires !r.Waits?
    ensures Moves(c, ControlAfter(c, ch, r), r, ch.suffix)
  {
    hide Next, Handler, Written;
  }

  /** Only a write touches the journal, and only the function called after waiting reads it. */
  lemma ControlKeeps(c: Control, ch: Choice, r: Outcome)
    requires !Act(c).Journal?
    ensures var c' := ControlAfter(c, ch, r);
      c'.phase == c.phase && c'.lock == c.lock && c'.mem == if r.Returns? && c.pc.Waiting? then c.phase else c.mem
  {
    hide Next, Handler;
  }

  lemma ControlWrites(c: Control, ch: Choice, r: Outcome)
    requires Act(c).Journal? && !r.Waits?
    ensures var c' := ControlAfter(c, ch, r);
      && c'.mem == Act(c).phase
      && c'.phase == (if r.Returns? || ch.applied then Act(c).phase else c.phase)
      && c'.lock == (c.lock && !(Terminal(Act(c).phase) && (r.Returns? || (ch.applied && ch.unlinked))))
  {
    hide Next, Handler, Terminal;
  }

  lemma JudgedBy(plan: Plan, d: Disk, c: Control, ch: Choice)
    requires plan.Valid() && (ch.kind.Done? && DrawsSuffix(c) ==> plan.FreshSuffix(d, ch.suffix))
    ensures Judge(plan, State(d, c), ch) == Ending(ch.kind, SourceReady(plan, d, Act(c)))
  {
    hide SourceReady, Plan.FreshSuffix;
  }

  lemma SourceOf(plan: Plan, d: Disk, act: Action)
    requires plan.Valid()
    ensures SourceReady(plan, d, act) == if act.Copy? || act.Move? then Exists(plan, d, act.src) else true
  {
    hide Exists;
  }

  lemma SuffixDrawnByWrite(c: Control)
    requires !Act(c).Journal?
    ensures !DrawsSuffix(c)
  {
  }

  /** Recovery acts on the phase it reads. */
  lemma RecoveryRoutes(c: Control)
    requires c.pc.StartingRecovery?
    ensures DrawsSuffix(c) <==> !Terminal(c.phase) && !Early(c.phase)
    ensures Act(c) ==
      if Terminal(c.phase) then Check else Journal(if Early(c.phase) then Failed else RollingBack)
    ensures DrawsSuffix(c) || (Next(c, "") == LeaveRecovery(c) && Handler(c, false).HelperNoting?)
  {
  }

  lemma HandlerRoutes(c: Control)
    ensures c.pc.RecoveryFailing? ==>
      Act(c) == Journal(RecoveryRequired) && Next(c, "").HelperNoting? && Handler(c, false).HelperNoting?
    ensures c.pc.HelperNoting? ==>
      && Act(c) == Journal(c.phase) && Handler(c, false).Returned?
      && (if c.phase.Prepared? then Next(c, "").HelperFailing? else Next(c, "").Returned?)
    ensures c.pc.HelperFailing? ==> Act(c) == Journal(Failed) && Next(c, "").Returned? && Handler(c, false).Returned?
  {
  }

  lemma ErrorRoutes(c: Control, unsafe: bool)
    requires c.pc == NotingError(unsafe)
    ensures Act(c) == Journal(c.mem) && Handler(c, false).HelperNoting?
    ensures Next(c, "") ==
      if unsafe then Deciding(true)
      else if c.mem.Installing? || c.mem.Verifying? || c.mem.RollingBack? then StartingRecovery
      else Deciding(false)
  {
  }

  lemma DecisionRoutes(c: Control)
    ensures c.pc.Deciding? ==>
      && Act(c) == Journal(if c.pc.unsafe then RecoveryRequired else Failed)
      && Next(c, "").HelperNoting? && Handler(c, false).HelperNoting?
    ensures LeaveRecovery(c) == if c.nested then HelperNoting else Returned
  {
  }

  lemma VerifyRoutes(c: Control, unsafe: bool)
    requires Act(c).Verify?
    ensures c.pc == Exec(VerifyingApp) && Next(c, "") == Exec(WriteComplete)
    ensures Handler(c, unsafe) == NotingError(unsafe)
  {
  }

  class Helper {
    const plan: Plan
    var disk: Disk
    var journal: Phase
    var lock: bool
    var held: Phase  // the phase in the journal object that the running function holds
    ghost const start: State
    ghost var ctl: Control
    ghost var log: seq<Choice>

    constructor (plan: Plan, s: State)
      requires Prepped(plan, s)
      ensures Valid() && start == s && log == [] && this.plan == plan && ctl == s.ctl
    {
      hide Step, Exists;
      this.plan := plan;
      disk, journal, lock, held := s.disk, s.ctl.phase, s.ctl.lock, s.ctl.mem;
      start := s;
      ctl := s.ctl;
      log := [];
    }

    /** The machine, on the choices logged so far, is in this state. */
    ghost predicate Logged(d: Disk)
      requires plan.Valid()
      reads this`ctl, this`log
    {
      Run(plan, start, log) == State(d, ctl)
    }

    ghost predicate Valid()
      reads this
    {
      && plan.Valid() && Prepped(plan, start) && Logged(disk)
      && ctl.phase == journal && ctl.lock == lock && ctl.mem == held
    }

    /** The trees the update started from: app and candidate at the start, the data as its client left them. */
    ghost function StartedFrom(): Originals<Tree>
      requires plan.Valid()
      reads this`log
    {
      OriginalsFrom(plan, OriginalsOf(plan, start), start, log)
    }

    /** What the durable state means, told from the journal and the trees; and the operations that the phase on
        disk stands for have returned. */
    ghost predicate Meaningful()
      requires plan.Valid()
      reads this
    {
      var was := StartedFrom();
      var now := Trees(plan, disk);
      && (journal.RolledBack? ==> now(App) == was.app && now(Data) == was.data)
      && (journal.Complete? ==> now(App) == was.candidate && ctl.verified)
      && (journal.Failed? ==>
            if CommitThrewIn(plan, start, log) then now(App) == was.candidate
            else now(App) == was.app && now(Data) == was.data)
      && AllPassed(plan, start, log, Before(journal))
    }

    lemma AlwaysMeaningful()
      requires Valid()
      ensures Meaningful()
    {
      hide Run, Trees, OriginalsFrom, OriginalsOf, CommitThrewIn, Prepped, AllPassed, Before;
      PhasesAreEarned(plan, start, log);
      CrashSafety(plan, start, log);
      CommitThrewExactly(plan, start, log);
    }

    /** An executing helper that no throwing write has stranded does not stop in an intermediate phase. */
    lemma ReturnedMeans()
      requires Valid() && ctl.pc.Returned? && ctl.clean
      ensures Terminal(journal) || journal.RecoveryRequired?
    {
      hide Run, TableInv, Tabulate, OriginalsFrom;
      PreppedInv(plan, start);
      RunKeepsInv(plan, OriginalsOf(plan, start), start, log);
      CleanMeaning(StartedFrom(), ctl, View(plan, disk, ""));
    }

    ghost predicate Grew(before: seq<Choice>)
      reads this`log
    {
      before <= log
    }

    ghost predicate Went(c: Control, r: Outcome, suffix: string)
      reads this`ctl
    {
      Moves(c, ctl, r, suffix) && r != Raises(true)
    }

    /** Control is past the function, in the helper's catch block, or nowhere. */
    ghost predicate Left(r: Outcome, normally: Pc)
      reads this`ctl
    {
      match r
      case Returns => ctl.pc == normally
      case Raises(_) => ctl.pc.HelperNoting?
      case Dies => ctl.pc.Crashed?
      case Waits => false
    }

    ghost method Record(d: Disk, ch: Choice, r: Outcome)
      requires plan.Valid() && Logged(d) && !Act(ctl).Rest? && !r.Waits?
      requires r == Ending(ch.kind, SourceReady(plan, d, Act(ctl)))
      requires ch.kind.Done? && DrawsSuffix(ctl) ==> plan.FreshSuffix(d, ch.suffix)
      requires disk == Perform(plan, d, Act(ctl), ch, r)
      modifies this`log, this`ctl
      ensures log == old(log) + [ch] && ctl == ControlAfter(old(ctl), ch, r) && Logged(disk)
      ensures Moves(old(ctl), ctl, r, ch.suffix)
    {
      hide Step, Perform, ControlAfter, Judge, Plan.FreshSuffix, SourceReady, Moves, DrawsSuffix, Ending;
      JudgedBy(plan, d, ctl, ch);
      StepAtWork(plan, State(d, ctl), ch);
      ControlMoves(ctl, ch, r);
      log := log + [ch];
      assert log[..|log| - 1] == old(log);
      ctl := ControlAfter(ctl, ch, r);
    }

    /** The environment decides how the next operation goes. */
    method Choose() returns (ch: Choice)
      ensures !ch.kind.Start? && ch.suffix == "" && (ch.kind.Throws? ==> !ch.kind.unsafe)
    {
      var kind: int := *;
      ch := *;
      ch := ch.(kind := if kind == 0 then Done else if kind == 1 then Throws(false) else Crashes, suffix := "");
    }

    /** Temporary file, rename over transaction.json, then remove the lock of a transaction that has ended. */
    method WriteUpdate(p: Phase, suffix: string) returns (r: Outcome)
      requires Valid() && Act(ctl) == Journal(p)
      requires DrawsSuffix(ctl) ==> plan.FreshSuffix(disk, suffix)
      modifies this
      ensures Valid() && Grew(old(log)) && Went(old(ctl), r, suffix)
      ensures held == p && (r.Returns? ==> journal == p)
    {
      hide Run, Step, Prepped, ControlAfter, Next, Handler, Plan.FreshSuffix, Loc, Perform, SourceReady, Terminal;
      var ch := Choose();
      ch := ch.(suffix := suffix);
      r := Ending(ch.kind, true);
      held := p;
      if r.Returns? || ch.applied {
        journal := p;
      }
      if Terminal(p) && lock && (r.Returns? || (ch.applied && ch.unlinked)) {
        lock := false;
      }
      PerformIdle(plan, disk, Act(ctl), ch, r);
      SourceOf(plan, disk, Act(ctl));
      ControlWrites(ctl, ch, r);
      Record(disk, ch, r);
    }

    method Snapshot(src: Place, dst: Place) returns (r: Outcome)
      requires Valid() && Act(ctl) == Copy(src, dst)
      modifies this`disk, this`ctl, this`log
      ensures Valid() && Grew(old(log)) && Went(old(ctl), r, "")
    {
      hide Run, Step, Prepped, ControlAfter, Next, Handler, Plan.FreshSuffix, Loc, CopyAfter, MoveAfter, Exists;
      var ch := Choose();
      r := Ending(ch.kind, Exists(plan, disk, src));
      ghost var before := disk;
      disk := CopyAfter(plan, disk, src, dst, ch, r);
      ControlKeeps(ctl, ch, r);
      SuffixDrawnByWrite(ctl);
      Record(before, ch, r);
    }

    method Rename(src: Place, dst: Place) returns (r: Outcome)
      requires Valid() && Act(ctl) == Move(src, dst)
      modifies this`disk, this`ctl, this`log
      ensures Valid() && Grew(old(log)) && Went(old(ctl), r, "")
    {
      hide Run, Step, Prepped, ControlAfter, Next, Handler, Plan.FreshSuffix, Loc, CopyAfter, MoveAfter, Exists;
      var ch := Choose();
      r := Ending(ch.kind, Exists(plan, disk, src));
      ghost var before := disk;
      disk := MoveAfter(plan, disk, src, dst, ch, r);
      ControlKeeps(ctl, ch, r);
      SuffixDrawnByWrite(ctl);
      Record(before, ch, r);
    }

    method RenameIfPresent(src: Place, dst: Place) returns (r: Outcome)
      requires Valid() && Act(ctl) == MoveIfPresent(src, dst)
      modifies this`disk, this`ctl, this`log
      ensures Valid() && Grew(old(log)) && Went(old(ctl), r, "")
    {
      hide Run, Step, Prepped, ControlAfter, Next, Handler, Plan.FreshSuffix, Loc, MoveTree, Exists;
      var ch := Choose();
      r := Ending(ch.kind, true);
      ghost var before := disk;
      if Exists(plan, disk, src) {
        disk := MoveAfter(plan, disk, src, dst, ch, r);
      }
      ControlKeeps(ctl, ch, r);
      SuffixDrawnByWrite(ctl);
      Record(before, ch, r);
    }

    /** preflight, stop, validateStage, stopping orphans: they may refuse but change nothing here. */
    method Consult() returns (r: Outcome)
      requires Valid() && Act(ctl).Check? && !ctl.pc.Waiting?
      modifies this`ctl, this`log
      ensures Valid() && Grew(old(log)) && Went(old(ctl), r, "")
    {
      hide Run, Step, Prepped, ControlAfter, Next, Handler, Plan.FreshSuffix, Loc, Torn;
      var ch := Choose();
      r := Ending(ch.kind, true);
      ControlKeeps(ctl, ch, r);
      SuffixDrawnByWrite(ctl);
      Record(disk, ch, r);
    }

    /** Waiting for the recorded processes, among them the client that prepared the update, which may write its
        data until then; the function called next reads the journal. */
    method Wait() returns (r: Outcome)
      requires Valid() && ctl.pc.Waiting?
      modifies this`disk, this`held, this`ctl, this`log
      ensures Valid() && Grew(old(log)) && Went(old(ctl), r, "")
      ensures disk == old(disk) || (journal.Prepared? && WritesOnly(old(disk), disk, {plan.data}))
    {
      hide Run, Step, Prepped, ControlAfter, Next, Handler, Plan.FreshSuffix, Loc, Exists, WritesOnly;
      var ch := Choose();
      r := Ending(ch.kind, true);
      ghost var before := disk;
      if journal.Prepared? {
        disk := Torn(disk, ch.disk, {plan.data});
      }
      if r.Returns? {
        held := journal;
      }
      ControlKeeps(ctl, ch, r);
      SuffixDrawnByWrite(ctl);
      Record(before, ch, r);
    }

    /** The one operation whose error may forbid restoring. */
    method VerifyInstalled() returns (r: Outcome)
      requires Valid() && Act(ctl).Verify?
      modifies this`disk, this`ctl, this`log
      ensures Valid() && Grew(old(log))
      ensures match r
        case Returns => ctl.pc == Exec(WriteComplete)
        case Raises(unsafe) => ctl.pc == NotingError(unsafe)
        case Dies => ctl.pc.Crashed?
        case Waits => false
    {
      hide Run, Step, Prepped, ControlAfter, Next, Handler, Plan.FreshSuffix, Loc, Torn;
      var ch := Choose();
      var unsafe: bool := *;
      VerifyRoutes(ctl, unsafe);
      if ch.kind.Throws? {
        ch := ch.(kind := Throws(unsafe));
      }
      r := Ending(ch.kind, true);
      ghost var before := disk;
      disk := Torn(disk, ch.disk, VerifyAreas(plan));
      ControlKeeps(ctl, ch, r);
      SuffixDrawnByWrite(ctl);
      Record(before, ch, r);
    }

    /** randomUUID. A repeated id is outside the model: the run is counted as ending there. */
    method RandomUuid() returns (x: string, r: Outcome)
      requires Valid() && DrawsSuffix(ctl)
      modifies this`held, this`ctl, this`log
      ensures Valid() && Grew(old(log))
      ensures r.Returns? ==> ctl == old(ctl) && plan.FreshSuffix(disk, x)
      ensures !r.Returns? ==> r.Dies? && ctl.pc.Crashed?
    {
      hide Run, Step, Prepped, Plan.FreshSuffix, Loc;
      x := *;
      if plan.FreshSuffix(disk, x) {
        r := Returns;
      } else {
        r := Dies;
        held := RollingBack;
        Record(disk, Choice(Crashes, false, false, map[], ""), Dies);
      }
    }

    method ExecuteUpdate() returns (r: Outcome)
      requires Valid() && ctl.pc == Exec(Preflight)
      modifies this
      ensures Valid() && Grew(old(log)) && Left(r, Returned)
      ensures Meaningful() && (r.Returns? ==> journal.Complete?)
    {
      hide Run, Step, Prepped, Meaningful;
      r := TryUpdate();
      if r.Raises? {
        r := HandleError(r.unsafe);
      }
      AlwaysMeaningful();
    }

    /** The catch block of executeUpdate, which rethrows. */
    method HandleError(unsafe: bool) returns (r: Outcome)
      requires Valid() && ctl.pc == NotingError(unsafe)
      modifies this
      ensures Valid() && Grew(old(log)) && Left(r, Returned) && !r.Returns?
    {
      hide Run, Step, Prepped, Act, Next, Handler, LeaveRecovery;
      ErrorRoutes(ctl, unsafe);
      r := WriteUpdate(held, "");
      if !r.Returns? { return; }
      DecisionRoutes(ctl);
      if unsafe {
        r := WriteUpdate(RecoveryRequired, "");
      } else if held.Installing? || held.Verifying? || held.RollingBack? {
        r := RecoverUpdate();
      } else {
        r := WriteUpdate(Failed, "");
      }
      if r.Returns? {
        r := Raises(false);
      }
    }

    /** The try block of executeUpdate. */
    method TryUpdate() returns (r: Outcome)
      requires Valid() && ctl.pc == Exec(Preflight)
      modifies this
      ensures Valid() && Grew(old(log))
      ensures match r
        case Returns => ctl.pc.Returned? && journal.Complete?
        case Raises(unsafe) => ctl.pc == NotingError(unsafe)
        case Dies => ctl.pc.Crashed?
        case Waits => false
    {
      hide Run, Step, Prepped, Loc, Plan.FreshSuffix;
      r := Prepare();
      if !r.Returns? { return; }
      r := BackUp();
      if !r.Returns? { return; }
      r := Stage();
      if !r.Returns? { return; }
      r := Exchange();
      if !r.Returns? { return; }
      r := Commit();
    }

    /** Checks, and the first durable phase. */
    method Prepare() returns (r: Outcome)
      requires Valid() && ctl.pc == Exec(Preflight)
      modifies this
      ensures Valid() && Grew(old(log))
      ensures match r
        case Returns => ctl.pc == Exec(CopyingApp)
        case Raises(unsafe) => ctl.pc == NotingError(unsafe)
        case Dies => ctl.pc.Crashed?
        case Waits => false
    {
      hide Run, Step, Prepped, Loc, Plan.FreshSuffix;
      r := Consult();
      if !r.Returns? { return; }
      r := Consult();
      if !r.Returns? { return; }
      r := WriteUpdate(BackingUp, "");
    }

    /** Both snapshots, then 'backed-up'. */
    method BackUp() returns (r: Outcome)
      requires Valid() && ctl.pc == Exec(CopyingApp)
      modifies this
      ensures Valid() && Grew(old(log))
      ensures match r
        case Returns => ctl.pc == Exec(CopyingCandidate)
        case Raises(unsafe) => ctl.pc == NotingError(unsafe)
        case Dies => ctl.pc.Crashed?
        case Waits => false
    {
      hide Run, Step, Prepped, Loc, Plan.FreshSuffix;
      r := Snapshot(App, BackupApp);
      if !r.Returns? { return; }
      r := Snapshot(Data, BackupData);
      if !r.Returns? { return; }
      r := WriteUpdate(BackedUp, "");
    }

    /** The candidate beside the app, validated. */
    method Stage() returns (r: Outcome)
      requires Valid() && ctl.pc == Exec(CopyingCandidate)
      modifies this
      ensures Valid() && Grew(old(log))
      ensures match r
        case Returns => ctl.pc == Exec(WriteInstalling)
        case Raises(unsafe) => ctl.pc == NotingError(unsafe)
        case Dies => ctl.pc.Crashed?
        case Waits => false
    {
      hide Run, Step, Prepped, Loc, Plan.FreshSuffix;
      r := Snapshot(Candidate, StagedApp);
      if !r.Returns? { return; }
      r := Consult();
    }

    /** The two renames that exchange the app. */
    method Exchange() returns (r: Outcome)
      requires Valid() && ctl.pc == Exec(WriteInstalling)
      modifies this
      ensures Valid() && Grew(old(log))
      ensures match r
        case Returns => ctl.pc == Exec(WriteVerifying)
        case Raises(unsafe) => ctl.pc == NotingError(unsafe)
        case Dies => ctl.pc.Crashed?
        case Waits => false
    {
      hide Run, Step, Prepped, Loc, Plan.FreshSuffix;
      r := WriteUpdate(Installing, "");
      if !r.Returns? { return; }
      r := Rename(App, DisplacedApp);
      if !r.Returns? { return; }
      r := Rename(StagedApp, App);
    }

    /** Verification, then 'complete'. */
    method Commit() returns (r: Outcome)
      requires Valid() && ctl.pc == Exec(WriteVerifying)
      modifies this
      ensures Valid() && Grew(old(log))
      ensures match r
        case Returns => ctl.pc.Returned? && journal.Complete?
        case Raises(unsafe) => ctl.pc == NotingError(unsafe)
        case Dies => ctl.pc.Crashed?
        case Waits => false
    {
      hide Run, Step, Prepped, Loc, Plan.FreshSuffix;
      r := WriteUpdate(Verifying, "");
      if !r.Returns? { return; }
      r := VerifyInstalled();
      if !r.Returns? { return; }
      r := WriteUpdate(Complete, "");
    }

    method RecoverUpdate() returns (r: Outcome)
      requires Valid() && ctl.pc.StartingRecovery?
      modifies this
      ensures Valid() && Grew(old(log)) && Left(r, LeaveRecovery(old(ctl)))
      ensures r.Returns? ==> journal == Recovered(old(journal))
    {
      hide Run, Step, Prepped, Loc, Plan.FreshSuffix, Act, Next, Handler, LeaveRecovery;
      RecoveryRoutes(ctl);
      if Terminal(journal) {
        r := Consult();
      } else if Early(journal) {
        r := WriteUpdate(Failed, "");
      } else {
        var x;
        x, r := RandomUuid();
        if !r.Returns? {
          return;
        }
        r := TryRecover(x);
        if r.Raises? {
          HandlerRoutes(ctl);
          r := WriteUpdate(RecoveryRequired, "");
          if r.Returns? {
            r := Raises(false);
          }
        }
      }
    }

    /** The try block of recoverUpdate. */
    method TryRecover(x: string) returns (r: Outcome)
      requires Valid() && DrawsSuffix(ctl) && plan.FreshSuffix(disk, x)
      modifies this
      ensures Valid() && Grew(old(log))
      ensures match r
        case Returns => ctl.pc == LeaveRecovery(old(ctl)) && journal.RolledBack?
        case Raises(unsafe) => ctl.pc.RecoveryFailing?
        case Dies => ctl.pc.Crashed?
        case Waits => false
    {
      hide Run, Step, Prepped, Loc, Plan.FreshSuffix;
      r := StageRestore(x);
      if !r.Returns? { return; }
      r := RestoreAppFrom(x);
      if !r.Returns? { return; }
      r := RestoreDataFrom(x);
    }

    /** Fresh copies of both backups beside the places they will take. */
    method StageRestore(x: string) returns (r: Outcome)
      requires Valid() && DrawsSuffix(ctl) && plan.FreshSuffix(disk, x)
      modifies this
      ensures Valid() && Grew(old(log))
      ensures match r
        case Returns => ctl.pc == Recover(MovingAppOut, x) && ctl.nested == old(ctl).nested
        case Raises(unsafe) => ctl.pc.RecoveryFailing?
        case Dies => ctl.pc.Crashed?
        case Waits => false
    {
      hide Run, Step, Prepped, Loc, Plan.FreshSuffix;
      r := WriteUpdate(RollingBack, x);
      if !r.Returns? { return; }
      r := Snapshot(BackupApp, RestoreApp(x));
      if !r.Returns? { return; }
      r := Snapshot(BackupData, RestoreData(x));
    }

    /** The app that failed steps aside for the restored one. */
    method RestoreAppFrom(x: string) returns (r: Outcome)
      requires Valid() && ctl.pc == Recover(MovingAppOut, x)
      modifies this
      ensures Valid() && Grew(old(log))
      ensures match r
        case Returns => ctl.pc == Recover(MovingDataOut, x) && ctl.nested == old(ctl).nested
        case Raises(unsafe) => ctl.pc.RecoveryFailing?
        case Dies => ctl.pc.Crashed?
        case Waits => false
    {
      hide Run, Step, Prepped, Loc, Plan.FreshSuffix;
      r := RenameIfPresent(App, FailedApp(x));
      if !r.Returns? { return; }
      r := Rename(RestoreApp(x), App);
    }

    /** Likewise the data, then 'rolled-back'. */
    method RestoreDataFrom(x: string) returns (r: Outcome)
      requires Valid() && ctl.pc == Recover(MovingDataOut, x)
      modifies this
      ensures Valid() && Grew(old(log))
      ensures match r
        case Returns => ctl.pc == LeaveRecovery(old(ctl)) && journal.RolledBack?
        case Raises(unsafe) => ctl.pc.RecoveryFailing?
        case Dies => ctl.pc.Crashed?
        case Waits => false
    {
      hide Run, Step, Prepped, Loc, Plan.FreshSuffix;
      r := RenameIfPresent(Data, FailedData(x));
      if !r.Returns? { return; }
      r := Rename(RestoreData(x), Data);
      if !r.Returns? { return; }
      r := WriteUpdate(RolledBack, "");
    }

    ghost method LaunchHelper(recover: bool)
      requires Valid() && Act(ctl).Rest?
      modifies this`ctl, this`log
      ensures Valid() && Grew(old(log)) && ctl == Launch(old(ctl), recover)
    {
      hide Step, Prepped, Plan.Valid;
      StepAtRest(plan, State(disk, ctl), Choice(Start(recover), false, false, map[], ""));
      log := log + [Choice(Start(recover), false, false, map[], "")];
      assert log[..|log| - 1] == old(log);
      ctl := Launch(ctl, recover);
    }

    /** One helper process, from its launch to its end. It reopens the app only in a terminal phase, and what it
        reopens is the whole old app or the whole candidate. */
    method RunHelper(recover: bool) returns (r: Outcome, reopened: bool)
      requires Valid() && Act(ctl).Rest?
      modifies this
      ensures Valid() && Grew(old(log)) && Meaningful()
      ensures if r.Returns? then ctl.pc.Returned? else ctl.pc.Crashed?
      ensures r.Returns? && ctl.clean ==> Terminal(journal) || journal.RecoveryRequired?
      ensures reopened <==> r.Returns? && Terminal(journal) && Exists(plan, disk, App)
      ensures reopened ==> Trees(plan, disk)(App) in {StartedFrom().app, StartedFrom().candidate}
    {
      hide Run, Step, Prepped, Meaningful, Trees, Plan.Valid;
      r := RunToEnd(recover);
      reopened := false;
      if r.Returns? {
        reopened := Reopens();
      }
    }

    /** The update is over and there is an app. */
    method Reopens() returns (reopened: bool)
      requires Valid() && Meaningful()
      ensures reopened <==> Terminal(journal) && Exists(plan, disk, App)
      ensures reopened ==> Trees(plan, disk)(App) in {StartedFrom().app, StartedFrom().candidate}
    {
      hide Run, Trees, OriginalsFrom, OriginalsOf, CommitThrewIn, Prepped, AllPassed, Before;
      reopened := Terminal(journal) && Exists(plan, disk, App);
    }

    /** Everything but the reopening. */
    method RunToEnd(recover: bool) returns (r: Outcome)
      requires Valid() && Act(ctl).Rest?
      modifies this
      ensures Valid() && Grew(old(log)) && Meaningful()
      ensures if r.Returns? then ctl.pc.Returned? else ctl.pc.Crashed?
      ensures r.Returns? && ctl.clean ==> Terminal(journal) || journal.RecoveryRequired?
    {
      hide Run, Step, Loc, Plan.FreshSuffix, Prepped, Act, Next, Handler, Meaningful;
      RestingPlaces(ctl);
      LaunchHelper(recover);
      r := Work(recover);
      if r.Raises? {
        r := NoteFailure();
      }
      AlwaysMeaningful();
      if r.Returns? && ctl.clean {
        ReturnedMeans();
      }
    }

    /** The catch block of main: the error is noted, and a transaction still 'prepared' has failed. */
    method NoteFailure() returns (r: Outcome)
      requires Valid() && ctl.pc.HelperNoting?
      modifies this
      ensures Valid() && Grew(old(log))
      ensures if r.Returns? then ctl.pc.Returned? else ctl.pc.Crashed?
    {
      hide Run, Step, Prepped, Act, Next, Handler;
      HandlerRoutes(ctl);
      r := WriteUpdate(journal, "");
      HandlerRoutes(ctl);
      if r.Returns? && journal.Prepared? {
        r := WriteUpdate(Failed, "");
      }
      if r.Raises? {
        r := Returns;
      }
    }

    /** The try block of the helper's main function. */
    method Work(recover: bool) returns (r: Outcome)
      requires Valid() && ctl.pc == Waiting(recover) && !ctl.nested
      modifies this
      ensures Valid() && Grew(old(log)) && Left(r, Returned)
    {
      hide Run, Step, Prepped, Loc, Plan.FreshSuffix;
      r := Wait();
      if !r.Returns? {
        return;
      }
      if recover {
        r := Consult();
        if r.Returns? {
          r := RecoverUpdate();
        }
      } else if journal.Prepared? {
        r := ExecuteUpdate();
      } else {
        r := Raises(false);
      }
    }
  }

  /** One executing helper and then any number of recovery runs, each ending as it may. */
  method AnyHistory(h: Helper)
    requires h.Valid() && h.ctl.pc.Idle?
    modifies h
    ensures h.Valid() && h.Meaningful() && h.Grew(old(h.log))
  {
    hide Run, Step, Prepped, Trees;
    var r, reopened := h.RunHelper(false);
    var more: nat := *;
    while more > 0
      invariant h.Valid() && h.Meaningful() && h.Grew(old(h.log)) && Act(h.ctl).Rest?
    {
      r, reopened := h.RunHelper(true);
      more := more - 1;
    }
  }
}
