/** The update helper as a machine that performs one durable operation per step.
    A run is driven by choices: each operation completes, throws, or is cut short by a crash,
    and whenever no helper runs a new one may be started, to execute or to recover. */
module UpdateMachine {
  import opened Paths
  import opened Disks
  import opened UpdatePlan

  datatype Phase =
    | Prepared | BackingUp | BackedUp | Installing | Verifying | Complete
    | RollingBack | RolledBack | Failed | RecoveryRequired

  predicate Terminal(p: Phase) { p.Complete? || p.RolledBack? || p.Failed? }

  /** Phases in which recovery has nothing to restore. */
  predicate Early(p: Phase) { p.Prepared? || p.BackingUp? || p.BackedUp? }

  /** The operations of executeUpdate's try block. */
  datatype ExecLine =
    | Preflight | Stopping | WriteBackingUp | CopyingApp | CopyingData | WriteBackedUp
    | CopyingCandidate | ValidatingStage | WriteInstalling | MovingAppAside | MovingStagedIn
    | WriteVerifying | VerifyingApp | WriteComplete

  /** The operations of recoverUpdate's try block, after it has drawn its suffix. */
  datatype RecoverLine =
    | RestoringApp | RestoringData | MovingAppOut | MovingAppBack | MovingDataOut | MovingDataBack | WriteRolledBack

  /** The operation the helper is about to perform. */
  datatype Pc =
    | Idle | Crashed | Returned
    // the helper's main function
    | Waiting(recover: bool) | StoppingOrphans | HelperNoting | HelperFailing
    // executeUpdate, then its catch block
    | Exec(line: ExecLine) | NotingError(unsafe: bool) | Deciding(unsafe: bool)
    // recoverUpdate, then its catch block
    | StartingRecovery | Recover(at: RecoverLine, suffix: string) | RecoveryFailing

  /** The durable journal and lock, and the state of the one helper process. */
  datatype Control = Control(
    phase: Phase,       // of the durable journal
    lock: bool,         // active.lock exists
    pc: Pc,
    mem: Phase,         // of the journal object executeUpdate holds in memory
    nested: bool,       // recovery was entered from executeUpdate's catch block
    verified: bool,     // verify has returned
    commitThrew: bool,  // the journal write of 'complete' threw
    clean: bool)        // this helper executes a prepared update, and no write that threw has stranded it

  datatype State = State(disk: Disk, ctl: Control)

  datatype Verdict = Start(recover: bool) | Done | Throws(unsafe: bool) | Crashes

  /** What the environment decides about one step. `applied` says that a rename or a journal write
      that did not return had taken effect, `unlinked` that the lock was already removed, and `disk`
      is what an unfinished copy, verification, or the client that was waited for, leaves behind. */
  datatype Choice = Choice(kind: Verdict, applied: bool, unlinked: bool, disk: Disk, suffix: string)

  datatype Action =
    | Rest
    | Check
    | Await  // for the client that prepared the update, and may write its data until it has quit
    | Copy(src: Place, dst: Place)
    | Move(src: Place, dst: Place)
    | MoveIfPresent(src: Place, dst: Place)
    | Journal(phase: Phase)
    | Verify

  function ExecAct(l: ExecLine): Action {
    match l
    case Preflight | Stopping | ValidatingStage => Check
    case WriteBackingUp => Journal(BackingUp)
    case CopyingApp => Copy(App, BackupApp)
    case CopyingData => Copy(Data, BackupData)
    case WriteBackedUp => Journal(BackedUp)
    case CopyingCandidate => Copy(Candidate, StagedApp)
    case WriteInstalling => Journal(Installing)
    case MovingAppAside => Move(App, DisplacedApp)
    case MovingStagedIn => Move(StagedApp, App)
    case WriteVerifying => Journal(Verifying)
    case VerifyingApp => Verify
    case WriteComplete => Journal(Complete)
  }

  function RecoverAct(l: RecoverLine, x: string): Action {
    match l
    case RestoringApp => Copy(BackupApp, RestoreApp(x))
    case RestoringData => Copy(BackupData, RestoreData(x))
    case MovingAppOut => MoveIfPresent(App, FailedApp(x))
    case MovingAppBack => Move(RestoreApp(x), App)
    case MovingDataOut => MoveIfPresent(Data, FailedData(x))
    case MovingDataBack => Move(RestoreData(x), Data)
    case WriteRolledBack => Journal(RolledBack)
  }

  function Act(c: Control): Action {
    match c.pc
    case Idle | Crashed | Returned => Rest
    case Waiting(_) => if c.phase.Prepared? then Await else Check
    case StoppingOrphans => Check
    case HelperNoting => Journal(c.phase)
    case HelperFailing => Journal(Failed)
    case Exec(l) => ExecAct(l)
    case NotingError(_) => Journal(c.mem)
    case Deciding(unsafe) => Journal(if unsafe then RecoveryRequired else Failed)
    case StartingRecovery =>
      if Terminal(c.phase) then Check else if Early(c.phase) then Journal(Failed) else Journal(RollingBack)
    case Recover(l, x) => RecoverAct(l, x)
    case RecoveryFailing => Journal(RecoveryRequired)
  }

  function ExecNext(l: ExecLine): Pc {
    match l
    case Preflight => Exec(Stopping)
    case Stopping => Exec(WriteBackingUp)
    case WriteBackingUp => Exec(CopyingApp)
    case CopyingApp => Exec(CopyingData)
    case CopyingData => Exec(WriteBackedUp)
    case WriteBackedUp => Exec(CopyingCandidate)
    case CopyingCandidate => Exec(ValidatingStage)
    case ValidatingStage => Exec(WriteInstalling)
    case WriteInstalling => Exec(MovingAppAside)
    case MovingAppAside => Exec(MovingStagedIn)
    case MovingStagedIn => Exec(WriteVerifying)
    case WriteVerifying => Exec(VerifyingApp)
    case VerifyingApp => Exec(WriteComplete)
    case WriteComplete => Returned
  }

  /** Leaving recoverUpdate normally: back in the catch block that called it, which rethrows, or done. */
  function LeaveRecovery(c: Control): Pc { if c.nested then HelperNoting else Returned }

  function RecoverNext(c: Control, l: RecoverLine, x: string): Pc {
    match l
    case RestoringApp => Recover(RestoringData, x)
    case RestoringData => Recover(MovingAppOut, x)
    case MovingAppOut => Recover(MovingAppBack, x)
    case MovingAppBack => Recover(MovingDataOut, x)
    case MovingDataOut => Recover(MovingDataBack, x)
    case MovingDataBack => Recover(WriteRolledBack, x)
    case WriteRolledBack => LeaveRecovery(c)
  }

  /** Where control goes when the operation at the program counter returns. */
  function Next(c: Control, suffix: string): Pc {
    match c.pc
    case Idle | Crashed | Returned => c.pc
    case Waiting(recover) =>
      if recover then StoppingOrphans else if c.phase.Prepared? then Exec(Preflight) else HelperNoting
    case StoppingOrphans => StartingRecovery
    case HelperNoting => if c.phase.Prepared? then HelperFailing else Returned
    case HelperFailing => Returned
    case Exec(l) => ExecNext(l)
    case NotingError(unsafe) =>
      if unsafe then Deciding(true)
      else if c.mem.Installing? || c.mem.Verifying? || c.mem.RollingBack? then StartingRecovery
      else Deciding(false)
    case Deciding(_) => HelperNoting
    case StartingRecovery =>
      if Terminal(c.phase) || Early(c.phase) then LeaveRecovery(c) else Recover(RestoringApp, suffix)
    case Recover(l, x) => RecoverNext(c, l, x)
    case RecoveryFailing => HelperNoting
  }

  /** Where control goes when the operation throws: the innermost enclosing handler. */
  function Handler(c: Control, unsafe: bool): Pc {
    match c.pc
    case Idle | Crashed | Returned => c.pc
    case HelperNoting | HelperFailing => Returned
    case Waiting(_) | StoppingOrphans | NotingError(_) | Deciding(_) | RecoveryFailing => HelperNoting
    case Exec(l) => NotingError(unsafe && l.VerifyingApp?)
    case StartingRecovery =>
      if Terminal(c.phase) || Early(c.phase) then HelperNoting else RecoveryFailing
    case Recover(_, _) => RecoveryFailing
  }

  /** What stands at each place. */
  function Trees(plan: Plan, d: Disk): Place -> Tree
    requires plan.Valid()
  {
    p => TreeAt(d, Loc(plan, p))
  }

  /** Verification runs the new version on the data and logs into the backup directory. */
  function VerifyAreas(plan: Plan): set<Path> {
    {plan.data, plan.Backup() + ["validation.log"],
     plan.Backup() + ["validation-processes.json"], plan.Backup() + ["validation-processes.json.new"]}
  }

  /** What an operation may leave behind outside its full effect: any disk that differs only in `areas`. */
  function Torn(d: Disk, d': Disk, areas: set<Path>): Disk {
    if WritesOnly(d, d', areas) then d' else d
  }

  predicate Exists(plan: Plan, d: Disk, p: Place)
    requires plan.Valid()
  {
    Trees(plan, d)(p) != map[]
  }

  /** A copy or a rename of something that is not there throws. */
  predicate SourceReady(plan: Plan, d: Disk, act: Action)
    requires plan.Valid()
  {
    match act
    case Copy(src, _) => Exists(plan, d, src)
    case Move(src, _) => Exists(plan, d, src)
    case _ => true
  }

  /** Recovery draws its suffix after writing 'rolling-back'; a generated id is always new. */
  predicate DrawsSuffix(c: Control) {
    c.pc.StartingRecovery? && !Terminal(c.phase) && !Early(c.phase)
  }

  datatype Outcome = Returns | Raises(unsafe: bool) | Dies | Waits

  function Ending(kind: Verdict, ready: bool): Outcome {
    match kind
    case Start(_) => Waits
    case Crashes => Dies
    case Throws(unsafe) => Raises(unsafe)
    case Done => if ready then Returns else Raises(false)
  }

  function Judge(plan: Plan, s: State, ch: Choice): Outcome
    requires plan.Valid()
  {
    if ch.kind.Done? && DrawsSuffix(s.ctl) && !plan.FreshSuffix(s.disk, ch.suffix) then Waits
    else Ending(ch.kind, SourceReady(plan, s.disk, Act(s.ctl)))
  }

  /** The disk after an operation that ended as `out`. Only a crash can hide a rename that happened. */
  function Perform(plan: Plan, d: Disk, act: Action, ch: Choice, out: Outcome): Disk
    requires plan.Valid()
  {
    if out.Waits? then d else
    match act
    case Rest | Check | Journal(_) => d
    case Copy(src, dst) => CopyAfter(plan, d, src, dst, ch, out)
    case Move(src, dst) => MoveAfter(plan, d, src, dst, ch, out)
    case MoveIfPresent(src, dst) => MoveAfter(plan, d, src, dst, ch, out)
    case Await => Torn(d, ch.disk, {plan.data})
    case Verify => Torn(d, ch.disk, VerifyAreas(plan))
  }

  function CopyAfter(plan: Plan, d: Disk, src: Place, dst: Place, ch: Choice, out: Outcome): Disk
    requires plan.Valid()
  {
    if out.Returns? then CopyTree(d, Loc(plan, src), Loc(plan, dst)) else Torn(d, ch.disk, {Loc(plan, dst)})
  }

  function MoveAfter(plan: Plan, d: Disk, src: Place, dst: Place, ch: Choice, out: Outcome): Disk
    requires plan.Valid()
  {
    if (out.Returns? || (out.Dies? && ch.applied)) && Exists(plan, d, src)
    then MoveTree(d, Loc(plan, src), Loc(plan, dst)) else d
  }

  /** The journal and the lock after the operation; a terminal phase also removes the lock. */
  function Written(c: Control, ch: Choice, out: Outcome): Control {
    match Act(c)
    case Journal(p) =>
      if out.Returns? then c.(phase := p, mem := p, lock := c.lock && !Terminal(p))
      else c.(mem := p,
              phase := if ch.applied then p else c.phase,
              lock := c.lock && !(ch.applied && Terminal(p) && ch.unlinked))
    case _ => c
  }

  /** An update that is over, well or badly, or one that a user has been told to recover. */
  predicate Settled(p: Phase) { Terminal(p) || p.RecoveryRequired? }

  /** If this journal write throws, no later write of this helper gives the journal a settled phase. */
  predicate Strands(c: Control, ch: Choice) {
    Act(c).Journal? &&
    var p := if ch.applied then Act(c).phase else c.phase;
    match c.pc
    case NotingError(_) | Deciding(_) | RecoveryFailing => !Settled(p) && !p.Prepared?
    case HelperNoting | HelperFailing => !Settled(p)
    case _ => false
  }

  function ControlAfter(c: Control, ch: Choice, out: Outcome): Control {
    match out
    case Waits => c
    case Dies => Written(c, ch, out).(pc := Crashed)
    case Returns =>
      Written(c, ch, out).(
        pc := Next(c, ch.suffix),
        mem := if c.pc.Waiting? then c.phase else Written(c, ch, out).mem,
        nested := c.nested || c.pc.NotingError?,
        verified := c.verified || c.pc == Exec(VerifyingApp))
    case Raises(unsafe) =>
      Written(c, ch, out).(
        pc := Handler(c, unsafe),
        commitThrew := c.commitThrew || c.pc == Exec(WriteComplete),
        clean := c.clean && !Strands(c, ch))
  }

  function Launch(c: Control, recover: bool): Control {
    c.(pc := Waiting(recover), nested := false, clean := !recover && c.phase.Prepared?)
  }

  function Step(plan: Plan, s: State, ch: Choice): State
    requires plan.Valid()
  {
    if Act(s.ctl).Rest? then
      if ch.kind.Start? then State(s.disk, Launch(s.ctl, ch.kind.recover)) else s
    else
      var out := Judge(plan, s, ch);
      State(Perform(plan, s.disk, Act(s.ctl), ch, out), ControlAfter(s.ctl, ch, out))
  }

  lemma StepAtWork(plan: Plan, s: State, ch: Choice)
    requires plan.Valid() && !Act(s.ctl).Rest?
    ensures var out := Judge(plan, s, ch);
      Step(plan, s, ch) == State(Perform(plan, s.disk, Act(s.ctl), ch, out), ControlAfter(s.ctl, ch, out))
  {
    hide Perform, ControlAfter, Judge;
  }

  lemma StepAtRest(plan: Plan, s: State, ch: Choice)
    requires plan.Valid() && Act(s.ctl).Rest?
    ensures Step(plan, s, ch) == if ch.kind.Start? then State(s.disk, Launch(s.ctl, ch.kind.recover)) else s
  {
    hide Launch;
  }

  lemma PerformIdle(plan: Plan, d: Disk, act: Action, ch: Choice, out: Outcome)
    requires plan.Valid() && (act.Rest? || act.Check? || act.Journal? || out.Waits?)
    ensures Perform(plan, d, act, ch, out) == d
  {
    hide Loc, CopyAfter, MoveAfter, Torn;
  }

  /** The state after all choices have been taken, the last one last. */
  function Run(plan: Plan, s: State, chs: seq<Choice>): State
    requires plan.Valid()
  {
    if chs == [] then s else Step(plan, Run(plan, s, chs[..|chs| - 1]), chs[|chs| - 1])
  }

  /** beginUpdate has created the backup directory and written the 'prepared' journal. */
  function Begin(plan: Plan, d: Disk): State {
    State(d[plan.Backup() := Directory], Control(Prepared, true, Idle, Prepared, false, false, false, false))
  }

  /** A prepared transaction whose own places are still empty. */
  predicate Prepped(plan: Plan, s: State) {
    && plan.Valid()
    && s.ctl.phase.Prepared? && s.ctl.mem.Prepared? && s.ctl.lock && s.ctl.pc.Idle?
    && !s.ctl.commitThrew && !s.ctl.verified && !s.ctl.clean
    && !Exists(plan, s.disk, BackupApp) && !Exists(plan, s.disk, BackupData)
    && !Exists(plan, s.disk, StagedApp) && !Exists(plan, s.disk, DisplacedApp)
  }
}
