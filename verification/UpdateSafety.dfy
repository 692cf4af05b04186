/** The invariant of the update protocol, kept by every operation whatever the environment chooses. */
module UpdateSafety {
  import opened Paths
  import opened Disks
  import opened UpdatePlan
  import opened UpdateMachine

  /** The trees of a transaction as a table of places: the disk without its paths. */
  datatype Table<X(==)> = Table(
    none: X,
    app: X, data: X, candidate: X, backupApp: X, backupData: X, staged: X, displaced: X,
    restoreApp: X, restoreData: X, failedApp: X, failedData: X)
  {
    function At(p: Place): X {
      match p
      case App => app
      case Data => data
      case Candidate => candidate
      case BackupApp => backupApp
      case BackupData => backupData
      case StagedApp => staged
      case DisplacedApp => displaced
      case RestoreApp(_) => restoreApp
      case RestoreData(_) => restoreData
      case FailedApp(_) => failedApp
      case FailedData(_) => failedData
    }

    function Put(p: Place, t: X): Table<X> {
      match p
      case App => this.(app := t)
      case Data => this.(data := t)
      case Candidate => this.(candidate := t)
      case BackupApp => this.(backupApp := t)
      case BackupData => this.(backupData := t)
      case StagedApp => this.(staged := t)
      case DisplacedApp => this.(displaced := t)
      case RestoreApp(_) => this.(restoreApp := t)
      case RestoreData(_) => this.(restoreData := t)
      case FailedApp(_) => this.(failedApp := t)
      case FailedData(_) => this.(failedData := t)
    }

    function Moved(src: Place, dst: Place): Table<X> { Put(dst, At(src)).Put(src, none) }
  }

  /** The table of the trees `at` while a recovery run with suffix `x` is at work. */
  function Tabulate<X>(at: Place -> X, none: X, x: string): Table<X> {
    var own := (p: Place) => if x == "" then none else at(p);
    Table(none, at(App), at(Data), at(Candidate), at(BackupApp), at(BackupData), at(StagedApp), at(DisplacedApp),
          own(RestoreApp(x)), own(RestoreData(x)), own(FailedApp(x)), own(FailedData(x)))
  }

  function View(plan: Plan, d: Disk, x: string): Table<Tree>
    requires plan.Valid()
  {
    Tabulate(Trees(plan, d), map[], x)
  }

  /** The trees at the moment the transaction was prepared. */
  datatype Originals<X> = Originals(app: X, data: X, candidate: X)

  predicate Untouched<X(==)>(o: Originals<X>, v: Table<X>) { v.app == o.app && v.data == o.data }

  /** Both backups are complete copies, and there was something to copy. */
  predicate Backed<X(==)>(o: Originals<X>, v: Table<X>) {
    v.backupApp == o.app != v.none && v.backupData == o.data != v.none
  }

  /** Nothing stands yet at the places the transaction adds. */
  predicate Unused<X(==)>(v: Table<X>) {
    v.backupApp == v.none && v.backupData == v.none && v.staged == v.none && v.displaced == v.none
  }

  /** What the durable phase alone promises about the trees, whatever the helper is doing. */
  predicate PhaseInv<X(==)>(o: Originals<X>, c: Control, v: Table<X>) {
    && v.candidate == o.candidate
    && (c.commitThrew ==> !Early(c.phase) && Backed(o, v))
    && match c.phase
       case Prepared | BackingUp => Untouched(o, v)
       case BackedUp => Untouched(o, v) && Backed(o, v)
       case Installing | Verifying | RollingBack | RecoveryRequired => Backed(o, v)
       case Complete => Backed(o, v) && v.app == o.candidate && c.verified
       case RolledBack => Untouched(o, v) && Backed(o, v)
       case Failed => if c.commitThrew then v.app == o.candidate && Backed(o, v) else Untouched(o, v)
  }

  /** What executeUpdate's catch block knows from the phase it holds in memory. */
  predicate Handling<X(==)>(o: Originals<X>, c: Control, v: Table<X>) {
    && (c.commitThrew <==> c.mem.Complete?)
    && match c.mem
       case Prepared => c.phase.Prepared? && Untouched(o, v)
       case BackingUp => (c.phase.Prepared? || c.phase.BackingUp?) && Untouched(o, v)
       case BackedUp => (c.phase.BackingUp? || c.phase.BackedUp?) && Untouched(o, v) && Backed(o, v)
       case Installing => (c.phase.BackedUp? || c.phase.Installing?) && Backed(o, v)
       case Verifying => (c.phase.Installing? || c.phase.Verifying?) && Backed(o, v)
       case Complete =>
         && (c.phase.Verifying? || c.phase.Complete?) && Backed(o, v) && v.app == o.candidate && c.verified
       case _ => false
  }

  /** executeUpdate is inside its try block, in phase `p`. */
  predicate Executing(c: Control, p: Phase) { c.phase == p && c.mem == p && !c.commitThrew }

  predicate Outcomes(c: Control) { Settled(c.phase) }

  predicate ExecInv<X(==)>(o: Originals<X>, c: Control, v: Table<X>, l: ExecLine) {
    match l
    case Preflight | Stopping | WriteBackingUp => Executing(c, Prepared)
    case CopyingApp => Executing(c, BackingUp) && Unused(v)
    case CopyingData =>
      && Executing(c, BackingUp) && v.backupApp == o.app != v.none
      && v.backupData == v.none && v.staged == v.none && v.displaced == v.none
    case WriteBackedUp => Executing(c, BackingUp) && Backed(o, v) && v.staged == v.none && v.displaced == v.none
    case CopyingCandidate => Executing(c, BackedUp) && v.staged == v.none && v.displaced == v.none
    case ValidatingStage | WriteInstalling => Executing(c, BackedUp) && v.staged == o.candidate && v.displaced == v.none
    case MovingAppAside =>
      Executing(c, Installing) && v.app == o.app && v.displaced == v.none && v.staged == o.candidate
    case MovingStagedIn =>
      Executing(c, Installing) && v.app == v.none && v.displaced == o.app && v.staged == o.candidate
    case WriteVerifying => Executing(c, Installing) && v.app == o.candidate && v.displaced == o.app
    case VerifyingApp => Executing(c, Verifying) && v.app == o.candidate && v.displaced == o.app
    case WriteComplete => Executing(c, Verifying) && v.app == o.candidate && v.displaced == o.app && c.verified
  }

  predicate RecoverInv<X(==)>(o: Originals<X>, c: Control, v: Table<X>, l: RecoverLine) {
    && c.phase.RollingBack? && Backed(o, v) && (c.clean ==> c.nested)
    && match l
       case RestoringApp =>
         v.restoreApp == v.none && v.restoreData == v.none && v.failedApp == v.none && v.failedData == v.none
       case RestoringData =>
         v.restoreApp == o.app && v.restoreData == v.none && v.failedApp == v.none && v.failedData == v.none
       case MovingAppOut =>
         v.restoreApp == o.app && v.restoreData == o.data && v.failedApp == v.none && v.failedData == v.none
       case MovingAppBack =>
         v.restoreApp == o.app && v.restoreData == o.data && v.app == v.none && v.failedData == v.none
       case MovingDataOut => v.app == o.app && v.restoreData == o.data && v.failedData == v.none
       case MovingDataBack => v.app == o.app && v.restoreData == o.data && v.data == v.none
       case WriteRolledBack => Untouched(o, v)
  }

  /** What holds just before the operation at the program counter. */
  predicate PcInv<X(==)>(o: Originals<X>, c: Control, v: Table<X>) {
    // A journal that still reads 'prepared' belongs to a transaction that has written nothing yet.
    && (c.phase.Prepared? ==> Unused(v))
    && match c.pc
       case Idle | Crashed => true
       case Returned => c.clean ==> Outcomes(c)
       case Waiting(recover) => c.clean ==> !recover && c.phase.Prepared?
       case StoppingOrphans => !c.clean
       case HelperNoting => c.clean ==> Outcomes(c) || c.phase.Prepared?
       case HelperFailing => c.phase.Prepared?
       case Exec(l) => ExecInv(o, c, v, l)
       case NotingError(unsafe) => Handling(o, c, v) && (unsafe ==> c.mem.Verifying?)
       case Deciding(unsafe) =>
         Handling(o, c, v) && c.mem == c.phase && (if unsafe then c.mem.Verifying? else Early(c.mem) || c.mem.Complete?)
       case StartingRecovery => c.clean ==> c.nested && !Early(c.phase) && !Terminal(c.phase)
       case Recover(l, _) => RecoverInv(o, c, v, l)
       case RecoveryFailing => Backed(o, v) && !Early(c.phase)
  }

  predicate TableInv<X(==)>(o: Originals<X>, c: Control, v: Table<X>) {
    PhaseInv(o, c, v) && PcInv(o, c, v)
  }

  predicate Inv(plan: Plan, o: Originals<Tree>, s: State) {
    && plan.Valid()
    && SuffixDrawn(plan, s.ctl.pc)
    && TableInv(o, s.ctl, View(plan, s.disk, SuffixOf(s.ctl.pc)))
  }

  predicate SuffixDrawn(plan: Plan, pc: Pc) { pc.Recover? ==> plan.NewId(pc.suffix) && pc.suffix != plan.id }

  function SuffixOf(pc: Pc): string { if pc.Recover? then pc.suffix else "" }

  // ---- The protocol over tables ----

  /** What each operation may do to the table, for each way it can end. */
  predicate Effect<X(==)>(act: Action, applied: bool, out: Outcome, v: Table<X>, v': Table<X>) {
    match act
    case Rest | Check | Journal(_) => v' == v
    case Copy(src, dst) => CopyEffect(src, dst, out, v, v')
    case Move(src, dst) => MoveEffect(src, dst, applied, out, v, v') && (out.Returns? ==> v.At(src) != v.none)
    case MoveIfPresent(src, dst) => MoveEffect(src, dst, applied, out, v, v')
    case Await | Verify => v' == v.Put(Data, v'.data)
  }

  predicate CopyEffect<X(==)>(src: Place, dst: Place, out: Outcome, v: Table<X>, v': Table<X>) {
    if out.Returns? then v.At(src) != v.none && v' == v.Put(dst, v.At(src))
    else v' == v.Put(dst, v'.At(dst))
  }

  predicate MoveEffect<X(==)>(src: Place, dst: Place, applied: bool, out: Outcome, v: Table<X>, v': Table<X>) {
    v' == if (out.Returns? || (out.Dies? && applied)) && v.At(src) != v.none then v.Moved(src, dst) else v
  }

  /** Every copy and every rename targets a place where nothing stands at that moment. */
  lemma TargetsAreClear<X>(o: Originals<X>, c: Control, v: Table<X>)
    requires TableInv(o, c, v)
    ensures Act(c).Copy? || Act(c).Move? || Act(c).MoveIfPresent? ==> v.At(Act(c).dst) == v.none
  {
  }

  lemma ExecFileReturns<X>(o: Originals<X>, c: Control, ch: Choice, v: Table<X>, v': Table<X>)
    requires TableInv(o, c, v) && c.pc.Exec? && (Act(c).Copy? || Act(c).Move?)
    requires Effect(Act(c), ch.applied, Returns, v, v')
    ensures TableInv(o, ControlAfter(c, ch, Returns), v')
  {
    hide Handler, RecoverInv, RecoverAct, RecoverNext, Handling, LeaveRecovery;
    var kept := TableInv(o, ControlAfter(c, ch, Returns), v');
    assert kept;
  }

  lemma ExecWriteReturns<X>(o: Originals<X>, c: Control, ch: Choice, v: Table<X>, v': Table<X>)
    requires TableInv(o, c, v) && c.pc.Exec? && Act(c).Journal?
    requires Effect(Act(c), ch.applied, Returns, v, v')
    ensures TableInv(o, ControlAfter(c, ch, Returns), v')
  {
    hide Handler, RecoverInv, RecoverAct, RecoverNext, Handling, LeaveRecovery;
    var kept := TableInv(o, ControlAfter(c, ch, Returns), v');
    assert kept;
  }

  lemma ExecOtherReturns<X>(o: Originals<X>, c: Control, ch: Choice, v: Table<X>, v': Table<X>)
    requires TableInv(o, c, v) && c.pc.Exec? && !Act(c).Copy? && !Act(c).Move? && !Act(c).Journal?
    requires Effect(Act(c), ch.applied, Returns, v, v')
    ensures TableInv(o, ControlAfter(c, ch, Returns), v')
  {
    hide Handler, RecoverInv, RecoverAct, RecoverNext, Handling, LeaveRecovery;
    var kept := TableInv(o, ControlAfter(c, ch, Returns), v');
    assert kept;
  }

  lemma RecoverReturns<X>(o: Originals<X>, c: Control, ch: Choice, v: Table<X>, v': Table<X>)
    requires TableInv(o, c, v) && c.pc.Recover?
    requires Effect(Act(c), ch.applied, Returns, v, v')
    ensures TableInv(o, ControlAfter(c, ch, Returns), v')
  {
    hide Handler, ExecInv, ExecAct, ExecNext, Handling;
    var kept := TableInv(o, ControlAfter(c, ch, Returns), v');
    assert kept;
  }

  lemma RecoveryStarts<X>(o: Originals<X>, c: Control, ch: Choice, v: Table<X>)
    requires TableInv(o, c, v) && c.pc.StartingRecovery?
    requires DrawsSuffix(c) ==>
      v.restoreApp == v.none && v.restoreData == v.none && v.failedApp == v.none && v.failedData == v.none
    ensures TableInv(o, ControlAfter(c, ch, Returns), v)
  {
    hide Handler, ExecInv, ExecAct, ExecNext, Handling;
    var kept := TableInv(o, ControlAfter(c, ch, Returns), v);
    assert kept;
  }

  lemma HandlerReturns<X>(o: Originals<X>, c: Control, ch: Choice, v: Table<X>)
    requires TableInv(o, c, v) && !Act(c).Rest? && !Act(c).Await? && !c.pc.Exec? && !c.pc.Recover?
    requires !c.pc.StartingRecovery?
    ensures TableInv(o, ControlAfter(c, ch, Returns), v)
  {
    hide Handler, RecoverAct, RecoverNext, ExecAct, ExecNext, RecoverInv;
    var kept := TableInv(o, ControlAfter(c, ch, Returns), v);
    assert kept;
  }

  lemma ExecWriteThrows<X>(o: Originals<X>, c: Control, ch: Choice, unsafe: bool, v: Table<X>, v': Table<X>)
    requires TableInv(o, c, v) && c.pc.Exec? && Act(c).Journal?
    requires Effect(Act(c), ch.applied, Raises(unsafe), v, v')
    ensures TableInv(o, ControlAfter(c, ch, Raises(unsafe)), v')
  {
    hide Next, ExecNext, RecoverInv, RecoverAct, RecoverNext;
    var kept := TableInv(o, ControlAfter(c, ch, Raises(unsafe)), v');
    assert kept;
  }

  lemma ExecWorkThrows<X>(o: Originals<X>, c: Control, ch: Choice, unsafe: bool, v: Table<X>, v': Table<X>)
    requires TableInv(o, c, v) && c.pc.Exec? && !Act(c).Journal?
    requires Effect(Act(c), ch.applied, Raises(unsafe), v, v')
    ensures TableInv(o, ControlAfter(c, ch, Raises(unsafe)), v')
  {
    hide Next, ExecNext, RecoverInv, RecoverAct, RecoverNext;
    var kept := TableInv(o, ControlAfter(c, ch, Raises(unsafe)), v');
    assert kept;
  }

  lemma ExecDies<X>(o: Originals<X>, c: Control, ch: Choice, v: Table<X>, v': Table<X>)
    requires TableInv(o, c, v) && c.pc.Exec?
    requires Effect(Act(c), ch.applied, Dies, v, v')
    ensures TableInv(o, ControlAfter(c, ch, Dies), v')
  {
    hide Next, ExecNext, RecoverInv, RecoverAct, RecoverNext, Handler, Handling;
    var kept := TableInv(o, ControlAfter(c, ch, Dies), v');
    assert kept;
  }

  lemma RecoverThrows<X>(o: Originals<X>, c: Control, ch: Choice, unsafe: bool, v: Table<X>, v': Table<X>)
    requires TableInv(o, c, v) && c.pc.Recover?
    requires Effect(Act(c), ch.applied, Raises(unsafe), v, v')
    ensures TableInv(o, ControlAfter(c, ch, Raises(unsafe)), v')
  {
    hide Next, ExecNext, RecoverNext, ExecInv, ExecAct, Handling;
    var kept := TableInv(o, ControlAfter(c, ch, Raises(unsafe)), v');
    assert kept;
  }

  lemma RecoverDies<X>(o: Originals<X>, c: Control, ch: Choice, v: Table<X>, v': Table<X>)
    requires TableInv(o, c, v) && c.pc.Recover?
    requires Effect(Act(c), ch.applied, Dies, v, v')
    ensures TableInv(o, ControlAfter(c, ch, Dies), v')
  {
    hide Next, ExecNext, RecoverNext, ExecInv, ExecAct, Handling, Handler;
    var kept := TableInv(o, ControlAfter(c, ch, Dies), v');
    assert kept;
  }

  lemma HandlerThrows<X>(o: Originals<X>, c: Control, ch: Choice, unsafe: bool, v: Table<X>)
    requires TableInv(o, c, v) && !Act(c).Rest? && !Act(c).Await? && !c.pc.Exec? && !c.pc.Recover?
    ensures TableInv(o, ControlAfter(c, ch, Raises(unsafe)), v)
  {
    hide Next, ExecNext, RecoverNext, ExecInv, ExecAct, RecoverInv, RecoverAct;
    var kept := TableInv(o, ControlAfter(c, ch, Raises(unsafe)), v);
    assert kept;
  }

  lemma HandlerDies<X>(o: Originals<X>, c: Control, ch: Choice, v: Table<X>)
    requires TableInv(o, c, v) && !Act(c).Rest? && !Act(c).Await? && !c.pc.Exec? && !c.pc.Recover?
    ensures TableInv(o, ControlAfter(c, ch, Dies), v)
  {
    hide Next, ExecNext, RecoverNext, ExecInv, ExecAct, RecoverInv, RecoverAct, Handler;
    var kept := TableInv(o, ControlAfter(c, ch, Dies), v);
    assert kept;
  }

  /** Whatever the client leaves is the data that the update starts from. */
  lemma AwaitKeeps<X>(o: Originals<X>, c: Control, ch: Choice, out: Outcome, v: Table<X>, x: X)
    requires TableInv(o, c, v) && Act(c).Await?
    ensures TableInv(o.(data := x), ControlAfter(c, ch, out), v.Put(Data, x))
  {
    AwaitIsWaiting(c, ch, out);
    hide RecoverInv, Handling, RecoverAct, RecoverNext, ExecAct, ExecNext;
    var kept := TableInv(o.(data := x), ControlAfter(c, ch, out), v.Put(Data, x));
    assert kept;
  }

  lemma TableReturns<X>(o: Originals<X>, c: Control, ch: Choice, v: Table<X>, v': Table<X>)
    requires TableInv(o, c, v) && !Act(c).Rest? && !Act(c).Await? && !c.pc.StartingRecovery?
    requires Effect(Act(c), ch.applied, Returns, v, v')
    ensures TableInv(o, ControlAfter(c, ch, Returns), v')
  {
    hide ControlAfter, TableInv;
    if c.pc.Exec? {
      if Act(c).Copy? || Act(c).Move? {
        ExecFileReturns(o, c, ch, v, v');
      } else if Act(c).Journal? {
        ExecWriteReturns(o, c, ch, v, v');
      } else {
        ExecOtherReturns(o, c, ch, v, v');
      }
    } else if c.pc.Recover? {
      RecoverReturns(o, c, ch, v, v');
    } else {
      HandlerReturns(o, c, ch, v);
    }
  }

  lemma TableStops<X>(o: Originals<X>, c: Control, ch: Choice, out: Outcome, v: Table<X>, v': Table<X>)
    requires TableInv(o, c, v) && !Act(c).Rest? && !Act(c).Await? && Effect(Act(c), ch.applied, out, v, v')
    requires out.Raises? || out.Dies?
    ensures TableInv(o, ControlAfter(c, ch, out), v')
  {
    hide ControlAfter, TableInv;
    if c.pc.Exec? {
      if out.Dies? {
        ExecDies(o, c, ch, v, v');
      } else {
        if Act(c).Journal? {
          ExecWriteThrows(o, c, ch, out.unsafe, v, v');
        } else {
          ExecWorkThrows(o, c, ch, out.unsafe, v, v');
        }
      }
    } else if c.pc.Recover? {
      if out.Dies? {
        RecoverDies(o, c, ch, v, v');
      } else {
        RecoverThrows(o, c, ch, out.unsafe, v, v');
      }
    } else if out.Dies? {
      HandlerDies(o, c, ch, v);
    } else {
      HandlerThrows(o, c, ch, out.unsafe, v);
    }
  }

  // ---- Disks refine tables ----

  predicate SuffixKnown(plan: Plan, x: string) { x != "" ==> plan.NewId(x) && x != plan.id }

  /** The places of the table: the fixed ones, and those of the recovery run with suffix `x`. */
  predicate OfRun(x: string, p: Place) {
    match p
    case RestoreApp(y) => x == y != ""
    case RestoreData(y) => x == y != ""
    case FailedApp(y) => x == y != ""
    case FailedData(y) => x == y != ""
    case _ => true
  }

  lemma TabulatePut<X>(f: Place -> X, g: Place -> X, none: X, x: string, dst: Place)
    requires OfRun(x, dst)
    requires forall p: Place :: OfRun(x, p) && p != dst ==> g(p) == f(p)
    ensures Tabulate(g, none, x) == Tabulate(f, none, x).Put(dst, g(dst))
  {
  }

  lemma TabulateMove<X>(f: Place -> X, g: Place -> X, none: X, x: string, src: Place, dst: Place)
    requires OfRun(x, src) && OfRun(x, dst) && src != dst
    requires forall p: Place :: OfRun(x, p) && p != src && p != dst ==> g(p) == f(p)
    requires g(dst) == f(src) && g(src) == none
    ensures Tabulate(g, none, x) == Tabulate(f, none, x).Moved(src, dst)
  {
  }

  lemma OfRunScoped(plan: Plan, x: string, p: Place)
    requires SuffixKnown(plan, x) && OfRun(x, p)
    ensures Scoped(plan, p)
  {
  }

  lemma WriteRefines(plan: Plan, x: string, d: Disk, d': Disk, dst: Place)
    requires plan.Valid() && SuffixKnown(plan, x) && OfRun(x, dst) && WritesOnly(d, d', {Loc(plan, dst)})
    ensures View(plan, d', x) == View(plan, d, x).Put(dst, Trees(plan, d')(dst))
  {
    forall p: Place | OfRun(x, p) && p != dst
      ensures Trees(plan, d')(p) == Trees(plan, d)(p)
    {
      PlacesSeparate(plan, dst, p);
      TreeUnchanged(d, d', {Loc(plan, dst)}, Loc(plan, p));
    }
    TabulatePut(Trees(plan, d), Trees(plan, d'), map[], x, dst);
  }

  lemma CopyRefines(plan: Plan, x: string, d: Disk, src: Place, dst: Place)
    requires plan.Valid() && SuffixKnown(plan, x) && OfRun(x, dst) && !Exists(plan, d, dst)
    ensures View(plan, CopyTree(d, Loc(plan, src), Loc(plan, dst)), x) == View(plan, d, x).Put(dst, Trees(plan, d)(src))
  {
    CopyTreeAdds(d, Loc(plan, src), Loc(plan, dst));
    CopyTreeFrame(d, Loc(plan, src), Loc(plan, dst));
    WriteRefines(plan, x, d, CopyTree(d, Loc(plan, src), Loc(plan, dst)), dst);
  }

  lemma MoveLeavesOthers(plan: Plan, x: string, d: Disk, src: Place, dst: Place, p: Place)
    requires plan.Valid() && SuffixKnown(plan, x) && OfRun(x, src) && OfRun(x, dst) && OfRun(x, p)
    requires p != src && p != dst
    ensures Trees(plan, MoveTree(d, Loc(plan, src), Loc(plan, dst)))(p) == Trees(plan, d)(p)
  {
    OfRunScoped(plan, x, src);
    OfRunScoped(plan, x, dst);
    OfRunScoped(plan, x, p);
    hide Loc, TreeAt, MoveTree, WritesOnly, Separate, Scoped, OfRun, SuffixKnown;
    PlacesSeparate(plan, src, p);
    PlacesSeparate(plan, dst, p);
    MoveTreeFrame(d, Loc(plan, src), Loc(plan, dst));
    TreeUnchanged(d, MoveTree(d, Loc(plan, src), Loc(plan, dst)), {Loc(plan, src), Loc(plan, dst)}, Loc(plan, p));
  }

  lemma MoveRefines(plan: Plan, x: string, d: Disk, src: Place, dst: Place)
    requires plan.Valid() && SuffixKnown(plan, x) && OfRun(x, src) && OfRun(x, dst) && src != dst
    ensures View(plan, MoveTree(d, Loc(plan, src), Loc(plan, dst)), x) == View(plan, d, x).Moved(src, dst)
  {
    var d' := MoveTree(d, Loc(plan, src), Loc(plan, dst));
    PlacesSeparate(plan, src, dst);
    MoveTreeAdds(d, Loc(plan, src), Loc(plan, dst));
    MoveTreeClears(d, Loc(plan, src), Loc(plan, dst));
    forall p: Place | OfRun(x, p) && p != src && p != dst
      ensures Trees(plan, d')(p) == Trees(plan, d)(p)
    {
      MoveLeavesOthers(plan, x, d, src, dst, p);
    }
    TabulateMove(Trees(plan, d), Trees(plan, d'), map[], x, src, dst);
  }

  lemma LogsSeparate(plan: Plan, p: Place, name: string)
    requires plan.Valid() && Scoped(plan, p) && name != "app" && name != "data"
    ensures Separate(plan.Backup() + [name], Loc(plan, p))
  {
    AnchorsNonempty(plan);
    var log := plan.Backup() + [name];
    assert log == plan.root + [plan.id, name];
    if p.BackupApp? || p.BackupData? {
      assert Loc(plan, p)[|plan.root| + 1] != log[|plan.root| + 1];
    } else {
      if Kind(p) != "" {
        BesideIsSeparate(Anchor(plan, p), plan.root, Kind(p), Tail(plan, p));
      }
      ExtendSeparate(plan.root, Loc(plan, p), [plan.id, name]);
    }
  }

  /** Verification leaves every place but the data alone. */
  lemma VerifyRefines(plan: Plan, x: string, d: Disk, d': Disk)
    requires plan.Valid() && SuffixKnown(plan, x) && WritesOnly(d, d', VerifyAreas(plan))
    ensures View(plan, d', x) == View(plan, d, x).Put(Data, Trees(plan, d')(Data))
  {
    forall p: Place | OfRun(x, p) && p != Data
      ensures Trees(plan, d')(p) == Trees(plan, d)(p)
    {
      PlacesSeparate(plan, Data, p);
      LogsSeparate(plan, p, "validation.log");
      LogsSeparate(plan, p, "validation-processes.json");
      LogsSeparate(plan, p, "validation-processes.json.new");
      TreeUnchanged(d, d', VerifyAreas(plan), Loc(plan, p));
    }
    TabulatePut(Trees(plan, d), Trees(plan, d'), map[], x, Data);
  }

  lemma PutSelf<X>(v: Table<X>, p: Place)
    ensures v == v.Put(p, v.At(p))
  {
  }

  predicate PlacesOfRun(x: string, act: Action) {
    match act
    case Copy(src, dst) => OfRun(x, src) && OfRun(x, dst) && src != dst
    case Move(src, dst) => OfRun(x, src) && OfRun(x, dst) && src != dst
    case MoveIfPresent(src, dst) => OfRun(x, src) && OfRun(x, dst) && src != dst
    case _ => true
  }

  lemma TabulateAt<X>(f: Place -> X, none: X, x: string, p: Place)
    requires OfRun(x, p)
    ensures Tabulate(f, none, x).At(p) == f(p)
  {
  }

  lemma ViewAt(plan: Plan, d: Disk, x: string, p: Place)
    requires plan.Valid() && OfRun(x, p)
    ensures View(plan, d, x).At(p) == Trees(plan, d)(p)
  {
    hide Trees, Tabulate, Table.At, OfRun;
    TabulateAt(Trees(plan, d), map[], x, p);
  }

  lemma CopyPerformed(plan: Plan, x: string, d: Disk, src: Place, dst: Place, ch: Choice, out: Outcome)
    requires plan.Valid() && SuffixKnown(plan, x) && PlacesOfRun(x, Copy(src, dst)) && !Exists(plan, d, dst)
    requires !out.Waits? && (out.Returns? ==> Exists(plan, d, src))
    ensures CopyEffect(src, dst, out, View(plan, d, x), View(plan, Perform(plan, d, Copy(src, dst), ch, out), x))
  {
    var d' := Perform(plan, d, Copy(src, dst), ch, out);
    ViewAt(plan, d, x, src);
    ViewAt(plan, d', x, dst);
    if out.Returns? {
      CopyRefines(plan, x, d, src, dst);
    } else if WritesOnly(d, ch.disk, {Loc(plan, dst)}) {
      WriteRefines(plan, x, d, ch.disk, dst);
    } else {
      PutSelf(View(plan, d, x), dst);
    }
  }

  lemma MovePerformed(plan: Plan, x: string, d: Disk, src: Place, dst: Place, ch: Choice, out: Outcome)
    requires plan.Valid() && SuffixKnown(plan, x) && PlacesOfRun(x, Move(src, dst))
    ensures var d' := MoveAfter(plan, d, src, dst, ch, out);
      MoveEffect(src, dst, ch.applied, out, View(plan, d, x), View(plan, d', x))
  {
    ViewAt(plan, d, x, src);
    MoveRefines(plan, x, d, src, dst);
  }

  lemma VerifyPerformed(plan: Plan, x: string, d: Disk, ch: Choice, out: Outcome)
    requires plan.Valid() && SuffixKnown(plan, x)
    ensures Effect(Verify, ch.applied, out, View(plan, d, x), View(plan, Perform(plan, d, Verify, ch, out), x))
  {
    if WritesOnly(d, ch.disk, VerifyAreas(plan)) {
      VerifyRefines(plan, x, d, ch.disk);
    }
    PutSelf(View(plan, d, x), Data);
  }

  lemma AwaitPerformed(plan: Plan, x: string, d: Disk, ch: Choice, out: Outcome)
    requires plan.Valid() && SuffixKnown(plan, x)
    ensures Effect(Await, ch.applied, out, View(plan, d, x), View(plan, Perform(plan, d, Await, ch, out), x))
  {
    if WritesOnly(d, ch.disk, {plan.data}) {
      WriteRefines(plan, x, d, ch.disk, Data);
    }
    PutSelf(View(plan, d, x), Data);
  }

  /** Each file operation on disk is the corresponding operation on the table. */
  lemma DiskRefinesTable(plan: Plan, x: string, d: Disk, act: Action, ch: Choice, out: Outcome)
    requires plan.Valid() && SuffixKnown(plan, x) && PlacesOfRun(x, act) && !out.Waits?
    requires act.Copy? ==> !Exists(plan, d, act.dst)
    requires out.Returns? ==> SourceReady(plan, d, act)
    ensures Effect(act, ch.applied, out, View(plan, d, x), View(plan, Perform(plan, d, act, ch, out), x))
  {
    match act
    case Rest | Check | Journal(_) =>
    case Copy(src, dst) =>
      CopyPerformed(plan, x, d, src, dst, ch, out);
    case Move(src, dst) =>
      ViewAt(plan, d, x, src);
      MovePerformed(plan, x, d, src, dst, ch, out);
    case MoveIfPresent(src, dst) =>
      MovePerformed(plan, x, d, src, dst, ch, out);
    case Await =>
      AwaitPerformed(plan, x, d, ch, out);
    case Verify =>
      VerifyPerformed(plan, x, d, ch, out);
  }

  lemma SuffixIrrelevant<X>(o: Originals<X>, c: Control, at: Place -> X, none: X, x: string, y: string)
    requires !c.pc.Recover? && TableInv(o, c, Tabulate(at, none, x))
    ensures TableInv(o, c, Tabulate(at, none, y))
  {
  }

  /** Nothing stands at the places that a fresh suffix names. */
  lemma FreshSuffixIsClear(plan: Plan, d: Disk, x: string)
    requires plan.Valid() && plan.FreshSuffix(d, x)
    ensures var v := View(plan, d, x);
      v.restoreApp == v.none && v.restoreData == v.none && v.failedApp == v.none && v.failedData == v.none
  {
    FreshPlaceEmpty(plan, d, RestoreApp(x));
    FreshPlaceEmpty(plan, d, RestoreData(x));
    FreshPlaceEmpty(plan, d, FailedApp(x));
    FreshPlaceEmpty(plan, d, FailedData(x));
  }

  lemma PlacesKnown(plan: Plan, c: Control)
    requires SuffixDrawn(plan, c.pc)
    ensures PlacesOfRun(SuffixOf(c.pc), Act(c)) && SuffixKnown(plan, SuffixOf(c.pc))
  {
  }

  /** Recovery keeps its suffix from one operation to the next. */
  lemma SuffixKept(c: Control, ch: Choice)
    requires !c.pc.StartingRecovery?
    ensures var pc' := ControlAfter(c, ch, Returns).pc; pc'.Recover? ==> c.pc.Recover? && pc'.suffix == c.pc.suffix
  {
  }

  lemma Launches<X>(o: Originals<X>, c: Control, recover: bool, v: Table<X>)
    requires TableInv(o, c, v) && Act(c).Rest?
    ensures TableInv(o, Launch(c, recover), v)
  {
  }

  lemma TargetIsClear(plan: Plan, o: Originals<Tree>, s: State)
    requires Inv(plan, o, s)
    ensures Act(s.ctl).Copy? || Act(s.ctl).Move? || Act(s.ctl).MoveIfPresent? ==>
      !Exists(plan, s.disk, Act(s.ctl).dst)
  {
    var x := SuffixOf(s.ctl.pc);
    PlacesKnown(plan, s.ctl);
    TargetsAreClear(o, s.ctl, View(plan, s.disk, x));
    match Act(s.ctl)
    case Copy(_, dst) => ViewAt(plan, s.disk, x, dst);
    case Move(_, dst) => ViewAt(plan, s.disk, x, dst);
    case MoveIfPresent(_, dst) => ViewAt(plan, s.disk, x, dst);
    case _ =>
  }

  lemma JudgedReady(plan: Plan, s: State, ch: Choice)
    requires plan.Valid() && Judge(plan, s, ch).Returns?
    ensures SourceReady(plan, s.disk, Act(s.ctl))
  {
    hide SourceReady, Plan.FreshSuffix;
  }

  lemma StepRefines(plan: Plan, o: Originals<Tree>, s: State, ch: Choice)
    requires Inv(plan, o, s) && !Judge(plan, s, ch).Waits?
    ensures var x := SuffixOf(s.ctl.pc);
      var out := Judge(plan, s, ch);
      var d' := Perform(plan, s.disk, Act(s.ctl), ch, out);
      Effect(Act(s.ctl), ch.applied, out, View(plan, s.disk, x), View(plan, d', x))
  {
    hide Perform, Effect, TableInv, Tabulate, Act, ControlAfter, PlacesOfRun, Torn;
    TargetIsClear(plan, o, s);
    PlacesKnown(plan, s.ctl);
    if Judge(plan, s, ch).Returns? {
      JudgedReady(plan, s, ch);
    }
    DiskRefinesTable(plan, SuffixOf(s.ctl.pc), s.disk, Act(s.ctl), ch, Judge(plan, s, ch));
  }

  lemma RecoveryStartKeepsInv(plan: Plan, o: Originals<Tree>, s: State, ch: Choice)
    requires Inv(plan, o, s) && s.ctl.pc.StartingRecovery? && Judge(plan, s, ch).Returns?
    ensures Inv(plan, o, Step(plan, s, ch))
  {
    hide Step, Perform, Tabulate, PcInv, PhaseInv;
    var y := SuffixOf(ControlAfter(s.ctl, ch, Returns).pc);
    StepAtWork(plan, s, ch);
    PerformIdle(plan, s.disk, Act(s.ctl), ch, Returns);
    SuffixIrrelevant(o, s.ctl, Trees(plan, s.disk), map[], "", y);
    if DrawsSuffix(s.ctl) {
      FreshSuffixIsClear(plan, s.disk, ch.suffix);
    }
    RecoveryStarts(o, s.ctl, ch, View(plan, s.disk, y));
  }

  lemma ReturnKeepsInv(plan: Plan, o: Originals<Tree>, s: State, ch: Choice)
    requires Inv(plan, o, s) && !Act(s.ctl).Rest? && !Act(s.ctl).Await? && !s.ctl.pc.StartingRecovery?
    requires Judge(plan, s, ch).Returns?
    ensures Inv(plan, o, Step(plan, s, ch))
  {
    hide Step, Perform, TableInv, Tabulate, ControlAfter;
    var s' := Step(plan, s, ch);
    var x := SuffixOf(s.ctl.pc);
    StepAtWork(plan, s, ch);
    StepRefines(plan, o, s, ch);
    SuffixKept(s.ctl, ch);
    TableReturns(o, s.ctl, ch, View(plan, s.disk, x), View(plan, s'.disk, x));
    if !s'.ctl.pc.Recover? {
      SuffixIrrelevant(o, s'.ctl, Trees(plan, s'.disk), map[], x, "");
    }
  }

  lemma StopKeepsInv(plan: Plan, o: Originals<Tree>, s: State, ch: Choice)
    requires Inv(plan, o, s) && !Act(s.ctl).Rest? && !Act(s.ctl).Await?
    requires Judge(plan, s, ch).Raises? || Judge(plan, s, ch).Dies?
    ensures Inv(plan, o, Step(plan, s, ch))
  {
    hide Step, Perform, TableInv, Tabulate, ControlAfter;
    var s' := Step(plan, s, ch);
    var x := SuffixOf(s.ctl.pc);
    StepAtWork(plan, s, ch);
    StepRefines(plan, o, s, ch);
    StopsElsewhere(s.ctl, ch, Judge(plan, s, ch));
    TableStops(o, s.ctl, ch, Judge(plan, s, ch), View(plan, s.disk, x), View(plan, s'.disk, x));
    SuffixIrrelevant(o, s'.ctl, Trees(plan, s'.disk), map[], x, "");
  }

  lemma StopsElsewhere(c: Control, ch: Choice, out: Outcome)
    requires !Act(c).Rest? && (out.Raises? || out.Dies?)
    ensures !ControlAfter(c, ch, out).pc.Recover?
  {
  }

  /** The trees an update starts from: its data are those that the client leaves. */
  function OriginalsAfter(plan: Plan, o: Originals<Tree>, s: State, ch: Choice): Originals<Tree>
    requires plan.Valid()
  {
    if Act(s.ctl).Await? then o.(data := Trees(plan, Step(plan, s, ch).disk)(Data)) else o
  }

  lemma AwaitKeepsInv(plan: Plan, o: Originals<Tree>, s: State, ch: Choice)
    requires Inv(plan, o, s) && Act(s.ctl).Await? && !Judge(plan, s, ch).Waits?
    ensures Inv(plan, OriginalsAfter(plan, o, s, ch), Step(plan, s, ch))
  {
    hide Step, Perform, TableInv, ControlAfter, Judge, Trees;
    var s' := Step(plan, s, ch);
    AwaitIsWaiting(s.ctl, ch, Judge(plan, s, ch));
    StepAtWork(plan, s, ch);
    StepRefines(plan, o, s, ch);
    AwaitKeeps(o, s.ctl, ch, Judge(plan, s, ch), View(plan, s.disk, ""), Trees(plan, s'.disk)(Data));
  }

  lemma AwaitIsWaiting(c: Control, ch: Choice, out: Outcome)
    requires Act(c).Await?
    ensures c.pc.Waiting? && !ControlAfter(c, ch, out).pc.Recover?
  {
  }

  lemma AwaitData<X>(o: Originals<X>, c: Control, v: Table<X>)
    requires TableInv(o, c, v) && Act(c).Await?
    ensures v.data == o.data
  {
  }

  lemma WaitingKeepsInv(plan: Plan, o: Originals<Tree>, s: State, ch: Choice)
    requires Inv(plan, o, s) && !Act(s.ctl).Rest? && Judge(plan, s, ch).Waits?
    ensures Step(plan, s, ch) == s && OriginalsAfter(plan, o, s, ch) == o
  {
    hide Step, Perform, ControlAfter, Judge, TableInv, Trees, Act;
    if Act(s.ctl).Await? {
      AwaitData(o, s.ctl, View(plan, s.disk, SuffixOf(s.ctl.pc)));
    }
    StepAtWork(plan, s, ch);
    PerformIdle(plan, s.disk, Act(s.ctl), ch, Waits);
    WaitingKeepsControl(s.ctl, ch);
  }

  lemma WaitingKeepsControl(c: Control, ch: Choice)
    ensures ControlAfter(c, ch, Waits) == c
  {
  }

  /** The heart of the protocol: no choice of the environment, at any operation, breaks the invariant. */
  lemma StepKeepsInv(plan: Plan, o: Originals<Tree>, s: State, ch: Choice)
    requires Inv(plan, o, s)
    ensures Inv(plan, OriginalsAfter(plan, o, s, ch), Step(plan, s, ch))
  {
    hide Step, Perform, TableInv, Tabulate, Judge;
    if Act(s.ctl).Rest? {
      StepAtRest(plan, s, ch);
      if ch.kind.Start? {
        Launches(o, s.ctl, ch.kind.recover, View(plan, s.disk, ""));
      }
    } else if Judge(plan, s, ch).Waits? {
      WaitingKeepsInv(plan, o, s, ch);
    } else if Act(s.ctl).Await? {
      AwaitKeepsInv(plan, o, s, ch);
    } else if Judge(plan, s, ch).Returns? {
      if s.ctl.pc.StartingRecovery? {
        RecoveryStartKeepsInv(plan, o, s, ch);
      } else {
        ReturnKeepsInv(plan, o, s, ch);
      }
    } else {
      StopKeepsInv(plan, o, s, ch);
    }
  }
}
