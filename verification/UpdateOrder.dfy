/** Which operations the helper has performed, and in which order, told from the order in the source alone. */
module UpdateOrder {
  import opened Disks
  import opened UpdatePlan
  import opened UpdateMachine
  import opened UpdateSafety
  import opened UpdateRuns

  /** The try block of executeUpdate, operation by operation. */
  const ExecOrder: seq<ExecLine> :=
    [Preflight, Stopping, WriteBackingUp, CopyingApp, CopyingData, WriteBackedUp, CopyingCandidate, ValidatingStage,
     WriteInstalling, MovingAppAside, MovingStagedIn, WriteVerifying, VerifyingApp, WriteComplete]

  /** The try block of recoverUpdate, after 'rolling-back' has been written. */
  const RecoverOrder: seq<RecoverLine> :=
    [RestoringApp, RestoringData, MovingAppOut, MovingAppBack, MovingDataOut, MovingDataBack, WriteRolledBack]

  function ExecIndex(l: ExecLine): (k: nat)
    ensures k < 14 && ExecOrder[k] == l
  {
    match l
    case Preflight => 0
    case Stopping => 1
    case WriteBackingUp => 2
    case CopyingApp => 3
    case CopyingData => 4
    case WriteBackedUp => 5
    case CopyingCandidate => 6
    case ValidatingStage => 7
    case WriteInstalling => 8
    case MovingAppAside => 9
    case MovingStagedIn => 10
    case WriteVerifying => 11
    case VerifyingApp => 12
    case WriteComplete => 13
  }

  function RecoverIndex(l: RecoverLine): (k: nat)
    ensures k < 7 && RecoverOrder[k] == l
  {
    match l
    case RestoringApp => 0
    case RestoringData => 1
    case MovingAppOut => 2
    case MovingAppBack => 3
    case MovingDataOut => 4
    case MovingDataBack => 5
    case WriteRolledBack => 6
  }

  /** The first `k` operations of each. */
  function Execs(k: nat): seq<Pc>
    requires k <= 14
  {
    seq(k, i requires 0 <= i < k => Exec(ExecOrder[i]))
  }

  function Recovers(k: nat, x: string): seq<Pc>
    requires k <= 7
  {
    seq(k, i requires 0 <= i < k => Recover(RecoverOrder[i], x))
  }

  /** The operations of the present helper that have returned, in order. */
  function Trail(plan: Plan, s: State, chs: seq<Choice>): seq<Pc>
    requires plan.Valid()
  {
    if chs == [] then []
    else
      var before := chs[..|chs| - 1];
      Extended(plan, Run(plan, s, before), chs[|chs| - 1], Trail(plan, s, before))
  }

  function Extended(plan: Plan, s: State, ch: Choice, t: seq<Pc>): seq<Pc>
    requires plan.Valid()
  {
    if Act(s.ctl).Rest? then (if ch.kind.Start? then [] else t)
    else if Judge(plan, s, ch).Returns? then t + [s.ctl.pc] else t
  }

  /** An executing helper has waited, and then done some of executeUpdate's operations from the first on. */
  predicate Begun(t: seq<Pc>) { 1 <= |t| <= 14 && t == [Waiting(false)] + Execs(|t| - 1) }

  /** How recoverUpdate is reached: by a recovering helper, or by the catch block of executeUpdate. */
  predicate Recovering(t: seq<Pc>) {
    t == [Waiting(true), StoppingOrphans] || (t != [] && Begun(t[..|t| - 1]) && t[|t| - 1] == NotingError(false))
  }

  /** What has been done when control is at `c.pc`: exactly the operations before it. */
  predicate OnTrail(c: Control, t: seq<Pc>) {
    match c.pc
    case Waiting(_) => t == []
    case StoppingOrphans => t == [Waiting(true)]
    case Exec(l) => t == [Waiting(false)] + Execs(ExecIndex(l))
    case NotingError(_) => Begun(t)
    case Deciding(unsafe) => t != [] && Begun(t[..|t| - 1]) && t[|t| - 1] == NotingError(unsafe)
    case StartingRecovery => Recovering(t)
    case Recover(l, x) =>
      var n := |t| - RecoverIndex(l) - 1;
      n >= 0 && Recovering(t[..n]) && t[n..] == [StartingRecovery] + Recovers(RecoverIndex(l), x)
    case _ => true
  }

  lemma ExecsGrow(k: nat)
    requires k < 14
    ensures Execs(k + 1) == Execs(k) + [Exec(ExecOrder[k])] && |Execs(k)| == k
  {
  }

  lemma RecoversGrow(k: nat, x: string)
    requires k < 7
    ensures Recovers(k + 1, x) == Recovers(k, x) + [Recover(RecoverOrder[k], x)] && |Recovers(k, x)| == k
  {
  }

  lemma ExecFollows(l: ExecLine)
    ensures if l.WriteComplete? then ExecNext(l).Returned?
            else ExecNext(l).Exec? && ExecIndex(ExecNext(l).line) == ExecIndex(l) + 1
  {
  }

  lemma RecoverFollows(c: Control, l: RecoverLine, x: string)
    ensures if l.WriteRolledBack? then RecoverNext(c, l, x).HelperNoting? || RecoverNext(c, l, x).Returned?
            else RecoverNext(c, l, x).Recover? && RecoverNext(c, l, x).suffix == x
                 && RecoverIndex(RecoverNext(c, l, x).at) == RecoverIndex(l) + 1
  {
  }

  lemma ExecTrail(c: Control, t: seq<Pc>, ch: Choice)
    requires OnTrail(c, t) && c.pc.Exec?
    ensures OnTrail(ControlAfter(c, ch, Returns), t + [c.pc])
  {
    hide Written, ExecNext, ExecIndex, Strands;
    var l := c.pc.line;
    ExecFollows(l);
    ExecsGrow(ExecIndex(l));
    assert [Waiting(false)] + Execs(ExecIndex(l)) + [c.pc] == [Waiting(false)] + (Execs(ExecIndex(l)) + [c.pc]);
  }

  lemma RecoverTrail(c: Control, t: seq<Pc>, ch: Choice)
    requires OnTrail(c, t) && c.pc.Recover?
    ensures OnTrail(ControlAfter(c, ch, Returns), t + [c.pc])
  {
    hide Written, RecoverNext, RecoverIndex, Strands, Recovering;
    var l, x := c.pc.at, c.pc.suffix;
    var n := |t| - RecoverIndex(l) - 1;
    RecoverFollows(c, l, x);
    RecoversGrow(RecoverIndex(l), x);
    assert (t + [c.pc])[..n] == t[..n];
    assert (t + [c.pc])[n..] == t[n..] + [c.pc];
    assert t[n..] + [c.pc] == [StartingRecovery] + (Recovers(RecoverIndex(l), x) + [c.pc]);
  }

  lemma OtherTrail(c: Control, t: seq<Pc>, ch: Choice)
    requires OnTrail(c, t) && !c.pc.Recover? && !c.pc.Exec? && !Act(c).Rest?
    requires c.pc.StartingRecovery? && c.nested ==> !Terminal(c.phase) && !Early(c.phase)
    ensures OnTrail(ControlAfter(c, ch, Returns), t + [c.pc])
  {
    hide Written, ExecNext, RecoverNext, Strands;
    assert (t + [c.pc])[..|t|] == t;
    assert Execs(0) == [] && Recovers(0, ch.suffix) == [];
    assert [] + [c.pc] == [c.pc];
    if c.pc.StartingRecovery? {
      assert (t + [c.pc])[|t|..] == [StartingRecovery] + [];
    }
  }

  lemma ThrownTrail(c: Control, t: seq<Pc>, ch: Choice, out: Outcome)
    requires OnTrail(c, t) && !Act(c).Rest? && !out.Returns?
    ensures OnTrail(ControlAfter(c, ch, out), t)
  {
    hide Written, Next, Strands;
    if c.pc.Exec? {
      ExecsGrow(ExecIndex(c.pc.line));
    }
  }

  lemma NestedStarts<X>(o: Originals<X>, c: Control, v: Table<X>, ch: Choice, out: Outcome)
    requires TableInv(o, c, v) && NestedLate(c) && !Act(c).Rest?
    ensures NestedLate(ControlAfter(c, ch, out))
  {
    hide ExecInv, RecoverInv, PhaseInv, Strands;
  }

  /** The catch block of executeUpdate recovers only when there is something to restore. */
  predicate NestedLate(c: Control) {
    && (c.pc.Waiting? || c.pc.StoppingOrphans? ==> !c.nested)
    && (c.pc.StartingRecovery? && c.nested ==> !Terminal(c.phase) && !Early(c.phase))
  }

  lemma TrailStep(plan: Plan, o: Originals<Tree>, s: State, ch: Choice, t: seq<Pc>)
    requires Inv(plan, o, s) && NestedLate(s.ctl) && OnTrail(s.ctl, t)
    ensures NestedLate(Step(plan, s, ch).ctl) && OnTrail(Step(plan, s, ch).ctl, Extended(plan, s, ch, t))
  {
    hide Step, Judge, ControlAfter, TableInv, Act, OnTrail, NestedLate, Tabulate, Trees, Launch;
    StepControl(plan, s, ch);
    if Act(s.ctl).Rest? {
      LaunchTrail(s.ctl, ch);
    } else {
      var out := Judge(plan, s, ch);
      NestedStarts(o, s.ctl, View(plan, s.disk, SuffixOf(s.ctl.pc)), ch, out);
      if !out.Returns? {
        ThrownTrail(s.ctl, t, ch, out);
      } else if s.ctl.pc.Exec? {
        ExecTrail(s.ctl, t, ch);
      } else if s.ctl.pc.Recover? {
        RecoverTrail(s.ctl, t, ch);
      } else {
        NestedMeans(s.ctl);
        OtherTrail(s.ctl, t, ch);
      }
    }
  }

  lemma LaunchTrail(c: Control, ch: Choice)
    requires NestedLate(c)
    ensures ch.kind.Start? ==> NestedLate(Launch(c, ch.kind.recover)) && OnTrail(Launch(c, ch.kind.recover), [])
  {
  }

  lemma NestedMeans(c: Control)
    requires NestedLate(c)
    ensures c.pc.StartingRecovery? && c.nested ==> !Terminal(c.phase) && !Early(c.phase)
  {
  }

  /** In every run the operations are performed in the order of the source: when one is about to start, exactly
      those before it have returned since the helper was launched. */
  lemma {:induction false} OperationsInOrder(plan: Plan, s0: State, chs: seq<Choice>)
    requires Prepped(plan, s0)
    ensures OnTrail(Run(plan, s0, chs).ctl, Trail(plan, s0, chs)) && NestedLate(Run(plan, s0, chs).ctl)
    decreases |chs|
  {
    PreppedInv(plan, s0);
    hide Prepped;
    if chs != [] {
      hide Step, Inv, OnTrail, Extended, OriginalsFrom, NestedLate;
      var before := chs[..|chs| - 1];
      OperationsInOrder(plan, s0, before);
      RunKeepsInv(plan, OriginalsOf(plan, s0), s0, before);
      TrailStep(plan, OriginalsFrom(plan, OriginalsOf(plan, s0), s0, before), Run(plan, s0, before), chs[|chs| - 1],
                Trail(plan, s0, before));
    }
  }

  // ---- What a durable phase says has been done ----

  /** This operation of executeUpdate has returned at some time. */
  ghost predicate Passed(plan: Plan, s: State, chs: seq<Choice>, l: ExecLine)
    requires plan.Valid()
  {
    exists k :: 0 <= k < |chs| && Passes(plan, Run(plan, s, chs[..k]), chs[k], l)
  }

  predicate Passes(plan: Plan, s: State, ch: Choice, l: ExecLine)
    requires plan.Valid()
  {
    s.ctl.pc == Exec(l) && Judge(plan, s, ch).Returns?
  }

  /** How many operations precede the write of this phase; recovery starts after 'installing' only. */
  function Before(p: Phase): (k: nat)
    ensures k <= 13
  {
    match p
    case Prepared | Failed => 0
    case BackingUp => 2
    case BackedUp => 5
    case Installing | RollingBack | RolledBack | RecoveryRequired => 8
    case Verifying => 11
    case Complete => 13
  }

  ghost predicate AllPassed(plan: Plan, s: State, chs: seq<Choice>, k: nat)
    requires plan.Valid() && k <= 14
  {
    forall i :: 0 <= i < k ==> Passed(plan, s, chs, ExecOrder[i])
  }

  lemma PassedLast(plan: Plan, s: State, chs: seq<Choice>, l: ExecLine)
    requires plan.Valid() && chs != []
    ensures var n := |chs| - 1;
      Passed(plan, s, chs, l) <==> Passed(plan, s, chs[..n], l) || Passes(plan, Run(plan, s, chs[..n]), chs[n], l)
  {
    hide Run, Passes;
    var n := |chs| - 1;
    assert forall k :: 0 <= k < n ==> chs[..n][..k] == chs[..k] && chs[..n][k] == chs[k];
  }

  /** What is on the trail has been passed. */
  lemma {:induction false} TrailPassed(plan: Plan, s: State, chs: seq<Choice>, l: ExecLine)
    requires plan.Valid() && Exec(l) in Trail(plan, s, chs)
    ensures Passed(plan, s, chs, l)
    decreases |chs|
  {
    hide Run, Passed, Judge, Act;
    var before := chs[..|chs| - 1];
    PassedLast(plan, s, chs, l);
    if Exec(l) in Trail(plan, s, before) {
      TrailPassed(plan, s, before, l);
    }
  }

  lemma ExecsPassed(plan: Plan, s: State, chs: seq<Choice>, k: nat)
    requires plan.Valid() && k <= 14 && Trail(plan, s, chs) == [Waiting(false)] + Execs(k)
    ensures AllPassed(plan, s, chs, k)
  {
    hide Run, Passed;
    forall i | 0 <= i < k
      ensures Passed(plan, s, chs, ExecOrder[i])
    {
      assert Trail(plan, s, chs)[i + 1] == Exec(ExecOrder[i]);
      TrailPassed(plan, s, chs, ExecOrder[i]);
    }
  }

  /** Every journal write is preceded by the operations that its phase stands for. */
  ghost predicate Earned(plan: Plan, s: State, chs: seq<Choice>, c: Control)
    requires plan.Valid()
  {
    && AllPassed(plan, s, chs, Before(c.phase)) && AllPassed(plan, s, chs, Before(c.mem))
    && (c.pc.RecoveryFailing? ==> AllPassed(plan, s, chs, 8))
  }

  lemma PassedMonotone(plan: Plan, s: State, chs: seq<Choice>, k: nat)
    requires plan.Valid() && chs != [] && k <= 14 && AllPassed(plan, s, chs[..|chs| - 1], k)
    ensures AllPassed(plan, s, chs, k)
  {
    hide Run, Passed, Passes;
    forall i | 0 <= i < k
      ensures Passed(plan, s, chs, ExecOrder[i])
    {
      PassedLast(plan, s, chs, ExecOrder[i]);
    }
  }

  lemma PassedLess(plan: Plan, s: State, chs: seq<Choice>, k: nat, n: nat)
    requires plan.Valid() && k <= n <= 14 && AllPassed(plan, s, chs, n)
    ensures AllPassed(plan, s, chs, k)
  {
    hide Passed;
  }

  /** The most operations that what is known in this state accounts for. */
  function Accounted(c: Control): nat {
    var held := if Before(c.mem) < Before(c.phase) then Before(c.phase) else Before(c.mem);
    if c.pc.Exec? && held < ExecIndex(c.pc.line) then ExecIndex(c.pc.line)
    else if c.pc.RecoveryFailing? && held < 8 then 8 else held
  }

  lemma Memory(c: Control, ch: Choice, out: Outcome)
    ensures var p := ControlAfter(c, ch, out).mem; p == c.mem || p == c.phase || (Act(c).Journal? && p == Act(c).phase)
  {
    hide Next, Handler, Act, Strands;
  }

  lemma WriteAccounted<X>(o: Originals<X>, c: Control, v: Table<X>)
    requires TableInv(o, c, v) && Act(c).Journal?
    ensures Before(Act(c).phase) <= Accounted(c)
  {
    hide PhaseInv, Backed, Untouched, Unused;
  }

  lemma FailingAccounted<X>(o: Originals<X>, c: Control, v: Table<X>, ch: Choice, out: Outcome)
    requires TableInv(o, c, v) && !Act(c).Rest? && ControlAfter(c, ch, out).pc.RecoveryFailing?
    ensures 8 <= Accounted(c)
  {
    hide PhaseInv, Backed, Untouched, Unused, ExecInv, Strands, Written;
  }

  lemma AccountedSuffices<X>(o: Originals<X>, c: Control, v: Table<X>, ch: Choice, out: Outcome)
    requires TableInv(o, c, v) && !Act(c).Rest?
    ensures var c' := ControlAfter(c, ch, out);
      && Before(c'.phase) <= Accounted(c) && Before(c'.mem) <= Accounted(c)
      && (c'.pc.RecoveryFailing? ==> 8 <= Accounted(c))
  {
    hide ControlAfter, Act, TableInv, Before, ExecIndex;
    PhaseWritten(c, ch, out);
    Memory(c, ch, out);
    if Act(c).Journal? {
      WriteAccounted(o, c, v);
    }
    if ControlAfter(c, ch, out).pc.RecoveryFailing? {
      FailingAccounted(o, c, v, ch, out);
    }
  }

  lemma EarnedAccounts(plan: Plan, s: State, chs: seq<Choice>, c: Control)
    requires plan.Valid() && Earned(plan, s, chs, c) && OnTrail(c, Trail(plan, s, chs))
    ensures Accounted(c) <= 14 && AllPassed(plan, s, chs, Accounted(c))
  {
    hide AllPassed, Trail;
    if c.pc.Exec? {
      ExecsPassed(plan, s, chs, ExecIndex(c.pc.line));
    }
  }

  lemma EarnedStep(plan: Plan, o: Originals<Tree>, s0: State, chs: seq<Choice>)
    requires plan.Valid() && chs != [] && Inv(plan, o, Run(plan, s0, chs[..|chs| - 1]))
    requires Earned(plan, s0, chs[..|chs| - 1], Run(plan, s0, chs[..|chs| - 1]).ctl)
    requires OnTrail(Run(plan, s0, chs[..|chs| - 1]).ctl, Trail(plan, s0, chs[..|chs| - 1]))
    ensures Earned(plan, s0, chs, Run(plan, s0, chs).ctl)
  {
    hide Step, Judge, ControlAfter, TableInv, Act, OnTrail, Trail, AllPassed, Accounted, Before, Tabulate, Trees;
    hide Launch;
    var n := |chs| - 1;
    var s, ch := Run(plan, s0, chs[..n]), chs[n];
    var k := Accounted(s.ctl);
    EarnedAccounts(plan, s0, chs[..n], s.ctl);
    PassedMonotone(plan, s0, chs, k);
    assert Run(plan, s0, chs) == Step(plan, s, ch);
    hide Run;
    StepControl(plan, s, ch);
    var c' := Step(plan, s, ch).ctl;
    if Act(s.ctl).Rest? {
      RestAccounts(s.ctl, ch);
    } else {
      AccountedSuffices(o, s.ctl, View(plan, s.disk, SuffixOf(s.ctl.pc)), ch, Judge(plan, s, ch));
    }
    PassedLess(plan, s0, chs, Before(c'.phase), k);
    PassedLess(plan, s0, chs, Before(c'.mem), k);
    if c'.pc.RecoveryFailing? {
      PassedLess(plan, s0, chs, 8, k);
    }
  }

  lemma RestAccounts(c: Control, ch: Choice)
    requires Act(c).Rest?
    ensures var c' := if ch.kind.Start? then Launch(c, ch.kind.recover) else c;
      Before(c'.phase) <= Accounted(c) && Before(c'.mem) <= Accounted(c) && !c'.pc.RecoveryFailing?
  {
  }

  lemma {:induction false} AlwaysEarned(plan: Plan, s0: State, chs: seq<Choice>)
    requires Prepped(plan, s0)
    ensures Earned(plan, s0, chs, Run(plan, s0, chs).ctl)
    decreases |chs|
  {
    if chs != [] {
      hide Step, Inv, OnTrail, OriginalsFrom, Earned, Trail;
      var before := chs[..|chs| - 1];
      AlwaysEarned(plan, s0, before);
      OperationsInOrder(plan, s0, before);
      PreppedInv(plan, s0);
      RunKeepsInv(plan, OriginalsOf(plan, s0), s0, before);
      EarnedStep(plan, OriginalsFrom(plan, OriginalsOf(plan, s0), s0, before), s0, chs);
    }
  }

  /** In every reachable state the phase on disk is one whose operations have returned: both checks before
      'backing-up', both snapshots before 'backed-up', the validation of the staged app before 'installing' and so
      before any recovery, the exchange before 'verifying', and verification before 'complete'. */
  lemma PhasesAreEarned(plan: Plan, s0: State, chs: seq<Choice>)
    requires Prepped(plan, s0)
    ensures AllPassed(plan, s0, chs, Before(Run(plan, s0, chs).ctl.phase))
  {
    hide Run, AllPassed, Prepped, Before;
    AlwaysEarned(plan, s0, chs);
  }
}
