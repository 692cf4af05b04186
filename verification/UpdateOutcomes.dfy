/** How an executing helper ends that is not disturbed further: after an error in any operation, and without one. */
module UpdateOutcomes {
  import opened Disks
  import opened UpdatePlan
  import opened UpdateMachine
  import opened UpdateSafety
  import opened UpdateRuns
  import opened UpdateOrder

  // ---- After an error ----

  /** Where an error in operation `k` of executeUpdate leads: before 'installing' is to be written, and in the last
      write, to 'failed'; otherwise to a rollback, unless verification forbids it. */
  function ErrorOutcome(k: nat, unsafe: bool): Phase {
    if k < 8 || k == 13 then Failed else if k == 12 && unsafe then RecoveryRequired else RolledBack
  }

  /** The phase in memory when operation `k` is about to be performed. */
  function PhaseBefore(k: nat): Phase {
    if k < 3 then Prepared else if k < 6 then BackingUp else if k < 9 then BackedUp
    else if k < 12 then Installing else Verifying
  }

  lemma ExecMemory<X>(o: Originals<X>, c: Control, v: Table<X>)
    requires TableInv(o, c, v) && c.pc.Exec?
    ensures c.mem == PhaseBefore(ExecIndex(c.pc.line)) && !c.commitThrew
  {
    hide PhaseInv, Backed, Untouched, Unused;
  }

  lemma ErrorCaught<X>(o: Originals<X>, c: Control, v: Table<X>, ch: Choice, unsafe: bool)
    requires TableInv(o, c, v) && c.pc.Exec?
    ensures var c' := ControlAfter(c, ch, Raises(unsafe));
      && c'.pc.NotingError? && Underway(c', ErrorOutcome(ExecIndex(c.pc.line), unsafe))
      && c'.commitThrew == (ExecIndex(c.pc.line) == 13)
  {
    ExecMemory(o, c, v);
    hide TableInv, Strands, Next, RecoverInv, RecoverAct, RecoverNext, ExecNext;
  }

  /** An error in any operation of executeUpdate, thrown or for want of a source, is handled as the source says: one
      before 'installing', that of a staged app that is not valid included, leaves 'failed' and app and data untouched;
      one from there on is rolled back. */
  lemma ErrorsAreHandled(plan: Plan, o: Originals<Tree>, s: State, ch: Choice, x: string, left: Disk)
    requires Inv(plan, o, s) && s.ctl.pc.Exec? && Judge(plan, s, ch).Raises?
    requires plan.FreshSuffix(Step(plan, s, ch).disk, x) && plan.FreshSuffix(left, x)
    ensures var k := ExecIndex(s.ctl.pc.line);
      var unsafe := Judge(plan, s, ch).unsafe;
      var s' := Repeat(plan, Step(plan, s, ch), Undisturbed(x, left), 29);
      && s'.ctl.pc.Returned? && s'.ctl.phase == ErrorOutcome(k, unsafe)
      && (k != 13 && !s'.ctl.phase.RecoveryRequired? ==>
            Trees(plan, s'.disk)(App) == o.app && Trees(plan, s'.disk)(Data) == o.data)
      && (k == 13 ==> Trees(plan, s'.disk)(App) == o.candidate)
  {
    hide Step, Judge, ControlAfter, TableInv, Tabulate, Trees, Repeat, Underway, Rank, Plan.FreshSuffix, ExecIndex, Act;
    var s1 := Step(plan, s, ch);
    var k, unsafe := ExecIndex(s.ctl.pc.line), Judge(plan, s, ch).unsafe;
    ExecWorks(s.ctl);
    StepControl(plan, s, ch);
    StepKeepsInv(plan, o, s, ch);
    ErrorCaught(o, s.ctl, View(plan, s.disk, SuffixOf(s.ctl.pc)), ch, unsafe);
    RankZero(s1.ctl.pc);
    var o' := UndisturbedRunEnds(plan, o, s1, x, left, ErrorOutcome(k, unsafe), 29);
  }

  lemma ExecWorks(c: Control)
    requires c.pc.Exec?
    ensures !Act(c).Rest? && !Act(c).Await?
  {
  }

  // ---- Without an error ----

  /** There is an app, data and a candidate to work on. */
  predicate SomethingThere<X(==)>(o: Originals<X>, none: X) { o.app != none && o.data != none && o.candidate != none }

  lemma SourcesThere<X>(o: Originals<X>, c: Control, v: Table<X>)
    requires TableInv(o, c, v) && c.pc.Exec? && SomethingThere(o, v.none)
    ensures Act(c).Copy? || Act(c).Move? ==> v.At(Act(c).src) != v.none
    ensures !Act(c).MoveIfPresent?
  {
  }

  lemma ExecReturns(plan: Plan, o: Originals<Tree>, s: State, x: string, left: Disk)
    requires Inv(plan, o, s) && s.ctl.pc.Exec? && SomethingThere(o, map[])
    ensures Judge(plan, s, Undisturbed(x, left)).Returns?
  {
    hide TreeAt, CopyTree, MoveTree, Torn, Loc, TableInv, Plan.FreshSuffix;
    PlacesKnown(plan, s.ctl);
    SourcesThere(o, s.ctl, View(plan, s.disk, ""));
    if Act(s.ctl).Copy? || Act(s.ctl).Move? {
      ViewAt(plan, s.disk, "", Act(s.ctl).src);
    }
  }

  lemma WaitReturns(plan: Plan, s: State, x: string, left: Disk)
    requires plan.Valid() && s.ctl.pc == Waiting(false) && s.ctl.phase.Prepared?
    ensures Judge(plan, s, Undisturbed(x, left)).Returns?
    ensures ControlAfter(s.ctl, Undisturbed(x, left), Returns).pc == Exec(Preflight)
  {
    hide Exists, Plan.FreshSuffix;
  }

  lemma {:induction false} RepeatLast(plan: Plan, s: State, ch: Choice, n: nat)
    requires plan.Valid()
    ensures Repeat(plan, s, ch, n + 1) == Step(plan, Repeat(plan, s, ch, n), ch)
    decreases n
  {
    hide Step;
    if n > 0 {
      RepeatLast(plan, Step(plan, s, ch), ch, n - 1);
    }
  }

  lemma ExecAdvances(c: Control, ch: Choice)
    requires c.pc.Exec?
    ensures var c', k := ControlAfter(c, ch, Returns), ExecIndex(c.pc.line);
      if k == 13 then c'.pc.Returned? && c'.phase.Complete? && !c'.lock else c'.pc == Exec(ExecOrder[k + 1])
  {
    hide Strands, Handler;
  }

  /** From the first operation on, each is followed by the next one. */
  lemma {:induction false} ExecOperation(plan: Plan, o: Originals<Tree>, s: State, x: string, left: Disk, k: nat)
    requires Inv(plan, o, s) && s.ctl.pc == Exec(ExecOrder[0]) && SomethingThere(o, map[]) && k < 14
    ensures var s' := Repeat(plan, s, Undisturbed(x, left), k); Inv(plan, o, s') && s'.ctl.pc == Exec(ExecOrder[k])
    decreases k
  {
    hide Step, Inv, Judge, ControlAfter, ExecIndex, SomethingThere, Undisturbed;
    InvValid(plan, o, s);
    if k > 0 {
      ExecOperation(plan, o, s, x, left, k - 1);
      ExecOperationStep(plan, o, Repeat(plan, s, Undisturbed(x, left), k - 1), x, left);
      RepeatLast(plan, s, Undisturbed(x, left), k - 1);
      Indexed(k - 1);
    }
  }

  lemma Indexed(k: nat)
    requires k < 14
    ensures ExecIndex(ExecOrder[k]) == k
  {
  }

  lemma ExecOperationStep(plan: Plan, o: Originals<Tree>, s: State, x: string, left: Disk)
    requires Inv(plan, o, s) && s.ctl.pc.Exec? && SomethingThere(o, map[])
    ensures var s', k := Step(plan, s, Undisturbed(x, left)), ExecIndex(s.ctl.pc.line);
      && Inv(plan, o, s')
      && if k == 13 then s'.ctl.pc.Returned? && s'.ctl.phase.Complete? && !s'.ctl.lock
         else s'.ctl.pc == Exec(ExecOrder[k + 1])
  {
    hide Step, Judge, ControlAfter, TableInv, Tabulate, Trees, ExecIndex, Act, SomethingThere;
    ExecReturns(plan, o, s, x, left);
    ExecWorks(s.ctl);
    StepControl(plan, s, Undisturbed(x, left));
    StepKeepsInv(plan, o, s, Undisturbed(x, left));
    ExecAdvances(s.ctl, Undisturbed(x, left));
  }

  /** The state in which an executing helper has waited. */
  function Waited(plan: Plan, s: State, start: Choice, x: string, left: Disk): State
    requires plan.Valid()
  {
    Step(plan, Step(plan, s, start), Undisturbed(x, left))
  }

  lemma UpdateStarts(plan: Plan, o: Originals<Tree>, s: State, start: Choice, x: string, left: Disk)
    returns (o': Originals<Tree>)
    requires Inv(plan, o, s) && Act(s.ctl).Rest? && s.ctl.phase.Prepared? && start.kind == Start(false)
    ensures var s' := Waited(plan, s, start, x, left);
      && Inv(plan, o', s') && s'.ctl.pc == Exec(ExecOrder[0])
      && o' == Originals(o.app, Trees(plan, s'.disk)(Data), o.candidate)
  {
    hide Step, Judge, ControlAfter, TableInv, Tabulate, Trees;
    var s1 := Step(plan, s, start);
    StepAtRest(plan, s, start);
    StepKeepsInv(plan, o, s, start);
    WaitReturns(plan, s1, x, left);
    StepControl(plan, s1, Undisturbed(x, left));
    StepKeepsInv(plan, o, s1, Undisturbed(x, left));
    o' := OriginalsAfter(plan, o, s1, Undisturbed(x, left));
  }

  /** An executing helper that is not disturbed performs the fourteen operations one after the other, and ends with
      'complete' on disk, the lock removed and the candidate installed. */
  lemma UndisturbedUpdateCompletes(plan: Plan, o: Originals<Tree>, s: State, start: Choice, x: string, left: Disk)
    requires Inv(plan, o, s) && Act(s.ctl).Rest? && s.ctl.phase.Prepared? && start.kind == Start(false)
    requires o.app != map[] && o.candidate != map[]
    requires Trees(plan, Waited(plan, s, start, x, left).disk)(Data) != map[]
    ensures var s1 := Waited(plan, s, start, x, left);
      && (forall k :: 0 <= k < 14 ==> Repeat(plan, s1, Undisturbed(x, left), k).ctl.pc == Exec(ExecOrder[k]))
      && var s' := Repeat(plan, s1, Undisturbed(x, left), 14);
         && s'.ctl.pc.Returned? && s'.ctl.phase.Complete? && !s'.ctl.lock && s'.ctl.verified
         && Trees(plan, s'.disk)(App) == o.candidate
  {
    hide Step, Inv, Judge, Repeat, Undisturbed, ExecIndex, Trees, MeansWhatItSays, Waited;
    InvValid(plan, o, s);
    var s1 := Waited(plan, s, start, x, left);
    var o' := UpdateStarts(plan, o, s, start, x, left);
    forall k | 0 <= k < 14
      ensures Repeat(plan, s1, Undisturbed(x, left), k).ctl.pc == Exec(ExecOrder[k])
    {
      ExecOperation(plan, o', s1, x, left, k);
    }
    ExecOperation(plan, o', s1, x, left, 13);
    var s13 := Repeat(plan, s1, Undisturbed(x, left), 13);
    Indexed(13);
    ExecOperationStep(plan, o', s13, x, left);
    RepeatLast(plan, s1, Undisturbed(x, left), 13);
    CompleteMeans(plan, o', Repeat(plan, s1, Undisturbed(x, left), 14));
  }

  lemma CompleteMeans(plan: Plan, o: Originals<Tree>, s: State)
    requires Inv(plan, o, s) && s.ctl.phase.Complete?
    ensures plan.Valid() && Trees(plan, s.disk)(App) == o.candidate && s.ctl.verified
  {
    hide Inv, Trees;
    InvValid(plan, o, s);
    InvMeans(plan, o, s);
  }
}
