/** The update helper is an executor of the exclusion protocol: each of its operations, however it ends, does to
    the journal and to the lock what a sequence of the executor's events does. */
module HelperAsExecutor {
  import opened Options
  import opened Disks
  import opened UpdatePlan
  import opened UpdateMachine
  import opened UpdateSafety
  import opened UpdateRuns
  import E = Exclusion

  type Events = seq<E.Event>

  /** What the helper has in memory, as an executor. */
  function AsExecutor(id: nat, c: Control): E.Executor {
    match c.pc
    case Exec(_) | NotingError(_) | Deciding(_) | Recover(_, _) | RecoveryFailing => E.Holding(E.Entry(id, c.mem))
    case StartingRecovery => if c.nested then E.Holding(E.Entry(id, c.mem)) else E.Asleep
    case HelperFailing => E.Holding(E.Entry(id, Prepared))
    case _ => E.Asleep
  }

  /** The shared state that the helper's journal, lock and memory make up, among whatever callers there are. */
  predicate Shows(id: nat, c: Control, s: E.System) {
    s.journal == Some(E.Entry(id, c.phase)) && s.lock == c.lock && s.executor == AsExecutor(id, c)
  }

  function Updated(id: nat, c: Control, s: E.System): E.System {
    s.(journal := Some(E.Entry(id, c.phase)), lock := c.lock, executor := AsExecutor(id, c))
  }

  /** Only the executor acts in these events. */
  predicate Executors(es: Events) { forall k :: 0 <= k < |es| ==> !E.IsCall(es[k]) }

  /** Where recovery has its journal from. */
  predicate MemInv(c: Control) {
    match c.pc
    case Waiting(_) | StoppingOrphans => !c.nested
    case Recover(_, _) => c.mem.RollingBack?
    case RecoveryFailing => c.mem.RollingBack? || c.mem.RolledBack?
    case StartingRecovery => c.nested ==> c.mem == c.phase && !Terminal(c.phase) && !Early(c.phase)
    case _ => true
  }

  lemma ControlKeepsMem<X>(o: Originals<X>, c: Control, v: Table<X>, ch: Choice, out: Outcome)
    requires TableInv(o, c, v) && MemInv(c) && !Act(c).Rest?
    ensures MemInv(ControlAfter(c, ch, out))
  {
    hide RecoverInv, ExecInv, PhaseInv, Strands;
  }

  // ---- One journal write ----

  /** The executor's events for a write of `q`. */
  function WriteEvents(q: Phase, ch: Choice, out: Outcome): Events {
    match out
    case Returns => if Terminal(q) then [E.WritePhase(q), E.RemoveLock] else [E.WritePhase(q)]
    case Raises(_) =>
      if !ch.applied then [E.WriteFails(q)]
      else if Terminal(q) then [E.WritePhase(q), E.RemoveThrows(ch.unlinked)] else [E.WritePhase(q)]
    case Dies =>
      if !ch.applied then []
      else if Terminal(q) && ch.unlinked then [E.WritePhase(q), E.RemoveLock] else [E.WritePhase(q)]
    case Waits => []
  }

  /** What an executor that holds `p` has in memory after it. */
  function HeldAfter(id: nat, p: Phase, q: Phase, ch: Choice, out: Outcome): E.Executor {
    var held := E.Holding(E.Entry(id, q));
    match out
    case Returns => if !Terminal(q) || p == q then held else E.Asleep
    case Raises(_) =>
      if ch.applied then (if Terminal(q) && (p == q || q.Failed?) then E.Asleep else held)
      else if E.Propagates(p, q) then E.Asleep else held
    case _ => E.Asleep
  }

  lemma WriteRuns(id: nat, s: E.System, p: Phase, q: Phase, ch: Choice, out: Outcome)
    requires s.executor == E.Holding(E.Entry(id, p)) && E.Follows(p, q) && !out.Waits?
    ensures var s' := E.Run(s, WriteEvents(q, ch, out));
      && s'.begins == s.begins && s'.nextId == s.nextId
      && s'.journal == (if out.Returns? || ch.applied then Some(E.Entry(id, q)) else s.journal)
      && s'.lock == (s.lock && !(Terminal(q) && (out.Returns? || (ch.applied && ch.unlinked))))
      && (!out.Dies? ==> s'.executor == HeldAfter(id, p, q, ch, out))
  {
    hide E.Follows;
    E.RunOne(s, E.WritePhase(q));
    E.RunOne(s, E.WriteFails(q));
    E.RunTwo(s, E.WritePhase(q), E.RemoveLock);
    E.RunTwo(s, E.WritePhase(q), E.RemoveThrows(ch.unlinked));
  }

  /** The phase that the writing function has in memory before it sets the new one. */
  function Held(c: Control): Phase {
    match c.pc
    case StartingRecovery => c.phase
    case HelperFailing => Prepared
    case _ => c.mem
  }

  lemma WriteFollows<X>(o: Originals<X>, c: Control, v: Table<X>)
    requires TableInv(o, c, v) && MemInv(c) && Act(c).Journal? && !c.pc.HelperNoting?
    ensures E.Follows(Held(c), Act(c).phase)
  {
    hide PhaseInv, RecoverInv;
  }

  /** After the write the helper holds what the executor holds, or nothing any more. */
  lemma WriteShows<X>(o: Originals<X>, id: nat, c: Control, v: Table<X>, ch: Choice, out: Outcome)
    requires TableInv(o, c, v) && MemInv(c) && Act(c).Journal? && !c.pc.HelperNoting? && !out.Waits?
    ensures var e := AsExecutor(id, ControlAfter(c, ch, out));
      e.Asleep? || (!out.Dies? && e == HeldAfter(id, Held(c), Act(c).phase, ch, out))
  {
    hide PhaseInv, RecoverInv, Strands;
  }

  lemma JournalWritten(c: Control, ch: Choice, out: Outcome)
    requires Act(c).Journal? && !out.Waits?
    ensures var c' := ControlAfter(c, ch, out);
      && c'.phase == (if out.Returns? || ch.applied then Act(c).phase else c.phase)
      && c'.lock == (c.lock && !(Terminal(Act(c).phase) && (out.Returns? || (ch.applied && ch.unlinked))))
  {
    hide Next, Handler, Strands;
  }

  // ---- One operation ----

  /** An executor reads the journal when a function that will write it starts. */
  function Before(c: Control): Events { if c.pc.StartingRecovery? && !c.nested then [E.Wake] else [] }

  lemma BeforeRuns<X>(o: Originals<X>, id: nat, c: Control, v: Table<X>, s: E.System)
    requires TableInv(o, c, v) && MemInv(c) && Shows(id, c, s) && Act(c).Journal? && !c.pc.HelperNoting?
    ensures E.Run(s, Before(c)) == s.(executor := E.Holding(E.Entry(id, Held(c))))
  {
    hide PhaseInv, RecoverInv, ExecInv, Handling;
    E.RunOne(s, E.Wake);
  }

  function Ending(id: nat, c: Control): Events { if AsExecutor(id, c).Asleep? then [E.ExecutorEnds] else [] }

  lemma EndingRuns(id: nat, c: Control, s: E.System)
    requires s.journal == Some(E.Entry(id, c.phase)) && s.lock == c.lock
    requires AsExecutor(id, c).Asleep? || s.executor == AsExecutor(id, c)
    ensures E.Run(s, Ending(id, c)) == Updated(id, c, s)
  {
    E.RunOne(s, E.ExecutorEnds);
  }

  lemma WriteIsExecution<X>(o: Originals<X>, id: nat, c: Control, v: Table<X>, ch: Choice, out: Outcome, s: E.System)
    requires TableInv(o, c, v) && MemInv(c) && Shows(id, c, s) && Act(c).Journal? && !c.pc.HelperNoting? && !out.Waits?
    ensures var c' := ControlAfter(c, ch, out);
      E.Run(s, Before(c) + (WriteEvents(Act(c).phase, ch, out) + Ending(id, c'))) == Updated(id, c', s)
  {
    var c' := ControlAfter(c, ch, out);
    BeforeRuns(o, id, c, v, s);
    WriteFollows(o, c, v);
    WriteShows(o, id, c, v, ch, out);
    JournalWritten(c, ch, out);
    var p, q := Held(c), Act(c).phase;
    hide ControlAfter, TableInv, MemInv, Act, Held, HeldAfter, AsExecutor, Before, WriteEvents, Ending;
    var s1 := E.Run(s, Before(c));
    WriteRuns(id, s1, p, q, ch, out);
    EndingRuns(id, c', E.Run(s1, WriteEvents(q, ch, out)));
    E.RunSplits(s1, WriteEvents(q, ch, out), Ending(id, c'));
    E.RunSplits(s, Before(c), WriteEvents(q, ch, out) + Ending(id, c'));
  }

  /** The helper's catch block reads the journal and writes it. */
  function NoteEvents(c: Control, ch: Choice, out: Outcome): Events {
    if !out.Returns? && !ch.applied then [E.NoteRead, E.ExecutorEnds]
    else if !Terminal(c.phase) then [E.NoteRead, E.NoteWrite]
    else [E.NoteRead, E.NoteWrite]
         + [if out.Returns? || ch.unlinked then E.RemoveLock else E.RemoveThrows(false)]
  }

  lemma NoteRuns(id: nat, c: Control, ch: Choice, out: Outcome, s: E.System)
    requires c.pc.HelperNoting? && Shows(id, c, s)
    ensures var s' := E.Run(s, NoteEvents(c, ch, out));
      && s'.begins == s.begins && s'.nextId == s.nextId && s'.journal == s.journal
      && s'.lock == (s.lock && !(Terminal(c.phase) && (out.Returns? || (ch.applied && ch.unlinked))))
      && (out.Returns? && !Terminal(c.phase) ==> s'.executor == E.Holding(E.Entry(id, c.phase)))
  {
    E.RunTwo(s, E.NoteRead, E.ExecutorEnds);
    E.RunTwo(s, E.NoteRead, E.NoteWrite);
    var s2 := E.Run(s, [E.NoteRead, E.NoteWrite]);
    E.RunSplits(s, [E.NoteRead, E.NoteWrite], [E.RemoveLock]);
    E.RunSplits(s, [E.NoteRead, E.NoteWrite], [E.RemoveThrows(false)]);
    E.RunOne(s2, E.RemoveLock);
    E.RunOne(s2, E.RemoveThrows(false));
  }

  lemma NoteShows(id: nat, c: Control, ch: Choice, out: Outcome)
    requires c.pc.HelperNoting? && !out.Waits?
    ensures Act(c) == Journal(c.phase)
    ensures var e := AsExecutor(id, ControlAfter(c, ch, out));
      e.Asleep? || (out.Returns? && !Terminal(c.phase) && e == E.Holding(E.Entry(id, c.phase)))
  {
    hide Strands;
  }

  lemma NoteIsExecution(id: nat, c: Control, ch: Choice, out: Outcome, s: E.System)
    requires c.pc.HelperNoting? && Shows(id, c, s) && !out.Waits?
    ensures var c' := ControlAfter(c, ch, out);
      E.Run(s, NoteEvents(c, ch, out) + Ending(id, c')) == Updated(id, c', s)
  {
    var c' := ControlAfter(c, ch, out);
    NoteShows(id, c, ch, out);
    JournalWritten(c, ch, out);
    NoteRuns(id, c, ch, out, s);
    hide ControlAfter, AsExecutor;
    EndingRuns(id, c', E.Run(s, NoteEvents(c, ch, out)));
    E.RunSplits(s, NoteEvents(c, ch, out), Ending(id, c'));
  }

  lemma ControlUnwritten(c: Control, ch: Choice, out: Outcome)
    requires !Act(c).Journal? && !out.Waits?
    ensures var c' := ControlAfter(c, ch, out); c'.phase == c.phase && c'.lock == c.lock
  {
    hide Next, Handler, Strands;
  }

  /** Any other operation leaves the memory as it is, gives it up, or is the wait before executeUpdate reads. */
  lemma OtherShows<X>(o: Originals<X>, id: nat, c: Control, v: Table<X>, ch: Choice, out: Outcome)
    requires TableInv(o, c, v) && MemInv(c) && !Act(c).Journal? && !Act(c).Rest? && !out.Waits?
    ensures var c' := ControlAfter(c, ch, out);
      || AsExecutor(id, c').Asleep? || AsExecutor(id, c') == AsExecutor(id, c)
      || (c.pc.Waiting? && c.phase.Prepared? && AsExecutor(id, c') == E.Holding(E.Entry(id, c.phase)))
  {
    hide PhaseInv, RecoverInv, Strands;
  }

  function OtherEvents(id: nat, c: Control, c': Control): Events {
    if AsExecutor(id, c').Asleep? || AsExecutor(id, c') == AsExecutor(id, c) then Ending(id, c') else [E.Wake]
  }

  /** The executor's events for one operation of the helper. */
  function OperationEvents(id: nat, c: Control, ch: Choice, out: Outcome): Events {
    var c' := ControlAfter(c, ch, out);
    if out.Waits? then []
    else if c.pc.HelperNoting? then NoteEvents(c, ch, out) + Ending(id, c')
    else if Act(c).Journal? then Before(c) + (WriteEvents(Act(c).phase, ch, out) + Ending(id, c'))
    else OtherEvents(id, c, c')
  }

  lemma OtherIsExecution<X>(o: Originals<X>, id: nat, c: Control, v: Table<X>, ch: Choice, out: Outcome, s: E.System)
    requires TableInv(o, c, v) && MemInv(c) && Shows(id, c, s) && !Act(c).Journal? && !Act(c).Rest? && !out.Waits?
    ensures var c' := ControlAfter(c, ch, out); E.Run(s, OtherEvents(id, c, c')) == Updated(id, c', s)
  {
    var c' := ControlAfter(c, ch, out);
    OtherShows(o, id, c, v, ch, out);
    ControlUnwritten(c, ch, out);
    hide ControlAfter, TableInv, MemInv, Act;
    if AsExecutor(id, c').Asleep? || AsExecutor(id, c') == AsExecutor(id, c) {
      EndingRuns(id, c', s);
    } else {
      E.RunOne(s, E.Wake);
    }
  }

  lemma OnlyExecutor(id: nat, c: Control, ch: Choice, out: Outcome)
    ensures Executors(OperationEvents(id, c, ch, out))
  {
    var c' := ControlAfter(c, ch, out);
    PartsOnlyExecutor(id, c, c', Held(c), ch, out);
    if Act(c).Journal? {
      PartsOnlyExecutor(id, c, c', Act(c).phase, ch, out);
    }
    hide ControlAfter, Act, AsExecutor, NoteEvents, WriteEvents, OtherEvents, Ending, Before, Held;
  }

  lemma PartsOnlyExecutor(id: nat, c: Control, c': Control, q: Phase, ch: Choice, out: Outcome)
    ensures Executors([]) && Executors(Before(c)) && Executors(WriteEvents(q, ch, out)) && Executors(Ending(id, c'))
    ensures Executors(NoteEvents(c, ch, out)) && Executors(OtherEvents(id, c, c'))
  {
    hide AsExecutor;
  }

  lemma NothingRuns(s: E.System)
    ensures E.Run(s, []) == s
  {
  }

  /** Each operation, however it ends, does to journal, lock and memory what its events do. */
  lemma ControlIsExecution<X>(o: Originals<X>, id: nat, c: Control, v: Table<X>, ch: Choice, out: Outcome, s: E.System)
    requires TableInv(o, c, v) && MemInv(c) && Shows(id, c, s) && !Act(c).Rest?
    ensures E.Run(s, OperationEvents(id, c, ch, out)) == Updated(id, ControlAfter(c, ch, out), s)
  {
    hide ControlAfter, TableInv, MemInv, Act, AsExecutor, E.Run, NoteEvents, WriteEvents, OtherEvents, Ending, Before;
    if out.Waits? {
      NothingRuns(s);
      WaitingKeepsControl(c, ch);
    } else if c.pc.HelperNoting? {
      NoteIsExecution(id, c, ch, out, s);
    } else if Act(c).Journal? {
      WriteIsExecution(o, id, c, v, ch, out, s);
    } else {
      OtherIsExecution(o, id, c, v, ch, out, s);
    }
  }

  lemma LaunchShows(id: nat, c: Control, recover: bool)
    requires Act(c).Rest?
    ensures AsExecutor(id, Launch(c, recover)) == AsExecutor(id, c) && MemInv(Launch(c, recover))
    ensures Launch(c, recover).phase == c.phase && Launch(c, recover).lock == c.lock
  {
  }

  /** Every step of the helper, from a launch to its end, is a sequence of the executor's events. */
  lemma StepIsExecution(plan: Plan, o: Originals<Tree>, id: nat, st: State, ch: Choice, s: E.System)
    returns (es: Events)
    requires Inv(plan, o, st) && MemInv(st.ctl) && Shows(id, st.ctl, s)
    ensures Executors(es) && E.Run(s, es) == Updated(id, Step(plan, st, ch).ctl, s)
    ensures MemInv(Step(plan, st, ch).ctl)
  {
    hide Step, Judge, ControlAfter, TableInv, MemInv, Act, AsExecutor, E.Run, Executors, Launch, Tabulate, Trees;
    hide OperationEvents;
    StepControl(plan, st, ch);
    var v := View(plan, st.disk, SuffixOf(st.ctl.pc));
    if Act(st.ctl).Rest? {
      es := [];
      NothingRuns(s);
      assert Executors(es) by { NothingCalls(); }
      if ch.kind.Start? {
        LaunchShows(id, st.ctl, ch.kind.recover);
      }
    } else {
      es := OperationEvents(id, st.ctl, ch, Judge(plan, st, ch));
      OnlyExecutor(id, st.ctl, ch, Judge(plan, st, ch));
      ControlIsExecution(o, id, st.ctl, v, ch, Judge(plan, st, ch), s);
      ControlKeepsMem(o, st.ctl, v, ch, Judge(plan, st, ch));
    }
  }

  lemma NothingCalls()
    ensures Executors([])
  {
  }

  /** So is every run of helpers from a prepared transaction. */
  lemma {:induction false} RunIsExecution(plan: Plan, st: State, chs: seq<Choice>, id: nat, s: E.System)
    returns (es: Events)
    requires Prepped(plan, st) && Shows(id, st.ctl, s)
    ensures Executors(es) && E.Run(s, es) == Updated(id, Run(plan, st, chs).ctl, s)
    ensures MemInv(Run(plan, st, chs).ctl)
    decreases |chs|
  {
    PreppedInv(plan, st);
    if chs == [] {
      es := [];
    } else {
      hide Step, MemInv, AsExecutor, E.Run, OriginalsFrom, Inv, E.IsCall;
      var before := chs[..|chs| - 1];
      var o := OriginalsFrom(plan, OriginalsOf(plan, st), st, before);
      var fst := RunIsExecution(plan, st, before, id, s);
      RunKeepsInv(plan, OriginalsOf(plan, st), st, before);
      var s1 := E.Run(s, fst);
      var snd := StepIsExecution(plan, o, id, Run(plan, st, before), chs[|chs| - 1], s1);
      E.RunSplits(s, fst, snd);
      es := fst + snd;
    }
  }

  // ---- Which operations are unsound ----

  /** The write of 'complete' throws, that of 'rolled-back' throws after removing the lock, or the helper notes an
      error in an ended transaction whose lock is free or held by a caller. */
  ghost predicate Risky(c: Control, ch: Choice, out: Outcome, s: E.System) {
    || (out.Raises? && c.pc == Exec(WriteComplete))
    || (out.Raises? && c.pc.Recover? && c.pc.at.WriteRolledBack? && ch.applied && ch.unlinked)
    || (!out.Waits? && c.pc.HelperNoting? && E.Unsound(s, E.NoteRead))
  }

  lemma SoundOne(s: E.System, e: E.Event)
    ensures E.Sound(s, [e]) <==> !E.Unsound(s, e)
  {
    hide E.Step, E.Unsound;
    assert [e][..0] == [] && E.Run(s, []) == s;
    assert [e][0] == e;
  }

  lemma SoundSplits(s: E.System, a: Events, b: Events)
    ensures E.Sound(s, a + b) <==> E.Sound(s, a) && E.Sound(E.Run(s, a), b)
  {
    hide E.Step, E.Unsound, E.Run;
    forall k | 0 <= k < |b|
      ensures E.Run(s, (a + b)[..|a| + k]) == E.Run(E.Run(s, a), b[..k])
    {
      E.RunSplits(s, a, b[..k]);
      assert (a + b)[..|a| + k] == a + b[..k];
    }
    assert forall k :: 0 <= k < |a| ==> (a + b)[..k] == a[..k] && (a + b)[k] == a[k];
    assert forall k :: 0 <= k < |b| ==> (a + b)[|a| + k] == b[k];
    if E.Sound(s, a + b) {
      forall k | 0 <= k < |b|
        ensures !E.Unsound(E.Run(E.Run(s, a), b[..k]), b[k])
      {
        assert !E.Unsound(E.Run(s, (a + b)[..|a| + k]), (a + b)[|a| + k]);
      }
    }
    if E.Sound(s, a) && E.Sound(E.Run(s, a), b) {
      forall k | 0 <= k < |a + b|
        ensures !E.Unsound(E.Run(s, (a + b)[..k]), (a + b)[k])
      {
        if k >= |a| {
          var i := k - |a|;
          assert !E.Unsound(E.Run(E.Run(s, a), b[..i]), b[i]);
        }
      }
    }
  }

  lemma SoundTwo(s: E.System, e: E.Event, f: E.Event)
    ensures E.Sound(s, [e, f]) <==> !E.Unsound(s, e) && !E.Unsound(E.Step(s, e), f)
  {
    hide E.Step, E.Unsound;
    SoundOne(s, e);
    SoundOne(E.Step(s, e), f);
    E.RunOne(s, e);
    SoundSplits(s, [e], [f]);
    assert [e] + [f] == [e, f];
  }

  lemma QuietEvents(s: E.System, es: Events)
    requires E.Faultless(es)
    ensures E.Sound(s, es)
  {
    E.FaultlessIsSound(s, es);
  }

  lemma WriteSound(id: nat, s: E.System, p: Phase, q: Phase, ch: Choice, out: Outcome)
    requires s.executor == E.Holding(E.Entry(id, p)) && E.Follows(p, q) && !p.Complete?
    ensures E.Sound(s, WriteEvents(q, ch, out)) <==>
      !(out.Raises? && (q.Complete? || (q.RolledBack? && ch.applied && ch.unlinked)))
  {
    SoundOne(s, E.WritePhase(q));
    SoundOne(s, E.WriteFails(q));
    SoundTwo(s, E.WritePhase(q), E.RemoveLock);
    SoundTwo(s, E.WritePhase(q), E.RemoveThrows(ch.unlinked));
    assert E.Sound(s, []);
    hide E.Sound;
  }

  lemma NoteSound(id: nat, c: Control, ch: Choice, out: Outcome, s: E.System)
    requires c.pc.HelperNoting? && Shows(id, c, s)
    ensures E.Sound(s, NoteEvents(c, ch, out)) <==> !E.Unsound(s, E.NoteRead)
  {
    SoundTwo(s, E.NoteRead, E.ExecutorEnds);
    SoundTwo(s, E.NoteRead, E.NoteWrite);
    var s2 := E.Run(s, [E.NoteRead, E.NoteWrite]);
    E.RunTwo(s, E.NoteRead, E.NoteWrite);
    SoundSplits(s, [E.NoteRead, E.NoteWrite], [E.RemoveLock]);
    SoundSplits(s, [E.NoteRead, E.NoteWrite], [E.RemoveThrows(false)]);
    SoundOne(s2, E.RemoveLock);
    SoundOne(s2, E.RemoveThrows(false));
    hide E.Sound;
  }

  /** The terminal writes, and where they are. */
  lemma WriteKinds<X>(o: Originals<X>, c: Control, v: Table<X>)
    requires TableInv(o, c, v) && MemInv(c) && Act(c).Journal? && !c.pc.HelperNoting?
    ensures !Held(c).Complete? ==> (Act(c).phase.Complete? <==> c.pc == Exec(WriteComplete))
    ensures Act(c).phase.RolledBack? <==> c.pc.Recover? && c.pc.at.WriteRolledBack?
  {
    hide PhaseInv, RecoverInv;
  }

  /** In a sound state of the exclusion protocol the operations of the helper that are unsound are exactly these. */
  lemma UnsoundOperations<X>(o: Originals<X>, id: nat, c: Control, v: Table<X>, ch: Choice, out: Outcome, s: E.System)
    requires TableInv(o, c, v) && MemInv(c) && Shows(id, c, s) && !Act(c).Rest? && E.Inv(s)
    ensures E.Sound(s, OperationEvents(id, c, ch, out)) <==> !Risky(c, ch, out, s)
  {
    var c' := ControlAfter(c, ch, out);
    QuietEvents(s, []);
    if c.pc.HelperNoting? && !out.Waits? {
      NoteSound(id, c, ch, out, s);
      SoundSplits(s, NoteEvents(c, ch, out), Ending(id, c'));
      QuietEvents(E.Run(s, NoteEvents(c, ch, out)), Ending(id, c'));
    } else if Act(c).Journal? && !out.Waits? {
      WriteOperation(o, id, c, v, ch, out, s);
    } else {
      QuietEvents(s, OtherEvents(id, c, c'));
    }
  }

  lemma WriteOperation<X>(o: Originals<X>, id: nat, c: Control, v: Table<X>, ch: Choice, out: Outcome, s: E.System)
    requires TableInv(o, c, v) && MemInv(c) && Shows(id, c, s) && E.Inv(s)
    requires Act(c).Journal? && !c.pc.HelperNoting? && !out.Waits?
    ensures E.Sound(s, OperationEvents(id, c, ch, out)) <==> !Risky(c, ch, out, s)
  {
    var p, q := Held(c), Act(c).phase;
    var c' := ControlAfter(c, ch, out);
    var rest := Ending(id, c');
    BeforeRuns(o, id, c, v, s);
    WriteFollows(o, c, v);
    WriteKinds(o, c, v);
    NotThrownBack(o, id, c, v, s);
    QuietEvents(s, Before(c));
    QuietEvents(E.Run(E.Run(s, Before(c)), WriteEvents(q, ch, out)), rest);
    var s1 := E.Run(s, Before(c));
    WriteSound(id, s1, p, q, ch, out);
    SoundSplits(s1, WriteEvents(q, ch, out), rest);
    SoundSplits(s, Before(c), WriteEvents(q, ch, out) + rest);
  }

  lemma NotThrownBack<X>(o: Originals<X>, id: nat, c: Control, v: Table<X>, s: E.System)
    requires TableInv(o, c, v) && MemInv(c) && Shows(id, c, s) && E.Inv(s) && Act(c).Journal? && !c.pc.HelperNoting?
    ensures !Held(c).Complete?
  {
    hide PhaseInv, RecoverInv;
  }
}
