/** Any number of beginUpdate calls against one executor: who may write the journal, and who holds active.lock.
    Each file operation is a step and may throw, any process may die between two of them, and the steps of
    different processes interleave freely. */
module Exclusion {
  import opened Options
  import opened UpdateMachine

  datatype Entry = Entry(id: nat, phase: Phase)

  /** Where a beginUpdate call stands; `Checking` holds the lock, until it publishes or backs out. */
  datatype Beginner = Reading | Locking | Checking

  /** executeUpdate, recoverUpdate or the helper's catch block around them, with the journal in its memory: about
      to write it, about to rewrite it with an error noted, or about to remove the lock after a terminal phase.
      The flags say whether it goes on to write the same journal when the removal returns, or when it throws. */
  datatype Executor =
    | Asleep
    | Holding(entry: Entry)
    | Noting(entry: Entry)
    | Unlocking(entry: Entry, onReturn: bool, onThrow: bool)

  datatype System =
    System(journal: Option<Entry>, lock: bool, begins: map<nat, Beginner>, executor: Executor, nextId: nat)

  datatype Event =
    | Arrive(p: nat) | ReadJournal(p: nat) | TakeLock(p: nat) | BackOut(p: nat) | Publish(p: nat)
    | Die(p: nat)                  // or removing the lock in the catch block throws
    | PublishThrows(p: nat)        // the journal is in place, then syncing its directory throws
    | Wake
    | WritePhase(phase: Phase)     // up to the rename; after a phase that is not terminal the rest may throw
    | WriteFails(phase: Phase)     // throws before the rename
    | RemoveLock
    | RemoveThrows(unlinked: bool) // the removal throws, or what follows it does
    | NoteRead | NoteWrite
    | ExecutorEnds                 // or dies

  predicate Live(j: Option<Entry>) { j.Some? && !Terminal(j.value.phase) }

  predicate At(s: System, p: nat, pc: Beginner) { p in s.begins && s.begins[p] == pc }

  ghost predicate NobodyInside(s: System) { forall p :: !At(s, p, Checking) }

  function Begun(s: System): System {
    s.(journal := Some(Entry(s.nextId, Prepared)), nextId := s.nextId + 1)
  }

  /** The phases that an executor with `p` in its memory may write next. One it holds already is written again when
      an error is caught, and 'complete' and 'rolled-back' are followed by others only after they have thrown. */
  predicate Follows(p: Phase, q: Phase) {
    match p
    case Prepared => q.Prepared? || q.BackingUp? || q.Failed?
    case BackingUp => q.BackingUp? || q.BackedUp? || q.Failed?
    case BackedUp => q.BackedUp? || q.Installing? || q.Failed?
    case Installing => q.Installing? || q.Verifying? || q.RollingBack?
    case Verifying => q.Verifying? || q.Complete? || q.RollingBack? || q.RecoveryRequired?
    case Complete => q.Complete? || q.Failed?
    case RollingBack => q.RollingBack? || q.RolledBack? || q.RecoveryRequired?
    case RolledBack => q.RecoveryRequired?
    case RecoveryRequired => q.RollingBack?
    case Failed => false
  }

  function Written(s: System, j: Entry, onReturn: bool, onThrow: bool): System {
    s.(journal := Some(j), executor := if Terminal(j.phase) then Unlocking(j, onReturn, onThrow) else Holding(j))
  }

  /** An error in this write is not caught by the function that writes. */
  predicate Propagates(p: Phase, q: Phase) { (p == q && !q.RollingBack?) || q.Failed? || q.RecoveryRequired? }

  predicate MayWrite(s: System, phase: Phase) { s.executor.Holding? && Follows(s.executor.entry.phase, phase) }

  function Step(s: System, e: Event): System {
    match e
    case Arrive(p) => if p in s.begins then s else s.(begins := s.begins[p := Reading])
    case ReadJournal(p) =>
      if !At(s, p, Reading) then s
      else if Live(s.journal) then s.(begins := s.begins - {p})
      else s.(begins := s.begins[p := Locking])
    case TakeLock(p) =>
      if !At(s, p, Locking) then s
      else if s.lock then s.(begins := s.begins - {p})
      else s.(lock := true, begins := s.begins[p := Checking])
    case BackOut(p) => if At(s, p, Checking) then s.(lock := false, begins := s.begins - {p}) else s
    case Publish(p) => if At(s, p, Checking) then Begun(s).(begins := s.begins - {p}) else s
    case PublishThrows(p) => if At(s, p, Checking) then Begun(s).(lock := false, begins := s.begins - {p}) else s
    case Die(p) => s.(begins := s.begins - {p})
    case Wake => if s.executor.Asleep? && Live(s.journal) then s.(executor := Holding(s.journal.value)) else s
    case WritePhase(phase) =>
      if !MayWrite(s, phase) then s
      else
        var again := s.executor.entry.phase == phase;
        Written(s, s.executor.entry.(phase := phase), again, !again && !phase.Failed?)
    case WriteFails(phase) =>
      if !MayWrite(s, phase) then s
      else if Propagates(s.executor.entry.phase, phase) then s.(executor := Asleep)
      else s.(executor := Holding(s.executor.entry.(phase := phase)))
    case RemoveLock =>
      if !s.executor.Unlocking? then s
      else s.(lock := false, executor := if s.executor.onReturn then Holding(s.executor.entry) else Asleep)
    case RemoveThrows(unlinked) =>
      if !s.executor.Unlocking? then s
      else s.(lock := s.lock && !unlinked,
              executor := if s.executor.onThrow then Holding(s.executor.entry) else Asleep)
    case NoteRead => if s.executor.Asleep? && s.journal.Some? then s.(executor := Noting(s.journal.value)) else s
    case NoteWrite => if s.executor.Noting? then Written(s, s.executor.entry, false, false) else s
    case ExecutorEnds => s.(executor := Asleep)
  }

  function Run(s: System, es: seq<Event>): System
    decreases |es|
  {
    if es == [] then s else Step(Run(s, es[..|es| - 1]), es[|es| - 1])
  }

  function Initial(): System { System(None, false, map[], Asleep, 0) }

  /** A live journal is locked and nobody else owns the lock; an executor at work owns it, and the journal too, and
      has not had its 'complete' thrown back. */
  ghost predicate Inv(s: System) {
    && (Live(s.journal) || !s.executor.Asleep? ==> s.lock && NobodyInside(s))
    && (forall p :: At(s, p, Checking) ==> s.lock)
    && (forall p, q :: At(s, p, Checking) && At(s, q, Checking) ==> p == q)
    && (s.journal.Some? ==> s.journal.value.id < s.nextId)
    && (!s.executor.Asleep? ==> s.journal.Some? && s.journal.value.id == s.executor.entry.id)
    && (s.executor.Holding? ==> !s.executor.entry.phase.Complete?)
    && (s.executor.Unlocking? ==> !Live(s.journal) && !s.executor.onReturn)
    && (s.executor.Unlocking? && s.executor.onThrow ==>
          s.executor.entry.phase.Complete? || s.executor.entry.phase.RolledBack?)
    && (s.executor.Noting? ==> s.journal == Some(s.executor.entry))
  }

  /** The steps after which exclusion can be lost: a publication that throws when the journal is in place; a write
      of 'complete' that throws, because the executor will write that journal twice more, the second time unlocked;
      a write of 'rolled-back' that throws when the lock is removed; and a helper that reads an ended journal to note
      an error, when the lock is free or a caller holds it. */
  ghost predicate Unsound(s: System, e: Event) {
    match e
    case PublishThrows(p) => At(s, p, Checking)
    case WriteFails(phase) => MayWrite(s, phase) && phase.Complete?
    case RemoveThrows(unlinked) =>
      s.executor.Unlocking? && s.executor.onThrow && (unlinked || s.executor.entry.phase.Complete?)
    case NoteRead =>
      s.executor.Asleep? && s.journal.Some? && !Live(s.journal) && (!s.lock || exists p :: At(s, p, Checking))
    case _ => false
  }

  predicate IsCall(e: Event) {
    e.Arrive? || e.ReadJournal? || e.TakeLock? || e.BackOut? || e.Publish? || e.Die? || e.PublishThrows?
  }

  lemma BeginnerSteps(s: System, e: Event)
    requires Inv(s) && !Unsound(s, e) && IsCall(e)
    ensures Inv(Step(s, e))
  {
    var s' := Step(s, e);
    assert forall p :: p != e.p ==> (At(s', p, Checking) <==> At(s, p, Checking));
  }

  lemma ExecutorSteps(s: System, e: Event)
    requires Inv(s) && !Unsound(s, e) && !IsCall(e)
    ensures Inv(Step(s, e))
  {
    var s' := Step(s, e);
    assert forall p :: At(s', p, Checking) <==> At(s, p, Checking);
  }

  lemma StepKeepsInv(s: System, e: Event)
    requires Inv(s) && !Unsound(s, e)
    ensures Inv(Step(s, e))
  {
    hide Inv, Step, Unsound;
    if IsCall(e) {
      BeginnerSteps(s, e);
    } else {
      ExecutorSteps(s, e);
    }
  }

  lemma UnsoundBreaks(s: System, e: Event)
    requires Inv(s) && Unsound(s, e)
    ensures !Inv(Step(s, e))
  {
    if e.NoteRead? {
      if p :| At(s, p, Checking) {
        assert At(Step(s, e), p, Checking);
      }
    }
  }

  /** A step keeps the invariant exactly when it is none of these. */
  lemma StepKeepsInvExactly(s: System, e: Event)
    requires Inv(s)
    ensures Inv(Step(s, e)) <==> !Unsound(s, e)
  {
    hide Inv, Step, Unsound;
    if Unsound(s, e) {
      UnsoundBreaks(s, e);
    } else {
      StepKeepsInv(s, e);
    }
  }

  ghost predicate Sound(s: System, es: seq<Event>) {
    forall k :: 0 <= k < |es| ==> !Unsound(Run(s, es[..k]), es[k])
  }

  lemma SoundPrefix(s: System, es: seq<Event>, n: nat)
    requires Sound(s, es) && n <= |es|
    ensures Sound(s, es[..n])
  {
    hide Unsound, Run;
    assert forall k :: 0 <= k < n ==> es[..n][..k] == es[..k] && es[..n][k] == es[k];
  }

  lemma {:induction false} RunKeepsInv(s: System, es: seq<Event>)
    requires Inv(s) && Sound(s, es)
    ensures Inv(Run(s, es))
    decreases |es|
  {
    hide Step, Inv, Unsound;
    if es != [] {
      var n := |es| - 1;
      SoundPrefix(s, es, n);
      RunKeepsInv(s, es[..n]);
      StepKeepsInv(Run(s, es[..n]), es[n]);
    }
  }

  /** In every sound run a live journal is locked, and only one beginUpdate call is ever past the lock. */
  lemma {:induction false} LiveJournalIsLocked(es: seq<Event>)
    requires Sound(Initial(), es)
    ensures var s := Run(Initial(), es);
      && (Live(s.journal) ==> s.lock && NobodyInside(s))
      && forall p, q :: At(s, p, Checking) && At(s, q, Checking) ==> p == q
  {
    hide Step;
    RunKeepsInv(Initial(), es);
  }

  /** No beginUpdate call replaces a live transaction, although it reads the journal before taking the lock. */
  lemma {:induction false} PublishReplacesEnded(es: seq<Event>, p: nat)
    requires Sound(Initial(), es) && At(Run(Initial(), es), p, Checking)
    ensures !Live(Run(Initial(), es).journal)
  {
    hide Step;
    RunKeepsInv(Initial(), es);
  }

  function IdOf(s: System): Option<nat> { if s.journal.Some? then Some(s.journal.value.id) else None }

  lemma StepKeepsLiveId(s: System, e: Event)
    requires Inv(s) && Live(s.journal)
    ensures IdOf(Step(s, e)) == IdOf(s)
  {
  }

  /** The last event replaces a live transaction by another. */
  predicate Loses(s: System, es: seq<Event>) {
    && es != [] && Live(Run(s, es[..|es| - 1]).journal)
    && IdOf(Run(s, es)) != IdOf(Run(s, es[..|es| - 1]))
  }

  lemma SoundRunsLoseNothing(s: System, es: seq<Event>)
    requires Inv(s) && Sound(s, es)
    ensures !Loses(s, es)
  {
    hide Step, Inv, Unsound;
    if es != [] {
      var n := |es| - 1;
      SoundPrefix(s, es, n);
      RunKeepsInv(s, es[..n]);
      if Live(Run(s, es[..n]).journal) {
        StepKeepsLiveId(Run(s, es[..n]), es[n]);
      }
    }
  }

  /** Between two different transactions the first one ended: its terminal phase was on disk in between. */
  lemma {:induction false} TransactionsFollowOneAnother(s: System, es: seq<Event>) returns (k: nat)
    requires Inv(s) && Sound(s, es) && Live(s.journal) && IdOf(Run(s, es)) != IdOf(s)
    ensures k < |es| && IdOf(Run(s, es[..k])) == IdOf(s) && !Live(Run(s, es[..k]).journal)
    decreases |es|
  {
    hide Step, Inv, Unsound;
    var n := |es| - 1;
    SoundPrefix(s, es, n);
    if IdOf(Run(s, es[..n])) == IdOf(s) {
      RunKeepsInv(s, es[..n]);
      if Live(Run(s, es[..n]).journal) {
        StepKeepsLiveId(Run(s, es[..n]), es[n]);
      }
      k := n;
    } else {
      k := TransactionsFollowOneAnother(s, es[..n]);
      assert es[..n][..k] == es[..k];
    }
  }

  // ---- Every unsound step can lose a transaction, and only such a step can ----

  lemma {:induction false} RunSplits(s: System, a: seq<Event>, b: seq<Event>)
    ensures Run(s, a + b) == Run(Run(s, a), b)
    decreases |b|
  {
    hide Step;
    if b == [] {
      assert a + b == a;
    } else {
      assert (a + b)[..|a + b| - 1] == a + b[..|b| - 1];
      RunSplits(s, a, b[..|b| - 1]);
    }
  }

  lemma RunOne(s: System, e: Event)
    ensures Run(s, [e]) == Step(s, e)
  {
    hide Step;
    assert [e][..0] == [];
  }

  lemma RunTwo(s: System, e: Event, f: Event)
    ensures Run(s, [e, f]) == Step(Step(s, e), f)
  {
    hide Step;
    RunOne(s, e);
    assert [e, f][..1] == [e];
  }

  /** A run that loses, after a run that leads there. */
  lemma LosesLater(s: System, a: seq<Event>, b: seq<Event>)
    requires Loses(Run(s, a), b)
    ensures Loses(s, a + b)
  {
    hide Run;
    RunSplits(s, a, b);
    RunSplits(s, a, b[..|b| - 1]);
    assert (a + b)[..|a + b| - 1] == a + b[..|b| - 1];
  }

  lemma LosesAtLast(s: System, e: Event)
    requires Live(s.journal) && IdOf(Step(s, e)) != IdOf(s)
    ensures Loses(s, [e])
  {
    RunOne(s, e);
    assert [e][..0] == [];
  }

  /** A call that arrives now and finds the journal ended. */
  lemma Enters(s: System, p: nat)
    requires p !in s.begins && !Live(s.journal)
    ensures Run(s, [Arrive(p), ReadJournal(p)]) == s.(begins := s.begins[p := Locking])
    ensures !s.lock ==> Run(s, Entering(p)) == s.(lock := true, begins := s.begins[p := Checking])
  {
    var s1 := Step(s, Arrive(p));
    var s2 := Step(s1, ReadJournal(p));
    assert s2.begins == s.begins[p := Locking];
    RunTwo(s, Arrive(p), ReadJournal(p));
    RunSplits(s, [Arrive(p), ReadJournal(p)], [TakeLock(p)]);
    RunOne(s2, TakeLock(p));
    assert !s.lock ==> Step(s2, TakeLock(p)).begins == s.begins[p := Checking];
  }

  function Entering(p: nat): seq<Event> { [Arrive(p), ReadJournal(p)] + [TakeLock(p)] }

  /** An executor that writes an old journal while a new transaction is live. */
  lemma OverwriterLoses(s: System, q: nat, e: Event)
    requires !Live(s.journal) && !s.lock && q !in s.begins && (s.journal.Some? ==> s.journal.value.id < s.nextId)
    requires s.executor.Holding? || s.executor.Noting?
    requires s.executor.entry.id < s.nextId
    requires if s.executor.Holding? then e.WritePhase? && MayWrite(s, e.phase) else e.NoteWrite?
    ensures Loses(s, Entering(q) + [Publish(q)] + [e])
  {
    Enters(s, q);
    var s3 := Run(s, Entering(q));
    RunSplits(s, Entering(q), [Publish(q)]);
    RunOne(s3, Publish(q));
    var s4 := Run(s, Entering(q) + [Publish(q)]);
    assert At(s3, q, Checking) && Live(s4.journal) && s4.journal.value.id == s.nextId && s4.executor == s.executor;
    LosesAtLast(s4, e);
    LosesLater(s, Entering(q) + [Publish(q)], [e]);
  }

  /** `r` enters after `q` has, because the lock that `q` holds is removed. */
  function Removing(q: nat, r: nat): seq<Event> {
    Entering(q) + ([Arrive(r), ReadJournal(r)] + ([RemoveLock, TakeLock(r)] + ([Publish(r)] + [Publish(q)])))
  }

  /** An executor that removes a lock it no longer owns: two calls are inside, and the later publication wins. */
  lemma RemoverLoses(s: System, q: nat, r: nat)
    requires !Live(s.journal) && !s.lock && q !in s.begins && r !in s.begins && q != r && s.executor.Unlocking?
    ensures Loses(s, Removing(q, r))
  {
    Enters(s, q);
    var s1 := Run(s, Entering(q));
    Enters(s1, r);
    var s2 := Run(s1, [Arrive(r), ReadJournal(r)]);
    assert At(s2, r, Locking) && At(s2, q, Checking);
    RunTwo(s2, RemoveLock, TakeLock(r));
    var s3 := Run(s2, [RemoveLock, TakeLock(r)]);
    assert At(s3, r, Checking) && At(s3, q, Checking);
    RunOne(s3, Publish(r));
    var s4 := Run(s3, [Publish(r)]);
    assert Live(s4.journal) && At(s4, q, Checking);
    LosesAtLast(s4, Publish(q));
    LosesLater(s3, [Publish(r)], [Publish(q)]);
    LosesLater(s2, [RemoveLock, TakeLock(r)], [Publish(r)] + [Publish(q)]);
    LosesLater(s1, [Arrive(r), ReadJournal(r)], [RemoveLock, TakeLock(r)] + ([Publish(r)] + [Publish(q)]));
    LosesLater(s, Entering(q),
               [Arrive(r), ReadJournal(r)] + ([RemoveLock, TakeLock(r)] + ([Publish(r)] + [Publish(q)])));
  }

  /** No step of the run is of a kind that can be unsound. */
  predicate Faultless(es: seq<Event>) {
    forall k :: 0 <= k < |es| ==>
      !es[k].PublishThrows? && !es[k].WriteFails? && !es[k].RemoveThrows? && !es[k].NoteRead?
  }

  lemma PublishThrowsLoses(s: System, p: nat, q: nat, r: nat) returns (es: seq<Event>)
    requires Inv(s) && At(s, p, Checking) && q !in s.begins && r !in s.begins && q != r
    ensures Faultless(es) && Loses(Step(s, PublishThrows(p)), es)
  {
    var s1 := Step(s, PublishThrows(p));
    assert s1.executor.Asleep? && Live(s1.journal) && !s1.lock;
    RunTwo(s1, Wake, WritePhase(Phase.Failed));
    var s3 := Run(s1, [Wake, WritePhase(Phase.Failed)]);
    RemoverLoses(s3, q, r);
    LosesLater(s1, [Wake, WritePhase(Phase.Failed)], Removing(q, r));
    es := [Wake, WritePhase(Phase.Failed)] + Removing(q, r);
  }

  /** What is written from memory after a terminal phase has thrown. */
  function Rewrite(p: Phase): Phase { if p.Complete? then Complete else RecoveryRequired }

  /** The lock is gone, and the executor still writes. */
  lemma UnlockedLoses(s: System, q: nat) returns (es: seq<Event>)
    requires Inv(s) && s.executor.Unlocking? && s.executor.onThrow && q !in s.begins
    ensures Faultless(es) && Loses(Step(s, RemoveThrows(true)), es)
    ensures es[|es| - 1] == WritePhase(Rewrite(s.executor.entry.phase))
  {
    var next := WritePhase(Rewrite(s.executor.entry.phase));
    es := Entering(q) + [Publish(q)] + [next];
    OverwriterLoses(Step(s, RemoveThrows(true)), q, next);
  }

  /** After a thrown 'complete' the catch block writes it again, which removes the lock, and then 'failed'. */
  lemma ThrownCommitLoses(s: System, q: nat) returns (es: seq<Event>)
    requires s.executor.Holding? && s.executor.entry.phase.Complete? && NobodyInside(s) && q !in s.begins
    requires s.journal.Some? && s.journal.value.id == s.executor.entry.id < s.nextId
    ensures Faultless(es) && Loses(s, es) && es[|es| - 1] == WritePhase(Phase.Failed)
  {
    var rest := Entering(q) + [Publish(q)] + [WritePhase(Phase.Failed)];
    RunTwo(s, WritePhase(Complete), RemoveLock);
    var s2 := Run(s, [WritePhase(Complete), RemoveLock]);
    OverwriterLoses(s2, q, WritePhase(Phase.Failed));
    LosesLater(s, [WritePhase(Complete), RemoveLock], rest);
    es := [WritePhase(Complete), RemoveLock] + rest;
  }

  lemma WriteFailsLoses(s: System, q: nat) returns (es: seq<Event>)
    requires Inv(s) && Unsound(s, WriteFails(Complete)) && q !in s.begins
    ensures Faultless(es) && Loses(Step(s, WriteFails(Complete)), es) && es[|es| - 1] == WritePhase(Phase.Failed)
  {
    var s1 := Step(s, WriteFails(Complete));
    assert forall p :: At(s1, p, Checking) <==> At(s, p, Checking);
    es := ThrownCommitLoses(s1, q);
  }

  lemma RemoveThrowsLoses(s: System, unlinked: bool, q: nat) returns (es: seq<Event>)
    requires Inv(s) && Unsound(s, RemoveThrows(unlinked)) && q !in s.begins
    ensures Faultless(es) && Loses(Step(s, RemoveThrows(unlinked)), es)
  {
    if unlinked {
      es := UnlockedLoses(s, q);
    } else {
      var s1 := Step(s, RemoveThrows(false));
      assert forall p :: At(s1, p, Checking) <==> At(s, p, Checking);
      es := ThrownCommitLoses(s1, q);
    }
  }

  lemma NoteReadLoses(s: System, q: nat) returns (es: seq<Event>)
    requires Inv(s) && Unsound(s, NoteRead) && q !in s.begins
    ensures Faultless(es) && Loses(Step(s, NoteRead), es)
  {
    var s1 := Step(s, NoteRead);
    if p :| At(s, p, Checking) {
      assert At(s1, p, Checking);
      RunOne(s1, Publish(p));
      var s2 := Run(s1, [Publish(p)]);
      LosesAtLast(s2, NoteWrite);
      LosesLater(s1, [Publish(p)], [NoteWrite]);
      es := [Publish(p)] + [NoteWrite];
    } else {
      es := Entering(q) + [Publish(q)] + [NoteWrite];
      OverwriterLoses(s1, q, NoteWrite);
    }
  }

  lemma FaultlessIsSound(s: System, es: seq<Event>)
    requires Faultless(es)
    ensures Sound(s, es)
  {
    hide Run;
  }

  /** Exclusion is exact: from any state of a sound run, a step makes it possible to lose a live transaction,
      by steps that are themselves sound in kind, exactly when it is one of these. */
  lemma ExclusionExactly(s: System, e: Event, q: nat, r: nat)
    requires Inv(s) && q !in s.begins && r !in s.begins && q != r
    ensures Unsound(s, e) <==> exists es :: Faultless(es) && Loses(Step(s, e), es)
  {
    hide Step, Loses, Inv, Unsound, Faultless;
    if Unsound(s, e) {
      var es := UnsoundLoses(s, e, q, r);
    } else {
      StepKeepsInv(s, e);
      forall es | Faultless(es)
        ensures !Loses(Step(s, e), es)
      {
        FaultlessIsSound(Step(s, e), es);
        SoundRunsLoseNothing(Step(s, e), es);
      }
    }
  }

  lemma UnsoundLoses(s: System, e: Event, q: nat, r: nat) returns (es: seq<Event>)
    requires Inv(s) && Unsound(s, e) && q !in s.begins && r !in s.begins && q != r
    ensures Faultless(es) && Loses(Step(s, e), es)
  {
    hide Step, Loses, Inv, Faultless;
    if e.PublishThrows? {
      es := PublishThrowsLoses(s, e.p, q, r);
    } else if e.WriteFails? {
      es := WriteFailsLoses(s, q);
    } else if e.RemoveThrows? {
      es := RemoveThrowsLoses(s, e.unlinked, q);
    } else {
      es := NoteReadLoses(s, q);
    }
  }

  // ---- Who gets in ----

  /** A call that arrives now gets as far as the lock exactly if no transaction is live, locked or not. */
  lemma ArrivesExactly(s: System, p: nat)
    requires p !in s.begins
    ensures At(Run(s, [Arrive(p), ReadJournal(p)]), p, Locking) <==> !Live(s.journal)
    ensures Live(s.journal) ==> Run(s, [Arrive(p), ReadJournal(p)]) == s
  {
    RunTwo(s, Arrive(p), ReadJournal(p));
    assert s.begins[p := Reading] - {p} == s.begins;
  }

  /** And takes the lock exactly if it is free. */
  lemma TakesExactly(s: System, p: nat)
    requires At(s, p, Locking)
    ensures At(Step(s, TakeLock(p)), p, Checking) <==> !s.lock
  {
  }

  /** When a transaction has ended and its lock has been removed, the next call can begin another. */
  lemma NextBegins(p: nat)
    requires p != 1
    ensures var s := Run(Initial(), First(Phase.Failed) + [RemoveLock]);
      At(Run(s, Entering(p)), p, Checking) && IdOf(Step(Run(s, Entering(p)), Publish(p))) == Some(1)
  {
    FirstEnds(Phase.Failed);
    RunSplits(Initial(), First(Phase.Failed), [RemoveLock]);
    RunOne(Run(Initial(), First(Phase.Failed)), RemoveLock);
    Enters(Run(Initial(), First(Phase.Failed) + [RemoveLock]), p);
  }

  // ---- With a caller that has read the journal before ----

  /** A caller that has found the journal ended replaces a live transaction that is not locked. */
  lemma StaleReaderLoses(s: System, q: nat)
    requires Live(s.journal) && !s.lock && At(s, q, Locking) && s.journal.value.id < s.nextId
    ensures Loses(s, [TakeLock(q)] + [Publish(q)])
  {
    RunOne(s, TakeLock(q));
    var s1 := Run(s, [TakeLock(q)]);
    assert At(s1, q, Checking);
    LosesAtLast(s1, Publish(q));
    LosesLater(s, [TakeLock(q)], [Publish(q)]);
  }

  /** After a thrown publication two more steps are enough. */
  lemma ThrownPublicationLoses(s: System, p: nat, q: nat)
    requires Inv(s) && At(s, p, Checking) && At(s, q, Locking)
    ensures Loses(s, [PublishThrows(p)] + ([TakeLock(q)] + [Publish(q)]))
  {
    RunOne(s, PublishThrows(p));
    var s1 := Run(s, [PublishThrows(p)]);
    assert At(s1, q, Locking);
    StaleReaderLoses(s1, q);
    LosesLater(s, [PublishThrows(p)], [TakeLock(q)] + [Publish(q)]);
  }

  /** After a write of 'rolled-back' that throws when the lock is gone, 'recovery-required' is published unlocked. */
  lemma ThrownRollbackLoses(s: System, q: nat)
    requires Inv(s) && s.executor.Unlocking? && s.executor.onThrow && s.executor.entry.phase.RolledBack?
    requires At(s, q, Locking)
    ensures Loses(s, [RemoveThrows(true), WritePhase(RecoveryRequired)] + ([TakeLock(q)] + [Publish(q)]))
  {
    RunTwo(s, RemoveThrows(true), WritePhase(RecoveryRequired));
    var s2 := Run(s, [RemoveThrows(true), WritePhase(RecoveryRequired)]);
    assert At(s2, q, Locking);
    StaleReaderLoses(s2, q);
    LosesLater(s, [RemoveThrows(true), WritePhase(RecoveryRequired)], [TakeLock(q)] + [Publish(q)]);
  }

  // ---- From the beginning ----

  function Writes(ps: seq<Phase>): seq<Event> { seq(|ps|, k requires 0 <= k < |ps| => WritePhase(ps[k])) }

  /** The executor can write these phases one after the other, and none of them ends the transaction. */
  predicate Path(p: Phase, ps: seq<Phase>)
    decreases |ps|
  {
    ps != [] ==> Follows(p, ps[0]) && !Terminal(ps[0]) && Path(ps[0], ps[1..])
  }

  function Last(p: Phase, ps: seq<Phase>): Phase { if ps == [] then p else ps[|ps| - 1] }

  lemma {:induction false} RunWrites(s: System, ps: seq<Phase>)
    requires s.executor.Holding? && s.journal == Some(s.executor.entry) && Path(s.executor.entry.phase, ps)
    ensures var j := s.executor.entry.(phase := Last(s.executor.entry.phase, ps));
      Run(s, Writes(ps)) == s.(journal := Some(j), executor := Holding(j))
    decreases |ps|
  {
    if ps != [] {
      RunOne(s, WritePhase(ps[0]));
      var s1 := Run(s, [WritePhase(ps[0])]);
      RunWrites(s1, ps[1..]);
      RunSplits(s, [WritePhase(ps[0])], Writes(ps[1..]));
      assert Writes(ps) == [WritePhase(ps[0])] + Writes(ps[1..]);
    }
  }

  /** The phases on the way to a terminal one. */
  function Way(p: Phase): seq<Phase> {
    if p.Complete? then [BackingUp, BackedUp, Installing, Verifying]
    else if p.RolledBack? then [BackingUp, BackedUp, Installing, RollingBack]
    else []
  }

  /** A first transaction, up to the write of a terminal phase. */
  function Approach(p: Phase): seq<Event> { Entering(1) + ([Publish(1), Wake] + Writes(Way(p))) }

  /** And that write, without the removal of the lock. */
  function First(p: Phase): seq<Event> { Approach(p) + [WritePhase(p)] }

  lemma EntersFirst()
    ensures Run(Initial(), Entering(1)) == Initial().(lock := true, begins := map[1 := Checking])
  {
    Enters(Initial(), 1);
    assert map[][1 := Checking] == map[1 := Checking];
  }

  lemma PathsLead(p: Phase)
    ensures Path(Prepared, Way(p)) && (Terminal(p) ==> Follows(Last(Prepared, Way(p)), p))
    ensures Terminal(p) ==> Last(Prepared, Way(p)) != p && !Terminal(Last(Prepared, Way(p)))
  {
    if p.Complete? || p.RolledBack? {
      var last := Way(p)[3];
      assert Way(p)[1..] == [BackedUp, Installing, last] && [BackedUp, Installing, last][1..] == [Installing, last];
      assert [Installing, last][1..] == [last] && [last][1..] == [];
      assert Path(Installing, [last]) && Path(BackedUp, [Installing, last]);
    }
  }

  lemma Approaches(p: Phase)
    requires Terminal(p)
    ensures var j := Entry(0, Last(Prepared, Way(p)));
      Run(Initial(), Approach(p)) == System(Some(j), true, map[], Holding(j), 1)
  {
    EntersFirst();
    PathsLead(p);
    var s3 := Run(Initial(), Entering(1));
    RunTwo(s3, Publish(1), Wake);
    var s5 := Run(s3, [Publish(1), Wake]);
    assert s5 == System(Some(Entry(0, Prepared)), true, map[], Holding(Entry(0, Prepared)), 1);
    RunWrites(s5, Way(p));
    RunSplits(s3, [Publish(1), Wake], Writes(Way(p)));
    RunSplits(Initial(), Entering(1), [Publish(1), Wake] + Writes(Way(p)));
  }

  lemma FirstEnds(p: Phase)
    requires Terminal(p)
    ensures Run(Initial(), First(p))
      == System(Some(Entry(0, p)), true, map[], Unlocking(Entry(0, p), false, !p.Failed?), 1)
  {
    Approaches(p);
    PathsLead(p);
    RunSplits(Initial(), Approach(p), [WritePhase(p)]);
    RunOne(Run(Initial(), Approach(p)), WritePhase(p));
  }

  /** A step after a run from the start, and the rest of a run that loses. */
  lemma LosesFrom(es: seq<Event>, e: Event, rest: seq<Event>)
    requires Loses(Step(Run(Initial(), es), e), rest)
    ensures Loses(Initial(), es + [e] + rest)
  {
    hide Step, Run, Loses;
    RunOne(Run(Initial(), es), e);
    RunSplits(Initial(), es, [e]);
    LosesLater(Initial(), es + [e], rest);
  }

  // The unsound steps happen in runs from the start that are sound until then, and the rest of the run loses.

  /** The first publication throws. */
  lemma LostAfterPublication() returns (es: seq<Event>)
    ensures Loses(Initial(), Entering(1) + [PublishThrows(1)] + es) && Faultless(es)
  {
    EntersFirst();
    es := PublishThrowsLoses(Run(Initial(), Entering(1)), 1, 2, 3);
    LosesFrom(Entering(1), PublishThrows(1), es);
  }

  /** The write of 'complete' or 'rolled-back' throws after removing the lock, and is followed by 'complete' again
      or by 'recovery-required'. */
  lemma LostAfterWrite(p: Phase) returns (es: seq<Event>)
    requires p.Complete? || p.RolledBack?
    ensures Loses(Initial(), First(p) + [RemoveThrows(true)] + es) && Faultless(es)
    ensures es != [] && es[|es| - 1] == WritePhase(Rewrite(p))
  {
    FirstEnds(p);
    es := UnlockedLoses(Run(Initial(), First(p)), 2);
    LosesFrom(First(p), RemoveThrows(true), es);
  }

  /** The write of 'complete' throws before its rename, or in removing the lock: 'complete' is written again, and
      'failed' over the next transaction. */
  lemma LostAfterCommit(renamed: bool) returns (es: seq<Event>)
    ensures Faultless(es) && es != [] && es[|es| - 1] == WritePhase(Phase.Failed)
    ensures if renamed then Loses(Initial(), First(Complete) + [RemoveThrows(false)] + es)
            else Loses(Initial(), Approach(Complete) + [WriteFails(Complete)] + es)
  {
    if renamed {
      FirstEnds(Complete);
      es := ThrownCommitLoses(Step(Run(Initial(), First(Complete)), RemoveThrows(false)), 2);
      LosesFrom(First(Complete), RemoveThrows(false), es);
    } else {
      Approaches(Complete);
      es := ThrownCommitLoses(Step(Run(Initial(), Approach(Complete)), WriteFails(Complete)), 2);
      LosesFrom(Approach(Complete), WriteFails(Complete), es);
    }
  }

  /** The helper notes its error after an ordinary failure. */
  lemma LostAfterNote() returns (es: seq<Event>)
    ensures Loses(Initial(), First(Phase.Failed) + [RemoveLock] + [NoteRead] + es) && Faultless(es)
  {
    FirstEnds(Phase.Failed);
    var s := Run(Initial(), First(Phase.Failed));
    RunOne(s, RemoveLock);
    RunSplits(Initial(), First(Phase.Failed), [RemoveLock]);
    es := NoteReadLoses(Step(s, RemoveLock), 2);
    LosesFrom(First(Phase.Failed) + [RemoveLock], NoteRead, es);
  }

  // ---- Locks that nobody will remove ----

  /** The lock exists, but no transaction is live and no process that took it is left. */
  ghost predicate Orphaned(s: System) { s.lock && !Live(s.journal) && s.executor.Asleep? && NobodyInside(s) }

  lemma OrphanStep(s: System, e: Event)
    requires Orphaned(s) && !e.NoteRead?
    ensures Orphaned(Step(s, e)) && Step(s, e).journal == s.journal
  {
    var s' := Step(s, e);
    assert forall p :: At(s', p, Checking) ==> At(s, p, Checking);
  }

  /** Then every later beginUpdate is refused: no run publishes another transaction. */
  lemma {:induction false} OrphanedLockRefusesAll(s: System, es: seq<Event>)
    requires Orphaned(s) && forall k :: 0 <= k < |es| ==> !es[k].NoteRead?
    ensures Orphaned(Run(s, es)) && Run(s, es).journal == s.journal
    decreases |es|
  {
    hide Step, Orphaned;
    if es != [] {
      OrphanedLockRefusesAll(s, es[..|es| - 1]);
      OrphanStep(Run(s, es[..|es| - 1]), es[|es| - 1]);
    }
  }

  /** The last step by which the owner of the lock could have removed it fails, or never comes. */
  predicate Abandons(s: System, e: Event) {
    || (e.Die? && At(s, e.p, Checking))
    || (e.ExecutorEnds? && !s.executor.Asleep? && !Live(s.journal))
    || (e == RemoveThrows(false) && s.executor.Unlocking? && !s.executor.onThrow)
    || (e.WriteFails? && MayWrite(s, e.phase) && Propagates(s.executor.entry.phase, e.phase) && !Live(s.journal))
  }

  lemma HolderRemains(s: System, e: Event, p: nat)
    requires Inv(s) && !Unsound(s, e) && At(s, p, Checking) && e != Die(p)
    ensures !Orphaned(Step(s, e))
  {
    var s' := Step(s, e);
    assert At(s', p, Checking) || !s'.lock || Live(s'.journal) || !s'.executor.Asleep?;
  }

  lemma ExecutorRemains(s: System, e: Event)
    requires Inv(s) && !s.executor.Asleep?
    ensures Orphaned(Step(s, e)) <==> Abandons(s, e)
  {
    var s' := Step(s, e);
    assert forall p :: At(s', p, Checking) ==> At(s, p, Checking) || e == TakeLock(p);
  }

  /** A sound step orphans the lock exactly when its owner goes, or fails to remove it and ends: a caller that
      has not published, or an executor whose journal has ended. */
  lemma OrphanedExactly(s: System, e: Event)
    requires Inv(s) && !Orphaned(s) && !Unsound(s, e)
    ensures Orphaned(Step(s, e)) <==> Abandons(s, e)
  {
    var s' := Step(s, e);
    if !s.executor.Asleep? {
      ExecutorRemains(s, e);
    } else if p :| At(s, p, Checking) {
      assert forall q :: At(s', q, Checking) ==> At(s, q, Checking) || e == TakeLock(q);
      if e != Die(p) {
        HolderRemains(s, e, p);
      }
    } else if e.TakeLock? && At(s, e.p, Locking) {
      assert s.lock || At(s', e.p, Checking);
    }
  }
}
