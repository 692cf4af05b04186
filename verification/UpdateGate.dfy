/** The barrier that keeps requests and scheduler ticks out of the daemon while the desktop app is updated. */
module UpdateGate {

  /** Everything the handlers change. `listeners` are the open responses that still have a close handler. */
  datatype State = State(
    locked: bool, mutations: int, schedulerRunning: bool, tickInFlight: bool, suspended: bool, listeners: set<nat>)

  datatype Event =
    | Request(id: nat, mutation: bool)
    | Close(id: nat)
    | TimerFires | TickEnds
    | Prepare(active: nat)   // sessions and executions under way
    | Cancel

  function Step(validation: bool, s: State, e: Event): State {
    match e
    case Request(id, mutation) =>
      if s.locked || !mutation then s
      else s.(mutations := s.mutations + 1, listeners := s.listeners + {id})
    case Close(id) =>
      if id in s.listeners then s.(mutations := s.mutations - 1, listeners := s.listeners - {id}) else s
    case TimerFires =>
      if s.tickInFlight || s.locked then s else s.(tickInFlight := true, schedulerRunning := true)
    case TickEnds => s.(tickInFlight := false, schedulerRunning := false)
    case Prepare(active) =>
      if s.locked || s.mutations != 0 || s.schedulerRunning || active != 0 then s
      else s.(locked := true, suspended := true)
    case Cancel => if validation then s else s.(locked := false, suspended := false)
  }

  function Run(validation: bool, es: seq<Event>): State
    decreases |es|
  {
    if es == [] then State(validation, 0, false, false, false, {})
    else Step(validation, Run(validation, es[..|es| - 1]), es[|es| - 1])
  }

  // ---- What the history says, without the counters ----

  /** Requests are different objects. */
  predicate Distinct(es: seq<Event>) {
    forall i, j :: 0 <= i < j < |es| && es[i].Request? && es[j].Request? ==> es[i].id != es[j].id
  }

  /** Event `i` is a mutating request that was let in. */
  predicate Admitted(validation: bool, es: seq<Event>, i: nat) {
    i < |es| && es[i].Request? && es[i].mutation && !Run(validation, es[..i]).locked
  }

  /** It was let in and its response has not closed since. */
  ghost predicate Open(validation: bool, es: seq<Event>, i: nat) {
    Admitted(validation, es, i) && forall j :: i < j < |es| ==> es[j] != Close(es[i].id)
  }

  ghost predicate IsOpen(validation: bool, es: seq<Event>, id: nat) {
    exists i :: 0 <= i < |es| && Open(validation, es, i) && es[i].id == id
  }

  /** Event `i` started a scheduler tick that has not ended. */
  ghost predicate TickFrom(validation: bool, es: seq<Event>, i: nat) {
    && i < |es| && es[i].TimerFires?
    && !Run(validation, es[..i]).locked && !Run(validation, es[..i]).tickInFlight
    && forall j :: i < j < |es| ==> !es[j].TickEnds?
  }

  ghost predicate Ticking(validation: bool, es: seq<Event>) {
    exists i :: 0 <= i < |es| && TickFrom(validation, es, i)
  }

  lemma OpenBefore(validation: bool, es: seq<Event>, i: nat)
    requires i + 1 < |es|
    ensures Open(validation, es, i) <==> Open(validation, es[..|es| - 1], i) && es[|es| - 1] != Close(es[i].id)
  {
    hide Run;
    var n := |es| - 1;
    assert es[..n][..i] == es[..i] && forall j :: 0 <= j < n ==> es[..n][j] == es[j];
  }

  lemma TickBefore(validation: bool, es: seq<Event>, i: nat)
    requires i + 1 < |es|
    ensures TickFrom(validation, es, i) <==> TickFrom(validation, es[..|es| - 1], i) && !es[|es| - 1].TickEnds?
  {
    hide Run;
    var n := |es| - 1;
    assert es[..n][..i] == es[..i] && forall j :: 0 <= j < n ==> es[..n][j] == es[j];
  }

  lemma OpenLast(validation: bool, es: seq<Event>)
    requires es != []
    ensures Open(validation, es, |es| - 1) <==> Admitted(validation, es, |es| - 1)
  {
    hide Admitted;
  }

  /** How the open requests change: by admission, and by the closing of the response. */
  lemma OpenStep(validation: bool, es: seq<Event>, id: nat)
    requires es != []
    ensures var n := |es| - 1;
      IsOpen(validation, es, id) <==>
        (Admitted(validation, es, n) && es[n].id == id) || (IsOpen(validation, es[..n], id) && es[n] != Close(id))
  {
    hide Run;
    var n := |es| - 1;
    OpenLast(validation, es);
    if IsOpen(validation, es[..n], id) {
      var i :| 0 <= i < n && Open(validation, es[..n], i) && es[..n][i].id == id;
      OpenBefore(validation, es, i);
    }
    if IsOpen(validation, es, id) {
      var i :| 0 <= i < |es| && Open(validation, es, i) && es[i].id == id;
      if i < n {
        OpenBefore(validation, es, i);
        assert es[..n][i].id == id;
      }
    }
  }

  /** The listeners are those of the open requests, and the counter counts them. */
  ghost predicate Counted(validation: bool, es: seq<Event>, s: State) {
    s.mutations == |s.listeners| && forall id :: id in s.listeners <==> IsOpen(validation, es, id)
  }

  /** A request that arrives is none of the open ones. */
  lemma NewId(validation: bool, es: seq<Event>)
    requires es != [] && Distinct(es) && es[|es| - 1].Request?
    ensures !IsOpen(validation, es[..|es| - 1], es[|es| - 1].id)
  {
  }

  lemma StepCounts(validation: bool, s: State, e: Event)
    requires s.mutations == |s.listeners| && (e.Request? && e.mutation && !s.locked ==> e.id !in s.listeners)
    ensures var s' := Step(validation, s, e); s'.mutations == |s'.listeners|
  {
  }

  lemma StepListens(validation: bool, s: State, e: Event, id: nat)
    ensures id in Step(validation, s, e).listeners <==>
      (e.Request? && e.mutation && !s.locked && e.id == id) || (id in s.listeners && e != Close(id))
  {
  }

  lemma CountedStep(validation: bool, es: seq<Event>)
    requires es != [] && Distinct(es) && Counted(validation, es[..|es| - 1], Run(validation, es[..|es| - 1]))
    ensures Counted(validation, es, Run(validation, es))
  {
    var n := |es| - 1;
    var s := Run(validation, es[..n]);
    assert Run(validation, es) == Step(validation, s, es[n]);
    assert Admitted(validation, es, n) <==> es[n].Request? && es[n].mutation && !s.locked;
    if es[n].Request? {
      NewId(validation, es);
    }
    StepCounts(validation, s, es[n]);
    hide IsOpen, Run, Admitted, Distinct, Step;
    forall id
      ensures id in Step(validation, s, es[n]).listeners <==> IsOpen(validation, es, id)
    {
      StepListens(validation, s, es[n], id);
      OpenStep(validation, es, id);
    }
  }

  lemma {:induction false} AlwaysCounted(validation: bool, es: seq<Event>)
    requires Distinct(es)
    ensures Counted(validation, es, Run(validation, es))
    decreases |es|
  {
    hide IsOpen;
    if es == [] {
      forall id
        ensures !IsOpen(validation, [], id)
      {
        NothingOpen(validation, id);
      }
    } else {
      AlwaysCounted(validation, es[..|es| - 1]);
      CountedStep(validation, es);
    }
  }

  lemma NothingOpen(validation: bool, id: nat)
    ensures !IsOpen(validation, [], id)
  {
  }

  lemma TickStarts(validation: bool, es: seq<Event>)
    requires es != []
    ensures var n := |es| - 1;
      TickFrom(validation, es, n) <==>
        es[n].TimerFires? && !Run(validation, es[..n]).locked && !Run(validation, es[..n]).tickInFlight
  {
    hide Run;
  }

  lemma TicksBefore(validation: bool, es: seq<Event>)
    requires es != []
    ensures forall i: nat :: i < |es| - 1 ==>
      (TickFrom(validation, es, i) <==> TickFrom(validation, es[..|es| - 1], i) && !es[|es| - 1].TickEnds?)
  {
    hide Run, TickFrom;
    forall i: nat | i < |es| - 1
      ensures TickFrom(validation, es, i) <==> TickFrom(validation, es[..|es| - 1], i) && !es[|es| - 1].TickEnds?
    {
      TickBefore(validation, es, i);
    }
  }

  lemma TickStep(validation: bool, s: State, e: Event)
    ensures var s' := Step(validation, s, e);
      && s'.tickInFlight == ((e.TimerFires? && !s.locked && !s.tickInFlight) || (s.tickInFlight && !e.TickEnds?))
      && (s.tickInFlight == s.schedulerRunning ==> s'.tickInFlight == s'.schedulerRunning)
  {
  }

  lemma {:induction false} TickFlags(validation: bool, es: seq<Event>)
    ensures Run(validation, es).tickInFlight == Run(validation, es).schedulerRunning == Ticking(validation, es)
    decreases |es|
  {
    if es != [] {
      var n := |es| - 1;
      assert Run(validation, es) == Step(validation, Run(validation, es[..n]), es[n]);
      hide Run, Step, TickFrom, Ticking;
      TickFlags(validation, es[..n]);
      TickStarts(validation, es);
      TicksBefore(validation, es);
      TickingStep(validation, es);
      TickStep(validation, Run(validation, es[..n]), es[n]);
    }
  }

  lemma TickingStep(validation: bool, es: seq<Event>)
    requires es != []
    requires forall i: nat :: i < |es| - 1 ==>
      (TickFrom(validation, es, i) <==> TickFrom(validation, es[..|es| - 1], i) && !es[|es| - 1].TickEnds?)
    ensures Ticking(validation, es) <==>
      TickFrom(validation, es, |es| - 1) || (Ticking(validation, es[..|es| - 1]) && !es[|es| - 1].TickEnds?)
  {
    hide Run, TickFrom;
    var n := |es| - 1;
    if Ticking(validation, es[..n]) && !es[n].TickEnds? {
      var i :| 0 <= i < n && TickFrom(validation, es[..n], i);
      assert TickFrom(validation, es, i);
    }
    if Ticking(validation, es) {
      var i :| 0 <= i < |es| && TickFrom(validation, es, i);
      assert i < n ==> TickFrom(validation, es[..n], i);
    }
  }

  predicate Quiet(validation: bool, s: State) {
    && s.schedulerRunning == s.tickInFlight && s.mutations >= |s.listeners|
    && (validation ==> s.locked && !s.suspended) && (!validation ==> s.locked == s.suspended)
    && (s.locked ==> s.mutations == 0 && !s.schedulerRunning)
  }

  lemma StepKeepsQuiet(validation: bool, s: State, e: Event)
    requires Quiet(validation, s)
    ensures Quiet(validation, Step(validation, s, e))
  {
  }

  lemma {:induction false} AlwaysQuiet(validation: bool, es: seq<Event>)
    ensures Quiet(validation, Run(validation, es))
    decreases |es|
  {
    hide Step;
    if es != [] {
      AlwaysQuiet(validation, es[..|es| - 1]);
      StepKeepsQuiet(validation, Run(validation, es[..|es| - 1]), es[|es| - 1]);
    }
  }

  /** In every run the counters agree with the history, and while locked no admitted request is open and no tick
      runs. */
  lemma Barrier(validation: bool, es: seq<Event>)
    requires Distinct(es)
    ensures var s := Run(validation, es);
      && s.mutations == |s.listeners| && (forall id :: id in s.listeners <==> IsOpen(validation, es, id))
      && s.schedulerRunning == Ticking(validation, es)
      && (s.locked ==> (forall id :: !IsOpen(validation, es, id)) && !Ticking(validation, es))
  {
    hide Run, Ticking, IsOpen;
    AlwaysCounted(validation, es);
    TickFlags(validation, es);
    AlwaysQuiet(validation, es);
  }

  /** Once prepared, the barrier holds until it is cancelled; that of a validation daemon holds from the start. */
  lemma {:induction false} BarrierHolds(validation: bool, es: seq<Event>, i: nat)
    requires i <= |es| && Run(validation, es[..i]).locked
    requires validation || forall j :: i <= j < |es| ==> !es[j].Cancel?
    ensures Run(validation, es).locked
    decreases |es|
  {
    if i == |es| {
      assert es[..i] == es;
    } else {
      var n := |es| - 1;
      assert es[..n][..i] == es[..i] && forall j :: 0 <= j < n ==> es[..n][j] == es[j];
      BarrierHolds(validation, es[..n], i);
    }
  }

  /** So no mutating request is let in meanwhile. */
  lemma BarrierAdmitsNothing(validation: bool, es: seq<Event>, i: nat, j: nat)
    requires i <= j < |es| && Run(validation, es[..i]).locked
    requires validation || forall k :: i <= k < |es| ==> !es[k].Cancel?
    ensures !Admitted(validation, es, j)
  {
    hide Run;
    assert es[..j][..i] == es[..i] && forall k :: 0 <= k < j ==> es[..j][k] == es[k];
    BarrierHolds(validation, es[..j], i);
  }

  /** Event `i` is a message to prepare that found nothing under way. */
  ghost predicate Prepares(validation: bool, es: seq<Event>, i: nat) {
    && i < |es| && es[i].Prepare? && es[i].active == 0 && !Run(validation, es[..i]).locked
    && (forall id :: !IsOpen(validation, es[..i], id)) && !Ticking(validation, es[..i])
  }

  /** The last message to prepare that succeeded has not been cancelled since. */
  ghost predicate Held(validation: bool, es: seq<Event>) {
    exists i :: 0 <= i < |es| && Prepares(validation, es, i) && forall j :: i < j < |es| ==> !es[j].Cancel?
  }

  lemma PreparesBefore(validation: bool, es: seq<Event>, i: nat)
    requires i + 1 < |es|
    ensures Prepares(validation, es, i) <==> Prepares(validation, es[..|es| - 1], i)
  {
    hide Run, IsOpen, Ticking;
    assert es[..|es| - 1][..i] == es[..i] && es[..|es| - 1][i] == es[i];
  }

  lemma HeldStep(validation: bool, es: seq<Event>)
    requires es != []
    ensures var n := |es| - 1;
      Held(validation, es) <==> Prepares(validation, es, n) || (Held(validation, es[..n]) && !es[n].Cancel?)
  {
    hide Prepares;
    var n := |es| - 1;
    if Held(validation, es[..n]) && !es[n].Cancel? {
      var i :| 0 <= i < n && Prepares(validation, es[..n], i) && forall j :: i < j < n ==> !es[..n][j].Cancel?;
      PreparesBefore(validation, es, i);
      assert forall j :: i < j < n ==> es[j] == es[..n][j];
    }
    if Held(validation, es) {
      var i :| 0 <= i < |es| && Prepares(validation, es, i) && forall j :: i < j < |es| ==> !es[j].Cancel?;
      if i < n {
        PreparesBefore(validation, es, i);
        assert forall j :: i < j < n ==> es[j] == es[..n][j];
      }
    }
  }

  lemma PrepareLocks(validation: bool, s: State, e: Event)
    requires validation ==> s.locked
    ensures Step(validation, s, e).locked <==>
      || (e.Prepare? && e.active == 0 && !s.locked && s.mutations == 0 && !s.schedulerRunning)
      || (s.locked && !(e.Cancel? && !validation))
  {
  }

  lemma LockStep(validation: bool, es: seq<Event>)
    requires es != [] && Distinct(es)
    ensures var n := |es| - 1;
      Run(validation, es).locked <==>
        Prepares(validation, es, n) || (Run(validation, es[..n]).locked && !(es[n].Cancel? && !validation))
  {
    var n := |es| - 1;
    assert Run(validation, es) == Step(validation, Run(validation, es[..n]), es[n]);
    assert Distinct(es[..n]);
    hide IsOpen, Ticking, Distinct, Run, Step;
    Barrier(validation, es[..n]);
    AlwaysQuiet(validation, es[..n]);
    NoneOpen(validation, es[..n]);
    PrepareLocks(validation, Run(validation, es[..n]), es[n]);
  }

  lemma NoneOpen(validation: bool, es: seq<Event>)
    requires Distinct(es)
    ensures Run(validation, es).mutations == 0 <==> forall id :: !IsOpen(validation, es, id)
  {
    hide Run, IsOpen, Distinct;
    Barrier(validation, es);
    var open := Run(validation, es).listeners;
    if open != {} {
      var id :| id in open;
      assert IsOpen(validation, es, id);
    }
  }

  /** In every run the gate is locked exactly from a message to prepare that found nothing under way until the next
      cancellation; that of a validation daemon always. */
  lemma {:induction false} LockedExactly(validation: bool, es: seq<Event>)
    requires Distinct(es)
    ensures Run(validation, es).locked <==> validation || Held(validation, es)
    ensures Run(validation, es).suspended <==> Run(validation, es).locked && !validation
    decreases |es|
  {
    AlwaysQuiet(validation, es);
    if es != [] {
      hide Step, Held, Prepares, Quiet;
      LockedExactly(validation, es[..|es| - 1]);
      LockStep(validation, es);
      HeldStep(validation, es);
      QuietMeans(validation, Run(validation, es));
    }
  }

  lemma QuietMeans(validation: bool, s: State)
    requires Quiet(validation, s)
    ensures (validation ==> s.locked && !s.suspended) && (!validation ==> s.locked == s.suspended)
  {
  }

  // ---- The objects ----

  class DesktopUpdateGate {
    var locked: bool
    var mutations: int
    var schedulerRunning: bool

    constructor (validation: bool)
      ensures locked == validation && mutations == 0 && !schedulerRunning
    {
      locked, mutations, schedulerRunning := validation, 0, false;
    }

    /** True exactly when nothing was under way; the caller then suspends the runtime. */
    method Prepare(active: nat) returns (ok: bool)
      modifies this`locked
      ensures ok <==> !old(locked) && mutations == 0 && !schedulerRunning && active == 0
      ensures locked == (old(locked) || ok)
    {
      if locked || mutations != 0 || schedulerRunning || active != 0 {
        return false;
      }
      locked := true;
      ok := true;
    }
  }

  class Server {
    const validation: bool
    const gate: DesktopUpdateGate
    var tickInFlight: bool
    var suspended: bool
    var listeners: set<nat>
    ghost var log: seq<Event>

    constructor (validation: bool)
      ensures Valid() && this.validation == validation && log == [] && fresh(gate)
    {
      this.validation := validation;
      gate := new DesktopUpdateGate(validation);
      tickInFlight, suspended, listeners, log := false, false, {}, [];
    }

    function View(): State
      reads this, gate
    {
      State(gate.locked, gate.mutations, gate.schedulerRunning, tickInFlight, suspended, listeners)
    }

    /** The objects are in the state that the events so far lead to. */
    ghost predicate Valid()
      reads this, gate
    {
      View() == Run(validation, log)
    }

    /** A request arrives: answered 503 while locked, else counted until its response closes. */
    method OnRequest(id: nat, mutation: bool) returns (admitted: bool)
      requires Valid()
      modifies this`listeners, this`log, gate`mutations
      ensures Valid() && log == old(log) + [Request(id, mutation)]
      ensures admitted <==> !gate.locked
      ensures gate.mutations == old(gate.mutations) + if admitted && mutation then 1 else 0
    {
      log := log + [Request(id, mutation)];
      assert log[..|log| - 1] == old(log);
      if gate.locked {
        return false;
      }
      if mutation {
        gate.mutations := gate.mutations + 1;
        listeners := listeners + {id};
      }
      admitted := true;
    }

    method OnClose(id: nat)
      requires Valid()
      modifies this`listeners, this`log, gate`mutations
      ensures Valid() && log == old(log) + [Close(id)]
      ensures gate.mutations == old(gate.mutations) - if id in old(listeners) then 1 else 0
    {
      log := log + [Close(id)];
      assert log[..|log| - 1] == old(log);
      if id in listeners {
        listeners := listeners - {id};
        gate.mutations := gate.mutations - 1;
      }
    }

    method OnTimer() returns (starts: bool)
      requires Valid()
      modifies this`tickInFlight, this`log, gate`schedulerRunning
      ensures Valid() && log == old(log) + [TimerFires]
      ensures starts <==> !old(tickInFlight) && !gate.locked
    {
      log := log + [TimerFires];
      assert log[..|log| - 1] == old(log);
      if tickInFlight || gate.locked {
        return false;
      }
      tickInFlight := true;
      gate.schedulerRunning := true;
      starts := true;
    }

    method OnTickEnd()
      requires Valid()
      modifies this`tickInFlight, this`log, gate`schedulerRunning
      ensures Valid() && log == old(log) + [TickEnds] && !tickInFlight && !gate.schedulerRunning
    {
      log := log + [TickEnds];
      assert log[..|log| - 1] == old(log);
      tickInFlight := false;
      gate.schedulerRunning := false;
    }

    method OnPrepare(active: nat) returns (ok: bool)
      requires Valid()
      modifies this`suspended, this`log, gate`locked
      ensures Valid() && log == old(log) + [Prepare(active)]
      ensures ok <==> !old(gate.locked) && gate.mutations == 0 && !gate.schedulerRunning && active == 0
    {
      log := log + [Prepare(active)];
      assert log[..|log| - 1] == old(log);
      ok := gate.Prepare(active);
      if ok {
        suspended := true;
      }
    }

    method OnCancel()
      requires Valid()
      modifies this`suspended, this`log, gate`locked
      ensures Valid() && log == old(log) + [Cancel]
      ensures if validation then gate.locked == old(gate.locked) && suspended == old(suspended)
              else !gate.locked && !suspended
    {
      log := log + [Cancel];
      assert log[..|log| - 1] == old(log);
      if !validation {
        gate.locked := false;
        suspended := false;
      }
    }
  }
}
