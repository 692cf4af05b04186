/** Tasks handed over by other agents, and the input they send later: transactions that clients may repeat.
    Every transaction is one atomic change of the shared store, so any interleaving of any number of processes
    is a sequence of them, with changes made by the rest of the program in between. */
module Handoff {
  import opened Options
  import opened Text

  datatype Error =
    | Invalid              // a field that is missing, empty, too long or of the wrong type
    | Unauthorized
    | Gone                 // HANDOFF_GONE: the accepted task was deleted
    | NotFound | Unavailable | Mismatch | NotWaiting
    | StoreFailed          // a statement of the transaction threw
    | RollbackFailed       // an error after COMMIT, turned into that of a ROLLBACK without a transaction

  datatype Result<T> = Ok(value: T) | Err(error: Error)

  // ---- The store ----

  datatype TaskStatus = Pending | InProgress | TaskCompleted | TaskFailed | TaskCancelled
  datatype SessionStatus = Idle | Running | WaitingApproval | Completed | Failed | Unknown
  datatype Ending = NoEnding | EndedFailed | EndedAborted | EndedOtherwise

  /** Hashes of the three parts stand for the parts themselves. */
  datatype TaskKey = TaskKey(client: string, source: string, sourceTaskId: string)
  datatype InputKey = InputKey(client: string, task: nat, inputId: string)

  datatype Identity = Identity(key: TaskKey, bot: Option<string>)

  datatype Task = Task(identity: Option<Identity>, session: Option<nat>, status: TaskStatus)

  datatype Session = Session(status: SessionStatus, ending: Ending, asking: bool, messages: seq<string>)

  datatype Store = Store(
    tasks: map<nat, Task>, sessions: map<nat, Session>,
    handoffs: map<TaskKey, nat>, inputs: map<InputKey, string>,
    next: nat)  // ids from here on have never been given out

  // ---- Views ----

  datatype Status =
    | Queued | InWork | Done | FailedStatus | CancelledStatus | NeedsApproval | UnknownStatus | WaitingInput

  datatype Client = Client(id: string, defaultAgent: string, agents: set<string>, bots: set<string>)

  /** The status shown, decided by assignments of which the last one wins. */
  method StatusOf(task: Task, session: Option<Session>) returns (status: Status)
    ensures status == ShownStatus(task, session)
  {
    match task.status {
      case Pending => status := Queued;
      case InProgress => status := InWork;
      case TaskCompleted => status := Done;
      case TaskFailed => status := FailedStatus;
      case TaskCancelled => status := CancelledStatus;
    }
    var ending := if session.Some? then session.value.ending else NoEnding;
    if session.Some? && session.value.status.Running? {
      status := InWork;
    }
    if session.Some? && session.value.status.Completed? {
      status := Done;
    }
    if (session.Some? && session.value.status.Failed?) || ending.EndedFailed? {
      status := FailedStatus;
    }
    if session.Some? && session.value.status.WaitingApproval? {
      status := NeedsApproval;
    }
    if session.Some? && session.value.status.Unknown? {
      status := UnknownStatus;
    }
    if ending.EndedAborted? || task.status.TaskCancelled? {
      status := CancelledStatus;
    }
    if session.Some? && session.value.asking && (status.Queued? || status.InWork? || status.NeedsApproval?) {
      status := WaitingInput;
    }
  }

  function ShownStatus(task: Task, session: Option<Session>): Status {
    var ending := if session.Some? then session.value.ending else NoEnding;
    var settled :=
      if ending.EndedAborted? || task.status.TaskCancelled? then CancelledStatus
      else if session.Some? && session.value.status.Unknown? then UnknownStatus
      else if session.Some? && session.value.status.WaitingApproval? then NeedsApproval
      else if (session.Some? && session.value.status.Failed?) || ending.EndedFailed? then FailedStatus
      else if session.Some? && session.value.status.Completed? then Done
      else if session.Some? && session.value.status.Running? then InWork
      else match task.status
        case Pending => Queued
        case InProgress => InWork
        case TaskCompleted => Done
        case TaskFailed => FailedStatus
        case TaskCancelled => CancelledStatus;
    if session.Some? && session.value.asking && (settled.Queued? || settled.InWork? || settled.NeedsApproval?)
    then WaitingInput else settled
  }

  /** Input is wanted exactly while the session is asking and neither it nor the task has come to an end. */
  lemma WaitingExactly(task: Task, session: Option<Session>)
    ensures ShownStatus(task, session).WaitingInput? <==>
      && session.Some? && session.value.asking
      && !task.status.TaskCancelled? && !session.value.ending.EndedAborted?
      && (session.value.status.WaitingApproval?
          || (!session.value.ending.EndedFailed?
              && (session.value.status.Running?
                  || (session.value.status.Idle? && (task.status.Pending? || task.status.InProgress?)))))
  {
  }

  datatype Seen = Seen(status: Status, session: Option<nat>)

  function SessionOf(s: Store, task: Task): Option<Session> {
    if task.session.Some? && task.session.value in s.sessions then Some(s.sessions[task.session.value]) else None
  }

  /** A client sees its own tasks only, and those of a bot only while it may use the bot. */
  predicate Visible(s: Store, client: Client, id: nat) {
    && id in s.tasks && s.tasks[id].identity.Some?
    && s.tasks[id].identity.value.key.client == client.id
    && (s.tasks[id].identity.value.bot.Some? ==> s.tasks[id].identity.value.bot.value in client.bots)
  }

  function Look(s: Store, client: Client, id: nat): Result<Seen> {
    if Visible(s, client, id)
    then Ok(Seen(ShownStatus(s.tasks[id], SessionOf(s, s.tasks[id])), s.tasks[id].session))
    else Err(NotFound)
  }

  // ---- Requests ----

  datatype Field = Absent | Given(text: string) | Malformed

  function Required(f: Field, max: nat): Result<string> {
    if f.Given? && Trim(f.text) != "" && |f.text| <= max then Ok(Trim(f.text)) else Err(Invalid)
  }

  /** Fields whose absence the caller replaces. */
  function Optional(f: Field, max: nat, absent: string): Result<string> {
    if f.Absent? then Ok(absent) else Required(f, max)
  }

  /** What is accepted is trimmed and not empty, and sent again as it was understood it is understood the same:
      white space around a field makes no other key. */
  lemma RequiredIsStable(f: Field, max: nat)
    requires Required(f, max).Ok?
    ensures Trimmed(Required(f, max).value) && Required(f, max).value != "" && |Required(f, max).value| <= max
    ensures Required(Given(Required(f, max).value), max) == Required(f, max)
  {
    TrimIsTrimmed(f.text);
    TrimShortens(f.text);
  }

  datatype Body = Body(source: Field, sourceTaskId: Field, goal: Field, context: Field, bot: Field,
      agent: Field, title: Field)

  /** The bots that can be opened, those that may not work now, and the agents and bots that exist. */
  datatype Directory = Directory(openable: set<string>, stopped: set<string>, agents: set<string>, bots: set<string>)

  datatype Order = Order(key: TaskKey, bot: Option<string>, message: string)

  function Admit(dir: Directory, client: Client, b: Body): Result<Order> {
    var source, taskId, goal := Required(b.source, 160), Required(b.sourceTaskId, 256), Required(b.goal, 32000);
    var context, bot := Optional(b.context, 64000, ""), Optional(b.bot, 160, "");
    if source.Err? || taskId.Err? || goal.Err? || context.Err? || bot.Err? then Err(Invalid)
    else if bot.value != "" && !b.agent.Absent? then Err(Invalid)
    else if bot.value != "" && bot.value !in client.bots then Err(Unauthorized)
    else if bot.value != "" && bot.value !in dir.openable then Err(NotFound)
    else if bot.value != "" && bot.value in dir.stopped then Err(Unauthorized)
    else
      var agent := if bot.value != "" then bot else Optional(b.agent, 160, client.defaultAgent);
      if agent.Err? then Err(Invalid)
      else if bot.value == "" && (agent.value !in client.agents || agent.value in dir.bots) then Err(Unauthorized)
      else if agent.value !in dir.agents then Err(Invalid)
      else if Optional(b.title, 160, "").Err? then Err(Invalid)
      else Ok(Order(TaskKey(client.id, source.value, taskId.value),
                    if bot.value == "" then None else Some(bot.value),
                    if context.value == "" then goal.value
                    else goal.value + "\n\nContext supplied by the delegating Agent:\n" + context.value))
  }

  datatype Accepted = Accepted(task: nat, duplicate: bool, status: Status)

  function NewTask(o: Order, session: nat): Task { Task(Some(Identity(o.key, o.bot)), Some(session), Pending) }

  function NewSession(o: Order): Session { Session(Idle, NoEnding, false, [o.message]) }

  /** The store after an order has been taken on: one task, its session, and the record that it was. */
  function TakenOn(s: Store, o: Order): Store {
    Store(s.tasks[s.next := NewTask(o, s.next + 1)], s.sessions[s.next + 1 := NewSession(o)],
          s.handoffs[o.key := s.next], s.inputs, s.next + 2)
  }

  /** Submitting; `fault` counts the statements of the transaction before one that throws. */
  function Submitted(s: Store, dir: Directory, client: Client, b: Body, fault: nat): (Store, Result<Accepted>) {
    match Admit(dir, client, b)
    case Err(e) => (s, Err(e))
    case Ok(o) =>
      if fault == 0 then (s, Err(StoreFailed))
      else if o.key in s.handoffs then
        var t := s.handoffs[o.key];
        if t !in s.tasks then (s, Err(Gone))
        else if fault == 1 then (s, Err(StoreFailed))
        else if Look(s, client, t).Err? then (s, Err(RollbackFailed))
        else (s, Ok(Accepted(t, true, Look(s, client, t).value.status)))
      else if fault <= 5 then (s, Err(StoreFailed))
      else (TakenOn(s, o), Ok(Accepted(s.next, false, Queued)))
  }

  /** Input; `seen` is the view of the task read before the transaction began. */
  function Answered(s: Store, client: Client, id: nat, seen: Seen, message: Field, inputId: Field,
      fault: nat): (Store, Result<Status>) {
    if seen.session.None? then (s, Err(Unavailable))
    else if Required(message, 32000).Err? || Required(inputId, 256).Err? then (s, Err(Invalid))
    else
      var text, key := Required(message, 32000).value, InputKey(client.id, id, Required(inputId, 256).value);
      if fault == 0 then (s, Err(StoreFailed))
      else if key in s.inputs then
        if s.inputs[key] != text then (s, Err(Mismatch))
        else if fault == 1 then (s, Err(StoreFailed))
        else if Look(s, client, id).Err? then (s, Err(RollbackFailed))
        else (s, Ok(Look(s, client, id).value.status))
      else if !seen.status.WaitingInput? then (s, Err(NotWaiting))
      else if seen.session.value !in s.sessions || fault <= 4 then (s, Err(StoreFailed))
      else
        var s' := Recorded(s, key, seen.session.value, text);
        (s', if Look(s', client, id).Ok? then Ok(Look(s', client, id).value.status) else Err(NotFound))
  }

  /** The answer is appended, the question withdrawn, and the input id spent. */
  function Recorded(s: Store, key: InputKey, session: nat, text: string): Store
    requires session in s.sessions
  {
    var before := s.sessions[session];
    s.(sessions := s.sessions[session := before.(messages := before.messages + [text], asking := false)],
       inputs := s.inputs[key := text])
  }

  // ---- The service, statement by statement ----

  class Service {
    var store: Store

    constructor (store: Store)
      ensures this.store == store
    {
      this.store := store;
    }

    method ExternalTaskView(client: Client, id: nat) returns (r: Result<Seen>)
      ensures r == Look(store, client, id)
    {
      if id !in store.tasks { return Err(NotFound); }
      var task := store.tasks[id];
      if task.identity.None? || task.identity.value.key.client != client.id { return Err(NotFound); }
      if task.identity.value.bot.Some? && task.identity.value.bot.value !in client.bots { return Err(NotFound); }
      var status := StatusOf(task, SessionOf(store, task));
      r := Ok(Seen(status, task.session));
    }

    method SubmitExternalTask(dir: Directory, client: Client, b: Body, fault: nat) returns (r: Result<Accepted>)
      modifies this
      ensures (store, r) == Submitted(old(store), dir, client, b, fault)
      ensures r.Err? ==> store == old(store)
      ensures r.Ok? && !r.value.duplicate <==>
        Allowed(dir, client, b) && KeyIn(client, b) !in old(store).handoffs && fault > 5
    {
      CreatedExactly(store, dir, client, b, fault);
      hide Admit, Look, Allowed, FieldsUsable, Trim;
      var admitted := Admit(dir, client, b);
      if admitted.Err? { return Err(admitted.error); }
      var o := admitted.value;
      var saved := store;  // BEGIN IMMEDIATE
      if fault == 0 { return Err(StoreFailed); }
      if o.key in store.handoffs {
        var taskId := store.handoffs[o.key];
        if taskId !in store.tasks { return Err(Gone); }
        if fault == 1 { return Err(StoreFailed); }
        var view := ExternalTaskView(client, taskId);
        if view.Err? { return Err(RollbackFailed); }
        return Ok(Accepted(taskId, true, view.value.status));
      }
      if fault == 1 { return Err(StoreFailed); }
      var taskId := store.next;
      store := store.(tasks := store.tasks[taskId := Task(None, None, Pending)], next := store.next + 1);
      if fault == 2 { store := saved; return Err(StoreFailed); }
      var sessionId := store.next;
      store := store.(sessions := store.sessions[sessionId := NewSession(o)], next := store.next + 1);
      if fault == 3 { store := saved; return Err(StoreFailed); }
      store := store.(tasks := store.tasks[taskId := NewTask(o, sessionId)]);
      if fault == 4 { store := saved; return Err(StoreFailed); }
      store := store.(handoffs := store.handoffs[o.key := taskId]);
      if fault == 5 { store := saved; return Err(StoreFailed); }
      assert store.tasks == TakenOn(saved, o).tasks;
      r := Ok(Accepted(taskId, false, Queued));
    }

    method ExternalTaskInput(client: Client, id: nat, seen: Seen, message: Field, inputId: Field,
        fault: nat) returns (r: Result<Status>)
      modifies this
      ensures (store, r) == Answered(old(store), client, id, seen, message, inputId, fault)
    {
      if seen.session.None? { return Err(Unavailable); }
      if Required(message, 32000).Err? || Required(inputId, 256).Err? { return Err(Invalid); }
      var text, key := Required(message, 32000).value, InputKey(client.id, id, Required(inputId, 256).value);
      var saved := store;  // BEGIN IMMEDIATE
      if fault == 0 { return Err(StoreFailed); }
      if key in store.inputs {
        if store.inputs[key] != text { return Err(Mismatch); }
        if fault == 1 { return Err(StoreFailed); }
        var view := ExternalTaskView(client, id);
        if view.Err? { return Err(RollbackFailed); }
        return Ok(view.value.status);
      }
      if !seen.status.WaitingInput? { return Err(NotWaiting); }
      var session := seen.session.value;
      if session !in store.sessions || fault == 1 { return Err(StoreFailed); }
      var record := store.sessions[session];
      store := store.(sessions := store.sessions[session := record.(messages := record.messages + [text])]);
      if fault == 2 { store := saved; return Err(StoreFailed); }
      record := store.sessions[session].(asking := false);
      store := store.(sessions := store.sessions[session := record]);
      if fault == 3 { store := saved; return Err(StoreFailed); }
      store := store.(inputs := store.inputs[key := text]);
      if fault == 4 { store := saved; return Err(StoreFailed); }
      assert store == Recorded(saved, key, session, text);
      var view := ExternalTaskView(client, id);
      r := if view.Ok? then Ok(view.value.status) else Err(NotFound);
    }
  }

  // ---- Runs ----

  datatype Event =
    | Submit(dir: Directory, client: Client, body: Body, fault: nat)
    | Input(client: Client, task: nat, seen: Seen, message: Field, inputId: Field, fault: nat)
    | Elsewhere(after: Store)  // the rest of the program: sessions run, tasks end, tasks are deleted

  /** The rest of the program keeps the records of both kinds, never reuses an id and never writes an identity. */
  ghost predicate MayBecome(s: Store, s': Store) {
    && s'.handoffs == s.handoffs && s'.inputs == s.inputs && s.next <= s'.next
    && forall t :: t in s'.tasks ==>
         t < s'.next && if t in s.tasks then s'.tasks[t].identity == s.tasks[t].identity
                        else t >= s.next && s'.tasks[t].identity.None?
  }

  ghost function Step(s: Store, e: Event): Store {
    match e
    case Submit(dir, client, body, fault) => Submitted(s, dir, client, body, fault).0
    case Input(client, task, seen, message, inputId, fault) =>
      Answered(s, client, task, seen, message, inputId, fault).0
    case Elsewhere(after) => if MayBecome(s, after) then after else s
  }

  ghost function Run(s: Store, es: seq<Event>): Store
    decreases |es|
  {
    if es == [] then s else Step(Run(s, es[..|es| - 1]), es[|es| - 1])
  }

  /** Recorded tasks have been given out, one to each key, and those that still exist carry the key. */
  predicate Inv(s: Store) {
    && (forall t :: t in s.tasks ==> t < s.next)
    && (forall k :: k in s.handoffs ==> s.handoffs[k] < s.next)
    && (forall k, l :: k in s.handoffs && l in s.handoffs && s.handoffs[k] == s.handoffs[l] ==> k == l)
    && (forall k :: k in s.handoffs && s.handoffs[k] in s.tasks ==>
          s.tasks[s.handoffs[k]].identity.Some? && s.tasks[s.handoffs[k]].identity.value.key == k)
    && (forall t :: t in s.tasks && s.tasks[t].identity.Some? ==>
          s.tasks[t].identity.value.key in s.handoffs && s.handoffs[s.tasks[t].identity.value.key] == t)
  }

  lemma TakenOnKeepsInv(s: Store, o: Order)
    requires Inv(s) && o.key !in s.handoffs
    ensures Inv(TakenOn(s, o))
  {
  }

  lemma ElsewhereKeepsInv(s: Store, s': Store)
    requires Inv(s) && MayBecome(s, s')
    ensures Inv(s')
  {
  }

  lemma StepKeepsInv(s: Store, e: Event)
    requires Inv(s)
    ensures Inv(Step(s, e))
  {
    hide Admit, Look, Required, TakenOn, Inv, MayBecome;
    match e
    case Submit(dir, client, body, fault) =>
      if Admit(dir, client, body).Ok? && Admit(dir, client, body).value.key !in s.handoffs {
        TakenOnKeepsInv(s, Admit(dir, client, body).value);
      }
    case Input(client, task, seen, message, inputId, fault) =>
      InputKeepsInv(s, client, task, seen, message, inputId, fault);
    case Elsewhere(after) =>
      if MayBecome(s, after) {
        ElsewhereKeepsInv(s, after);
      }
  }

  lemma InputKeepsInv(s: Store, client: Client, id: nat, seen: Seen, message: Field, inputId: Field, fault: nat)
    requires Inv(s)
    ensures Inv(Answered(s, client, id, seen, message, inputId, fault).0)
  {
    hide Look, Required;
  }

  lemma {:induction false} RunKeepsInv(s: Store, es: seq<Event>)
    requires Inv(s)
    ensures Inv(Run(s, es))
    decreases |es|
  {
    hide Step, Inv;
    if es != [] {
      RunKeepsInv(s, es[..|es| - 1]);
      StepKeepsInv(Run(s, es[..|es| - 1]), es[|es| - 1]);
    }
  }

  /** Both kinds of record are written once. */
  predicate Extends(s: Store, s': Store) {
    && (forall k :: k in s.handoffs ==> k in s'.handoffs && s'.handoffs[k] == s.handoffs[k])
    && (forall k :: k in s.inputs ==> k in s'.inputs && s'.inputs[k] == s.inputs[k])
    && s.next <= s'.next && forall t :: t in s'.tasks && t < s.next ==> t in s.tasks
  }

  lemma StepExtends(s: Store, e: Event)
    ensures Extends(s, Step(s, e))
  {
    hide Admit, Look, Required;
  }

  lemma {:induction false} RunExtends(s: Store, es: seq<Event>)
    ensures Extends(s, Run(s, es))
    decreases |es|
  {
    hide Step, Extends;
    if es == [] {
      assert Extends(s, s) by { SelfExtends(s); }
    } else {
      RunExtends(s, es[..|es| - 1]);
      StepExtends(Run(s, es[..|es| - 1]), es[|es| - 1]);
      ExtendsTrans(s, Run(s, es[..|es| - 1]), Run(s, es));
    }
  }

  lemma SelfExtends(s: Store)
    ensures Extends(s, s)
  {
  }

  lemma ExtendsTrans(s: Store, t: Store, u: Store)
    requires Extends(s, t) && Extends(t, u)
    ensures Extends(s, u)
  {
  }

  lemma RunSplits(s: Store, es: seq<Event>, i: nat, j: nat)
    requires i <= j <= |es|
    ensures Run(s, es[..j]) == Run(Run(s, es[..i]), es[i..j])
    decreases j
  {
    hide Step;
    if i < j {
      RunSplits(s, es, i, j - 1);
      assert es[..j][..j - 1] == es[..j - 1] && es[i..j][..j - 1 - i] == es[i..j - 1];
    }
  }

  /** Records made by event `i` are there at every later event `j`. */
  lemma LaterExtends(s: Store, es: seq<Event>, i: nat, j: nat)
    requires i < j <= |es|
    ensures Extends(Run(s, es[..i + 1]), Run(s, es[..j]))
    ensures Run(s, es[..i + 1]) == Step(Run(s, es[..i]), es[i])
  {
    hide Step, Extends;
    RunSplits(s, es, i + 1, j);
    RunExtends(Run(s, es[..i + 1]), es[i + 1..j]);
    assert es[..i + 1][..i] == es[..i];
  }

  // ---- Exactly-once handoff ----

  function AnswerTo(s: Store, e: Event): Result<Accepted>
    requires e.Submit?
  {
    Submitted(s, e.dir, e.client, e.body, e.fault).1
  }

  /** The key of a submission that passes the checks. */
  function KeyOf(e: Event): Option<TaskKey> {
    if e.Submit? && Admit(e.dir, e.client, e.body).Ok? then Some(Admit(e.dir, e.client, e.body).value.key) else None
  }

  ghost predicate Creates(s: Store, es: seq<Event>, i: nat, key: TaskKey) {
    && i < |es| && KeyOf(es[i]) == Some(key)
    && AnswerTo(Run(s, es[..i]), es[i]).Ok? && !AnswerTo(Run(s, es[..i]), es[i]).value.duplicate
  }

  /** What one submission does: accepted ones return the recorded task; creating and recording go together. */
  lemma SubmissionMeans(s: Store, e: Event)
    requires KeyOf(e).Some?
    ensures var key, s', a := KeyOf(e).value, Step(s, e), AnswerTo(s, e);
      && (a.Ok? ==> key in s'.handoffs && s'.handoffs[key] == a.value.task && a.value.task in s'.tasks)
      && (a.Ok? && a.value.duplicate ==> key in s.handoffs && s' == s)
      && (a.Ok? && !a.value.duplicate ==>
            && key !in s.handoffs && s'.tasks.Keys == s.tasks.Keys + {s.next}
            && s'.handoffs == s.handoffs[key := s.next] && a.value.task == s.next)
      && (a.Err? ==> s' == s)
      && (key in s.handoffs && s.handoffs[key] !in s.tasks ==> a.Err? && (e.fault > 0 ==> a.error.Gone?))
  {
    hide Look, Admit;
  }

  /** At most one task is ever created for a key, whatever is repeated, by any number of processes. */
  lemma CreatedAtMostOnce(s: Store, es: seq<Event>, i: nat, j: nat, key: TaskKey)
    requires Creates(s, es, i, key) && Creates(s, es, j, key)
    ensures i == j
  {
    hide Step, Run, Submitted, Admit;
    if i < j {
      SubmissionMeans(Run(s, es[..i]), es[i]);
      SubmissionMeans(Run(s, es[..j]), es[j]);
      LaterExtends(s, es, i, j);
    } else if j < i {
      CreatedAtMostOnce(s, es, j, i, key);
    }
  }

  /** All accepted submissions with one key return one task, and all after the first are duplicates. */
  lemma {:induction false} DuplicatesReturnTheTask(s: Store, es: seq<Event>, i: nat, j: nat)
    requires i < j < |es| && KeyOf(es[i]).Some? && KeyOf(es[j]) == KeyOf(es[i])
    requires AnswerTo(Run(s, es[..i]), es[i]).Ok? && AnswerTo(Run(s, es[..j]), es[j]).Ok?
    ensures AnswerTo(Run(s, es[..j]), es[j]).value.task == AnswerTo(Run(s, es[..i]), es[i]).value.task
    ensures AnswerTo(Run(s, es[..j]), es[j]).value.duplicate
  {
    hide Step, Run, Submitted, Admit;
    SubmissionMeans(Run(s, es[..i]), es[i]);
    SubmissionMeans(Run(s, es[..j]), es[j]);
    LaterExtends(s, es, i, j);
  }

  /** Once the recorded task has been deleted it never comes back, and its key is refused for ever. */
  lemma DeletedStaysGone(s: Store, es: seq<Event>, key: TaskKey, j: nat)
    requires Inv(s) && key in s.handoffs && s.handoffs[key] !in s.tasks
    requires j < |es| && KeyOf(es[j]) == Some(key)
    ensures AnswerTo(Run(s, es[..j]), es[j]).Err? && Step(Run(s, es[..j]), es[j]) == Run(s, es[..j])
    ensures es[j].fault > 0 ==> AnswerTo(Run(s, es[..j]), es[j]).error.Gone?
  {
    hide Step, Run, Submitted, Admit;
    RunExtends(s, es[..j]);
    SubmissionMeans(Run(s, es[..j]), es[j]);
  }

  /** A submission with its key in the record is accepted exactly when the client can see the task and nothing
      throws. */
  lemma DuplicateAcceptedExactly(s: Store, e: Event)
    requires Inv(s) && KeyOf(e).Some? && KeyOf(e).value in s.handoffs
    ensures var t := s.handoffs[KeyOf(e).value];
      AnswerTo(s, e).Ok? <==>
        (t in s.tasks && e.fault > 1
         && (s.tasks[t].identity.value.bot.Some? ==> s.tasks[t].identity.value.bot.value in e.client.bots))
  {
    hide Required, Optional;
  }

  // ---- Who may hand over what, told from the request alone ----

  /** A field that is there, not blank and not too long. */
  predicate Usable(f: Field, max: nat) { f.Given? && Trim(f.text) != "" && |f.text| <= max }

  predicate Omissible(f: Field, max: nat) { f.Absent? || Usable(f, max) }

  lemma RequiredExactly(f: Field, max: nat)
    ensures Required(f, max) == if Usable(f, max) then Ok(Trim(f.text)) else Err(Invalid)
  {
  }

  predicate FieldsUsable(b: Body) {
    && Usable(b.source, 160) && Usable(b.sourceTaskId, 256) && Usable(b.goal, 32000)
    && Omissible(b.context, 64000) && Omissible(b.bot, 160) && Omissible(b.title, 160)
  }

  /** The client may use the bot, which can be opened and is at work, and no agent is named as well. */
  predicate BotAllowed(dir: Directory, client: Client, b: Body) {
    && b.bot.Given? && b.agent.Absent?
    && Trim(b.bot.text) in client.bots && Trim(b.bot.text) in dir.openable && Trim(b.bot.text) !in dir.stopped
    && Trim(b.bot.text) in dir.agents
  }

  function AgentOf(client: Client, b: Body): string {
    if b.agent.Given? then Trim(b.agent.text) else client.defaultAgent
  }

  /** The client may use the agent, its default one if it names none, and the agent is there and is no bot. */
  predicate AgentAllowed(dir: Directory, client: Client, b: Body) {
    && b.bot.Absent? && Omissible(b.agent, 160)
    && AgentOf(client, b) in client.agents && AgentOf(client, b) !in dir.bots && AgentOf(client, b) in dir.agents
  }

  predicate Allowed(dir: Directory, client: Client, b: Body) {
    FieldsUsable(b) && (BotAllowed(dir, client, b) || AgentAllowed(dir, client, b))
  }

  function KeyIn(client: Client, b: Body): TaskKey
    requires FieldsUsable(b)
  {
    TaskKey(client.id, Trim(b.source.text), Trim(b.sourceTaskId.text))
  }

  /** What the session of a new task begins with. */
  function FirstMessage(b: Body): string
    requires FieldsUsable(b)
  {
    Trim(b.goal.text)
    + if b.context.Absent? then "" else "\n\nContext supplied by the delegating Agent:\n" + Trim(b.context.text)
  }

  lemma FieldsRequired(b: Body)
    ensures Required(b.source, 160) == if Usable(b.source, 160) then Ok(Trim(b.source.text)) else Err(Invalid)
    ensures Required(b.sourceTaskId, 256) ==
      if Usable(b.sourceTaskId, 256) then Ok(Trim(b.sourceTaskId.text)) else Err(Invalid)
    ensures Required(b.goal, 32000) == if Usable(b.goal, 32000) then Ok(Trim(b.goal.text)) else Err(Invalid)
    ensures Required(b.context, 64000) == if Usable(b.context, 64000) then Ok(Trim(b.context.text)) else Err(Invalid)
    ensures Required(b.bot, 160) == if Usable(b.bot, 160) then Ok(Trim(b.bot.text)) else Err(Invalid)
    ensures Required(b.agent, 160) == if Usable(b.agent, 160) then Ok(Trim(b.agent.text)) else Err(Invalid)
    ensures Required(b.title, 160) == if Usable(b.title, 160) then Ok(Trim(b.title.text)) else Err(Invalid)
  {
    hide Trim;
  }

  lemma AllowedExactly(dir: Directory, client: Client, b: Body)
    ensures Admit(dir, client, b).Ok? <==> Allowed(dir, client, b)
  {
    FieldsRequired(b);
    hide Required, Trim;
  }

  lemma AdmittedOrder(dir: Directory, client: Client, b: Body)
    requires Allowed(dir, client, b) && Admit(dir, client, b).Ok?
    ensures Admit(dir, client, b).value ==
      Order(KeyIn(client, b), if b.bot.Given? then Some(Trim(b.bot.text)) else None, FirstMessage(b))
  {
    FieldsRequired(b);
    var goal, intro := Trim(b.goal.text), "\n\nContext supplied by the delegating Agent:\n";
    assert goal + "" == goal;
    if b.context.Given? {
      assert goal + intro + Trim(b.context.text) == goal + (intro + Trim(b.context.text));
    }
    hide Required, Trim;
  }

  lemma AdmittedExactly(dir: Directory, client: Client, b: Body)
    ensures Admit(dir, client, b).Ok? <==> Allowed(dir, client, b)
    ensures Allowed(dir, client, b) ==>
      Admit(dir, client, b).value ==
        Order(KeyIn(client, b), if b.bot.Given? then Some(Trim(b.bot.text)) else None, FirstMessage(b))
  {
    AllowedExactly(dir, client, b);
    hide Admit, FirstMessage;
    if Allowed(dir, client, b) {
      AdmittedOrder(dir, client, b);
    }
  }

  /** A submission creates a task exactly if the request is well-formed, the client may use the bot or the agent it
      names, the key is new and no statement throws. The task is the client's, for that bot or none, and its session
      has been told the goal, and the context if there is one. */
  lemma SubmissionCreatesExactly(s: Store, dir: Directory, client: Client, b: Body, fault: nat)
    ensures var (s', a) := Submitted(s, dir, client, b, fault);
      && (a.Ok? && !a.value.duplicate <==> Allowed(dir, client, b) && KeyIn(client, b) !in s.handoffs && fault > 5)
      && (a.Ok? && !a.value.duplicate ==>
            && a.value.task == s.next && s'.handoffs == s.handoffs[KeyIn(client, b) := s.next]
            && s'.tasks == s.tasks[s.next := Task(
                 Some(Identity(KeyIn(client, b), if b.bot.Given? then Some(Trim(b.bot.text)) else None)),
                 Some(s.next + 1), Pending)]
            && s'.sessions == s.sessions[s.next + 1 := Session(Idle, NoEnding, false, [FirstMessage(b)])]
            && s'.inputs == s.inputs && s'.next == s.next + 2)
      && (!(a.Ok? && !a.value.duplicate) ==> s' == s)
  {
    AdmittedExactly(dir, client, b);
    hide Admit, Trim, Allowed, FirstMessage, Look;
  }

  lemma CreatedExactly(s: Store, dir: Directory, client: Client, b: Body, fault: nat)
    ensures var a := Submitted(s, dir, client, b, fault).1;
      a.Ok? && !a.value.duplicate <==> Allowed(dir, client, b) && KeyIn(client, b) !in s.handoffs && fault > 5
  {
    hide Allowed, Submitted, FirstMessage;
    SubmissionCreatesExactly(s, dir, client, b, fault);
  }

  /** What the client is told of it is what it sees. */
  lemma NewTaskIsSeen(s: Store, dir: Directory, client: Client, b: Body, fault: nat)
    requires Submitted(s, dir, client, b, fault).1.Ok?
    ensures var (s', a) := Submitted(s, dir, client, b, fault);
      Look(s', client, a.value.task).Ok? && Look(s', client, a.value.task).value.status == a.value.status
  {
    AdmittedExactly(dir, client, b);
    hide Admit, Trim, FirstMessage;
  }

  /** A request that is refused before the transaction is unauthorized exactly if it names a bot that is not the
      client's or is stopped, or an agent that is not the client's or is a bot. */
  lemma UnauthorizedExactly(dir: Directory, client: Client, b: Body)
    requires FieldsUsable(b)
    ensures Admit(dir, client, b) == Err(Unauthorized) <==>
      if b.bot.Given?
      then b.agent.Absent? && (Trim(b.bot.text) !in client.bots
                               || (Trim(b.bot.text) in dir.openable && Trim(b.bot.text) in dir.stopped))
      else Omissible(b.agent, 160) && (AgentOf(client, b) !in client.agents || AgentOf(client, b) in dir.bots)
  {
    FieldsRequired(b);
    hide Required, Trim;
  }

  /** In every run from an empty store, a task that a client can see is one that it has handed over itself, and the bot
      it belongs to, if any, is one that the client may use now. */
  lemma VisibleTasksAreOwn(es: seq<Event>, client: Client, t: nat) returns (i: nat)
    requires Look(Run(Empty(), es), client, t).Ok?
    ensures i < |es| && es[i].Submit? && es[i].client.id == client.id
    ensures AnswerTo(Run(Empty(), es[..i]), es[i]).Ok? && AnswerTo(Run(Empty(), es[..i]), es[i]).value.task == t
    ensures var bot := Run(Empty(), es).tasks[t].identity.value.bot; bot.Some? ==> bot.value in client.bots
  {
    RunKeepsInv(Empty(), es);
    i := Creator(es, Run(Empty(), es).tasks[t].identity.value.key);
  }

  /** Every record was made by an accepted submission with that key. */
  lemma {:induction false} Creator(es: seq<Event>, key: TaskKey) returns (i: nat)
    requires key in Run(Empty(), es).handoffs
    ensures i < |es| && KeyOf(es[i]) == Some(key) && es[i].client.id == key.client
    ensures AnswerTo(Run(Empty(), es[..i]), es[i]).Ok?
    ensures AnswerTo(Run(Empty(), es[..i]), es[i]).value.task == Run(Empty(), es).handoffs[key]
    decreases |es|
  {
    hide Step, Submitted, Admit;
    var n := |es| - 1;
    var s := Run(Empty(), es[..n]);
    if key in s.handoffs {
      i := Creator(es[..n], key);
      assert es[..n][..i] == es[..i];
      StepExtends(s, es[n]);
    } else {
      RecordedBySubmission(s, es[n], key);
      SubmissionMeans(s, es[n]);
      i := n;
    }
  }

  lemma RecordedBySubmission(s: Store, e: Event, key: TaskKey)
    requires key !in s.handoffs && key in Step(s, e).handoffs
    ensures KeyOf(e) == Some(key) && AnswerTo(s, e).Ok? && e.client.id == key.client
  {
    if KeyOf(e).Some? {
      AdmittedKey(e);
    }
    hide Look, Required, Optional, Admit;
  }

  /** Each status, told from the task and its session alone. */
  lemma StatusExactly(task: Task, session: Option<Session>)
    ensures var shown := ShownStatus(task, session);
      var st := if session.Some? then session.value.status else Idle;
      var ending := if session.Some? then session.value.ending else NoEnding;
      var asks := session.Some? && session.value.asking;
      var over := task.status.TaskCancelled? || ending.EndedAborted?;
      var failed := st.Failed? || ending.EndedFailed?;
      var quiet := st.Idle? && !ending.EndedFailed?;
      && (shown.CancelledStatus? <==> over)
      && (shown.UnknownStatus? <==> !over && st.Unknown?)
      && (shown.NeedsApproval? <==> !over && st.WaitingApproval? && !asks)
      && (shown.FailedStatus? <==>
            !over && !st.Unknown? && !st.WaitingApproval? && (failed || (st.Idle? && task.status.TaskFailed?)))
      && (shown.Done? <==> !over && !ending.EndedFailed? && (st.Completed? || (st.Idle? && task.status.TaskCompleted?)))
      && (shown.InWork? <==>
            !over && !asks && !ending.EndedFailed? && (st.Running? || (st.Idle? && task.status.InProgress?)))
      && (shown.Queued? <==> !over && !asks && quiet && task.status.Pending?)
  {
  }

  // ---- Exactly-once input ----

  function ReplyTo(s: Store, e: Event): Result<Status>
    requires e.Input?
  {
    Answered(s, e.client, e.task, e.seen, e.message, e.inputId, e.fault).1
  }

  /** The key of an input whose fields are well-formed. */
  function InputOf(e: Event): Option<InputKey> {
    if e.Input? && Required(e.inputId, 256).Ok? && Required(e.message, 32000).Ok?
    then Some(InputKey(e.client.id, e.task, Required(e.inputId, 256).value)) else None
  }

  /** The input's own text is put at the end of a session's messages. */
  predicate Appends(s: Store, s': Store, session: nat, text: string) {
    && session in s.sessions && s'.sessions.Keys == s.sessions.Keys
    && s'.sessions[session].messages == s.sessions[session].messages + [text] && !s'.sessions[session].asking
    && (forall k :: k in s.sessions && k != session ==> s'.sessions[k] == s.sessions[k])
    && s'.tasks == s.tasks && s'.handoffs == s.handoffs && s'.next == s.next
  }

  /** An input either leaves the whole store as it was, or appends its message once and spends its id. */
  lemma InputMeans(s: Store, e: Event)
    requires InputOf(e).Some?
    ensures var key, text, s' := InputOf(e).value, Required(e.message, 32000).value, Step(s, e);
      && (s' == s || (key !in s.inputs && e.seen.status.WaitingInput? && e.seen.session.Some?
                      && Appends(s, s', e.seen.session.value, text) && s'.inputs == s.inputs[key := text]))
      && (ReplyTo(s, e).Ok? ==> key in s'.inputs && s'.inputs[key] == text)
      && (key in s.inputs ==> s' == s && (s.inputs[key] != text ==> ReplyTo(s, e).Err?))
      && (key in s.inputs && s.inputs[key] != text && e.fault > 0 && e.seen.session.Some? ==>
            ReplyTo(s, e).error.Mismatch?)
  {
    hide Look, Required;
  }

  /** For each client, task and input id at most one message is ever appended. */
  lemma AppendedAtMostOnce(s: Store, es: seq<Event>, i: nat, j: nat)
    requires i < j < |es| && InputOf(es[i]).Some? && InputOf(es[j]) == InputOf(es[i])
    requires Step(Run(s, es[..i]), es[i]) != Run(s, es[..i])
    ensures Step(Run(s, es[..j]), es[j]) == Run(s, es[..j])
  {
    hide Step, Run, Required, Appends;
    InputMeans(Run(s, es[..i]), es[i]);
    InputMeans(Run(s, es[..j]), es[j]);
    LaterExtends(s, es, i, j);
  }

  /** A repeat of an accepted input changes nothing, and one with another text is rejected. */
  lemma RepeatsAreHarmless(s: Store, es: seq<Event>, i: nat, j: nat)
    requires i < j < |es| && InputOf(es[i]).Some? && InputOf(es[j]) == InputOf(es[i])
    requires ReplyTo(Run(s, es[..i]), es[i]).Ok?
    ensures Step(Run(s, es[..j]), es[j]) == Run(s, es[..j])
    ensures Required(es[j].message, 32000) != Required(es[i].message, 32000) ==> ReplyTo(Run(s, es[..j]), es[j]).Err?
  {
    hide Step, Run, Required, Appends, Answered;
    InputMeans(Run(s, es[..i]), es[i]);
    InputMeans(Run(s, es[..j]), es[j]);
    LaterExtends(s, es, i, j);
  }

  /** What an input is answered, told from the request and the store. */
  lemma RepliesExactly(s: Store, e: Event)
    requires e.Input?
    ensures var r := ReplyTo(s, e);
      var usable := Usable(e.message, 32000) && Usable(e.inputId, 256);
      && (r == Err(Unavailable) <==> e.seen.session.None?)
      && (r == Err(Invalid) <==> e.seen.session.Some? && !usable)
      && (e.seen.session.Some? && usable ==>
            var key := InputKey(e.client.id, e.task, Trim(e.inputId.text));
            && InputOf(e) == Some(key)
            && (r == Err(Mismatch) <==> e.fault > 0 && key in s.inputs && s.inputs[key] != Trim(e.message.text))
            && (r == Err(NotWaiting) <==> e.fault > 0 && key !in s.inputs && !e.seen.status.WaitingInput?)
            && (Step(s, e) != s ==> Step(s, e).inputs == s.inputs[key := Trim(e.message.text)]))
  {
    RequiredExactly(e.message, 32000);
    RequiredExactly(e.inputId, 256);
    if InputOf(e).Some? {
      InputMeans(s, e);
    }
    hide Required, Trim, Look;
  }

  // ---- The view that an input relies on is read before its transaction ----

  /** Read in the same moment, it makes one answer per question: a second input finds nothing asked. */
  lemma FreshViewAnswersOnce(s: Store, e: Event, f: Event)
    requires InputOf(e).Some? && InputOf(f).Some? && InputOf(f) != InputOf(e) && f.task == e.task
    requires Look(s, e.client, e.task) == Ok(e.seen) && Step(s, e) != s
    requires Look(Step(s, e), f.client, f.task) == Ok(f.seen)
    ensures !f.seen.status.WaitingInput? && (InputOf(f).value !in s.inputs ==> Step(Step(s, e), f) == Step(s, e))
  {
    hide Required;
  }

  /** An input is appended exactly if its id is new, the view it relies on was waiting, the session is there and
      nothing throws. */
  lemma AppendsExactly(s: Store, e: Event)
    requires InputOf(e).Some?
    ensures Step(s, e) != s <==>
      && InputOf(e).value !in s.inputs && e.seen.status.WaitingInput? && e.fault > 4
      && e.seen.session.Some? && e.seen.session.value in s.sessions
  {
    hide Look, Required;
  }

  /** After one answer a second one to the same session is appended exactly if the view it relies on is a stale one,
      which still shows the task waiting. */
  lemma SecondAnswerExactly(s: Store, e: Event, f: Event)
    requires InputOf(e).Some? && InputOf(f).Some? && InputOf(f) != InputOf(e) && InputOf(f).value !in s.inputs
    requires Step(s, e) != s && f.seen.session == e.seen.session && f.fault > 4
    ensures Step(Step(s, e), f) != Step(s, e) <==> f.seen.status.WaitingInput?
  {
    hide Step, InputOf, Required;
    AppendsExactly(s, e);
    AppendsExactly(Step(s, e), f);
    InputMeans(s, e);
  }

  /** So two processes that read the view before either has answered let two different answers to one question
      through. */
  lemma StaleViewAnswersTwice(s: Store, e: Event, f: Event)
    requires InputOf(e).Some? && InputOf(f).Some? && InputOf(f) != InputOf(e) && f.task == e.task
    requires f.client == e.client
    requires InputOf(e).value !in s.inputs && InputOf(f).value !in s.inputs && e.fault > 4 && f.fault > 4
    requires Look(s, e.client, e.task) == Ok(e.seen) && f.seen == e.seen && e.seen.status.WaitingInput?
    ensures Step(Step(s, e), f).sessions[e.seen.session.value].messages
         == s.sessions[e.seen.session.value].messages
            + [Required(e.message, 32000).value, Required(f.message, 32000).value]
    ensures ReplyTo(s, e).Ok? && ReplyTo(Step(s, e), f).Ok?
  {
    hide Required;
  }

  // ---- Errors after COMMIT ----

  /** A submission ends in the error of a ROLLBACK without a transaction exactly when the task recorded for its key
      exists and belongs to a bot that the client may no longer use. The store is as it was. */
  lemma SubmitRollbackFailsExactly(s: Store, e: Event)
    requires Inv(s) && e.Submit?
    ensures AnswerTo(s, e) == Err(RollbackFailed) <==>
      && KeyOf(e).Some? && KeyOf(e).value in s.handoffs && e.fault > 1
      && var t := s.handoffs[KeyOf(e).value];
         && t in s.tasks
         && s.tasks[t].identity.value.bot.Some? && s.tasks[t].identity.value.bot.value !in e.client.bots
    ensures AnswerTo(s, e) == Err(RollbackFailed) ==> Step(s, e) == s
  {
    if KeyOf(e).Some? {
      AdmittedKey(e);
    }
    AdmittedErrors(e);
    hide Admit, Required, Optional;
  }

  lemma AdmittedKey(e: Event)
    requires KeyOf(e).Some?
    ensures KeyOf(e).value.client == e.client.id
  {
    hide Required, Optional;
  }

  lemma AdmittedErrors(e: Event)
    requires e.Submit?
    ensures Admit(e.dir, e.client, e.body) != Err(RollbackFailed)
  {
    hide Required, Optional;
  }

  /** That happens whenever a task was taken on for a bot, and the client repeats the submission after losing
      the bot. */
  lemma LosingTheBotFailsInRollback(s: Store, e: Event, f: Event)
    requires Inv(s) && e.Submit? && f.Submit? && KeyOf(e).Some? && KeyOf(e).value !in s.handoffs && e.fault > 5
    requires var o := Admit(e.dir, e.client, e.body).value; o.bot.Some? && o.bot.value !in f.client.bots
    requires KeyOf(f) == KeyOf(e) && f.fault > 1
    ensures AnswerTo(Step(s, e), f) == Err(RollbackFailed)
  {
    StepKeepsInv(s, e);
    SubmitRollbackFailsExactly(Step(s, e), f);
    hide Admit;
  }

  /** For example: a task for bot "b", then the same one without a bot from a client that has lost "b". */
  lemma RollbackFailsForExample() returns (e: Event, f: Event)
    ensures e.Submit? && f.Submit? && AnswerTo(Empty(), e).Ok? && AnswerTo(Step(Empty(), e), f) == Err(RollbackFailed)
  {
    var dir := Directory({"b"}, {}, {"a", "b"}, {"b"});
    var before, now := Client("c", "a", {"a"}, {"b"}), Client("c", "a", {"a"}, {});
    var body := Body(Given("s"), Given("t"), Given("g"), Absent, Given("b"), Absent, Absent);
    e := Submit(dir, before, body, 6);
    f := Submit(dir, now, body.(bot := Absent), 6);
    OneLetter("s");
    OneLetter("t");
    OneLetter("g");
    OneLetter("b");
    hide Required;
    assert Admit(dir, before, body) == Ok(Order(TaskKey("c", "s", "t"), Some("b"), "g"));
    assert Admit(dir, now, body.(bot := Absent)).value.key == TaskKey("c", "s", "t");
    LosingTheBotFailsInRollback(Empty(), e, f);
  }

  function Empty(): Store { Store(map[], map[], map[], map[], 0) }

  lemma OneLetter(s: string)
    requires |s| == 1 && 'a' <= s[0] <= 'z'
    ensures forall max :: max >= 1 ==> Required(Given(s), max) == Ok(s)
  {
    TrimmedIsKept(s);
  }

  /** An input ends in that error exactly when it repeats an accepted one and the task can no longer be seen. */
  lemma InputRollbackFailsExactly(s: Store, e: Event)
    requires e.Input?
    ensures ReplyTo(s, e) == Err(RollbackFailed) <==>
      && InputOf(e).Some? && e.seen.session.Some? && e.fault > 1 && !Visible(s, e.client, e.task)
      && InputOf(e).value in s.inputs && s.inputs[InputOf(e).value] == Required(e.message, 32000).value
    ensures ReplyTo(s, e) == Err(RollbackFailed) ==> Step(s, e) == s
  {
    hide Required, ShownStatus;
  }

  /** It takes a stale view: read in the moment of the transaction, the view would have been refused. */
  lemma FreshViewNeverFailsInRollback(s: Store, e: Event)
    requires e.Input? && Look(s, e.client, e.task) == Ok(e.seen)
    ensures ReplyTo(s, e) != Err(RollbackFailed)
  {
    InputRollbackFailsExactly(s, e);
  }

  /** And with a stale one it happens: the input is accepted, the task deleted elsewhere, the input repeated. */
  lemma DeletingTheTaskFailsInRollback(s: Store, e: Event) returns (gone: Event)
    requires Inv(s) && InputOf(e).Some? && ReplyTo(s, e).Ok? && e.fault > 1
    ensures gone.Elsewhere? && MayBecome(Step(s, e), gone.after)
    ensures ReplyTo(Run(s, [e, gone]), e) == Err(RollbackFailed)
  {
    hide Required, Answered, Run, MayBecome, Inv, Look;
    var s1 := Step(s, e);
    StepKeepsInv(s, e);
    gone := Elsewhere(s1.(tasks := s1.tasks - {e.task}));
    InputMeans(s, e);
    DeletionIsPossible(s1, e.task);
    AcceptedHasSession(s, e);
    RunOfTwo(s, e, gone);
    InputRollbackFailsExactly(gone.after, e);
  }

  lemma DeletionIsPossible(s: Store, t: nat)
    requires Inv(s)
    ensures MayBecome(s, s.(tasks := s.tasks - {t}))
  {
  }

  lemma RunOfTwo(s: Store, e: Event, f: Event)
    ensures Run(s, [e, f]) == Step(Step(s, e), f)
  {
    hide Step;
    assert [e, f][..1] == [e] && [e][..0] == [];
    assert Run(s, [e]) == Step(s, e);
  }

  lemma AcceptedHasSession(s: Store, e: Event)
    requires e.Input? && ReplyTo(s, e).Ok?
    ensures e.seen.session.Some?
  {
    hide Look, Required;
  }
}
