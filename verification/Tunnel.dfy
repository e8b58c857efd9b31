/** The device end of the relay tunnel, one step per stretch between two awaits.

  A step that cannot be taken in a state leaves the state as it is, so a run is
  any list of events. The connection may break and the process may die anywhere. */
module Tunnel {
  import opened Wrappers
  import opened OperationStore
  import opened ExecutionBudget

  type TaskId = nat

  predicate Uncertain(action: Action) {
    || action.tool == "device_desktop"
    || (action.tool == "project_shell" && action.action == Some("start"))
    || (action.tool == "project_frontend" && action.operation in {Some("session_start"), Some("act")})
  }

  /** A validated OPERATION envelope: its digest is the digest of its action. */
  datatype Operation = Operation(id: OperationId, correlation: Correlation, bindings: Bindings, action: Action,
                                 sentAt: int, deadline: Option<int>, epoch: nat)

  datatype Kind = ReceivedNote(duplicate: bool) | StartedNote | ResultNote(payload: Payload)

  /** What the device sends about an operation. */
  datatype Message = Message(kind: Kind, correlation: Correlation, bindings: Bindings, digest: ActionDigest, epoch: nat)

  /** Where a dispatched operation stands. */
  datatype Phase =
    | Starting
    | Announcing
    | Entering
    | Handling
    | Storing(state: OperationState, answer: Payload)
    | Publishing(answer: Payload)
    | Ended

  datatype Task = Task(op: Operation, budget: Budget, reconcile: bool, phase: Phase)

  /** One delivery, with the two clock readings taken when it came in. */
  datatype Arrival = Arrival(op: Operation, deadline: int, at: int, mono: int)

  datatype Link = Closed | Open | Broken

  /** Where the one coroutine stands that connects, replays and receives. */
  datatype Main =
    | Offline
    | Greeting
    | Fenced
    | Greeted
    | Listing(memory: map<Correlation, Message>)
    | Replaying(todo: set<Message>)
    | Listening
    | Journalling(arrival: Arrival)
    | Confirming(arrival: Arrival, inserted: bool)
    | Confirmed(arrival: Arrival, inserted: bool)
    | Known(arrival: Arrival, prior: Row)
    | Terminalizing(op: Operation)
    | Terminalized(op: Operation)
    | Acking(correlation: Correlation, digest: ActionDigest, bindings: Bindings)
    | Acked(correlation: Correlation)
    | Leaving

  /** The dispatched operations, and a history: how often each handler ran. */
  datatype Work = Work(tasks: map<TaskId, Task>, current: map<OperationId, TaskId>,
                       budgets: map<OperationId, Budget>, invoked: multiset<OperationId>)

  /** The socket, and two histories: what this connection carried, and what any
    connection ever carried. */
  datatype Net = Net(link: Link, epoch: nat, sent: set<Message>, ever: set<Message>)

  datatype State = State(rows: Rows, projects: set<string>, limit: nat, main: Main, net: Net, work: Work,
                         terminals: map<Correlation, Message>)

  /** How a handler ends, when nothing else ends it. */
  datatype Outcome = Answered(payload: Payload) | AgentError(code: string, message: string) | Crashed | TimedOut

  datatype Event =
    | Connect | Welcome(epoch: nat) | Hello | BeginReplay | ListOwed | Replay(message: Message) | EndReplay
    | Deliver(op: Operation, at: int, mono: int, now: int) | Malformed
    | Journal(now: int) | Confirm | Accept(task: TaskId) | LookUp | Decide(task: TaskId)
    | Terminalize | PublishTerminalized
    | Ack(correlation: Correlation, digest: ActionDigest, bindings: Bindings) | StoreAck | FinishAck
    | Break | Notice | Leave | Crash
    | Begin(task: TaskId) | Announce(task: TaskId, mono: int, now: int) | Enter(task: TaskId, inTime: bool)
    | Return(task: TaskId, outcome: Outcome, mono: int, now: int) | Store(task: TaskId) | Publish(task: TaskId)
    | Reap(task: TaskId)

  function ReceiptOf(op: Operation, deadline: int): Receipt {
    Receipt(op.correlation, op.bindings, DigestOf(op.action), deadline)
  }

  function ToolFailure(code: string, message: string): Payload {
    Payload(false, code + ": " + message, None, None)
  }

  const NOT_RETAINED := ToolFailure("outcome_unknown", "not retained")

  /** Screenshots stay out of the journal, but for their digest. */
  function Durable(p: Payload): Payload {
    if p.image.Some? then NOT_RETAINED.(digest := Some(DigestOfImage(p.image.value))) else p
  }

  function Initial(projects: set<string>, limit: nat): State {
    State(map[], projects, limit, Offline, Net(Closed, 0, {}, {}), Work(map[], map[], map[], multiset{}), map[])
  }

  /** Sending: dropped without a socket, refused on a broken one. */
  function Send(s: State, m: Message): State {
    if s.net.link.Open? then s.(net := s.net.(sent := s.net.sent + {m}, ever := s.net.ever + {m})) else s
  }

  function ResultFor(s: State, correlation: Correlation, bindings: Bindings, digest: ActionDigest,
                     p: Payload): Message {
    Message(ResultNote(p), correlation, bindings, digest, s.net.epoch)
  }

  /** A terminal result is remembered before it is sent. */
  function SendResult(s: State, m: Message): State {
    Send(s.(terminals := s.terminals[m.correlation := m]), m)
  }

  function Onward(s: State, main: Main): State {
    s.(main := if s.net.link.Broken? then Leaving else main)
  }

  function OpResult(s: State, op: Operation, p: Payload): Message {
    ResultFor(s, op.correlation, op.bindings, DigestOf(op.action), p)
  }

  /** The current task of the operation has not ended. */
  predicate Live(w: Work, id: OperationId) {
    id in w.current && w.current[id] in w.tasks && !w.tasks[w.current[id]].phase.Ended?
  }

  /** Budgets that still count when a message arrives. */
  function Pruned(s: State, mono: int): map<OperationId, Budget> {
    map id | id in s.work.budgets && (s.work.budgets[id].monotonicDeadline > mono || Live(s.work, id)) :: s.work.budgets[id]
  }

  predicate QueueFull(s: State, id: OperationId) {
    |s.work.tasks| >= s.limit || (|s.work.budgets| >= s.limit && id !in s.work.budgets)
  }

  /** Why an arriving operation is refused without a journal row. */
  function Refusal(s: State, op: Operation, now: int): Option<string> {
    if QueueFull(s, op.id) then Some("queue_full")
    else if op.deadline.None? || op.deadline.value <= now then Some("deadline_exceeded")
    else if op.action.project.Some? && op.action.project != op.bindings.project then Some("binding_mismatch")
    else if op.bindings.grant.None? || op.bindings.link.None? then Some("unauthorized")
    else None
  }

  // The connection coroutine.

  function AfterConnect(s: State): State {
    if s.main.Offline? then s.(main := Greeting, net := s.net.(link := Open, sent := {})) else s
  }

  /** The fence of the relay: everything sent from here on carries its epoch. */
  function AfterWelcome(s: State, epoch: nat): State {
    if s.main.Greeting? && s.net.link.Open? && epoch >= 1 then s.(main := Fenced, net := s.net.(epoch := epoch)) else s
  }

  function AfterHello(s: State): State {
    if s.main.Fenced? then Onward(s, Greeted) else s
  }

  function AfterBeginReplay(s: State): State {
    if s.main.Greeted? then s.(main := Listing(s.terminals)) else s
  }

  function RowMessage(s: State, row: Row): Message
    requires row.result.Some?
  {
    ResultFor(s, row.receipt.correlation, row.receipt.bindings, row.receipt.digest, row.result.value)
  }

  /** The rows the relay still has to confirm, as messages of this epoch. */
  function OwedMessages(s: State): set<Message> {
    set id | id in s.rows && Owed(s.rows[id]) :: RowMessage(s, s.rows[id])
  }

  predicate CoveredByRow(s: State, correlation: Correlation) {
    exists id :: id in s.rows && Owed(s.rows[id]) && s.rows[id].receipt.correlation == correlation
  }

  /** What a fresh connection has to send again. */
  function ReplayList(s: State, memory: map<Correlation, Message>): set<Message> {
    OwedMessages(s) + set c | c in memory && !CoveredByRow(s, c) :: memory[c].(epoch := s.net.epoch, correlation := c)
  }

  function AfterListOwed(s: State): State {
    if s.main.Listing? then s.(main := Replaying(ReplayList(s, s.main.memory))) else s
  }

  function AfterReplay(s: State, m: Message): State {
    if s.main.Replaying? && m in s.main.todo then Onward(SendResult(s, m), Replaying(s.main.todo - {m})) else s
  }

  function AfterEndReplay(s: State): State {
    if s.main == Replaying({}) then s.(main := Listening) else s
  }

  function AfterDeliver(s: State, op: Operation, at: int, mono: int, now: int): State {
    if !s.main.Listening? then s
    else if op.epoch != s.net.epoch then s.(main := Leaving)
    else
      var t := s.(work := s.work.(budgets := Pruned(s, mono)));
      match Refusal(t, op, now)
      case Some(code) => Onward(SendResult(t, OpResult(t, op, ToolFailure(code, "refused"))), Listening)
      case None => t.(main := Journalling(Arrival(op, op.deadline.value, at, mono)))
  }

  function AfterMalformed(s: State): State {
    if s.main.Listening? then s.(main := Leaving) else s
  }

  function AfterJournal(s: State, now: int): State {
    if !s.main.Journalling? then s
    else
      var a := s.main.arrival;
      var receipt := ReceiptOf(a.op, a.deadline);
      var recording := RecordingOf(s.rows, s.projects, a.op.id, receipt, s.net.epoch);
      if recording.Conflict? then s.(main := Leaving)
      else s.(rows := Recorded(s.rows, s.projects, a.op.id, receipt, s.net.epoch, now),
              main := Confirming(a, recording.Inserted?))
  }

  function AfterConfirm(s: State): State {
    if !s.main.Confirming? then s
    else
      var a := s.main.arrival;
      var note := Message(ReceivedNote(!s.main.inserted), a.op.correlation, a.op.bindings, DigestOf(a.op.action), s.net.epoch);
      Onward(Send(s, note), Confirmed(a, s.main.inserted))
  }

  function StartDispatch(s: State, task: TaskId, op: Operation, budget: Budget, reconcile: bool): State {
    s.(work := Work(s.work.tasks[task := Task(op, budget, reconcile, Starting)],
                    s.work.current[op.id := task], s.work.budgets[op.id := budget], s.work.invoked),
       main := Listening)
  }

  function BudgetOf(a: Arrival, origin: Origin): Budget {
    FromEnvelope(a.op.sentAt, a.deadline, a.at, a.mono, origin)
  }

  function AfterAccept(s: State, task: TaskId): State {
    if s.main.Confirmed? && s.main.inserted && task !in s.work.tasks
    then StartDispatch(s, task, s.main.arrival.op, BudgetOf(s.main.arrival, NotAsked), false) else s
  }

  function AfterLookUp(s: State): State {
    if s.main.Confirmed? && !s.main.inserted && s.main.arrival.op.id in s.rows
    then s.(main := Known(s.main.arrival, s.rows[s.main.arrival.op.id])) else s
  }

  function RetryBudget(s: State, a: Arrival, prior: Row): Budget {
    var budget := BudgetOf(a, At(prior.receivedAt));
    if a.op.id in s.work.budgets then Tighter(budget, s.work.budgets[a.op.id]) else budget
  }

  /** What to do with a redelivered operation, from its row as it was read. */
  function AfterDecide(s: State, task: TaskId): State {
    if !s.main.Known? || task in s.work.tasks then s
    else
      var a, prior := s.main.arrival, s.main.prior;
      if prior.result.Some? then Onward(SendResult(s, OpResult(s, a.op, prior.result.value)), Listening)
      else if Live(s.work, a.op.id) then s.(main := Listening)
      else if Uncertain(a.op.action) then s.(main := Terminalizing(a.op))
      else StartDispatch(s, task, a.op, RetryBudget(s, a, prior), true)
  }

  const UNCERTAIN := ToolFailure("outcome_unknown", "may have executed before")

  function AfterTerminalize(s: State): State {
    if !s.main.Terminalizing? then s
    else
      var op := s.main.op;
      if !MayTransition(s.rows, op.id, OutcomeUnknown) then s.(main := Leaving)
      else s.(rows := Transitioned(s.rows, op.id, OutcomeUnknown, Some(UNCERTAIN)), main := Terminalized(op))
  }

  function AfterPublishTerminalized(s: State): State {
    if s.main.Terminalized? then Onward(SendResult(s, OpResult(s, s.main.op, UNCERTAIN)), Listening) else s
  }

  function AfterAck(s: State, correlation: Correlation, digest: ActionDigest, bindings: Bindings): State {
    if !s.main.Listening? || correlation !in s.terminals then s
    else
      var pending := s.terminals[correlation];
      if digest != pending.digest || bindings != pending.bindings then s.(main := Leaving)
      else if bindings.grant.Some? && bindings.link.Some? then s.(main := Acking(correlation, digest, bindings))
      else s.(terminals := s.terminals - {correlation})
  }

  function AfterStoreAck(s: State): State {
    if s.main.Acking? then s.(rows := Acknowledged(s.rows, s.main.correlation, s.main.digest, s.main.bindings),
                              main := Acked(s.main.correlation)) else s
  }

  function AfterFinishAck(s: State): State {
    if s.main.Acked? then s.(terminals := s.terminals - {s.main.correlation}, main := Listening) else s
  }

  function AfterBreak(s: State): State {
    if s.net.link.Open? then s.(net := s.net.(link := Broken)) else s
  }

  function AfterNotice(s: State): State {
    if s.main.Greeting? || (s.main.Listening? && s.net.link.Broken?) then s.(main := Leaving) else s
  }

  function AfterLeave(s: State): State {
    if s.main.Leaving? then s.(main := Offline, net := s.net.(link := Closed)) else s
  }

  /** The process is gone; its rows are not. */
  function AfterCrash(s: State): State {
    s.(main := Offline, net := Net(Closed, 0, {}, s.net.ever), work := Work(map[], map[], map[], s.work.invoked), terminals := map[])
  }

  // One dispatched operation.

  predicate InPhase(s: State, t: TaskId, phase: Phase) {
    t in s.work.tasks && s.work.tasks[t].phase == phase
  }

  function WithPhase(s: State, t: TaskId, phase: Phase): State
    requires t in s.work.tasks
  {
    s.(work := s.work.(tasks := s.work.tasks[t := s.work.tasks[t].(phase := phase)]))
  }

  predicate Late(budget: Budget, mono: int, now: int) {
    budget.monotonicDeadline <= mono || budget.localDeadline <= now
  }

  function AfterBegin(s: State, t: TaskId): State {
    if !InPhase(s, t, Starting) then s
    else
      var id := s.work.tasks[t].op.id;
      if !MayTransition(s.rows, id, Running) then WithPhase(s, t, Ended)
      else WithPhase(s.(rows := Transitioned(s.rows, id, Running, None)), t, Announcing)
  }

  const OVERDUE := ToolFailure("outcome_unknown", "exceeded its budget and may have executed")
  const DEADLINE := ToolFailure("deadline_exceeded", "budget elapsed")
  const INTERNAL := ToolFailure("internal_error", "failed")

  function AfterAnnounce(s: State, t: TaskId, mono: int, now: int): State {
    if !InPhase(s, t, Announcing) then s
    else
      var op := s.work.tasks[t].op;
      if Late(s.work.tasks[t].budget, mono, now) then WithPhase(s, t, Storing(Failed, DEADLINE))
      else if s.net.link.Broken? then WithPhase(s, t, Storing(Failed, INTERNAL))
      else WithPhase(Send(s, Message(StartedNote, op.correlation, op.bindings, DigestOf(op.action), s.net.epoch)), t, Entering)
  }

  /** The handler is called, unless the budget ran out on the way. */
  function AfterEnter(s: State, t: TaskId, inTime: bool): State {
    if !InPhase(s, t, Entering) then s
    else if !inTime then WithPhase(s, t, Storing(Failed, DEADLINE))
    else WithPhase(s.(work := s.work.(invoked := s.work.invoked + multiset{s.work.tasks[t].op.id})), t, Handling)
  }

  /** The terminal state and answer of a handler that was entered. */
  function Ending(task: Task, outcome: Outcome, mono: int, now: int): Phase {
    var late := if Uncertain(task.op.action) then Storing(OutcomeUnknown, OVERDUE) else Storing(Failed, DEADLINE);
    match outcome
    case Answered(payload) => if Late(task.budget, mono, now) then late else Storing(Succeeded, payload)
    case TimedOut => late
    case Crashed => Storing(Failed, INTERNAL)
    case AgentError(code, message) =>
      if code == "deadline_exceeded" then late
      else Storing(if code == "approval_denied" then Denied
                   else if code == "outcome_unknown" then OutcomeUnknown else Failed, ToolFailure(code, message))
  }

  function AfterReturn(s: State, t: TaskId, outcome: Outcome, mono: int, now: int): State {
    if InPhase(s, t, Handling) then WithPhase(s, t, Ending(s.work.tasks[t], outcome, mono, now)) else s
  }

  function AfterStore(s: State, t: TaskId): State {
    if !(t in s.work.tasks && s.work.tasks[t].phase.Storing?) then s
    else
      var id, phase := s.work.tasks[t].op.id, s.work.tasks[t].phase;
      if !MayTransition(s.rows, id, phase.state) then WithPhase(s, t, Ended)
      else WithPhase(s.(rows := Transitioned(s.rows, id, phase.state, Some(Durable(phase.answer)))), t, Publishing(phase.answer))
  }

  function AfterPublish(s: State, t: TaskId): State {
    if !(t in s.work.tasks && s.work.tasks[t].phase.Publishing?) then s
    else
      var op := s.work.tasks[t].op;
      var unbudgeted := s.(work := s.work.(budgets := s.work.budgets - {op.id}));
      WithPhase(SendResult(unbudgeted, OpResult(s, op, s.work.tasks[t].phase.answer)), t, Ended)
  }

  function AfterReap(s: State, t: TaskId): State {
    if !InPhase(s, t, Ended) then s
    else
      var id := s.work.tasks[t].op.id;
      s.(work := s.work.(tasks := s.work.tasks - {t},
           current := if id in s.work.current && s.work.current[id] == t then s.work.current - {id} else s.work.current))
  }

  function Next(s: State, e: Event): State {
    match e
    case Connect => AfterConnect(s)
    case Welcome(epoch) => AfterWelcome(s, epoch)
    case Hello => AfterHello(s)
    case BeginReplay => AfterBeginReplay(s)
    case ListOwed => AfterListOwed(s)
    case Replay(m) => AfterReplay(s, m)
    case EndReplay => AfterEndReplay(s)
    case Deliver(op, at, mono, now) => AfterDeliver(s, op, at, mono, now)
    case Malformed => AfterMalformed(s)
    case Journal(now) => AfterJournal(s, now)
    case Confirm => AfterConfirm(s)
    case Accept(task) => AfterAccept(s, task)
    case LookUp => AfterLookUp(s)
    case Decide(task) => AfterDecide(s, task)
    case Terminalize => AfterTerminalize(s)
    case PublishTerminalized => AfterPublishTerminalized(s)
    case Ack(correlation, digest, bindings) => AfterAck(s, correlation, digest, bindings)
    case StoreAck => AfterStoreAck(s)
    case FinishAck => AfterFinishAck(s)
    case Break => AfterBreak(s)
    case Notice => AfterNotice(s)
    case Leave => AfterLeave(s)
    case Crash => AfterCrash(s)
    case Begin(t) => AfterBegin(s, t)
    case Announce(t, mono, now) => AfterAnnounce(s, t, mono, now)
    case Enter(t, inTime) => AfterEnter(s, t, inTime)
    case Return(t, outcome, mono, now) => AfterReturn(s, t, outcome, mono, now)
    case Store(t) => AfterStore(s, t)
    case Publish(t) => AfterPublish(s, t)
    case Reap(t) => AfterReap(s, t)
  }

  /** A run: any list of events. */
  function Run(s: State, events: seq<Event>): State {
    if events == [] then s else Next(Run(s, events[..|events| - 1]), events[|events| - 1])
  }
}
