/** What deliveries, redeliveries, acknowledgements and new connections come to
  when the connection lasts and nothing else happens in between. */
module TunnelProgress {
  import opened Wrappers
  import opened OperationStore
  import opened ExecutionBudget
  import opened Tunnel
  import opened TunnelDelivery

  /** There is room for the operation, once overdue budgets are gone. */
  predicate HasRoom(s: State, id: OperationId, mono: int) {
    |s.work.tasks| < s.limit && (|Pruned(s, mono)| < s.limit || id in Pruned(s, mono))
  }

  /** An operation the device may take on: in time, for the project it is bound to, and granted. */
  predicate Acceptable(op: Operation, now: int) {
    && op.deadline.Some? && op.deadline.value > now
    && (op.action.project.Some? ==> op.action.project == op.bindings.project)
    && op.bindings.grant.Some? && op.bindings.link.Some?
  }

  predicate Listens(s: State, op: Operation) {
    s.main.Listening? && s.net.link.Open? && op.epoch == s.net.epoch
  }

  function Note(s: State, op: Operation, kind: Kind): Message {
    Message(kind, op.correlation, op.bindings, DigestOf(op.action), s.net.epoch)
  }

  /** Budgets stay as long as they have time left or their operation is alive. */
  lemma PrunedMeans(s: State, mono: int, id: OperationId)
    ensures id in Pruned(s, mono) <==>
      id in s.work.budgets && (s.work.budgets[id].monotonicDeadline > mono || Live(s.work, id))
    ensures id in Pruned(s, mono) ==> Pruned(s, mono)[id] == s.work.budgets[id]
  {
  }

  /** A delivery is refused exactly when there is no room, or it is late, misdirected or
    not granted, with the code of the first of these; the refusal is sent and remembered. */
  lemma DeliveryMeans(s: State, op: Operation, at: int, mono: int, now: int)
    requires Listens(s, op)
    ensures var u := AfterDeliver(s, op, at, mono, now);
      && u.rows == s.rows && u.work.budgets == Pruned(s, mono) && u.work.tasks == s.work.tasks
      && if HasRoom(s, op.id, mono) && Acceptable(op, now)
         then u.main == Journalling(Arrival(op, op.deadline.value, at, mono)) && u.net == s.net && u.terminals == s.terminals
         else
           var code :=
             if !HasRoom(s, op.id, mono) then "queue_full"
             else if op.deadline.None? || op.deadline.value <= now then "deadline_exceeded"
             else if op.action.project.Some? && op.action.project != op.bindings.project then "binding_mismatch"
             else "unauthorized";
           var m := Note(s, op, ResultNote(ToolFailure(code, "refused")));
           u.main.Listening? && m in u.net.sent && u.terminals == s.terminals[op.correlation := m]
  {
    hide Pruned;
  }

  /** The budget of a first delivery: the time to its deadline, but no more than
    the duration it was sent with, on both clocks. */
  lemma FirstBudget(a: Arrival)
    ensures var granted := if a.at < a.op.sentAt then a.deadline - a.op.sentAt else a.deadline - a.at;
      BudgetOf(a, NotAsked) == Budget(a.at + granted, a.mono + granted)
  {
  }

  /** The budget of a retry: no more than a first delivery gets, nor than what is
    left since the receipt, nor than a budget that still counts. */
  lemma RetryBudgetMeans(s: State, a: Arrival, prior: Row)
    ensures var b, first := RetryBudget(s, a, prior), BudgetOf(a, NotAsked);
      var since := prior.receivedAt + (a.deadline - a.op.sentAt);
      var known := if a.op.id in s.work.budgets then Some(s.work.budgets[a.op.id]) else None;
      && b.localDeadline <= first.localDeadline && b.localDeadline <= since
      && (known.Some? ==> b.localDeadline <= known.value.localDeadline)
      && (b.localDeadline == first.localDeadline || b.localDeadline == since
          || (known.Some? && b.localDeadline == known.value.localDeadline))
      && b.monotonicDeadline <= first.monotonicDeadline && b.monotonicDeadline <= a.mono + (since - a.at)
      && (known.Some? ==> b.monotonicDeadline <= known.value.monotonicDeadline)
      && (b.monotonicDeadline == first.monotonicDeadline || b.monotonicDeadline == a.mono + (since - a.at)
          || (known.Some? && b.monotonicDeadline == known.value.monotonicDeadline))
  {
  }

  // A new operation

  function Journalled(s: State, op: Operation, at: int, mono: int, now: int, received: int): State {
    AfterJournal(AfterDeliver(s, op, at, mono, now), received)
  }

  function Started(s: State, op: Operation, at: int, mono: int, now: int, received: int, t: TaskId): State {
    AfterAccept(AfterConfirm(Journalled(s, op, at, mono, now, received)), t)
  }

  lemma NewIsJournalled(s: State, op: Operation, at: int, mono: int, now: int, received: int)
    requires Listens(s, op) && HasRoom(s, op.id, mono) && Acceptable(op, now) && op.id !in s.rows
    requires op.bindings.project.Some? ==> op.bindings.project.value in s.projects
    ensures Journalled(s, op, at, mono, now, received) == s.(
      rows := s.rows[op.id := Row(ReceiptOf(op, op.deadline.value), Received, None, false, s.net.epoch, received)],
      work := s.work.(budgets := Pruned(s, mono)),
      main := Confirming(Arrival(op, op.deadline.value, at, mono), true))
  {
    hide Pruned;
  }

  /** A new operation is journalled, confirmed and started with the budget of its delivery. */
  lemma NewIsStarted(s: State, op: Operation, at: int, mono: int, now: int, received: int, t: TaskId)
    requires Listens(s, op) && HasRoom(s, op.id, mono) && Acceptable(op, now) && op.id !in s.rows && t !in s.work.tasks
    requires op.bindings.project.Some? ==> op.bindings.project.value in s.projects
    ensures var u := Started(s, op, at, mono, now, received, t);
      && u.main.Listening? && u.net.link.Open? && u.net.epoch == s.net.epoch
      && u.rows == s.rows[op.id := Row(ReceiptOf(op, op.deadline.value), Received, None, false, s.net.epoch, received)]
      && u.work.tasks == s.work.tasks[t := Task(op, BudgetOf(Arrival(op, op.deadline.value, at, mono), NotAsked), false, Starting)]
      && u.work.current == s.work.current[op.id := t] && u.work.invoked == s.work.invoked
      && u.net.sent == s.net.sent + {Note(s, op, ReceivedNote(false))}
  {
    hide Pruned, BudgetOf, AfterDeliver, AfterJournal;
    NewIsJournalled(s, op, at, mono, now, received);
  }

  function Handled(s: State, t: TaskId, mono: int, now: int): State {
    AfterEnter(AfterAnnounce(AfterBegin(s, t), t, mono, now), t, true)
  }

  /** A started task whose budget is not over announces itself and gets its handler. */
  lemma StartedIsHandled(s: State, t: TaskId, mono: int, now: int)
    requires InPhase(s, t, Starting) && s.net.link.Open? && MayTransition(s.rows, s.work.tasks[t].op.id, Running)
    requires mono < s.work.tasks[t].budget.monotonicDeadline && now < s.work.tasks[t].budget.localDeadline
    ensures var op, u := s.work.tasks[t].op, Handled(s, t, mono, now);
      && u.work.tasks == s.work.tasks[t := s.work.tasks[t].(phase := Handling)]
      && u.rows == s.rows[op.id := u.rows[op.id]] && u.rows[op.id].state == Running && u.rows[op.id].result == None
      && u.work.invoked == s.work.invoked + multiset{op.id}
      && u.net.sent == s.net.sent + {Note(s, op, StartedNote)} && u.main == s.main
  {
    hide Late;
    var a := AfterBegin(s, t);
    BeginGoesOn(s, t);
    var b := AfterAnnounce(a, t, mono, now);
    AnnounceGoesOn(a, t, mono, now);
  }

  lemma BeginGoesOn(s: State, t: TaskId)
    requires InPhase(s, t, Starting) && MayTransition(s.rows, s.work.tasks[t].op.id, Running)
    ensures AfterBegin(s, t)
      == WithPhase(s.(rows := Transitioned(s.rows, s.work.tasks[t].op.id, Running, None)), t, Announcing)
  {
  }

  lemma AnnounceGoesOn(s: State, t: TaskId, mono: int, now: int)
    requires InPhase(s, t, Announcing) && s.net.link.Open?
    requires mono < s.work.tasks[t].budget.monotonicDeadline && now < s.work.tasks[t].budget.localDeadline
    ensures AfterAnnounce(s, t, mono, now) == WithPhase(Send(s, Note(s, s.work.tasks[t].op, StartedNote)), t, Entering)
  {
  }

  // A known operation

  /** The operation was journalled before, as it comes in again. */
  predicate Redelivered(s: State, op: Operation, mono: int, now: int) {
    && Listens(s, op) && HasRoom(s, op.id, mono) && Acceptable(op, now)
    && op.id in s.rows && s.rows[op.id].receipt == ReceiptOf(op, op.deadline.value) && s.rows[op.id].epoch <= s.net.epoch
  }

  function LookedUp(s: State, op: Operation, at: int, mono: int, now: int, received: int): State {
    AfterLookUp(AfterConfirm(AfterJournal(AfterDeliver(s, op, at, mono, now), received)))
  }

  /** It is confirmed as a duplicate, and its row is read. */
  lemma KnownIsLookedUp(s: State, op: Operation, at: int, mono: int, now: int, received: int)
    requires Redelivered(s, op, mono, now)
    ensures var u := LookedUp(s, op, at, mono, now, received);
      && u.rows == s.rows[op.id := s.rows[op.id].(epoch := s.net.epoch)] && u.terminals == s.terminals
      && u.work == s.work.(budgets := Pruned(s, mono))
      && u.main == Known(Arrival(op, op.deadline.value, at, mono), u.rows[op.id])
      && u.net.link.Open? && u.net.epoch == s.net.epoch && u.net.sent == s.net.sent + {Note(s, op, ReceivedNote(true))}
  {
    hide Pruned;
    var d := AfterDeliver(s, op, at, mono, now);
    DeliveryMeans(s, op, at, mono, now);
    var j := AfterJournal(d, received);
    assert j.main == Confirming(d.main.arrival, false);
  }

  /** A stored result is sent again; a live task goes on alone; an operation that
    may not be repeated is given up; any other is started again. */
  lemma KnownIsDecided(s: State, op: Operation, at: int, mono: int, t: TaskId)
    requires s.main.Known? && s.main.arrival == Arrival(op, s.main.arrival.deadline, at, mono)
    requires s.net.link.Open? && t !in s.work.tasks
    ensures var row, u := s.main.prior, AfterDecide(s, t);
      if row.result.Some? then
        var m := Note(s, op, ResultNote(row.result.value));
        u.main.Listening? && m in u.net.sent && u.terminals == s.terminals[op.correlation := m] && u.work == s.work
      else if Live(s.work, op.id) then u == s.(main := Listening)
      else if Uncertain(op.action) then u == s.(main := Terminalizing(op))
      else
        && u.main.Listening? && u.work.current == s.work.current[op.id := t]
        && u.work.tasks == s.work.tasks[t := Task(op, RetryBudget(s, s.main.arrival, row), true, Starting)]
  {
    hide RetryBudget, Live, Uncertain;
  }

  /** Giving up stores that the outcome is unknown, and says so. */
  lemma GivenUpIsSaid(s: State, op: Operation)
    requires s.main == Terminalizing(op) && s.net.link.Open? && MayTransition(s.rows, op.id, OutcomeUnknown)
    ensures var u := AfterPublishTerminalized(AfterTerminalize(s));
      var m := Note(s, op, ResultNote(UNCERTAIN));
      && u.main.Listening? && m in u.net.sent && u.terminals == s.terminals[op.correlation := m]
      && u.rows == s.rows[op.id := u.rows[op.id]]
      && u.rows[op.id].state == OutcomeUnknown && u.rows[op.id].result == Some(UNCERTAIN) && !u.rows[op.id].acked
  {
  }

  // Acknowledgements

  /** The relay confirms the result remembered under this correlation. */
  predicate Confirms(s: State, correlation: Correlation, digest: ActionDigest, bindings: Bindings) {
    && correlation in s.terminals
    && s.terminals[correlation].digest == digest && s.terminals[correlation].bindings == bindings
  }

  /** A granted acknowledgement marks the terminal rows it names, and no other,
    and the result is no longer remembered; one that does not match what was sent
    ends the connection. */
  lemma AckTakesEffect(s: State, correlation: Correlation, digest: ActionDigest, bindings: Bindings)
    requires s.main.Listening? && correlation in s.terminals
    ensures var u := AfterFinishAck(AfterStoreAck(AfterAck(s, correlation, digest, bindings)));
      if !Confirms(s, correlation, digest, bindings) then u == s.(main := Leaving)
      else if bindings.grant.None? || bindings.link.None? then u == s.(terminals := s.terminals - {correlation})
      else
        && u.main.Listening? && u.terminals == s.terminals - {correlation} && u.rows.Keys == s.rows.Keys
        && forall id :: id in s.rows ==>
             var named := s.rows[id].receipt.correlation == correlation && s.rows[id].receipt.digest == digest
                       && s.rows[id].receipt.bindings == bindings && Terminal(s.rows[id].state);
             u.rows[id] == s.rows[id].(acked := s.rows[id].acked || named)
  {
    hide Terminal;
  }

  // A new connection

  /** A new connection takes the relay's epoch and turns to the results it owes. */
  lemma ConnectionListsOwed(s: State, epoch: nat)
    requires s.main.Offline? && epoch >= 1
    ensures var u := AfterListOwed(AfterBeginReplay(AfterHello(AfterWelcome(AfterConnect(s), epoch))));
      && u.rows == s.rows && u.terminals == s.terminals && u.work == s.work
      && u.net.link.Open? && u.net.epoch == epoch && u.net.sent == {}
      && u.main == Replaying(ReplayList(u, s.terminals))
  {
    hide ReplayList;
    var w := AfterHello(AfterWelcome(AfterConnect(s), epoch));
    assert w.main.Greeted?;
    var b := AfterBeginReplay(w);
    assert b.main == Listing(s.terminals);
    SameReplayList(b, AfterListOwed(b), s.terminals);
  }

  lemma SameReplayList(s: State, u: State, memory: map<Correlation, Message>)
    requires u == s.(main := u.main)
    ensures ReplayList(u, memory) == ReplayList(s, memory)
  {
    assert OwedMessages(u) == OwedMessages(s);
    assert forall c :: CoveredByRow(u, c) == CoveredByRow(s, c);
  }

  /** Each owed result is sent and remembered, and after the last one the
    connection listens. */
  lemma OwedIsSent(s: State, m: Message)
    requires s.main.Replaying? && m in s.main.todo && s.net.link.Open?
    ensures var u := AfterReplay(s, m);
      && u.main == Replaying(s.main.todo - {m}) && m in u.net.sent && u.terminals == s.terminals[m.correlation := m]
      && (u.main.todo == {} ==> AfterEndReplay(u) == u.(main := Listening))
  {
  }

  // The end of a task, of a connection and of the process

  /** A result about to be sent is remembered and sent, its budget no longer counts,
    and the task goes. */
  lemma EndIsPublished(s: State, t: TaskId)
    requires t in s.work.tasks && s.work.tasks[t].phase.Publishing? && s.net.link.Open?
    ensures var op, m := s.work.tasks[t].op, Note(s, s.work.tasks[t].op, ResultNote(s.work.tasks[t].phase.answer));
      var u := AfterReap(AfterPublish(s, t), t);
      && u.rows == s.rows && m in u.net.sent && u.terminals == s.terminals[op.correlation := m]
      && u.work.tasks == s.work.tasks - {t} && u.work.budgets == s.work.budgets - {op.id}
      && (op.id in u.work.current ==> u.work.current[op.id] != t)
      && forall id :: id in s.work.current && s.work.current[id] != t ==>
           id in u.work.current && u.work.current[id] == s.work.current[id]
  {
  }

  /** A broken connection is noticed and left, and then a new one can be made; what
    is remembered and what runs stays. */
  lemma BrokenIsLeft(s: State)
    requires s.main.Leaving? || s.main.Greeting? || (s.main.Listening? && s.net.link.Broken?)
    ensures var u := AfterLeave(AfterNotice(s));
      u.main.Offline? && u.net.link.Closed? && AfterConnect(u).main.Greeting? && AfterConnect(u).net.link.Open?
      && u.rows == s.rows && u.work == s.work && u.terminals == s.terminals
  {
  }

  /** The death of the process leaves the journal and nothing else. */
  lemma DeathLeavesRows(s: State)
    ensures var u := AfterCrash(s);
      && u.rows == s.rows && u.projects == s.projects && u.limit == s.limit
      && u == Initial(s.projects, s.limit).(rows := s.rows, net := u.net, work := u.work)
      && u.net.link.Closed? && u.net.sent == {} && u.work.tasks == map[] && u.work.current == map[] && u.work.budgets == map[]
  {
  }
}
