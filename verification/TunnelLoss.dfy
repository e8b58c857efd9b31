/** How a result is lost: a redelivery is refused while the handler runs, and the
  acknowledgement of the refusal is stored against the result. */
module TunnelLoss {
  import opened Wrappers
  import opened OperationStore
  import opened ExecutionBudget
  import opened Tunnel
  import opened TunnelSafety
  import opened TunnelDelivery
  import opened TunnelRows
  import opened TunnelReceipts

  /** Acknowledged, with a result that was never sent and is in line nowhere. */
  ghost predicate Lost(s: State, name: Name, id: OperationId) {
    && Named(s.rows, id, name) && s.rows[id].acked && s.rows[id].result.Some? && !Borne(s.net.ever, s.rows[id])
    && name.correlation !in s.terminals && Todo(s.main) == {}
  }

  lemma RunSnoc(s: State, events: seq<Event>, e: Event)
    ensures Run(s, events + [e]) == Next(Run(s, events), e)
  {
    hide Next;
    assert (events + [e])[..|events + [e]| - 1] == events;
  }

  lemma RunOfTwo(s: State, a: Event, b: Event)
    ensures Run(s, [a, b]) == Next(Next(s, a), b)
  {
    hide Next;
    RunSnoc(s, [], a);
    RunSnoc(s, [a], b);
    assert [] + [a] == [a] && [a] + [b] == [a, b];
  }

  /** A text that no result among these messages has. */
  lemma FreshText(messages: set<Message>) returns (text: string)
    ensures forall m :: m in messages && m.kind.ResultNote? ==> m.kind.payload.text != text
  {
    var rest: set<Message> := messages;
    text := "";
    while rest != {}
      invariant rest <= messages
      invariant forall m :: m in messages && m !in rest && m.kind.ResultNote? ==> |m.kind.payload.text| < |text|
      decreases |rest|
    {
      var m :| m in rest;
      text := text + (if m.kind.ResultNote? then m.kind.payload.text else "") + "!";
      rest := rest - {m};
    }
  }

  /** No result by this name says the same as the payload. */
  ghost predicate Unsaid(messages: set<Message>, name: Name, p: Payload) {
    forall m :: m in messages && Notes(m, name) ==> Durable(m.kind.payload) != p
  }

  lemma FreshIsUnsaid(messages: set<Message>, name: Name, p: Payload)
    requires p.image.None? && p.digest.None?
    requires forall m :: m in messages && m.kind.ResultNote? ==> m.kind.payload.text != p.text
    ensures Unsaid(messages, name, p)
  {
  }

  lemma UnsaidIsNotBorne(messages: set<Message>, row: Row, p: Payload)
    requires row.result == Some(p) && Unsaid(messages, ReceiptName(row.receipt), p)
    ensures !Borne(messages, row)
  {
    hide Durable;
    forall m | m in messages ensures !Carries(m, row) {
    }
  }

  /** The operation's task is in this phase, with its row still running. */
  predicate Ready(s: State, t: TaskId, op: Operation, phase: Phase) {
    && s.main.Listening? && InPhase(s, t, phase) && s.work.tasks[t].op == op
    && op.id in s.rows && s.rows[op.id].state.Running? && ReceiptName(s.rows[op.id].receipt) == OperationName(op)
  }

  /** Its answer is stored and remembered. */
  predicate Stored(s: State, op: Operation, p: Payload) {
    && s.main.Listening? && Named(s.rows, op.id, OperationName(op))
    && s.rows[op.id].result == Some(p) && Terminal(s.rows[op.id].state)
    && op.correlation in s.terminals && MessageName(s.terminals[op.correlation]) == OperationName(op)
  }

  lemma NextOfTask(s: State, t: TaskId)
    ensures Next(s, Store(t)) == AfterStore(s, t) && Next(s, Publish(t)) == AfterPublish(s, t)
  {
    hide AfterConnect, AfterWelcome, AfterHello, AfterBeginReplay, AfterListOwed, AfterReplay, AfterEndReplay,
         AfterDeliver, AfterMalformed, AfterJournal, AfterConfirm, AfterAccept, AfterLookUp, AfterDecide,
         AfterTerminalize, AfterPublishTerminalized, AfterAck, AfterStoreAck, AfterFinishAck, AfterBreak,
         AfterNotice, AfterLeave, AfterCrash, AfterBegin, AfterAnnounce, AfterEnter, AfterReturn, AfterStore,
         AfterPublish, AfterReap;
  }

  lemma NextOfAck(s: State, op: Operation)
    ensures Next(s, Ack(op.correlation, DigestOf(op.action), op.bindings)) ==
      AfterAck(s, op.correlation, DigestOf(op.action), op.bindings)
    ensures Next(s, StoreAck) == AfterStoreAck(s) && Next(s, FinishAck) == AfterFinishAck(s)
  {
    hide AfterConnect, AfterWelcome, AfterHello, AfterBeginReplay, AfterListOwed, AfterReplay, AfterEndReplay,
         AfterDeliver, AfterMalformed, AfterJournal, AfterConfirm, AfterAccept, AfterLookUp, AfterDecide,
         AfterTerminalize, AfterPublishTerminalized, AfterAck, AfterStoreAck, AfterFinishAck, AfterBreak,
         AfterNotice, AfterLeave, AfterCrash, AfterBegin, AfterAnnounce, AfterEnter, AfterReturn, AfterStore,
         AfterPublish, AfterReap;
  }

  lemma Answering(s: State, t: TaskId, op: Operation, p: Payload, mono: int, now: int)
    requires Ready(s, t, op, Handling) && !Late(s.work.tasks[t].budget, mono, now)
    ensures var u := Next(s, Return(t, Answered(p), mono, now));
      Ready(u, t, op, Storing(Succeeded, p)) && u.net == s.net && u.terminals == s.terminals && u.rows == s.rows
  {
    hide Late;
  }

  lemma Breaking(s: State, t: TaskId, op: Operation, phase: Phase)
    requires Ready(s, t, op, phase)
    ensures var u := Next(s, Break); Ready(u, t, op, phase) && !u.net.link.Open? && u.net.ever == s.net.ever
  {
  }

  /** Its answer is stored, and about to be sent. */
  predicate Held(s: State, t: TaskId, op: Operation, answer: Payload) {
    && s.main.Listening? && InPhase(s, t, Publishing(answer)) && s.work.tasks[t].op == op
    && Named(s.rows, op.id, OperationName(op))
    && s.rows[op.id].result == Some(Durable(answer)) && Terminal(s.rows[op.id].state)
  }

  lemma StoringAnswer(s: State, t: TaskId, op: Operation, state: OperationState, answer: Payload)
    requires Ready(s, t, op, Storing(state, answer)) && Terminal(state)
    ensures var u := Next(s, Store(t)); Held(u, t, op, answer) && u.net == s.net
  {
    hide Next, Durable;
    NextOfTask(s, t);
  }

  lemma BreakingHeld(s: State, t: TaskId, op: Operation, answer: Payload)
    requires Held(s, t, op, answer)
    ensures var u := Next(s, Break); Held(u, t, op, answer) && !u.net.link.Open? && u.net.ever == s.net.ever
  {
    hide Durable;
  }

  lemma PublishingUnsent(s: State, t: TaskId, op: Operation, answer: Payload)
    requires Held(s, t, op, answer) && !s.net.link.Open?
    ensures var u := Next(s, Publish(t)); Stored(u, op, Durable(answer)) && u.net == s.net
  {
    hide Next, Durable;
    NextOfTask(s, t);
  }

  lemma Confirming(s: State, op: Operation, p: Payload)
    requires Stored(s, op, p) && Granted(op.bindings)
    ensures var u := Next(Next(Next(s, Ack(op.correlation, DigestOf(op.action), op.bindings)), StoreAck), FinishAck);
      && Named(u.rows, op.id, OperationName(op)) && u.rows[op.id].acked && u.rows[op.id].result == Some(p)
      && u.net == s.net && op.correlation !in u.terminals && u.main.Listening?
  {
    hide Next;
    var a := AfterAck(s, op.correlation, DigestOf(op.action), op.bindings);
    NextOfAck(s, op);
    NextOfAck(a, op);
    NextOfAck(AfterStoreAck(a), op);
  }

  lemma RunOfThree(s: State, a: Event, b: Event, c: Event)
    ensures Run(s, [a, b, c]) == Next(Next(Next(s, a), b), c)
  {
    hide Next, Run;
    RunOfTwo(s, a, b);
    RunSnoc(s, [a, b], c);
    assert [a, b] + [c] == [a, b, c];
  }

  lemma RunOfFour(s: State, a: Event, b: Event, c: Event, d: Event)
    ensures Run(s, [a, b, c, d]) == Next(Next(Next(Next(s, a), b), c), d)
  {
    hide Next, Run;
    RunOfThree(s, a, b, c);
    RunSnoc(s, [a, b, c], d);
    assert [a, b, c] + [d] == [a, b, c, d];
  }

  function Unsent(t: TaskId, p: Payload, mono: int, now: int): seq<Event> {
    [Return(t, Answered(p), mono, now), Break, Store(t), Publish(t)]
  }

  function Confirmation(op: Operation): seq<Event> {
    [Ack(op.correlation, DigestOf(op.action), op.bindings), StoreAck, FinishAck]
  }

  /** The handler answers and the connection breaks: the answer is stored and
    remembered, but nothing more is sent. */
  lemma AnswerUnsent(s: State, t: TaskId, op: Operation, p: Payload, mono: int, now: int)
    requires Ready(s, t, op, Handling) && !Late(s.work.tasks[t].budget, mono, now) && Durable(p) == p
    ensures var u := Run(s, Unsent(t, p, mono, now)); Stored(u, op, p) && u.net.ever == s.net.ever
  {
    hide Next, Run, Late, Ready, Stored, Named, Held, Durable;
    var e := Return(t, Answered(p), mono, now);
    RunOfFour(s, e, Break, Store(t), Publish(t));
    var a := Next(s, e);
    var b := Next(a, Break);
    Answering(s, t, op, p, mono, now);
    Breaking(a, t, op, Storing(Succeeded, p));
    StoringAnswer(b, t, op, Succeeded, p);
    PublishingUnsent(Next(b, Store(t)), t, op, p);
  }

  /** An acknowledgement of the refusal then confirms the answer. */
  lemma RefusalConfirms(s: State, op: Operation, p: Payload)
    requires Stored(s, op, p) && Granted(op.bindings)
    ensures var u := Run(s, Confirmation(op));
      && Named(u.rows, op.id, OperationName(op)) && u.rows[op.id].acked && u.rows[op.id].result == Some(p)
      && u.net == s.net && op.correlation !in u.terminals && u.main.Listening?
  {
    hide Next, Run, Stored, Named;
    RunOfThree(s, Ack(op.correlation, DigestOf(op.action), op.bindings), StoreAck, FinishAck);
    Confirming(s, op, p);
  }

  lemma ConfirmationIsFair(s: State, op: Operation)
    requires Noted(s.net.ever, OperationName(op))
    ensures Fair(s, Confirmation(op), OperationName(op), op.id)
  {
    hide Noted, Refused, Next;
    var more := Confirmation(op);
    assert Run(s, more[..0]) == s;
  }

  /** A stored answer that nobody was told is lost to an acknowledgement of the refusal. */
  lemma StoredCanBeLost(s: State, first: seq<Event>, op: Operation, p: Payload) returns (more: seq<Event>)
    requires (forall i :: 0 <= i < |first| ==> Plain(first[i])) && Granted(op.bindings)
    requires Stored(Run(s, first), op, p) && Run(s, first).net.ever == s.net.ever
    requires Noted(s.net.ever, OperationName(op)) && Unsaid(s.net.ever, OperationName(op), p)
    ensures Fair(s, more, OperationName(op), op.id) && Lost(Run(s, more), OperationName(op), op.id)
  {
    hide Next, Run, Stored, Noted, Fair, Borne, Unsaid, Plain;
    more := first + Confirmation(op);
    PlainIsFair(s, first, OperationName(op), op.id);
    ConfirmationIsFair(Run(s, first), op);
    FairOfConcat(s, first, Confirmation(op), OperationName(op), op.id);
    RunOfConcat(s, first, Confirmation(op));
    RefusalConfirms(Run(s, first), op, p);
    UnsaidIsNotBorne(s.net.ever, Run(s, more).rows[op.id], p);
  }

  /** Once a result by the operation's name was sent, an answer of its handler
    can be lost without anything unfair happening from then on. */
  lemma NotedCanLose(s: State, t: TaskId, op: Operation) returns (more: seq<Event>)
    requires Ready(s, t, op, Handling) && Granted(op.bindings) && Noted(s.net.ever, OperationName(op))
    ensures Fair(s, more, OperationName(op), op.id) && Lost(Run(s, more), OperationName(op), op.id)
  {
    hide Next, Run, Stored, Noted, Fair, Lost, Unsaid;
    var text := FreshText(s.net.ever);
    var p := Payload(true, text, None, None);
    var mono, now := s.work.tasks[t].budget.monotonicDeadline - 1, s.work.tasks[t].budget.localDeadline - 1;
    AnswerUnsent(s, t, op, p, mono, now);
    FreshIsUnsaid(s.net.ever, OperationName(op), p);
    more := StoredCanBeLost(s, Unsent(t, p, mono, now), op, p);
  }

  /** So can an answer that is being stored, or about to be sent, if it is none of the results sent. */
  lemma AnswerCanBeLost(s: State, t: TaskId, op: Operation, state: OperationState, answer: Payload) returns (more: seq<Event>)
    requires Ready(s, t, op, Storing(state, answer)) && Terminal(state) && Granted(op.bindings)
    requires Noted(s.net.ever, OperationName(op)) && Unsaid(s.net.ever, OperationName(op), Durable(answer))
    ensures Fair(s, more, OperationName(op), op.id) && Lost(Run(s, more), OperationName(op), op.id)
  {
    hide Next, Run, Stored, Noted, Fair, Lost, Unsaid, Ready, Held, Durable, Granted, Terminal;
    RunOfThree(s, Break, Store(t), Publish(t));
    Breaking(s, t, op, Storing(state, answer));
    StoringAnswer(Next(s, Break), t, op, state, answer);
    PublishingUnsent(Next(Next(s, Break), Store(t)), t, op, answer);
    more := StoredCanBeLost(s, [Break, Store(t), Publish(t)], op, Durable(answer));
  }

  lemma HeldCanBeLost(s: State, t: TaskId, op: Operation, answer: Payload) returns (more: seq<Event>)
    requires Held(s, t, op, answer) && Granted(op.bindings)
    requires Noted(s.net.ever, OperationName(op)) && Unsaid(s.net.ever, OperationName(op), Durable(answer))
    ensures Fair(s, more, OperationName(op), op.id) && Lost(Run(s, more), OperationName(op), op.id)
  {
    hide Next, Run, Stored, Noted, Fair, Lost, Unsaid, Held, Durable, Granted;
    RunOfTwo(s, Break, Publish(t));
    BreakingHeld(s, t, op, answer);
    PublishingUnsent(Next(s, Break), t, op, answer);
    more := StoredCanBeLost(s, [Break, Publish(t)], op, Durable(answer));
  }

  // On the way to the handler.

  predicate Unanswered(phase: Phase) {
    BeforeHandler(phase) || phase.Handling?
  }

  /** The operation's task has not been answered by its handler yet, and the
    operation has no result. */
  predicate Underway(s: State, t: TaskId, op: Operation) {
    && s.main.Listening? && s.net.link.Open? && t in s.work.tasks && s.work.tasks[t].op == op
    && Unanswered(s.work.tasks[t].phase) && Named(s.rows, op.id, OperationName(op)) && !Terminal(s.rows[op.id].state)
  }

  /** Nothing is delivered or acknowledged. */
  predicate Plain(e: Event) {
    !e.Deliver? && !e.Ack?
  }

  lemma PlainIsFair(s: State, events: seq<Event>, name: Name, id: OperationId)
    requires forall i :: 0 <= i < |events| ==> Plain(events[i])
    ensures Fair(s, events, name, id)
  {
    hide Run, Refused, Noted;
  }

  lemma FairSnoc(s: State, events: seq<Event>, e: Event, name: Name, id: OperationId)
    requires Fair(s, events, name, id) && FairStep(Run(s, events), e, name, id)
    ensures Fair(s, events + [e], name, id)
  {
    hide Run, FairStep;
    var all := events + [e];
    assert all[..|events|] == events;
    forall n | 0 <= n < |all| ensures FairStep(Run(s, all[..n]), all[n], name, id) {
      if n < |events| {
        assert all[..n] == events[..n] && all[n] == events[n];
      }
    }
  }

  lemma {:induction false} FairOfConcat(s: State, events: seq<Event>, more: seq<Event>, name: Name, id: OperationId)
    requires Fair(s, events, name, id) && Fair(Run(s, events), more, name, id)
    ensures Fair(s, events + more, name, id)
  {
    hide Run, Fair, FairStep;
    if more == [] {
      assert events + more == events;
    } else {
      var n := |more| - 1;
      FairEarlier(Run(s, events), more, name, id);
      FairOfConcat(s, events, more[..n], name, id);
      RunOfConcat(s, events, more[..n]);
      FairSnoc(s, events + more[..n], more[n], name, id);
      assert events + more == (events + more[..n]) + [more[n]];
    }
  }

  lemma Beginning(s: State, t: TaskId, op: Operation)
    requires Underway(s, t, op) && s.work.tasks[t].phase.Starting?
    ensures var u := Next(s, Begin(t)); Ready(u, t, op, Announcing) && u.net == s.net
  {
  }

  lemma AnnouncingInTime(s: State, t: TaskId, op: Operation, mono: int, now: int)
    requires Ready(s, t, op, Announcing) && s.net.link.Open? && !Late(s.work.tasks[t].budget, mono, now)
    ensures var u := Next(s, Announce(t, mono, now)); Ready(u, t, op, Entering) && s.net.ever <= u.net.ever
  {
    hide Late;
  }

  lemma EnteringHandler(s: State, t: TaskId, op: Operation)
    requires Ready(s, t, op, Entering)
    ensures var u := Next(s, Enter(t, true)); Ready(u, t, op, Handling) && u.net == s.net
  {
  }

  lemma RunOfOne(s: State, e: Event)
    ensures Run(s, [e]) == Next(s, e)
  {
    hide Next;
    RunSnoc(s, [], e);
    assert [] + [e] == [e];
  }

  /** A task underway may come to its handler, with nothing unfair on the way. */
  lemma ReachesHandler(s: State, t: TaskId, op: Operation) returns (way: seq<Event>)
    requires Underway(s, t, op) && Consistent(s)
    ensures forall i :: 0 <= i < |way| ==> Plain(way[i])
    ensures Ready(Run(s, way), t, op, Handling) && s.net.ever <= Run(s, way).net.ever
  {
    hide Next, Run, Ready, Settled, MainFits, Late;
    var phase := s.work.tasks[t].phase;
    if !phase.Starting? { UnderwayIsReady(s, t, op); }
    if phase.Starting? {
      Beginning(s, t, op);
      var u := Next(s, Begin(t));
      var mono, now := TimelyClock(u, t, op);
      way := [Begin(t), Announce(t, mono, now), Enter(t, true)];
      RunOfThree(s, Begin(t), Announce(t, mono, now), Enter(t, true));
      AnnouncingInTime(u, t, op, mono, now);
      EnteringHandler(Next(u, Announce(t, mono, now)), t, op);
    } else if phase.Announcing? {
      var mono, now := TimelyClock(s, t, op);
      way := [Announce(t, mono, now), Enter(t, true)];
      RunOfTwo(s, Announce(t, mono, now), Enter(t, true));
      AnnouncingInTime(s, t, op, mono, now);
      EnteringHandler(Next(s, Announce(t, mono, now)), t, op);
    } else if phase.Entering? {
      way := [Enter(t, true)];
      RunOfOne(s, Enter(t, true));
      EnteringHandler(s, t, op);
    } else {
      way := [];
      RunOfNothing(s);
    }
  }

  /** A reading of both clocks before the task's deadlines. */
  lemma TimelyClock(s: State, t: TaskId, op: Operation) returns (mono: int, now: int)
    requires Ready(s, t, op, Announcing)
    ensures !Late(s.work.tasks[t].budget, mono, now)
  {
    mono, now := s.work.tasks[t].budget.monotonicDeadline - 1, s.work.tasks[t].budget.localDeadline - 1;
  }

  lemma UnderwayIsReady(s: State, t: TaskId, op: Operation)
    requires Underway(s, t, op) && Consistent(s) && !s.work.tasks[t].phase.Starting?
    ensures Ready(s, t, op, s.work.tasks[t].phase)
  {
    hide Settled, MainFits;
  }

  lemma RunOfNothing(s: State)
    ensures Run(s, []) == s
  {
  }

  /** Once a result by the operation's name was sent, what its task brings can be
    lost, with nothing unfair from then on. */
  lemma UnderwayCanLose(s: State, t: TaskId, op: Operation) returns (more: seq<Event>)
    requires Underway(s, t, op) && Consistent(s) && Noted(s.net.ever, OperationName(op))
    ensures Fair(s, more, OperationName(op), op.id) && Lost(Run(s, more), OperationName(op), op.id)
  {
    hide Next, Run, Ready, Settled, TasksFit, MainFits, Fair, Lost, Plain, Notes;
    var way := ReachesHandler(s, t, op);
    PlainIsFair(s, way, OperationName(op), op.id);
    var u := Run(s, way);
    assert Granted(op.bindings) by { NamedIsGranted(s, op); }
    var rest := NotedCanLose(u, t, op);
    FairOfConcat(s, way, rest, OperationName(op), op.id);
    RunOfConcat(s, way, rest);
    more := way + rest;
  }

  lemma NamedIsGranted(s: State, op: Operation)
    requires Consistent(s) && Named(s.rows, op.id, OperationName(op))
    ensures Granted(op.bindings)
  {
    hide TasksFit, MainFits;
  }

  /** What the refusal of a delivery says. */
  function RefusalOf(s: State, op: Operation, mono: int, now: int): Payload
    requires Refused(s, op, mono, now)
  {
    ToolFailure(Refusal(s.(work := s.work.(budgets := Pruned(s, mono))), op, now).value, "refused")
  }

  lemma RefusedIsNoted(s: State, op: Operation, at: int, mono: int, now: int)
    requires Refused(s, op, mono, now) && s.net.link.Open?
    ensures var u := AfterDeliver(s, op, at, mono, now);
      && Noted(u.net.ever, OperationName(op)) && u.main.Listening? && u.net.link.Open?
      && u.rows == s.rows && u.work.tasks == s.work.tasks && s.net.ever <= u.net.ever
      && forall m :: m in u.net.ever && m !in s.net.ever ==>
           m.kind == ResultNote(RefusalOf(s, op, mono, now)) && MessageName(m) == OperationName(op)
  {
    hide Pruned, Refusal;
    var m := OpResult(s, op, RefusalOf(s, op, mono, now));
    assert m in AfterDeliver(s, op, at, mono, now).net.ever && Notes(m, OperationName(op));
  }

  /** A redelivery comes in on a working connection while a task of the operation
    has not ended. */
  ghost predicate Redelivered(s: State, t: TaskId, op: Operation) {
    && s.main.Listening? && s.net.link.Open? && t in s.work.tasks && !s.work.tasks[t].phase.Ended?
    && s.work.tasks[t].op.id == op.id && OperationName(s.work.tasks[t].op) == OperationName(op)
    && Named(s.rows, op.id, OperationName(op))
  }

  predicate Answers(phase: Phase) {
    phase.Storing? || phase.Publishing?
  }

  /** The handler's answer is the refusal itself, word for word. */
  predicate Echoes(s: State, t: TaskId, op: Operation, mono: int, now: int)
    requires t in s.work.tasks
  {
    && Answers(s.work.tasks[t].phase) && Refused(s, op, mono, now)
    && Durable(s.work.tasks[t].phase.answer) == RefusalOf(s, op, mono, now)
  }

  /** After a fair run, what a task of the operation brings can be lost without the
    relay being at fault if and only if the redelivery is refused and the result
    was not sent before. */
  lemma LostExactlyByRefusal(projects: set<string>, limit: nat, events: seq<Event>, t: TaskId, op: Operation, at: int,
                             mono: int, now: int)
    requires Fair(Initial(projects, limit), events, OperationName(op), op.id)
    requires Redelivered(Run(Initial(projects, limit), events), t, op)
    requires !Echoes(Run(Initial(projects, limit), events), t, op, mono, now)
    ensures var s := Run(Initial(projects, limit), events);
      var u := Next(s, Deliver(op, at, mono, now));
      (exists more :: Fair(u, more, OperationName(op), op.id) && Lost(Run(u, more), OperationName(op), op.id))
      <==> Refused(s, op, mono, now) && !Borne(s.net.ever, s.rows[op.id])
  {
    hide Next, Run, Fair, Initial, Lost, Refused, Borne, Echoes;
    var s := Run(Initial(projects, limit), events);
    var u := Next(s, Deliver(op, at, mono, now));
    if Refused(s, op, mono, now) && !Borne(s.net.ever, s.rows[op.id]) {
      var more := RefusalCanLose(projects, limit, events, t, op, at, mono, now);
    } else {
      forall more | Fair(u, more, OperationName(op), op.id) ensures !Lost(Run(u, more), OperationName(op), op.id) {
        OtherwiseNeverLoses(projects, limit, events, t, op, at, mono, now, more);
      }
    }
  }

  /** Everything that is known of a state reached by a fair run. */
  ghost predicate Reached(s: State, name: Name, id: OperationId) {
    Safe(s) && Consistent(s) && Served(s) && Faithful(s, name, id) && s.net.sent <= s.net.ever
  }

  lemma FairRunsReach(projects: set<string>, limit: nat, events: seq<Event>, name: Name, id: OperationId)
    requires Fair(Initial(projects, limit), events, name, id)
    ensures Reached(Run(Initial(projects, limit), events), name, id)
  {
    hide Next, Run, Initial, Fair, Faithful, Safe, Consistent, Served;
    var first := Initial(projects, limit);
    RunOfNothing(first);
    NothingNoted(projects, limit, name, id);
    FairRunsAreFaithful(projects, limit, [], events, name, id);
    EveryRunIsSafe(projects, limit, events);
    EveryRunIsConsistent(projects, limit, events);
    EveryRunIsServed(projects, limit, events);
    SentIsEver(projects, limit, events);
  }

  lemma NextKeepsSent(s: State, e: Event)
    requires s.net.sent <= s.net.ever
    ensures Next(s, e).net.sent <= Next(s, e).net.ever
  {
    hide Pruned, Refusal, OpResult, RetryBudget, BudgetOf, Live, Uncertain, Ending, Late, ReplayList, RecordingOf,
         Recorded, Transitioned, MayTransition, Acknowledged, Durable;
  }

  /** What this connection carried is part of what any connection carried. */
  lemma {:induction false} SentIsEver(projects: set<string>, limit: nat, events: seq<Event>)
    ensures var net := Run(Initial(projects, limit), events).net; net.sent <= net.ever
  {
    hide Next;
    if events != [] {
      SentIsEver(projects, limit, events[..|events| - 1]);
      NextKeepsSent(Run(Initial(projects, limit), events[..|events| - 1]), events[|events| - 1]);
    }
  }

  lemma RefusalCanLose(projects: set<string>, limit: nat, events: seq<Event>, t: TaskId, op: Operation, at: int,
                       mono: int, now: int) returns (more: seq<Event>)
    requires Fair(Initial(projects, limit), events, OperationName(op), op.id)
    requires Redelivered(Run(Initial(projects, limit), events), t, op)
    requires !Echoes(Run(Initial(projects, limit), events), t, op, mono, now)
    requires var s := Run(Initial(projects, limit), events);
      Refused(s, op, mono, now) && !Borne(s.net.ever, s.rows[op.id])
    ensures var u := Next(Run(Initial(projects, limit), events), Deliver(op, at, mono, now));
      Fair(u, more, OperationName(op), op.id) && Lost(Run(u, more), OperationName(op), op.id)
  {
    hide Next, Run, Fair, Initial, Lost, Refused, Reached, Consistent, Safe, Borne, Echoes;
    var s := Run(Initial(projects, limit), events);
    FairRunsReach(projects, limit, events, OperationName(op), op.id);
    more := ReachedCanLose(s, t, op, at, mono, now);
  }

  lemma ReachedCanLose(s: State, t: TaskId, op: Operation, at: int, mono: int, now: int) returns (more: seq<Event>)
    requires Reached(s, OperationName(op), op.id) && Redelivered(s, t, op) && !Echoes(s, t, op, mono, now)
    requires Refused(s, op, mono, now) && !Borne(s.net.ever, s.rows[op.id])
    ensures var u := Next(s, Deliver(op, at, mono, now));
      Fair(u, more, OperationName(op), op.id) && Lost(Run(u, more), OperationName(op), op.id)
  {
    hide Next, Run, Fair, Lost, Refused, Safe, Consistent, Served, Faithful, Noted, Borne, Unsaid, Underway, Ready, Held,
         AfterDeliver, Durable, Granted, Terminal;
    var u := Next(s, Deliver(op, at, mono, now));
    var own, phase := s.work.tasks[t].op, s.work.tasks[t].phase;
    NextOfDeliver(s, op, at, mono, now);
    RefusedIsNoted(s, op, at, mono, now);
    NextKeepsConsistent(s, Deliver(op, at, mono, now));
    NothingSaidBefore(s, op.id, OperationName(op));
    NotStale(s, t, OperationName(op));
    WhereItStands(u, t, own);
    assert Granted(op.bindings) && Granted(own.bindings);
    if phase.Storing? {
      RefusalSaysOther(s, u, op, at, mono, now, phase.answer);
      more := AnswerCanBeLost(u, t, own, phase.state, phase.answer);
    } else if phase.Publishing? {
      RefusalSaysOther(s, u, op, at, mono, now, phase.answer);
      more := HeldCanBeLost(u, t, own, phase.answer);
    } else {
      more := UnderwayCanLose(u, t, own);
    }
  }

  lemma NextOfDeliver(s: State, op: Operation, at: int, mono: int, now: int)
    ensures Next(s, Deliver(op, at, mono, now)) == AfterDeliver(s, op, at, mono, now)
  {
    hide AfterDeliver;
  }

  /** Until the row's own result was sent, no result by its name was. */
  lemma NothingSaidBefore(s: State, id: OperationId, name: Name)
    requires Faithful(s, name, id) && s.main.Listening? && Named(s.rows, id, name) && !Borne(s.net.ever, s.rows[id])
    ensures !Noted(s.net.ever, name)
  {
    hide Notes, Carries, Wired, Alone, AckedSent;
  }

  /** A task that starts on a terminal row finds the row's result sent. */
  lemma StaleIsBorne(s: State, t: TaskId, name: Name)
    requires InPhase(s, t, Starting) && s.main.Listening? && s.net.link.Open?
    requires var id := s.work.tasks[t].op.id;
      Reached(s, name, id) && Named(s.rows, id, name) && Terminal(s.rows[id].state)
    ensures Borne(s.net.ever, s.rows[s.work.tasks[t].op.id])
  {
    hide Rooted, AtMostOnce, Bounded, Carries, Durable, Wired, Alone, Told, SentFirst, MemoryServed, Grounded, MainFits,
         TasksFit;
    var id := s.work.tasks[t].op.id;
    assert s.rows[id].result.Some?;
    if !s.rows[id].acked {
      assert Covered(s.main, s.net, s.work, id, s.rows[id]);
      assert !TaskWillSend(s.work, id, s.rows[id]);
    }
  }

  lemma NotStale(s: State, t: TaskId, name: Name)
    requires t in s.work.tasks && s.main.Listening? && s.net.link.Open?
    requires var id := s.work.tasks[t].op.id;
      Reached(s, name, id) && Named(s.rows, id, name) && !Borne(s.net.ever, s.rows[id])
    ensures s.work.tasks[t].phase.Starting? ==> !Terminal(s.rows[s.work.tasks[t].op.id].state)
  {
    hide Reached, Borne;
    if InPhase(s, t, Starting) && Terminal(s.rows[s.work.tasks[t].op.id].state) {
      StaleIsBorne(s, t, name);
    }
  }

  /** The phase of a task says how far its operation is. */
  lemma WhereItStands(s: State, t: TaskId, op: Operation)
    requires Consistent(s) && s.main.Listening? && s.net.link.Open? && t in s.work.tasks && s.work.tasks[t].op == op
    requires !s.work.tasks[t].phase.Ended? && Named(s.rows, op.id, OperationName(op))
    requires s.work.tasks[t].phase.Starting? ==> !Terminal(s.rows[op.id].state)
    ensures var phase := s.work.tasks[t].phase;
      && Granted(op.bindings)
      && (!Answers(phase) ==> Underway(s, t, op))
      && (phase.Storing? ==> Ready(s, t, op, phase) && Terminal(phase.state))
      && (phase.Publishing? ==> Held(s, t, op, phase.answer))
  {
    hide MainFits, Durable;
    assert Fits(s.work.tasks[t].phase, s.rows[op.id]);
  }

  /** The refusal is the only result by the name, and it is not the answer. */
  lemma RefusalSaysOther(s: State, u: State, op: Operation, at: int, mono: int, now: int, answer: Payload)
    requires Refused(s, op, mono, now) && s.net.link.Open? && u == AfterDeliver(s, op, at, mono, now)
    requires !Noted(s.net.ever, OperationName(op)) && Durable(answer) != RefusalOf(s, op, mono, now)
    ensures Unsaid(u.net.ever, OperationName(op), Durable(answer))
  {
    hide Refused, AfterDeliver, OperationName;
    RefusedIsNoted(s, op, at, mono, now);
    forall m | m in u.net.ever && Notes(m, OperationName(op)) ensures Durable(m.kind.payload) != Durable(answer) {
      assert m !in s.net.ever;
    }
  }

  lemma OtherwiseNeverLoses(projects: set<string>, limit: nat, events: seq<Event>, t: TaskId, op: Operation, at: int,
                            mono: int, now: int, more: seq<Event>)
    requires Fair(Initial(projects, limit), events, OperationName(op), op.id)
    requires var s := Run(Initial(projects, limit), events);
      && Redelivered(s, t, op) && (!Refused(s, op, mono, now) || Borne(s.net.ever, s.rows[op.id]))
      && Fair(Next(s, Deliver(op, at, mono, now)), more, OperationName(op), op.id)
    ensures var s := Run(Initial(projects, limit), events);
      !Lost(Run(Next(s, Deliver(op, at, mono, now)), more), OperationName(op), op.id)
  {
    hide Next, Run, Initial, Fair, Refused, Faithful, Safe, Consistent, Served, Noted, Borne;
    var first, e, name := Initial(projects, limit), Deliver(op, at, mono, now), OperationName(op);
    var s := Run(first, events);
    FairRunsReach(projects, limit, events, name, op.id);
    ServedIsGrounded(s);
    if Refused(s, op, mono, now) {
      NextOfDeliver(s, op, at, mono, now);
      SaidAlreadyKeepsFaithful(s, op, at, mono, now);
    } else {
      NextKeepsFaithful(s, e, name, op.id);
    }
    RunSnoc(first, events, e);
    FairRunsAreFaithful(projects, limit, events + [e], more, name, op.id);
    FaithfulLosesNothing(Run(Next(s, e), more), name, op.id);
  }

  /** A refusal after the row's own result was sent does no harm. */
  lemma SaidAlreadyKeepsFaithful(s: State, op: Operation, at: int, mono: int, now: int)
    requires Faithful(s, OperationName(op), op.id) && Refused(s, op, mono, now) && s.net.link.Open?
    requires Named(s.rows, op.id, OperationName(op)) && Borne(s.net.ever, s.rows[op.id])
    ensures Faithful(AfterDeliver(s, op, at, mono, now), OperationName(op), op.id)
  {
    hide Pruned, Refusal, Carries;
    var n :| n in s.net.ever && Carries(n, s.rows[op.id]);
    var u := AfterDeliver(s, op, at, mono, now);
    assert n in u.net.ever && Borne(u.net.ever, s.rows[op.id]);
    assert s.rows[op.id].result.Some? by { CarriedIsThere(n, s.rows[op.id]); }
  }

  lemma CarriedIsThere(m: Message, row: Row)
    requires Carries(m, row)
    ensures row.result.Some?
  {
  }

  lemma FaithfulLosesNothing(s: State, name: Name, id: OperationId)
    requires Faithful(s, name, id)
    ensures !Lost(s, name, id)
  {
    hide Told, SentFirst, Wired, Alone, Borne;
  }
}
