/** A run that loses a result, event by event: with room for one operation, any
  admissible operation, delivered again while its handler runs. */
module TunnelLosingRun {
  import opened Wrappers
  import opened OperationStore
  import opened ExecutionBudget
  import opened Tunnel
  import opened TunnelDelivery
  import opened TunnelRows
  import opened TunnelReceipts
  import opened TunnelLoss

  /** The operation is admitted at time zero. */
  predicate Admissible(op: Operation, projects: set<string>) {
    && op.epoch == 1 && op.deadline.Some? && op.deadline.value > 0 && op.sentAt < op.deadline.value
    && (op.action.project.Some? ==> op.action.project == op.bindings.project)
    && Granted(op.bindings) && (op.bindings.project.Some? ==> op.bindings.project.value in projects)
  }

  function Came(op: Operation): Arrival
    requires op.deadline.Some?
  {
    Arrival(op, op.deadline.value, 0, 0)
  }

  function NoteOf(op: Operation, kind: Kind): Message {
    Message(kind, op.correlation, op.bindings, DigestOf(op.action), 1)
  }

  const REFUSED := ToolFailure("queue_full", "refused")

  function OneRow(op: Operation, state: OperationState, result: Option<Payload>, acked: bool): Rows
    requires op.deadline.Some?
  {
    map[op.id := Row(ReceiptOf(op, op.deadline.value), state, result, acked, 1, 0)]
  }

  function OneTask(op: Operation, budget: Budget, phase: Phase, runs: nat): Work {
    Work(map[0 := Task(op, budget, false, phase)], map[op.id := 0], map[op.id := budget], multiset{}[op.id := runs])
  }

  const IDLE := Work(map[], map[], map[], multiset{})

  function At(projects: set<string>, rows: Rows, main: Main, carried: set<Message>, work: Work,
              terminals: map<Correlation, Message>): State
  {
    State(rows, projects, 1, main, Net(Open, 1, carried, carried), work, terminals)
  }

  const SETUP := [Connect, Welcome(1), Hello, BeginReplay, ListOwed, EndReplay]

  lemma Connected(projects: set<string>)
    ensures Run(Initial(projects, 1), SETUP) == At(projects, map[], Listening, {}, IDLE, map[])
  {
    hide Run;
    RunOfThree(Initial(projects, 1), Connect, Welcome(1), Hello);
    var a := Run(Initial(projects, 1), [Connect, Welcome(1), Hello]);
    assert a == At(projects, map[], Greeted, {}, IDLE, map[]);
    RunOfThree(a, BeginReplay, ListOwed, EndReplay);
    assert ReplayList(a, map[]) == {};
    RunOfConcat(Initial(projects, 1), [Connect, Welcome(1), Hello], [BeginReplay, ListOwed, EndReplay]);
    assert SETUP == [Connect, Welcome(1), Hello] + [BeginReplay, ListOwed, EndReplay];
  }

  lemma Delivered(projects: set<string>, op: Operation)
    requires Admissible(op, projects)
    ensures Next(At(projects, map[], Listening, {}, IDLE, map[]), Deliver(op, 0, 0, 0)) ==
      At(projects, map[], Journalling(Came(op)), {}, IDLE, map[])
  {
    assert Pruned(At(projects, map[], Listening, {}, IDLE, map[]), 0) == map[];
  }

  lemma JournalWritten(projects: set<string>, op: Operation)
    requires Admissible(op, projects)
    ensures Next(At(projects, map[], Journalling(Came(op)), {}, IDLE, map[]), Journal(0)) ==
      At(projects, OneRow(op, Received, None, false), Confirming(Came(op), true), {}, IDLE, map[])
  {
  }

  lemma Receipted(projects: set<string>, op: Operation)
    requires Admissible(op, projects)
    ensures Next(At(projects, OneRow(op, Received, None, false), Confirming(Came(op), true), {}, IDLE, map[]), Confirm) ==
      At(projects, OneRow(op, Received, None, false), Confirmed(Came(op), true), {NoteOf(op, ReceivedNote(false))}, IDLE,
         map[])
  {
  }

  lemma Accepted(projects: set<string>, op: Operation, ever: set<Message>)
    requires Admissible(op, projects)
    ensures Next(At(projects, OneRow(op, Received, None, false), Confirmed(Came(op), true), ever, IDLE, map[]), Accept(0)) ==
      At(projects, OneRow(op, Received, None, false), Listening, ever,
         OneTask(op, BudgetOf(Came(op), NotAsked), Starting, 0), map[])
  {
  }

  lemma Begun(projects: set<string>, op: Operation, b: Budget, ever: set<Message>)
    requires op.deadline.Some?
    ensures Next(At(projects, OneRow(op, Received, None, false), Listening, ever, OneTask(op, b, Starting, 0), map[]),
                 Begin(0)) ==
      At(projects, OneRow(op, Running, None, false), Listening, ever, OneTask(op, b, Announcing, 0), map[])
  {
  }

  lemma Announced(projects: set<string>, op: Operation, b: Budget, ever: set<Message>)
    requires op.deadline.Some? && !Late(b, 0, 0)
    ensures Next(At(projects, OneRow(op, Running, None, false), Listening, ever, OneTask(op, b, Announcing, 0), map[]),
                 Announce(0, 0, 0)) ==
      At(projects, OneRow(op, Running, None, false), Listening, ever + {NoteOf(op, StartedNote)},
         OneTask(op, b, Entering, 0), map[])
  {
    hide Late;
  }

  lemma Handled(projects: set<string>, op: Operation, b: Budget, ever: set<Message>)
    requires op.deadline.Some?
    ensures Next(At(projects, OneRow(op, Running, None, false), Listening, ever, OneTask(op, b, Entering, 0), map[]),
                 Enter(0, true)) ==
      At(projects, OneRow(op, Running, None, false), Listening, ever, OneTask(op, b, Handling, 1), map[])
  {
  }

  function Remembered(op: Operation, p: Payload): map<Correlation, Message> {
    map[op.correlation := NoteOf(op, ResultNote(p))]
  }

  lemma RefusedAgain(projects: set<string>, op: Operation, b: Budget, ever: set<Message>)
    requires op.deadline.Some? && op.epoch == 1 && !Late(b, 0, 0)
    ensures Next(At(projects, OneRow(op, Running, None, false), Listening, ever, OneTask(op, b, Handling, 1), map[]),
                 Deliver(op, 0, 0, 0)) ==
      At(projects, OneRow(op, Running, None, false), Listening, ever + {NoteOf(op, ResultNote(REFUSED))},
         OneTask(op, b, Handling, 1), Remembered(op, REFUSED))
  {
    var s := At(projects, OneRow(op, Running, None, false), Listening, ever, OneTask(op, b, Handling, 1), map[]);
    assert Pruned(s, 0) == s.work.budgets;
    assert QueueFull(s, op.id);
  }

  lemma Answered(projects: set<string>, op: Operation, b: Budget, ever: set<Message>, p: Payload)
    requires op.deadline.Some? && !Late(b, 0, 0)
    ensures Next(At(projects, OneRow(op, Running, None, false), Listening, ever, OneTask(op, b, Handling, 1),
                    Remembered(op, REFUSED)), Return(0, Outcome.Answered(p), 0, 0)) ==
      At(projects, OneRow(op, Running, None, false), Listening, ever, OneTask(op, b, Storing(Succeeded, p), 1),
         Remembered(op, REFUSED))
  {
    hide Late;
  }

  function AckOf(op: Operation): Event {
    Ack(op.correlation, DigestOf(op.action), op.bindings)
  }

  function AckingOf(op: Operation): Main {
    Acking(op.correlation, DigestOf(op.action), op.bindings)
  }

  lemma AckReceived(projects: set<string>, op: Operation, b: Budget, ever: set<Message>, p: Payload)
    requires op.deadline.Some? && Granted(op.bindings)
    ensures Next(At(projects, OneRow(op, Running, None, false), Listening, ever,
                    OneTask(op, b, Storing(Succeeded, p), 1), Remembered(op, REFUSED)), AckOf(op)) ==
      At(projects, OneRow(op, Running, None, false), AckingOf(op), ever, OneTask(op, b, Storing(Succeeded, p), 1),
         Remembered(op, REFUSED))
  {
  }

  lemma StoredMeanwhile(projects: set<string>, op: Operation, b: Budget, ever: set<Message>, p: Payload)
    requires op.deadline.Some? && Durable(p) == p
    ensures Next(At(projects, OneRow(op, Running, None, false), AckingOf(op), ever,
                    OneTask(op, b, Storing(Succeeded, p), 1), Remembered(op, REFUSED)), Store(0)) ==
      At(projects, OneRow(op, Succeeded, Some(p), false), AckingOf(op), ever, OneTask(op, b, Publishing(p), 1),
         Remembered(op, REFUSED))
  {
    hide Next, Durable, ReceiptOf, NoteOf;
    NextOfTask(At(projects, OneRow(op, Running, None, false), AckingOf(op), ever,
                  OneTask(op, b, Storing(Succeeded, p), 1), Remembered(op, REFUSED)), 0);
  }

  lemma AckStored(projects: set<string>, op: Operation, b: Budget, ever: set<Message>, p: Payload)
    requires op.deadline.Some?
    ensures Next(At(projects, OneRow(op, Succeeded, Some(p), false), AckingOf(op), ever, OneTask(op, b, Publishing(p), 1),
                    Remembered(op, REFUSED)), StoreAck) ==
      At(projects, OneRow(op, Succeeded, Some(p), true), Acked(op.correlation), ever, OneTask(op, b, Publishing(p), 1),
         Remembered(op, REFUSED))
  {
  }

  /** The connection breaks before the result is sent, and the memory of it goes
    with the acknowledgement. */
  function After(projects: set<string>, op: Operation, b: Budget, ever: set<Message>, p: Payload): State
    requires op.deadline.Some?
  {
    State(OneRow(op, Succeeded, Some(p), true), projects, 1, Listening, Net(Broken, 1, ever, ever),
          OneTask(op, b, Ended, 1).(budgets := map[]), map[])
  }

  lemma BrokenOff(projects: set<string>, op: Operation, b: Budget, ever: set<Message>, p: Payload)
    requires op.deadline.Some?
    ensures Run(At(projects, OneRow(op, Succeeded, Some(p), true), Acked(op.correlation), ever,
                   OneTask(op, b, Publishing(p), 1), Remembered(op, REFUSED)), [Break, Publish(0), FinishAck]) ==
      After(projects, op, b, ever, p)
  {
    hide Run;
    var s := At(projects, OneRow(op, Succeeded, Some(p), true), Acked(op.correlation), ever,
                OneTask(op, b, Publishing(p), 1), Remembered(op, REFUSED));
    RunOfThree(s, Break, Publish(0), FinishAck);
    var t := s.(net := Net(Broken, 1, ever, ever));
    assert Next(s, Break) == t;
    Unsendable(t, op, b, p);
  }

  lemma Unsendable(s: State, op: Operation, b: Budget, p: Payload)
    requires s.net.link.Broken? && s.net.epoch == 1
    requires s.work == OneTask(op, b, Publishing(p), 1) && s.terminals == Remembered(op, REFUSED)
    ensures Next(s, Publish(0)) == s.(work := OneTask(op, b, Ended, 1).(budgets := map[]), terminals := Remembered(op, p))
  {
    hide Next;
    NextOfTask(s, 0);
  }

  function ArrivingRun(op: Operation): seq<Event> {
    [Deliver(op, 0, 0, 0), Journal(0), Confirm, Accept(0)]
  }

  const RUNNING := [Begin(0), Announce(0, 0, 0), Enter(0, true)]

  function RefusedRun(op: Operation, p: Payload): seq<Event> {
    [Deliver(op, 0, 0, 0), Return(0, Outcome.Answered(p), 0, 0)]
  }

  function AckedRun(op: Operation): seq<Event> {
    [AckOf(op), Store(0), StoreAck]
  }

  function LosingRun(op: Operation, p: Payload): seq<Event> {
    SETUP + (ArrivingRun(op) + (RUNNING + (RefusedRun(op, p) + (AckedRun(op) + [Break, Publish(0), FinishAck]))))
  }

  function Sent(op: Operation): set<Message> {
    {NoteOf(op, ReceivedNote(false))} + {NoteOf(op, StartedNote)} + {NoteOf(op, ResultNote(REFUSED))}
  }

  lemma LosingRunEnds(projects: set<string>, op: Operation, p: Payload)
    requires Admissible(op, projects) && p.image.None?
    ensures Run(Initial(projects, 1), LosingRun(op, p)) == After(projects, op, BudgetOf(Came(op), NotAsked), Sent(op), p)
  {
    hide Next, Run, BudgetOf, Late, At, OneRow, OneTask, After;
    var b := BudgetOf(Came(op), NotAsked);
    assert !Late(b, 0, 0) by { InTime(op, projects); }
    var first := {NoteOf(op, ReceivedNote(false))};
    var ever := first + {NoteOf(op, StartedNote)};
    Connected(projects);
    var s0 := At(projects, map[], Listening, {}, IDLE, map[]);
    RunOfFour(s0, Deliver(op, 0, 0, 0), Journal(0), Confirm, Accept(0));
    Delivered(projects, op);
    JournalWritten(projects, op);
    Receipted(projects, op);
    Accepted(projects, op, first);
    var s1 := Run(s0, ArrivingRun(op));
    RunOfThree(s1, Begin(0), Announce(0, 0, 0), Enter(0, true));
    Begun(projects, op, b, first);
    Announced(projects, op, b, first);
    Handled(projects, op, b, ever);
    var s2 := Run(s1, RUNNING);
    RunOfTwo(s2, Deliver(op, 0, 0, 0), Return(0, Outcome.Answered(p), 0, 0));
    RefusedAgain(projects, op, b, ever);
    Answered(projects, op, b, Sent(op), p);
    var s3 := Run(s2, RefusedRun(op, p));
    RunOfThree(s3, AckOf(op), Store(0), StoreAck);
    AckReceived(projects, op, b, Sent(op), p);
    StoredMeanwhile(projects, op, b, Sent(op), p);
    AckStored(projects, op, b, Sent(op), p);
    var s4 := Run(s3, AckedRun(op));
    BrokenOff(projects, op, b, Sent(op), p);
    RunOfConcat(s3, AckedRun(op), [Break, Publish(0), FinishAck]);
    RunOfConcat(s2, RefusedRun(op, p), AckedRun(op) + [Break, Publish(0), FinishAck]);
    RunOfConcat(s1, RUNNING, RefusedRun(op, p) + (AckedRun(op) + [Break, Publish(0), FinishAck]));
    RunOfConcat(s0, ArrivingRun(op), RUNNING + (RefusedRun(op, p) + (AckedRun(op) + [Break, Publish(0), FinishAck])));
    RunOfConcat(Initial(projects, 1), SETUP,
                ArrivingRun(op) + (RUNNING + (RefusedRun(op, p) + (AckedRun(op) + [Break, Publish(0), FinishAck]))));
  }

  lemma InTime(op: Operation, projects: set<string>)
    requires Admissible(op, projects)
    ensures !Late(BudgetOf(Came(op), NotAsked), 0, 0)
  {
  }

  /** Any answer but the refusal itself is lost: stored, acknowledged, never sent,
    forgotten, and not in the next connection's replay list. */
  lemma ResultLost(projects: set<string>, op: Operation, p: Payload)
    requires Admissible(op, projects) && p.image.None? && p != REFUSED
    ensures var s := Run(Initial(projects, 1), LosingRun(op, p));
      && Lost(s, OperationName(op), op.id) && s.rows[op.id].result == Some(p)
      && s.terminals == map[] && ReplayList(s, s.terminals) == {}
  {
    hide Next, Run, BudgetOf, LosingRun;
    LosingRunEnds(projects, op, p);
    var s := Run(Initial(projects, 1), LosingRun(op, p));
    assert OwedMessages(s) == {};
  }
}
