/** A resend never buys an operation more time. */
module TunnelBudgets {
  import opened Wrappers
  import opened OperationStore
  import opened ExecutionBudget
  import opened Tunnel
  import opened TunnelSafety
  import opened TunnelDelivery

  /** The budget ends by the wire deadline, and by the journalled receipt plus
    the wire duration of the delivery it was made for. */
  predicate Within(budget: Budget, op: Operation, receivedAt: int) {
    && op.deadline.Some?
    && budget.localDeadline <= op.deadline.value
    && budget.localDeadline <= receivedAt + (op.deadline.value - op.sentAt)
  }

  ghost predicate TasksWithin(rows: Rows, w: Work) {
    forall t :: t in w.tasks ==>
      w.tasks[t].op.id in rows && Within(w.tasks[t].budget, w.tasks[t].op, rows[w.tasks[t].op.id].receivedAt)
  }

  /** What the coroutine knows of the clock readings of the delivery in hand. */
  ghost predicate Timed(rows: Rows, main: Main) {
    && (main.Journalling? || Admitted(main) ==> main.arrival.op.deadline == Some(main.arrival.deadline))
    && (Admitted(main) ==> main.arrival.op.id in rows)
    && (FreshlyInserted(main) ==> main.arrival.at <= rows[main.arrival.op.id].receivedAt)
    && (main.Known? ==> main.prior.receivedAt == rows[main.arrival.op.id].receivedAt)
  }

  ghost predicate Budgeted(s: State) {
    TasksWithin(s.rows, s.work) && Timed(s.rows, s.main)
  }

  predicate Starts(e: Event) {
    e.Journal? || e.Accept? || e.Decide?
  }

  /** No task is new, and none has changed its operation or its budget. */
  ghost predicate SameTasks(w: Work, x: Work) {
    SameTable(w.tasks, x.tasks)
  }

  ghost predicate SameTable(m: map<TaskId, Task>, n: map<TaskId, Task>) {
    forall t :: t in n ==> t in m && n[t].op == m[t].op && n[t].budget == m[t].budget
  }

  /** The same table, or another phase of one task. */
  ghost predicate OnePhase(m: map<TaskId, Task>, n: map<TaskId, Task>, t: TaskId) {
    n == m || (t in m && t in n && n == m[t := m[t].(phase := n[t].phase)])
  }

  lemma OnePhaseIsSame(m: map<TaskId, Task>, n: map<TaskId, Task>, t: TaskId)
    requires OnePhase(m, n, t)
    ensures SameTable(m, n)
  {
  }

  lemma BeginningKeepsTasks(s: State, t: TaskId)
    ensures SameTasks(s.work, AfterBegin(s, t).work)
  {
    hide MayTransition, Transitioned, SameTable;
    OnePhaseIsSame(s.work.tasks, AfterBegin(s, t).work.tasks, t);
  }

  lemma StoringKeepsTasks(s: State, t: TaskId)
    ensures SameTasks(s.work, AfterStore(s, t).work)
  {
    hide MayTransition, Transitioned, Durable, SameTable;
    OnePhaseIsSame(s.work.tasks, AfterStore(s, t).work.tasks, t);
  }

  lemma AnnouncingKeepsTasks(s: State, t: TaskId, mono: int, now: int)
    ensures SameTasks(s.work, AfterAnnounce(s, t, mono, now).work)
  {
    hide Late, SameTable;
    OnePhaseIsSame(s.work.tasks, AfterAnnounce(s, t, mono, now).work.tasks, t);
  }

  lemma HandlingKeepsTasks(s: State, t: TaskId, mono: int, now: int, inTime: bool, outcome: Outcome)
    ensures SameTasks(s.work, AfterEnter(s, t, inTime).work) && SameTasks(s.work, AfterReturn(s, t, outcome, mono, now).work)
  {
    hide Ending, SameTable;
    OnePhaseIsSame(s.work.tasks, AfterEnter(s, t, inTime).work.tasks, t);
    OnePhaseIsSame(s.work.tasks, AfterReturn(s, t, outcome, mono, now).work.tasks, t);
  }

  lemma EndingKeepsTasks(s: State, t: TaskId)
    ensures SameTasks(s.work, AfterPublish(s, t).work) && SameTasks(s.work, AfterReap(s, t).work)
  {
    hide OpResult;
    OnePhaseIsSame(s.work.tasks, AfterPublish(s, t).work.tasks, t);
  }

  lemma TaskStepsKeepTasks(s: State, e: Event)
    requires OfTask(e)
    ensures SameTasks(s.work, Next(s, e).work)
  {
    hide SameTasks, AfterBegin, AfterAnnounce, AfterEnter, AfterReturn, AfterStore, AfterPublish, AfterReap;
    match e
    case Announce(t, mono, now) => AnnouncingKeepsTasks(s, t, mono, now);
    case Enter(t, inTime) => HandlingKeepsTasks(s, t, t, t, inTime, TimedOut);
    case Return(t, outcome, mono, now) => HandlingKeepsTasks(s, t, mono, now, false, outcome);
    case Begin(t) => BeginningKeepsTasks(s, t);
    case Store(t) => StoringKeepsTasks(s, t);
    case Publish(t) => EndingKeepsTasks(s, t);
    case Reap(t) => EndingKeepsTasks(s, t);
  }

  lemma OtherEventsKeepTasks(s: State, e: Event)
    requires !Starts(e)
    ensures SameTasks(s.work, Next(s, e).work)
  {
    hide Pruned, Refusal, OpResult, ReplayList, MayTransition, Transitioned, Acknowledged,
         AfterBegin, AfterAnnounce, AfterEnter, AfterReturn, AfterStore, AfterPublish, AfterReap;
    if OfTask(e) {
      TaskStepsKeepTasks(s, e);
    } else {
      assert Next(s, e).work.tasks == s.work.tasks || e.Crash?;
    }
  }

  /** The delivery in hand stays the same, apart from a row read for it, or is the one that came in. */
  ghost predicate SameDelivery(rows: Rows, main: Main, next: Main, e: Event) {
    && (next.Journalling? && next != main ==>
          e.Deliver? && next.arrival.op == e.op && next.arrival.op.deadline == Some(next.arrival.deadline))
    && (Admitted(next) ==> Admitted(main) && next.arrival == main.arrival)
    && (FreshlyInserted(next) ==> FreshlyInserted(main))
    && (next.Known? ==> next == main || (next.arrival.op.id in rows && next.prior == rows[next.arrival.op.id]))
  }

  lemma TasksKeepDelivery(s: State, e: Event)
    requires OfTask(e)
    ensures SameDelivery(s.rows, s.main, Next(s, e).main, e)
  {
    hide OpResult, Ending, Late, MayTransition, Transitioned;
  }

  lemma DeliverKeepsDelivery(s: State, e: Event)
    requires e.Deliver?
    ensures SameDelivery(s.rows, s.main, Next(s, e).main, e)
  {
    hide Pruned, QueueFull, OpResult;
  }

  lemma OtherEventsKeepDelivery(s: State, e: Event)
    requires !Starts(e)
    ensures SameDelivery(s.rows, s.main, Next(s, e).main, e)
  {
    hide OpResult, ReplayList, MayTransition, Transitioned, Acknowledged, AfterDeliver,
         AfterBegin, AfterAnnounce, AfterEnter, AfterReturn, AfterStore, AfterPublish, AfterReap;
    if OfTask(e) {
      TasksKeepDelivery(s, e);
    } else if e.Deliver? {
      DeliverKeepsDelivery(s, e);
    }
  }

  lemma DeliveryStaysTimed(rows: Rows, later: Rows, main: Main, next: Main, e: Event)
    requires Timed(rows, main) && Advances(rows, later) && SameDelivery(rows, main, next, e)
    ensures Timed(later, next)
  {
  }

  lemma TasksStayWithin(rows: Rows, later: Rows, w: Work, x: Work)
    requires TasksWithin(rows, w) && Advances(rows, later) && SameTasks(w, x)
    ensures TasksWithin(later, x)
  {
    hide Within;
  }

  lemma OtherEventsKeepBudgeted(s: State, e: Event)
    requires Budgeted(s) && !Starts(e)
    ensures Budgeted(Next(s, e))
  {
    hide Next, TasksWithin, Timed, Advances, SameTasks, SameDelivery;
    if Writes(e) { WritesKeepRows(s, e); } else { OtherEventsKeepRows(s, e); NothingAdvances(s.rows); }
    OtherEventsKeepTasks(s, e);
    OtherEventsKeepDelivery(s, e);
    TasksStayWithin(s.rows, Next(s, e).rows, s.work, Next(s, e).work);
    DeliveryStaysTimed(s.rows, Next(s, e).rows, s.main, Next(s, e).main, e);
  }

  /** The journal is written after the delivery came in, by a clock that has not stepped back. */
  lemma JournalKeepsBudgeted(s: State, now: int)
    requires Budgeted(s) && (s.main.Journalling? ==> s.main.arrival.at <= now)
    ensures Budgeted(AfterJournal(s, now))
  {
    hide Within;
  }

  lemma AcceptKeepsBudgeted(s: State, task: TaskId)
    requires Budgeted(s)
    ensures Budgeted(AfterAccept(s, task))
  {
  }

  lemma DecideKeepsBudgeted(s: State, task: TaskId)
    requires Budgeted(s)
    ensures Budgeted(AfterDecide(s, task))
  {
    hide Uncertain, Live, OpResult;
  }

  ghost predicate Punctual(s: State, events: seq<Event>) {
    forall n :: 0 <= n < |events| && events[n].Journal? && Run(s, events[..n]).main.Journalling? ==>
      Run(s, events[..n]).main.arrival.at <= events[n].now
  }

  /** Every execution in every run, over redeliveries, reconnections and restarts. */
  lemma {:induction false} BudgetNeverResets(projects: set<string>, limit: nat, events: seq<Event>)
    requires Punctual(Initial(projects, limit), events)
    ensures Budgeted(Run(Initial(projects, limit), events))
  {
    hide Budgeted;
    if events != [] {
      var n := |events| - 1;
      var s, e := Run(Initial(projects, limit), events[..n]), events[n];
      assert Punctual(Initial(projects, limit), events[..n]) by {
        assert forall k :: 0 <= k < n ==> events[..n][k] == events[k] && events[..n][..k] == events[..k];
      }
      BudgetNeverResets(projects, limit, events[..n]);
      if e.Journal? { JournalKeepsBudgeted(s, e.now); }
      else if e.Accept? { AcceptKeepsBudgeted(s, e.task); }
      else if e.Decide? { DecideKeepsBudgeted(s, e.task); }
      else { OtherEventsKeepBudgeted(s, e); }
    } else {
      NothingStarted(projects, limit);
    }
  }

  lemma NothingStarted(projects: set<string>, limit: nat)
    ensures Budgeted(Initial(projects, limit))
  {
  }

  ghost predicate WasDelivered(events: seq<Event>, op: Operation) {
    exists k :: 0 <= k < |events| && events[k].Deliver? && events[k].op == op
  }

  /** Every task works on an envelope that came in. */
  ghost predicate Sourced(s: State, events: seq<Event>) {
    && (forall t :: t in s.work.tasks ==> WasDelivered(events, s.work.tasks[t].op))
    && (s.main.Journalling? || Admitted(s.main) ==> WasDelivered(events, s.main.arrival.op))
  }

  lemma DeliveredEarlier(events: seq<Event>, op: Operation)
    requires |events| > 0 && WasDelivered(events[..|events| - 1], op)
    ensures WasDelivered(events, op)
  {
    var k :| 0 <= k < |events| - 1 && events[..|events| - 1][k].Deliver? && events[..|events| - 1][k].op == op;
    assert events[k].op == op;
  }

  lemma StartsKeepSource(s: State, e: Event)
    requires Starts(e)
    ensures forall t :: t in Next(s, e).work.tasks ==>
      || (t in s.work.tasks && Next(s, e).work.tasks[t].op == s.work.tasks[t].op)
      || (Admitted(s.main) && Next(s, e).work.tasks[t].op == s.main.arrival.op)
    ensures var main := Next(s, e).main;
      main.Journalling? || Admitted(main) ==> (s.main.Journalling? || Admitted(s.main)) && main.arrival == s.main.arrival
  {
    hide OpResult, Uncertain, Live, BudgetOf, RetryBudget, RecordingOf, Recorded;
  }

  lemma {:induction false} EveryTaskWasDelivered(projects: set<string>, limit: nat, events: seq<Event>)
    ensures Sourced(Run(Initial(projects, limit), events), events)
  {
    hide Next, WasDelivered;
    if events != [] {
      var n := |events| - 1;
      var s, e := Run(Initial(projects, limit), events[..n]), events[n];
      EveryTaskWasDelivered(projects, limit, events[..n]);
      forall op | WasDelivered(events[..n], op) ensures WasDelivered(events, op) {
        DeliveredEarlier(events, op);
      }
      if Starts(e) {
        StartsKeepSource(s, e);
      } else {
        OtherEventsKeepTasks(s, e);
        OtherEventsKeepDelivery(s, e);
        if e.Deliver? { LastWasDelivered(events); }
      }
    }
  }

  lemma LastWasDelivered(events: seq<Event>)
    requires |events| > 0 && events[|events| - 1].Deliver?
    ensures WasDelivered(events, events[|events| - 1].op)
  {
  }

  /** When resends are stamped no earlier than the first delivery, none of them
    outlives the journalled receipt by more than the first wire duration. */
  lemma FirstDurationBounds(projects: set<string>, limit: nat, events: seq<Event>, t: TaskId, first: int)
    requires Punctual(Initial(projects, limit), events) && t in Run(Initial(projects, limit), events).work.tasks
    requires var id := Run(Initial(projects, limit), events).work.tasks[t].op.id;
      forall k :: 0 <= k < |events| && events[k].Deliver? && events[k].op.id == id ==> first <= events[k].op.sentAt
    ensures var s := Run(Initial(projects, limit), events);
      var task := s.work.tasks[t];
      && task.op.deadline.Some? && task.op.id in s.rows
      && task.budget.localDeadline <= Min(task.op.deadline.value,
                                          s.rows[task.op.id].receivedAt + (task.op.deadline.value - first))
  {
    hide Run, Initial, Punctual;
    BudgetNeverResets(projects, limit, events);
    EveryTaskWasDelivered(projects, limit, events);
    var s := Run(Initial(projects, limit), events);
    assert WasDelivered(events, s.work.tasks[t].op);
  }

  /** The delivery in hand came in at its reading of the loop's clock. */
  ghost predicate CameIn(events: seq<Event>, a: Arrival) {
    exists k :: 0 <= k < |events| && events[k].Deliver? && events[k].op == a.op && events[k].mono == a.mono
  }

  /** Some delivery of the envelope leaves the budget no more than its wire
    duration on the loop's clock. */
  ghost predicate Granted(events: seq<Event>, op: Operation, budget: Budget) {
    op.deadline.Some?
    && exists k :: 0 <= k < |events| && events[k].Deliver? && events[k].op == op
         && budget.monotonicDeadline <= events[k].mono + (op.deadline.value - op.sentAt)
  }

  ghost predicate Metered(s: State, events: seq<Event>) {
    && (forall t :: t in s.work.tasks ==> Granted(events, s.work.tasks[t].op, s.work.tasks[t].budget))
    && (s.main.Journalling? || Admitted(s.main) ==>
          CameIn(events, s.main.arrival) && s.main.arrival.op.deadline == Some(s.main.arrival.deadline))
  }

  lemma GrantedEarlier(events: seq<Event>, op: Operation, budget: Budget)
    requires |events| > 0 && Granted(events[..|events| - 1], op, budget)
    ensures Granted(events, op, budget)
  {
    var early := events[..|events| - 1];
    var k :| 0 <= k < |early| && early[k].Deliver? && early[k].op == op
      && budget.monotonicDeadline <= early[k].mono + (op.deadline.value - op.sentAt);
    assert events[k] == early[k];
  }

  lemma CameEarlier(events: seq<Event>, a: Arrival)
    requires |events| > 0 && CameIn(events[..|events| - 1], a)
    ensures CameIn(events, a)
  {
    var early := events[..|events| - 1];
    var k :| 0 <= k < |early| && early[k].Deliver? && early[k].op == a.op && early[k].mono == a.mono;
    assert events[k] == early[k];
  }

  predicate WithinWire(budget: Budget, a: Arrival) {
    budget.monotonicDeadline <= a.mono + (a.deadline - a.op.sentAt)
  }

  /** A task that starts has its budget from the delivery in hand. */
  lemma StartsAreMetered(s: State, e: Event)
    requires Starts(e)
    ensures forall t :: t in Next(s, e).work.tasks ==>
      var task := Next(s, e).work.tasks[t];
      || (t in s.work.tasks && task == s.work.tasks[t])
      || (Admitted(s.main) && task.op == s.main.arrival.op && WithinWire(task.budget, s.main.arrival))
  {
    hide OpResult, Uncertain, Live, RecordingOf, Recorded, FromEnvelope;
    if Admitted(s.main) {
      var a := s.main.arrival;
      NoMoreThanTheWire(a.op.sentAt, a.deadline, a.at, a.mono, NotAsked);
      if s.main.Known? {
        NoMoreThanTheWire(a.op.sentAt, a.deadline, a.at, a.mono, At(s.main.prior.receivedAt));
      }
    }
  }

  lemma DeliveredNow(s: State, e: Event)
    requires e.Deliver? && Next(s, e).main.Journalling? && Next(s, e).main != s.main
    ensures Next(s, e).main.arrival.op == e.op && Next(s, e).main.arrival.mono == e.mono
  {
    hide Pruned, QueueFull, OpResult;
  }

  /** Over every run: no task has more time on the loop's clock than the wire
    duration of a delivery of its envelope, counted from when that came in. */
  lemma {:induction false} EveryTaskIsMetered(projects: set<string>, limit: nat, events: seq<Event>)
    ensures Metered(Run(Initial(projects, limit), events), events)
  {
    hide Next, Granted, CameIn, WithinWire;
    if events != [] {
      var n := |events| - 1;
      var s, e := Run(Initial(projects, limit), events[..n]), events[n];
      EveryTaskIsMetered(projects, limit, events[..n]);
      MetersLast(s, events);
    }
  }

  lemma MetersLast(s: State, events: seq<Event>)
    requires |events| > 0 && Metered(s, events[..|events| - 1])
    ensures Metered(Next(s, events[|events| - 1]), events)
  {
    hide Next, Granted, CameIn, WithinWire;
    var n := |events| - 1;
    var e, u := events[n], Next(s, events[n]);
    if Starts(e) {
      StartsAreMetered(s, e);
      StartsKeepSource(s, e);
    } else {
      OtherEventsKeepTasks(s, e);
      OtherEventsKeepDelivery(s, e);
    }
    forall t | t in u.work.tasks ensures Granted(events, u.work.tasks[t].op, u.work.tasks[t].budget) {
      var task := u.work.tasks[t];
      if t in s.work.tasks && task.op == s.work.tasks[t].op && task.budget == s.work.tasks[t].budget {
        GrantedEarlier(events, task.op, task.budget);
      } else {
        CameEarlier(events, s.main.arrival);
        GrantedByArrival(events, s.main.arrival, u.work.tasks[t].budget);
      }
    }
    if u.main.Journalling? || Admitted(u.main) {
      if (s.main.Journalling? || Admitted(s.main)) && u.main.arrival == s.main.arrival {
        CameEarlier(events, s.main.arrival);
      } else {
        DeliveredNow(s, e);
        LastCame(events, u.main.arrival);
      }
    }
  }

  lemma GrantedByArrival(events: seq<Event>, a: Arrival, budget: Budget)
    requires CameIn(events, a) && a.op.deadline == Some(a.deadline) && WithinWire(budget, a)
    ensures Granted(events, a.op, budget)
  {
  }

  lemma LastCame(events: seq<Event>, a: Arrival)
    requires |events| > 0 && events[|events| - 1].Deliver?
    requires a.op == events[|events| - 1].op && a.mono == events[|events| - 1].mono
    ensures CameIn(events, a)
  {
  }
}
