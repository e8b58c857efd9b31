/** What every run keeps between the rows, the tasks that work on them and the
  operation in hand. */
module TunnelRows {
  import opened Wrappers
  import opened OperationStore
  import opened ExecutionBudget
  import opened Tunnel
  import opened TunnelSafety
  import opened TunnelDelivery

  predicate Granted(bindings: Bindings) {
    bindings.grant.Some? && bindings.link.Some?
  }

  /** A row has a result exactly when it is terminal. */
  ghost predicate Settled(rows: Rows) {
    forall id :: id in rows ==>
      (rows[id].result.Some? <==> Terminal(rows[id].state)) && Granted(rows[id].receipt.bindings)
  }

  /** Between its first transition and its last one. */
  predicate Active(phase: Phase) {
    phase.Announcing? || phase.Entering? || phase.Handling? || (phase.Storing? && Terminal(phase.state))
  }

  /** What the row of a task in this phase says. */
  predicate Fits(phase: Phase, row: Row) {
    && (phase.Storing? ==> Active(phase))
    && (Active(phase) ==> row.state.Running?)
    && (phase.Publishing? ==> row.result == Some(Durable(phase.answer)))
  }

  ghost predicate TasksFit(rows: Rows, w: Work) {
    forall t :: t in w.tasks ==> w.tasks[t].op.id in rows && Fits(w.tasks[t].phase, rows[w.tasks[t].op.id])
  }

  ghost predicate Idle(w: Work, id: OperationId) {
    forall t :: t in w.tasks && w.tasks[t].op.id == id ==> w.tasks[t].phase.Ended?
  }

  /** A row read earlier still holds, as far as it had a result; an operation
    given up on has no live task, and then holds the answer that says so. */
  ghost predicate MainFits(rows: Rows, main: Main, w: Work) {
    && (main.Journalling? ==> Granted(main.arrival.op.bindings))
    && (main.Known? && main.prior.result.Some? ==>
          main.arrival.op.id in rows && rows[main.arrival.op.id].result == main.prior.result)
    && (main.Terminalizing? || main.Terminalized? ==> Idle(w, main.op.id))
    && (main.Terminalized? ==> main.op.id in rows && rows[main.op.id].result == Some(UNCERTAIN))
  }

  ghost predicate Fitting(rows: Rows, main: Main, w: Work) {
    Settled(rows) && TasksFit(rows, w) && MainFits(rows, main, w)
  }

  /** The rows say the same, apart from new ones and from acknowledgements. */
  ghost predicate SameOutcomes(rows: Rows, later: Rows) {
    && (forall id :: id in rows ==>
          id in later && later[id].state == rows[id].state && later[id].result == rows[id].result
          && later[id].receipt == rows[id].receipt)
    && (forall id :: id in later && id !in rows ==>
          later[id].state.Received? && later[id].result.None? && Granted(later[id].receipt.bindings))
  }

  predicate Follows(phase: Phase, next: Phase) {
    next == phase || next.Ended? || (Active(phase) && Active(next))
  }

  /** No task is new, and none goes through a transition of its row. */
  ghost predicate Tame(w: Work, x: Work) {
    forall t :: t in x.tasks ==>
      t in w.tasks && x.tasks[t].op == w.tasks[t].op && Follows(w.tasks[t].phase, x.tasks[t].phase)
  }

  ghost predicate MainFollows(rows: Rows, main: Main, next: Main, w: Work) {
    && (next.Journalling? ==> next == main || Granted(next.arrival.op.bindings))
    && (next.Known? ==> next == main || (next.arrival.op.id in rows && next.prior == rows[next.arrival.op.id]))
    && (next.Terminalizing? ==> next == main || Idle(w, next.op.id))
    && (next.Terminalized? ==> next == main)
  }

  lemma TameKeepsFitting(rows: Rows, later: Rows, main: Main, next: Main, w: Work, x: Work)
    requires Fitting(rows, main, w) && SameOutcomes(rows, later) && Tame(w, x) && MainFollows(rows, main, next, w)
    ensures Fitting(later, next, x)
  {
    hide SameOutcomes, Settled, TasksFit, MainFits, Tame, MainFollows;
    SameOutcomesStaySettled(rows, later);
    TameTasksFit(rows, later, w, x);
    TameMainFits(rows, later, main, next, w, x);
  }

  lemma SameOutcomesStaySettled(rows: Rows, later: Rows)
    requires Settled(rows) && SameOutcomes(rows, later)
    ensures Settled(later)
  {
    hide Granted;
  }

  lemma TameTasksFit(rows: Rows, later: Rows, w: Work, x: Work)
    requires TasksFit(rows, w) && SameOutcomes(rows, later) && Tame(w, x)
    ensures TasksFit(later, x)
  {
    hide Granted, Durable, Terminal;
    forall t | t in x.tasks ensures x.tasks[t].op.id in later && Fits(x.tasks[t].phase, later[x.tasks[t].op.id]) {
      assert Fits(w.tasks[t].phase, rows[w.tasks[t].op.id]);
    }
  }

  lemma TameMainFits(rows: Rows, later: Rows, main: Main, next: Main, w: Work, x: Work)
    requires MainFits(rows, main, w) && SameOutcomes(rows, later) && Tame(w, x) && MainFollows(rows, main, next, w)
    ensures MainFits(later, next, x)
  {
    hide Granted, Terminal, Active;
    if next.Terminalizing? || next.Terminalized? {
      assert Idle(w, next.op.id);
      IdleStays(w, x, next.op.id);
    }
  }

  lemma IdleStays(w: Work, x: Work, id: OperationId)
    requires Idle(w, id) && Tame(w, x)
    ensures Idle(x, id)
  {
  }

  lemma SameRows(rows: Rows)
    ensures SameOutcomes(rows, rows)
  {
  }

  /** The same table, or one task in a phase that follows. */
  lemma OneFollows(w: Work, x: Work, t: TaskId, phase: Phase)
    requires t in w.tasks && x.tasks == w.tasks[t := w.tasks[t].(phase := phase)] && Follows(w.tasks[t].phase, phase)
    ensures Tame(w, x)
  {
  }

  /** One row written by the one live task of its operation. */
  ghost predicate Written(rows: Rows, later: Rows, id: OperationId, phase: Phase) {
    && id in rows && later.Keys == rows.Keys && (forall k :: k in rows && k != id ==> later[k] == rows[k])
    && rows[id].result.None? && later[id].receipt == rows[id].receipt
    && (later[id].result.Some? <==> Terminal(later[id].state)) && Fits(phase, later[id])
  }

  lemma WriteKeepsFitting(rows: Rows, later: Rows, main: Main, w: Work, x: Work, t: TaskId, phase: Phase)
    requires Fitting(rows, main, w) && OneLive(w)
    requires t in w.tasks && !w.tasks[t].phase.Ended? && x.tasks == w.tasks[t := w.tasks[t].(phase := phase)]
    requires Written(rows, later, w.tasks[t].op.id, phase)
    ensures Fitting(later, main, x)
  {
    hide Fits, Granted, Terminal;
    WriteFitsTasks(rows, later, w, x, t, phase);
    assert !Idle(w, w.tasks[t].op.id);
  }

  lemma WriteFitsTasks(rows: Rows, later: Rows, w: Work, x: Work, t: TaskId, phase: Phase)
    requires TasksFit(rows, w) && OneLive(w)
    requires t in w.tasks && !w.tasks[t].phase.Ended? && x.tasks == w.tasks[t := w.tasks[t].(phase := phase)]
    requires Written(rows, later, w.tasks[t].op.id, phase)
    ensures TasksFit(later, x)
  {
    hide Granted, Durable, Terminal;
    forall u | u in x.tasks ensures x.tasks[u].op.id in later && Fits(x.tasks[u].phase, later[x.tasks[u].op.id]) {
      assert Fits(w.tasks[u].phase, rows[w.tasks[u].op.id]);
      if u != t && w.tasks[u].op.id == w.tasks[t].op.id {
        assert w.tasks[u].phase.Ended?;
      }
    }
  }

  ghost predicate Consistent(s: State) {
    Fitting(s.rows, s.main, s.work)
  }

  /** A step that starts no task and decides no result. */
  ghost predicate Mild(s: State, t: State) {
    SameOutcomes(s.rows, t.rows) && Tame(s.work, t.work) && MainFollows(s.rows, s.main, t.main, s.work)
  }

  lemma MildKeepsConsistent(s: State, t: State)
    requires Consistent(s) && Mild(s, t)
    ensures Consistent(t)
  {
    hide Fitting, SameOutcomes, Tame, MainFollows;
    TameKeepsFitting(s.rows, t.rows, s.main, t.main, s.work, t.work);
  }

  lemma SameTasks(w: Work, x: Work)
    requires x.tasks == w.tasks
    ensures Tame(w, x)
  {
  }

  lemma ConnectingIsMild(s: State, epoch: nat)
    ensures Mild(s, AfterConnect(s)) && Mild(s, AfterWelcome(s, epoch)) && Mild(s, AfterHello(s)) && Mild(s, AfterLeave(s))
  {
    hide SameOutcomes, Tame;
    SameRows(s.rows);
    SameTasks(s.work, s.work);
  }

  lemma ListingIsMild(s: State)
    ensures Mild(s, AfterBeginReplay(s)) && Mild(s, AfterListOwed(s)) && Mild(s, AfterEndReplay(s))
  {
    hide SameOutcomes, Tame, ReplayList;
    SameRows(s.rows);
    SameTasks(s.work, s.work);
  }

  lemma ReplayIsMild(s: State, m: Message)
    ensures Mild(s, AfterReplay(s, m))
  {
    hide SameOutcomes, Tame, ReplayList;
    SameRows(s.rows);
    SameTasks(s.work, s.work);
  }

  lemma BreakingIsMild(s: State)
    ensures Mild(s, AfterMalformed(s)) && Mild(s, AfterNotice(s)) && Mild(s, AfterBreak(s)) && Mild(s, AfterFinishAck(s))
  {
    hide SameOutcomes, Tame;
    SameRows(s.rows);
    SameTasks(s.work, s.work);
  }

  lemma AnsweringIsMild(s: State)
    ensures Mild(s, AfterConfirm(s)) && Mild(s, AfterLookUp(s)) && Mild(s, AfterPublishTerminalized(s))
  {
    hide SameOutcomes, Tame, OpResult;
    SameRows(s.rows);
    SameTasks(s.work, s.work);
  }

  lemma DeliverIsMild(s: State, op: Operation, at: int, mono: int, now: int)
    ensures Mild(s, AfterDeliver(s, op, at, mono, now))
  {
    hide SameOutcomes, Tame, OpResult, QueueFull;
    SameRows(s.rows);
    SameTasks(s.work, AfterDeliver(s, op, at, mono, now).work);
  }

  lemma JournalIsMild(s: State, now: int)
    requires Consistent(s)
    ensures Mild(s, AfterJournal(s, now))
  {
    hide SameOutcomes, Tame, Recorded, RecordingOf, Settled, TasksFit;
    SameRows(s.rows);
    SameTasks(s.work, s.work);
    if s.main.Journalling? {
      var a := s.main.arrival;
      RecordedSame(s.rows, s.projects, a.op.id, ReceiptOf(a.op, a.deadline), s.net.epoch, now);
    }
  }

  lemma RecordedSame(rows: Rows, projects: set<string>, id: OperationId, receipt: Receipt, epoch: nat, now: int)
    requires Granted(receipt.bindings)
    ensures SameOutcomes(rows, Recorded(rows, projects, id, receipt, epoch, now))
  {
  }

  lemma AckIsMild(s: State, correlation: Correlation, digest: ActionDigest, bindings: Bindings)
    ensures Mild(s, AfterAck(s, correlation, digest, bindings))
  {
    hide Tame, SameOutcomes;
    SameRows(s.rows);
    SameTasks(s.work, s.work);
  }

  lemma StoreAckIsMild(s: State)
    ensures Mild(s, AfterStoreAck(s))
  {
    hide Tame, Acknowledged, SameOutcomes;
    SameRows(s.rows);
    SameTasks(s.work, s.work);
    if s.main.Acking? {
      AcknowledgedSame(s.rows, s.main.correlation, s.main.digest, s.main.bindings);
    }
  }

  lemma AcknowledgedSame(rows: Rows, correlation: Correlation, digest: ActionDigest, bindings: Bindings)
    ensures SameOutcomes(rows, Acknowledged(rows, correlation, digest, bindings))
  {
    hide Acknowledges;
  }

  lemma AnnounceIsMild(s: State, t: TaskId, mono: int, now: int)
    ensures Mild(s, AfterAnnounce(s, t, mono, now))
  {
    hide Tame, SameOutcomes, Late;
    SameRows(s.rows);
    SameTasks(s.work, s.work);
    if InPhase(s, t, Announcing) {
      var x := AfterAnnounce(s, t, mono, now).work;
      OneFollows(s.work, x, t, x.tasks[t].phase);
    }
  }

  lemma EnterIsMild(s: State, t: TaskId, inTime: bool)
    ensures Mild(s, AfterEnter(s, t, inTime))
  {
    hide Tame, SameOutcomes;
    SameRows(s.rows);
    SameTasks(s.work, s.work);
    if InPhase(s, t, Entering) {
      var x := AfterEnter(s, t, inTime).work;
      OneFollows(s.work, x, t, x.tasks[t].phase);
    }
  }

  lemma EndingIsTerminal(task: Task, outcome: Outcome, mono: int, now: int)
    ensures Active(Ending(task, outcome, mono, now)) && Ending(task, outcome, mono, now).Storing?
  {
    hide Late, Uncertain;
  }

  lemma ReturnIsMild(s: State, t: TaskId, outcome: Outcome, mono: int, now: int)
    ensures Mild(s, AfterReturn(s, t, outcome, mono, now))
  {
    hide Tame, SameOutcomes, Ending;
    SameRows(s.rows);
    SameTasks(s.work, s.work);
    if InPhase(s, t, Handling) {
      EndingIsTerminal(s.work.tasks[t], outcome, mono, now);
      var x := AfterReturn(s, t, outcome, mono, now).work;
      OneFollows(s.work, x, t, x.tasks[t].phase);
    }
  }

  lemma PublishIsMild(s: State, t: TaskId)
    ensures Mild(s, AfterPublish(s, t)) && Mild(s, AfterReap(s, t))
  {
    hide Tame, SameOutcomes, OpResult;
    SameRows(s.rows);
    SameTasks(s.work, s.work);
    if t in s.work.tasks && s.work.tasks[t].phase.Publishing? {
      OneFollows(s.work, AfterPublish(s, t).work, t, Ended);
    }
    if InPhase(s, t, Ended) {
      FewerTasks(s.work, AfterReap(s, t).work, t);
    }
  }

  lemma FewerTasks(w: Work, x: Work, t: TaskId)
    requires x.tasks == w.tasks - {t}
    ensures Tame(w, x)
  {
  }

  lemma CrashIsMild(s: State)
    ensures Mild(s, AfterCrash(s))
  {
    hide SameOutcomes;
    SameRows(s.rows);
  }

  lemma NonTerminalMoves(rows: Rows, id: OperationId, state: OperationState)
    requires Settled(rows) && MayTransition(rows, id, state) && !Terminal(state)
    ensures rows[id].result.None?
  {
  }

  lemma BeginKeepsConsistent(s: State, t: TaskId)
    requires Consistent(s) && Safe(s)
    ensures Consistent(AfterBegin(s, t))
  {
    hide Fitting, OneLive, AtMostOnce, Bounded, Rooted, SameOutcomes, Tame, Settled, TasksFit, MainFits;
    if InPhase(s, t, Starting) {
      var id, u := s.work.tasks[t].op.id, AfterBegin(s, t);
      if MayTransition(s.rows, id, Running) {
        assert Settled(s.rows) by { FittingParts(s); }
        NonTerminalMoves(s.rows, id, Running);
        WriteKeepsFitting(s.rows, u.rows, s.main, s.work, u.work, t, Announcing);
      } else {
        SameRows(s.rows);
        OneFollows(s.work, u.work, t, Ended);
        MildKeepsConsistent(s, u);
      }
    }
  }

  lemma FittingParts(s: State)
    requires Consistent(s)
    ensures Settled(s.rows) && TasksFit(s.rows, s.work) && MainFits(s.rows, s.main, s.work)
  {
  }

  lemma TaskFits(s: State, t: TaskId)
    requires TasksFit(s.rows, s.work) && t in s.work.tasks
    ensures s.work.tasks[t].op.id in s.rows && Fits(s.work.tasks[t].phase, s.rows[s.work.tasks[t].op.id])
  {
  }

  lemma RowOf(rows: Rows, id: OperationId)
    requires Settled(rows) && id in rows
    ensures rows[id].result.Some? <==> Terminal(rows[id].state)
  {
  }

  lemma StoreKeepsConsistent(s: State, t: TaskId)
    requires Consistent(s) && Safe(s)
    ensures Consistent(AfterStore(s, t))
  {
    hide Fitting, OneLive, AtMostOnce, Bounded, Rooted, SameOutcomes, Tame, Settled, TasksFit, MainFits,
         Durable;
    if t in s.work.tasks && s.work.tasks[t].phase.Storing? {
      var id, phase, u := s.work.tasks[t].op.id, s.work.tasks[t].phase, AfterStore(s, t);
      FittingParts(s);
      TaskFits(s, t);
      RowOf(s.rows, id);
      WriteKeepsFitting(s.rows, u.rows, s.main, s.work, u.work, t, Publishing(phase.answer));
    }
  }

  lemma TerminalizeKeepsConsistent(s: State)
    requires Consistent(s)
    ensures Consistent(AfterTerminalize(s))
  {
    hide Settled, TasksFit, Transitioned, MayTransition, SameOutcomes, Tame;
    if s.main.Terminalizing? {
      FittingParts(s);
      var id, u := s.main.op.id, AfterTerminalize(s);
      if MayTransition(s.rows, id, OutcomeUnknown) {
        GivenUp(s.rows, u.rows, s.work, id);
      } else {
        SameRows(s.rows);
        SameTasks(s.work, u.work);
        MildKeepsConsistent(s, u);
      }
    }
  }

  lemma GivenUp(rows: Rows, later: Rows, w: Work, id: OperationId)
    requires Settled(rows) && TasksFit(rows, w) && Idle(w, id) && MayTransition(rows, id, OutcomeUnknown)
    requires later == Transitioned(rows, id, OutcomeUnknown, Some(UNCERTAIN))
    ensures Settled(later) && TasksFit(later, w) && id in later && later[id].result == Some(UNCERTAIN)
  {
    hide Durable;
  }

  /** An operation without a live task has none at all that still counts. */
  lemma NotLiveIsIdle(w: Work, id: OperationId)
    requires OneLive(w) && !Live(w, id)
    ensures Idle(w, id)
  {
  }

  lemma StartKeepsConsistent(s: State, task: TaskId, op: Operation, budget: Budget, reconcile: bool)
    requires Consistent(s) && op.id in s.rows && task !in s.work.tasks && Admitted(s.main)
    ensures Consistent(Tunnel.StartDispatch(s, task, op, budget, reconcile))
  {
    hide Settled;
  }

  lemma AcceptKeepsConsistent(s: State, task: TaskId)
    requires Consistent(s) && Safe(s)
    ensures Consistent(AfterAccept(s, task))
  {
    hide Consistent, OneLive, AtMostOnce, Bounded, BudgetOf, Tunnel.StartDispatch;
    if s.main.Confirmed? && s.main.inserted && task !in s.work.tasks {
      StartKeepsConsistent(s, task, s.main.arrival.op, BudgetOf(s.main.arrival, NotAsked), false);
    }
  }

  lemma DecideKeepsConsistent(s: State, task: TaskId)
    requires Consistent(s) && Safe(s)
    ensures Consistent(AfterDecide(s, task))
  {
    hide Consistent, OneLive, AtMostOnce, Bounded, BudgetOf, RetryBudget, Tunnel.StartDispatch, Uncertain, Live,
         OpResult, SameOutcomes, Tame, Idle;
    SameRows(s.rows);
    SameTasks(s.work, s.work);
    if s.main.Known? && task !in s.work.tasks {
      var a, prior, u := s.main.arrival, s.main.prior, AfterDecide(s, task);
      if prior.result.None? && !Live(s.work, a.op.id) && !Uncertain(a.op.action) {
        StartKeepsConsistent(s, task, a.op, RetryBudget(s, a, prior), true);
      } else {
        if u.main.Terminalizing? { NotLiveIsIdle(s.work, a.op.id); }
        MildKeepsConsistent(s, u);
      }
    }
  }

  predicate IsMild(e: Event) {
    !(e.Begin? || e.Store? || e.Terminalize? || e.Accept? || e.Decide?)
  }

  lemma MildTask(s: State, e: Event)
    requires IsMild(e) && OfTask(e)
    ensures Mild(s, Next(s, e))
  {
    hide Mild, AfterConnect, AfterWelcome, AfterHello, AfterBeginReplay, AfterListOwed, AfterReplay,
         AfterEndReplay, AfterDeliver, AfterMalformed, AfterJournal, AfterConfirm, AfterAccept, AfterLookUp,
         AfterDecide, AfterTerminalize, AfterPublishTerminalized, AfterAck, AfterStoreAck, AfterFinishAck,
         AfterBreak, AfterNotice, AfterLeave, AfterCrash, AfterBegin, AfterAnnounce, AfterEnter, AfterReturn,
         AfterStore, AfterPublish, AfterReap;
    match e
    case Announce(t, mono, now) => AnnounceIsMild(s, t, mono, now);
    case Enter(t, inTime) => EnterIsMild(s, t, inTime);
    case Return(t, outcome, mono, now) => ReturnIsMild(s, t, outcome, mono, now);
    case Publish(t) => PublishIsMild(s, t);
    case Reap(t) => PublishIsMild(s, t);
  }

  lemma MildConnection(s: State, e: Event)
    requires Consistent(s) && IsMild(e) && !OfTask(e)
    ensures Mild(s, Next(s, e))
  {
    hide Mild, Consistent, AfterConnect, AfterWelcome, AfterHello, AfterBeginReplay, AfterListOwed, AfterReplay,
         AfterEndReplay, AfterDeliver, AfterMalformed, AfterJournal, AfterConfirm, AfterAccept, AfterLookUp,
         AfterDecide, AfterTerminalize, AfterPublishTerminalized, AfterAck, AfterStoreAck, AfterFinishAck,
         AfterBreak, AfterNotice, AfterLeave, AfterCrash, AfterBegin, AfterAnnounce, AfterEnter, AfterReturn,
         AfterStore, AfterPublish, AfterReap;
    match e
    case Welcome(epoch) => ConnectingIsMild(s, epoch);
    case Replay(m) => ReplayIsMild(s, m);
    case Deliver(op, at, mono, now) => DeliverIsMild(s, op, at, mono, now);
    case Journal(now) => JournalIsMild(s, now);
    case Ack(correlation, digest, bindings) => AckIsMild(s, correlation, digest, bindings);
    case StoreAck => StoreAckIsMild(s);
    case Crash => CrashIsMild(s);
    case _ =>
      ConnectingIsMild(s, s.net.epoch);
      ListingIsMild(s);
      BreakingIsMild(s);
      AnsweringIsMild(s);
  }

  lemma NextKeepsConsistent(s: State, e: Event)
    requires Consistent(s) && Safe(s)
    ensures Consistent(Next(s, e))
  {
    hide Consistent, Safe, Mild, AfterConnect, AfterWelcome, AfterHello, AfterBeginReplay, AfterListOwed,
         AfterReplay, AfterEndReplay, AfterDeliver, AfterMalformed, AfterJournal, AfterConfirm, AfterAccept,
         AfterLookUp, AfterDecide, AfterTerminalize, AfterPublishTerminalized, AfterAck, AfterStoreAck,
         AfterFinishAck, AfterBreak, AfterNotice, AfterLeave, AfterCrash, AfterBegin, AfterAnnounce, AfterEnter,
         AfterReturn, AfterStore, AfterPublish, AfterReap;
    match e
    case Begin(t) => BeginKeepsConsistent(s, t);
    case Store(t) => StoreKeepsConsistent(s, t);
    case Terminalize => TerminalizeKeepsConsistent(s);
    case Accept(task) => AcceptKeepsConsistent(s, task);
    case Decide(task) => DecideKeepsConsistent(s, task);
    case _ =>
      if OfTask(e) { MildTask(s, e); } else { MildConnection(s, e); }
      MildKeepsConsistent(s, Next(s, e));
  }

  /** Over every run: a result is there exactly when a row is terminal, a task
    that has not stored its result has a running row, one that is about to send it
    has it in its row, and an operation given up on has no live task. */
  lemma {:induction false} EveryRunIsConsistent(projects: set<string>, limit: nat, events: seq<Event>)
    ensures Consistent(Run(Initial(projects, limit), events))
  {
    hide Next, Safe;
    if events != [] {
      EveryRunIsConsistent(projects, limit, events[..|events| - 1]);
      EveryRunIsSafe(projects, limit, events[..|events| - 1]);
      NextKeepsConsistent(Run(Initial(projects, limit), events[..|events| - 1]), events[|events| - 1]);
    }
  }

  ghost predicate OnTerminalRow(s: State, t: TaskId) {
    t in s.work.tasks && s.work.tasks[t].op.id in s.rows && Terminal(s.rows[s.work.tasks[t].op.id].state)
  }

  /** No handler is entered for an operation whose row is terminal, and a task
    that starts on such a row ends at its first transition. */
  lemma NoHandlerAfterTheEnd(projects: set<string>, limit: nat, events: seq<Event>, t: TaskId, inTime: bool)
    requires OnTerminalRow(Run(Initial(projects, limit), events), t)
    ensures var s := Run(Initial(projects, limit), events);
      && Next(s, Enter(t, inTime)) == s
      && (InPhase(s, t, Starting) ==> Next(s, Begin(t)) == WithPhase(s, t, Ended))
  {
    hide Run, Initial, Consistent, Next;
    EveryRunIsConsistent(projects, limit, events);
    TerminalRowsStopTasks(Run(Initial(projects, limit), events), t, inTime);
  }

  lemma TerminalRowsStopTasks(s: State, t: TaskId, inTime: bool)
    requires Consistent(s) && OnTerminalRow(s, t)
    ensures Next(s, Enter(t, inTime)) == s
    ensures InPhase(s, t, Starting) ==> Next(s, Begin(t)) == WithPhase(s, t, Ended)
  {
    hide Settled, MainFits;
  }
}
