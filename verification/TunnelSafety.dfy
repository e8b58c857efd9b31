/** What every run of the tunnel keeps. */
module TunnelSafety {
  import opened Wrappers
  import opened OperationStore
  import opened ExecutionBudget
  import opened Tunnel

  /** The operation a coroutine is busy with after its row was written. */
  predicate Admitted(main: Main) {
    main.Confirming? || main.Confirmed? || main.Known?
  }

  ghost predicate Journalled(rows: Rows, op: Operation) {
    && op.id in rows && op.deadline.Some? && rows[op.id].receipt == ReceiptOf(op, op.deadline.value)
  }

  predicate BeforeHandler(phase: Phase) {
    phase.Starting? || phase.Announcing? || phase.Entering?
  }

  /** Every task and every admitted delivery has its row. */
  ghost predicate Rooted(rows: Rows, main: Main, w: Work) {
    && (forall t :: t in w.tasks ==> Journalled(rows, w.tasks[t].op))
    && (main.Journalling? ==> main.arrival.op.deadline == Some(main.arrival.deadline))
    && (Admitted(main) ==> Journalled(rows, main.arrival.op))
    && (forall id :: w.invoked[id] > 0 ==> id in rows)
  }

  /** A live task is the current task of its operation. */
  ghost predicate OneLive(w: Work) {
    forall t :: t in w.tasks && !w.tasks[t].phase.Ended? ==>
      w.tasks[t].op.id in w.current && w.current[w.tasks[t].op.id] == t
  }

  predicate FreshlyInserted(main: Main) {
    (main.Confirming? || main.Confirmed?) && main.inserted
  }

  /** The operation was just journalled for the first time: nothing has run for it. */
  ghost predicate Untouched(w: Work, id: OperationId) {
    w.invoked[id] == 0 && forall t :: t in w.tasks ==> w.tasks[t].op.id != id
  }

  /** An uncertain operation's handler ran at most once, and not at all while a
    task of it has yet to reach the handler. */
  ghost predicate AtMostOnce(rows: Rows, main: Main, w: Work) {
    && (FreshlyInserted(main) ==> Untouched(w, main.arrival.op.id))
    && (forall id :: id in rows && Uncertain(rows[id].receipt.digest.action) ==> w.invoked[id] <= 1)
    && (forall t :: t in w.tasks && Uncertain(w.tasks[t].op.action) && BeforeHandler(w.tasks[t].phase)
          ==> w.invoked[w.tasks[t].op.id] == 0)
  }

  ghost predicate Bounded(limit: nat, main: Main, w: Work) {
    && |w.tasks| <= limit && |w.budgets| <= limit
    && (main.Journalling? || Admitted(main) ==>
          |w.tasks| < limit && |w.budgets.Keys + {main.arrival.op.id}| <= limit)
  }

  ghost predicate Safe(s: State) {
    && Rooted(s.rows, s.main, s.work) && OneLive(s.work)
    && AtMostOnce(s.rows, s.main, s.work) && Bounded(s.limit, s.main, s.work)
  }

  ghost predicate LessBudgeted(w: Work, x: Work) {
    x == w.(budgets := x.budgets) && x.budgets.Keys <= w.budgets.Keys
  }

  /** A step that starts nothing and runs nothing. */
  ghost predicate Quiet(s: State, t: State) {
    && Advances(s.rows, t.rows) && s.rows.Keys == t.rows.Keys
    && t.limit == s.limit && (t.work == s.work || LessBudgeted(s.work, t.work))
    && NoNews(s.main, t.main)
  }

  /** The coroutine admits nothing new. */
  ghost predicate NoNews(before: Main, after: Main) {
    && (after.Journalling? ==> after == before)
    && (Admitted(after) ==> Admitted(before) && after.arrival == before.arrival)
    && (FreshlyInserted(after) ==> FreshlyInserted(before))
  }

  lemma QuietKeepsSafe(s: State, t: State)
    requires Safe(s) && Quiet(s, t)
    ensures Safe(t)
  {
    hide Advances, LessBudgeted, NoNews, Bounded, Rooted, OneLive, AtMostOnce;
    RowsKeepRooted(s.rows, t.rows, s.main, t.main, s.work, t.work);
    FewerBudgetsKeepBounds(s.limit, s.main, t.main, s.work, t.work);
    RowsKeepAtMostOnce(s.rows, t.rows, s.main, t.main, s.work, t.work);
  }

  lemma RowsKeepRooted(rows: Rows, later: Rows, main: Main, next: Main, w: Work, x: Work)
    requires Rooted(rows, main, w) && OneLive(w) && Advances(rows, later) && NoNews(main, next) && (x == w || LessBudgeted(w, x))
    ensures Rooted(later, next, x) && OneLive(x)
  {
  }

  lemma RowsKeepAtMostOnce(rows: Rows, later: Rows, main: Main, next: Main, w: Work, x: Work)
    requires AtMostOnce(rows, main, w) && Advances(rows, later) && rows.Keys == later.Keys && NoNews(main, next)
    requires x == w || LessBudgeted(w, x)
    ensures AtMostOnce(later, next, x)
  {
  }

  lemma FewerBudgetsKeepBounds(limit: nat, main: Main, next: Main, w: Work, x: Work)
    requires Bounded(limit, main, w) && NoNews(main, next) && (x == w || LessBudgeted(w, x))
    ensures Bounded(limit, next, x)
  {
    CardinalityBound(x.budgets.Keys, w.budgets.Keys);
    if next.Journalling? || Admitted(next) {
      var id := next.arrival.op.id;
      CardinalityBound(x.budgets.Keys + {id}, w.budgets.Keys + {id});
    }
  }

  lemma CardinalityBound<T>(a: set<T>, b: set<T>)
    requires a <= b
    ensures |a| <= |b|
  {
    assert b == a + (b - a);
  }

  lemma NothingAdvances(rows: Rows)
    ensures Advances(rows, rows)
  {
  }

  lemma AckAdvances(rows: Rows, correlation: Correlation, digest: ActionDigest, bindings: Bindings)
    ensures Advances(rows, Acknowledged(rows, correlation, digest, bindings))
    ensures Acknowledged(rows, correlation, digest, bindings).Keys == rows.Keys
  {
    hide Acknowledges;
  }

  lemma TransitionAdvances(rows: Rows, id: OperationId, state: OperationState, result: Option<Payload>)
    requires MayTransition(rows, id, state) && (Terminal(state) ==> result.Some?)
    ensures Advances(rows, Transitioned(rows, id, state, result))
    ensures Transitioned(rows, id, state, result).Keys == rows.Keys
  {
  }

  /** All steps of the connection but those that admit or start an operation. */
  lemma ConnectingIsQuiet(s: State, epoch: nat)
    ensures Quiet(s, AfterConnect(s)) && Quiet(s, AfterWelcome(s, epoch)) && Quiet(s, AfterHello(s)) && Quiet(s, AfterLeave(s))
  {
    hide Advances, LessBudgeted;
    NothingAdvances(s.rows);
  }

  lemma ReplayIsQuiet(s: State, m: Message)
    ensures Quiet(s, AfterReplay(s, m))
  {
    hide ReplayList, Advances, LessBudgeted;
    NothingAdvances(s.rows);
  }

  lemma ListingIsQuiet(s: State)
    ensures Quiet(s, AfterBeginReplay(s)) && Quiet(s, AfterListOwed(s)) && Quiet(s, AfterEndReplay(s)) && Quiet(s, AfterFinishAck(s))
  {
    hide ReplayList, Advances, LessBudgeted;
    NothingAdvances(s.rows);
  }

  lemma BreakingIsQuiet(s: State)
    ensures Quiet(s, AfterMalformed(s)) && Quiet(s, AfterNotice(s)) && Quiet(s, AfterBreak(s))
  {
    hide Advances, LessBudgeted;
    NothingAdvances(s.rows);
  }

  lemma AnsweringIsQuiet(s: State)
    ensures Quiet(s, AfterConfirm(s)) && Quiet(s, AfterLookUp(s)) && Quiet(s, AfterPublishTerminalized(s))
  {
    hide OpResult, Advances, LessBudgeted;
    NothingAdvances(s.rows);
  }

  lemma AckIsQuiet(s: State, correlation: Correlation, digest: ActionDigest, bindings: Bindings)
    ensures Quiet(s, AfterAck(s, correlation, digest, bindings))
  {
    hide Advances, LessBudgeted;
    NothingAdvances(s.rows);
  }

  lemma StoringIsQuiet(s: State)
    ensures Quiet(s, AfterStoreAck(s)) && Quiet(s, AfterTerminalize(s))
  {
    hide Acknowledged, Transitioned, MayTransition, Advances;
    NothingAdvances(s.rows);
    if s.main.Acking? {
      AckAdvances(s.rows, s.main.correlation, s.main.digest, s.main.bindings);
    }
    if s.main.Terminalizing? && MayTransition(s.rows, s.main.op.id, OutcomeUnknown) {
      TransitionAdvances(s.rows, s.main.op.id, OutcomeUnknown, Some(UNCERTAIN));
    }
  }

  lemma DeliverKeepsSafe(s: State, op: Operation, at: int, mono: int, now: int)
    requires Safe(s)
    ensures Safe(AfterDeliver(s, op, at, mono, now)) && AfterDeliver(s, op, at, mono, now).limit == s.limit
  {
    hide Rooted, OneLive, AtMostOnce, Bounded, QueueFull, OpResult, Advances;
    NothingAdvances(s.rows);
    var t := s.(work := s.work.(budgets := Pruned(s, mono)));
    assert Quiet(s, t);
    QuietKeepsSafe(s, t);
    var u := AfterDeliver(s, op, at, mono, now);
    if u.main.Journalling? && u != s {
      AdmissionKeepsSafe(t, u.main.arrival);
    } else {
      assert Quiet(s, u);
      QuietKeepsSafe(s, u);
    }
  }

  lemma AdmissionKeepsSafe(s: State, a: Arrival)
    requires Safe(s) && s.main.Listening? && !QueueFull(s, a.op.id) && a.op.deadline == Some(a.deadline)
    ensures Safe(s.(main := Journalling(a)))
  {
    if a.op.id in s.work.budgets {
      assert s.work.budgets.Keys + {a.op.id} == s.work.budgets.Keys;
    }
  }

  lemma RecordAdvances(rows: Rows, projects: set<string>, id: OperationId, receipt: Receipt, epoch: nat, now: int)
    ensures Advances(rows, Recorded(rows, projects, id, receipt, epoch, now))
    ensures !RecordingOf(rows, projects, id, receipt, epoch).Conflict? ==>
      var later := Recorded(rows, projects, id, receipt, epoch, now);
      later.Keys == rows.Keys + {id} && later[id].receipt == receipt
    ensures RecordingOf(rows, projects, id, receipt, epoch).Inserted? ==> id !in rows
  {
  }

  lemma JournalKeepsSafe(s: State, now: int)
    requires Safe(s)
    ensures Safe(AfterJournal(s, now)) && AfterJournal(s, now).limit == s.limit
  {
    hide Recorded, RecordingOf, Advances, Bounded, Rooted, OneLive, AtMostOnce;
    if s.main.Journalling? {
      var a := s.main.arrival;
      var receipt := ReceiptOf(a.op, a.deadline);
      var recording := RecordingOf(s.rows, s.projects, a.op.id, receipt, s.net.epoch);
      RecordAdvances(s.rows, s.projects, a.op.id, receipt, s.net.epoch, now);
      if recording.Conflict? {
        NothingAdvances(s.rows);
        QuietKeepsSafe(s, AfterJournal(s, now));
      } else {
        JournalledKeeps(s, a, AfterJournal(s, now).rows, recording.Inserted?);
      }
    }
  }

  lemma JournalledKeeps(s: State, a: Arrival, later: Rows, inserted: bool)
    requires Safe(s) && s.main == Main.Journalling(a)
    requires Advances(s.rows, later) && later.Keys == s.rows.Keys + {a.op.id}
    requires later[a.op.id].receipt == ReceiptOf(a.op, a.deadline)
    requires inserted ==> a.op.id !in s.rows
    ensures Safe(s.(rows := later, main := Confirming(a, inserted)))
  {
    hide OneLive, Rooted, AtMostOnce, Bounded, Advances;
    JournalledIsRooted(s.rows, s.work, a, later, inserted);
    JournalledIsOnce(s.rows, s.work, a, later, inserted);
    JournalledIsBounded(s.limit, s.work, a, inserted);
  }

  lemma JournalledIsRooted(rows: Rows, w: Work, a: Arrival, later: Rows, inserted: bool)
    requires Rooted(rows, Main.Journalling(a), w)
    requires Advances(rows, later) && later.Keys == rows.Keys + {a.op.id}
    requires later[a.op.id].receipt == ReceiptOf(a.op, a.deadline)
    ensures Rooted(later, Confirming(a, inserted), w)
  {
    hide ReceiptOf;
  }

  lemma JournalledIsOnce(rows: Rows, w: Work, a: Arrival, later: Rows, inserted: bool)
    requires Rooted(rows, Main.Journalling(a), w) && AtMostOnce(rows, Main.Journalling(a), w)
    requires Advances(rows, later) && later.Keys == rows.Keys + {a.op.id}
    requires inserted ==> a.op.id !in rows
    ensures AtMostOnce(later, Confirming(a, inserted), w)
  {
    hide Uncertain, ReceiptOf;
    forall id | id in later && Uncertain(later[id].receipt.digest.action) ensures w.invoked[id] <= 1 {
      if id in rows { assert later[id].receipt == rows[id].receipt; }
    }
  }

  lemma JournalledIsBounded(limit: nat, w: Work, a: Arrival, inserted: bool)
    requires Bounded(limit, Main.Journalling(a), w)
    ensures Bounded(limit, Confirming(a, inserted), w)
  {
  }

  /** A task may start for a new operation, or again for a certain one that has
    no live task. */
  lemma StartKeepsSafe(s: State, task: TaskId, op: Operation, budget: Budget, reconcile: bool)
    requires Safe(s) && Admitted(s.main) && s.main.arrival.op == op && task !in s.work.tasks
    requires FreshlyInserted(s.main) || (!Uncertain(op.action) && !Live(s.work, op.id))
    ensures Safe(StartDispatch(s, task, op, budget, reconcile)) && StartDispatch(s, task, op, budget, reconcile).limit == s.limit
  {
    hide Rooted, OneLive, AtMostOnce, Bounded;
    var t := StartDispatch(s, task, op, budget, reconcile);
    StartKeepsTables(s.rows, s.main, s.work, t.work, task);
    StartKeepsBounds(s.limit, s.main, s.work, t.work, task);
  }

  ghost predicate Started(w: Work, x: Work, task: TaskId, op: Operation) {
    && task !in w.tasks && task in x.tasks && x.tasks == w.tasks[task := x.tasks[task]]
    && x.tasks[task].op == op && x.tasks[task].phase.Starting?
    && x.current == w.current[op.id := task] && x.invoked == w.invoked
    && op.id in x.budgets && x.budgets == w.budgets[op.id := x.budgets[op.id]]
  }

  lemma StartKeepsTables(rows: Rows, main: Main, w: Work, x: Work, task: TaskId)
    requires Rooted(rows, main, w) && OneLive(w) && AtMostOnce(rows, main, w)
    requires Admitted(main) && Started(w, x, task, main.arrival.op)
    requires FreshlyInserted(main) || (!Uncertain(main.arrival.op.action) && !Live(w, main.arrival.op.id))
    ensures Rooted(rows, Listening, x) && OneLive(x)
    ensures AtMostOnce(rows, Listening, x)
  {
    hide Rooted, OneLive, AtMostOnce, Started, Uncertain;
    StartIsRooted(rows, main, w, x, task);
    StartIsOneLive(rows, main, w, x, task);
    StartIsOnce(rows, main, w, x, task);
  }

  lemma StartIsRooted(rows: Rows, main: Main, w: Work, x: Work, task: TaskId)
    requires Rooted(rows, main, w) && Admitted(main) && Started(w, x, task, main.arrival.op)
    ensures Rooted(rows, Listening, x)
  {
    hide Journalled;
  }

  lemma StartIsOneLive(rows: Rows, main: Main, w: Work, x: Work, task: TaskId)
    requires OneLive(w) && AtMostOnce(rows, main, w) && Admitted(main) && Started(w, x, task, main.arrival.op)
    requires FreshlyInserted(main) || !Live(w, main.arrival.op.id)
    ensures OneLive(x)
  {
    hide Uncertain;
  }

  lemma StartIsOnce(rows: Rows, main: Main, w: Work, x: Work, task: TaskId)
    requires AtMostOnce(rows, main, w) && Admitted(main) && Started(w, x, task, main.arrival.op)
    requires FreshlyInserted(main) || !Uncertain(main.arrival.op.action)
    ensures AtMostOnce(rows, Listening, x)
  {
    hide Uncertain;
  }

  lemma StartKeepsBounds(limit: nat, main: Main, w: Work, x: Work, task: TaskId)
    requires Bounded(limit, main, w) && Admitted(main) && Started(w, x, task, main.arrival.op)
    ensures Bounded(limit, Listening, x)
  {
    hide Journalled;
    KeyAdded(w.budgets, main.arrival.op.id, x.budgets[main.arrival.op.id]);
    KeyAdded(w.tasks, task, x.tasks[task]);
    CardinalityBound(w.budgets.Keys + {main.arrival.op.id}, x.budgets.Keys);
  }

  lemma KeyAdded<K, V>(m: map<K, V>, k: K, v: V)
    ensures m[k := v].Keys == m.Keys + {k}
    ensures |m[k := v]| == |m.Keys + {k}| <= |m| + 1
  {
    assert m[k := v].Keys == m.Keys + {k};
    if k in m.Keys { assert m.Keys + {k} == m.Keys; }
  }

  lemma AcceptKeepsSafe(s: State, task: TaskId)
    requires Safe(s)
    ensures Safe(AfterAccept(s, task)) && AfterAccept(s, task).limit == s.limit
  {
    hide Safe, BudgetOf, StartDispatch;
    if s.main.Confirmed? && s.main.inserted && task !in s.work.tasks {
      StartKeepsSafe(s, task, s.main.arrival.op, BudgetOf(s.main.arrival, NotAsked), false);
    }
  }

  lemma DecideKeepsSafe(s: State, task: TaskId)
    requires Safe(s)
    ensures Safe(AfterDecide(s, task)) && AfterDecide(s, task).limit == s.limit
  {
    hide Safe, RetryBudget, StartDispatch, OpResult, Advances, LessBudgeted, Uncertain, Live;
    NothingAdvances(s.rows);
    var t := AfterDecide(s, task);
    if s.main.Known? && task !in s.work.tasks {
      var a, prior := s.main.arrival, s.main.prior;
      if prior.result.None? && !Live(s.work, a.op.id) && !Uncertain(a.op.action) {
        StartKeepsSafe(s, task, a.op, RetryBudget(s, a, prior), true);
      } else {
        QuietKeepsSafe(s, t);
      }
    }
  }

  lemma CrashKeepsSafe(s: State)
    requires Safe(s)
    ensures Safe(AfterCrash(s)) && AfterCrash(s).limit == s.limit
  {
  }

  /** One live task moved on to another phase. */
  ghost predicate Moved(w: Work, x: Work, t: TaskId, phase: Phase) {
    && t in w.tasks && !w.tasks[t].phase.Ended?
    && x.tasks == w.tasks[t := w.tasks[t].(phase := phase)]
    && x.current == w.current && x.budgets.Keys <= w.budgets.Keys
    && x.invoked == (if phase.Handling? then w.invoked + multiset{w.tasks[t].op.id} else w.invoked)
    && (BeforeHandler(phase) ==> BeforeHandler(w.tasks[t].phase))
    && (phase.Handling? ==> w.tasks[t].phase.Entering?)
  }

  lemma MoveKeepsTables(rows: Rows, main: Main, w: Work, x: Work, t: TaskId, phase: Phase)
    requires Rooted(rows, main, w) && OneLive(w) && Moved(w, x, t, phase)
    ensures Rooted(rows, main, x) && OneLive(x)
  {
    hide Journalled;
    assert Journalled(rows, w.tasks[t].op);
    RowOfTask(rows, w.tasks[t].op);
  }

  lemma MoveKeepsAtMostOnce(rows: Rows, main: Main, w: Work, x: Work, t: TaskId, phase: Phase)
    requires Rooted(rows, main, w) && OneLive(w) && AtMostOnce(rows, main, w) && Moved(w, x, t, phase)
    ensures AtMostOnce(rows, main, x)
  {
    hide Uncertain, Journalled;
    assert Journalled(rows, w.tasks[t].op);
    RowOfTask(rows, w.tasks[t].op);
  }

  lemma RowOfTask(rows: Rows, op: Operation)
    requires Journalled(rows, op)
    ensures op.id in rows && rows[op.id].receipt.digest.action == op.action
  {
  }

  lemma MoveKeepsBounds(limit: nat, main: Main, w: Work, x: Work, t: TaskId, phase: Phase)
    requires Bounded(limit, main, w) && Moved(w, x, t, phase)
    ensures Bounded(limit, main, x)
  {
    assert x.tasks.Keys == w.tasks.Keys;
    CardinalityBound(x.budgets.Keys, w.budgets.Keys);
    if main.Journalling? || Admitted(main) {
      CardinalityBound(x.budgets.Keys + {main.arrival.op.id}, w.budgets.Keys + {main.arrival.op.id});
    }
  }

  lemma SameMain(main: Main)
    ensures NoNews(main, main)
  {
  }

  lemma MoveKeepsSafe(s: State, u: State, t: TaskId, phase: Phase)
    requires Safe(s) && Advances(s.rows, u.rows) && s.rows.Keys == u.rows.Keys && Moved(s.work, u.work, t, phase)
    requires u.main == s.main && u.limit == s.limit
    ensures Safe(u)
  {
    hide Rooted, OneLive, AtMostOnce, Bounded, Moved, Advances;
    hide NoNews, LessBudgeted;
    MoveKeepsTables(s.rows, s.main, s.work, u.work, t, phase);
    MoveKeepsAtMostOnce(s.rows, s.main, s.work, u.work, t, phase);
    assert NoNews(s.main, s.main) by { SameMain(s.main); }
    RowsKeepRooted(s.rows, u.rows, s.main, s.main, u.work, u.work);
    RowsKeepAtMostOnce(s.rows, u.rows, s.main, s.main, u.work, u.work);
    MoveKeepsBounds(s.limit, s.main, s.work, u.work, t, phase);
  }

  lemma BeginKeepsSafe(s: State, t: TaskId)
    requires Safe(s)
    ensures Safe(AfterBegin(s, t)) && AfterBegin(s, t).limit == s.limit
  {
    hide Safe, Transitioned, MayTransition, Advances;
    NothingAdvances(s.rows);
    if InPhase(s, t, Starting) {
      var id := s.work.tasks[t].op.id;
      if MayTransition(s.rows, id, Running) {
        TransitionAdvances(s.rows, id, Running, None);
        MoveKeepsSafe(s, AfterBegin(s, t), t, Announcing);
      } else {
        MoveKeepsSafe(s, AfterBegin(s, t), t, Ended);
      }
    }
  }

  lemma AnnounceKeepsSafe(s: State, t: TaskId, mono: int, now: int)
    requires Safe(s)
    ensures Safe(AfterAnnounce(s, t, mono, now)) && AfterAnnounce(s, t, mono, now).limit == s.limit
  {
    hide Safe, Advances, Late;
    NothingAdvances(s.rows);
    if InPhase(s, t, Announcing) {
      var u := AfterAnnounce(s, t, mono, now);
      MoveKeepsSafe(s, u, t, u.work.tasks[t].phase);
    }
  }

  lemma EnterKeepsSafe(s: State, t: TaskId, inTime: bool)
    requires Safe(s)
    ensures Safe(AfterEnter(s, t, inTime)) && AfterEnter(s, t, inTime).limit == s.limit
  {
    hide Safe, Advances;
    NothingAdvances(s.rows);
    if InPhase(s, t, Entering) {
      var u := AfterEnter(s, t, inTime);
      MoveKeepsSafe(s, u, t, u.work.tasks[t].phase);
    }
  }

  lemma ReturnKeepsSafe(s: State, t: TaskId, outcome: Outcome, mono: int, now: int)
    requires Safe(s)
    ensures Safe(AfterReturn(s, t, outcome, mono, now)) && AfterReturn(s, t, outcome, mono, now).limit == s.limit
  {
    hide Safe, Advances, Late, Uncertain;
    NothingAdvances(s.rows);
    if InPhase(s, t, Handling) {
      var u := AfterReturn(s, t, outcome, mono, now);
      MoveKeepsSafe(s, u, t, u.work.tasks[t].phase);
    }
  }

  lemma StoreKeepsSafe(s: State, t: TaskId)
    requires Safe(s)
    ensures Safe(AfterStore(s, t)) && AfterStore(s, t).limit == s.limit
  {
    hide Safe, Transitioned, MayTransition, Advances, Durable;
    NothingAdvances(s.rows);
    if t in s.work.tasks && s.work.tasks[t].phase.Storing? {
      var u := AfterStore(s, t);
      var id, phase := s.work.tasks[t].op.id, s.work.tasks[t].phase;
      if MayTransition(s.rows, id, phase.state) {
        TransitionAdvances(s.rows, id, phase.state, Some(Durable(phase.answer)));
      }
      MoveKeepsSafe(s, u, t, u.work.tasks[t].phase);
    }
  }

  lemma PublishKeepsSafe(s: State, t: TaskId)
    requires Safe(s)
    ensures Safe(AfterPublish(s, t)) && AfterPublish(s, t).limit == s.limit
  {
    hide Safe, Advances, OpResult;
    NothingAdvances(s.rows);
    if t in s.work.tasks && s.work.tasks[t].phase.Publishing? {
      MoveKeepsSafe(s, AfterPublish(s, t), t, Ended);
    }
  }

  lemma ReapKeepsSafe(s: State, t: TaskId)
    requires Safe(s)
    ensures Safe(AfterReap(s, t)) && AfterReap(s, t).limit == s.limit
  {
    if InPhase(s, t, Ended) {
      assert AfterReap(s, t).work.tasks.Keys == s.work.tasks.Keys - {t};
    }
  }

  predicate IsQuiet(e: Event) {
    !(e.Deliver? || e.Journal? || e.Accept? || e.Decide? || e.Crash? || OfTask(e))
  }

  predicate OfTask(e: Event) {
    e.Begin? || e.Announce? || e.Enter? || e.Return? || e.Store? || e.Publish? || e.Reap?
  }

  lemma QuietNext(s: State, e: Event)
    requires IsQuiet(e)
    ensures Quiet(s, Next(s, e))
  {
    hide Quiet, AfterConnect, AfterWelcome, AfterHello, AfterBeginReplay, AfterListOwed, AfterReplay, AfterEndReplay,
         AfterDeliver, AfterMalformed, AfterJournal, AfterConfirm, AfterAccept, AfterLookUp, AfterDecide,
         AfterTerminalize, AfterPublishTerminalized, AfterAck, AfterStoreAck, AfterFinishAck, AfterBreak,
         AfterNotice, AfterLeave, AfterCrash, AfterBegin, AfterAnnounce, AfterEnter, AfterReturn, AfterStore,
         AfterPublish, AfterReap;
    if e.Welcome? {
      ConnectingIsQuiet(s, e.epoch);
    } else if e.Replay? {
      ReplayIsQuiet(s, e.message);
    } else if e.Ack? {
      AckIsQuiet(s, e.correlation, e.digest, e.bindings);
    } else {
      ConnectingIsQuiet(s, s.net.epoch);
      ListingIsQuiet(s);
      BreakingIsQuiet(s);
      AnsweringIsQuiet(s);
      StoringIsQuiet(s);
    }
  }

  lemma QuietLimit(s: State, t: State)
    requires Quiet(s, t)
    ensures t.limit == s.limit
  {
  }

  /** Every step keeps the run safe. */
  lemma NextKeepsSafe(s: State, e: Event)
    requires Safe(s)
    ensures Safe(Next(s, e)) && Next(s, e).limit == s.limit
  {
    hide Safe, Quiet, AfterConnect, AfterWelcome, AfterHello, AfterBeginReplay, AfterListOwed, AfterReplay,
         AfterEndReplay, AfterDeliver, AfterMalformed, AfterJournal, AfterConfirm, AfterAccept, AfterLookUp,
         AfterDecide, AfterTerminalize, AfterPublishTerminalized, AfterAck, AfterStoreAck, AfterFinishAck,
         AfterBreak, AfterNotice, AfterLeave, AfterCrash, AfterBegin, AfterAnnounce, AfterEnter, AfterReturn,
         AfterStore, AfterPublish, AfterReap;
    match e
    case Deliver(op, at, mono, now) => DeliverKeepsSafe(s, op, at, mono, now);
    case Journal(now) => JournalKeepsSafe(s, now);
    case Accept(task) => AcceptKeepsSafe(s, task);
    case Decide(task) => DecideKeepsSafe(s, task);
    case Crash => CrashKeepsSafe(s);
    case Begin(t) => BeginKeepsSafe(s, t);
    case Announce(t, mono, now) => AnnounceKeepsSafe(s, t, mono, now);
    case Enter(t, inTime) => EnterKeepsSafe(s, t, inTime);
    case Return(t, outcome, mono, now) => ReturnKeepsSafe(s, t, outcome, mono, now);
    case Store(t) => StoreKeepsSafe(s, t);
    case Publish(t) => PublishKeepsSafe(s, t);
    case Reap(t) => ReapKeepsSafe(s, t);
    case _ =>
      QuietNext(s, e);
      QuietLimit(s, Next(s, e));
      QuietKeepsSafe(s, Next(s, e));
  }

  /** Over every run of deliveries, redeliveries, breaks and crashes: the handler
    of an uncertain operation is entered at most once, no operation has two live
    tasks, and tasks and budgets stay within the limit. */
  lemma {:induction false} EveryRunIsSafe(projects: set<string>, limit: nat, events: seq<Event>)
    ensures Safe(Run(Initial(projects, limit), events)) && Run(Initial(projects, limit), events).limit == limit
  {
    hide Next;
    if events != [] {
      EveryRunIsSafe(projects, limit, events[..|events| - 1]);
      NextKeepsSafe(Run(Initial(projects, limit), events[..|events| - 1]), events[|events| - 1]);
    }
  }

  lemma RunsHandleOnce(projects: set<string>, limit: nat, events: seq<Event>, id: OperationId)
    ensures var s := Run(Initial(projects, limit), events);
      && (id in s.rows && Uncertain(s.rows[id].receipt.digest.action) ==> s.work.invoked[id] <= 1)
      && (id !in s.rows ==> s.work.invoked[id] == 0)
      && |s.work.tasks| <= limit && |s.work.budgets| <= limit
  {
    hide Run, Initial, Uncertain;
    EveryRunIsSafe(projects, limit, events);
  }

  lemma RunsHaveOneLiveTask(projects: set<string>, limit: nat, events: seq<Event>, t: TaskId, u: TaskId)
    requires var w := Run(Initial(projects, limit), events).work;
      && t in w.tasks && u in w.tasks && w.tasks[t].op.id == w.tasks[u].op.id
      && !w.tasks[t].phase.Ended? && !w.tasks[u].phase.Ended?
    ensures t == u
  {
    hide Run, Initial;
    EveryRunIsSafe(projects, limit, events);
  }
}
