/** Why an operation ended, and what its row then says: over every run, each
  terminal row is explained by something that happened to its operation. */
module TunnelOutcomes {
  import opened Wrappers
  import opened OperationStore
  import opened ExecutionBudget
  import opened Tunnel
  import opened TunnelSafety
  import opened TunnelDelivery
  import opened TunnelRows

  /** What ended an operation. `late`: its budget was over when the handler came back. */
  datatype Cause = HandlerEnded(outcome: Outcome, late: bool) | NeverCalled | NeverAnnounced | GivenUp

  /** Running the tool call twice could do something twice. */
  predicate Irrevocable(action: Action) {
    if action.tool == "device_desktop" then true
    else if action.tool == "project_shell" then action.action == Some("start")
    else if action.tool == "project_frontend" then
      action.operation == Some("session_start") || action.operation == Some("act")
    else false
  }

  /** The handler did not come back with an answer while there was time. */
  predicate RanOut(cause: Cause) {
    cause.HandlerEnded? &&
    match cause.outcome
    case Answered(_) => cause.late
    case TimedOut => true
    case AgentError(code, _) => code == "deadline_exceeded"
    case Crashed => false
  }

  predicate Says(answer: Payload, code: string, message: string) {
    !answer.ok && answer.text == code + ": " + message && answer.image.None? && answer.digest.None?
  }

  /** The state and the answer an operation gets from what ended it. */
  predicate Verdict(cause: Cause, action: Action, state: OperationState, answer: Payload) {
    match cause
    case NeverCalled => state == Failed && Says(answer, "deadline_exceeded", "budget elapsed")
    case NeverAnnounced => state == Failed && Says(answer, "internal_error", "failed")
    case GivenUp =>
      Irrevocable(action) && state == OutcomeUnknown && Says(answer, "outcome_unknown", "may have executed before")
    case HandlerEnded(outcome, late) =>
      if RanOut(cause) then
        if Irrevocable(action)
        then state == OutcomeUnknown && Says(answer, "outcome_unknown", "exceeded its budget and may have executed")
        else state == Failed && Says(answer, "deadline_exceeded", "budget elapsed")
      else
        match outcome
        case Answered(payload) => state == Succeeded && answer == payload
        case Crashed => state == Failed && Says(answer, "internal_error", "failed")
        case AgentError(code, message) =>
          && Says(answer, code, message)
          && (state == Denied <==> code == "approval_denied")
          && (state == OutcomeUnknown <==> code == "outcome_unknown")
          && (state == Failed <==> code != "approval_denied" && code != "outcome_unknown")
        case TimedOut => false
  }

  predicate TaskAt(s: State, t: TaskId, op: Operation, phase: Phase) {
    t in s.work.tasks && s.work.tasks[t].op == op && s.work.tasks[t].phase == phase
  }

  predicate Over(budget: Budget, mono: int, now: int) {
    mono >= budget.monotonicDeadline || now >= budget.localDeadline
  }

  /** This step of a run ended the operation so. */
  predicate CausedBy(s: State, e: Event, op: Operation, cause: Cause) {
    match cause
    case HandlerEnded(outcome, late) =>
      && e.Return? && TaskAt(s, e.task, op, Handling) && e.outcome == outcome
      && late == Over(s.work.tasks[e.task].budget, e.mono, e.now)
    case NeverCalled =>
      || (e.Announce? && TaskAt(s, e.task, op, Announcing) && Over(s.work.tasks[e.task].budget, e.mono, e.now))
      || (e.Enter? && TaskAt(s, e.task, op, Entering) && !e.inTime)
    case NeverAnnounced =>
      && e.Announce? && TaskAt(s, e.task, op, Announcing) && !Over(s.work.tasks[e.task].budget, e.mono, e.now)
      && s.net.link.Broken?
    case GivenUp => e.Terminalize? && s.main == Terminalizing(op)
  }

  /** Some step of the run ended the operation so. */
  ghost predicate Caused(s: State, events: seq<Event>, op: Operation, cause: Cause) {
    exists k :: 0 <= k < |events| && CausedBy(Run(s, events[..k]), events[k], op, cause)
  }

  /** The handler of an operation may be called: its start was announced while
    there was time, on a socket that was not broken. */
  predicate AnnouncedBy(s: State, e: Event, op: Operation, budget: Budget) {
    && e.Announce? && TaskAt(s, e.task, op, Announcing) && s.work.tasks[e.task].budget == budget
    && !Over(budget, e.mono, e.now) && !s.net.link.Broken?
  }

  ghost predicate Announced(s: State, events: seq<Event>, op: Operation, budget: Budget) {
    exists k :: 0 <= k < |events| && AnnouncedBy(Run(s, events[..k]), events[k], op, budget)
  }

  lemma AnnouncedEarlier(s: State, events: seq<Event>, op: Operation, budget: Budget)
    requires events != [] && Announced(s, events[..|events| - 1], op, budget)
    ensures Announced(s, events, op, budget)
  {
    hide AnnouncedBy, Run;
    var before := events[..|events| - 1];
    var k :| 0 <= k < |before| && AnnouncedBy(Run(s, before[..k]), before[k], op, budget);
    assert before[..k] == events[..k] && before[k] == events[k];
  }

  ghost predicate Explained(s: State, events: seq<Event>, op: Operation, state: OperationState, answer: Payload) {
    exists cause :: Caused(s, events, op, cause) && Verdict(cause, op.action, state, answer)
  }

  lemma CausedEarlier(s: State, events: seq<Event>, op: Operation, cause: Cause)
    requires events != [] && Caused(s, events[..|events| - 1], op, cause)
    ensures Caused(s, events, op, cause)
  {
    hide CausedBy, Run;
    var before := events[..|events| - 1];
    var k :| 0 <= k < |before| && CausedBy(Run(s, before[..k]), before[k], op, cause);
    assert before[..k] == events[..k] && before[k] == events[k];
  }

  lemma CausedNow(s: State, events: seq<Event>, op: Operation, cause: Cause)
    requires events != [] && CausedBy(Run(s, events[..|events| - 1]), events[|events| - 1], op, cause)
    ensures Caused(s, events, op, cause)
  {
  }

  lemma ExplainedEarlier(s: State, events: seq<Event>, op: Operation, state: OperationState, answer: Payload)
    requires events != [] && Explained(s, events[..|events| - 1], op, state, answer)
    ensures Explained(s, events, op, state, answer)
  {
    hide Caused, Verdict;
    var cause :| Caused(s, events[..|events| - 1], op, cause) && Verdict(cause, op.action, state, answer);
    CausedEarlier(s, events, op, cause);
  }

  // What every run keeps

  predicate Called(phase: Phase) {
    phase.Entering? || phase.Handling?
  }

  /** A task that has its answer has it for a reason, and one whose handler is
    called was announced in time. */
  ghost predicate TaskTold(start: State, events: seq<Event>, rows: Rows, task: Task) {
    && (Called(task.phase) ==> Announced(start, events, task.op, task.budget))
    && (task.phase.Storing? ==> Explained(start, events, task.op, task.phase.state, task.phase.answer))
    && (task.phase.Publishing? ==>
          && task.op.id in rows && Terminal(rows[task.op.id].state)
          && Explained(start, events, task.op, rows[task.op.id].state, task.phase.answer))
  }

  ghost predicate RowTold(start: State, events: seq<Event>, row: Row, op: Operation, answer: Payload) {
    && row.receipt.digest == DigestOf(op.action) && row.result == Some(Durable(answer))
    && Explained(start, events, op, row.state, answer)
  }

  /** So has a row that is terminal. */
  ghost predicate RowsTold(start: State, events: seq<Event>, rows: Rows) {
    forall id :: id in rows && Terminal(rows[id].state) ==>
      exists op: Operation, answer: Payload :: op.id == id && RowTold(start, events, rows[id], op, answer)
  }

  ghost predicate TasksTold(start: State, events: seq<Event>, rows: Rows, w: Work) {
    forall t :: t in w.tasks ==> TaskTold(start, events, rows, w.tasks[t])
  }

  ghost predicate MainTold(rows: Rows, main: Main) {
    main.Terminalizing? ==> Journalled(rows, main.op) && Irrevocable(main.op.action)
  }

  ghost predicate Told(start: State, events: seq<Event>, s: State) {
    RowsTold(start, events, s.rows) && TasksTold(start, events, s.rows, s.work) && MainTold(s.rows, s.main)
  }

  lemma ToldEarlier(start: State, events: seq<Event>, s: State)
    requires events != [] && Told(start, events[..|events| - 1], s)
    ensures Told(start, events, s)
  {
    hide Explained, Announced, Terminal;
    forall op, state, answer | Explained(start, events[..|events| - 1], op, state, answer)
      ensures Explained(start, events, op, state, answer)
    {
      ExplainedEarlier(start, events, op, state, answer);
    }
    forall op, budget | Announced(start, events[..|events| - 1], op, budget) ensures Announced(start, events, op, budget) {
      AnnouncedEarlier(start, events, op, budget);
    }
    forall id | id in s.rows && Terminal(s.rows[id].state)
      ensures exists op: Operation, answer: Payload :: op.id == id && RowTold(start, events, s.rows[id], op, answer)
    {
      var op: Operation, answer: Payload :| op.id == id && RowTold(start, events[..|events| - 1], s.rows[id], op, answer);
      assert RowTold(start, events, s.rows[id], op, answer);
    }
  }

  /** The terminal rows say the same. */
  ghost predicate SameEnds(rows: Rows, later: Rows) {
    && (forall id :: id in rows && Terminal(rows[id].state) ==> id in later && Terminal(later[id].state))
    && (forall id :: id in later && Terminal(later[id].state) ==>
          && id in rows && rows[id].state == later[id].state
          && rows[id].result == later[id].result && rows[id].receipt == later[id].receipt)
  }

  predicate Moot(phase: Phase) {
    phase.Starting? || phase.Announcing? || phase.Ended?
  }

  /** No task gets a handler or an answer. */
  ghost predicate NoAnswers(w: Work, x: Work) {
    forall t :: t in x.tasks && !Moot(x.tasks[t].phase) ==>
      t in w.tasks && w.tasks[t] == x.tasks[t]
  }

  lemma SilentKeepsTold(start: State, events: seq<Event>, s: State, t: State)
    requires Told(start, events, s) && SameEnds(s.rows, t.rows) && NoAnswers(s.work, t.work)
    requires MainTold(t.rows, t.main)
    ensures Told(start, events, t)
  {
    hide Explained, Announced, Terminal, MainTold;
    forall id | id in t.rows && Terminal(t.rows[id].state)
      ensures exists op: Operation, answer: Payload :: op.id == id && RowTold(start, events, t.rows[id], op, answer)
    {
      var op: Operation, answer: Payload :| op.id == id && RowTold(start, events, s.rows[id], op, answer);
      assert RowTold(start, events, t.rows[id], op, answer);
    }
    forall k | k in t.work.tasks ensures TaskTold(start, events, t.rows, t.work.tasks[k]) {
      if !Moot(t.work.tasks[k].phase) {
        assert TaskTold(start, events, s.rows, s.work.tasks[k]);
      }
    }
  }

  // Steps that give no operation an end

  predicate MayEnd(e: Event) {
    e.Announce? || e.Enter? || e.Return? || e.Store? || e.Terminalize?
  }

  lemma BeginGivesNoAnswer(s: State, t: TaskId)
    ensures NoAnswers(s.work, AfterBegin(s, t).work)
  {
    hide MayTransition, Transitioned;
  }

  lemma PublishGivesNoAnswer(s: State, t: TaskId)
    ensures NoAnswers(s.work, AfterPublish(s, t).work) && NoAnswers(s.work, AfterReap(s, t).work)
  {
    hide OpResult;
  }

  lemma TaskStepGivesNoAnswer(s: State, e: Event)
    requires OfTask(e) && !MayEnd(e)
    ensures NoAnswers(s.work, Next(s, e).work)
  {
    hide AfterBegin, AfterPublish, AfterReap, NoAnswers;
    match e
    case Begin(t) => BeginGivesNoAnswer(s, t);
    case Publish(t) => PublishGivesNoAnswer(s, t);
    case Reap(t) => PublishGivesNoAnswer(s, t);
  }

  lemma StartGivesNoAnswer(s: State, t: TaskId)
    ensures NoAnswers(s.work, AfterAccept(s, t).work) && NoAnswers(s.work, AfterDecide(s, t).work)
  {
    hide OpResult, Uncertain, Live, BudgetOf, RetryBudget;
  }

  lemma StepGivesNoAnswer(s: State, e: Event)
    requires !MayEnd(e)
    ensures NoAnswers(s.work, Next(s, e).work)
  {
    hide Pruned, Refusal, OpResult, ReplayList, MayTransition, Transitioned, Acknowledged, RecordingOf, Recorded,
         AfterAccept, AfterDecide, AfterBegin, AfterAnnounce, AfterEnter, AfterReturn, AfterStore, AfterPublish, AfterReap;
    if OfTask(e) {
      TaskStepGivesNoAnswer(s, e);
    } else if e.Accept? || e.Decide? {
      StartGivesNoAnswer(s, e.task);
    } else {
      assert Next(s, e).work.tasks == s.work.tasks || e.Crash?;
    }
  }

  lemma SameOutcomesSameEnds(rows: Rows, later: Rows)
    requires SameOutcomes(rows, later)
    ensures SameEnds(rows, later)
    ensures forall op :: Journalled(rows, op) ==> Journalled(later, op)
  {
    hide TunnelRows.Granted;
  }

  /** Only deciding about a redelivery gives an operation up. */
  lemma StepGivesNothingUp(s: State, e: Event)
    requires !e.Decide?
    ensures Next(s, e).main.Terminalizing? ==> Next(s, e).main == s.main
  {
    hide Pruned, Refusal, OpResult, ReplayList, MayTransition, Transitioned, Acknowledged, RecordingOf, Recorded,
         BudgetOf, Ending, Late, Durable;
  }

  lemma UncertainMeans(action: Action)
    ensures Uncertain(action) <==> Irrevocable(action)
  {
  }

  lemma DecideKeepsMain(s: State, task: TaskId)
    requires Rooted(s.rows, s.main, s.work) && MainTold(s.rows, s.main)
    ensures var t := AfterDecide(s, task); t.rows == s.rows && MainTold(t.rows, t.main)
  {
    hide OpResult, BudgetOf, RetryBudget, Live, Uncertain, Irrevocable;
    if s.main.Known? { UncertainMeans(s.main.arrival.op.action); }
  }

  lemma BeginEnds(s: State, t: TaskId)
    ensures SameEnds(s.rows, AfterBegin(s, t).rows)
    ensures forall op :: Journalled(s.rows, op) ==> Journalled(AfterBegin(s, t).rows, op)
  {
  }

  lemma SilentStep(start: State, events: seq<Event>, s: State, e: Event)
    requires Told(start, events, s) && Consistent(s) && Rooted(s.rows, s.main, s.work) && !MayEnd(e)
    ensures Told(start, events, Next(s, e))
  {
    hide TunnelRows.Consistent, Rooted, RowsTold, TasksTold, SameOutcomes, SameEnds, NoAnswers, Journalled, Tame, MainFollows,
         AfterConnect, AfterWelcome, AfterHello, AfterBeginReplay, AfterListOwed, AfterReplay,
         AfterEndReplay, AfterDeliver, AfterMalformed, AfterJournal, AfterConfirm, AfterLookUp,
         AfterTerminalize, AfterPublishTerminalized, AfterAck, AfterStoreAck, AfterFinishAck,
         AfterBreak, AfterNotice, AfterLeave, AfterCrash, AfterBegin, AfterAnnounce, AfterEnter, AfterReturn,
         AfterStore, AfterPublish, AfterReap, AfterDecide, AfterAccept;
    var t := Next(s, e);
    StepGivesNoAnswer(s, e);
    SameRows(s.rows);
    SameOutcomesSameEnds(s.rows, s.rows);
    if e.Decide? {
      DecideKeepsMain(s, e.task);
    } else {
      StepGivesNothingUp(s, e);
      if e.Begin? {
        BeginEnds(s, e.task);
      } else if e.Accept? {
        assert t.rows == s.rows by { AcceptKeepsRows(s, e.task); }
      } else {
        if OfTask(e) { MildTask(s, e); } else { MildConnection(s, e); }
        SameOutcomesSameEnds(s.rows, t.rows);
      }
    }
    SilentKeepsTold(start, events, s, t);
  }

  lemma AcceptKeepsRows(s: State, task: TaskId)
    ensures AfterAccept(s, task).rows == s.rows
  {
  }

  // Steps that may

  lemma AnswerKeepsTold(start: State, events: seq<Event>, s: State, u: State, t: TaskId, phase: Phase)
    requires Told(start, events, s) && t in s.work.tasks && !phase.Publishing?
    requires u.rows == s.rows && u.main == s.main && u.work.tasks == s.work.tasks[t := s.work.tasks[t].(phase := phase)]
    requires phase.Storing? ==> Explained(start, events, s.work.tasks[t].op, phase.state, phase.answer)
    requires Called(phase) ==> Announced(start, events, s.work.tasks[t].op, s.work.tasks[t].budget)
    ensures Told(start, events, u)
  {
    hide Explained, Announced, Terminal, MainTold, RowsTold;
    forall k | k in u.work.tasks ensures TaskTold(start, events, u.rows, u.work.tasks[k]) {
      assert k != t ==> TaskTold(start, events, s.rows, s.work.tasks[k]);
    }
  }

  lemma ExplainedNow(start: State, events: seq<Event>, op: Operation, cause: Cause, state: OperationState, answer: Payload)
    requires events != [] && CausedBy(Run(start, events[..|events| - 1]), events[|events| - 1], op, cause)
    requires Verdict(cause, op.action, state, answer)
    ensures Explained(start, events, op, state, answer)
  {
    hide CausedBy, Verdict, Run;
    CausedNow(start, events, op, cause);
  }

  lemma AnnouncedNow(start: State, events: seq<Event>, op: Operation, budget: Budget)
    requires events != [] && AnnouncedBy(Run(start, events[..|events| - 1]), events[|events| - 1], op, budget)
    ensures Announced(start, events, op, budget)
  {
    hide AnnouncedBy, Run;
  }

  /** The run so far and its last event. */
  ghost predicate LastStep(start: State, events: seq<Event>, s: State, e: Event) {
    events != [] && s == Run(start, events[..|events| - 1]) && e == events[|events| - 1]
  }

  lemma AnnounceStep(start: State, events: seq<Event>, s: State, t: TaskId, mono: int, now: int)
    requires LastStep(start, events, s, Announce(t, mono, now)) && Told(start, events, s)
    ensures Told(start, events, AfterAnnounce(s, t, mono, now))
  {
    hide Run, Explained, Announced, RowsTold, MainTold;
    if InPhase(s, t, Announcing) {
      var op, u := s.work.tasks[t].op, AfterAnnounce(s, t, mono, now);
      if Late(s.work.tasks[t].budget, mono, now) {
        ExplainedNow(start, events, op, NeverCalled, Failed, DEADLINE);
      } else if s.net.link.Broken? {
        ExplainedNow(start, events, op, NeverAnnounced, Failed, INTERNAL);
      } else {
        AnnouncedNow(start, events, op, s.work.tasks[t].budget);
      }
      AnswerKeepsTold(start, events, s, u, t, u.work.tasks[t].phase);
    }
  }

  lemma EnterStep(start: State, events: seq<Event>, s: State, t: TaskId, inTime: bool)
    requires LastStep(start, events, s, Enter(t, inTime)) && Told(start, events, s)
    ensures Told(start, events, AfterEnter(s, t, inTime))
  {
    hide Run, Explained, Announced, RowsTold, MainTold;
    if InPhase(s, t, Entering) {
      var op, u := s.work.tasks[t].op, AfterEnter(s, t, inTime);
      if !inTime { ExplainedNow(start, events, op, NeverCalled, Failed, DEADLINE); }
      assert TaskTold(start, events, s.rows, s.work.tasks[t]);
      AnswerKeepsTold(start, events, s, u, t, u.work.tasks[t].phase);
    }
  }

  /** What a handler's end makes of its task. */
  lemma EndingMeans(task: Task, outcome: Outcome, mono: int, now: int)
    ensures var phase := Ending(task, outcome, mono, now);
      && phase.Storing?
      && Verdict(HandlerEnded(outcome, Over(task.budget, mono, now)), task.op.action, phase.state, phase.answer)
  {
    UncertainMeans(task.op.action);
  }

  lemma ReturnStep(start: State, events: seq<Event>, s: State, t: TaskId, outcome: Outcome, mono: int, now: int)
    requires LastStep(start, events, s, Return(t, outcome, mono, now)) && Told(start, events, s)
    ensures Told(start, events, AfterReturn(s, t, outcome, mono, now))
  {
    hide Run, Explained, Announced, RowsTold, MainTold, Ending, Verdict, Over;
    if InPhase(s, t, Handling) {
      var task, u := s.work.tasks[t], AfterReturn(s, t, outcome, mono, now);
      var phase := Ending(task, outcome, mono, now);
      EndingMeans(task, outcome, mono, now);
      ExplainedNow(start, events, task.op, HandlerEnded(outcome, Over(task.budget, mono, now)), phase.state, phase.answer);
      AnswerKeepsTold(start, events, s, u, t, phase);
    }
  }

  /** One row gets its end; no task that is about to publish works on it. */
  lemma RowEnds(start: State, events: seq<Event>, rows: Rows, later: Rows, op: Operation, answer: Payload)
    requires RowsTold(start, events, rows) && op.id in rows && op.id in later
    requires later == rows[op.id := later[op.id]] && RowTold(start, events, later[op.id], op, answer)
    ensures RowsTold(start, events, later)
  {
    hide RowTold;
    forall id | id in later && Terminal(later[id].state)
      ensures exists op: Operation, answer: Payload :: op.id == id && RowTold(start, events, later[id], op, answer)
    {
      if id != op.id { assert later[id] == rows[id]; }
    }
  }

  lemma StoreStep(start: State, events: seq<Event>, s: State, t: TaskId)
    requires Told(start, events, s) && Consistent(s) && Safe(s)
    ensures Told(start, events, AfterStore(s, t))
  {
    hide Explained, Announced, Settled, TasksFit, MainFits, OneLive, AtMostOnce, Bounded, Durable, RowsTold, Journalled;
    if t in s.work.tasks && s.work.tasks[t].phase.Storing? {
      var task, u := s.work.tasks[t], AfterStore(s, t);
      var id, phase := task.op.id, task.phase;
      FittingParts(s);
      TaskFits(s, t);
      assert TaskTold(start, events, s.rows, task);
      assert Journalled(s.rows, task.op);
      JournalledDigest(s.rows, task.op);
      RowEnds(start, events, s.rows, u.rows, task.op, phase.answer);
      StoredTasks(start, events, s, u, t);
      JournalledStays(s.rows, u.rows, id);
    }
  }

  lemma JournalledDigest(rows: Rows, op: Operation)
    requires Journalled(rows, op)
    ensures op.id in rows && rows[op.id].receipt.digest == DigestOf(op.action)
  {
  }

  lemma JournalledStays(rows: Rows, later: Rows, id: OperationId)
    requires id in rows && id in later && later == rows[id := later[id]] && later[id].receipt == rows[id].receipt
    ensures forall op :: Journalled(rows, op) ==> Journalled(later, op)
  {
  }

  lemma StoredTasks(start: State, events: seq<Event>, s: State, u: State, t: TaskId)
    requires TasksTold(start, events, s.rows, s.work) && Settled(s.rows) && TasksFit(s.rows, s.work)
    requires t in s.work.tasks && s.work.tasks[t].phase.Storing?
    requires var id, phase := s.work.tasks[t].op.id, s.work.tasks[t].phase;
      && id in s.rows && s.rows[id].state.Running? && id in u.rows
      && u.rows == s.rows[id := u.rows[id]] && Terminal(phase.state) && u.rows[id].state == phase.state
      && u.work.tasks == s.work.tasks[t := s.work.tasks[t].(phase := Publishing(phase.answer))]
    ensures TasksTold(start, events, u.rows, u.work)
  {
    hide Explained, Announced, TunnelRows.Granted, Durable;
    forall k | k in u.work.tasks ensures TaskTold(start, events, u.rows, u.work.tasks[k]) {
      assert TaskTold(start, events, s.rows, s.work.tasks[k]);
    }
  }

  lemma TerminalizeStep(start: State, events: seq<Event>, s: State)
    requires LastStep(start, events, s, Terminalize) && Told(start, events, s) && Consistent(s)
    ensures Told(start, events, AfterTerminalize(s))
  {
    hide Run, Explained, Announced, Settled, TasksFit, RowsTold, Journalled;
    if s.main.Terminalizing? && MayTransition(s.rows, s.main.op.id, OutcomeUnknown) {
      var op, u := s.main.op, AfterTerminalize(s);
      ExplainedNow(start, events, op, GivenUp, OutcomeUnknown, UNCERTAIN);
      JournalledDigest(s.rows, op);
      RowEnds(start, events, s.rows, u.rows, op, UNCERTAIN);
      forall k | k in u.work.tasks ensures TaskTold(start, events, u.rows, u.work.tasks[k]) {
        assert TaskTold(start, events, s.rows, s.work.tasks[k]);
      }
    }
  }

  lemma NextKeepsTold(start: State, events: seq<Event>, s: State, e: Event)
    requires LastStep(start, events, s, e) && Told(start, events, s) && Consistent(s) && Safe(s)
    ensures Told(start, events, Next(s, e))
  {
    hide Told, LastStep, TunnelRows.Consistent, AfterConnect, AfterWelcome, AfterHello, AfterBeginReplay, AfterListOwed, AfterReplay,
         AfterEndReplay, AfterDeliver, AfterMalformed, AfterJournal, AfterConfirm, AfterAccept, AfterLookUp,
         AfterDecide, AfterTerminalize, AfterPublishTerminalized, AfterAck, AfterStoreAck, AfterFinishAck,
         AfterBreak, AfterNotice, AfterLeave, AfterCrash, AfterBegin, AfterAnnounce, AfterEnter, AfterReturn,
         AfterStore, AfterPublish, AfterReap;
    assert Safe(s) ==> Rooted(s.rows, s.main, s.work);
    hide Safe;
    match e
    case Announce(t, mono, now) => AnnounceStep(start, events, s, t, mono, now);
    case Enter(t, inTime) => EnterStep(start, events, s, t, inTime);
    case Return(t, outcome, mono, now) => ReturnStep(start, events, s, t, outcome, mono, now);
    case Store(t) => StoreStep(start, events, s, t);
    case Terminalize => TerminalizeStep(start, events, s);
    case _ => SilentStep(start, events, s, e);
  }

  /** Over every run: every terminal row, and every answer a task is about to
    store or to send, is the verdict on something that happened to its operation. */
  lemma {:induction false} EveryRunIsTold(projects: set<string>, limit: nat, events: seq<Event>)
    ensures Told(Initial(projects, limit), events, Run(Initial(projects, limit), events))
  {
    hide Next, Told, Safe, TunnelRows.Consistent, Initial;
    var start := Initial(projects, limit);
    if events == [] {
      NothingToTell(projects, limit);
    } else {
      var before, e := events[..|events| - 1], events[|events| - 1];
      var s := Run(start, before);
      EveryRunIsTold(projects, limit, before);
      EveryRunIsSafe(projects, limit, before);
      EveryRunIsConsistent(projects, limit, before);
      ToldEarlier(start, events, s);
      NextKeepsTold(start, events, s, e);
    }
  }

  lemma NothingToTell(projects: set<string>, limit: nat)
    ensures Told(Initial(projects, limit), [], Initial(projects, limit))
  {
  }

  /** No handler is called that was not announced while there was time. */
  lemma CalledWasAnnounced(projects: set<string>, limit: nat, events: seq<Event>, t: TaskId)
    requires InPhase(Run(Initial(projects, limit), events), t, Handling)
    ensures var task := Run(Initial(projects, limit), events).work.tasks[t];
      Announced(Initial(projects, limit), events, task.op, task.budget)
  {
    hide Run, Initial, Announced;
    EveryRunIsTold(projects, limit, events);
    var s := Run(Initial(projects, limit), events);
    assert TaskTold(Initial(projects, limit), events, s.rows, s.work.tasks[t]);
  }

  /** What is journalled of an answer: all of it, but of one with a screenshot only
    that it was not kept, and the digest of the screenshot. */
  lemma DurableMeans(p: Payload)
    ensures p.image.None? ==> Durable(p) == p
    ensures p.image.Some? ==>
      && !Durable(p).ok && Durable(p).text == "outcome_unknown: not retained" && Durable(p).image.None?
      && Durable(p).digest == Some(DigestOfImage(p.image.value))
  {
  }

  // What a row says

  /** A terminal row has the state and the durable answer of what ended its operation. */
  lemma RowIsVerdict(projects: set<string>, limit: nat, events: seq<Event>, id: OperationId)
    returns (op: Operation, cause: Cause, answer: Payload)
    requires var rows := Run(Initial(projects, limit), events).rows; id in rows && Terminal(rows[id].state)
    ensures var row := Run(Initial(projects, limit), events).rows[id];
      && op.id == id && row.receipt.digest == DigestOf(op.action)
      && Caused(Initial(projects, limit), events, op, cause)
      && Verdict(cause, op.action, row.state, answer) && row.result == Some(Durable(answer))
  {
    hide Run, Initial, Caused, Verdict;
    var start := Initial(projects, limit);
    EveryRunIsTold(projects, limit, events);
    var rows := Run(start, events).rows;
    assert RowsTold(start, events, rows);
    op, answer :| op.id == id && RowTold(start, events, rows[id], op, answer);
    cause :| Caused(start, events, op, cause) && Verdict(cause, op.action, rows[id].state, answer);
  }

  /** The handler of the operation came back so, at some time. */
  ghost predicate CameBack(start: State, events: seq<Event>, id: OperationId, outcome: Outcome, late: bool) {
    exists op: Operation :: op.id == id && Caused(start, events, op, HandlerEnded(outcome, late))
  }

  /** Succeeded: the handler answered in time, and that answer is the result. */
  lemma SucceededMeans(projects: set<string>, limit: nat, events: seq<Event>, id: OperationId)
    requires var rows := Run(Initial(projects, limit), events).rows; id in rows && rows[id].state.Succeeded?
    ensures exists answer :: Run(Initial(projects, limit), events).rows[id].result == Some(Durable(answer))
                          && CameBack(Initial(projects, limit), events, id, Answered(answer), false)
  {
    hide Run, Initial, Caused, Durable;
    var op, cause, answer := RowIsVerdict(projects, limit, events, id);
    assert cause == HandlerEnded(Answered(answer), false);
  }

  /** Denied: the handler said that the user did. */
  lemma DeniedMeans(projects: set<string>, limit: nat, events: seq<Event>, id: OperationId)
    requires var rows := Run(Initial(projects, limit), events).rows; id in rows && rows[id].state.Denied?
    ensures exists message, late ::
      CameBack(Initial(projects, limit), events, id, AgentError("approval_denied", message), late)
  {
    hide Run, Initial, Caused, Durable;
    var op, cause, answer := RowIsVerdict(projects, limit, events, id);
    assert cause.HandlerEnded? && cause.outcome == AgentError("approval_denied", cause.outcome.message);
    assert CameBack(Initial(projects, limit), events, id, AgentError("approval_denied", cause.outcome.message), cause.late);
  }

  /** An operation that may be repeated is of unknown outcome only if its handler said so. */
  lemma UnknownMeans(projects: set<string>, limit: nat, events: seq<Event>, id: OperationId)
    requires var rows := Run(Initial(projects, limit), events).rows;
      id in rows && rows[id].state.OutcomeUnknown? && !Irrevocable(rows[id].receipt.digest.action)
    ensures exists message, late ::
      CameBack(Initial(projects, limit), events, id, AgentError("outcome_unknown", message), late)
  {
    hide Run, Initial, Caused, Durable;
    var op, cause, answer := RowIsVerdict(projects, limit, events, id);
    assert cause.HandlerEnded? && cause.outcome == AgentError("outcome_unknown", cause.outcome.message);
    assert CameBack(Initial(projects, limit), events, id, AgentError("outcome_unknown", cause.outcome.message), cause.late);
  }

  /** An operation that may not be repeated never fails because its handler ran
    out of time: then nobody knows what it did. */
  lemma NotFailedByTime(projects: set<string>, limit: nat, events: seq<Event>, id: OperationId)
    requires var rows := Run(Initial(projects, limit), events).rows;
      id in rows && rows[id].state.Failed? && Irrevocable(rows[id].receipt.digest.action)
    ensures exists op: Operation, cause ::
      op.id == id && Caused(Initial(projects, limit), events, op, cause) && !RanOut(cause)
  {
    hide Run, Initial, Caused, Durable;
    var op, cause, answer := RowIsVerdict(projects, limit, events, id);
  }

  lemma ReturnAndStore(s: State, t: TaskId, outcome: Outcome, mono: int, now: int)
    requires Consistent(s) && InPhase(s, t, Handling)
    ensures var task := s.work.tasks[t];
      var u := AfterStore(AfterReturn(s, t, outcome, mono, now), t);
      && t in u.work.tasks && u.work.tasks[t].phase.Publishing? && task.op.id in u.rows
      && var row, answer := u.rows[task.op.id], u.work.tasks[t].phase.answer;
         && Verdict(HandlerEnded(outcome, Over(task.budget, mono, now)), task.op.action, row.state, answer)
         && row.result == Some(Durable(answer)) && !row.acked
  {
    hide Verdict, Ending, Over, Settled, MainFits, Durable;
    FittingParts(s);
    TaskFits(s, t);
    EndingMeans(s.work.tasks[t], outcome, mono, now);
    EndingIsTerminal(s.work.tasks[t], outcome, mono, now);
  }

  /** And the way there: when a handler comes back, what it came back with decides
    the row and what is sent, whatever it was. */
  lemma ReturnIsStored(projects: set<string>, limit: nat, events: seq<Event>, t: TaskId, outcome: Outcome,
                       mono: int, now: int)
    requires InPhase(Run(Initial(projects, limit), events), t, Handling)
    ensures var s := Run(Initial(projects, limit), events);
      var task := s.work.tasks[t];
      var u := Next(Next(s, Return(t, outcome, mono, now)), Store(t));
      && t in u.work.tasks && u.work.tasks[t].phase.Publishing? && task.op.id in u.rows
      && var row, answer := u.rows[task.op.id], u.work.tasks[t].phase.answer;
         && Verdict(HandlerEnded(outcome, Over(task.budget, mono, now)), task.op.action, row.state, answer)
         && row.result == Some(Durable(answer)) && !row.acked
  {
    hide Run, Initial, Verdict, Over, TunnelRows.Consistent, Durable, AfterConnect, AfterWelcome, AfterHello, AfterBeginReplay, AfterListOwed, AfterReplay,
         AfterEndReplay, AfterDeliver, AfterMalformed, AfterJournal, AfterConfirm, AfterAccept, AfterLookUp,
         AfterDecide, AfterTerminalize, AfterPublishTerminalized, AfterAck, AfterStoreAck, AfterFinishAck,
         AfterBreak, AfterNotice, AfterLeave, AfterCrash, AfterBegin, AfterAnnounce, AfterEnter, AfterReturn,
         AfterStore, AfterPublish, AfterReap;
    EveryRunIsConsistent(projects, limit, events);
    ReturnAndStore(Run(Initial(projects, limit), events), t, outcome, mono, now);
  }
}
