/** The device client itself: its tables, updated in place, and its journal.
  Each method is the stretch of the program between two awaits, and is proved to
  be the step of the same name. */
module TunnelClient {
  import opened Wrappers
  import opened OperationStore
  import opened ExecutionBudget
  import opened Tunnel
  import TunnelSafety
  import TunnelDelivery
  import TunnelReceipts

  class DeviceClient {
    const store: OperationStore
    const limit: nat
    var main: Main
    var link: Link
    var epoch: nat
    var tasks: map<TaskId, Task>
    var current: map<OperationId, TaskId>
    var budgets: map<OperationId, Budget>
    var terminals: map<Correlation, Message>
    ghost var sent: set<Message>
    ghost var ever: set<Message>
    ghost var invoked: multiset<OperationId>

    ghost function State(): Tunnel.State
      reads this, store
    {
      Tunnel.State(store.rows, store.projects, limit, main, Net(link, epoch, sent, ever),
                   Work(tasks, current, budgets, invoked), terminals)
    }

    constructor (store: OperationStore, limit: nat)
      requires store.rows == map[]
      ensures this.store == store && State() == Initial(store.projects, limit)
    {
      this.store := store;
      this.limit := limit;
      main, link, epoch := Offline, Closed, 0;
      tasks, current, budgets, terminals := map[], map[], map[], map[];
      sent, ever, invoked := {}, {}, multiset{};
    }

    /** Send, or drop without a socket; a broken socket raises. */
    method SendNew(m: Message) returns (ok: bool)
      modifies this`terminals, this`sent, this`ever
      ensures ok == !link.Broken?
      ensures State() == if m.kind.ResultNote? then SendResult(old(State()), m) else Send(old(State()), m)
    {
      if m.kind.ResultNote? {
        terminals := terminals[m.correlation := m];
      }
      if link.Open? {
        sent, ever := sent + {m}, ever + {m};
      }
      return !link.Broken?;
    }

    method SendResultFor(op: Operation, payload: Payload) returns (ok: bool)
      modifies this`terminals, this`sent, this`ever
      ensures ok == !link.Broken?
      ensures State() == SendResult(old(State()), OpResult(old(State()), op, payload))
    {
      ok := SendNew(Message(ResultNote(payload), op.correlation, op.bindings, DigestOf(op.action), epoch));
    }

    method StartDispatch(task: TaskId, op: Operation, budget: Budget, reconcile: bool)
      modifies this`budgets, this`tasks, this`current, this`main
      ensures State() == Tunnel.StartDispatch(old(State()), task, op, budget, reconcile)
    {
      budgets := budgets[op.id := budget];
      tasks := tasks[task := Task(op, budget, reconcile, Starting)];
      current := current[op.id := task];
      main := Listening;
    }

    /** Forget the budgets that ran out, unless their task is still live. */
    method Prune(mono: int)
      modifies this`budgets
      ensures budgets == Pruned(old(State()), mono)
    {
      var active := set id | id in current && current[id] in tasks && !tasks[current[id]].phase.Ended?;
      budgets := map id | id in budgets && (budgets[id].monotonicDeadline > mono || id in active) :: budgets[id];
    }

    method CheckAdmission(op: Operation, now: int) returns (code: Option<string>)
      ensures code == Refusal(State(), op, now)
    {
      if |tasks| >= limit || (|budgets| >= limit && op.id !in budgets) {
        return Some("queue_full");
      }
      if op.deadline.None? || op.deadline.value <= now {
        return Some("deadline_exceeded");
      }
      if op.action.project.Some? && op.action.project != op.bindings.project {
        return Some("binding_mismatch");
      }
      if op.bindings.grant.None? || op.bindings.link.None? {
        return Some("unauthorized");
      }
      return None;
    }

    /** An operation comes in: refuse it, or go on to journal it. */
    method Deliver(op: Operation, at: int, mono: int, now: int)
      requires main.Listening?
      modifies this`main, this`budgets, this`terminals, this`sent, this`ever
      ensures State() == AfterDeliver(old(State()), op, at, mono, now)
    {
      hide Pruned, QueueFull, ToolFailure;
      if op.epoch != epoch {
        main := Leaving;
        return;
      }
      Prune(mono);
      var code := CheckAdmission(op, now);
      if code.None? {
        main := Journalling(Arrival(op, op.deadline.value, at, mono));
      } else {
        var ok := SendResultFor(op, ToolFailure(code.value, "refused"));
        main := if ok then Listening else Leaving;
      }
    }

    method Journal(now: int)
      requires main.Journalling?
      modifies this`main, store`rows
      ensures State() == AfterJournal(old(State()), now)
    {
      hide RecordingOf, Recorded, Advances;
      var a := main.arrival;
      var recording := store.RecordReceived(a.op.id, ReceiptOf(a.op, a.deadline), epoch, now);
      NothingRecordedOnConflict(old(store.rows), store.projects, a.op.id, ReceiptOf(a.op, a.deadline), epoch, now);
      main := if recording.Conflict? then Leaving else Confirming(a, recording.Inserted?);
    }

    method Confirm()
      requires main.Confirming?
      modifies this`main, this`terminals, this`sent, this`ever
      ensures State() == AfterConfirm(old(State()))
    {
      var a := main.arrival;
      var ok := SendNew(Message(ReceivedNote(!main.inserted), a.op.correlation, a.op.bindings, DigestOf(a.op.action), epoch));
      main := if ok then Confirmed(a, main.inserted) else Leaving;
    }

    method LookUp()
      requires main.Confirmed? && !main.inserted
      modifies this`main
      ensures State() == AfterLookUp(old(State()))
    {
      var prior := store.GetOperation(main.arrival.op.id);
      if prior.Some? {
        main := Known(main.arrival, prior.value);
      }
    }

    /** A redelivered operation: resend, wait, give up on it, or run it again. */
    method Decide(task: TaskId)
      requires main.Known? && task !in tasks
      modifies this
      ensures State() == AfterDecide(old(State()), task)
    {
      hide Uncertain, FromEnvelope, Tighter;
      var a, prior := main.arrival, main.prior;
      if prior.result.Some? {
        var ok := SendResultFor(a.op, prior.result.value);
        main := if ok then Listening else Leaving;
      } else if a.op.id in current && current[a.op.id] in tasks && !tasks[current[a.op.id]].phase.Ended? {
        main := Listening;
      } else if Uncertain(a.op.action) {
        main := Terminalizing(a.op);
      } else {
        var budget := FromEnvelope(a.op.sentAt, a.deadline, a.at, a.mono, At(prior.receivedAt));
        if a.op.id in budgets {
          budget := Tighter(budget, budgets[a.op.id]);
        }
        StartDispatch(task, a.op, budget, true);
      }
    }

    method Terminalize()
      requires main.Terminalizing?
      modifies this`main, store`rows
      ensures State() == AfterTerminalize(old(State()))
    {
      hide Transitioned, MayTransition, Advances;
      var op := main.op;
      var ok := store.TransitionOperation(op.id, OutcomeUnknown, Some(UNCERTAIN));
      main := if ok then Terminalized(op) else Leaving;
    }

    /** An acknowledgement must match the result it acknowledges. */
    method ReceiveAck(correlation: Correlation, digest: ActionDigest, bindings: Bindings)
      requires main.Listening?
      modifies this`main, this`terminals
      ensures State() == AfterAck(old(State()), correlation, digest, bindings)
    {
      if correlation !in terminals {
        return;
      }
      var pending := terminals[correlation];
      if digest != pending.digest || bindings != pending.bindings {
        main := Leaving;
      } else if bindings.grant.Some? && bindings.link.Some? {
        main := Acking(correlation, digest, bindings);
      } else {
        terminals := terminals - {correlation};
      }
    }

    method StoreAck()
      requires main.Acking?
      modifies this`main, store`rows
      ensures State() == AfterStoreAck(old(State()))
    {
      hide Acknowledged, Acknowledges, Advances;
      var found := store.AcknowledgeTerminal(main.correlation, main.digest, main.bindings);
      main := Acked(main.correlation);
    }

    /** Gather what has to be sent again under the new epoch. */
    method ListOwed()
      requires main.Listing?
      modifies this`main
      ensures State() == AfterListOwed(old(State()))
    {
      var memory := main.memory;
      var owed := store.ListUnacknowledgedTerminals();
      var rows := store.rows;
      var durable := set id | id in owed ::
        Message(ResultNote(rows[id].result.value), rows[id].receipt.correlation, rows[id].receipt.bindings,
                rows[id].receipt.digest, epoch);
      var correlations := set id | id in owed :: rows[id].receipt.correlation;
      var rest := set c | c in memory && c !in correlations :: memory[c].(epoch := epoch, correlation := c);
      ghost var s := State();
      assert durable == OwedMessages(s) by { SameMessages(s, durable); }
      assert forall c :: c in correlations <==> CoveredByRow(s, c);
      assert rest == set c | c in memory && !CoveredByRow(s, c) :: memory[c].(epoch := s.net.epoch, correlation := c);
      main := Replaying(durable + rest);
    }

    method Begin(t: TaskId)
      requires InPhase(State(), t, Starting)
      modifies this`tasks, store`rows
      ensures State() == AfterBegin(old(State()), t)
    {
      hide Transitioned, MayTransition, Advances;
      var ok := store.TransitionOperation(tasks[t].op.id, Running, None);
      tasks := tasks[t := tasks[t].(phase := if ok then Announcing else Ended)];
    }

    method Announce(t: TaskId, mono: int, now: int)
      requires InPhase(State(), t, Announcing)
      modifies this`tasks, this`terminals, this`sent, this`ever
      ensures State() == AfterAnnounce(old(State()), t, mono, now)
    {
      var task := tasks[t];
      var phase := Storing(Failed, DEADLINE);
      if !Late(task.budget, mono, now) {
        var ok := SendNew(Message(StartedNote, task.op.correlation, task.op.bindings, DigestOf(task.op.action), epoch));
        phase := if ok then Entering else Storing(Failed, INTERNAL);
      }
      tasks := tasks[t := task.(phase := phase)];
    }

    /** The handler is called here, and nowhere else. */
    method Enter(t: TaskId, inTime: bool)
      requires InPhase(State(), t, Entering)
      modifies this`tasks, this`invoked
      ensures State() == AfterEnter(old(State()), t, inTime)
    {
      if inTime {
        invoked := invoked + multiset{tasks[t].op.id};
      }
      tasks := tasks[t := tasks[t].(phase := if inTime then Handling else Storing(Failed, DEADLINE))];
    }

    method Return(t: TaskId, outcome: Outcome, mono: int, now: int)
      requires InPhase(State(), t, Handling)
      modifies this`tasks
      ensures State() == AfterReturn(old(State()), t, outcome, mono, now)
    {
      hide Ending;
      tasks := tasks[t := tasks[t].(phase := Ending(tasks[t], outcome, mono, now))];
    }

    method Store(t: TaskId)
      requires t in tasks && tasks[t].phase.Storing?
      modifies this`tasks, store`rows
      ensures State() == AfterStore(old(State()), t)
    {
      hide Transitioned, MayTransition, Advances, Durable;
      var phase := tasks[t].phase;
      var ok := store.TransitionOperation(tasks[t].op.id, phase.state, Some(Durable(phase.answer)));
      tasks := tasks[t := tasks[t].(phase := if ok then Publishing(phase.answer) else Ended)];
    }

    method Publish(t: TaskId)
      requires t in tasks && tasks[t].phase.Publishing?
      modifies this`tasks, this`budgets, this`terminals, this`sent, this`ever
      ensures State() == AfterPublish(old(State()), t)
    {
      var op, answer := tasks[t].op, tasks[t].phase.answer;
      budgets := budgets - {op.id};
      var ok := SendResultFor(op, answer);
      tasks := tasks[t := tasks[t].(phase := Ended)];
    }

    /** The done callback. */
    method Reap(t: TaskId)
      requires InPhase(State(), t, Ended)
      modifies this`tasks, this`current
      ensures State() == AfterReap(old(State()), t)
    {
      var id := tasks[t].op.id;
      if id in current && current[id] == t {
        current := current - {id};
      }
      tasks := tasks - {t};
    }

    /** Connecting and starting to replay. */
    method ConnectStep(e: Event)
      requires IsConnect(e)
      modifies this
      ensures State() == Next(old(State()), e)
    {
      if e.Connect? && main.Offline? {
        main, link, sent := Greeting, Open, {};
      } else if e.Welcome? && main.Greeting? && link.Open? && e.epoch >= 1 {
        main, epoch := Fenced, e.epoch;
      } else if e.Hello? && main.Fenced? {
        main := if link.Broken? then Leaving else Greeted;
      } else if e.BeginReplay? && main.Greeted? {
        main := Listing(terminals);
      } else if e.EndReplay? && main == Replaying({}) {
        main := Listening;
      }
    }

    /** Losing the connection. */
    method DisconnectStep(e: Event)
      requires e.Break? || e.Notice? || e.Leave?
      modifies this
      ensures State() == Next(old(State()), e)
    {
      if e.Break? && link.Open? {
        link := Broken;
      } else if e.Notice? && (main.Greeting? || (main.Listening? && link.Broken?)) {
        main := Leaving;
      } else if e.Leave? && main.Leaving? {
        main, link := Offline, Closed;
      }
    }

    /** Losing the process: every table in memory is gone. */
    method CrashStep()
      modifies this`main, this`link, this`epoch, this`sent, this`tasks, this`current, this`budgets, this`terminals
      ensures State() == AfterCrash(old(State()))
    {
      main, link, epoch, sent := Offline, Closed, 0, {};
      tasks, current, budgets, terminals := map[], map[], map[], map[];
    }

    /** Receiving an operation, and what follows. */
    method ReceiveStep(e: Event)
      requires IsReceive(e)
      modifies this, store`rows
      ensures State() == Next(old(State()), e)
    {
      hide BudgetOf, OpResult, Tunnel.StartDispatch;
      if e.Deliver? && main.Listening? {
        Deliver(e.op, e.at, e.mono, e.now);
      } else if e.Malformed? && main.Listening? {
        main := Leaving;
      } else if e.Journal? && main.Journalling? {
        Journal(e.now);
      } else if e.Confirm? && main.Confirming? {
        Confirm();
      }
    }

    /** Starting an operation, or settling a redelivered one. */
    method DecideStep(e: Event)
      requires e.LookUp? || e.Accept? || e.Decide?
      modifies this, store`rows
      ensures State() == Next(old(State()), e)
    {
      hide BudgetOf, OpResult, Tunnel.StartDispatch;
      if e.LookUp? && main.Confirmed? && !main.inserted {
        LookUp();
      } else if e.Accept? && main.Confirmed? && main.inserted && e.task !in tasks {
        StartDispatch(e.task, main.arrival.op, BudgetOf(main.arrival, NotAsked), false);
      } else if e.Decide? && main.Known? && e.task !in tasks {
        Decide(e.task);
      }
    }

    /** Giving up on an uncertain action that may have run. */
    method TerminalizeStep(e: Event)
      requires e.Terminalize? || e.PublishTerminalized?
      modifies this, store`rows
      ensures State() == Next(old(State()), e)
    {
      hide OpResult;
      if e.Terminalize? && main.Terminalizing? {
        Terminalize();
      } else if e.PublishTerminalized? && main.Terminalized? {
        var ok := SendResultFor(main.op, UNCERTAIN);
        main := if ok then Listening else Leaving;
      }
    }

    /** Acknowledgements. */
    method AckStep(e: Event)
      requires e.Ack? || e.StoreAck? || e.FinishAck?
      modifies this, store`rows
      ensures State() == Next(old(State()), e)
    {
      hide Acknowledged;
      if e.Ack? && main.Listening? {
        ReceiveAck(e.correlation, e.digest, e.bindings);
      } else if e.StoreAck? && main.Acking? {
        StoreAck();
      } else if e.FinishAck? && main.Acked? {
        terminals := terminals - {main.correlation};
        main := Listening;
      }
    }

    /** Results sent again. */
    method ReplayStep(e: Event)
      requires e.ListOwed? || e.Replay?
      modifies this
      ensures State() == Next(old(State()), e)
    {
      hide ReplayList;
      if e.ListOwed? && main.Listing? {
        ListOwed();
      } else if e.Replay? && main.Replaying? && e.message in main.todo {
        var todo := main.todo - {e.message};
        terminals := terminals[e.message.correlation := e.message];
        if link.Open? {
          sent, ever := sent + {e.message}, ever + {e.message};
        }
        main := if link.Broken? then Leaving else Replaying(todo);
      }
    }

    /** A task on its way into its handler. */
    method EnterStep(e: Event)
      requires e.Begin? || e.Announce? || e.Enter?
      modifies this, store`rows
      ensures State() == Next(old(State()), e)
    {
      hide Late, Transitioned, MayTransition;
      if e.task !in tasks {
        return;
      }
      var t, phase := e.task, tasks[e.task].phase;
      if e.Begin? && phase.Starting? { Begin(t); }
      else if e.Announce? && phase.Announcing? { Announce(t, e.mono, e.now); }
      else if e.Enter? && phase.Entering? { Enter(t, e.inTime); }
    }

    /** A task on its way out. */
    method OutcomeStep(e: Event)
      requires e.Return? || e.Store?
      modifies this, store`rows
      ensures State() == Next(old(State()), e)
    {
      hide Transitioned, MayTransition, Durable, Ending;
      if e.task !in tasks {
        return;
      }
      var t, phase := e.task, tasks[e.task].phase;
      if e.Return? && phase.Handling? { Return(t, e.outcome, e.mono, e.now); }
      else if e.Store? && phase.Storing? { Store(t); }
    }

    method LeaveStep(e: Event)
      requires e.Publish? || e.Reap?
      modifies this, store`rows
      ensures State() == Next(old(State()), e)
    {
      hide OpResult;
      if e.task !in tasks {
        return;
      }
      var t, phase := e.task, tasks[e.task].phase;
      if e.Publish? && phase.Publishing? { Publish(t); }
      else if e.Reap? && phase.Ended? { Reap(t); }
    }

    method Take(e: Event)
      modifies this, store`rows
      ensures State() == Next(old(State()), e)
    {
      hide State, AfterCrash;
      if e.Crash? {
        CrashIsNext(State(), e);
        CrashStep();
      }
      else if IsConnect(e) { ConnectStep(e); }
      else if e.Break? || e.Notice? || e.Leave? { DisconnectStep(e); }
      else if IsReceive(e) { ReceiveStep(e); }
      else if e.LookUp? || e.Accept? || e.Decide? { DecideStep(e); }
      else if e.Terminalize? || e.PublishTerminalized? { TerminalizeStep(e); }
      else if e.Ack? || e.StoreAck? || e.FinishAck? { AckStep(e); }
      else if e.ListOwed? || e.Replay? { ReplayStep(e); }
      else if e.Begin? || e.Announce? || e.Enter? { EnterStep(e); }
      else if e.Return? || e.Store? { OutcomeStep(e); }
      else { LeaveStep(e); }
    }

    /** Any run of the client is a run of the steps, so it is safe, its results are
      sent or about to be, and what is acknowledged was sent if the run was fair. */
    method Play(events: seq<Event>)
      requires State() == Initial(store.projects, limit)
      modifies this, store`rows
      ensures State() == Tunnel.Run(Initial(store.projects, limit), events)
      ensures TunnelSafety.Safe(State()) && TunnelDelivery.Served(State())
      ensures forall id :: TunnelReceipts.FairlyAcked(Initial(store.projects, limit), events, store.rows, id) ==>
        TunnelReceipts.Borne(ever, store.rows[id])
    {
      hide Next, Initial, TunnelSafety.Safe, TunnelDelivery.Served, TunnelReceipts.Fair, TunnelReceipts.Borne;
      ghost var first := State();
      for n := 0 to |events|
        invariant State() == Tunnel.Run(first, events[..n])
      {
        assert events[..n + 1][..n] == events[..n];
        var e := events[n];
        Take(e);
      }
      assert events[..|events|] == events;
      TunnelSafety.EveryRunIsSafe(store.projects, limit, events);
      TunnelDelivery.EveryRunIsServed(store.projects, limit, events);
      forall id | TunnelReceipts.FairlyAcked(Initial(store.projects, limit), events, store.rows, id)
        ensures TunnelReceipts.Borne(ever, store.rows[id])
      {
        TunnelReceipts.AcknowledgedOnlyWhenSent(store.projects, limit, events, id);
      }
    }
  }

  predicate IsConnect(e: Event) {
    e.Connect? || e.Welcome? || e.Hello? || e.BeginReplay? || e.EndReplay?
  }

  predicate IsReceive(e: Event) {
    e.Deliver? || e.Malformed? || e.Journal? || e.Confirm?
  }

  lemma CrashIsNext(s: State, e: Event)
    requires e.Crash?
    ensures Next(s, e) == AfterCrash(s)
  {
  }

  lemma NothingRecordedOnConflict(rows: Rows, projects: set<string>, id: OperationId, receipt: Receipt, epoch: nat,
                                  now: int)
    ensures RecordingOf(rows, projects, id, receipt, epoch).Conflict? ==>
      Recorded(rows, projects, id, receipt, epoch, now) == rows
  {
  }

  lemma SameMessages(s: State, durable: set<Message>)
    requires durable == set id | id in OwedOf(s.rows) ::
      Message(ResultNote(s.rows[id].result.value), s.rows[id].receipt.correlation, s.rows[id].receipt.bindings,
              s.rows[id].receipt.digest, s.net.epoch)
    ensures durable == OwedMessages(s)
  {
    forall m | m in OwedMessages(s) ensures m in durable {
      var id :| id in s.rows && Owed(s.rows[id]) && m == RowMessage(s, s.rows[id]);
      assert id in OwedOf(s.rows);
    }
  }
}
