/** What is owed to the relay stays owed until an acknowledgement that names it is
  stored, and a working connection has sent it, or is about to. */
module TunnelDelivery {
  import opened Wrappers
  import opened OperationStore
  import opened Tunnel
  import opened TunnelSafety

  /** The message delivers the row's result, perhaps with the screenshot that the journal left out. */
  predicate Carries(m: Message, row: Row) {
    && m.kind.ResultNote? && row.result == Some(Durable(m.kind.payload))
    && m.correlation == row.receipt.correlation && m.bindings == row.receipt.bindings && m.digest == row.receipt.digest
  }

  /** The connection has finished listing what it owes. */
  predicate Serving(main: Main) {
    !(main.Offline? || main.Greeting? || main.Fenced? || main.Greeted? || main.Listing? || main.Leaving?)
  }

  function Todo(main: Main): set<Message> {
    if main.Replaying? then main.todo else {}
  }

  ghost predicate InHand(messages: set<Message>, epoch: nat, row: Row) {
    exists m :: m in messages && m.epoch == epoch && Carries(m, row)
  }

  /** A task that has stored this result is about to send it. */
  ghost predicate TaskWillSend(w: Work, id: OperationId, row: Row) {
    exists t :: t in w.tasks && w.tasks[t].phase.Publishing? && w.tasks[t].op.id == id
      && row.result == Some(Durable(w.tasks[t].phase.answer))
  }

  /** The row's result was sent in this epoch, or is about to be. */
  ghost predicate Covered(main: Main, net: Net, w: Work, id: OperationId, row: Row) {
    || InHand(net.sent, net.epoch, row)
    || InHand(Todo(main), net.epoch, row)
    || (main.Terminalized? && main.op.id == id && row.result == Some(UNCERTAIN))
    || TaskWillSend(w, id, row)
  }

  ghost predicate RowsServed(rows: Rows, main: Main, net: Net, w: Work) {
    Serving(main) && net.link.Open? ==>
      forall id :: id in rows && Owed(rows[id]) ==> Covered(main, net, w, id, rows[id])
  }

  predicate SentNow(net: Net, m: Message) {
    m in net.sent && m.epoch == net.epoch
  }

  ghost predicate TodoFor(main: Main, c: Correlation) {
    exists m :: m in Todo(main) && m.correlation == c
  }

  /** Every remembered result was sent in this epoch, or is still in line. */
  ghost predicate MemoryServed(main: Main, net: Net, terminals: map<Correlation, Message>) {
    (Serving(main) || main.Listing?) && net.link.Open? ==>
      && (forall m :: m in Todo(main) ==> m.epoch == net.epoch)
      && (forall c :: c in terminals ==>
            SentNow(net, terminals[c]) || TodoFor(main, c) || (main.Listing? && c in main.memory))
  }

  ghost predicate Imageless(rows: Rows) {
    forall id :: id in rows && rows[id].result.Some? ==> rows[id].result.value.image.None?
  }

  /** Stored results carry no screenshot; an operation to be terminalized has its row. */
  ghost predicate Grounded(rows: Rows, main: Main) {
    && Imageless(rows)
    && (main.Terminalizing? || main.Terminalized? ==> TunnelSafety.Journalled(rows, main.op))
  }

  ghost predicate Served(s: State) {
    && Grounded(s.rows, s.main) && RowsServed(s.rows, s.main, s.net, s.work) && MemoryServed(s.main, s.net, s.terminals)
  }

  /** A step that neither stores nor withdraws a result, and sends what it remembers. */
  ghost predicate Calm(s: State, t: State) {
    && Grounded(t.rows, t.main)
    && ((Serving(t.main) || t.main.Listing?) && t.net.link.Open? ==>
          && s.net.link.Open? && t.net.epoch == s.net.epoch && s.net.sent <= t.net.sent
          && Serving(t.main) == Serving(s.main) && Todo(t.main) == Todo(s.main)
          && (s.main.Listing? || t.main.Listing? || s.main.Terminalized? || t.main.Terminalized? ==> t.main == s.main)
          && (forall c :: c in t.terminals ==>
                SentNow(t.net, t.terminals[c]) || (c in s.terminals && s.terminals[c] == t.terminals[c]))
          && SameDebts(s.rows, t.rows) && KeepsPublishers(s.work, t.work))
  }

  ghost predicate SameDebts(rows: Rows, later: Rows) {
    forall id :: id in later && Owed(later[id]) ==>
      id in rows && Owed(rows[id]) && rows[id].receipt == later[id].receipt && rows[id].result == later[id].result
  }

  ghost predicate KeepsPublishers(w: Work, x: Work) {
    forall t :: t in w.tasks && w.tasks[t].phase.Publishing? ==> t in x.tasks && x.tasks[t] == w.tasks[t]
  }

  lemma CalmKeepsServed(s: State, t: State)
    requires Served(s) && Calm(s, t)
    ensures Served(t)
  {
    hide Carries, Owed, Durable;
    if (Serving(t.main) || t.main.Listing?) && t.net.link.Open? {
      forall id | Serving(t.main) && id in t.rows && Owed(t.rows[id]) ensures Covered(t.main, t.net, t.work, id, t.rows[id]) {
        StillCovered(s, t, id);
      }
    }
  }

  lemma StillCovered(s: State, t: State, id: OperationId)
    requires id in s.rows && id in t.rows && Covered(s.main, s.net, s.work, id, s.rows[id])
    requires s.rows[id].receipt == t.rows[id].receipt && s.rows[id].result == t.rows[id].result
    requires t.net.epoch == s.net.epoch && s.net.sent <= t.net.sent && Todo(t.main) == Todo(s.main)
    requires s.main.Terminalized? ==> t.main == s.main
    requires KeepsPublishers(s.work, t.work)
    ensures Covered(t.main, t.net, t.work, id, t.rows[id])
  {
    hide Durable;
    if InHand(s.net.sent, s.net.epoch, s.rows[id]) {
      var m :| m in s.net.sent && m.epoch == s.net.epoch && Carries(m, s.rows[id]);
      assert m in t.net.sent && Carries(m, t.rows[id]);
    } else if InHand(Todo(s.main), s.net.epoch, s.rows[id]) {
      var m :| m in Todo(s.main) && m.epoch == s.net.epoch && Carries(m, s.rows[id]);
      assert m in Todo(t.main) && Carries(m, t.rows[id]);
    } else if TaskWillSend(s.work, id, s.rows[id]) {
      var u :| u in s.work.tasks && s.work.tasks[u].phase.Publishing? && s.work.tasks[u].op.id == id
        && s.rows[id].result == Some(Durable(s.work.tasks[u].phase.answer));
      assert u in t.work.tasks;
    }
  }

  lemma NothingOwedAnew(rows: Rows)
    ensures SameDebts(rows, rows)
  {
  }

  lemma RecordingOwesNothing(rows: Rows, projects: set<string>, id: OperationId, receipt: Receipt, epoch: nat, now: int)
    requires Imageless(rows)
    ensures var later := Recorded(rows, projects, id, receipt, epoch, now); SameDebts(rows, later) && Imageless(later)
  {
  }

  lemma AcknowledgingOwesNothing(rows: Rows, correlation: Correlation, digest: ActionDigest, bindings: Bindings)
    requires Imageless(rows)
    ensures var later := Acknowledged(rows, correlation, digest, bindings); SameDebts(rows, later) && Imageless(later)
  {
    hide Acknowledges;
  }

  lemma RunningOwesNothing(rows: Rows, id: OperationId)
    requires Imageless(rows) && MayTransition(rows, id, Running)
    ensures var later := Transitioned(rows, id, Running, None); SameDebts(rows, later) && Imageless(later)
  {
  }

  lemma SameWork(w: Work)
    ensures KeepsPublishers(w, w)
  {
  }

  lemma ConnectingIsCalm(s: State, epoch: nat)
    requires Grounded(s.rows, s.main)
    ensures Calm(s, AfterConnect(s)) && Calm(s, AfterWelcome(s, epoch)) && Calm(s, AfterHello(s))
  {
    hide SameDebts, KeepsPublishers, TunnelSafety.Journalled;
    NothingOwedAnew(s.rows);
    SameWork(s.work);
  }

  lemma BreakingIsCalm(s: State)
    requires Grounded(s.rows, s.main)
    ensures Calm(s, AfterBreak(s)) && Calm(s, AfterNotice(s)) && Calm(s, AfterLeave(s))
    ensures Calm(s, AfterMalformed(s)) && Calm(s, AfterEndReplay(s))
  {
    hide SameDebts, KeepsPublishers, TunnelSafety.Journalled;
    NothingOwedAnew(s.rows);
    SameWork(s.work);
  }

  lemma CrashIsCalm(s: State)
    requires Grounded(s.rows, s.main)
    ensures Calm(s, AfterCrash(s))
  {
  }

  lemma DeliverIsCalm(s: State, op: Operation, at: int, mono: int, now: int)
    requires Grounded(s.rows, s.main)
    ensures Calm(s, AfterDeliver(s, op, at, mono, now))
  {
    hide SameDebts, TunnelSafety.Journalled, Pruned, Refusal;
    NothingOwedAnew(s.rows);
  }

  lemma ReceivingIsCalm(s: State)
    requires Grounded(s.rows, s.main)
    ensures Calm(s, AfterConfirm(s)) && Calm(s, AfterLookUp(s))
  {
    hide SameDebts, KeepsPublishers, TunnelSafety.Journalled;
    NothingOwedAnew(s.rows);
    SameWork(s.work);
  }

  lemma JournalIsCalm(s: State, now: int)
    requires Grounded(s.rows, s.main)
    ensures Calm(s, AfterJournal(s, now))
  {
    hide SameDebts, KeepsPublishers, Recorded, RecordingOf;
    NothingOwedAnew(s.rows);
    SameWork(s.work);
    if s.main.Journalling? {
      var a := s.main.arrival;
      RecordingOwesNothing(s.rows, s.projects, a.op.id, ReceiptOf(a.op, a.deadline), s.net.epoch, now);
    }
  }

  lemma AcceptIsCalm(s: State, task: TaskId)
    requires Grounded(s.rows, s.main)
    ensures Calm(s, AfterAccept(s, task))
  {
    hide SameDebts, BudgetOf, TunnelSafety.Journalled;
    NothingOwedAnew(s.rows);
  }

  lemma DecideIsCalm(s: State, task: TaskId)
    requires Grounded(s.rows, s.main) && (Admitted(s.main) ==> TunnelSafety.Journalled(s.rows, s.main.arrival.op))
    ensures Calm(s, AfterDecide(s, task))
  {
    hide SameDebts, RetryBudget, TunnelSafety.Journalled, Uncertain, Live;
    NothingOwedAnew(s.rows);
  }

  lemma AckIsCalm(s: State, correlation: Correlation, digest: ActionDigest, bindings: Bindings)
    requires Grounded(s.rows, s.main)
    ensures Calm(s, AfterAck(s, correlation, digest, bindings))
  {
    hide SameDebts, KeepsPublishers, TunnelSafety.Journalled;
    NothingOwedAnew(s.rows);
    SameWork(s.work);
  }

  lemma FinishAckIsCalm(s: State)
    requires Grounded(s.rows, s.main)
    ensures Calm(s, AfterFinishAck(s))
  {
    hide SameDebts, KeepsPublishers, TunnelSafety.Journalled;
    NothingOwedAnew(s.rows);
    SameWork(s.work);
  }

  lemma StoreAckIsCalm(s: State)
    requires Grounded(s.rows, s.main)
    ensures Calm(s, AfterStoreAck(s))
  {
    hide SameDebts, KeepsPublishers, Acknowledged, TunnelSafety.Journalled;
    NothingOwedAnew(s.rows);
    SameWork(s.work);
    if s.main.Acking? {
      AcknowledgingOwesNothing(s.rows, s.main.correlation, s.main.digest, s.main.bindings);
    }
  }

  lemma BeginIsCalm(s: State, t: TaskId)
    requires Grounded(s.rows, s.main)
    ensures Calm(s, AfterBegin(s, t))
  {
    hide SameDebts, MayTransition;
    NothingOwedAnew(s.rows);
    if InPhase(s, t, Starting) && MayTransition(s.rows, s.work.tasks[t].op.id, Running) {
      RunningOwesNothing(s.rows, s.work.tasks[t].op.id);
    }
  }

  lemma AnnounceIsCalm(s: State, t: TaskId, mono: int, now: int)
    requires Grounded(s.rows, s.main)
    ensures Calm(s, AfterAnnounce(s, t, mono, now))
  {
    hide SameDebts, TunnelSafety.Journalled, Late;
    NothingOwedAnew(s.rows);
  }

  lemma HandlingIsCalm(s: State, t: TaskId, mono: int, now: int, inTime: bool, outcome: Outcome)
    requires Grounded(s.rows, s.main)
    ensures Calm(s, AfterEnter(s, t, inTime)) && Calm(s, AfterReturn(s, t, outcome, mono, now))
  {
    hide SameDebts, TunnelSafety.Journalled, Ending;
    NothingOwedAnew(s.rows);
  }

  lemma ReapIsCalm(s: State, t: TaskId)
    requires Grounded(s.rows, s.main)
    ensures Calm(s, AfterReap(s, t))
  {
    hide SameDebts, TunnelSafety.Journalled;
    NothingOwedAnew(s.rows);
  }

  lemma BeginReplayKeepsServed(s: State)
    requires Served(s)
    ensures Served(AfterBeginReplay(s))
  {
  }

  /** What a fresh connection sends again: every owed row under the new epoch,
    every remembered result without an owed row, and nothing else. */
  lemma ReplayListComplete(s: State, memory: map<Correlation, Message>)
    requires Imageless(s.rows)
    ensures forall id :: id in s.rows && Owed(s.rows[id]) ==> InHand(ReplayList(s, memory), s.net.epoch, s.rows[id])
    ensures forall c :: c in memory ==>
      CoveredByRow(s, c) || memory[c].(epoch := s.net.epoch, correlation := c) in ReplayList(s, memory)
    ensures forall c :: c in memory ==> exists m :: m in ReplayList(s, memory) && m.correlation == c
    ensures forall m :: m in ReplayList(s, memory) ==> m.epoch == s.net.epoch
    ensures forall m :: m in ReplayList(s, memory) ==>
      || (exists id :: id in s.rows && Owed(s.rows[id]) && Carries(m, s.rows[id]))
      || (exists c :: c in memory && !CoveredByRow(s, c) && m == memory[c].(epoch := s.net.epoch, correlation := c))
  {
    forall id | id in s.rows && Owed(s.rows[id])
      ensures RowMessage(s, s.rows[id]) in ReplayList(s, memory) && Carries(RowMessage(s, s.rows[id]), s.rows[id])
      ensures InHand(ReplayList(s, memory), s.net.epoch, s.rows[id])
    {
      assert RowMessage(s, s.rows[id]) in OwedMessages(s);
    }
    forall c | c in memory ensures exists m :: m in ReplayList(s, memory) && m.correlation == c {
      if CoveredByRow(s, c) {
        var id :| id in s.rows && Owed(s.rows[id]) && s.rows[id].receipt.correlation == c;
        assert RowMessage(s, s.rows[id]).correlation == c;
      } else {
        assert memory[c].(epoch := s.net.epoch, correlation := c) in ReplayList(s, memory);
      }
    }
  }

  lemma ListOwedKeepsServed(s: State)
    requires Served(s)
    ensures Served(AfterListOwed(s))
  {
    hide ReplayList, Carries, Owed;
    if s.main.Listing? {
      ReplayListComplete(s, s.main.memory);
    }
  }

  lemma ReplayKeepsServed(s: State, m: Message)
    requires Served(s)
    ensures Served(AfterReplay(s, m))
  {
    hide Carries, Owed, Durable;
    var t := AfterReplay(s, m);
    if s.main.Replaying? && m in s.main.todo && s.net.link.Open? {
      forall id | id in s.rows && Owed(s.rows[id]) ensures Covered(t.main, t.net, t.work, id, t.rows[id]) {
        assert Covered(s.main, s.net, s.work, id, s.rows[id]);
      }
    }
  }

  lemma ResultStored(rows: Rows, id: OperationId, state: OperationState, result: Payload, main: Main)
    requires Grounded(rows, main) && MayTransition(rows, id, state) && result.image.None?
    ensures var later := Transitioned(rows, id, state, Some(result));
      && Grounded(later, main) && later[id].result == Some(result)
      && later.Keys == rows.Keys && forall k :: k in rows && k != id ==> later[k] == rows[k]
  {
  }

  lemma TerminalizeKeepsServed(s: State)
    requires Served(s)
    ensures Served(AfterTerminalize(s))
  {
    hide Carries, TunnelSafety.Journalled, Transitioned, MayTransition, Owed;
    var t := AfterTerminalize(s);
    if s.main.Terminalizing? && MayTransition(s.rows, s.main.op.id, OutcomeUnknown) {
      var op := s.main.op;
      ResultStored(s.rows, op.id, OutcomeUnknown, UNCERTAIN, s.main);
      if s.net.link.Open? {
        forall id | id in t.rows && Owed(t.rows[id]) ensures Covered(t.main, t.net, t.work, id, t.rows[id]) {
          if id != op.id {
            assert Covered(s.main, s.net, s.work, id, s.rows[id]);
          }
        }
      }
    }
  }

  lemma PublishTerminalizedKeepsServed(s: State)
    requires Served(s)
    ensures Served(AfterPublishTerminalized(s))
  {
    hide Owed;
    var t := AfterPublishTerminalized(s);
    if s.main.Terminalized? && s.net.link.Open? {
      var op := s.main.op;
      var m := OpResult(s, op, UNCERTAIN);
      forall id | id in t.rows && Owed(t.rows[id]) ensures Covered(t.main, t.net, t.work, id, t.rows[id]) {
        assert Covered(s.main, s.net, s.work, id, s.rows[id]);
        if op.id == id && s.rows[id].result == Some(UNCERTAIN) {
          assert Carries(m, s.rows[id]) && m in t.net.sent;
        }
      }
    }
  }

  lemma StoreKeepsServed(s: State, u: TaskId)
    requires Served(s)
    ensures Served(AfterStore(s, u))
  {
    hide Carries, TunnelSafety.Journalled, Transitioned, MayTransition, Owed, Durable;
    if u in s.work.tasks && s.work.tasks[u].phase.Storing? {
      var t := AfterStore(s, u);
      var op, phase := s.work.tasks[u].op, s.work.tasks[u].phase;
      if MayTransition(s.rows, op.id, phase.state) {
        DurableHasNoImage(phase.answer);
        ResultStored(s.rows, op.id, phase.state, Durable(phase.answer), s.main);
        if Serving(s.main) && s.net.link.Open? {
          forall id | id in t.rows && Owed(t.rows[id]) ensures Covered(t.main, t.net, t.work, id, t.rows[id]) {
            if id != op.id {
              StillCovered(s, t, id);
            } else {
              assert t.work.tasks[u].phase == Publishing(phase.answer);
            }
          }
        }
      } else {
        assert Calm(s, t) by { NothingOwedAnew(s.rows); }
        CalmKeepsServed(s, t);
      }
    }
  }

  lemma DurableHasNoImage(p: Payload)
    ensures Durable(p).image.None?
  {
  }

  /** What a task publishes carries the row it stored, if the row still says so. */
  lemma PublishedCarries(s: State, op: Operation, answer: Payload)
    requires TunnelSafety.Journalled(s.rows, op)
    requires s.rows[op.id].result == Some(Durable(answer))
    ensures Carries(OpResult(s, op, answer), s.rows[op.id])
  {
  }

  lemma PublishKeepsServed(s: State, u: TaskId)
    requires Served(s) && Rooted(s.rows, s.main, s.work)
    ensures Served(AfterPublish(s, u))
  {
    hide Carries, TunnelSafety.Journalled, Owed, Durable, OpResult;
    if u in s.work.tasks && s.work.tasks[u].phase.Publishing? {
      var t := AfterPublish(s, u);
      var op, answer := s.work.tasks[u].op, s.work.tasks[u].phase.answer;
      MessageOfPublish(s, op, answer);
      var m := OpResult(s, op, answer);
      forall id | Serving(s.main) && s.net.link.Open? && id in t.rows && Owed(t.rows[id])
        ensures Covered(t.main, t.net, t.work, id, t.rows[id])
      {
        assert Covered(s.main, s.net, s.work, id, s.rows[id]);
        if op.id == id && s.rows[id].result == Some(Durable(answer)) {
          PublishedCarries(s, op, answer);
          assert m in t.net.sent;
        } else if TaskWillSend(s.work, id, s.rows[id]) {
          var v :| v in s.work.tasks && s.work.tasks[v].phase.Publishing? && s.work.tasks[v].op.id == id
            && s.rows[id].result == Some(Durable(s.work.tasks[v].phase.answer));
          assert t.work.tasks[v] == s.work.tasks[v];
        }
      }
    }
  }

  lemma MessageOfPublish(s: State, op: Operation, answer: Payload)
    ensures OpResult(s, op, answer).epoch == s.net.epoch && OpResult(s, op, answer).correlation == op.correlation
  {
  }

  predicate IsCalm(e: Event) {
    !(e.BeginReplay? || e.ListOwed? || e.Replay? || e.Terminalize? || e.PublishTerminalized? || e.Store? || e.Publish?)
  }

  lemma CalmTask(s: State, e: Event)
    requires Grounded(s.rows, s.main) && OfTask(e) && IsCalm(e)
    ensures Calm(s, Next(s, e))
  {
    hide Calm, Grounded, AfterConnect, AfterWelcome, AfterHello, AfterBeginReplay, AfterListOwed, AfterReplay,
         AfterEndReplay, AfterDeliver, AfterMalformed, AfterJournal, AfterConfirm, AfterAccept, AfterLookUp,
         AfterDecide, AfterTerminalize, AfterPublishTerminalized, AfterAck, AfterStoreAck, AfterFinishAck,
         AfterBreak, AfterNotice, AfterLeave, AfterCrash, AfterBegin, AfterAnnounce, AfterEnter, AfterReturn,
         AfterStore, AfterPublish, AfterReap;
    match e
    case Begin(t) => BeginIsCalm(s, t);
    case Announce(t, mono, now) => AnnounceIsCalm(s, t, mono, now);
    case Enter(t, inTime) => HandlingIsCalm(s, t, t, t, inTime, TimedOut);
    case Return(t, outcome, mono, now) => HandlingIsCalm(s, t, mono, now, false, outcome);
    case Reap(t) => ReapIsCalm(s, t);
  }

  lemma CalmConnection(s: State, e: Event)
    requires Grounded(s.rows, s.main) && Rooted(s.rows, s.main, s.work) && !OfTask(e) && IsCalm(e)
    ensures Calm(s, Next(s, e))
  {
    hide Calm, Grounded, AfterConnect, AfterWelcome, AfterHello, AfterBeginReplay, AfterListOwed, AfterReplay,
         AfterEndReplay, AfterDeliver, AfterMalformed, AfterJournal, AfterConfirm, AfterAccept, AfterLookUp,
         AfterDecide, AfterTerminalize, AfterPublishTerminalized, AfterAck, AfterStoreAck, AfterFinishAck,
         AfterBreak, AfterNotice, AfterLeave, AfterCrash, AfterBegin, AfterAnnounce, AfterEnter, AfterReturn,
         AfterStore, AfterPublish, AfterReap;
    match e
    case Welcome(epoch) => ConnectingIsCalm(s, epoch);
    case Deliver(op, at, mono, now) => DeliverIsCalm(s, op, at, mono, now);
    case Journal(now) => JournalIsCalm(s, now);
    case Accept(task) => AcceptIsCalm(s, task);
    case Decide(task) => DecideIsCalm(s, task);
    case Ack(correlation, digest, bindings) => AckIsCalm(s, correlation, digest, bindings);
    case StoreAck => StoreAckIsCalm(s);
    case FinishAck => FinishAckIsCalm(s);
    case Crash => CrashIsCalm(s);
    case Confirm => ReceivingIsCalm(s);
    case LookUp => ReceivingIsCalm(s);
    case _ =>
      ConnectingIsCalm(s, s.net.epoch);
      BreakingIsCalm(s);
  }

  lemma NextKeepsServed(s: State, e: Event)
    requires Served(s) && Safe(s)
    ensures Served(Next(s, e))
  {
    hide Served, Calm, Rooted, Grounded, Bounded, OneLive, AtMostOnce, RowsServed, MemoryServed, AfterConnect,
         AfterWelcome, AfterHello, AfterBeginReplay, AfterListOwed, AfterReplay, AfterEndReplay, AfterDeliver,
         AfterMalformed, AfterJournal, AfterConfirm, AfterAccept, AfterLookUp, AfterDecide, AfterTerminalize,
         AfterPublishTerminalized, AfterAck, AfterStoreAck, AfterFinishAck, AfterBreak, AfterNotice, AfterLeave,
         AfterCrash, AfterBegin, AfterAnnounce, AfterEnter, AfterReturn, AfterStore, AfterPublish, AfterReap;
    ServedIsGrounded(s);
    if IsCalm(e) {
      if OfTask(e) { CalmTask(s, e); } else { CalmConnection(s, e); }
      CalmKeepsServed(s, Next(s, e));
    } else {
      match e
      case BeginReplay => BeginReplayKeepsServed(s);
      case ListOwed => ListOwedKeepsServed(s);
      case Replay(m) => ReplayKeepsServed(s, m);
      case Terminalize => TerminalizeKeepsServed(s);
      case PublishTerminalized => PublishTerminalizedKeepsServed(s);
      case Store(t) => StoreKeepsServed(s, t);
      case Publish(t) => PublishKeepsServed(s, t);
    }
  }

  lemma ServedIsGrounded(s: State)
    requires Served(s)
    ensures Grounded(s.rows, s.main)
  {
  }

  /** Over every run: on a working connection past its replay list, each result
    the relay has not confirmed was sent in the current epoch or is about to be,
    and so was each result remembered only in memory. */
  lemma {:induction false} EveryRunIsServed(projects: set<string>, limit: nat, events: seq<Event>)
    ensures Served(Run(Initial(projects, limit), events))
  {
    hide Next, Safe;
    if events != [] {
      EveryRunIsServed(projects, limit, events[..|events| - 1]);
      EveryRunIsSafe(projects, limit, events[..|events| - 1]);
      NextKeepsServed(Run(Initial(projects, limit), events[..|events| - 1]), events[|events| - 1]);
    }
  }

  /** With nothing left in line, all of it has been sent. */
  lemma SettledConnectionSentAll(projects: set<string>, limit: nat, events: seq<Event>, id: OperationId)
    requires var s := Run(Initial(projects, limit), events);
      && s.main.Listening? && s.net.link.Open? && id in s.rows && Owed(s.rows[id])
      && forall t :: t in s.work.tasks ==> !s.work.tasks[t].phase.Publishing?
    ensures var s := Run(Initial(projects, limit), events); InHand(s.net.sent, s.net.epoch, s.rows[id])
  {
    hide Run, Initial;
    EveryRunIsServed(projects, limit, events);
    var s := Run(Initial(projects, limit), events);
    assert Covered(s.main, s.net, s.work, id, s.rows[id]);
  }

  predicate Writes(e: Event) {
    e.Journal? || e.Terminalize? || e.StoreAck? || e.Begin? || e.Store?
  }

  /** No result is acknowledged. */
  ghost predicate Unconfirmed(rows: Rows, later: Rows) {
    forall id :: id in rows && !rows[id].acked ==> id in later && !later[id].acked
  }

  lemma OtherEventsKeepRows(s: State, e: Event)
    requires !Writes(e)
    ensures Next(s, e).rows == s.rows
  {
    hide Pruned, Refusal, OpResult, RetryBudget, BudgetOf, Live, Uncertain, Ending, Late;
  }

  /** What a writing event does to the rows. */
  lemma WritesKeepRows(s: State, e: Event)
    requires Writes(e)
    ensures Advances(s.rows, Next(s, e).rows)
    ensures !e.StoreAck? ==> Unconfirmed(s.rows, Next(s, e).rows)
  {
    hide Advances, Recorded, RecordingOf, Transitioned, MayTransition, Acknowledged, Durable;
    NothingAdvances(s.rows);
    if e.Journal? && s.main.Journalling? {
      var a := s.main.arrival;
      RecordAdvances(s.rows, s.projects, a.op.id, ReceiptOf(a.op, a.deadline), s.net.epoch, e.now);
      RecordUnconfirmed(s.rows, s.projects, a.op.id, ReceiptOf(a.op, a.deadline), s.net.epoch, e.now);
    } else if e.Terminalize? && s.main.Terminalizing? && MayTransition(s.rows, s.main.op.id, OutcomeUnknown) {
      TransitionAdvances(s.rows, s.main.op.id, OutcomeUnknown, Some(UNCERTAIN));
      TransitionUnconfirmed(s.rows, s.main.op.id, OutcomeUnknown, Some(UNCERTAIN));
    } else if e.StoreAck? && s.main.Acking? {
      AckAdvances(s.rows, s.main.correlation, s.main.digest, s.main.bindings);
    } else if e.Begin? && InPhase(s, e.task, Starting) && MayTransition(s.rows, s.work.tasks[e.task].op.id, Running) {
      TransitionAdvances(s.rows, s.work.tasks[e.task].op.id, Running, None);
      TransitionUnconfirmed(s.rows, s.work.tasks[e.task].op.id, Running, None);
    } else if e.Store? && e.task in s.work.tasks && s.work.tasks[e.task].phase.Storing? {
      var id, phase := s.work.tasks[e.task].op.id, s.work.tasks[e.task].phase;
      if MayTransition(s.rows, id, phase.state) {
        TransitionAdvances(s.rows, id, phase.state, Some(Durable(phase.answer)));
        TransitionUnconfirmed(s.rows, id, phase.state, Some(Durable(phase.answer)));
      }
    }
  }

  lemma RecordUnconfirmed(rows: Rows, projects: set<string>, id: OperationId, receipt: Receipt, epoch: nat, now: int)
    ensures Unconfirmed(rows, Recorded(rows, projects, id, receipt, epoch, now))
  {
  }

  lemma TransitionUnconfirmed(rows: Rows, id: OperationId, state: OperationState, result: Option<Payload>)
    requires MayTransition(rows, id, state)
    ensures Unconfirmed(rows, Transitioned(rows, id, state, result))
  {
  }

  /** Over every run, from any state: rows stay, what they stand for stays, and
    a terminal state is final. */
  lemma {:induction false} RowsOnlyAdvance(s: State, events: seq<Event>)
    ensures Advances(s.rows, Run(s, events).rows)
  {
    hide Next, Advances;
    if events == [] {
      NothingAdvances(s.rows);
    } else {
      var u, e := Run(s, events[..|events| - 1]), events[|events| - 1];
      RowsOnlyAdvance(s, events[..|events| - 1]);
      if Writes(e) { WritesKeepRows(u, e); } else { OtherEventsKeepRows(u, e); NothingAdvances(u.rows); }
      AdvancesFurther(s.rows, u.rows, Next(u, e).rows);
    }
  }

  /** The coroutine stores an acknowledgement only after it was received. */
  lemma AckingAfterAck(s: State, e: Event)
    requires Next(s, e).main.Acking? && Next(s, e).main != s.main
    ensures e == Ack(Next(s, e).main.correlation, Next(s, e).main.digest, Next(s, e).main.bindings)
  {
    hide Pruned, Refusal, OpResult, RetryBudget, BudgetOf, Live, Uncertain, Ending, Late, ReplayList, RecordingOf,
         Recorded;
  }

  ghost predicate Received(events: seq<Event>, correlation: Correlation, digest: ActionDigest, bindings: Bindings) {
    exists k :: 0 <= k < |events| && events[k] == Ack(correlation, digest, bindings)
  }

  lemma ReceivedEarlier(events: seq<Event>, correlation: Correlation, digest: ActionDigest, bindings: Bindings)
    requires |events| > 0 && Received(events[..|events| - 1], correlation, digest, bindings)
    ensures Received(events, correlation, digest, bindings)
  {
    var k :| 0 <= k < |events| - 1 && events[..|events| - 1][k] == Ack(correlation, digest, bindings);
    assert events[k] == Ack(correlation, digest, bindings);
  }

  lemma {:induction false} AckingWasReceived(s: State, events: seq<Event>)
    ensures var main := Run(s, events).main;
      main.Acking? ==> main == s.main || Received(events, main.correlation, main.digest, main.bindings)
  {
    hide Next;
    if events != [] {
      var u, e := Run(s, events[..|events| - 1]), events[|events| - 1];
      AckingWasReceived(s, events[..|events| - 1]);
      var main := Next(u, e).main;
      if main.Acking? && main != s.main {
        if main == u.main {
          ReceivedEarlier(events, main.correlation, main.digest, main.bindings);
        } else {
          AckingAfterAck(u, e);
          assert events[|events| - 1] == e;
        }
      }
    }
  }

  /** A journalled result stays unacknowledged until an acknowledgement with its
    correlation, its digest and its bindings has come in, if the coroutine was not
    already storing one. */
  lemma {:induction false} AcknowledgedOnlyWhenReceived(s: State, events: seq<Event>, id: OperationId)
    requires id in s.rows && !s.rows[id].acked
    ensures var rows := Run(s, events).rows;
      var receipt := s.rows[id].receipt;
      id in rows && (rows[id].acked ==>
        || s.main == Acking(receipt.correlation, receipt.digest, receipt.bindings)
        || Received(events, receipt.correlation, receipt.digest, receipt.bindings))
  {
    hide Next, Received;
    RowsOnlyAdvance(s, events);
    if events != [] {
      var u, e := Run(s, events[..|events| - 1]), events[|events| - 1];
      RowsOnlyAdvance(s, events[..|events| - 1]);
      AcknowledgedOnlyWhenReceived(s, events[..|events| - 1], id);
      var receipt := s.rows[id].receipt;
      if Received(events[..|events| - 1], receipt.correlation, receipt.digest, receipt.bindings) {
        ReceivedEarlier(events, receipt.correlation, receipt.digest, receipt.bindings);
      } else if !u.rows[id].acked && Next(u, e).rows[id].acked {
        if !Writes(e) {
          OtherEventsKeepRows(u, e);
        } else {
          WritesKeepRows(u, e);
          StoredAckNames(u, e, id);
          AckingWasReceived(s, events[..|events| - 1]);
        }
      }
    }
  }

  lemma StoredAckNames(s: State, e: Event, id: OperationId)
    requires e.StoreAck? && id in s.rows && !s.rows[id].acked && id in Next(s, e).rows && Next(s, e).rows[id].acked
    ensures s.main.Acking? && Acknowledges(s.main.correlation, s.main.digest, s.main.bindings, s.rows[id])
  {
  }
}
