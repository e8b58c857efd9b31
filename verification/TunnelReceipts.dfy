/** What an acknowledgement confirms. The relay names a result by its
  correlation, digest and bindings, so the refusal of a redelivery and the result
  of the operation itself carry the same name. A journalled result is confirmed
  only after it was sent, as long as no redelivery of its operation is refused. */
module TunnelReceipts {
  import opened Wrappers
  import opened OperationStore
  import opened ExecutionBudget
  import opened Tunnel
  import opened TunnelSafety
  import opened TunnelDelivery
  import opened TunnelRows

  /** All that an acknowledgement says about the result it confirms. */
  datatype Name = Name(correlation: Correlation, digest: ActionDigest, bindings: Bindings)

  function MessageName(m: Message): Name {
    Name(m.correlation, m.digest, m.bindings)
  }

  function ReceiptName(receipt: Receipt): Name {
    Name(receipt.correlation, receipt.digest, receipt.bindings)
  }

  function OperationName(op: Operation): Name {
    Name(op.correlation, DigestOf(op.action), op.bindings)
  }

  predicate Notes(m: Message, name: Name) {
    m.kind.ResultNote? && MessageName(m) == name
  }

  /** Some result goes by this name, be it the operation's or a refusal. */
  ghost predicate Noted(messages: set<Message>, name: Name) {
    exists m :: m in messages && Notes(m, name)
  }

  ghost predicate MemoryNoted(memory: map<Correlation, Message>, name: Name) {
    exists c :: c in memory && Notes(memory[c], name)
  }

  /** The row's own result is among the messages. */
  ghost predicate Borne(messages: set<Message>, row: Row) {
    exists m :: m in messages && Carries(m, row)
  }

  /** The row of operation `id` goes by this name. */
  predicate Named(rows: Rows, id: OperationId, name: Name) {
    id in rows && ReceiptName(rows[id].receipt) == name
  }

  /** No other operation has the name. */
  ghost predicate Alone(rows: Rows, main: Main, name: Name, id: OperationId) {
    && (forall k :: Named(rows, k, name) ==> k == id)
    && (main.Journalling? && OperationName(main.arrival.op) == name ==> main.arrival.op.id == id)
  }

  ghost predicate InLine(main: Main, terminals: map<Correlation, Message>, name: Name) {
    Noted(Todo(main), name) || MemoryNoted(terminals, name) || (main.Listing? && MemoryNoted(main.memory, name))
  }

  /** Once a result by this name was sent or is in line, the row has its result. */
  ghost predicate Told(rows: Rows, main: Main, ever: set<Message>, terminals: map<Correlation, Message>, name: Name,
                       id: OperationId) {
    Noted(ever, name) || InLine(main, terminals, name) ==> Named(rows, id, name) && rows[id].result.Some?
  }

  predicate IsAcking(main: Main, name: Name) {
    main.Acking? && Name(main.correlation, main.digest, main.bindings) == name
  }

  /** What is acknowledged was sent, and so was what is just being acknowledged. */
  ghost predicate AckedSent(rows: Rows, main: Main, ever: set<Message>, name: Name, id: OperationId) {
    && (Named(rows, id, name) && rows[id].acked ==> Borne(ever, rows[id]))
    && (IsAcking(main, name) ==> Named(rows, id, name) && Borne(ever, rows[id]))
  }

  predicate GivingUp(main: Main, id: OperationId) {
    main.Terminalized? && main.op.id == id
  }

  /** On a connection past its replay list, no result by this name was sent
    before the row's own, or without it in line. */
  ghost predicate SentFirst(rows: Rows, main: Main, ever: set<Message>, name: Name, id: OperationId) {
    Serving(main) && !GivingUp(main, id) && Named(rows, id, name) && (Noted(ever, name) || Noted(Todo(main), name)) ==>
      Borne(ever, rows[id]) || Borne(Todo(main), rows[id])
  }

  /** The result memory is keyed by correlation, and a socket is there. */
  ghost predicate Wired(main: Main, link: Link, terminals: map<Correlation, Message>) {
    && (forall c :: c in terminals ==> terminals[c].correlation == c)
    && (main.Listing? ==> forall c :: c in main.memory ==> main.memory[c].correlation == c)
    && (main.Offline? || !link.Closed?)
  }

  ghost predicate Faithful(s: State, name: Name, id: OperationId) {
    && Wired(s.main, s.net.link, s.terminals) && Alone(s.rows, s.main, name, id)
    && Told(s.rows, s.main, s.net.ever, s.terminals, name, id)
    && AckedSent(s.rows, s.main, s.net.ever, name, id) && SentFirst(s.rows, s.main, s.net.ever, name, id)
  }

  // Steps that send no result by this name.

  /** The row of `id` says the same, or is new and empty. */
  predicate SameResult(rows: Rows, later: Rows, name: Name, id: OperationId) {
    && (id in rows ==>
          id in later && later[id].receipt == rows[id].receipt && later[id].result == rows[id].result
          && (ReceiptName(rows[id].receipt) == name && later[id].acked ==> rows[id].acked))
    && (id in later && id !in rows ==> !later[id].acked && later[id].result.None?)
  }

  ghost predicate Grown(ever: set<Message>, more: set<Message>, name: Name) {
    ever <= more && forall m :: m in more && m !in ever ==> !Notes(m, name)
  }

  ghost predicate Remembered(terminals: map<Correlation, Message>, later: map<Correlation, Message>, name: Name) {
    forall c :: c in later ==> (c in terminals && later[c] == terminals[c]) || !Notes(later[c], name)
  }

  predicate MainHushed(main: Main, next: Main, terminals: map<Correlation, Message>, name: Name) {
    && (next.Listing? ==> next == main || next.memory == terminals)
    && (next.Replaying? ==> next == main)
    && (Serving(next) ==> Serving(main) && Todo(next) == Todo(main) && (main.Terminalized? ==> next == main))
    && (IsAcking(next, name) ==> next == main)
  }

  lemma HushKeepsTold(rows: Rows, later: Rows, main: Main, next: Main, ever: set<Message>, more: set<Message>,
                      terminals: map<Correlation, Message>, memory: map<Correlation, Message>, name: Name,
                      id: OperationId)
    requires Told(rows, main, ever, terminals, name, id)
    requires SameResult(rows, later, name, id) && Grown(ever, more, name) && Remembered(terminals, memory, name)
    requires MainHushed(main, next, terminals, name)
    ensures Told(later, next, more, memory, name, id)
  {
    hide Notes;
  }

  lemma HushKeepsAckedSent(rows: Rows, later: Rows, main: Main, next: Main, ever: set<Message>, more: set<Message>,
                           terminals: map<Correlation, Message>, name: Name, id: OperationId)
    requires AckedSent(rows, main, ever, name, id)
    requires SameResult(rows, later, name, id) && Grown(ever, more, name) && MainHushed(main, next, terminals, name)
    ensures AckedSent(later, next, more, name, id)
  {
    hide Notes, Durable;
  }

  lemma HushKeepsSentFirst(rows: Rows, later: Rows, main: Main, next: Main, ever: set<Message>, more: set<Message>,
                           terminals: map<Correlation, Message>, name: Name, id: OperationId)
    requires SentFirst(rows, main, ever, name, id) && Told(rows, main, ever, terminals, name, id)
    requires SameResult(rows, later, name, id) && Grown(ever, more, name) && MainHushed(main, next, terminals, name)
    ensures SentFirst(later, next, more, name, id)
  {
    hide Notes, Durable;
  }

  ghost predicate Hush(s: State, t: State, name: Name, id: OperationId) {
    && SameResult(s.rows, t.rows, name, id) && Grown(s.net.ever, t.net.ever, name)
    && Remembered(s.terminals, t.terminals, name)
    && MainHushed(s.main, t.main, s.terminals, name)
    && Wired(t.main, t.net.link, t.terminals) && Alone(t.rows, t.main, name, id)
  }

  lemma HushKeepsFaithful(s: State, t: State, name: Name, id: OperationId)
    requires Faithful(s, name, id) && Hush(s, t, name, id)
    ensures Faithful(t, name, id)
  {
    hide Told, AckedSent, SentFirst, SameResult, Grown, Remembered, MainHushed, Wired, Alone;
    HushKeepsTold(s.rows, t.rows, s.main, t.main, s.net.ever, t.net.ever, s.terminals, t.terminals, name, id);
    HushKeepsAckedSent(s.rows, t.rows, s.main, t.main, s.net.ever, t.net.ever, s.terminals, name, id);
    HushKeepsSentFirst(s.rows, t.rows, s.main, t.main, s.net.ever, t.net.ever, s.terminals, name, id);
  }

  lemma NothingNew(s: State, name: Name, id: OperationId)
    ensures SameResult(s.rows, s.rows, name, id) && Grown(s.net.ever, s.net.ever, name)
    ensures Remembered(s.terminals, s.terminals, name)
  {
  }

  ghost predicate Tidy(s: State, name: Name, id: OperationId) {
    Wired(s.main, s.net.link, s.terminals) && Alone(s.rows, s.main, name, id)
  }

  lemma ConnectingIsHush(s: State, epoch: nat, name: Name, id: OperationId)
    requires Tidy(s, name, id)
    ensures Hush(s, AfterConnect(s), name, id) && Hush(s, AfterWelcome(s, epoch), name, id)
    ensures Hush(s, AfterHello(s), name, id) && Hush(s, AfterBeginReplay(s), name, id)
  {
    hide SameResult, Grown, Remembered, Named;
    NothingNew(s, name, id);
  }

  lemma BreakingIsHush(s: State, name: Name, id: OperationId)
    requires Tidy(s, name, id)
    ensures Hush(s, AfterBreak(s), name, id) && Hush(s, AfterNotice(s), name, id) && Hush(s, AfterLeave(s), name, id)
    ensures Hush(s, AfterMalformed(s), name, id) && Hush(s, AfterEndReplay(s), name, id)
  {
    hide SameResult, Grown, Remembered, Named;
    NothingNew(s, name, id);
  }

  lemma CrashIsHush(s: State, name: Name, id: OperationId)
    requires Tidy(s, name, id)
    ensures Hush(s, AfterCrash(s), name, id)
  {
    hide SameResult, Grown, Named;
    NothingNew(s, name, id);
  }

  lemma FinishAckIsHush(s: State, name: Name, id: OperationId)
    requires Tidy(s, name, id)
    ensures Hush(s, AfterFinishAck(s), name, id)
  {
    hide SameResult, Grown, Named;
    NothingNew(s, name, id);
  }

  lemma ReceivingIsHush(s: State, name: Name, id: OperationId)
    requires Tidy(s, name, id)
    ensures Hush(s, AfterConfirm(s), name, id) && Hush(s, AfterLookUp(s), name, id)
  {
    hide SameResult, Remembered, Named;
    NothingNew(s, name, id);
  }

  /** The delivery is answered by a refusal. */
  predicate Refused(s: State, op: Operation, mono: int, now: int) {
    && s.main.Listening? && op.epoch == s.net.epoch
    && Refusal(s.(work := s.work.(budgets := Pruned(s, mono))), op, now).Some?
  }

  lemma DeliverIsHush(s: State, op: Operation, at: int, mono: int, now: int, name: Name, id: OperationId)
    requires Tidy(s, name, id) && (OperationName(op) == name ==> op.id == id && !Refused(s, op, mono, now))
    ensures Hush(s, AfterDeliver(s, op, at, mono, now), name, id)
  {
    hide SameResult, Named, Pruned, QueueFull, Wired, Grown, Remembered;
    NothingNew(s, name, id);
    DeliverStaysTidy(s, op, at, mono, now, name, id);
  }

  lemma DeliverStaysTidy(s: State, op: Operation, at: int, mono: int, now: int, name: Name, id: OperationId)
    requires Tidy(s, name, id) && (OperationName(op) == name ==> !Refused(s, op, mono, now))
    ensures var t := AfterDeliver(s, op, at, mono, now);
      Wired(t.main, t.net.link, t.terminals) && Grown(s.net.ever, t.net.ever, name)
      && Remembered(s.terminals, t.terminals, name)
  {
    hide Pruned, QueueFull, Alone;
    NothingNew(s, name, id);
  }

  lemma RecordedIsHush(rows: Rows, projects: set<string>, a: Arrival, epoch: nat, now: int, main: Main, name: Name,
                       id: OperationId)
    requires Alone(rows, Journalling(a), name, id) && !main.Journalling?
    ensures var later := Recorded(rows, projects, a.op.id, ReceiptOf(a.op, a.deadline), epoch, now);
      SameResult(rows, later, name, id) && Alone(later, main, name, id)
  {
    var later := Recorded(rows, projects, a.op.id, ReceiptOf(a.op, a.deadline), epoch, now);
    forall k | Named(later, k, name) ensures k == id {
      if k in rows { assert Named(rows, k, name); }
    }
  }

  lemma JournalIsHush(s: State, now: int, name: Name, id: OperationId)
    requires Tidy(s, name, id)
    ensures Hush(s, AfterJournal(s, now), name, id)
  {
    hide SameResult, Grown, Remembered, Named, Recorded, RecordingOf;
    NothingNew(s, name, id);
    if s.main.Journalling? {
      RecordedIsHush(s.rows, s.projects, s.main.arrival, s.net.epoch, now, AfterJournal(s, now).main, name, id);
    }
  }

  lemma AcceptIsHush(s: State, task: TaskId, name: Name, id: OperationId)
    requires Tidy(s, name, id)
    ensures Hush(s, AfterAccept(s, task), name, id)
  {
    hide SameResult, Grown, Remembered, Named, BudgetOf;
    NothingNew(s, name, id);
  }

  lemma DecideIsHush(s: State, task: TaskId, name: Name, id: OperationId)
    requires Tidy(s, name, id) && (s.main.Known? ==> s.main.prior.result.None?)
    ensures Hush(s, AfterDecide(s, task), name, id)
  {
    hide SameResult, Grown, Remembered, Named, RetryBudget, Live, Uncertain;
    NothingNew(s, name, id);
  }

  lemma AckIsHush(s: State, correlation: Correlation, digest: ActionDigest, bindings: Bindings, name: Name,
                  id: OperationId)
    requires Tidy(s, name, id) && Name(correlation, digest, bindings) != name
    ensures Hush(s, AfterAck(s, correlation, digest, bindings), name, id)
  {
    hide SameResult, Grown, Named;
    NothingNew(s, name, id);
  }

  lemma StoreAckIsHush(s: State, name: Name, id: OperationId)
    requires Tidy(s, name, id) && !IsAcking(s.main, name)
    ensures Hush(s, AfterStoreAck(s), name, id)
  {
    hide Grown, Remembered;
    NothingNew(s, name, id);
    forall k | Named(AfterStoreAck(s).rows, k, name) ensures k == id {
      assert Named(s.rows, k, name);
    }
  }

  lemma AnnounceIsHush(s: State, t: TaskId, mono: int, now: int, name: Name, id: OperationId)
    requires Tidy(s, name, id)
    ensures Hush(s, AfterAnnounce(s, t, mono, now), name, id)
  {
    hide SameResult, Remembered, Late, Wired, Alone;
    NothingNew(s, name, id);
  }

  lemma HandlingIsHush(s: State, t: TaskId, mono: int, now: int, inTime: bool, outcome: Outcome, name: Name,
                       id: OperationId)
    requires Tidy(s, name, id)
    ensures Hush(s, AfterEnter(s, t, inTime), name, id) && Hush(s, AfterReturn(s, t, outcome, mono, now), name, id)
    ensures Hush(s, AfterReap(s, t), name, id)
  {
    hide SameResult, Remembered, Grown, Ending, Wired, Alone;
    NothingNew(s, name, id);
  }

  /** Another row may say something new. */
  lemma OtherRowIsHush(s: State, u: State, name: Name, id: OperationId)
    requires Tidy(s, name, id) && u.net == s.net && u.terminals == s.terminals
    requires MainHushed(s.main, u.main, s.terminals, name)
    requires Wired(u.main, u.net.link, u.terminals) && (u.main.Journalling? ==> u.main == s.main)
    requires u.rows.Keys == s.rows.Keys && SameResult(s.rows, u.rows, name, id)
    requires forall k :: k in s.rows ==> u.rows[k].receipt == s.rows[k].receipt
    ensures Hush(s, u, name, id)
  {
    hide SameResult, Wired, MainHushed;
    NothingNew(s, name, id);
    forall k | Named(u.rows, k, name) ensures k == id {
      assert Named(s.rows, k, name);
    }
  }

  lemma BeginIsHush(s: State, t: TaskId, name: Name, id: OperationId)
    requires Tidy(s, name, id) && Settled(s.rows)
    ensures Hush(s, AfterBegin(s, t), name, id)
  {
    hide Wired, Alone, Settled;
    if InPhase(s, t, Starting) && MayTransition(s.rows, s.work.tasks[t].op.id, Running) {
      NonTerminalMoves(s.rows, s.work.tasks[t].op.id, Running);
    }
    OtherRowIsHush(s, AfterBegin(s, t), name, id);
  }

  // Steps that send, store or confirm a result by this name.

  lemma TransitionTells(rows: Rows, later: Rows, main: Main, next: Main, ever: set<Message>,
                        terminals: map<Correlation, Message>, name: Name, id: OperationId)
    requires Told(rows, main, ever, terminals, name, id) && AckedSent(rows, main, ever, name, id)
    requires id in rows && id in later && later[id].receipt == rows[id].receipt
    requires later[id].result.Some? && !later[id].acked
    requires if next == main then rows[id].result.None? else GivingUp(next, id)
    ensures Told(later, next, ever, terminals, name, id) && AckedSent(later, next, ever, name, id)
    ensures SentFirst(later, next, ever, name, id)
  {
    hide Notes, Durable;
  }

  lemma TerminalizeKeepsFaithful(s: State, name: Name, id: OperationId)
    requires Faithful(s, name, id)
    ensures Faithful(AfterTerminalize(s), name, id)
  {
    hide Told, AckedSent, SentFirst, Wired, Alone, SameResult;
    var u := AfterTerminalize(s);
    TerminalizeKeepsTidy(s, name, id);
    if s.main.Terminalizing? && s.main.op.id == id && u.main.Terminalized? {
      TransitionTells(s.rows, u.rows, s.main, u.main, s.net.ever, s.terminals, name, id);
    } else {
      HushKeepsFaithful(s, u, name, id);
    }
  }

  lemma TerminalizeKeepsTidy(s: State, name: Name, id: OperationId)
    requires Tidy(s, name, id)
    ensures Tidy(AfterTerminalize(s), name, id)
    ensures var u := AfterTerminalize(s);
      Hush(s, u, name, id) || (s.main.Terminalizing? && s.main.op.id == id && u.main.Terminalized?)
  {
    hide MainHushed;
    hide Grown;
    var u := AfterTerminalize(s);
    NothingNew(s, name, id);
    forall k | Named(u.rows, k, name) ensures k == id {
      assert Named(s.rows, k, name);
    }
    assert MainHushed(s.main, u.main, s.terminals, name) by { TerminalizingIsHushed(s, name); }
  }

  lemma TerminalizingIsHushed(s: State, name: Name)
    ensures MainHushed(s.main, AfterTerminalize(s).main, s.terminals, name)
  {
  }

  lemma StoreKeepsTidy(s: State, t: TaskId, name: Name, id: OperationId)
    requires Tidy(s, name, id)
    ensures Tidy(AfterStore(s, t), name, id)
    ensures Hush(s, AfterStore(s, t), name, id) ||
      (t in s.work.tasks && s.work.tasks[t].phase.Storing? && s.work.tasks[t].op.id == id
       && MayTransition(s.rows, id, s.work.tasks[t].phase.state))
  {
    hide Wired;
    var u := AfterStore(s, t);
    NothingNew(s, name, id);
    forall k | Named(u.rows, k, name) ensures k == id {
      assert Named(s.rows, k, name);
    }
  }

  lemma StoreKeepsFaithful(s: State, t: TaskId, name: Name, id: OperationId)
    requires Faithful(s, name, id) && Consistent(s)
    ensures Faithful(AfterStore(s, t), name, id)
  {
    hide Told, AckedSent, SentFirst, Wired, Alone, Settled, TasksFit, MainFits, Hush, Durable;
    var u := AfterStore(s, t);
    StoreKeepsTidy(s, t, name, id);
    if Hush(s, u, name, id) {
      HushKeepsFaithful(s, u, name, id);
    } else {
      TaskFits(s, t);
      RowOf(s.rows, id);
      TransitionTells(s.rows, u.rows, s.main, u.main, s.net.ever, s.terminals, name, id);
    }
  }

  /** An acknowledgement of a result that was sent reaches the listening
    coroutine only after the row's own result was sent. */
  lemma NamedAckKeepsFaithful(s: State, correlation: Correlation, digest: ActionDigest, bindings: Bindings,
                              id: OperationId)
    requires var name := Name(correlation, digest, bindings); Faithful(s, name, id) && Noted(s.net.ever, name)
    ensures Faithful(AfterAck(s, correlation, digest, bindings), Name(correlation, digest, bindings), id)
  {
    hide Notes, Carries;
  }

  lemma NamedStoreAckKeepsFaithful(s: State, name: Name, id: OperationId)
    requires Faithful(s, name, id) && IsAcking(s.main, name)
    ensures Faithful(AfterStoreAck(s), name, id)
  {
    hide Notes, Durable;
    var u := AfterStoreAck(s);
    forall k | Named(u.rows, k, name) ensures k == id {
      assert Named(s.rows, k, name);
    }
  }

  lemma ListOwedKeepsFaithful(s: State, name: Name, id: OperationId)
    requires Faithful(s, name, id) && Settled(s.rows) && Imageless(s.rows)
    ensures Faithful(AfterListOwed(s), name, id)
  {
    hide Durable, ReplayList, Owed;
    if s.main.Listing? {
      var u := AfterListOwed(s);
      ListedIsTold(s, name, id);
      assert Told(u.rows, u.main, u.net.ever, u.terminals, name, id);
      if Named(s.rows, id, name) && s.rows[id].result.Some? {
        ListedIsBorne(s, id);
      }
      assert SentFirst(u.rows, u.main, u.net.ever, name, id);
    }
  }

  lemma ListedIsTold(s: State, name: Name, id: OperationId)
    requires Faithful(s, name, id) && s.main.Listing? && Imageless(s.rows)
    ensures Noted(ReplayList(s, s.main.memory), name) ==> Named(s.rows, id, name) && s.rows[id].result.Some?
  {
    hide AckedSent, SentFirst, Durable, ReplayList;
    ReplayListComplete(s, s.main.memory);
    if Noted(ReplayList(s, s.main.memory), name) {
      var m :| m in ReplayList(s, s.main.memory) && Notes(m, name);
      if k :| k in s.rows && Owed(s.rows[k]) && Carries(m, s.rows[k]) {
        assert Named(s.rows, k, name);
      } else {
        var c :| c in s.main.memory && m == s.main.memory[c].(epoch := s.net.epoch, correlation := c);
        assert Notes(s.main.memory[c], name);
      }
    }
  }

  /** A result not yet acknowledged is in line. */
  lemma ListedIsBorne(s: State, id: OperationId)
    requires Settled(s.rows) && Imageless(s.rows) && s.main.Listing? && id in s.rows && s.rows[id].result.Some?
    ensures s.rows[id].acked || Borne(ReplayList(s, s.main.memory), s.rows[id])
  {
    hide ReplayList, Carries;
    ReplayListComplete(s, s.main.memory);
    RowOf(s.rows, id);
    if !s.rows[id].acked {
      assert InHand(ReplayList(s, s.main.memory), s.net.epoch, s.rows[id]);
    }
  }

  lemma ReplayKeepsTold(s: State, m: Message, name: Name, id: OperationId)
    requires Told(s.rows, s.main, s.net.ever, s.terminals, name, id) && s.main.Replaying? && m in s.main.todo
    ensures var u := AfterReplay(s, m); Told(u.rows, u.main, u.net.ever, u.terminals, name, id)
  {
    hide Notes;
    var u := AfterReplay(s, m);
    if MemoryNoted(u.terminals, name) {
      var c :| c in u.terminals && Notes(u.terminals[c], name);
      assert u.terminals[c] == m || (c in s.terminals && u.terminals[c] == s.terminals[c]);
    }
    if Noted(u.net.ever, name) {
      var n :| n in u.net.ever && Notes(n, name);
      assert n == m || n in s.net.ever;
    }
    if Noted(Todo(u.main), name) {
      var n :| n in Todo(u.main) && Notes(n, name);
      assert n in Todo(s.main);
    }
  }

  lemma ReplayKeepsSentFirst(s: State, m: Message, name: Name, id: OperationId)
    requires SentFirst(s.rows, s.main, s.net.ever, name, id) && AckedSent(s.rows, s.main, s.net.ever, name, id)
    requires Wired(s.main, s.net.link, s.terminals) && s.main.Replaying? && m in s.main.todo
    ensures var u := AfterReplay(s, m);
      SentFirst(u.rows, u.main, u.net.ever, name, id) && AckedSent(u.rows, u.main, u.net.ever, name, id)
  {
    hide Notes, Carries;
    var u := AfterReplay(s, m);
    if Named(s.rows, id, name) && Borne(s.net.ever, s.rows[id]) {
      var n :| n in s.net.ever && Carries(n, s.rows[id]);
      assert n in u.net.ever;
    }
    if s.net.link.Open? && Named(s.rows, id, name) && Borne(s.main.todo, s.rows[id]) {
      var n :| n in s.main.todo && Carries(n, s.rows[id]);
      assert n in u.net.ever || n in Todo(u.main);
    }
  }

  lemma ReplayKeepsFaithful(s: State, m: Message, name: Name, id: OperationId)
    requires Faithful(s, name, id)
    ensures Faithful(AfterReplay(s, m), name, id)
  {
    hide Notes, Carries, Told, SentFirst, AckedSent, Named;
    if s.main.Replaying? && m in s.main.todo {
      ReplayKeepsTold(s, m, name, id);
      ReplayKeepsSentFirst(s, m, name, id);
    }
  }

  // Results sent by a task, again after a redelivery, or when giving up.

  function Kept(s: State, m: Message): map<Correlation, Message> {
    s.terminals[m.correlation := m]
  }

  function Carried(s: State, m: Message): set<Message> {
    if s.net.link.Open? then s.net.ever + {m} else s.net.ever
  }

  /** The coroutine goes on, or leaves a broken connection. */
  predicate GoesOn(s: State, next: Main) {
    next == s.main || ((s.main.Known? || s.main.Terminalized?) && next == if s.net.link.Broken? then Leaving else Listening)
  }

  ghost predicate Honest(s: State, m: Message, next: Main, name: Name, id: OperationId) {
    && (Notes(m, name) ==> Named(s.rows, id, name) && Carries(m, s.rows[id]))
    && (GivingUp(s.main, id) && next != s.main && Named(s.rows, id, name) ==> Notes(m, name))
  }

  lemma SendKeepsTold(s: State, m: Message, next: Main, name: Name, id: OperationId)
    requires Told(s.rows, s.main, s.net.ever, s.terminals, name, id) && GoesOn(s, next) && Honest(s, m, next, name, id)
    ensures Told(s.rows, next, Carried(s, m), Kept(s, m), name, id)
  {
    hide Notes, Named;
    if MemoryNoted(Kept(s, m), name) {
      var c :| c in Kept(s, m) && Notes(Kept(s, m)[c], name);
      assert Kept(s, m)[c] == m || (c in s.terminals && Kept(s, m)[c] == s.terminals[c]);
    }
    if Noted(Carried(s, m), name) {
      var n :| n in Carried(s, m) && Notes(n, name);
      assert n == m || n in s.net.ever;
    }
  }

  lemma SendKeepsAckedSent(s: State, m: Message, next: Main, name: Name, id: OperationId)
    requires AckedSent(s.rows, s.main, s.net.ever, name, id) && GoesOn(s, next)
    ensures AckedSent(s.rows, next, Carried(s, m), name, id)
  {
    hide Carries;
    if Named(s.rows, id, name) && Borne(s.net.ever, s.rows[id]) {
      var n :| n in s.net.ever && Carries(n, s.rows[id]);
      assert n in Carried(s, m);
    }
  }

  lemma SendKeepsSentFirst(s: State, m: Message, next: Main, name: Name, id: OperationId)
    requires SentFirst(s.rows, s.main, s.net.ever, name, id) && Wired(s.main, s.net.link, s.terminals)
    requires GoesOn(s, next) && Honest(s, m, next, name, id)
    ensures SentFirst(s.rows, next, Carried(s, m), name, id)
  {
    hide Carries, Notes;
    if Named(s.rows, id, name) && Borne(s.net.ever, s.rows[id]) {
      var n :| n in s.net.ever && Carries(n, s.rows[id]);
      assert n in Carried(s, m);
    }
    if s.net.link.Open? { assert m in Carried(s, m); }
    if Noted(Carried(s, m), name) {
      var n :| n in Carried(s, m) && Notes(n, name);
      assert n == m || n in s.net.ever;
    }
  }

  lemma SendKeepsFaithful(s: State, u: State, m: Message, name: Name, id: OperationId)
    requires Faithful(s, name, id) && GoesOn(s, u.main) && Honest(s, m, u.main, name, id)
    requires u.rows == s.rows && u.terminals == Kept(s, m) && u.net.ever == Carried(s, m) && u.net.link == s.net.link
    ensures Faithful(u, name, id)
  {
    hide Told, AckedSent, SentFirst, Honest, Named;
    SendKeepsTold(s, m, u.main, name, id);
    SendKeepsAckedSent(s, m, u.main, name, id);
    SendKeepsSentFirst(s, m, u.main, name, id);
  }

  /** What is sent about an operation in hand carries its row. */
  lemma ResultIsHonest(s: State, op: Operation, p: Payload, name: Name, id: OperationId)
    requires Alone(s.rows, s.main, name, id) && TunnelSafety.Journalled(s.rows, op)
    requires s.rows[op.id].result == Some(Durable(p))
    ensures var m := OpResult(s, op, p);
      && (Notes(m, name) ==> Named(s.rows, id, name) && Carries(m, s.rows[id]) && op.id == id)
      && (op.id == id && Named(s.rows, id, name) ==> Notes(m, name))
  {
    hide Durable;
    assert ReceiptName(s.rows[op.id].receipt) == OperationName(op);
    if OperationName(op) == name { assert Named(s.rows, op.id, name); }
  }

  lemma PublishKeepsFaithful(s: State, t: TaskId, name: Name, id: OperationId)
    requires Faithful(s, name, id) && Safe(s) && Consistent(s)
    ensures Faithful(AfterPublish(s, t), name, id)
  {
    hide Told, AckedSent, SentFirst, Alone, Wired, OneLive, AtMostOnce, Bounded, Settled, MainFits, Notes,
         Named, Carries, Durable, TunnelSafety.Journalled;
    if t in s.work.tasks && s.work.tasks[t].phase.Publishing? {
      var op, answer := s.work.tasks[t].op, s.work.tasks[t].phase.answer;
      TaskFits(s, t);
      ResultIsHonest(s, op, answer, name, id);
      SendKeepsFaithful(s, AfterPublish(s, t), OpResult(s, op, answer), name, id);
    }
  }

  lemma PublishTerminalizedKeepsFaithful(s: State, name: Name, id: OperationId)
    requires Faithful(s, name, id) && Consistent(s) && Grounded(s.rows, s.main)
    ensures Faithful(AfterPublishTerminalized(s), name, id)
  {
    hide Told, AckedSent, SentFirst, Alone, Wired, Settled, TasksFit, Notes, Named, Carries,
         TunnelSafety.Journalled, Imageless;
    if s.main.Terminalized? {
      ResultIsHonest(s, s.main.op, UNCERTAIN, name, id);
      SendKeepsFaithful(s, AfterPublishTerminalized(s), OpResult(s, s.main.op, UNCERTAIN), name, id);
    }
  }

  lemma DecideKeepsFaithful(s: State, task: TaskId, name: Name, id: OperationId)
    requires Faithful(s, name, id) && Safe(s) && Consistent(s) && Imageless(s.rows)
    ensures Faithful(AfterDecide(s, task), name, id)
  {
    hide Told, AckedSent, SentFirst, Alone, Wired, Settled, TasksFit, Notes, Named, Carries,
         TunnelSafety.Journalled, OneLive, AtMostOnce, Bounded, RetryBudget, Live, Uncertain,
         Tunnel.StartDispatch;
    if s.main.Known? && s.main.prior.result.Some? && task !in s.work.tasks {
      var op, p := s.main.arrival.op, s.main.prior.result.value;
      ResultIsHonest(s, op, p, name, id);
      SendKeepsFaithful(s, AfterDecide(s, task), OpResult(s, op, p), name, id);
    } else if s.main.Known? && s.main.prior.result.None? {
      DecideIsHush(s, task, name, id);
      HushKeepsFaithful(s, AfterDecide(s, task), name, id);
    }
  }

  // Whole runs.

  /** The relay gives a name to one operation only, and acknowledges only what
    it was sent; a delivery of the operation is not refused. */
  ghost predicate FairStep(s: State, e: Event, name: Name, id: OperationId) {
    && (e.Deliver? && OperationName(e.op) == name ==> e.op.id == id && !Refused(s, e.op, e.mono, e.now))
    && (e.Ack? && Name(e.correlation, e.digest, e.bindings) == name ==> Noted(s.net.ever, name))
  }

  ghost predicate Fair(s: State, events: seq<Event>, name: Name, id: OperationId) {
    forall n :: 0 <= n < |events| ==> FairStep(Run(s, events[..n]), events[n], name, id)
  }

  lemma FairEarlier(s: State, events: seq<Event>, name: Name, id: OperationId)
    requires |events| > 0 && Fair(s, events, name, id)
    ensures Fair(s, events[..|events| - 1], name, id)
    ensures FairStep(Run(s, events[..|events| - 1]), events[|events| - 1], name, id)
  {
    hide Run, FairStep;
    var n := |events| - 1;
    forall k | 0 <= k < n ensures FairStep(Run(s, events[..n][..k]), events[..n][k], name, id) {
      assert events[..n][..k] == events[..k];
    }
  }

  predicate IsHush(e: Event) {
    !(e.ListOwed? || e.Replay? || e.Decide? || e.Terminalize? || e.PublishTerminalized? || e.Ack? || e.StoreAck?
      || e.Store? || e.Publish?)
  }

  lemma HushTask(s: State, e: Event, name: Name, id: OperationId)
    requires Tidy(s, name, id) && Settled(s.rows) && OfTask(e) && IsHush(e)
    ensures Hush(s, Next(s, e), name, id)
  {
    hide Hush, Tidy, Settled, AfterConnect, AfterWelcome, AfterHello, AfterBeginReplay, AfterListOwed,
         AfterReplay, AfterEndReplay, AfterDeliver, AfterMalformed, AfterJournal, AfterConfirm, AfterAccept,
         AfterLookUp, AfterDecide, AfterTerminalize, AfterPublishTerminalized, AfterAck, AfterStoreAck,
         AfterFinishAck, AfterBreak, AfterNotice, AfterLeave, AfterCrash, AfterBegin, AfterAnnounce, AfterEnter,
         AfterReturn, AfterStore, AfterPublish, AfterReap;
    match e
    case Begin(t) => BeginIsHush(s, t, name, id);
    case Announce(t, mono, now) => AnnounceIsHush(s, t, mono, now, name, id);
    case Enter(t, inTime) => HandlingIsHush(s, t, 0, 0, inTime, TimedOut, name, id);
    case Return(t, outcome, mono, now) => HandlingIsHush(s, t, mono, now, false, outcome, name, id);
    case Reap(t) => HandlingIsHush(s, t, 0, 0, false, TimedOut, name, id);
  }

  lemma HushConnection(s: State, e: Event, name: Name, id: OperationId)
    requires Tidy(s, name, id) && FairStep(s, e, name, id) && !OfTask(e) && IsHush(e)
    ensures Hush(s, Next(s, e), name, id)
  {
    hide Hush, Tidy, Noted, Refused, AfterConnect, AfterWelcome, AfterHello, AfterBeginReplay, AfterListOwed,
         AfterReplay, AfterEndReplay, AfterDeliver, AfterMalformed, AfterJournal, AfterConfirm, AfterAccept,
         AfterLookUp, AfterDecide, AfterTerminalize, AfterPublishTerminalized, AfterAck, AfterStoreAck,
         AfterFinishAck, AfterBreak, AfterNotice, AfterLeave, AfterCrash, AfterBegin, AfterAnnounce, AfterEnter,
         AfterReturn, AfterStore, AfterPublish, AfterReap;
    match e
    case Deliver(op, at, mono, now) => DeliverIsHush(s, op, at, mono, now, name, id);
    case Journal(now) => JournalIsHush(s, now, name, id);
    case Accept(task) => AcceptIsHush(s, task, name, id);
    case FinishAck => FinishAckIsHush(s, name, id);
    case Crash => CrashIsHush(s, name, id);
    case Welcome(epoch) => ConnectingIsHush(s, epoch, name, id);
    case _ =>
      ConnectingIsHush(s, s.net.epoch, name, id);
      BreakingIsHush(s, name, id);
      ReceivingIsHush(s, name, id);
  }

  lemma AckKeepsFaithful(s: State, e: Event, name: Name, id: OperationId)
    requires Faithful(s, name, id) && FairStep(s, e, name, id) && e.Ack?
    ensures Faithful(AfterAck(s, e.correlation, e.digest, e.bindings), name, id)
  {
    hide Noted, Told, AckedSent, SentFirst, Hush, AfterAck, Wired, Alone;
    if Name(e.correlation, e.digest, e.bindings) == name {
      NamedAckKeepsFaithful(s, e.correlation, e.digest, e.bindings, id);
    } else {
      AckIsHush(s, e.correlation, e.digest, e.bindings, name, id);
      HushKeepsFaithful(s, AfterAck(s, e.correlation, e.digest, e.bindings), name, id);
    }
  }

  lemma StoreAckKeepsFaithful(s: State, name: Name, id: OperationId)
    requires Faithful(s, name, id)
    ensures Faithful(AfterStoreAck(s), name, id)
  {
    hide Told, AckedSent, SentFirst, Hush, AfterStoreAck, Wired, Alone;
    if IsAcking(s.main, name) {
      NamedStoreAckKeepsFaithful(s, name, id);
    } else {
      StoreAckIsHush(s, name, id);
      HushKeepsFaithful(s, AfterStoreAck(s), name, id);
    }
  }

  lemma FaithfulIsTidy(s: State, name: Name, id: OperationId)
    requires Faithful(s, name, id)
    ensures Tidy(s, name, id)
  {
  }

  lemma NextKeepsFaithful(s: State, e: Event, name: Name, id: OperationId)
    requires Faithful(s, name, id) && FairStep(s, e, name, id)
    requires Safe(s) && Consistent(s) && Grounded(s.rows, s.main)
    ensures Faithful(Next(s, e), name, id)
  {
    hide Faithful, FairStep, Safe, Settled, TasksFit, MainFits, Imageless, Hush, Tidy, TunnelSafety.Journalled,
         AfterConnect, AfterWelcome, AfterHello, AfterBeginReplay, AfterListOwed, AfterReplay, AfterEndReplay,
         AfterDeliver, AfterMalformed, AfterJournal, AfterConfirm, AfterAccept, AfterLookUp, AfterDecide,
         AfterTerminalize, AfterPublishTerminalized, AfterAck, AfterStoreAck, AfterFinishAck, AfterBreak,
         AfterNotice, AfterLeave, AfterCrash, AfterBegin, AfterAnnounce, AfterEnter, AfterReturn, AfterStore,
         AfterPublish, AfterReap;
    FittingParts(s);
    FaithfulIsTidy(s, name, id);
    match e
    case ListOwed => ListOwedKeepsFaithful(s, name, id);
    case Replay(m) => ReplayKeepsFaithful(s, m, name, id);
    case Decide(task) => DecideKeepsFaithful(s, task, name, id);
    case Terminalize => TerminalizeKeepsFaithful(s, name, id);
    case PublishTerminalized => PublishTerminalizedKeepsFaithful(s, name, id);
    case Ack(_, _, _) => AckKeepsFaithful(s, e, name, id);
    case StoreAck => StoreAckKeepsFaithful(s, name, id);
    case Store(t) => StoreKeepsFaithful(s, t, name, id);
    case Publish(t) => PublishKeepsFaithful(s, t, name, id);
    case _ =>
      if OfTask(e) { HushTask(s, e, name, id); } else { HushConnection(s, e, name, id); }
      HushKeepsFaithful(s, Next(s, e), name, id);
  }

  lemma NothingNoted(projects: set<string>, limit: nat, name: Name, id: OperationId)
    ensures Faithful(Initial(projects, limit), name, id)
  {
  }

  lemma {:induction false} FairRunsAreFaithful(projects: set<string>, limit: nat, events: seq<Event>, more: seq<Event>,
                                               name: Name, id: OperationId)
    requires var s := Run(Initial(projects, limit), events); Faithful(s, name, id) && Fair(s, more, name, id)
    ensures Faithful(Run(Run(Initial(projects, limit), events), more), name, id)
  {
    hide Next, Faithful, FairStep, Safe, Consistent, RowsServed, MemoryServed;
    var s := Run(Initial(projects, limit), events);
    if more != [] {
      var n := |more| - 1;
      FairEarlier(s, more, name, id);
      FairRunsAreFaithful(projects, limit, events, more[..n], name, id);
      RunOfConcat(Initial(projects, limit), events, more[..n]);
      EveryRunIsSafe(projects, limit, events + more[..n]);
      EveryRunIsConsistent(projects, limit, events + more[..n]);
      EveryRunIsServed(projects, limit, events + more[..n]);
      NextKeepsFaithful(Run(s, more[..n]), more[n], name, id);
    }
  }

  lemma {:induction false} RunOfConcat(s: State, events: seq<Event>, more: seq<Event>)
    ensures Run(s, events + more) == Run(Run(s, events), more)
  {
    hide Next;
    if more == [] {
      assert events + more == events;
    } else {
      var n := |more| - 1;
      RunOfConcat(s, events, more[..n]);
      assert (events + more)[..|events + more| - 1] == events + more[..n];
    }
  }

  /** The row is acknowledged at the end of a run that was fair to its name. */
  ghost predicate FairlyAcked(s: State, events: seq<Event>, rows: Rows, id: OperationId) {
    id in rows && rows[id].acked && Fair(s, events, ReceiptName(rows[id].receipt), id)
  }

  /** Over every fair run: what is acknowledged was sent, on this connection or an
    earlier one, with the result the row holds. */
  lemma AcknowledgedOnlyWhenSent(projects: set<string>, limit: nat, events: seq<Event>, id: OperationId)
    requires FairlyAcked(Initial(projects, limit), events, Run(Initial(projects, limit), events).rows, id)
    ensures var s := Run(Initial(projects, limit), events); Borne(s.net.ever, s.rows[id])
  {
    hide Next, Initial, FairStep, Told, SentFirst, Wired, Alone;
    var first, s := Initial(projects, limit), Run(Initial(projects, limit), events);
    var name := ReceiptName(s.rows[id].receipt);
    assert Run(first, []) == first;
    NothingNoted(projects, limit, name, id);
    FairRunsAreFaithful(projects, limit, [], events, name, id);
    assert Named(s.rows, id, name);
  }
}
