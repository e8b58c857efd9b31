/** What starts and closes come to when nothing goes wrong on the way. */
module FrontendProgress {
  import opened Wrappers
  import opened FrontendSessions
  import opened FrontendOwnership
  import opened FrontendReplies

  /** A start that nobody has cancelled. */
  predicate Undisturbed(s: State, key: StartKey, phase: StartPhase) {
    StartAt(s, key, phase) && !s.shutdown && s.tables.startTasks[key].generation == s.generation
  }

  function Acquired(s: State, key: StartKey, server: nat): State {
    Next(s, Acquire(key, Some(server)))
  }

  function Opened(s: State, key: StartKey, server: nat, page: nat): State {
    Next(Acquired(s, key, server), OpenPage(key, Some(page)))
  }

  function Committed(s: State, key: StartKey, server: nat, page: nat, id: SessionId): State {
    Next(Opened(s, key, server, page), Commit(key, id))
  }

  lemma AcquireGoesOn(s: State, key: StartKey, server: nat)
    requires Undisturbed(s, key, Asking) && Server(server) !in s.held
    ensures var start := s.tables.startTasks[key].(phase := Serving, server := Some(Server(server)));
      Acquired(s, key, server) == WithStart(s.(held := s.held + {Server(server)}), key, start)
  {
    hide AfterFail;
  }

  lemma OpenPageGoesOn(s: State, key: StartKey, page: nat)
    requires Undisturbed(s, key, Serving) && Page(page) !in s.held
    ensures var start := s.tables.startTasks[key].(phase := Ready, page := Some(Page(page)));
      Next(s, OpenPage(key, Some(page))) == WithStart(s.(held := s.held + {Page(page)}), key, start)
  {
    hide AfterFail;
  }

  lemma CommitGoesOn(s: State, key: StartKey, id: SessionId)
    requires Undisturbed(s, key, Ready) && Ordered(s.tables) && id !in s.tables.sessions && id !in s.tables.closing
    ensures var start := s.tables.startTasks[key];
      && start.page.Some? && start.server.Some?
      && var t := s.tables;
         var session := Session(key.project, key.grant, key.link, start.epoch, start.server.value, start.page.value);
         Next(s, Commit(key, id)) == s.(tables := t.(
           sessions := t.sessions[id := session], projectSessions := t.projectSessions[key.project := id],
           starts := t.starts[key := (start.digest, id)],
           startTasks := t.startTasks - {key}, projectStarts := t.projectStarts - {key.project}))
  {
    hide AfterFail, OnePerProject, Exclusive, StartsAlive, SweepsHonest, Holding;
    assert StartShape(s.tables.startTasks[key]);
    assert key.project in s.tables.projectStarts && s.tables.projectStarts[key.project] == key;
  }

  /** An undisturbed start that gets a server and a page becomes the session of its
    project, for its owner and under its request, with just these two. */
  lemma StartBecomesSession(s: State, key: StartKey, server: nat, page: nat, id: SessionId)
    requires Sound(s) && Undisturbed(s, key, Asking)
    requires Server(server) !in s.held && Page(page) !in s.held && id !in s.tables.sessions && id !in s.tables.closing
    ensures var start, t, u := s.tables.startTasks[key], s.tables, Committed(s, key, server, page, id);
      var session := Session(key.project, key.grant, key.link, start.epoch, Server(server), Page(page));
      && u.tables.sessions == t.sessions[id := session] && u.tables.projectSessions == t.projectSessions[key.project := id]
      && Remembers(u.tables, key, start.digest, id)
      && key !in u.tables.startTasks && key.project !in u.tables.projectStarts
      && u.held == s.held + {Server(server), Page(page)}
  {
    hide Next, Owned, Holding, Ordered;
    var a, b := Acquired(s, key, server), Opened(s, key, server, page);
    AcquireGoesOn(s, key, server);
    OpenPageGoesOn(a, key, page);
    NextKeepsSound(s, Acquire(key, Some(server)));
    NextKeepsSound(a, OpenPage(key, Some(page)));
    CommitGoesOn(b, key, id);
  }

  function CloseAll(s: State, id: SessionId): State {
    Next(Next(Next(Next(s, BeginClose(id)), ClosePage(id, true)), ReleaseServer(id, true)), FinishClose(id))
  }

  /** Closing a session without an error frees its page, its server and its project. */
  lemma CloseFreesProject(s: State, id: SessionId)
    requires Sound(s) && id in s.tables.sessions
    ensures var session, t, u := s.tables.sessions[id], s.tables, CloseAll(s, id);
      && u.held == s.held - {session.page, session.server}
      && u.tables.sessions == t.sessions - {id} && u.tables.closing == t.closing
      && u.tables.projectSessions == t.projectSessions - {session.project}
      && (forall key :: key in u.tables.starts <==> key in t.starts && t.starts[key].1 != id)
      && !Holds(u.tables, session.project)
  {
    hide Owned, Holding, Reserved, StartsAlive, SweepsHonest;
    var session, u := s.tables.sessions[id], CloseAll(s, id);
    CloseSteps(s, id);
    forall other | other in u.tables.sessions || other in u.tables.closing
      ensures ProjectOf(u.tables, other) != session.project
    {
      assert Points(s.tables.projectSessions, session.project, id);
    }
    forall key | key in u.tables.startTasks ensures key.project != session.project {
      StartReserves(s.tables, key);
    }
  }

  lemma StartReserves(t: Tables, key: StartKey)
    requires Ordered(t) && key in t.startTasks
    ensures key.project in t.projectStarts
  {
    hide OnePerProject, StartsAlive, SweepsHonest;
  }

  /** The session's closing record when its page, and then its server, is gone. */
  function ClosingWith(session: Session, page: bool, server: bool, stage: Stage): Closing {
    Closing(session, Sweep(Some(session.page), Some(session.server), page, server, stage, false))
  }

  lemma BeginStep(s: State, id: SessionId)
    requires id in s.tables.sessions
    ensures Next(s, BeginClose(id)) == s.(tables := s.tables.(
      sessions := s.tables.sessions - {id},
      starts := map k | k in s.tables.starts && s.tables.starts[k].1 != id :: s.tables.starts[k],
      closing := s.tables.closing[id := ClosingWith(s.tables.sessions[id], false, false, AtPage)]))
  {
  }

  lemma PageStep(s: State, id: SessionId, session: Session)
    requires id in s.tables.closing && s.tables.closing[id] == ClosingWith(session, false, false, AtPage)
    ensures Next(s, ClosePage(id, true)) == WithClosing(
      s.(held := s.held - {session.page}), id, ClosingWith(session, true, false, AtServer).sweep)
  {
    assert PageLeft(s.tables.closing[id].sweep) == {session.page};
  }

  lemma ServerStep(s: State, id: SessionId, session: Session)
    requires id in s.tables.closing && s.tables.closing[id] == ClosingWith(session, true, false, AtServer)
    ensures Next(s, ReleaseServer(id, true)) == WithClosing(
      s.(held := s.held - {session.server}), id, ClosingWith(session, true, true, AtEnd).sweep)
  {
    assert ServerLeft(s.tables.closing[id].sweep) == {session.server};
  }

  lemma EndStep(s: State, id: SessionId, session: Session)
    requires id in s.tables.closing && s.tables.closing[id] == ClosingWith(session, true, true, AtEnd)
    requires session.project in s.tables.projectSessions && s.tables.projectSessions[session.project] == id
    ensures Next(s, FinishClose(id)) == s.(tables := s.tables.(
      closing := s.tables.closing - {id}, projectSessions := s.tables.projectSessions - {session.project}))
  {
  }

  lemma CloseSteps(s: State, id: SessionId)
    requires Sound(s) && id in s.tables.sessions
    ensures var session, t, u := s.tables.sessions[id], s.tables, CloseAll(s, id);
      && id !in t.closing && session.project in t.projectSessions && t.projectSessions[session.project] == id
      && u == s.(held := s.held - {session.page} - {session.server}, tables := t.(
           sessions := t.sessions - {id}, closing := t.closing,
           starts := map k | k in t.starts && t.starts[k].1 != id :: t.starts[k],
           projectSessions := t.projectSessions - {session.project}))
  {
    hide Owned, Holding, Reserved, Exclusive, StartsAlive, SweepsHonest, Next;
    var session := s.tables.sessions[id];
    assert Points(s.tables.projectSessions, session.project, id) && id !in s.tables.closing;
    var a := Next(s, BeginClose(id));
    var b := Next(a, ClosePage(id, true));
    var c := Next(b, ReleaseServer(id, true));
    BeginStep(s, id);
    PageStep(a, id, session);
    ServerStep(b, id, session);
    EndStep(c, id, session);
    assert c.tables.closing - {id} == s.tables.closing;
  }

  function CleanAll(s: State, key: StartKey): State {
    Next(Next(Next(Next(Next(s, Fail(key)), CleanPage(key.project, true)), CleanServer(key.project, true)),
              FinishClean(key.project)), EndStart(key))
  }

  lemma FailStep(s: State, key: StartKey)
    requires StartAt(s, key, Serving) || StartAt(s, key, Ready)
    requires Ordered(s.tables)
    ensures var start := s.tables.startTasks[key];
      key.project !in s.tables.partials && start.server.Some?
      && Next(s, Fail(key)) == s.(tables := s.tables.(
           startTasks := s.tables.startTasks[key := start.(phase := Waiting, page := None, server := None)],
           partials := s.tables.partials[key.project := Sweep(start.page, start.server, false, false, AtPage, false)]))
  {
    hide OnePerProject, Exclusive, StartsAlive, SweepsHonest;
    assert StartShape(s.tables.startTasks[key]);
  }

  lemma CleanPageStep(s: State, project: Project, w: Sweep)
    requires project in s.tables.partials && s.tables.partials[project] == w
    requires w.stage.AtPage? && !w.pageClosed && !w.serverReleased && !w.failed && w.server.Some?
    ensures Next(s, CleanPage(project, true)) == WithPartial(
      s.(held := s.held - Optional(w.page)), project, w.(stage := AtServer, pageClosed := w.page.Some?))
  {
  }

  lemma CleanServerStep(s: State, project: Project, w: Sweep)
    requires project in s.tables.partials && s.tables.partials[project] == w
    requires w.stage.AtServer? && !w.serverReleased && !w.failed && w.server.Some?
    ensures Next(s, CleanServer(project, true)) == WithPartial(
      s.(held := s.held - Optional(w.server)), project, w.(stage := AtEnd, serverReleased := true))
  {
  }

  lemma CleanEndStep(s: State, key: StartKey)
    requires key.project in s.tables.partials && s.tables.partials[key.project].stage.AtEnd?
    requires StartAt(s, key, Waiting) && key.project in s.tables.projectStarts && s.tables.projectStarts[key.project] == key
    ensures Next(Next(s, FinishClean(key.project)), EndStart(key)) == s.(tables := s.tables.(
      partials := s.tables.partials - {key.project},
      startTasks := s.tables.startTasks - {key}, projectStarts := s.tables.projectStarts - {key.project}))
  {
  }

  lemma CleanedUp(s: State, key: StartKey, w: Sweep)
    requires key.project in s.tables.partials && s.tables.partials[key.project] == w
    requires w.stage.AtPage? && !w.pageClosed && !w.serverReleased && !w.failed && w.server.Some?
    requires StartAt(s, key, Waiting) && key.project in s.tables.projectStarts && s.tables.projectStarts[key.project] == key
    ensures Next(Next(Next(Next(s, CleanPage(key.project, true)), CleanServer(key.project, true)),
                      FinishClean(key.project)), EndStart(key))
      == s.(held := s.held - Optional(w.page) - Optional(w.server), tables := s.tables.(
           partials := s.tables.partials - {key.project},
           startTasks := s.tables.startTasks - {key}, projectStarts := s.tables.projectStarts - {key.project}))
  {
    hide Next, Optional;
    var b := Next(s, CleanPage(key.project, true));
    var c := Next(b, CleanServer(key.project, true));
    CleanPageStep(s, key.project, w);
    CleanServerStep(b, key.project, b.tables.partials[key.project]);
    CleanEndStep(c, key);
    assert c.tables.partials - {key.project} == s.tables.partials - {key.project};
  }

  lemma Restored<K, V>(m: map<K, V>, k: K, v: V)
    ensures m[k := v] - {k} == m - {k}
    ensures k !in m ==> m - {k} == m
  {
  }

  /** A failed start whose cleanup meets no error leaves nothing: what it had is
    closed and its project is free. */
  lemma FailedStartLeavesNothing(s: State, key: StartKey)
    requires Sound(s) && (StartAt(s, key, Serving) || StartAt(s, key, Ready))
    ensures var start, t, u := s.tables.startTasks[key], s.tables, CleanAll(s, key);
      && u.held == s.held - Optional(start.page) - Optional(start.server)
      && u.tables == t.(startTasks := t.startTasks - {key}, projectStarts := t.projectStarts - {key.project})
  {
    hide Owned, Holding, Next, Ordered, Reserved, Optional;
    var start := s.tables.startTasks[key];
    assert Ordered(s.tables);
    assert Reservations(s.tables) by { OrderedReserves(s.tables); }
    NoCleanupYet(s.tables, key);
    FailStep(s, key);
    var a := Next(s, Fail(key));
    var w := Sweep(start.page, start.server, false, false, AtPage, false);
    CleanedUp(a, key, w);
    Restored(s.tables.partials, key.project, w);
    Restored(s.tables.startTasks, key, a.tables.startTasks[key]);
  }

  // Cancelled starts

  /** No start is of a later generation than the manager. */
  ghost predicate Dated(s: State) {
    forall key :: key in s.tables.startTasks ==> s.tables.startTasks[key].generation <= s.generation
  }

  /** No step goes back a generation or brings a start of an earlier one. */
  ghost predicate Ages(s: State, u: State) {
    && s.generation <= u.generation
    && forall key :: key in u.tables.startTasks ==>
         || u.tables.startTasks[key].generation == s.generation
         || (key in s.tables.startTasks && u.tables.startTasks[key].generation == s.tables.startTasks[key].generation)
  }

  lemma FailAges(s: State, key: StartKey)
    ensures Ages(s, AfterFail(s, key)) && AfterFail(s, key).generation == s.generation
  {
    hide Unreserved;
    UnreservedTasks(s.tables, key);
  }

  lemma GainedAges(s: State, key: StartKey, start: Start, r: Resource)
    requires key in s.tables.startTasks && start.generation == s.tables.startTasks[key].generation
    ensures Ages(s, Gained(s, key, start, r))
  {
    hide AfterFail;
    FailAges(WithStart(s.(held := s.held + {r}), key, start), key);
  }

  lemma StartStepAges(s: State, e: Event)
    requires e.Acquire? || e.OpenPage? || e.Commit? || e.Fail?
    ensures Ages(s, Next(s, e))
  {
    hide AfterFail, Gained, Current;
    FailAges(s, e.key);
    match e
    case Acquire(key, server) =>
      if StartAt(s, key, Asking) && server.Some? {
        GainedAges(s, key, s.tables.startTasks[key].(phase := Serving, server := Some(Server(server.value))), Server(server.value));
      }
    case OpenPage(key, page) =>
      if StartAt(s, key, Serving) && page.Some? {
        GainedAges(s, key, s.tables.startTasks[key].(phase := Ready, page := Some(Page(page.value))), Page(page.value));
      }
    case _ =>
  }

  lemma StepAges(s: State, e: Event)
    ensures Ages(s, Next(s, e))
  {
    hide StartReplyTo, AfterFail, Gained, AfterAcquire, AfterOpenPage, AfterCommit, AfterClosePage, AfterReleaseServer,
         AfterFinishClose, AfterCleanPage, AfterCleanServer, AfterFinishClean, AfterRetryClean;
    if e.Acquire? || e.OpenPage? || e.Commit? || e.Fail? {
      StartStepAges(s, e);
    } else if !(e.StartRequest? || e.EndStart? || e.BeginClose?) {
      SweepKeepsProper(s, e);
      SweepKeepsGeneration(s, e);
    }
  }

  lemma SweepKeepsGeneration(s: State, e: Event)
    requires !(e.StartRequest? || e.Acquire? || e.OpenPage? || e.Commit? || e.Fail? || e.EndStart? || e.BeginClose?)
    ensures Next(s, e).generation == if e.CancelStarts? then s.generation + 1 else s.generation
  {
    hide PageSwept, ServerSwept, PageLeft, ServerLeft, Restarted;
  }

  lemma {:induction false} RunAges(s: State, events: seq<Event>)
    requires Dated(s)
    ensures Dated(Run(s, events)) && s.generation <= Run(s, events).generation
  {
    hide Next;
    if events != [] {
      RunAges(s, events[..|events| - 1]);
      StepAges(Run(s, events[..|events| - 1]), events[|events| - 1]);
    }
  }

  /** A lost connection or a shutdown cancels every pending start for good: in no
    run after it does a start of an earlier generation become a session. */
  lemma CancelledStartsNeverRegister(events: seq<Event>, shutdown: bool, later: seq<Event>, key: StartKey, id: SessionId)
    requires var s := Run(Initial(), events);
      var u := Run(Next(s, CancelStarts(shutdown)), later);
      key in u.tables.startTasks && u.tables.startTasks[key].generation <= s.generation
    ensures var s := Run(Initial(), events);
      && Dated(s) && (Next(s, CancelStarts(shutdown)).shutdown <==> s.shutdown || shutdown)
      && var u := Run(Next(s, CancelStarts(shutdown)), later);
         Next(u, Commit(key, id)).tables.sessions == u.tables.sessions
  {
    hide Run, Initial, AfterFail;
    DatedAtFirst();
    RunAges(Initial(), events);
    var s := Run(Initial(), events);
    RunAges(Next(s, CancelStarts(shutdown)), later);
    FailKeepsSessions(Run(Next(s, CancelStarts(shutdown)), later), key);
  }

  lemma DatedAtFirst()
    ensures Dated(Initial())
  {
  }

  lemma FailKeepsSessions(s: State, key: StartKey)
    ensures AfterFail(s, key).tables.sessions == s.tables.sessions
  {
  }
}
