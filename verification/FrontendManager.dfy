/** The frontend session manager: its tables, updated in place. */
module FrontendManager {
  import opened Wrappers
  import opened FrontendSessions
  import FrontendOwnership

  class FrontendSessionManager {
    var sessions: map<SessionId, Session>
    var projectSessions: map<Project, SessionId>
    var starts: map<StartKey, (string, SessionId)>
    var startTasks: map<StartKey, Start>
    var projectStarts: map<Project, StartKey>
    var closing: map<SessionId, Closing>
    var partials: map<Project, Sweep>
    var generation: nat
    var shutdown: bool
    /** What the browser and the server manager hold open. */
    var held: set<Resource>

    ghost function TablesNow(): Tables
      reads this`sessions, this`projectSessions, this`starts, this`startTasks, this`projectStarts, this`closing, this`partials
    {
      Tables(sessions, projectSessions, starts, startTasks, projectStarts, closing, partials)
    }

    ghost function State(): FrontendSessions.State
      reads this
    {
      FrontendSessions.State(TablesNow(), generation, shutdown, held)
    }

    constructor ()
      ensures State() == Initial()
    {
      sessions, projectSessions, starts := map[], map[], map[];
      startTasks, projectStarts, closing, partials := map[], map[], map[], map[];
      generation, shutdown, held := 0, false, {};
    }

    /** Hand out a session that is still alive, over the newer connection. */
    method Resume(key: StartKey, digest: string, id: SessionId, epoch: nat, fit: bool) returns (reply: StartReply)
      modifies this`sessions, this`starts
      ensures reply == if id !in old(sessions) then Refused("outcome_unknown")
                       else if fit && epoch >= old(sessions)[id].epoch then StartReply.Running(id) else Refused("session_unfit")
      ensures reply.Running? ==>
        && sessions == old(sessions)[id := old(sessions)[id].(epoch := epoch)]
        && starts == old(starts)[key := (digest, id)]
      ensures !reply.Running? ==> sessions == old(sessions) && starts == old(starts)
    {
      if id !in sessions {
        return Refused("outcome_unknown");
      }
      if !fit || epoch < sessions[id].epoch {
        return Refused("session_unfit");
      }
      sessions := sessions[id := sessions[id].(epoch := epoch)];
      starts := starts[key := (digest, id)];
      return Running(id);
    }

    /** Answer a start request at once, or launch the start. */
    method StartSession(key: StartKey, digest: string, epoch: nat, fit: bool) returns (reply: StartReply)
      modifies this`sessions, this`starts, this`startTasks, this`projectStarts
      ensures reply == StartReplyTo(old(State()), key, digest, epoch, fit)
      ensures State() == AfterStartRequest(old(State()), key, digest, epoch, fit)
    {
      if shutdown {
        return Refused("frontend_session_closed");
      }
      if key in starts {
        if starts[key].0 != digest {
          return Refused("idempotency_conflict");
        }
        reply := Resume(key, digest, starts[key].1, epoch, fit);
      } else if key in startTasks {
        return if startTasks[key].digest != digest then Refused("idempotency_conflict") else Joined;
      } else if && key.project in projectSessions && projectSessions[key.project] in sessions
                && Matches(sessions[projectSessions[key.project]], key)
                && epoch > sessions[projectSessions[key.project]].epoch {
        reply := Resume(key, digest, projectSessions[key.project], epoch, fit);
      } else if key.project in projectSessions || key.project in projectStarts || key.project in partials {
        return Refused("frontend_session_exists");
      } else if |sessions| + |closing| + |projectStarts| + |partials| >= MAX_SESSIONS {
        return Refused("too_many_sessions");
      } else {
        startTasks := startTasks[key := Start(digest, generation, epoch, Asking, None, None)];
        projectStarts := projectStarts[key.project := key];
        return Launched;
      }
    }

    /** The finally block of a start. */
    method Unreserve(key: StartKey)
      requires key in startTasks
      modifies this`startTasks, this`projectStarts
      ensures TablesNow() == Unreserved(old(TablesNow()), key)
    {
      startTasks := startTasks - {key};
      if key.project in projectStarts && projectStarts[key.project] == key {
        projectStarts := projectStarts - {key.project};
      }
    }

    /** The exception handler of a start. */
    method FailStart(key: StartKey)
      requires key in startTasks && !startTasks[key].phase.Waiting?
      modifies this`startTasks, this`projectStarts, this`partials
      ensures State() == AfterFail(old(State()), key)
    {
      hide Unreserved;
      var start := startTasks[key];
      if start.page.None? && start.server.None? {
        Unreserve(key);
      } else {
        partials := partials[key.project := Sweep(start.page, start.server, false, false, AtPage, false)];
        startTasks := startTasks[key := start.(phase := Waiting, page := None, server := None)];
      }
    }

    method Acquire(key: StartKey, server: Option<nat>)
      requires StartAt(State(), key, Asking) && (server.Some? ==> Server(server.value) !in held)
      modifies this`startTasks, this`projectStarts, this`partials, this`held
      ensures State() == AfterAcquire(old(State()), key, server)
    {
      hide AfterFail;
      if server.None? {
        FailStart(key);
        return;
      }
      var start := startTasks[key];
      held := held + {Server(server.value)};
      startTasks := startTasks[key := start.(phase := Serving, server := Some(Server(server.value)))];
      if shutdown || start.generation != generation {
        FailStart(key);
      }
    }

    method OpenPage(key: StartKey, page: Option<nat>)
      requires StartAt(State(), key, Serving) && (page.Some? ==> Page(page.value) !in held)
      modifies this`startTasks, this`projectStarts, this`partials, this`held
      ensures State() == AfterOpenPage(old(State()), key, page)
    {
      hide AfterFail;
      if page.None? {
        FailStart(key);
        return;
      }
      var start := startTasks[key];
      held := held + {Page(page.value)};
      startTasks := startTasks[key := start.(phase := Ready, page := Some(Page(page.value)))];
      if shutdown || start.generation != generation {
        FailStart(key);
      }
    }

    /** Register the session and give up the reservation, in one step. */
    method CommitStart(key: StartKey, id: SessionId)
      requires StartAt(State(), key, Ready) && id !in sessions && id !in closing
      modifies this`sessions, this`projectSessions, this`starts, this`startTasks, this`projectStarts, this`partials
      ensures State() == AfterCommit(old(State()), key, id)
    {
      hide AfterFail, Unreserved;
      var start := startTasks[key];
      if start.page.None? || start.server.None? || shutdown || start.generation != generation
         || key.project !in projectStarts || projectStarts[key.project] != key {
        FailStart(key);
        return;
      }
      sessions := sessions[id := Session(key.project, key.grant, key.link, start.epoch, start.server.value, start.page.value)];
      projectSessions := projectSessions[key.project := id];
      starts := starts[key := (start.digest, id)];
      Unreserve(key);
    }

    /** Start to close a live session, or close a failed one again. */
    method BeginClose(id: SessionId)
      modifies this`sessions, this`starts, this`closing
      ensures State() == AfterBeginClose(old(State()), id)
    {
      if id in sessions {
        var session := sessions[id];
        sessions := sessions - {id};
        starts := map k | k in starts && starts[k].1 != id :: starts[k];
        closing := closing[id := Closing(session, Sweep(Some(session.page), Some(session.server), false, false, AtPage, false))];
      } else if id in closing && closing[id].sweep.stage.Failed? {
        closing := closing[id := closing[id].(sweep := closing[id].sweep.(stage := AtPage, failed := false))];
      }
    }

    /** The two halves of a cleanup: what is closed is never closed again. */
    method SweepPage(w: Sweep, ok: bool) returns (next: Sweep)
      modifies this`held
      ensures next == PageSwept(w, ok) && held == if ok then old(held) - PageLeft(w) else old(held)
    {
      next := w.(stage := AtServer);
      if w.page.Some? && !w.pageClosed {
        if ok {
          held := held - {w.page.value};
          next := next.(pageClosed := true);
        } else {
          next := next.(failed := true);
        }
      }
    }

    method SweepServer(w: Sweep, ok: bool) returns (next: Sweep)
      modifies this`held
      ensures next == ServerSwept(w, ok) && held == if ok then old(held) - ServerLeft(w) else old(held)
    {
      next := w;
      if w.server.Some? && !w.serverReleased {
        if ok {
          held := held - {w.server.value};
          next := next.(serverReleased := true);
        } else {
          next := next.(failed := true);
        }
      }
      next := next.(stage := if next.failed then Failed else AtEnd);
    }

    method FinishCloseStep(id: SessionId, ok: bool)
      requires id in closing
      modifies this`closing, this`projectSessions, this`held
      ensures State() == match old(closing[id].sweep.stage)
        case AtPage => AfterClosePage(old(State()), id, ok)
        case AtServer => AfterReleaseServer(old(State()), id, ok)
        case AtEnd => AfterFinishClose(old(State()), id)
        case Failed => old(State())
    {
      hide PageSwept, ServerSwept, PageLeft, ServerLeft;
      var record := closing[id];
      match record.sweep.stage
      case AtPage =>
        var w := SweepPage(record.sweep, ok);
        closing := closing[id := record.(sweep := w)];
      case AtServer =>
        var w := SweepServer(record.sweep, ok);
        closing := closing[id := record.(sweep := w)];
      case AtEnd =>
        closing := closing - {id};
        if record.session.project in projectSessions && projectSessions[record.session.project] == id {
          projectSessions := projectSessions - {record.session.project};
        }
      case Failed =>
    }

    method FinishPartialStep(project: Project, ok: bool)
      requires project in partials
      modifies this`partials, this`held
      ensures State() == match old(partials[project].stage)
        case AtPage => AfterCleanPage(old(State()), project, ok)
        case AtServer => AfterCleanServer(old(State()), project, ok)
        case AtEnd => AfterFinishClean(old(State()), project)
        case Failed => AfterRetryClean(old(State()), project)
    {
      hide PageSwept, ServerSwept, PageLeft, ServerLeft;
      var w := partials[project];
      match w.stage
      case AtPage =>
        var next := SweepPage(w, ok);
        partials := partials[project := next];
      case AtServer =>
        var next := SweepServer(w, ok);
        partials := partials[project := next];
      case AtEnd =>
        partials := partials - {project};
      case Failed =>
        partials := partials[project := w.(stage := AtPage, failed := false)];
    }

    /** Fence off every pending start. */
    method CancelPendingStarts(stop: bool)
      modifies this`generation, this`shutdown
      ensures State() == AfterCancelStarts(old(State()), stop)
    {
      generation := generation + 1;
      shutdown := shutdown || stop;
    }

    method StartStep(e: Event)
      requires IsStart(e)
      modifies this
      ensures State() == Next(old(State()), e)
    {
      hide StartReplyTo, Gained, Unreserved, Current;
      if e.StartRequest? {
        var reply := StartSession(e.key, e.digest, e.epoch, e.fit);
        return;
      }
      if e.key !in startTasks {
        return;
      }
      var phase := startTasks[e.key].phase;
      if e.Fail? && !phase.Waiting? { FailStart(e.key); }
      else if e.EndStart? && phase.Waiting? { Unreserve(e.key); }
      else if e.Commit? && phase.Ready? && e.id !in sessions && e.id !in closing { CommitStart(e.key, e.id); }
    }

    method ResourceStep(e: Event)
      requires e.Acquire? || e.OpenPage?
      modifies this
      ensures State() == Next(old(State()), e)
    {
      hide Gained, AfterFail;
      if e.key !in startTasks {
        return;
      }
      var phase := startTasks[e.key].phase;
      if e.Acquire? && phase.Asking? && (e.server.None? || Server(e.server.value) !in held) {
        Acquire(e.key, e.server);
      } else if e.OpenPage? && phase.Serving? && (e.page.None? || Page(e.page.value) !in held) {
        OpenPage(e.key, e.page);
      }
    }

    method CloseStep(e: Event)
      requires e.BeginClose? || e.ClosePage? || e.ReleaseServer? || e.FinishClose?
      modifies this
      ensures State() == Next(old(State()), e)
    {
      hide PageSwept, ServerSwept, PageLeft, ServerLeft, Restarted, AfterBeginClose;
      if e.BeginClose? {
        BeginClose(e.id);
      } else if e.id in closing {
        var stage := closing[e.id].sweep.stage;
        if e.ClosePage? && stage.AtPage? { FinishCloseStep(e.id, e.ok); }
        else if e.ReleaseServer? && stage.AtServer? { FinishCloseStep(e.id, e.ok); }
        else if e.FinishClose? && stage.AtEnd? { FinishCloseStep(e.id, true); }
      }
    }

    method CleanStep(e: Event)
      requires e.CleanPage? || e.CleanServer? || e.FinishClean? || e.RetryClean?
      modifies this
      ensures State() == Next(old(State()), e)
    {
      hide PageSwept, ServerSwept, PageLeft, ServerLeft, Restarted;
      if e.project in partials {
        var stage := partials[e.project].stage;
        if e.CleanPage? && stage.AtPage? { FinishPartialStep(e.project, e.ok); }
        else if e.CleanServer? && stage.AtServer? { FinishPartialStep(e.project, e.ok); }
        else if e.FinishClean? && stage.AtEnd? { FinishPartialStep(e.project, true); }
        else if e.RetryClean? && stage.Failed? { FinishPartialStep(e.project, true); }
      }
    }

    /** Any run of the manager is a run of the steps, so it is sound. */
    method Play(events: seq<Event>)
      requires State() == Initial()
      modifies this
      ensures State() == FrontendSessions.Run(Initial(), events)
      ensures FrontendOwnership.Sound(State())
    {
      hide Next, Initial, FrontendOwnership.Sound;
      for n := 0 to |events|
        invariant State() == FrontendSessions.Run(Initial(), events[..n])
      {
        assert events[..n + 1][..n] == events[..n];
        var e := events[n];
        if IsStart(e) { StartStep(e); }
        else if e.Acquire? || e.OpenPage? { ResourceStep(e); }
        else if e.CancelStarts? { CancelStep(e); }
        else if e.BeginClose? || e.ClosePage? || e.ReleaseServer? || e.FinishClose? { CloseStep(e); }
        else { CleanStep(e); }
      }
      assert events[..|events|] == events;
      FrontendOwnership.EveryRunIsSound(events);
    }

    method CancelStep(e: Event)
      requires e.CancelStarts?
      modifies this`generation, this`shutdown
      ensures State() == Next(old(State()), e)
    {
      CancelPendingStarts(e.shutdown);
    }
  }

  predicate IsStart(e: Event) {
    e.StartRequest? || e.Fail? || e.EndStart? || e.Commit?
  }
}
