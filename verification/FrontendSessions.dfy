/** Who owns each browser page and dev server of the frontend manager, one step
  per stretch between two awaits. Every step may be taken whenever its
  coroutine stands at it; a cancellation is a failure at that point. */
module FrontendSessions {
  import opened Wrappers

  const MAX_SESSIONS := 8

  type Project = string
  type SessionId = string

  datatype StartKey = StartKey(grant: string, link: string, project: Project, idempotency: string)

  /** Something that has to be closed or released once. */
  datatype Resource = Page(id: nat) | Server(id: nat)

  /** A start: asking for approval and a server, then for a page, then to be
    registered; after a failure it waits for the cleanup of what it had. */
  datatype StartPhase = Asking | Serving | Ready | Waiting

  datatype Start = Start(digest: string, generation: nat, epoch: nat, phase: StartPhase,
                         server: Option<Resource>, page: Option<Resource>)

  datatype Session = Session(project: Project, grant: string, link: string, epoch: nat, server: Resource, page: Resource)

  /** A cleanup coroutine: the page first, then the server, then the bookkeeping. */
  datatype Stage = AtPage | AtServer | AtEnd | Failed

  datatype Sweep = Sweep(page: Option<Resource>, server: Option<Resource>, pageClosed: bool, serverReleased: bool,
                         stage: Stage, failed: bool)

  datatype Closing = Closing(session: Session, sweep: Sweep)

  /** The manager's tables. */
  datatype Tables = Tables(
    sessions: map<SessionId, Session>, projectSessions: map<Project, SessionId>,
    starts: map<StartKey, (string, SessionId)>, startTasks: map<StartKey, Start>, projectStarts: map<Project, StartKey>,
    closing: map<SessionId, Closing>, partials: map<Project, Sweep>)

  /** The tables, the lifecycle, and what the browser and the servers hold open. */
  datatype State = State(tables: Tables, generation: nat, shutdown: bool, held: set<Resource>)

  datatype StartReply = Refused(code: string) | Running(id: SessionId) | Joined | Launched

  datatype Event =
    | StartRequest(key: StartKey, digest: string, epoch: nat, fit: bool)
    | Acquire(key: StartKey, server: Option<nat>) | OpenPage(key: StartKey, page: Option<nat>)
    | Commit(key: StartKey, id: SessionId) | Fail(key: StartKey) | EndStart(key: StartKey)
    | BeginClose(id: SessionId) | ClosePage(id: SessionId, ok: bool) | ReleaseServer(id: SessionId, ok: bool)
    | FinishClose(id: SessionId)
    | CleanPage(project: Project, ok: bool) | CleanServer(project: Project, ok: bool)
    | FinishClean(project: Project) | RetryClean(project: Project)
    | CancelStarts(shutdown: bool)

  function Initial(): State {
    State(Tables(map[], map[], map[], map[], map[], map[], map[]), 0, false, {})
  }

  predicate Matches(session: Session, key: StartKey) {
    session.project == key.project && session.grant == key.grant && session.link == key.link
  }

  /** The live session of the project, when the same owner comes back over a newer connection. */
  predicate Recoverable(t: Tables, key: StartKey, epoch: nat) {
    && key.project in t.projectSessions && t.projectSessions[key.project] in t.sessions
    && Matches(t.sessions[t.projectSessions[key.project]], key)
    && epoch > t.sessions[t.projectSessions[key.project]].epoch
  }

  predicate Busy(t: Tables, project: Project) {
    project in t.projectSessions || project in t.projectStarts || project in t.partials
  }

  predicate Full(t: Tables) {
    |t.sessions| + |t.closing| + |t.projectStarts| + |t.partials| >= MAX_SESSIONS
  }

  /** The answer to a start request; `fit` is whether an existing session may
    still be used by this caller at this time. */
  function StartReplyTo(s: State, key: StartKey, digest: string, epoch: nat, fit: bool): StartReply {
    var t := s.tables;
    if s.shutdown then Refused("frontend_session_closed")
    else if key in t.starts then
      if t.starts[key].0 != digest then Refused("idempotency_conflict")
      else if t.starts[key].1 !in t.sessions then Refused("outcome_unknown")
      else if fit && epoch >= t.sessions[t.starts[key].1].epoch then Running(t.starts[key].1)
      else Refused("session_unfit")
    else if key in t.startTasks then
      if t.startTasks[key].digest != digest then Refused("idempotency_conflict") else Joined
    else if Recoverable(t, key, epoch) then
      if fit then Running(t.projectSessions[key.project]) else Refused("session_unfit")
    else if Busy(t, key.project) then Refused("frontend_session_exists")
    else if Full(t) then Refused("too_many_sessions")
    else Launched
  }

  function AfterStartRequest(s: State, key: StartKey, digest: string, epoch: nat, fit: bool): State {
    var t := s.tables;
    match StartReplyTo(s, key, digest, epoch, fit)
    case Running(id) =>
      s.(tables := t.(sessions := t.sessions[id := t.sessions[id].(epoch := epoch)], starts := t.starts[key := (digest, id)]))
    case Launched =>
      s.(tables := t.(startTasks := t.startTasks[key := Start(digest, s.generation, epoch, Asking, None, None)],
                      projectStarts := t.projectStarts[key.project := key]))
    case _ => s
  }

  predicate StartAt(s: State, key: StartKey, phase: StartPhase) {
    key in s.tables.startTasks && s.tables.startTasks[key].phase == phase
  }

  function WithStart(s: State, key: StartKey, start: Start): State {
    s.(tables := s.tables.(startTasks := s.tables.startTasks[key := start]))
  }

  /** The start's reservation goes. */
  function Unreserved(t: Tables, key: StartKey): Tables {
    t.(startTasks := t.startTasks - {key},
       projectStarts := if key.project in t.projectStarts && t.projectStarts[key.project] == key
                        then t.projectStarts - {key.project} else t.projectStarts)
  }

  predicate Current(s: State, start: Start) {
    !s.shutdown && start.generation == s.generation
  }

  /** An exception in a start: what it had goes to a cleanup, or nothing is left to do. */
  function AfterFail(s: State, key: StartKey): State {
    if key !in s.tables.startTasks || s.tables.startTasks[key].phase.Waiting? then s
    else
      var start := s.tables.startTasks[key];
      if start.page.None? && start.server.None? then s.(tables := Unreserved(s.tables, key))
      else
        s.(tables := s.tables.(
             startTasks := s.tables.startTasks[key := start.(phase := Waiting, page := None, server := None)],
             partials := s.tables.partials[key.project := Sweep(start.page, start.server, false, false, AtPage, false)]))
  }

  /** What a start has acquired is kept, unless the lifecycle moved on meanwhile. */
  function Gained(s: State, key: StartKey, start: Start, r: Resource): State {
    var t := WithStart(s.(held := s.held + {r}), key, start);
    if Current(s, start) then t else AfterFail(t, key)
  }

  function AfterAcquire(s: State, key: StartKey, server: Option<nat>): State {
    if !StartAt(s, key, Asking) || (server.Some? && Server(server.value) in s.held) then s
    else if server.None? then AfterFail(s, key)
    else
      var r := Server(server.value);
      Gained(s, key, s.tables.startTasks[key].(phase := Serving, server := Some(r)), r)
  }

  function AfterOpenPage(s: State, key: StartKey, page: Option<nat>): State {
    if !StartAt(s, key, Serving) || (page.Some? && Page(page.value) in s.held) then s
    else if page.None? then AfterFail(s, key)
    else
      var r := Page(page.value);
      Gained(s, key, s.tables.startTasks[key].(phase := Ready, page := Some(r)), r)
  }

  /** The session is registered, unless the lifecycle moved on or the reservation changed. */
  function AfterCommit(s: State, key: StartKey, id: SessionId): State {
    var t := s.tables;
    if !StartAt(s, key, Ready) || id in t.sessions || id in t.closing then s
    else
      var start := t.startTasks[key];
      if start.page.None? || start.server.None? || !Current(s, start)
         || key.project !in t.projectStarts || t.projectStarts[key.project] != key
      then AfterFail(s, key)
      else
        var session := Session(key.project, key.grant, key.link, start.epoch, start.server.value, start.page.value);
        s.(tables := Unreserved(t.(sessions := t.sessions[id := session],
                                   projectSessions := t.projectSessions[key.project := id],
                                   starts := t.starts[key := (start.digest, id)]), key))
  }

  function AfterEndStart(s: State, key: StartKey): State {
    if StartAt(s, key, Waiting) then s.(tables := Unreserved(s.tables, key)) else s
  }

  /** A live session starts to close; a failed close starts over with what is left. */
  function AfterBeginClose(s: State, id: SessionId): State {
    var t := s.tables;
    if id in t.sessions then
      var session := t.sessions[id];
      s.(tables := t.(sessions := t.sessions - {id},
                      starts := map k | k in t.starts && t.starts[k].1 != id :: t.starts[k],
                      closing := t.closing[id := Closing(session, Sweep(Some(session.page), Some(session.server),
                                                                        false, false, AtPage, false))]))
    else if id in t.closing && t.closing[id].sweep.stage.Failed? then
      s.(tables := t.(closing := t.closing[id := t.closing[id].(sweep := Restarted(t.closing[id].sweep))]))
    else s
  }

  function Restarted(w: Sweep): Sweep {
    w.(stage := AtPage, failed := false)
  }

  function PageSwept(w: Sweep, ok: bool): Sweep {
    if w.page.None? || w.pageClosed then w.(stage := AtServer)
    else if ok then w.(stage := AtServer, pageClosed := true)
    else w.(stage := AtServer, failed := true)
  }

  function ServerSwept(w: Sweep, ok: bool): Sweep {
    var tried := w.server.Some? && !w.serverReleased;
    var failed := w.failed || (tried && !ok);
    w.(serverReleased := w.serverReleased || (tried && ok), failed := failed, stage := if failed then Failed else AtEnd)
  }

  /** What a cleanup has still to close. */
  function PageLeft(w: Sweep): set<Resource> {
    if w.page.Some? && !w.pageClosed then {w.page.value} else {}
  }

  function ServerLeft(w: Sweep): set<Resource> {
    if w.server.Some? && !w.serverReleased then {w.server.value} else {}
  }

  function Left(w: Sweep): set<Resource> {
    PageLeft(w) + ServerLeft(w)
  }

  predicate ClosingAt(s: State, id: SessionId, stage: Stage) {
    id in s.tables.closing && s.tables.closing[id].sweep.stage == stage
  }

  function WithClosing(s: State, id: SessionId, sweep: Sweep): State
    requires id in s.tables.closing
  {
    s.(tables := s.tables.(closing := s.tables.closing[id := s.tables.closing[id].(sweep := sweep)]))
  }

  function AfterClosePage(s: State, id: SessionId, ok: bool): State {
    if !ClosingAt(s, id, AtPage) then s
    else
      var w := s.tables.closing[id].sweep;
      WithClosing(s.(held := if ok then s.held - PageLeft(w) else s.held), id, PageSwept(w, ok))
  }

  function AfterReleaseServer(s: State, id: SessionId, ok: bool): State {
    if !ClosingAt(s, id, AtServer) then s
    else
      var w := s.tables.closing[id].sweep;
      WithClosing(s.(held := if ok then s.held - ServerLeft(w) else s.held), id, ServerSwept(w, ok))
  }

  function AfterFinishClose(s: State, id: SessionId): State {
    if !ClosingAt(s, id, AtEnd) then s
    else
      var t := s.tables;
      var project := t.closing[id].session.project;
      s.(tables := t.(closing := t.closing - {id},
                      projectSessions := if project in t.projectSessions && t.projectSessions[project] == id
                                         then t.projectSessions - {project} else t.projectSessions))
  }

  predicate CleaningAt(s: State, project: Project, stage: Stage) {
    project in s.tables.partials && s.tables.partials[project].stage == stage
  }

  function WithPartial(s: State, project: Project, sweep: Sweep): State {
    s.(tables := s.tables.(partials := s.tables.partials[project := sweep]))
  }

  function AfterCleanPage(s: State, project: Project, ok: bool): State {
    if !CleaningAt(s, project, AtPage) then s
    else
      var w := s.tables.partials[project];
      WithPartial(s.(held := if ok then s.held - PageLeft(w) else s.held), project, PageSwept(w, ok))
  }

  function AfterCleanServer(s: State, project: Project, ok: bool): State {
    if !CleaningAt(s, project, AtServer) then s
    else
      var w := s.tables.partials[project];
      WithPartial(s.(held := if ok then s.held - ServerLeft(w) else s.held), project, ServerSwept(w, ok))
  }

  function AfterFinishClean(s: State, project: Project): State {
    if CleaningAt(s, project, AtEnd) then s.(tables := s.tables.(partials := s.tables.partials - {project})) else s
  }

  function AfterRetryClean(s: State, project: Project): State {
    if CleaningAt(s, project, Failed) then WithPartial(s, project, Restarted(s.tables.partials[project])) else s
  }

  /** A lost transport or a shutdown: no pending start may become a session any more. */
  function AfterCancelStarts(s: State, shutdown: bool): State {
    s.(generation := s.generation + 1, shutdown := s.shutdown || shutdown)
  }

  function Next(s: State, e: Event): State {
    match e
    case StartRequest(key, digest, epoch, fit) => AfterStartRequest(s, key, digest, epoch, fit)
    case Acquire(key, server) => AfterAcquire(s, key, server)
    case OpenPage(key, page) => AfterOpenPage(s, key, page)
    case Commit(key, id) => AfterCommit(s, key, id)
    case Fail(key) => AfterFail(s, key)
    case EndStart(key) => AfterEndStart(s, key)
    case BeginClose(id) => AfterBeginClose(s, id)
    case ClosePage(id, ok) => AfterClosePage(s, id, ok)
    case ReleaseServer(id, ok) => AfterReleaseServer(s, id, ok)
    case FinishClose(id) => AfterFinishClose(s, id)
    case CleanPage(project, ok) => AfterCleanPage(s, project, ok)
    case CleanServer(project, ok) => AfterCleanServer(s, project, ok)
    case FinishClean(project) => AfterFinishClean(s, project)
    case RetryClean(project) => AfterRetryClean(s, project)
    case CancelStarts(shutdown) => AfterCancelStarts(s, shutdown)
  }

  function Run(s: State, events: seq<Event>): State {
    if events == [] then s else Next(Run(s, events[..|events| - 1]), events[|events| - 1])
  }
}
