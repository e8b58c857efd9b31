/** Every open page and every acquired server has exactly one owner until it is
  closed, a project has one session at most, and few projects hold any. */
module FrontendOwnership {
  import opened Wrappers
  import opened FrontendSessions

  datatype Owner = OfStart(key: StartKey) | OfSession(id: SessionId) | OfClosing(id: SessionId) | OfPartial(project: Project)

  function Optional(r: Option<Resource>): set<Resource> {
    if r.Some? then {r.value} else {}
  }

  /** What an owner has to close in the end. */
  function Owns(t: Tables, o: Owner): set<Resource> {
    match o
    case OfStart(key) =>
      if key in t.startTasks then Optional(t.startTasks[key].server) + Optional(t.startTasks[key].page) else {}
    case OfSession(id) => if id in t.sessions then {t.sessions[id].page, t.sessions[id].server} else {}
    case OfClosing(id) => if id in t.closing then Left(t.closing[id].sweep) else {}
    case OfPartial(project) => if project in t.partials then Left(t.partials[project]) else {}
  }

  ghost predicate Owned(t: Tables, held: set<Resource>) {
    && (forall o :: Owns(t, o) <= held)
    && (forall o, p :: o != p ==> Owns(t, o) !! Owns(t, p))
    && (forall r :: r in held ==> exists o :: r in Owns(t, o))
  }

  /** One owner has a new resource. */
  lemma GainKeepsOwned(t: Tables, u: Tables, held: set<Resource>, o: Owner, r: Resource)
    requires Owned(t, held) && r !in held
    requires Owns(u, o) == Owns(t, o) + {r} && forall p :: p != o ==> Owns(u, p) == Owns(t, p)
    ensures Owned(u, held + {r})
  {
    hide Owns;
    assert r in Owns(u, o);
    forall q | q in held ensures exists p :: q in Owns(u, p) {
      var p :| q in Owns(t, p);
      assert q in Owns(u, p);
    }
  }

  /** One owner hands everything it has to another that has nothing. */
  lemma MoveKeepsOwned(t: Tables, u: Tables, held: set<Resource>, a: Owner, b: Owner)
    requires Owned(t, held) && a != b
    requires Owns(t, b) == {} && Owns(u, a) == {} && Owns(u, b) == Owns(t, a)
    requires forall p :: p != a && p != b ==> Owns(u, p) == Owns(t, p)
    ensures Owned(u, held)
  {
    hide Owns;
    forall q | q in held ensures exists p :: q in Owns(u, p) {
      var p :| q in Owns(t, p);
      assert if p == a then q in Owns(u, b) else q in Owns(u, p);
    }
  }

  /** One owner gives up what is closed now. */
  lemma DropKeepsOwned(t: Tables, u: Tables, held: set<Resource>, o: Owner, gone: set<Resource>)
    requires Owned(t, held) && gone <= Owns(t, o)
    requires Owns(u, o) == Owns(t, o) - gone && forall p :: p != o ==> Owns(u, p) == Owns(t, p)
    ensures Owned(u, held - gone)
  {
    hide Owns;
    forall p | p != o ensures Owns(u, p) <= held - gone {
      assert Owns(t, p) !! Owns(t, o);
    }
    forall q | q in held - gone ensures exists p :: q in Owns(u, p) {
      var p :| q in Owns(t, p);
      assert q in Owns(u, p);
    }
  }

  type Sessions = map<SessionId, Session>
  type Closings = map<SessionId, Closing>

  /** A session or a closing record belongs to the project that points at it. */
  ghost predicate OnePerProject(sessions: Sessions, closing: Closings, current: map<Project, SessionId>) {
    && (forall id :: id in sessions ==>
          id !in closing && Points(current, sessions[id].project, id)
          && sessions[id].page.Page? && sessions[id].server.Server?)
    && (forall id :: id in closing ==> Points(current, closing[id].session.project, id))
    && (forall p :: p in current ==>
          || (current[p] in sessions && sessions[current[p]].project == p)
          || (current[p] in closing && closing[current[p]].session.project == p))
  }

  ghost predicate Points(current: map<Project, SessionId>, p: Project, id: SessionId) {
    p in current && current[p] == id
  }

  /** A start holds the reservation of its project; a cleanup of the project can
    only be the start's own. */
  ghost predicate Reserved(starts: map<StartKey, Start>, reserved: map<Project, StartKey>, cleanups: set<Project>) {
    && (forall key :: key in starts ==>
          && key.project in reserved && reserved[key.project] == key && StartShape(starts[key])
          && (key.project in cleanups ==> starts[key].phase.Waiting?))
    && (forall p :: p in reserved ==> reserved[p].project == p && reserved[p] in starts)
  }

  /** A project with a start or a cleanup has no session. */
  ghost predicate Exclusive(current: set<Project>, reserved: set<Project>, cleanups: set<Project>) {
    current !! (reserved + cleanups)
  }

  /** What a start has in each phase. */
  predicate StartShape(start: Start) {
    && start.server.Some? == (start.phase.Serving? || start.phase.Ready?)
    && start.page.Some? == start.phase.Ready?
    && (start.server.Some? ==> start.server.value.Server?)
    && (start.page.Some? ==> start.page.value.Page?)
  }

  /** A start key that is answered with a session always finds it alive. */
  ghost predicate StartsAlive(starts: map<StartKey, (string, SessionId)>, sessions: Sessions) {
    forall key :: key in starts ==> starts[key].1 in sessions
  }

  ghost predicate SweepsHonest(closing: Closings, partials: map<Project, Sweep>) {
    && (forall id :: id in closing ==> HonestSweep(closing[id].sweep))
    && (forall p :: p in partials ==> HonestSweep(partials[p]))
  }

  /** A resource is skipped only by a failure, and the end is reached without one. */
  predicate HonestSweep(w: Sweep) {
    && (w.stage.AtServer? && !w.failed ==> PageLeft(w) == {})
    && (w.stage.AtPage? ==> !w.failed)
    && (w.stage.AtEnd? ==> Left(w) == {})
    && (w.page.Some? ==> w.page.value.Page?) && (w.server.Some? ==> w.server.value.Server?)
  }

  /** The projects that hold a start, a session, a closing or a cleanup record. */
  function Holding(t: Tables): set<Project> {
    t.projectSessions.Keys + t.projectStarts.Keys + t.partials.Keys
  }

  /** The tables fit together. */
  ghost predicate Ordered(t: Tables) {
    && OnePerProject(t.sessions, t.closing, t.projectSessions)
    && Reserved(t.startTasks, t.projectStarts, t.partials.Keys)
    && Exclusive(t.projectSessions.Keys, t.projectStarts.Keys, t.partials.Keys)
    && StartsAlive(t.starts, t.sessions) && SweepsHonest(t.closing, t.partials)
  }

  ghost predicate Sound(s: State) {
    Owned(s.tables, s.held) && Ordered(s.tables) && |Holding(s.tables)| <= MAX_SESSIONS
  }

  // What each step does to the owners.

  ghost predicate Reservations(t: Tables) {
    Reserved(t.startTasks, t.projectStarts, t.partials.Keys)
  }

  lemma NoCleanupYet(t: Tables, key: StartKey)
    requires Reservations(t) && key in t.startTasks && !t.startTasks[key].phase.Waiting?
    ensures key.project !in t.partials
    ensures key.project in t.projectStarts && t.projectStarts[key.project] == key
  {
  }

  lemma FailMovesResources(s: State, key: StartKey)
    requires Owned(s.tables, s.held) && Reservations(s.tables)
    ensures Owned(AfterFail(s, key).tables, s.held) && AfterFail(s, key).held == s.held
  {
    hide Owned, Reservations, Owns, Unreserved;
    var t := s.tables;
    if key in t.startTasks && !t.startTasks[key].phase.Waiting? {
      var start := t.startTasks[key];
      NoCleanupYet(t, key);
      if start.page.None? && start.server.None? {
        BareStartEnds(t, key);
        DropKeepsOwned(t, Unreserved(t, key), s.held, OfStart(key), {});
        assert s.held - {} == s.held;
      } else {
        CleanupTakesOver(t, key, start.(phase := Waiting, page := None, server := None));
        MoveKeepsOwned(t, AfterFail(s, key).tables, s.held, OfStart(key), OfPartial(key.project));
      }
    }
  }

  lemma BareStartEnds(t: Tables, key: StartKey)
    requires key in t.startTasks && t.startTasks[key].page.None? && t.startTasks[key].server.None?
    ensures forall p :: Owns(Unreserved(t, key), p) == Owns(t, p)
  {
    hide Left;
  }

  lemma CleanupTakesOver(t: Tables, key: StartKey, start: Start)
    requires key in t.startTasks && key.project !in t.partials && start.page.None? && start.server.None?
    ensures var sweep := Sweep(t.startTasks[key].page, t.startTasks[key].server, false, false, AtPage, false);
      var u := t.(startTasks := t.startTasks[key := start], partials := t.partials[key.project := sweep]);
      && Owns(t, OfPartial(key.project)) == {} && Owns(u, OfStart(key)) == {}
      && Owns(u, OfPartial(key.project)) == Owns(t, OfStart(key))
      && forall p :: p != OfStart(key) && p != OfPartial(key.project) ==> Owns(u, p) == Owns(t, p)
  {
    hide Left, Optional;
    EverythingIsLeft(t.startTasks[key].page, t.startTasks[key].server);
  }

  lemma EverythingIsLeft(page: Option<Resource>, server: Option<Resource>)
    ensures Left(Sweep(page, server, false, false, AtPage, false)) == Optional(server) + Optional(page)
    ensures Optional(None) + Optional(None) == {}
  {
  }

  lemma CommitMovesResources(s: State, key: StartKey, id: SessionId)
    requires Owned(s.tables, s.held) && Reservations(s.tables)
    ensures Owned(AfterCommit(s, key, id).tables, s.held) && AfterCommit(s, key, id).held == s.held
  {
    hide Owned, Reservations, AfterFail, Current;
    var t, v := s.tables, AfterCommit(s, key, id);
    FailMovesResources(s, key);
    if Registers(s, key, id) {
      MoveKeepsOwned(t, v.tables, s.held, OfStart(key), OfSession(id));
    }
  }

  predicate Registers(s: State, key: StartKey, id: SessionId) {
    && StartAt(s, key, Ready) && id !in s.tables.sessions && id !in s.tables.closing
    && s.tables.startTasks[key].page.Some? && s.tables.startTasks[key].server.Some? && Current(s, s.tables.startTasks[key])
    && key.project in s.tables.projectStarts && s.tables.projectStarts[key.project] == key
  }

  // What each step does to the tables.

  function Without(t: Tables, key: StartKey): Tables {
    t.(startTasks := t.startTasks - {key}, projectStarts := t.projectStarts - {key.project})
  }

  lemma ReservationIsOurs(t: Tables, key: StartKey)
    requires Reservations(t) && key in t.startTasks
    ensures Unreserved(t, key) == Without(t, key)
  {
    hide StartShape;
  }

  lemma ReservedWithout(starts: map<StartKey, Start>, reserved: map<Project, StartKey>, cleanups: set<Project>,
                        key: StartKey)
    requires Reserved(starts, reserved, cleanups) && key in starts
    ensures Reserved(starts - {key}, reserved - {key.project}, cleanups)
  {
    hide StartShape;
  }

  lemma ReservationGoes(t: Tables, key: StartKey)
    requires Ordered(t) && key in t.startTasks
    ensures Ordered(Unreserved(t, key)) && Holding(Unreserved(t, key)) <= Holding(t)
  {
    hide OnePerProject, StartsAlive, SweepsHonest, Reserved, Unreserved;
    assert Reservations(t);
    ReservationIsOurs(t, key);
    ReservedWithout(t.startTasks, t.projectStarts, t.partials.Keys, key);
    assert (t.projectStarts - {key.project}).Keys <= t.projectStarts.Keys;
  }

  lemma CleanupCreated(t: Tables, key: StartKey, start: Start, sweep: Sweep)
    requires Ordered(t) && key in t.startTasks && start.phase.Waiting? && StartShape(start) && HonestSweep(sweep)
    ensures var u := t.(startTasks := t.startTasks[key := start], partials := t.partials[key.project := sweep]);
      Ordered(u) && Holding(u) <= Holding(t)
  {
    hide OnePerProject, StartsAlive, StartShape, HonestSweep;
  }

  lemma FailKeepsOrder(s: State, key: StartKey)
    requires Ordered(s.tables)
    ensures var u := AfterFail(s, key); Ordered(u.tables) && Holding(u.tables) <= Holding(s.tables)
  {
    hide Ordered, Holding, Unreserved;
    var t := s.tables;
    if key in t.startTasks && !t.startTasks[key].phase.Waiting? {
      var start := t.startTasks[key];
      ShapeOfStart(t, key);
      if start.page.None? && start.server.None? {
        ReservationGoes(t, key);
      } else {
        CleanupCreated(t, key, start.(phase := Waiting, page := None, server := None),
                       Sweep(start.page, start.server, false, false, AtPage, false));
      }
    }
  }

  lemma ShapeOfStart(t: Tables, key: StartKey)
    requires Ordered(t) && key in t.startTasks
    ensures StartShape(t.startTasks[key])
  {
    hide OnePerProject, StartsAlive, SweepsHonest, StartShape;
  }

  lemma StartMovesOn(s: State, key: StartKey, start: Start)
    requires Ordered(s.tables) && key in s.tables.startTasks && StartShape(start) && !s.tables.startTasks[key].phase.Waiting?
    ensures Ordered(WithStart(s, key, start).tables) && Holding(WithStart(s, key, start).tables) == Holding(s.tables)
  {
    hide OnePerProject, StartsAlive, SweepsHonest, StartShape;
  }

  /** The start becomes a session. */
  lemma SessionRegistered(t: Tables, key: StartKey, id: SessionId, session: Session, digest: string)
    requires Ordered(t) && key in t.startTasks && !t.startTasks[key].phase.Waiting?
    requires id !in t.sessions && id !in t.closing
    requires session.project == key.project && session.page.Page? && session.server.Server?
    ensures var u := t.(sessions := t.sessions[id := session], projectSessions := t.projectSessions[key.project := id],
                        starts := t.starts[key := (digest, id)]);
      Ordered(Unreserved(u, key)) && Holding(Unreserved(u, key)) <= Holding(t)
  {
    hide SweepsHonest, Reserved, Unreserved, OnePerProject, StartsAlive;
    var u := t.(sessions := t.sessions[id := session], projectSessions := t.projectSessions[key.project := id],
                starts := t.starts[key := (digest, id)]);
    assert Reservations(t) && Reservations(u);
    ReservationIsOurs(u, key);
    NoCleanupYet(t, key);
    ReservedWithout(t.startTasks, t.projectStarts, t.partials.Keys, key);
    SessionJoins(t.sessions, t.closing, t.projectSessions, id, session);
    StartAnswered(t.starts, t.sessions, key, digest, id, session);
    assert u.projectSessions.Keys == t.projectSessions.Keys + {key.project};
    assert (t.projectStarts - {key.project}).Keys == t.projectStarts.Keys - {key.project};
  }

  lemma SessionJoins(sessions: Sessions, closing: Closings, current: map<Project, SessionId>, id: SessionId,
                     session: Session)
    requires OnePerProject(sessions, closing, current) && id !in sessions && id !in closing
    requires session.project !in current && session.page.Page? && session.server.Server?
    ensures OnePerProject(sessions[id := session], closing, current[session.project := id])
  {
  }

  lemma StartAnswered(starts: map<StartKey, (string, SessionId)>, sessions: Sessions, key: StartKey, digest: string,
                      id: SessionId, session: Session)
    requires StartsAlive(starts, sessions)
    ensures StartsAlive(starts[key := (digest, id)], sessions[id := session])
  {
  }

  // Every step keeps the manager sound.

  lemma BoundKept(t: Tables, u: Tables)
    requires Holding(u) <= Holding(t)
    ensures |Holding(u)| <= |Holding(t)|
  {
    hide Holding;
    assert Holding(t) == Holding(u) + (Holding(t) - Holding(u));
  }

  lemma FailKeepsSound(s: State, key: StartKey)
    requires Sound(s)
    ensures Sound(AfterFail(s, key))
  {
    hide Owned, Ordered, Holding, AfterFail;
    assert Reservations(s.tables) by { OrderedReserves(s.tables); }
    FailMovesResources(s, key);
    FailKeepsOrder(s, key);
    BoundKept(s.tables, AfterFail(s, key).tables);
  }

  lemma OrderedReserves(t: Tables)
    requires Ordered(t)
    ensures Reservations(t)
  {
    hide OnePerProject, StartsAlive, SweepsHonest, Reserved;
  }

  lemma EndStartKeepsSound(s: State, key: StartKey)
    requires Sound(s)
    ensures Sound(AfterEndStart(s, key))
  {
    hide Owned, Ordered, Holding, Unreserved, Owns, StartShape;
    var t, u := s.tables, AfterEndStart(s, key).tables;
    if StartAt(s, key, Waiting) {
      ShapeOfStart(t, key);
      assert StartShape(t.startTasks[key]) && t.startTasks[key].phase.Waiting?;
      WaitingHasNothing(t.startTasks[key]);
      BareStartEnds(t, key);
      DropKeepsOwned(t, u, s.held, OfStart(key), {});
      assert s.held - {} == s.held;
      ReservationGoes(t, key);
      BoundKept(t, u);
    }
  }

  lemma WaitingHasNothing(start: Start)
    requires StartShape(start) && start.phase.Waiting?
    ensures start.page.None? && start.server.None?
  {
  }

  lemma GainedKeepsSound(s: State, key: StartKey, start: Start, r: Resource)
    requires Sound(s) && key in s.tables.startTasks && !s.tables.startTasks[key].phase.Waiting?
    requires StartShape(start) && r !in s.held
    requires Optional(start.server) + Optional(start.page)
      == Optional(s.tables.startTasks[key].server) + Optional(s.tables.startTasks[key].page) + {r}
    ensures Sound(Gained(s, key, start, r))
  {
    hide Owned, Ordered, Holding, StartShape, AfterFail;
    var u := WithStart(s.(held := s.held + {r}), key, start);
    assert u.tables == WithStart(s, key, start).tables;
    StartMovesOn(s, key, start);
    GainKeepsOwned(s.tables, u.tables, s.held, OfStart(key), r);
    FailKeepsSound(u, key);
  }

  lemma AcquireKeepsSound(s: State, key: StartKey, server: Option<nat>)
    requires Sound(s)
    ensures Sound(AfterAcquire(s, key, server))
  {
    hide Sound, Gained, AfterFail;
    FailKeepsSound(s, key);
    if StartAt(s, key, Asking) && server.Some? && Server(server.value) !in s.held {
      assert StartShape(s.tables.startTasks[key]) by { ShapeInSound(s, key); }
      var r := Server(server.value);
      GainedKeepsSound(s, key, s.tables.startTasks[key].(phase := Serving, server := Some(r)), r);
    }
  }

  lemma ShapeInSound(s: State, key: StartKey)
    requires Sound(s) && key in s.tables.startTasks
    ensures StartShape(s.tables.startTasks[key])
  {
    hide Owned, Ordered, Holding, StartShape;
    ShapeOfStart(s.tables, key);
  }

  lemma OpenPageKeepsSound(s: State, key: StartKey, page: Option<nat>)
    requires Sound(s)
    ensures Sound(AfterOpenPage(s, key, page))
  {
    hide Sound, Gained, AfterFail;
    FailKeepsSound(s, key);
    if StartAt(s, key, Serving) && page.Some? && Page(page.value) !in s.held {
      assert StartShape(s.tables.startTasks[key]) by { ShapeInSound(s, key); }
      var r := Page(page.value);
      GainedKeepsSound(s, key, s.tables.startTasks[key].(phase := Ready, page := Some(r)), r);
    }
  }

  lemma CommitKeepsSound(s: State, key: StartKey, id: SessionId)
    requires Sound(s)
    ensures Sound(AfterCommit(s, key, id))
  {
    hide Owned, Ordered, Holding, Unreserved, AfterFail, Current;
    var t, u := s.tables, AfterCommit(s, key, id);
    FailKeepsSound(s, key);
    assert Reservations(t) by { OrderedReserves(t); }
    CommitMovesResources(s, key, id);
    if Registers(s, key, id) {
      ShapeInSound(s, key);
      var start := t.startTasks[key];
      var session := Session(key.project, key.grant, key.link, start.epoch, start.server.value, start.page.value);
      SessionRegistered(t, key, id, session, start.digest);
      BoundKept(t, u.tables);
    }
  }

  // Starting a session.

  /** Two projects never share a record, so there are no more projects than records. */
  lemma {:induction false} NoMoreProjectsThanRecords(current: map<Project, SessionId>, records: set<SessionId>)
    requires forall p :: p in current ==> current[p] in records
    requires forall p, q :: p in current && q in current && current[p] == current[q] ==> p == q
    ensures |current| <= |records|
  {
    if current != map[] {
      var p :| p in current;
      NoMoreProjectsThanRecords(current - {p}, records - {current[p]});
      assert |current - {p}| == |current| - 1 by {
        assert (current - {p}).Keys == current.Keys - {p};
      }
    }
  }

  lemma RoomForOneMore(t: Tables, p: Project)
    requires OnePerProject(t.sessions, t.closing, t.projectSessions) && !Full(t)
    ensures |Holding(t) + {p}| <= MAX_SESSIONS
  {
    NoMoreProjectsThanRecords(t.projectSessions, t.sessions.Keys + t.closing.Keys);
    UnionBound(t.sessions.Keys, t.closing.Keys);
    UnionBound(t.projectSessions.Keys, t.projectStarts.Keys);
    UnionBound(t.projectSessions.Keys + t.projectStarts.Keys, t.partials.Keys);
    UnionBound(Holding(t), {p});
  }

  lemma UnionBound<T>(a: set<T>, b: set<T>)
    ensures |a + b| <= |a| + |b|
  {
    assert a + b == a + (b - a);
    assert b == (b - a) + (b * a);
  }

  lemma LaunchKeepsOrder(t: Tables, key: StartKey, start: Start)
    requires Ordered(t) && key !in t.startTasks && !Busy(t, key.project)
    requires start.phase.Asking? && start.server.None? && start.page.None?
    ensures var u := t.(startTasks := t.startTasks[key := start], projectStarts := t.projectStarts[key.project := key]);
      Ordered(u) && Holding(u) == Holding(t) + {key.project}
  {
    hide OnePerProject, StartsAlive, SweepsHonest;
  }

  lemma LaunchKeepsOwners(t: Tables, key: StartKey, start: Start)
    requires key !in t.startTasks && start.server.None? && start.page.None?
    ensures var u := t.(startTasks := t.startTasks[key := start], projectStarts := t.projectStarts[key.project := key]);
      forall o :: Owns(u, o) == Owns(t, o)
  {
    hide Left;
  }

  lemma SameOwnersOwned(t: Tables, u: Tables, held: set<Resource>)
    requires Owned(t, held) && forall o :: Owns(u, o) == Owns(t, o)
    ensures Owned(u, held)
  {
    hide Owns;
    forall r | r in held ensures exists o :: r in Owns(u, o) {
      var o :| r in Owns(t, o);
      assert r in Owns(u, o);
    }
  }

  lemma AnswerKeepsOrder(t: Tables, key: StartKey, digest: string, id: SessionId, epoch: nat)
    requires Ordered(t) && id in t.sessions
    ensures var u := t.(sessions := t.sessions[id := t.sessions[id].(epoch := epoch)], starts := t.starts[key := (digest, id)]);
      Ordered(u) && Holding(u) == Holding(t)
  {
    hide Reserved, SweepsHonest;
  }

  lemma AnswerKeepsOwners(t: Tables, key: StartKey, digest: string, id: SessionId, epoch: nat)
    requires id in t.sessions
    ensures var u := t.(sessions := t.sessions[id := t.sessions[id].(epoch := epoch)], starts := t.starts[key := (digest, id)]);
      forall o :: Owns(u, o) == Owns(t, o)
  {
    hide Left;
  }

  lemma AnswersLiveSession(s: State, key: StartKey, digest: string, epoch: nat, fit: bool)
    ensures StartReplyTo(s, key, digest, epoch, fit).Running? ==>
      StartReplyTo(s, key, digest, epoch, fit).id in s.tables.sessions
    ensures StartReplyTo(s, key, digest, epoch, fit).Launched? ==>
      key !in s.tables.startTasks && !Busy(s.tables, key.project) && !Full(s.tables) && !s.shutdown
  {
    hide Full, Busy, Matches;
  }

  lemma StartRequestKeepsSound(s: State, key: StartKey, digest: string, epoch: nat, fit: bool)
    requires Sound(s)
    ensures Sound(AfterStartRequest(s, key, digest, epoch, fit))
  {
    hide Owned, Ordered, Holding, StartReplyTo, Full, Busy;
    var t, u := s.tables, AfterStartRequest(s, key, digest, epoch, fit).tables;
    AnswersLiveSession(s, key, digest, epoch, fit);
    match StartReplyTo(s, key, digest, epoch, fit)
    case Running(id) =>
      AnswerKeepsOrder(t, key, digest, id, epoch);
      AnswerKeepsOwners(t, key, digest, id, epoch);
      SameOwnersOwned(t, u, s.held);
    case Launched =>
      var start := Start(digest, s.generation, epoch, Asking, None, None);
      LaunchKeepsOrder(t, key, start);
      LaunchKeepsOwners(t, key, start);
      SameOwnersOwned(t, u, s.held);
      assert OnePerProject(t.sessions, t.closing, t.projectSessions) by { OrderedIsOnePerProject(t); }
      RoomForOneMore(t, key.project);
    case _ =>
  }

  lemma OrderedIsOnePerProject(t: Tables)
    requires Ordered(t)
    ensures OnePerProject(t.sessions, t.closing, t.projectSessions)
  {
    hide StartsAlive, SweepsHonest, Reserved, OnePerProject;
  }

  // Closing a session and cleaning up after a start.

  lemma PageStep(w: Sweep, ok: bool)
    requires HonestSweep(w) && w.stage.AtPage?
    ensures HonestSweep(PageSwept(w, ok))
    ensures Left(PageSwept(w, ok)) == Left(w) - (if ok then PageLeft(w) else {})
  {
  }

  lemma ServerStep(w: Sweep, ok: bool)
    requires HonestSweep(w) && w.stage.AtServer?
    ensures HonestSweep(ServerSwept(w, ok))
    ensures Left(ServerSwept(w, ok)) == Left(w) - (if ok then ServerLeft(w) else {})
  {
  }

  lemma RestartStep(w: Sweep)
    requires HonestSweep(w) && w.stage.Failed?
    ensures HonestSweep(Restarted(w)) && Left(Restarted(w)) == Left(w)
  {
  }

  /** A closing record goes on, and what it has closed is gone. */
  lemma ClosingKeepsSound(s: State, id: SessionId, w: Sweep, gone: set<Resource>)
    requires Sound(s) && id in s.tables.closing && HonestSweep(w)
    requires gone <= Left(s.tables.closing[id].sweep) && Left(w) == Left(s.tables.closing[id].sweep) - gone
    ensures Sound(WithClosing(s.(held := s.held - gone), id, w))
  {
    hide Owned, Ordered, Left, HonestSweep;
    var t, u := s.tables, WithClosing(s, id, w).tables;
    assert u == WithClosing(s.(held := s.held - gone), id, w).tables;
    DropKeepsOwned(t, u, s.held, OfClosing(id), gone);
    ClosingKeepsOrder(t, id, w);
  }

  lemma ClosingKeepsOrder(t: Tables, id: SessionId, w: Sweep)
    requires Ordered(t) && id in t.closing && HonestSweep(w)
    ensures Ordered(t.(closing := t.closing[id := t.closing[id].(sweep := w)]))
  {
    hide Reserved, StartsAlive, HonestSweep;
  }

  lemma PartialKeepsSound(s: State, project: Project, w: Sweep, gone: set<Resource>)
    requires Sound(s) && project in s.tables.partials && HonestSweep(w)
    requires gone <= Left(s.tables.partials[project]) && Left(w) == Left(s.tables.partials[project]) - gone
    ensures Sound(WithPartial(s.(held := s.held - gone), project, w))
  {
    hide Owned, Ordered, Left, HonestSweep, Holding, Owns;
    var t, u := s.tables, WithPartial(s, project, w).tables;
    assert u == WithPartial(s.(held := s.held - gone), project, w).tables;
    PartialKeepsOwners(t, project, w);
    DropKeepsOwned(t, u, s.held, OfPartial(project), gone);
    PartialKeepsOrder(t, project, w);
  }

  lemma PartialKeepsOwners(t: Tables, project: Project, w: Sweep)
    requires project in t.partials
    ensures var u := t.(partials := t.partials[project := w]);
      && Owns(t, OfPartial(project)) == Left(t.partials[project]) && Owns(u, OfPartial(project)) == Left(w)
      && forall p :: p != OfPartial(project) ==> Owns(u, p) == Owns(t, p)
  {
    hide Left;
  }

  lemma PartialKeepsOrder(t: Tables, project: Project, w: Sweep)
    requires Ordered(t) && project in t.partials && HonestSweep(w)
    ensures var u := t.(partials := t.partials[project := w]); Ordered(u) && Holding(u) == Holding(t)
  {
    hide OnePerProject, StartsAlive, Reserved, HonestSweep;
    assert t.partials[project := w].Keys == t.partials.Keys;
  }

  lemma SweepsInSound(s: State)
    requires Sound(s)
    ensures SweepsHonest(s.tables.closing, s.tables.partials)
  {
    hide OnePerProject, StartsAlive, Reserved, HonestSweep, SweepsHonest, Owned;
  }

  lemma NothingGone(s: State)
    ensures s.(held := s.held - {}) == s
  {
    assert s.held - {} == s.held;
  }

  lemma ClosePageKeepsSound(s: State, id: SessionId, ok: bool)
    requires Sound(s)
    ensures Sound(AfterClosePage(s, id, ok))
  {
    hide Sound, HonestSweep, PageSwept, PageLeft, ServerLeft, WithClosing;
    SweepsInSound(s);
    NothingGone(s);
    if ClosingAt(s, id, AtPage) {
      var w := s.tables.closing[id].sweep;
      PageStep(w, ok);
      ClosingKeepsSound(s, id, PageSwept(w, ok), if ok then PageLeft(w) else {});
    }
  }

  lemma ReleaseServerKeepsSound(s: State, id: SessionId, ok: bool)
    requires Sound(s)
    ensures Sound(AfterReleaseServer(s, id, ok))
  {
    hide Sound, HonestSweep, ServerSwept, PageLeft, ServerLeft, WithClosing;
    SweepsInSound(s);
    NothingGone(s);
    if ClosingAt(s, id, AtServer) {
      var w := s.tables.closing[id].sweep;
      ServerStep(w, ok);
      ClosingKeepsSound(s, id, ServerSwept(w, ok), if ok then ServerLeft(w) else {});
    }
  }

  lemma CleanPageKeepsSound(s: State, project: Project, ok: bool)
    requires Sound(s)
    ensures Sound(AfterCleanPage(s, project, ok))
  {
    hide Sound, HonestSweep, PageSwept, PageLeft, ServerLeft, WithPartial;
    SweepsInSound(s);
    NothingGone(s);
    if CleaningAt(s, project, AtPage) {
      var w := s.tables.partials[project];
      PageStep(w, ok);
      PartialKeepsSound(s, project, PageSwept(w, ok), if ok then PageLeft(w) else {});
    }
  }

  lemma CleanServerKeepsSound(s: State, project: Project, ok: bool)
    requires Sound(s)
    ensures Sound(AfterCleanServer(s, project, ok))
  {
    hide Sound, HonestSweep, ServerSwept, PageLeft, ServerLeft, WithPartial;
    SweepsInSound(s);
    NothingGone(s);
    if CleaningAt(s, project, AtServer) {
      var w := s.tables.partials[project];
      ServerStep(w, ok);
      PartialKeepsSound(s, project, ServerSwept(w, ok), if ok then ServerLeft(w) else {});
    }
  }

  lemma RetryCleanKeepsSound(s: State, project: Project)
    requires Sound(s)
    ensures Sound(AfterRetryClean(s, project))
  {
    hide Sound, HonestSweep, Restarted, Left, WithPartial;
    SweepsInSound(s);
    NothingGone(s);
    if CleaningAt(s, project, Failed) {
      var w := s.tables.partials[project];
      RestartStep(w);
      PartialKeepsSound(s, project, Restarted(w), {});
    }
  }

  lemma FinishCleanKeepsSound(s: State, project: Project)
    requires Sound(s)
    ensures Sound(AfterFinishClean(s, project))
  {
    hide Owned, Ordered, Left, HonestSweep, Holding, Owns;
    SweepsInSound(s);
    if CleaningAt(s, project, AtEnd) {
      var t, u := s.tables, AfterFinishClean(s, project).tables;
      assert Left(t.partials[project]) == {} by { EndIsEmpty(t.partials[project]); }
      CleanedKeepsOwners(t, project);
      SameOwnersOwned(t, u, s.held);
      CleanedKeepsOrder(t, project);
      BoundKept(t, u);
    }
  }

  lemma EndIsEmpty(w: Sweep)
    requires HonestSweep(w) && w.stage.AtEnd?
    ensures Left(w) == {}
  {
  }

  lemma CleanedKeepsOwners(t: Tables, project: Project)
    requires project in t.partials && Left(t.partials[project]) == {}
    ensures forall o :: Owns(t.(partials := t.partials - {project}), o) == Owns(t, o)
  {
    hide Left;
  }

  lemma CleanedKeepsOrder(t: Tables, project: Project)
    requires Ordered(t) && project in t.partials
    ensures var u := t.(partials := t.partials - {project}); Ordered(u) && Holding(u) <= Holding(t)
  {
    hide OnePerProject, StartsAlive, HonestSweep, StartShape;
    assert (t.partials - {project}).Keys == t.partials.Keys - {project};
  }

  lemma FinishCloseKeepsSound(s: State, id: SessionId)
    requires Sound(s)
    ensures Sound(AfterFinishClose(s, id))
  {
    hide Owned, Ordered, Left, HonestSweep, Holding, Owns;
    SweepsInSound(s);
    if ClosingAt(s, id, AtEnd) {
      var t, u := s.tables, AfterFinishClose(s, id).tables;
      assert Left(t.closing[id].sweep) == {} by { EndIsEmpty(t.closing[id].sweep); }
      OrderedIsOnePerProject(t);
      var project := t.closing[id].session.project;
      assert Points(t.projectSessions, project, id) by { ClosingPoints(t, id); }
      assert u == t.(closing := t.closing - {id}, projectSessions := t.projectSessions - {project});
      ClosedKeepsOwners(t, id, project);
      SameOwnersOwned(t, u, s.held);
      ClosedKeepsOrder(t, id);
      BoundKept(t, u);
    }
  }

  lemma ClosingPoints(t: Tables, id: SessionId)
    requires OnePerProject(t.sessions, t.closing, t.projectSessions) && id in t.closing
    ensures Points(t.projectSessions, t.closing[id].session.project, id)
  {
  }

  lemma ClosedKeepsOwners(t: Tables, id: SessionId, project: Project)
    requires id in t.closing && Left(t.closing[id].sweep) == {}
    ensures forall o :: Owns(t.(closing := t.closing - {id}, projectSessions := t.projectSessions - {project}), o) == Owns(t, o)
  {
    hide Left;
  }

  lemma ClosedKeepsOrder(t: Tables, id: SessionId)
    requires Ordered(t) && id in t.closing
    ensures var u := t.(closing := t.closing - {id}, projectSessions := t.projectSessions - {t.closing[id].session.project});
      Ordered(u) && Holding(u) <= Holding(t)
  {
    hide StartsAlive, HonestSweep, Reserved, OnePerProject;
    SessionLeaves(t.sessions, t.closing, t.projectSessions, id);
    var project := t.closing[id].session.project;
    assert (t.projectSessions - {project}).Keys == t.projectSessions.Keys - {project};
  }

  lemma SessionLeaves(sessions: Sessions, closing: Closings, current: map<Project, SessionId>, id: SessionId)
    requires OnePerProject(sessions, closing, current) && id in closing
    ensures OnePerProject(sessions, closing - {id}, current - {closing[id].session.project})
  {
  }

  lemma BeginCloseKeepsSound(s: State, id: SessionId)
    requires Sound(s)
    ensures Sound(AfterBeginClose(s, id))
  {
    hide Owned, Ordered, Left, HonestSweep, Holding, Owns, Restarted;
    SweepsInSound(s);
    NothingGone(s);
    var t, u := s.tables, AfterBeginClose(s, id).tables;
    if id in t.sessions {
      OrderedIsOnePerProject(t);
      SessionIsNotClosing(t, id);
      SessionHandsOver(t, id);
      MoveKeepsOwned(t, u, s.held, OfSession(id), OfClosing(id));
      HandOverKeepsOrder(t, id);
    } else if id in t.closing && t.closing[id].sweep.stage.Failed? {
      var w := t.closing[id].sweep;
      RestartStep(w);
      ClosingKeepsSound(s, id, Restarted(w), {});
    }
  }

  lemma SessionIsNotClosing(t: Tables, id: SessionId)
    requires OnePerProject(t.sessions, t.closing, t.projectSessions) && id in t.sessions
    ensures id !in t.closing
  {
  }

  function HandedOver(t: Tables, id: SessionId): Tables
    requires id in t.sessions
  {
    var session := t.sessions[id];
    t.(sessions := t.sessions - {id},
       starts := map k | k in t.starts && t.starts[k].1 != id :: t.starts[k],
       closing := t.closing[id := Closing(session, Sweep(Some(session.page), Some(session.server), false, false, AtPage, false))])
  }

  lemma SessionHandsOver(t: Tables, id: SessionId)
    requires id in t.sessions && id !in t.closing
    ensures var u := HandedOver(t, id);
      && Owns(t, OfClosing(id)) == {} && Owns(u, OfSession(id)) == {} && Owns(u, OfClosing(id)) == Owns(t, OfSession(id))
      && forall p :: p != OfSession(id) && p != OfClosing(id) ==> Owns(u, p) == Owns(t, p)
  {
    hide Left;
    EverythingIsLeft(Some(t.sessions[id].page), Some(t.sessions[id].server));
  }

  lemma HandOverKeepsOrder(t: Tables, id: SessionId)
    requires Ordered(t) && id in t.sessions
    ensures Ordered(HandedOver(t, id)) && Holding(HandedOver(t, id)) == Holding(t)
  {
    hide Reserved, OnePerProject, StartsAlive, HonestSweep;
    var session := t.sessions[id];
    var sweep := Sweep(Some(session.page), Some(session.server), false, false, AtPage, false);
    SessionStartsClosing(t.sessions, t.closing, t.projectSessions, id, sweep);
    StartsForgotten(t.starts, t.sessions, id);
    assert HonestSweep(sweep) by { NewSweepIsHonest(session); OrderedIsOnePerProject(t); SessionKinds(t, id); }
  }

  lemma SessionStartsClosing(sessions: Sessions, closing: Closings, current: map<Project, SessionId>, id: SessionId,
                             sweep: Sweep)
    requires OnePerProject(sessions, closing, current) && id in sessions
    ensures OnePerProject(sessions - {id}, closing[id := Closing(sessions[id], sweep)], current)
  {
  }

  lemma StartsForgotten(starts: map<StartKey, (string, SessionId)>, sessions: Sessions, id: SessionId)
    requires StartsAlive(starts, sessions)
    ensures StartsAlive(map k | k in starts && starts[k].1 != id :: starts[k], sessions - {id})
  {
  }

  lemma SessionKinds(t: Tables, id: SessionId)
    requires OnePerProject(t.sessions, t.closing, t.projectSessions) && id in t.sessions
    ensures t.sessions[id].page.Page? && t.sessions[id].server.Server?
  {
  }

  lemma NewSweepIsHonest(session: Session)
    ensures session.page.Page? && session.server.Server? ==>
      HonestSweep(Sweep(Some(session.page), Some(session.server), false, false, AtPage, false))
  {
  }

  lemma NextKeepsSound(s: State, e: Event)
    requires Sound(s)
    ensures Sound(Next(s, e))
  {
    hide Owned, Ordered, Holding, AfterStartRequest, AfterAcquire, AfterOpenPage, AfterCommit, AfterFail,
         AfterEndStart, AfterBeginClose, AfterClosePage, AfterReleaseServer, AfterFinishClose, AfterCleanPage,
         AfterCleanServer, AfterFinishClean, AfterRetryClean;
    match e
    case StartRequest(key, digest, epoch, fit) => StartRequestKeepsSound(s, key, digest, epoch, fit);
    case Acquire(key, server) => AcquireKeepsSound(s, key, server);
    case OpenPage(key, page) => OpenPageKeepsSound(s, key, page);
    case Commit(key, id) => CommitKeepsSound(s, key, id);
    case Fail(key) => FailKeepsSound(s, key);
    case EndStart(key) => EndStartKeepsSound(s, key);
    case BeginClose(id) => BeginCloseKeepsSound(s, id);
    case ClosePage(id, ok) => ClosePageKeepsSound(s, id, ok);
    case ReleaseServer(id, ok) => ReleaseServerKeepsSound(s, id, ok);
    case FinishClose(id) => FinishCloseKeepsSound(s, id);
    case CleanPage(project, ok) => CleanPageKeepsSound(s, project, ok);
    case CleanServer(project, ok) => CleanServerKeepsSound(s, project, ok);
    case FinishClean(project) => FinishCleanKeepsSound(s, project);
    case RetryClean(project) => RetryCleanKeepsSound(s, project);
    case CancelStarts(shutdown) =>
  }

  /** Over every run the manager is sound. */
  lemma {:induction false} EveryRunIsSound(events: seq<Event>)
    ensures Sound(Run(Initial(), events))
  {
    hide Next;
    if events != [] {
      EveryRunIsSound(events[..|events| - 1]);
      NextKeepsSound(Run(Initial(), events[..|events| - 1]), events[|events| - 1]);
    }
  }

  /** Conservation: whatever is held open has exactly one owner, which is a
    start, a session, a closing record or a cleanup, and no owner has more. */
  lemma HeldHasOneOwner(events: seq<Event>, r: Resource)
    ensures var s := Run(Initial(), events);
      && (r in s.held <==> exists o :: r in Owns(s.tables, o))
      && forall o, p :: r in Owns(s.tables, o) && r in Owns(s.tables, p) ==> o == p
  {
    hide Run, Initial, Owns, Ordered, Holding;
    EveryRunIsSound(events);
  }

  /** Exclusivity and capacity. */
  lemma ProjectsAreExclusive(events: seq<Event>, a: SessionId, b: SessionId)
    requires var t := Run(Initial(), events).tables;
      && (a in t.sessions || a in t.closing) && (b in t.sessions || b in t.closing)
      && ProjectOf(t, a) == ProjectOf(t, b)
    ensures a == b
    ensures var t := Run(Initial(), events).tables;
      && (a in t.sessions ==> a !in t.closing)
      && ProjectOf(t, a) !in t.projectStarts && ProjectOf(t, a) !in t.partials
    ensures |Holding(Run(Initial(), events).tables)| <= MAX_SESSIONS
  {
    hide Run, Initial, Owned, Reserved, StartsAlive, SweepsHonest;
    EveryRunIsSound(events);
  }

  function ProjectOf(t: Tables, id: SessionId): Project
    requires id in t.sessions || id in t.closing
  {
    if id in t.sessions then t.sessions[id].project else t.closing[id].session.project
  }

  /** After a shutdown there is never a new session or a new start. */
  ghost predicate OnlyWinds(s: State, u: State) {
    u.shutdown && u.tables.sessions.Keys <= s.tables.sessions.Keys && u.tables.startTasks.Keys <= s.tables.startTasks.Keys
  }

  lemma FailWinds(s: State, key: StartKey)
    requires s.shutdown
    ensures OnlyWinds(s, AfterFail(s, key))
  {
  }

  lemma StartsWind(s: State, e: Event)
    requires s.shutdown && (e.StartRequest? || e.Acquire? || e.OpenPage? || e.Commit? || e.Fail? || e.EndStart?)
    ensures OnlyWinds(s, Next(s, e))
  {
    hide AfterFail, Full, Busy, Recoverable;
    match e
    case Acquire(key, server) =>
      FailWinds(s, key);
      if StartAt(s, key, Asking) && server.Some? {
        var r := Server(server.value);
        FailWinds(WithStart(s.(held := s.held + {r}), key, s.tables.startTasks[key].(phase := Serving, server := Some(r))), key);
      }
    case OpenPage(key, page) =>
      FailWinds(s, key);
      if StartAt(s, key, Serving) && page.Some? {
        var r := Page(page.value);
        FailWinds(WithStart(s.(held := s.held + {r}), key, s.tables.startTasks[key].(phase := Ready, page := Some(r))), key);
      }
    case Commit(key, id) => FailWinds(s, key);
    case Fail(key) => FailWinds(s, key);
    case _ =>
  }

  lemma ClosingWinds(s: State, e: Event)
    requires s.shutdown && !(e.StartRequest? || e.Acquire? || e.OpenPage? || e.Commit? || e.Fail? || e.EndStart?)
    ensures OnlyWinds(s, Next(s, e))
  {
    hide PageSwept, ServerSwept, PageLeft, ServerLeft, Restarted;
  }

  lemma {:induction false} ShutdownIsFinal(s: State, events: seq<Event>)
    requires s.shutdown
    ensures OnlyWinds(s, Run(s, events))
  {
    hide Next;
    if events != [] {
      var u, e := Run(s, events[..|events| - 1]), events[|events| - 1];
      ShutdownIsFinal(s, events[..|events| - 1]);
      if e.StartRequest? || e.Acquire? || e.OpenPage? || e.Commit? || e.Fail? || e.EndStart? {
        StartsWind(u, e);
      } else {
        ClosingWinds(u, e);
      }
    }
  }
}
