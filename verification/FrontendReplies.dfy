/** What a start request is answered in any run, told by what the manager holds:
  whose session, under which request, and when a new start is launched. */
module FrontendReplies {
  import opened Wrappers
  import opened FrontendSessions
  import opened FrontendOwnership

  /** The session belongs to the key's project, grant and link. */
  predicate IsOwn(session: Session, key: StartKey) {
    session.project == key.project && session.grant == key.grant && session.link == key.link
  }

  /** The key stands for a session that was started or recovered under this digest. */
  predicate Remembers(t: Tables, key: StartKey, digest: string, id: SessionId) {
    key in t.starts && t.starts[key] == (digest, id)
  }

  predicate Starting(t: Tables, key: StartKey, digest: string) {
    key in t.startTasks && t.startTasks[key].digest == digest
  }

  ghost predicate KnownAs(t: Tables, key: StartKey, digest: string) {
    (exists id :: Remembers(t, key, digest, id)) || Starting(t, key, digest)
  }

  predicate Knows(t: Tables, key: StartKey) {
    key in t.starts || key in t.startTasks
  }

  /** A live session of the caller's project, that a newer connection may take over. */
  predicate TakesOver(t: Tables, key: StartKey, epoch: nat, id: SessionId) {
    id in t.sessions && IsOwn(t.sessions[id], key) && epoch > t.sessions[id].epoch
  }

  /** The project has a session, one that is closing, a start, or the cleanup of one. */
  ghost predicate Holds(t: Tables, project: Project) {
    || (exists id :: id in t.sessions && t.sessions[id].project == project)
    || (exists id :: id in t.closing && t.closing[id].session.project == project)
    || (exists key: StartKey :: key in t.startTasks && key.project == project)
    || project in t.partials
  }

  predicate Room(t: Tables) {
    |t.sessions| + |t.closing| + |t.projectStarts| + |t.partials| < 8
  }

  /** Every answer, and exactly when it is given. */
  ghost predicate Answers(s: State, key: StartKey, digest: string, epoch: nat, fit: bool, reply: StartReply) {
    var t := s.tables;
    match reply
    case Running(id) =>
      && !s.shutdown && fit
      && (|| (Remembers(t, key, digest, id) && id in t.sessions && epoch >= t.sessions[id].epoch)
          || (!Knows(t, key) && TakesOver(t, key, epoch, id)))
    case Joined => !s.shutdown && Starting(t, key, digest)
    case Launched => !s.shutdown && !Knows(t, key) && !Holds(t, key.project) && Room(t)
    case Refused(code) =>
      if s.shutdown then code == "frontend_session_closed"
      else if Knows(t, key) then
        if !KnownAs(t, key, digest) then code == "idempotency_conflict"
        else code == "session_unfit" && exists id ::
          Remembers(t, key, digest, id) && id in t.sessions && (!fit || epoch < t.sessions[id].epoch)
      else if exists id :: TakesOver(t, key, epoch, id) then code == "session_unfit" && !fit
      else if Holds(t, key.project) then code == "frontend_session_exists"
      else code == "too_many_sessions" && !Room(t)
  }

  /** Only one answer fits. */
  lemma AnswersOnce(s: State, key: StartKey, digest: string, epoch: nat, fit: bool, one: StartReply, two: StartReply)
    requires Sound(s) && Proper(s.tables)
    requires Answers(s, key, digest, epoch, fit, one) && Answers(s, key, digest, epoch, fit, two)
    ensures one == two
  {
    hide Owned, Holding, Room, Holds;
    var t := s.tables;
    forall id, other | TakesOver(t, key, epoch, id) && TakesOver(t, key, epoch, other) ensures id == other {
      OneSession(t, id, other);
    }
    if id :| TakesOver(t, key, epoch, id) {
      OwnIsHeld(t, key, epoch, id);
    }
  }

  lemma OwnIsHeld(t: Tables, key: StartKey, epoch: nat, id: SessionId)
    requires TakesOver(t, key, epoch, id)
    ensures Holds(t, key.project)
  {
  }

  lemma OneSession(t: Tables, id: SessionId, other: SessionId)
    requires Ordered(t) && id in t.sessions && other in t.sessions && t.sessions[id].project == t.sessions[other].project
    ensures id == other
  {
    hide Reserved, Exclusive, StartsAlive, SweepsHonest;
  }

  /** A remembered key belongs to its session's owner, and is no longer starting. */
  ghost predicate Proper(t: Tables) {
    && (forall key :: key in t.starts ==> t.starts[key].1 in t.sessions && IsOwn(t.sessions[t.starts[key].1], key))
    && (forall key :: key in t.startTasks ==> key !in t.starts)
  }

  lemma BusyIsHeld(t: Tables, project: Project)
    requires Ordered(t) && Busy(t, project)
    ensures Holds(t, project)
  {
    hide StartsAlive, SweepsHonest, StartShape;
    if project in t.projectStarts {
      var key := t.projectStarts[project];
      assert key in t.startTasks && key.project == project;
    } else if project in t.projectSessions {
      var id := t.projectSessions[project];
      assert (id in t.sessions && t.sessions[id].project == project)
        || (id in t.closing && t.closing[id].session.project == project);
    }
  }

  lemma HeldIsBusy(t: Tables, project: Project)
    requires Ordered(t) && Holds(t, project)
    ensures Busy(t, project)
  {
    hide StartsAlive, SweepsHonest, StartShape;
    if key: StartKey :| key in t.startTasks && key.project == project {
      assert project in t.projectStarts;
    } else if id :| id in t.sessions && t.sessions[id].project == project {
      assert Points(t.projectSessions, t.sessions[id].project, id);
    } else if id :| id in t.closing && t.closing[id].session.project == project {
      assert Points(t.projectSessions, t.closing[id].session.project, id);
    }
  }

  lemma HoldsMeans(t: Tables, project: Project)
    requires Ordered(t)
    ensures Busy(t, project) <==> Holds(t, project)
  {
    hide Ordered, Busy, Holds;
    if Busy(t, project) { BusyIsHeld(t, project); }
    if Holds(t, project) { HeldIsBusy(t, project); }
  }

  lemma TakesOverMeans(t: Tables, key: StartKey, epoch: nat)
    requires Ordered(t)
    ensures Recoverable(t, key, epoch) <==> exists id :: TakesOver(t, key, epoch, id)
    ensures Recoverable(t, key, epoch) ==> TakesOver(t, key, epoch, t.projectSessions[key.project])
  {
    hide Reserved, Exclusive, StartsAlive, SweepsHonest;
    if Recoverable(t, key, epoch) {
      assert TakesOver(t, key, epoch, t.projectSessions[key.project]);
    }
    if id :| TakesOver(t, key, epoch, id) {
      assert Points(t.projectSessions, t.sessions[id].project, id);
    }
  }

  /** What the manager answers is what its tables call for. */
  lemma ReplyMeans(s: State, key: StartKey, digest: string, epoch: nat, fit: bool)
    requires Sound(s) && Proper(s.tables)
    ensures Answers(s, key, digest, epoch, fit, StartReplyTo(s, key, digest, epoch, fit))
  {
    hide Owned, Holding, Ordered, Holds, Busy, Recoverable;
    var t := s.tables;
    assert Ordered(t);
    HoldsMeans(t, key.project);
    TakesOverMeans(t, key, epoch);
    if key in t.starts {
      assert Remembers(t, key, t.starts[key].0, t.starts[key].1);
    }
  }

  /** What an answer changes: a session handed out moves to the newer connection
    and is remembered under the key; a launched start has its request; every other
    answer changes nothing. */
  ghost predicate Effect(s: State, key: StartKey, digest: string, epoch: nat, reply: StartReply, u: State) {
    match reply
    case Running(id) =>
      && id in s.tables.sessions
      && u == s.(tables := s.tables.(sessions := s.tables.sessions[id := s.tables.sessions[id].(epoch := epoch)],
                                     starts := s.tables.starts[key := (digest, id)]))
    case Launched =>
      && Starting(u.tables, key, digest) && u.tables.startTasks[key].epoch == epoch
      && u.tables.startTasks[key].generation == s.generation && u.tables.startTasks[key].phase == Asking
      && u == s.(tables := s.tables.(startTasks := s.tables.startTasks[key := u.tables.startTasks[key]],
                                     projectStarts := s.tables.projectStarts[key.project := key]))
    case _ => u == s
  }

  lemma EffectMeans(s: State, key: StartKey, digest: string, epoch: nat, fit: bool)
    requires Sound(s) && Proper(s.tables)
    ensures Effect(s, key, digest, epoch, StartReplyTo(s, key, digest, epoch, fit),
                   AfterStartRequest(s, key, digest, epoch, fit))
  {
    hide Owned, Holding, Ordered, Busy, Recoverable, Full;
    if Recoverable(s.tables, key, epoch) { TakesOverMeans(s.tables, key, epoch); }
  }

  // Over runs

  lemma FailKeepsProper(s: State, key: StartKey)
    requires Proper(s.tables)
    ensures var u := AfterFail(s, key);
      Proper(u.tables) && u.tables.starts == s.tables.starts && u.tables.sessions == s.tables.sessions
  {
    hide Unreserved, IsOwn;
    var t := s.tables;
    if key in t.startTasks && !t.startTasks[key].phase.Waiting? {
      UnreservedKeepsProper(t, key);
    }
  }

  lemma UnreservedKeepsProper(t: Tables, key: StartKey)
    requires Proper(t)
    ensures var u := Unreserved(t, key);
      Proper(u) && u.starts == t.starts && u.sessions == t.sessions && u.startTasks == t.startTasks - {key}
  {
    hide IsOwn;
  }

  lemma GainedKeepsProper(s: State, key: StartKey, start: Start, r: Resource)
    requires Proper(s.tables) && key in s.tables.startTasks
    ensures Proper(Gained(s, key, start, r).tables)
  {
    hide AfterFail;
    var t := WithStart(s.(held := s.held + {r}), key, start);
    FailKeepsProper(t, key);
  }

  lemma StartStepKeepsProper(s: State, e: Event)
    requires Sound(s) && Proper(s.tables)
    requires e.Acquire? || e.OpenPage? || e.Fail? || e.EndStart?
    ensures Proper(Next(s, e).tables)
  {
    hide Sound, AfterFail, Gained;
    match e
    case Acquire(key, server) =>
      FailKeepsProper(s, key);
      if StartAt(s, key, Asking) && server.Some? {
        GainedKeepsProper(s, key, s.tables.startTasks[key].(phase := Serving, server := Some(Server(server.value))),
                          Server(server.value));
      }
    case OpenPage(key, page) =>
      FailKeepsProper(s, key);
      if StartAt(s, key, Serving) && page.Some? {
        GainedKeepsProper(s, key, s.tables.startTasks[key].(phase := Ready, page := Some(Page(page.value))),
                          Page(page.value));
      }
    case Fail(key) => FailKeepsProper(s, key);
    case EndStart(key) =>
  }

  lemma CommitKeepsProper(s: State, key: StartKey, id: SessionId)
    requires Proper(s.tables)
    ensures Proper(AfterCommit(s, key, id).tables)
  {
    hide AfterFail, Current;
    FailKeepsProper(s, key);
  }

  lemma RequestKeepsProper(s: State, key: StartKey, digest: string, epoch: nat, fit: bool)
    requires Sound(s) && Proper(s.tables)
    ensures Proper(AfterStartRequest(s, key, digest, epoch, fit).tables)
  {
    hide Sound, StartReplyTo, AfterStartRequest, Holds, Room;
    ReplyMeans(s, key, digest, epoch, fit);
    EffectMeans(s, key, digest, epoch, fit);
  }

  lemma BeginCloseKeepsProper(s: State, id: SessionId)
    requires Proper(s.tables)
    ensures Proper(AfterBeginClose(s, id).tables)
  {
  }

  lemma SweepKeepsProper(s: State, e: Event)
    requires e.ClosePage? || e.ReleaseServer? || e.FinishClose? || e.CleanPage? || e.CleanServer? || e.FinishClean?
      || e.RetryClean? || e.CancelStarts?
    ensures var t := Next(s, e).tables;
      t.starts == s.tables.starts && t.startTasks == s.tables.startTasks && t.sessions == s.tables.sessions
  {
    hide PageSwept, ServerSwept, PageLeft, ServerLeft, Restarted;
  }

  lemma NextKeepsProper(s: State, e: Event)
    requires Sound(s) && Proper(s.tables)
    ensures Proper(Next(s, e).tables)
  {
    hide Sound, AfterStartRequest, AfterAcquire, AfterOpenPage, AfterCommit, AfterFail,
         AfterEndStart, AfterBeginClose, AfterClosePage, AfterReleaseServer, AfterFinishClose, AfterCleanPage,
         AfterCleanServer, AfterFinishClean, AfterRetryClean;
    match e
    case StartRequest(key, digest, epoch, fit) => RequestKeepsProper(s, key, digest, epoch, fit);
    case Commit(key, id) => CommitKeepsProper(s, key, id);
    case BeginClose(id) => BeginCloseKeepsProper(s, id);
    case Acquire(key, server) => StartStepKeepsProper(s, e);
    case OpenPage(key, page) => StartStepKeepsProper(s, e);
    case Fail(key) => StartStepKeepsProper(s, e);
    case EndStart(key) => StartStepKeepsProper(s, e);
    case _ => SweepKeepsProper(s, e);
  }

  lemma {:induction false} EveryRunIsProper(events: seq<Event>)
    ensures Proper(Run(Initial(), events).tables)
  {
    hide Next, Proper, Sound;
    if events == [] {
      NothingRemembered();
    } else {
      EveryRunIsProper(events[..|events| - 1]);
      EveryRunIsSound(events[..|events| - 1]);
      NextKeepsProper(Run(Initial(), events[..|events| - 1]), events[|events| - 1]);
    }
  }

  lemma NothingRemembered()
    ensures Proper(Initial().tables)
  {
  }

  /** In every run a start request is answered as the tables call for, and no
    other answer would fit; and it changes only what that answer says. */
  lemma EveryRequestIsAnswered(events: seq<Event>, key: StartKey, digest: string, epoch: nat, fit: bool, reply: StartReply)
    ensures var s := Run(Initial(), events);
      && (Answers(s, key, digest, epoch, fit, reply) <==> reply == StartReplyTo(s, key, digest, epoch, fit))
      && Effect(s, key, digest, epoch, StartReplyTo(s, key, digest, epoch, fit),
                Next(s, StartRequest(key, digest, epoch, fit)))
  {
    hide Run, Initial, Sound, Proper, Answers, Effect, StartReplyTo, AfterStartRequest;
    var s := Run(Initial(), events);
    EveryRunIsSound(events);
    EveryRunIsProper(events);
    ReplyMeans(s, key, digest, epoch, fit);
    EffectMeans(s, key, digest, epoch, fit);
    if Answers(s, key, digest, epoch, fit, reply) {
      AnswersOnce(s, key, digest, epoch, fit, reply, StartReplyTo(s, key, digest, epoch, fit));
    }
  }

  /** In every run a session is handed out only to its own project, grant and link,
    while it is fit, and under the request it was started or recovered with. */
  lemma RunningMeans(events: seq<Event>, key: StartKey, digest: string, epoch: nat, fit: bool, id: SessionId)
    requires StartReplyTo(Run(Initial(), events), key, digest, epoch, fit) == Running(id)
    ensures var s := Run(Initial(), events);
      && !s.shutdown && fit && id in s.tables.sessions && IsOwn(s.tables.sessions[id], key)
      && epoch >= s.tables.sessions[id].epoch
      && (Knows(s.tables, key) ==> Remembers(s.tables, key, digest, id))
  {
    hide Run, Initial, Sound, StartReplyTo, Holds, Room;
    EveryRunIsSound(events);
    EveryRunIsProper(events);
    ReplyMeans(Run(Initial(), events), key, digest, epoch, fit);
  }

  /** A key used for another request is refused, and nothing changes. */
  lemma ReusedKeyIsRefused(events: seq<Event>, key: StartKey, digest: string, other: string, epoch: nat, fit: bool)
    requires var s := Run(Initial(), events); !s.shutdown && KnownAs(s.tables, key, other) && other != digest
    ensures var s := Run(Initial(), events);
      && StartReplyTo(s, key, digest, epoch, fit) == Refused("idempotency_conflict")
      && Next(s, StartRequest(key, digest, epoch, fit)) == s
  {
    hide Run, Initial, Sound, StartReplyTo, Holds, Room, AfterStartRequest;
    var s := Run(Initial(), events);
    EveryRunIsSound(events);
    EveryRunIsProper(events);
    ReplyMeans(s, key, digest, epoch, fit);
    EffectMeans(s, key, digest, epoch, fit);
  }

  // Where digests come from

  /** A start request with this key and digest was answered with a session or a start. */
  ghost predicate Taken(s: State, e: Event, key: StartKey, digest: string) {
    && e.StartRequest? && e.key == key && e.digest == digest
    && (StartReplyTo(s, key, digest, e.epoch, e.fit).Running? || StartReplyTo(s, key, digest, e.epoch, e.fit).Launched?)
  }

  ghost predicate Requested(events: seq<Event>, key: StartKey, digest: string) {
    exists k :: 0 <= k < |events| && Taken(Run(Initial(), events[..k]), events[k], key, digest)
  }

  lemma RequestedEarlier(events: seq<Event>, key: StartKey, digest: string)
    requires events != [] && Requested(events[..|events| - 1], key, digest)
    ensures Requested(events, key, digest)
  {
    hide Taken, Run;
    var before := events[..|events| - 1];
    var k :| 0 <= k < |before| && Taken(Run(Initial(), before[..k]), before[k], key, digest);
    assert before[..k] == events[..k] && before[k] == events[k];
  }

  lemma RequestedNow(events: seq<Event>, key: StartKey, digest: string)
    requires events != []
    requires Taken(Run(Initial(), events[..|events| - 1]), events[|events| - 1], key, digest)
    ensures Requested(events, key, digest)
  {
  }

  /** A step makes a digest known only by taking its request. */
  lemma StepKnows(s: State, e: Event, key: StartKey, digest: string)
    requires Sound(s) && Proper(s.tables) && KnownAs(Next(s, e).tables, key, digest)
    ensures KnownAs(s.tables, key, digest) || Taken(s, e, key, digest)
  {
    hide Sound, Proper;
    var t, u := s.tables, Next(s, e).tables;
    if e.StartRequest? {
      RequestKnows(s, e.key, e.digest, e.epoch, e.fit, key, digest);
    } else {
      OtherStepKnows(s, e, key, digest);
    }
  }

  lemma RequestKnows(s: State, of: StartKey, with: string, epoch: nat, fit: bool, key: StartKey, digest: string)
    requires Sound(s) && Proper(s.tables) && KnownAs(AfterStartRequest(s, of, with, epoch, fit).tables, key, digest)
    ensures KnownAs(s.tables, key, digest) || Taken(s, StartRequest(of, with, epoch, fit), key, digest)
  {
    hide Sound, Proper, AfterStartRequest, StartReplyTo;
    EffectMeans(s, of, with, epoch, fit);
    var u := AfterStartRequest(s, of, with, epoch, fit).tables;
    if id :| Remembers(u, key, digest, id) {
      if key != of { assert StartReplyTo(s, of, with, epoch, fit).Running? ==> Remembers(s.tables, key, digest, id); }
      assert u.starts == s.tables.starts ==> Remembers(s.tables, key, digest, id);
    }
  }

  /** Every digest was there before. */
  ghost predicate NoNewDigest(t: Tables, u: Tables) {
    && (forall key :: key in u.starts ==>
          || (key in t.starts && t.starts[key].0 == u.starts[key].0)
          || (key in t.startTasks && t.startTasks[key].digest == u.starts[key].0))
    && (forall key :: key in u.startTasks ==>
          key in t.startTasks && t.startTasks[key].digest == u.startTasks[key].digest)
  }

  lemma FailBringsNoDigest(s: State, key: StartKey)
    ensures NoNewDigest(s.tables, AfterFail(s, key).tables)
  {
    hide Unreserved;
    UnreservedTasks(s.tables, key);
    if key in s.tables.startTasks {
      var start := s.tables.startTasks[key];
      WaitingBringsNoDigest(s.tables.startTasks, key, start.(phase := Waiting, page := None, server := None));
    }
  }

  lemma WaitingBringsNoDigest(starts: map<StartKey, Start>, key: StartKey, start: Start)
    requires key in starts && start.digest == starts[key].digest
    ensures forall k :: k in starts[key := start] ==> k in starts && starts[k].digest == starts[key := start][k].digest
  {
  }

  lemma UnreservedTasks(t: Tables, key: StartKey)
    ensures Unreserved(t, key).starts == t.starts && Unreserved(t, key).startTasks == t.startTasks - {key}
  {
  }

  lemma GainedBringsNoDigest(s: State, key: StartKey, start: Start, r: Resource)
    requires key in s.tables.startTasks && start.digest == s.tables.startTasks[key].digest
    ensures NoNewDigest(s.tables, Gained(s, key, start, r).tables)
  {
    hide AfterFail;
    FailBringsNoDigest(WithStart(s.(held := s.held + {r}), key, start), key);
  }

  lemma StepBringsNoDigest(s: State, e: Event)
    requires !e.StartRequest?
    ensures NoNewDigest(s.tables, Next(s, e).tables)
  {
    hide AfterFail, Gained, Current, AfterBeginClose, AfterClosePage, AfterReleaseServer, AfterFinishClose, AfterCleanPage,
         AfterCleanServer, AfterFinishClean, AfterRetryClean;
    match e
    case Acquire(key, server) =>
      FailBringsNoDigest(s, key);
      if StartAt(s, key, Asking) && server.Some? {
        GainedBringsNoDigest(s, key, s.tables.startTasks[key].(phase := Serving, server := Some(Server(server.value))),
                             Server(server.value));
      }
    case OpenPage(key, page) =>
      FailBringsNoDigest(s, key);
      if StartAt(s, key, Serving) && page.Some? {
        GainedBringsNoDigest(s, key, s.tables.startTasks[key].(phase := Ready, page := Some(Page(page.value))),
                             Page(page.value));
      }
    case Commit(key, id) => FailBringsNoDigest(s, key);
    case Fail(key) => FailBringsNoDigest(s, key);
    case EndStart(key) =>
    case BeginClose(id) => BeginCloseBringsNoDigest(s, id);
    case _ => SweepKeepsProper(s, e);
  }

  lemma BeginCloseBringsNoDigest(s: State, id: SessionId)
    ensures NoNewDigest(s.tables, AfterBeginClose(s, id).tables)
  {
  }

  lemma OtherStepKnows(s: State, e: Event, key: StartKey, digest: string)
    requires !e.StartRequest? && KnownAs(Next(s, e).tables, key, digest)
    ensures KnownAs(s.tables, key, digest)
  {
    hide Next;
    StepBringsNoDigest(s, e);
    if id :| Remembers(Next(s, e).tables, key, digest, id) {
      assert key in s.tables.starts ==> Remembers(s.tables, key, s.tables.starts[key].0, s.tables.starts[key].1);
    }
  }

  /** In every run the request a key is known under is one that was taken. */
  lemma {:induction false} DigestWasRequested(events: seq<Event>, key: StartKey, digest: string)
    requires KnownAs(Run(Initial(), events).tables, key, digest)
    ensures Requested(events, key, digest)
  {
    hide Next, KnownAs, Taken, Requested, Sound, Proper, Initial;
    if events == [] {
      NothingKnown(key, digest);
      assert false;
    }
    var before := events[..|events| - 1];
    EveryRunIsSound(before);
    EveryRunIsProper(before);
    StepKnows(Run(Initial(), before), events[|events| - 1], key, digest);
    if KnownAs(Run(Initial(), before).tables, key, digest) {
      DigestWasRequested(before, key, digest);
      RequestedEarlier(events, key, digest);
    } else {
      RequestedNow(events, key, digest);
    }
  }

  lemma NothingKnown(key: StartKey, digest: string)
    ensures !KnownAs(Initial().tables, key, digest)
  {
  }
}
