/** The patch transaction engine, with a fault possible before every durable
  write: the request may be interrupted, or the process may die.

  After a death nothing is served until a recovery has completed, as the daemon
  does. After a refused rollback the service goes on, with the journal unfinished;
  a directory that cannot be removed stays, with whatever journal it holds. */
module PatchService {
  import opened Wrappers
  import opened Content
  import opened PatchJournal
  import opened PatchView
  import opened PatchPlan
  import PatchContents
  import PatchGrammar
  import TextLines

  datatype Fault = Go | Raise | Die

  datatype Outcome = Done | Raised(error: PatchError) | Died

  /** `Clash`: the program goes on to commit over an unfinished journal; what comes
    of that is in PatchLeftover. */
  datatype Reply = Replied(result: ToolResult) | Retry | Refused(error: PatchError) | Lost | Clash

  datatype Request = Request(key: Key, document: string, base: BaseHashes, dryRun: bool, binding: Binding)

  /** A patch that took effect. */
  datatype Effect = Effect(request: Request, journal: JournalId, plan: Plan)

  /** What the relay, the desktop and the operating system may ask for, in any order. */
  datatype Call = Apply(request: Request, reconcile: bool) | Reconcile(request: Request) | Restart

  function FingerprintOf(r: Request): Fingerprint {
    Fingerprint(r.document, r.base, r.dryRun)
  }

  function ResultOf(r: Request, j: JournalId, plan: Plan): ToolResult {
    ToolResult(r.key, j, r.dryRun, plan.changes)
  }

  /** The row belongs to this very request from this very caller. */
  predicate SameRequest(row: Row, r: Request) {
    row.fingerprint == FingerprintOf(r) && row.binding == r.binding
  }

  predicate Known(rows: Rows, r: Request) {
    r.key in rows && SameRequest(rows[r.key], r)
  }

  /** This very request was started, and nothing says how it ended. */
  predicate Attempted(rows: Rows, r: Request) {
    Known(rows, r) && rows[r.key].Running?
  }

  /** A request that passes parsing and preflight, and its plan. */
  ghost predicate Planned(r: Request, files: Files, platform: string, plan: Plan) {
    && PatchGrammar.ParseDocument(r.document).Success?
    && var sections := PatchGrammar.ParseDocument(r.document).value;
       Acceptable(files, sections, r.base, platform) && Follows(plan, files, sections, r.base, platform)
  }

  /** Every declared path is what its hash says. */
  ghost predicate AsDeclared(files: Files, base: BaseHashes) {
    forall p :: p in base ==> HashAt(files, p) == base[p]
  }

  /** The manifest is of this very request from this very caller. */
  predicate IsOwn(m: Manifest, r: Request) {
    m.fingerprint == FingerprintOf(r) && m.binding == r.binding
  }

  ghost predicate CoveredBy(d: PatchView.Disk, k: Key, p: Path) {
    exists j :: Active(d, j) && ManifestOf(d, j).key == k && Covers(ManifestOf(d, j).records, p)
  }

  /** The key's journals are all still to be gone through. */
  ghost predicate KeyLeft(d: PatchView.Disk, k: Key, todo: set<JournalId>) {
    forall j :: HasManifest(d, j) && ManifestOf(d, j).key == k ==> j in todo
  }

  ghost predicate AllOwn(d: PatchView.Disk, r: Request) {
    forall j :: HasManifest(d, j) && ManifestOf(d, j).key == r.key ==> IsOwn(ManifestOf(d, j), r)
  }

  lemma OwnAt(d: PatchView.Disk, r: Request, j: JournalId)
    requires AllOwn(d, r) && HasManifest(d, j) && ManifestOf(d, j).key == r.key
    ensures IsOwn(ManifestOf(d, j), r)
  {
  }

  lemma OwnLeft(d: PatchView.Disk, e: PatchView.Disk, r: Request, j: JournalId, todo: set<JournalId>)
    requires AllOwn(d, r) && KeyLeft(d, r.key, todo) && j !in e.journal
    requires forall i :: i != j ==> (i in e.journal <==> i in d.journal) && (i in e.journal ==> e.journal[i] == d.journal[i])
    ensures AllOwn(e, r) && KeyLeft(e, r.key, todo - {j})
  {
    hide IsOwn;
    assert forall i :: HasManifest(e, i) ==> HasManifest(d, i) && ManifestOf(e, i) == ManifestOf(d, i);
  }

  /** A row and the manifests of its key are of one request. */
  lemma AllAreOwn(d: PatchView.Disk, v: View, r: Request)
    requires Represents(d, v) && r.key in d.rows && SameRequest(d.rows[r.key], r)
    ensures AllOwn(d, r)
  {
    hide FilesRepresent, FingerprintOf;
    forall j | HasManifest(d, j) && ManifestOf(d, j).key == r.key ensures IsOwn(ManifestOf(d, j), r) {
      if Unfinished(d, j) { assert Pending(d, v, ManifestOf(d, j)); }
      assert RowMatches(d, ManifestOf(d, j));
    }
  }

  /** The journals of other keys are as they were. */
  ghost predicate OthersKept(d: PatchView.Disk, e: PatchView.Disk, k: Key) {
    forall j :: (HasManifest(d, j) && ManifestOf(d, j).key != k) || (HasManifest(e, j) && ManifestOf(e, j).key != k) ==>
      HasManifest(d, j) && HasManifest(e, j) && ManifestOf(e, j) == ManifestOf(d, j)
  }

  // What calls answer when no write is interrupted or refused.

  /** A redelivery: the result its key took effect with, else that it may be tried afresh. */
  function DuplicateAnswer(d: PatchView.Disk, v: View, r: Request): Reply {
    if r.key in d.rows && !SameRequest(d.rows[r.key], r) then Refused(IdempotencyConflict)
    else if r.key in v.applied then Replied(v.applied[r.key])
    else Retry
  }

  /** The files with the key's unfinished patch, if there is one, undone. */
  ghost predicate Reverted(d: PatchView.Disk, v: View, k: Key, files: Files) {
    forall p :: Get(files, p) == if CoveredBy(d, k, p) then Get(v.files, p) else Get(d.files, p)
  }

  /** A journal is in the way that looking the key up does not bring to an end. */
  ghost predicate InTheWay(d: PatchView.Disk, r: Request) {
    exists j :: HasManifest(d, j) && Blocks(ManifestOf(d, j), r.key, r.base.Keys)
      && (r.key in d.rows ==> ManifestOf(d, j).key != r.key)
  }

  /** The document does not parse, or the patch does not pass preflight. */
  ghost predicate Rejects(r: Request, files: Files, platform: string, e: PatchError) {
    var parsed := PatchGrammar.ParseDocument(r.document);
    if parsed.Failure? then e == (if parsed.error.InvalidPath? then InvalidPath else InvalidPatch)
    else !Acceptable(files, parsed.value, r.base, platform) && Refuses(files, parsed.value, r.base, platform, e)
  }

  ghost predicate Fits(r: Request, files: Files, platform: string) {
    exists plan :: Planned(r, files, platform, plan)
  }

  /** A fresh patch: refused for what its document or its preflight says, or
    answered with its plan, or carried out. */
  ghost predicate FreshAnswer(r: Request, files: Files, blocked: bool, platform: string,
                              reply: Reply, effect: Option<Effect>) {
    if !Fits(r, files, platform) then
      effect.None? && reply.Refused? && Rejects(r, files, platform, reply.error)
    else if r.dryRun then
      effect.None? && exists plan :: Planned(r, files, platform, plan) && reply == Replied(ResultOf(r, "", plan))
    else if blocked then effect.None? && reply == Clash
    else effect.Some? && reply == Replied(EffectResult(effect.value))
  }

  /** A patch call: what its key says, and if that is nothing, what a fresh patch says. */
  ghost predicate ApplyAnswer(d: PatchView.Disk, v: View, r: Request, reconcile: bool, platform: string,
                              reply: Reply, effect: Option<Effect>) {
    if !(8 <= |r.key| <= 200) then effect.None? && reply == Refused(InvalidRequest)
    else if r.key in d.rows && !SameRequest(d.rows[r.key], r) then
      effect.None? && reply == Refused(IdempotencyConflict)
    else if r.key in d.rows && d.rows[r.key].Succeeded? then
      effect.None? && reply == Replied(d.rows[r.key].result)
    else if r.key in d.rows && !reconcile then effect.None? && reply == Refused(OutcomeUnknown)
    else if r.key in v.applied then effect.None? && reply == Replied(v.applied[r.key])
    else exists files ::
      Reverted(d, v, r.key, files) && FreshAnswer(r, files, InTheWay(d, r), platform, reply, effect)
  }

  /** What a call finds. */
  datatype Moment = Moment(disk: PatchView.Disk, view: View, down: bool, faults: nat)

  ghost predicate ServeAnswer(call: Call, m: Moment, platform: string, reply: Reply, effect: Option<Effect>) {
    if call.Restart? then effect.None? && reply == Retry
    else if m.down then effect.None? && reply == Lost
    else if call.Reconcile? then effect.None? && reply == DuplicateAnswer(m.disk, m.view, call.request)
    else ApplyAnswer(m.disk, m.view, call.request, call.reconcile, platform, reply, effect)
  }

  /** One call of a run: its effect, and its answer unless a fault came up. */
  ghost predicate Served(call: Call, before: Moment, reply: Reply, effect: Option<Effect>, after: Moment, platform: string) {
    && after.view == (if effect.Some? then After(before.view, effect.value) else before.view)
    && before.faults <= after.faults
    && (after.faults == before.faults ==> ServeAnswer(call, before, platform, reply, effect))
  }

  function EffectOrNone(effect: Option<Effect>): seq<Effect> {
    if effect.Some? then [effect.value] else []
  }

  function Effects(effects: seq<Option<Effect>>): seq<Effect> {
    if effects == [] then [] else Effects(effects[..|effects| - 1]) + EffectOrNone(effects[|effects| - 1])
  }

  lemma EffectsSnoc(effects: seq<Option<Effect>>, effect: Option<Effect>)
    ensures Effects(effects + [effect]) == Effects(effects) + EffectOrNone(effect)
  {
    assert (effects + [effect])[..|effects|] == effects;
  }

  /** The moments of a run, from call to call. */
  ghost predicate Traced(calls: seq<Call>, trace: seq<Moment>, replies: seq<Reply>, effects: seq<Option<Effect>>,
                         platform: string) {
    && |trace| == |replies| + 1 && |effects| == |replies| <= |calls|
    && forall i :: 0 <= i < |replies| ==> Served(calls[i], trace[i], replies[i], effects[i], trace[i + 1], platform)
  }

  lemma NoneYet(v: View, m: Moment, calls: seq<Call>, platform: string)
    ensures Traced(calls, [m], [], [], platform) && Effects([]) == []
    ensures Legal(v, [], platform) && Replay(v, []) == v && Unrefused([])
  {
  }

  lemma TracedSnoc(calls: seq<Call>, trace: seq<Moment>, replies: seq<Reply>, effects: seq<Option<Effect>>,
                   platform: string, reply: Reply, effect: Option<Effect>, after: Moment)
    requires Traced(calls, trace, replies, effects, platform) && |replies| < |calls|
    requires Served(calls[|replies|], trace[|replies|], reply, effect, after, platform)
    ensures Traced(calls, trace + [after], replies + [reply], effects + [effect], platform)
  {
    hide Served;
    var moments, answers, all := trace + [after], replies + [reply], effects + [effect];
    forall i | 0 <= i < |answers| ensures Served(calls[i], moments[i], answers[i], all[i], moments[i + 1], platform) {
      if i < |replies| { assert moments[i] == trace[i] && moments[i + 1] == trace[i + 1]; }
    }
  }

  class PatchService {
    const platform: string
    var files: Files
    var journal: Journal
    var rows: Rows
    var down: bool
    ghost var view: View
    ghost var unremoved: set<JournalId>
    /** How many writes were interrupted or refused so far. */
    ghost var faults: nat

    ghost function Disk(): PatchView.Disk
      reads this`files, this`journal, this`rows
    {
      PatchView.Disk(files, journal, rows)
    }

    ghost function Now(): Moment
      reads this`files, this`journal, this`rows, this`view, this`down, this`faults
    {
      Moment(Disk(), view, down, faults)
    }

    ghost predicate Consistent()
      reads this`files, this`journal, this`rows, this`view
    {
      Represents(Disk(), view)
    }

    /** The file is as a completed recovery would show it. */
    ghost predicate Agrees(p: Path)
      reads this`files, this`view
    {
      Get(files, p) == Get(view.files, p)
    }

    lemma AllAgree()
      requires forall p :: Agrees(p)
      ensures files == view.files
    {
      assert forall p :: Agrees(p) ==> Get(files, p) == Get(view.files, p);
      SameContent(files, view.files);
    }

    constructor (files: Files, platform: string)
      ensures Consistent() && !down
      ensures this.files == files && view == View(files, map[]) && this.platform == platform
      ensures journal == map[] && rows == map[]
    {
      this.platform := platform;
      this.files := files;
      journal := map[];
      rows := map[];
      down := false;
      view := View(files, map[]);
      unremoved := {};
      faults := 0;
    }

    /** Any fault, at any durable write. */
    method Strike() returns (f: Fault)
      modifies this`down, this`faults
      ensures old(faults) <= faults
      ensures down == (old(down) || f.Die?)
      ensures faults == old(faults) <==> f.Go?
    {
      f := *;
      if !f.Go? {
        faults := faults + 1;
      }
      if f.Die? {
        down := true;
      }
    }

    /** Write a row, unless the key belongs to a different request. */
    method PutIdempotency(k: Key, row: Row) returns (stored: bool)
      modifies this`rows
      ensures stored <==> (k in old(rows) ==> old(rows)[k].fingerprint == row.fingerprint && old(rows)[k].binding == row.binding)
      ensures rows == if stored then old(rows)[k := row] else old(rows)
    {
      if k in rows && (rows[k].fingerprint != row.fingerprint || rows[k].binding != row.binding) {
        return false;
      }
      rows := rows[k := row];
      return true;
    }

    /** Remove a transaction directory; that it cannot be removed is ignored. */
    method RemoveDirectory(j: JournalId) returns (o: Outcome)
      modifies this`journal, this`unremoved, this`down, this`faults
      ensures old(faults) <= faults
      ensures !o.Raised? && (if o.Died? then down else down == old(down))
      ensures o.Died? ==> journal == old(journal)
      ensures o.Done? ==> journal == old(journal) - {j} || (journal == old(journal) && j in unremoved)
      ensures old(unremoved) <= unremoved
      ensures faults == old(faults) ==> o.Done? && journal == old(journal) - {j}
    {
      var fault := Strike();
      if fault.Die? { return Died; }
      if fault.Raise? {
        unremoved := unremoved + {j};
      } else {
        journal := journal - {j};
      }
      return Done;
    }

    /** Undo the journalled changes, last record first. Unless the file system
      refuses a write this is the rollback `RestoreAll` describes, whatever an
      outside writer left in the files; if it does, every path that is not
      reported is back. */
    method Restore(j: JournalId) returns (o: Outcome, errors: seq<Path>, ghost refused: bool)
      requires HasManifest(Disk(), j)
      requires var m := ManifestOf(Disk(), j); DistinctPaths(m.records) && BackupsIntact(m.records, journal[j].backups)
      modifies this`files, this`journal, this`down, this`faults
      ensures old(faults) <= faults
      ensures var m := ManifestOf(old(Disk()), j);
        var legacy := DesiredHashes(m.result.changes);
        && (o.Died? ==> PartlyRestored(old(files), files, m.records, old(journal)[j].backups, legacy))
        && (!o.Died? ==> RestoredBut(old(files), files, m.records, 0, old(journal)[j].backups, legacy, errors))
        && var whole := RestoreAll(old(files), m.records, old(journal)[j].backups, legacy);
        && (!o.Died? && (!refused || errors == []) ==> (files, errors) == whole)
        && (o.Done? ==> journal == old(journal)[j := old(journal)[j].(manifest := Some(m.(phase := RolledBack)))])
      ensures o.Done? ==> errors == []
      ensures o.Raised? ==> o.error == if errors == [] then Interrupted else RecoveryFailed
      ensures o.Raised? && errors == [] ==> refused
      ensures !o.Done? ==> journal == old(journal)
      ensures if o.Died? then down else down == old(down)
      ensures faults == old(faults) ==> !refused && !o.Died?
    {
      hide RestoredBut, PartlyRestored;
      var m := journal[j].manifest.value;
      var backups := journal[j].backups;
      var legacy := DesiredHashes(m.result.changes);
      errors := [];
      refused := false;
      var n := |m.records|;
      ghost var whole := RestoreAll(files, m.records, backups, legacy);
      assert m.records[..n] == m.records;
      ReportingTwice([], [], RestoreAll(files, m.records, backups, legacy));
      NothingRestored(files, m.records, backups, legacy);
      while n > 0
        invariant 0 <= n <= |m.records|
        invariant journal == old(journal) && down == old(down)
        invariant !refused ==> whole == Reporting(errors, RestoreAll(files, m.records[..n], backups, legacy))
        invariant RestoredBut(old(files), files, m.records, n, backups, legacy, errors)
        invariant PartlyRestored(old(files), files, m.records, backups, legacy)
        invariant refused ==> errors != []
        invariant old(faults) <= faults && (faults == old(faults) ==> !refused)
      {
        var r := m.records[n - 1];
        var fault := Strike();
        if fault.Die? {
          return Died, errors, refused;
        }
        var step := if fault.Raise? then None else RestoreRecord(files, r, backups, legacy);
        RestoredFurther(old(files), files, m.records, n, backups, legacy, errors, fault.Raise?);
        if fault.Raise? {
          refused := true;
        } else {
          RestoreStep(old(files), files, m.records, n, backups, legacy, errors);
          ReportingTwice(errors, if step.None? then [r.path] else [],
                         RestoreAll(if step.Some? then step.value else files, m.records[..n - 1], backups, legacy));
        }
        if step.None? {
          errors := errors + [r.path];
        } else {
          files := step.value;
        }
        n := n - 1;
      }
      assert m.records[..n] == [] && errors + [] == errors;
      if errors != [] {
        return Raised(RecoveryFailed), errors, refused;
      }
      var fault := Strike();
      if fault.Die? {
        return Died, errors, refused;
      }
      if fault.Raise? {
        return Raised(Interrupted), errors, true;
      }
      journal := journal[j := journal[j].(manifest := Some(m.(phase := RolledBack)))];
      return Done, errors, refused;
    }

    /** Undo an active transaction. Refused a file, it stays as it is; refused its
      last manifest, it stays with its files in place. */
    method Rollback(j: JournalId) returns (o: Outcome)
      requires Active(Disk(), j) && Sound(Disk(), j)
      modifies this`files, this`journal, this`down, this`faults
      ensures old(faults) <= faults
      ensures old(Consistent()) ==> Consistent() && forall p :: old(Agrees(p)) ==> Agrees(p)
      ensures old(Consistent()) && !o.Died? && o != Raised(RecoveryFailed) ==> HasManifest(Disk(), j) && Clean(Disk(), view, j)
      ensures if o.Died? then down else down == old(down)
      ensures o.Done? ==> (files, []) == Undone(old(Disk()), j)
      ensures o.Done? ==>
        Disk() == WithManifest(old(Disk()).(files := files), j, ManifestOf(old(Disk()), j).(phase := RolledBack))
      ensures !o.Done? ==> journal == old(journal)
      ensures o.Raised? ==> o.error in {RecoveryFailed, Interrupted}
      ensures forall p :: !Covers(ManifestOf(old(Disk()), j).records, p) ==> Get(files, p) == Get(old(files), p)
      ensures faults == old(faults) && old(Consistent()) ==> o.Done?
    {
      ghost var before, sane := Disk(), Consistent();
      var errors;
      ghost var refused;
      o, errors, refused := Restore(j);
      if !o.Died? {
        RestoredButIsPartly(before.files, files, ManifestOf(before, j).records, journal[j].backups,
                            DesiredHashes(ManifestOf(before, j).result.changes), errors);
      }
      if sane {
        RollbackKeeps(before, files, view, j, o.Done?, !o.Died? && errors == []);
      }
    }

    /** Finish or undo one journal, in whatever state it is. */
    method RecoverTransaction(j: JournalId) returns (o: Outcome)
      requires Sound(Disk(), j)
      modifies this`files, this`journal, this`rows, this`unremoved, this`down, this`faults
      ensures old(faults) <= faults
      ensures old(Consistent()) ==> Consistent() && forall p :: old(Agrees(p)) ==> Agrees(p)
      ensures if o.Died? then down else down == old(down)
      ensures journal - {j} == old(journal) - {j} && old(unremoved) <= unremoved
      ensures o.Done? && Unfinished(old(Disk()), j) ==>
        Undone(old(Disk()), j).1 == [] && Disk().(journal := journal - {j}) == Recovered(old(Disk()), j)
      ensures o.Done? && !Unfinished(old(Disk()), j) ==>
        var m := ManifestOf(old(Disk()), j); files == old(files) && rows == old(rows)[m.key := SucceededRow(m)]
      ensures o.Done? && j in journal ==>
        && j in unremoved && HasManifest(Disk(), j) && !Active(Disk(), j)
        && ManifestOf(Disk(), j).(phase := Committed) == ManifestOf(old(Disk()), j).(phase := Committed)
        && (ManifestOf(Disk(), j).phase.Committed? <==> !Unfinished(old(Disk()), j))
      ensures Active(Disk(), j) ==> Active(old(Disk()), j) && ManifestOf(Disk(), j) == ManifestOf(old(Disk()), j)
      ensures old(Consistent()) && o.Raised? ==> o.error in {RecoveryFailed, Interrupted}
      ensures faults == old(faults) && old(Consistent()) ==> o.Done? && j !in journal
      ensures forall p :: !(old(Active(Disk(), j)) && Covers(ManifestOf(old(Disk()), j).records, p)) ==>
        Get(files, p) == Get(old(files), p)
      ensures HasManifest(Disk(), j) ==> ManifestOf(Disk(), j).key == old(ManifestOf(Disk(), j).key)
    {
      hide Represents;
      var m := journal[j].manifest.value;
      if m.phase.Committed? {
        o := FinishCommitted(j);
        return;
      }
      if !m.phase.RolledBack? {
        o := Rollback(j);
        if !o.Done? { return; }
      }
      o := ForgetUndone(j);
    }

    /** The row and then the journal of a committed patch. */
    method FinishCommitted(j: JournalId) returns (o: Outcome)
      requires HasManifest(Disk(), j) && ManifestOf(Disk(), j).phase.Committed?
      modifies this`rows, this`journal, this`unremoved, this`down, this`faults
      ensures old(faults) <= faults
      ensures old(Consistent()) ==> Consistent()
      ensures if o.Died? then down else down == old(down)
      ensures journal == old(journal) || journal == old(journal) - {j}
      ensures o.Done? && j in journal ==> j in unremoved
      ensures o.Done? ==> var m := ManifestOf(old(Disk()), j); rows == old(rows)[m.key := SucceededRow(m)]
      ensures old(Consistent()) && o.Raised? ==> o.error == Interrupted
      ensures old(unremoved) <= unremoved
      ensures faults == old(faults) && old(Consistent()) ==> o.Done? && j !in journal
    {
      hide FilesRepresent;
      ghost var sane := Consistent();
      var m := journal[j].manifest.value;
      var fault := Strike();
      if fault.Die? { return Died; }
      if fault.Raise? { return Raised(Interrupted); }
      if sane { CommittedRowWritten(Disk(), view, j); }
      var stored := PutIdempotency(m.key, Succeeded(m.fingerprint, m.binding, m.result));
      if !stored { return Raised(IdempotencyConflict); }
      if sane { CommittedClosed(Disk(), view, j); }
      o := RemoveDirectory(j);
    }

    /** The row and then the journal of an undone patch. */
    method ForgetUndone(j: JournalId) returns (o: Outcome)
      requires Unfinished(Disk(), j) && !Active(Disk(), j)
      modifies this`rows, this`journal, this`unremoved, this`down, this`faults
      ensures old(faults) <= faults
      ensures old(Consistent()) ==> Consistent()
      ensures if o.Died? then down else down == old(down)
      ensures journal == old(journal) || journal == old(journal) - {j}
      ensures o.Done? && j in journal ==> j in unremoved
      ensures o.Done? ==> rows == old(rows) - {ManifestOf(old(Disk()), j).key}
      ensures o.Raised? ==> o.error == Interrupted
      ensures old(unremoved) <= unremoved
      ensures faults == old(faults) ==> o.Done? && j !in journal
    {
      hide FilesRepresent;
      ghost var sane := Consistent();
      var m := journal[j].manifest.value;
      var fault := Strike();
      if fault.Die? { return Died; }
      if fault.Raise? { return Raised(Interrupted); }
      if sane { UndoneRowDeleted(Disk(), view, j); }
      rows := rows - {m.key};
      if sane { Closed(Disk(), view, j); }
      o := RemoveDirectory(j);
    }

    /** Whatever is left of a journal that a recovery has been through means nothing. */
    ghost predicate Settled(j: JournalId)
      reads this`files, this`journal, this`rows, this`unremoved
    {
      && j in unremoved && HasManifest(Disk(), j) && !Active(Disk(), j)
      && (ManifestOf(Disk(), j).phase.Committed? ==>
            ManifestOf(Disk(), j).key in rows && rows[ManifestOf(Disk(), j).key].Succeeded?)
    }

    /** What the daemon runs before it accepts any request. */
    method Recover() returns (o: Outcome)
      requires Consistent()
      modifies this
      ensures old(faults) <= faults
      ensures Consistent() && view == old(view)
      ensures o.Done? <==> !down
      ensures forall p :: old(Agrees(p)) ==> Agrees(p)
      ensures o.Done? ==> files == view.files
      ensures o.Done? ==> forall j :: HasManifest(Disk(), j) ==> j in unremoved && !Active(Disk(), j)
      ensures o.Done? ==> forall k :: k in view.applied <==> k in rows && rows[k].Succeeded?
      ensures o.Done? ==> forall k :: k in view.applied ==> rows[k].result == view.applied[k]
      ensures faults == old(faults) ==> o.Done? && forall j :: !HasManifest(Disk(), j)
    {
      hide Represents;
      down := true;
      var todo := journal.Keys;
      while todo != {}
        invariant Consistent() && view == old(view) && down
        invariant forall p :: old(Agrees(p)) ==> Agrees(p)
        invariant todo <= journal.Keys
        invariant forall j :: HasManifest(Disk(), j) ==> j in todo || Settled(j)
        invariant old(faults) <= faults && (faults == old(faults) ==> forall j :: HasManifest(Disk(), j) ==> j in todo)
        decreases |todo|
      {
        var j :| j in todo;
        if journal[j].manifest.Some? {
          ghost var before := Disk();
          JournalIsSound(before, view, j);
          o := RecoverTransaction(j);
          if !o.Done? { return; }
          OthersSettled(before, Disk(), view, j);
        }
        todo := todo - {j};
      }
      AllSettled(Disk(), view);
      down := false;
      return Done;
    }

    /** Finish or undo one journal of the request's key. */
    method ReconcileJournal(r: Request, j: JournalId) returns (o: Outcome)
      requires Consistent() && !down && HasManifest(Disk(), j) && ManifestOf(Disk(), j).key == r.key
      modifies this`files, this`journal, this`rows, this`unremoved, this`down, this`faults
      ensures old(faults) <= faults
      ensures Consistent() && (o.Died? <==> down)
      ensures forall p :: old(Agrees(p)) ==> Agrees(p)
      ensures OnlyKey(old(Disk()), Disk(), r.key)
      ensures forall i :: i != j ==> (i in journal <==> i in old(journal)) && (i in journal ==> journal[i] == old(journal)[i])
      ensures o.Done? ==> !Active(Disk(), j)
      ensures o.Done? && r.key in rows ==> rows[r.key].Succeeded? && SameRequest(rows[r.key], r)
      ensures faults == old(faults) && IsOwn(old(ManifestOf(Disk(), j)), r) ==> o.Done? && j !in journal
      ensures !IsOwn(old(ManifestOf(Disk(), j)), r) ==> o == Raised(RecoveryFailed)
      ensures HasManifest(Disk(), j) ==> ManifestOf(Disk(), j).key == r.key
    {
      hide Represents, FingerprintOf;
      var m := journal[j].manifest.value;
      if m.fingerprint != FingerprintOf(r) || m.binding != r.binding {
        return Raised(RecoveryFailed);
      }
      ghost var before := Disk();
      JournalIsSound(before, view, j);
      o := RecoverTransaction(j);
      SameElsewhere(before.journal, journal, j);
    }

    /** Finish or undo every journal of the request's key. */
    method ReconcileJournals(r: Request) returns (o: Outcome, ghost matched: bool)
      requires Consistent() && !down
      modifies this`files, this`journal, this`rows, this`unremoved, this`down, this`faults
      ensures old(faults) <= faults
      ensures Consistent() && (o.Died? <==> down)
      ensures forall p :: old(Agrees(p)) ==> Agrees(p)
      ensures OnlyKey(old(Disk()), Disk(), r.key)
      ensures o.Done? ==>
        forall j :: HasManifest(Disk(), j) && ManifestOf(Disk(), j).key == r.key ==> matched && !Active(Disk(), j)
      ensures o.Done? && matched && r.key in rows ==> rows[r.key].Succeeded? && SameRequest(rows[r.key], r)
      ensures o.Done? && !matched ==> rows == old(rows)
      ensures faults == old(faults) && old(AllOwn(Disk(), r)) ==> o.Done? && KeyLeft(Disk(), r.key, {})
    {
      hide Represents, SameRequest, OnlyKey, IsOwn, AllOwn;
      matched := false;
      ghost var own := AllOwn(Disk(), r);
      var todo := journal.Keys;
      OnlyKeyNothing(Disk(), r.key);
      while todo != {}
        invariant old(faults) <= faults
        invariant Consistent() && !down
        invariant forall p :: old(Agrees(p)) ==> Agrees(p)
        invariant todo <= journal.Keys
        invariant OnlyKey(old(Disk()), Disk(), r.key)
        invariant forall j :: HasManifest(Disk(), j) && ManifestOf(Disk(), j).key == r.key ==>
          j in todo || (matched && !Active(Disk(), j))
        invariant matched && r.key in rows ==> rows[r.key].Succeeded? && SameRequest(rows[r.key], r)
        invariant !matched ==> rows == old(rows)
        invariant own && faults == old(faults) ==> AllOwn(Disk(), r) && KeyLeft(Disk(), r.key, todo)
        decreases |todo|
      {
        var j :| j in todo;
        if journal[j].manifest.Some? && journal[j].manifest.value.key == r.key {
          ghost var before := Disk();
          if own && faults == old(faults) { OwnAt(before, r, j); }
          o := ReconcileJournal(r, j);
          OnlyKeyTwice(old(Disk()), before, Disk(), r.key);
          if !o.Done? { return; }
          matched := true;
          if own && faults == old(faults) { OwnLeft(before, Disk(), r, j, todo); }
        }
        todo := todo - {j};
      }
      o := Done;
    }

    /** Recover the one interrupted attempt a redelivered request refers to. */
    method ReconcileIncompleteAttempt(r: Request) returns (o: Outcome)
      requires Consistent() && !down
      modifies this`files, this`journal, this`rows, this`unremoved, this`down, this`faults
      ensures old(faults) <= faults
      ensures Consistent() && (o.Died? <==> down)
      ensures forall p :: old(Agrees(p)) ==> Agrees(p)
      ensures o.Done? && r.key in rows ==> rows[r.key].Succeeded?
      ensures r.key in view.applied && o.Done? ==> r.key in rows
      ensures o.Done? ==> forall j :: Active(Disk(), j) ==> ManifestOf(Disk(), j).key != r.key
      ensures OnlyKey(old(Disk()), Disk(), r.key)
      ensures (r.key in old(rows) ==> SameRequest(old(rows)[r.key], r)) ==>
        (o.Done? && r.key in rows ==> SameRequest(rows[r.key], r))
      ensures faults == old(faults) && Known(old(rows), r) ==>
        o.Done? && KeyLeft(Disk(), r.key, {})
    {
      hide Represents, SameRequest, OnlyKey, AllOwn;
      if r.key in rows && SameRequest(rows[r.key], r) {
        AllAreOwn(Disk(), view, r);
        SameBinding(rows[r.key], r);
      }
      ghost var matched;
      o, matched := ReconcileJournals(r);
      if !o.Done? { return; }
      if r.key in rows && SameRequest(rows[r.key], r) { SameBinding(rows[r.key], r); }
      // A manifest of the key was brought to an end, so its row cannot be running any more.
      assert matched && r.key in rows ==> rows[r.key].Succeeded?;
      ghost var before := Disk();
      o := ForgetStaleRow(r);
      OnlyRowsKeep(old(Disk()), before, Disk(), r.key);
    }

    /** A running row of a key without a manifest goes. */
    method ForgetStaleRow(r: Request) returns (o: Outcome)
      requires Consistent() && !down
      requires r.key in rows && rows[r.key].Running? ==>
        forall j :: HasManifest(Disk(), j) ==> ManifestOf(Disk(), j).key != r.key
      modifies this`rows, this`down, this`faults
      ensures old(faults) <= faults
      ensures Consistent() && (o.Died? <==> down)
      ensures o.Done? && r.key in rows ==> rows[r.key].Succeeded? && rows == old(rows)
      ensures o.Done? && r.key in view.applied ==> r.key in rows
      ensures faults == old(faults) && (r.key in old(rows) ==> old(rows)[r.key].binding == r.binding) ==> o.Done?
    {
      hide FilesRepresent;
      if r.key !in rows {
        UnknownKey(Disk(), view, r.key);
        return Done;
      }
      if rows[r.key].binding != r.binding {
        return Raised(IdempotencyConflict);
      }
      if rows[r.key].Running? {
        var fault := Strike();
        if fault.Die? { return Died; }
        if fault.Raise? { return Raised(Interrupted); }
        StaleRowIsSafe(Disk(), view, r.key);
        rows := rows - {r.key};
      }
      return Done;
    }

    /** Committing would go over an unfinished journal: of the same key, or of a
      path that a recovery puts back. */
    predicate Clashes(r: Request)
      reads this`journal
    {
      exists j :: j in journal && journal[j].manifest.Some? && Blocks(journal[j].manifest.value, r.key, r.base.Keys)
    }

    /** Back up one file and note it for the manifest. */
    method BackUp(r: Request, j: JournalId, plan: Plan, path: Path, records: seq<Record>, ghost done: set<Path>)
      returns (o: Outcome, more: seq<Record>)
      requires Consistent() && !down
      requires j in journal && journal[j].manifest.None?
      requires Recorded(records, journal[j].backups, plan, files, done)
      requires path !in done && path in plan.desired && path in r.base
      modifies this`journal, this`down, this`faults
      ensures old(faults) <= faults
      ensures Consistent() && (o.Died? <==> down)
      ensures j in journal && journal == old(journal)[j := journal[j]] && journal[j].manifest.None?
      ensures o.Done? ==> Recorded(more, journal[j].backups, plan, files, done + {path})
      ensures faults == old(faults) && HashAt(files, path) == r.base[path] ==> o.Done?
    {
      hide Represents, Recorded;
      more := records;
      var fault := Strike();
      if fault.Die? { return Died, more; }
      if fault.Raise? { return Raised(Interrupted), more; }
      if HashAt(files, path) != r.base[path] {
        return Raised(PatchConflict), more;
      }
      var existed := r.base[path].Some?;
      var backup := if existed then Some(|records|) else None;
      var record := Record(path, existed, backup, r.base[path], Some(Hash(plan.desired[path])));
      RecordAdded(records, journal[j].backups, plan, files, done, record);
      if existed {
        ghost var before := Disk();
        journal := journal[j := Transaction(None, journal[j].backups[|records| := files[path]])];
        StagingInvisible(before, Disk(), view, j);
      }
      return Done, records + [record];
    }

    /** Back up every touched path, one by one. */
    method WriteBackups(r: Request, j: JournalId, plan: Plan) returns (o: Outcome, records: seq<Record>)
      requires Consistent() && !down
      requires j in journal && journal[j] == Transaction(None, map[])
      requires plan.desired.Keys == r.base.Keys
      modifies this`journal, this`down, this`faults
      ensures old(faults) <= faults
      ensures Consistent() && (o.Died? <==> down)
      ensures j in journal && journal == old(journal)[j := journal[j]] && journal[j].manifest.None?
      ensures o.Done? ==> Recorded(records, journal[j].backups, plan, files, plan.desired.Keys)
      ensures faults == old(faults) && AsDeclared(files, r.base) ==> o.Done?
    {
      hide Represents, Recorded;
      records := [];
      NothingRecorded(journal[j].backups, plan, files);
      var todo := plan.desired.Keys;
      ghost var done: set<Path> := {};
      o := Done;
      while todo != {}
        invariant old(faults) <= faults
        invariant Consistent() && !down && o.Done?
        invariant j in journal && journal == old(journal)[j := journal[j]] && journal[j].manifest.None?
        invariant done !! todo && done + todo == plan.desired.Keys
        invariant Recorded(records, journal[j].backups, plan, files, done)
        decreases |todo|
      {
        var path :| path in todo;
        o, records := BackUp(r, j, plan, path, records, done);
        if !o.Done? { return; }
        done := done + {path};
        todo := todo - {path};
      }
      assert done == plan.desired.Keys;
    }

    /** Replace the files one by one under a committing manifest. */
    method ReplaceFiles(j: JournalId, plan: Plan) returns (o: Outcome, mutated: bool)
      requires Consistent() && !down && Active(Disk(), j) && Clean(Disk(), view, j)
      requires ManifestOf(Disk(), j).phase.Committing? && ManifestOf(Disk(), j).key in rows
      requires Lists(ManifestOf(Disk(), j).records, plan)
      modifies this`files, this`down, this`faults
      ensures old(faults) <= faults
      ensures Consistent() && (o.Died? <==> down)
      ensures !mutated ==> files == old(files)
      ensures o.Done? ==> forall p :: p in plan.desired ==> Get(files, p) == plan.desired[p]
      ensures forall p :: p !in plan.desired ==> Get(files, p) == Get(old(files), p)
      ensures faults == old(faults) ==> o.Done?
    {
      hide Represents, Lists;
      mutated := false;
      ghost var m := ManifestOf(Disk(), j);
      var todo := plan.desired.Keys;
      while todo != {}
        invariant old(faults) <= faults
        invariant Consistent() && !down
        invariant todo <= plan.desired.Keys
        invariant mutated || files == old(files)
        invariant forall p :: p in plan.desired && p !in todo ==> Get(files, p) == plan.desired[p]
        invariant forall p :: p !in plan.desired ==> Get(files, p) == Get(old(files), p)
        decreases |todo|
      {
        var path :| path in todo;
        var fault := Strike();
        if fault.Die? { return Died, mutated; }
        if fault.Raise? { return Raised(Interrupted), mutated; }
        mutated := true;
        fault := Strike();
        if fault.Die? { return Died, mutated; }
        if fault.Raise? { return Raised(Interrupted), mutated; }
        ghost var i := ListedAt(m.records, plan, path);
        FileReplaced(Disk(), view, j, i, plan.desired[path]);
        files := Put(files, path, plan.desired[path]);
        todo := todo - {path};
      }
      return Done, mutated;
    }

    /** Remove the journal of a patch whose files are in place. */
    method Discard(j: JournalId) returns (o: Outcome)
      requires Consistent() && !down && j in journal
      requires HasManifest(Disk(), j) ==> Unfinished(Disk(), j) && (Active(Disk(), j) ==> Clean(Disk(), view, j))
      modifies this`journal, this`unremoved, this`down, this`faults
      ensures old(faults) <= faults
      ensures Consistent() && !o.Raised? && (o.Died? <==> down)
      ensures journal == old(journal) || journal == old(journal) - {j}
      ensures o.Done? && j in journal ==> j in unremoved
      ensures faults == old(faults) ==> o.Done? && j !in journal
    {
      hide Represents;
      ghost var after := Disk().(journal := journal - {j});
      if journal[j].manifest.Some? {
        Closed(Disk(), view, j);
      } else {
        StagingInvisible(Disk(), after, view, j);
      }
      o := RemoveDirectory(j);
    }

    /** The manifest a patch commits under. */
    function ManifestFor(r: Request, j: JournalId, plan: Plan, records: seq<Record>, phase: Phase): Manifest {
      Manifest(r.key, FingerprintOf(r), r.binding, ResultOf(r, j, plan), phase, records)
    }

    /** The journal is this attempt's, with no file out of place. */
    ghost predicate Attempt(r: Request, j: JournalId)
      reads this`files, this`journal, this`rows, this`view
    {
      HasManifest(Disk(), j) ==>
        && Unfinished(Disk(), j) && ManifestOf(Disk(), j).key == r.key
        && (Active(Disk(), j) ==> Clean(Disk(), view, j))
    }

    /** The manifest, prepared and then committing. */
    method Announce(r: Request, j: JournalId, plan: Plan, records: seq<Record>) returns (o: Outcome)
      requires Consistent() && !down && NoClash(Disk(), r.key, r.base.Keys)
      requires j in journal && journal[j].manifest.None?
      requires Recorded(records, journal[j].backups, plan, files, plan.desired.Keys) && r.key !in view.applied
      requires plan.desired.Keys == r.base.Keys
      requires r.key in rows && rows[r.key] == Running(FingerprintOf(r), r.binding)
      modifies this`journal, this`down, this`faults
      ensures old(faults) <= faults
      ensures Consistent() && (o.Died? <==> down)
      ensures j in journal && journal == old(journal)[j := journal[j]]
      ensures Attempt(r, j)
      ensures o.Done? ==> journal[j].manifest == Some(ManifestFor(r, j, plan, records, Committing))
      ensures o.Done? ==> Lists(records, plan)
      ensures faults == old(faults) ==> o.Done?
    {
      hide Represents, Recorded, Lists;
      var fault := Strike();
      if fault.Die? { return Died; }
      if fault.Raise? { return Raised(Interrupted); }
      ghost var before := Disk();
      OpenedByBackups(before, view, r, j, plan, records);
      journal := journal[j := journal[j].(manifest := Some(ManifestFor(r, j, plan, records, Prepared)))];
      assert Disk() == WithManifest(before, j, ManifestFor(r, j, plan, records, Prepared));
      fault := Strike();
      if fault.Die? { return Died; }
      if fault.Raise? { return Raised(Interrupted); }
      before := Disk();
      PhaseChanged(before, view, j, Committing);
      journal := journal[j := journal[j].(manifest := Some(ManifestFor(r, j, plan, records, Committing)))];
      assert Disk() == WithManifest(before, j, ManifestFor(r, j, plan, records, Committing));
      return Done;
    }

    method CreateJournal(j: JournalId)
      requires Consistent() && j !in journal
      modifies this`journal
      ensures Consistent() && journal == old(journal)[j := Transaction(None, map[])]
    {
      hide Represents;
      ghost var before := Disk();
      journal := journal[j := Transaction(None, map[])];
      StagingInvisible(before, Disk(), view, j);
    }

    /** The directory with its backups. */
    method Prepare(r: Request, j: JournalId, plan: Plan) returns (o: Outcome, records: seq<Record>)
      requires Consistent() && !down && j !in journal && NoClash(Disk(), r.key, r.base.Keys)
      requires plan.desired.Keys == r.base.Keys
      modifies this`journal, this`down, this`faults
      ensures old(faults) <= faults
      ensures Consistent() && (o.Died? <==> down) && NoClash(Disk(), r.key, r.base.Keys)
      ensures j in journal && journal == old(journal)[j := journal[j]] && journal[j].manifest.None?
      ensures o.Done? ==> Recorded(records, journal[j].backups, plan, files, plan.desired.Keys)
      ensures faults == old(faults) && AsDeclared(files, r.base) ==> o.Done?
    {
      hide Represents, Recorded, NoClash;
      ghost var before := Disk();
      CreateJournal(j);
      o, records := WriteBackups(r, j, plan);
      NoClashStays(before, Disk(), r.key, r.base.Keys);
    }

    /** Everything before the first file changes. */
    method Stage(r: Request, j: JournalId, plan: Plan) returns (o: Outcome, records: seq<Record>)
      requires Consistent() && !down && j !in journal && NoClash(Disk(), r.key, r.base.Keys)
      requires plan.desired.Keys == r.base.Keys && r.key !in view.applied
      requires r.key in rows && rows[r.key] == Running(FingerprintOf(r), r.binding)
      modifies this`journal, this`unremoved, this`down, this`faults
      ensures old(faults) <= faults
      ensures Consistent() && (o.Died? <==> down)
      ensures journal - {j} == old(journal) && Attempt(r, j)
      ensures o.Raised? && j in journal ==> j in unremoved
      ensures o.Done? ==> j in journal && journal[j].manifest == Some(ManifestFor(r, j, plan, records, Committing))
      ensures o.Done? ==> Lists(records, plan)
      ensures faults == old(faults) && AsDeclared(files, r.base) ==> o.Done?
    {
      hide Represents, Recorded, Lists, FingerprintOf, ResultOf, ManifestFor, NoClash;
      records := [];
      var fault := Strike();
      if fault.Die? { return Died, records; }
      if fault.Raise? { return Raised(Interrupted), records; }
      o, records := Prepare(r, j, plan);
      if o.Done? {
        o := Announce(r, j, plan, records);
      }
      assert journal - {j} == old(journal);
      if o.Raised? {
        var discarded := Discard(j);
        if discarded.Died? { o := Died; }
      }
    }

    /** The committed manifest: the patch takes effect with this one write. */
    method Seal(r: Request, j: JournalId, plan: Plan, records: seq<Record>) returns (o: Outcome)
      requires Consistent() && !down && j in journal && r.key in rows
      requires journal[j].manifest == Some(ManifestFor(r, j, plan, records, Committing)) && Lists(records, plan)
      requires forall p :: p in plan.desired ==> Get(files, p) == plan.desired[p]
      modifies this`journal, this`view, this`down, this`faults
      ensures old(faults) <= faults
      ensures Consistent() && (o.Died? <==> down)
      ensures o.Done? ==> view == CommitView(old(view), r.key, plan.desired, ResultOf(r, j, plan))
      ensures o.Done? ==>
        journal == old(journal)[j := old(journal)[j].(manifest := Some(ManifestFor(r, j, plan, records, Committed)))]
      ensures !o.Done? ==> view == old(view) && journal == old(journal)
      ensures faults == old(faults) ==> o.Done?
    {
      hide Represents, Lists, CommitView;
      var fault := Strike();
      if fault.Die? { return Died; }
      if fault.Raise? { return Raised(Interrupted); }
      ghost var before := Disk();
      CommittedAsPlanned(before, view, j, plan);
      view := CommitView(view, r.key, plan.desired, ResultOf(r, j, plan));
      journal := journal[j := journal[j].(manifest := Some(ManifestFor(r, j, plan, records, Committed)))];
      assert Disk() == WithManifest(before, j, ManifestFor(r, j, plan, records, Committed));
      return Done;
    }

    /** The handler of a failed commit. */
    method Unwind(r: Request, j: JournalId, mutated: bool) returns (o: Outcome)
      requires Consistent() && !down && Active(Disk(), j) && ManifestOf(Disk(), j).key == r.key
      requires !mutated ==> Clean(Disk(), view, j)
      modifies this`files, this`journal, this`unremoved, this`down, this`faults
      ensures old(faults) <= faults
      ensures Consistent() && (o.Died? <==> down)
      ensures journal - {j} == old(journal) - {j}
      ensures o.Raised? ==> o.error in {RecoveryFailed, Interrupted}
      ensures !o.Died? && o != Raised(RecoveryFailed) ==> Attempt(r, j)
      ensures !o.Died? && o != Raised(RecoveryFailed) ==>
        forall p :: Covers(ManifestOf(old(Disk()), j).records, p) ==> Agrees(p)
      ensures forall p :: !Covers(ManifestOf(old(Disk()), j).records, p) ==> Get(files, p) == Get(old(files), p)
      ensures faults == old(faults) ==> o.Done?
    {
      hide Represents;
      if mutated {
        JournalIsSound(Disk(), view, j);
        o := Rollback(j);
        if !o.Done? { return; }
      }
      o := Discard(j);
    }

    /** From the committing manifest to the committed one, or back. */
    method CarryOut(r: Request, j: JournalId, plan: Plan, records: seq<Record>) returns (o: Outcome)
      requires Consistent() && !down && j in journal && r.key in rows
      requires journal[j].manifest == Some(ManifestFor(r, j, plan, records, Committing)) && Lists(records, plan)
      requires Clean(Disk(), view, j)
      modifies this`files, this`journal, this`view, this`unremoved, this`down, this`faults
      ensures old(faults) <= faults
      ensures Consistent() && (o.Died? <==> down)
      ensures journal - {j} == old(journal) - {j}
      ensures o.Done? ==> view == CommitView(old(view), r.key, plan.desired, ResultOf(r, j, plan))
      ensures o.Done? ==> j in journal && journal[j].manifest == Some(ManifestFor(r, j, plan, records, Committed))
      ensures !o.Done? ==> view == old(view)
      ensures o.Raised? && o.error != RecoveryFailed ==> Attempt(r, j)
      ensures !o.Died? && o != Raised(RecoveryFailed) ==> forall p :: p in plan.desired ==> Agrees(p)
      ensures forall p :: p !in plan.desired ==> Get(files, p) == Get(old(files), p)
      ensures faults == old(faults) ==> o.Done?
    {
      hide Represents, Lists, FingerprintOf, ResultOf;
      ListedPaths(records, plan);
      var mutated;
      o, mutated := ReplaceFiles(j, plan);
      if o.Done? {
        o := Seal(r, j, plan, records);
        if o.Done? { OverlaidPaths(old(view).files, plan.desired); }
      }
      if o.Raised? {
        var error := o.error;
        o := Unwind(r, j, mutated);
        if o.Done? { o := Raised(error); }
      }
    }

    /** Commit a preflighted patch, or leave everything as it was, unless undoing it
      is refused. */
    method Commit(r: Request, j: JournalId, plan: Plan) returns (o: Outcome, ghost records: seq<Record>)
      requires Consistent() && !down && j !in journal && NoClash(Disk(), r.key, r.base.Keys)
      requires plan.desired.Keys == r.base.Keys && r.key !in view.applied
      requires r.key in rows && rows[r.key] == Running(FingerprintOf(r), r.binding)
      modifies this`files, this`journal, this`view, this`unremoved, this`down, this`faults
      ensures old(faults) <= faults
      ensures Consistent() && (o.Died? <==> down)
      ensures journal - {j} == old(journal)
      ensures o.Done? ==> view == CommitView(old(view), r.key, plan.desired, ResultOf(r, j, plan))
      ensures o.Done? ==> j in journal && journal[j].manifest == Some(ManifestFor(r, j, plan, records, Committed))
      ensures !o.Done? ==> view == old(view)
      ensures o.Raised? && o.error != RecoveryFailed ==> Attempt(r, j)
      ensures !o.Died? && o != Raised(RecoveryFailed) ==> forall p :: p in plan.desired ==> Agrees(p)
      ensures forall p :: p !in plan.desired ==> Get(files, p) == Get(old(files), p)
      ensures faults == old(faults) ==> o == if old(AsDeclared(files, r.base)) then Done else Raised(PatchConflict)
    {
      hide FilesRepresent, RowsRepresent, Lists, CommitView, FingerprintOf, ResultOf;
      records := [];
      NoClashAgrees(Disk(), view, r.key, r.base.Keys);
      var fault := Strike();
      if fault.Die? { return Died, records; }
      if fault.Raise? { return Raised(Interrupted), records; }
      if p :| p in r.base && HashAt(files, p) != r.base[p] {
        return Raised(PatchConflict), records;
      }
      var staged;
      o, staged := Stage(r, j, plan);
      records := staged;
      if o.Done? {
        o := CarryOut(r, j, plan, staged);
      }
    }

    /** Look the key up, and when asked, finish the attempt it belongs to. */
    method LookUp(r: Request, reconcile: bool) returns (reply: Option<Reply>)
      requires Consistent() && !down
      modifies this`files, this`journal, this`rows, this`unremoved, this`down, this`faults
      ensures old(faults) <= faults
      ensures Consistent()
      ensures forall p :: old(Agrees(p)) ==> Agrees(p)
      ensures down <==> reply == Some(Lost)
      ensures reply.None? ==> r.key !in rows && r.key !in view.applied
      ensures reply.Some? && reply.value.Replied? ==> r.key in view.applied && reply.value.result == view.applied[r.key]
      ensures reply.Some? && reply.value.Replied? ==>
        r.key in rows && rows[r.key] == Succeeded(FingerprintOf(r), r.binding, reply.value.result)
      ensures r.key in old(rows) && !SameRequest(old(rows)[r.key], r) ==> reply == Some(Refused(IdempotencyConflict))
      ensures reply != Some(Retry) && reply != Some(Clash)
      ensures OnlyKey(old(Disk()), Disk(), r.key)
      ensures r.key !in old(rows) ==> reply.None? && Disk() == old(Disk())
      ensures Known(old(rows), r) && old(rows)[r.key].Succeeded? ==>
        reply == Some(Replied(old(rows)[r.key].result)) && Disk() == old(Disk())
      ensures Attempted(old(rows), r) && !reconcile ==>
        reply == Some(Refused(OutcomeUnknown)) && Disk() == old(Disk())
      ensures Attempted(old(rows), r) && reconcile && faults == old(faults) ==>
        && reply == (if r.key in view.applied then Some(Replied(view.applied[r.key])) else None)
        && KeyLeft(Disk(), r.key, {})
    {
      hide FilesRepresent, FingerprintOf, OnlyKey;
      OnlyKeyNothing(Disk(), r.key);
      if r.key !in rows {
        UnknownKey(Disk(), view, r.key);
        return None;
      }
      if !SameRequest(rows[r.key], r) {
        return Some(Refused(IdempotencyConflict));
      }
      if rows[r.key].Succeeded? {
        return Some(Replied(rows[r.key].result));
      }
      if reconcile {
        var o := ReconcileIncompleteAttempt(r);
        if o.Died? { return Some(Lost); }
        if o.Raised? { return Some(Refused(o.error)); }
        if r.key !in rows {
          UnknownKey(Disk(), view, r.key);
          return None;
        }
        return Some(Replied(rows[r.key].result));
      }
      return Some(Refused(OutcomeUnknown));
    }

    /** Before asking the user about a redelivered patch: its stored or recovered
      result, or the proof that it may be tried afresh. A rollback that was
      refused earlier is made good. */
    method ReconcileDuplicate(r: Request) returns (reply: Reply)
      requires Consistent() && !down
      modifies this`files, this`journal, this`rows, this`unremoved, this`down, this`faults
      ensures old(faults) <= faults
      ensures Consistent()
      ensures forall p :: old(Agrees(p)) ==> Agrees(p)
      ensures down <==> reply.Lost?
      ensures reply.Retry? ==> r.key !in rows && r.key !in view.applied
      ensures reply.Replied? ==> r.key in view.applied && reply.result == view.applied[r.key]
      ensures reply.Replied? ==> r.key in rows && rows[r.key] == Succeeded(FingerprintOf(r), r.binding, reply.result)
      ensures reply.Retry? || reply.Replied? ==> AttemptsClean(Disk(), view, r.key)
      ensures (reply.Retry? || reply.Replied?) && ActiveOnly(old(Disk()), r.key) ==> files == view.files
      ensures reply != Clash
      ensures faults == old(faults) ==> reply == DuplicateAnswer(old(Disk()), old(view), r)
    {
      hide Represents, FilesRepresent, FingerprintOf;
      ghost var only := ActiveOnly(Disk(), r.key);
      var found := LookUp(r, true);
      reply := if found.None? then Retry else found.value;
      if reply.Retry? || reply.Replied? {
        KeyIsClean(Disk(), view, r.key);
        if only { OnlyCleanLeft(Disk(), view, r.key); }
      }
    }

    /** The row of a patch that did not commit goes, unless its rollback failed. */
    method ForgetAttempt(r: Request, error: PatchError) returns (reply: Reply)
      requires Consistent() && !down && r.key !in view.applied
      requires error != RecoveryFailed ==>
        forall i :: Active(Disk(), i) && ManifestOf(Disk(), i).key == r.key ==> Clean(Disk(), view, i)
      modifies this`rows, this`down, this`faults
      ensures old(faults) <= faults
      ensures Consistent() && (down <==> reply.Lost?)
      ensures reply == Lost || reply == Refused(error) || (error != RecoveryFailed && reply == Refused(Interrupted))
      ensures faults == old(faults) ==> reply == Refused(error)
    {
      hide Represents;
      if error != RecoveryFailed {
        var fault := Strike();
        if fault.Die? { return Lost; }
        if fault.Raise? { return Refused(Interrupted); }
        RowForgotten(Disk(), view, r.key);
        rows := rows - {r.key};
      }
      return Refused(error);
    }

    /** The row of a committed patch, then its journal. */
    method RememberResult(r: Request, j: JournalId, plan: Plan, ghost records: seq<Record>) returns (reply: Reply)
      requires Consistent() && !down && j in journal
      requires journal[j].manifest == Some(ManifestFor(r, j, plan, records, Committed))
      requires r.key in rows && rows[r.key] == Running(FingerprintOf(r), r.binding)
      modifies this`rows, this`journal, this`unremoved, this`down, this`faults
      ensures old(faults) <= faults
      ensures Consistent() && (down <==> reply.Lost?)
      ensures reply == Lost || reply == Refused(Interrupted) || reply == Replied(ResultOf(r, j, plan))
      ensures reply.Replied? ==> r.key in rows && rows[r.key] == Succeeded(FingerprintOf(r), r.binding, reply.result)
      ensures faults == old(faults) ==> reply.Replied? && j !in journal
    {
      hide Represents, FingerprintOf, ResultOf;
      assert HasManifest(Disk(), j);
      var fault := Strike();
      if fault.Die? { return Lost; }
      if fault.Raise? { return Refused(Interrupted); }
      CommittedRowWritten(Disk(), view, j);
      var stored := PutIdempotency(r.key, Succeeded(FingerprintOf(r), r.binding, ResultOf(r, j, plan)));
      assert stored;
      CommittedClosed(Disk(), view, j);
      var removed := RemoveDirectory(j);
      if removed.Died? { return Lost; }
      return Replied(ResultOf(r, j, plan));
    }

    /** Run a preflighted patch whose key is new. */
    method Execute(r: Request, plan: Plan) returns (reply: Reply, ghost j: JournalId)
      requires Consistent() && !down && r.key !in rows && r.key !in view.applied
      requires plan.desired.Keys == r.base.Keys && NoClash(Disk(), r.key, r.base.Keys)
      modifies this
      ensures old(faults) <= faults
      ensures Consistent() && (down <==> reply.Lost?)
      ensures view == old(view) || view == CommitView(old(view), r.key, plan.desired, ResultOf(r, j, plan))
      ensures view == old(view) ==> reply.Lost? || reply.Refused?
      ensures view != old(view) ==> reply == Lost || reply == Refused(Interrupted) || reply == Replied(ResultOf(r, j, plan))
      ensures reply.Replied? ==> r.key in rows && rows[r.key] == Succeeded(FingerprintOf(r), r.binding, reply.result)
      ensures !down && reply != Refused(RecoveryFailed) ==> forall p :: p in plan.desired ==> Agrees(p)
      ensures forall p :: p !in plan.desired && old(Agrees(p)) ==> Agrees(p)
      ensures faults == old(faults) && AsDeclared(old(files), r.base) ==>
        reply == Replied(ResultOf(r, j, plan)) && view == CommitView(old(view), r.key, plan.desired, ResultOf(r, j, plan))
    {
      hide FilesRepresent, RowsRepresent, FingerprintOf, ResultOf, CommitView, NoClash, ManifestFor;
      NoClashAgrees(Disk(), view, r.key, r.base.Keys);
      FreshId(journal.Keys);
      var id: JournalId :| id !in journal.Keys;
      j := id;
      var fault := Strike();
      if fault.Die? { return Lost, j; }
      if fault.Raise? { return Refused(Interrupted), j; }
      ghost var before := Disk();
      StartingRow(Disk(), view, r, Running(FingerprintOf(r), r.binding));
      var stored := PutIdempotency(r.key, Running(FingerprintOf(r), r.binding));
      assert stored;
      NoClashStays(before, Disk(), r.key, r.base.Keys);
      CommitAdds(view, r.key, plan.desired, ResultOf(r, id, plan));
      OffPath(view, r.key, plan.desired, ResultOf(r, id, plan));
      ghost var records;
      var o;
      o, records := Commit(r, id, plan);
      if o.Died? { return Lost, j; }
      if o.Raised? {
        OnlyAttempt(before, Disk(), r.key, r.base.Keys, id);
        reply := ForgetAttempt(r, o.error);
        return;
      }
      reply := RememberResult(r, id, plan, records);
    }

    /** Parse and preflight. */
    method Examine(r: Request) returns (checked: Result<Plan, PatchError>)
      ensures checked.Success? ==> Planned(r, files, platform, checked.value)
      ensures checked.Failure? ==> !Fits(r, files, platform) && Rejects(r, files, platform, checked.error)
    {
      hide Acceptable, Follows, Refuses, PatchGrammar.ParseDocument;
      var parsed := PatchGrammar.Parse(r.document);
      if parsed.Failure? {
        return Failure(if parsed.error.InvalidPath? then InvalidPath else InvalidPatch);
      }
      checked := Preflight(files, parsed.value, r.base, platform);
    }

    /** One patch call. */
    method Apply(r: Request, reconcile: bool) returns (reply: Reply, ghost effect: Option<Effect>)
      requires Consistent() && !down
      modifies this
      ensures old(faults) <= faults
      ensures Consistent() && (down <==> reply.Lost?)
      ensures !down && reply != Refused(RecoveryFailed) ==> forall p :: old(Agrees(p)) ==> Agrees(p)
      ensures effect.None? ==> view == old(view)
      ensures effect.Some? ==> effect.value.request == r
      ensures effect.Some? ==> Enabled(old(view), effect.value, platform) && view == After(old(view), effect.value)
      ensures reply.Replied? && !r.dryRun ==> r.key in view.applied && reply.result == view.applied[r.key]
      ensures reply.Replied? && !r.dryRun ==>
        r.key in rows && rows[r.key] == Succeeded(FingerprintOf(r), r.binding, reply.result)
      ensures r.key in old(rows) && !SameRequest(old(rows)[r.key], r) ==> effect.None? && !reply.Replied?
      ensures reply.Refused? && effect.Some? ==> reply.error == Interrupted
      ensures reply == Clash ==> effect.None? && Clashes(r) && !r.dryRun && r.key !in rows
      ensures reply != Retry
      ensures effect.Some? && reply.Replied? ==>
        forall p :: p in effect.value.plan.desired ==> Get(files, p) == effect.value.plan.desired[p]
      ensures faults == old(faults) ==> ApplyAnswer(old(Disk()), old(view), r, reconcile, platform, reply, effect)
    {
      hide Represents, FilesRepresent, RowsRepresent, CommitView, Acceptable, Follows, PatchGrammar.ParseDocument,
           FingerprintOf, Rejects, Planned, Fits, Reverted, InTheWay, OnlyKey, ResultOf, NoClash, Blocks, AsDeclared,
           KeyLeft;
      effect := None;
      var fault := Strike();
      if fault.Die? { return Lost, None; }
      if fault.Raise? { return Refused(Interrupted), None; }
      if !(8 <= |r.key| <= 200) {
        return Refused(InvalidRequest), None;
      }
      var found := LookUp(r, reconcile);
      if found.Some? {
        return found.value, None;
      }
      if faults == old(faults) { LookedUp(old(Disk()), Disk(), view, r); }
      var checked := Examine(r);
      if checked.Failure? {
        return Refused(checked.error), None;
      }
      var plan := checked.value;
      PlanFits(r, files, platform, plan);
      if r.dryRun {
        return Replied(ResultOf(r, "", plan)), None;
      }
      if Clashes(r) {
        return Clash, None;
      }
      NoBlocks(Disk(), r.key, r.base.Keys);
      PlanIsDeclared(r, files, platform, plan);
      PlannedPaths(r, files, platform, plan);
      PlannedForView(Disk(), view, r, platform, plan);
      ghost var j;
      ghost var before := view;
      reply, j := Execute(r, plan);
      CommitAdds(before, r.key, plan.desired, ResultOf(r, j, plan));
      OnPath(before, r.key, plan.desired, ResultOf(r, j, plan));
      if view != before {
        effect := Some(Effect(r, j, plan));
      }
    }

    /** All or nothing: after a patch call that may have died anywhere or been
      refused its rollback, and any number of recoveries of which only the last
      came to its end, either every file and every stored result is as it was,
      or every touched file has its new content and the row says so, with the
      result of the patch. */
    method ApplyAndRecover(r: Request, reconcile: bool, failures: nat)
      returns (recovered: bool, ghost effect: Option<Effect>)
      requires Consistent() && !down
      modifies this
      ensures old(faults) <= faults
      ensures Consistent()
      ensures recovered ==> !down && forall j :: HasManifest(Disk(), j) ==> j in unremoved && !Active(Disk(), j)
      ensures recovered && effect.None? ==>
        && files == old(view).files
        && ((r.key in rows && rows[r.key].Succeeded?) <==> r.key in old(view).applied)
      ensures recovered && effect.Some? ==>
        && Enabled(old(view), effect.value, platform) && effect.value.request == r
        && (forall p :: Get(files, p) ==
              if p in effect.value.plan.desired then effect.value.plan.desired[p] else Get(old(view).files, p))
        && r.key in rows && rows[r.key].Succeeded? && rows[r.key].result == EffectResult(effect.value)
      ensures faults == old(faults) ==> recovered
    {
      hide Represents, Enabled, EffectResult;
      ghost var before := view;
      var reply;
      reply, effect := Apply(r, reconcile);
      recovered := false;
      var n := 0;
      while n <= failures && !recovered
        invariant old(faults) <= faults
        invariant Consistent() && view == (if effect.Some? then After(before, effect.value) else before)
        invariant recovered ==> !down && files == view.files
        invariant n > 0 && faults == old(faults) ==> recovered
        invariant recovered ==> forall j :: HasManifest(Disk(), j) ==> j in unremoved && !Active(Disk(), j)
        invariant recovered ==> forall k :: k in view.applied <==> k in rows && rows[k].Succeeded?
        invariant recovered ==>
          forall k :: k in view.applied ==> k in rows && rows[k].Succeeded? && rows[k].result == view.applied[k]
      {
        var o := Recover();
        recovered := o.Done?;
        n := n + 1;
      }
      if effect.Some? {
        AfterEffect(before, effect.value);
      }
    }

    /** Serve one call. While the process is down, only a restart is heard. */
    method Serve(call: Call) returns (reply: Reply, ghost effect: Option<Effect>)
      requires Consistent()
      modifies this
      ensures old(faults) <= faults
      ensures Consistent()
      ensures !down && reply != Refused(RecoveryFailed) ==> forall p :: old(Agrees(p)) ==> Agrees(p)
      ensures !down && (old(down) || (call.Restart? && reply.Retry?)) ==> files == view.files
      ensures effect.None? ==> view == old(view)
      ensures effect.Some? ==> Enabled(old(view), effect.value, platform) && view == After(old(view), effect.value)
      ensures Grows(old(view), view)
      ensures Answers(call, reply, view)
      ensures reply == Clash ==> call.Apply? && Clashes(call.request)
      ensures Served(call, old(Now()), reply, effect, Now(), platform)
      ensures old(down) && !call.Restart? ==> reply == Lost && Now() == old(Now())
    {
      hide Represents, CommitView, Planned, FingerprintOf, ResultOf;
      effect := None;
      if call.Restart? {
        var o := Recover();
        reply := if o.Done? then Retry else Lost;
      } else if down {
        reply := Lost;
      } else if call.Reconcile? {
        reply := ReconcileDuplicate(call.request);
      } else {
        reply, effect := Apply(call.request, call.reconcile);
        if effect.Some? {
          EffectGrows(old(view), effect.value, platform);
        }
      }
    }

    /** Any run of calls, with any faults, before and after refused rollbacks: the
      visible files and the stored results are those of the patches in the log,
      each applied once and whole, and every answer ever given is the stored
      result of its key. The run is followed to its end, or to the first patch
      that would go over an unfinished journal. */
    method Run(calls: seq<Call>)
      returns (replies: seq<Reply>, ghost log: seq<Effect>, ghost trace: seq<Moment>, ghost effects: seq<Option<Effect>>)
      requires Consistent()
      modifies this
      ensures old(faults) <= faults
      ensures Consistent()
      ensures Legal(old(view), log, platform) && view == Replay(old(view), log)
      ensures |replies| <= |calls| && forall i :: 0 <= i < |replies| ==> Answers(calls[i], replies[i], view)
      ensures |replies| < |calls| ==>
        var n := |replies|; n > 0 && replies[n - 1] == Clash && calls[n - 1].Apply? && Clashes(calls[n - 1].request)
      ensures !down && Unrefused(replies) && old(down || files == view.files) && calls != [] ==> files == view.files
      ensures !down && replies != [] && calls[|replies| - 1].Restart? && replies[|replies| - 1].Retry? ==> files == view.files
      ensures Traced(calls, trace, replies, effects, platform) && trace[0] == old(Now()) && trace[|replies|] == Now()
      ensures log == Effects(effects)
    {
      hide Enabled, After, Represents, Served, Traced, Effects, Legal, Replay, Unrefused;
      replies, log := [], [];
      trace, effects := [Now()], [];
      NoneYet(view, Now(), calls, platform);
      for n := 0 to |calls|
        invariant old(faults) <= faults
        invariant Consistent()
        invariant n == 0 ==> down == old(down) && files == old(files) && view == old(view)
        invariant |replies| == n && forall i :: 0 <= i < n ==> Answers(calls[i], replies[i], view)
        invariant !down && Unrefused(replies) && old(down || files == view.files) && n > 0 ==> files == view.files
        invariant !down && n > 0 && calls[n - 1].Restart? && replies[n - 1].Retry? ==> files == view.files
        invariant Legal(old(view), log, platform) && view == Replay(old(view), log)
        invariant |trace| == n + 1 && Traced(calls, trace, replies, effects, platform)
        invariant trace[0] == old(Now()) && trace[n] == Now()
        invariant log == Effects(effects)
      {
        ghost var before, agreed := view, files == view.files;
        assert agreed ==> forall p :: Agrees(p);
        var reply;
        ghost var effect;
        reply, effect := Serve(calls[n]);
        forall i | 0 <= i < n ensures Answers(calls[i], replies[i], view) {
          AnswersStay(calls[i], replies[i], before, view);
        }
        UnrefusedSnoc(replies, reply);
        if agreed && !down && reply != Refused(RecoveryFailed) {
          AllAgree();
        }
        TracedSnoc(calls, trace, replies, effects, platform, reply, effect, Now());
        replies := replies + [reply];
        EffectsSnoc(effects, effect);
        effects, trace := effects + [effect], trace + [Now()];
        if effect.Some? {
          LegalExtended(old(view), log, effect.value, platform);
          log := log + [effect.value];
        }
        if reply.Clash? {
          return;
        }
      }
    }
  }

  /** The patch may take effect: its key is new and it fits the files. */
  ghost predicate Enabled(v: View, e: Effect, platform: string) {
    e.request.key !in v.applied && !e.request.dryRun && Planned(e.request, v.files, platform, e.plan)
  }

  function EffectResult(e: Effect): ToolResult {
    ResultOf(e.request, e.journal, e.plan)
  }

  function After(v: View, e: Effect): View {
    CommitView(v, e.request.key, e.plan.desired, EffectResult(e))
  }

  lemma AfterEffect(v: View, e: Effect)
    ensures forall p :: Get(After(v, e).files, p) == if p in e.plan.desired then e.plan.desired[p] else Get(v.files, p)
    ensures e.request.key in After(v, e).applied && After(v, e).applied[e.request.key] == EffectResult(e)
  {
    forall p ensures Get(After(v, e).files, p) == if p in e.plan.desired then e.plan.desired[p] else Get(v.files, p) {
      OverlayGet(v.files, e.plan.desired, p);
    }
  }

  /** What a result reports: its request, and for every section the change that the
    section stands for, with the hashes of the old and the new content. */
  lemma ResultReports(r: Request, j: JournalId, files: Files, platform: string, plan: Plan)
    requires Planned(r, files, platform, plan)
    ensures var sections, result := PatchGrammar.ParseDocument(r.document).value, ResultOf(r, j, plan);
      && result.key == r.key && result.journal == j && result.dryRun == r.dryRun && |result.changes| == |sections|
      && forall i :: 0 <= i < |sections| ==>
           PatchContents.Planned(files, sections[i], r.base, platform, plan.desired, result.changes[i])
  {
    hide PatchGrammar.ParseDocument, PatchContents.Planned, PatchContents.Declared, Follows;
    var sections := PatchGrammar.ParseDocument(r.document).value;
    PatchContents.RequestMeans(files, sections, r.base, platform);
    PatchContents.PlanMeans(plan, files, sections, r.base, platform);
  }

  /** What the files show after a patch took effect: at every path its sections
    mention, what the section says of the file that was there. */
  lemma EffectShows(v: View, e: Effect, platform: string)
    requires Enabled(v, e, platform) && TextLines.IsNewline(platform)
    ensures var sections := PatchGrammar.ParseDocument(e.request.document).value;
      && PatchContents.Declared(sections, e.request.base)
      && (forall i :: 0 <= i < |sections| ==>
            PatchContents.SectionShows(v.files, sections[i], platform, e.plan.desired))
      && forall p :: Get(After(v, e).files, p) == if p in e.plan.desired then e.plan.desired[p] else Get(v.files, p)
  {
    hide PatchGrammar.ParseDocument, PatchContents.SectionShows, After, PatchContents.Declared, Follows;
    var sections := PatchGrammar.ParseDocument(e.request.document).value;
    PatchContents.RequestMeans(v.files, sections, e.request.base, platform);
    PatchContents.PlanShows(e.request.document, e.plan, v.files, sections, e.request.base, platform);
    AfterEffect(v, e);
  }

  ghost predicate Grows(v: View, w: View) {
    forall k :: k in v.applied ==> k in w.applied && w.applied[k] == v.applied[k]
  }

  /** A real result handed out is the stored result of its key. */
  ghost predicate Answers(call: Call, reply: Reply, v: View) {
    !call.Restart? && reply.Replied? && !call.request.dryRun ==>
      call.request.key in v.applied && reply.result == v.applied[call.request.key]
  }

  lemma AnswersStay(call: Call, reply: Reply, v: View, w: View)
    requires Answers(call, reply, v) && Grows(v, w)
    ensures Answers(call, reply, w)
  {
  }

  lemma EffectGrows(v: View, e: Effect, platform: string)
    requires Enabled(v, e, platform)
    ensures Grows(v, After(v, e))
  {
  }

  /** The view after the effects of a log, in order. */
  function Replay(v: View, log: seq<Effect>): View {
    if log == [] then v else After(Replay(v, log[..|log| - 1]), log[|log| - 1])
  }

  ghost predicate Legal(v: View, log: seq<Effect>, platform: string) {
    forall i :: 0 <= i < |log| ==> Enabled(Replay(v, log[..i]), log[i], platform)
  }

  lemma LegalExtended(v: View, log: seq<Effect>, e: Effect, platform: string)
    requires Legal(v, log, platform) && Enabled(Replay(v, log), e, platform)
    ensures Legal(v, log + [e], platform) && Replay(v, log + [e]) == After(Replay(v, log), e)
  {
    hide Enabled, After;
    var all := log + [e];
    assert all[..|log|] == log;
    forall i | 0 <= i < |all| ensures Enabled(Replay(v, all[..i]), all[i], platform) {
      if i < |log| {
        assert all[..i] == log[..i] && all[i] == log[i];
      }
    }
  }

  ghost predicate Mentions(log: seq<Effect>, k: Key) {
    exists i :: 0 <= i < |log| && log[i].request.key == k
  }

  /** The stored results are those from before and those of the log. */
  lemma {:induction false} StoredKeys(v: View, log: seq<Effect>, k: Key)
    ensures k in Replay(v, log).applied <==> k in v.applied || Mentions(log, k)
  {
    hide EffectResult, Overlay;
    if log != [] {
      var n := |log| - 1;
      StoredKeys(v, log[..n], k);
      if Mentions(log[..n], k) {
        var i :| 0 <= i < n && log[..n][i].request.key == k;
        assert log[i].request.key == k;
      }
      if Mentions(log, k) && log[n].request.key != k {
        var i :| 0 <= i < |log| && log[i].request.key == k;
        assert log[..n][i].request.key == k;
      }
    }
  }

  /** What a legal log stored for a key stays stored. */
  lemma {:induction false} StoredStays(v: View, log: seq<Effect>, platform: string, n: nat)
    requires Legal(v, log, platform) && n <= |log|
    ensures Grows(Replay(v, log[..n]), Replay(v, log))
    decreases |log|
  {
    hide EffectResult, Overlay, Planned;
    if n == |log| {
      assert log[..n] == log;
    } else {
      var m := |log| - 1;
      assert Enabled(Replay(v, log[..m]), log[m], platform);
      LegalPrefix(v, log, m, platform);
      StoredStays(v, log[..m], platform, n);
      assert log[..m][..n] == log[..n];
    }
  }

  /** Once only: no key is in a legal log twice, none of its keys was applied
    before it, and what is stored in the end is the result of its entry. */
  lemma OnceOnly(v: View, log: seq<Effect>, platform: string, i: nat)
    requires Legal(v, log, platform) && i < |log|
    ensures log[i].request.key !in v.applied
    ensures forall k :: 0 <= k < |log| && k != i ==> log[k].request.key != log[i].request.key
    ensures log[i].request.key in Replay(v, log).applied
    ensures Replay(v, log).applied[log[i].request.key] == EffectResult(log[i])
  {
    hide EffectResult, Overlay, Planned, Replay;
    assert Enabled(Replay(v, log[..i]), log[i], platform);
    StoredKeys(v, log[..i], log[i].request.key);
    forall k | i < k < |log| ensures log[k].request.key != log[i].request.key {
      assert Enabled(Replay(v, log[..k]), log[k], platform);
      StoredKeys(v, log[..k], log[i].request.key);
      assert log[..k][i].request.key == log[i].request.key;
    }
    forall k | 0 <= k < i ensures log[k].request.key != log[i].request.key {
      assert log[..i][k].request.key == log[k].request.key;
    }
    ReplayNext(v, log, i);
    StoredStays(v, log, platform, i + 1);
  }

  lemma ReplayNext(v: View, log: seq<Effect>, i: nat)
    requires i < |log|
    ensures Replay(v, log[..i + 1]) == After(Replay(v, log[..i]), log[i])
  {
    assert log[..i + 1][..i] == log[..i] && log[..i + 1][i] == log[i];
  }

  lemma LegalPrefix(v: View, log: seq<Effect>, n: nat, platform: string)
    requires Legal(v, log, platform) && n <= |log|
    ensures Legal(v, log[..n], platform)
  {
    hide Enabled, Replay;
    forall i | 0 <= i < n ensures Enabled(Replay(v, log[..n][..i]), log[..n][i], platform) {
      assert log[..n][..i] == log[..i] && log[..n][i] == log[i];
    }
  }

  /** All or nothing: a path holds what the last patch of the log that touched
    it wanted, or what it held at the start. */
  lemma {:induction false} LastPatchWins(v: View, log: seq<Effect>, p: Path, i: nat)
    requires i <= |log|
    requires i > 0 ==> p in log[i - 1].plan.desired
    requires forall k :: i <= k < |log| ==> p !in log[k].plan.desired
    ensures Get(Replay(v, log).files, p) == if i > 0 then log[i - 1].plan.desired[p] else Get(v.files, p)
  {
    if log != [] {
      var n := |log| - 1;
      OverlayGet(Replay(v, log[..n]).files, log[n].plan.desired, p);
      if i <= n {
        LastPatchWins(v, log[..n], p, i);
      }
    }
  }

  lemma PlannedPaths(r: Request, files: Files, platform: string, plan: Plan)
    requires Planned(r, files, platform, plan)
    ensures plan.desired.Keys == r.base.Keys
  {
    PlanFitsFiles(plan, files, PatchGrammar.ParseDocument(r.document).value, r.base, platform);
  }

  /** A key without a row was never applied. */
  lemma UnknownKey(d: PatchView.Disk, v: View, k: Key)
    requires RowsRepresent(d, v) && k !in d.rows
    ensures k !in v.applied
  {
    assert forall j :: HasManifest(d, j) && ManifestOf(d, j).phase.Committed? ==> ManifestOf(d, j).key != k;
  }

  lemma CommitAdds(v: View, k: Key, desired: map<Path, Option<Bytes>>, result: ToolResult)
    ensures k in CommitView(v, k, desired, result).applied && CommitView(v, k, desired, result).applied[k] == result
  {
  }

  lemma {:induction false} LengthBound(ids: set<JournalId>) returns (n: nat)
    ensures forall s :: s in ids ==> |s| < n
  {
    n := 0;
    if ids != {} {
      var s :| s in ids;
      var rest := LengthBound(ids - {s});
      n := if |s| < rest then rest else |s| + 1;
    }
  }

  lemma FreshId(ids: set<JournalId>)
    ensures exists s: JournalId :: s !in ids
  {
    var n := LengthBound(ids);
    var s: JournalId := seq(n, _ => '0');
    assert |s| == n && s !in ids;
  }

  /** The records name the plan's paths and the hashes of its contents. */
  ghost predicate Lists(records: seq<Record>, plan: Plan) {
    && (forall p :: p in plan.desired <==> Covers(records, p))
    && forall i :: 0 <= i < |records| ==>
         records[i].path in plan.desired && records[i].desired == Some(Hash(plan.desired[records[i].path]))
  }

  lemma ListedAt(records: seq<Record>, plan: Plan, path: Path) returns (i: nat)
    requires Lists(records, plan) && path in plan.desired
    ensures i < |records| && records[i].path == path && records[i].desired == Some(Hash(plan.desired[path]))
  {
    assert Covers(records, path);
    i :| 0 <= i < |records| && records[i].path == path;
  }

  /** The records and backups cover exactly these paths of the plan. */
  ghost predicate Recorded(records: seq<Record>, backups: map<nat, Bytes>, plan: Plan, files: Files, paths: set<Path>) {
    && DistinctPaths(records)
    && (forall p :: p in paths <==> Covers(records, p))
    && (forall b :: b in backups ==> b < |records|)
    && forall i :: 0 <= i < |records| ==>
         && records[i].path in plan.desired
         && Protects(records[i], backups, Get(files, records[i].path))
         && records[i].desired == Some(Hash(plan.desired[records[i].path]))
  }

  lemma NothingRecorded(backups: map<nat, Bytes>, plan: Plan, files: Files)
    requires backups == map[]
    ensures Recorded([], backups, plan, files, {})
  {
  }

  lemma RecordAdded(records: seq<Record>, backups: map<nat, Bytes>, plan: Plan, files: Files, paths: set<Path>,
                    record: Record)
    requires Recorded(records, backups, plan, files, paths)
    requires record.path !in paths && record.path in plan.desired
    requires record.existed == (record.path in files) && record.original == HashAt(files, record.path)
    requires record.backup == if record.existed then Some(|records|) else None
    requires record.desired == Some(Hash(plan.desired[record.path]))
    ensures var after := if record.existed then backups[|records| := files[record.path]] else backups;
      Recorded(records + [record], after, plan, files, paths + {record.path})
  {
    var all := records + [record];
    var after := if record.existed then backups[|records| := files[record.path]] else backups;
    forall i | 0 <= i < |all|
      ensures Protects(all[i], after, Get(files, all[i].path))
    {
      if i < |records| {
        assert all[i] == records[i];
        assert Covers(records, records[i].path);
      }
    }
    forall p ensures p in paths + {record.path} <==> Covers(all, p) {
      if Covers(records, p) {
        var i :| 0 <= i < |records| && records[i].path == p;
        assert all[i].path == p;
      }
      if p == record.path { assert all[|records|].path == p; }
    }
    forall i, k | 0 <= i < k < |all| ensures all[i].path != all[k].path {
      assert Covers(records, records[i].path);
    }
  }

  function Reporting(errors: seq<Path>, r: (Files, seq<Path>)): (Files, seq<Path>) {
    (r.0, errors + r.1)
  }

  lemma ReportingTwice(a: seq<Path>, b: seq<Path>, r: (Files, seq<Path>))
    ensures Reporting(a, Reporting(b, r)) == Reporting(a + b, r)
    ensures Reporting([], r) == r
  {
    assert a + (b + r.1) == a + b + r.1;
    assert [] + r.1 == r.1;
  }

  lemma NothingRestored(files: Files, records: seq<Record>, backups: map<nat, Bytes>, legacy: map<Path, Option<Digest>>)
    ensures RestoredBut(files, files, records, |records|, backups, legacy, [])
    ensures PartlyRestored(files, files, records, backups, legacy)
  {
  }

  lemma RestoreStep(found: Files, files: Files, records: seq<Record>, n: nat, backups: map<nat, Bytes>,
                    legacy: map<Path, Option<Digest>>, errors: seq<Path>)
    requires 0 < n <= |records| && DistinctPaths(records) && BackupsIntact(records, backups)
    requires PartlyRestored(found, files, records, backups, legacy)
    requires RestoredBut(found, files, records, n, backups, legacy, errors)
    ensures var step := RestoreRecord(files, records[n - 1], backups, legacy);
      var next := if step.Some? then step.value else files;
      && RestoreAll(files, records[..n], backups, legacy)
         == Reporting(if step.None? then [records[n - 1].path] else [], RestoreAll(next, records[..n - 1], backups, legacy))
      && PartlyRestored(found, next, records, backups, legacy)
  {
    var r := records[n - 1];
    assert BackupsIntact([r], backups);
    RestoreRecordEffect(files, r, backups, legacy);
    RefusedLocal(found, files, r, backups, legacy);
    assert |records[..n]| == n && records[..n][n - 1] == r && records[..n][..n - 1] == records[..n - 1];
    assert Covers(records, r.path);
    var step := RestoreRecord(files, r, backups, legacy);
    if step.Some? {
      ReportingTwice([], [], RestoreAll(step.value, records[..n - 1], backups, legacy));
    }
  }

  /** What a rollback, finished or not, leaves. */
  lemma RollbackKeeps(d: PatchView.Disk, files: Files, v: View, j: JournalId, marked: bool, complete: bool)
    requires Represents(d, v) && Active(d, j)
    requires var m := ManifestOf(d, j);
      var legacy := DesiredHashes(m.result.changes);
      && PartlyRestored(d.files, files, m.records, d.journal[j].backups, legacy)
      && (complete ==> files == RestoreAll(d.files, m.records, d.journal[j].backups, legacy).0)
      && (marked ==> complete)
    ensures var after := d.(files := files);
      Represents(if marked then WithManifest(after, j, ManifestOf(d, j).(phase := RolledBack)) else after, v)
    ensures forall p :: Get(d.files, p) == Get(v.files, p) ==> Get(files, p) == Get(v.files, p)
    ensures var m := ManifestOf(d, j);
      RestoreAll(d.files, m.records, d.journal[j].backups, DesiredHashes(m.result.changes)).1 == []
    ensures complete ==> forall p :: Covers(ManifestOf(d, j).records, p) ==> Get(files, p) == Get(v.files, p)
  {
    hide Represents, PartlyRestored, RestoreAll;
    var after := d.(files := files);
    PartialRollback(d, after, v, j, DesiredHashes(ManifestOf(d, j).result.changes));
    RollbackSucceeds(d, v, j, DesiredHashes(ManifestOf(d, j).result.changes));
    if marked {
      PhaseChanged(after, v, j, RolledBack);
    }
  }

  lemma UndoneRowDeleted(d: PatchView.Disk, v: View, j: JournalId)
    requires Represents(d, v) && Unfinished(d, j) && !Active(d, j)
    ensures Represents(d.(rows := d.rows - {ManifestOf(d, j).key}), v)
  {
    hide FilesRepresent;
    RowForgotten(d, v, ManifestOf(d, j).key);
  }

  lemma JournalIsSound(d: PatchView.Disk, v: View, j: JournalId)
    requires Represents(d, v) && HasManifest(d, j)
    ensures Sound(d, j)
  {
    if Active(d, j) { RollbackSucceeds(d, v, j, map[]); }
  }

  /** What recovering one journal leaves of the others. */
  lemma OthersSettled(d: PatchView.Disk, e: PatchView.Disk, v: View, j: JournalId)
    requires Represents(d, v) && HasManifest(d, j) && e.journal - {j} == d.journal - {j}
    requires e.rows == if Unfinished(d, j) then d.rows - {ManifestOf(d, j).key}
                       else d.rows[ManifestOf(d, j).key := SucceededRow(ManifestOf(d, j))]
    ensures forall i :: i != j ==> (i in d.journal <==> i in e.journal) && (i in d.journal ==> e.journal[i] == d.journal[i])
    ensures forall i :: i != j && HasManifest(d, i) && ManifestOf(d, i).phase.Committed? ==>
      (ManifestOf(d, i).key in d.rows && d.rows[ManifestOf(d, i).key].Succeeded? ==>
         ManifestOf(d, i).key in e.rows && e.rows[ManifestOf(d, i).key].Succeeded?)
  {
    SameElsewhere(d.journal, e.journal, j);
    if Unfinished(d, j) { assert Pending(d, v, ManifestOf(d, j)); }
  }

  lemma SameElsewhere(d: Journal, e: Journal, j: JournalId)
    requires e - {j} == d - {j}
    ensures forall i :: i != j ==> (i in d <==> i in e) && (i in d ==> e[i] == d[i])
  {
    forall i | i != j ensures (i in d <==> i in e) && (i in d ==> e[i] == d[i]) {
      assert i in d <==> i in d - {j};
      assert i in e <==> i in e - {j};
      assert i in d ==> (d - {j})[i] == d[i];
      assert i in e ==> (e - {j})[i] == e[i];
    }
  }

  lemma AllSettled(d: PatchView.Disk, v: View)
    requires Represents(d, v)
    requires forall j :: HasManifest(d, j) ==> !Active(d, j) && (ManifestOf(d, j).phase.Committed? ==>
      ManifestOf(d, j).key in d.rows && d.rows[ManifestOf(d, j).key].Succeeded?)
    ensures d.files == v.files
    ensures forall k :: k in v.applied <==> k in d.rows && d.rows[k].Succeeded?
    ensures forall k :: k in v.applied ==> d.rows[k].result == v.applied[k]
  {
    AtRest(d, v);
  }

  /** The manifest forbids another patch of this key or of these paths. */
  predicate Blocks(m: Manifest, k: Key, paths: set<Path>) {
    && !m.phase.Committed?
    && (m.key == k || (!m.phase.RolledBack? && exists i :: 0 <= i < |m.records| && m.records[i].path in paths))
  }

  lemma NoClashStays(d: PatchView.Disk, e: PatchView.Disk, k: Key, paths: set<Path>)
    requires NoClash(d, k, paths)
    requires forall j :: HasManifest(e, j) ==> HasManifest(d, j) && ManifestOf(e, j) == ManifestOf(d, j)
    ensures NoClash(e, k, paths)
  {
    assert forall j :: Unfinished(e, j) ==> Unfinished(d, j);
    assert forall j :: Active(e, j) ==> Active(d, j);
  }

  lemma BackedUp(d: PatchView.Disk, v: View, m: Manifest, backups: map<nat, Bytes>, plan: Plan)
    requires m.phase.Prepared? && Recorded(m.records, backups, plan, d.files, plan.desired.Keys)
    requires forall p :: p in plan.desired ==> Get(d.files, p) == Get(v.files, p)
    ensures Undoable(m, backups, d.files, v.files) && Lists(m.records, plan)
    ensures forall p :: Covers(m.records, p) ==> p in plan.desired
  {
    forall i | 0 <= i < |m.records|
      ensures Protects(m.records[i], backups, Get(v.files, m.records[i].path))
      ensures Get(d.files, m.records[i].path) == Get(v.files, m.records[i].path)
    {
      assert Covers(m.records, m.records[i].path);
    }
  }

  lemma OpenedByBackups(d: PatchView.Disk, v: View, r: Request, j: JournalId, plan: Plan, records: seq<Record>)
    requires Represents(d, v) && j in d.journal && d.journal[j].manifest.None? && NoClash(d, r.key, r.base.Keys)
    requires plan.desired.Keys == r.base.Keys
    requires Recorded(records, d.journal[j].backups, plan, d.files, plan.desired.Keys)
    requires r.key !in v.applied && r.key in d.rows && d.rows[r.key] == Running(FingerprintOf(r), r.binding)
    ensures Lists(records, plan)
    ensures var m := Manifest(r.key, FingerprintOf(r), r.binding, ResultOf(r, j, plan), Prepared, records);
      Represents(WithManifest(d, j, m), v) && Active(WithManifest(d, j, m), j) && Clean(WithManifest(d, j, m), v, j)
  {
    hide FilesRepresent, RowsRepresent, Recorded, Lists, NoClash, Undoable, FingerprintOf, ResultOf;
    NoClashAgrees(d, v, r.key, r.base.Keys);
    var m := Manifest(r.key, FingerprintOf(r), r.binding, ResultOf(r, j, plan), Prepared, records);
    BackedUp(d, v, m, d.journal[j].backups, plan);
    Opened(d, v, j, m, r.base.Keys);
  }

  lemma CommittedAsPlanned(d: PatchView.Disk, v: View, j: JournalId, plan: Plan)
    requires Represents(d, v) && Active(d, j) && ManifestOf(d, j).key in d.rows && Lists(ManifestOf(d, j).records, plan)
    requires forall p :: p in plan.desired ==> Get(d.files, p) == plan.desired[p]
    ensures var m := ManifestOf(d, j);
      Represents(WithManifest(d, j, m.(phase := Committed)), CommitView(v, m.key, plan.desired, m.result))
  {
    hide CommitView, Represents;
    CommitPoint(d, v, j, plan.desired);
  }

  lemma ListedPaths(records: seq<Record>, plan: Plan)
    requires Lists(records, plan)
    ensures forall p :: p in plan.desired <==> Covers(records, p)
  {
  }

  lemma OverlaidPaths(files: Files, desired: map<Path, Option<Bytes>>)
    ensures forall p :: Get(Overlay(files, desired), p) == if p in desired then desired[p] else Get(files, p)
  {
    forall p ensures Get(Overlay(files, desired), p) == if p in desired then desired[p] else Get(files, p) {
      OverlayGet(files, desired, p);
    }
  }

  lemma OnPath(v: View, k: Key, desired: map<Path, Option<Bytes>>, result: ToolResult)
    ensures forall p :: p in desired ==> Get(CommitView(v, k, desired, result).files, p) == desired[p]
  {
    OverlaidPaths(v.files, desired);
  }

  lemma PlanFits(r: Request, files: Files, platform: string, plan: Plan)
    requires Planned(r, files, platform, plan)
    ensures Fits(r, files, platform)
  {
  }

  lemma PlanIsDeclared(r: Request, files: Files, platform: string, plan: Plan)
    requires Planned(r, files, platform, plan)
    ensures AsDeclared(files, r.base)
  {
    PlanFitsFiles(plan, files, PatchGrammar.ParseDocument(r.document).value, r.base, platform);
  }

  /** What looking a key up leaves, when it leaves nothing of the key. */
  lemma LookedUp(d: PatchView.Disk, e: PatchView.Disk, v: View, r: Request)
    requires Represents(d, v) && Represents(e, v) && OnlyKey(d, e, r.key)
    requires r.key in d.rows ==> KeyLeft(e, r.key, {})
    requires r.key !in d.rows ==> e == d
    ensures Reverted(d, v, r.key, e.files)
    ensures InTheWay(d, r) <==>
      exists j :: j in e.journal && e.journal[j].manifest.Some? && Blocks(e.journal[j].manifest.value, r.key, r.base.Keys)
  {
    hide RowsRepresent;
    forall p ensures Get(e.files, p) == if CoveredBy(d, r.key, p) then Get(v.files, p) else Get(d.files, p) {
      if CoveredBy(d, r.key, p) {
        var j :| Active(d, j) && ManifestOf(d, j).key == r.key && Covers(ManifestOf(d, j).records, p);
        if e == d {
          assert Clean(d, v, j);
        } else {
          assert !Covered(e, p) by { assert forall i :: Active(e, i) ==> Active(d, i) && i != j; }
        }
      }
    }
    if e != d {
      assert forall j :: HasManifest(e, j) ==> ManifestOf(e, j).key != r.key;
    }
  }

  lemma OffPath(v: View, k: Key, desired: map<Path, Option<Bytes>>, result: ToolResult)
    ensures forall p :: p !in desired ==> Get(CommitView(v, k, desired, result).files, p) == Get(v.files, p)
  {
    OverlaidPaths(v.files, desired);
  }

  /** Of the key's journals only the attempt itself is left. */
  lemma OnlyAttempt(d: PatchView.Disk, e: PatchView.Disk, k: Key, paths: set<Path>, j: JournalId)
    requires NoClash(d, k, paths) && e.journal - {j} == d.journal && j !in d.journal
    ensures forall i :: Active(e, i) && ManifestOf(e, i).key == k ==> i == j
  {
    assert d.journal - {j} == d.journal;
    SameElsewhere(d.journal, e.journal, j);
    forall i | Active(e, i) && ManifestOf(e, i).key == k ensures i == j {
      if i != j { assert Unfinished(d, i); }
    }
  }

  /** A journal blocks a patch exactly when it is unfinished and of the same key,
    or active and speaks for one of the paths. */
  lemma NoBlocks(d: PatchView.Disk, k: Key, paths: set<Path>)
    ensures (exists j :: j in d.journal && d.journal[j].manifest.Some? && Blocks(d.journal[j].manifest.value, k, paths))
      <==> !NoClash(d, k, paths)
  {
    if NoClash(d, k, paths) {
      forall j | j in d.journal && d.journal[j].manifest.Some? ensures !Blocks(d.journal[j].manifest.value, k, paths) {
        var m := d.journal[j].manifest.value;
        assert Unfinished(d, j) <==> !m.phase.Committed?;
        forall i | 0 <= i < |m.records| && Active(d, j) ensures m.records[i].path !in paths {
          assert Covers(m.records, m.records[i].path);
        }
      }
    } else if j :| Unfinished(d, j) && ManifestOf(d, j).key == k {
      assert Blocks(ManifestOf(d, j), k, paths);
    } else {
      var j, p :| Active(d, j) && p in paths && Covers(ManifestOf(d, j).records, p);
      assert Blocks(ManifestOf(d, j), k, paths);
    }
  }

  /** A stored row is of the same request when document, hashes, dry run and caller are. */
  lemma SameRequestMeans(row: Row, r: Request)
    ensures SameRequest(row, r) <==>
      && row.fingerprint.document == r.document && row.fingerprint.base == r.base
      && row.fingerprint.dryRun == r.dryRun && row.binding == r.binding
  {
  }

  /** A patch that clashes with no journal fits the visible files as it fits the files on disk. */
  lemma PlannedForView(d: PatchView.Disk, v: View, r: Request, platform: string, plan: Plan)
    requires Represents(d, v) && NoClash(d, r.key, r.base.Keys) && Planned(r, d.files, platform, plan)
    ensures Planned(r, v.files, platform, plan)
  {
    hide FilesRepresent, RowsRepresent, NoClash, PatchGrammar.ParseDocument, SectionEdit, Touched, Required, Carries;
    NoClashAgrees(d, v, r.key, r.base.Keys);
    PlanIsLocal(d.files, v.files, PatchGrammar.ParseDocument(r.document).value, r.base, platform, plan);
  }

  /** No call has failed to undo its patch. */
  predicate Unrefused(replies: seq<Reply>) {
    forall i :: 0 <= i < |replies| ==> replies[i] != Reply.Refused(RecoveryFailed)
  }

  lemma UnrefusedSnoc(replies: seq<Reply>, reply: Reply)
    ensures Unrefused(replies + [reply]) <==> Unrefused(replies) && reply != Reply.Refused(RecoveryFailed)
  {
    var all := replies + [reply];
    assert all[|replies|] == reply;
    assert forall i :: 0 <= i < |replies| ==> all[i] == replies[i];
  }

  /** Only this key has transactions that a recovery would roll back. */
  ghost predicate ActiveOnly(d: PatchView.Disk, k: Key) {
    forall j :: Active(d, j) ==> ManifestOf(d, j).key == k
  }

  ghost predicate AttemptsClean(d: PatchView.Disk, v: View, k: Key) {
    forall j :: Active(d, j) && ManifestOf(d, j).key == k ==> Clean(d, v, j)
  }

  /** A key without a row, or with a stored result, has every file in place. */
  lemma KeyIsClean(d: PatchView.Disk, v: View, k: Key)
    requires Represents(d, v) && (k !in d.rows || k in v.applied)
    ensures AttemptsClean(d, v, k)
  {
    forall j | Active(d, j) && ManifestOf(d, j).key == k ensures Clean(d, v, j) {
      assert Pending(d, v, ManifestOf(d, j));
    }
  }

  lemma OnlyCleanLeft(d: PatchView.Disk, v: View, k: Key)
    requires Represents(d, v) && ActiveOnly(d, k) && AttemptsClean(d, v, k)
    ensures d.files == v.files
  {
    AtRest(d, v);
  }

  /** No transaction has become active, or changed while it is. */
  ghost predicate ActiveShrinks(d: PatchView.Disk, e: PatchView.Disk) {
    forall j :: Active(e, j) ==> Active(d, j) && ManifestOf(e, j) == ManifestOf(d, j)
  }

  lemma ShrinksNot(d: PatchView.Disk)
    ensures ActiveShrinks(d, d)
  {
  }

  lemma ShrinksFurther(a: PatchView.Disk, b: PatchView.Disk, c: PatchView.Disk)
    requires ActiveShrinks(a, b) && ActiveShrinks(b, c)
    ensures ActiveShrinks(a, c)
  {
  }

  /** Nothing but the files and journals of one key has changed. */
  ghost predicate OnlyKey(d: PatchView.Disk, e: PatchView.Disk, k: Key) {
    && ActiveShrinks(d, e) && OthersKept(d, e, k)
    && forall p :: !CoveredBy(d, k, p) ==> Get(e.files, p) == Get(d.files, p)
  }

  lemma OnlyKeyNothing(d: PatchView.Disk, k: Key)
    ensures OnlyKey(d, d, k)
  {
  }

  lemma OnlyKeyTwice(a: PatchView.Disk, b: PatchView.Disk, c: PatchView.Disk, k: Key)
    requires OnlyKey(a, b, k) && OnlyKey(b, c, k)
    ensures OnlyKey(a, c, k)
  {
    forall p | !CoveredBy(a, k, p) ensures Get(c.files, p) == Get(a.files, p) {
      assert !CoveredBy(b, k, p) by {
        assert forall j :: Active(b, j) ==> Active(a, j) && ManifestOf(b, j) == ManifestOf(a, j);
      }
    }
  }

  lemma OnlyRowsKeep(a: PatchView.Disk, b: PatchView.Disk, c: PatchView.Disk, k: Key)
    requires OnlyKey(a, b, k) && c == b.(rows := c.rows)
    ensures OnlyKey(a, c, k)
    ensures forall j :: HasManifest(b, j) <==> HasManifest(c, j)
    ensures forall j :: HasManifest(b, j) ==> ManifestOf(b, j) == ManifestOf(c, j)
    ensures forall j :: Active(c, j) <==> Active(b, j)
  {
  }

  lemma SameBinding(row: Row, r: Request)
    requires SameRequest(row, r)
    ensures row.binding == r.binding
  {
  }

  lemma OnlyRowsChanged(d: PatchView.Disk, e: PatchView.Disk)
    requires e == d.(rows := e.rows)
    ensures ActiveShrinks(d, e)
    ensures forall j :: Active(e, j) ==> Active(d, j) && ManifestOf(e, j) == ManifestOf(d, j)
  {
  }

  /** A request without clashes may announce itself. */
  lemma StartingRow(d: PatchView.Disk, v: View, r: Request, row: Row)
    requires Represents(d, v) && NoClash(d, r.key, r.base.Keys) && r.key !in d.rows && r.key !in v.applied && row.Running?
    ensures Represents(d.(rows := d.rows[r.key := row]), v)
  {
    hide FilesRepresent, RowsRepresent;
    RunningRowAdded(d, v, r.key, row);
  }
}
