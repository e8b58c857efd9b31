/** What a recovery does when a patch has gone over an unfinished journal: one
  whose rollback was refused, or whose directory could not be removed. */
module PatchLeftover {
  import opened Wrappers
  import opened Content
  import opened PatchJournal
  import opened PatchView
  import opened PatchPlan
  import PatchService
  import PatchGrammar

  function Legacy(m: Manifest): map<Path, Option<Digest>> {
    DesiredHashes(m.result.changes)
  }

  /** The recovery of the journal ends with an error. */
  predicate Blocked(d: Disk, j: JournalId)
    requires HasManifest(d, j)
  {
    Undone(d, j).1 != []
  }

  /** The disk after a recovery of the journal, blocked or not. */
  function AfterRecovery(d: Disk, j: JournalId): Disk
    requires HasManifest(d, j)
  {
    if Blocked(d, j) then d.(files := Undone(d, j).0) else Recovered(d, j)
  }

  /** The disk after one more patch, once its own journal is gone. */
  function Patched(d: Disk, k: Key, desired: map<Path, Option<Bytes>>, row: Row): Disk {
    Disk(Overlay(d.files, desired), d.journal, d.rows[k := row])
  }

  /** The journal refuses to put this record back. */
  ghost predicate Refuses(d: Disk, j: JournalId, i: nat)
    requires HasManifest(d, j) && i < |ManifestOf(d, j).records|
  {
    Refused(d.files, ManifestOf(d, j).records[i], d.journal[j].backups, Legacy(ManifestOf(d, j)))
  }

  /** What recovering an unfinished journal makes of each of its paths. */
  lemma UndoneEffect(d: Disk, j: JournalId)
    requires Active(d, j) && Sound(d, j)
    ensures var m := ManifestOf(d, j);
      && (forall i :: 0 <= i < |m.records| ==>
            Get(Undone(d, j).0, m.records[i].path) ==
              if Refuses(d, j, i) then Get(d.files, m.records[i].path) else Original(m.records[i], d.journal[j].backups))
      && (forall p :: !Covers(m.records, p) ==> Get(Undone(d, j).0, p) == Get(d.files, p))
      && (Blocked(d, j) <==> exists i :: 0 <= i < |m.records| && Refuses(d, j, i))
  {
    hide Refused, RestoreAll;
    var m, backups := ManifestOf(d, j), d.journal[j].backups;
    RestoreAllEffect(d.files, m.records, backups, Legacy(m));
    ReportsRefused(d.files, m.records, backups, Legacy(m));
  }

  lemma {:induction false} ReportsRefused(files: Files, records: seq<Record>, backups: map<nat, Bytes>,
                                          legacy: map<Path, Option<Digest>>)
    ensures RefusedPaths(files, records, backups, legacy) != [] <==>
      exists i :: 0 <= i < |records| && Refused(files, records[i], backups, legacy)
  {
    hide Refused;
    if records != [] {
      var n := |records| - 1;
      ReportsRefused(files, records[..n], backups, legacy);
      if i :| 0 <= i < |records| && Refused(files, records[i], backups, legacy) {
        if i < n { assert records[..n][i] == records[i]; }
      }
      if i :| 0 <= i < n && Refused(files, records[..n][i], backups, legacy) {
        assert records[i] == records[..n][i];
      }
    }
  }

  /** The later patch wants for each path of the journal what was there before
    the journal, or something that makes the recovery refuse the path. */
  ghost predicate Harmless(d: Disk, v: View, j: JournalId, desired: map<Path, Option<Bytes>>)
    requires Active(d, j)
  {
    var m := ManifestOf(d, j);
    forall i :: 0 <= i < |m.records| && m.records[i].path in desired ==>
      || desired[m.records[i].path] == Get(v.files, m.records[i].path)
      || Foreign(m.records[i], desired[m.records[i].path])
  }

  /** Some content, but not what the undone patch wanted. */
  predicate Foreign(r: Record, content: Option<Bytes>) {
    content.Some? && Some(Hash(content)) != r.desired
  }

  /** After a later patch the recovery refuses exactly the paths at which it wants
    something that is neither the original nor what the journal wanted. */
  lemma RefusesForeign(d: Disk, v: View, j: JournalId, k: Key, desired: map<Path, Option<Bytes>>, row: Row, i: nat)
    requires Represents(d, v) && Active(d, j) && i < |ManifestOf(d, j).records|
    ensures var r := ManifestOf(d, j).records[i];
      Refuses(Patched(d, k, desired, row), j, i) <==>
        r.path in desired && desired[r.path] != Get(v.files, r.path) && Foreign(r, desired[r.path])
    ensures Original(ManifestOf(d, j).records[i], d.journal[j].backups) == Get(v.files, ManifestOf(d, j).records[i].path)
  {
    var m, backups := ManifestOf(d, j), d.journal[j].backups;
    var r := m.records[i];
    assert Protects(r, backups, Get(v.files, r.path));
    OverlayGet(d.files, desired, r.path);
    assert Get(d.files, r.path) == Get(v.files, r.path) || HashAt(d.files, r.path) == r.desired.value;
  }

  lemma PatchedIsSound(d: Disk, v: View, j: JournalId, k: Key, desired: map<Path, Option<Bytes>>, row: Row)
    requires Represents(d, v) && Active(d, j)
    ensures Active(Patched(d, k, desired, row), j) && Sound(Patched(d, k, desired, row), j)
  {
    PatchService.JournalIsSound(d, v, j);
  }

  /** A later patch, on any number of the journal's paths, keeps all its files in a
    recovery if and only if it is harmless; the recovery is blocked if and only if
    some path is foreign to it. */
  lemma LaterFilesStay(d: Disk, v: View, j: JournalId, k: Key, desired: map<Path, Option<Bytes>>, row: Row)
    requires Represents(d, v) && Active(d, j)
    ensures var after := AfterRecovery(Patched(d, k, desired, row), j).files;
      (forall p :: p in desired ==> Get(after, p) == desired[p]) <==> Harmless(d, v, j, desired)
  {
    hide Represents, Foreign, Refuses, Original;
    var m, e := ManifestOf(d, j), Patched(d, k, desired, row);
    PatchedIsSound(d, v, j, k, desired, row);
    UndoneEffect(e, j);
    var after := Undone(e, j).0;
    forall i | 0 <= i < |m.records| && m.records[i].path in desired
      ensures Get(after, m.records[i].path) == desired[m.records[i].path] <==>
        || desired[m.records[i].path] == Get(v.files, m.records[i].path)
        || Foreign(m.records[i], desired[m.records[i].path])
    {
      RefusesForeign(d, v, j, k, desired, row, i);
      OverlayGet(d.files, desired, m.records[i].path);
    }
    forall p | p in desired && !Covers(m.records, p) ensures Get(after, p) == desired[p] {
      OverlayGet(d.files, desired, p);
    }
    if Harmless(d, v, j, desired) {
      forall p | p in desired ensures Get(after, p) == desired[p] {
        if Covers(m.records, p) {
          var i :| 0 <= i < |m.records| && m.records[i].path == p;
        }
      }
    }
  }

  /** Its stored result stays if and only if it is of another key, or the recovery is blocked. */
  lemma LaterResultStays(d: Disk, j: JournalId, k: Key, desired: map<Path, Option<Bytes>>, row: Row)
    requires HasManifest(d, j)
    ensures var e := Patched(d, k, desired, row);
      (k in AfterRecovery(e, j).rows && AfterRecovery(e, j).rows[k] == row) <==> k != ManifestOf(d, j).key || Blocked(e, j)
  {
  }

  /** At this record the later patch wants neither the original nor what the journal wanted. */
  ghost predicate Obstructs(d: Disk, v: View, j: JournalId, desired: map<Path, Option<Bytes>>, i: nat)
    requires HasManifest(d, j) && i < |ManifestOf(d, j).records|
  {
    var r := ManifestOf(d, j).records[i];
    r.path in desired && desired[r.path] != Get(v.files, r.path) && Foreign(r, desired[r.path])
  }

  /** The recovery is blocked if and only if the later patch obstructs it somewhere. */
  lemma LaterPatchBlocks(d: Disk, v: View, j: JournalId, k: Key, desired: map<Path, Option<Bytes>>, row: Row)
    requires Represents(d, v) && Active(d, j)
    ensures var m := ManifestOf(d, j);
      Blocked(Patched(d, k, desired, row), j) <==> exists i :: 0 <= i < |m.records| && Obstructs(d, v, j, desired, i)
  {
    hide Represents, Foreign, Refuses, Original, Blocked;
    var m, e := ManifestOf(d, j), Patched(d, k, desired, row);
    PatchedIsSound(d, v, j, k, desired, row);
    UndoneEffect(e, j);
    forall i | 0 <= i < |m.records|
      ensures Refuses(e, j, i) <==> Obstructs(d, v, j, desired, i)
    {
      RefusesForeign(d, v, j, k, desired, row, i);
    }
  }

  /** An applied patch stays applied through the recovery of an unfinished journal,
    files and result, if and only if it is harmless where the journal is active,
    and of another key unless the recovery is blocked. */
  lemma LaterPatchSurvives(d: Disk, v: View, j: JournalId, k: Key, desired: map<Path, Option<Bytes>>, row: Row)
    requires Represents(d, v) && Unfinished(d, j)
    ensures var e := Patched(d, k, desired, row);
      var after := AfterRecovery(e, j);
      (forall p :: p in desired ==> Get(after.files, p) == desired[p]) && k in after.rows && after.rows[k] == row
      <==> (Active(d, j) ==> Harmless(d, v, j, desired)) && (k != ManifestOf(d, j).key || Blocked(e, j))
  {
    hide Represents, Harmless, Blocked, RestoreAll;
    LaterResultStays(d, j, k, desired, row);
    if Active(d, j) {
      LaterFilesStay(d, v, j, k, desired, row);
    } else {
      PatchService.OverlaidPaths(d.files, desired);
    }
  }

  // Journals that outlived their transaction.

  /** Without the journal, nothing would be unfinished. */
  ghost predicate Survived(d: Disk, v: View, j: JournalId) {
    && Unfinished(d, j) && Sound(d, j)
    && Represents(d.(journal := d.journal - {j}), v)
    && forall i :: Unfinished(d, i) ==> i == j
  }

  /** Nothing the journal would put back differs from what is there. */
  ghost predicate Spent(d: Disk, j: JournalId)
    requires HasManifest(d, j)
  {
    var m := ManifestOf(d, j);
    Active(d, j) ==> forall i :: 0 <= i < |m.records| ==>
      Refuses(d, j, i) || Original(m.records[i], d.journal[j].backups) == Get(d.files, m.records[i].path)
  }

  lemma SpentRestoresNothing(d: Disk, j: JournalId)
    requires Unfinished(d, j) && Sound(d, j)
    ensures Spent(d, j) <==> Undone(d, j).0 == d.files
  {
    hide Refuses, Original, RestoreAll;
    var m := ManifestOf(d, j);
    if Active(d, j) {
      UndoneEffect(d, j);
      if Spent(d, j) {
        forall p ensures Get(Undone(d, j).0, p) == Get(d.files, p) {
          if Covers(m.records, p) {
            var i :| 0 <= i < |m.records| && m.records[i].path == p;
          }
        }
        SameContent(Undone(d, j).0, d.files);
      }
    }
  }

  /** Recovering a surviving journal is no visible change if and only if it has
    nothing left to put back and, unless it is blocked, its key has not been
    applied since. */
  lemma SurvivorIsHarmless(d: Disk, v: View, j: JournalId)
    requires Survived(d, v, j)
    ensures Represents(AfterRecovery(d, j).(journal := d.journal - {j}), v) <==>
      Spent(d, j) && (Blocked(d, j) || ManifestOf(d, j).key !in v.applied)
  {
    hide FilesRepresent, RowsRepresent, Blocked, Spent, Undone;
    var m := ManifestOf(d, j);
    var rest, after := d.(journal := d.journal - {j}), AfterRecovery(d, j).(journal := d.journal - {j});
    assert forall i :: HasManifest(rest, i) <==> HasManifest(d, i) && i != j;
    assert forall i :: HasManifest(after, i) <==> HasManifest(rest, i);
    assert forall i :: Unfinished(rest, i) ==> Unfinished(d, i) && i != j;
    assert forall i :: Unfinished(after, i) ==> Unfinished(rest, i);
    AtRest(rest, v);
    SpentRestoresNothing(d, j);
    if Spent(d, j) && !Blocked(d, j) && m.key !in v.applied {
      RowForgotten(rest, v, m.key);
      assert after == rest.(rows := rest.rows - {m.key});
    } else if Spent(d, j) && Blocked(d, j) {
      assert after == rest;
    }
    if Represents(after, v) {
      AtRest(after, v);
      if !Blocked(d, j) { PatchService.UnknownKey(after, v, m.key); }
    }
  }

  // Runs in which the program undoes what it has applied.

  /** A rollback ended, but its last manifest was refused, so its row is gone; the
    same patch is tried again and succeeds. The next recovery undoes it without
    an error: the files and rows are those from before the retry. */
  lemma RetryIsUndone(d: Disk, v: View, j: JournalId, desired: map<Path, Option<Bytes>>, row: Row)
    requires Represents(d, v) && Active(d, j) && ManifestOf(d, j).key !in d.rows
    requires var m := ManifestOf(d, j);
      && (forall p :: p in desired <==> Covers(m.records, p))
      && forall i :: 0 <= i < |m.records| ==> m.records[i].desired == Some(Hash(desired[m.records[i].path]))
    ensures var e := Patched(d, ManifestOf(d, j).key, desired, row);
      && (forall p :: p in desired ==> Get(e.files, p) == desired[p])
      && !Blocked(e, j) && Recovered(e, j) == d.(journal := d.journal - {j})
      && Represents(Recovered(e, j), v)
  {
    hide FilesRepresent, RowsRepresent, Refuses, Original, RestoreAll, Blocked, Overlay;
    var m := ManifestOf(d, j);
    var e := Patched(d, m.key, desired, row);
    PatchedIsSound(d, v, j, m.key, desired, row);
    PatchService.KeyIsClean(d, v, m.key);
    UndoneEffect(e, j);
    forall i | 0 <= i < |m.records| ensures !Refuses(e, j, i) {
      RefusesForeign(d, v, j, m.key, desired, row, i);
    }
    PatchService.OverlaidPaths(d.files, desired);
    forall p ensures Get(Undone(e, j).0, p) == Get(d.files, p) {
      if Covers(m.records, p) {
        var i :| 0 <= i < |m.records| && m.records[i].path == p;
        RefusesForeign(d, v, j, m.key, desired, row, i);
      }
    }
    SameContent(Undone(e, j).0, d.files);
    assert d.rows[m.key := row] - {m.key} == d.rows;
    Closed(d, v, j);
  }

  /** Such a retry leaves a journal that survived, with its key applied since. */
  lemma RetrySurvives(d: Disk, v: View, j: JournalId, desired: map<Path, Option<Bytes>>, row: Row)
    requires Represents(d, v) && Unfinished(d, j) && ManifestOf(d, j).key !in d.rows && row.Succeeded?
    requires forall i :: Unfinished(d, i) ==> i == j
    ensures var k := ManifestOf(d, j).key;
      var w := CommitView(v, k, desired, row.result);
      Survived(Patched(d, k, desired, row), w, j) && k in w.applied
  {
    hide FilesRepresent, RowsRepresent, Overlay;
    var k := ManifestOf(d, j).key;
    var e, w := Patched(d, k, desired, row), CommitView(v, k, desired, row.result);
    PatchService.JournalIsSound(d, v, j);
    PatchService.KeyIsClean(d, v, k);
    assert d.files == v.files by { PatchService.OnlyCleanLeft(d, v, k); }
    forall i | Unfinished(e, i) ensures i == j {
      assert Unfinished(d, i);
    }
    Closed(d, v, j);
    var rest := d.(journal := d.journal - {j});
    forall i ensures !Unfinished(rest, i) {
      assert Unfinished(rest, i) ==> Unfinished(d, i);
    }
    SucceededAdded(rest, v, k, desired, row);
    assert e.(journal := e.journal - {j}) == Patched(d.(journal := d.journal - {j}), k, desired, row);
  }

  /** With nothing unfinished, a patch with its row is the next view. */
  lemma SucceededAdded(d: Disk, v: View, k: Key, desired: map<Path, Option<Bytes>>, row: Row)
    requires Represents(d, v) && d.files == v.files && k !in d.rows && row.Succeeded?
    requires forall i :: !Unfinished(d, i)
    ensures Represents(Patched(d, k, desired, row), CommitView(v, k, desired, row.result))
  {
    hide Overlay;
    var e, w := Patched(d, k, desired, row), CommitView(v, k, desired, row.result);
    assert forall i :: HasManifest(e, i) <==> HasManifest(d, i);
    forall i ensures !Unfinished(e, i) {
      assert !Unfinished(d, i);
    }
    PatchService.UnknownKey(d, v, k);
    CommittedKept(d, e, v.applied);
    forall i | HasManifest(e, i) && ManifestOf(e, i).phase.Committed? ensures RowMatches(e, ManifestOf(e, i)) {
      assert RowMatches(d, ManifestOf(d, i));
    }
    forall k' | k' in w.applied && !(k' in e.rows && e.rows[k'].Succeeded?)
      ensures exists i :: HasManifest(e, i) && ManifestOf(e, i).phase.Committed? && ManifestOf(e, i).key == k'
    {
      assert HasCommitted(d, k') && HasCommitted(e, k');
    }
  }

  /** The state a refused rollback leaves: one file, replaced and not put back. */
  function RefusedRollback(p: Path, before: Bytes, after: Bytes, j: JournalId, m: Manifest): Disk {
    Disk(map[p := after], map[j := Transaction(Some(m), map[0 := before])], map[m.key := Running(m.fingerprint, m.binding)])
  }

  predicate Replaces(m: Manifest, p: Path, before: Bytes, after: Bytes) {
    && m.phase.Committing?
    && m.records == [Record(p, true, Some(0), Some(Sha256(before)), Some(Some(Sha256(after))))]
  }

  lemma RefusedRollbackRepresents(p: Path, before: Bytes, after: Bytes, j: JournalId, m: Manifest)
    requires Replaces(m, p, before, after)
    ensures var d := RefusedRollback(p, before, after, j, m);
      Active(d, j) && Represents(d, View(map[p := before], map[]))
  {
    var d, v := RefusedRollback(p, before, after, j, m), View(map[p := before], map[]);
    assert forall i :: HasManifest(d, i) <==> i == j;
    assert m.records[0].path == p && Covers(m.records, p);
    forall q | !Covered(d, q) ensures Get(d.files, q) == Get(v.files, q) {
      assert Active(d, j);
    }
  }

  function DeletionOf(p: Path, content: Bytes, k: Key, binding: Binding): PatchService.Request {
    PatchService.Request(k, PatchGrammar.Print([PatchGrammar.Delete(p)]), map[p := Some(Sha256(content))], false, binding)
  }

  function DeletionPlan(p: Path, content: Bytes): Plan {
    Plan(map[p := None], [Change(Action.Delete, p, None, Some(Sha256(content)), None)])
  }

  lemma DeletionIsPlanned(p: Path, content: Bytes, k: Key, binding: Binding, platform: string)
    requires PatchGrammar.CleanPath(p) && |content| <= MAX_PATCH_FILE_BYTES
    requires |PatchGrammar.Utf8.Encode(PatchGrammar.Print([PatchGrammar.Delete(p)]))| <= PatchGrammar.MAX_PATCH_BYTES
    ensures PatchService.Planned(DeletionOf(p, content, k, binding), map[p := content], platform, DeletionPlan(p, content))
  {
    hide PatchGrammar.Print, PatchGrammar.ParseDocument, PatchGrammar.Utf8.Encode, Required, Touched, SectionEdit,
         PatchService.FingerprintOf;
    var sections := [PatchGrammar.Delete(p)];
    PatchGrammar.ParsePrint(sections);
    OneDeletion(p, content, platform);
  }

  lemma OneDeletion(p: Path, content: Bytes, platform: string)
    requires |content| <= MAX_PATCH_FILE_BYTES
    ensures var base, sections := map[p := Some(Sha256(content))], [PatchGrammar.Delete(p)];
      && Acceptable(map[p := content], sections, base, platform)
      && Follows(DeletionPlan(p, content), map[p := content], sections, base, platform)
  {
    var sections := [PatchGrammar.Delete(p)];
    assert sections[1..] == [];
    assert Touched(sections[0]) == {p} && Required(sections) == {p};
  }

  /** The patch replacing a file is rolled back, but the rollback is refused; a
    later patch deletes the file and succeeds. The next recovery brings the file
    back, without an error, while the later patch stays recorded as applied. */
  lemma AppliedPatchUndone(p: Path, before: Bytes, after: Bytes, j: JournalId, m: Manifest, k: Key, binding: Binding,
                           other: JournalId, platform: string)
    requires Replaces(m, p, before, after) && k != m.key
    requires PatchGrammar.CleanPath(p) && |after| <= MAX_PATCH_FILE_BYTES
    requires |PatchGrammar.Utf8.Encode(PatchGrammar.Print([PatchGrammar.Delete(p)]))| <= PatchGrammar.MAX_PATCH_BYTES
    ensures var d := RefusedRollback(p, before, after, j, m);
      var r, plan := DeletionOf(p, after, k, binding), DeletionPlan(p, after);
      var row := Succeeded(PatchService.FingerprintOf(r), binding, PatchService.ResultOf(r, other, plan));
      var e := Patched(d, k, plan.desired, row);
      && Represents(d, View(map[p := before], map[])) && PatchService.Planned(r, d.files, platform, plan)
      && e.files == map[] && !Blocked(e, j)
      && Recovered(e, j).files == map[p := before] && k in Recovered(e, j).rows && Recovered(e, j).rows[k] == row
  {
    hide PatchGrammar.Print, PatchService.Planned, PatchService.FingerprintOf, PatchService.ResultOf;
    var d, v := RefusedRollback(p, before, after, j, m), View(map[p := before], map[]);
    var r, plan := DeletionOf(p, after, k, binding), DeletionPlan(p, after);
    var row := Succeeded(PatchService.FingerprintOf(r), binding, PatchService.ResultOf(r, other, plan));
    RefusedRollbackRepresents(p, before, after, j, m);
    DeletionIsPlanned(p, after, k, binding, platform);
    OneFileBack(d, v, j, k, p, before, row);
  }

  /** A path that a later patch deletes is back after the recovery. */
  lemma DeletedComesBack(d: Disk, v: View, j: JournalId, k: Key, desired: map<Path, Option<Bytes>>, row: Row, i: nat)
    requires Represents(d, v) && Active(d, j) && i < |ManifestOf(d, j).records|
    requires var p := ManifestOf(d, j).records[i].path; p in desired && desired[p].None?
    ensures var e := Patched(d, k, desired, row);
      !Refuses(e, j, i) && Get(Undone(e, j).0, ManifestOf(d, j).records[i].path) == Get(v.files, ManifestOf(d, j).records[i].path)
  {
    hide Represents, Refuses, Original;
    PatchedIsSound(d, v, j, k, desired, row);
    UndoneEffect(Patched(d, k, desired, row), j);
    RefusesForeign(d, v, j, k, desired, row, i);
  }

  lemma OneFileBack(d: Disk, v: View, j: JournalId, k: Key, p: Path, before: Bytes, row: Row)
    requires Represents(d, v) && Active(d, j) && |ManifestOf(d, j).records| == 1 && ManifestOf(d, j).records[0].path == p
    requires v.files == map[p := before] && d.files.Keys == {p}
    ensures var e := Patched(d, k, map[p := None], row);
      e.files == map[] && !Blocked(e, j) && Undone(e, j).0 == map[p := before]
  {
    hide FilesRepresent, RowsRepresent, Refuses, Original, RestoreAll, Blocked;
    var desired: map<Path, Option<Bytes>> := map[p := None];
    var e := Patched(d, k, desired, row);
    PatchService.OverlaidPaths(d.files, desired);
    assert forall q :: q !in d.files.Keys ==> Get(d.files, q) == None;
    SameContent(e.files, map[]);
    DeletedComesBack(d, v, j, k, desired, row, 0);
    PatchedIsSound(d, v, j, k, desired, row);
    UndoneEffect(e, j);
    forall q ensures Get(Undone(e, j).0, q) == Get(v.files, q) {
      if q != p { assert !Covers(ManifestOf(d, j).records, q); }
    }
    SameContent(Undone(e, j).0, v.files);
  }

  lemma OneUndone(d: Disk, j: JournalId, m: Manifest, p: Path, before: Bytes, after: Bytes, content: Bytes)
    requires j in d.journal && d.journal[j] == Transaction(Some(m), map[0 := before]) && Replaces(m, p, before, after)
    requires d.files == map[p := content] && content in {before, after}
    ensures Undone(d, j) == (map[p := before], [])
  {
    var r := m.records[0];
    assert m.records[..|m.records| - 1] == [];
    assert RestoreAll(map[p := before], [], map[0 := before], Legacy(m)) == (map[p := before], []);
    assert d.files[p := before] == map[p := before];
    assert HashAt(d.files, p) == Some(Sha256(content));
    assert RestoreRecord(d.files, r, map[0 := before], Legacy(m)) == Some(map[p := before]);
  }

  /** Even a patch that wants the original back clashes while it can still die: it
    died over the refused rollback of another, and two recoveries in the wrong
    order end, without an error, at the content of neither view. */
  lemma OverlapEndsElsewhere(p: Path, before: Bytes, after: Bytes, j: JournalId, m: Manifest, i: JournalId, n: Manifest)
    requires i != j && m.key != n.key && before != after
    requires Replaces(m, p, before, after) && Replaces(n, p, after, before)
    ensures var d := Disk(map[p := before],
                          map[j := Transaction(Some(m), map[0 := before]), i := Transaction(Some(n), map[0 := after])],
                          map[m.key := Running(m.fingerprint, m.binding), n.key := Running(n.fingerprint, n.binding)]);
      && !Blocked(d, j) && Recovered(d, j).files == map[p := before]
      && !Blocked(Recovered(d, j), i) && Recovered(Recovered(d, j), i).files == map[p := after]
      && !Blocked(d, i) && Recovered(d, i).files == map[p := after]
      && !Blocked(Recovered(d, i), j) && Recovered(Recovered(d, i), j).files == map[p := before]
  {
    hide Undone;
    var d := Disk(map[p := before],
                  map[j := Transaction(Some(m), map[0 := before]), i := Transaction(Some(n), map[0 := after])],
                  map[m.key := Running(m.fingerprint, m.binding), n.key := Running(n.fingerprint, n.binding)]);
    OneUndone(d, j, m, p, before, after, before);
    OneUndone(d, i, n, p, after, before, before);
    OneUndone(Recovered(d, j), i, n, p, after, before, before);
    OneUndone(Recovered(d, i), j, m, p, before, after, after);
  }
}
