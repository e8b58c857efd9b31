/** What the durable state means: the file tree and the applied patches that a
  completed recovery would show. Every durable write either leaves this view
  alone or commits one patch in it.

  Any number of journals may be unfinished: a patch is in progress, its rollback
  was refused, or its directory could not be removed. */
module PatchView {
  import opened Wrappers
  import opened Content
  import opened PatchJournal

  datatype Disk = Disk(files: Files, journal: Journal, rows: Rows)

  datatype View = View(files: Files, applied: map<Key, ToolResult>)

  function Overlay(files: Files, desired: map<Path, Option<Bytes>>): Files {
    map p | p in files.Keys + desired.Keys && (if p in desired then desired[p].Some? else true)
      :: if p in desired then desired[p].value else files[p]
  }

  lemma OverlayGet(files: Files, desired: map<Path, Option<Bytes>>, p: Path)
    ensures Get(Overlay(files, desired), p) == if p in desired then desired[p] else Get(files, p)
  {
  }

  /** A manifest line whose backup is intact, for a file that held `original`. */
  ghost predicate Protects(r: Record, backups: map<nat, Bytes>, original: Option<Bytes>) {
    && r.desired.Some?
    && r.existed == original.Some?
    && r.original == Hash(original)
    && (r.existed ==> r.backup.Some? && r.backup.value in backups && backups[r.backup.value] == original.value)
  }

  /** An unfinished transaction: its records protect every file it may have
    changed, and only a committing transaction has changed any. */
  ghost predicate Undoable(m: Manifest, backups: map<nat, Bytes>, files: Files, original: Files) {
    && DistinctPaths(m.records)
    && forall i :: 0 <= i < |m.records| ==>
         && Protects(m.records[i], backups, Get(original, m.records[i].path))
         && (|| Get(files, m.records[i].path) == Get(original, m.records[i].path)
             || (m.phase.Committing? && HashAt(files, m.records[i].path) == m.records[i].desired.value))
  }

  ghost predicate HasManifest(d: Disk, j: JournalId) {
    j in d.journal && d.journal[j].manifest.Some?
  }

  function ManifestOf(d: Disk, j: JournalId): Manifest
    requires HasManifest(d, j)
  {
    d.journal[j].manifest.value
  }

  /** A recovery will undo it, or has. */
  ghost predicate Unfinished(d: Disk, j: JournalId) {
    HasManifest(d, j) && !ManifestOf(d, j).phase.Committed?
  }

  /** A recovery will put its files back. */
  ghost predicate Active(d: Disk, j: JournalId) {
    Unfinished(d, j) && !ManifestOf(d, j).phase.RolledBack?
  }

  ghost predicate Covered(d: Disk, p: Path) {
    exists j :: Active(d, j) && Covers(ManifestOf(d, j).records, p)
  }

  /** Its files are already as a recovery would leave them. */
  ghost predicate Clean(d: Disk, v: View, j: JournalId)
    requires HasManifest(d, j)
  {
    forall p :: Covers(ManifestOf(d, j).records, p) ==> Get(d.files, p) == Get(v.files, p)
  }

  ghost predicate Apart(a: seq<Record>, b: seq<Record>) {
    forall p :: Covers(a, p) ==> !Covers(b, p)
  }

  /** Each active transaction can be undone, on its own paths; every other file
    is final. One that may have changed a file still has its row. */
  ghost predicate FilesRepresent(d: Disk, v: View) {
    && (forall j :: Active(d, j) ==> Undoable(ManifestOf(d, j), d.journal[j].backups, d.files, v.files))
    && (forall i, j :: Active(d, i) && Active(d, j) && i != j ==> Apart(ManifestOf(d, i).records, ManifestOf(d, j).records))
    && (forall p :: !Covered(d, p) ==> Get(d.files, p) == Get(v.files, p))
    && (forall j :: Active(d, j) && ManifestOf(d, j).key !in d.rows ==> Clean(d, v, j))
  }

  ghost predicate RowMatches(d: Disk, m: Manifest) {
    m.key in d.rows && d.rows[m.key].fingerprint == m.fingerprint && d.rows[m.key].binding == m.binding
  }

  /** A patch that does not count as applied. */
  ghost predicate Pending(d: Disk, v: View, m: Manifest) {
    m.key !in v.applied && (m.key in d.rows ==> RowMatches(d, m))
  }

  /** A patch counts as applied from its committed manifest on, and its row
    says so at the latest when that manifest is gone. */
  ghost predicate RowsRepresent(d: Disk, v: View) {
    && (forall k :: k in d.rows && d.rows[k].Succeeded? ==> k in v.applied && v.applied[k] == d.rows[k].result)
    && (forall j :: HasManifest(d, j) && ManifestOf(d, j).phase.Committed? ==>
          && RowMatches(d, ManifestOf(d, j))
          && ManifestOf(d, j).key in v.applied && v.applied[ManifestOf(d, j).key] == ManifestOf(d, j).result)
    && (forall k :: k in v.applied && !(k in d.rows && d.rows[k].Succeeded?) ==>
          exists j :: HasManifest(d, j) && ManifestOf(d, j).phase.Committed? && ManifestOf(d, j).key == k)
    && (forall j :: Unfinished(d, j) ==> Pending(d, v, ManifestOf(d, j)))
    && (forall i, j :: Unfinished(d, i) && Unfinished(d, j) && i != j ==> ManifestOf(d, i).key != ManifestOf(d, j).key)
  }

  ghost predicate Represents(d: Disk, v: View) {
    FilesRepresent(d, v) && RowsRepresent(d, v)
  }

  /** When all active transactions are clean, the files are the view's files. */
  lemma AtRest(d: Disk, v: View)
    requires FilesRepresent(d, v) && forall j :: Active(d, j) ==> Clean(d, v, j)
    ensures d.files == v.files
  {
    forall p ensures Get(d.files, p) == Get(v.files, p) {
      if Covered(d, p) {
        var j :| Active(d, j) && Covers(ManifestOf(d, j).records, p);
        assert Clean(d, v, j);
      }
    }
    SameContent(d.files, v.files);
  }

  /** Write-ahead: a file that differs from the view is covered by a durable
    committing manifest that holds its original content, and by no other. */
  lemma WriteAhead(d: Disk, v: View, p: Path) returns (j: JournalId)
    requires Represents(d, v) && Get(d.files, p) != Get(v.files, p)
    ensures Active(d, j)
    ensures var m := ManifestOf(d, j);
      && m.phase.Committing? && m.key in d.rows && d.rows[m.key].Running?
      && exists i :: 0 <= i < |m.records| && m.records[i].path == p
           && Protects(m.records[i], d.journal[j].backups, Get(v.files, p))
           && HashAt(d.files, p) == m.records[i].desired.value
    ensures forall k :: Active(d, k) && k != j ==> !Covers(ManifestOf(d, k).records, p)
  {
    assert Covered(d, p);
    j :| Active(d, j) && Covers(ManifestOf(d, j).records, p);
    var m := ManifestOf(d, j);
    assert !Clean(d, v, j);
    var i :| 0 <= i < |m.records| && m.records[i].path == p;
    assert Protects(m.records[i], d.journal[j].backups, Get(v.files, p));
    forall k | Active(d, k) && k != j ensures !Covers(ManifestOf(d, k).records, p) {
      assert Apart(m.records, ManifestOf(d, k).records);
    }
  }

  // Steps that change no file.

  /** The same active transactions, perhaps further on. */
  ghost predicate SameActive(d: Disk, e: Disk) {
    forall j :: (Active(e, j) <==> Active(d, j)) && (Active(d, j) ==>
      && e.journal[j].backups == d.journal[j].backups
      && (ManifestOf(e, j) == ManifestOf(d, j) || ManifestOf(e, j) == ManifestOf(d, j).(phase := Committing)))
  }

  lemma FilesKept(d: Disk, e: Disk, v: View)
    requires FilesRepresent(d, v) && e.files == d.files && SameActive(d, e)
    requires forall j :: Active(e, j) && ManifestOf(e, j).key !in e.rows ==> Clean(e, v, j)
    ensures FilesRepresent(e, v)
  {
    SameCovered(d, e);
    forall j | Active(e, j)
      ensures Undoable(ManifestOf(e, j), e.journal[j].backups, e.files, v.files)
      ensures ManifestOf(e, j).records == ManifestOf(d, j).records
    {
      assert Undoable(ManifestOf(d, j), d.journal[j].backups, d.files, v.files);
    }
  }

  lemma SameCovered(d: Disk, e: Disk)
    requires SameActive(d, e)
    ensures forall p :: Covered(e, p) ==> Covered(d, p)
    ensures forall p :: Covered(d, p) ==> Covered(e, p)
  {
    forall p | Covered(d, p) ensures Covered(e, p) {
      var j :| Active(d, j) && Covers(ManifestOf(d, j).records, p);
      assert Active(e, j);
    }
    forall p | Covered(e, p) ensures Covered(d, p) {
      var j :| Active(e, j) && Covers(ManifestOf(e, j).records, p);
      assert Active(d, j);
    }
  }

  /** One active transaction less, whose files are in place. */
  lemma FilesDropped(d: Disk, e: Disk, v: View, j: JournalId)
    requires FilesRepresent(d, v) && e.files == d.files && e.rows == d.rows
    requires Active(d, j) ==> Clean(d, v, j)
    requires forall i :: Active(e, i) <==> Active(d, i) && i != j
    requires forall i :: Active(e, i) ==> e.journal[i] == d.journal[i]
    ensures FilesRepresent(e, v)
  {
    forall p | !Covered(e, p) ensures Get(e.files, p) == Get(v.files, p) {
      if Covered(d, p) {
        var i :| Active(d, i) && Covers(ManifestOf(d, i).records, p);
        assert i != j ==> Active(e, i);
      }
    }
    forall i | Active(e, i) && ManifestOf(e, i).key !in e.rows ensures Clean(e, v, i) {
      assert Active(d, i) && Clean(d, v, i);
    }
  }

  /** Files changed by one active transaction, on its own paths. */
  lemma FilesMoved(d: Disk, e: Disk, v: View, j: JournalId)
    requires FilesRepresent(d, v) && Active(d, j) && e == d.(files := e.files)
    requires forall p :: !Covers(ManifestOf(d, j).records, p) ==> Get(e.files, p) == Get(d.files, p)
    requires Undoable(ManifestOf(d, j), d.journal[j].backups, e.files, v.files)
    requires ManifestOf(d, j).key in d.rows || Clean(e, v, j)
    ensures FilesRepresent(e, v)
  {
    assert forall i :: Active(e, i) <==> Active(d, i);
    forall i | Active(e, i) && i != j
      ensures Undoable(ManifestOf(e, i), e.journal[i].backups, e.files, v.files)
      ensures Clean(d, v, i) ==> Clean(e, v, i)
    {
      OthersUntouched(d, e, v, j, i);
    }
    forall p | !Covered(e, p) ensures Get(e.files, p) == Get(v.files, p) {
      assert !Covers(ManifestOf(e, j).records, p) by { assert Active(e, j); }
      assert forall i :: Active(d, i) ==> !Covers(ManifestOf(e, i).records, p);
    }
  }

  lemma OthersUntouched(d: Disk, e: Disk, v: View, j: JournalId, i: JournalId)
    requires FilesRepresent(d, v) && Active(d, j) && Active(d, i) && i != j && e == d.(files := e.files)
    requires forall p :: !Covers(ManifestOf(d, j).records, p) ==> Get(e.files, p) == Get(d.files, p)
    ensures Undoable(ManifestOf(d, i), d.journal[i].backups, e.files, v.files)
    ensures Clean(d, v, i) ==> Clean(e, v, i)
  {
    var m := ManifestOf(d, i);
    assert Apart(m.records, ManifestOf(d, j).records);
    forall n | 0 <= n < |m.records| ensures Get(e.files, m.records[n].path) == Get(d.files, m.records[n].path) {
      assert Covers(m.records, m.records[n].path);
    }
  }

  /** Rows keep their meaning when the rows and the committed manifests stay, and
    no other key gets an unfinished manifest. */
  lemma RowsKept(d: Disk, e: Disk, v: View)
    requires RowsRepresent(d, v) && e.rows == d.rows
    requires forall j :: HasManifest(e, j) && ManifestOf(e, j).phase.Committed?
               <==> HasManifest(d, j) && ManifestOf(d, j).phase.Committed?
    requires forall j :: HasManifest(d, j) && ManifestOf(d, j).phase.Committed? ==> ManifestOf(e, j) == ManifestOf(d, j)
    requires forall j :: Unfinished(e, j) ==>
      Unfinished(d, j) && exists phase :: ManifestOf(e, j) == ManifestOf(d, j).(phase := phase)
    ensures RowsRepresent(e, v)
  {
    CommittedKept(d, e, v.applied);
  }

  ghost predicate HasCommitted(d: Disk, k: Key) {
    exists j :: HasManifest(d, j) && ManifestOf(d, j).phase.Committed? && ManifestOf(d, j).key == k
  }

  lemma CommittedKept(d: Disk, e: Disk, applied: map<Key, ToolResult>)
    requires forall j :: HasManifest(d, j) && ManifestOf(d, j).phase.Committed? ==>
      HasManifest(e, j) && ManifestOf(e, j) == ManifestOf(d, j)
    ensures forall k :: HasCommitted(d, k) ==> HasCommitted(e, k)
  {
    forall k | HasCommitted(d, k) ensures HasCommitted(e, k) {
      var j :| HasManifest(d, j) && ManifestOf(d, j).phase.Committed? && ManifestOf(d, j).key == k;
      assert HasManifest(e, j);
    }
  }

  function WithManifest(d: Disk, j: JournalId, m: Manifest): Disk
    requires j in d.journal
  {
    d.(journal := d.journal[j := d.journal[j].(manifest := Some(m))])
  }

  lemma OtherManifests(d: Disk, j: JournalId, m: Manifest)
    requires j in d.journal
    ensures forall i :: HasManifest(WithManifest(d, j, m), i) <==> i == j || HasManifest(d, i)
    ensures forall i :: HasManifest(d, i) && i != j ==> ManifestOf(WithManifest(d, j, m), i) == ManifestOf(d, i)
    ensures ManifestOf(WithManifest(d, j, m), j) == m
  {
  }

  /** Writing or removing a transaction directory without a manifest means nothing. */
  lemma StagingInvisible(d: Disk, e: Disk, v: View, j: JournalId)
    requires Represents(d, v) && !HasManifest(d, j) && !HasManifest(e, j)
    requires e.files == d.files && e.rows == d.rows && e.journal - {j} == d.journal - {j}
    ensures Represents(e, v)
  {
    forall i ensures HasManifest(e, i) <==> HasManifest(d, i)
      ensures HasManifest(d, i) ==> e.journal[i] == d.journal[i]
    {
      if i != j {
        assert i in e.journal <==> i in e.journal - {j};
        assert i in d.journal <==> i in d.journal - {j};
        assert i in d.journal ==> (d.journal - {j})[i] == d.journal[i];
        assert i in e.journal ==> (e.journal - {j})[i] == e.journal[i];
      }
    }
    forall i | Active(e, i) && ManifestOf(e, i).key !in e.rows ensures Clean(e, v, i) {
      assert Clean(d, v, i);
    }
    FilesKept(d, e, v);
    RowsKept(d, e, v);
  }

  /** No unfinished journal has the key, and no active one a path of the set. */
  ghost predicate NoClash(d: Disk, k: Key, paths: set<Path>) {
    && (forall j :: Unfinished(d, j) ==> ManifestOf(d, j).key != k)
    && (forall j, p :: Active(d, j) && p in paths ==> !Covers(ManifestOf(d, j).records, p))
  }

  /** Paths no journal speaks for are as in the view. */
  lemma NoClashAgrees(d: Disk, v: View, k: Key, paths: set<Path>)
    requires FilesRepresent(d, v) && NoClash(d, k, paths)
    ensures forall p :: p in paths ==> Get(d.files, p) == Get(v.files, p)
  {
    forall p | p in paths ensures !Covered(d, p) {
    }
  }

  /** The first manifest opens a transaction that has not changed any file. */
  lemma Opened(d: Disk, v: View, j: JournalId, m: Manifest, paths: set<Path>)
    requires Represents(d, v) && j in d.journal && !HasManifest(d, j) && NoClash(d, m.key, paths)
    requires m.phase.Prepared? && Undoable(m, d.journal[j].backups, d.files, v.files)
    requires forall p :: Covers(m.records, p) ==> p in paths
    requires m.key !in v.applied && RowMatches(d, m)
    ensures Represents(WithManifest(d, j, m), v)
  {
    hide Undoable, Covers;
    var e := WithManifest(d, j, m);
    OtherManifests(d, j, m);
    assert forall i :: Active(e, i) <==> i == j || Active(d, i);
    assert forall i :: Unfinished(e, i) <==> i == j || Unfinished(d, i);
    OpenedFiles(d, v, j, m, paths);
    CommittedKept(d, e, v.applied);
    assert RowsRepresent(e, v);
  }

  lemma OpenedFiles(d: Disk, v: View, j: JournalId, m: Manifest, paths: set<Path>)
    requires FilesRepresent(d, v) && j in d.journal && !HasManifest(d, j) && NoClash(d, m.key, paths)
    requires m.phase.Prepared? && Undoable(m, d.journal[j].backups, d.files, v.files)
    requires forall p :: Covers(m.records, p) ==> p in paths
    requires m.key in d.rows
    ensures FilesRepresent(WithManifest(d, j, m), v)
  {
    hide Undoable;
    var e := WithManifest(d, j, m);
    OtherManifests(d, j, m);
    assert forall i :: Active(e, i) <==> i == j || Active(d, i);
    forall p | !Covered(e, p) ensures Get(e.files, p) == Get(v.files, p) {
      assert forall i :: Active(d, i) ==> !Covers(ManifestOf(e, i).records, p);
    }
    forall i | Active(e, i) && ManifestOf(e, i).key !in e.rows ensures Clean(e, v, i) {
      assert Clean(d, v, i);
    }
  }

  /** A new phase for an unfinished transaction, short of committing it. */
  lemma PhaseChanged(d: Disk, v: View, j: JournalId, phase: Phase)
    requires Represents(d, v) && Active(d, j) && (phase.Committing? || (phase.RolledBack? && Clean(d, v, j)))
    ensures Represents(WithManifest(d, j, ManifestOf(d, j).(phase := phase)), v)
  {
    var m := ManifestOf(d, j).(phase := phase);
    var e := WithManifest(d, j, m);
    OtherManifests(d, j, m);
    RowsKept(d, e, v);
    if phase.Committing? {
      forall i | Active(e, i) && ManifestOf(e, i).key !in e.rows ensures Clean(e, v, i) {
        assert Clean(d, v, i);
      }
      FilesKept(d, e, v);
    } else {
      FilesDropped(d, e, v, j);
    }
  }

  /** One file replaced while committing. */
  lemma FileReplaced(d: Disk, v: View, j: JournalId, i: nat, content: Option<Bytes>)
    requires Represents(d, v) && Active(d, j) && ManifestOf(d, j).phase.Committing? && ManifestOf(d, j).key in d.rows
    requires i < |ManifestOf(d, j).records| && ManifestOf(d, j).records[i].desired == Some(Hash(content))
    ensures Represents(d.(files := Put(d.files, ManifestOf(d, j).records[i].path, content)), v)
  {
    var m := ManifestOf(d, j);
    var e := d.(files := Put(d.files, m.records[i].path, content));
    assert forall p :: p != m.records[i].path ==> Get(e.files, p) == Get(d.files, p);
    assert Get(e.files, m.records[i].path) == content;
    assert Covers(m.records, m.records[i].path);
    assert forall k :: 0 <= k < |m.records| && k != i ==> m.records[k].path != m.records[i].path;
    FilesMoved(d, e, v, j);
    RowsKept(d, e, v);
  }

  // Undoing a transaction.

  /** What undoing an unfinished journal makes of the files, and the paths it reports. */
  function Undone(d: Disk, j: JournalId): (Files, seq<Path>)
    requires HasManifest(d, j)
  {
    var m := ManifestOf(d, j);
    if m.phase.RolledBack? then (d.files, [])
    else RestoreAll(d.files, m.records, d.journal[j].backups, DesiredHashes(m.result.changes))
  }

  /** The disk after a recovery of an unfinished journal, with its row and itself gone. */
  function Recovered(d: Disk, j: JournalId): Disk
    requires HasManifest(d, j)
  {
    Disk(Undone(d, j).0, d.journal - {j}, d.rows - {ManifestOf(d, j).key})
  }

  /** The journal names each path once, and its backups are what it says. */
  ghost predicate Sound(d: Disk, j: JournalId) {
    HasManifest(d, j) && (Active(d, j) ==>
      DistinctPaths(ManifestOf(d, j).records) && BackupsIntact(ManifestOf(d, j).records, d.journal[j].backups))
  }

  /** The rollback of an active transaction meets no refusal and puts back exactly its own paths. */
  lemma RollbackSucceeds(d: Disk, v: View, j: JournalId, legacy: map<Path, Option<Digest>>)
    requires Represents(d, v) && Active(d, j)
    ensures var m := ManifestOf(d, j);
      && DistinctPaths(m.records) && BackupsIntact(m.records, d.journal[j].backups)
      && RestoreAll(d.files, m.records, d.journal[j].backups, legacy).1 == []
      && var files := RestoreAll(d.files, m.records, d.journal[j].backups, legacy).0;
         forall p :: Get(files, p) == if Covers(m.records, p) then Get(v.files, p) else Get(d.files, p)
  {
    var m, backups := ManifestOf(d, j), d.journal[j].backups;
    forall i | 0 <= i < |m.records|
      ensures !Refused(d.files, m.records[i], backups, legacy)
      ensures Original(m.records[i], backups) == Get(v.files, m.records[i].path)
    {
      assert Protects(m.records[i], backups, Get(v.files, m.records[i].path));
    }
    assert BackupsIntact(m.records, backups) by {
      forall i | 0 <= i < |m.records| && m.records[i].existed && m.records[i].backup.Some? && m.records[i].backup.value in backups
        ensures OriginalOf(m.records[i], backups[m.records[i].backup.value]) == Sha256(backups[m.records[i].backup.value])
      {
        assert Protects(m.records[i], backups, Get(v.files, m.records[i].path));
      }
    }
    RestoreAllEffect(d.files, m.records, backups, legacy);
    NothingRefused(d.files, m.records, backups, legacy);
    var files := RestoreAll(d.files, m.records, backups, legacy).0;
    forall p ensures Get(files, p) == if Covers(m.records, p) then Get(v.files, p) else Get(d.files, p) {
      if Covers(m.records, p) {
        var i :| 0 <= i < |m.records| && m.records[i].path == p;
      }
    }
  }

  lemma {:induction false} NothingRefused(files: Files, records: seq<Record>, backups: map<nat, Bytes>,
                                          legacy: map<Path, Option<Digest>>)
    requires forall i :: 0 <= i < |records| ==> !Refused(files, records[i], backups, legacy)
    ensures RefusedPaths(files, records, backups, legacy) == []
  {
    if records != [] {
      NothingRefused(files, records[..|records| - 1], backups, legacy);
    }
  }

  /** A rollback that stopped anywhere has not changed the view. */
  lemma PartialRollback(d: Disk, e: Disk, v: View, j: JournalId, legacy: map<Path, Option<Digest>>)
    requires Represents(d, v) && Active(d, j) && e == d.(files := e.files)
    requires PartlyRestored(d.files, e.files, ManifestOf(d, j).records, d.journal[j].backups, legacy)
    ensures Represents(e, v)
    ensures forall p :: Get(d.files, p) == Get(v.files, p) ==> Get(e.files, p) == Get(v.files, p)
  {
    var m, backups := ManifestOf(d, j), d.journal[j].backups;
    forall i | 0 <= i < |m.records|
      ensures Get(e.files, m.records[i].path) in {Get(d.files, m.records[i].path), Get(v.files, m.records[i].path)}
    {
      assert Protects(m.records[i], backups, Get(v.files, m.records[i].path));
    }
    forall p | Covers(m.records, p) ensures Get(e.files, p) in {Get(d.files, p), Get(v.files, p)} {
      var i :| 0 <= i < |m.records| && m.records[i].path == p;
    }
    FilesMoved(d, e, v, j);
    RowsKept(d, e, v);
  }

  /** A running row without a manifest of its key stands for a patch that has
    not touched any file: forgetting the row keeps the view. */
  lemma StaleRowIsSafe(d: Disk, v: View, k: Key)
    requires Represents(d, v) && k in d.rows && d.rows[k].Running?
    requires forall j :: HasManifest(d, j) ==> ManifestOf(d, j).key != k
    ensures k !in v.applied
    ensures Represents(d.(rows := d.rows - {k}), v)
  {
    assert !exists j :: HasManifest(d, j) && ManifestOf(d, j).phase.Committed? && ManifestOf(d, j).key == k;
    RowForgotten(d, v, k);
  }

  /** The row of a patch that did not take effect may go once its files are in place. */
  lemma RowForgotten(d: Disk, v: View, k: Key)
    requires Represents(d, v) && k !in v.applied
    requires forall j :: Active(d, j) && ManifestOf(d, j).key == k ==> Clean(d, v, j)
    ensures Represents(d.(rows := d.rows - {k}), v)
  {
    var e := d.(rows := d.rows - {k});
    assert forall j :: HasManifest(e, j) <==> HasManifest(d, j);
    forall j | Active(e, j) && ManifestOf(e, j).key !in e.rows ensures Clean(e, v, j) {
      assert Clean(d, v, j);
    }
    FilesKept(d, e, v);
    RowsForgotten(d, v, k);
  }

  lemma RowsForgotten(d: Disk, v: View, k: Key)
    requires RowsRepresent(d, v) && k !in v.applied
    ensures RowsRepresent(d.(rows := d.rows - {k}), v)
  {
    var e := d.(rows := d.rows - {k});
    assert forall j :: HasManifest(e, j) <==> HasManifest(d, j);
    assert forall j :: Unfinished(e, j) <==> Unfinished(d, j);
    CommittedKept(d, e, v.applied);
    forall j | HasManifest(e, j) && ManifestOf(e, j).phase.Committed? ensures RowMatches(e, ManifestOf(e, j)) {
      assert HasManifest(d, j) && RowMatches(d, ManifestOf(d, j)) && ManifestOf(d, j).key in v.applied;
    }
    forall j | Unfinished(e, j) ensures Pending(e, v, ManifestOf(e, j)) {
      assert Pending(d, v, ManifestOf(d, j));
    }
    forall k' | k' in v.applied && !(k' in e.rows && e.rows[k'].Succeeded?)
      ensures exists j :: HasManifest(e, j) && ManifestOf(e, j).phase.Committed? && ManifestOf(e, j).key == k'
    {
      assert HasCommitted(d, k') && HasCommitted(e, k');
    }
  }

  /** The journal of an unfinished transaction may go once its files are in place. */
  lemma Closed(d: Disk, v: View, j: JournalId)
    requires Represents(d, v) && Unfinished(d, j) && (Active(d, j) ==> Clean(d, v, j))
    ensures Represents(d.(journal := d.journal - {j}), v)
  {
    var e := d.(journal := d.journal - {j});
    assert forall i :: HasManifest(e, i) <==> HasManifest(d, i) && i != j;
    assert forall i :: HasManifest(e, i) ==> ManifestOf(e, i) == ManifestOf(d, i).(phase := ManifestOf(d, i).phase);
    FilesDropped(d, e, v, j);
    RowsKept(d, e, v);
  }

  // Committing.

  function CommitView(v: View, k: Key, desired: map<Path, Option<Bytes>>, result: ToolResult): View {
    View(Overlay(v.files, desired), v.applied[k := result])
  }

  /** The committed manifest is the moment the patch takes effect. */
  lemma CommitPoint(d: Disk, v: View, j: JournalId, desired: map<Path, Option<Bytes>>)
    requires Represents(d, v) && Active(d, j) && ManifestOf(d, j).key in d.rows
    requires forall p :: p in desired <==> Covers(ManifestOf(d, j).records, p)
    requires forall p :: p in desired ==> Get(d.files, p) == desired[p]
    ensures var m := ManifestOf(d, j);
      Represents(WithManifest(d, j, m.(phase := Committed)), CommitView(v, m.key, desired, m.result))
  {
    hide Overlay;
    var m := ManifestOf(d, j);
    FilesCommitted(d, v, j, desired);
    RowsCommitted(d, v, j, Overlay(v.files, desired));
  }

  lemma FilesCommitted(d: Disk, v: View, j: JournalId, desired: map<Path, Option<Bytes>>)
    requires FilesRepresent(d, v) && Active(d, j)
    requires forall p :: p in desired <==> Covers(ManifestOf(d, j).records, p)
    requires forall p :: p in desired ==> Get(d.files, p) == desired[p]
    ensures var m := ManifestOf(d, j);
      FilesRepresent(WithManifest(d, j, m.(phase := Committed)), CommitView(v, m.key, desired, m.result))
  {
    hide Overlay;
    var m := ManifestOf(d, j);
    var c := m.(phase := Committed);
    var e, w := WithManifest(d, j, c), CommitView(v, m.key, desired, m.result);
    OtherManifests(d, j, c);
    assert forall i :: Active(e, i) <==> Active(d, i) && i != j;
    forall p ensures Get(w.files, p) == if p in desired then desired[p] else Get(v.files, p) {
      OverlayGet(v.files, desired, p);
    }
    forall p | !Covered(e, p) ensures Get(e.files, p) == Get(w.files, p) {
      if p !in desired && Covered(d, p) {
        var i :| Active(d, i) && Covers(ManifestOf(d, i).records, p);
        assert i != j ==> Active(e, i);
      }
    }
    forall i | Active(e, i)
      ensures Undoable(ManifestOf(e, i), e.journal[i].backups, e.files, w.files)
      ensures Clean(d, v, i) ==> Clean(e, w, i)
    {
      ApartOriginals(d, v, w, j, i, desired);
    }
  }

  lemma ApartOriginals(d: Disk, v: View, w: View, j: JournalId, i: JournalId, desired: map<Path, Option<Bytes>>)
    requires FilesRepresent(d, v) && Active(d, j) && Active(d, i) && i != j
    requires forall p :: p in desired <==> Covers(ManifestOf(d, j).records, p)
    requires forall p :: p !in desired ==> Get(w.files, p) == Get(v.files, p)
    ensures Undoable(ManifestOf(d, i), d.journal[i].backups, d.files, w.files)
    ensures Clean(d, v, i) ==> Clean(d, w, i)
  {
    var m := ManifestOf(d, i);
    assert Apart(m.records, ManifestOf(d, j).records);
    forall n | 0 <= n < |m.records| ensures Get(w.files, m.records[n].path) == Get(v.files, m.records[n].path) {
      assert Covers(m.records, m.records[n].path);
    }
  }

  lemma RowsCommitted(d: Disk, v: View, j: JournalId, files: Files)
    requires RowsRepresent(d, v) && Active(d, j) && ManifestOf(d, j).key in d.rows
    ensures var m := ManifestOf(d, j);
      RowsRepresent(WithManifest(d, j, m.(phase := Committed)), View(files, v.applied[m.key := m.result]))
  {
    hide RowMatches, Pending;
    var m := ManifestOf(d, j);
    var e, w := WithManifest(d, j, m.(phase := Committed)), View(files, v.applied[m.key := m.result]);
    OtherManifests(d, j, m.(phase := Committed));
    assert forall i :: Unfinished(e, i) <==> Unfinished(d, i) && i != j;
    KeyIsNew(d, v, j, e, w);
    CommittedCounts(d, v, j, e);
  }

  lemma KeyIsNew(d: Disk, v: View, j: JournalId, e: Disk, w: View)
    requires RowsRepresent(d, v) && Active(d, j) && ManifestOf(d, j).key in d.rows
    requires e == WithManifest(d, j, ManifestOf(d, j).(phase := Committed))
    requires w.applied == v.applied[ManifestOf(d, j).key := ManifestOf(d, j).result]
    ensures ManifestOf(d, j).key !in v.applied && !d.rows[ManifestOf(d, j).key].Succeeded?
    ensures forall i :: HasManifest(e, i) && ManifestOf(e, i).phase.Committed? ==> RowMatches(e, ManifestOf(e, i))
    ensures forall i :: Unfinished(e, i) ==> Pending(e, w, ManifestOf(e, i))
  {
    var m := ManifestOf(d, j);
    OtherManifests(d, j, m.(phase := Committed));
    assert Pending(d, v, m);
    forall i | Unfinished(e, i) ensures Pending(e, w, ManifestOf(e, i)) {
      assert Unfinished(d, i) && i != j && Pending(d, v, ManifestOf(d, i)) && ManifestOf(d, i).key != m.key;
    }
    forall i | HasManifest(e, i) && ManifestOf(e, i).phase.Committed? ensures RowMatches(e, ManifestOf(e, i)) {
      if i != j { assert RowMatches(d, ManifestOf(d, i)); }
    }
  }

  lemma CommittedCounts(d: Disk, v: View, j: JournalId, e: Disk)
    requires RowsRepresent(d, v) && Active(d, j) && e == WithManifest(d, j, ManifestOf(d, j).(phase := Committed))
    ensures forall k :: k in v.applied.Keys + {ManifestOf(d, j).key} && !(k in e.rows && e.rows[k].Succeeded?) ==>
      exists i :: HasManifest(e, i) && ManifestOf(e, i).phase.Committed? && ManifestOf(e, i).key == k
  {
    hide RowMatches, Pending;
    OtherManifests(d, j, ManifestOf(d, j).(phase := Committed));
    CommittedKept(d, e, v.applied);
    forall k | k in v.applied.Keys + {ManifestOf(d, j).key} && !(k in e.rows && e.rows[k].Succeeded?)
      ensures HasCommitted(e, k)
    {
      if k == ManifestOf(d, j).key {
        assert HasManifest(e, j);
      } else {
        assert HasCommitted(d, k);
      }
    }
  }

  /** The row of a patch about to start. */
  lemma RunningRowAdded(d: Disk, v: View, k: Key, row: Row)
    requires Represents(d, v) && k !in d.rows && k !in v.applied && row.Running?
    requires forall j :: Unfinished(d, j) ==> ManifestOf(d, j).key != k
    ensures Represents(d.(rows := d.rows[k := row]), v)
  {
    var e := d.(rows := d.rows[k := row]);
    assert forall j :: HasManifest(e, j) <==> HasManifest(d, j);
    forall j | Active(e, j) && ManifestOf(e, j).key !in e.rows ensures Clean(e, v, j) {
      assert Clean(d, v, j);
    }
    FilesKept(d, e, v);
    RowsAdded(d, v, k, row);
  }

  /** A row more, for a key that is pending nowhere. */
  lemma RowsAdded(d: Disk, v: View, k: Key, row: Row)
    requires RowsRepresent(d, v) && forall j :: Unfinished(d, j) ==> ManifestOf(d, j).key != k
    requires row.Succeeded? ==> k in v.applied && v.applied[k] == row.result
    requires k in d.rows ==> d.rows[k].fingerprint == row.fingerprint && d.rows[k].binding == row.binding
    requires row.Running? ==> k !in d.rows
    ensures RowsRepresent(d.(rows := d.rows[k := row]), v)
  {
    var e := d.(rows := d.rows[k := row]);
    assert forall j :: HasManifest(e, j) <==> HasManifest(d, j);
    assert forall j :: Unfinished(e, j) <==> Unfinished(d, j);
    CommittedKept(d, e, v.applied);
    forall j | HasManifest(e, j) && ManifestOf(e, j).phase.Committed? ensures RowMatches(e, ManifestOf(e, j)) {
      assert HasManifest(d, j) && RowMatches(d, ManifestOf(d, j));
    }
    forall j | Unfinished(e, j) ensures Pending(e, v, ManifestOf(e, j)) {
      assert Pending(d, v, ManifestOf(d, j));
    }
    forall k' | k' in v.applied && !(k' in e.rows && e.rows[k'].Succeeded?)
      ensures exists j :: HasManifest(e, j) && ManifestOf(e, j).phase.Committed? && ManifestOf(e, j).key == k'
    {
      assert HasCommitted(d, k') && HasCommitted(e, k');
    }
  }

  function SucceededRow(m: Manifest): Row {
    Succeeded(m.fingerprint, m.binding, m.result)
  }

  /** The row of a committed patch may say so. */
  lemma CommittedRowWritten(d: Disk, v: View, j: JournalId)
    requires Represents(d, v) && HasManifest(d, j) && ManifestOf(d, j).phase.Committed?
    ensures var m := ManifestOf(d, j); Represents(d.(rows := d.rows[m.key := SucceededRow(m)]), v)
  {
    var m := ManifestOf(d, j);
    var e := d.(rows := d.rows[m.key := SucceededRow(m)]);
    assert RowMatches(d, m);
    forall i | Unfinished(d, i) ensures ManifestOf(d, i).key != m.key {
      assert Pending(d, v, ManifestOf(d, i));
    }
    forall i | Active(e, i) && ManifestOf(e, i).key !in e.rows ensures Clean(e, v, i) {
      assert Active(d, i) && Clean(d, v, i);
    }
    FilesKept(d, e, v);
    RowsAdded(d, v, m.key, SucceededRow(m));
  }

  /** Once its row says so, the journal of a committed patch may go. */
  lemma CommittedClosed(d: Disk, v: View, j: JournalId)
    requires Represents(d, v) && HasManifest(d, j) && ManifestOf(d, j).phase.Committed?
    requires ManifestOf(d, j).key in d.rows && d.rows[ManifestOf(d, j).key].Succeeded?
    ensures Represents(d.(journal := d.journal - {j}), v)
  {
    var e := d.(journal := d.journal - {j});
    assert forall i :: HasManifest(e, i) <==> HasManifest(d, i) && i != j;
    forall i | Active(e, i) && ManifestOf(e, i).key !in e.rows ensures Clean(e, v, i) {
      assert Active(d, i) && Clean(d, v, i);
    }
    FilesKept(d, e, v);
    RowsWithout(d, v, j);
  }

  lemma RowsWithout(d: Disk, v: View, j: JournalId)
    requires RowsRepresent(d, v) && HasManifest(d, j) && ManifestOf(d, j).phase.Committed?
    requires ManifestOf(d, j).key in d.rows && d.rows[ManifestOf(d, j).key].Succeeded?
    ensures RowsRepresent(d.(journal := d.journal - {j}), v)
  {
    var e := d.(journal := d.journal - {j});
    assert forall i :: HasManifest(e, i) <==> HasManifest(d, i) && i != j;
    assert forall i :: Unfinished(e, i) <==> Unfinished(d, i);
    forall i | Unfinished(e, i) ensures Pending(e, v, ManifestOf(e, i)) {
      assert Pending(d, v, ManifestOf(d, i));
    }
    forall i | HasManifest(e, i) && ManifestOf(e, i).phase.Committed? ensures RowMatches(e, ManifestOf(e, i)) {
      assert RowMatches(d, ManifestOf(d, i));
    }
    forall k | k in v.applied && !(k in e.rows && e.rows[k].Succeeded?)
      ensures exists i :: HasManifest(e, i) && ManifestOf(e, i).phase.Committed? && ManifestOf(e, i).key == k
    {
      var i :| HasManifest(d, i) && ManifestOf(d, i).phase.Committed? && ManifestOf(d, i).key == k;
      assert HasManifest(e, i);
    }
  }
}
