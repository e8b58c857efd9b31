/** What a patch leaves on disk: the file tree, the journal directory and the
  idempotency rows, and what rolling a journal back does to the file tree. */
module PatchJournal {
  import opened Wrappers
  import opened Content

  type Key = string
  type JournalId = string

  datatype Binding = Binding(account: string, grant: string, link: string, device: string)

  datatype Action = Add | Update | Delete | Move

  datatype Change = Change(action: Action, source: Path, destination: Option<Path>,
                           oldHash: Option<Digest>, newHash: Option<Digest>)

  datatype ToolResult = ToolResult(key: Key, journal: JournalId, dryRun: bool, changes: seq<Change>)

  /** A request is fingerprinted by its document, its base hashes and its dry-run flag. */
  datatype Fingerprint = Fingerprint(document: string, base: map<Path, Option<Digest>>, dryRun: bool)

  /** One line of a manifest. Version 1 manifests lack `desired` and `original`. */
  datatype Record = Record(path: Path, existed: bool, backup: Option<nat>,
                           original: Option<Digest>, desired: Option<Option<Digest>>)

  datatype Phase = Prepared | Committing | Committed | RolledBack

  datatype Manifest = Manifest(key: Key, fingerprint: Fingerprint, binding: Binding,
                               result: ToolResult, phase: Phase, records: seq<Record>)

  datatype Transaction = Transaction(manifest: Option<Manifest>, backups: map<nat, Bytes>)

  datatype Row = Running(fingerprint: Fingerprint, binding: Binding)
               | Succeeded(fingerprint: Fingerprint, binding: Binding, result: ToolResult)

  type Journal = map<JournalId, Transaction>
  type Rows = map<Key, Row>

  /** The hashes a version 1 manifest implies, read from the result it stores. */
  function DesiredHashes(changes: seq<Change>): map<Path, Option<Digest>> {
    if changes == [] then map[]
    else
      var c := changes[|changes| - 1];
      var desired := DesiredHashes(changes[..|changes| - 1])
        [c.source := if c.action.Delete? || c.action.Move? then None else c.newHash];
      if c.action.Move? && c.destination.Some? then desired[c.destination.value := c.newHash] else desired
  }

  function DesiredOf(r: Record, legacy: map<Path, Option<Digest>>): Option<Digest> {
    if r.desired.Some? then r.desired.value
    else if r.path in legacy then legacy[r.path] else None
  }

  function OriginalOf(r: Record, backup: Bytes): Digest {
    if r.original.Some? then r.original.value else Sha256(backup)
  }

  /** One step of the rollback: the new file tree, or nothing when the path is reported. */
  function RestoreRecord(files: Files, r: Record, backups: map<nat, Bytes>,
                         legacy: map<Path, Option<Digest>>): Option<Files>
  {
    var current := HashAt(files, r.path);
    if r.existed then
      if r.backup.None? || r.backup.value !in backups then None
      else
        var raw := backups[r.backup.value];
        if current == Some(OriginalOf(r, raw)) then Some(files)
        else if current.Some? && current != DesiredOf(r, legacy) then None
        else Some(files[r.path := raw])
    else if current.None? then Some(files)
    else if current != DesiredOf(r, legacy) then None
    else Some(files - {r.path})
  }

  /** The whole rollback, last record first, with the reported paths in that order. */
  function RestoreAll(files: Files, records: seq<Record>, backups: map<nat, Bytes>,
                      legacy: map<Path, Option<Digest>>): (Files, seq<Path>)
    decreases |records|
  {
    if records == [] then (files, [])
    else
      var n := |records| - 1;
      var r := records[n];
      match RestoreRecord(files, r, backups, legacy)
      case None =>
        var (after, errors) := RestoreAll(files, records[..n], backups, legacy);
        (after, [r.path] + errors)
      case Some(next) =>
        RestoreAll(next, records[..n], backups, legacy)
  }

  ghost predicate DistinctPaths(records: seq<Record>) {
    forall i, j :: 0 <= i < j < |records| ==> records[i].path != records[j].path
  }

  ghost predicate Covers(records: seq<Record>, path: Path) {
    exists i :: 0 <= i < |records| && records[i].path == path
  }

  /** A stored backup is the content whose digest the record names. */
  ghost predicate BackupsIntact(records: seq<Record>, backups: map<nat, Bytes>) {
    forall i :: 0 <= i < |records| && records[i].existed && records[i].backup.Some? && records[i].backup.value in backups
      ==> OriginalOf(records[i], backups[records[i].backup.value]) == Sha256(backups[records[i].backup.value])
  }

  /** The record cannot be rolled back: its backup is gone, or the file is
    neither the original nor the patched content. */
  ghost predicate Refused(files: Files, r: Record, backups: map<nat, Bytes>, legacy: map<Path, Option<Digest>>) {
    if r.existed then
      || r.backup.None?
      || r.backup.value !in backups
      || (&& r.path in files
          && files[r.path] != backups[r.backup.value]
          && Some(Sha256(files[r.path])) != DesiredOf(r, legacy))
    else
      r.path in files && Some(Sha256(files[r.path])) != DesiredOf(r, legacy)
  }

  /** The content a path had before the patch, as its journal remembers it. */
  function Original(r: Record, backups: map<nat, Bytes>): Option<Bytes> {
    if r.existed && r.backup.Some? && r.backup.value in backups then Some(backups[r.backup.value]) else None
  }

  ghost function RefusedPaths(files: Files, records: seq<Record>, backups: map<nat, Bytes>,
                              legacy: map<Path, Option<Digest>>): seq<Path>
  {
    if records == [] then []
    else
      var n := |records| - 1;
      (if Refused(files, records[n], backups, legacy) then [records[n].path] else [])
      + RefusedPaths(files, records[..n], backups, legacy)
  }

  /** Whatever an outside writer left behind, the rollback changes a journalled
    path exactly when it is not refused, then to its original content, touches
    nothing else, and reports exactly the refused paths. */
  lemma {:induction false} RestoreAllEffect(files: Files, records: seq<Record>, backups: map<nat, Bytes>,
                                            legacy: map<Path, Option<Digest>>)
    requires DistinctPaths(records) && BackupsIntact(records, backups)
    ensures RestoreAll(files, records, backups, legacy).1 == RefusedPaths(files, records, backups, legacy)
    ensures forall i :: 0 <= i < |records| ==>
      Get(RestoreAll(files, records, backups, legacy).0, records[i].path)
      == if Refused(files, records[i], backups, legacy) then Get(files, records[i].path)
         else Original(records[i], backups)
    ensures forall p :: !Covers(records, p) ==> Get(RestoreAll(files, records, backups, legacy).0, p) == Get(files, p)
    decreases |records|
  {
    if records != [] {
      var n := |records| - 1;
      var r, rest := records[n], records[..n];
      RestoreRecordEffect(files, r, backups, legacy);
      var step := RestoreRecord(files, r, backups, legacy);
      var next := if step.Some? then step.value else files;
      var after := RestoreAll(files, records, backups, legacy).0;
      assert after == RestoreAll(next, rest, backups, legacy).0;
      RestoreAllEffect(next, rest, backups, legacy);
      forall i | 0 <= i < n
        ensures Refused(next, records[i], backups, legacy) == Refused(files, records[i], backups, legacy)
        ensures Get(after, records[i].path) == if Refused(files, records[i], backups, legacy)
          then Get(files, records[i].path) else Original(records[i], backups)
      {
        assert records[i].path != r.path && rest[i] == records[i];
        RefusedLocal(files, next, records[i], backups, legacy);
      }
      RefusedPathsLocal(files, next, rest, backups, legacy);
      assert !Covers(rest, r.path);
      forall p | !Covers(records, p) ensures Get(after, p) == Get(files, p) {
        assert records[n].path != p;
        assert forall i :: 0 <= i < n ==> rest[i] == records[i];
        assert !Covers(rest, p);
      }
    }
  }

  lemma RestoreRecordEffect(files: Files, r: Record, backups: map<nat, Bytes>, legacy: map<Path, Option<Digest>>)
    requires BackupsIntact([r], backups)
    ensures RestoreRecord(files, r, backups, legacy).None? <==> Refused(files, r, backups, legacy)
    ensures RestoreRecord(files, r, backups, legacy).Some? ==>
      var next := RestoreRecord(files, r, backups, legacy).value;
      Get(next, r.path) == Original(r, backups) && forall p :: p != r.path ==> Get(next, p) == Get(files, p)
  {
    assert [r][0] == r;
  }

  lemma RefusedLocal(files: Files, next: Files, r: Record, backups: map<nat, Bytes>, legacy: map<Path, Option<Digest>>)
    requires Get(files, r.path) == Get(next, r.path)
    ensures Refused(files, r, backups, legacy) == Refused(next, r, backups, legacy)
  {
    assert r.path in files <==> r.path in next;
  }

  /** Whether a path is refused depends only on the content at that path. */
  lemma {:induction false} RefusedPathsLocal(files: Files, next: Files, records: seq<Record>, backups: map<nat, Bytes>,
                                             legacy: map<Path, Option<Digest>>)
    requires forall i :: 0 <= i < |records| ==>
      Refused(files, records[i], backups, legacy) == Refused(next, records[i], backups, legacy)
      || Get(files, records[i].path) == Get(next, records[i].path)
    ensures RefusedPaths(files, records, backups, legacy) == RefusedPaths(next, records, backups, legacy)
  {
    if records != [] {
      var n := |records| - 1;
      RefusedPathsLocal(files, next, records[..n], backups, legacy);
      if Get(files, records[n].path) == Get(next, records[n].path) {
        RefusedLocal(files, next, records[n], backups, legacy);
      }
    }
  }

  /** A rollback that stopped anywhere: each path is still as it was found, or
    has already been put back. */
  ghost predicate PartlyRestored(found: Files, files: Files, records: seq<Record>, backups: map<nat, Bytes>,
                                 legacy: map<Path, Option<Digest>>)
  {
    && (forall p :: !Covers(records, p) ==> Get(files, p) == Get(found, p))
    && (forall i :: 0 <= i < |records| ==>
      || Get(files, records[i].path) == Get(found, records[i].path)
      || (!Refused(found, records[i], backups, legacy) && Get(files, records[i].path) == Original(records[i], backups)))
  }

  /** A rollback of the records from the `n`th on, whatever writes were refused to
    it: a reported path is as it was found, any other is back to its original. */
  ghost predicate RestoredBut(found: Files, files: Files, records: seq<Record>, n: nat, backups: map<nat, Bytes>,
                              legacy: map<Path, Option<Digest>>, errors: seq<Path>)
  {
    && (forall p :: p in errors || !Covers(records, p) ==> Get(files, p) == Get(found, p))
    && (forall i :: 0 <= i < n <= |records| ==>
          Get(files, records[i].path) == Get(found, records[i].path) && records[i].path !in errors)
    && (forall i :: n <= i < |records| && records[i].path !in errors ==>
          !Refused(found, records[i], backups, legacy) && Get(files, records[i].path) == Original(records[i], backups))
  }

  /** One more record: refused by the rollback itself or by the file system, or put back. */
  lemma RestoredFurther(found: Files, files: Files, records: seq<Record>, n: nat, backups: map<nat, Bytes>,
                        legacy: map<Path, Option<Digest>>, errors: seq<Path>, blocked: bool)
    requires DistinctPaths(records) && BackupsIntact(records, backups) && 0 < n <= |records|
    requires RestoredBut(found, files, records, n, backups, legacy, errors)
    ensures var r := records[n - 1];
      var step := if blocked then None else RestoreRecord(files, r, backups, legacy);
      if step.None? then RestoredBut(found, files, records, n - 1, backups, legacy, errors + [r.path])
      else RestoredBut(found, step.value, records, n - 1, backups, legacy, errors)
  {
    var r := records[n - 1];
    assert BackupsIntact([r], backups);
    RestoreRecordEffect(files, r, backups, legacy);
    RefusedLocal(found, files, r, backups, legacy);
    assert Covers(records, r.path);
    assert forall i :: 0 <= i < |records| && i != n - 1 ==> records[i].path != r.path;
  }

  /** What is left of a rollback with refused writes is a rollback that stopped. */
  lemma RestoredButIsPartly(found: Files, files: Files, records: seq<Record>, backups: map<nat, Bytes>,
                            legacy: map<Path, Option<Digest>>, errors: seq<Path>)
    requires RestoredBut(found, files, records, 0, backups, legacy, errors)
    ensures PartlyRestored(found, files, records, backups, legacy)
  {
  }

  /** Rerunning an interrupted rollback gives the same files and the same report. */
  lemma RestoreRestartable(found: Files, files: Files, records: seq<Record>, backups: map<nat, Bytes>,
                           legacy: map<Path, Option<Digest>>)
    requires DistinctPaths(records) && BackupsIntact(records, backups)
    requires PartlyRestored(found, files, records, backups, legacy)
    ensures RestoreAll(files, records, backups, legacy) == RestoreAll(found, records, backups, legacy)
  {
    RestoreAllEffect(found, records, backups, legacy);
    RestoreAllEffect(files, records, backups, legacy);
    forall i | 0 <= i < |records|
      ensures Refused(files, records[i], backups, legacy) == Refused(found, records[i], backups, legacy)
    {
      if Get(files, records[i].path) == Get(found, records[i].path) {
        RefusedLocal(files, found, records[i], backups, legacy);
      }
    }
    RefusedPathsLocal(files, found, records, backups, legacy);
    var a, b := RestoreAll(files, records, backups, legacy).0, RestoreAll(found, records, backups, legacy).0;
    forall p ensures Get(a, p) == Get(b, p) {
      if Covers(records, p) {
        var i :| 0 <= i < |records| && records[i].path == p;
      }
    }
    SameContent(a, b);
  }

  lemma SameContent(a: Files, b: Files)
    requires forall p :: Get(a, p) == Get(b, p)
    ensures a == b
  {
    forall p ensures p in a <==> p in b {
      assert Get(a, p) == Get(b, p);
    }
    forall p | p in a ensures a[p] == b[p] {
      assert Get(a, p) == Get(b, p);
    }
  }
}
