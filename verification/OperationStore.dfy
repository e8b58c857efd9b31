/** The operations table: what the agent remembers of every operation the relay
  has sent it. Each transaction of the database is one method. */
module OperationStore {
  import opened Wrappers

  type OperationId = string
  type Correlation = string

  datatype OperationState =
    Received | Running | WaitingApproval | Succeeded | Failed | Denied | Cancelled | OutcomeUnknown

  predicate Terminal(state: OperationState) {
    state.Succeeded? || state.Failed? || state.Denied? || state.Cancelled? || state.OutcomeUnknown?
  }

  datatype Bindings = Bindings(account: string, device: string, link: Option<string>,
                               grant: Option<string>, project: Option<string>)

  /** A tool call: the input's discriminating fields, and the rest of it. */
  datatype Action = Action(tool: string, action: Option<string>, operation: Option<string>,
                           project: Option<string>, rest: string)

  /** The digest of a tool call, taken to be injective. */
  datatype ActionDigest = DigestOf(action: Action)

  /** What must be the same in every delivery of one operation. */
  datatype Receipt = Receipt(correlation: Correlation, bindings: Bindings, digest: ActionDigest, deadline: int)

  /** The digest of a screenshot, taken to be injective. */
  datatype ImageDigest = DigestOfImage(image: string)

  /** A tool answer, with the screenshot it may carry, or the digest of one that was not kept. */
  datatype Payload = Payload(ok: bool, text: string, image: Option<string>, digest: Option<ImageDigest>)

  datatype Row = Row(receipt: Receipt, state: OperationState, result: Option<Payload>,
                     acked: bool, epoch: nat, receivedAt: int)

  type Rows = map<OperationId, Row>

  datatype Recording = Inserted | Duplicate | Conflict

  function RecordingOf(rows: Rows, projects: set<string>, id: OperationId, receipt: Receipt, epoch: nat): Recording {
    if id !in rows then
      (if receipt.bindings.project.Some? && receipt.bindings.project.value !in projects then Conflict else Inserted)
    else if rows[id].receipt != receipt || epoch < rows[id].epoch then Conflict
    else Duplicate
  }

  function Recorded(rows: Rows, projects: set<string>, id: OperationId, receipt: Receipt, epoch: nat, now: int): Rows {
    match RecordingOf(rows, projects, id, receipt, epoch)
    case Conflict => rows
    case Inserted => rows[id := Row(receipt, Received, None, false, epoch, now)]
    case Duplicate => rows[id := rows[id].(epoch := epoch)]
  }

  predicate MayTransition(rows: Rows, id: OperationId, state: OperationState) {
    id in rows && (Terminal(rows[id].state) ==> rows[id].state == state)
  }

  function Transitioned(rows: Rows, id: OperationId, state: OperationState, result: Option<Payload>): Rows
    requires MayTransition(rows, id, state)
  {
    rows[id := rows[id].(state := state, result := result, acked := rows[id].acked && !Terminal(state))]
  }

  /** The acknowledgement names exactly this row. */
  predicate Acknowledges(correlation: Correlation, digest: ActionDigest, bindings: Bindings, row: Row) {
    && row.receipt.correlation == correlation && row.receipt.digest == digest
    && row.receipt.bindings == bindings && Terminal(row.state)
  }

  function Acknowledged(rows: Rows, correlation: Correlation, digest: ActionDigest, bindings: Bindings): Rows {
    map id | id in rows ::
      if Acknowledges(correlation, digest, bindings, rows[id]) then rows[id].(acked := true) else rows[id]
  }

  /** A result the relay still has to confirm. */
  predicate Owed(row: Row) {
    !row.acked && row.result.Some? && Terminal(row.state)
  }

  function OwedOf(rows: Rows): set<OperationId> {
    set id | id in rows && Owed(rows[id])
  }

  /** What every transaction keeps: no row goes away or changes what it stands
    for, a terminal state is final, and a terminal row keeps a result once it has one. */
  ghost predicate Advances(before: Rows, after: Rows) {
    forall id :: id in before ==>
      && id in after
      && after[id].receipt == before[id].receipt && after[id].receivedAt == before[id].receivedAt
      && before[id].epoch <= after[id].epoch
      && (Terminal(before[id].state) ==>
            after[id].state == before[id].state && (before[id].result.Some? ==> after[id].result.Some?))
  }

  lemma AdvancesFurther(a: Rows, b: Rows, c: Rows)
    requires Advances(a, b) && Advances(b, c)
    ensures Advances(a, c)
  {
  }

  class OperationStore {
    var rows: Rows
    var projects: set<string>

    constructor (projects: set<string>)
      ensures rows == map[] && this.projects == projects
    {
      rows := map[];
      this.projects := projects;
    }

    /** Persist a request before its receipt is confirmed. */
    method RecordReceived(id: OperationId, receipt: Receipt, epoch: nat, now: int) returns (recording: Recording)
      modifies this`rows
      ensures recording == RecordingOf(old(rows), projects, id, receipt, epoch)
      ensures rows == Recorded(old(rows), projects, id, receipt, epoch, now)
      ensures Advances(old(rows), rows)
      ensures !recording.Conflict? ==> id in rows && rows[id].receipt == receipt
    {
      if id !in rows {
        if receipt.bindings.project.Some? && receipt.bindings.project.value !in projects {
          return Conflict;
        }
        rows := rows[id := Row(receipt, Received, None, false, epoch, now)];
        return Inserted;
      }
      if rows[id].receipt != receipt || epoch < rows[id].epoch {
        return Conflict;
      }
      rows := rows[id := rows[id].(epoch := epoch)];
      return Duplicate;
    }

    method TransitionOperation(id: OperationId, state: OperationState, result: Option<Payload>) returns (changed: bool)
      modifies this`rows
      ensures changed <==> MayTransition(old(rows), id, state)
      ensures rows == if changed then Transitioned(old(rows), id, state, result) else old(rows)
      ensures (Terminal(state) ==> result.Some?) ==> Advances(old(rows), rows)
    {
      if id !in rows {
        return false;
      }
      var row := rows[id];
      if Terminal(row.state) && row.state != state {
        return false;
      }
      rows := rows[id := row.(state := state, result := result, acked := row.acked && !Terminal(state))];
      return true;
    }

    method GetOperation(id: OperationId) returns (row: Option<Row>)
      ensures row == if id in rows then Some(rows[id]) else None
    {
      return if id in rows then Some(rows[id]) else None;
    }

    method ListUnacknowledgedTerminals() returns (owed: set<OperationId>)
      ensures owed == OwedOf(rows)
    {
      return set id | id in rows && !rows[id].acked && rows[id].result.Some? && Terminal(rows[id].state);
    }

    /** Mark the terminal rows the acknowledgement names, and no other. */
    method AcknowledgeTerminal(correlation: Correlation, digest: ActionDigest, bindings: Bindings) returns (found: bool)
      modifies this`rows
      ensures rows == Acknowledged(old(rows), correlation, digest, bindings)
      ensures found <==> exists id :: id in old(rows) && Acknowledges(correlation, digest, bindings, old(rows)[id])
      ensures Advances(old(rows), rows)
    {
      var named := set id | id in rows && Acknowledges(correlation, digest, bindings, rows[id]);
      found := named != {};
      assert forall id :: id in named <==> id in rows && Acknowledges(correlation, digest, bindings, rows[id]);
      if found {
        var id :| id in named;
      }
      rows := map id | id in rows :: if id in named then rows[id].(acked := true) else rows[id];
    }
  }
}
