/** The browser's write-ahead journal: web/static/campaignoffline.js. One entry per attempt
    is kept in IndexedDB; every function below is the change one `store.put` makes durable. */
module Journal {
  import opened Base
  import opened Drafts
  import opened CampaignServer

  // A revision of 0 is the absent property: the operation has not been stamped yet.
  datatype Operation = Operation(id: OperationId, data: DraftData, revision: nat)

  // `shown` is what the attempt displayed when it was completed. The client never reads it.
  datatype Completion = Completion(finished: Time, revision: nat, shown: DraftData)

  datatype Creation = Creation(execution: ExecutionId, ref: Ref)

  datatype Entry = Entry(
    row: Attempt, create: Option<Creation>, operations: seq<Operation>, completion: Option<Completion>,
    error: bool, conflict: Option<Row>, version: nat)

  // ---- projections (localAttempt) ----

  function LocalData(e: Entry): DraftData {
    if e.operations == [] then e.row.data else e.operations[|e.operations| - 1].data
  }

  predicate Pending(e: Entry) {
    e.create.Some? || e.operations != [] || e.completion.Some?
  }

  predicate CreateFailed(e: Entry) {
    e.create.Some? && e.error && e.conflict.None?
  }

  // ---- edits ----

  predicate MaySave(e: Entry, version: nat) {
    e.version == version && e.completion.None? && e.row.finalization.None?
  }

  /** saveEntry: an unstamped tail is superseded, a stamped one must stay as it was sent. */
  function SaveEntry(e: Entry, data: DraftData, op: OperationId): Entry {
    var kept := if e.operations != [] && e.operations[|e.operations| - 1].revision == 0
                then e.operations[..|e.operations| - 1] else e.operations;
    e.(operations := kept + [Operation(op, data, 0)], version := e.version + 1)
  }

  function CompleteEntry(e: Entry, finished: Time): Entry {
    e.(completion := if e.completion.Some? then e.completion else Some(Completion(finished, 0, LocalData(e))),
       version := e.version + 1)
  }

  /** remember: a pending entry wins over the row, anything else is replaced by it. */
  function Remembered(existing: Option<Entry>, row: Attempt): Entry {
    if existing.Some? && Pending(existing.value) then existing.value
    else Entry(row, None, [], None, false, None,
               if existing.None? then 0
               else existing.value.version + (if existing.value.row.revision != row.revision then 1 else 0))
  }

  // ---- synchronize, put by put ----

  function Stamped(e: Entry): Entry
    requires e.operations != []
  {
    var op := e.operations[0];
    e.(operations := [if op.revision == 0 then op.(revision := e.row.revision) else op] + e.operations[1..])
  }

  function Acknowledged(e: Entry, row: Attempt): Entry
    requires e.operations != []
  {
    e.(row := row, operations := e.operations[1..])
  }

  function CompletionStamped(e: Entry): Entry
    requires e.completion.Some?
  {
    var c := e.completion.value;
    e.(completion := Some(if c.revision == 0 then c.(revision := e.row.revision) else c))
  }

  /** The catch clause: the refusal is kept, with the server's row when one could be fetched. */
  function Halted(e: Entry, conflict: Option<Row>): Entry {
    e.(error := true, conflict := if e.conflict.Some? then e.conflict else conflict)
  }

  /** The reply to a creation: another attempt, or one already changed, is a conflict. */
  function CreationReply(e: Entry, id: AttemptId, row: Row): Entry {
    if row.id != id || row.attempt.revision != 1 || row.attempt.finalization.Some?
    then e.(error := true, conflict := Some(row))
    else e.(row := row.attempt, create := None)
  }

  // ---- explicit recovery ----

  function Retried(e: Entry): Entry {
    e.(error := false, version := e.version + 1)
  }

  function Resolved(e: Entry, remote: Attempt, local: bool, op: OperationId): Entry {
    Entry(remote, None, if local then [Operation(op, LocalData(e), remote.revision)] else [],
          None, false, None, e.version + 1)
  }
}
