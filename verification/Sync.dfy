/** Journal, server, colleagues and faults as one transition system.

    A step of the client is one durable `put` together with the request that led to it; a
    crash between two puts, a lost request or a lost response is simply a next step that
    never comes. Requests already sent may still be served later, any number of times. */
module Sync {
  import opened Base
  import opened Drafts
  import opened CampaignServer
  import opened CampaignInvariants
  import opened Journal

  // A stamped save as it was sent. `shown` is the row the user had in view when the base
  // revision was chosen; only a resolution without a recorded conflict has none.
  datatype Sent = Sent(id: AttemptId, revision: nat, data: DraftData, shown: Option<Attempt>)

  datatype Archived = Archived(id: AttemptId, entry: Entry)

  // `sent` holds the saves that may still be in the network. `minted`, `accepted` and `saved`
  // record history; no step decides anything by them except that new identifiers are new.
  datatype Sys = Sys(
    me: Actor, db: Db, entries: map<AttemptId, Entry>, archive: seq<Archived>,
    started: map<AttemptId, Creation>, minted: map<OperationId, AttemptId>,
    sent: map<OperationId, Sent>, accepted: set<OperationId>, saved: map<AttemptId, Operation>)

  datatype Action =
    // the user at the device
    | Begin(id: AttemptId, execution: ExecutionId, ref: Ref, created: Time)
    | Remember(id: AttemptId, row: Attempt)
    | SaveLocal(id: AttemptId, version: nat, data: DraftData, op: OperationId)
    | CompleteLocal(id: AttemptId, version: nat, finished: Time)
    | Resolve(id: AttemptId, local: bool, remote: Row, op: OperationId, puts: nat)
    | Reload(id: AttemptId, remote: Row)
    | Retry(id: AttemptId)
    | ArchiveCreate(id: AttemptId, puts: nat)
    // synchronize
    | CreateTrip(id: AttemptId, at: Time, fetched: bool)
    | StampSave(id: AttemptId)
    | SaveTrip(id: AttemptId, attached: bool, fetched: bool)
    | StampCompletion(id: AttemptId)
    | FinalizeTrip(id: AttemptId, at: Time, fetched: bool)
    | Refuse(id: AttemptId, found: Option<Row>)
    // everybody else, and requests that arrive late
    | LateSave(op: OperationId, attached: bool)
    | Other(request: Request)

  /** A row some reply may have carried: it is, or was, compatible with the row now stored. */
  ghost predicate Snapshot(db: Db, id: AttemptId, row: Attempt) {
    id in db.attempts && row.revision >= 1 && RowEvolves(db.evidence, row, db.attempts[id])
  }

  /** Random identifiers do not repeat. */
  ghost predicate NewOperation(s: Sys, op: OperationId) {
    op !in s.minted && forall id :: id in s.db.attempts ==> s.db.attempts[id].lastOperation != Some(op)
  }

  ghost predicate Foreign(s: Sys, q: Request) {
    match q
    case Execute(_, _, _, _, _) => true
    case Start(e, id, ref, actor, _) => id in s.started ==> actor == s.me && s.started[id] == Creation(e, ref)
    case Create(id, _, _, _, _, _) => id !in s.started
    case Save(_, _, _, op, _, _) => op !in s.minted
    case Finalize(_, _, _, _, _) => true
    case SetClosed(_, _, _, _, _, ids) => forall k :: k in ids ==> k !in s.started
  }

  ghost predicate Enabled(s: Sys, a: Action) {
    match a
    case Begin(id, e, ref, _) =>
      && id !in s.entries && id !in s.started && id !in s.db.attempts && id !in s.saved
      && e in s.db.executions
      && PackageScenario(s.db.packages, s.db.executions[e].package, ref).Some?
      && forall k :: k in s.entries && s.entries[k].row.execution == Some(e) && s.entries[k].row.ref == ref ==>
           s.entries[k].row.finalization.Some? && s.entries[k].completion.None?
    case Remember(id, row) => Snapshot(s.db, id, row)
    case SaveLocal(id, version, _, op) =>
      id in s.entries && MaySave(s.entries[id], version) && NewOperation(s, op)
    case CompleteLocal(id, version, _) => id in s.entries && s.entries[id].version == version
    case Resolve(id, local, remote, op, puts) =>
      && id in s.entries && s.entries[id].error
      && remote.id == (if s.entries[id].conflict.Some? then s.entries[id].conflict.value.id else id)
      && Snapshot(s.db, remote.id, remote.attempt)
      && (local ==> && remote.attempt.finalization.None? && NewOperation(s, op)
                    && (s.entries[id].conflict.Some? ==>
                          remote.attempt.revision == s.entries[id].conflict.value.attempt.revision))
      && 1 <= puts <= 3
    case Reload(id, remote) =>
      && id in s.entries && s.entries[id].error && !CreateFailed(s.entries[id])
      && remote.id == (if s.entries[id].conflict.Some? then s.entries[id].conflict.value.id else id)
      && Snapshot(s.db, remote.id, remote.attempt)
    case Retry(id) => id in s.entries && CreateFailed(s.entries[id])
    case ArchiveCreate(id, puts) => id in s.entries && CreateFailed(s.entries[id]) && 1 <= puts <= 2
    case CreateTrip(id, _, _) => Syncing(s, id) && s.entries[id].create.Some?
    case StampSave(id) => Syncing(s, id) && s.entries[id].create.None? && s.entries[id].operations != []
    case SaveTrip(id, _, _) =>
      && Syncing(s, id) && s.entries[id].create.None?
      && s.entries[id].operations != [] && s.entries[id].operations[0].revision != 0
    case StampCompletion(id) =>
      && Syncing(s, id) && s.entries[id].create.None?
      && s.entries[id].operations == [] && s.entries[id].completion.Some?
    case FinalizeTrip(id, _, _) =>
      && Syncing(s, id) && s.entries[id].create.None?
      && s.entries[id].operations == [] && s.entries[id].completion.Some?
      && s.entries[id].completion.value.revision != 0
    // a refusal kept late: the row fetched after it may be of any moment since
    case Refuse(id, fetched) =>
      Syncing(s, id) && (fetched.Some? ==> fetched.value.id == id && Snapshot(s.db, id, fetched.value.attempt))
    case LateSave(op, _) => op in s.sent
    case Other(q) => Foreign(s, q)
  }

  ghost predicate Syncing(s: Sys, id: AttemptId) {
    id in s.entries && Pending(s.entries[id]) && !s.entries[id].error
  }

  function Put(s: Sys, id: AttemptId, e: Entry): Sys {
    s.(entries := s.entries[id := e])
  }

  /** A conflict reply is followed by fetching the row; the fetch may fail. Here it follows at once;
      a refusal whose fetch comes after further requests is a `Refuse`. */
  function Fetch(db: Db, id: AttemptId, why: Refusal, fetched: bool): Option<Row> {
    if fetched && (why.AttemptConflict? || why.CampaignConflict?) && id in db.attempts
    then Some(Row(id, db.attempts[id])) else None
  }

  /** The server handles the save `m` under the operation id `op`. */
  function ServeSave(s: Sys, op: OperationId, m: Sent, attached: bool): (Sys, Reply<Row>) {
    var (db, reply) := SaveRequest(s.db, m.id, s.me, m.revision, op, m.data, attached);
    (s.(db := db, accepted := if db != s.db then s.accepted + {op} else s.accepted), reply)
  }

  function BeginEntry(s: Sys, e: ExecutionId, ref: Ref, created: Time): Entry
    requires e in s.db.executions && PackageScenario(s.db.packages, s.db.executions[e].package, ref).Some?
  {
    var x := s.db.executions[e];
    var data := StartDraft(x, PackageScenario(s.db.packages, x.package, ref).value, s.me);
    Entry(Attempt(x.package, Some(e), ref, s.me, created, 0, data, None, None, 0, None),
          Some(Creation(e, ref)), [], None, false, None, 0)
  }

  ghost function CreateTripDone(s: Sys, id: AttemptId, at: Time, fetched: bool): Sys
    requires id in s.entries && s.entries[id].create.Some?
  {
    var e := s.entries[id];
    var c := e.create.value;
    var (db, reply) := StartExecutionAttempt(s.db, c.execution, id, c.ref, s.me, at);
    Put(s.(db := db), id,
        match reply
        case Ok(row) => CreationReply(e, id, row)
        case Refused(why) => Halted(e, Fetch(db, id, why, fetched)))
  }

  function SaveTripDone(s: Sys, id: AttemptId, attached: bool, fetched: bool): Sys
    requires id in s.entries && s.entries[id].operations != []
  {
    var e := s.entries[id];
    var op := e.operations[0];
    var (t, reply) := ServeSave(s, op.id, Sent(id, op.revision, op.data, None), attached);
    Put(t, id,
        match reply
        case Ok(row) => Acknowledged(e, row.attempt)
        case Refused(why) => Halted(e, Fetch(t.db, id, why, fetched)))
  }

  function FinalizeTripDone(s: Sys, id: AttemptId, at: Time, fetched: bool): Sys
    requires id in s.entries && s.entries[id].completion.Some?
  {
    var e := s.entries[id];
    var (db, reply) := FinalizeAttempt(s.db, id, s.me, e.completion.value.revision, e.completion.value.finished, at);
    Put(s.(db := db), id,
        match reply
        case Ok(row) => e.(row := row.attempt, completion := None)
        case Refused(why) => Halted(e, Fetch(db, id, why, fetched)))
  }

  /** resolve: archive, then replace, then drop the entry that was replaced elsewhere. */
  function ResolveDone(s: Sys, id: AttemptId, local: bool, remote: Row, op: OperationId, puts: nat): Sys
    requires id in s.entries
  {
    var e := s.entries[id];
    var s1 := s.(archive := s.archive + [Archived(id, e)]);
    if puts < 2 then s1
    else
      var shown := if e.conflict.Some? then Some(e.conflict.value.attempt) else None;
      var s2 := Put(s1, remote.id, Resolved(e, remote.attempt, local, op));
      var s3 := if local
                then s2.(minted := s.minted[op := remote.id],
                         sent := s.sent[op := Sent(remote.id, remote.attempt.revision, LocalData(e), shown)])
                else s2;
      if puts < 3 || remote.id == id then s3 else s3.(entries := s3.entries - {id})
  }

  ghost function Next(s: Sys, a: Action): Sys
    requires Enabled(s, a)
  {
    match a
    case Begin(id, e, ref, created) =>
      Put(s.(started := s.started[id := Creation(e, ref)]), id, BeginEntry(s, e, ref, created))
    case Remember(id, row) =>
      Put(s, id, Remembered(if id in s.entries then Some(s.entries[id]) else None, row))
    case SaveLocal(id, _, data, op) =>
      Put(s.(minted := s.minted[op := id], saved := s.saved[id := Operation(op, data, 0)]),
          id, SaveEntry(s.entries[id], data, op))
    case CompleteLocal(id, _, finished) => Put(s, id, CompleteEntry(s.entries[id], finished))
    case Resolve(id, local, remote, op, puts) => ResolveDone(s, id, local, remote, op, puts)
    case Reload(id, remote) => Put(s, id, s.entries[id].(conflict := Some(remote)))
    case Retry(id) => Put(s, id, Retried(s.entries[id]))
    case ArchiveCreate(id, puts) =>
      var s1 := s.(archive := s.archive + [Archived(id, s.entries[id])]);
      if puts < 2 then s1 else s1.(entries := s1.entries - {id})
    case CreateTrip(id, at, fetched) => CreateTripDone(s, id, at, fetched)
    case StampSave(id) =>
      var e := s.entries[id];
      if e.operations[0].revision != 0 then s
      else Put(s.(sent := s.sent[e.operations[0].id := Sent(id, e.row.revision, e.operations[0].data, Some(e.row))]),
               id, Stamped(e))
    case SaveTrip(id, attached, fetched) => SaveTripDone(s, id, attached, fetched)
    case StampCompletion(id) => Put(s, id, CompletionStamped(s.entries[id]))
    case FinalizeTrip(id, at, fetched) => FinalizeTripDone(s, id, at, fetched)
    case Refuse(id, fetched) => Put(s, id, Halted(s.entries[id], fetched))
    case LateSave(op, attached) => ServeSave(s, op, s.sent[op], attached).0
    case Other(q) => s.(db := Apply(s.db, q))
  }
}
