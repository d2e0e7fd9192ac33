/** Every step of the journal-and-server system keeps the invariant. */
module SyncSteps {
  import opened Base
  import opened Drafts
  import opened CampaignServer
  import opened CampaignInvariants
  import opened Journal
  import opened Sync
  import opened SyncInvariants

  // ---- frames ----

  /** `t` knows everything an entry relies on in `s`, and nothing that contradicts it. */
  ghost predicate SameWorld(s: Sys, t: Sys) {
    && t.me == s.me && t.db == s.db
    && (forall id :: id in s.started ==> id in t.started && t.started[id] == s.started[id])
    && (forall op :: op in s.minted ==> op in t.minted && t.minted[op] == s.minted[op])
    && (forall op :: op in s.sent ==> op in t.sent && t.sent[op] == s.sent[op])
  }

  lemma EntryFrame(s: Sys, t: Sys, id: AttemptId, e: Entry)
    requires EntryOk(s, id, e) && SameWorld(s, t)
    requires forall k :: 0 <= k < |e.operations| && e.operations[k].revision == 0 ==> e.operations[k].id !in t.sent
    ensures EntryOk(t, id, e)
  {
  }

  lemma EntriesFrame(s: Sys, t: Sys)
    requires EntriesOk(s) && SameWorld(s, t) && t.entries == s.entries
    requires forall op :: op in t.sent && op !in s.sent ==> op !in s.minted
    ensures EntriesOk(t)
  {
    forall id | id in t.entries ensures EntryOk(t, id, t.entries[id]) {
      assert EntryOk(s, id, s.entries[id]);
      EntryFrame(s, t, id, s.entries[id]);
    }
  }

  lemma PutKeeps(s: Sys, id: AttemptId, e: Entry)
    requires Inv(s) && EntryOk(s, id, e)
    ensures Inv(Put(s, id, e))
  {
    var t := Put(s, id, e);
    forall k | k in t.entries ensures EntryOk(t, k, t.entries[k]) {
      if k != id { assert EntryOk(s, k, s.entries[k]); }
      EntryFrame(s, t, k, t.entries[k]);
    }
    HistoryFrame(s, t);
  }

  lemma DropKeeps(s: Sys, id: AttemptId)
    requires Inv(s)
    ensures Inv(s.(entries := s.entries - {id}))
  {
    var t := s.(entries := s.entries - {id});
    forall k | k in t.entries ensures EntryOk(t, k, t.entries[k]) {
      assert EntryOk(s, k, s.entries[k]);
      EntryFrame(s, t, k, t.entries[k]);
    }
    HistoryFrame(s, t);
  }

  lemma HistoryFrame(s: Sys, t: Sys)
    requires HistoryOk(s)
    requires t == s.(entries := t.entries, archive := t.archive, saved := t.saved)
    ensures HistoryOk(t)
  {
    forall op | op in t.sent ensures SentOk(t, op, t.sent[op]) { assert SentOk(s, op, s.sent[op]); }
    forall id | id in t.db.attempts
      ensures ServerOp(t, id, t.db.attempts[id])
    {
      assert ServerOp(s, id, s.db.attempts[id]);
    }
    forall op | op in t.accepted ensures AcceptedOk(t, op) { assert AcceptedOk(s, op); }
    forall id | id in t.started ensures StartedOk(t, id, t.started[id]) { assert StartedOk(s, id, s.started[id]); }
  }

  lemma ArchiveKeeps(s: Sys, more: Archived)
    requires Inv(s)
    ensures Inv(s.(archive := s.archive + [more]))
  {
    var t := s.(archive := s.archive + [more]);
    EntriesFrame(s, t);
    HistoryFrame(s, t);
  }

  /** A new operation id is known to nobody yet. */
  lemma MintKeeps(s: Sys, op: OperationId, id: AttemptId, saved: map<AttemptId, Operation>)
    requires Inv(s) && NewOperation(s, op)
    ensures Inv(s.(minted := s.minted[op := id], saved := saved))
    ensures op !in s.sent
  {
    var t := s.(minted := s.minted[op := id], saved := saved);
    EntriesFrame(s, t);
    hide EntriesOk, EntryOk, Valid, Snapshot;
    forall k | k in t.sent ensures SentOk(t, k, t.sent[k]) { assert SentOk(s, k, s.sent[k]); }
    forall k | k in t.db.attempts ensures ServerOp(t, k, t.db.attempts[k]) { assert ServerOp(s, k, s.db.attempts[k]); }
    forall k | k in t.accepted ensures AcceptedOk(t, k) { assert AcceptedOk(s, k); }
    forall k | k in t.started ensures StartedOk(t, k, t.started[k]) { assert StartedOk(s, k, s.started[k]); }
  }

  // ---- the user ----

  lemma BeginKeeps(s: Sys, id: AttemptId, e: ExecutionId, ref: Ref, created: Time)
    requires Inv(s) && Enabled(s, Begin(id, e, ref, created))
    ensures Inv(Next(s, Begin(id, e, ref, created)))
  {
    var t := s.(started := s.started[id := Creation(e, ref)]);
    EntriesFrame(s, t);
    forall k | k in t.sent ensures SentOk(t, k, t.sent[k]) { assert SentOk(s, k, s.sent[k]); }
    forall k | k in t.db.attempts ensures ServerOp(t, k, t.db.attempts[k]) { assert ServerOp(s, k, s.db.attempts[k]); }
    forall k | k in t.accepted ensures AcceptedOk(t, k) { assert AcceptedOk(s, k); }
    forall k | k in t.started ensures StartedOk(t, k, t.started[k]) {
      if k != id { assert StartedOk(s, k, s.started[k]); }
    }
    PutKeeps(t, id, BeginEntry(s, e, ref, created));
  }

  lemma RememberKeeps(s: Sys, id: AttemptId, row: Attempt)
    requires Inv(s) && Enabled(s, Remember(id, row))
    ensures Inv(Next(s, Remember(id, row)))
  {
    PutKeeps(s, id, Remembered(if id in s.entries then Some(s.entries[id]) else None, row));
  }

  lemma SaveLocalKeeps(s: Sys, id: AttemptId, version: nat, data: DraftData, op: OperationId)
    requires Inv(s) && Enabled(s, SaveLocal(id, version, data, op))
    ensures Inv(Next(s, SaveLocal(id, version, data, op)))
  {
    var t := s.(minted := s.minted[op := id], saved := s.saved[id := Operation(op, data, 0)]);
    MintKeeps(s, op, id, t.saved);
    assert EntryOk(s, id, s.entries[id]) && EntryOk(t, id, s.entries[id]);
    SaveEntryOk(t, id, s.entries[id], data, op);
    PutKeeps(t, id, SaveEntry(s.entries[id], data, op));
  }

  lemma SaveEntryOk(t: Sys, id: AttemptId, e: Entry, data: DraftData, op: OperationId)
    requires EntryOk(t, id, e) && e.completion.None?
    requires op in t.minted && t.minted[op] == id && op !in t.sent
    requires forall k :: 0 <= k < |e.operations| ==> e.operations[k].id != op
    ensures EntryOk(t, id, SaveEntry(e, data, op))
  {
    var f := SaveEntry(e, data, op);
    assert QueueShape(f.operations);
    assert e.operations != [] && e.operations[0].revision != 0 ==> f.operations[0] == e.operations[0];
  }

  lemma CompleteKeeps(s: Sys, id: AttemptId, version: nat, finished: Time)
    requires Inv(s) && Enabled(s, CompleteLocal(id, version, finished))
    ensures Inv(Next(s, CompleteLocal(id, version, finished)))
  {
    assert EntryOk(s, id, s.entries[id]);
    hide Inv, EntryOk, CompleteEntry;
    CompletedOk(s, id, s.entries[id], finished);
    PutKeeps(s, id, CompleteEntry(s.entries[id], finished));
  }

  lemma CompletedOk(s: Sys, id: AttemptId, e: Entry, finished: Time)
    requires EntryOk(s, id, e)
    ensures EntryOk(s, id, CompleteEntry(e, finished))
  {
    hide Snapshot, QueueShape, QueueMinted, StartDraft;
  }

  lemma ReloadKeeps(s: Sys, id: AttemptId, remote: Row)
    requires Inv(s) && Enabled(s, Reload(id, remote))
    ensures Inv(Next(s, Reload(id, remote)))
  {
    assert EntryOk(s, id, s.entries[id]);
    PutKeeps(s, id, s.entries[id].(conflict := Some(remote)));
  }

  lemma RetriedOk(s: Sys, id: AttemptId, e: Entry)
    requires EntryOk(s, id, e)
    ensures EntryOk(s, id, Retried(e))
  {
  }

  lemma RetryKeeps(s: Sys, id: AttemptId)
    requires Inv(s) && Enabled(s, Retry(id))
    ensures Inv(Next(s, Retry(id)))
  {
    RetriedOk(s, id, s.entries[id]);
    PutKeeps(s, id, Retried(s.entries[id]));
  }

  lemma ArchiveCreateKeeps(s: Sys, id: AttemptId, puts: nat)
    requires Inv(s) && Enabled(s, ArchiveCreate(id, puts))
    ensures Inv(Next(s, ArchiveCreate(id, puts)))
  {
    ArchiveKeeps(s, Archived(id, s.entries[id]));
    DropKeeps(s.(archive := s.archive + [Archived(id, s.entries[id])]), id);
  }

  /** Recording a stamped operation as sent. */
  lemma SendHistory(s: Sys, op: OperationId, m: Sent)
    requires HistoryOk(s) && SentOk(s, op, m) && op !in s.sent
    ensures HistoryOk(s.(sent := s.sent[op := m]))
  {
    var t := s.(sent := s.sent[op := m]);
    forall k | k in t.sent ensures SentOk(t, k, t.sent[k]) {
      if k != op { assert SentOk(s, k, s.sent[k]); }
    }
    forall k | k in t.db.attempts ensures ServerOp(t, k, t.db.attempts[k]) { assert ServerOp(s, k, s.db.attempts[k]); }
    forall k | k in t.accepted ensures AcceptedOk(t, k) { assert AcceptedOk(s, k); }
    forall k | k in t.started ensures StartedOk(t, k, t.started[k]) { assert StartedOk(s, k, s.started[k]); }
  }

  lemma SendEntries(s: Sys, op: OperationId, m: Sent, id: AttemptId)
    requires EntriesOk(s) && op !in s.sent && op in s.minted && s.minted[op] == id
    ensures forall k :: k in s.entries && k != id ==> EntryOk(s.(sent := s.sent[op := m]), k, s.entries[k])
  {
    var t := s.(sent := s.sent[op := m]);
    OthersDiffer(s, op, id);
    forall k | k in s.entries && k != id ensures EntryOk(t, k, s.entries[k]) {
      assert EntryOk(s, k, s.entries[k]);
      EntryFrame(s, t, k, s.entries[k]);
    }
  }

  /** Operations belong to the entry they were minted for. */
  lemma OthersDiffer(s: Sys, op: OperationId, id: AttemptId)
    requires EntriesOk(s) && op in s.minted && s.minted[op] == id
    ensures forall k, i :: k in s.entries && k != id && 0 <= i < |s.entries[k].operations| ==>
              s.entries[k].operations[i].id != op
  {
    forall k, i | k in s.entries && k != id && 0 <= i < |s.entries[k].operations|
      ensures s.entries[k].operations[i].id != op
    {
      assert EntryOk(s, k, s.entries[k]);
    }
  }

  lemma SendAndPut(s: Sys, op: OperationId, m: Sent, id: AttemptId, e: Entry)
    requires Inv(s) && SentOk(s, op, m) && op !in s.sent && s.minted[op] == id
    requires EntryOk(s.(sent := s.sent[op := m]), id, e)
    ensures Inv(Put(s.(sent := s.sent[op := m]), id, e))
  {
    SendEntries(s, op, m, id);
    SendHistory(s, op, m);
    var t := s.(sent := s.sent[op := m]);
    var u := Put(t, id, e);
    forall k | k in u.entries ensures EntryOk(u, k, u.entries[k]) {
      EntryFrame(t, u, k, u.entries[k]);
    }
    HistoryFrame(t, u);
  }

  lemma StampedOk(s: Sys, id: AttemptId, e: Entry)
    requires EntryOk(s, id, e) && e.create.None? && e.operations != [] && e.operations[0].revision == 0
    ensures var m := Sent(id, e.row.revision, e.operations[0].data, Some(e.row));
            var op := e.operations[0].id;
            && SentOk(s, op, m) && op !in s.sent && s.minted[op] == id
            && EntryOk(s.(sent := s.sent[op := m]), id, Stamped(e))
  {
    assert |e.operations| == 1;
  }

  lemma StampSaveKeeps(s: Sys, id: AttemptId)
    requires Inv(s) && Enabled(s, StampSave(id))
    ensures Inv(Next(s, StampSave(id)))
  {
    var e := s.entries[id];
    if e.operations[0].revision == 0 {
      StampedOk(s, id, e);
      SendAndPut(s, e.operations[0].id, Sent(id, e.row.revision, e.operations[0].data, Some(e.row)), id, Stamped(e));
    }
  }

  lemma StampCompletionKeeps(s: Sys, id: AttemptId)
    requires Inv(s) && Enabled(s, StampCompletion(id))
    ensures Inv(Next(s, StampCompletion(id)))
  {
    assert EntryOk(s, id, s.entries[id]);
    PutKeeps(s, id, CompletionStamped(s.entries[id]));
  }

  lemma HaltedOk(s: Sys, id: AttemptId, e: Entry, conflict: Option<Row>)
    requires EntryOk(s, id, e)
    requires conflict.Some? ==> Snapshot(s.db, conflict.value.id, conflict.value.attempt)
    ensures EntryOk(s, id, Halted(e, conflict))
  {
  }

  lemma RefuseKeeps(s: Sys, id: AttemptId, fetched: Option<Row>)
    requires Inv(s) && Enabled(s, Refuse(id, fetched))
    ensures Inv(Next(s, Refuse(id, fetched)))
  {
    assert EntryOk(s, id, s.entries[id]);
    HaltedOk(s, id, s.entries[id], fetched);
    PutKeeps(s, id, Halted(s.entries[id], fetched));
  }

  // ---- requests ----

  lemma FetchOk(db: Db, id: AttemptId, why: Refusal, fetched: bool)
    requires Valid(db)
    ensures var r := Fetch(db, id, why, fetched); r.Some? ==> Snapshot(db, r.value.id, r.value.attempt)
  {
    if id in db.attempts { assert RowOk(db, id); }
  }

  ghost predicate AsSent(s: Sys, op: OperationId, m: Sent) {
    op in s.sent && m.id == s.sent[op].id && m.revision == s.sent[op].revision && m.data == s.sent[op].data
  }

  lemma ServeSaveHistory(s: Sys, op: OperationId, m: Sent, attached: bool)
    requires HistoryOk(s) && AsSent(s, op, m)
    requires Evolves(s.db, ServeSave(s, op, m, attached).0.db)
    ensures HistoryOk(ServeSave(s, op, m, attached).0)
  {
    var (t, reply) := ServeSave(s, op, m, attached);
    assert SentOk(s, op, s.sent[op]);
    SaveChanges(s.db, m.id, s.me, m.revision, op, m.data, attached);
    forall id | id in t.db.attempts ensures ServerOp(t, id, t.db.attempts[id]) {
      assert ServerOp(s, id, s.db.attempts[id]);
    }
    forall id | id in t.started ensures StartedOk(t, id, t.started[id]) { assert StartedOk(s, id, s.started[id]); }
    HistoryLater(s, t);
  }

  /** An Ok means the operation took effect, now or before, and the row shows its answers. */
  lemma ServeSaveReply(s: Sys, op: OperationId, m: Sent, attached: bool)
    requires HistoryOk(s) && AsSent(s, op, m)
    ensures var (t, reply) := ServeSave(s, op, m, attached);
            && (reply.Ok? ==>
                  && op in t.accepted && m.id in t.db.attempts && reply.value == Row(m.id, t.db.attempts[m.id])
                  && SameWork(reply.value.attempt.data, m.data))
            && (t.db != s.db ==> op !in s.accepted)
  {
    var (t, reply) := ServeSave(s, op, m, attached);
    SaveChanges(s.db, m.id, s.me, m.revision, op, m.data, attached);
    assert SentOk(s, op, s.sent[op]);
    if op in s.accepted { assert AcceptedOk(s, op); }
    if reply.Ok? && t.db == s.db { assert ServerOp(s, m.id, s.db.attempts[m.id]); }
  }

  lemma ServeSaveGrows(s: Sys, op: OperationId, m: Sent, attached: bool)
    requires Valid(s.db)
    ensures var t := ServeSave(s, op, m, attached).0;
            Valid(t.db) && Evolves(s.db, t.db) && t == s.(db := t.db, accepted := t.accepted)
  {
    SaveRequestKeeps(s.db, m.id, s.me, m.revision, op, m.data, attached);
  }

  /** The server may handle a sent save at any time, any number of times. */
  lemma ServeSaveKeeps(s: Sys, op: OperationId, m: Sent, attached: bool)
    requires Inv(s) && AsSent(s, op, m)
    ensures Inv(ServeSave(s, op, m, attached).0)
  {
    ServeSaveGrows(s, op, m, attached);
    EntriesLater(s, ServeSave(s, op, m, attached).0);
    ServeSaveHistory(s, op, m, attached);
  }

  lemma CurrentRow(db: Db, id: AttemptId)
    requires RowsValid(db) && id in db.attempts
    ensures Snapshot(db, id, db.attempts[id])
  {
    assert RowOk(db, id);
  }

  lemma AcknowledgedOk(s: Sys, id: AttemptId, e: Entry, row: Attempt)
    requires EntryOk(s, id, e) && e.create.None? && e.operations != []
    requires Snapshot(s.db, id, row) && SameWork(row.data, e.operations[0].data)
    ensures EntryOk(s, id, Acknowledged(e, row))
  {
  }

  lemma SaveTripPut(t: Sys, id: AttemptId, reply: Reply<Row>, fetched: bool)
    requires Inv(t) && id in t.entries && t.entries[id].create.None? && t.entries[id].operations != []
    requires reply.Ok? ==> id in t.db.attempts && reply.value == Row(id, t.db.attempts[id])
                           && SameWork(reply.value.attempt.data, t.entries[id].operations[0].data)
    ensures reply.Ok? ==> Inv(Put(t, id, Acknowledged(t.entries[id], reply.value.attempt)))
    ensures reply.Refused? ==> Inv(Put(t, id, Halted(t.entries[id], Fetch(t.db, id, reply.why, fetched))))
  {
    match reply
    case Ok(row) =>
      CurrentRow(t.db, id);
      AcknowledgedOk(t, id, t.entries[id], row.attempt);
      PutKeeps(t, id, Acknowledged(t.entries[id], row.attempt));
    case Refused(why) => HaltKeeps(t, id, why, fetched);
  }

  lemma SaveTripKeeps(s: Sys, id: AttemptId, attached: bool, fetched: bool)
    requires Inv(s) && Enabled(s, SaveTrip(id, attached, fetched))
    ensures Inv(Next(s, SaveTrip(id, attached, fetched)))
  {
    var e := s.entries[id];
    assert EntryOk(s, id, e);
    var op := e.operations[0];
    var m := Sent(id, op.revision, op.data, None);
    ServeSaveKeeps(s, op.id, m, attached);
    ServeSaveReply(s, op.id, m, attached);
    var (t, reply) := ServeSave(s, op.id, m, attached);
    SaveTripPut(t, id, reply, fetched);
  }

  lemma HaltKeeps(t: Sys, id: AttemptId, why: Refusal, fetched: bool)
    requires Inv(t) && id in t.entries
    ensures Inv(Put(t, id, Halted(t.entries[id], Fetch(t.db, id, why, fetched))))
  {
    FetchOk(t.db, id, why, fetched);
    HaltedOk(t, id, t.entries[id], Fetch(t.db, id, why, fetched));
    PutKeeps(t, id, Halted(t.entries[id], Fetch(t.db, id, why, fetched)));
  }

  /** A confirmed creation is the draft the device derived for itself. */
  lemma CreatedOk(t: Sys, id: AttemptId, e: Entry, row: Row)
    requires EntryOk(t, id, e) && e.create.Some?
    requires row.id in t.db.attempts && row.attempt == t.db.attempts[row.id] && RowOk(t.db, row.id)
    requires id in t.started ==> StartedOk(t, id, t.started[id])
    ensures EntryOk(t, id, CreationReply(e, id, row))
  {
    CreatedAsDerived(t, id, e, row);
  }

  lemma CreatedAsDerived(t: Sys, id: AttemptId, e: Entry, row: Row)
    requires EntryOk(t, id, e) && e.create.Some?
    requires row.id in t.db.attempts && row.attempt == t.db.attempts[row.id] && RowOk(t.db, row.id)
    requires id in t.started ==> StartedOk(t, id, t.started[id])
    ensures row.id == id && row.attempt.revision == 1 && row.attempt.finalization.None? ==>
              row.attempt.data == e.row.data
  {}

  lemma CreateReplyRow(db: Db, e: ExecutionId, id: AttemptId, ref: Ref, actor: Actor, at: Time)
    ensures var (t, reply) := StartExecutionAttempt(db, e, id, ref, actor, at);
            reply.Ok? ==> reply.value.id in t.attempts && reply.value.attempt == t.attempts[reply.value.id]
  {
  }

  lemma CreateTripPut(t: Sys, id: AttemptId, reply: Reply<Row>, fetched: bool)
    requires Inv(t) && id in t.entries && t.entries[id].create.Some?
    requires reply.Ok? ==> reply.value.id in t.db.attempts && reply.value.attempt == t.db.attempts[reply.value.id]
    ensures reply.Ok? ==> Inv(Put(t, id, CreationReply(t.entries[id], id, reply.value)))
    ensures reply.Refused? ==> Inv(Put(t, id, Halted(t.entries[id], Fetch(t.db, id, reply.why, fetched))))
  {
    match reply
    case Ok(row) =>
      CreatedOk(t, id, t.entries[id], row);
      PutKeeps(t, id, CreationReply(t.entries[id], id, row));
    case Refused(why) => HaltKeeps(t, id, why, fetched);
  }

  /** A creation request is one that anybody could have delivered. */
  lemma CreationForeign(s: Sys, id: AttemptId, at: Time)
    requires EntriesOk(s) && id in s.entries && s.entries[id].create.Some?
    ensures Foreign(s, Start(s.entries[id].create.value.execution, id, s.entries[id].create.value.ref, s.me, at))
  {
    assert EntryOk(s, id, s.entries[id]);
  }

  lemma CreateTripKeeps(s: Sys, id: AttemptId, at: Time, fetched: bool)
    requires Inv(s) && Enabled(s, CreateTrip(id, at, fetched))
    ensures Inv(Next(s, CreateTrip(id, at, fetched)))
  {
    hide Valid, EntriesOk, HistoryOk, StartExecutionAttempt;
    var c := s.entries[id].create.value;
    CreationForeign(s, id, at);
    OtherKeeps(s, Start(c.execution, id, c.ref, s.me, at));
    CreateReplyRow(s.db, c.execution, id, c.ref, s.me, at);
    var (db, reply) := StartExecutionAttempt(s.db, c.execution, id, c.ref, s.me, at);
    CreateTripPut(s.(db := db), id, reply, fetched);
  }

  lemma DoneOk(t: Sys, id: AttemptId, e: Entry)
    requires EntryOk(t, id, e) && e.create.None? && e.operations == []
    requires id in t.db.attempts && RowOk(t.db, id)
    ensures EntryOk(t, id, e.(row := t.db.attempts[id], completion := None))
  {
  }

  lemma FinalizeReplyRow(db: Db, id: AttemptId, actor: Actor, revision: nat, finished: Time, at: Time)
    ensures var (t, reply) := FinalizeAttempt(db, id, actor, revision, finished, at);
            reply.Ok? ==> id in t.attempts && reply.value == Row(id, t.attempts[id])
  {
  }

  lemma FinalizeTripPut(t: Sys, id: AttemptId, reply: Reply<Row>, fetched: bool)
    requires Inv(t) && id in t.entries && t.entries[id].create.None? && t.entries[id].operations == []
    requires reply.Ok? ==> id in t.db.attempts && reply.value == Row(id, t.db.attempts[id])
    ensures reply.Ok? ==> Inv(Put(t, id, t.entries[id].(row := reply.value.attempt, completion := None)))
    ensures reply.Refused? ==> Inv(Put(t, id, Halted(t.entries[id], Fetch(t.db, id, reply.why, fetched))))
  {
    match reply
    case Ok(row) =>
      DoneOk(t, id, t.entries[id]);
      PutKeeps(t, id, t.entries[id].(row := row.attempt, completion := None));
    case Refused(why) => HaltKeeps(t, id, why, fetched);
  }

  lemma FinalizeTripKeeps(s: Sys, id: AttemptId, at: Time, fetched: bool)
    requires Inv(s) && Enabled(s, FinalizeTrip(id, at, fetched))
    ensures Inv(Next(s, FinalizeTrip(id, at, fetched)))
  {
    var c := s.entries[id].completion.value;
    OtherKeeps(s, Finalize(id, s.me, c.revision, c.finished, at));
    FinalizeReplyRow(s.db, id, s.me, c.revision, c.finished, at);
    var (db, reply) := FinalizeAttempt(s.db, id, s.me, c.revision, c.finished, at);
    FinalizeTripPut(s.(db := db), id, reply, fetched);
  }

  // ---- resolving ----

  lemma ResolvedOk(s: Sys, e: Entry, local: bool, remote: Row, op: OperationId, m: Sent)
    requires Snapshot(s.db, remote.id, remote.attempt)
    requires local ==> op in s.minted && s.minted[op] == remote.id && m.id == remote.id
                       && m.revision == remote.attempt.revision && m.data == LocalData(e)
    ensures local ==> EntryOk(s.(sent := s.sent[op := m]), remote.id, Resolved(e, remote.attempt, local, op))
    ensures !local ==> EntryOk(s, remote.id, Resolved(e, remote.attempt, local, op))
  {
  }

  lemma ResolveSentOk(s: Sys, id: AttemptId, e: Entry, remote: Row, op: OperationId, m: Sent)
    requires EntryOk(s, id, e) && op in s.minted
    requires Snapshot(s.db, remote.id, remote.attempt)
    requires e.conflict.Some? ==>
               remote.id == e.conflict.value.id && remote.attempt.revision == e.conflict.value.attempt.revision
    requires m == Sent(remote.id, remote.attempt.revision, LocalData(e),
                       if e.conflict.Some? then Some(e.conflict.value.attempt) else None)
    ensures SentOk(s, op, m)
  {
  }

  lemma ResolveLocalKeeps(s: Sys, id: AttemptId, remote: Row, op: OperationId)
    requires Inv(s) && Enabled(s, Resolve(id, true, remote, op, 2))
    ensures Inv(ResolveDone(s, id, true, remote, op, 2))
  {
    var e := s.entries[id];
    var s1 := s.(archive := s.archive + [Archived(id, e)]);
    ArchiveKeeps(s, Archived(id, e));
    var m := Sent(remote.id, remote.attempt.revision, LocalData(e),
                  if e.conflict.Some? then Some(e.conflict.value.attempt) else None);
    var t := s1.(minted := s.minted[op := remote.id], saved := s1.saved);
    MintKeeps(s1, op, remote.id, s1.saved);
    ResolvedOk(t, e, true, remote, op, m);
    ResolveSentOk(t, id, e, remote, op, m);
    SendAndPut(t, op, m, remote.id, Resolved(e, remote.attempt, true, op));
  }

  lemma ResolvePutKeeps(s: Sys, id: AttemptId, local: bool, remote: Row, op: OperationId)
    requires Inv(s) && Enabled(s, Resolve(id, local, remote, op, 2))
    ensures Inv(ResolveDone(s, id, local, remote, op, 2))
  {
    if local {
      ResolveLocalKeeps(s, id, remote, op);
    } else {
      var e := s.entries[id];
      ArchiveKeeps(s, Archived(id, e));
      var s1 := s.(archive := s.archive + [Archived(id, e)]);
      ResolvedOk(s1, e, false, remote, op, Sent(0, 0, e.row.data, None));
      PutKeeps(s1, remote.id, Resolved(e, remote.attempt, false, op));
    }
  }

  lemma ResolveKeeps(s: Sys, id: AttemptId, local: bool, remote: Row, op: OperationId, puts: nat)
    requires Inv(s) && Enabled(s, Resolve(id, local, remote, op, puts))
    ensures Inv(Next(s, Resolve(id, local, remote, op, puts)))
  {
    hide Inv, Snapshot, NewOperation, LocalData, Resolved;
    if puts < 2 {
      ArchiveKeeps(s, Archived(id, s.entries[id]));
    } else {
      ResolvePutKeeps(s, id, local, remote, op);
      if puts == 3 && remote.id != id {
        DropKeeps(ResolveDone(s, id, local, remote, op, 2), id);
      }
    }
  }

  /** The invariant is inductive. */
  lemma NextKeeps(s: Sys, a: Action)
    requires Inv(s) && Enabled(s, a)
    ensures Inv(Next(s, a))
  {
    hide Inv, Next, Enabled;
    match a
    case Begin(id, e, ref, created) => BeginKeeps(s, id, e, ref, created);
    case Remember(id, row) => RememberKeeps(s, id, row);
    case SaveLocal(id, version, data, op) => SaveLocalKeeps(s, id, version, data, op);
    case CompleteLocal(id, version, finished) => CompleteKeeps(s, id, version, finished);
    case Resolve(id, local, remote, op, puts) => ResolveKeeps(s, id, local, remote, op, puts);
    case Reload(id, remote) => ReloadKeeps(s, id, remote);
    case Retry(id) => RetryKeeps(s, id);
    case ArchiveCreate(id, puts) => ArchiveCreateKeeps(s, id, puts);
    case CreateTrip(id, at, fetched) => CreateTripKeeps(s, id, at, fetched);
    case StampSave(id) => StampSaveKeeps(s, id);
    case SaveTrip(id, attached, fetched) => SaveTripKeeps(s, id, attached, fetched);
    case StampCompletion(id) => StampCompletionKeeps(s, id);
    case FinalizeTrip(id, at, fetched) => FinalizeTripKeeps(s, id, at, fetched);
    case Refuse(id, fetched) => RefuseKeeps(s, id, fetched);
    case LateSave(op, attached) => LateSaveKeeps(s, op, attached);
    case Other(q) => OtherStepKeeps(s, q);
  }

  lemma LateSaveKeeps(s: Sys, op: OperationId, attached: bool)
    requires Inv(s) && Enabled(s, LateSave(op, attached))
    ensures Inv(Next(s, LateSave(op, attached)))
  {
    hide Inv;
    ServeSaveKeeps(s, op, s.sent[op], attached);
  }

  lemma OtherStepKeeps(s: Sys, q: Request)
    requires Inv(s) && Enabled(s, Other(q))
    ensures Inv(Next(s, Other(q)))
  {
    hide Inv;
    OtherKeeps(s, q);
  }
}
