/** The inductive invariant of the journal-and-server system. */
module SyncInvariants {
  import opened Base
  import opened Drafts
  import opened CampaignServer
  import opened CampaignInvariants
  import opened Journal
  import opened Sync

  /** The answers are the same; only the attribution the server writes may differ. */
  ghost predicate SameWork(d: DraftData, d': DraftData) {
    d.(source := "") == d'.(source := "")
  }

  // ---- one journal entry ----

  /** At most one operation has been sent, it is the head, and a newer draft may wait behind it. */
  ghost predicate QueueShape(q: seq<Operation>) {
    && |q| <= 2
    && (|q| == 2 ==> q[0].revision != 0 && q[1].revision == 0 && q[0].id != q[1].id)
  }

  ghost predicate QueueMinted(s: Sys, id: AttemptId, q: seq<Operation>) {
    forall k :: 0 <= k < |q| ==> q[k].id in s.minted && s.minted[q[k].id] == id
  }

  /** The stamped head is what was sent, over the row the entry holds; the rest is unsent. */
  ghost predicate QueueSent(s: Sys, id: AttemptId, e: Entry) {
    && (forall k :: 0 <= k < |e.operations| && e.operations[k].revision == 0 ==> e.operations[k].id !in s.sent)
    && (e.operations != [] && e.operations[0].revision != 0 ==>
          var op := e.operations[0];
          && op.id in s.sent && op.revision == e.row.revision
          && s.sent[op.id].id == id && s.sent[op.id].revision == op.revision && s.sent[op.id].data == op.data)
  }

  /** Until creation is confirmed nothing was stamped and the row is the locally derived draft. */
  ghost predicate LocalRow(s: Sys, id: AttemptId, e: Entry)
    requires e.create.Some?
  {
    var c := e.create.value;
    && e.row.revision == 0 && e.row.finalization.None?
    && id in s.started && s.started[id] == c
    && c.execution in s.db.executions
    && PackageScenario(s.db.packages, s.db.executions[c.execution].package, c.ref).Some?
    && e.row.data == StartDraft(s.db.executions[c.execution],
                                PackageScenario(s.db.packages, s.db.executions[c.execution].package, c.ref).value, s.me)
    && (forall k :: 0 <= k < |e.operations| ==> e.operations[k].revision == 0)
    && (e.completion.Some? ==> e.completion.value.revision == 0)
  }

  ghost predicate CompletionOk(e: Entry) {
    e.completion.Some? ==>
      && SameWork(LocalData(e), e.completion.value.shown)
      && (e.completion.value.revision != 0 ==> e.operations == [] && e.completion.value.revision == e.row.revision)
  }

  ghost predicate EntryOk(s: Sys, id: AttemptId, e: Entry) {
    && QueueShape(e.operations) && QueueMinted(s, id, e.operations) && QueueSent(s, id, e)
    && (if e.create.Some? then LocalRow(s, id, e) else Snapshot(s.db, id, e.row))
    && CompletionOk(e)
    && (e.conflict.Some? ==> Snapshot(s.db, e.conflict.value.id, e.conflict.value.attempt))
  }

  // ---- messages and the server ----

  ghost predicate SentOk(s: Sys, op: OperationId, m: Sent) {
    && op in s.minted && m.revision >= 1 && m.id in s.db.attempts
    && (m.shown.Some? ==> m.shown.value.revision == m.revision && Snapshot(s.db, m.id, m.shown.value))
  }

  /** A row whose last operation is the client's shows what that operation said. */
  ghost predicate ServerOp(s: Sys, id: AttemptId, a: Attempt) {
    a.lastOperation.Some? && a.lastOperation.value in s.minted ==>
      var op := a.lastOperation.value;
      && op in s.sent && op in s.accepted && s.sent[op].id == id
      && a.lastBase == s.sent[op].revision && s.sent[op].revision < a.revision
      && (a.finalization.None? ==> a.data == Attributed(a, s.me, s.sent[op].data))
  }

  ghost predicate AcceptedOk(s: Sys, op: OperationId) {
    op in s.sent && s.sent[op].id in s.db.attempts && s.sent[op].revision < s.db.attempts[s.sent[op].id].revision
  }

  ghost predicate StartedOk(s: Sys, id: AttemptId, c: Creation) {
    id in s.db.attempts ==>
      var a := s.db.attempts[id];
      a.owner == s.me && a.execution == Some(c.execution) && a.ref == c.ref
  }

  ghost predicate EntriesOk(s: Sys) {
    forall id :: id in s.entries ==> EntryOk(s, id, s.entries[id])
  }

  ghost predicate HistoryOk(s: Sys) {
    && (forall op :: op in s.sent ==> SentOk(s, op, s.sent[op]))
    && (forall id :: id in s.db.attempts ==> ServerOp(s, id, s.db.attempts[id]))
    && (forall op :: op in s.accepted ==> AcceptedOk(s, op))
    && (forall id :: id in s.started ==> StartedOk(s, id, s.started[id]))
  }

  ghost predicate Inv(s: Sys) {
    Valid(s.db) && EntriesOk(s) && HistoryOk(s)
  }

  // ---- the server moves, the journal stays ----

  lemma SnapshotLater(s: Db, t: Db, id: AttemptId, row: Attempt)
    requires Snapshot(s, id, row) && Evolves(s, t)
    ensures Snapshot(t, id, row)
  {
    RowEvolvesTransitive(s.evidence, t.evidence, row, s.attempts[id], t.attempts[id]);
  }

  /** Entries survive any growth of the server's tables. */
  lemma EntriesLater(s: Sys, t: Sys)
    requires EntriesOk(s) && t == s.(db := t.db, accepted := t.accepted) && Evolves(s.db, t.db)
    ensures EntriesOk(t)
  {
    forall id | id in t.entries ensures EntryOk(t, id, t.entries[id]) {
      var e := s.entries[id];
      assert EntryOk(s, id, e);
      if e.create.Some? {
        assert ExecutionEvolves(s.db, t.db, e.create.value.execution);
      } else {
        SnapshotLater(s.db, t.db, id, e.row);
      }
      if e.conflict.Some? {
        SnapshotLater(s.db, t.db, e.conflict.value.id, e.conflict.value.attempt);
      }
    }
  }

  /** History survives growth of the tables when the rows' last operations are still explained. */
  lemma HistoryLater(s: Sys, t: Sys)
    requires HistoryOk(s) && t == s.(db := t.db, accepted := t.accepted) && Evolves(s.db, t.db)
    requires s.accepted <= t.accepted
    requires forall op :: op in t.accepted && op !in s.accepted ==> AcceptedOk(t, op)
    requires forall id :: id in t.db.attempts ==> ServerOp(t, id, t.db.attempts[id])
    requires forall id :: id in t.started ==> StartedOk(t, id, t.started[id])
    ensures HistoryOk(t)
  {
    forall op | op in t.sent ensures SentOk(t, op, t.sent[op]) {
      assert SentOk(s, op, s.sent[op]);
      if s.sent[op].shown.Some? { SnapshotLater(s.db, t.db, s.sent[op].id, s.sent[op].shown.value); }
    }
    forall op | op in t.accepted ensures AcceptedOk(t, op) {
      if op in s.accepted { assert AcceptedOk(s, op); }
    }
  }

  // ---- what a request does to the rows ----

  /** Unless it was saved, an open row keeps its data, and every row its last operation. */
  ghost predicate RowKept(a: Attempt, b: Attempt) {
    && b.lastOperation == a.lastOperation && b.lastBase == a.lastBase && b.execution == a.execution
    && a.revision <= b.revision
    && (b.finalization.None? ==> a.finalization.None? && b.data == a.data)
  }

  ghost predicate OperationsKept(s: Attempts, t: Attempts) {
    && (forall id :: id in s ==> id in t && RowKept(s[id], t[id]))
    && (forall id :: id in t && id !in s ==> t[id].lastOperation.None?)
  }

  lemma CloseOneKeepsOperations(db: Db, e: ExecutionId, x: Execution, s: Scenario, actor: Actor, now: Time,
                                newId: AttemptId, t: Db)
    requires CloseOne(db, e, x, s, actor, now, newId) == Ok(t)
    ensures OperationsKept(db.attempts, t.attempts)
    ensures t.attempts.Keys <= db.attempts.Keys + {newId}
  {
    hide SkipRow;
    var open := OpenAttempt(db.attempts, e, s.ref);
    if open.Some? {
      SkipRowKeepsOperations(db, open.value, db.attempts[open.value], x, s, actor, now, t);
    } else if !Attempted(db.attempts, e, s.ref) {
      SkipRowKeepsOperations(db, newId, SkipAttempt(x, e, s, actor, now), x, s, actor, now, t);
    }
  }

  lemma SkipRowKeepsOperations(db: Db, id: AttemptId, a: Attempt, x: Execution, s: Scenario, actor: Actor, now: Time,
                               t: Db)
    requires SkipRow(db, id, a, x, s, actor, now) == Ok(t)
    requires if id in db.attempts then a == db.attempts[id] else a.lastOperation.None?
    ensures OperationsKept(db.attempts, t.attempts) && t.attempts.Keys == db.attempts.Keys + {id}
  {
    hide ValidDraft, ClosedDraft, ValidEvidence;
  }

  lemma {:induction false} CloseKeepsOperations(db: Db, e: ExecutionId, x: Execution, todo: seq<Scenario>, actor: Actor,
                                                now: Time, ids: seq<AttemptId>, t: Db)
    requires |ids| == |todo|
    requires CloseUnfinished(db, e, x, todo, actor, now, ids) == Ok(t)
    ensures OperationsKept(db.attempts, t.attempts)
    ensures forall id :: id in t.attempts && id !in db.attempts ==> id in ids
    decreases |todo|
  {
    if todo != [] {
      var d := CloseOne(db, e, x, todo[0], actor, now, ids[0]).value;
      CloseOneKeepsOperations(db, e, x, todo[0], actor, now, ids[0], d);
      CloseKeepsOperations(d, e, x, todo[1..], actor, now, ids[1..], t);
    }
  }

  lemma SetClosedKeepsOperations(db: Db, e: ExecutionId, revision: nat, closed: bool, actor: Actor, now: Time,
                                 ids: seq<AttemptId>)
    ensures var t := SetExecutionClosed(db, e, revision, closed, actor, now, ids).0;
            && OperationsKept(db.attempts, t.attempts)
            && forall id :: id in t.attempts && id !in db.attempts ==> id in ids
  {
    var (t, reply) := SetExecutionClosed(db, e, revision, closed, actor, now, ids);
    if reply.Ok? && closed {
      var scenarios := db.packages[db.executions[e].package].scenarios;
      CloseKeepsOperations(db, e, db.executions[e], scenarios, actor, now, ids,
                           CloseUnfinished(db, e, db.executions[e], scenarios, actor, now, ids).value);
    }
  }

  lemma FinalizeKeepsOperations(db: Db, id: AttemptId, actor: Actor, revision: nat, finished: Time, at: Time)
    ensures var t := FinalizeAttempt(db, id, actor, revision, finished, at).0;
            OperationsKept(db.attempts, t.attempts) && t.attempts.Keys == db.attempts.Keys
  {
    hide Finalizable, ValidEvidence;
  }

  /** A request that is not a save keeps every row's last operation and every open row's data. */
  lemma OtherOperations(db: Db, q: Request)
    requires !q.Save?
    ensures OperationsKept(db.attempts, Apply(db, q).attempts)
  {
    match q
    case SetClosed(e, revision, closed, actor, now, ids) =>
      SetClosedKeepsOperations(db, e, revision, closed, actor, now, ids);
    case Finalize(id, actor, revision, finished, at) =>
      FinalizeKeepsOperations(db, id, actor, revision, finished, at);
    case Start(e, id, ref, actor, created) =>
    case Create(id, pkg, ref, actor, created, data) =>
    case Execute(e, pkg, repo, branch, rcsRef) =>
  }

  /** New attempt rows come from start, create and close, under the ids those requests carry. */
  lemma OtherRows(db: Db, q: Request, id: AttemptId)
    requires id in Apply(db, q).attempts && id !in db.attempts
    ensures match q
            case Start(e, k, ref, actor, _) =>
              k == id && var a := Apply(db, q).attempts[id]; a.owner == actor && a.execution == Some(e) && a.ref == ref
            case Create(k, _, _, _, _, _) => k == id
            case SetClosed(_, _, _, _, _, ids) => id in ids
            case _ => false
  {
    match q
    case SetClosed(e, revision, closed, actor, now, ids) =>
      SetClosedKeepsOperations(db, e, revision, closed, actor, now, ids);
    case Finalize(k, actor, revision, finished, at) =>
      FinalizeKeepsOperations(db, k, actor, revision, finished, at);
    case _ =>
  }

  lemma StartedLater(s: Sys, q: Request)
    requires Inv(s) && Foreign(s, q)
    ensures var t := s.(db := Apply(s.db, q));
            forall id :: id in t.started ==> StartedOk(t, id, t.started[id])
  {
    var t := s.(db := Apply(s.db, q));
    ApplyKeeps(s.db, q);
    forall id | id in t.started ensures StartedOk(t, id, t.started[id]) {
      assert StartedOk(s, id, s.started[id]);
      if id in t.db.attempts && id !in s.db.attempts {
        OtherRows(s.db, q, id);
      }
    }
  }

  /** A save changes only its own row, to one whose last operation is its own. */
  lemma SaveChanges(db: Db, id: AttemptId, actor: Actor, revision: nat, op: OperationId, data: DraftData,
                    attached: bool)
    ensures var (t, reply) := SaveRequest(db, id, actor, revision, op, data, attached);
            && t.attempts.Keys == db.attempts.Keys
            && (forall k :: k in db.attempts && k != id ==> t.attempts[k] == db.attempts[k])
            && (t != db ==>
                  && id in db.attempts && db.attempts[id].revision == revision && revision >= 1
                  && db.attempts[id].finalization.None?
                  && t.attempts[id] == Accepted(db.attempts[id], actor, op, Attributed(db.attempts[id], actor, data)))
            && (reply.Ok? ==>
                  && id in t.attempts && reply.value == Row(id, t.attempts[id])
                  && t.attempts[id].finalization.None?
                  && t.attempts[id].lastOperation == Some(op) && t.attempts[id].lastBase == revision
                  && t.attempts[id].data == Attributed(t.attempts[id], actor, data))
            && (t != db ==> reply.Ok?)
  {
  }

  lemma ServerOpLater(s: Sys, q: Request)
    requires HistoryOk(s) && Foreign(s, q)
    ensures var t := s.(db := Apply(s.db, q));
            forall id :: id in t.db.attempts ==> ServerOp(t, id, t.db.attempts[id])
  {
    var t := s.(db := Apply(s.db, q));
    if q.Save? {
      SaveChanges(s.db, q.id, q.actor, q.revision, q.op, q.data, q.attached);
    } else {
      OtherOperations(s.db, q);
    }
    forall id | id in t.db.attempts ensures ServerOp(t, id, t.db.attempts[id]) {
      if id in s.db.attempts {
        assert ServerOp(s, id, s.db.attempts[id]);
      }
    }
  }

  lemma OtherKeeps(s: Sys, q: Request)
    requires Inv(s) && Foreign(s, q)
    ensures Inv(s.(db := Apply(s.db, q)))
  {
    var t := s.(db := Apply(s.db, q));
    ApplyKeeps(s.db, q);
    EntriesLater(s, t);
    StartedLater(s, q);
    ServerOpLater(s, q);
    HistoryLater(s, t);
  }
}
