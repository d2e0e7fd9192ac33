/** Where a conflict comes from: lost requests and replies alone never cause one. */
module SyncConflicts {
  import opened Base
  import opened Drafts
  import opened CampaignServer
  import opened CampaignInvariants
  import opened Journal
  import opened Sync
  import opened SyncInvariants
  import opened SyncTheorems

  // ---- which step set a row's last operation ----

  /** One step: a row's last operation was its last operation before, or took effect in this step. */
  lemma LastOperationStep(s: Sys, a: Action, id: AttemptId)
    requires Valid(s.db) && Enabled(s, a)
    requires id in Next(s, a).db.attempts && Next(s, a).db.attempts[id].lastOperation.Some?
    ensures id in s.db.attempts
    ensures var x, y := s.db.attempts[id], Next(s, a).db.attempts[id];
            || (x.lastOperation == y.lastOperation && x.lastBase == y.lastBase)
            || (TookEffect(s.db, Next(s, a).db, id, y.lastOperation.value) && y.lastBase == x.revision)
  {
    hide Next, Enabled, Apply, Valid;
    StepRecorded(s, a);
    if Asks(a) {
      RequestStep(s, a);
      var q := RequestOf(s, a).value;
      if q.Save? { SaveOperation(s.db, q, id); } else { OtherOperations(s.db, q); }
    }
  }

  lemma SaveOperation(db: Db, q: Request, id: AttemptId)
    requires q.Save? && id in Apply(db, q).attempts
    ensures id in db.attempts
    ensures var x, y := db.attempts[id], Apply(db, q).attempts[id];
            y == x || (y.revision == x.revision + 1 && y.lastOperation == Some(q.op) && y.lastBase == x.revision)
  {
    SaveChanges(db, q.id, q.actor, q.revision, q.op, q.data, q.attached);
    hide SaveRequest;
  }

  ghost predicate EffectAt(ss: seq<Sys>, i: nat, id: AttemptId, op: OperationId, base: nat)
    requires i + 1 < |ss|
  {
    TookEffect(ss[i].db, ss[i + 1].db, id, op) && ss[i].db.attempts[id].revision == base
  }

  /** In every run, the operation a row shows as its last took effect at some step, on the base it shows. */
  lemma {:induction false} LastOperationOrigin(ss: seq<Sys>, acts: seq<Action>, n: nat, id: AttemptId) returns (i: nat)
    requires Trace(ss, acts) && n < |ss| && id in ss[n].db.attempts && ss[n].db.attempts[id].lastOperation.Some?
    ensures i < n
    ensures EffectAt(ss, i, id, ss[n].db.attempts[id].lastOperation.value, ss[n].db.attempts[id].lastBase)
  {
    hide Next, Enabled;
    if n == 0 {
      assert false;
    } else {
      TraceInv(ss, acts, n - 1);
      hide EntriesOk, HistoryOk, Valid;
      LastOperationStep(ss[n - 1], acts[n - 1], id);
      var x, y := ss[n - 1].db.attempts[id], ss[n].db.attempts[id];
      if x.lastOperation == y.lastOperation && x.lastBase == y.lastBase {
        i := LastOperationOrigin(ss, acts, n - 1, id);
      } else {
        i := n - 1;
      }
    }
  }

  // ---- saves ----

  /** The reply a save gets. */
  ghost function SaveReply(s: Sys, id: AttemptId, attached: bool): Reply<Row>
    requires id in s.entries && s.entries[id].operations != []
  {
    var op := s.entries[id].operations[0];
    SaveRequest(s.db, id, s.me, op.revision, op.id, op.data, attached).1
  }

  predicate Conflict(reply: Reply<Row>) {
    reply.Refused? && (reply.why.AttemptConflict? || reply.why.CampaignConflict?)
  }

  /** The attempt is sealed, or its execution closed. */
  ghost predicate Shut(db: Db, id: AttemptId) {
    id in db.attempts && (db.attempts[id].finalization.Some? || IsClosed(db, db.attempts[id].execution))
  }

  predicate HeadStamped(s: Sys, id: AttemptId) {
    id in s.entries && s.entries[id].create.None? && s.entries[id].operations != [] &&
    s.entries[id].operations[0].revision != 0
  }

  /** A stamped head against the server's row: the row is not older, and shows the head's answers if it saw it last. */
  lemma HeadAgainstRow(s: Sys, id: AttemptId)
    requires Inv(s) && HeadStamped(s, id)
    ensures id in s.db.attempts
    ensures var op, a := s.entries[id].operations[0], s.db.attempts[id];
            && op.revision <= a.revision
            && (a.finalization.None? ==> a.revision == if a.lastOperation.Some? then a.lastBase + 1 else 1)
            && (a.finalization.None? && a.lastOperation == Some(op.id) ==>
                  a.lastBase == op.revision && a.data == Attributed(a, s.me, op.data))
  {
    HeadRow(s, id);
    HeadShown(s, id);
    RowHistory(s.db, id);
    hide Inv, HeadStamped;
  }

  lemma HeadRow(s: Sys, id: AttemptId)
    requires Inv(s) && HeadStamped(s, id)
    ensures id in s.db.attempts && s.entries[id].operations[0].revision <= s.db.attempts[id].revision && Valid(s.db)
  {
    assert EntryOk(s, id, s.entries[id]);
    hide EntriesOk, HistoryOk, Valid, CompletionOk, QueueShape, QueueMinted;
  }

  lemma HeadShown(s: Sys, id: AttemptId)
    requires Inv(s) && HeadStamped(s, id) && id in s.db.attempts
    ensures var op, a := s.entries[id].operations[0], s.db.attempts[id];
            a.finalization.None? && a.lastOperation == Some(op.id) ==>
              a.lastBase == op.revision && a.data == Attributed(a, s.me, op.data)
  {
    assert EntryOk(s, id, s.entries[id]) && ServerOp(s, id, s.db.attempts[id]);
    hide EntriesOk, HistoryOk, Valid, CompletionOk, QueueShape, Snapshot;
  }

  /** What a conflicting save met: a row that is shut, or one that moved past its base under another operation. */
  lemma SaveConflictState(s: Sys, id: AttemptId, attached: bool)
    requires Inv(s) && HeadStamped(s, id) && Conflict(SaveReply(s, id, attached))
    ensures id in s.db.attempts
    ensures Shut(s.db, id) ||
            (var op, a := s.entries[id].operations[0], s.db.attempts[id];
             a.lastOperation.Some? && a.lastOperation != Some(op.id) && a.lastBase >= op.revision)
  {
    hide Inv, SaveReply;
    HeadAgainstRow(s, id);
    if !Shut(s.db, id) { RefusedSave(s, id, attached); }
  }

  /** An open row past its first revision got there by saves. */
  lemma RowHistory(db: Db, id: AttemptId)
    requires Valid(db) && id in db.attempts
    ensures var a := db.attempts[id];
            a.finalization.None? ==> a.revision == if a.lastOperation.Some? then a.lastBase + 1 else 1
  {
    assert RowOk(db, id);
  }

  lemma RefusedSave(s: Sys, id: AttemptId, attached: bool)
    requires id in s.entries && s.entries[id].operations != [] && id in s.db.attempts
    requires Conflict(SaveReply(s, id, attached)) && !Shut(s.db, id)
    ensures var op, a := s.entries[id].operations[0], s.db.attempts[id];
            if a.lastOperation == Some(op.id) then a.lastBase != op.revision || a.data != Attributed(a, s.me, op.data)
            else a.revision != op.revision
  {
    hide ValidDraft;
  }

  /** In every run: a save meets a conflict only if its attempt is shut, or another operation took effect on it since
      the row the save was based on. */
  lemma SaveConflictCause(ss: seq<Sys>, acts: seq<Action>, n: nat, id: AttemptId, attached: bool) returns (i: nat)
    requires Trace(ss, acts) && n < |ss| && HeadStamped(ss[n], id)
    requires Conflict(SaveReply(ss[n], id, attached))
    ensures id in ss[n].db.attempts
    ensures Shut(ss[n].db, id) ||
            (var op, a := ss[n].entries[id].operations[0], ss[n].db.attempts[id];
             i < n && a.lastOperation.Some? && a.lastOperation.value != op.id && a.lastBase >= op.revision &&
             EffectAt(ss, i, id, a.lastOperation.value, a.lastBase))
  {
    hide Next, Enabled, Inv;
    TraceInv(ss, acts, n);
    SaveConflictState(ss[n], id, attached);
    i := 0;
    if !Shut(ss[n].db, id) {
      i := LastOperationOrigin(ss, acts, n, id);
    }
  }

  // ---- finalizations ----

  ghost function FinalizeReplyOf(s: Sys, id: AttemptId, at: Time): Reply<Row>
    requires id in s.entries && s.entries[id].completion.Some?
  {
    var c := s.entries[id].completion.value;
    FinalizeAttempt(s.db, id, s.me, c.revision, c.finished, at).1
  }

  /** Sealed otherwise than this completion would have sealed it. */
  ghost predicate SealedOtherwise(db: Db, id: AttemptId, c: Completion) {
    id in db.attempts && db.attempts[id].finalization.Some? &&
    var f := db.attempts[id].finalization.value;
    !(f.revision == c.revision && f.finished == c.finished)
  }

  lemma RefusedFinalize(s: Sys, id: AttemptId, at: Time)
    requires id in s.entries && s.entries[id].completion.Some? && id in s.db.attempts
    requires Conflict(FinalizeReplyOf(s, id, at))
    ensures var c, a := s.entries[id].completion.value, s.db.attempts[id];
            SealedOtherwise(s.db, id, c) ||
            (a.finalization.None? && (IsClosed(s.db, a.execution) || a.revision != c.revision))
  {
    hide Finalizable, ValidEvidence;
  }

  predicate CompletionStampedAt(s: Sys, id: AttemptId) {
    id in s.entries && s.entries[id].create.None? && s.entries[id].completion.Some? &&
    s.entries[id].completion.value.revision != 0
  }

  lemma CompletionAgainstRow(s: Sys, id: AttemptId)
    requires Inv(s) && CompletionStampedAt(s, id)
    ensures id in s.db.attempts && s.entries[id].completion.value.revision <= s.db.attempts[id].revision && Valid(s.db)
  {
    assert EntryOk(s, id, s.entries[id]);
    hide EntriesOk, HistoryOk, Valid, QueueShape, QueueMinted, QueueSent;
  }

  lemma FinalizeConflictState(s: Sys, id: AttemptId, at: Time)
    requires Inv(s) && CompletionStampedAt(s, id) && Conflict(FinalizeReplyOf(s, id, at))
    ensures id in s.db.attempts
    ensures var c, a := s.entries[id].completion.value, s.db.attempts[id];
            SealedOtherwise(s.db, id, c) || IsClosed(s.db, a.execution) ||
            (a.lastOperation.Some? && a.lastBase >= c.revision)
  {
    hide Inv, FinalizeReplyOf;
    CompletionAgainstRow(s, id);
    hide Valid;
    RowHistory(s.db, id);
    RefusedFinalize(s, id, at);
    CompletionRevision(s, id);
  }

  lemma CompletionRevision(s: Sys, id: AttemptId)
    requires CompletionStampedAt(s, id)
    ensures s.entries[id].completion.value.revision >= 1
  {}

  /** In every run: a finalization meets a conflict only if the attempt was sealed otherwise, its execution is closed,
      or an operation took effect on it since the row the completion was stamped with. Its own lost reply is none of
      these. */
  lemma FinalizeConflictCause(ss: seq<Sys>, acts: seq<Action>, n: nat, id: AttemptId, at: Time) returns (i: nat)
    requires Trace(ss, acts) && n < |ss| && CompletionStampedAt(ss[n], id)
    requires Conflict(FinalizeReplyOf(ss[n], id, at))
    ensures id in ss[n].db.attempts
    ensures var c, a := ss[n].entries[id].completion.value, ss[n].db.attempts[id];
            SealedOtherwise(ss[n].db, id, c) || IsClosed(ss[n].db, a.execution) ||
            (i < n && a.lastOperation.Some? && a.lastBase >= c.revision &&
             EffectAt(ss, i, id, a.lastOperation.value, a.lastBase))
  {
    hide Next, Enabled, Inv;
    TraceInv(ss, acts, n);
    FinalizeConflictState(ss[n], id, at);
    i := 0;
    if ss[n].db.attempts[id].lastOperation.Some? {
      i := LastOperationOrigin(ss, acts, n, id);
    }
  }

  // ---- who shut it ----

  /** The request finalizes this attempt or closes an execution. */
  predicate Seals(q: Request, id: AttemptId) {
    (q.Finalize? && q.id == id) || (q.SetClosed? && q.closed)
  }

  lemma SealStep(db: Db, q: Request, id: AttemptId)
    requires id in Apply(db, q).attempts && Apply(db, q).attempts[id].finalization.Some?
    requires !(id in db.attempts && db.attempts[id].finalization.Some?)
    ensures Seals(q, id)
  {
    match q
    case Finalize(k, actor, revision, finished, at) =>
      if k != id { FinalizeTouchesOne(db, k, actor, revision, finished, at, id); }
    case SetClosed(e, revision, closed, actor, now, ids) => ReopenSealsNone(db, e, revision, closed, actor, now, ids);
    case Save(k, actor, revision, op, data, attached) => SaveChanges(db, k, actor, revision, op, data, attached);
    case _ => PlainSealsNone(db, q, id);
  }

  lemma FinalizeTouchesOne(db: Db, k: AttemptId, actor: Actor, revision: nat, finished: Time, at: Time, id: AttemptId)
    requires k != id
    ensures var t := FinalizeAttempt(db, k, actor, revision, finished, at).0;
            (id in t.attempts <==> id in db.attempts) && (id in t.attempts ==> t.attempts[id] == db.attempts[id])
  {
    hide Finalizable, ValidEvidence;
  }

  lemma ReopenSealsNone(db: Db, e: ExecutionId, revision: nat, closed: bool, actor: Actor, now: Time,
                        ids: seq<AttemptId>)
    ensures !closed ==> SetExecutionClosed(db, e, revision, closed, actor, now, ids).0.attempts == db.attempts
  {
    hide CloseUnfinished;
  }

  lemma PlainSealsNone(db: Db, q: Request, id: AttemptId)
    requires (q.Execute? || q.Start? || q.Create?) && id in Apply(db, q).attempts
    requires Apply(db, q).attempts[id].finalization.Some?
    ensures id in db.attempts && db.attempts[id].finalization.Some?
  {
    hide StartDraft, ScenarioOf;
  }

  /** In every run, a sealed attempt was sealed by a finalization of it or by a close, at some step. */
  lemma {:induction false} SealOrigin(ss: seq<Sys>, acts: seq<Action>, n: nat, id: AttemptId) returns (i: nat)
    requires Trace(ss, acts) && n < |ss| && id in ss[n].db.attempts && ss[n].db.attempts[id].finalization.Some?
    ensures i < n && Enabled(ss[i], acts[i]) && Asks(acts[i]) && Seals(RequestOf(ss[i], acts[i]).value, id)
  {
    hide Next, Enabled, Apply, RequestOf;
    if n == 0 {
      assert false;
    } else if id in ss[n - 1].db.attempts && ss[n - 1].db.attempts[id].finalization.Some? {
      i := SealOrigin(ss, acts, n - 1, id);
    } else {
      i := n - 1;
      StepRecorded(ss[i], acts[i]);
      RequestStep(ss[i], acts[i]);
      SealStep(ss[i].db, RequestOf(ss[i], acts[i]).value, id);
    }
  }
}
