/** What the one record of a drained completion reports. */
module SyncRecords {
  import opened Base
  import opened Drafts
  import opened CampaignServer
  import opened CampaignInvariants
  import opened CampaignTheorems
  import opened Journal
  import opened Sync
  import opened SyncInvariants
  import opened SyncTheorems
  import opened SyncOutcomes

  // ---- a save is sent as it was made ----

  /** The last save of an attempt is that attempt's own operation, and if it was sent, then with the saved answers. */
  ghost predicate SentAsSaved(s: Sys, id: AttemptId)
    requires id in s.saved
  {
    var op := s.saved[id];
    && op.id in s.minted && s.minted[op.id] == id
    && (op.id in s.sent ==> s.sent[op.id].id == id && s.sent[op.id].data == op.data)
  }

  ghost predicate SavesSent(s: Sys) {
    forall id :: id in s.saved ==> SentAsSaved(s, id)
  }

  /** An unstamped head is its attempt's last save. */
  lemma UnstampedHead(s: Sys, id: AttemptId)
    requires EntriesOk(s) && TailsSaved(s) && id in s.entries && s.entries[id].operations != []
    requires s.entries[id].operations[0].revision == 0
    ensures var op := s.entries[id].operations[0];
            op.id in s.minted && s.minted[op.id] == id && id in s.saved && s.saved[id].id == op.id &&
            s.saved[id].data == op.data
  {
    var e := s.entries[id];
    assert EntryOk(s, id, e) && TailSaved(s, id);
    hide EntriesOk, TailsSaved, QueueSent, LocalRow, Snapshot, CompletionOk;
    assert |e.operations| == 1;
  }

  /** What stamping sends is its attempt's last save, with the saved answers. */
  lemma StampSendsSaved(s: Sys, a: Action, id: AttemptId)
    requires EntriesOk(s) && TailsSaved(s) && SavesSent(s) && Enabled(s, a) && a.StampSave? && id in s.saved
    requires Next(s, a).saved == s.saved
    ensures SentAsSaved(Next(s, a), id)
  {
    hide EntriesOk, TailsSaved, Next, Enabled;
    StampStep(s, a);
    assert SentAsSaved(s, id);
    if s.entries[a.id].operations[0].revision == 0 {
      UnstampedHead(s, a.id);
      assert SentAsSaved(s, a.id);
    }
  }

  lemma NextSavesSent(s: Sys, a: Action)
    requires Inv(s) && TailsSaved(s) && SavesSent(s) && Enabled(s, a)
    ensures SavesSent(Next(s, a))
  {
    var t := Next(s, a);
    forall id | id in t.saved ensures SentAsSaved(t, id) {
      if a.StampSave? {
        StepRecorded(s, a);
        StampSendsSaved(s, a, id);
      } else if a.SaveLocal? {
        SaveLocalSent(s, a, id);
      } else {
        OtherSavesSent(s, a, id);
      }
    }
  }

  lemma SaveLocalSent(s: Sys, a: Action, id: AttemptId)
    requires HistoryOk(s) && SavesSent(s) && Enabled(s, a) && a.SaveLocal? && id in Next(s, a).saved
    ensures SentAsSaved(Next(s, a), id)
  {
    if id == a.id { NewUnsent(s, a.op); } else { assert SentAsSaved(s, id); }
    hide HistoryOk, SavesSent;
  }

  lemma OtherSavesSent(s: Sys, a: Action, id: AttemptId)
    requires Inv(s) && SavesSent(s) && Enabled(s, a) && !a.StampSave? && !a.SaveLocal? && id in Next(s, a).saved
    ensures SentAsSaved(Next(s, a), id)
  {
    hide Inv, Next, Enabled;
    StepRecorded(s, a);
    assert SentAsSaved(s, id);
    NextGrows(s, a);
    StepRecorded(s, a);
    if !Asks(a) {
      LocalAdds(s, a);
      if a.Resolve? { ResolveAllowed(s, a); }
    }
  }

  lemma {:induction false} TraceSavesSent(ss: seq<Sys>, acts: seq<Action>, n: nat)
    requires Trace(ss, acts) && n < |ss|
    ensures SavesSent(ss[n])
  {
    hide Inv, Next, Enabled;
    if n > 0 {
      TraceSavesSent(ss, acts, n - 1);
      TraceInv(ss, acts, n - 1);
      TraceTails(ss, acts, n - 1);
      NextSavesSent(ss[n - 1], acts[n - 1]);
    }
  }

  // ---- a row shows its last operation, sealed or not ----

  /** Unless a close rewrote it, a row whose last operation is this device's holds the answers that were sent. */
  ghost predicate ShowsOperation(s: Sys, id: AttemptId)
    requires id in s.db.attempts
  {
    var a := s.db.attempts[id];
    a.lastOperation.Some? && a.lastOperation.value in s.minted && !SealedByClose(s.db, id) ==>
      var op := a.lastOperation.value;
      op in s.sent && a.data == Attributed(a, s.me, s.sent[op].data)
  }

  ghost predicate RowsShow(s: Sys) {
    forall id :: id in s.db.attempts ==> ShowsOperation(s, id)
  }

  /** A row that one request seals keeps its last operation, and its data unless the request is a close. */
  ghost predicate SealsAsIs(s: Db, t: Db, id: AttemptId)
    requires id in s.attempts && id in t.attempts
  {
    s.attempts[id].finalization.None? && t.attempts[id].finalization.Some? ==>
      && t.attempts[id].lastOperation == s.attempts[id].lastOperation
      && t.attempts[id].execution == s.attempts[id].execution
      && (SealedByClose(t, id) || t.attempts[id].data == s.attempts[id].data)
  }

  lemma SealsAtOwnRevision(s: Db, t: Db, id: AttemptId)
    requires Evolves(s, t) && id in s.attempts && id in t.attempts && RowKept(s.attempts[id], t.attempts[id])
    requires s.attempts[id].finalization.None? && t.attempts[id].finalization.Some? ==>
               t.attempts[id].finalization.value.revision == s.attempts[id].revision
    ensures SealsAsIs(s, t, id)
  {
    assert RowEvolves(t.evidence, s.attempts[id], t.attempts[id]);
  }

  lemma FinalizeSeals(db: Db, id: AttemptId, actor: Actor, revision: nat, finished: Time, at: Time, k: AttemptId)
    requires Valid(db) && k in db.attempts
    ensures var t := FinalizeAttempt(db, id, actor, revision, finished, at).0; k in t.attempts && SealsAsIs(db, t, k)
  {
    FinalizeKeeps(db, id, actor, revision, finished, at);
    FinalizeKeepsOperations(db, id, actor, revision, finished, at);
    if db.attempts[k].finalization.None? { FinalizeOwnRevision(db, id, actor, revision, finished, at, k); }
    hide Valid, FinalizeAttempt, Evolves, RowKept;
    SealsAtOwnRevision(db, FinalizeAttempt(db, id, actor, revision, finished, at).0, k);
  }

  lemma FinalizeOwnRevision(db: Db, id: AttemptId, actor: Actor, revision: nat, finished: Time, at: Time, k: AttemptId)
    requires k in db.attempts && db.attempts[k].finalization.None?
    ensures var t := FinalizeAttempt(db, id, actor, revision, finished, at).0;
            k in t.attempts && (t.attempts[k].finalization.Some? ==>
              t.attempts[k].finalization.value.revision == db.attempts[k].revision)
  {
    hide Finalizable, ValidEvidence;
  }

  lemma CloseOwnRevision(db: Db, e: ExecutionId, revision: nat, closed: bool, actor: Actor, now: Time,
                         ids: seq<AttemptId>, k: AttemptId)
    requires Valid(db) && k in db.attempts && db.attempts[k].finalization.None?
    ensures var t := SetExecutionClosed(db, e, revision, closed, actor, now, ids).0;
            k in t.attempts && (t.attempts[k].finalization.Some? ==>
              t.attempts[k].finalization.value.revision == db.attempts[k].revision)
  {
    var (t, reply) := SetExecutionClosed(db, e, revision, closed, actor, now, ids);
    if closed && reply.Ok? {
      hide Valid, SetExecutionClosed;
      CloseOnlyAdds(db, e, revision, actor, now, ids);
      assert Undisturbed(db, t, k, now);
    } else {
      hide Valid, CloseUnfinished;
      assert t.attempts == db.attempts;
    }
  }

  lemma CloseSeals(db: Db, e: ExecutionId, revision: nat, closed: bool, actor: Actor, now: Time,
                   ids: seq<AttemptId>, k: AttemptId)
    requires Valid(db) && k in db.attempts
    ensures var t := SetExecutionClosed(db, e, revision, closed, actor, now, ids).0;
            k in t.attempts && SealsAsIs(db, t, k)
  {
    hide Valid, Evolves, SetExecutionClosed, RowKept;
    SetClosedKeeps(db, e, revision, closed, actor, now, ids);
    SetClosedKeepsOperations(db, e, revision, closed, actor, now, ids);
    if db.attempts[k].finalization.None? { CloseOwnRevision(db, e, revision, closed, actor, now, ids, k); }
    SealsAtOwnRevision(db, SetExecutionClosed(db, e, revision, closed, actor, now, ids).0, k);
  }

  /** One request: whatever it seals it seals as it is, unless it is a close. */
  lemma RequestSeals(db: Db, q: Request, k: AttemptId)
    requires Valid(db) && k in db.attempts
    ensures k in Apply(db, q).attempts && SealsAsIs(db, Apply(db, q), k)
  {
    hide Valid, FinalizeAttempt, SetExecutionClosed, SaveRequest;
    match q
    case Finalize(id, actor, revision, finished, at) => FinalizeSeals(db, id, actor, revision, finished, at, k);
    case SetClosed(e, revision, closed, actor, now, ids) => CloseSeals(db, e, revision, closed, actor, now, ids, k);
    case Save(id, actor, revision, op, data, attached) => SaveChanges(db, id, actor, revision, op, data, attached);
    case _ => PlainSeals(db, q, k);
  }

  lemma PlainSeals(db: Db, q: Request, k: AttemptId)
    requires k in db.attempts && (q.Execute? || q.Start? || q.Create?)
    ensures k in Apply(db, q).attempts && Apply(db, q).attempts[k] == db.attempts[k]
  {
    hide StartDraft, ScenarioOf;
  }

  lemma StepSeals(s: Sys, a: Action, k: AttemptId)
    requires Valid(s.db) && Enabled(s, a) && k in s.db.attempts
    ensures k in Next(s, a).db.attempts && SealsAsIs(s.db, Next(s, a).db, k)
  {
    hide Next, Enabled, Valid, Apply;
    StepRecorded(s, a);
    if Asks(a) { RequestStep(s, a); RequestSeals(s.db, RequestOf(s, a).value, k); }
  }

  lemma NewRowsPlain(s: Sys, a: Action, id: AttemptId)
    requires Enabled(s, a) && id !in s.db.attempts && id in Next(s, a).db.attempts
    ensures Next(s, a).db.attempts[id].lastOperation.None?
  {
    hide Next, Enabled, Apply;
    StepRecorded(s, a);
    RequestStep(s, a);
    var q := RequestOf(s, a).value;
    if q.Save? { SaveKeepsKeys(s.db, q); } else { OtherOperations(s.db, q); }
  }

  lemma SaveKeepsKeys(db: Db, q: Request)
    requires q.Save?
    ensures Apply(db, q).attempts.Keys == db.attempts.Keys
  {
    SaveChanges(db, q.id, q.actor, q.revision, q.op, q.data, q.attached);
  }

  /** An operation some row saw last is not minted afterwards. */
  lemma MintedBefore(s: Sys, a: Action, id: AttemptId)
    requires Enabled(s, a) && id in s.db.attempts && s.db.attempts[id].lastOperation.Some?
    requires s.db.attempts[id].lastOperation.value in Next(s, a).minted
    ensures s.db.attempts[id].lastOperation.value in s.minted
  {
    StepRecorded(s, a);
    if !Asks(a) {
      LocalAdds(s, a);
      hide Next, Enabled;
    }
  }

  lemma SealedStays(s: Db, t: Db, id: AttemptId)
    requires Valid(s) && Evolves(s, t) && id in s.attempts && s.attempts[id].finalization.Some?
    ensures id in t.attempts && t.attempts[id] == s.attempts[id] && (SealedByClose(t, id) <==> SealedByClose(s, id))
  {
    assert RowOk(s, id);
  }

  /** What was sent stays as it was sent, and an operation a row saw last was minted by then. */
  ghost predicate SameHistory(s: Sys, t: Sys, id: AttemptId) {
    && t.me == s.me && (forall op :: op in s.sent ==> op in t.sent && t.sent[op] == s.sent[op])
    && (id in s.db.attempts ==>
          var last := s.db.attempts[id].lastOperation; last.Some? && last.value in t.minted ==> last.value in s.minted)
  }

  lemma StepHistory(s: Sys, a: Action, id: AttemptId)
    requires Inv(s) && Enabled(s, a)
    ensures SameHistory(s, Next(s, a), id)
  {
    hide Inv, Next, Enabled, Evolves;
    NextGrows(s, a);
    if id in s.db.attempts && s.db.attempts[id].lastOperation.Some? &&
       s.db.attempts[id].lastOperation.value in Next(s, a).minted
    {
      MintedBefore(s, a, id);
    }
  }

  lemma OpenRowShows(s: Sys, t: Sys, id: AttemptId)
    requires id in s.db.attempts && s.db.attempts[id].finalization.None? && id in t.db.attempts
    requires ServerOp(s, id, s.db.attempts[id]) && ServerOp(t, id, t.db.attempts[id])
    requires SealsAsIs(s.db, t.db, id) && SameHistory(s, t, id)
    ensures ShowsOperation(t, id)
  {
    hide SealedByClose;
  }

  lemma SealedRowShows(s: Sys, t: Sys, id: AttemptId)
    requires Valid(s.db) && Evolves(s.db, t.db) && id in s.db.attempts && s.db.attempts[id].finalization.Some?
    requires ShowsOperation(s, id) && SameHistory(s, t, id)
    ensures id in t.db.attempts && ShowsOperation(t, id)
  {
    hide SealedByClose, Valid, Evolves;
    SealedStays(s.db, t.db, id);
  }

  lemma NextRowShows(s: Sys, a: Action, id: AttemptId)
    requires Inv(s) && RowsShow(s) && Enabled(s, a) && id in Next(s, a).db.attempts && Inv(Next(s, a))
    ensures ShowsOperation(Next(s, a), id)
  {
    var t := Next(s, a);
    hide Next, Enabled, EntriesOk, Valid, ServerOp, ShowsOperation, SameHistory, SealsAsIs, SentOk, AcceptedOk;
    hide StartedOk;
    StepHistory(s, a, id);
    if id !in s.db.attempts {
      NewRowsPlain(s, a, id);
      PlainShows(t, id);
    } else if s.db.attempts[id].finalization.Some? {
      NextGrows(s, a);
      hide HistoryOk;
      SealedRowShows(s, t, id);
    } else {
      StepSeals(s, a, id);
      OpenRowShows(s, t, id);
    }
  }

  lemma PlainShows(s: Sys, id: AttemptId)
    requires id in s.db.attempts && s.db.attempts[id].lastOperation.None?
    ensures ShowsOperation(s, id)
  {}

  lemma {:induction false} TraceRowsShow(ss: seq<Sys>, acts: seq<Action>, n: nat)
    requires Trace(ss, acts) && n < |ss|
    ensures RowsShow(ss[n])
  {
    hide Inv, Next, Enabled;
    if n > 0 {
      TraceRowsShow(ss, acts, n - 1);
      TraceInv(ss, acts, n - 1);
      TraceInv(ss, acts, n);
      forall id | id in ss[n].db.attempts ensures ShowsOperation(ss[n], id) {
        NextRowShows(ss[n - 1], acts[n - 1], id);
      }
    }
  }

  // ---- what the record reports ----

  /** A drained completion whose row saw an operation of this device last reports the answers that operation sent. */
  lemma RecordReportsOperation(ss: seq<Sys>, acts: seq<Action>, n: nat, id: AttemptId, at: Time, fetched: bool)
    requires Trace(ss, acts) && n < |acts| && acts[n] == FinalizeTrip(id, at, fetched)
    requires ss[n + 1].entries[id].completion.None? && !SealedByClose(ss[n].db, id)
    ensures id in ss[n].db.attempts && id in ss[n + 1].db.attempts && ss[n + 1].db.attempts[id].finalization.Some?
    ensures var a, f := ss[n].db.attempts[id], ss[n + 1].db.attempts[id].finalization.value;
            f.evidence < |ss[n + 1].db.evidence| &&
            (a.lastOperation.Some? && a.lastOperation.value in ss[n].minted ==>
               a.lastOperation.value in ss[n].sent &&
               BuiltFrom(ss[n + 1].db.evidence[f.evidence], ss[n].sent[a.lastOperation.value].data))
  {
    var s, t := ss[n], ss[n + 1];
    TraceInv(ss, acts, n);
    TraceInv(ss, acts, n + 1);
    TraceRowsShow(ss, acts, n + 1);
    DrainedCompletion(s, id, at, fetched);
    DrainedRow(s, id, at, fetched);
    assert RowOk(t.db, id) && ShowsOperation(t, id);
    hide Inv, Next, Enabled, SealedByClose;
    var b := t.db.attempts[id];
    if b.lastOperation.Some? && b.lastOperation.value in s.minted {
      RecordedWork(t.db.evidence[b.finalization.value.evidence], id, b, s.sent[b.lastOperation.value].data);
    }
  }

  /** Draining keeps the row's last operation and everything the device has recorded. */
  lemma DrainedRow(s: Sys, id: AttemptId, at: Time, fetched: bool)
    requires Inv(s) && Enabled(s, FinalizeTrip(id, at, fetched)) && id in Next(s, FinalizeTrip(id, at, fetched)).entries
    requires Next(s, FinalizeTrip(id, at, fetched)).entries[id].completion.None?
    ensures var t := Next(s, FinalizeTrip(id, at, fetched));
            && t.sent == s.sent && t.minted == s.minted && t.me == s.me
            && id in s.db.attempts && id in t.db.attempts
            && t.db.attempts[id].lastOperation == s.db.attempts[id].lastOperation
  {
    hide Next, Enabled, Inv, Apply;
    var a := FinalizeTrip(id, at, fetched);
    RequestStep(s, a);
    FinalizeApplied(s.db, RequestOf(s, a).value);
    DrainedCompletion(s, id, at, fetched);
    KeptOperation(s.db.attempts, Next(s, a).db.attempts, id);
  }

  lemma FinalizeApplied(db: Db, q: Request)
    requires q.Finalize?
    ensures OperationsKept(db.attempts, Apply(db, q).attempts) && Apply(db, q).attempts.Keys == db.attempts.Keys
  {
    FinalizeKeepsOperations(db, q.id, q.actor, q.revision, q.finished, q.at);
    hide FinalizeAttempt;
  }

  lemma KeptOperation(s: Attempts, t: Attempts, id: AttemptId)
    requires OperationsKept(s, t) && id in s
    ensures id in t && t[id].lastOperation == s[id].lastOperation
  {}

  /**
   * The record is the attempt's only one, and reports the answers in view when step k completed it. Those are
   * - the last saved ones, if that save was still waiting in the queue then, or is the operation the row saw last;
   * - the ones a resolution or an earlier save of this device sent, if that is the operation the row saw last.
   */
  ghost predicate Reports(ss: seq<Sys>, k: nat, n: nat, id: AttemptId, evidence: seq<Evidence>, i: nat)
    requires k <= n < |ss| && id in ss[k].entries
  {
    && i < |evidence| && evidence[i].attempt == id
    && (forall j :: 0 <= j < |evidence| && evidence[j].attempt == id ==> j == i)
    && BuiltFrom(evidence[i], LocalData(ss[k].entries[id]))
    && (id in ss[k].saved && InTail(ss[k].entries[id], ss[k].saved[id]) ==>
          id in ss[n].saved && BuiltFrom(evidence[i], ss[n].saved[id].data))
    && id in ss[n].db.attempts
    && (SawLast(ss[n], id) ==>
          var op := ss[n].db.attempts[id].lastOperation.value;
          && op in ss[n].sent && BuiltFrom(evidence[i], ss[n].sent[op].data)
          && (id in ss[n].saved && ss[n].saved[id].id == op ==> BuiltFrom(evidence[i], ss[n].saved[id].data)))
  }

  /** The row saw an operation of this device last. */
  ghost predicate SawLast(s: Sys, id: AttemptId)
    requires id in s.db.attempts
  {
    s.db.attempts[id].lastOperation.Some? && s.db.attempts[id].lastOperation.value in s.minted
  }

  /** Exactly-once sync: in every run, however many requests, responses and tabs were lost, when a completed entry has
      drained the attempt has exactly one evidence record, and it reports the answers of the moment the tester completed
      it, provided nobody closed the campaign at the tester's very finish time. */
  lemma ExactlyOnceSync(ss: seq<Sys>, acts: seq<Action>, n: nat, id: AttemptId, at: Time, fetched: bool)
    returns (k: nat, i: nat)
    requires Trace(ss, acts) && n < |acts| && acts[n] == FinalizeTrip(id, at, fetched)
    requires ss[n + 1].entries[id].completion.None?
    requires forall k :: 0 <= k < n ==> !ClosesAt(acts[k], ss[n].entries[id].completion.value.finished)
    ensures CompletedAt(ss, acts, k, n, id, ss[n].entries[id].completion.value)
    ensures Reports(ss, k, n, id, ss[n + 1].db.evidence, i)
  {
    hide Inv, Next, Enabled, BuiltFrom, SealedByClose;
    TraceInv(ss, acts, n);
    DrainedCompletion(ss[n], id, at, fetched);
    i := ss[n + 1].db.attempts[id].finalization.value.evidence;
    if ss[n + 1].db.evidence[i].closure.Some? {
      ClosureOrigin(ss, acts, n + 1, i);
      assert false;
    }
    CompletionOrigin(ss, acts, n, id);
    k :| CompletedAt(ss, acts, k, n, id, ss[n].entries[id].completion.value);
    RecordReportsOperation(ss, acts, n, id, at, fetched);
    TraceSavesSent(ss, acts, n);
    if id in ss[n].saved { assert SentAsSaved(ss[n], id); }
  }
}
