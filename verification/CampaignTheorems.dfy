/** What the campaign tables promise over whole runs, and what one request does and undoes. */
module CampaignTheorems {
  import opened Base
  import opened Drafts
  import opened CampaignServer
  import opened CampaignInvariants

  lemma InitialValid(db: Db)
    requires Initial(db)
    ensures Valid(db)
  {
  }

  // ---- whole runs ----

  /** Finalize once: from the state that seals it on, a row never changes, and exactly one
      evidence record is its own and agrees with it. */
  lemma FinalizedForever(db: Db, qs: seq<Request>, n: nat, id: AttemptId)
    requires Initial(db) && n <= |qs|
    requires id in Serve(db, qs[..n]).attempts && Serve(db, qs[..n]).attempts[id].finalization.Some?
    ensures var a := Serve(db, qs[..n]).attempts[id];
            var t := Serve(db, qs);
            && id in t.attempts && t.attempts[id] == a
            && a.revision == a.finalization.value.revision + 1
            && a.finalization.value.evidence < |t.evidence|
            && Records(t.evidence[a.finalization.value.evidence], id, a)
            && forall i :: 0 <= i < |t.evidence| && t.evidence[i].attempt == id ==> i == a.finalization.value.evidence
  {
    InitialValid(db);
    EveryRunValid(db, qs);
    EveryRunEvolves(db, qs, n);
    var t := Serve(db, qs);
    assert RowOk(t, id);
    forall i | 0 <= i < |t.evidence| && t.evidence[i].attempt == id
      ensures i == t.attempts[id].finalization.value.evidence
    {
      assert EvidenceOk(t.packages, t.attempts, t.evidence[i], i);
    }
  }

  /** Revision numbers never repeat: over a whole run one number names one row content. */
  lemma RevisionIdentifiesRow(db: Db, qs: seq<Request>, n: nat, id: AttemptId)
    requires Initial(db) && n <= |qs|
    requires id in Serve(db, qs[..n]).attempts
    ensures var s, t := Serve(db, qs[..n]), Serve(db, qs);
            && id in t.attempts
            && s.attempts[id].revision <= t.attempts[id].revision
            && (s.attempts[id].revision == t.attempts[id].revision ==> s.attempts[id] == t.attempts[id])
  {
    InitialValid(db);
    EveryRunEvolves(db, qs, n);
  }

  lemma ClosedMeansComplete(db: Db, qs: seq<Request>, e: ExecutionId)
    requires Initial(db)
    requires e in Serve(db, qs).executions
    ensures var t := Serve(db, qs);
            && (forall i, j, r :: OpenIn(t.attempts, i, e, r) && OpenIn(t.attempts, j, e, r) ==> i == j)
            && (t.executions[e].closed.Some? ==>
                  && t.executions[e].package in t.packages
                  && (forall s :: s in t.packages[t.executions[e].package].scenarios ==>
                        Attempted(t.attempts, e, s.ref))
                  && (forall id :: id in t.attempts && t.attempts[id].execution == Some(e) ==>
                        t.attempts[id].finalization.Some?))
  {
    InitialValid(db);
    EveryRunValid(db, qs);
    assert OneOpen(Serve(db, qs).attempts);
  }

  /** No silent PASS, whichever path sealed the attempt. */
  lemma NoSilentPass(db: Db, qs: seq<Request>, i: nat)
    requires Initial(db) && i < |Serve(db, qs).evidence|
    ensures var t := Serve(db, qs);
            var v := t.evidence[i];
            && v.attempt in t.attempts
            && var s := PackageScenario(t.packages, t.attempts[v.attempt].package, v.ref);
               s.Some? && HonestPass(s.value.procedure, v.result, v.answers)
  {
    InitialValid(db);
    EveryRunValid(db, qs);
    var t := Serve(db, qs);
    assert EvidenceOk(t.packages, t.attempts, t.evidence[i], i);
  }

  // ---- the execution revision ----

  /** One procedure's line of executionProgress. */
  datatype Progress = Progress(attempts: nat, draft: Option<AttemptId>, latest: Option<AttemptId>, result: Verdict)

  ghost predicate After(rows: Attempts, i: AttemptId, j: AttemptId)
    requires i in rows && j in rows
  {
    rows[i].created > rows[j].created || (rows[i].created == rows[j].created && i >= j)
  }

  ghost predicate IsLatest(rows: Attempts, e: ExecutionId, ref: Ref, id: AttemptId) {
    && Belongs(rows, id, e, ref) && rows[id].finalization.Some?
    && forall k :: Belongs(rows, k, e, ref) && rows[k].finalization.Some? ==> After(rows, id, k)
  }

  ghost predicate Shows(rows: Attempts, e: ExecutionId, ref: Ref, p: Progress) {
    && p.attempts == |set id | id in rows && Belongs(rows, id, e, ref)|
    && (if p.draft.Some? then OpenIn(rows, p.draft.value, e, ref) else forall id :: !OpenIn(rows, id, e, ref))
    && (if p.latest.Some? then IsLatest(rows, e, ref, p.latest.value) && p.result == rows[p.latest.value].data.result
        else p.result == NoVerdict && forall id :: Belongs(rows, id, e, ref) ==> rows[id].finalization.None?)
  }

  /** The execution revision determines its attempts, so a close that succeeds at the revision a
      reader was shown acts on exactly the attempts, and the progress, the reader saw. */
  lemma CloseActsOnSnapshot(db: Db, qs: seq<Request>, n: nat, e: ExecutionId, actor: Actor, now: Time,
                            ids: seq<AttemptId>)
    requires Initial(db) && n <= |qs|
    requires e in Serve(db, qs[..n]).executions
    requires SetExecutionClosed(Serve(db, qs), e, Serve(db, qs[..n]).executions[e].revision,
                                 true, actor, now, ids).1.Ok?
    ensures var s, t := Serve(db, qs[..n]), Serve(db, qs);
            && s.executions[e] == t.executions[e]
            && SameAttempts(s, t, e)
            && forall r, p, q :: Shows(s.attempts, e, r, p) && Shows(t.attempts, e, r, q) ==> p == q
  {
    InitialValid(db);
    EveryRunEvolves(db, qs, n);
    EveryRunValid(db, qs);
    var s, t := Serve(db, qs[..n]), Serve(db, qs);
    assert ExecutionEvolves(s, t, e);
    forall r, p, q | Shows(s.attempts, e, r, p) && Shows(t.attempts, e, r, q)
      ensures p == q
    {
      SameProgress(s, t, e, r, p, q);
    }
  }

  lemma SameProgress(s: Db, t: Db, e: ExecutionId, r: Ref, p: Progress, q: Progress)
    requires SameAttempts(s, t, e) && OneOpen(t.attempts)
    requires Shows(s.attempts, e, r, p) && Shows(t.attempts, e, r, q)
    ensures p == q
  {
    forall id ensures Belongs(s.attempts, id, e, r) == Belongs(t.attempts, id, e, r) {
    }
    assert (set id | id in s.attempts && Belongs(s.attempts, id, e, r)) ==
           (set id | id in t.attempts && Belongs(t.attempts, id, e, r));
    if p.draft.Some? { assert OpenIn(t.attempts, p.draft.value, e, r); }
    if q.draft.Some? { assert OpenIn(s.attempts, q.draft.value, e, r); }
    if p.latest.Some? && q.latest.Some? {
      assert After(s.attempts, p.latest.value, q.latest.value);
      assert After(t.attempts, q.latest.value, p.latest.value);
    }
  }

  // ---- what closing does ----

  /** Closing only adds: rows of other executions and finished rows are untouched, unfinished
      rows are disposed of, and the execution moves one revision on. */
  lemma CloseOnlyAdds(db: Db, e: ExecutionId, revision: nat, actor: Actor, now: Time, ids: seq<AttemptId>)
    requires Valid(db)
    requires SetExecutionClosed(db, e, revision, true, actor, now, ids).1.Ok?
    ensures var t := SetExecutionClosed(db, e, revision, true, actor, now, ids).0;
            && e in t.executions && t.executions[e].revision == revision + 1
            && (forall id :: id in db.attempts ==> Undisturbed(db, t, id, now))
            && (forall id :: id in t.attempts && t.attempts[id].execution != Some(e) ==>
                  id in db.attempts && t.attempts[id] == db.attempts[id])
  {
    var t1 := CloseUnfinished(db, e, db.executions[e],
                              db.packages[db.executions[e].package].scenarios, actor, now, ids).value;
    CloseLoopComplete(db, e, actor, now, ids, t1);
    var t := SetExecutionClosed(db, e, revision, true, actor, now, ids).0;
    forall id | id in db.attempts ensures Undisturbed(db, t, id, now) {
      assert Undisturbed(db, t1, id, now);
    }
  }

  /** What closing seals can pass for the tester's own finalization: retried at the row's last
      open revision with the instant of the close as finish time, it is answered with success. */
  lemma CloseAnswersFinalize(db: Db, e: ExecutionId, revision: nat, actor: Actor, now: Time, ids: seq<AttemptId>,
                             id: AttemptId, tester: Actor, at: Time)
    requires Valid(db)
    requires SetExecutionClosed(db, e, revision, true, actor, now, ids).1.Ok?
    requires id in db.attempts && db.attempts[id].execution == Some(e) && db.attempts[id].finalization.None?
    ensures var t := SetExecutionClosed(db, e, revision, true, actor, now, ids).0;
            && id in t.attempts && t.attempts[id].data.result == Skipped
            && t.attempts[id].data.notes != db.attempts[id].data.notes
            && FinalizeAttempt(t, id, tester, db.attempts[id].revision, now, at) == (t, Ok(Row(id, t.attempts[id])))
  {
    ClosedRow(db, e, revision, actor, now, ids, id);
    var t := SetExecutionClosed(db, e, revision, true, actor, now, ids).0;
    FinalizeSealed(t, id, tester, db.attempts[id].revision, now, at);
  }

  lemma ClosedRow(db: Db, e: ExecutionId, revision: nat, actor: Actor, now: Time, ids: seq<AttemptId>, id: AttemptId)
    requires Valid(db)
    requires SetExecutionClosed(db, e, revision, true, actor, now, ids).1.Ok?
    requires id in db.attempts && db.attempts[id].execution == Some(e) && db.attempts[id].finalization.None?
    ensures var t := SetExecutionClosed(db, e, revision, true, actor, now, ids).0;
            && id in t.attempts && t.attempts[id].finalization.Some?
            && PackageScenario(db.packages, db.attempts[id].package, db.attempts[id].ref).Some?
            && Disposed(PackageScenario(db.packages, db.attempts[id].package, db.attempts[id].ref).value.procedure,
                        db.attempts[id], t.attempts[id], now)
            && t.attempts[id].execution == Some(e)
  {
    CloseOnlyAdds(db, e, revision, actor, now, ids);
    var t := SetExecutionClosed(db, e, revision, true, actor, now, ids).0;
    assert Undisturbed(db, t, id, now);
    AllSealed(db, e, revision, actor, now, ids);
  }

  lemma AllSealed(db: Db, e: ExecutionId, revision: nat, actor: Actor, now: Time, ids: seq<AttemptId>)
    requires Valid(db)
    requires SetExecutionClosed(db, e, revision, true, actor, now, ids).1.Ok?
    ensures var t := SetExecutionClosed(db, e, revision, true, actor, now, ids).0;
            forall id :: id in db.attempts && db.attempts[id].execution == Some(e) ==>
              id in t.attempts && t.attempts[id].execution == Some(e) && t.attempts[id].finalization.Some?
  {
    hide RowsValid, EvidenceValid, OneOpen, PackagesOk, CloseUnfinished, SealEvolves, ExecutionEvolves;
    SetClosedKeeps(db, e, revision, true, actor, now, ids);
    var t := SetExecutionClosed(db, e, revision, true, actor, now, ids).0;
    assert Complete(t.packages, t.attempts, e, t.executions[e].package);
  }

  lemma FinalizeSealed(db: Db, id: AttemptId, actor: Actor, revision: nat, finished: Time, at: Time)
    requires id in db.attempts && MayEdit(db.attempts[id], actor) && db.attempts[id].finalization.Some?
    ensures FinalizeAttempt(db, id, actor, revision, finished, at) ==
            (db, if db.attempts[id].finalization.value.revision == revision &&
                     db.attempts[id].finalization.value.finished == finished
                 then Ok(Row(id, db.attempts[id])) else Refused(AttemptConflict))
  {
  }

  // ---- retries ----

  /** A retried finalization, however much later and by whoever may edit the attempt, returns the sealed row exactly for
      the accepted revision and time; any other conflicts, and neither changes anything. */
  lemma FinalizeRetry(db: Db, id: AttemptId, actor: Actor, revision: nat, finished: Time, at: Time, qs: seq<Request>,
                      again: nat, finishedAgain: Time, later: Time, other: Actor)
    requires Valid(db) && id in db.attempts && MayEdit(db.attempts[id], other)
    requires FinalizeAttempt(db, id, actor, revision, finished, at).1.Ok?
    ensures var (t, reply) := FinalizeAttempt(db, id, actor, revision, finished, at);
            var u := Serve(t, qs);
            FinalizeAttempt(u, id, other, again, finishedAgain, later) ==
            (u, if again == revision && finishedAgain == finished then reply else Refused(AttemptConflict))
  {
    FinalizeReply(db, id, actor, revision, finished, at);
    FinalizeKeeps(db, id, actor, revision, finished, at);
    hide Valid, FinalizeAttempt;
    var (t, reply) := FinalizeAttempt(db, id, actor, revision, finished, at);
    LaterRow(t, qs, id);
    FinalizeSealed(Serve(t, qs), id, other, again, finishedAgain, later);
  }

  /** What an accepted finalization answers with: the row as it is sealed, with the revision and time of the request. */
  lemma FinalizeReply(db: Db, id: AttemptId, actor: Actor, revision: nat, finished: Time, at: Time)
    requires FinalizeAttempt(db, id, actor, revision, finished, at).1.Ok?
    ensures var (t, reply) := FinalizeAttempt(db, id, actor, revision, finished, at);
            && id in db.attempts && id in t.attempts
            && reply == Ok(Row(id, t.attempts[id])) && t.attempts[id].finalization.Some?
            && t.attempts[id].finalization.value.revision == revision
            && t.attempts[id].finalization.value.finished == finished
            && t.attempts[id].owner == db.attempts[id].owner && t.attempts[id].execution == db.attempts[id].execution
  {
    hide Finalizable, ValidEvidence;
  }

  /** A row in a later state: its editors stay, a sealed row stays, and an open one stays while its revision does. */
  lemma LaterRow(t: Db, qs: seq<Request>, id: AttemptId)
    requires Valid(t) && id in t.attempts
    ensures var u := Serve(t, qs);
            && Valid(u) && id in u.attempts && AttemptEvolves(t.attempts[id], u.attempts[id])
  {
    EveryRunValid(t, qs);
    EveryRunEvolves(t, qs, 0);
    hide Valid;
    assert qs[..0] == [] && Serve(t, []) == t;
  }

  /** Replaying an accepted save at any later time, by whoever may edit the attempt, never changes anything: it returns
      the same row while attempt and execution are open and nobody has saved since, and conflicts otherwise. */
  lemma SaveReplay(db: Db, id: AttemptId, actor: Actor, revision: nat, op: OperationId, data: DraftData, attached: bool,
                   qs: seq<Request>, other: Actor, attached': bool)
    requires Valid(db) && id in db.attempts && MayEdit(db.attempts[id], other)
    requires SaveAttempt(db, id, actor, revision, op, data, attached).1.Ok?
    ensures var (t, reply) := SaveAttempt(db, id, actor, revision, op, data, attached);
            var u := Serve(t, qs);
            && id in t.attempts && id in u.attempts
            && SaveAttempt(u, id, other, revision, op, data, attached') ==
               (u, if IsClosed(u, u.attempts[id].execution) then Refused(CampaignConflict)
                   else if u.attempts[id] == t.attempts[id] then reply else Refused(AttemptConflict))
  {
    hide Valid, Evolves, Serve, SaveAttempt, AttemptEvolves;
    SaveKeeps(db, id, actor, revision, op, data, attached);
    SaveReply(db, id, actor, revision, op, data, attached);
    var (t, reply) := SaveAttempt(db, id, actor, revision, op, data, attached);
    LaterRow(t, qs, id);
    OpenBase(Serve(t, qs), id);
    ReplayLater(t.attempts[id], Serve(t, qs), id, revision, op, data, other, attached');
  }

  /** The replay against a row that evolved from the accepted one. */
  lemma ReplayLater(a: Attempt, u: Db, id: AttemptId, revision: nat, op: OperationId, data: DraftData, other: Actor,
                    attached: bool)
    requires id in u.attempts && AttemptEvolves(a, u.attempts[id]) && MayEdit(a, other)
    requires a.finalization.None? && a.lastOperation == Some(op) && a.lastBase == revision && a.data == data
    requires a.revision == revision + 1
    requires u.attempts[id].finalization.None? && u.attempts[id].lastOperation.Some? ==>
               u.attempts[id].revision == u.attempts[id].lastBase + 1
    ensures SaveAttempt(u, id, other, revision, op, data, attached) ==
            (u, if IsClosed(u, u.attempts[id].execution) then Refused(CampaignConflict)
                else if u.attempts[id] == a then Ok(Row(id, a)) else Refused(AttemptConflict))
  {}

  lemma SaveReply(db: Db, id: AttemptId, actor: Actor, revision: nat, op: OperationId, data: DraftData, attached: bool)
    requires Valid(db) && SaveAttempt(db, id, actor, revision, op, data, attached).1.Ok?
    ensures var (t, reply) := SaveAttempt(db, id, actor, revision, op, data, attached);
            && id in db.attempts && id in t.attempts && reply == Ok(Row(id, t.attempts[id]))
            && t.attempts[id].finalization.None? && t.attempts[id].lastOperation == Some(op)
            && t.attempts[id].lastBase == revision && t.attempts[id].data == data
            && t.attempts[id].revision == revision + 1
            && t.attempts[id].owner == db.attempts[id].owner && t.attempts[id].execution == db.attempts[id].execution
  {
    OpenBase(db, id);
    hide Valid;
  }

  lemma OpenBase(db: Db, id: AttemptId)
    requires Valid(db) && id in db.attempts
    ensures db.attempts[id].finalization.None? && db.attempts[id].lastOperation.Some? ==>
              db.attempts[id].revision == db.attempts[id].lastBase + 1
  {
    assert RowOk(db, id);
  }

  /** A save changes the row exactly when its stamped base is the row's own revision on open work, the operation is new
      and its attachments are found. */
  lemma SaveAcceptedIff(db: Db, id: AttemptId, actor: Actor, revision: nat, op: OperationId, data: DraftData,
                        attached: bool)
    requires Valid(db) && id in db.attempts
    ensures var a := db.attempts[id];
            SaveAttempt(db, id, actor, revision, op, data, attached).0 != db <==>
            !IsClosed(db, a.execution) && MayEdit(a, actor) && a.finalization.None?
            && a.lastOperation != Some(op) && a.revision == revision && attached
  {
    var t := SaveAttempt(db, id, actor, revision, op, data, attached).0;
    assert t != db ==> t.attempts[id].revision == db.attempts[id].revision + 1;
  }
}
