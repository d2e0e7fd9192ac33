/** Closing and reopening: when they succeed, and what exactly they leave. */
module CampaignClosing {
  import opened Base
  import opened Drafts
  import opened CampaignServer
  import opened CampaignInvariants
  import opened CampaignDecisions

  // ---- the request ----

  ghost predicate LoopSucceeds(db: Db, e: ExecutionId, actor: Actor, now: Time, ids: seq<AttemptId>)
    requires e in db.executions
  {
    var pkg := db.executions[e].package;
    && pkg in db.packages && |ids| == |db.packages[pkg].scenarios|
    && CloseUnfinished(db, e, db.executions[e], db.packages[pkg].scenarios, actor, now, ids).Ok?
  }

  /** A close or reopen succeeds if and only if its revision is the execution's, it turns the other way, and, for a
      close, every scenario can be disposed of; a refusal changes nothing. */
  lemma SetClosedDecides(db: Db, e: ExecutionId, revision: nat, closed: bool, actor: Actor, now: Time,
                         ids: seq<AttemptId>)
    ensures var (t, reply) := SetExecutionClosed(db, e, revision, closed, actor, now, ids);
            && (reply.Ok? <==> && e in db.executions && db.executions[e].revision == revision
                               && db.executions[e].closed.Some? == !closed
                               && (closed ==> LoopSucceeds(db, e, actor, now, ids)))
            && (reply.Refused? ==> t == db)
  {
    hide CloseUnfinished;
  }

  /** Afterwards the execution is closed if and only if that was asked, by this actor at this instant; every other
      execution stays, and a reopen leaves attempts and evidence as they were. */
  lemma SetClosedWrites(db: Db, e: ExecutionId, revision: nat, closed: bool, actor: Actor, now: Time,
                        ids: seq<AttemptId>)
    requires SetExecutionClosed(db, e, revision, closed, actor, now, ids).1.Ok?
    ensures var t := SetExecutionClosed(db, e, revision, closed, actor, now, ids).0;
            && e in db.executions && t.executions.Keys == db.executions.Keys && t.packages == db.packages
            && (forall k :: k in db.executions && k != e ==> t.executions[k] == db.executions[k])
            && (!closed ==> t.attempts == db.attempts && t.evidence == db.evidence)
            && var x, y := db.executions[e], t.executions[e];
               && y.revision == revision + 1 && y.closed.Some? == closed
               && (closed ==> y.closed.value.at == now && y.closed.value.actor == actor)
               && y.package == x.package && y.repo == x.repo && y.branch == x.branch && y.rcsRef == x.rcsRef
  {
    SetClosedDecides(db, e, revision, closed, actor, now, ids);
    if closed {
      var x := db.executions[e];
      LoopKeepsPackages(db, e, x, db.packages[x.package].scenarios, actor, now, ids);
    }
    hide CloseUnfinished;
  }

  lemma {:induction false} LoopKeepsPackages(db: Db, e: ExecutionId, x: Execution, todo: seq<Scenario>, actor: Actor,
                                             now: Time, ids: seq<AttemptId>)
    requires |ids| == |todo| && CloseUnfinished(db, e, x, todo, actor, now, ids).Ok?
    ensures CloseUnfinished(db, e, x, todo, actor, now, ids).value.packages == db.packages
    decreases |todo|
  {
    if todo != [] {
      var d := CloseOne(db, e, x, todo[0], actor, now, ids[0]).value;
      CloseOneTouches(db, e, x, todo[0], actor, now, ids[0]);
      hide CloseOne;
      LoopKeepsPackages(d, e, x, todo[1..], actor, now, ids[1..]);
    }
  }

  /** Once reopened, every procedure of the package can be started again. */
  lemma ReopenAcceptsStarts(db: Db, e: ExecutionId, revision: nat, actor: Actor, now: Time, ids: seq<AttemptId>,
                            id: AttemptId, ref: Ref, tester: Actor, created: Time)
    requires Valid(db) && SetExecutionClosed(db, e, revision, false, actor, now, ids).1.Ok?
    requires e in db.executions && InPackage(db, db.executions[e].package, ref) && id !in db.attempts
    ensures var t := SetExecutionClosed(db, e, revision, false, actor, now, ids).0;
            StartExecutionAttempt(t, e, id, ref, tester, created).0 != t
  {
    SetClosedDecides(db, e, revision, false, actor, now, ids);
    SetClosedWrites(db, e, revision, false, actor, now, ids);
    var t := SetExecutionClosed(db, e, revision, false, actor, now, ids).0;
    assert Complete(db.packages, db.attempts, e, db.executions[e].package);
    StartDecides(t, e, id, ref, tester, created);
    hide SetExecutionClosed, StartExecutionAttempt, Valid;
  }

  // ---- one scenario ----

  /** A row can be disposed of: with the missing outcomes supplied its draft is valid, and it can be filed. */
  predicate SkipFits(a: Attempt, s: Scenario, now: Time) {
    && ValidDraft(s.procedure, ClosedDraft(s.procedure, a.data))
    && a.data.repo != "" && a.data.branch != "" && a.data.rcsRef != "" && now != 0 && Fileable(a, s)
  }

  lemma SkipRowIff(db: Db, id: AttemptId, a: Attempt, x: Execution, s: Scenario, actor: Actor, now: Time)
    ensures SkipRow(db, id, a, x, s, actor, now).Ok? <==> SkipFits(a, s, now)
  {
    hide ValidDraft, CloseAnswers, CloseNotes, ValidEvidenceType;
  }

  /** The scenario can be disposed of: its unfinished attempt, or, where there never was one, a generated one. */
  ghost predicate Disposable(rows: Attempts, e: ExecutionId, x: Execution, s: Scenario, actor: Actor, now: Time,
                             newId: AttemptId) {
    && (forall k :: OpenIn(rows, k, e, s.ref) ==> SkipFits(rows[k], s, now))
    && (!Attempted(rows, e, s.ref) ==> newId !in rows && SkipFits(SkipAttempt(x, e, s, actor, now), s, now))
  }

  lemma CloseOneIff(db: Db, e: ExecutionId, x: Execution, s: Scenario, actor: Actor, now: Time, newId: AttemptId)
    requires OneOpen(db.attempts)
    ensures CloseOne(db, e, x, s, actor, now, newId).Ok? <==> Disposable(db.attempts, e, x, s, actor, now, newId)
  {
    hide SkipRow, SkipFits, SkipAttempt;
    var open := OpenAttempt(db.attempts, e, s.ref);
    if open.Some? {
      SkipRowIff(db, open.value, db.attempts[open.value], x, s, actor, now);
      assert Attempted(db.attempts, e, s.ref);
      assert forall k :: OpenIn(db.attempts, k, e, s.ref) ==> k == open.value;
    } else if !Attempted(db.attempts, e, s.ref) {
      SkipRowIff(db, newId, SkipAttempt(x, e, s, actor, now), x, s, actor, now);
    }
  }

  /** It seals at most one row, of its own procedure, and files at most one record. */
  ghost predicate OneSealed(s: Db, t: Db, e: ExecutionId, ref: Ref, newId: AttemptId) {
    && t.packages == s.packages && t.executions == s.executions
    && (t == s || exists id :: OneRow(s.attempts, t.attempts, id) && Belongs(t.attempts, id, e, ref) &&
                               t.attempts[id].finalization.Some? &&
                               (id in s.attempts ==> Belongs(s.attempts, id, e, ref)) &&
                               (id !in s.attempts ==> id == newId))
  }

  lemma CloseOneTouches(db: Db, e: ExecutionId, x: Execution, s: Scenario, actor: Actor, now: Time, newId: AttemptId)
    requires CloseOne(db, e, x, s, actor, now, newId).Ok?
    ensures OneSealed(db, CloseOne(db, e, x, s, actor, now, newId).value, e, s.ref, newId)
  {
    hide SkipRow;
    var d := CloseOne(db, e, x, s, actor, now, newId).value;
    var open := OpenAttempt(db.attempts, e, s.ref);
    if open.Some? {
      SkipRowSeals(db, open.value, db.attempts[open.value], x, s, actor, now);
      assert OneRow(db.attempts, d.attempts, open.value) && Belongs(d.attempts, open.value, e, s.ref);
    } else if !Attempted(db.attempts, e, s.ref) {
      SkipRowSeals(db, newId, SkipAttempt(x, e, s, actor, now), x, s, actor, now);
      assert OneRow(db.attempts, d.attempts, newId) && Belongs(d.attempts, newId, e, s.ref);
    }
  }

  lemma SkipRowSeals(db: Db, id: AttemptId, a: Attempt, x: Execution, s: Scenario, actor: Actor, now: Time)
    requires SkipRow(db, id, a, x, s, actor, now).Ok?
    ensures var d := SkipRow(db, id, a, x, s, actor, now).value;
            && d.packages == db.packages && d.executions == db.executions && OneRow(db.attempts, d.attempts, id)
            && d.attempts[id].finalization.Some?
            && d.attempts[id].execution == a.execution && d.attempts[id].ref == a.ref
  {
    hide ValidDraft, ClosedDraft, ValidEvidence;
  }

  /** Other procedures can be disposed of afterwards exactly if they could before. */
  lemma OthersAsBefore(s: Db, t: Db, e: ExecutionId, ref: Ref, newId: AttemptId, x: Execution, other: Scenario,
                       actor: Actor, now: Time, otherId: AttemptId)
    requires OneSealed(s, t, e, ref, newId) && other.ref != ref && otherId != newId
    ensures Disposable(t.attempts, e, x, other, actor, now, otherId) <==>
            Disposable(s.attempts, e, x, other, actor, now, otherId)
  {
    hide SkipFits, SkipAttempt;
    if t != s {
      var id :| OneRow(s.attempts, t.attempts, id) && Belongs(t.attempts, id, e, ref) &&
                (id in s.attempts ==> Belongs(s.attempts, id, e, ref)) && (id !in s.attempts ==> id == newId);
      OtherRowsStay(s.attempts, t.attempts, e, ref, id, other.ref);
      assert otherId in t.attempts <==> otherId in s.attempts;
      hide OneRow, OneSealed;
      assert Attempted(t.attempts, e, other.ref) <==> Attempted(s.attempts, e, other.ref);
    }
  }

  lemma OtherRowsStay(s: Attempts, t: Attempts, e: ExecutionId, ref: Ref, id: AttemptId, other: Ref)
    requires OneRow(s, t, id) && Belongs(t, id, e, ref) && (id in s ==> Belongs(s, id, e, ref)) && other != ref
    ensures forall k :: Belongs(t, k, e, other) <==> Belongs(s, k, e, other)
    ensures forall k :: OpenIn(t, k, e, other) <==> OpenIn(s, k, e, other)
    ensures forall k :: Belongs(t, k, e, other) ==> k in s && k in t && t[k] == s[k]
  {}

  lemma StillOneOpen(s: Db, t: Db, e: ExecutionId, ref: Ref, newId: AttemptId)
    requires OneSealed(s, t, e, ref, newId) && OneOpen(s.attempts)
    ensures OneOpen(t.attempts)
  {
    if t != s {
      var id :| OneRow(s.attempts, t.attempts, id) && t.attempts[id].finalization.Some?;
      assert forall k, f, r :: OpenIn(t.attempts, k, f, r) ==> OpenIn(s.attempts, k, f, r);
    }
  }

  // ---- the loop ----

  ghost predicate Apart(todo: seq<Scenario>) {
    forall i, j :: 0 <= i < j < |todo| ==> todo[i].ref != todo[j].ref
  }

  /** The loop succeeds if and only if each scenario can be disposed of in the state the close found. */
  lemma {:induction false} LoopSucceedsIff(db: Db, e: ExecutionId, x: Execution, todo: seq<Scenario>, actor: Actor,
                                           now: Time, ids: seq<AttemptId>)
    requires |ids| == |todo| && OneOpen(db.attempts) && Apart(todo) && NoRepeat(ids)
    ensures CloseUnfinished(db, e, x, todo, actor, now, ids).Ok? <==>
            forall i :: 0 <= i < |todo| ==> Disposable(db.attempts, e, x, todo[i], actor, now, ids[i])
    decreases |todo|
  {
    hide OneOpen, Disposable, CloseOne, OneSealed;
    if todo != [] {
      var first := CloseOne(db, e, x, todo[0], actor, now, ids[0]);
      CloseOneIff(db, e, x, todo[0], actor, now, ids[0]);
      if first.Ok? {
        var d := first.value;
        CloseOneTouches(db, e, x, todo[0], actor, now, ids[0]);
        StillOneOpen(db, d, e, todo[0].ref, ids[0]);
        var rest, more := todo[1..], ids[1..];
        LoopSucceedsIff(d, e, x, rest, actor, now, more);
        forall i | 0 <= i < |rest|
          ensures Disposable(d.attempts, e, x, rest[i], actor, now, more[i]) <==>
                  Disposable(db.attempts, e, x, todo[i + 1], actor, now, ids[i + 1])
        {
          OthersAsBefore(db, d, e, todo[0].ref, ids[0], x, rest[i], actor, now, more[i]);
        }
        assert forall i :: 0 < i < |todo| ==> rest[i - 1] == todo[i] && more[i - 1] == ids[i];
      }
    }
  }

  /** In any reachable state, with new ids for generated attempts, a close at the right revision of an open execution
      succeeds if and only if every unfinished or missing attempt of the package can be disposed of. */
  lemma CloseSucceedsIff(db: Db, e: ExecutionId, revision: nat, actor: Actor, now: Time, ids: seq<AttemptId>)
    requires Valid(db) && e in db.executions && db.executions[e].closed.None? && db.executions[e].revision == revision
    requires db.executions[e].package in db.packages && NoRepeat(ids)
    requires |ids| == |db.packages[db.executions[e].package].scenarios|
    ensures var scenarios := db.packages[db.executions[e].package].scenarios;
            SetExecutionClosed(db, e, revision, true, actor, now, ids).1.Ok? <==>
            forall i :: 0 <= i < |scenarios| ==>
              Disposable(db.attempts, e, db.executions[e], scenarios[i], actor, now, ids[i])
  {
    var x := db.executions[e];
    SetClosedDecides(db, e, revision, true, actor, now, ids);
    LoopSucceedsIff(db, e, x, db.packages[x.package].scenarios, actor, now, ids);
    hide SetExecutionClosed, CloseUnfinished, Disposable, RowsValid, EvidenceValid, ClosedValid;
  }

  // ---- what the loop leaves ----

  /** The row a close generates for a procedure nobody attempted. */
  ghost predicate GeneratedRow(b: Attempt, x: Execution, e: ExecutionId, s: Scenario, actor: Actor, now: Time) {
    && b.package == x.package && b.execution == Some(e) && b.ref == s.ref && b.owner == actor && b.created == now
    && b.revision == 2 && b.lastOperation.None? && b.updatedBy == Some(actor)
    && b.data.repo == x.repo && b.data.branch == x.branch && b.data.rcsRef == x.rcsRef && b.data.source == actor
    && b.data.result == Skipped && b.data.notes == CLOSE_REASON && b.data.evidenceType == ""
    && b.data.answers == Some(CloseAnswers(s.procedure, InitialAnswers(s.procedure)))
    && b.finalization.Some? && b.finalization.value.finished == now && b.finalization.value.revision == 1
    && b.finalization.value.actor == actor
  }

  ghost predicate FiledByClose(v: Evidence, x: Execution, actor: Actor, now: Time) {
    v.result == Skipped && v.finished == now && v.closure == Some(Closure(actor, now, x.revision + 1))
  }

  /** What one turn adds: at most one generated row, for a procedure nobody attempted, and at most one record. */
  lemma CloseOneAdds(db: Db, e: ExecutionId, x: Execution, s: Scenario, actor: Actor, now: Time, newId: AttemptId)
    requires CloseOne(db, e, x, s, actor, now, newId).Ok?
    ensures var d := CloseOne(db, e, x, s, actor, now, newId).value;
            && (forall id :: id in d.attempts && id !in db.attempts ==>
                  id == newId && !Attempted(db.attempts, e, s.ref) && GeneratedRow(d.attempts[id], x, e, s, actor, now))
            && db.evidence <= d.evidence && |d.evidence| <= |db.evidence| + 1
            && (forall i :: |db.evidence| <= i < |d.evidence| ==> FiledByClose(d.evidence[i], x, actor, now))
  {
    hide SkipRow, GeneratedRow, FiledByClose, Attempted;
    var open := OpenAttempt(db.attempts, e, s.ref);
    if open.Some? {
      SkipRowFiles(db, open.value, db.attempts[open.value], x, s, actor, now);
    } else if !Attempted(db.attempts, e, s.ref) {
      SkipRowFiles(db, newId, SkipAttempt(x, e, s, actor, now), x, s, actor, now);
      GeneratedBySkip(db, newId, e, x, s, actor, now);
    }
  }

  lemma SkipRowFiles(db: Db, id: AttemptId, a: Attempt, x: Execution, s: Scenario, actor: Actor, now: Time)
    requires SkipRow(db, id, a, x, s, actor, now).Ok?
    ensures var d := SkipRow(db, id, a, x, s, actor, now).value;
            && d.attempts.Keys == db.attempts.Keys + {id} && |d.evidence| == |db.evidence| + 1
            && db.evidence <= d.evidence && FiledByClose(d.evidence[|db.evidence|], x, actor, now)
  {
    hide ValidDraft, CloseAnswers, CloseNotes, ValidEvidence;
  }

  lemma GeneratedBySkip(db: Db, id: AttemptId, e: ExecutionId, x: Execution, s: Scenario, actor: Actor, now: Time)
    requires SkipRow(db, id, SkipAttempt(x, e, s, actor, now), x, s, actor, now).Ok?
    ensures var d := SkipRow(db, id, SkipAttempt(x, e, s, actor, now), x, s, actor, now).value;
            id in d.attempts && GeneratedRow(d.attempts[id], x, e, s, actor, now)
  {
    hide ValidDraft, CloseAnswers, InitialAnswers, ValidEvidence;
  }

  /** The row is one the loop generated for the scenario that supplied its id. */
  ghost predicate GeneratedBy(rows: Attempts, b: Attempt, id: AttemptId, e: ExecutionId, x: Execution,
                              todo: seq<Scenario>, actor: Actor, now: Time, ids: seq<AttemptId>, i: nat)
    requires |ids| == |todo| && i < |todo|
  {
    ids[i] == id && !Attempted(rows, e, todo[i].ref) && GeneratedRow(b, x, e, todo[i], actor, now)
  }

  ghost predicate LoopAdds(db: Db, t: Db, e: ExecutionId, x: Execution, todo: seq<Scenario>, actor: Actor, now: Time,
                           ids: seq<AttemptId>)
    requires |ids| == |todo|
  {
    && (forall id :: id in t.attempts && id !in db.attempts ==>
          exists i :: 0 <= i < |todo| && GeneratedBy(db.attempts, t.attempts[id], id, e, x, todo, actor, now, ids, i))
    && db.evidence <= t.evidence
    && (forall i :: |db.evidence| <= i < |t.evidence| ==> FiledByClose(t.evidence[i], x, actor, now))
  }

  /** A sealed row of another procedure stays through the rest of the loop. */
  lemma {:induction false} RestKeeps(db: Db, e: ExecutionId, x: Execution, todo: seq<Scenario>, actor: Actor, now: Time,
                                     ids: seq<AttemptId>, id: AttemptId)
    requires |ids| == |todo| && CloseUnfinished(db, e, x, todo, actor, now, ids).Ok? && id in db.attempts
    requires forall i :: 0 <= i < |todo| ==> todo[i].ref != db.attempts[id].ref
    ensures var t := CloseUnfinished(db, e, x, todo, actor, now, ids).value;
            id in t.attempts && t.attempts[id] == db.attempts[id]
    decreases |todo|
  {
    if todo != [] {
      var d := CloseOne(db, e, x, todo[0], actor, now, ids[0]).value;
      CloseOneTouches(db, e, x, todo[0], actor, now, ids[0]);
      hide CloseOne;
      assert id in d.attempts && d.attempts[id] == db.attempts[id];
      RestKeeps(d, e, x, todo[1..], actor, now, ids[1..], id);
    }
  }

  /** What the whole loop adds: the generated rows of the procedures nobody attempted, and records marked as the
      close's. */
  lemma {:induction false} CloseAdds(db: Db, e: ExecutionId, x: Execution, todo: seq<Scenario>, actor: Actor, now: Time,
                                     ids: seq<AttemptId>)
    requires |ids| == |todo| && Apart(todo) && CloseUnfinished(db, e, x, todo, actor, now, ids).Ok?
    ensures LoopAdds(db, CloseUnfinished(db, e, x, todo, actor, now, ids).value, e, x, todo, actor, now, ids)
    decreases |todo|
  {
    if todo != [] {
      var d := CloseOne(db, e, x, todo[0], actor, now, ids[0]).value;
      CloseOneAdds(db, e, x, todo[0], actor, now, ids[0]);
      CloseOneTouches(db, e, x, todo[0], actor, now, ids[0]);
      hide CloseOne, GeneratedRow, FiledByClose, OneSealed;
      var rest, more := todo[1..], ids[1..];
      var t := CloseUnfinished(d, e, x, rest, actor, now, more).value;
      CloseAdds(d, e, x, rest, actor, now, more);
      forall id | id in t.attempts && id !in db.attempts
        ensures exists i :: 0 <= i < |todo| &&
                            GeneratedBy(db.attempts, t.attempts[id], id, e, x, todo, actor, now, ids, i)
      {
        NewRowOrigin(db, d, t, e, x, todo, actor, now, ids, id);
      }
    }
  }

  /** What an accepted close adds to the tables. */
  lemma CloseLeaves(db: Db, e: ExecutionId, revision: nat, actor: Actor, now: Time, ids: seq<AttemptId>)
    requires Valid(db) && SetExecutionClosed(db, e, revision, true, actor, now, ids).1.Ok?
    ensures e in db.executions && LoopSucceeds(db, e, actor, now, ids)
    ensures LoopAdds(db, SetExecutionClosed(db, e, revision, true, actor, now, ids).0, e, db.executions[e],
                     db.packages[db.executions[e].package].scenarios, actor, now, ids)
  {
    SetClosedDecides(db, e, revision, true, actor, now, ids);
    var x := db.executions[e];
    CloseAdds(db, e, x, db.packages[x.package].scenarios, actor, now, ids);
    hide CloseUnfinished, GeneratedBy, FiledByClose, RowsValid, EvidenceValid, ClosedValid;
  }

  lemma NewRowOrigin(db: Db, d: Db, t: Db, e: ExecutionId, x: Execution, todo: seq<Scenario>, actor: Actor, now: Time,
                     ids: seq<AttemptId>, id: AttemptId)
    requires |ids| == |todo| && todo != [] && Apart(todo) && id in t.attempts && id !in db.attempts
    requires CloseOne(db, e, x, todo[0], actor, now, ids[0]) == Ok(d)
    requires CloseUnfinished(d, e, x, todo[1..], actor, now, ids[1..]) == Ok(t)
    requires LoopAdds(d, t, e, x, todo[1..], actor, now, ids[1..])
    ensures exists i :: 0 <= i < |todo| && GeneratedBy(db.attempts, t.attempts[id], id, e, x, todo, actor, now, ids, i)
  {
    hide CloseOne, CloseUnfinished, FiledByClose, Attempted, OneSealed;
    CloseOneAdds(db, e, x, todo[0], actor, now, ids[0]);
    if id in d.attempts {
      assert d.attempts[id].ref == todo[0].ref;
      hide GeneratedRow;
      RestKeeps(d, e, x, todo[1..], actor, now, ids[1..], id);
      assert GeneratedBy(db.attempts, t.attempts[id], id, e, x, todo, actor, now, ids, 0);
    } else {
      hide GeneratedRow;
      CloseOneTouches(db, e, x, todo[0], actor, now, ids[0]);
      var i :| 0 <= i < |todo| - 1 &&
               GeneratedBy(d.attempts, t.attempts[id], id, e, x, todo[1..], actor, now, ids[1..], i);
      StillUnattempted(db, d, e, todo[0].ref, ids[0], todo[i + 1].ref);
      assert GeneratedBy(db.attempts, t.attempts[id], id, e, x, todo, actor, now, ids, i + 1);
    }
  }

  lemma StillUnattempted(s: Db, t: Db, e: ExecutionId, ref: Ref, newId: AttemptId, other: Ref)
    requires OneSealed(s, t, e, ref, newId) && !Attempted(t.attempts, e, other)
    ensures !Attempted(s.attempts, e, other)
  {
    if k :| Belongs(s.attempts, k, e, other) {
      assert Belongs(t.attempts, k, e, other);
    }
  }
}
