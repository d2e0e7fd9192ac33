/** What every campaign transaction keeps, and how one database state grows into a later one. */
module CampaignInvariants {
  import opened Base
  import opened Procedures
  import opened Drafts
  import opened CampaignServer

  // ---- growth between two states of one run ----

  /** How one attempt row may change over time: a revision number never stands for two
      different rows, and a finalized row never changes again. */
  ghost predicate AttemptEvolves(a: Attempt, b: Attempt) {
    && a.package == b.package && a.execution == b.execution && a.ref == b.ref
    && a.owner == b.owner && a.created == b.created
    && a.revision <= b.revision
    && (a.revision == b.revision ==> a == b)
    && (a.finalization.Some? ==> a == b)
    && (a.finalization.None? && b.finalization.Some? ==> a.revision <= b.finalization.value.revision)
  }

  /** Sealing an open row at its own revision keeps its data, unless a close disposed of it,
      which always lengthens the notes. */
  ghost predicate SealEvolves(evidence: seq<Evidence>, a: Attempt, b: Attempt) {
    a.finalization.None? && b.finalization.Some? && b.finalization.value.revision == a.revision ==>
      && b.finalization.value.evidence < |evidence|
      && (if evidence[b.finalization.value.evidence].closure.None? then b.data == a.data
          else |a.data.notes| < |b.data.notes|)
  }

  ghost predicate RowEvolves(evidence: seq<Evidence>, a: Attempt, b: Attempt) {
    AttemptEvolves(a, b) && SealEvolves(evidence, a, b)
  }

  lemma RowEvolvesTransitive(before: seq<Evidence>, after: seq<Evidence>, a: Attempt, b: Attempt, c: Attempt)
    requires RowEvolves(before, a, b) && RowEvolves(after, b, c) && before <= after
    ensures RowEvolves(after, a, c)
  {
  }

  ghost predicate AttemptsEvolve(s: Db, t: Db) {
    forall id :: id in s.attempts ==> id in t.attempts && RowEvolves(t.evidence, s.attempts[id], t.attempts[id])
  }

  ghost predicate SameAttempts(s: Db, t: Db, e: ExecutionId) {
    && (forall id :: id in s.attempts && s.attempts[id].execution == Some(e) ==>
          id in t.attempts && t.attempts[id] == s.attempts[id])
    && (forall id :: id in t.attempts && t.attempts[id].execution == Some(e) ==>
          id in s.attempts && t.attempts[id] == s.attempts[id])
  }

  ghost predicate ExecutionEvolves(s: Db, t: Db, e: ExecutionId)
    requires e in s.executions
  {
    e in t.executions &&
    var x, y := s.executions[e], t.executions[e];
    && x.package == y.package && x.repo == y.repo && x.branch == y.branch && x.rcsRef == y.rcsRef
    && x.revision <= y.revision
    && (x.revision == y.revision ==> x == y && SameAttempts(s, t, e))
  }

  ghost predicate Evolves(s: Db, t: Db) {
    && s.packages == t.packages
    && s.evidence <= t.evidence
    && AttemptsEvolve(s, t)
    && forall e :: e in s.executions ==> ExecutionEvolves(s, t, e)
  }

  lemma EvolvesTransitive(s: Db, t: Db, u: Db)
    requires Evolves(s, t) && Evolves(t, u)
    ensures Evolves(s, u)
  {
    forall id | id in s.attempts
      ensures RowEvolves(u.evidence, s.attempts[id], u.attempts[id])
    {
      RowEvolvesTransitive(t.evidence, u.evidence, s.attempts[id], t.attempts[id], u.attempts[id]);
    }
    forall e | e in s.executions
      ensures ExecutionEvolves(s, u, e)
    {
      assert ExecutionEvolves(s, t, e) && ExecutionEvolves(t, u, e);
    }
  }

  lemma EvolvesReflexive(s: Db)
    ensures Evolves(s, s)
  {
  }

  // ---- the invariant ----

  type Packages = map<PackageId, Package>
  type Executions = map<ExecutionId, Execution>

  ghost predicate PackagesOk(packages: Packages) {
    forall p :: p in packages ==>
      && (forall i, j :: 0 <= i < j < |packages[p].scenarios| ==>
            packages[p].scenarios[i].ref != packages[p].scenarios[j].ref)
      && forall i :: 0 <= i < |packages[p].scenarios| ==> UniqueIds(packages[p].scenarios[i].procedure)
  }

  /** An attempt nobody has edited still holds the draft it was started with. */
  ghost predicate Pristine(x: Execution, s: Scenario, a: Attempt) {
    a.revision == 1 && a.finalization.None? ==> a.lastOperation.None? && a.data == StartDraft(x, s, a.owner)
  }

  ghost predicate AttemptOk(packages: Packages, executions: Executions, a: Attempt) {
    var s := PackageScenario(packages, a.package, a.ref);
    && a.revision >= 1
    && (a.finalization.None? ==> a.revision == if a.lastOperation.Some? then a.lastBase + 1 else 1)
    && s.Some?
    && (a.execution.Some? ==>
          && a.execution.value in executions && executions[a.execution.value].package == a.package
          && Pristine(executions[a.execution.value], s.value, a))
  }

  /** The evidence record says what the attempt row says. */
  ghost predicate Records(v: Evidence, id: AttemptId, a: Attempt) {
    && v.attempt == id && v.ref == a.ref
    && v.repo == a.data.repo && v.branch == a.data.branch && v.rcsRef == a.data.rcsRef
    && v.result == a.data.result && v.notes == a.data.notes
    && a.data.answers == Some(v.answers)
    && (a.data.source != "" ==> v.source == a.data.source)
    && (a.data.metadata.Metadata? ==> v.metadata == a.data.metadata)
    && a.finalization.Some? && v.finished == a.finalization.value.finished
  }

  ghost predicate Sealed(evidence: seq<Evidence>, id: AttemptId, a: Attempt) {
    a.finalization.Some? ==>
      var f := a.finalization.value;
      f.revision + 1 == a.revision && f.evidence < |evidence| && Records(evidence[f.evidence], id, a)
  }

  ghost predicate RowOk(db: Db, id: AttemptId)
    requires id in db.attempts
  {
    AttemptOk(db.packages, db.executions, db.attempts[id]) && Sealed(db.evidence, id, db.attempts[id])
  }

  /** Evidence belongs to exactly the attempt that links to it, and a PASS is earned. */
  ghost predicate EvidenceOk(packages: Packages, rows: Attempts, v: Evidence, i: nat) {
    && v.attempt in rows
    && rows[v.attempt].finalization.Some?
    && rows[v.attempt].finalization.value.evidence == i
    && (v.closure.Some? ==> v.result == Skipped)
    && var s := PackageScenario(packages, rows[v.attempt].package, v.ref);
       s.Some? && HonestPass(s.value.procedure, v.result, v.answers)
  }

  ghost predicate EvidenceValid(db: Db) {
    forall i :: 0 <= i < |db.evidence| ==> EvidenceOk(db.packages, db.attempts, db.evidence[i], i)
  }

  ghost predicate OneOpen(rows: Attempts) {
    forall i, j, e, r :: OpenIn(rows, i, e, r) && OpenIn(rows, j, e, r) ==> i == j
  }

  /** Every procedure of the package was attempted in the execution and nothing is left unfinished. */
  ghost predicate Complete(packages: Packages, rows: Attempts, e: ExecutionId, pkg: PackageId) {
    && pkg in packages
    && (forall s :: s in packages[pkg].scenarios ==> Attempted(rows, e, s.ref))
    && (forall id :: id in rows && rows[id].execution == Some(e) ==> rows[id].finalization.Some?)
  }

  ghost predicate ClosedValid(db: Db) {
    forall e :: e in db.executions && db.executions[e].closed.Some? ==>
      Complete(db.packages, db.attempts, e, db.executions[e].package)
  }

  ghost predicate RowsValid(db: Db) {
    forall id :: id in db.attempts ==> RowOk(db, id)
  }

  ghost predicate Valid(db: Db) {
    PackagesOk(db.packages) && RowsValid(db) && EvidenceValid(db) && OneOpen(db.attempts) && ClosedValid(db)
  }

  /** Changing execution rows alone: the row rules read only their identity, so closing is what is left. */
  lemma ExecutionsChangeValid(s: Db, t: Db)
    requires Valid(s)
    requires t == s.(executions := t.executions)
    requires forall e :: e in s.executions ==>
               e in t.executions &&
               t.executions[e] ==
                 s.executions[e].(revision := t.executions[e].revision, closed := t.executions[e].closed)
    requires ClosedValid(t)
    ensures Valid(t)
  {
    forall id | id in t.attempts ensures RowOk(t, id) { assert RowOk(s, id); }
  }

  // ---- one row changes ----

  /** `t` differs from `s` in the row `id` of execution `e` and, if at all, in one more evidence record. */
  ghost predicate RowChange(s: Db, t: Db, id: AttemptId) {
    && t.packages == s.packages
    && id in t.attempts
    && s.evidence <= t.evidence
    && t.attempts.Keys == s.attempts.Keys + {id}
    && (forall k :: k in s.attempts && k != id ==> t.attempts[k] == s.attempts[k])
    && (id in s.attempts ==> RowEvolves(t.evidence, s.attempts[id], t.attempts[id]))
  }

  ghost predicate SameExceptRevision(s: Db, t: Db) {
    && s.executions.Keys == t.executions.Keys
    && forall e :: e in s.executions ==>
         t.executions[e] == s.executions[e].(revision := t.executions[e].revision)
  }

  lemma RowChangeEvolves(s: Db, t: Db, id: AttemptId)
    requires RowChange(s, t, id) && SameExceptRevision(s, t)
    requires forall e :: e in s.executions ==>
               if t.attempts[id].execution == Some(e) then t.executions[e].revision > s.executions[e].revision
               else t.executions[e] == s.executions[e]
    ensures Evolves(s, t)
  {
    forall e | e in s.executions
      ensures ExecutionEvolves(s, t, e)
    {
    }
  }

  lemma RowChangeRowsOk(s: Db, t: Db, id: AttemptId)
    requires RowsValid(s) && RowChange(s, t, id) && t.executions == s.executions
    requires RowOk(t, id)
    ensures RowsValid(t)
  {
    forall k | k in t.attempts ensures RowOk(t, k) {
      if k != id { assert RowOk(s, k); }
    }
  }

  lemma RowChangeEvidenceOk(s: Db, t: Db, id: AttemptId)
    requires EvidenceValid(s) && RowChange(s, t, id)
    requires forall i :: |s.evidence| <= i < |t.evidence| ==> EvidenceOk(t.packages, t.attempts, t.evidence[i], i)
    ensures EvidenceValid(t)
  {
    forall i | 0 <= i < |s.evidence|
      ensures EvidenceOk(t.packages, t.attempts, t.evidence[i], i)
    {
      assert EvidenceOk(s.packages, s.attempts, s.evidence[i], i);
    }
  }

  /** Opening a row is allowed only where no other is open, so there is still one open row each. */
  ghost predicate OpensAlone(rows: Attempts, id: AttemptId, a: Attempt) {
    id !in rows && a.execution.Some? && a.finalization.None? ==> OpenAttempt(rows, a.execution.value, a.ref).None?
  }

  lemma RowChangeOneOpen(s: Db, t: Db, id: AttemptId)
    requires OneOpen(s.attempts) && RowChange(s, t, id)
    requires OpensAlone(s.attempts, id, t.attempts[id])
    ensures OneOpen(t.attempts)
  {
    forall i, j, e, r | OpenIn(t.attempts, i, e, r) && OpenIn(t.attempts, j, e, r)
      ensures i == j
    {
      if i != id && j != id {
        assert OpenIn(s.attempts, i, e, r) && OpenIn(s.attempts, j, e, r);
      } else if i != j {
        var other := if i == id then j else i;
        assert OpenIn(s.attempts, other, e, r);
        if id in s.attempts {
          assert OpenIn(s.attempts, id, e, r);
        }
        assert false;
      }
    }
  }

  /** A closed execution stays complete: the row that changed is not one of its own. */
  lemma RowChangeClosed(s: Db, t: Db, id: AttemptId)
    requires ClosedValid(s) && RowChange(s, t, id) && t.executions == s.executions
    requires !IsClosed(s, t.attempts[id].execution)
    ensures ClosedValid(t)
  {
    forall e | e in t.executions && t.executions[e].closed.Some?
      ensures Complete(t.packages, t.attempts, e, t.executions[e].package)
    {
      forall r | Attempted(s.attempts, e, r) ensures Attempted(t.attempts, e, r) {
        var m :| Belongs(s.attempts, m, e, r);
        assert Belongs(t.attempts, m, e, r);
      }
    }
  }

  lemma RowChangeValid(s: Db, t: Db, id: AttemptId)
    requires Valid(s) && RowChange(s, t, id) && t.executions == s.executions
    requires RowOk(t, id)
    requires forall i :: |s.evidence| <= i < |t.evidence| ==> EvidenceOk(t.packages, t.attempts, t.evidence[i], i)
    requires OpensAlone(s.attempts, id, t.attempts[id])
    requires !IsClosed(s, t.attempts[id].execution)
    ensures Valid(t)
  {
    RowChangeRowsOk(s, t, id);
    RowChangeEvidenceOk(s, t, id);
    RowChangeOneOpen(s, t, id);
    RowChangeClosed(s, t, id);
  }

  lemma TouchedRowEvolves(s: Db, t: Db, id: AttemptId)
    requires RowChange(s, t, id) && t.executions == s.executions
    ensures Evolves(s, Touch(t, t.attempts[id].execution))
  {
    var u := Touch(t, t.attempts[id].execution);
    assert RowChange(s, u, id);
    RowChangeEvolves(s, u, id);
  }

  /** A transaction that changes one row and touches that row's open execution. */
  lemma TouchedRowKeeps(s: Db, t: Db, id: AttemptId)
    requires Valid(s) && RowChange(s, t, id) && t.executions == s.executions
    requires RowOk(t, id)
    requires forall i :: |s.evidence| <= i < |t.evidence| ==> EvidenceOk(t.packages, t.attempts, t.evidence[i], i)
    requires OpensAlone(s.attempts, id, t.attempts[id])
    requires !IsClosed(s, t.attempts[id].execution)
    ensures var u := Touch(t, t.attempts[id].execution); Valid(u) && Evolves(s, u)
  {
    RowChangeValid(s, t, id);
    ExecutionsChangeValid(t, Touch(t, t.attempts[id].execution));
    TouchedRowEvolves(s, t, id);
  }

  // ---- the transactions ----

  lemma StartKeeps(db: Db, e: ExecutionId, id: AttemptId, ref: Ref, actor: Actor, created: Time)
    requires Valid(db)
    ensures var t := StartExecutionAttempt(db, e, id, ref, actor, created).0;
            Valid(t) && Evolves(db, t)
  {
    hide Valid, Evolves;
    var (t, reply) := StartExecutionAttempt(db, e, id, ref, actor, created);
    if t != db {
      TouchedRowKeeps(db, db.(attempts := db.attempts[id := reply.value.attempt]), id);
    } else {
      EvolvesReflexive(db);
    }
  }

  lemma CreateKeeps(db: Db, id: AttemptId, pkg: PackageId, ref: Ref, actor: Actor, created: Time, data: DraftData)
    requires Valid(db)
    ensures var t := CreateAttempt(db, id, pkg, ref, actor, created, data).0;
            Valid(t) && Evolves(db, t)
  {
    hide Valid, Evolves;
    var (t, reply) := CreateAttempt(db, id, pkg, ref, actor, created, data);
    if t != db {
      TouchedRowKeeps(db, t, id);
    } else {
      EvolvesReflexive(db);
    }
  }

  lemma SaveKeeps(db: Db, id: AttemptId, actor: Actor, revision: nat, op: OperationId, data: DraftData, attached: bool)
    requires Valid(db)
    ensures var t := SaveAttempt(db, id, actor, revision, op, data, attached).0;
            Valid(t) && Evolves(db, t)
  {
    hide Evolves, EvidenceValid, OneOpen, ClosedValid, PackagesOk;
    var (t, reply) := SaveAttempt(db, id, actor, revision, op, data, attached);
    if t != db {
      assert RowOk(db, id);
      TouchedRowKeeps(db, db.(attempts := db.attempts[id := reply.value.attempt]), id);
    } else {
      EvolvesReflexive(db);
    }
  }

  /** Sealing a row: the new record describes it and its PASS, if any, is earned. */
  lemma SealOk(db: Db, t: Db, id: AttemptId, a: Attempt, s: Scenario, finished: Time, at: Time, actor: Actor,
               closure: Option<Closure>)
    requires FinalizeTx(db, id, a, s, finished, at, actor, closure) == Ok(t)
    requires a.revision >= 1 && a.finalization.None? && a.data.answers.Some?
    requires PackageScenario(db.packages, a.package, a.ref) == Some(s)
    requires a.execution.Some? ==>
               a.execution.value in db.executions && db.executions[a.execution.value].package == a.package
    requires closure.Some? ==> a.data.result == Skipped
    requires HonestPass(s.procedure, a.data.result, a.data.answers.value)
    ensures id in t.attempts && RowOk(t, id)
    ensures |t.evidence| == |db.evidence| + 1
    ensures EvidenceOk(t.packages, t.attempts, t.evidence[|db.evidence|], |db.evidence|)
    ensures t.evidence[|db.evidence|].closure == closure
    ensures t.attempts[id].data == a.data && t.attempts[id].finalization.value.revision == a.revision
    ensures t.attempts[id].finalization.value.evidence == |db.evidence|
  {
    assert Records(t.evidence[|db.evidence|], id, t.attempts[id]);
  }

  lemma SealKeeps(db: Db, id: AttemptId, s: Scenario, finished: Time, at: Time, actor: Actor, t: Db)
    requires Valid(db) && id in db.attempts && !IsClosed(db, db.attempts[id].execution)
    requires db.attempts[id].finalization.None? && db.attempts[id].data.answers.Some?
    requires PackageScenario(db.packages, db.attempts[id].package, db.attempts[id].ref) == Some(s)
    requires HonestPass(s.procedure, db.attempts[id].data.result, db.attempts[id].data.answers.value)
    requires FinalizeTx(db, id, db.attempts[id], s, finished, at, actor, None) == Ok(t)
    ensures var u := Touch(t, db.attempts[id].execution); Valid(u) && Evolves(db, u)
  {
    assert RowOk(db, id);
    SealOk(db, t, id, db.attempts[id], s, finished, at, actor, None);
    TouchedRowKeeps(db, t, id);
  }

  lemma FinalizeKeeps(db: Db, id: AttemptId, actor: Actor, revision: nat, finished: Time, at: Time)
    requires Valid(db)
    ensures var t := FinalizeAttempt(db, id, actor, revision, finished, at).0;
            Valid(t) && Evolves(db, t)
  {
    if FinalizeAttempt(db, id, actor, revision, finished, at).0 != db {
      var a := db.attempts[id];
      var s := PackageScenario(db.packages, a.package, a.ref).value;
      FinalizableIsHonest(s.procedure, a.data);
      SealKeeps(db, id, s, finished, at, actor, FinalizeTx(db, id, a, s, finished, at, actor, None).value);
    }
  }

  // ---- closing ----

  /** How closing disposes of an unfinished row: outcomes are added for unanswered checks, the
      result becomes SKIPPED, the notes gain a sentence; every other answer and field stays. */
  ghost predicate Disposed(p: Procedure, a: Attempt, b: Attempt, now: Time) {
    && a.finalization.None? && b.finalization.Some? && b.revision == a.revision + 1
    && b.finalization.value.revision == a.revision && b.finalization.value.finished == now
    && b.data.result == Skipped
    && a.data.notes <= b.data.notes && |a.data.notes| < |b.data.notes|
    && b.data.answers.Some?
    && (a.data.answers.Some? ==>
          forall k :: k in a.data.answers.value ==>
            k in b.data.answers.value && b.data.answers.value[k] == a.data.answers.value[k])
    && (forall k :: k in b.data.answers.value && AnswerAt(a.data, k).None? ==>
          b.data.answers.value[k].CheckAnswer? && b.data.answers.value[k].outcome == NotExecuted
          && exists i :: 0 <= i < |p| && p[i].Control? && p[i].decl == Check(k))
    && b.data == a.data.(result := Skipped, notes := b.data.notes, answers := b.data.answers)
  }

  ghost predicate Undisturbed(s: Db, t: Db, id: AttemptId, now: Time)
    requires id in s.attempts
  {
    id in t.attempts &&
    (t.attempts[id] == s.attempts[id] ||
     (PackageScenario(s.packages, s.attempts[id].package, s.attempts[id].ref).Some? &&
      Disposed(PackageScenario(s.packages, s.attempts[id].package, s.attempts[id].ref).value.procedure,
               s.attempts[id], t.attempts[id], now)))
  }

  /** What the closing loop may do to the rest of the database while it runs. */
  ghost predicate CloseProgress(s: Db, t: Db, e: ExecutionId, now: Time) {
    && s.packages == t.packages && s.executions == t.executions && s.evidence <= t.evidence
    && AttemptsEvolve(s, t)
    && (forall id :: id in t.attempts && t.attempts[id].execution != Some(e) ==>
          id in s.attempts && t.attempts[id] == s.attempts[id])
    && (forall id :: id in s.attempts ==> Undisturbed(s, t, id, now))
    && (forall id, r :: OpenIn(t.attempts, id, e, r) ==> OpenIn(s.attempts, id, e, r))
    && (forall r :: Attempted(s.attempts, e, r) ==> Attempted(t.attempts, e, r))
  }

  lemma SealProgress(s: Db, t: Db, id: AttemptId, e: ExecutionId, now: Time)
    requires RowChange(s, t, id) && t.executions == s.executions
    requires t.attempts[id].execution == Some(e) && t.attempts[id].finalization.Some?
    requires id in s.attempts ==> Undisturbed(s, t, id, now)
    ensures CloseProgress(s, t, e, now)
    ensures forall r :: !OpenIn(t.attempts, id, e, r)
  {
    forall r | Attempted(s.attempts, e, r) ensures Attempted(t.attempts, e, r) {
      var k :| Belongs(s.attempts, k, e, r);
      assert Belongs(t.attempts, k, e, r);
    }
  }

  /** Skipping a row keeps the invariant and seals it. */
  lemma SkipRowKeeps(db: Db, t: Db, id: AttemptId, a: Attempt, e: ExecutionId, s: Scenario, actor: Actor, now: Time)
    requires Valid(db) && e in db.executions && db.executions[e].closed.None?
    requires PackageScenario(db.packages, db.executions[e].package, s.ref) == Some(s)
    requires a.revision >= 1 && a.finalization.None? && a.execution == Some(e) && a.ref == s.ref
    requires a.package == db.executions[e].package
    requires id in db.attempts ==> db.attempts[id] == a
    requires SkipRow(db, id, a, db.executions[e], s, actor, now) == Ok(t)
    ensures Valid(t) && RowChange(db, t, id) && t.executions == db.executions
    ensures t.attempts[id].execution == Some(e) && t.attempts[id].ref == s.ref && t.attempts[id].finalization.Some?
  {
    var b := a.(data := ClosedDraft(s.procedure, a.data), updatedBy := Some(actor));
    SealOk(db, t, id, b, s, now, now, actor, Some(Closure(actor, now, db.executions[e].revision + 1)));
    RowChangeValid(db, t, id);
  }

  lemma SkipRowDisposes(db: Db, t: Db, id: AttemptId, a: Attempt, x: Execution, s: Scenario, actor: Actor, now: Time)
    requires a.finalization.None?
    requires SkipRow(db, id, a, x, s, actor, now) == Ok(t)
    ensures id in t.attempts && Disposed(s.procedure, a, t.attempts[id], now)
  {
    hide ValidDraft, ValidEvidence;
  }

  /** The loop turn for one scenario: sound, and afterwards that procedure is attempted and not open. */
  lemma CloseOneKeeps(db: Db, e: ExecutionId, s: Scenario, actor: Actor, now: Time, newId: AttemptId, t: Db)
    requires Valid(db) && e in db.executions && db.executions[e].closed.None?
    requires PackageScenario(db.packages, db.executions[e].package, s.ref) == Some(s)
    requires CloseOne(db, e, db.executions[e], s, actor, now, newId) == Ok(t)
    ensures Valid(t) && CloseProgress(db, t, e, now)
    ensures Attempted(t.attempts, e, s.ref) && forall id :: !OpenIn(t.attempts, id, e, s.ref)
  {
    var open := OpenAttempt(db.attempts, e, s.ref);
    if open.Some? || !Attempted(db.attempts, e, s.ref) {
      var id := if open.Some? then open.value else newId;
      var a := if open.Some? then db.attempts[id] else SkipAttempt(db.executions[e], e, s, actor, now);
      if open.Some? { assert RowOk(db, id); }
      SkipRowKeeps(db, t, id, a, e, s, actor, now);
      SkipRowDisposes(db, t, id, a, db.executions[e], s, actor, now);
      SealProgress(db, t, id, e, now);
      assert Belongs(t.attempts, id, e, s.ref);
    }
  }

  lemma CloseProgressTransitive(s: Db, t: Db, u: Db, e: ExecutionId, now: Time)
    requires CloseProgress(s, t, e, now) && CloseProgress(t, u, e, now)
    ensures CloseProgress(s, u, e, now)
  {
    forall id | id in s.attempts
      ensures Undisturbed(s, u, id, now) && RowEvolves(u.evidence, s.attempts[id], u.attempts[id])
    {
      RowEvolvesTransitive(t.evidence, u.evidence, s.attempts[id], t.attempts[id], u.attempts[id]);
      assert Undisturbed(s, t, id, now);
      assert Undisturbed(t, u, id, now);
    }
  }

  lemma {:induction false} CloseUnfinishedKeeps(db: Db, e: ExecutionId, todo: seq<Scenario>, actor: Actor, now: Time,
                                                ids: seq<AttemptId>, t: Db)
    requires Valid(db) && e in db.executions && db.executions[e].closed.None?
    requires forall s :: s in todo ==> PackageScenario(db.packages, db.executions[e].package, s.ref) == Some(s)
    requires |ids| == |todo|
    requires CloseUnfinished(db, e, db.executions[e], todo, actor, now, ids) == Ok(t)
    ensures Valid(t) && CloseProgress(db, t, e, now)
    ensures forall s :: s in todo ==> Attempted(t.attempts, e, s.ref) && forall id :: !OpenIn(t.attempts, id, e, s.ref)
    decreases |todo|
  {
    hide Valid, CloseOne;
    if todo != [] {
      var d := CloseOne(db, e, db.executions[e], todo[0], actor, now, ids[0]).value;
      CloseOneKeeps(db, e, todo[0], actor, now, ids[0], d);
      CloseUnfinishedKeeps(d, e, todo[1..], actor, now, ids[1..], t);
      CloseProgressTransitive(db, d, t, e, now);
      forall s | s in todo
        ensures Attempted(t.attempts, e, s.ref) && forall id :: !OpenIn(t.attempts, id, e, s.ref)
      {
        if s != todo[0] {
          assert s in todo[1..];
        }
      }
    }
  }

  lemma {:induction false} ScenarioOfUnique(scenarios: seq<Scenario>, s: Scenario)
    requires s in scenarios
    requires forall i, j :: 0 <= i < j < |scenarios| ==> scenarios[i].ref != scenarios[j].ref
    ensures ScenarioOf(scenarios, s.ref) == Some(s)
  {
    if scenarios[0] != s {
      assert s in scenarios[1..];
      ScenarioOfUnique(scenarios[1..], s);
    }
  }

  /** After the loop no attempt of the execution is unfinished and every procedure has one. */
  lemma ClosedNow(t: Db, e: ExecutionId)
    requires RowsValid(t) && e in t.executions && t.executions[e].package in t.packages
    requires forall s :: s in t.packages[t.executions[e].package].scenarios ==>
               Attempted(t.attempts, e, s.ref) && forall id :: !OpenIn(t.attempts, id, e, s.ref)
    ensures Complete(t.packages, t.attempts, e, t.executions[e].package)
  {
    forall id | id in t.attempts && t.attempts[id].execution == Some(e)
      ensures t.attempts[id].finalization.Some?
    {
      assert RowOk(t, id);
      assert PackageScenario(t.packages, t.attempts[id].package, t.attempts[id].ref).value
             in t.packages[t.executions[e].package].scenarios;
      assert !OpenIn(t.attempts, id, e, t.attempts[id].ref);
    }
  }

  lemma ToggleEvolves(s: Db, t: Db, e: ExecutionId, closed: Option<Closing>, now: Time)
    requires CloseProgress(s, t, e, now) && e in s.executions
    ensures Evolves(s, Toggle(t, e, closed))
  {
    var u := Toggle(t, e, closed);
    forall x | x in s.executions ensures ExecutionEvolves(s, u, x) {
    }
  }

  lemma CloseLoopComplete(db: Db, e: ExecutionId, actor: Actor, now: Time, ids: seq<AttemptId>, t: Db)
    requires Valid(db) && e in db.executions && db.executions[e].closed.None?
    requires db.executions[e].package in db.packages && |ids| == |db.packages[db.executions[e].package].scenarios|
    requires CloseUnfinished(db, e, db.executions[e],
                             db.packages[db.executions[e].package].scenarios, actor, now, ids) ==
             Ok(t)
    ensures Valid(t) && CloseProgress(db, t, e, now)
    ensures Valid(Toggle(t, e, Some(Closing(now, actor))))
  {
    var scenarios := db.packages[db.executions[e].package].scenarios;
    forall s | s in scenarios ensures PackageScenario(db.packages, db.executions[e].package, s.ref) == Some(s) {
      ScenarioOfUnique(scenarios, s);
    }
    CloseUnfinishedKeeps(db, e, scenarios, actor, now, ids, t);
    ClosedNow(t, e);
    ExecutionsChangeValid(t, Toggle(t, e, Some(Closing(now, actor))));
  }

  lemma SetClosedKeeps(db: Db, e: ExecutionId, revision: nat, closed: bool, actor: Actor, now: Time,
                       ids: seq<AttemptId>)
    requires Valid(db)
    ensures var t := SetExecutionClosed(db, e, revision, closed, actor, now, ids).0;
            Valid(t) && Evolves(db, t)
  {
    hide Evolves, EvidenceValid, OneOpen, RowsValid, PackagesOk, CloseUnfinished;
    EvolvesReflexive(db);
    var (u, reply) := SetExecutionClosed(db, e, revision, closed, actor, now, ids);
    if reply.Ok? {
      if closed {
        var t := CloseUnfinished(db, e, db.executions[e],
                                 db.packages[db.executions[e].package].scenarios, actor, now, ids).value;
        CloseLoopComplete(db, e, actor, now, ids, t);
        ToggleEvolves(db, t, e, Some(Closing(now, actor)), now);
      } else {
        ExecutionsChangeValid(db, Toggle(db, e, None));
        assert forall id :: id in db.attempts ==> Undisturbed(db, db, id, now);
        ToggleEvolves(db, db, e, None, now);
      }
    }
  }

  // ---- runs ----

  datatype Request =
    | Execute(e: ExecutionId, package: PackageId, repo: string, branch: string, rcsRef: string)
    | Start(e: ExecutionId, id: AttemptId, ref: Ref, actor: Actor, created: Time)
    | Create(id: AttemptId, package: PackageId, ref: Ref, actor: Actor, created: Time, data: DraftData)
    | Save(id: AttemptId, actor: Actor, revision: nat, op: OperationId, data: DraftData, attached: bool)
    | Finalize(id: AttemptId, actor: Actor, revision: nat, finished: Time, at: Time)
    | SetClosed(e: ExecutionId, revision: nat, closed: bool, actor: Actor, now: Time, ids: seq<AttemptId>)

  /** CreateExecution: the first request for an id decides the row, a repeat changes nothing. */
  function CreateExecution(db: Db, e: ExecutionId, pkg: PackageId, repo: string, branch: string, rcsRef: string): Db {
    if pkg !in db.packages || GoBlank(repo) || GoBlank(branch) || GoBlank(rcsRef) || e in db.executions then db
    else db.(executions := db.executions[e := Execution(pkg, repo, branch, rcsRef, 1, None)])
  }

  ghost function Apply(db: Db, q: Request): Db {
    match q
    case Execute(e, pkg, repo, branch, rcsRef) => CreateExecution(db, e, pkg, repo, branch, rcsRef)
    case Start(e, id, ref, actor, created) => StartExecutionAttempt(db, e, id, ref, actor, created).0
    case Create(id, pkg, ref, actor, created, data) => CreateAttempt(db, id, pkg, ref, actor, created, data).0
    case Save(id, actor, revision, op, data, attached) => SaveRequest(db, id, actor, revision, op, data, attached).0
    case Finalize(id, actor, revision, finished, at) => FinalizeAttempt(db, id, actor, revision, finished, at).0
    case SetClosed(e, revision, closed, actor, now, ids) =>
      SetExecutionClosed(db, e, revision, closed, actor, now, ids).0
  }

  lemma CreateExecutionKeeps(db: Db, e: ExecutionId, pkg: PackageId, repo: string, branch: string, rcsRef: string)
    requires Valid(db)
    ensures var t := CreateExecution(db, e, pkg, repo, branch, rcsRef); Valid(t) && Evolves(db, t)
  {
    ExecutionsChangeValid(db, CreateExecution(db, e, pkg, repo, branch, rcsRef));
  }

  lemma SaveRequestKeeps(db: Db, id: AttemptId, actor: Actor, revision: nat, op: OperationId, data: DraftData,
                         attached: bool)
    requires Valid(db)
    ensures var t := SaveRequest(db, id, actor, revision, op, data, attached).0; Valid(t) && Evolves(db, t)
  {
    hide Valid, Evolves, SaveAttempt, ValidDraft;
    EvolvesReflexive(db);
    if id in db.attempts {
      SaveKeeps(db, id, actor, revision, op, Attributed(db.attempts[id], actor, data), attached);
    }
  }

  /** Every request keeps the invariant and only grows the database. */
  lemma ApplyKeeps(db: Db, q: Request)
    requires Valid(db)
    ensures Valid(Apply(db, q)) && Evolves(db, Apply(db, q))
  {
    match q
    case Execute(e, pkg, repo, branch, rcsRef) => CreateExecutionKeeps(db, e, pkg, repo, branch, rcsRef);
    case Start(e, id, ref, actor, created) => StartKeeps(db, e, id, ref, actor, created);
    case Create(id, pkg, ref, actor, created, data) => CreateKeeps(db, id, pkg, ref, actor, created, data);
    case Save(id, actor, revision, op, data, attached) => SaveRequestKeeps(db, id, actor, revision, op, data, attached);
    case Finalize(id, actor, revision, finished, at) => FinalizeKeeps(db, id, actor, revision, finished, at);
    case SetClosed(e, revision, closed, actor, now, ids) => SetClosedKeeps(db, e, revision, closed, actor, now, ids);
  }

  ghost predicate Initial(db: Db) {
    PackagesOk(db.packages) && db.executions == map[] && db.attempts == map[] && db.evidence == []
  }

  /** The states a server goes through when it serves these requests in this order. */
  ghost function Serve(db: Db, qs: seq<Request>): Db {
    if qs == [] then db else Apply(Serve(db, qs[..|qs| - 1]), qs[|qs| - 1])
  }

  lemma {:induction false} EveryRunValid(db: Db, qs: seq<Request>)
    requires Valid(db)
    ensures Valid(Serve(db, qs))
  {
    if qs != [] {
      EveryRunValid(db, qs[..|qs| - 1]);
      ApplyKeeps(Serve(db, qs[..|qs| - 1]), qs[|qs| - 1]);
    }
  }

  lemma {:induction false} EveryRunEvolves(db: Db, qs: seq<Request>, n: nat)
    requires Valid(db) && n <= |qs|
    ensures Evolves(Serve(db, qs[..n]), Serve(db, qs))
    decreases |qs|
  {
    if n == |qs| {
      assert qs[..n] == qs;
    } else {
      var front := qs[..|qs| - 1];
      EveryRunEvolves(db, front, n);
      assert front[..n] == qs[..n];
      EveryRunValid(db, front);
      ApplyKeeps(Serve(db, front), qs[|qs| - 1]);
      EvolvesTransitive(Serve(db, qs[..n]), Serve(db, front), Serve(db, qs));
    }
  }
}
