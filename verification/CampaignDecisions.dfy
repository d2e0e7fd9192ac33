/** When each campaign request is accepted, and what exactly it then changes: both directions, on every state. */
module CampaignDecisions {
  import opened Base
  import opened Procedures
  import opened Drafts
  import opened CampaignServer
  import opened CampaignInvariants

  /** Nothing but the revision of the given execution differs outside the attempts and the evidence. */
  ghost predicate OnlyTouched(s: Db, t: Db, e: Option<ExecutionId>) {
    && t.packages == s.packages && t.executions.Keys == s.executions.Keys
    && (forall k :: k in s.executions && e != Some(k) ==> t.executions[k] == s.executions[k])
    && (e.Some? && e.value in s.executions ==>
          var x, y := s.executions[e.value], t.executions[e.value];
          && y.revision == x.revision + 1 && y.closed == x.closed && y.package == x.package
          && y.repo == x.repo && y.branch == x.branch && y.rcsRef == x.rcsRef)
  }

  lemma TouchTouchesOnly(s: Db, d: Db, e: Option<ExecutionId>)
    requires d.packages == s.packages && d.executions == s.executions
    ensures OnlyTouched(s, Touch(d, e), e)
    ensures Touch(d, e).attempts == d.attempts && Touch(d, e).evidence == d.evidence
  {}

  /** Every row but one is as it was. */
  ghost predicate OneRow(s: Attempts, t: Attempts, id: AttemptId) {
    t.Keys == s.Keys + {id} && forall k :: k in s && k != id ==> t[k] == s[k]
  }

  // ---- starting ----

  ghost predicate InPackage(db: Db, pkg: PackageId, ref: Ref) {
    pkg in db.packages && exists i :: 0 <= i < |db.packages[pkg].scenarios| && db.packages[pkg].scenarios[i].ref == ref
  }

  lemma InPackageIsScenario(db: Db, pkg: PackageId, ref: Ref)
    ensures InPackage(db, pkg, ref) <==> PackageScenario(db.packages, pkg, ref).Some?
  {}

  /** The draft of an untouched attempt: the execution's context, the actor as source, the fields' defaults as
      answers. */
  ghost predicate FreshDraft(d: DraftData, x: Execution, p: Procedure, actor: Actor) {
    && d.repo == x.repo && d.branch == x.branch && d.rcsRef == x.rcsRef && d.source == actor
    && d.notes == "" && d.result == NoVerdict && d.finished == Unset
    && d.answers == Some(InitialAnswers(p))
  }

  /** The row a start writes. */
  ghost predicate StartedRow(a: Attempt, x: Execution, e: ExecutionId, s: Scenario, actor: Actor, created: Time) {
    && a.package == x.package && a.execution == Some(e) && a.ref == s.ref && a.owner == actor && a.created == created
    && a.revision == 1 && a.lastOperation.None? && a.finalization.None? && a.updatedBy == Some(actor)
    && FreshDraft(a.data, x, s.procedure, actor)
    && a.data.evidenceType == s.defaults.evidenceType && a.data.metadata == s.defaults.metadata
  }

  /** A start writes a row if and only if the execution is there and open, the id is new, the package has the procedure
      and nobody has an unfinished attempt of it. */
  lemma StartDecides(db: Db, e: ExecutionId, id: AttemptId, ref: Ref, actor: Actor, created: Time)
    ensures var t := StartExecutionAttempt(db, e, id, ref, actor, created).0;
            t != db <==> && e in db.executions && db.executions[e].closed.None? && id !in db.attempts
                         && InPackage(db, db.executions[e].package, ref) && forall k :: !OpenIn(db.attempts, k, e, ref)
  {
    if e in db.executions { InPackageIsScenario(db, db.executions[e].package, ref); }
    var t := StartExecutionAttempt(db, e, id, ref, actor, created).0;
    assert t != db ==> id in t.attempts && id !in db.attempts;
    hide StartDraft, PackageScenario;
  }

  /** What it then writes: this one row, and one more for the execution's revision. */
  lemma StartWrites(db: Db, e: ExecutionId, id: AttemptId, ref: Ref, actor: Actor, created: Time)
    requires StartExecutionAttempt(db, e, id, ref, actor, created).0 != db
    ensures var (t, reply) := StartExecutionAttempt(db, e, id, ref, actor, created);
            && e in db.executions && OnlyTouched(db, t, Some(e)) && t.evidence == db.evidence
            && id !in db.attempts && OneRow(db.attempts, t.attempts, id) && reply == Ok(Row(id, t.attempts[id]))
            && PackageScenario(db.packages, db.executions[e].package, ref).Some?
            && StartedRow(t.attempts[id], db.executions[e], e,
                          PackageScenario(db.packages, db.executions[e].package, ref).value, actor, created)
  {
    var x := db.executions[e];
    var s := PackageScenario(db.packages, x.package, ref).value;
    var a := NewAttempt(x.package, Some(e), ref, actor, created, StartDraft(x, s, actor), Some(actor));
    TouchTouchesOnly(db, db.(attempts := db.attempts[id := a]), Some(e));
    hide OnlyTouched, PackageScenario, InitialAnswers;
  }

  /** What it answers otherwise: the same attempt again, a colleague's unfinished one, or a refusal. */
  lemma StartAnswers(db: Db, e: ExecutionId, id: AttemptId, ref: Ref, actor: Actor, created: Time)
    requires StartExecutionAttempt(db, e, id, ref, actor, created).0 == db
    ensures var reply := StartExecutionAttempt(db, e, id, ref, actor, created).1;
            if e !in db.executions then reply == Refused(NoRow)
            else if id in db.attempts then
              reply == if Belongs(db.attempts, id, e, ref) then Ok(Row(id, db.attempts[id]))
                       else Refused(AttemptConflict)
            else if db.executions[e].closed.Some? then reply == Refused(CampaignConflict)
            else if exists k :: OpenIn(db.attempts, k, e, ref) then
              reply.Ok? && OpenIn(db.attempts, reply.value.id, e, ref) &&
              reply.value.attempt == db.attempts[reply.value.id]
            else reply == Refused(Invalid)
  {
    hide StartDraft, PackageScenario;
    assert id !in db.attempts ==>
        StartExecutionAttempt(db, e, id, ref, actor, created).1.Ok? ==> exists k :: OpenIn(db.attempts, k, e, ref);
  }

  /** A private attempt is written if and only if the id is new and the package has the procedure; then exactly so. */
  lemma CreateDecides(db: Db, id: AttemptId, pkg: PackageId, ref: Ref, actor: Actor, created: Time, data: DraftData)
    ensures var (t, reply) := CreateAttempt(db, id, pkg, ref, actor, created, data);
            && (t != db <==> id !in db.attempts && InPackage(db, pkg, ref))
            && (t != db ==>
                  && OnlyTouched(db, t, None) && t.evidence == db.evidence && OneRow(db.attempts, t.attempts, id)
                  && reply == Ok(Row(id, t.attempts[id]))
                  && var a := t.attempts[id];
                     && a.package == pkg && a.execution.None? && a.ref == ref && a.owner == actor
                     && a.created == created && a.revision == 1 && a.data == data
                     && a.lastOperation.None? && a.finalization.None?)
            && (t == db && reply.Ok? ==>
                  id in db.attempts && reply.value == Row(id, db.attempts[id]) && db.attempts[id].owner == actor &&
                  db.attempts[id].package == pkg && db.attempts[id].ref == ref && db.attempts[id].execution.None?)
  {
    InPackageIsScenario(db, pkg, ref);
    var t := CreateAttempt(db, id, pkg, ref, actor, created, data).0;
    assert t != db ==> id in t.attempts;
    hide PackageScenario;
  }

  /** An execution is written if and only if its id is new, its package exists and its context is given. */
  lemma ExecutionDecides(db: Db, e: ExecutionId, pkg: PackageId, repo: string, branch: string, rcsRef: string)
    ensures var t := CreateExecution(db, e, pkg, repo, branch, rcsRef);
            && (t != db <==> e !in db.executions && pkg in db.packages && !GoBlank(repo) && !GoBlank(branch) &&
                             !GoBlank(rcsRef))
            && t.packages == db.packages && t.attempts == db.attempts && t.evidence == db.evidence
            && (forall k :: k in db.executions ==> k in t.executions && t.executions[k] == db.executions[k])
            && (t != db ==>
                  && t.executions.Keys == db.executions.Keys + {e}
                  && var x := t.executions[e];
                     x.package == pkg && x.repo == repo && x.branch == branch && x.rcsRef == rcsRef && x.closed.None? &&
                     x.revision == 1)
  {
    var t := CreateExecution(db, e, pkg, repo, branch, rcsRef);
    assert t != db ==> e in t.executions && e !in db.executions;
    hide GoBlank;
  }

  // ---- saving ----

  /** What an accepted save writes: the data, its operation and base, the editor, one revision more; nothing else. */
  lemma SaveWrites(db: Db, id: AttemptId, actor: Actor, revision: nat, op: OperationId, data: DraftData, attached: bool)
    requires SaveAttempt(db, id, actor, revision, op, data, attached).0 != db
    ensures var (t, reply) := SaveAttempt(db, id, actor, revision, op, data, attached);
            && id in db.attempts && OnlyTouched(db, t, db.attempts[id].execution) && t.evidence == db.evidence
            && OneRow(db.attempts, t.attempts, id) && reply == Ok(Row(id, t.attempts[id]))
            && var a, b := db.attempts[id], t.attempts[id];
               && b.data == data && b.revision == a.revision + 1 && b.lastOperation == Some(op)
               && b.lastBase == a.revision && b.updatedBy == Some(actor)
               && b.package == a.package && b.execution == a.execution && b.ref == a.ref && b.owner == a.owner
               && b.created == a.created && b.finalization == a.finalization
  {
    var a := db.attempts[id];
    TouchTouchesOnly(db, db.(attempts := db.attempts[id := Accepted(a, actor, op, data)]), a.execution);
    hide OnlyTouched;
  }

  /** The save of `data` can be answered with success: it is the one the row saw last, or it fits the row as it is. */
  ghost predicate SaveFits(db: Db, id: AttemptId, actor: Actor, revision: nat, op: OperationId, data: DraftData,
                           attached: bool) {
    && id in db.attempts && MayEdit(db.attempts[id], actor) && db.attempts[id].finalization.None?
    && !IsClosed(db, db.attempts[id].execution) && revision >= 1
    && (var s := PackageScenario(db.packages, db.attempts[id].package, db.attempts[id].ref);
        s.Some? && ValidDraft(s.value.procedure, data))
    && var a := db.attempts[id];
       if a.lastOperation == Some(op) then a.lastBase == revision && a.data == Attributed(a, actor, data)
       else a.revision == revision && attached
  }

  /** A save request is answered with success exactly then; a refusal changes nothing. */
  lemma SaveOkIff(db: Db, id: AttemptId, actor: Actor, revision: nat, op: OperationId, data: DraftData, attached: bool)
    ensures var (t, reply) := SaveRequest(db, id, actor, revision, op, data, attached);
            && (reply.Ok? <==> SaveFits(db, id, actor, revision, op, data, attached))
            && (reply.Refused? ==> t == db)
            && (reply.Ok? && db.attempts[id].lastOperation == Some(op) ==> t == db)
  {
    hide ValidDraft, PackageScenario;
  }

  // ---- finalizing ----

  function EffectiveType(a: Attempt, s: Scenario): string {
    if a.data.evidenceType != "" then a.data.evidenceType else s.defaults.evidenceType
  }

  function EffectiveSource(a: Attempt): string {
    if a.data.source != "" then a.data.source else a.owner
  }

  /** Beyond being finalizable, a draft can be filed if its type and source, or those standing in for them, are
      valid. */
  predicate Fileable(a: Attempt, s: Scenario) {
    a.ref != "" && ValidEvidenceType(EffectiveType(a, s)) && EffectiveSource(a) != ""
  }

  lemma FinalizableFiles(a: Attempt, s: Scenario, id: AttemptId, finished: Time)
    requires Finalizable(s.procedure, a.data) && finished != 0
    ensures ValidEvidence(AttemptEvidence(id, a, s, finished, None)) <==> Fileable(a, s)
  {
    assert GoBlank("");
    assert !a.data.result.OtherVerdict?;
  }

  ghost predicate MayFinalize(db: Db, id: AttemptId, actor: Actor, revision: nat, finished: Time) {
    && id in db.attempts && MayEdit(db.attempts[id], actor) && db.attempts[id].finalization.None?
    && db.attempts[id].revision == revision && !IsClosed(db, db.attempts[id].execution) && finished != 0
    && var s := PackageScenario(db.packages, db.attempts[id].package, db.attempts[id].ref);
       s.Some? && Finalizable(s.value.procedure, db.attempts[id].data) && Fileable(db.attempts[id], s.value)
  }

  /** A finalization changes the tables if and only if the actor may edit, the attempt is open at that revision, its
      execution is open, the finish time is set, the draft is finalizable, and its type and source are valid. */
  lemma FinalizeAcceptedIff(db: Db, id: AttemptId, actor: Actor, revision: nat, finished: Time, at: Time)
    ensures FinalizeAttempt(db, id, actor, revision, finished, at).0 != db <==>
            MayFinalize(db, id, actor, revision, finished)
  {
    var t := FinalizeAttempt(db, id, actor, revision, finished, at).0;
    if id in db.attempts {
      var s := PackageScenario(db.packages, db.attempts[id].package, db.attempts[id].ref);
      if s.Some? && finished != 0 && Finalizable(s.value.procedure, db.attempts[id].data) {
        FinalizableFiles(db.attempts[id], s.value, id, finished);
      }
    }
    hide Finalizable, ValidEvidence, PackageScenario, Fileable;
    assert t != db ==> |t.evidence| == |db.evidence| + 1;
  }

  /** The record of an attempt: its own context, result, notes and answers; type, source and metadata its own where it
      has them and otherwise the scenario's, the owner and the scenario's. */
  ghost predicate RecordFor(v: Evidence, id: AttemptId, a: Attempt, s: Scenario, finished: Time,
                            closure: Option<Closure>) {
    && v.attempt == id && v.ref == a.ref && v.finished == finished && v.closure == closure
    && v.repo == a.data.repo && v.branch == a.data.branch && v.rcsRef == a.data.rcsRef
    && v.result == a.data.result && v.notes == a.data.notes
    && (a.data.answers.Some? ==> v.answers == a.data.answers.value)
    && v.evidenceType == EffectiveType(a, s) && v.source == EffectiveSource(a)
    && v.metadata == if a.data.metadata.Metadata? then a.data.metadata else s.defaults.metadata
  }

  /** What an accepted finalization writes: one record, and the seal on the row, whose data stay. */
  lemma FinalizeWrites(db: Db, id: AttemptId, actor: Actor, revision: nat, finished: Time, at: Time)
    requires MayFinalize(db, id, actor, revision, finished)
    ensures var (t, reply) := FinalizeAttempt(db, id, actor, revision, finished, at);
            && OnlyTouched(db, t, db.attempts[id].execution) && OneRow(db.attempts, t.attempts, id)
            && reply == Ok(Row(id, t.attempts[id]))
            && |t.evidence| == |db.evidence| + 1 && t.evidence[..|db.evidence|] == db.evidence
            && RecordFor(t.evidence[|db.evidence|], id, db.attempts[id],
                         PackageScenario(db.packages, db.attempts[id].package, db.attempts[id].ref).value, finished,
                         None)
            && var a, b := db.attempts[id], t.attempts[id];
               && b.finalization == Some(Finalization(at, finished, a.revision, |db.evidence|, actor))
               && b == a.(finalization := b.finalization, revision := a.revision + 1)
  {
    var a := db.attempts[id];
    var s := PackageScenario(db.packages, a.package, a.ref).value;
    FinalizableFiles(a, s, id, finished);
    var d := FinalizeTx(db, id, a, s, finished, at, actor, None).value;
    TouchTouchesOnly(db, d, a.execution);
    hide Finalizable, ValidEvidence, PackageScenario, OnlyTouched, Fileable;
  }

  /** A finalization that is answered with success either was accepted now or repeats an accepted one. */
  lemma FinalizeOkIff(db: Db, id: AttemptId, actor: Actor, revision: nat, finished: Time, at: Time)
    ensures FinalizeAttempt(db, id, actor, revision, finished, at).1.Ok? <==>
            || MayFinalize(db, id, actor, revision, finished)
            || (id in db.attempts && MayEdit(db.attempts[id], actor) && db.attempts[id].finalization.Some? &&
                db.attempts[id].finalization.value.revision == revision &&
                db.attempts[id].finalization.value.finished == finished)
  {
    FinalizeAcceptedIff(db, id, actor, revision, finished, at);
    if MayFinalize(db, id, actor, revision, finished) { FinalizeWrites(db, id, actor, revision, finished, at); }
    var t := FinalizeAttempt(db, id, actor, revision, finished, at).0;
    hide Finalizable, ValidEvidence, PackageScenario, MayFinalize;
    var ok := FinalizeAttempt(db, id, actor, revision, finished, at).1.Ok?;
    assert id in db.attempts && db.attempts[id].finalization.None? && ok ==> |t.evidence| == |db.evidence| + 1;
  }
}
