/** The store object: each method is one transaction that works on the tables step by step and
    commits, or returns early and leaves them as they were. */
module CampaignStoreObject {
  import opened Base
  import opened Procedures
  import opened Drafts
  import S = CampaignServer
  import opened CampaignServer
  import opened CampaignInvariants
  import opened CampaignTheorems

  class CampaignStore {
    const packages: Packages
    var executions: Executions
    var attempts: Attempts
    var evidence: seq<Evidence>

    ghost function Tables(): Db
      reads this
    {
      Db(packages, executions, attempts, evidence)
    }

    constructor (packages: Packages)
      requires PackagesOk(packages)
      ensures this.packages == packages && Initial(Tables()) && Valid(Tables())
    {
      this.packages := packages;
      executions, attempts, evidence := map[], map[], [];
    }

    method FinalScenario(scenarios: seq<Scenario>, ref: Ref) returns (r: Option<Scenario>)
      ensures r == ScenarioOf(scenarios, ref)
    {
      for i := 0 to |scenarios|
        invariant ScenarioOf(scenarios, ref) == ScenarioOf(scenarios[i..], ref)
      {
        if scenarios[i].ref == ref { return Some(scenarios[i]); }
      }
      return None;
    }

    method FindOpen(rows: Attempts, e: ExecutionId, ref: Ref) returns (r: Option<AttemptId>)
      requires OneOpen(rows)
      ensures r == OpenAttempt(rows, e, ref)
    {
      if exists id :: id in rows && OpenIn(rows, id, e, ref) {
        var id :| id in rows && OpenIn(rows, id, e, ref);
        return Some(id);
      }
      assert forall id :: OpenIn(rows, id, e, ref) ==> id in rows;
      return None;
    }

    method TouchExecution(e: Option<ExecutionId>)
      modifies this`executions
      ensures Tables() == Touch(old(Tables()), e)
    {
      if e.Some? && e.value in executions {
        var x := executions[e.value];
        executions := executions[e.value := x.(revision := x.revision + 1)];
      }
    }

    method CreateExecution(e: ExecutionId, pkg: PackageId, repo: string, branch: string, rcsRef: string)
      requires Valid(Tables())
      modifies this`executions
      ensures Tables() == CampaignInvariants.CreateExecution(old(Tables()), e, pkg, repo, branch, rcsRef)
      ensures Valid(Tables()) && Evolves(old(Tables()), Tables())
    {
      CreateExecutionKeeps(Tables(), e, pkg, repo, branch, rcsRef);
      if pkg in packages && !GoBlank(repo) && !GoBlank(branch) && !GoBlank(rcsRef) && e !in executions {
        executions := executions[e := Execution(pkg, repo, branch, rcsRef, 1, None)];
      }
    }

    method StartExecutionAttempt(e: ExecutionId, id: AttemptId, ref: Ref, actor: Actor, created: Time)
      returns (reply: Reply<Row>)
      requires Valid(Tables())
      modifies this`executions, this`attempts
      ensures (Tables(), reply) == S.StartExecutionAttempt(old(Tables()), e, id, ref, actor, created)
      ensures Valid(Tables()) && Evolves(old(Tables()), Tables())
    {
      StartKeeps(Tables(), e, id, ref, actor, created);
      if e !in executions { return Refused(NoRow); }
      if id in attempts {
        var prior := attempts[id];
        if prior.execution != Some(e) || prior.ref != ref { return Refused(AttemptConflict); }
        return Ok(Row(id, prior));
      }
      var x := executions[e];
      if x.closed.Some? { return Refused(CampaignConflict); }
      var open := FindOpen(attempts, e, ref);
      if open.Some? { return Ok(Row(open.value, attempts[open.value])); }
      if x.package !in packages { return Refused(Invalid); }
      var s := FinalScenario(packages[x.package].scenarios, ref);
      if s.None? { return Refused(Invalid); }
      var a := NewAttempt(x.package, Some(e), ref, actor, created, StartDraft(x, s.value, actor), Some(actor));
      attempts := attempts[id := a];
      TouchExecution(Some(e));
      return Ok(Row(id, a));
    }

    method SaveAttempt(id: AttemptId, actor: Actor, revision: nat, op: OperationId, data: DraftData, attached: bool)
      returns (reply: Reply<Row>)
      requires Valid(Tables())
      modifies this`executions, this`attempts
      ensures (Tables(), reply) == SaveRequest(old(Tables()), id, actor, revision, op, data, attached)
      ensures Valid(Tables()) && Evolves(old(Tables()), Tables())
    {
      hide Valid, Evolves, ValidDraft;
      SaveRequestKeeps(Tables(), id, actor, revision, op, data, attached);
      if id !in attempts { return Refused(NoRow); }
      var a := attempts[id];
      if a.owner != actor && a.execution.None? { return Refused(NoRow); }
      if revision < 1 || a.package !in packages { return Refused(Invalid); }
      var s := FinalScenario(packages[a.package].scenarios, a.ref);
      if s.None? { return Refused(Invalid); }
      var valid := ValidateDraft(s.value.procedure, data);
      if !valid { return Refused(Invalid); }
      var d := if a.execution.Some? then data.(source := actor) else data;
      if a.execution.Some? && a.execution.value in executions && executions[a.execution.value].closed.Some? {
        return Refused(CampaignConflict);
      }
      if a.finalization.Some? { return Refused(AttemptConflict); }
      if a.lastOperation == Some(op) {
        if a.lastBase != revision || a.data != d { return Refused(AttemptConflict); }
        return Ok(Row(id, a));
      }
      if a.revision != revision { return Refused(AttemptConflict); }
      if !attached { return Refused(Invalid); }
      var b := a.(data := d, revision := a.revision + 1, lastOperation := Some(op), lastBase := revision,
                  updatedBy := Some(actor));
      attempts := attempts[id := b];
      TouchExecution(a.execution);
      return Ok(Row(id, b));
    }

    method FinalizeAttempt(id: AttemptId, actor: Actor, revision: nat, finished: Time, at: Time)
      returns (reply: Reply<Row>)
      requires Valid(Tables())
      modifies this`executions, this`attempts, this`evidence
      ensures (Tables(), reply) == S.FinalizeAttempt(old(Tables()), id, actor, revision, finished, at)
      ensures Valid(Tables()) && Evolves(old(Tables()), Tables())
    {
      hide Valid, Evolves, Finalizable, ValidEvidence;
      FinalizeKeeps(Tables(), id, actor, revision, finished, at);
      if id !in attempts { return Refused(NoRow); }
      var a := attempts[id];
      if a.owner != actor && a.execution.None? { return Refused(NoRow); }
      if a.finalization.Some? {
        if a.finalization.value.revision != revision || a.finalization.value.finished != finished {
          return Refused(AttemptConflict);
        }
        return Ok(Row(id, a));
      }
      if a.revision != revision { return Refused(AttemptConflict); }
      if IsClosed(Db(packages, executions, attempts, evidence), a.execution) { return Refused(CampaignConflict); }
      if a.package !in packages { return Refused(NoRow); }
      var s := FinalScenario(packages[a.package].scenarios, a.ref);
      if s.None? { return Refused(NoRow); }
      if finished == 0 { return Refused(Invalid); }
      var ready := ValidateFinalization(s.value.procedure, a.data);
      if !ready { return Refused(Invalid); }
      var v := AttemptEvidence(id, a, s.value, finished, None);
      if !ValidEvidence(v) { return Refused(Invalid); }
      var n := |evidence|;
      evidence := evidence + [v];
      var b := a.(finalization := Some(Finalization(at, finished, a.revision, n, actor)), revision := a.revision + 1);
      attempts := attempts[id := b];
      TouchExecution(a.execution);
      return Ok(Row(id, b));
    }

    /** One turn of closeUnfinished, on the transaction's own view of the tables. */
    method CloseScenario(rows: Attempts, records: seq<Evidence>, e: ExecutionId, s: Scenario, actor: Actor, now: Time,
                         newId: AttemptId)
      returns (ok: bool, rows': Attempts, records': seq<Evidence>)
      requires e in executions && OneOpen(rows)
      ensures var r := CloseOne(Db(packages, executions, rows, records), e, executions[e], s, actor, now, newId);
              r == if ok then Ok(Db(packages, executions, rows', records')) else Refused(Invalid)
    {
      hide OneOpen, ValidDraft, ValidEvidence;
      rows', records' := rows, records;
      var x := executions[e];
      var open := FindOpen(rows, e, s.ref);
      var id, a := newId, SkipAttempt(x, e, s, actor, now);
      if open.Some? {
        id, a := open.value, rows[open.value];
      } else if exists k :: k in rows && Belongs(rows, k, e, s.ref) {
        return true, rows, records;
      } else if newId in rows {
        assert forall k :: Belongs(rows, k, e, s.ref) ==> k in rows;
        return false, rows, records;
      }
      assert forall k :: Belongs(rows, k, e, s.ref) ==> k in rows;
      var d := a.data.(result := Skipped);
      var answers := FillChecks(s.procedure, if d.answers.Some? then d.answers.value else map[]);
      d := d.(answers := Some(answers), notes := (if d.notes != "" then d.notes + "\n\n" else d.notes) + CLOSE_REASON);
      var valid := ValidateDraft(s.procedure, d);
      if !valid { return false, rows, records; }
      var b := a.(data := d, updatedBy := Some(actor));
      var v := AttemptEvidence(id, b, s, now, Some(Closure(actor, now, x.revision + 1)));
      if !ValidEvidence(v) { return false, rows, records; }
      var sealed := Finalization(now, now, b.revision, |records|, actor);
      var c := b.(finalization := Some(sealed), revision := b.revision + 1);
      return true, rows[id := c], records + [v];
    }

    /** closeUnfinished: the loop over the package's scenarios. */
    method CloseUnfinished(e: ExecutionId, actor: Actor, now: Time, ids: seq<AttemptId>)
      returns (ok: bool, rows: Attempts, records: seq<Evidence>)
      requires Valid(Tables()) && e in executions && executions[e].closed.None?
      requires executions[e].package in packages && |ids| == |packages[executions[e].package].scenarios|
      ensures var r := S.CloseUnfinished(Tables(), e, executions[e],
                                           packages[executions[e].package].scenarios, actor, now, ids);
              r == if ok then Ok(Db(packages, executions, rows, records)) else Refused(Invalid)
    {
      hide CloseOne, RowsValid, EvidenceValid, ClosedValid, CloseProgress;
      var x := executions[e];
      var scenarios := packages[x.package].scenarios;
      rows, records := attempts, evidence;
      ghost var whole := S.CloseUnfinished(Tables(), e, x, scenarios, actor, now, ids);
      for i := 0 to |scenarios|
        invariant Valid(Db(packages, executions, rows, records))
        invariant whole ==
                  S.CloseUnfinished(Db(packages, executions, rows, records), e, x, scenarios[i..], actor, now, ids[i..])
      {
        ghost var db := Db(packages, executions, rows, records);
        ScenarioOfUnique(scenarios, scenarios[i]);
        var done, rows', records' := CloseScenario(rows, records, e, scenarios[i], actor, now, ids[i]);
        if !done { return false, rows, records; }
        rows, records := rows', records';
        CloseOneKeeps(db, e, scenarios[i], actor, now, ids[i], Db(packages, executions, rows, records));
      }
      return true, rows, records;
    }

    /** The inner loop of closing: supply an outcome for every check without an answer. */
    static method FillChecks(p: Procedure, before: map<string, Answer>) returns (answers: map<string, Answer>)
      ensures answers == CloseAnswers(p, before)
    {
      answers := before;
      for i := 0 to |p|
        invariant answers == CloseAnswers(p[..i], before)
      {
        assert p[..i + 1][..i] == p[..i];
        if p[i].Control? && p[i].decl.Check? && p[i].decl.id !in answers {
          answers := answers[p[i].decl.id := CheckAnswer(NotExecuted, CLOSE_REASON)];
        }
      }
      assert p[..|p|] == p;
    }

    method SetExecutionClosed(e: ExecutionId, revision: nat, closed: bool, actor: Actor, now: Time, ids: seq<AttemptId>)
      returns (reply: Reply<()>)
      requires Valid(Tables())
      modifies this`executions, this`attempts, this`evidence
      ensures (Tables(), reply) == S.SetExecutionClosed(old(Tables()), e, revision, closed, actor, now, ids)
      ensures Valid(Tables()) && Evolves(old(Tables()), Tables())
    {
      SetClosedKeeps(Tables(), e, revision, closed, actor, now, ids);
      if e !in executions { return Refused(NoRow); }
      var x := executions[e];
      if x.revision != revision || x.closed.Some? == closed { return Refused(CampaignConflict); }
      var closing: Option<Closing> := None;
      if closed {
        if x.package !in packages || |ids| != |packages[x.package].scenarios| { return Refused(NoRow); }
        var ok, rows, records := CloseUnfinished(e, actor, now, ids);
        if !ok { return Refused(Invalid); }
        attempts, evidence := rows, records;
        closing := Some(Closing(now, actor));
      }
      executions := executions[e := x.(revision := x.revision + 1, closed := closing)];
      return Ok(());
    }

    /** executionProgress for one procedure: scan the rows for count, open draft and latest result. */
    method ProcedureProgress(e: ExecutionId, ref: Ref) returns (p: Progress)
      ensures Shows(attempts, e, ref, p)
    {
      var todo, mine := attempts.Keys, {};
      var draft: Option<AttemptId>, latest: Option<AttemptId> := None, None;
      while todo != {}
        invariant todo <= attempts.Keys
        invariant mine == set id | id in attempts && id !in todo && Belongs(attempts, id, e, ref)
        invariant draft.Some? ==> OpenIn(attempts, draft.value, e, ref)
        invariant draft.None? ==> forall id :: id in mine ==> attempts[id].finalization.Some?
        invariant latest.Some? ==> latest.value in mine && attempts[latest.value].finalization.Some?
        invariant latest.Some? ==>
                    forall k :: k in mine && attempts[k].finalization.Some? ==> After(attempts, latest.value, k)
        invariant latest.None? ==> forall id :: id in mine ==> attempts[id].finalization.None?
        decreases todo
      {
        var id :| id in todo;
        todo := todo - {id};
        var a := attempts[id];
        if a.execution == Some(e) && a.ref == ref {
          mine := mine + {id};
          if a.finalization.None? {
            draft := Some(id);
          } else if latest.None? || a.created > attempts[latest.value].created
                    || (a.created == attempts[latest.value].created && id >= latest.value) {
            latest := Some(id);
          }
        }
      }
      assert mine == set id | id in attempts && Belongs(attempts, id, e, ref);
      assert forall k :: Belongs(attempts, k, e, ref) ==> k in mine;
      p := Progress(|mine|, draft, latest, if latest.Some? then attempts[latest.value].data.result else NoVerdict);
    }
  }
}
