/** The campaign tables and the transactions over them, as functions from one database
    value to the next: internal/store/campaign_attempt.go, campaign_execution.go,
    campaign_finalize.go and campaign_close.go. Every transaction holds its execution's
    row lock to the end, so each is one atomic step. */
module CampaignServer {
  import opened Base
  import opened Procedures
  import opened Drafts

  datatype Defaults = Defaults(evidenceType: string, metadata: Metadata)
  datatype Scenario = Scenario(ref: Ref, procedure: Procedure, defaults: Defaults)
  datatype Package = Package(scenarios: seq<Scenario>)

  datatype Finalization = Finalization(at: Time, finished: Time, revision: nat, evidence: nat, actor: Actor)

  datatype Attempt = Attempt(
    package: PackageId, execution: Option<ExecutionId>, ref: Ref, owner: Actor, created: Time,
    revision: nat, data: DraftData, updatedBy: Option<Actor>,
    lastOperation: Option<OperationId>, lastBase: nat,
    finalization: Option<Finalization>)

  datatype Closing = Closing(at: Time, actor: Actor)
  datatype Execution = Execution(
    package: PackageId, repo: string, branch: string, rcsRef: string,
    revision: nat, closed: Option<Closing>)

  datatype Closure = Closure(actor: Actor, at: Time, campaignRevision: nat)
  datatype Evidence = Evidence(
    attempt: AttemptId, repo: string, branch: string, rcsRef: string, ref: Ref,
    evidenceType: string, source: string, result: Verdict, finished: Time,
    notes: string, answers: map<string, Answer>, metadata: Metadata, closure: Option<Closure>)

  // Evidence identifiers are positions: records are appended and never removed here.
  datatype Db = Db(
    packages: map<PackageId, Package>, executions: map<ExecutionId, Execution>,
    attempts: map<AttemptId, Attempt>, evidence: seq<Evidence>)

  datatype Refusal = NoRow | AttemptConflict | CampaignConflict | Invalid
  datatype Reply<+T> = Ok(value: T) | Refused(why: Refusal)
  datatype Row = Row(id: AttemptId, attempt: Attempt)

  // ---- lookups ----

  /** finalScenario: the first scenario with this procedure reference. */
  function ScenarioOf(scenarios: seq<Scenario>, ref: Ref): (r: Option<Scenario>)
    ensures r.Some? ==> r.value in scenarios && r.value.ref == ref
    ensures r.None? ==> forall i :: 0 <= i < |scenarios| ==> scenarios[i].ref != ref
  {
    if scenarios == [] then None
    else if scenarios[0].ref == ref then Some(scenarios[0])
    else ScenarioOf(scenarios[1..], ref)
  }

  function PackageScenario(packages: map<PackageId, Package>, pkg: PackageId, ref: Ref): Option<Scenario> {
    if pkg in packages then ScenarioOf(packages[pkg].scenarios, ref) else None
  }

  type Attempts = map<AttemptId, Attempt>

  predicate Belongs(rows: Attempts, id: AttemptId, e: ExecutionId, ref: Ref) {
    id in rows && rows[id].execution == Some(e) && rows[id].ref == ref
  }

  predicate OpenIn(rows: Attempts, id: AttemptId, e: ExecutionId, ref: Ref) {
    Belongs(rows, id, e, ref) && rows[id].finalization.None?
  }

  ghost predicate Attempted(rows: Attempts, e: ExecutionId, ref: Ref) {
    exists id :: Belongs(rows, id, e, ref)
  }

  /** The unfinished attempt of a procedure in an execution; the partial unique index allows one. */
  ghost function OpenAttempt(rows: Attempts, e: ExecutionId, ref: Ref): (r: Option<AttemptId>)
    ensures r.Some? ==> OpenIn(rows, r.value, e, ref)
    ensures r.None? ==> forall id :: !OpenIn(rows, id, e, ref)
  {
    if exists id :: OpenIn(rows, id, e, ref) then
      var id :| OpenIn(rows, id, e, ref);
      Some(id)
    else None
  }

  function Touch(db: Db, e: Option<ExecutionId>): Db {
    if e.Some? && e.value in db.executions then
      var x := db.executions[e.value];
      db.(executions := db.executions[e.value := x.(revision := x.revision + 1)])
    else db
  }

  predicate IsClosed(db: Db, e: Option<ExecutionId>) {
    e.Some? && e.value in db.executions && db.executions[e.value].closed.Some?
  }

  predicate MayEdit(a: Attempt, actor: Actor) {
    a.owner == actor || a.execution.Some?
  }

  // ---- starting ----

  /** The draft StartExecutionAttempt writes for a new attempt. */
  function StartDraft(x: Execution, s: Scenario, actor: Actor): DraftData {
    InitialDraft(s.procedure).(
      repo := x.repo, branch := x.branch, rcsRef := x.rcsRef, source := actor,
      evidenceType := s.defaults.evidenceType, metadata := s.defaults.metadata)
  }

  function NewAttempt(pkg: PackageId, e: Option<ExecutionId>, ref: Ref, actor: Actor, created: Time,
                      data: DraftData, updatedBy: Option<Actor>): Attempt {
    Attempt(pkg, e, ref, actor, created, 1, data, updatedBy, None, 0, None)
  }

  ghost function StartExecutionAttempt(db: Db, e: ExecutionId, id: AttemptId, ref: Ref, actor: Actor, created: Time)
    : (Db, Reply<Row>)
  {
    if e !in db.executions then (db, Refused(NoRow))
    else if id in db.attempts then
      var prior := db.attempts[id];
      if prior.execution != Some(e) || prior.ref != ref then (db, Refused(AttemptConflict))
      else (db, Ok(Row(id, prior)))
    else
      var x := db.executions[e];
      if x.closed.Some? then (db, Refused(CampaignConflict))
      else
        var open := OpenAttempt(db.attempts, e, ref);
        if open.Some? then (db, Ok(Row(open.value, db.attempts[open.value])))
        else
          var s := PackageScenario(db.packages, x.package, ref);
          if s.None? then (db, Refused(Invalid))
          else
            var a := NewAttempt(x.package, Some(e), ref, actor, created, StartDraft(x, s.value, actor), Some(actor));
            (Touch(db.(attempts := db.attempts[id := a]), Some(e)), Ok(Row(id, a)))
  }

  /** CreateAttempt: a private attempt outside any execution, keyed by the client's own id. */
  function CreateAttempt(db: Db, id: AttemptId, pkg: PackageId, ref: Ref, actor: Actor, created: Time, data: DraftData)
    : (Db, Reply<Row>)
  {
    if PackageScenario(db.packages, pkg, ref).None? then (db, Refused(Invalid))
    else if id in db.attempts then
      var a := db.attempts[id];
      if !MayEdit(a, actor) || a.package != pkg || a.ref != ref || a.execution.Some? || a.owner != actor
      then (db, Refused(AttemptConflict)) else (db, Ok(Row(id, a)))
    else
      var a := NewAttempt(pkg, None, ref, actor, created, data, None);
      (db.(attempts := db.attempts[id := a]), Ok(Row(id, a)))
  }

  // ---- saving ----

  function Accepted(a: Attempt, actor: Actor, op: OperationId, data: DraftData): Attempt {
    a.(data := data, revision := a.revision + 1, lastOperation := Some(op), lastBase := a.revision,
       updatedBy := Some(actor))
  }

  /** SaveAttempt. `attached` is the outcome of finding every referenced attachment in the object store. */
  function SaveAttempt(db: Db, id: AttemptId, actor: Actor, revision: nat, op: OperationId, data: DraftData,
                       attached: bool)
    : (Db, Reply<Row>)
  {
    if id !in db.attempts then (db, Refused(NoRow))
    else
      var a := db.attempts[id];
      if IsClosed(db, a.execution) then (db, Refused(CampaignConflict))
      else if !MayEdit(a, actor) then (db, Refused(NoRow))
      else if a.finalization.Some? then (db, Refused(AttemptConflict))
      else if a.lastOperation == Some(op) then
        if a.lastBase == revision && a.data == data then (db, Ok(Row(id, a))) else (db, Refused(AttemptConflict))
      else if a.revision != revision then (db, Refused(AttemptConflict))
      else if !attached then (db, Refused(Invalid))
      else
        var b := Accepted(a, actor, op, data);
        (Touch(db.(attempts := db.attempts[id := b]), a.execution), Ok(Row(id, b)))
  }

  /** Edits of a shared attempt are attributed to whoever sent them. */
  function Attributed(a: Attempt, actor: Actor, data: DraftData): DraftData {
    if a.execution.Some? then data.(source := actor) else data
  }

  /** The PUT request: access and draft rules first, then the transaction. */
  function SaveRequest(db: Db, id: AttemptId, actor: Actor, revision: nat, op: OperationId, data: DraftData,
                       attached: bool)
    : (Db, Reply<Row>)
  {
    if id !in db.attempts || !MayEdit(db.attempts[id], actor) then (db, Refused(NoRow))
    else
      var a := db.attempts[id];
      var s := PackageScenario(db.packages, a.package, a.ref);
      if revision < 1 || s.None? || !ValidDraft(s.value.procedure, data) then (db, Refused(Invalid))
      else SaveAttempt(db, id, actor, revision, op, Attributed(a, actor, data), attached)
  }

  // ---- finalizing ----

  /** attemptEvidence, with the closure note finalizeAttemptTx adds. */
  function AttemptEvidence(id: AttemptId, a: Attempt, s: Scenario, finished: Time, closure: Option<Closure>): Evidence {
    Evidence(id, a.data.repo, a.data.branch, a.data.rcsRef, a.ref,
             if a.data.evidenceType == "" then s.defaults.evidenceType else a.data.evidenceType,
             if a.data.source == "" then a.owner else a.data.source,
             a.data.result, finished, a.data.notes,
             if a.data.answers.Some? then a.data.answers.value else map[],
             if a.data.metadata.NoMetadata? then s.defaults.metadata else a.data.metadata,
             closure)
  }

  /** validate.EvidenceCreate on such a record. */
  predicate ValidEvidence(v: Evidence) {
    && v.repo != "" && v.branch != "" && v.rcsRef != "" && v.ref != "" && v.source != ""
    && ValidEvidenceType(v.evidenceType)
    && !v.result.NoVerdict? && !v.result.OtherVerdict?
    && v.finished != 0
  }

  function Finalized(a: Attempt, finished: Time, at: Time, evidence: nat, actor: Actor): Attempt {
    a.(finalization := Some(Finalization(at, finished, a.revision, evidence, actor)), revision := a.revision + 1)
  }

  /** finalizeAttemptTx on the row `a` of attempt `id`: insert the evidence and seal the attempt. */
  function FinalizeTx(db: Db, id: AttemptId, a: Attempt, s: Scenario, finished: Time, at: Time, actor: Actor,
                      closure: Option<Closure>): Reply<Db>
  {
    var v := AttemptEvidence(id, a, s, finished, closure);
    if !ValidEvidence(v) then Refused(Invalid)
    else Ok(db.(evidence := db.evidence + [v],
                attempts := db.attempts[id := Finalized(a, finished, at, |db.evidence|, actor)]))
  }

  function FinalizeAttempt(db: Db, id: AttemptId, actor: Actor, revision: nat, finished: Time, at: Time)
    : (Db, Reply<Row>)
  {
    if id !in db.attempts then (db, Refused(NoRow))
    else
      var a := db.attempts[id];
      if !MayEdit(a, actor) then (db, Refused(NoRow))
      else if a.finalization.Some? then
        if a.finalization.value.revision != revision || a.finalization.value.finished != finished
        then (db, Refused(AttemptConflict)) else (db, Ok(Row(id, a)))
      else if a.revision != revision then (db, Refused(AttemptConflict))
      else if IsClosed(db, a.execution) then (db, Refused(CampaignConflict))
      else
        var s := PackageScenario(db.packages, a.package, a.ref);
        if s.None? then (db, Refused(NoRow))
        else if finished == 0 || !Finalizable(s.value.procedure, a.data) then (db, Refused(Invalid))
        else
          match FinalizeTx(db, id, a, s.value, finished, at, actor, None)
          case Refused(why) => (db, Refused(why))
          case Ok(db1) => (Touch(db1, a.execution), Ok(Row(id, db1.attempts[id])))
  }

  // ---- closing ----

  function SkipAttempt(x: Execution, e: ExecutionId, s: Scenario, actor: Actor, now: Time): Attempt {
    var data := InitialDraft(s.procedure).(repo := x.repo, branch := x.branch, rcsRef := x.rcsRef, source := actor);
    NewAttempt(x.package, Some(e), s.ref, actor, now, data, None)
  }

  /** Dispose of one row: supply what is missing, then finalize it as skipped. */
  function SkipRow(db: Db, id: AttemptId, a: Attempt, x: Execution, s: Scenario, actor: Actor, now: Time): Reply<Db> {
    var b := a.(data := ClosedDraft(s.procedure, a.data), updatedBy := Some(actor));
    if !ValidDraft(s.procedure, b.data) then Refused(Invalid)
    else FinalizeTx(db, id, b, s, now, now, actor, Some(Closure(actor, now, x.revision + 1)))
  }

  /** One turn of closeUnfinished's loop. `newId` is the id a generated attempt gets. */
  ghost function CloseOne(db: Db, e: ExecutionId, x: Execution, s: Scenario, actor: Actor, now: Time,
                          newId: AttemptId): Reply<Db> {
    var open := OpenAttempt(db.attempts, e, s.ref);
    if open.Some? then SkipRow(db, open.value, db.attempts[open.value], x, s, actor, now)
    else if Attempted(db.attempts, e, s.ref) then Ok(db)
    else if newId in db.attempts then Refused(Invalid)
    else SkipRow(db, newId, SkipAttempt(x, e, s, actor, now), x, s, actor, now)
  }

  ghost function CloseUnfinished(db: Db, e: ExecutionId, x: Execution, todo: seq<Scenario>, actor: Actor, now: Time,
                                 ids: seq<AttemptId>): (r: Reply<Db>)
    requires |ids| == |todo|
    ensures r.Ok? ==> r.value.executions == db.executions
    decreases |todo|
  {
    if todo == [] then Ok(db)
    else
      match CloseOne(db, e, x, todo[0], actor, now, ids[0])
      case Refused(why) => Refused(why)
      case Ok(db1) => CloseUnfinished(db1, e, x, todo[1..], actor, now, ids[1..])
  }

  function Toggle(db: Db, e: ExecutionId, closed: Option<Closing>): Db
    requires e in db.executions
  {
    var x := db.executions[e];
    db.(executions := db.executions[e := x.(revision := x.revision + 1, closed := closed)])
  }

  /** SetExecutionClosed. `ids` supplies one new attempt id per scenario. */
  ghost function SetExecutionClosed(db: Db, e: ExecutionId, revision: nat, closed: bool, actor: Actor, now: Time,
                                    ids: seq<AttemptId>): (Db, Reply<()>)
  {
    if e !in db.executions then (db, Refused(NoRow))
    else
      var x := db.executions[e];
      if x.revision != revision || x.closed.Some? == closed then (db, Refused(CampaignConflict))
      else if !closed then (Toggle(db, e, None), Ok(()))
      else if x.package !in db.packages || |ids| != |db.packages[x.package].scenarios| then (db, Refused(NoRow))
      else
        match CloseUnfinished(db, e, x, db.packages[x.package].scenarios, actor, now, ids)
        case Refused(why) => (db, Refused(why))
        case Ok(db1) => (Toggle(db1, e, Some(Closing(now, actor))), Ok(()))
  }
}
