/** How far `synchronize` gets: what every answered request leaves of its entry, and exactly which entries drain when
    nobody else writes to their attempt. */
module SyncProgress {
  import opened Base
  import opened Drafts
  import opened CampaignServer
  import opened CampaignInvariants
  import opened CampaignDecisions
  import opened Journal
  import opened Sync
  import opened SyncInvariants
  import opened SyncSteps
  import opened SyncConflicts

  // ---- what an answer leaves of the entry ----

  /** Only this entry differs on the device. */
  ghost predicate OnlyEntry(s: Sys, t: Sys, id: AttemptId) {
    && id in s.entries && t.entries.Keys == s.entries.Keys && t.archive == s.archive && t.me == s.me
    && forall k :: k in s.entries && k != id ==> t.entries[k] == s.entries[k]
  }

  /** A refused entry: nothing is lost, only the error and perhaps the conflicting row are added. */
  ghost predicate Halts(e: Entry, f: Entry) {
    && f.error && f.row == e.row && f.create == e.create && f.operations == e.operations
    && f.completion == e.completion && f.version == e.version
  }

  /** The entry `e` after its save was answered, with `s` before and `t` after: the error is set if and only if the
      server refused; otherwise the queue has lost its head and the row is the one now stored, with that head's
      answers. A conflict keeps the fetched row. */
  ghost predicate SaveAnswered(s: Sys, t: Sys, id: AttemptId, reply: Reply<Row>, fetched: bool) {
    OnlyEntry(s, t, id) &&
    var e, f := s.entries[id], t.entries[id];
    && (f.error <==> reply.Refused?)
    && (f.error ==> Halts(e, f) && t.db == s.db)
    && (Conflict(reply) && fetched && e.conflict.None? ==>
          id in s.db.attempts && f.conflict == Some(Row(id, s.db.attempts[id])))
    && (!f.error ==>
          && id in t.db.attempts && f.row == t.db.attempts[id]
          && e.operations != [] && f.operations == e.operations[1..]
          && f.create == e.create && f.completion == e.completion && f.version == e.version
          && SameWork(f.row.data, e.operations[0].data))
  }

  lemma SaveDone(s: Sys, id: AttemptId, attached: bool, fetched: bool)
    requires id in s.entries && s.entries[id].operations != [] && !s.entries[id].error
    ensures SaveAnswered(s, SaveTripDone(s, id, attached, fetched), id, SaveReply(s, id, attached), fetched)
  {
    hide SaveRequest, Attributed, SameWork;
    var op := s.entries[id].operations[0];
    SaveChanges(s.db, id, s.me, op.revision, op.id, op.data, attached);
    SaveShows(s.db, id, s.me, op.revision, op.id, op.data, attached);
  }

  lemma SaveTripOutcome(s: Sys, id: AttemptId, attached: bool, fetched: bool)
    requires Enabled(s, SaveTrip(id, attached, fetched))
    ensures SaveAnswered(s, Next(s, SaveTrip(id, attached, fetched)), id, SaveReply(s, id, attached), fetched)
  {
    hide SaveAnswered, SaveTripDone, Snapshot, NewOperation, Foreign;
    SaveDone(s, id, attached, fetched);
  }

  /** A save answered with success shows its answers; a conflict is about a row that is there. */
  lemma SaveShows(db: Db, id: AttemptId, actor: Actor, revision: nat, op: OperationId, data: DraftData, attached: bool)
    ensures var (t, reply) := SaveRequest(db, id, actor, revision, op, data, attached);
            && (reply.Ok? ==> id in t.attempts && SameWork(t.attempts[id].data, data))
            && (Conflict(reply) ==> id in db.attempts)
  {
    SaveChanges(db, id, actor, revision, op, data, attached);
    hide ValidDraft, PackageScenario;
  }

  /** The creation can succeed: the attempt is new, the execution open and nobody has begun the procedure; or it is
      there already, as created. */
  ghost predicate Creatable(db: Db, id: AttemptId, c: Creation) {
    c.execution in db.executions &&
    if id in db.attempts then
      Belongs(db.attempts, id, c.execution, c.ref) && db.attempts[id].revision == 1 &&
      db.attempts[id].finalization.None?
    else
      db.executions[c.execution].closed.None? && InPackage(db, db.executions[c.execution].package, c.ref) &&
      forall k :: !OpenIn(db.attempts, k, c.execution, c.ref)
  }

  /** The reply to a creation that the device takes for its own. */
  predicate OwnRow(reply: Reply<Row>, id: AttemptId) {
    reply.Ok? && reply.value.id == id && reply.value.attempt.revision == 1 && reply.value.attempt.finalization.None?
  }

  lemma StartReply(db: Db, id: AttemptId, c: Creation, actor: Actor, at: Time)
    ensures var (t, reply) := StartExecutionAttempt(db, c.execution, id, c.ref, actor, at);
            && (OwnRow(reply, id) <==> Creatable(db, id, c))
            && (OwnRow(reply, id) ==>
                  id in t.attempts && reply.value.attempt == t.attempts[id] && Creatable(t, id, c))
            && (!OwnRow(reply, id) ==> t == db)
  {
    StartDecides(db, c.execution, id, c.ref, actor, at);
    hide StartExecutionAttempt, InPackage, FreshDraft;
    if StartExecutionAttempt(db, c.execution, id, c.ref, actor, at).0 != db {
      StartWrites(db, c.execution, id, c.ref, actor, at);
    } else {
      StartAnswers(db, c.execution, id, c.ref, actor, at);
    }
  }

  /** After an answered creation the error is set exactly if it could not succeed; otherwise the row is the stored
      one. */
  lemma CreateTripOutcome(s: Sys, id: AttemptId, at: Time, fetched: bool)
    requires Enabled(s, CreateTrip(id, at, fetched))
    ensures var t := Next(s, CreateTrip(id, at, fetched));
            && OnlyEntry(s, t, id)
            && var e, f := s.entries[id], t.entries[id];
               && (f.error <==> !Creatable(s.db, id, e.create.value))
               && (f.error ==> Halts(e, f) && t.db == s.db)
               && (!f.error ==>
                     && id in t.db.attempts && f.row == t.db.attempts[id] && f.create.None?
                     && f.operations == e.operations && f.completion == e.completion && f.version == e.version
                     && f.row.revision == 1 && f.row.finalization.None?)
  {
    hide StartExecutionAttempt, Creatable, Snapshot, NewOperation, Foreign;
    StartReply(s.db, id, s.entries[id].create.value, s.me, at);
    assert Next(s, CreateTrip(id, at, fetched)) == CreateTripDone(s, id, at, fetched);
    hide Next, Enabled;
  }

  /** After an answered finalization the error is set if and only if the server refused; otherwise nothing is pending
      and the row is the sealed one. */
  lemma FinalizeTripOutcome(s: Sys, id: AttemptId, at: Time, fetched: bool)
    requires Enabled(s, FinalizeTrip(id, at, fetched))
    ensures var t := Next(s, FinalizeTrip(id, at, fetched));
            && OnlyEntry(s, t, id)
            && var e, f := s.entries[id], t.entries[id];
               && (f.error <==> FinalizeReplyOf(s, id, at).Refused?)
               && (f.error ==> Halts(e, f) && t.db == s.db)
               && (Conflict(FinalizeReplyOf(s, id, at)) && fetched && e.conflict.None? ==>
                     id in s.db.attempts && f.conflict == Some(Row(id, s.db.attempts[id])))
               && (!f.error ==>
                     && id in t.db.attempts && f.row == t.db.attempts[id] && !Pending(f) && f.version == e.version
                     && f.row.finalization.Some? && f.row.finalization.value.finished == e.completion.value.finished)
  {
    hide FinalizeAttempt, Snapshot, NewOperation, Foreign;
    var c := s.entries[id].completion.value;
    FinalizeShows(s.db, id, s.me, c.revision, c.finished, at);
    assert Next(s, FinalizeTrip(id, at, fetched)) == FinalizeTripDone(s, id, at, fetched);
    hide Next, Enabled;
  }

  lemma FinalizeShows(db: Db, id: AttemptId, actor: Actor, revision: nat, finished: Time, at: Time)
    ensures var (t, reply) := FinalizeAttempt(db, id, actor, revision, finished, at);
            && (reply.Ok? ==>
                  && id in t.attempts && reply.value == Row(id, t.attempts[id]) && t.attempts[id].finalization.Some?
                  && t.attempts[id].finalization.value.finished == finished)
            && (reply.Refused? ==> t == db)
            && (Conflict(reply) ==> id in db.attempts)
  {
    hide Finalizable, ValidEvidence, PackageScenario;
  }

  // ---- which entries drain ----

  /** The row `a` with the answers the entry would save last. */
  function Filled(a: Attempt, me: Actor, e: Entry): Attempt {
    if e.operations == [] then a else a.(data := Attributed(a, me, LocalData(e)))
  }

  /** Nobody shut the attempt, and the device's user may write to it. */
  ghost predicate Writable(db: Db, me: Actor, a: Attempt) {
    a.finalization.None? && !IsClosed(db, a.execution) && MayEdit(a, me)
  }

  /** The queued drafts are valid and the row is the one they were based on, or the one the first of them made. */
  ghost predicate Savable(db: Db, me: Actor, a: Attempt, e: Entry, s: Scenario) {
    e.operations != [] ==>
      && Writable(db, me, a)
      && (a == e.row || a.lastOperation == Some(e.operations[0].id))
      && forall k :: 0 <= k < |e.operations| ==> ValidDraft(s.procedure, e.operations[k].data)
  }

  /** The last answers can be filed under the completion's finish time, or have been. */
  ghost predicate Completable(db: Db, me: Actor, a: Attempt, e: Entry, s: Scenario) {
    e.completion.Some? ==>
      var finished := e.completion.value.finished;
      if a.finalization.Some? then
        && e.operations == [] && MayEdit(a, me)
        && a.finalization.value.revision == e.row.revision && a.finalization.value.finished == finished
      else
        && Writable(db, me, a) && (e.operations == [] ==> a == e.row) && finished != 0
        && Finalizable(s.procedure, Filled(a, me, e).data) && Fileable(Filled(a, me, e), s)
  }

  ghost predicate Ready(db: Db, me: Actor, a: Attempt, e: Entry) {
    var s := PackageScenario(db.packages, a.package, a.ref);
    s.Some? && Savable(db, me, a, e, s.value) && Completable(db, me, a, e, s.value)
  }

  /** The row a creation finds or makes, as far as it matters. */
  ghost function CreatedRow(db: Db, me: Actor, id: AttemptId, e: Entry): Attempt
    requires e.create.Some? && Creatable(db, id, e.create.value)
  {
    var c := e.create.value;
    if id in db.attempts then db.attempts[id]
    else
      NewAttempt(db.executions[c.execution].package, Some(c.execution), c.ref, me, e.row.created, e.row.data, Some(me))
  }

  /** What decides, before `synchronize` is called, whether it will drain the entry. */
  ghost predicate WillDrain(s: Sys, id: AttemptId) {
    id in s.entries &&
    var e := s.entries[id];
    && !e.error
    && if e.create.Some? then
         Creatable(s.db, id, e.create.value) &&
         var a := CreatedRow(s.db, s.me, id, e);
         Ready(s.db, s.me, a, e.(row := a))
       else
         id in s.db.attempts && Ready(s.db, s.me, s.db.attempts[id], e)
  }

  // ---- the server's part of each request decides nothing anew ----

  /** The tables as far as `Ready` reads them beside the row. */
  ghost predicate SameSetting(s: Db, t: Db, e: Option<ExecutionId>) {
    t.packages == s.packages && (IsClosed(t, e) <==> IsClosed(s, e))
  }

  lemma TouchedSetting(s: Db, t: Db, e: Option<ExecutionId>)
    requires OnlyTouched(s, t, e)
    ensures SameSetting(s, t, e)
  {}

  /** A row that differs only in what creation leaves open is as ready. */
  ghost predicate Alike(a: Attempt, b: Attempt) {
    && a.package == b.package && a.execution == b.execution && a.ref == b.ref && a.owner == b.owner
    && a.data == b.data && a.revision == b.revision && a.lastOperation == b.lastOperation
    && a.finalization == b.finalization
  }

  lemma FilledAlike(a: Attempt, b: Attempt, me: Actor, e: Entry, f: Entry, s: Scenario)
    requires Alike(a, b) && f.operations == e.operations && LocalData(f) == LocalData(e)
    ensures Filled(a, me, e).data == Filled(b, me, f).data
    ensures Fileable(Filled(a, me, e), s) == Fileable(Filled(b, me, f), s)
  {}

  lemma ReadyAlike(db: Db, t: Db, me: Actor, a: Attempt, b: Attempt, e: Entry)
    requires SameSetting(db, t, a.execution) && Alike(a, b)
    ensures Ready(db, me, a, e.(row := a)) <==> Ready(t, me, b, e.(row := b))
  {
    var s := PackageScenario(db.packages, a.package, a.ref);
    if s.Some? {
      FilledAlike(a, b, me, e.(row := a), e.(row := b), s.value);
      hide Filled, Fileable, Finalizable, ValidDraft;
    }
  }

  // ---- creation ----

  /** The tables after the server handled the creation of the entry. */
  ghost function Started(s: Sys, id: AttemptId, at: Time): Db
    requires id in s.entries && s.entries[id].create.Some?
  {
    var c := s.entries[id].create.value;
    StartExecutionAttempt(s.db, c.execution, id, c.ref, s.me, at).0
  }

  lemma LocalDraft(s: Sys, id: AttemptId)
    requires Inv(s) && id in s.entries && s.entries[id].create.Some?
    ensures LocalRow(s, id, s.entries[id])
  {
    hide LocalRow;
    assert EntryOk(s, id, s.entries[id]);
  }

  /** A started row holds the draft the device derived for itself. */
  lemma StartedDraft(x: Execution, e: ExecutionId, p: Scenario, actor: Actor, a: Attempt, at: Time)
    requires StartedRow(a, x, e, p, actor, at)
    ensures a.data == StartDraft(x, p, actor)
  {
    hide InitialAnswers;
  }

  lemma DerivedRow(db: Db, me: Actor, id: AttemptId, e: Entry, at: Time)
    requires e.create.Some?
    requires var c := e.create.value;
             && StartExecutionAttempt(db, c.execution, id, c.ref, me, at).0 != db
             && c.execution in db.executions
             && var p := PackageScenario(db.packages, db.executions[c.execution].package, c.ref);
                p.Some? && e.row.data == StartDraft(db.executions[c.execution], p.value, me)
    ensures var c := e.create.value;
            var t := StartExecutionAttempt(db, c.execution, id, c.ref, me, at).0;
            && Creatable(db, id, c) && Creatable(t, id, c) && SameSetting(db, t, Some(c.execution))
            && id in t.attempts && Alike(CreatedRow(db, me, id, e), t.attempts[id])
            && CreatedRow(db, me, id, e).execution == Some(c.execution) && CreatedRow(t, me, id, e) == t.attempts[id]
  {
    hide StartExecutionAttempt, InPackage, StartDraft, PackageScenario, FreshDraft;
    var c := e.create.value;
    var x := db.executions[c.execution];
    var p := PackageScenario(db.packages, x.package, c.ref).value;
    var t := StartExecutionAttempt(db, c.execution, id, c.ref, me, at).0;
    StartDecides(db, c.execution, id, c.ref, me, at);
    StartWrites(db, c.execution, id, c.ref, me, at);
    StartedDraft(x, c.execution, p, me, t.attempts[id], at);
    TouchedSetting(db, t, Some(c.execution));
    StartReply(db, id, c, me, at);
    hide OnlyTouched, SameSetting;
    assert OwnRow(StartExecutionAttempt(db, c.execution, id, c.ref, me, at).1, id);
  }

  /** That the server handled a creation, answered or not, changes nothing about draining. */
  lemma CreateServed(s: Sys, id: AttemptId, at: Time)
    requires Inv(s) && id in s.entries && s.entries[id].create.Some?
    ensures WillDrain(s, id) <==> WillDrain(s.(db := Started(s, id, at)), id)
  {
    hide Inv, StartExecutionAttempt, Creatable, Ready;
    var e := s.entries[id];
    var t := Started(s, id, at);
    if t != s.db {
      LocalDraft(s, id);
      DerivedRow(s.db, s.me, id, e, at);
      hide StartDraft, Alike, SameSetting, CreatedRow;
      ReadyAlike(s.db, t, s.me, CreatedRow(s.db, s.me, id, e), t.attempts[id], e);
    }
  }

  lemma ReadyIgnoresCreation(db: Db, me: Actor, a: Attempt, e: Entry)
    ensures Ready(db, me, a, e) <==> Ready(db, me, a, e.(create := None))
  {
    hide Finalizable, ValidDraft, PackageScenario, Fileable;
  }

  lemma CreateTripDrains(s: Sys, id: AttemptId, at: Time, fetched: bool)
    requires Inv(s) && Enabled(s, CreateTrip(id, at, fetched))
    ensures WillDrain(s, id) <==> WillDrain(Next(s, CreateTrip(id, at, fetched)), id)
  {
    hide Inv, StartExecutionAttempt, Creatable, Ready, CreatedRow;
    CreateTripOutcome(s, id, at, fetched);
    if Creatable(s.db, id, s.entries[id].create.value) {
      CreateServed(s, id, at);
      CreateTaken(s, id, at, fetched);
    }
  }

  lemma CreateTaken(s: Sys, id: AttemptId, at: Time, fetched: bool)
    requires Enabled(s, CreateTrip(id, at, fetched)) && Creatable(s.db, id, s.entries[id].create.value)
    ensures WillDrain(s.(db := Started(s, id, at)), id) <==> WillDrain(Next(s, CreateTrip(id, at, fetched)), id)
  {
    hide StartExecutionAttempt, Ready, InPackage;
    var e := s.entries[id];
    var c := e.create.value;
    StartReply(s.db, id, c, s.me, at);
    var a := Started(s, id, at).attempts[id];
    ReadyIgnoresCreation(Started(s, id, at), s.me, a, e.(row := a));
  }

  // ---- saves ----

  /** A stamped head, its row and its base. */
  lemma HeadBase(s: Sys, id: AttemptId)
    requires Inv(s) && HeadStamped(s, id)
    ensures id in s.db.attempts
    ensures var e, a := s.entries[id], s.db.attempts[id];
            && e.operations[0].revision == e.row.revision && e.row.revision >= 1
            && (a.revision == e.row.revision ==> a == e.row)
            && PackageScenario(s.db.packages, a.package, a.ref).Some?
  {
    assert EntryOk(s, id, s.entries[id]) && RowOk(s.db, id);
    hide EntriesOk, HistoryOk, Valid, CompletionOk, QueueShape, QueueMinted, PackageScenario;
  }

  /** The head of an entry that will drain is accepted. */
  lemma HeadFits(s: Sys, id: AttemptId)
    requires Inv(s) && HeadStamped(s, id) && WillDrain(s, id)
    ensures var op := s.entries[id].operations[0]; SaveFits(s.db, id, s.me, op.revision, op.id, op.data, true)
  {
    HeadBase(s, id);
    HeadShown(s, id);
    HeadAgainstRow(s, id);
    hide Inv, Completable, ValidDraft, PackageScenario;
  }

  /** After a successful reply the row shows the head, and the setting is as before. */
  lemma HeadServed(s: Sys, id: AttemptId)
    requires HeadStamped(s, id)
    requires var op := s.entries[id].operations[0]; SaveFits(s.db, id, s.me, op.revision, op.id, op.data, true)
    ensures var op := s.entries[id].operations[0];
            var t := SaveRequest(s.db, id, s.me, op.revision, op.id, op.data, true).0;
            && id in t.attempts && SameSetting(s.db, t, s.db.attempts[id].execution)
            && var a, b := s.db.attempts[id], t.attempts[id];
               && b.lastOperation == Some(op.id) && b.data == Attributed(b, s.me, op.data)
               && b == a.(data := b.data, revision := b.revision, lastOperation := b.lastOperation,
                          lastBase := b.lastBase, updatedBy := b.updatedBy)
               && (t == s.db || a.revision == op.revision)
  {
    var op := s.entries[id].operations[0];
    var a := s.db.attempts[id];
    SaveOkIff(s.db, id, s.me, op.revision, op.id, op.data, true);
    SaveChanges(s.db, id, s.me, op.revision, op.id, op.data, true);
    var t := SaveRequest(s.db, id, s.me, op.revision, op.id, op.data, true).0;
    if t != s.db {
      SaveWrites(s.db, id, s.me, op.revision, op.id, Attributed(a, s.me, op.data), true);
      assert t == SaveAttempt(s.db, id, s.me, op.revision, op.id, Attributed(a, s.me, op.data), true).0;
      hide SaveRequest, SaveAttempt, ValidDraft, PackageScenario;
      TouchedSetting(s.db, t, a.execution);
    }
    hide SaveRequest, SaveAttempt, ValidDraft, PackageScenario;
  }

  /** Saving the head into the row keeps what is left to do possible, and only then was it possible. */
  lemma ReadyServed(db: Db, t: Db, me: Actor, a: Attempt, b: Attempt, e: Entry)
    requires e.operations != [] && SameSetting(db, t, a.execution) && a == e.row
    requires b == a.(data := b.data, revision := b.revision, lastOperation := b.lastOperation,
                     lastBase := b.lastBase, updatedBy := b.updatedBy)
    requires b.lastOperation == Some(e.operations[0].id)
    ensures Ready(db, me, a, e) <==> Ready(t, me, b, e)
  {
    hide Finalizable, ValidDraft, PackageScenario;
  }

  lemma SaveServed(s: Sys, id: AttemptId)
    requires Inv(s) && HeadStamped(s, id)
    ensures var op := s.entries[id].operations[0];
            WillDrain(s, id) <==>
            WillDrain(s.(db := SaveRequest(s.db, id, s.me, op.revision, op.id, op.data, true).0), id)
  {
    var op := s.entries[id].operations[0];
    SaveOkIff(s.db, id, s.me, op.revision, op.id, op.data, true);
    var t := SaveRequest(s.db, id, s.me, op.revision, op.id, op.data, true).0;
    if t != s.db {
      HeadServed(s, id);
      HeadBase(s, id);
      ReadyServed(s.db, t, s.me, s.db.attempts[id], t.attempts[id], s.entries[id]);
    }
    hide SaveRequest, Ready, Inv, SaveFits;
  }

  /** Taking the reply for the head off the queue changes nothing either. */
  lemma ReadyTaken(db: Db, me: Actor, b: Attempt, e: Entry)
    requires e.operations != [] && b.lastOperation == Some(e.operations[0].id) && Writable(db, me, b)
    requires b.data == Attributed(b, me, e.operations[0].data)
    requires var s := PackageScenario(db.packages, b.package, b.ref);
             s.Some? && ValidDraft(s.value.procedure, e.operations[0].data)
    ensures Ready(db, me, b, e) <==> Ready(db, me, b, Acknowledged(e, b))
  {
    var f := Acknowledged(e, b);
    assert Filled(b, me, e) == Filled(b, me, f);
    assert forall k :: 0 <= k < |f.operations| ==> f.operations[k] == e.operations[k + 1];
    assert forall k :: 1 <= k < |e.operations| ==> e.operations[k] == f.operations[k - 1];
    hide Finalizable, ValidDraft, PackageScenario, Fileable, Filled;
  }

  lemma SaveTripDrains(s: Sys, id: AttemptId, fetched: bool)
    requires Inv(s) && Enabled(s, SaveTrip(id, true, fetched))
    ensures WillDrain(s, id) <==> WillDrain(Next(s, SaveTrip(id, true, fetched)), id)
  {
    hide Inv, SaveRequest, Ready, SaveFits, WillDrain;
    var op := s.entries[id].operations[0];
    SaveTripOutcome(s, id, true, fetched);
    SaveOkIff(s.db, id, s.me, op.revision, op.id, op.data, true);
    var n := Next(s, SaveTrip(id, true, fetched));
    if SaveFits(s.db, id, s.me, op.revision, op.id, op.data, true) {
      SaveServed(s, id);
      SaveTaken(s, id);
      var t := SaveRequest(s.db, id, s.me, op.revision, op.id, op.data, true).0;
      assert n.entries[id] == Acknowledged(s.entries[id], t.attempts[id]);
      DrainsAlike(n, Put(s.(db := t), id, n.entries[id]), id);
    } else {
      if WillDrain(s, id) { HeadFits(s, id); }
      ErrorHalts(n, id);
    }
  }

  lemma ErrorHalts(s: Sys, id: AttemptId)
    requires id in s.entries && s.entries[id].error
    ensures !WillDrain(s, id)
  {
    hide Ready, Creatable;
  }

  lemma DrainsAlike(s: Sys, t: Sys, id: AttemptId)
    requires t.db == s.db && id in s.entries && id in t.entries && t.entries[id] == s.entries[id] && t.me == s.me
    ensures WillDrain(s, id) <==> WillDrain(t, id)
  {
    hide Ready, Creatable;
  }

  /** Taking the head off the queue of an entry whose save was accepted changes nothing about draining. */
  lemma SaveTaken(s: Sys, id: AttemptId)
    requires HeadStamped(s, id)
    requires var op := s.entries[id].operations[0]; SaveFits(s.db, id, s.me, op.revision, op.id, op.data, true)
    ensures var op := s.entries[id].operations[0];
            var t := SaveRequest(s.db, id, s.me, op.revision, op.id, op.data, true).0;
            && id in t.attempts
            && (WillDrain(s.(db := t), id) <==>
                  WillDrain(Put(s.(db := t), id, Acknowledged(s.entries[id], t.attempts[id])), id))
  {
    hide SaveRequest, Ready, ValidDraft, PackageScenario;
    HeadServed(s, id);
    var op := s.entries[id].operations[0];
    var t := SaveRequest(s.db, id, s.me, op.revision, op.id, op.data, true).0;
    ReadyTaken(t, s.me, t.attempts[id], s.entries[id]);
  }

  // ---- finalizations ----

  ghost predicate SealedBy(db: Db, id: AttemptId, me: Actor, c: Completion) {
    && id in db.attempts && MayEdit(db.attempts[id], me) && db.attempts[id].finalization.Some?
    && db.attempts[id].finalization.value.revision == c.revision
    && db.attempts[id].finalization.value.finished == c.finished
  }

  lemma CompletionBase(s: Sys, id: AttemptId)
    requires Inv(s) && CompletionStampedAt(s, id)
    ensures id in s.db.attempts
    ensures var e, a := s.entries[id], s.db.attempts[id];
            && e.operations == [] && e.completion.value.revision == e.row.revision
            && (a.revision == e.row.revision ==> a == e.row)
            && PackageScenario(s.db.packages, a.package, a.ref).Some?
  {
    assert EntryOk(s, id, s.entries[id]) && RowOk(s.db, id);
    hide EntriesOk, HistoryOk, Valid, QueueShape, QueueMinted, PackageScenario;
  }

  lemma FinalizeReady(s: Sys, id: AttemptId)
    requires Inv(s) && CompletionStampedAt(s, id) && !s.entries[id].error
    ensures var c := s.entries[id].completion.value;
            WillDrain(s, id) <==> MayFinalize(s.db, id, s.me, c.revision, c.finished) || SealedBy(s.db, id, s.me, c)
  {
    hide Inv, Finalizable, Fileable, PackageScenario;
    CompletionBase(s, id);
    var e, a := s.entries[id], s.db.attempts[id];
    var p := PackageScenario(s.db.packages, a.package, a.ref).value;
    assert WillDrain(s, id) <==> Completable(s.db, s.me, a, e, p);
    hide WillDrain;
    assert Filled(a, s.me, e) == a;
  }

  lemma FinalizeServed(s: Sys, id: AttemptId, at: Time)
    requires Inv(s) && CompletionStampedAt(s, id) && !s.entries[id].error
    ensures var c := s.entries[id].completion.value;
            WillDrain(s, id) <==>
            WillDrain(s.(db := FinalizeAttempt(s.db, id, s.me, c.revision, c.finished, at).0), id)
  {
    hide Inv, FinalizeAttempt, Finalizable, Fileable, PackageScenario;
    var c := s.entries[id].completion.value;
    FinalizeAcceptedIff(s.db, id, s.me, c.revision, c.finished, at);
    if MayFinalize(s.db, id, s.me, c.revision, c.finished) {
      FinalizeReady(s, id);
      FinalizeWrites(s.db, id, s.me, c.revision, c.finished, at);
      CompletionBase(s, id);
      SealedReady(s.(db := FinalizeAttempt(s.db, id, s.me, c.revision, c.finished, at).0), id);
    }
  }

  lemma SealedReady(t: Sys, id: AttemptId)
    requires CompletionStampedAt(t, id) && !t.entries[id].error && t.entries[id].operations == []
    requires t.entries[id].completion.value.revision == t.entries[id].row.revision
    requires SealedBy(t.db, id, t.me, t.entries[id].completion.value)
    requires PackageScenario(t.db.packages, t.db.attempts[id].package, t.db.attempts[id].ref).Some?
    ensures WillDrain(t, id)
  {}

  lemma FinalizeTripDrains(s: Sys, id: AttemptId, at: Time, fetched: bool)
    requires Inv(s) && Enabled(s, FinalizeTrip(id, at, fetched))
    ensures WillDrain(s, id) <==> WillDrain(Next(s, FinalizeTrip(id, at, fetched)), id)
  {
    hide Inv, FinalizeAttempt, MayFinalize;
    var c := s.entries[id].completion.value;
    FinalizeTripOutcome(s, id, at, fetched);
    FinalizeReady(s, id);
    FinalizeOkIff(s.db, id, s.me, c.revision, c.finished, at);
    FinalizeTripKeeps(s, id, at, fetched);
    var t := Next(s, FinalizeTrip(id, at, fetched));
    if !t.entries[id].error { NothingLeft(t, id); }
  }

  /** An entry without pending work or error is drained. */
  lemma NothingLeft(t: Sys, id: AttemptId)
    requires Inv(t) && id in t.entries && !t.entries[id].error && !Pending(t.entries[id])
    ensures WillDrain(t, id)
  {
    assert EntryOk(t, id, t.entries[id]);
    assert RowOk(t.db, id);
  }

  // ---- stamping and lost replies ----

  lemma StampDrains(s: Sys, id: AttemptId)
    requires Enabled(s, StampSave(id))
    ensures WillDrain(s, id) <==> WillDrain(Next(s, StampSave(id)), id)
  {
    var e := s.entries[id];
    if e.operations[0].revision == 0 && id in s.db.attempts {
      ReadyStamped(s.db, s.me, s.db.attempts[id], e);
    }
    hide Ready;
  }

  lemma ReadyStamped(db: Db, me: Actor, a: Attempt, e: Entry)
    requires e.operations != []
    ensures Ready(db, me, a, e) <==> Ready(db, me, a, Stamped(e))
  {
    var f := Stamped(e);
    assert |f.operations| == |e.operations|;
    assert forall k :: 0 <= k < |e.operations| ==>
             f.operations[k].data == e.operations[k].data && f.operations[k].id == e.operations[k].id;
    assert LocalData(f) == LocalData(e);
    hide Finalizable, ValidDraft, PackageScenario, Fileable, Stamped, LocalData;
  }

  lemma StampCompletionDrains(s: Sys, id: AttemptId)
    requires Enabled(s, StampCompletion(id))
    ensures WillDrain(s, id) <==> WillDrain(Next(s, StampCompletion(id)), id)
  {
    hide Finalizable, ValidDraft, PackageScenario, Fileable;
  }

  lemma HeadSent(s: Sys, id: AttemptId)
    requires Inv(s) && id in s.entries && s.entries[id].operations != [] && s.entries[id].operations[0].revision != 0
    ensures var op := s.entries[id].operations[0]; AsSent(s, op.id, Sent(id, op.revision, op.data, None))
    ensures Valid(s.db)
  {
    hide Snapshot, HistoryOk, Valid, CompletionOk, LocalRow;
    assert EntryOk(s, id, s.entries[id]);
  }

  lemma SaveArrives(s: Sys, id: AttemptId)
    requires HeadStamped(s, id) && Enabled(s, LateSave(s.entries[id].operations[0].id, true)) && Inv(s)
    ensures var op := s.entries[id].operations[0];
            var t := Next(s, LateSave(op.id, true));
            && t.db == SaveRequest(s.db, id, s.me, op.revision, op.id, op.data, true).0
            && t.entries == s.entries && t.me == s.me
  {
    hide Inv, SaveRequest;
    HeadSent(s, id);
  }

  /** The save arrives and its reply is lost. */
  lemma LateSaveDrains(s: Sys, id: AttemptId)
    requires HeadStamped(s, id) && Enabled(s, LateSave(s.entries[id].operations[0].id, true)) && Inv(s)
    ensures WillDrain(s, id) <==> WillDrain(Next(s, LateSave(s.entries[id].operations[0].id, true)), id)
  {
    hide Inv, SaveRequest, Next, WillDrain;
    SaveServed(s, id);
    SaveArrives(s, id);
    var op := s.entries[id].operations[0];
    var t := Next(s, LateSave(op.id, true));
    DrainsAlike(s.(db := t.db), t, id);
  }

  // ---- what a drained entry has become ----

  /** Nothing else was written on the server. */
  ghost predicate OnlyAttempt(s: Db, t: Db, id: AttemptId) {
    && t.packages == s.packages
    && forall k :: k in s.attempts && k != id ==> k in t.attempts && t.attempts[k] == s.attempts[k]
  }

  predicate SealedRow(db: Db, id: AttemptId) {
    id in db.attempts && db.attempts[id].finalization.Some?
  }

  /** Creating and saving carry the work along: the answers in view and the completion stay, and no record is filed. */
  ghost predicate Carries(s: Sys, id: AttemptId, t: Sys) {
    && OnlyEntry(s, t, id) && OnlyAttempt(s.db, t.db, id) && t.db.evidence == s.db.evidence
    && (SealedRow(t.db, id) <==> SealedRow(s.db, id))
    && var e, f := s.entries[id], t.entries[id];
       && f.completion == e.completion && f.version == e.version && SameWork(LocalData(f), LocalData(e))
       && (Pending(e) && !Pending(f) ==> id in t.db.attempts && f.row == t.db.attempts[id])
  }

  lemma CarriesOn(s: Sys, id: AttemptId, t: Sys, u: Sys)
    requires Carries(s, id, t) && Carries(t, id, u) && Pending(t.entries[id])
    ensures Carries(s, id, u)
  {
    hide LocalData;
  }

  lemma CarriesStart(s: Sys, id: AttemptId)
    requires id in s.entries
    ensures Carries(s, id, s)
  {
    hide LocalData;
  }

  lemma StampCarries(s: Sys, id: AttemptId)
    requires Enabled(s, StampSave(id))
    ensures Carries(s, id, Next(s, StampSave(id)))
  {
    var e := s.entries[id];
    assert |Stamped(e).operations| == |e.operations|;
    assert LocalData(Stamped(e)) == LocalData(e);
    hide LocalData;
  }

  lemma SaveCarries(s: Sys, id: AttemptId, attached: bool, fetched: bool)
    requires Enabled(s, SaveTrip(id, attached, fetched))
    requires !Next(s, SaveTrip(id, attached, fetched)).entries[id].error
    ensures Carries(s, id, Next(s, SaveTrip(id, attached, fetched)))
  {
    var op := s.entries[id].operations[0];
    SaveTripOutcome(s, id, attached, fetched);
    SaveChanges(s.db, id, s.me, op.revision, op.id, op.data, attached);
    SaveTables(s.db, id, s.me, op.revision, op.id, op.data, attached);
    hide SaveRequest;
  }

  lemma SaveTables(db: Db, id: AttemptId, actor: Actor, revision: nat, op: OperationId, data: DraftData, attached: bool)
    ensures var t := SaveRequest(db, id, actor, revision, op, data, attached).0;
            OnlyAttempt(db, t, id) && t.evidence == db.evidence && (SealedRow(t, id) <==> SealedRow(db, id))
  {
    hide ValidDraft, PackageScenario;
  }

  lemma CreateCarries(s: Sys, id: AttemptId, at: Time, fetched: bool)
    requires Enabled(s, CreateTrip(id, at, fetched))
    requires !Next(s, CreateTrip(id, at, fetched)).entries[id].error && Inv(s)
    ensures Carries(s, id, Next(s, CreateTrip(id, at, fetched)))
  {
    hide Inv, StartExecutionAttempt, Creatable;
    CreateTripOutcome(s, id, at, fetched);
    StartTables(s.db, s.entries[id].create.value, id, s.me, at);
    CreateDraft(s, id, at, fetched);
  }

  lemma StartTables(db: Db, c: Creation, id: AttemptId, actor: Actor, at: Time)
    requires Creatable(db, id, c)
    ensures var t := StartExecutionAttempt(db, c.execution, id, c.ref, actor, at).0;
            OnlyAttempt(db, t, id) && t.evidence == db.evidence && (SealedRow(t, id) <==> SealedRow(db, id))
  {
    hide StartDraft, PackageScenario;
  }

  /** The created row holds the draft the device derived for itself. */
  lemma CreateDraft(s: Sys, id: AttemptId, at: Time, fetched: bool)
    requires Enabled(s, CreateTrip(id, at, fetched))
    requires !Next(s, CreateTrip(id, at, fetched)).entries[id].error && Inv(s)
    ensures Next(s, CreateTrip(id, at, fetched)).entries[id].row.data == s.entries[id].row.data
  {
    hide EntriesOk, HistoryOk, Valid, StartExecutionAttempt, Creatable, EntryOk, RowOk, StartedOk;
    var c := s.entries[id].create.value;
    CreateTripOutcome(s, id, at, fetched);
    CreationForeign(s, id, at);
    OtherKeeps(s, Start(c.execution, id, c.ref, s.me, at));
    var t := s.(db := Next(s, CreateTrip(id, at, fetched)).db);
    assert Inv(t);
    StoredDraft(t, id);
  }

  lemma StoredDraft(t: Sys, id: AttemptId)
    requires Inv(t) && id in t.entries && t.entries[id].create.Some? && id in t.db.attempts
    requires t.db.attempts[id].revision == 1 && t.db.attempts[id].finalization.None?
    ensures t.db.attempts[id].data == t.entries[id].row.data
  {
    hide EntryOk, StartedOk;
    assert EntryOk(t, id, t.entries[id]) && RowOk(t.db, id);
    assert id in t.started ==> StartedOk(t, id, t.started[id]);
    CreatedAsDerived(t, id, t.entries[id], Row(id, t.db.attempts[id]));
  }

  /** What a drained entry has become: the row stored on the server, holding the answers that were in view. Without a
      completion no record is filed; with one there is exactly one more, made from that row, unless the attempt had been
      sealed under this completion before. */
  ghost predicate Settled(s: Sys, id: AttemptId, t: Sys) {
    && OnlyEntry(s, t, id) && OnlyAttempt(s.db, t.db, id)
    && var e, f := s.entries[id], t.entries[id];
       && !f.error && !Pending(f) && f.version == e.version
       && (Pending(e) ==> id in t.db.attempts && f.row == t.db.attempts[id])
       && (!SealedRow(s.db, id) ==> SameWork(f.row.data, LocalData(e)))
       && (e.completion.Some? ==>
             f.row.finalization.Some? && f.row.finalization.value.finished == e.completion.value.finished)
       && if e.completion.None? || SealedRow(s.db, id) then t.db.evidence == s.db.evidence
          else Filed(s.db, t.db, id, f.row, e.completion.value.finished)
  }

  /** One more record than before: that of the attempt, as the row says. */
  ghost predicate Filed(s: Db, t: Db, id: AttemptId, a: Attempt, finished: Time) {
    var p := PackageScenario(s.packages, a.package, a.ref);
    && |t.evidence| == |s.evidence| + 1 && t.evidence[..|s.evidence|] == s.evidence
    && p.Some? && RecordFor(t.evidence[|s.evidence|], id, a, p.value, finished, None)
  }

  lemma FinalizeFiles(db: Db, id: AttemptId, actor: Actor, revision: nat, finished: Time, at: Time)
    requires MayFinalize(db, id, actor, revision, finished)
    ensures var t := FinalizeAttempt(db, id, actor, revision, finished, at).0;
            && id in t.attempts && OnlyAttempt(db, t, id) && Filed(db, t, id, t.attempts[id], finished)
            && t.attempts[id].data == db.attempts[id].data
  {
    FinalizeWrites(db, id, actor, revision, finished, at);
    hide FinalizeAttempt, Finalizable, Fileable, PackageScenario;
  }

  lemma FinalizeSettles(s: Sys, id: AttemptId, at: Time, fetched: bool)
    requires Enabled(s, FinalizeTrip(id, at, fetched))
    requires !Next(s, FinalizeTrip(id, at, fetched)).entries[id].error && Inv(s)
    ensures Settled(s, id, Next(s, FinalizeTrip(id, at, fetched)))
  {
    hide Inv, FinalizeAttempt, Filed, Finalizable, Fileable, PackageScenario;
    var c := s.entries[id].completion.value;
    FinalizeTripOutcome(s, id, at, fetched);
    FinalizeAcceptedIff(s.db, id, s.me, c.revision, c.finished, at);
    FinalizeOkIff(s.db, id, s.me, c.revision, c.finished, at);
    CompletionBase(s, id);
    assert Next(s, FinalizeTrip(id, at, fetched)).db == FinalizeAttempt(s.db, id, s.me, c.revision, c.finished, at).0;
    if MayFinalize(s.db, id, s.me, c.revision, c.finished) {
      FinalizeFiles(s.db, id, s.me, c.revision, c.finished, at);
    }
    hide Next, Enabled;
  }

  /** Work carried along and then settled is settled. */
  lemma CarriesSettled(s: Sys, id: AttemptId, t: Sys, u: Sys)
    requires Carries(s, id, t) && Settled(t, id, u) && (t == u || Pending(t.entries[id]))
    ensures Settled(s, id, u) && id in u.entries && !u.entries[id].error && !Pending(u.entries[id])
  {
    hide LocalData, RecordFor, PackageScenario;
  }

  lemma NothingToSettle(s: Sys, id: AttemptId)
    requires id in s.entries && !s.entries[id].error && !Pending(s.entries[id])
    ensures Settled(s, id, s)
  {}

  // ---- recovery ----

  ghost predicate DraftFits(db: Db, a: Attempt, d: DraftData) {
    var p := PackageScenario(db.packages, a.package, a.ref);
    p.Some? && ValidDraft(p.value.procedure, d)
  }

  lemma ReadyResolved(db: Db, me: Actor, a: Attempt, e: Entry, remote: Attempt, op: OperationId)
    requires a.lastOperation != Some(op)
    ensures Ready(db, me, a, Resolved(e, remote, true, op)) <==>
            a == remote && Writable(db, me, a) && DraftFits(db, a, LocalData(e))
  {
    hide ValidDraft, PackageScenario, LocalData;
  }

  /** Keeping the local answers: they wait alone, based on the row that was chosen, and drain exactly if that row is
      still the stored one, the attempt is open to the user and the draft is valid. */
  lemma KeepLocalDrains(s: Sys, id: AttemptId, remote: Row, op: OperationId)
    requires Enabled(s, Resolve(id, true, remote, op, 3))
    ensures var t := Next(s, Resolve(id, true, remote, op, 3));
            && remote.id in t.entries && (id != remote.id ==> id !in t.entries) && t.db == s.db
            && t.archive == s.archive + [Archived(id, s.entries[id])]
            && LocalData(t.entries[remote.id]) == LocalData(s.entries[id])
            && t.entries[remote.id].row == remote.attempt && t.entries[remote.id].completion.None?
            && remote.id in s.db.attempts
            && var a := s.db.attempts[remote.id];
               (WillDrain(t, remote.id) <==>
                  a == remote.attempt && Writable(s.db, s.me, a) && DraftFits(s.db, a, LocalData(s.entries[id])))
  {
    hide Ready, DraftFits, Writable;
    ReadyResolved(s.db, s.me, s.db.attempts[remote.id], s.entries[id], remote.attempt, op);
  }

  /** Taking the server's row: the entry shows it and nothing is pending. */
  lemma TakeRemoteDrains(s: Sys, id: AttemptId, remote: Row, op: OperationId)
    requires Enabled(s, Resolve(id, false, remote, op, 3)) && Inv(s)
    ensures var t := Next(s, Resolve(id, false, remote, op, 3));
            && remote.id in t.entries && (id != remote.id ==> id !in t.entries) && t.db == s.db
            && t.archive == s.archive + [Archived(id, s.entries[id])]
            && t.entries[remote.id].row == remote.attempt && !Pending(t.entries[remote.id]) && WillDrain(t, remote.id)
  {
    hide Inv, WillDrain, NewOperation, Snapshot;
    NextKeeps(s, Resolve(id, false, remote, op, 3));
    RemoteTaken(s, id, remote, op);
    hide Next, Enabled;
    NothingLeft(Next(s, Resolve(id, false, remote, op, 3)), remote.id);
  }

  lemma RemoteTaken(s: Sys, id: AttemptId, remote: Row, op: OperationId)
    requires Enabled(s, Resolve(id, false, remote, op, 3))
    ensures var t := Next(s, Resolve(id, false, remote, op, 3));
            && remote.id in t.entries && (id != remote.id ==> id !in t.entries) && t.db == s.db
            && t.archive == s.archive + [Archived(id, s.entries[id])]
            && t.entries[remote.id].row == remote.attempt && !Pending(t.entries[remote.id])
            && !t.entries[remote.id].error
  {
    hide NewOperation, Snapshot;
  }

  /** Trying a refused creation again: the entry is as before, without the error, and drains exactly if the creation
      can succeed now and its queue after it. */
  lemma RetryDrains(s: Sys, id: AttemptId)
    requires Enabled(s, Retry(id))
    ensures var t := Next(s, Retry(id));
            && OnlyEntry(s, t, id) && t.db == s.db
            && var e, f := s.entries[id], t.entries[id];
               && !f.error && f.create == e.create && f.operations == e.operations && f.completion == e.completion
               && LocalData(f) == LocalData(e)
               && (WillDrain(t, id) <==> WillDrain(Put(s, id, e.(error := false)), id))
  {
    hide Creatable, Ready;
    var e := s.entries[id];
    if Creatable(s.db, id, e.create.value) {
      RetryReady(s.db, s.me, CreatedRow(s.db, s.me, id, e), e);
    }
  }

  lemma RetryReady(db: Db, me: Actor, a: Attempt, e: Entry)
    ensures Ready(db, me, a, e.(row := a, error := false)) <==> Ready(db, me, a, Retried(e).(row := a))
  {
    hide Finalizable, ValidDraft, PackageScenario, Fileable;
  }

  // ---- the user's own steps ----

  /** The entry after an edit: the edit is the last of the queue, unsent; what was stamped before it stays as it was
      sent, an unsent predecessor is superseded, and the rest is as before. */
  ghost predicate Edited(e: Entry, f: Entry, data: DraftData, op: OperationId) {
    && f.row == e.row && f.create == e.create && f.completion == e.completion && f.error == e.error
    && f.conflict == e.conflict && f.version == e.version + 1
    && f.operations != [] && f.operations[|f.operations| - 1] == Operation(op, data, 0)
    && forall o :: o in f.operations[..|f.operations| - 1] <==> o in e.operations && o.revision != 0
  }

  lemma EditedQueue(e: Entry, data: DraftData, op: OperationId)
    requires QueueShape(e.operations)
    ensures Edited(e, SaveEntry(e, data, op), data, op)
  {
    var q := e.operations;
    var kept := if q != [] && q[|q| - 1].revision == 0 then q[..|q| - 1] else q;
    assert SaveEntry(e, data, op).operations[..|kept|] == kept;
    if |q| == 1 {
      assert q == [q[0]];
    } else if |q| == 2 {
      assert q == [q[0], q[1]] && kept == [q[0]];
    }
  }

  lemma SaveLocalOutcome(s: Sys, id: AttemptId, version: nat, data: DraftData, op: OperationId)
    requires Enabled(s, SaveLocal(id, version, data, op)) && Inv(s)
    ensures var t := Next(s, SaveLocal(id, version, data, op));
            OnlyEntry(s, t, id) && t.db == s.db && Edited(s.entries[id], t.entries[id], data, op)
  {
    hide Inv, NewOperation, Edited, SaveEntry, QueueShape;
    QueueOf(s, id);
    EditedQueue(s.entries[id], data, op);
  }

  lemma QueueOf(s: Sys, id: AttemptId)
    requires Inv(s) && id in s.entries
    ensures QueueShape(s.entries[id].operations)
  {
    assert EntryOk(s, id, s.entries[id]);
    hide QueueShape, Snapshot, LocalRow, CompletionOk;
  }

  /** A row shown by the server replaces an entry without pending work, whose version moves on exactly if the revision
      did; pending work stays. */
  lemma RememberOutcome(s: Sys, id: AttemptId, row: Attempt)
    requires Enabled(s, Remember(id, row))
    ensures var t := Next(s, Remember(id, row));
            && t.db == s.db && t.entries.Keys == s.entries.Keys + {id}
            && (forall k :: k in s.entries && k != id ==> t.entries[k] == s.entries[k])
            && var f := t.entries[id];
               if id in s.entries && Pending(s.entries[id]) then f == s.entries[id]
               else
                 && f.row == row && !Pending(f) && !f.error && LocalData(f) == row.data
                 && (id in s.entries ==>
                       (f.version == s.entries[id].version <==> row.revision == s.entries[id].row.revision) &&
                       f.version >= s.entries[id].version)
  {
    hide Snapshot;
  }

  /** Beginning offline: a new entry over the draft the server would start, waiting to be created. */
  lemma BeginOutcome(s: Sys, id: AttemptId, e: ExecutionId, ref: Ref, created: Time)
    requires Enabled(s, Begin(id, e, ref, created))
    ensures var t := Next(s, Begin(id, e, ref, created));
            && t.db == s.db && t.entries.Keys == s.entries.Keys + {id} && id !in s.entries
            && (forall k :: k in s.entries ==> t.entries[k] == s.entries[k])
            && var f, x := t.entries[id], s.db.executions[e];
               && f.create == Some(Creation(e, ref)) && f.operations == [] && f.completion.None? && !f.error
               && var p := PackageScenario(s.db.packages, x.package, ref);
                  && p.Some? && FreshDraft(LocalData(f), x, p.value.procedure, s.me)
                  && LocalData(f).evidenceType == p.value.defaults.evidenceType
                  && LocalData(f).metadata == p.value.defaults.metadata
  {
    hide InitialAnswers, PackageScenario;
  }

  /** Reloading a conflict keeps the entry and shows the row just fetched. */
  lemma ConflictOutcome(s: Sys, id: AttemptId, remote: Row)
    requires Enabled(s, Reload(id, remote))
    ensures var t := Next(s, Reload(id, remote));
            && OnlyEntry(s, t, id) && t.db == s.db
            && Halts(s.entries[id], t.entries[id]) && t.entries[id].conflict == Some(remote)
  {
    hide Snapshot;
  }

  /** Giving up a refused creation archives the entry, then drops it. */
  lemma GiveUpOutcome(s: Sys, id: AttemptId)
    requires Enabled(s, ArchiveCreate(id, 2))
    ensures var t := Next(s, ArchiveCreate(id, 2));
            && t.db == s.db && t.entries == s.entries - {id} && t.archive == s.archive + [Archived(id, s.entries[id])]
  {}
}
