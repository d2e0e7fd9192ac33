/** Whole-run theorems of offline synchronization. */
module SyncTheorems {
  import opened Base
  import opened CampaignServer
  import opened CampaignInvariants
  import opened Journal
  import opened Sync
  import opened SyncInvariants
  import opened SyncSteps

  // ---- runs ----

  ghost predicate Begins(s: Sys) {
    && Initial(s.db) && s.entries == map[] && s.archive == [] && s.started == map[] && s.minted == map[]
    && s.sent == map[] && s.accepted == {} && s.saved == map[]
  }

  /** `ss` are the states of a run and `acts` the steps between them. */
  ghost predicate Trace(ss: seq<Sys>, acts: seq<Action>) {
    && |ss| == |acts| + 1 && Begins(ss[0])
    && forall i :: 0 <= i < |acts| ==> Enabled(ss[i], acts[i]) && ss[i + 1] == Next(ss[i], acts[i])
  }

  lemma {:induction false} TraceInv(ss: seq<Sys>, acts: seq<Action>, n: nat)
    requires Trace(ss, acts) && n < |ss|
    ensures Inv(ss[n])
  {
    if n > 0 {
      TraceInv(ss, acts, n - 1);
      NextKeeps(ss[n - 1], acts[n - 1]);
    }
  }

  ghost predicate Grows(s: Sys, t: Sys) {
    && Evolves(s.db, t.db)
    && s.me == t.me
    && (forall op :: op in s.minted ==> op in t.minted && t.minted[op] == s.minted[op])
    && (forall op :: op in s.sent ==> op in t.sent && t.sent[op] == s.sent[op])
    && s.accepted <= t.accepted
  }

  predicate Asks(a: Action) {
    a.CreateTrip? || a.FinalizeTrip? || a.SaveTrip? || a.LateSave? || a.Other?
  }

  // ---- what one step does, apart from the journal entries ----

  /** The request a step makes of the server, if it makes one. */
  ghost function RequestOf(s: Sys, a: Action): Option<Request>
    requires Enabled(s, a)
    ensures RequestOf(s, a).Some? <==> Asks(a)
  {
    match a
    case CreateTrip(id, at, _) =>
      var c := s.entries[id].create.value; Some(Start(c.execution, id, c.ref, s.me, at))
    case SaveTrip(id, attached, _) =>
      var op := s.entries[id].operations[0]; Some(Request.Save(id, s.me, op.revision, op.id, op.data, attached))
    case FinalizeTrip(id, at, _) =>
      var c := s.entries[id].completion.value; Some(Finalize(id, s.me, c.revision, c.finished, at))
    case LateSave(op, attached) =>
      var m := s.sent[op]; Some(Request.Save(m.id, s.me, m.revision, op, m.data, attached))
    case Other(q) => Some(q)
    case _ => None
  }

  /** Requests move the server and leave everything the device has recorded alone. */
  lemma RequestStep(s: Sys, a: Action)
    requires Enabled(s, a) && Asks(a)
    ensures var t := Next(s, a);
            && t.db == Apply(s.db, RequestOf(s, a).value) && t.me == s.me && s.accepted <= t.accepted
            && t.sent == s.sent && t.minted == s.minted && t.saved == s.saved && t.archive == s.archive
  {
    hide SaveRequest, FinalizeAttempt, StartExecutionAttempt, SetExecutionClosed, CreateAttempt, CreateExecution, Fetch;
  }

  /** Edits of one entry leave the server and all records alone, but for what a save mints. */
  lemma EditStep(s: Sys, a: Action)
    requires Enabled(s, a)
    requires a.Begin? || a.Remember? || a.SaveLocal? || a.CompleteLocal? || a.Reload? || a.Retry?
    ensures var t := Next(s, a);
            && t.db == s.db && t.me == s.me && t.accepted == s.accepted && t.sent == s.sent && t.archive == s.archive
            && (if a.SaveLocal? then t.minted == s.minted[a.op := a.id] && NewOperation(s, a.op)
                else t.minted == s.minted && t.saved == s.saved)
  {
    hide Snapshot, LocalData, StartDraft, NewOperation;
  }

  /** So do the local parts of synchronizing, but for what stamping sends. */
  lemma StampStep(s: Sys, a: Action)
    requires Enabled(s, a) && (a.StampSave? || a.StampCompletion? || a.Refuse?)
    ensures a.id in s.entries && (a.StampSave? ==> s.entries[a.id].operations != [])
    ensures var t := Next(s, a);
            && t.db == s.db && t.me == s.me && t.accepted == s.accepted && t.minted == s.minted && t.saved == s.saved
            && t.archive == s.archive
            && (if a.StampSave? && s.entries[a.id].operations[0].revision == 0
                then var e := s.entries[a.id];
                     var op := e.operations[0];
                     t.sent == s.sent[op.id := Sent(a.id, e.row.revision, op.data, Some(e.row))]
                else t.sent == s.sent)
  {
    hide Snapshot;
  }

  lemma ArchiveStep(s: Sys, a: Action)
    requires Enabled(s, a) && a.ArchiveCreate?
    ensures a.id in s.entries
    ensures var t := Next(s, a);
            && t.db == s.db && t.me == s.me && t.accepted == s.accepted && t.minted == s.minted && t.saved == s.saved
            && t.sent == s.sent && t.archive == s.archive + [Archived(a.id, s.entries[a.id])]
  {}

  lemma ResolveAllowed(s: Sys, a: Action)
    requires Enabled(s, a) && a.Resolve?
    ensures a.id in s.entries && a.remote.attempt.revision >= 1 && (a.local ==> NewOperation(s, a.op))
    ensures Next(s, a) == ResolveDone(s, a.id, a.local, a.remote, a.op, a.puts)
  {
    hide RowEvolves, ResolveDone, NewOperation;
  }

  lemma ResolveArchives(s: Sys, a: Action)
    requires Enabled(s, a) && a.Resolve?
    ensures a.id in s.entries
    ensures var t := Next(s, a);
            && t.db == s.db && t.me == s.me && t.accepted == s.accepted && t.saved == s.saved
            && t.archive == s.archive + [Archived(a.id, s.entries[a.id])]
  {
    hide Next, Enabled, LocalData, Resolved, NewOperation;
    ResolveAllowed(s, a);
  }

  lemma ResolveSends(s: Sys, a: Action)
    requires Enabled(s, a) && a.Resolve?
    ensures a.id in s.entries
    ensures var t := Next(s, a);
            if a.local && a.puts >= 2
            then t.minted == s.minted[a.op := a.remote.id] && t.sent == s.sent[a.op := ResolutionSent(s, a)]
            else t.minted == s.minted && t.sent == s.sent
  {
    hide Next, Enabled, LocalData, Resolved, NewOperation;
    ResolveAllowed(s, a);
  }

  /** A resolution archives the entry it resolves, and sends what it keeps of it. */
  lemma ResolveStep(s: Sys, a: Action)
    requires Enabled(s, a) && a.Resolve?
    ensures a.id in s.entries && (a.local ==> NewOperation(s, a.op))
    ensures var t := Next(s, a);
            && t.db == s.db && t.me == s.me && t.accepted == s.accepted && t.saved == s.saved
            && t.archive == s.archive + [Archived(a.id, s.entries[a.id])]
            && (if a.local && a.puts >= 2
                then t.minted == s.minted[a.op := a.remote.id] && t.sent == s.sent[a.op := ResolutionSent(s, a)]
                else t.minted == s.minted && t.sent == s.sent)
  {
    hide Next, Enabled, NewOperation, ResolutionSent, ResolveDone;
    ResolveAllowed(s, a);
    ResolveArchives(s, a);
    ResolveSends(s, a);
  }

  ghost function ResolutionSent(s: Sys, a: Action): Sent
    requires a.Resolve? && a.id in s.entries
  {
    var e := s.entries[a.id];
    Sent(a.remote.id, a.remote.attempt.revision, LocalData(e),
         if e.conflict.Some? then Some(e.conflict.value.attempt) else None)
  }

  /** What any step leaves behind besides its entry. */
  ghost predicate Recorded(s: Sys, a: Action, t: Sys) {
    && t.me == s.me && s.accepted <= t.accepted
    && (Asks(a) ==> t.sent == s.sent && t.minted == s.minted) && (!Asks(a) ==> t.db == s.db)
    && (!a.SaveLocal? ==> t.saved == s.saved)
    && (t.archive == s.archive ||
        (!Asks(a) && a.id in s.entries && t.archive == s.archive + [Archived(a.id, s.entries[a.id])]))
  }

  lemma StepRecorded(s: Sys, a: Action)
    requires Enabled(s, a)
    ensures Recorded(s, a, Next(s, a))
  {
    hide Next, Enabled, NewOperation, LocalData, Apply;
    match a
    case Resolve(_, _, _, _, _) => ResolveStep(s, a);
    case ArchiveCreate(_, _) => ArchiveStep(s, a);
    case StampSave(_) => StampStep(s, a);
    case StampCompletion(_) => StampStep(s, a);
    case Refuse(_, _) => StampStep(s, a);
    case CreateTrip(_, _, _) => RequestStep(s, a);
    case SaveTrip(_, _, _) => RequestStep(s, a);
    case FinalizeTrip(_, _, _) => RequestStep(s, a);
    case LateSave(_, _) => RequestStep(s, a);
    case Other(_) => RequestStep(s, a);
    case _ => EditStep(s, a);
  }

  lemma RequestGrows(s: Sys, a: Action)
    requires Valid(s.db) && Enabled(s, a) && Asks(a)
    ensures Evolves(s.db, Next(s, a).db)
  {
    hide Next, Enabled, Valid, Evolves, Apply;
    RequestStep(s, a);
    ApplyKeeps(s.db, RequestOf(s, a).value);
  }

  /** A step that mints or sends an operation does so for one that was not there. */
  lemma LocalAdds(s: Sys, a: Action)
    requires Enabled(s, a) && !Asks(a)
    ensures var t := Next(s, a);
            match a
            case SaveLocal(id, _, _, op) => t.sent == s.sent && t.minted == s.minted[op := id] && NewOperation(s, op)
            case StampSave(id) =>
              && t.minted == s.minted && id in s.entries && s.entries[id].operations != []
              && (t.sent == s.sent ||
                  (s.entries[id].operations[0].revision == 0 &&
                   s.entries[id].operations[0].id in t.sent &&
                   t.sent == s.sent[s.entries[id].operations[0].id := t.sent[s.entries[id].operations[0].id]]))
            case Resolve(_, local, remote, op, _) =>
              || (t.minted == s.minted && t.sent == s.sent)
              || (local && NewOperation(s, op) && t.minted == s.minted[op := remote.id] && op in t.sent &&
                  t.sent == s.sent[op := t.sent[op]])
            case _ => t.minted == s.minted && t.sent == s.sent
  {
    hide Next, Enabled, NewOperation, LocalData, ResolutionSent;
    match a
    case Resolve(_, _, _, _, _) => ResolveStep(s, a);
    case ArchiveCreate(_, _) => ArchiveStep(s, a);
    case StampSave(_) => StampStep(s, a);
    case StampCompletion(_) => StampStep(s, a);
    case Refuse(_, _) => StampStep(s, a);
    case _ => EditStep(s, a);
  }

  lemma LocalGrows(s: Sys, a: Action)
    requires EntriesOk(s) && HistoryOk(s) && Enabled(s, a) && !Asks(a)
    ensures forall op :: op in s.minted ==> op in Next(s, a).minted && Next(s, a).minted[op] == s.minted[op]
    ensures forall op :: op in s.sent ==> op in Next(s, a).sent && Next(s, a).sent[op] == s.sent[op]
  {
    hide Next, Enabled, EntriesOk, HistoryOk;
    LocalAdds(s, a);
    if a.StampSave? {
      UnstampedUnsent(s, a.id);
    } else if a.Resolve? && a.local && NewOperation(s, a.op) {
      NewUnsent(s, a.op);
    }
  }

  lemma UnstampedUnsent(s: Sys, id: AttemptId)
    requires EntriesOk(s) && id in s.entries && s.entries[id].operations != []
    ensures s.entries[id].operations[0].revision == 0 ==> s.entries[id].operations[0].id !in s.sent
  {
    assert EntryOk(s, id, s.entries[id]);
  }

  lemma NewUnsent(s: Sys, op: OperationId)
    requires HistoryOk(s) && op !in s.minted
    ensures op !in s.sent
  {
  }

  lemma NextGrows(s: Sys, a: Action)
    requires Inv(s) && Enabled(s, a)
    ensures Grows(s, Next(s, a))
  {
    hide Valid, EntriesOk, HistoryOk, Evolves, Next, Enabled;
    StepRecorded(s, a);
    if Asks(a) {
      RequestGrows(s, a);
    } else {
      LocalGrows(s, a);
      EvolvesReflexive(s.db);
    }
  }

  lemma {:induction false} TraceGrows(ss: seq<Sys>, acts: seq<Action>, i: nat, j: nat)
    requires Trace(ss, acts) && i <= j < |ss|
    ensures Grows(ss[i], ss[j])
    decreases j
  {
    hide Inv, Evolves, Next, Enabled;
    if i < j {
      TraceGrows(ss, acts, i, j - 1);
      TraceInv(ss, acts, j - 1);
      NextGrows(ss[j - 1], acts[j - 1]);
      EvolvesTransitive(ss[i].db, ss[j - 1].db, ss[j].db);
    } else {
      EvolvesReflexive(ss[i].db);
    }
  }

  // ---- exactly once ----

  /** Between `s` and `t` the save `op` became the content of the attempt. */
  ghost predicate TookEffect(s: Db, t: Db, id: AttemptId, op: OperationId) {
    && id in s.attempts && id in t.attempts
    && s.attempts[id].revision < t.attempts[id].revision
    && t.attempts[id].lastOperation == Some(op) && t.attempts[id].lastBase == s.attempts[id].revision
  }

  /** However often requests are lost, repeated or delayed, a journaled save changes the server at most once. */
  lemma SavesAtMostOnce(ss: seq<Sys>, acts: seq<Action>, i: nat, j: nat, id: AttemptId, id': AttemptId, op: OperationId)
    requires Trace(ss, acts) && i < j < |acts|
    requires op in ss[i].minted
    ensures !(TookEffect(ss[i].db, ss[i + 1].db, id, op) && TookEffect(ss[j].db, ss[j + 1].db, id', op))
  {
    if TookEffect(ss[i].db, ss[i + 1].db, id, op) && TookEffect(ss[j].db, ss[j + 1].db, id', op) {
      TraceGrows(ss, acts, i, i + 1);
      TraceGrows(ss, acts, i + 1, j);
      TraceGrows(ss, acts, i + 1, j + 1);
      EffectIsSent(ss, acts, i, id, op);
      EffectIsSent(ss, acts, j, id', op);
      assert false;
    }
  }

  lemma EffectIsSent(ss: seq<Sys>, acts: seq<Action>, i: nat, id: AttemptId, op: OperationId)
    requires Trace(ss, acts) && i < |acts|
    requires op in ss[i + 1].minted && TookEffect(ss[i].db, ss[i + 1].db, id, op)
    ensures op in ss[i + 1].sent && ss[i + 1].sent[op].id == id
    ensures ss[i + 1].sent[op].revision == ss[i].db.attempts[id].revision
  {
    TraceInv(ss, acts, i + 1);
    assert ServerOp(ss[i + 1], id, ss[i + 1].db.attempts[id]);
  }

  // ---- no lost update ----

  /** The step that put `op` on the wire, and the row the journal held or showed when it did. */
  ghost predicate SentAt(s: Sys, a: Action, op: OperationId, m: Sent) {
    || (a.StampSave? && a.id in s.entries && m.id == a.id && m.shown == Some(s.entries[a.id].row) &&
        s.entries[a.id].operations != [] && s.entries[a.id].operations[0].id == op)
    || (a.Resolve? && a.local && a.op == op && a.id in s.entries &&
        m.shown == (if s.entries[a.id].conflict.Some? then Some(s.entries[a.id].conflict.value.attempt) else None))
  }

  lemma {:induction false} SentOrigin(ss: seq<Sys>, acts: seq<Action>, n: nat, op: OperationId)
    requires Trace(ss, acts) && n < |ss| && op in ss[n].sent
    ensures exists i :: 0 <= i < n && SentAt(ss[i], acts[i], op, ss[n].sent[op])
  {
    var s, a := ss[n - 1], acts[n - 1];
    TraceInv(ss, acts, n - 1);
    NextGrows(s, a);
    if op in s.sent {
      SentOrigin(ss, acts, n - 1, op);
      var i :| 0 <= i < n - 1 && SentAt(ss[i], acts[i], op, ss[n - 1].sent[op]);
      assert SentAt(ss[i], acts[i], op, ss[n].sent[op]);
    } else {
      StepRecorded(s, a);
      SendStep(s, a, op);
    }
  }

  lemma SendStep(s: Sys, a: Action, op: OperationId)
    requires Enabled(s, a) && !Asks(a) && op !in s.sent && op in Next(s, a).sent
    ensures SentAt(s, a, op, Next(s, a).sent[op])
  {
    hide Next, Enabled, NewOperation, LocalData;
    LocalAdds(s, a);
    if a.StampSave? { StampStep(s, a); }
    if a.Resolve? { ResolveStep(s, a); }
  }

  /** Whatever a save of this device overwrites is the very row the journal held when its base was stamped, or the
      conflicting row a `resolve` was shown; only a `resolve` without a recorded conflict had none. */
  lemma NoLostUpdate(ss: seq<Sys>, acts: seq<Action>, j: nat, id: AttemptId, op: OperationId)
    requires Trace(ss, acts) && j < |acts|
    requires op in ss[j].minted && TookEffect(ss[j].db, ss[j + 1].db, id, op)
    ensures op in ss[j + 1].sent
    ensures exists i :: 0 <= i <= j && SentAt(ss[i], acts[i], op, ss[j + 1].sent[op])
    ensures ss[j + 1].sent[op].shown.Some? ==> ss[j].db.attempts[id] == ss[j + 1].sent[op].shown.value
  {
    TraceGrows(ss, acts, j, j + 1);
    EffectIsSent(ss, acts, j, id, op);
    SentOrigin(ss, acts, j + 1, op);
    TraceInv(ss, acts, j);
    SentBeforeEffect(ss[j], acts[j], id, op);
    assert SentOk(ss[j], op, ss[j].sent[op]);
  }

  /** No step both sends a save and lets it take effect. */
  lemma SentBeforeEffect(s: Sys, a: Action, id: AttemptId, op: OperationId)
    requires Inv(s) && Enabled(s, a) && TookEffect(s.db, Next(s, a).db, id, op) && op in Next(s, a).sent
    ensures op in s.sent && Next(s, a).sent[op] == s.sent[op]
  {
    hide Next, Enabled, Inv;
    StepRecorded(s, a);
  }
}
