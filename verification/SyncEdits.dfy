/** What an edit made on this device replaces on the server: never somebody else's work that its maker had not seen. */
module SyncEdits {
  import opened Base
  import opened CampaignServer
  import opened CampaignInvariants
  import opened Journal
  import opened Sync
  import opened SyncInvariants
  import opened SyncSteps
  import opened SyncTheorems
  import opened SyncOutcomes

  // ---- an edit that waits ----

  /** The edit is the newest of its attempt's queue and has not been stamped. */
  predicate Waits(s: Sys, id: AttemptId, op: OperationId) {
    && id in s.entries && s.entries[id].operations != []
    && Tail(s.entries[id]).id == op && Tail(s.entries[id]).revision == 0
  }

  /** One step of an entry under a waiting edit: nothing; the creation confirmed as it was derived; or the stamped head
      acknowledged by a row that saw it last. */
  ghost predicate Moves(e: Entry, f: Entry) {
    || (f.row == e.row && f.create == e.create && f.operations == e.operations)
    || (e.create.Some? && f.create.None? && f.operations == e.operations && f.row.revision == 1 &&
        f.row.data == e.row.data)
    || (e.create.None? && f.create.None? && e.operations != [] && e.operations[0].revision != 0 &&
        f.operations == e.operations[1..] && f.row.lastOperation == Some(e.operations[0].id))
  }

  /** An edit that still waits after a step waited before it, under an entry that moved in one of those ways. */
  ghost predicate WaitedUnder(s: Sys, t: Sys, id: AttemptId, op: OperationId) {
    Waits(t, id, op) ==> Waits(s, id, op) && Moves(s.entries[id], t.entries[id])
  }

  lemma SameEntry(s: Sys, t: Sys, id: AttemptId, op: OperationId)
    requires id in s.entries && id in t.entries && Moves(s.entries[id], t.entries[id])
    ensures WaitedUnder(s, t, id, op)
  {}

  // ---- step by step ----

  /** A fetched row never replaces one under a pending entry. */
  lemma RememberMoves(s: Sys, a: Action, id: AttemptId, op: OperationId)
    requires Enabled(s, a) && (a.Remember? || a.Begin?)
    ensures WaitedUnder(s, Next(s, a), id, op)
  {
    hide Snapshot, StartDraft;
  }

  lemma SaveLocalMoves(s: Sys, a: Action, id: AttemptId, op: OperationId)
    requires Enabled(s, a) && a.SaveLocal? && op in s.minted
    ensures WaitedUnder(s, Next(s, a), id, op)
  {}

  lemma EditMoves(s: Sys, a: Action, id: AttemptId, op: OperationId)
    requires Enabled(s, a) && (a.CompleteLocal? || a.Reload? || a.Retry? || a.ArchiveCreate?)
    ensures WaitedUnder(s, Next(s, a), id, op)
  {
    hide Snapshot, LocalData;
  }

  lemma HaltMoves(s: Sys, a: Action, id: AttemptId, op: OperationId)
    requires Enabled(s, a) && (a.StampCompletion? || a.Refuse?)
    ensures WaitedUnder(s, Next(s, a), id, op)
  {
    hide Snapshot;
  }

  /** A stamped edit waits no longer. */
  lemma StampMoves(s: Sys, a: Action, id: AttemptId, op: OperationId)
    requires Inv(s) && Enabled(s, a) && a.StampSave?
    ensures WaitedUnder(s, Next(s, a), id, op)
  {
    hide Inv;
    RowRevision(s, a.id);
    HeadAlone(s, a.id);
  }

  lemma RowRevision(s: Sys, id: AttemptId)
    requires Inv(s) && id in s.entries && s.entries[id].create.None?
    ensures s.entries[id].row.revision >= 1
  {
    assert EntryOk(s, id, s.entries[id]);
  }

  lemma ServerMoves(s: Sys, a: Action, id: AttemptId, op: OperationId)
    requires Enabled(s, a) && (a.LateSave? || a.Other? || a.FinalizeTrip?)
    ensures WaitedUnder(s, Next(s, a), id, op)
  {
    hide SaveRequest, Apply, FinalizeAttempt, Fetch;
  }

  lemma ResolveMoves(s: Sys, a: Action, id: AttemptId, op: OperationId)
    requires Enabled(s, a) && a.Resolve?
    ensures WaitedUnder(s, Next(s, a), id, op)
  {
    hide Next, Enabled;
    ResolveOthers(s, a);
    if a.puts >= 2 { ResolveLanding(s, a); }
  }

  /** An acknowledged head leaves a row that saw it last. */
  lemma SaveTripMoves(s: Sys, a: Action, id: AttemptId, op: OperationId)
    requires Enabled(s, a) && a.SaveTrip?
    ensures WaitedUnder(s, Next(s, a), id, op)
  {
    var head := s.entries[a.id].operations[0];
    SaveChanges(s.db, a.id, s.me, head.revision, head.id, head.data, a.attached);
    hide SaveRequest, Fetch, Attributed;
  }

  /** A confirmed creation leaves the draft the device derived, at its first revision; anything else is a conflict. */
  lemma CreateTripMoves(s: Sys, a: Action, id: AttemptId, op: OperationId)
    requires Inv(s) && Enabled(s, a) && a.CreateTrip?
    ensures WaitedUnder(s, Next(s, a), id, op)
  {
    hide Inv, StartExecutionAttempt, Fetch, CreationReply, Moves;
    var e := s.entries[a.id];
    var c := e.create.value;
    var reply := StartExecutionAttempt(s.db, c.execution, a.id, c.ref, s.me, a.at).1;
    if reply.Ok? {
      CreationConfirmed(s, a.id, a.at);
      CreationMoves(e, a.id, reply.value);
    }
    assert id in s.entries && id in Next(s, a).entries ==> Moves(s.entries[id], Next(s, a).entries[id]) by {
      SameMoves(e, if reply.Refused? then Fetch(Next(s, a).db, a.id, reply.why, a.fetched) else None);
      if id in s.entries { SameMoves(s.entries[id], None); }
    }
    if id in s.entries && id in Next(s, a).entries { SameEntry(s, Next(s, a), id, op); }
  }

  lemma SameMoves(e: Entry, conflict: Option<Row>)
    ensures Moves(e, e) && Moves(e, Halted(e, conflict))
  {}

  lemma CreationMoves(e: Entry, id: AttemptId, row: Row)
    requires e.create.Some?
    requires row.id == id && row.attempt.revision == 1 && row.attempt.finalization.None? ==>
               row.attempt.data == e.row.data
    ensures Moves(e, CreationReply(e, id, row))
  {}

  lemma CreationConfirmed(s: Sys, id: AttemptId, at: Time)
    requires Inv(s) && id in s.entries && s.entries[id].create.Some?
    requires var c := s.entries[id].create.value;
             StartExecutionAttempt(s.db, c.execution, id, c.ref, s.me, at).1.Ok?
    ensures var c := s.entries[id].create.value;
            var row := StartExecutionAttempt(s.db, c.execution, id, c.ref, s.me, at).1.value;
            row.id == id && row.attempt.revision == 1 && row.attempt.finalization.None? ==>
              row.attempt.data == s.entries[id].row.data
  {
    hide StartExecutionAttempt;
    var c := s.entries[id].create.value;
    var (db, reply) := StartExecutionAttempt(s.db, c.execution, id, c.ref, s.me, at);
    var t := s.(db := db);
    CreationForeign(s, id, at);
    OtherKeeps(s, Start(c.execution, id, c.ref, s.me, at));
    CreateReplyRow(s.db, c.execution, id, c.ref, s.me, at);
    assert RowOk(db, reply.value.id) && EntryOk(t, id, s.entries[id]);
    assert id in t.started ==> StartedOk(t, id, t.started[id]);
    hide Inv;
    CreatedAsDerived(t, id, s.entries[id], reply.value);
  }

  lemma NextMoves(s: Sys, a: Action, id: AttemptId, op: OperationId)
    requires Inv(s) && Enabled(s, a) && op in s.minted
    ensures WaitedUnder(s, Next(s, a), id, op)
  {
    hide Next, Enabled, WaitedUnder, Inv;
    match a
    case Remember(_, _) => RememberMoves(s, a, id, op);
    case Begin(_, _, _, _) => RememberMoves(s, a, id, op);
    case SaveLocal(_, _, _, _) => SaveLocalMoves(s, a, id, op);
    case CompleteLocal(_, _, _) => EditMoves(s, a, id, op);
    case Reload(_, _) => EditMoves(s, a, id, op);
    case Retry(_) => EditMoves(s, a, id, op);
    case ArchiveCreate(_, _) => EditMoves(s, a, id, op);
    case Resolve(_, _, _, _, _) => ResolveMoves(s, a, id, op);
    case CreateTrip(_, _, _) => CreateTripMoves(s, a, id, op);
    case SaveTrip(_, _, _) => SaveTripMoves(s, a, id, op);
    case StampSave(_) => StampMoves(s, a, id, op);
    case StampCompletion(_) => HaltMoves(s, a, id, op);
    case Refuse(_, _) => HaltMoves(s, a, id, op);
    case _ => ServerMoves(s, a, id, op);
  }

  // ---- from the edit to its stamping ----

  /** The row under an edit while it waits, in terms of the entry it was made on. */
  ghost predicate RowUnder(e: Entry, row: Attempt) {
    || row == e.row
    || (e.create.Some? && row.revision == 1 && row.data == e.row.data)
    || (e.operations != [] && e.operations[0].revision != 0 && row.lastOperation == Some(e.operations[0].id))
  }

  /** What the entry has become while the edit waits: as it was with the edit at the end of the queue, created, or with
      its stamped head acknowledged. */
  ghost predicate Grown(e: Entry, f: Entry, op: Operation) {
    || (f.row == e.row && f.create == e.create && f.operations == SaveEntry(e, op.data, op.id).operations)
    || (e.create.Some? && f.create.None? && f.row.revision == 1 && f.row.data == e.row.data && f.operations == [op])
    || (e.operations != [] && e.operations[0].revision != 0 && f.create.None? &&
        f.row.lastOperation == Some(e.operations[0].id) && f.operations == [op])
  }

  /** The queue behind an edit: the stamped head of the entry it was made on, if there was one, and the edit. */
  lemma EditedQueue(e: Entry, op: Operation)
    requires QueueShape(e.operations) && op.revision == 0
    requires e.create.Some? ==> forall k :: 0 <= k < |e.operations| ==> e.operations[k].revision == 0
    ensures SaveEntry(e, op.data, op.id).operations ==
            if e.operations != [] && e.operations[0].revision != 0 then [e.operations[0], op] else [op]
    ensures e.create.Some? ==> SaveEntry(e, op.data, op.id).operations == [op]
  {
    assert op == Operation(op.id, op.data, 0);
  }

  lemma GrownMoves(e: Entry, f: Entry, g: Entry, op: Operation)
    requires QueueShape(e.operations) && op.revision == 0 && Grown(e, f, op) && Moves(f, g)
    requires e.create.Some? ==> forall k :: 0 <= k < |e.operations| ==> e.operations[k].revision == 0
    ensures Grown(e, g, op)
  {
    EditedQueue(e, op);
    hide SaveEntry;
  }

  lemma EditStarts(s: Sys, a: Action)
    requires Enabled(s, a) && a.SaveLocal?
    ensures a.id in s.entries && a.id in Next(s, a).entries && a.op in Next(s, a).minted && a.op !in s.minted
    ensures Next(s, a).minted[a.op] == a.id
    ensures Grown(s.entries[a.id], Next(s, a).entries[a.id], Operation(a.op, a.data, 0))
  {}

  lemma EntryShape(s: Sys, id: AttemptId)
    requires Inv(s) && id in s.entries
    ensures var e := s.entries[id];
            QueueShape(e.operations) &&
            (e.create.Some? ==> forall k :: 0 <= k < |e.operations| ==> e.operations[k].revision == 0)
  {
    assert EntryOk(s, id, s.entries[id]);
  }

  /** From the edit on, for as long as it waits, its entry has only grown. */
  lemma {:induction false} GrownWhileWaiting(ss: seq<Sys>, acts: seq<Action>, k: nat, n: nat)
    requires Trace(ss, acts) && k < n < |ss| && acts[k].SaveLocal? && Waits(ss[n], acts[k].id, acts[k].op)
    ensures acts[k].id in ss[k].entries
    ensures Grown(ss[k].entries[acts[k].id], ss[n].entries[acts[k].id], Operation(acts[k].op, acts[k].data, 0))
    decreases n
  {
    hide Next, Enabled, Grown, Inv, Moves, Evolves;
    var id, op := acts[k].id, acts[k].op;
    EditStarts(ss[k], acts[k]);
    if n > k + 1 {
      TraceInv(ss, acts, n - 1);
      TraceGrows(ss, acts, k + 1, n - 1);
      NextMoves(ss[n - 1], acts[n - 1], id, op);
      GrownWhileWaiting(ss, acts, k, n - 1);
      TraceInv(ss, acts, k);
      EntryShape(ss[k], id);
      GrownMoves(ss[k].entries[id], ss[n - 1].entries[id], ss[n].entries[id], Operation(op, acts[k].data, 0));
    }
  }

  // ---- the stamping ----

  /** The step that first sends an operation. */
  lemma {:induction false} FirstSent(ss: seq<Sys>, acts: seq<Action>, n: nat, op: OperationId) returns (i: nat)
    requires Trace(ss, acts) && n < |ss| && op in ss[n].sent
    ensures i < n && op !in ss[i].sent && op in ss[i + 1].sent
  {
    hide Next, Enabled;
    if op in ss[n - 1].sent {
      i := FirstSent(ss, acts, n - 1, op);
    } else {
      i := n - 1;
    }
  }

  /** An operation already minted is first sent by stamping it, as the only one of its queue, over the row held then. */
  lemma SentByStamping(s: Sys, a: Action, op: OperationId)
    requires Inv(s) && Enabled(s, a) && op in s.minted && op !in s.sent && op in Next(s, a).sent
    ensures a.StampSave? && s.minted[op] == a.id && Waits(s, a.id, op)
    ensures Next(s, a).sent[op].id == a.id && Next(s, a).sent[op].shown == Some(s.entries[a.id].row)
    ensures s.entries[a.id].operations != [] && s.entries[a.id].operations[0].id == op
  {
    hide Next, Enabled, Inv, LocalData;
    StepRecorded(s, a);
    LocalAdds(s, a);
    if a.Resolve? { ResolveStep(s, a); } else {
      StampStep(s, a);
      HeadAlone(s, a.id);
    }
  }

  lemma HeadAlone(s: Sys, id: AttemptId)
    requires Inv(s) && id in s.entries && s.entries[id].operations != []
    ensures var q := s.entries[id].operations;
            q[0].id in s.minted && s.minted[q[0].id] == id && (q[0].revision == 0 ==> |q| == 1)
  {
    assert EntryOk(s, id, s.entries[id]);
  }

  lemma GrownRow(e: Entry, f: Entry, op: Operation)
    requires Grown(e, f, op)
    ensures RowUnder(e, f.row)
  {}

  // ---- no edit overwrites what its maker had not seen ----

  /**
   * In every run: when an edit made on this device takes effect, it does so on its own attempt, and the row it
   * replaces is
   * - the row the journal held when the edit was made, or
   * - for an attempt the device had started itself, the untouched draft it had derived, or
   * - where an earlier save was already on its way, a row that saw that save last.
   * So what somebody else saved in between is never overwritten by synchronizing.
   */
  lemma EditReplacesWhatWasSeen(ss: seq<Sys>, acts: seq<Action>, k: nat, j: nat, id: AttemptId)
    requires Trace(ss, acts) && k < |acts| && j < |acts| && acts[k].SaveLocal? && acts[k].op in ss[j].minted
    requires TookEffect(ss[j].db, ss[j + 1].db, id, acts[k].op)
    ensures k < j && id == acts[k].id && id in ss[k].entries && id in ss[j].db.attempts
    ensures RowUnder(ss[k].entries[id], ss[j].db.attempts[id])
  {
    hide Next, Enabled, RowUnder, Inv, Evolves, Grown;
    var op := acts[k].op;
    EditStarts(ss[k], acts[k]);
    if j <= k { TraceGrows(ss, acts, j, k); }
    TraceGrows(ss, acts, j, j + 1);
    NoLostUpdate(ss, acts, j, id, op);
    EffectIsSent(ss, acts, j, id, op);
    var i := FirstSent(ss, acts, j + 1, op);
    SentAfterEdit(ss, acts, k, i);
    TraceInv(ss, acts, i);
    TraceGrows(ss, acts, k + 1, i);
    SentByStamping(ss[i], acts[i], op);
    TraceGrows(ss, acts, i + 1, j + 1);
    GrownWhileWaiting(ss, acts, k, i);
    GrownRow(ss[k].entries[acts[k].id], ss[i].entries[acts[k].id], Operation(op, acts[k].data, 0));
  }

  lemma SentAfterEdit(ss: seq<Sys>, acts: seq<Action>, k: nat, i: nat)
    requires Trace(ss, acts) && k < |acts| && i < |acts| && acts[k].SaveLocal?
    requires acts[k].op !in ss[i].sent && acts[k].op in ss[i + 1].sent
    ensures k < i
  {
    hide Next, Enabled;
    var op := acts[k].op;
    EditStarts(ss[k], acts[k]);
    TraceInv(ss, acts, i + 1);
    assert SentOk(ss[i + 1], op, ss[i + 1].sent[op]);
    hide Inv;
    if i < k {
      TraceGrows(ss, acts, i + 1, k);
    } else if i == k {
      EditSendsNothing(ss[k], acts[k]);
    }
  }

  lemma EditSendsNothing(s: Sys, a: Action)
    requires Enabled(s, a) && a.SaveLocal?
    ensures Next(s, a).sent == s.sent
  {}
}
