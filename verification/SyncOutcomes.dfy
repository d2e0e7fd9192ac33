/** What becomes of the answers: none is dropped on the way, and a drained completion is one
    evidence record built from them. */
module SyncOutcomes {
  import opened Base
  import opened Drafts
  import opened CampaignServer
  import opened CampaignInvariants
  import opened CampaignTheorems
  import opened Journal
  import opened Sync
  import opened SyncInvariants
  import opened SyncSteps
  import opened SyncTheorems

  // ---- journal conservation ----

  predicate InTail(e: Entry, op: Operation) {
    e.operations != [] && e.operations[|e.operations| - 1].id == op.id &&
    e.operations[|e.operations| - 1].data == op.data
  }

  predicate InArchive(archive: seq<Archived>, id: AttemptId, op: Operation) {
    exists k :: 0 <= k < |archive| && archive[k].id == id && InTail(archive[k].entry, op)
  }

  /** The last answers `saveEntry` took for an attempt wait in its queue, reached the server, or are archived. */
  ghost predicate Kept(s: Sys, id: AttemptId, op: Operation) {
    (id in s.entries && InTail(s.entries[id], op)) || op.id in s.accepted || InArchive(s.archive, id, op)
  }

  ghost predicate Conserved(s: Sys) {
    forall id :: id in s.saved ==> Kept(s, id, s.saved[id])
  }

  lemma ConservedStep(s: Sys, t: Sys)
    requires Conserved(s) && t.saved == s.saved && s.accepted <= t.accepted && s.archive <= t.archive
    requires forall id :: id in s.saved && id in s.entries && InTail(s.entries[id], s.saved[id]) ==>
               Kept(t, id, s.saved[id])
    ensures Conserved(t)
  {
    forall id | id in t.saved ensures Kept(t, id, t.saved[id]) {
      assert Kept(s, id, s.saved[id]);
      if InArchive(s.archive, id, s.saved[id]) {
        var k :| 0 <= k < |s.archive| && s.archive[k].id == id && InTail(s.archive[k].entry, s.saved[id]);
        assert t.archive[k] == s.archive[k];
      }
    }
  }

  /** Replacing one entry by one with the same tail, or one whose tail was accepted. */
  lemma ConservedPut(s: Sys, t: Sys, id: AttemptId)
    requires Conserved(s) && id in s.entries && id in t.entries
    requires t == s.(db := t.db, accepted := t.accepted, entries := s.entries[id := t.entries[id]], sent := t.sent)
    requires s.accepted <= t.accepted
    requires forall op :: InTail(s.entries[id], op) ==> InTail(t.entries[id], op) || op.id in t.accepted
    ensures Conserved(t)
  {
    ConservedStep(s, t);
  }

  lemma SaveLocalConserves(s: Sys, a: Action)
    requires Conserved(s) && Enabled(s, a) && a.SaveLocal?
    ensures Conserved(Next(s, a))
  {
    var t := Next(s, a);
    forall id | id in t.saved ensures Kept(t, id, t.saved[id]) {
      if id == a.id {
        assert InTail(t.entries[id], t.saved[id]);
      } else {
        assert Kept(s, id, s.saved[id]);
      }
    }
  }

  lemma AcknowledgedTail(e: Entry, row: Attempt, accepted: set<OperationId>)
    requires e.operations != [] && e.operations[0].id in accepted
    ensures forall op :: InTail(e, op) ==> InTail(Acknowledged(e, row), op) || op.id in accepted
  {
  }

  lemma TripConserves(s: Sys, a: Action)
    requires EntriesOk(s) && HistoryOk(s) && Conserved(s) && Enabled(s, a) && a.SaveTrip?
    ensures Conserved(Next(s, a))
  {
    hide Conserved, SaveRequest;
    var e := s.entries[a.id];
    assert EntryOk(s, a.id, e);
    var op := e.operations[0];
    var m := Sent(a.id, op.revision, op.data, None);
    ServeSaveReply(s, op.id, m, a.attached);
    var (t, reply) := ServeSave(s, op.id, m, a.attached);
    if reply.Ok? {
      AcknowledgedTail(e, reply.value.attempt, t.accepted);
    }
    TripPutConserves(s, t, a.id, Next(s, a).entries[a.id]);
  }

  lemma TripPutConserves(s: Sys, t: Sys, id: AttemptId, f: Entry)
    requires Conserved(s) && id in s.entries && s.accepted <= t.accepted
    requires t == s.(db := t.db, accepted := t.accepted)
    requires forall op :: InTail(s.entries[id], op) ==> InTail(f, op) || op.id in t.accepted
    ensures Conserved(Put(t, id, f))
  {
    ConservedPut(s, Put(t, id, f), id);
  }

  lemma RememberConserves(s: Sys, a: Action)
    requires Conserved(s) && Enabled(s, a) && a.Remember?
    ensures Conserved(Next(s, a))
  {
    ConservedStep(s, Next(s, a));
  }

  lemma BeginConserves(s: Sys, a: Action)
    requires Conserved(s) && Enabled(s, a) && a.Begin?
    ensures Conserved(Next(s, a))
  {
    ConservedStep(s, Next(s, a));
  }

  lemma ArchiveConserves(s: Sys, a: Action)
    requires Conserved(s) && Enabled(s, a) && a.ArchiveCreate?
    ensures Conserved(Next(s, a))
  {
    var t := Next(s, a);
    forall id | id in s.saved && id in s.entries && InTail(s.entries[id], s.saved[id])
      ensures Kept(t, id, s.saved[id])
    {
      if id == a.id { assert t.archive[|s.archive|] == Archived(id, s.entries[id]); }
    }
    ConservedStep(s, t);
  }

  /** Steps that leave every queue's tail alone. */
  lemma OtherConserves(s: Sys, a: Action)
    requires Conserved(s) && Enabled(s, a)
    requires a.CompleteLocal? || a.Reload? || a.Retry? || a.StampCompletion? ||
             a.Refuse? || a.CreateTrip? || a.FinalizeTrip?
    ensures Conserved(Next(s, a))
  {
    ConservedPut(s, Next(s, a), a.id);
  }

  lemma ServerConserves(s: Sys, a: Action)
    requires Conserved(s) && Enabled(s, a) && (a.LateSave? || a.Other?)
    ensures Conserved(Next(s, a))
  {
    ConservedStep(s, Next(s, a));
  }

  lemma StampConserves(s: Sys, a: Action)
    requires Conserved(s) && Enabled(s, a) && a.StampSave?
    ensures Conserved(Next(s, a))
  {
    if s.entries[a.id].operations[0].revision == 0 {
      ConservedPut(s, Next(s, a), a.id);
    }
  }

  // ---- which answers a queue holds ----

  function Tail(e: Entry): Operation
    requires e.operations != []
  {
    e.operations[|e.operations| - 1]
  }

  /** An unstamped tail is the attempt's last save, and a tail with that save's id has its answers. */
  ghost predicate TailSaved(s: Sys, id: AttemptId)
    requires id in s.entries
  {
    s.entries[id].operations != [] ==>
      var tail := Tail(s.entries[id]);
      && (tail.revision == 0 ==> id in s.saved && s.saved[id].id == tail.id)
      && (id in s.saved && s.saved[id].id == tail.id ==> s.saved[id].data == tail.data)
  }

  ghost predicate TailsSaved(s: Sys) {
    && (forall id :: id in s.entries ==> TailSaved(s, id))
    && forall id :: id in s.saved ==> s.saved[id].id in s.minted
  }

  /** The new entry's tail, if any, is the old one's, perhaps stamped by now. */
  predicate TailFrom(e: Option<Entry>, f: Entry) {
    f.operations == [] ||
    (e.Some? && e.value.operations != [] && Tail(f).id == Tail(e.value).id && Tail(f).data == Tail(e.value).data &&
     (Tail(f).revision == 0 ==> Tail(e.value).revision == 0))
  }

  function EntryAt(s: Sys, id: AttemptId): Option<Entry> {
    if id in s.entries then Some(s.entries[id]) else None
  }

  lemma PutTails(s: Sys, t: Sys, id: AttemptId)
    requires TailsSaved(s) && t.saved == s.saved && s.minted.Keys <= t.minted.Keys
    requires id in t.entries && t.entries == s.entries[id := t.entries[id]] && TailFrom(EntryAt(s, id), t.entries[id])
    ensures TailsSaved(t)
  {
    forall k | k in t.entries ensures TailSaved(t, k) {
      if k in s.entries { assert TailSaved(s, k); }
    }
  }

  lemma FewerTails(s: Sys, t: Sys)
    requires TailsSaved(s) && t.saved == s.saved && s.minted.Keys <= t.minted.Keys
    requires forall k :: k in t.entries ==> k in s.entries && t.entries[k] == s.entries[k]
    ensures TailsSaved(t)
  {
    forall k | k in t.entries ensures TailSaved(t, k) {
      assert TailSaved(s, k);
    }
  }

  /** What a resolution leaves where it lands: nothing to send, or one new operation, stamped already. */
  ghost predicate LandedQueue(s: Sys, q: seq<Operation>) {
    q == [] || (|q| == 1 && q[0].revision >= 1 && q[0].id !in s.minted)
  }

  /** It touches two entries at most: the one it resolves, and the one it lands on. */
  lemma ResolveOthers(s: Sys, a: Action)
    requires Enabled(s, a) && a.Resolve?
    ensures var t := Next(s, a);
            && (forall k :: k in t.entries && !(k == a.remote.id && a.puts >= 2) ==>
                  k in s.entries && t.entries[k] == s.entries[k])
            && (forall k :: k in s.entries && k != a.id && k != a.remote.id ==> k in t.entries)
            && (a.puts < 2 ==> t.entries == s.entries)
  {
    hide Next, Enabled, LocalData, Resolved;
    ResolveAllowed(s, a);
  }

  lemma ResolveLanding(s: Sys, a: Action)
    requires Enabled(s, a) && a.Resolve? && a.puts >= 2
    ensures var t := Next(s, a);
            && a.remote.id in t.entries && LandedQueue(s, t.entries[a.remote.id].operations)
            && t.entries[a.remote.id].completion.None?
  {
    hide Next, Enabled, LocalData;
    ResolveAllowed(s, a);
  }

  lemma ResolveEffect(s: Sys, a: Action)
    requires Enabled(s, a) && a.Resolve?
    ensures a.id in s.entries
    ensures var t := Next(s, a);
            && t.saved == s.saved && t.accepted == s.accepted && s.minted.Keys <= t.minted.Keys
            && t.archive == s.archive + [Archived(a.id, s.entries[a.id])]
            && (forall k :: k in t.entries ==>
                  (k == a.remote.id && a.puts >= 2) || (k in s.entries && t.entries[k] == s.entries[k]))
            && (a.puts >= 2 ==> a.remote.id in t.entries && LandedQueue(s, t.entries[a.remote.id].operations))
  {
    hide Next, Enabled, LandedQueue;
    ResolveStep(s, a);
    ResolveOthers(s, a);
    if a.puts >= 2 { ResolveLanding(s, a); }
  }

  lemma ResolveTails(s: Sys, a: Action)
    requires TailsSaved(s) && Enabled(s, a) && a.Resolve?
    ensures TailsSaved(Next(s, a))
  {
    ResolveEffect(s, a);
    hide Next, Enabled;
    var t := Next(s, a);
    forall k | k in t.entries ensures TailSaved(t, k) {
      if k in s.entries { assert TailSaved(s, k); }
    }
  }

  lemma SaveLocalTails(s: Sys, a: Action)
    requires TailsSaved(s) && Enabled(s, a) && a.SaveLocal?
    ensures TailsSaved(Next(s, a))
  {
    var t := Next(s, a);
    forall k | k in t.entries ensures TailSaved(t, k) {
      if k != a.id { assert TailSaved(s, k); }
    }
  }

  /** Requests of the device: only its own entry changes, and keeps its tail or loses an acknowledged head. */
  lemma TripTails(s: Sys, a: Action)
    requires TailsSaved(s) && Enabled(s, a) && (a.CreateTrip? || a.SaveTrip? || a.FinalizeTrip?)
    ensures TailsSaved(Next(s, a))
  {
    hide TailsSaved, SaveRequest, FinalizeAttempt, StartExecutionAttempt, Fetch;
    PutTails(s, Next(s, a), a.id);
  }

  lemma LocalTails(s: Sys, a: Action)
    requires TailsSaved(s) && Enabled(s, a)
    requires a.Begin? || a.Remember? || a.CompleteLocal? || a.Reload? || a.Retry? || a.StampCompletion? || a.Refuse?
    ensures TailsSaved(Next(s, a))
  {
    hide TailsSaved, Snapshot, LocalData, StartDraft;
    PutTails(s, Next(s, a), a.id);
  }

  lemma StampTails(s: Sys, a: Action)
    requires TailsSaved(s) && Enabled(s, a) && a.StampSave?
    ensures TailsSaved(Next(s, a))
  {
    hide TailsSaved;
    if s.entries[a.id].operations[0].revision == 0 { PutTails(s, Next(s, a), a.id); }
  }

  lemma SameTails(s: Sys, a: Action)
    requires TailsSaved(s) && Enabled(s, a) && (a.ArchiveCreate? || a.LateSave? || a.Other?)
    ensures TailsSaved(Next(s, a))
  {
    hide TailsSaved, SaveRequest, Apply;
    FewerTails(s, Next(s, a));
  }

  lemma NextTails(s: Sys, a: Action)
    requires TailsSaved(s) && Enabled(s, a)
    ensures TailsSaved(Next(s, a))
  {
    hide TailsSaved, Next, Enabled;
    match a
    case Resolve(_, _, _, _, _) => ResolveTails(s, a);
    case SaveLocal(_, _, _, _) => SaveLocalTails(s, a);
    case ArchiveCreate(_, _) => SameTails(s, a);
    case LateSave(_, _) => SameTails(s, a);
    case Other(_) => SameTails(s, a);
    case StampSave(_) => StampTails(s, a);
    case CreateTrip(_, _, _) => TripTails(s, a);
    case SaveTrip(_, _, _) => TripTails(s, a);
    case FinalizeTrip(_, _, _) => TripTails(s, a);
    case _ => LocalTails(s, a);
  }

  lemma {:induction false} TraceTails(ss: seq<Sys>, acts: seq<Action>, n: nat)
    requires Trace(ss, acts) && n < |ss|
    ensures TailsSaved(ss[n])
  {
    if n > 0 {
      TraceTails(ss, acts, n - 1);
      NextTails(ss[n - 1], acts[n - 1]);
    }
  }

  // ---- what a resolution may cost ----

  /** What the device can see before it resolves `id` onto `target`: another entry is there, with a
      queue whose newest answers are not in the archive. */
  predicate Clobbers(entries: map<AttemptId, Entry>, archive: seq<Archived>, id: AttemptId, target: AttemptId) {
    && target != id && target in entries && entries[target].operations != []
    && !InArchive(archive, target, Tail(entries[target]))
  }

  predicate Lands(s: Sys, a: Action) {
    a.Resolve? && a.puts >= 2 && Clobbers(s.entries, s.archive, a.id, a.remote.id)
  }

  /** Such a landing costs those answers unless they were sent and the server took them, or were themselves
      a resolution's, archived under the attempt they came from. Only a stamped tail can have been sent. */
  ghost predicate Overwrites(s: Sys, a: Action) {
    && Lands(s, a)
    && var target, tail := a.remote.id, Tail(s.entries[a.remote.id]);
       tail.revision != 0 ==> target in s.saved && s.saved[target].id == tail.id && tail.id !in s.accepted
  }

  lemma UnstampedUnaccepted(s: Sys, id: AttemptId)
    requires EntriesOk(s) && HistoryOk(s) && id in s.entries && s.entries[id].operations != []
    ensures Tail(s.entries[id]).revision == 0 ==> Tail(s.entries[id]).id !in s.accepted
  {
    assert EntryOk(s, id, s.entries[id]);
    var tail := Tail(s.entries[id]);
    assert tail.id in s.accepted ==> AcceptedOk(s, tail.id);
  }

  /** In terms of the history: the target's last save is in its queue and nowhere else. */
  lemma OverwritesLastSave(s: Sys, a: Action)
    requires EntriesOk(s) && HistoryOk(s) && TailsSaved(s) && a.Resolve?
    ensures Overwrites(s, a) <==>
            && a.puts >= 2 && a.remote.id != a.id && a.remote.id in s.entries && a.remote.id in s.saved
            && InTail(s.entries[a.remote.id], s.saved[a.remote.id])
            && s.saved[a.remote.id].id !in s.accepted && !InArchive(s.archive, a.remote.id, s.saved[a.remote.id])
  {
    hide EntriesOk, HistoryOk;
    var id := a.remote.id;
    if id in s.entries && s.entries[id].operations != [] {
      assert TailSaved(s, id);
      UnstampedUnaccepted(s, id);
    }
  }

  lemma ResolveTail(s: Sys, a: Action, id: AttemptId)
    requires EntriesOk(s) && HistoryOk(s) && TailsSaved(s) && Enabled(s, a) && a.Resolve? && !Overwrites(s, a)
    requires id in s.saved && id in s.entries && InTail(s.entries[id], s.saved[id])
    ensures Kept(Next(s, a), id, s.saved[id])
  {
    hide EntriesOk, HistoryOk, TailsSaved, Overwrites, Next, Enabled, LandedQueue;
    OverwritesLastSave(s, a);
    ResolveStep(s, a);
    ResolveOthers(s, a);
    var t := Next(s, a);
    if id == a.id {
      assert t.archive[|s.archive|] == Archived(id, s.entries[id]);
    } else if id == a.remote.id && a.puts >= 2 {
      if InArchive(s.archive, id, s.saved[id]) {
        var k :| 0 <= k < |s.archive| && s.archive[k].id == id && InTail(s.archive[k].entry, s.saved[id]);
        assert t.archive[k] == s.archive[k];
      }
    } else {
      assert id in t.entries && t.entries[id] == s.entries[id];
    }
  }

  lemma OverwrittenLost(s: Sys, a: Action)
    requires EntriesOk(s) && HistoryOk(s) && TailsSaved(s) && Enabled(s, a) && Overwrites(s, a)
    ensures a.remote.id in s.entries && a.remote.id in s.saved
    ensures var id, t := a.remote.id, Next(s, a);
            id in t.saved && t.saved[id] == s.saved[id] && InTail(s.entries[id], t.saved[id]) &&
            !Kept(t, id, t.saved[id])
  {
    OverwritesLastSave(s, a);
    assert s.saved[a.remote.id].id in s.minted;
    ResolveEffect(s, a);
    hide EntriesOk, HistoryOk, TailsSaved, Overwrites, Next, Enabled;
    var id, t := a.remote.id, Next(s, a);
    forall k | 0 <= k < |t.archive| && t.archive[k].id == id ensures !InTail(t.archive[k].entry, s.saved[id]) {
      assert t.archive[k] == s.archive[k];
    }
  }

  /** A resolution keeps all saved answers exactly if it does not overwrite. */
  lemma ResolveConservesIff(s: Sys, a: Action)
    requires EntriesOk(s) && HistoryOk(s) && TailsSaved(s) && Conserved(s) && Enabled(s, a) && a.Resolve?
    ensures Conserved(Next(s, a)) <==> !Overwrites(s, a)
  {
    hide EntriesOk, HistoryOk, TailsSaved, Overwrites, Snapshot;
    if Overwrites(s, a) {
      OverwrittenLost(s, a);
    } else {
      forall id | id in s.saved && id in s.entries && InTail(s.entries[id], s.saved[id])
        ensures Kept(Next(s, a), id, s.saved[id])
      {
        ResolveTail(s, a, id);
      }
      ConservedStep(s, Next(s, a));
    }
  }

  lemma NextConserves(s: Sys, a: Action)
    requires Inv(s) && TailsSaved(s) && Conserved(s) && Enabled(s, a) && !Overwrites(s, a)
    ensures Conserved(Next(s, a))
  {
    hide Next, Enabled, Conserved, Valid, TailsSaved;
    match a
    case Begin(_, _, _, _) => BeginConserves(s, a);
    case Remember(_, _) => RememberConserves(s, a);
    case SaveLocal(_, _, _, _) => SaveLocalConserves(s, a);
    case Resolve(_, _, _, _, _) => ResolveConservesIff(s, a);
    case ArchiveCreate(_, _) => ArchiveConserves(s, a);
    case StampSave(_) => StampConserves(s, a);
    case SaveTrip(_, _, _) => TripConserves(s, a);
    case LateSave(_, _) => ServerConserves(s, a);
    case Other(_) => ServerConserves(s, a);
    case _ => OtherConserves(s, a);
  }

  lemma {:induction false} ConservedWithout(ss: seq<Sys>, acts: seq<Action>, n: nat)
    requires Trace(ss, acts) && n < |ss|
    requires forall i :: 0 <= i < n ==> !Overwrites(ss[i], acts[i])
    ensures Conserved(ss[n])
  {
    hide Overwrites;
    if n > 0 {
      ConservedWithout(ss, acts, n - 1);
      TraceInv(ss, acts, n - 1);
      TraceTails(ss, acts, n - 1);
      NextConserves(ss[n - 1], acts[n - 1]);
    }
  }

  /** Journal conservation: up to any moment of any run, no saved answers were lost exactly if no resolution
      overwrote another queue; and every queue holds at most two operations, only its head stamped. */
  lemma JournalConservation(ss: seq<Sys>, acts: seq<Action>, n: nat)
    requires Trace(ss, acts) && n < |ss|
    ensures (forall k :: 0 <= k <= n ==> Conserved(ss[k])) <==> (forall i :: 0 <= i < n ==> !Overwrites(ss[i], acts[i]))
    ensures forall id :: id in ss[n].entries ==> QueueShape(ss[n].entries[id].operations)
  {
    TraceInv(ss, acts, n);
    forall id | id in ss[n].entries ensures QueueShape(ss[n].entries[id].operations) {
      assert EntryOk(ss[n], id, ss[n].entries[id]);
    }
    hide Overwrites, Conserved, Next, Enabled;
    if forall i :: 0 <= i < n ==> !Overwrites(ss[i], acts[i]) {
      forall k | 0 <= k <= n ensures Conserved(ss[k]) { ConservedWithout(ss, acts, k); }
    }
    if forall k :: 0 <= k <= n ==> Conserved(ss[k]) {
      forall i | 0 <= i < n ensures !Overwrites(ss[i], acts[i]) { ConservedNotOverwritten(ss, acts, i); }
    }
  }

  lemma ConservedNotOverwritten(ss: seq<Sys>, acts: seq<Action>, i: nat)
    requires Trace(ss, acts) && i < |acts| && Conserved(ss[i + 1])
    ensures !Overwrites(ss[i], acts[i])
  {
    if Overwrites(ss[i], acts[i]) {
      TraceInv(ss, acts, i);
      TraceTails(ss, acts, i);
      hide Next, Enabled, Inv, TailsSaved, Overwrites;
      OverwrittenLost(ss[i], acts[i]);
    }
  }

  /** The guard a device could apply for its answers: if no resolution lands on another entry with unarchived answers in
      its queue, no saved answers are ever lost, whatever the server did. */
  lemma GuardedConservation(ss: seq<Sys>, acts: seq<Action>, n: nat)
    requires Trace(ss, acts) && n < |ss|
    requires forall i :: 0 <= i < n ==> !Lands(ss[i], acts[i])
    ensures Conserved(ss[n])
  {
    hide Conserved, Next, Enabled, Lands;
    assert forall i :: 0 <= i < n ==> !Overwrites(ss[i], acts[i]);
    ConservedWithout(ss, acts, n);
  }

  // ---- drained completions ----

  /** The record reports the answers, verdict, notes and context of the draft. */
  ghost predicate BuiltFrom(v: Evidence, d: DraftData) {
    && v.repo == d.repo && v.branch == d.branch && v.rcsRef == d.rcsRef
    && v.result == d.result && v.notes == d.notes && d.answers == Some(v.answers)
    && (d.metadata.Metadata? ==> v.metadata == d.metadata)
  }

  lemma RecordedWork(v: Evidence, id: AttemptId, a: Attempt, d: DraftData)
    requires Records(v, id, a) && SameWork(a.data, d)
    ensures BuiltFrom(v, d)
  {
  }

  /** What success of a finalization says about the row it sealed, now or before. */
  lemma FinalizeSucceeds(db: Db, id: AttemptId, actor: Actor, revision: nat, finished: Time, at: Time, row: Attempt)
    requires Valid(db) && Snapshot(db, id, row) && row.revision == revision && row.finalization.None?
    requires FinalizeAttempt(db, id, actor, revision, finished, at).1.Ok?
    ensures var t := FinalizeAttempt(db, id, actor, revision, finished, at).0;
            && Valid(t) && id in t.attempts && t.attempts[id].finalization.Some?
            && t.attempts[id].finalization.value.revision == revision
            && t.attempts[id].finalization.value.finished == finished
            && RowEvolves(t.evidence, row, t.attempts[id])
  {
    FinalizeKeeps(db, id, actor, revision, finished, at);
    var t := FinalizeAttempt(db, id, actor, revision, finished, at).0;
    FinalizeReply(db, id, actor, revision, finished, at);
    hide Valid, FinalizeAttempt, Evolves;
    SnapshotLater(db, t, id, row);
  }

  /** A finalized row in the journal is never completed again successfully. */
  lemma FinalizedNeverDrains(db: Db, id: AttemptId, actor: Actor, finished: Time, at: Time, row: Attempt)
    requires Valid(db) && Snapshot(db, id, row) && row.finalization.Some?
    ensures FinalizeAttempt(db, id, actor, row.revision, finished, at).1.Refused?
  {
    assert RowOk(db, id);
  }

  /** A close has sealed the attempt. */
  ghost predicate SealedByClose(db: Db, id: AttemptId) {
    && id in db.attempts && db.attempts[id].finalization.Some?
    && db.attempts[id].finalization.value.evidence < |db.evidence|
    && db.evidence[db.attempts[id].finalization.value.evidence].closure.Some?
  }

  /** A finalization leaves a close's record where a close came first, and writes none itself. */
  lemma SealedNow(db: Db, id: AttemptId, actor: Actor, revision: nat, finished: Time, at: Time)
    requires FinalizeAttempt(db, id, actor, revision, finished, at).1.Ok?
    ensures SealedByClose(FinalizeAttempt(db, id, actor, revision, finished, at).0, id) <==> SealedByClose(db, id)
  {
    hide Finalizable, ValidEvidence;
  }

  /** When the server confirms a completion, the attempt has exactly one evidence record, with the tester's finish
      time, and it is built from the answers that were completed if and only if no close had sealed the attempt
      before. */
  lemma DrainedCompletion(s: Sys, id: AttemptId, at: Time, fetched: bool)
    requires Inv(s) && Enabled(s, FinalizeTrip(id, at, fetched))
    requires Next(s, FinalizeTrip(id, at, fetched)).entries[id].completion.None?
    ensures id in s.entries && s.entries[id].completion.Some?
    ensures var c := s.entries[id].completion.value;
            var t := Next(s, FinalizeTrip(id, at, fetched));
            && !Pending(t.entries[id]) && !t.entries[id].error
            && id in t.db.attempts && t.db.attempts[id].finalization.Some?
            && var i := t.db.attempts[id].finalization.value.evidence;
               && i < |t.db.evidence| && t.db.evidence[i].attempt == id && t.db.evidence[i].finished == c.finished
               && (forall k :: 0 <= k < |t.db.evidence| && t.db.evidence[k].attempt == id ==> k == i)
               && (BuiltFrom(t.db.evidence[i], c.shown) <==> !SealedByClose(s.db, id))
               && (t.db.evidence[i].closure.Some? <==> SealedByClose(s.db, id))
  {
    var e := s.entries[id];
    assert EntryOk(s, id, e);
    var c := e.completion.value;
    if e.row.finalization.Some? {
      FinalizedNeverDrains(s.db, id, s.me, c.finished, at, e.row);
      assert false;
    }
    FinalizeSucceeds(s.db, id, s.me, c.revision, c.finished, at, e.row);
    var t := FinalizeAttempt(s.db, id, s.me, c.revision, c.finished, at).0;
    assert RowOk(t, id);
    SoleEvidence(t, id);
    SealedNow(s.db, id, s.me, c.revision, c.finished, at);
    var v := t.evidence[t.attempts[id].finalization.value.evidence];
    if v.closure.None? {
      RecordedWork(v, id, t.attempts[id], c.shown);
    }
  }

  lemma SoleEvidence(db: Db, id: AttemptId)
    requires Valid(db) && id in db.attempts && db.attempts[id].finalization.Some?
    ensures forall k :: 0 <= k < |db.evidence| && db.evidence[k].attempt == id ==>
              k == db.attempts[id].finalization.value.evidence
  {
    forall k | 0 <= k < |db.evidence| && db.evidence[k].attempt == id
      ensures k == db.attempts[id].finalization.value.evidence
    {
      assert EvidenceOk(db.packages, db.attempts, db.evidence[k], k);
    }
  }

  // ---- which closes there were ----

  ghost predicate ClosesAt(a: Action, now: Time) {
    a.Other? && a.request.SetClosed? && a.request.closed && a.request.now == now
  }

  ghost predicate NewClosures(s: seq<Evidence>, t: seq<Evidence>, now: Time) {
    s <= t && forall i :: |s| <= i < |t| ==> t[i].closure.Some? && t[i].finished == now
  }

  lemma SkipRowRecords(db: Db, id: AttemptId, a: Attempt, x: Execution, s: Scenario, actor: Actor, now: Time, t: Db)
    requires SkipRow(db, id, a, x, s, actor, now) == Ok(t)
    ensures NewClosures(db.evidence, t.evidence, now)
  {
    hide ValidDraft, ClosedDraft, ValidEvidence;
  }

  lemma CloseOneRecords(db: Db, e: ExecutionId, x: Execution, s: Scenario, actor: Actor, now: Time, newId: AttemptId,
                        t: Db)
    requires CloseOne(db, e, x, s, actor, now, newId) == Ok(t)
    ensures NewClosures(db.evidence, t.evidence, now)
  {
    hide SkipRow, SkipAttempt;
    var open := OpenAttempt(db.attempts, e, s.ref);
    if open.Some? {
      SkipRowRecords(db, open.value, db.attempts[open.value], x, s, actor, now, t);
    } else if !Attempted(db.attempts, e, s.ref) {
      SkipRowRecords(db, newId, SkipAttempt(x, e, s, actor, now), x, s, actor, now, t);
    }
  }

  lemma {:induction false} CloseRecords(db: Db, e: ExecutionId, x: Execution, todo: seq<Scenario>, actor: Actor,
                                        now: Time, ids: seq<AttemptId>, t: Db)
    requires |ids| == |todo|
    requires CloseUnfinished(db, e, x, todo, actor, now, ids) == Ok(t)
    ensures NewClosures(db.evidence, t.evidence, now)
    decreases |todo|
  {
    if todo != [] {
      var d := CloseOne(db, e, x, todo[0], actor, now, ids[0]).value;
      hide CloseOne;
      CloseOneRecords(db, e, x, todo[0], actor, now, ids[0], d);
      CloseRecords(d, e, x, todo[1..], actor, now, ids[1..], t);
    }
  }

  ghost predicate PlainRecords(s: seq<Evidence>, t: seq<Evidence>) {
    s <= t && forall i :: |s| <= i < |t| ==> t[i].closure.None?
  }

  lemma RequestRecords(db: Db, q: Request)
    ensures if q.SetClosed? && q.closed then NewClosures(db.evidence, Apply(db, q).evidence, q.now)
            else PlainRecords(db.evidence, Apply(db, q).evidence)
  {
    match q
    case SetClosed(e, revision, closed, actor, now, ids) =>
      var (t, reply) := SetExecutionClosed(db, e, revision, closed, actor, now, ids);
      if reply.Ok? && closed {
        var scenarios := db.packages[db.executions[e].package].scenarios;
        CloseRecords(db, e, db.executions[e], scenarios, actor, now, ids,
                     CloseUnfinished(db, e, db.executions[e], scenarios, actor, now, ids).value);
      }
    case Save(id, actor, revision, op, data, attached) =>
    case Finalize(id, actor, revision, finished, at) =>
    case Start(e, id, ref, actor, created) =>
    case Create(id, pkg, ref, actor, created, data) =>
    case Execute(e, pkg, repo, branch, rcsRef) =>
  }

  /** Only a close writes closure records, and it stamps them with its own instant. */
  lemma StepRecords(s: Sys, a: Action, i: nat)
    requires Enabled(s, a)
    requires |s.db.evidence| <= i < |Next(s, a).db.evidence| && Next(s, a).db.evidence[i].closure.Some?
    ensures ClosesAt(a, Next(s, a).db.evidence[i].finished)
  {
    assert a.Other? ==> RequestOf(s, a) == Some(a.request);
    assert Asks(a) && !a.Other? ==> !RequestOf(s, a).value.SetClosed?;
    hide Next, Enabled, RequestOf, Apply;
    StepRecorded(s, a);
    if Asks(a) {
      RequestStep(s, a);
      RequestRecords(s.db, RequestOf(s, a).value);
    }
  }

  lemma {:induction false} ClosureOrigin(ss: seq<Sys>, acts: seq<Action>, n: nat, i: nat)
    requires Trace(ss, acts) && n < |ss| && i < |ss[n].db.evidence| && ss[n].db.evidence[i].closure.Some?
    ensures exists k :: 0 <= k < n && ClosesAt(acts[k], ss[n].db.evidence[i].finished)
  {
    hide Next, Enabled;
    if i < |ss[n - 1].db.evidence| {
      TraceGrows(ss, acts, n - 1, n);
      ClosureOrigin(ss, acts, n - 1, i);
    } else {
      StepRecords(ss[n - 1], acts[n - 1], i);
    }
  }

  // ---- where a completion comes from ----

  /** Step k completed the attempt, showing these answers, and nothing was saved for it from then to n. */
  ghost predicate CompletedAt(ss: seq<Sys>, acts: seq<Action>, k: nat, n: nat, id: AttemptId, c: Completion)
    requires |ss| == |acts| + 1 && n < |ss|
  {
    && k < n && acts[k].CompleteLocal? && acts[k].id == id && acts[k].finished == c.finished
    && id in ss[k].entries && ss[k].entries[id].completion.None? && c.shown == LocalData(ss[k].entries[id])
    && (id in ss[k].saved <==> id in ss[n].saved) && (id in ss[k].saved ==> ss[k].saved[id] == ss[n].saved[id])
  }

  /** One step backwards: the completion was there, or this step is the one that made it. */
  lemma CompletionStep(s: Sys, a: Action, id: AttemptId)
    requires Enabled(s, a) && id in Next(s, a).entries && Next(s, a).entries[id].completion.Some?
    ensures CompletionBack(s, a, Next(s, a), id)
  {
    hide Next, Enabled, CompletionBack;
    match a
    case Resolve(_, _, _, _, _) => ResolveCompletion(s, a, id);
    case CreateTrip(_, _, _) => TripCompletion(s, a, id);
    case SaveTrip(_, _, _) => TripCompletion(s, a, id);
    case FinalizeTrip(_, _, _) => TripCompletion(s, a, id);
    case Begin(_, _, _, _) => EditCompletion(s, a, id);
    case Remember(_, _) => EditCompletion(s, a, id);
    case SaveLocal(_, _, _, _) => EditCompletion(s, a, id);
    case CompleteLocal(_, _, _) => EditCompletion(s, a, id);
    case Reload(_, _) => RecoveryCompletion(s, a, id);
    case Retry(_) => RecoveryCompletion(s, a, id);
    case ArchiveCreate(_, _) => RecoveryCompletion(s, a, id);
    case LateSave(_, _) => ServerCompletion(s, a, id);
    case Other(_) => ServerCompletion(s, a, id);
    case _ => StampingCompletion(s, a, id);
  }

  lemma EditCompletion(s: Sys, a: Action, id: AttemptId)
    requires Enabled(s, a) && (a.Begin? || a.Remember? || a.SaveLocal? || a.CompleteLocal?)
    requires id in Next(s, a).entries && Next(s, a).entries[id].completion.Some?
    ensures CompletionBack(s, a, Next(s, a), id)
  {
    hide Snapshot, NewOperation, LocalData, StartDraft;
  }

  lemma RecoveryCompletion(s: Sys, a: Action, id: AttemptId)
    requires Enabled(s, a) && id in Next(s, a).entries && Next(s, a).entries[id].completion.Some?
    requires a.Reload? || a.Retry? || a.ArchiveCreate?
    ensures CompletionBack(s, a, Next(s, a), id)
  {
    hide Snapshot, LocalData;
  }

  lemma StampingCompletion(s: Sys, a: Action, id: AttemptId)
    requires Enabled(s, a) && id in Next(s, a).entries && Next(s, a).entries[id].completion.Some?
    requires a.StampSave? || a.StampCompletion? || a.Refuse?
    ensures CompletionBack(s, a, Next(s, a), id)
  {
    hide Snapshot, LocalData;
  }

  lemma ServerCompletion(s: Sys, a: Action, id: AttemptId)
    requires Enabled(s, a) && id in Next(s, a).entries && Next(s, a).entries[id].completion.Some?
    requires a.LateSave? || a.Other?
    ensures CompletionBack(s, a, Next(s, a), id)
  {
    hide SaveRequest, Apply, LocalData;
  }

  ghost predicate CompletionBack(s: Sys, a: Action, t: Sys, id: AttemptId)
    requires id in t.entries && t.entries[id].completion.Some?
  {
    var c := t.entries[id].completion.value;
    && id in s.entries && (id in s.saved <==> id in t.saved) && (id in s.saved ==> s.saved[id] == t.saved[id])
    && (if s.entries[id].completion.Some?
        then s.entries[id].completion.value.finished == c.finished &&
             s.entries[id].completion.value.shown == c.shown
        else a.CompleteLocal? && a.id == id && a.finished == c.finished && c.shown == LocalData(s.entries[id]))
  }

  lemma ResolveCompletion(s: Sys, a: Action, id: AttemptId)
    requires Enabled(s, a) && a.Resolve? && id in Next(s, a).entries && Next(s, a).entries[id].completion.Some?
    ensures CompletionBack(s, a, Next(s, a), id)
  {
    hide Next, Enabled, LandedQueue, LocalData;
    ResolveStep(s, a);
    ResolveOthers(s, a);
    if a.puts >= 2 { ResolveLanding(s, a); }
  }

  lemma TripCompletion(s: Sys, a: Action, id: AttemptId)
    requires Enabled(s, a) && (a.CreateTrip? || a.SaveTrip? || a.FinalizeTrip?)
    requires id in Next(s, a).entries && Next(s, a).entries[id].completion.Some?
    ensures CompletionBack(s, a, Next(s, a), id)
  {
    hide SaveRequest, FinalizeAttempt, StartExecutionAttempt, Snapshot, LocalData, Fetch;
  }

  lemma {:induction false} CompletionOrigin(ss: seq<Sys>, acts: seq<Action>, n: nat, id: AttemptId)
    requires Trace(ss, acts) && n < |ss| && id in ss[n].entries && ss[n].entries[id].completion.Some?
    ensures exists k :: CompletedAt(ss, acts, k, n, id, ss[n].entries[id].completion.value)
  {
    hide Next, Enabled, LocalData;
    CompletionStep(ss[n - 1], acts[n - 1], id);
    if ss[n - 1].entries[id].completion.Some? {
      CompletionOrigin(ss, acts, n - 1, id);
      var k :| CompletedAt(ss, acts, k, n - 1, id, ss[n - 1].entries[id].completion.value);
      assert CompletedAt(ss, acts, k, n, id, ss[n].entries[id].completion.value);
    } else {
      assert CompletedAt(ss, acts, n - 1, n, id, ss[n].entries[id].completion.value);
    }
  }
}
