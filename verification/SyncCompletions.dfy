/** Completions: none is dropped on the way, except by a resolution that lands on the entry holding it. */
module SyncCompletions {
  import opened Base
  import opened CampaignServer
  import opened CampaignInvariants
  import opened CampaignTheorems
  import opened Journal
  import opened Sync
  import opened SyncInvariants
  import opened SyncTheorems
  import opened SyncOutcomes
  import opened SyncLoss

  // ---- where a completion can be ----

  predicate Completes(e: Entry, c: Completion) {
    e.completion.Some? && e.completion.value.finished == c.finished && e.completion.value.shown == c.shown
  }

  predicate CompletionArchived(archive: seq<Archived>, id: AttemptId, c: Completion) {
    exists k :: 0 <= k < |archive| && archive[k].id == id && Completes(archive[k].entry, c)
  }

  /** The server has sealed the attempt with the tester's finish time. */
  predicate Confirmed(db: Db, id: AttemptId, c: Completion) {
    id in db.attempts && db.attempts[id].finalization.Some? && db.attempts[id].finalization.value.finished == c.finished
  }

  ghost predicate CompletionKept(s: Sys, id: AttemptId, c: Completion) {
    (id in s.entries && Completes(s.entries[id], c)) || Confirmed(s.db, id, c) || CompletionArchived(s.archive, id, c)
  }

  /** What the device can see before it resolves `id` onto `target`: another entry is there, with a completion that is
      not in the archive. */
  predicate ClobbersCompletion(entries: map<AttemptId, Entry>, archive: seq<Archived>, id: AttemptId, target: AttemptId)
  {
    && target != id && target in entries && entries[target].completion.Some?
    && !CompletionArchived(archive, target, entries[target].completion.value)
  }

  predicate LandsOnCompletion(s: Sys, a: Action) {
    a.Resolve? && a.puts >= 2 && ClobbersCompletion(s.entries, s.archive, a.id, a.remote.id)
  }

  /** Such a landing drops the completion unless the server has it already. */
  ghost predicate Drops(s: Sys, a: Action, id: AttemptId, c: Completion) {
    LandsOnCompletion(s, a) && a.remote.id == id && Completes(s.entries[id], c) && !Confirmed(s.db, id, c)
  }

  // ---- one step ----

  lemma ConfirmedStays(s: Db, t: Db, id: AttemptId, c: Completion)
    requires Evolves(s, t) && Confirmed(s, id, c)
    ensures Confirmed(t, id, c)
  {}

  lemma ArchivedStays(s: Sys, a: Action, id: AttemptId, c: Completion)
    requires Enabled(s, a) && CompletionArchived(s.archive, id, c)
    ensures CompletionArchived(Next(s, a).archive, id, c)
  {
    StepRecorded(s, a);
    hide Next, Enabled;
    var k :| 0 <= k < |s.archive| && s.archive[k].id == id && Completes(s.archive[k].entry, c);
    assert Next(s, a).archive[k] == s.archive[k];
  }

  lemma ArchivedNow(archive: seq<Archived>, id: AttemptId, e: Entry, c: Completion)
    requires Completes(e, c)
    ensures CompletionArchived(archive + [Archived(id, e)], id, c)
  {
    assert (archive + [Archived(id, e)])[|archive|] == Archived(id, e);
  }

  /** Steps at the device other than a resolution leave a completion in its entry, or archive the entry. */
  lemma LocalStepKeeps(s: Sys, a: Action, id: AttemptId, c: Completion)
    requires Enabled(s, a) && id in s.entries && Completes(s.entries[id], c)
    requires a.Begin? || a.Remember? || a.SaveLocal? || a.CompleteLocal? || a.Reload? || a.Retry?
    ensures id in Next(s, a).entries && Completes(Next(s, a).entries[id], c)
  {
    hide Snapshot, NewOperation, LocalData, StartDraft;
  }

  lemma SyncStepKeeps(s: Sys, a: Action, id: AttemptId, c: Completion)
    requires Enabled(s, a) && id in s.entries && Completes(s.entries[id], c)
    requires a.StampSave? || a.StampCompletion? || a.Refuse? || a.LateSave? || a.Other?
    ensures id in Next(s, a).entries && Completes(Next(s, a).entries[id], c)
  {
    hide Snapshot, SaveRequest, Apply;
  }

  lemma TripStepKeeps(s: Sys, a: Action, id: AttemptId, c: Completion)
    requires Enabled(s, a) && id in s.entries && Completes(s.entries[id], c) && (a.CreateTrip? || a.SaveTrip?)
    ensures id in Next(s, a).entries && Completes(Next(s, a).entries[id], c)
  {
    hide SaveRequest, StartExecutionAttempt, Fetch;
  }

  lemma FinalizeStepKeeps(s: Sys, a: Action, id: AttemptId, c: Completion)
    requires Enabled(s, a) && id in s.entries && Completes(s.entries[id], c) && a.FinalizeTrip?
    ensures CompletionKept(Next(s, a), id, c)
  {
    var k := s.entries[a.id].completion.value;
    var (t, reply) := FinalizeAttempt(s.db, a.id, s.me, k.revision, k.finished, a.at);
    if reply.Ok? { FinalizeReply(s.db, a.id, s.me, k.revision, k.finished, a.at); }
    hide FinalizeAttempt, Fetch, CompletionArchived;
  }

  lemma ArchiveStepKeeps(s: Sys, a: Action, id: AttemptId, c: Completion)
    requires Enabled(s, a) && id in s.entries && Completes(s.entries[id], c) && a.ArchiveCreate?
    ensures CompletionKept(Next(s, a), id, c)
  {
    if a.id == id { ArchivedNow(s.archive, id, s.entries[id], c); }
    hide CompletionArchived;
  }

  lemma ResolveStepKeeps(s: Sys, a: Action, id: AttemptId, c: Completion)
    requires Enabled(s, a) && id in s.entries && Completes(s.entries[id], c) && a.Resolve? && !Drops(s, a, id, c)
    ensures CompletionKept(Next(s, a), id, c)
  {
    ResolveAllowed(s, a);
    hide Next, Enabled, LandedQueue;
    ResolveStep(s, a);
    ResolveOthers(s, a);
    if id == a.id {
      ArchivedNow(s.archive, id, s.entries[id], c);
    } else if id == a.remote.id && a.puts >= 2 && CompletionArchived(s.archive, id, c) {
      ArchivedStays(s, a, id, c);
    } else if id == a.remote.id && a.puts >= 2 {
      SameArchived(s.archive, id, c, s.entries[id].completion.value);
    }
  }

  lemma SameArchived(archive: seq<Archived>, id: AttemptId, c: Completion, d: Completion)
    requires c.finished == d.finished && c.shown == d.shown
    ensures CompletionArchived(archive, id, c) == CompletionArchived(archive, id, d)
  {
    assert forall e :: Completes(e, c) == Completes(e, d);
  }

  lemma EntryStepKeeps(s: Sys, a: Action, id: AttemptId, c: Completion)
    requires Enabled(s, a) && id in s.entries && Completes(s.entries[id], c) && !Drops(s, a, id, c)
    ensures CompletionKept(Next(s, a), id, c)
  {
    hide Next, Enabled, Drops, CompletionArchived, Confirmed, Completes;
    match a
    case Resolve(_, _, _, _, _) => ResolveStepKeeps(s, a, id, c);
    case FinalizeTrip(_, _, _) => FinalizeStepKeeps(s, a, id, c);
    case ArchiveCreate(_, _) => ArchiveStepKeeps(s, a, id, c);
    case CreateTrip(_, _, _) => TripStepKeeps(s, a, id, c);
    case SaveTrip(_, _, _) => TripStepKeeps(s, a, id, c);
    case StampSave(_) => SyncStepKeeps(s, a, id, c);
    case StampCompletion(_) => SyncStepKeeps(s, a, id, c);
    case Refuse(_, _) => SyncStepKeeps(s, a, id, c);
    case LateSave(_, _) => SyncStepKeeps(s, a, id, c);
    case Other(_) => SyncStepKeeps(s, a, id, c);
    case _ => LocalStepKeeps(s, a, id, c);
  }

  lemma DroppedIsLost(s: Sys, a: Action, id: AttemptId, c: Completion)
    requires Enabled(s, a) && Drops(s, a, id, c)
    ensures !CompletionKept(Next(s, a), id, c)
  {
    hide Next, Enabled, LandedQueue;
    ResolveStep(s, a);
    ResolveLanding(s, a);
    SameArchived(s.archive, id, c, s.entries[id].completion.value);
    var more := Next(s, a).archive;
    forall k | 0 <= k < |more| && more[k].id == id ensures !Completes(more[k].entry, c) {
      assert more[k] == s.archive[k];
    }
  }

  /** One step keeps a completion exactly if it is not a landing that drops it. */
  lemma CompletionStepIff(s: Sys, a: Action, id: AttemptId, c: Completion)
    requires Inv(s) && Enabled(s, a) && CompletionKept(s, id, c)
    ensures CompletionKept(Next(s, a), id, c) <==> !Drops(s, a, id, c)
  {
    hide Inv, Next, Enabled, Drops, CompletionArchived, Confirmed, Completes, Evolves;
    if Drops(s, a, id, c) {
      DroppedIsLost(s, a, id, c);
    } else if id in s.entries && Completes(s.entries[id], c) {
      EntryStepKeeps(s, a, id, c);
    } else if Confirmed(s.db, id, c) {
      NextGrows(s, a);
      ConfirmedStays(s.db, Next(s, a).db, id, c);
    } else {
      ArchivedStays(s, a, id, c);
    }
  }

  // ---- whole runs ----

  lemma {:induction false} KeptWithout(ss: seq<Sys>, acts: seq<Action>, k: nat, n: nat, id: AttemptId, c: Completion)
    requires Trace(ss, acts) && k <= n < |ss| && CompletionKept(ss[k], id, c)
    requires forall i :: k <= i < n ==> !Drops(ss[i], acts[i], id, c)
    ensures CompletionKept(ss[n], id, c)
    decreases n
  {
    hide Next, Enabled, Drops, CompletionKept, Inv;
    if k < n {
      KeptWithout(ss, acts, k, n - 1, id, c);
      TraceInv(ss, acts, n - 1);
      CompletionStepIff(ss[n - 1], acts[n - 1], id, c);
    }
  }

  lemma CompletedNow(s: Sys, a: Action)
    requires Enabled(s, a) && a.CompleteLocal?
    ensures a.id in Next(s, a).entries && Next(s, a).entries[a.id].completion.Some?
    ensures CompletionKept(Next(s, a), a.id, Next(s, a).entries[a.id].completion.value)
  {}

  /** Completion conservation: from the step that completes an attempt on, its completion waits in the entry, reached
      the server or is archived, exactly as long as no resolution drops it. */
  lemma CompletionConservation(ss: seq<Sys>, acts: seq<Action>, k: nat, n: nat)
    requires Trace(ss, acts) && k < n < |ss| && acts[k].CompleteLocal?
    ensures acts[k].id in ss[k + 1].entries && ss[k + 1].entries[acts[k].id].completion.Some?
    ensures var id, c := acts[k].id, ss[k + 1].entries[acts[k].id].completion.value;
            (forall m :: k < m <= n ==> CompletionKept(ss[m], id, c)) <==>
            (forall i :: k < i < n ==> !Drops(ss[i], acts[i], id, c))
  {
    hide Next, Enabled, Drops, CompletionKept, Inv;
    CompletedNow(ss[k], acts[k]);
    var id, c := acts[k].id, ss[k + 1].entries[acts[k].id].completion.value;
    if forall i :: k < i < n ==> !Drops(ss[i], acts[i], id, c) {
      forall m | k < m <= n ensures CompletionKept(ss[m], id, c) { KeptWithout(ss, acts, k + 1, m, id, c); }
    }
    if forall m :: k < m <= n ==> CompletionKept(ss[m], id, c) {
      forall i | k < i < n ensures !Drops(ss[i], acts[i], id, c) {
        TraceInv(ss, acts, i);
        assert CompletionKept(ss[i], id, c) && CompletionKept(ss[i + 1], id, c);
        CompletionStepIff(ss[i], acts[i], id, c);
      }
    }
  }

  /** The guard a device could apply: if no resolution lands on another entry that holds unarchived answers in its queue
      or an unarchived completion, no saved answers and no completion are ever lost, whatever the server did. */
  lemma GuardedJournal(ss: seq<Sys>, acts: seq<Action>, n: nat)
    requires Trace(ss, acts) && n < |ss|
    requires forall i :: 0 <= i < n ==> !Lands(ss[i], acts[i]) && !LandsOnCompletion(ss[i], acts[i])
    ensures Conserved(ss[n])
    ensures forall k :: 0 <= k < n && acts[k].CompleteLocal? ==> CompletionStillKept(ss, acts, k, n)
  {
    hide Conserved, Next, Enabled, Lands, LandsOnCompletion, CompletionKept;
    GuardedConservation(ss, acts, n);
    forall k | 0 <= k < n && acts[k].CompleteLocal? ensures CompletionStillKept(ss, acts, k, n) {
      CompletionConservation(ss, acts, k, n);
      assert forall i :: k < i < n ==> !LandsOnCompletion(ss[i], acts[i]);
    }
  }

  ghost predicate CompletionStillKept(ss: seq<Sys>, acts: seq<Action>, k: nat, n: nat)
    requires |ss| == |acts| + 1 && k < n < |ss| && acts[k].CompleteLocal?
  {
    && acts[k].id in ss[k + 1].entries && ss[k + 1].entries[acts[k].id].completion.Some?
    && CompletionKept(ss[n], acts[k].id, ss[k + 1].entries[acts[k].id].completion.value)
  }

  // ---- it happens ----

  function CompletingScript(w: Story): (acts: seq<Action>)
    requires PackageScenario(w.packages, w.pkg, w.ref).Some?
    ensures |acts| == 7 && acts[..4] == Script(w)[..4] && acts[4] == CompleteLocal(2, 0, 50)
    ensures acts[5] == CreateTrip(1, 7, false) && acts[6] == Resolve(1, true, Row(2, Theirs(w)), 11, 3)
  {
    Script(w)[..4] + [CompleteLocal(2, 0, 50), CreateTrip(1, 7, false), Resolve(1, true, Row(2, Theirs(w)), 11, 3)]
  }

  function Completion50(w: Story): Completion
    requires PackageScenario(w.packages, w.pkg, w.ref).Some?
  {
    Completion(50, 0, Theirs(w).data)
  }

  function Completed(w: Story): Sys
    requires PackageScenario(w.packages, w.pkg, w.ref).Some?
  {
    Put(Opened(w), 2, Entry(Theirs(w), None, [], Some(Completion50(w)), false, None, 1))
  }

  function Conflicting(w: Story): Sys
    requires PackageScenario(w.packages, w.pkg, w.ref).Some?
  {
    Put(Completed(w), 1, BeginEntry(Executed(w), 0, w.ref, 5).(error := true, conflict := Some(Row(2, Theirs(w)))))
  }

  lemma CompletesOpened(w: Story)
    requires Plausible(w)
    ensures Enabled(Opened(w), CompleteLocal(2, 0, 50)) && Next(Opened(w), CompleteLocal(2, 0, 50)) == Completed(w)
  {}

  lemma CreationRefused(w: Story)
    requires Plausible(w)
    ensures Enabled(Completed(w), CreateTrip(1, 7, false))
    ensures Next(Completed(w), CreateTrip(1, 7, false)) == Conflicting(w)
  {
    var db := Completed(w).db;
    assert OpenIn(db.attempts, 2, 0, w.ref);
    assert OpenAttempt(db.attempts, 0, w.ref) == Some(2);
  }

  lemma ResolvesOntoCompletion(w: Story)
    requires Plausible(w)
    ensures var a := Resolve(1, true, Row(2, Theirs(w)), 11, 3);
            && Enabled(Conflicting(w), a) && Drops(Conflicting(w), a, 2, Completion50(w)) && !Lands(Conflicting(w), a)
            && Next(Conflicting(w), a).db.evidence == [] && Conflicting(w).saved == map[]
  {}

  /**
   * For every package with a scenario: the tester starts the procedure offline while a colleague starts it online,
   * opens the colleague's attempt as well and completes it; the own creation then conflicts, and keeping the own
   * answers drops the completion. No queue held answers, so the device lost none; the server has no record.
   */
  lemma CompletionOverwritten(w: Story) returns (ss: seq<Sys>)
    requires Plausible(w)
    ensures Trace(ss, CompletingScript(w)) && ss[7].saved == map[] && ss[7].db.evidence == []
    ensures 2 in ss[5].entries && ss[5].entries[2].completion == Some(Completion50(w))
    ensures !CompletionKept(ss[7], 2, Completion50(w))
  {
    hide Next, Enabled, Start0, Executed, Begun, Joined, Opened, Completed, Conflicting, Script, Theirs;
    hide Drops, Lands, Begins, PackageScenario, PackagesOk, CompletionKept, Completion50, CompletingScript;
    Executes(w);
    BeginsOffline(w);
    ColleagueStarts(w);
    Remembers(w);
    CompletesOpened(w);
    CreationRefused(w);
    ResolvesOntoCompletion(w);
    var acts := CompletingScript(w);
    assert acts[0] == acts[..4][0] && acts[1] == acts[..4][1] && acts[2] == acts[..4][2] && acts[3] == acts[..4][3];
    assert Script(w)[..4][0] == Script(w)[0] && Script(w)[..4][1] == Script(w)[1];
    assert Script(w)[..4][2] == Script(w)[2] && Script(w)[..4][3] == Script(w)[3];
    var last := Next(Conflicting(w), acts[6]);
    ss := [Start0(w), Executed(w), Begun(w), Joined(w), Opened(w), Completed(w), Conflicting(w), last];
    forall i | 0 <= i < 7 ensures Enabled(ss[i], acts[i]) && ss[i + 1] == Next(ss[i], acts[i]) {
      assert i == 0 || i == 1 || i == 2 || i == 3 || i == 4 || i == 5 || i == 6;
    }
    DroppedIsLost(Conflicting(w), acts[6], 2, Completion50(w));
    CompletedEntry(w);
    ResolveStep(Conflicting(w), acts[6]);
  }

  lemma CompletedEntry(w: Story)
    requires PackageScenario(w.packages, w.pkg, w.ref).Some?
    ensures 2 in Completed(w).entries && Completed(w).entries[2].completion == Some(Completion50(w))
  {}
}
