/** The answers a resolution can lose: when it happens, that it does happen, and that they do not come back. */
module SyncLoss {
  import opened Base
  import opened Drafts
  import opened CampaignServer
  import opened CampaignInvariants
  import opened Journal
  import opened Sync
  import opened SyncInvariants
  import opened SyncTheorems
  import opened SyncOutcomes

  /** Whose queue a landing replaces. */
  function Target(a: Action): AttemptId
    requires a.Resolve?
  {
    a.remote.id
  }

  /** In every run: a landing on a queue that holds the attempt's last save loses it exactly if the server had not
      taken it, and it never had if the tail was unstamped. */
  lemma LandingCosts(ss: seq<Sys>, acts: seq<Action>, n: nat)
    requires Trace(ss, acts) && n < |acts| && Lands(ss[n], acts[n])
    requires var tail := Tail(ss[n].entries[Target(acts[n])]);
             tail.revision == 0 || (Target(acts[n]) in ss[n].saved && ss[n].saved[Target(acts[n])].id == tail.id)
    ensures var s, t, id := ss[n], ss[n + 1], Target(acts[n]);
            && id in s.saved && id in t.saved && t.saved[id] == s.saved[id] && InTail(s.entries[id], s.saved[id])
            && (Kept(t, id, t.saved[id]) <==> s.saved[id].id in s.accepted)
            && (Tail(s.entries[id]).revision == 0 ==> !Kept(t, id, t.saved[id]))
  {
    var s, a, id := ss[n], acts[n], Target(acts[n]);
    TraceInv(ss, acts, n);
    TraceTails(ss, acts, n);
    assert TailSaved(s, id);
    hide Inv, Next, Enabled, Kept, TailsSaved, Clobbers;
    ResolveEffect(s, a);
    if s.saved[id].id in s.accepted {
      AcceptedKept(Next(s, a), id, s.saved[id]);
      UnstampedUnaccepted(s, id);
    } else {
      assert Overwrites(s, a);
      OverwrittenLost(s, a);
    }
  }

  /** In every run: answers waiting unstamped in another entry's queue survive a resolution onto it exactly if the
      device had archived them. */
  lemma UnsentKeptIff(ss: seq<Sys>, acts: seq<Action>, n: nat)
    requires Trace(ss, acts) && n < |acts| && acts[n].Resolve? && acts[n].puts >= 2 && Target(acts[n]) != acts[n].id
    requires Target(acts[n]) in ss[n].entries && ss[n].entries[Target(acts[n])].operations != []
    requires Tail(ss[n].entries[Target(acts[n])]).revision == 0
    ensures var id := Target(acts[n]);
            var tail := Tail(ss[n].entries[id]);
            Kept(ss[n + 1], id, tail) <==> InArchive(ss[n].archive, id, tail)
  {
    var s, t, id := ss[n], ss[n + 1], Target(acts[n]);
    var tail := Tail(s.entries[id]);
    ResolveEffect(s, acts[n]);
    hide Next, Enabled;
    if InArchive(s.archive, id, tail) {
      var k :| 0 <= k < |s.archive| && s.archive[k].id == id && InTail(s.archive[k].entry, tail);
      assert t.archive[k] == s.archive[k];
    } else {
      LandingCosts(ss, acts, n);
      SameTail(t, id, s.saved[id], tail);
    }
  }

  lemma SameTail(s: Sys, id: AttemptId, op: Operation, tail: Operation)
    requires op.id == tail.id && op.data == tail.data
    ensures Kept(s, id, op) == Kept(s, id, tail)
  {
    assert forall e :: InTail(e, op) == InTail(e, tail);
  }

  lemma AcceptedKept(s: Sys, id: AttemptId, op: Operation)
    requires op.id in s.accepted
    ensures Kept(s, id, op)
  {}

  // ---- lost for good ----

  /** The operation was never sent, is not in its attempt's queue and was not archived from there. */
  ghost predicate Gone(s: Sys, id: AttemptId, op: Operation) {
    && op.id in s.minted && s.minted[op.id] == id && op.id !in s.sent
    && (id in s.entries ==> !Queued(s.entries[id].operations, op.id))
    && !InArchive(s.archive, id, op)
  }

  ghost predicate Queued(q: seq<Operation>, op: OperationId) {
    exists k :: 0 <= k < |q| && q[k].id == op
  }

  lemma TailQueued(e: Entry, op: Operation)
    ensures InTail(e, op) ==> Queued(e.operations, op.id)
  {}

  lemma GoneNotKept(s: Sys, id: AttemptId, op: Operation)
    requires HistoryOk(s) && Gone(s, id, op)
    ensures !Kept(s, id, op)
  {
    assert op.id in s.accepted ==> AcceptedOk(s, op.id);
    if id in s.entries { TailQueued(s.entries[id], op); }
  }

  /** Where a queue's operations come from in one step: the same queue before, or new. */
  ghost predicate QueueFrom(s: Sys, e: Option<Entry>, f: Entry) {
    forall op :: Queued(f.operations, op) ==> op !in s.minted || (e.Some? && Queued(e.value.operations, op))
  }

  lemma SaveEntryFrom(s: Sys, e: Entry, data: DraftData, op: OperationId)
    requires op !in s.minted
    ensures QueueFrom(s, Some(e), SaveEntry(e, data, op))
  {
    var f := SaveEntry(e, data, op);
    forall o | Queued(f.operations, o) ensures o !in s.minted || Queued(e.operations, o) {
      var k :| 0 <= k < |f.operations| && f.operations[k].id == o;
      if k < |f.operations| - 1 { assert e.operations[k].id == o; }
    }
  }

  lemma StampedFrom(s: Sys, e: Entry)
    requires e.operations != []
    ensures QueueFrom(s, Some(e), Stamped(e))
  {
    forall o | Queued(Stamped(e).operations, o) ensures Queued(e.operations, o) {
      var k :| 0 <= k < |Stamped(e).operations| && Stamped(e).operations[k].id == o;
      assert e.operations[k].id == o;
    }
  }

  lemma AcknowledgedFrom(s: Sys, e: Entry, row: Attempt)
    requires e.operations != []
    ensures QueueFrom(s, Some(e), Acknowledged(e, row))
  {
    forall o | Queued(Acknowledged(e, row).operations, o) ensures Queued(e.operations, o) {
      var k :| 0 <= k < |Acknowledged(e, row).operations| && Acknowledged(e, row).operations[k].id == o;
      assert e.operations[k + 1].id == o;
    }
  }

  /** One step: every queue's operations come from that queue or are new. */
  lemma QueuesFrom(s: Sys, a: Action, id: AttemptId)
    requires Enabled(s, a) && id in Next(s, a).entries
    ensures QueueFrom(s, EntryAt(s, id), Next(s, a).entries[id])
  {
    hide Next, Enabled, QueueFrom;
    match a
    case Resolve(_, _, _, _, _) => LandedFrom(s, a, id);
    case SaveLocal(_, _, _, _) => SavedFrom(s, a, id);
    case StampSave(_) => StampFrom(s, a, id);
    case CreateTrip(_, _, _) => TripFrom(s, a, id);
    case SaveTrip(_, _, _) => TripFrom(s, a, id);
    case FinalizeTrip(_, _, _) => TripFrom(s, a, id);
    case _ => SameFrom(s, a, id);
  }

  lemma SavedFrom(s: Sys, a: Action, id: AttemptId)
    requires Enabled(s, a) && a.SaveLocal? && id in Next(s, a).entries
    ensures QueueFrom(s, EntryAt(s, id), Next(s, a).entries[id])
  {
    hide SaveEntry;
    if a.id == id { SaveEntryFrom(s, s.entries[id], a.data, a.op); }
  }

  lemma StampFrom(s: Sys, a: Action, id: AttemptId)
    requires Enabled(s, a) && a.StampSave? && id in Next(s, a).entries
    ensures QueueFrom(s, EntryAt(s, id), Next(s, a).entries[id])
  {
    if a.id == id { StampedFrom(s, s.entries[id]); }
    hide Stamped;
  }

  lemma TripFrom(s: Sys, a: Action, id: AttemptId)
    requires Enabled(s, a) && (a.CreateTrip? || a.SaveTrip? || a.FinalizeTrip?) && id in Next(s, a).entries
    ensures QueueFrom(s, EntryAt(s, id), Next(s, a).entries[id])
  {
    hide SaveRequest, FinalizeAttempt, StartExecutionAttempt, Fetch;
    if a.SaveTrip? && a.id == id {
      var op := s.entries[id].operations[0];
      var reply := ServeSave(s, op.id, Sent(id, op.revision, op.data, None), a.attached).1;
      if reply.Ok? { AcknowledgedFrom(s, s.entries[id], reply.value.attempt); }
    }
  }

  lemma SameFrom(s: Sys, a: Action, id: AttemptId)
    requires Enabled(s, a) && id in Next(s, a).entries && !a.Resolve? && !a.SaveLocal? && !a.StampSave?
    requires !a.CreateTrip? && !a.SaveTrip? && !a.FinalizeTrip?
    ensures QueueFrom(s, EntryAt(s, id), Next(s, a).entries[id])
  {
    hide SaveRequest, Snapshot, Apply, LocalData, StartDraft;
  }

  lemma LandedFrom(s: Sys, a: Action, id: AttemptId)
    requires Enabled(s, a) && a.Resolve? && id in Next(s, a).entries
    ensures QueueFrom(s, EntryAt(s, id), Next(s, a).entries[id])
  {
    ResolveEffect(s, a);
    hide Next, Enabled;
  }

  lemma NextGone(s: Sys, a: Action, id: AttemptId, op: Operation)
    requires Inv(s) && Enabled(s, a) && Gone(s, id, op)
    ensures Gone(Next(s, a), id, op)
  {
    var t := Next(s, a);
    hide Inv, Next, Enabled, SentOk, InArchive;
    assert op.id in t.minted && t.minted[op.id] == id by { NextGrows(s, a); }
    if id in t.entries { QueuesFrom(s, a, id); }
    NotSentNow(s, a, id, op);
    NotArchivedNow(s, a, id, op);
  }

  lemma NotArchivedNow(s: Sys, a: Action, id: AttemptId, op: Operation)
    requires Enabled(s, a) && Gone(s, id, op)
    ensures !InArchive(Next(s, a).archive, id, op)
  {
    StepRecorded(s, a);
    hide Next, Enabled;
    var more := Next(s, a).archive;
    forall k | 0 <= k < |more| && more[k].id == id ensures !InTail(more[k].entry, op) {
      if k < |s.archive| {
        assert more[k] == s.archive[k];
      } else {
        TailQueued(more[k].entry, op);
      }
    }
  }

  lemma NotSentNow(s: Sys, a: Action, id: AttemptId, op: Operation)
    requires Inv(s) && Enabled(s, a) && Gone(s, id, op)
    ensures op.id !in Next(s, a).sent
  {
    StepRecorded(s, a);
    if !Asks(a) {
      LocalAdds(s, a);
      if a.StampSave? {
        var e := s.entries[a.id];
        assert EntryOk(s, a.id, e);
        assert Queued(e.operations, e.operations[0].id);
      }
    }
    hide Next;
  }

  lemma {:induction false} StaysGone(ss: seq<Sys>, acts: seq<Action>, n: nat, m: nat, id: AttemptId, op: Operation)
    requires Trace(ss, acts) && n <= m < |ss| && Gone(ss[n], id, op)
    ensures Gone(ss[m], id, op)
    decreases m
  {
    hide Gone, Next, Enabled;
    if n < m {
      StaysGone(ss, acts, n, m - 1, id, op);
      TraceInv(ss, acts, m - 1);
      NextGone(ss[m - 1], acts[m - 1], id, op);
    }
  }

  /** An unstamped save overwritten by a landing is lost for the rest of the run: it never reaches the server,
      a queue or the archive again. */
  lemma LostForGood(ss: seq<Sys>, acts: seq<Action>, n: nat, m: nat)
    requires Trace(ss, acts) && n < |acts| && n < m < |ss| && Lands(ss[n], acts[n])
    requires Tail(ss[n].entries[Target(acts[n])]).revision == 0
    ensures var id, op := Target(acts[n]), Tail(ss[n].entries[Target(acts[n])]);
            op.id !in ss[m].sent && !Kept(ss[m], id, op)
  {
    var id, op := Target(acts[n]), Tail(ss[n].entries[Target(acts[n])]);
    NowGone(ss, acts, n);
    StaysGone(ss, acts, n + 1, m, id, op);
    TraceInv(ss, acts, m);
    GoneNotKept(ss[m], id, op);
  }

  lemma NowGone(ss: seq<Sys>, acts: seq<Action>, n: nat)
    requires Trace(ss, acts) && n < |acts| && Lands(ss[n], acts[n])
    requires Tail(ss[n].entries[Target(acts[n])]).revision == 0
    ensures Gone(ss[n + 1], Target(acts[n]), Tail(ss[n].entries[Target(acts[n])]))
  {
    var s, a, t, id := ss[n], acts[n], ss[n + 1], Target(acts[n]);
    TraceInv(ss, acts, n);
    hide Inv, Next, Enabled, Clobbers;
    UnstampedTail(s, id);
    StillUnsent(s, a, Tail(s.entries[id]).id);
    NextGrows(s, a);
    LandedGone(s, a);
  }

  lemma UnstampedTail(s: Sys, id: AttemptId)
    requires Inv(s) && id in s.entries && s.entries[id].operations != [] && Tail(s.entries[id]).revision == 0
    ensures var op := Tail(s.entries[id]).id; op in s.minted && s.minted[op] == id && op !in s.sent
  {
    assert EntryOk(s, id, s.entries[id]);
  }

  lemma StillUnsent(s: Sys, a: Action, op: OperationId)
    requires Enabled(s, a) && a.Resolve? && op in s.minted && op !in s.sent
    ensures op !in Next(s, a).sent
  {
    LocalAdds(s, a);
    ResolveAllowed(s, a);
    hide Next, Enabled;
  }

  /** After a landing the target's queue and the archive no longer hold its old tail. */
  lemma LandedGone(s: Sys, a: Action)
    requires Enabled(s, a) && Lands(s, a) && Tail(s.entries[Target(a)]).id in s.minted
    ensures var t, id, op := Next(s, a), Target(a), Tail(s.entries[Target(a)]);
            id in t.entries && !Queued(t.entries[id].operations, op.id) && !InArchive(t.archive, id, op)
  {
    ResolveEffect(s, a);
    hide Next, Enabled;
    var t, id, op := Next(s, a), Target(a), Tail(s.entries[Target(a)]);
    forall k | 0 <= k < |t.archive| && t.archive[k].id == id ensures !InTail(t.archive[k].entry, op) {
      assert t.archive[k] == s.archive[k];
    }
  }

  // ---- it happens ----

  // A package with a scenario, the tester, a colleague, and what the tester saves.
  datatype Story = Story(packages: Packages, pkg: PackageId, ref: Ref, me: Actor, colleague: Actor, d: DraftData)

  ghost predicate Plausible(w: Story) {
    PackagesOk(w.packages) && PackageScenario(w.packages, w.pkg, w.ref).Some?
  }

  function Script(w: Story): (acts: seq<Action>)
    requires PackageScenario(w.packages, w.pkg, w.ref).Some?
    ensures |acts| == 7 && acts[6] == Resolve(1, true, Row(2, Theirs(w)), 11, 2)
  {
    [Other(Execute(0, w.pkg, "x", "x", "x")), Begin(1, 0, w.ref, 5), Other(Start(0, 2, w.ref, w.colleague, 6)),
     Remember(2, Theirs(w)), SaveLocal(2, 0, w.d, 10), CreateTrip(1, 7, false),
     Resolve(1, true, Row(2, Theirs(w)), 11, 2)]
  }

  function Campaign(w: Story, revision: nat): Execution { Execution(w.pkg, "x", "x", "x", revision, None) }

  function Theirs(w: Story): Attempt
    requires PackageScenario(w.packages, w.pkg, w.ref).Some?
  {
    var data := StartDraft(Campaign(w, 1), PackageScenario(w.packages, w.pkg, w.ref).value, w.colleague);
    NewAttempt(w.pkg, Some(0), w.ref, w.colleague, 6, data, Some(w.colleague))
  }

  function Start0(w: Story): Sys {
    Sys(w.me, Db(w.packages, map[], map[], []), map[], [], map[], map[], map[], {}, map[])
  }

  function Executed(w: Story): Sys {
    Start0(w).(db := Db(w.packages, map[0 := Campaign(w, 1)], map[], []))
  }

  function Begun(w: Story): Sys
    requires PackageScenario(w.packages, w.pkg, w.ref).Some?
  {
    Executed(w).(started := map[1 := Creation(0, w.ref)], entries := map[1 := BeginEntry(Executed(w), 0, w.ref, 5)])
  }

  function Joined(w: Story): Sys
    requires PackageScenario(w.packages, w.pkg, w.ref).Some?
  {
    Begun(w).(db := Db(w.packages, map[0 := Campaign(w, 2)], map[2 := Theirs(w)], []))
  }

  function Opened(w: Story): Sys
    requires PackageScenario(w.packages, w.pkg, w.ref).Some?
  {
    Put(Joined(w), 2, Entry(Theirs(w), None, [], None, false, None, 0))
  }

  function Edited(w: Story): Sys
    requires PackageScenario(w.packages, w.pkg, w.ref).Some?
  {
    Put(Opened(w).(minted := map[10 := 2], saved := map[2 := Operation(10, w.d, 0)]), 2,
        Entry(Theirs(w), None, [Operation(10, w.d, 0)], None, false, None, 1))
  }

  function Conflicted(w: Story): Sys
    requires PackageScenario(w.packages, w.pkg, w.ref).Some?
  {
    Put(Edited(w), 1, BeginEntry(Executed(w), 0, w.ref, 5).(error := true, conflict := Some(Row(2, Theirs(w)))))
  }

  lemma Executes(w: Story)
    requires Plausible(w)
    ensures Begins(Start0(w)) && Enabled(Start0(w), Script(w)[0]) && Next(Start0(w), Script(w)[0]) == Executed(w)
  {
    assert !GoBlank("x") by { assert !GoSpace("x"[0]); }
  }

  lemma BeginsOffline(w: Story)
    requires Plausible(w)
    ensures Enabled(Executed(w), Script(w)[1]) && Next(Executed(w), Script(w)[1]) == Begun(w)
  {}

  lemma ColleagueStarts(w: Story)
    requires Plausible(w)
    ensures Enabled(Begun(w), Script(w)[2]) && Next(Begun(w), Script(w)[2]) == Joined(w)
  {
    var db := Begun(w).db;
    assert OpenAttempt(db.attempts, 0, w.ref).None?;
  }

  lemma Remembers(w: Story)
    requires Plausible(w)
    ensures Enabled(Joined(w), Script(w)[3]) && Next(Joined(w), Script(w)[3]) == Opened(w)
  {}

  lemma Edits(w: Story)
    requires Plausible(w)
    ensures Enabled(Opened(w), Script(w)[4]) && Next(Opened(w), Script(w)[4]) == Edited(w)
  {
    assert SaveEntry(Opened(w).entries[2], w.d, 10).operations == [Operation(10, w.d, 0)];
  }

  lemma CreationConflicts(w: Story)
    requires Plausible(w)
    ensures Enabled(Edited(w), Script(w)[5]) && Next(Edited(w), Script(w)[5]) == Conflicted(w)
  {
    var db := Edited(w).db;
    assert OpenIn(db.attempts, 2, 0, w.ref);
    assert OpenAttempt(db.attempts, 0, w.ref) == Some(2);
  }

  lemma ResolvesOnto(w: Story)
    requires Plausible(w)
    ensures Enabled(Conflicted(w), Script(w)[6]) && Lands(Conflicted(w), Script(w)[6])
    ensures Tail(Conflicted(w).entries[2]) == Operation(10, w.d, 0)
  {}

  /**
   * For every package with a scenario, and whatever the tester writes: the tester starts the procedure offline while a
   * colleague starts it online, opens the colleague's attempt as well and edits it; the own creation then conflicts,
   * and keeping the own answers overwrites that edit, which was never sent.
   */
  lemma EditOverwritten(w: Story) returns (ss: seq<Sys>)
    requires Plausible(w)
    ensures Trace(ss, Script(w)) && !Conserved(ss[7])
    ensures 2 in ss[7].saved && ss[7].saved[2].data == w.d && !Kept(ss[7], 2, ss[7].saved[2])
  {
    hide Trace, Script, Theirs, Conflicted, Lands, Kept, Plausible;
    assert PackageScenario(w.packages, w.pkg, w.ref).Some? by { Likely(w); }
    ss := PlayScript(w);
    ResolvesOnto(w);
    LandingCosts(ss, Script(w), 6);
  }

  lemma Likely(w: Story)
    requires Plausible(w)
    ensures PackageScenario(w.packages, w.pkg, w.ref).Some?
  {}

  lemma PlayScript(w: Story) returns (ss: seq<Sys>)
    requires Plausible(w)
    ensures Trace(ss, Script(w)) && |ss| == 8 && ss[6] == Conflicted(w)
  {
    hide Next, Enabled, Start0, Executed, Begun, Joined, Opened, Edited, Conflicted, Script, Theirs, Lands, Begins;
    hide PackageScenario, PackagesOk, Tail;
    Executes(w);
    BeginsOffline(w);
    ColleagueStarts(w);
    Remembers(w);
    Edits(w);
    CreationConflicts(w);
    ResolvesOnto(w);
    var acts := Script(w);
    ss := [Start0(w), Executed(w), Begun(w), Joined(w), Opened(w),
           Edited(w), Conflicted(w), Next(Conflicted(w), acts[6])];
    forall i | 0 <= i < 7 ensures Enabled(ss[i], acts[i]) && ss[i + 1] == Next(ss[i], acts[i]) {
      assert i == 0 || i == 1 || i == 2 || i == 3 || i == 4 || i == 5 || i == 6;
    }
  }
}
