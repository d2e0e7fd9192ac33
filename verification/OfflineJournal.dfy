/** The journal object the page works with. Every method that changes it is one step, or a
    sequence of steps, of the transition system in module Sync; `Synchronize` is the draining loop. */
module OfflineJournalObject {
  import opened Base
  import opened Drafts
  import opened CampaignServer
  import opened CampaignInvariants
  import opened CampaignStoreObject
  import opened Journal
  import opened Sync
  import opened SyncInvariants
  import opened SyncSteps
  import opened SyncTheorems
  import opened SyncConflicts
  import opened SyncProgress

  // How the network treats one request; `at`, `attached` and `fetched` are what the server and a
  // follow-up fetch happen to answer with.
  datatype Net = Net(upload: Upload, reaches: bool, answered: bool, at: Time, attached: bool, fetched: bool)

  // Uploading a save's attachments first: done, stopped by a missing file or a passing failure, or refused.
  datatype Upload = Uploaded | Interrupted | Rejected

  /** The exchange is completed. */
  predicate Completes(net: Net) { net.reaches && net.answered }

  /** So is that of a save, whose attachments go first. */
  predicate SaveCompletes(net: Net) { net.upload.Uploaded? && Completes(net) }

  ghost predicate Stepped(s: Sys, a: Action, t: Sys) {
    Enabled(s, a) && t == Next(s, a)
  }

  /** `acts` leads from `s` to `t`. */
  ghost predicate Follows(s: Sys, acts: seq<Action>, t: Sys)
    decreases |acts|
  {
    if acts == [] then s == t
    else
      var n := |acts| - 1;
      exists u :: Follows(s, acts[..n], u) && Stepped(u, acts[n], t)
  }

  lemma FollowsOne(s: Sys, acts: seq<Action>, t: Sys, a: Action)
    requires Follows(s, acts, t) && Inv(t) && Enabled(t, a)
    ensures Follows(s, acts + [a], Next(t, a)) && Inv(Next(t, a))
  {
    hide Inv, Enabled, Next;
    assert (acts + [a])[..|acts|] == acts;
    NextKeeps(t, a);
  }

  lemma RowStored(s: Sys, id: AttemptId)
    requires Inv(s) && id in s.entries
    ensures s.entries[id].create.None? ==> s.entries[id].row.revision >= 1
  {
    assert EntryOk(s, id, s.entries[id]);
  }

  // ---- exchanges, completed or not ----

  /** What is left in the network's hands may be lost, but is not refused for its attachments. */
  predicate Sound(net: Net) { net.attached && !net.upload.Rejected? }

  ghost predicate Sounds(nets: seq<Net>) {
    forall i :: 0 <= i < |nets| ==> Sound(nets[i])
  }

  ghost predicate StepOrNone(s: Sys, a: Option<Action>, t: Sys) {
    if a.Some? then Stepped(s, a.value, t) else t == s
  }

  /** A creation is answered, only arrives, or is lost altogether. */
  ghost predicate CreateExchange(s: Sys, id: AttemptId, net: Net, a: Option<Action>) {
    id in s.entries && s.entries[id].create.Some? &&
    var c := s.entries[id].create.value;
    if Completes(net) then a == Some(CreateTrip(id, net.at, net.fetched))
    else a.None? || a == Some(Other(Start(c.execution, id, c.ref, s.me, net.at)))
  }

  /** So is a save, unless its attachments never got there. */
  ghost predicate SaveExchange(s: Sys, id: AttemptId, net: Net, a: Option<Action>) {
    HeadStamped(s, id) &&
    if Completes(net) then a == Some(SaveTrip(id, net.attached, net.fetched))
    else a.None? || a == Some(LateSave(s.entries[id].operations[0].id, net.attached))
  }

  ghost predicate FinalizeExchange(s: Sys, id: AttemptId, net: Net, a: Option<Action>) {
    CompletionStampedAt(s, id) &&
    var c := s.entries[id].completion.value;
    if Completes(net) then a == Some(FinalizeTrip(id, net.at, net.fetched))
    else a.None? || a == Some(Other(Finalize(id, s.me, c.revision, c.finished, net.at)))
  }

  lemma CreateExchanged(s: Sys, id: AttemptId, net: Net, a: Option<Action>, t: Sys)
    requires CreateExchange(s, id, net, a) && StepOrNone(s, a, t) && Inv(s)
    ensures WillDrain(s, id) <==> WillDrain(t, id)
  {
    hide Inv, WillDrain, StartExecutionAttempt;
    if Completes(net) {
      CreateTripDrains(s, id, net.at, net.fetched);
    } else if a.Some? {
      CreateServed(s, id, net.at);
    }
  }

  lemma SaveExchanged(s: Sys, id: AttemptId, net: Net, a: Option<Action>, t: Sys)
    requires SaveExchange(s, id, net, a) && StepOrNone(s, a, t) && Sound(net) && Inv(s)
    ensures WillDrain(s, id) <==> WillDrain(t, id)
  {
    hide Inv, WillDrain, Next;
    if Completes(net) {
      SaveTripDrains(s, id, net.fetched);
    } else if a.Some? {
      LateSaveDrains(s, id);
    }
  }

  lemma FinalizeExchanged(s: Sys, id: AttemptId, net: Net, a: Option<Action>, t: Sys)
    requires FinalizeExchange(s, id, net, a) && StepOrNone(s, a, t) && !s.entries[id].error && Inv(s)
    ensures WillDrain(s, id) <==> WillDrain(t, id)
  {
    hide Inv, WillDrain, FinalizeAttempt;
    if Completes(net) {
      FinalizeTripDrains(s, id, net.at, net.fetched);
    } else if a.Some? {
      FinalizeServed(s, id, net.at);
    }
  }

  class OfflineJournal {
    const me: Actor
    const server: CampaignStore
    var entries: map<AttemptId, Entry>
    var archive: seq<Archived>
    ghost var started: map<AttemptId, Creation>
    ghost var minted: map<OperationId, AttemptId>
    ghost var sent: map<OperationId, Sent>
    ghost var accepted: set<OperationId>
    ghost var saved: map<AttemptId, Operation>

    ghost function Whole(): Sys
      reads this, server
    {
      Sys(me, server.Tables(), entries, archive, started, minted, sent, accepted, saved)
    }

    constructor (me: Actor, server: CampaignStore)
      requires Initial(server.Tables())
      ensures this.server == server && Begins(Whole()) && Inv(Whole())
    {
      this.me, this.server := me, server;
      entries, archive, started, minted, sent, accepted, saved := map[], [], map[], map[], map[], {}, map[];
    }

    method Put(id: AttemptId, e: Entry)
      modifies this`entries
      ensures Whole() == Sync.Put(old(Whole()), id, e)
    {
      entries := entries[id := e];
    }

    // ---- the user ----

    method Remember(id: AttemptId, row: Attempt)
      requires Inv(Whole()) && Snapshot(server.Tables(), id, row)
      modifies this`entries
      ensures Stepped(old(Whole()), Action.Remember(id, row), Whole()) && Inv(Whole())
    {
      hide Inv;
      NextKeeps(Whole(), Action.Remember(id, row));
      if id in entries && (entries[id].create.Some? || entries[id].operations != [] || entries[id].completion.Some?) {
        Put(id, entries[id]);
        return;
      }
      var version := if id !in entries then 0 else entries[id].version;
      if id in entries && entries[id].row.revision != row.revision { version := version + 1; }
      Put(id, Entry(row, None, [], None, false, None, version));
    }

    method Save(id: AttemptId, version: nat, data: DraftData, op: OperationId) returns (ok: bool)
      requires Inv(Whole()) && NewOperation(Whole(), op)
      modifies this`entries, this`minted, this`saved
      ensures Inv(Whole())
      ensures ok <==> id in old(entries) && MaySave(old(entries[id]), version)
      ensures if ok then
                Stepped(old(Whole()), SaveLocal(id, version, data, op), Whole()) &&
                id in entries && LocalData(entries[id]) == data
              else Whole() == old(Whole())
    {
      hide Inv;
      if id !in entries || entries[id].version != version { return false; }
      var e := entries[id];
      if e.completion.Some? || e.row.finalization.Some? { return false; }
      NextKeeps(Whole(), SaveLocal(id, version, data, op));
      var queue := e.operations;
      if queue != [] && queue[|queue| - 1].revision == 0 { queue := queue[..|queue| - 1]; }
      queue := queue + [Operation(op, data, 0)];
      minted, saved := minted[op := id], saved[id := Operation(op, data, 0)];
      Put(id, e.(operations := queue, version := e.version + 1));
      return true;
    }

    method Complete(id: AttemptId, version: nat, finished: Time) returns (ok: bool)
      requires Inv(Whole())
      modifies this`entries
      ensures Inv(Whole())
      ensures ok <==> id in old(entries) && old(entries[id]).version == version
      ensures if ok then Stepped(old(Whole()), CompleteLocal(id, version, finished), Whole())
              else Whole() == old(Whole())
      ensures ok && old(entries[id]).completion.None? ==>
                id in entries && entries[id].completion == Some(Completion(finished, 0, LocalData(old(entries[id]))))
    {
      hide Inv;
      if id !in entries || entries[id].version != version { return false; }
      NextKeeps(Whole(), CompleteLocal(id, version, finished));
      Put(id, CompleteEntry(entries[id], finished));
      return true;
    }

    // ---- the parts of synchronize ----

    /** POST the creation and keep its answer. */
    method Create(id: AttemptId, net: Net) returns (ghost a: Option<Action>)
      requires Inv(Whole()) && Enabled(Whole(), CreateTrip(id, net.at, net.fetched))
      modifies this`entries, server
      ensures StepOrNone(old(Whole()), a, Whole())
      ensures CreateExchange(old(Whole()), id, net, a)
      ensures !Completes(net) ==> entries == old(entries)
      ensures Inv(Whole())
    {
      hide EntriesOk, HistoryOk;
      if !net.reaches { return None; }
      var e := entries[id];
      var c := e.create.value;
      ghost var q := Start(c.execution, id, c.ref, me, net.at);
      CreationForeign(Whole(), id, net.at);
      NextKeeps(Whole(), Other(q));
      NextKeeps(Whole(), CreateTrip(id, net.at, net.fetched));
      var reply := server.StartExecutionAttempt(c.execution, id, c.ref, me, net.at);
      if !net.answered { return Some(Other(q)); }
      a := Some(CreateTrip(id, net.at, net.fetched));
      match reply {
        case Ok(row) => Put(id, CreationReply(e, id, row));
        case Refused(why) =>
          var db := Db(server.packages, server.executions, server.attempts, server.evidence);
          Put(id, Halted(e, Fetch(db, id, why, net.fetched)));
      }
    }

    /** Persist the base revision before the save is sent. */
    method Stamp(id: AttemptId)
      requires id in entries && Inv(Whole()) && Enabled(Whole(), StampSave(id))
      modifies this`entries, this`sent
      ensures Stepped(old(Whole()), StampSave(id), Whole()) && Inv(Whole())
      ensures id in entries && entries[id].create.None? && !entries[id].error && entries[id].operations != []
      ensures entries[id].operations[0].revision != 0 && |entries[id].operations| == |old(entries[id]).operations|
    {
      hide Inv;
      NextKeeps(Whole(), StampSave(id));
      RowStored(Whole(), id);
      var e := entries[id];
      if e.operations[0].revision == 0 {
        sent := sent[e.operations[0].id := Sent(id, e.row.revision, e.operations[0].data, Some(e.row))];
        Put(id, Stamped(e));
      }
    }

    /** The catch clause where no row is fetched: the error is kept. */
    method Halt(id: AttemptId)
      requires Inv(Whole()) && Enabled(Whole(), Refuse(id, None))
      modifies this`entries
      ensures Stepped(old(Whole()), Refuse(id, None), Whole()) && Inv(Whole()) && id in entries && entries[id].error
    {
      hide Inv;
      NextKeeps(Whole(), Refuse(id, None));
      Put(id, Halted(entries[id], None));
    }

    /** Upload the attachments of the head of the queue, PUT it and keep the answer. */
    method SendSave(id: AttemptId, net: Net) returns (ghost a: Option<Action>)
      requires Inv(Whole()) && Enabled(Whole(), SaveTrip(id, net.attached, net.fetched))
      modifies this`entries, this`accepted, server
      ensures StepOrNone(old(Whole()), a, Whole())
      ensures net.upload.Uploaded? ==> SaveExchange(old(Whole()), id, net, a)
      ensures net.upload.Interrupted? ==> a.None?
      ensures net.upload.Rejected? ==> a == Some(Refuse(id, None)) && id in entries && entries[id].error
      ensures !SaveCompletes(net) && !net.upload.Rejected? ==> entries == old(entries)
      ensures Inv(Whole())
    {
      hide Inv, Next;
      if net.upload.Interrupted? { return None; }
      if net.upload.Rejected? {
        Halt(id);
        return Some(Refuse(id, None));
      }
      a := PutSave(id, net);
    }

    /** PUT the head of the queue and keep the answer. */
    method PutSave(id: AttemptId, net: Net) returns (ghost a: Option<Action>)
      requires Inv(Whole()) && Enabled(Whole(), SaveTrip(id, net.attached, net.fetched))
      modifies this`entries, this`accepted, server
      ensures StepOrNone(old(Whole()), a, Whole())
      ensures SaveExchange(old(Whole()), id, net, a)
      ensures !Completes(net) ==> entries == old(entries)
      ensures Inv(Whole())
    {
      hide Inv, SaveRequest;
      if !net.reaches { return None; }
      var e := entries[id];
      var op := e.operations[0];
      HeadSent(Whole(), id);
      NextKeeps(Whole(), LateSave(op.id, net.attached));
      NextKeeps(Whole(), SaveTrip(id, net.attached, net.fetched));
      ghost var before := server.Tables();
      var reply := server.SaveAttempt(id, me, op.revision, op.id, op.data, net.attached);
      if server.Tables() != before { accepted := accepted + {op.id}; }
      if !net.answered { return Some(LateSave(op.id, net.attached)); }
      a := Some(SaveTrip(id, net.attached, net.fetched));
      match reply {
        case Ok(row) => Put(id, Acknowledged(e, row.attempt));
        case Refused(why) =>
          var db := Db(server.packages, server.executions, server.attempts, server.evidence);
          Put(id, Halted(e, Fetch(db, id, why, net.fetched)));
      }
    }

    method StampFinish(id: AttemptId)
      requires Inv(Whole()) && Enabled(Whole(), StampCompletion(id))
      modifies this`entries
      ensures Stepped(old(Whole()), StampCompletion(id), Whole()) && Inv(Whole())
      ensures Enabled(Whole(), FinalizeTrip(id, 0, false))
    {
      hide Inv;
      NextKeeps(Whole(), StampCompletion(id));
      RowStored(Whole(), id);
      Put(id, CompletionStamped(entries[id]));
    }

    method SendFinalize(id: AttemptId, net: Net) returns (ghost a: Option<Action>)
      requires Inv(Whole()) && Enabled(Whole(), FinalizeTrip(id, net.at, net.fetched))
      modifies this`entries, server
      ensures StepOrNone(old(Whole()), a, Whole())
      ensures FinalizeExchange(old(Whole()), id, net, a)
      ensures !Completes(net) ==> entries == old(entries)
      ensures Inv(Whole())
    {
      hide EntriesOk, HistoryOk, CampaignServer.FinalizeAttempt;
      if !net.reaches { return None; }
      var e := entries[id];
      var c := e.completion.value;
      ghost var q := Finalize(id, me, c.revision, c.finished, net.at);
      NextKeeps(Whole(), Other(q));
      NextKeeps(Whole(), FinalizeTrip(id, net.at, net.fetched));
      var reply := server.FinalizeAttempt(id, me, c.revision, c.finished, net.at);
      if !net.answered { return Some(Other(q)); }
      a := Some(FinalizeTrip(id, net.at, net.fetched));
      match reply {
        case Ok(row) => Put(id, e.(row := row.attempt, completion := None));
        case Refused(why) =>
          var db := Db(server.packages, server.executions, server.attempts, server.evidence);
          Put(id, Halted(e, Fetch(db, id, why, net.fetched)));
      }
    }

    // ---- the draining loop ----

    ghost predicate Reached(s: Sys, acts: seq<Action>)
      reads this, server
    {
      Follows(s, acts, Whole()) && Inv(Whole())
    }

    /** The while loop of synchronize: stamp, send, acknowledge, until the queue is empty. `go` says
        that nothing stopped it; `n` counts the requests made. Lost requests and replies do not
        change whether the entry will drain. */
    method DrainQueue(id: AttemptId, nets: seq<Net>, first: nat, ghost start: Sys, ghost before: seq<Action>)
      returns (n: nat, go: bool, ghost acts: seq<Action>)
      requires Reached(start, before) && first <= |nets|
      requires id in entries && !entries[id].error && entries[id].create.None?
      modifies this`entries, this`sent, this`accepted, server
      ensures Reached(start, acts) && id in entries && first <= n <= |nets|
      ensures n <= first + |old(entries[id]).operations|
      ensures Sounds(nets) ==> (WillDrain(old(Whole()), id) <==> WillDrain(Whole(), id))
      ensures go ==> !entries[id].error && entries[id].create.None? && entries[id].operations == []
      ensures go ==> Carries(old(Whole()), id, Whole())
      ensures old(entries[id]).operations == [] ==> go && Whole() == old(Whole())
      ensures !go ==> entries[id].error || n == |nets| || !SaveCompletes(nets[n])
    {
      hide Inv, Next, Follows, WillDrain, Carries;
      acts, n, go := before, first, true;
      CarriesStart(Whole(), id);
      while go && entries[id].operations != []
        invariant id in entries && first <= n <= |nets| && Reached(start, acts)
        invariant go ==> !entries[id].error && entries[id].create.None?
        invariant go ==> n + |entries[id].operations| <= first + |old(entries[id]).operations|
        invariant n <= first + |old(entries[id]).operations|
        invariant Sounds(nets) ==> (WillDrain(old(Whole()), id) <==> WillDrain(Whole(), id))
        invariant go ==> Carries(old(Whole()), id, Whole())
        invariant old(entries[id]).operations == [] ==> go && Whole() == old(Whole())
        invariant !go ==> entries[id].error || n == |nets| || !SaveCompletes(nets[n])
        decreases go, |entries[id].operations|
      {
        ghost var s1 := Whole();
        go, acts := DrainOne(id, nets, n, start, acts);
        if n < |nets| && SaveCompletes(nets[n]) { n := n + 1; }
        if go { CarriesOn(old(Whole()), id, s1, Whole()); }
      }
    }

    /** One turn of that loop. */
    method DrainOne(id: AttemptId, nets: seq<Net>, n: nat, ghost start: Sys, ghost before: seq<Action>)
      returns (go: bool, ghost acts: seq<Action>)
      requires Reached(start, before) && n <= |nets|
      requires id in entries && !entries[id].error && entries[id].create.None? && entries[id].operations != []
      modifies this`entries, this`sent, this`accepted, server
      ensures Reached(start, acts) && id in entries
      ensures Sounds(nets) ==> (WillDrain(old(Whole()), id) <==> WillDrain(Whole(), id))
      ensures go ==> n < |nets| && SaveCompletes(nets[n]) && !entries[id].error && entries[id].create.None?
      ensures go ==> |entries[id].operations| == |old(entries[id]).operations| - 1
      ensures go ==> Carries(old(Whole()), id, Whole())
      ensures !go ==> entries[id].error || n == |nets| || !SaveCompletes(nets[n])
    {
      hide Inv, Next, Follows, WillDrain, Carries;
      acts := before;
      ghost var s0 := Whole();
      CarriesStart(s0, id);
      Stamp(id);
      StampCarried(s0, s0, id);
      FollowsOne(start, acts, s0, StampSave(id));
      acts := acts + [StampSave(id)];
      if n == |nets| { return false, acts; }
      ghost var s1 := Whole();
      ghost var a := SendSave(id, nets[n]);
      if a.Some? { FollowsOne(start, acts, s1, a.value); acts := acts + [a.value]; }
      if Sound(nets[n]) && a.Some? { SaveExchanged(s1, id, nets[n], a, Whole()); }
      if !SaveCompletes(nets[n]) { return false, acts; }
      SaveTripOutcome(s1, id, nets[n].attached, nets[n].fetched);
      if entries[id].error { return false, acts; }
      SaveCarried(s0, s1, id, nets[n]);
      return true, acts;
    }

    /** synchronize: create, drain the queue operation by operation, then finalize. Whatever the
        network does, the journal and the server end in a state the transition system allows. With
        attachments in place, whether the entry drains is decided beforehand and no lost request
        or reply changes it; if every request is answered, it is drained exactly then, and carries
        the server's refusal otherwise. */
    method Synchronize(id: AttemptId, nets: seq<Net>) returns (ghost acts: seq<Action>)
      requires Inv(Whole()) && id in entries
      modifies this`entries, this`sent, this`accepted, server
      ensures Reached(old(Whole()), acts)
      ensures id in entries
      ensures Sounds(nets) ==> (WillDrain(old(Whole()), id) <==> WillDrain(Whole(), id))
      ensures |nets| >= |old(entries[id]).operations| + 2 &&
              (forall i :: 0 <= i < |nets| ==> SaveCompletes(nets[i])) ==>
                if Sounds(nets) && WillDrain(old(Whole()), id) then Settled(old(Whole()), id, Whole())
                else if Sounds(nets) then entries[id].error
                else entries[id].error || Settled(old(Whole()), id, Whole())
    {
      hide Inv, Next, Follows, WillDrain, Carries, Settled;
      acts := [];
      ghost var start := Whole();
      FollowsNone(start);
      CarriesStart(start, id);
      if entries[id].error { EndState(start, id); return; }
      var n := 0;
      if entries[id].create.Some? {
        if n == |nets| { return; }
        ghost var a := Create(id, nets[n]);
        if a.Some? { FollowsOne(start, acts, start, a.value); acts := acts + [a.value]; }
        CreateExchanged(start, id, nets[n], a, Whole());
        if !Completes(nets[n]) { return; }
        CreateTripOutcome(start, id, nets[n].at, nets[n].fetched);
        if entries[id].error { EndState(Whole(), id); return; }
        CreateCarries(start, id, nets[n].at, nets[n].fetched);
        n := 1;
      }
      ghost var made := Whole();
      var go;
      n, go, acts := DrainQueue(id, nets, n, start, acts);
      EndState(Whole(), id);
      if !go { return; }
      ghost var drained := Whole();
      CarriesThrough(start, id, made, drained);
      if entries[id].completion.Some? {
        acts := Finish(id, nets, n, start, acts);
      } else {
        NothingToSettle(drained, id);
      }
      if Settled(drained, id, Whole()) { CarriesSettled(start, id, drained, Whole()); }
      EndState(Whole(), id);
    }

    method Finish(id: AttemptId, nets: seq<Net>, n: nat, ghost start: Sys, ghost before: seq<Action>)
      returns (ghost acts: seq<Action>)
      requires Reached(start, before) && n <= |nets|
      requires Enabled(Whole(), StampCompletion(id))
      modifies this`entries, server
      ensures Reached(start, acts) && id in entries
      ensures WillDrain(old(Whole()), id) <==> WillDrain(Whole(), id)
      ensures n < |nets| && Completes(nets[n]) ==> entries[id].error || Settled(old(Whole()), id, Whole())
    {
      hide Inv, Next, Follows, WillDrain, Settled;
      acts := before;
      ghost var s1 := Whole();
      StampCompletionDrains(s1, id);
      StampFinish(id);
      FollowsOne(start, acts, s1, StampCompletion(id));
      acts := acts + [StampCompletion(id)];
      if n == |nets| { return; }
      ghost var s2 := Whole();
      ghost var a := SendFinalize(id, nets[n]);
      if a.Some? { FollowsOne(start, acts, s2, a.value); acts := acts + [a.value]; }
      FinalizeExchanged(s2, id, nets[n], a, Whole());
      if !Completes(nets[n]) { return; }
      FinalizeTripOutcome(s2, id, nets[n].at, nets[n].fetched);
      if !entries[id].error {
        FinalizeSettles(s2, id, nets[n].at, nets[n].fetched);
        StampSettles(s1, id, Whole());
      }
    }
  }

  lemma FollowsNone(s: Sys)
    ensures Follows(s, [], s)
  {
  }

  lemma StampCarried(o: Sys, s: Sys, id: AttemptId)
    requires Carries(o, id, s) && Enabled(s, StampSave(id))
    ensures Carries(o, id, Next(s, StampSave(id)))
    ensures WillDrain(s, id) <==> WillDrain(Next(s, StampSave(id)), id)
  {
    hide Carries, WillDrain, Next;
    StampCarries(s, id);
    StampDrains(s, id);
    CarriesOn(o, id, s, Next(s, StampSave(id)));
  }

  lemma SaveCarried(o: Sys, s: Sys, id: AttemptId, net: Net)
    requires Carries(o, id, s) && Enabled(s, SaveTrip(id, net.attached, net.fetched))
    requires !Next(s, SaveTrip(id, net.attached, net.fetched)).entries[id].error
    ensures Carries(o, id, Next(s, SaveTrip(id, net.attached, net.fetched)))
  {
    hide Carries, Next;
    SaveCarries(s, id, net.attached, net.fetched);
    CarriesOn(o, id, s, Next(s, SaveTrip(id, net.attached, net.fetched)));
  }

  lemma CarriesThrough(s: Sys, id: AttemptId, t: Sys, u: Sys)
    requires Carries(s, id, t) && Carries(t, id, u) && (Pending(t.entries[id]) || t == u)
    ensures Carries(s, id, u)
  {
    hide Carries;
    if t != u { CarriesOn(s, id, t, u); }
  }

  /** The end of the draining: an error means it was not to be, an entry without work that it was. */
  lemma EndState(t: Sys, id: AttemptId)
    requires Inv(t) && id in t.entries
    ensures t.entries[id].error ==> !WillDrain(t, id)
    ensures !t.entries[id].error && !Pending(t.entries[id]) ==> WillDrain(t, id)
  {
    hide Inv, Ready, Creatable;
    if !t.entries[id].error && !Pending(t.entries[id]) { NothingLeft(t, id); }
  }

  lemma StampSettles(s: Sys, id: AttemptId, t: Sys)
    requires Enabled(s, StampCompletion(id)) && Settled(Next(s, StampCompletion(id)), id, t)
    ensures Settled(s, id, t)
  {
    hide Filed, SameWork;
  }
}
