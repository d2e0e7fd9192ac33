/** SweepBlobs of internal/retention/sweep.go: batches of old objects, each decided and deleted under the lock. */
module BlobSweep {
  import opened Base
  import opened BlobSafety

  const SWEEP_BATCH: nat := 500

  datatype Object = Object(digest: Digest, created: Time)

  /** The digests of a run of listed objects that are old enough to be looked at. */
  function Due(listing: seq<Object>, cutoff: Time): set<Digest> {
    set i | 0 <= i < |listing| && listing[i].created <= cutoff :: listing[i].digest
  }

  /** Of the given objects, those no row names and whose deletion does not fail. */
  ghost function Orphans(s: Sys, ds: set<Digest>, fails: set<Digest>): set<Digest> {
    set d | d in ds && !Named(s, d) && d !in fails
  }

  predicate Distinct(listing: seq<Object>) {
    forall i, j :: 0 <= i < j < |listing| ==> listing[i].digest != listing[j].digest
  }

  /** The given objects are gone from the store; every row and every other object stays. */
  predicate Cleared(s: Sys, n: Sys, gone: set<Digest>) {
    n == s.(store := s.store - gone, sweep := n.sweep)
  }

  lemma ClearedMore(s: Sys, m: Sys, n: Sys, a: set<Digest>, b: set<Digest>)
    requires Cleared(s, m, a) && Cleared(m, n, b)
    ensures Cleared(s, n, a + b)
  {
    assert s.store - a - b == s.store - (a + b);
  }

  lemma SameOrphans(s: Sys, n: Sys, gone: set<Digest>, d: Digest)
    requires Cleared(s, n, gone)
    ensures Named(s, d) == Named(n, d)
  {}

  lemma DueStep(listing: seq<Object>, cutoff: Time, i: nat)
    requires i < |listing|
    ensures Due(listing[..i + 1], cutoff) ==
            if listing[i].created <= cutoff then Due(listing[..i], cutoff) + {listing[i].digest}
            else Due(listing[..i], cutoff)
  {
    var a, b := listing[..i], listing[..i + 1];
    assert forall k :: 0 <= k < i ==> a[k] == b[k];
    forall d | d in Due(a, cutoff) ensures d in Due(b, cutoff) {
      var k :| 0 <= k < |a| && a[k].created <= cutoff && a[k].digest == d;
      assert b[k].digest == d;
    }
  }

  lemma BatchBegins(s: Sys, ds: set<Digest>)
    requires Inv(s) && s.sweep.None? && s.txns == map[]
    ensures Enabled(s, SweepBegin(ds)) && Inv(Next(s, SweepBegin(ds))) && Cleared(s, Next(s, SweepBegin(ds)), {})
    ensures var n := Next(s, SweepBegin(ds));
            n.sweep.Some? && n.sweep.value.batch == ds &&
            forall d :: d in ds ==> (d in n.sweep.value.referenced <==> Named(s, d))
  {
    SweepKeeps(s, SweepBegin(ds));
    hide Inv, Named;
  }

  lemma BatchDeletes(s: Sys, n: Sys, gone: set<Digest>, d: Digest)
    requires Inv(n) && Cleared(s, n, gone) && n.sweep.Some? && d in n.sweep.value.batch
    requires d !in n.sweep.value.referenced
    ensures Enabled(n, SweepDelete(d)) && Inv(Next(n, SweepDelete(d)))
    ensures Cleared(s, Next(n, SweepDelete(d)), gone + {d}) && Next(n, SweepDelete(d)).sweep == n.sweep
  {
    SweepKeeps(n, SweepDelete(d));
    hide Inv;
    ClearedMore(s, n, Next(n, SweepDelete(d)), gone, {d});
  }

  lemma BatchEnds(s: Sys, n: Sys, gone: set<Digest>)
    requires s.sweep.None? && n.sweep.Some? && Cleared(s, n, gone) && Inv(n) && s.txns == map[]
    ensures Enabled(n, SweepEnd) && Inv(Next(n, SweepEnd)) && Cleared(s, Next(n, SweepEnd), gone)
    ensures Next(n, SweepEnd).sweep.None? && Next(n, SweepEnd).txns == map[]
  {
    SweepKeeps(n, SweepEnd);
    hide Inv;
  }

  lemma NoOrphans(s: Sys, batch: seq<Digest>, fails: set<Digest>)
    requires batch == []
    ensures Orphans(s, SetOf(batch), fails) == {} && Cleared(s, s, {})
  {
    assert s.store - {} == s.store;
  }

  lemma OrphansStep(s: Sys, batch: seq<Digest>, i: nat, fails: set<Digest>)
    requires i < |batch| && NoRepeat(batch)
    ensures var done, more := Orphans(s, SetOf(batch[..i]), fails), Orphans(s, SetOf(batch[..i + 1]), fails);
            batch[i] in SetOf(batch) && batch[i] !in done &&
            more == if Named(s, batch[i]) || batch[i] in fails then done else done + {batch[i]}
    ensures Orphans(s, SetOf(batch[..0]), fails) == {}
  {
    SetOfPrefix(batch, i);
    hide Named;
    assert batch[..0] == [];
  }

  // ---- a pass of several batches ----

  // The lock is released between two batches. `Between` says what everybody else makes of the system before batch k;
  // the batch waits until no transaction holds the lock.
  type Between = (nat, Sys) -> Sys

  datatype Flushed = Flushed(before: Sys, batch: set<Digest>, after: Sys)

  /** Nobody holds the lock. */
  ghost predicate Quiet(s: Sys) {
    Inv(s) && s.sweep.None? && s.txns == map[]
  }

  function Resumes(start: Sys, log: seq<Flushed>, k: nat): Sys
    requires k <= |log|
  {
    if k == 0 then start else log[k - 1].after
  }

  /** Batch k starts from what the others left, and takes exactly the orphans of that moment. */
  ghost predicate FlushAt(start: Sys, log: seq<Flushed>, between: Between, fails: set<Digest>, k: nat)
    requires k < |log|
  {
    && log[k].before == between(k, Resumes(start, log, k)) && Quiet(log[k].before) && Quiet(log[k].after)
    && Cleared(log[k].before, log[k].after, Orphans(log[k].before, log[k].batch, fails))
  }

  ghost predicate Chained(start: Sys, log: seq<Flushed>, between: Between, fails: set<Digest>, end: Sys) {
    (forall k :: 0 <= k < |log| ==> FlushAt(start, log, between, fails, k)) && end == Resumes(start, log, |log|)
  }

  function Batches(log: seq<Flushed>, n: nat): set<Digest>
    requires n <= |log|
  {
    if n == 0 then {} else Batches(log, n - 1) + log[n - 1].batch
  }

  /** No object is looked at twice. */
  predicate Apart(log: seq<Flushed>) {
    forall k :: 0 <= k < |log| ==> ApartAt(log, k)
  }

  predicate ApartAt(log: seq<Flushed>, k: nat)
    requires k < |log|
  {
    Batches(log, k) !! log[k].batch
  }

  ghost function Deletions(log: seq<Flushed>, fails: set<Digest>, n: nat): nat
    requires n <= |log|
  {
    if n == 0 then 0 else Deletions(log, fails, n - 1) + |Orphans(log[n - 1].before, log[n - 1].batch, fails)|
  }

  lemma {:induction false} PrefixOfLog(log: seq<Flushed>, f: Flushed, fails: set<Digest>, n: nat)
    requires n <= |log|
    ensures Batches(log + [f], n) == Batches(log, n) && Deletions(log + [f], fails, n) == Deletions(log, fails, n)
  {
    hide Orphans;
    if n > 0 { PrefixOfLog(log, f, fails, n - 1); }
  }

  lemma LogGrows(start: Sys, log: seq<Flushed>, between: Between, fails: set<Digest>, end: Sys, f: Flushed)
    requires Chained(start, log, between, fails, end) && Apart(log)
    requires f.before == between(|log|, end) && Quiet(f.before) && Quiet(f.after) && Batches(log, |log|) !! f.batch
    requires Cleared(f.before, f.after, Orphans(f.before, f.batch, fails))
    ensures Chained(start, log + [f], between, fails, f.after) && Apart(log + [f])
    ensures Batches(log + [f], |log| + 1) == Batches(log, |log|) + f.batch
    ensures Deletions(log + [f], fails, |log| + 1) == Deletions(log, fails, |log|) + |Orphans(f.before, f.batch, fails)|
  {
    hide Quiet, Cleared, Orphans;
    var more := log + [f];
    forall k | 0 <= k < |more| ensures FlushAt(start, more, between, fails, k) && ApartAt(more, k) {
      PrefixOfLog(log, f, fails, k);
      if k < |log| { assert FlushAt(start, log, between, fails, k) && ApartAt(log, k); }
    }
    PrefixOfLog(log, f, fails, |log|);
  }

  lemma PassBegins(s: Sys, listing: seq<Object>, between: Between, cutoff: Time, fails: set<Digest>)
    ensures Due(listing[..0], cutoff) == {} == SetOf<Digest>([]) && NoRepeat<Digest>([]) && 0 < SWEEP_BATCH
    ensures Chained(s, [], between, fails, s) && Apart([]) && Batches([], 0) == {} && Deletions([], fails, 0) == 0
  {}

  /** An object that a pass deleted was due, and no row named it when its own batch took the lock. */
  lemma PassTakesOnlyOrphans(start: Sys, log: seq<Flushed>, between: Between, fails: set<Digest>, end: Sys, k: nat,
                             d: Digest)
    requires Chained(start, log, between, fails, end) && k < |log| && d in log[k].before.store
    requires d !in log[k].after.store
    ensures d in log[k].batch && !Named(log[k].before, d) && d !in fails
  {
    hide Quiet;
    assert FlushAt(start, log, between, fails, k);
  }

  /** If nobody else does anything meanwhile, a pass removes exactly the orphans among its objects. */
  lemma {:induction false} UndisturbedPass(start: Sys, log: seq<Flushed>, fails: set<Digest>, end: Sys, n: nat)
    requires Chained(start, log, (_, s) => s, fails, end) && Apart(log) && n <= |log|
    ensures Cleared(start, Resumes(start, log, n).(sweep := start.sweep), Orphans(start, Batches(log, n), fails))
    ensures Deletions(log, fails, n) == |Orphans(start, Batches(log, n), fails)|
  {
    if n == 0 {
      assert start.store - {} == start.store;
      assert Orphans(start, {}, fails) == {};
    } else {
      UndisturbedPass(start, log, fails, end, n - 1);
      var f := log[n - 1];
      assert FlushAt(start, log, (_, s) => s, fails, n - 1) && ApartAt(log, n - 1);
      hide Inv;
      var mid := f.before.(sweep := start.sweep);
      assert Orphans(mid, f.batch, fails) == Orphans(f.before, f.batch, fails) by {
        OrphansOf(mid, f.before, f.batch, fails);
      }
      hide Orphans;
      OrphansJoin(start, mid, Batches(log, n - 1), f.batch, fails);
      ClearedMore(start, mid, f.after.(sweep := start.sweep),
                  Orphans(start, Batches(log, n - 1), fails), Orphans(mid, f.batch, fails));
    }
  }

  lemma OrphansOf(s: Sys, n: Sys, ds: set<Digest>, fails: set<Digest>)
    requires n == s.(sweep := n.sweep)
    ensures Orphans(s, ds, fails) == Orphans(n, ds, fails)
  {
    forall d | d in ds ensures Named(s, d) == Named(n, d) {}
  }

  class Worker {
    var sys: Sys
    var batch: seq<Digest>
    var deleted: nat
    var log: seq<Flushed>

    constructor (s: Sys)
      ensures sys == s && batch == [] && deleted == 0 && log == []
    {
      sys, batch, deleted, log := s, [], 0, [];
    }

    /** One batch: the query and the deletions it allows, all under the exclusive lock. */
    method Flush(fails: set<Digest>)
      requires Inv(sys) && sys.sweep.None? && sys.txns == map[] && NoRepeat(batch)
      modifies this`sys, this`batch, this`deleted
      ensures Inv(sys) && sys.sweep.None? && sys.txns == map[] && batch == []
      ensures Cleared(old(sys), sys, Orphans(old(sys), SetOf(old(batch)), fails))
      ensures deleted == old(deleted) + |Orphans(old(sys), SetOf(old(batch)), fails)|
    {
      hide *;
      if |batch| == 0 {
        NoOrphans(sys, batch, fails);
        return;
      }
      var before, digests, count := sys, batch, deleted;
      BatchBegins(before, SetOf(digests));
      var now := Next(before, SweepBegin(SetOf(digests)));
      ghost var gone: set<Digest>, sweep := {}, now.sweep;
      OrphansStep(before, digests, 0, fails);
      for i := 0 to |digests|
        invariant Inv(now) && now.sweep == sweep && Cleared(before, now, gone)
        invariant gone == Orphans(before, SetOf(digests[..i]), fails) && count == old(deleted) + |gone|
      {
        var d := digests[i];
        OrphansStep(before, digests, i, fails);
        if d in now.sweep.value.referenced { continue; }
        if d in fails { continue; }
        BatchDeletes(before, now, gone, d);
        now, count, gone := Next(now, SweepDelete(d)), count + 1, gone + {d};
      }
      assert digests[..|digests|] == digests;
      BatchEnds(before, now, gone);
      sys, batch, deleted := Next(now, SweepEnd), [], count;
    }

    /**
     * A whole pass over a listing, whatever happens between its batches: every object past the grace period is in
     * exactly one batch, and each batch removes exactly the orphans among its own.
     */
    method SweepBlobs(listing: seq<Object>, now: Time, grace: Time, fails: set<Digest>, between: Between)
      requires Quiet(sys) && batch == [] && deleted == 0 && log == [] && Distinct(listing)
      requires forall k: nat, s: Sys :: Quiet(s) ==> Quiet(between(k, s))
      modifies this
      ensures Chained(old(sys), log, between, fails, sys) && Apart(log)
      ensures Batches(log, |log|) == Due(listing, now - grace) && deleted == Deletions(log, fails, |log|)
    {
      hide Quiet, Inv, Next, Enabled, Orphans, SetOf, Named, Due, NoRepeat, Distinct, Cleared, Chained, Apart;
      hide Batches, Deletions;
      var cutoff := now - grace;
      ghost var start: Sys := sys;
      PassBegins(sys, listing, between, cutoff, fails);
      for i := 0 to |listing|
        invariant Passing(start, Due(listing[..i], cutoff), fails, between)
      {
        DueStep(listing, cutoff, i);
        NotYetDue(listing, cutoff, i);
        Visit(listing[i], cutoff, fails, between, start, Due(listing[..i], cutoff));
      }
      assert listing[..|listing|] == listing;
      FlushNext(start, fails, between);
    }

    /** Between two listed objects: those of `due` are dealt with or waiting in the batch. */
    ghost predicate Passing(start: Sys, due: set<Digest>, fails: set<Digest>, between: Between)
      reads this
    {
      && Underway(start, fails, between) && |batch| < SWEEP_BATCH
      && due == Batches(log, |log|) + SetOf(batch)
    }

    ghost predicate Underway(start: Sys, fails: set<Digest>, between: Between)
      reads this
    {
      && Quiet(sys) && NoRepeat(batch) && Batches(log, |log|) !! SetOf(batch)
      && Chained(start, log, between, fails, sys) && Apart(log) && deleted == Deletions(log, fails, |log|)
    }

    /** The callback per listed object: young ones are passed over, a full batch is flushed. */
    method Visit(o: Object, cutoff: Time, fails: set<Digest>, between: Between, ghost start: Sys,
                 ghost due: set<Digest>)
      requires Passing(start, due, fails, between) && o.digest !in due
      requires forall k: nat, s: Sys :: Quiet(s) ==> Quiet(between(k, s))
      modifies this
      ensures Passing(start, if o.created <= cutoff then due + {o.digest} else due, fails, between)
    {
      hide Quiet, Inv, SetOf, NoRepeat, Cleared, Orphans, Named, Chained, Apart, Batches, Deletions;
      if o.created > cutoff { return; }
      SetOfAppend(batch, o.digest);
      batch := batch + [o.digest];
      if |batch| < SWEEP_BATCH { return; }
      FlushNext(start, fails, between);
      PassBegins(start, [], between, cutoff, fails);
    }

    /** A flush during a pass: nothing for an empty batch; otherwise the others come first, then the batch. */
    method FlushNext(ghost start: Sys, fails: set<Digest>, between: Between)
      requires Underway(start, fails, between)
      requires forall k: nat, s: Sys :: Quiet(s) ==> Quiet(between(k, s))
      modifies this
      ensures Underway(start, fails, between) && batch == []
      ensures Batches(log, |log|) == Batches(old(log), |old(log)|) + SetOf(old(batch))
    {
      hide Inv, SetOf, NoRepeat, Cleared, Orphans, Named, Chained, Apart, Batches, Deletions;
      if |batch| == 0 {
        NothingWaits(batch);
        return;
      }
      var ds, was := SetOf(batch), log;
      Others(between);
      var before := sys;
      Flush(fails);
      LogGrows(start, was, between, fails, old(sys), Flushed(before, ds, sys));
      log := was + [Flushed(before, ds, sys)];
      NothingWaits(batch);
    }

    /** Whatever the others do while the lock is free. */
    method Others(between: Between)
      requires Quiet(sys)
      requires forall k: nat, s: Sys :: Quiet(s) ==> Quiet(between(k, s))
      modifies this`sys
      ensures sys == between(|log|, old(sys)) && Quiet(sys)
    {
      sys := between(|log|, sys);
    }
  }

  lemma NothingWaits(batch: seq<Digest>)
    requires batch == []
    ensures SetOf(batch) == {} && NoRepeat(batch)
  {}

  lemma NotYetDue(listing: seq<Object>, cutoff: Time, i: nat)
    requires i < |listing| && Distinct(listing)
    ensures listing[i].digest !in Due(listing[..i], cutoff)
  {}

  lemma OrphansJoin(s: Sys, n: Sys, a: set<Digest>, b: set<Digest>, fails: set<Digest>)
    requires Cleared(s, n, Orphans(s, a, fails)) && a !! b
    ensures Orphans(s, a + b, fails) == Orphans(s, a, fails) + Orphans(n, b, fails)
    ensures |Orphans(s, a + b, fails)| == |Orphans(s, a, fails)| + |Orphans(n, b, fails)|
  {
    forall d | d in b ensures Named(s, d) == Named(n, d) { SameOrphans(s, n, Orphans(s, a, fails), d); }
    assert Orphans(s, a + b, fails) == Orphans(s, a, fails) + Orphans(n, b, fails);
    assert Orphans(s, a, fails) !! Orphans(n, b, fails);
  }
}
