/** The limiter's tables as the middleware updates them. */
module RateStoreObject {
  import opened RateLimit

  lemma SweptStep(l: Limit, m: Buckets, clock: Caller -> real, done: set<Caller>, c: Caller)
    requires c in m && c !in done
    ensures PartlySwept(l, m, clock, done + {c}) ==
            if Tokens(l, m[c], clock(c)) >= l.burst as real then PartlySwept(l, m, clock, done) - {c}
            else PartlySwept(l, m, clock, done)
  {
    hide Tokens;
  }

  /** The table once the sweep has looked at the given callers. */
  function PartlySwept(l: Limit, m: Buckets, clock: Caller -> real, done: set<Caller>): Buckets {
    map c | c in m && (c in done ==> Tokens(l, m[c], clock(c)) < l.burst as real) :: m[c]
  }

  /** sweepRefilled: drops each bucket that is full when looked at. */
  method SweepRefilled(l: Limit, m: Buckets, clock: Caller -> real) returns (kept: Buckets)
    ensures kept == Swept(l, m, clock)
  {
    hide Tokens;
    kept := m;
    var rest := m.Keys;
    ghost var done: set<Caller> := {};
    while rest != {}
      invariant rest + done == m.Keys && rest !! done
      invariant kept == PartlySwept(l, m, clock, done)
      decreases rest
    {
      var c :| c in rest;
      SweptStep(l, m, clock, done, c);
      if Tokens(l, m[c], clock(c)) >= l.burst as real { kept := kept - {c}; }
      rest, done := rest - {c}, done + {c};
    }
  }

  class RateStore {
    const cfg: Config
    var readers: Buckets
    var writers: Buckets

    ghost function Value(): State
      reads this
    {
      State(readers, writers)
    }

    constructor (c: Config)
      ensures cfg == c && Value() == EMPTY
    {
      cfg, readers, writers := c, map[], map[];
    }

    /** limiterFor: finds or makes the caller's bucket; false where the class is not limited. */
    method LimiterFor(q: Request) returns (limited: bool)
      modifies this
      ensures limited == Active(LimitOf(cfg, q.write))
      ensures !limited ==> Value() == old(Value())
      ensures limited ==>
                Value() == WithBuckets(old(Value()), q.write,
                                       Ensured(LimitOf(cfg, q.write), BucketsOf(old(Value()), q.write), q, true))
    {
      var l := LimitOf(cfg, q.write);
      if l.rps <= 0.0 || l.burst <= 0 { return false; }
      var bucket := if q.write then writers else readers;
      if q.caller in bucket { return true; }
      if |bucket| >= SWEEP_THRESHOLD {
        bucket := SweepRefilled(l, bucket, q.clock);
      }
      bucket := bucket[q.caller := FullBucket(l, q.at)];
      if q.write { writers := bucket; } else { readers := bucket; }
      return true;
    }

    /** The middleware: unlimited classes pass; otherwise a token is taken, or the request refused. */
    method Middleware(q: Request) returns (admitted: bool)
      modifies this
      ensures (Value(), admitted) == Handle(cfg, old(Value()), q, true)
    {
      hide Tokens, Swept;
      var limited := LimiterFor(q);
      if !limited { return true; }
      var l := LimitOf(cfg, q.write);
      var bucket := if q.write then writers else readers;
      var r := Take(l, bucket[q.caller], q.at);
      bucket := bucket[q.caller := r.0];
      if q.write { writers := bucket; } else { readers := bucket; }
      return r.1;
    }
  }
}
