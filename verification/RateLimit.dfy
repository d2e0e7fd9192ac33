/** The per-caller limiter of internal/ratelimit/ratelimit.go over exact reals, with and without eviction. */
module RateLimit {

  const SWEEP_THRESHOLD: nat := 1024

  // A caller's digest.
  type Caller = nat

  datatype Limit = Limit(rps: real, burst: int)
  datatype Config = Config(read: Limit, write: Limit)

  // A token bucket: what it held when it was last brought up to date.
  datatype Bucket = Bucket(tokens: real, last: real)
  type Buckets = map<Caller, Bucket>

  datatype State = State(readers: Buckets, writers: Buckets)

  // `clock` gives the moment at which a sweep, if one happens, looks at each bucket.
  datatype Request = Request(caller: Caller, write: bool, clock: Caller -> real, at: real)

  predicate Active(l: Limit) { l.rps > 0.0 && l.burst > 0 }

  function LimitOf(cfg: Config, write: bool): Limit { if write then cfg.write else cfg.read }

  function BucketsOf(s: State, write: bool): Buckets { if write then s.writers else s.readers }

  function WithBuckets(s: State, write: bool, m: Buckets): State {
    if write then s.(writers := m) else s.(readers := m)
  }

  // ---- one bucket ----

  /** Tokens gained in a stretch of time. */
  function Refill(l: Limit, elapsed: real): real { elapsed * l.rps }

  lemma RefillAdds(l: Limit, x: real, y: real)
    requires l.rps > 0.0 && x >= 0.0 && y >= 0.0
    ensures Refill(l, x + y) == Refill(l, x) + Refill(l, y) && Refill(l, x) >= 0.0 && Refill(l, y) >= 0.0
    ensures Refill(l, 0.0) == 0.0
  {}

  /** What the bucket holds at time t; a clock that stepped back refills nothing. */
  function Tokens(l: Limit, b: Bucket, t: real): real {
    var elapsed := if t < b.last then 0.0 else t - b.last;
    var sum := b.tokens + Refill(l, elapsed);
    if sum > l.burst as real then l.burst as real else sum
  }

  /** Reserve, and cancel at once if the reservation would have to wait. */
  function Take(l: Limit, b: Bucket, t: real): (Bucket, bool) {
    var held := Tokens(l, b, t);
    if held >= 1.0 then (Bucket(held - 1.0, t), true) else (Bucket(held, t), false)
  }

  function FullBucket(l: Limit, t: real): Bucket { Bucket(l.burst as real, t) }

  // ---- one class of callers ----

  /** The buckets that have not refilled by the time the sweep looks at them. */
  function Swept(l: Limit, m: Buckets, clock: Caller -> real): Buckets {
    map c | c in m && Tokens(l, m[c], clock(c)) < l.burst as real :: m[c]
  }

  /** The buckets with one for the caller; room is made first only if asked for. */
  function Ensured(l: Limit, m: Buckets, q: Request, evict: bool): (r: Buckets)
    ensures q.caller in r
  {
    if q.caller in m then m
    else (if evict && |m| >= SWEEP_THRESHOLD then Swept(l, m, q.clock) else m)[q.caller := FullBucket(l, q.at)]
  }

  function Served(l: Limit, m: Buckets, q: Request, evict: bool): (Buckets, bool) {
    var e := Ensured(l, m, q, evict);
    var r := Take(l, e[q.caller], q.at);
    (e[q.caller := r.0], r.1)
  }

  function Handle(cfg: Config, s: State, q: Request, evict: bool): (State, bool) {
    var l := LimitOf(cfg, q.write);
    if !Active(l) then (s, true)
    else
      var r := Served(l, BucketsOf(s, q.write), q, evict);
      (WithBuckets(s, q.write, r.0), r.1)
  }

  // ---- runs ----

  const EMPTY: State := State(map[], map[])

  function After(cfg: Config, qs: seq<Request>, k: nat, evict: bool): State
    requires k <= |qs|
  {
    if k == 0 then EMPTY else Handle(cfg, After(cfg, qs, k - 1, evict), qs[k - 1], evict).0
  }

  /** Whether request k is let through. */
  predicate Admitted(cfg: Config, qs: seq<Request>, k: nat, evict: bool)
    requires k < |qs|
  {
    Handle(cfg, After(cfg, qs, k, evict), qs[k], evict).1
  }

  predicate InTime(q: Request, t: real, c: Caller) { t <= q.clock(c) <= q.at }

  ghost predicate Later(q: Request, t: real) {
    t <= q.at && forall c: Caller :: InTime(q, t, c)
  }

  /** Requests happen one after the other: each clock reading lies between the request before and this one. */
  ghost predicate Timed(qs: seq<Request>) {
    forall k :: 0 < k < |qs| ==> Later(qs[k], qs[k - 1].at)
  }

  // ---- eviction is invisible ----

  predicate Within(l: Limit, b: Bucket, t: real) {
    b.last <= t && 0.0 <= b.tokens <= l.burst as real
  }

  /** The evicting table against the one that keeps all: same buckets, and what is missing is full. */
  predicate Alike(l: Limit, e: Buckets, n: Buckets, t: real) {
    && (forall c :: c in e ==> c in n && e[c] == n[c])
    && (forall c :: c in n ==> Within(l, n[c], t))
    && (forall c :: c in n && c !in e ==> Tokens(l, n[c], t) >= l.burst as real)
  }

  lemma Grows(l: Limit, b: Bucket, t: real, u: real)
    requires Active(l) && Within(l, b, t) && t <= u
    ensures 0.0 <= Tokens(l, b, t) <= Tokens(l, b, u) <= Tokens(l, b, t) + Refill(l, u - t)
    ensures Tokens(l, b, u) <= l.burst as real
  {
    RefillAdds(l, t - b.last, u - t);
    assert (t - b.last) + (u - t) == u - b.last;
    hide Refill;
  }

  lemma TakeWithin(l: Limit, b: Bucket, t: real)
    requires Active(l) && Within(l, b, t)
    ensures Within(l, Take(l, b, t).0, t) && Tokens(l, Take(l, b, t).0, t) == Take(l, b, t).0.tokens
    ensures Take(l, b, t).0.tokens + (if Take(l, b, t).1 then 1.0 else 0.0) == Tokens(l, b, t)
  {
    Grows(l, b, t, t);
    RefillAdds(l, 0.0, 0.0);
    hide Refill;
  }

  lemma AlikeLater(l: Limit, e: Buckets, n: Buckets, t: real, u: real)
    requires Active(l) && Alike(l, e, n, t) && t <= u
    ensures Alike(l, e, n, u)
  {
    forall c | c in n && c !in e ensures Tokens(l, n[c], u) >= l.burst as real {
      Grows(l, n[c], t, u);
    }
  }

  lemma AlikeSwept(l: Limit, e: Buckets, n: Buckets, t: real, q: Request)
    requires Active(l) && Alike(l, e, n, t) && Later(q, t)
    ensures Alike(l, Swept(l, e, q.clock), n, q.at)
  {
    AlikeLater(l, e, n, t, q.at);
    forall c | c in n && c !in Swept(l, e, q.clock) ensures Tokens(l, n[c], q.at) >= l.burst as real {
      if c in e {
        assert InTime(q, t, c);
        Grows(l, n[c], q.clock(c), q.at);
      }
    }
  }

  lemma FullTokens(l: Limit, t: real)
    requires Active(l)
    ensures Tokens(l, FullBucket(l, t), t) == l.burst as real && Within(l, FullBucket(l, t), t)
  {
    RefillAdds(l, 0.0, 0.0);
    hide Refill;
  }

  /** Taking from the caller's bucket gives the same result in both tables. */
  lemma SameTake(l: Limit, e: Buckets, n: Buckets, q: Request)
    requires Active(l) && Alike(l, e, n, q.at)
    ensures Take(l, Ensured(l, e, q, true)[q.caller], q.at) == Take(l, Ensured(l, n, q, false)[q.caller], q.at)
    ensures Within(l, Ensured(l, n, q, false)[q.caller], q.at)
  {
    var c := q.caller;
    FullTokens(l, q.at);
    if c in e {
      AlikeSame(l, e, n, q.at, c);
    } else if c in n {
      AlikeFull(l, e, n, q.at, c);
      Grows(l, n[c], q.at, q.at);
    }
    hide Tokens, Swept;
  }

  /** One request: same decision, and the tables stay alike. */
  lemma ServeAlike(l: Limit, e: Buckets, n: Buckets, t: real, q: Request)
    requires Active(l) && Alike(l, e, n, t) && Later(q, t)
    ensures Served(l, e, q, true).1 == Served(l, n, q, false).1
    ensures Alike(l, Served(l, e, q, true).0, Served(l, n, q, false).0, q.at)
  {
    AlikeLater(l, e, n, t, q.at);
    AlikeSwept(l, e, n, t, q);
    SameTake(l, e, n, q);
    TakeWithin(l, Ensured(l, n, q, false)[q.caller], q.at);
    hide Tokens, Take, Swept, Within, Later;
  }

  lemma AlikeSame(l: Limit, e: Buckets, n: Buckets, t: real, c: Caller)
    requires Alike(l, e, n, t) && c in e
    ensures c in n && e[c] == n[c] && Within(l, n[c], t)
  {}

  lemma AlikeFull(l: Limit, e: Buckets, n: Buckets, t: real, c: Caller)
    requires Alike(l, e, n, t) && c in n && c !in e
    ensures Tokens(l, n[c], t) >= l.burst as real && Within(l, n[c], t)
  {}

  /** Both classes of a state, for the limits that are switched on. */
  predicate AlikeStates(cfg: Config, s: State, n: State, t: real) {
    forall write :: Active(LimitOf(cfg, write)) ==>
      Alike(LimitOf(cfg, write), BucketsOf(s, write), BucketsOf(n, write), t)
  }

  lemma {:induction false} RunsAlike(cfg: Config, qs: seq<Request>, k: nat)
    requires Timed(qs) && 0 < k <= |qs|
    ensures AlikeStates(cfg, After(cfg, qs, k, true), After(cfg, qs, k, false), qs[k - 1].at)
  {
    if k > 1 {
      RunsAlike(cfg, qs, k - 1);
      HandleAlike(cfg, After(cfg, qs, k - 1, true), After(cfg, qs, k - 1, false), qs[k - 2].at, qs[k - 1]);
    } else {
      FirstAlike(cfg, qs[0]);
    }
  }

  lemma FirstAlike(cfg: Config, q: Request)
    ensures AlikeStates(cfg, Handle(cfg, EMPTY, q, true).0, Handle(cfg, EMPTY, q, false).0, q.at)
    ensures Handle(cfg, EMPTY, q, true).1 == Handle(cfg, EMPTY, q, false).1
  {
    var l := LimitOf(cfg, q.write);
    if Active(l) {
      FullTokens(l, q.at);
      TakeWithin(l, FullBucket(l, q.at), q.at);
      hide Take, Tokens;
    }
  }

  lemma HandleAlike(cfg: Config, s: State, n: State, t: real, q: Request)
    requires AlikeStates(cfg, s, n, t) && Later(q, t)
    ensures Handle(cfg, s, q, true).1 == Handle(cfg, n, q, false).1
    ensures AlikeStates(cfg, Handle(cfg, s, q, true).0, Handle(cfg, n, q, false).0, q.at)
  {
    hide Served, Alike, Later;
    var l, other := LimitOf(cfg, q.write), LimitOf(cfg, !q.write);
    assert t <= q.at by { LaterIsLater(q, t); }
    if Active(l) { ServeAlike(l, BucketsOf(s, q.write), BucketsOf(n, q.write), t, q); }
    if Active(other) { AlikeLater(other, BucketsOf(s, !q.write), BucketsOf(n, !q.write), t, q.at); }
  }

  lemma LaterIsLater(q: Request, t: real)
    requires Later(q, t)
    ensures t <= q.at
  {}

  /** For every timed sequence of requests, dropping refilled buckets changes no decision. */
  lemma EvictionInvisible(cfg: Config, qs: seq<Request>, k: nat)
    requires Timed(qs) && k < |qs|
    ensures Admitted(cfg, qs, k, true) == Admitted(cfg, qs, k, false)
  {
    if k == 0 {
      FirstAlike(cfg, qs[0]);
    } else {
      RunsAlike(cfg, qs, k);
      HandleAlike(cfg, After(cfg, qs, k, true), After(cfg, qs, k, false), qs[k - 1].at, qs[k]);
    }
  }

  // ---- what the limiter promises ----

  /** How many of requests i to j - 1 the caller got through in one class. */
  function Count(cfg: Config, qs: seq<Request>, caller: Caller, write: bool, evict: bool, i: nat, j: nat): nat
    requires i <= j <= |qs|
  {
    if i == j then 0
    else Count(cfg, qs, caller, write, evict, i, j - 1) +
         if qs[j - 1].caller == caller && qs[j - 1].write == write && Admitted(cfg, qs, j - 1, evict) then 1 else 0
  }

  /** What the caller may still spend at time t. */
  function Credit(l: Limit, m: Buckets, c: Caller, t: real): real {
    if c in m then Tokens(l, m[c], t) else l.burst as real
  }

  predicate AllWithin(l: Limit, m: Buckets, t: real) {
    forall c :: c in m ==> Within(l, m[c], t)
  }

  lemma CreditBounds(l: Limit, m: Buckets, c: Caller, t: real, u: real)
    requires Active(l) && AllWithin(l, m, t) && t <= u
    ensures 0.0 <= Credit(l, m, c, u) <= l.burst as real
    ensures Credit(l, m, c, u) <= Credit(l, m, c, t) + Refill(l, u - t)
    ensures AllWithin(l, m, u)
  {
    RefillAdds(l, u - t, 0.0);
    if c in m { Grows(l, m[c], t, u); }
    hide Refill, Tokens;
  }

  /** A request costs its caller one token if it gets through, and nobody else anything. */
  lemma ServeSpends(l: Limit, m: Buckets, q: Request, c: Caller)
    requires Active(l) && AllWithin(l, m, q.at)
    ensures var r := Served(l, m, q, false);
            AllWithin(l, r.0, q.at) &&
            Credit(l, r.0, c, q.at) == Credit(l, m, c, q.at) - (if c == q.caller && r.1 then 1.0 else 0.0)
  {
    FullTokens(l, q.at);
    TakeWithin(l, Ensured(l, m, q, false)[q.caller], q.at);
    hide Tokens, Take;
  }

  predicate GoodStates(cfg: Config, s: State, t: real) {
    forall write :: Active(LimitOf(cfg, write)) ==> AllWithin(LimitOf(cfg, write), BucketsOf(s, write), t)
  }

  lemma HandleSpends(cfg: Config, s: State, t: real, q: Request, write: bool, c: Caller)
    requires GoodStates(cfg, s, t) && t <= q.at && Active(LimitOf(cfg, write))
    ensures var l, r := LimitOf(cfg, write), Handle(cfg, s, q, false);
            AllWithin(l, BucketsOf(r.0, write), q.at) &&
            Credit(l, BucketsOf(r.0, write), c, q.at) + (if q.caller == c && q.write == write && r.1 then 1.0 else 0.0)
              <= Credit(l, BucketsOf(s, write), c, t) + Refill(l, q.at - t)
  {
    var l := LimitOf(cfg, write);
    CreditBounds(l, BucketsOf(s, write), c, t, q.at);
    if q.write == write { ServeSpends(l, BucketsOf(s, write), q, c); }
    hide Credit, Served, AllWithin, Refill;
  }

  lemma HandleGood(cfg: Config, s: State, t: real, q: Request)
    requires GoodStates(cfg, s, t) && t <= q.at
    ensures GoodStates(cfg, Handle(cfg, s, q, false).0, q.at)
  {
    hide Handle;
    forall write | Active(LimitOf(cfg, write))
      ensures AllWithin(LimitOf(cfg, write), BucketsOf(Handle(cfg, s, q, false).0, write), q.at)
    {
      HandleSpends(cfg, s, t, q, write, 0);
    }
  }

  lemma {:induction false} RunGood(cfg: Config, qs: seq<Request>, k: nat)
    requires Timed(qs) && k < |qs|
    ensures GoodStates(cfg, After(cfg, qs, k, false), if k == 0 then qs[0].at else qs[k - 1].at)
  {
    hide Handle;
    if k > 0 {
      RunGood(cfg, qs, k - 1);
      var t := if k == 1 then qs[0].at else qs[k - 2].at;
      HandleGood(cfg, After(cfg, qs, k - 1, false), t, qs[k - 1]);
    }
  }

  /** Over requests i to j - 1: what got through plus the credit left is at most the credit and refill there was. */
  lemma {:induction false} WindowBudget(cfg: Config, qs: seq<Request>, caller: Caller, write: bool, i: nat, j: nat)
    requires Timed(qs) && i < j <= |qs| && Active(LimitOf(cfg, write))
    ensures var l := LimitOf(cfg, write);
            Count(cfg, qs, caller, write, false, i, j) as real +
            Credit(l, BucketsOf(After(cfg, qs, j, false), write), caller, qs[j - 1].at)
              <= l.burst as real + Refill(l, qs[j - 1].at - qs[i].at)
  {
    hide Handle, Credit, Refill, Active;
    var l, k := LimitOf(cfg, write), j - 1;
    RunGood(cfg, qs, k);
    var s := After(cfg, qs, k, false);
    if k == i {
      var t := if k == 0 then qs[0].at else qs[k - 1].at;
      CreditBounds(l, BucketsOf(s, write), caller, t, qs[k].at);
      GoodLater(cfg, s, t, qs[k].at);
      HandleSpends(cfg, s, qs[k].at, qs[k], write, caller);
      CountOne(cfg, qs, caller, write, false, i);
    } else {
      WindowBudget(cfg, qs, caller, write, i, k);
      HandleSpends(cfg, s, qs[k - 1].at, qs[k], write, caller);
      Ascending(qs, i, k - 1);
      WindowRefill(l, qs[i].at, qs[k - 1].at, qs[k].at);
    }
  }

  lemma WindowRefill(l: Limit, a: real, b: real, c: real)
    requires Active(l) && a <= b <= c
    ensures Refill(l, c - a) == Refill(l, b - a) + Refill(l, c - b)
  {
    RefillAdds(l, b - a, c - b);
    assert (b - a) + (c - b) == c - a;
  }

  lemma Ascending(qs: seq<Request>, i: nat, j: nat)
    requires Timed(qs) && i <= j < |qs|
    ensures qs[i].at <= qs[j].at
    decreases j
  {
    if i < j {
      Ascending(qs, i, j - 1);
      assert Later(qs[j], qs[j - 1].at);
    }
  }

  lemma CountOne(cfg: Config, qs: seq<Request>, caller: Caller, write: bool, evict: bool, i: nat)
    requires i < |qs|
    ensures Count(cfg, qs, caller, write, evict, i, i + 1) ==
            if qs[i].caller == caller && qs[i].write == write && Admitted(cfg, qs, i, evict) then 1 else 0
  {
    assert Count(cfg, qs, caller, write, evict, i, i) == 0;
  }

  lemma GoodLater(cfg: Config, s: State, t: real, u: real)
    requires GoodStates(cfg, s, t) && t <= u
    ensures GoodStates(cfg, s, u)
  {}

  lemma {:induction false} SameCount(cfg: Config, qs: seq<Request>, caller: Caller, write: bool, i: nat, j: nat)
    requires Timed(qs) && i <= j <= |qs|
    ensures Count(cfg, qs, caller, write, true, i, j) == Count(cfg, qs, caller, write, false, i, j)
    decreases j
  {
    hide Admitted;
    if i < j {
      SameCount(cfg, qs, caller, write, i, j - 1);
      EvictionInvisible(cfg, qs, j - 1);
    }
  }

  /** In every window a caller gets at most the burst plus the refill through, evictions or not. */
  lemma RateBound(cfg: Config, qs: seq<Request>, caller: Caller, write: bool, i: nat, j: nat)
    requires Timed(qs) && i < j <= |qs| && Active(LimitOf(cfg, write))
    ensures var l := LimitOf(cfg, write);
            Count(cfg, qs, caller, write, true, i, j) as real <= l.burst as real + Refill(l, qs[j - 1].at - qs[i].at)
  {
    var l := LimitOf(cfg, write);
    SameCount(cfg, qs, caller, write, i, j);
    WindowBudget(cfg, qs, caller, write, i, j);
    RunGood(cfg, qs, j - 1);
    var t := if j == 1 then qs[0].at else qs[j - 2].at;
    HandleSpends(cfg, After(cfg, qs, j - 1, false), t, qs[j - 1], write, caller);
    CreditBounds(l, BucketsOf(After(cfg, qs, j, false), write), caller, qs[j - 1].at, qs[j - 1].at);
  }

  // ---- nobody is refused without need ----

  function Capped(l: Limit, x: real): real { if x > l.burst as real then l.burst as real else x }

  /** Credit grows with time up to the burst, in one stretch or in several. */
  lemma CreditGrows(l: Limit, m: Buckets, c: Caller, t: real, u: real)
    requires Active(l) && AllWithin(l, m, t) && t <= u
    ensures Credit(l, m, c, u) == Capped(l, Credit(l, m, c, t) + Refill(l, u - t))
  {
    RefillAdds(l, u - t, 0.0);
    if c in m {
      assert Within(l, m[c], t);
      RefillAdds(l, t - m[c].last, u - t);
      assert (t - m[c].last) + (u - t) == u - m[c].last;
    }
    hide Refill;
  }

  /** What is left, by the history alone, of the burst and of the refill since request i. */
  function Slack(cfg: Config, qs: seq<Request>, c: Caller, write: bool, i: nat, k: nat): real
    requires i <= k < |qs|
  {
    var l := LimitOf(cfg, write);
    l.burst as real + Refill(l, qs[k].at - qs[i].at) - Count(cfg, qs, c, write, false, i, k) as real
  }

  ghost predicate LeastSlack(cfg: Config, qs: seq<Request>, c: Caller, write: bool, k: nat, x: real)
    requires k < |qs|
  {
    && (forall i :: 0 <= i <= k ==> x <= Slack(cfg, qs, c, write, i, k))
    && (exists i :: 0 <= i <= k && x == Slack(cfg, qs, c, write, i, k))
  }

  function CreditBefore(cfg: Config, qs: seq<Request>, c: Caller, write: bool, k: nat): real
    requires k < |qs|
  {
    Credit(LimitOf(cfg, write), BucketsOf(After(cfg, qs, k, false), write), c, qs[k].at)
  }

  /** From one request to the next: the credit pays for what got through, then refills up to the burst. */
  lemma CreditStep(cfg: Config, qs: seq<Request>, c: Caller, write: bool, k: nat)
    requires Timed(qs) && k + 1 < |qs| && Active(LimitOf(cfg, write))
    ensures var l, q := LimitOf(cfg, write), qs[k];
            CreditBefore(cfg, qs, c, write, k + 1) ==
            Capped(l, CreditBefore(cfg, qs, c, write, k)
                      - (if q.caller == c && q.write == write && Admitted(cfg, qs, k, false) then 1.0 else 0.0)
                      + Refill(l, qs[k + 1].at - q.at))
  {
    hide Credit, Refill, Active, Served, Capped;
    var l, s := LimitOf(cfg, write), After(cfg, qs, k, false);
    RunGood(cfg, qs, k);
    GoodLater(cfg, s, if k == 0 then qs[0].at else qs[k - 1].at, qs[k].at) by { if k > 0 { Ascending(qs, k - 1, k); } }
    RunGood(cfg, qs, k + 1);
    Ascending(qs, k, k + 1);
    if qs[k].write == write { ServeSpends(l, BucketsOf(s, write), qs[k], c); }
    CreditGrows(l, BucketsOf(After(cfg, qs, k + 1, false), write), c, qs[k].at, qs[k + 1].at);
  }

  lemma SlackStep(cfg: Config, qs: seq<Request>, c: Caller, write: bool, i: nat, k: nat)
    requires Timed(qs) && i <= k && k + 1 < |qs| && Active(LimitOf(cfg, write))
    ensures var l, q := LimitOf(cfg, write), qs[k];
            Slack(cfg, qs, c, write, i, k + 1) ==
            Slack(cfg, qs, c, write, i, k)
            - (if q.caller == c && q.write == write && Admitted(cfg, qs, k, false) then 1.0 else 0.0)
            + Refill(l, qs[k + 1].at - q.at)
  {
    hide Admitted, Refill;
    Ascending(qs, i, k);
    Ascending(qs, k, k + 1);
    WindowRefill(LimitOf(cfg, write), qs[i].at, qs[k].at, qs[k + 1].at);
  }

  lemma SlackNow(cfg: Config, qs: seq<Request>, c: Caller, write: bool, k: nat)
    requires k < |qs| && Active(LimitOf(cfg, write))
    ensures Slack(cfg, qs, c, write, k, k) == LimitOf(cfg, write).burst as real
  {
    RefillAdds(LimitOf(cfg, write), 0.0, 0.0);
  }

  /** A caller's credit is the least slack of any window that ends now. */
  lemma {:induction false} CreditIsLeastSlack(cfg: Config, qs: seq<Request>, c: Caller, write: bool, k: nat)
    requires Timed(qs) && k < |qs| && Active(LimitOf(cfg, write))
    ensures LeastSlack(cfg, qs, c, write, k, CreditBefore(cfg, qs, c, write, k))
  {
    hide CreditBefore, Slack, Active, Refill, Admitted;
    SlackNow(cfg, qs, c, write, k);
    if k == 0 {
      FreshCredit(cfg, qs, c, write);
    } else {
      CreditIsLeastSlack(cfg, qs, c, write, k - 1);
      CreditStep(cfg, qs, c, write, k - 1);
      forall i | 0 <= i < k
        ensures CreditBefore(cfg, qs, c, write, k) <= Slack(cfg, qs, c, write, i, k)
      {
        SlackStep(cfg, qs, c, write, i, k - 1);
      }
      var i :| 0 <= i <= k - 1 && CreditBefore(cfg, qs, c, write, k - 1) == Slack(cfg, qs, c, write, i, k - 1);
      SlackStep(cfg, qs, c, write, i, k - 1);
    }
  }

  lemma FreshCredit(cfg: Config, qs: seq<Request>, c: Caller, write: bool)
    requires |qs| > 0
    ensures CreditBefore(cfg, qs, c, write, 0) == LimitOf(cfg, write).burst as real
  {}

  /** A request is let through exactly if its caller's credit is at least one. */
  lemma AdmittedByCredit(cfg: Config, qs: seq<Request>, k: nat)
    requires Timed(qs) && k < |qs| && Active(LimitOf(cfg, qs[k].write))
    ensures Admitted(cfg, qs, k, true) <==> CreditBefore(cfg, qs, qs[k].caller, qs[k].write, k) >= 1.0
  {
    EvictionInvisible(cfg, qs, k);
    FullTokens(LimitOf(cfg, qs[k].write), qs[k].at);
    hide Tokens;
  }

  /** For every timed sequence of requests, evictions included: a request is let through if and only if its class is
      not limited, or no window that ends with it would see more of its caller's requests than the burst and the refill
      of the window allow. */
  lemma AdmittedIff(cfg: Config, qs: seq<Request>, k: nat)
    requires Timed(qs) && k < |qs|
    ensures var c, write, l := qs[k].caller, qs[k].write, LimitOf(cfg, qs[k].write);
            Admitted(cfg, qs, k, true) <==>
            !Active(l) || forall i :: 0 <= i <= k ==>
                            (Count(cfg, qs, c, write, true, i, k) + 1) as real
                              <= l.burst as real + Refill(l, qs[k].at - qs[i].at)
  {
    var c, write, l := qs[k].caller, qs[k].write, LimitOf(cfg, qs[k].write);
    if Active(l) {
      AdmittedByCredit(cfg, qs, k);
      CreditIsLeastSlack(cfg, qs, c, write, k);
      hide CreditBefore, Refill, Admitted, Active;
      forall i | 0 <= i <= k
        ensures Count(cfg, qs, c, write, true, i, k) == Count(cfg, qs, c, write, false, i, k)
      {
        SameCount(cfg, qs, c, write, i, k);
      }
      forall i | 0 <= i <= k
        ensures Slack(cfg, qs, c, write, i, k) >= 1.0 <==>
                (Count(cfg, qs, c, write, true, i, k) + 1) as real
                  <= l.burst as real + Refill(l, qs[k].at - qs[i].at)
      {}
    }
  }

  lemma {:induction false} CountFromStart(cfg: Config, qs: seq<Request>, c: Caller, write: bool, i: nat, k: nat)
    requires i <= k <= |qs|
    ensures Count(cfg, qs, c, write, true, i, k) <= Count(cfg, qs, c, write, true, 0, k)
    decreases k
  {
    hide Admitted;
    if i < k { CountFromStart(cfg, qs, c, write, i, k - 1); }
  }

  /** A caller's first requests, as many as the burst, all get through. */
  lemma BurstPasses(cfg: Config, qs: seq<Request>, k: nat)
    requires Timed(qs) && k < |qs|
    requires Count(cfg, qs, qs[k].caller, qs[k].write, true, 0, k) < LimitOf(cfg, qs[k].write).burst
    ensures Admitted(cfg, qs, k, true)
  {
    var c, write, l := qs[k].caller, qs[k].write, LimitOf(cfg, qs[k].write);
    AdmittedIff(cfg, qs, k);
    if Active(l) {
      hide Admitted;
      forall i | 0 <= i <= k
        ensures (Count(cfg, qs, c, write, true, i, k) + 1) as real
                <= l.burst as real + Refill(l, qs[k].at - qs[i].at)
      {
        CountFromStart(cfg, qs, c, write, i, k);
        Ascending(qs, i, k);
        RefillAdds(l, qs[k].at - qs[i].at, 0.0);
        hide Refill, Count;
      }
    }
  }
}
