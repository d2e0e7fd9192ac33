/** Greedy set cover over the co-failure matrix: Matrix.GreedyCover in internal/analytics/cluster.go. */
module GreedyCover {
  import opened Bitsets
  import opened CoFailure

  datatype CoverStep = CoverStep(test: nat, newRuns: nat, cumulative: nat)

  ghost predicate InRange(m: Matrix, steps: seq<CoverStep>) {
    forall k :: 0 <= k < |steps| ==> steps[k].test < |m.bits|
  }

  /** The runs the first k chosen tests catch between them. */
  ghost function Covered(m: Matrix, steps: seq<CoverStep>, k: nat): set<nat>
    requires InRange(m, steps) && k <= |steps|
  {
    if k == 0 then {} else Covered(m, steps, k - 1) + RunsOf(m, steps[k - 1].test)
  }

  ghost function Gain(m: Matrix, covered: set<nat>, t: nat): nat
    requires t < |m.bits|
  {
    |RunsOf(m, t) - covered|
  }

  /** One greedy choice: no test gains more, an earlier one gains less, and the sums are right. */
  ghost predicate Chosen(m: Matrix, covered: set<nat>, s: CoverStep) {
    && s.test < |m.bits|
    && s.newRuns == Gain(m, covered, s.test) > 0
    && (forall t: nat :: t < |m.bits| ==> Gain(m, covered, t) <= s.newRuns)
    && (forall t: nat :: t < s.test ==> Gain(m, covered, t) < s.newRuns)
    && s.cumulative == |covered + RunsOf(m, s.test)|
  }

  ghost predicate ChosenAt(m: Matrix, steps: seq<CoverStep>, k: nat)
    requires InRange(m, steps) && k < |steps|
  {
    Chosen(m, Covered(m, steps, k), steps[k])
  }

  ghost predicate Greedy(m: Matrix, steps: seq<CoverStep>) {
    InRange(m, steps) && forall k: nat {:trigger ChosenAt(m, steps, k)} :: k < |steps| ==> ChosenAt(m, steps, k)
  }

  /** The numbers below n. */
  function UpTo(n: nat): (s: set<nat>)
    ensures |s| == n && forall r: nat :: r in s <==> r < n
  {
    if n == 0 then {} else UpTo(n - 1) + {n - 1}
  }

  function AllRuns(m: Matrix): set<nat> {
    UpTo(m.runs)
  }

  // ---- the algorithm ----

  method GainOf(m: Matrix, i: nat, covered: seq<Word>) returns (gain: nat)
    requires Shaped(m) && i < |m.bits| && |covered| == m.words
    ensures gain == Gain(m, Members(covered), i)
  {
    hide Members;
    gain := 0;
    ghost var left: seq<Word> := [];
    for w := 0 to m.words
      invariant |left| == w && forall k :: 0 <= k < w ==> left[k] == AndNot(m.bits[i][k], covered[k])
      invariant gain == Total(left)
    {
      var more := AndNot(m.bits[i][w], covered[w]);
      gain := gain + OnesCount(more);
      left := left + [more];
      assert left[..w] + [more] == left;
    }
    AndNotMembers(m.bits[i], covered, left);
    CountMembers(left);
  }

  lemma AndNotMembers(a: seq<Word>, b: seq<Word>, left: seq<Word>)
    requires |a| == |b| == |left| && forall w :: 0 <= w < |a| ==> left[w] == AndNot(a[w], b[w])
    ensures Members(left) == Members(a) - Members(b)
  {
    hide Members;
    forall r: nat ensures Bit(left, r) == (Bit(a, r) && !Bit(b, r)) {
      if r < 64 * |a| {
        var w := r / 64;
        assert left[w] == AndNot(a[w], b[w]);
      }
    }
  }

  /** One pass over the active tests: the first test of greatest gain, and the tests that still gain. */
  method BestOf(m: Matrix, active: seq<nat>, covered: seq<Word>) returns (best: int, bestGain: nat, remaining: seq<nat>)
    requires Shaped(m) && |covered| == m.words && Ascending(active)
    requires forall k :: 0 <= k < |active| ==> active[k] < |m.bits|
    ensures Ascending(remaining) && forall k :: 0 <= k < |remaining| ==> remaining[k] < |m.bits|
    ensures forall t :: t in active && t !in remaining ==> t < |m.bits| && Gain(m, Members(covered), t) == 0
    ensures best < 0 ==> remaining == []
    ensures best >= 0 ==>
              && best < |m.bits| && bestGain == Gain(m, Members(covered), best) > 0
              && (forall t :: t in active ==> t < |m.bits| && Gain(m, Members(covered), t) <= bestGain)
              && forall t :: t in active && t < best ==> Gain(m, Members(covered), t) < bestGain
  {
    ghost var done := Members(covered);
    hide Members, Gain, Shaped;
    best, bestGain, remaining := -1, 0, [];
    for k := 0 to |active|
      invariant Ascending(remaining)
      invariant forall q :: 0 <= q < |remaining| ==>
                  remaining[q] < |m.bits| && (k < |active| ==> remaining[q] < active[k])
      invariant forall q :: 0 <= q < k && active[q] !in remaining ==> Gain(m, done, active[q]) == 0
      invariant best < 0 ==> remaining == [] && bestGain == 0
      invariant best >= 0 ==> best < |m.bits| && bestGain == Gain(m, done, best) > 0
      invariant forall q :: 0 <= q < k ==> Gain(m, done, active[q]) <= bestGain
      invariant forall q :: 0 <= q < k && active[q] < best ==> Gain(m, done, active[q]) < bestGain
      invariant k < |active| ==> best < active[k]
    {
      var i := active[k];
      var gain := GainOf(m, i, covered);
      if gain > 0 {
        remaining := remaining + [i];
        if gain > bestGain { best, bestGain := i, gain; }
      }
    }
  }

  /** Tests that were dropped gain nothing, and never will. */
  ghost predicate Exhausted(m: Matrix, covered: set<nat>, active: seq<nat>) {
    forall t: nat :: t < |m.bits| && t !in active ==> RunsOf(m, t) <= covered
  }

  method Cover(m: Matrix) returns (steps: seq<CoverStep>)
    requires WellFormed(m)
    ensures Greedy(m, steps) && Covered(m, steps, |steps|) == AllRuns(m)
  {
    assert Shaped(m) && |m.bits| == |m.tests|;
    hide Members, Chosen, AllRuns, Gain, Exhausted, Greedy, Covered, InRange, RunsOf, WellFormed, Shaped, Underway;
    steps := [];
    var covered: seq<Word> := seq(m.words, _ => ZERO);
    ZerosEmpty(covered);
    var active: seq<nat> := seq(|m.tests|, i => i);
    StartExhausted(m, Members(covered), active);
    GreedyNone(m);
    var cumulative := 0;
    Starting(m, Members(covered), active);
    while active != []
      invariant |covered| == m.words && Ascending(active) && forall k :: 0 <= k < |active| ==> active[k] < |m.bits|
      invariant Underway(m, steps, Members(covered), active, cumulative)
      decreases |AllRuns(m) - Members(covered)|
    {
      var best, bestGain, remaining := BestOf(m, active, covered);
      FewerActive(m, steps, Members(covered), active, remaining, cumulative);
      if best < 0 { active := []; break; }
      cumulative := cumulative + bestGain;
      var step := CoverStep(best, bestGain, cumulative);
      OneStep(m, steps, Members(covered), active, remaining, step);
      active := remaining;
      RowIsRuns(m, best);
      covered := OrInto(covered, m.bits[best]);
      steps := steps + [step];
    }
    Finished(m, steps, Members(covered), cumulative);
  }

  /** Between two rounds: the steps are greedy, and what they cover leaves inactive tests nothing. */
  ghost predicate Underway(m: Matrix, steps: seq<CoverStep>, covered: set<nat>, active: seq<nat>, cumulative: nat) {
    && InRange(m, steps) && Greedy(m, steps) && covered == Covered(m, steps, |steps|)
    && Exhausted(m, covered, active) && cumulative == |covered|
  }

  lemma Starting(m: Matrix, covered: set<nat>, active: seq<nat>)
    requires covered == {} && Exhausted(m, covered, active)
    ensures Underway(m, [], covered, active, 0)
  {
    GreedyNone(m);
  }

  lemma FewerActive(m: Matrix, steps: seq<CoverStep>, covered: set<nat>, active: seq<nat>, remaining: seq<nat>,
                    cumulative: nat)
    requires Underway(m, steps, covered, active, cumulative)
    requires forall t :: t in active && t !in remaining ==> t < |m.bits| && Gain(m, covered, t) == 0
    ensures Underway(m, steps, covered, remaining, cumulative)
  {
    StillExhausted(m, covered, active, remaining);
    hide Greedy, Covered, InRange, Exhausted;
  }

  lemma OneStep(m: Matrix, steps: seq<CoverStep>, covered: set<nat>, active: seq<nat>, remaining: seq<nat>,
                s: CoverStep)
    requires WellFormed(m) && s.test < |m.bits| && s.newRuns == Gain(m, covered, s.test) > 0
    requires s.newRuns <= s.cumulative
    requires Underway(m, steps, covered, active, s.cumulative - s.newRuns)
    requires Underway(m, steps, covered, remaining, s.cumulative - s.newRuns)
    requires forall t :: t in active ==> t < |m.bits| && Gain(m, covered, t) <= s.newRuns
    requires forall t :: t in active && t < s.test ==> Gain(m, covered, t) < s.newRuns
    ensures Underway(m, steps + [s], covered + RunsOf(m, s.test), remaining, s.cumulative)
    ensures |AllRuns(m) - (covered + RunsOf(m, s.test))| < |AllRuns(m) - covered|
  {
    hide Greedy, Covered, InRange, Exhausted, Gain, WellFormed, AllRuns, Chosen, RunsOf;
    ChosenBest(m, covered, active, s);
    GreedyGrows(m, steps, s);
    GainShrinks(m, covered, s);
    MoreExhausted(m, covered, remaining, s.test);
  }

  lemma Finished(m: Matrix, steps: seq<CoverStep>, covered: set<nat>, cumulative: nat)
    requires WellFormed(m) && Underway(m, steps, covered, [], cumulative)
    ensures Greedy(m, steps) && InRange(m, steps) && Covered(m, steps, |steps|) == AllRuns(m)
  {
    hide Greedy, Covered, Exhausted, WellFormed, AllRuns;
    NothingLeft(m, steps);
  }

  lemma StartExhausted(m: Matrix, covered: set<nat>, active: seq<nat>)
    requires |active| == |m.bits| && forall t :: 0 <= t < |active| ==> active[t] == t
    ensures Exhausted(m, covered, active)
  {
    forall t: nat | t < |m.bits| ensures t in active { assert active[t] == t; }
  }

  lemma GreedyNone(m: Matrix)
    ensures InRange(m, []) && Greedy(m, []) && Covered(m, [], 0) == {}
  {
  }

  lemma MoreExhausted(m: Matrix, covered: set<nat>, active: seq<nat>, best: nat)
    requires Exhausted(m, covered, active) && best < |m.bits|
    ensures Exhausted(m, covered + RunsOf(m, best), active)
  {
    hide RunsOf;
  }

  lemma RowIsRuns(m: Matrix, t: nat)
    requires Shaped(m) && t < |m.bits|
    ensures RunsOf(m, t) == Members(m.bits[t]) && |m.bits[t]| == m.words
  {
  }

  lemma StillExhausted(m: Matrix, covered: set<nat>, active: seq<nat>, remaining: seq<nat>)
    requires Exhausted(m, covered, active)
    requires forall t :: t in active && t !in remaining ==> t < |m.bits| && Gain(m, covered, t) == 0
    ensures Exhausted(m, covered, remaining)
  {
    hide RunsOf;
    forall t: nat | t < |m.bits| && t !in remaining ensures RunsOf(m, t) <= covered {
      if t in active {
        assert Gain(m, covered, t) == 0;
        NoDifference(RunsOf(m, t), covered);
      }
    }
  }

  lemma NoDifference(a: set<nat>, b: set<nat>)
    requires |a - b| == 0
    ensures a <= b
  {
    assert a - b == {};
    forall x | x in a ensures x in b {
      assert x !in a - b;
    }
  }

  lemma ChosenBest(m: Matrix, covered: set<nat>, active: seq<nat>, s: CoverStep)
    requires Exhausted(m, covered, active) && s.test < |m.bits|
    requires s.newRuns == Gain(m, covered, s.test) > 0
    requires forall t :: t in active ==> t < |m.bits| && Gain(m, covered, t) <= s.newRuns
    requires forall t :: t in active && t < s.test ==> Gain(m, covered, t) < s.newRuns
    requires s.cumulative == |covered| + s.newRuns
    ensures Chosen(m, covered, s) && s.cumulative == |covered + RunsOf(m, s.test)|
  {
    hide RunsOf;
    forall t: nat | t < |m.bits| && t !in active ensures Gain(m, covered, t) == 0 {
      assert RunsOf(m, t) - covered == {};
    }
    var more := RunsOf(m, s.test) - covered;
    assert covered + RunsOf(m, s.test) == covered + more;
  }

  lemma {:induction false} CoveredPrefix(m: Matrix, steps: seq<CoverStep>, s: CoverStep, k: nat)
    requires InRange(m, steps) && s.test < |m.bits| && k <= |steps|
    ensures InRange(m, steps + [s]) && Covered(m, steps + [s], k) == Covered(m, steps, k)
  {
    if k > 0 { CoveredPrefix(m, steps, s, k - 1); }
  }

  lemma GreedyGrows(m: Matrix, steps: seq<CoverStep>, s: CoverStep)
    requires InRange(m, steps) && Greedy(m, steps) && Chosen(m, Covered(m, steps, |steps|), s)
    ensures InRange(m, steps + [s]) && Greedy(m, steps + [s])
    ensures Covered(m, steps + [s], |steps| + 1) == Covered(m, steps, |steps|) + RunsOf(m, s.test)
  {
    assert s.test < |m.bits|;
    hide Chosen, RunsOf;
    var more := steps + [s];
    forall k: nat | k < |more| ensures InRange(m, more) && ChosenAt(m, more, k) {
      CoveredPrefix(m, steps, s, k);
      assert k < |steps| ==> ChosenAt(m, steps, k);
    }
    CoveredPrefix(m, steps, s, |steps|);
  }

  lemma GainShrinks(m: Matrix, covered: set<nat>, s: CoverStep)
    requires WellFormed(m) && Chosen(m, covered, s)
    ensures |AllRuns(m) - (covered + RunsOf(m, s.test))| < |AllRuns(m) - covered|
  {
    var r :| r in RunsOf(m, s.test) - covered;
    assert r < m.runs;
    Shrinks(AllRuns(m) - (covered + RunsOf(m, s.test)), AllRuns(m) - covered, r);
  }

  lemma Shrinks(a: set<nat>, b: set<nat>, r: nat)
    requires a <= b && r in b && r !in a
    ensures |a| < |b|
  {
    Subset(a, b - {r});
  }

  lemma {:induction false} Subset(a: set<nat>, b: set<nat>)
    requires a <= b
    ensures |a| <= |b|
  {
    if a != {} {
      var x :| x in a;
      Subset(a - {x}, b - {x});
    }
  }

  lemma {:induction false} CoveredInRange(m: Matrix, steps: seq<CoverStep>, k: nat)
    requires WellFormed(m) && InRange(m, steps) && k <= |steps|
    ensures Covered(m, steps, k) <= AllRuns(m)
  {
    if k > 0 { CoveredInRange(m, steps, k - 1); }
  }

  lemma NothingLeft(m: Matrix, steps: seq<CoverStep>)
    requires WellFormed(m) && InRange(m, steps) && Exhausted(m, Covered(m, steps, |steps|), [])
    ensures Covered(m, steps, |steps|) == AllRuns(m)
  {
    hide RunsOf, Covered;
    CoveredInRange(m, steps, |steps|);
    forall r: nat | r < m.runs ensures r in Covered(m, steps, |steps|) {
      assert Failing(m, r);
      var t :| 0 <= t < |m.bits| && r in RunsOf(m, t);
    }
  }

  // ---- what greedy steps are worth ----

  lemma {:induction false} CoveredMonotone(m: Matrix, steps: seq<CoverStep>, i: nat, j: nat)
    requires InRange(m, steps) && i <= j <= |steps|
    ensures Covered(m, steps, i) <= Covered(m, steps, j)
    decreases j
  {
    if i < j { CoveredMonotone(m, steps, i, j - 1); }
  }

  /** Gains are positive, never increase, and Cumulative is the size of the union so far. */
  lemma GainsDescend(m: Matrix, steps: seq<CoverStep>, i: nat, j: nat)
    requires Greedy(m, steps) && i <= j < |steps|
    ensures 0 < steps[j].newRuns <= steps[i].newRuns
    ensures steps[j].cumulative == |Covered(m, steps, j + 1)|
  {
    hide RunsOf;
    CoveredMonotone(m, steps, i, j);
    assert ChosenAt(m, steps, i) && ChosenAt(m, steps, j);
    var t := steps[j].test;
    Subset(RunsOf(m, t) - Covered(m, steps, j), RunsOf(m, t) - Covered(m, steps, i));
    assert Gain(m, Covered(m, steps, i), t) <= steps[i].newRuns;
  }

  function Pow(b: nat, e: nat): nat {
    if e == 0 then 1 else b * Pow(b, e - 1)
  }

  lemma OneMoreShare(n: nat, best: nat)
    ensures (n + 1) * best == n * best + best
  {}

  lemma CardinalityOfUnion(a: set<nat>, b: set<nat>)
    ensures |a + b| <= |a| + |b|
  {
    assert a + b == a + (b - a);
  }

  /** What a list of tests catches of a set is at most the list's length times the best single catch. */
  lemma {:induction false} CatchBound(m: Matrix, tests: seq<nat>, left: set<nat>, best: nat)
    requires forall k :: 0 <= k < |tests| ==> tests[k] < |m.bits| && |RunsOf(m, tests[k]) * left| <= best
    ensures |RunsOfAll(m, tests) * left| <= |tests| * best
  {
    hide RunsOf, Members;
    if tests != [] {
      var n := |tests| - 1;
      assert forall k :: 0 <= k < n ==> tests[..n][k] == tests[k];
      CatchBound(m, tests[..n], left, best);
      var a, b := RunsOfAll(m, tests[..n]) * left, RunsOf(m, tests[n]) * left;
      assert RunsOfAll(m, tests) * left == a + b;
      CardinalityOfUnion(a, b);
      OneMoreShare(n, best);
    }
  }

  lemma UncoveredSplit(m: Matrix, covered: set<nat>, t: nat)
    requires WellFormed(m) && t < |m.bits|
    ensures RunsOf(m, t) - covered == RunsOf(m, t) * (AllRuns(m) - covered)
  {
  }

  /** One greedy step against any cover of k tests: at least the k-th part of what is left is caught. */
  lemma StepBound(m: Matrix, covered: set<nat>, s: CoverStep, cover: seq<nat>)
    requires WellFormed(m) && Chosen(m, covered, s)
    requires forall k :: 0 <= k < |cover| ==> cover[k] < |m.bits|
    requires RunsOfAll(m, cover) == AllRuns(m)
    ensures |AllRuns(m) - covered| <= |cover| * s.newRuns
    ensures |AllRuns(m) - (covered + RunsOf(m, s.test))| == |AllRuns(m) - covered| - s.newRuns
  {
    hide RunsOf;
    var left := AllRuns(m) - covered;
    forall k | 0 <= k < |cover| ensures |RunsOf(m, cover[k]) * left| <= s.newRuns {
      UncoveredSplit(m, covered, cover[k]);
      assert Gain(m, covered, cover[k]) <= s.newRuns;
    }
    CatchBound(m, cover, left, s.newRuns);
    assert RunsOfAll(m, cover) * left == left;
    UncoveredSplit(m, covered, s.test);
    var more := RunsOf(m, s.test) * left;
    assert AllRuns(m) - (covered + RunsOf(m, s.test)) == left - more;
  }

  lemma StepArithmetic(u: nat, u': nat, g: nat, k: nat, n: nat, p: nat, q: nat)
    requires u <= k * g && u' == u - g && k > 0
    requires u * p <= n * q
    ensures u' * (k * p) <= n * ((k - 1) * q)
  {
    var j := k - 1;
    LessByShare(u, u', g, k);
    Scale(u' * k, u * j, p);
    Regroup(u', k, p);
    Swap(u, j, p);
    Scale(u * p, n * q, j);
    Swap(n, j, q);
    Regroup(n, j, q);
  }

  lemma LessByShare(u: nat, u': nat, g: nat, k: nat)
    requires u <= k * g && u' == u - g && k > 0
    ensures u' * k <= u * (k - 1)
  {
    assert u' * k == u * k - g * k;
    assert u * (k - 1) == u * k - u;
  }

  lemma Scale(a: nat, b: nat, c: nat)
    requires a <= b
    ensures a * c <= b * c
  {}

  lemma Regroup(a: nat, b: nat, c: nat)
    ensures a * (b * c) == (a * b) * c
  {}

  lemma Swap(a: nat, b: nat, c: nat)
    ensures (a * b) * c == (a * c) * b
  {}

  lemma PowStep(u: nat, u': nat, g: nat, k: nat, n: nat, t: nat)
    requires u <= k * g && u' == u - g && k > 0 && t > 0
    requires u * Pow(k, t - 1) <= n * Pow(k - 1, t - 1)
    ensures u' * Pow(k, t) <= n * Pow(k - 1, t)
  {
    StepArithmetic(u, u', g, k, n, Pow(k, t - 1), Pow(k - 1, t - 1));
  }

  /** After t steps, against k tests: uncovered * k^t <= runs * (k-1)^t. */
  ghost predicate Within(m: Matrix, steps: seq<CoverStep>, k: nat, t: nat)
    requires InRange(m, steps) && t <= |steps| && k > 0
  {
    |AllRuns(m) - Covered(m, steps, t)| * Pow(k, t) <= m.runs * Pow(k - 1, t)
  }

  lemma WithinNone(m: Matrix, steps: seq<CoverStep>, k: nat)
    requires InRange(m, steps) && k > 0
    ensures Within(m, steps, k, 0)
  {
    assert AllRuns(m) - Covered(m, steps, 0) == AllRuns(m);
  }

  lemma WithinStep(m: Matrix, steps: seq<CoverStep>, k: nat, t: nat)
    requires InRange(m, steps) && 0 < t <= |steps| && k > 0 && Within(m, steps, k, t - 1)
    requires |AllRuns(m) - Covered(m, steps, t - 1)| <= k * steps[t - 1].newRuns
    requires |AllRuns(m) - Covered(m, steps, t)| == |AllRuns(m) - Covered(m, steps, t - 1)| - steps[t - 1].newRuns
    ensures Within(m, steps, k, t)
  {
    hide Covered, AllRuns, Pow;
    PowStep(|AllRuns(m) - Covered(m, steps, t - 1)|, |AllRuns(m) - Covered(m, steps, t)|,
            steps[t - 1].newRuns, k, m.runs, t);
  }

  /** The approximation guarantee, against any cover of the runs by any k tests. */
  lemma {:induction false} GreedyBound(m: Matrix, steps: seq<CoverStep>, cover: seq<nat>, t: nat)
    requires WellFormed(m) && Greedy(m, steps) && t <= |steps|
    requires cover != [] && forall k :: 0 <= k < |cover| ==> cover[k] < |m.bits|
    requires RunsOfAll(m, cover) == AllRuns(m)
    ensures Within(m, steps, |cover|, t)
  {
    hide Within, RunsOfAll, WellFormed, Covered, AllRuns;
    if t == 0 {
      WithinNone(m, steps, |cover|);
    } else {
      GreedyBound(m, steps, cover, t - 1);
      StepAt(m, steps, cover, t);
      WithinStep(m, steps, |cover|, t);
    }
  }

  lemma StepAt(m: Matrix, steps: seq<CoverStep>, cover: seq<nat>, t: nat)
    requires WellFormed(m) && Greedy(m, steps) && 0 < t <= |steps|
    requires forall k :: 0 <= k < |cover| ==> cover[k] < |m.bits|
    requires RunsOfAll(m, cover) == AllRuns(m)
    ensures |AllRuns(m) - Covered(m, steps, t - 1)| <= |cover| * steps[t - 1].newRuns
    ensures |AllRuns(m) - Covered(m, steps, t)| == |AllRuns(m) - Covered(m, steps, t - 1)| - steps[t - 1].newRuns
  {
    assert ChosenAt(m, steps, t - 1);
    hide Chosen, RunsOf, RunsOfAll, WellFormed;
    StepBound(m, Covered(m, steps, t - 1), steps[t - 1], cover);
  }

  /** So the list is short: it goes on after t steps only while k^t <= runs * (k-1)^t. */
  lemma CoverLength(m: Matrix, steps: seq<CoverStep>, cover: seq<nat>, t: nat)
    requires WellFormed(m) && Greedy(m, steps) && t < |steps|
    requires cover != [] && forall k :: 0 <= k < |cover| ==> cover[k] < |m.bits|
    requires RunsOfAll(m, cover) == AllRuns(m)
    ensures Pow(|cover|, t) <= m.runs * Pow(|cover| - 1, t)
  {
    GreedyBound(m, steps, cover, t);
    hide RunsOf, RunsOfAll, WellFormed, Pow;
    assert ChosenAt(m, steps, t);
    StepBound(m, Covered(m, steps, t), steps[t], cover);
    Scaled(|AllRuns(m) - Covered(m, steps, t)|, Pow(|cover|, t));
  }

  lemma Scaled(u: nat, p: nat)
    requires u >= 1
    ensures u * p >= p
  {
  }
}
