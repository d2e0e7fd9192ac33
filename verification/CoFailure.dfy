/** Bitsets of 64-bit words, and what counting their ones means: internal/analytics/cluster.go. */
module Bitsets {

  // A machine word by its bits, least significant first.
  type Word = s: seq<bool> | |s| == 64 witness seq(64, _ => false)

  const ZERO: Word := seq(64, _ => false)

  function And(a: Word, b: Word): Word { seq(64, i requires 0 <= i < 64 => a[i] && b[i]) }
  function Or(a: Word, b: Word): Word { seq(64, i requires 0 <= i < 64 => a[i] || b[i]) }
  function AndNot(a: Word, b: Word): Word { seq(64, i requires 0 <= i < 64 => a[i] && !b[i]) }

  /** bits.OnesCount64 */
  function OnesCount(s: seq<bool>): nat {
    if s == [] then 0 else OnesCount(s[..|s| - 1]) + (if s[|s| - 1] then 1 else 0)
  }

  /** The members a word contributes when its first bit stands for `base`. */
  function MembersFrom(s: seq<bool>, base: nat): set<nat> {
    set k: nat | k < |s| && s[k] :: base + k
  }

  /** Bit r%64 of word r/64 stands for r. */
  predicate Bit(ws: seq<Word>, r: int) {
    0 <= r < 64 * |ws| && ws[r / 64][r % 64]
  }

  /** The set a sequence of words stands for. */
  function Members(ws: seq<Word>): (m: set<nat>)
    ensures forall r: nat :: r in m <==> Bit(ws, r)
  {
    if ws == [] then {}
    else
      var n := |ws| - 1;
      MembersSplit(ws);
      Members(ws[..n]) + MembersFrom(ws[n], 64 * n)
  }

  lemma MembersSplit(ws: seq<Word>)
    requires ws != []
    ensures var n := |ws| - 1;
            forall r: nat :: Bit(ws, r) <==> Bit(ws[..n], r) || r in MembersFrom(ws[n], 64 * n)
  {
    var n := |ws| - 1;
    forall r: nat ensures Bit(ws, r) <==> Bit(ws[..n], r) || r in MembersFrom(ws[n], 64 * n) {
      if 64 * n <= r < 64 * |ws| {
        assert r / 64 == n && r % 64 == r - 64 * n;
        assert r in MembersFrom(ws[n], 64 * n) <==> ws[n][r - 64 * n];
      } else {
        assert r !in MembersFrom(ws[n], 64 * n);
      }
    }
  }

  function Total(ws: seq<Word>): nat {
    if ws == [] then 0 else Total(ws[..|ws| - 1]) + OnesCount(ws[|ws| - 1])
  }

  lemma {:induction false} CountMembersFrom(s: seq<bool>, base: nat)
    ensures |MembersFrom(s, base)| == OnesCount(s)
  {
    if s != [] {
      var n := |s| - 1;
      CountMembersFrom(s[..n], base);
      var rest := MembersFrom(s[..n], base);
      assert MembersFrom(s, base) == if s[n] then rest + {base + n} else rest;
    }
  }

  /** Summing the ones of the words counts the set. */
  lemma {:induction false} CountMembers(ws: seq<Word>)
    ensures |Members(ws)| == Total(ws)
  {
    if ws != [] {
      var n := |ws| - 1;
      CountMembers(ws[..n]);
      CountMembersFrom(ws[n], 64 * n);
      assert forall r: nat :: Bit(ws[..n], r) ==> r < 64 * n;
      assert Members(ws[..n]) !! MembersFrom(ws[n], 64 * n);
    }
  }

  /** Bit r%64 of word r/64 set. */
  function WithBit(ws: seq<Word>, r: nat): (us: seq<Word>)
    requires r < 64 * |ws|
    ensures |us| == |ws|
  {
    ws[r / 64 := ws[r / 64][r % 64 := true]]
  }

  /** Setting it adds r. */
  lemma SetBit(ws: seq<Word>, r: nat)
    requires r < 64 * |ws|
    ensures Members(WithBit(ws, r)) == Members(ws) + {r}
  {
    var w := r / 64;
    var us := WithBit(ws, r);
    forall q: nat ensures Bit(us, q) <==> Bit(ws, q) || q == r {
      if q < 64 * |ws| && q != r {
        assert q / 64 == w ==> q % 64 != r % 64;
      }
    }
    assert forall q: nat :: q in Members(us) <==> q in Members(ws) + {r};
  }
}

/** The co-failure matrix: which tests failed in which runs. */
module CoFailure {
  import opened Bitsets

  // Tests and runs are named by their rank in identity order.
  datatype Occurrence = Occurrence(test: nat, run: nat)

  datatype Matrix = Matrix(tests: seq<nat>, runs: nat, words: nat, bits: seq<seq<Word>>)

  predicate Ascending(s: seq<nat>) {
    forall i, j :: 0 <= i < j < |s| ==> s[i] < s[j]
  }

  /** The runs test `t` failed in. */
  function RunsOf(m: Matrix, t: nat): set<nat>
    requires t < |m.bits|
  {
    Members(m.bits[t])
  }

  /** The runs a group of tests catches between them. */
  function RunsOfAll(m: Matrix, members: seq<nat>): set<nat>
    requires forall k :: 0 <= k < |members| ==> members[k] < |m.bits|
  {
    if members == [] then {} else RunsOfAll(m, members[..|members| - 1]) + RunsOf(m, members[|members| - 1])
  }

  predicate Shaped(m: Matrix) {
    && |m.bits| == |m.tests| && m.words == (m.runs + 63) / 64
    && forall t :: 0 <= t < |m.bits| ==> |m.bits[t]| == m.words
  }

  /** Some test failed in run `r`. */
  ghost predicate Failing(m: Matrix, r: nat) {
    exists t :: 0 <= t < |m.bits| && r in RunsOf(m, t)
  }

  ghost predicate WellFormed(m: Matrix) {
    && Shaped(m) && Ascending(m.tests)
    && (forall t, r :: 0 <= t < |m.bits| && r in RunsOf(m, t) ==> r < m.runs)
    && (forall r: nat :: r < m.runs ==> Failing(m, r))
  }

  /** The map finds each value of the list at its position. */
  ghost predicate Indexes(index: map<nat, nat>, s: seq<nat>) {
    (forall x :: x in index <==> x in s) && forall x :: x in index ==> index[x] < |s| && s[index[x]] == x
  }

  /** The distinct values, sorted. */
  method SortDistinct(values: set<nat>) returns (s: seq<nat>)
    ensures Ascending(s) && Names(s, values)
  {
    s := [];
    var todo := values;
    while todo != {}
      invariant todo <= values
      invariant Ascending(s)
      invariant forall x :: x in s <==> x in values && x !in todo
      invariant forall i, x :: 0 <= i < |s| && x in todo ==> s[i] < x
      decreases todo
    {
      var least: nat :| least in todo;
      var rest := todo - {least};
      while rest != {}
        invariant rest <= todo && least in todo
        invariant forall x :: x in todo && x !in rest ==> least <= x
        decreases rest
      {
        var x: nat :| x in rest;
        if x < least { least := x; }
        rest := rest - {x};
      }
      s, todo := s + [least], todo - {least};
    }
  }

  method IndexOf(s: seq<nat>) returns (index: map<nat, nat>)
    requires Ascending(s)
    ensures Indexes(index, s)
  {
    index := map[];
    for i := 0 to |s|
      invariant forall x :: x in index <==> x in s[..i]
      invariant forall x :: x in index ==> index[x] < i && s[index[x]] == x
    {
      index := index[s[i] := i];
    }
  }

  /** The row holds exactly the runs in which the test occurs. */
  ghost predicate RowRecords(row: seq<Word>, test: nat, runs: seq<nat>, occurrences: seq<Occurrence>) {
    forall r: nat :: r in Members(row) <==> r < |runs| && Occurrence(test, runs[r]) in occurrences
  }

  ghost predicate Names(values: seq<nat>, named: set<nat>) {
    forall x :: x in values <==> x in named
  }

  ghost function TestNames(occurrences: seq<Occurrence>): set<nat> {
    set k | 0 <= k < |occurrences| :: occurrences[k].test
  }

  ghost function RunNames(occurrences: seq<Occurrence>): set<nat> {
    set k | 0 <= k < |occurrences| :: occurrences[k].run
  }

  method CollectNames(occurrences: seq<Occurrence>) returns (tests: set<nat>, runs: set<nat>)
    ensures tests == TestNames(occurrences) && runs == RunNames(occurrences)
  {
    tests, runs := {}, {};
    for k := 0 to |occurrences|
      invariant tests == TestNames(occurrences[..k]) && runs == RunNames(occurrences[..k])
    {
      tests, runs := tests + {occurrences[k].test}, runs + {occurrences[k].run};
    }
    assert occurrences[..|occurrences|] == occurrences;
  }

  /** Rows that record the occurrences make a well-formed matrix. */
  lemma RecordedMatrix(m: Matrix, runs: seq<nat>, occurrences: seq<Occurrence>)
    requires |m.bits| == |m.tests| && Sized(m.bits, m.words) && m.words == (m.runs + 63) / 64
    requires Ascending(m.tests) && m.runs == |runs|
    requires Names(m.tests, TestNames(occurrences)) && Names(runs, RunNames(occurrences))
    requires AllRecorded(m.bits, m.tests, runs, occurrences)
    ensures WellFormed(m)
  {
    hide Members;
    forall t, r | 0 <= t < |m.bits| && r in RunsOf(m, t) ensures r < m.runs {
      assert RowRecords(m.bits[t], m.tests[t], runs, occurrences);
    }
    forall r: nat | r < m.runs ensures Failing(m, r) {
      assert runs[r] in runs && runs[r] in RunNames(occurrences);
      var k :| 0 <= k < |occurrences| && occurrences[k].run == runs[r];
      assert occurrences[k].test in TestNames(occurrences);
      var t :| 0 <= t < |m.tests| && m.tests[t] == occurrences[k].test;
      assert RowRecords(m.bits[t], m.tests[t], runs, occurrences);
      assert Occurrence(m.tests[t], runs[r]) == occurrences[k];
      assert r in RunsOf(m, t);
    }
  }

  ghost predicate AllIndexed(occurrences: seq<Occurrence>, testIndex: map<nat, nat>, runIndex: map<nat, nat>) {
    forall k :: 0 <= k < |occurrences| ==> occurrences[k].test in testIndex && occurrences[k].run in runIndex
  }

  lemma NamesIndexed(occurrences: seq<Occurrence>, tests: seq<nat>, runs: seq<nat>,
                     testIndex: map<nat, nat>, runIndex: map<nat, nat>)
    requires Names(tests, TestNames(occurrences)) && Names(runs, RunNames(occurrences))
    requires Indexes(testIndex, tests) && Indexes(runIndex, runs)
    ensures AllIndexed(occurrences, testIndex, runIndex)
  {
    forall k | 0 <= k < |occurrences|
      ensures occurrences[k].test in testIndex && occurrences[k].run in runIndex
    {
      assert occurrences[k].test in TestNames(occurrences) && occurrences[k].run in RunNames(occurrences);
    }
  }

  /** NewMatrix: bit (t, r) is set exactly for the occurrences, whatever their order or repetition. */
  method NewMatrix(occurrences: seq<Occurrence>) returns (m: Matrix, runs: seq<nat>)
    ensures WellFormed(m) && Ascending(runs) && m.runs == |runs|
    ensures Names(m.tests, TestNames(occurrences)) && Names(runs, RunNames(occurrences))
    ensures |m.bits| == |m.tests| && AllRecorded(m.bits, m.tests, runs, occurrences)
  {
    hide WellFormed, Names, TestNames, RunNames, Indexes, AllIndexed, AllRecorded, Ascending, Sized;
    var testNames, runNames := CollectNames(occurrences);
    var tests := SortDistinct(testNames);
    runs := SortDistinct(runNames);
    var testIndex := IndexOf(tests);
    var runIndex := IndexOf(runs);
    NamesIndexed(occurrences, tests, runs, testIndex, runIndex);
    var bits := FillBits(occurrences, tests, runs, testIndex, runIndex);
    m := Matrix(tests, |runs|, (|runs| + 63) / 64, bits);
    RecordedMatrix(m, runs, occurrences);
  }

  lemma ZerosEmpty(zeros: seq<Word>)
    requires forall k :: 0 <= k < |zeros| ==> zeros[k] == ZERO
    ensures Members(zeros) == {}
  {
    assert forall r: nat :: !Bit(zeros, r);
  }

  /** Setting one occurrence's bit brings its row up to date. */
  lemma RecordOne(row: seq<Word>, row': seq<Word>, test: nat, runs: seq<nat>, before: seq<Occurrence>, r: nat)
    requires RowRecords(row, test, runs, before) && Ascending(runs) && r < |runs|
    requires Members(row') == Members(row) + {r}
    ensures RowRecords(row', test, runs, before + [Occurrence(test, runs[r])])
  {
    hide Members;
  }

  lemma RecordOther(row: seq<Word>, test: nat, runs: seq<nat>, before: seq<Occurrence>, o: Occurrence)
    requires RowRecords(row, test, runs, before) && o.test != test
    ensures RowRecords(row, test, runs, before + [o])
  {
    hide Members;
  }

  lemma RecordsGrow(bits: seq<seq<Word>>, tests: seq<nat>, runs: seq<nat>, occurrences: seq<Occurrence>, k: nat, t: nat,
                    r: nat)
    requires |bits| == |tests| && Ascending(tests) && Ascending(runs) && k < |occurrences| && t < |tests| && r < |runs|
    requires occurrences[k] == Occurrence(tests[t], runs[r]) && r < 64 * |bits[t]|
    requires AllRecorded(bits, tests, runs, occurrences[..k])
    ensures AllRecorded(bits[t := WithBit(bits[t], r)], tests, runs, occurrences[..k + 1])
  {
    hide Members, Bit, RowRecords, WithBit;
    var after := bits[t := WithBit(bits[t], r)];
    assert occurrences[..k + 1] == occurrences[..k] + [occurrences[k]];
    SetBit(bits[t], r);
    forall u | 0 <= u < |after| ensures RowRecords(after[u], tests[u], runs, occurrences[..k + 1]) {
      if u == t {
        RecordOne(bits[t], after[t], tests[t], runs, occurrences[..k], r);
      } else {
        RecordOther(after[u], tests[u], runs, occurrences[..k], occurrences[k]);
      }
    }
  }

  predicate Sized(bits: seq<seq<Word>>, words: nat) {
    forall t :: 0 <= t < |bits| ==> |bits[t]| == words
  }

  /** Every row records what its test has among the occurrences. */
  ghost predicate AllRecorded(bits: seq<seq<Word>>, tests: seq<nat>, runs: seq<nat>, occurrences: seq<Occurrence>)
    requires |bits| == |tests|
  {
    forall t :: 0 <= t < |bits| ==> RowRecords(bits[t], tests[t], runs, occurrences)
  }

  method FillBits(occurrences: seq<Occurrence>, tests: seq<nat>, runs: seq<nat>,
                  testIndex: map<nat, nat>, runIndex: map<nat, nat>) returns (bits: seq<seq<Word>>)
    requires Ascending(tests) && Ascending(runs) && AllIndexed(occurrences, testIndex, runIndex)
    requires Indexes(testIndex, tests) && Indexes(runIndex, runs)
    ensures |bits| == |tests| && Sized(bits, (|runs| + 63) / 64) && AllRecorded(bits, tests, runs, occurrences)
  {
    hide Members, Bit, RowRecords, WithBit, AllRecorded;
    var words := (|runs| + 63) / 64;
    var zeros: seq<Word> := seq(words, _ => ZERO);
    assert |runs| <= 64 * words;
    bits := seq(|tests|, _ => zeros);
    EmptyRecords(zeros, bits, tests, runs);
    for k := 0 to |occurrences|
      invariant |bits| == |tests| && Sized(bits, words) && AllRecorded(bits, tests, runs, occurrences[..k])
    {
      var t, r := testIndex[occurrences[k].test], runIndex[occurrences[k].run];
      RecordsGrow(bits, tests, runs, occurrences, k, t, r);
      bits := bits[t := WithBit(bits[t], r)];
    }
    assert occurrences[..|occurrences|] == occurrences;
  }

  lemma EmptyRecords(zeros: seq<Word>, bits: seq<seq<Word>>, tests: seq<nat>, runs: seq<nat>)
    requires |bits| == |tests| && (forall t :: 0 <= t < |bits| ==> bits[t] == zeros)
    requires forall k :: 0 <= k < |zeros| ==> zeros[k] == ZERO
    ensures AllRecorded(bits, tests, runs, [])
  {
    ZerosEmpty(zeros);
    hide Members;
  }

  // ---- similarity ----

  function Ratio(numerator: nat, denominator: nat): real {
    if denominator == 0 then 0.0 else numerator as real / denominator as real
  }

  /** Jaccard similarity of two failure sets, in exact arithmetic. */
  ghost function Similarity(m: Matrix, i: nat, j: nat): real
    requires i < |m.bits| && j < |m.bits|
  {
    Ratio(|RunsOf(m, i) * RunsOf(m, j)|, |RunsOf(m, i) + RunsOf(m, j)|)
  }

  lemma ZipMembers(a: seq<Word>, b: seq<Word>, both: seq<Word>, either: seq<Word>)
    requires |a| == |b| == |both| == |either|
    requires forall w :: 0 <= w < |a| ==> both[w] == And(a[w], b[w]) && either[w] == Or(a[w], b[w])
    ensures Members(both) == Members(a) * Members(b)
    ensures Members(either) == Members(a) + Members(b)
  {
    hide Members;
    forall r: nat ensures Bit(both, r) == (Bit(a, r) && Bit(b, r)) && Bit(either, r) == (Bit(a, r) || Bit(b, r)) {
      if r < 64 * |a| {
        var w := r / 64;
        assert both[w] == And(a[w], b[w]) && either[w] == Or(a[w], b[w]);
      }
    }
  }

  lemma OrMembers(a: seq<Word>, b: seq<Word>, either: seq<Word>)
    requires |a| == |b| == |either| && forall w :: 0 <= w < |a| ==> either[w] == Or(a[w], b[w])
    ensures Members(either) == Members(a) + Members(b)
  {
    ZipMembers(a, b, seq(|a|, w requires 0 <= w < |a| => And(a[w], b[w])), either);
  }

  /** The covered set grows by a row, word by word. */
  method OrInto(union: seq<Word>, row: seq<Word>) returns (out: seq<Word>)
    requires |union| == |row|
    ensures |out| == |union| && Members(out) == Members(union) + Members(row)
  {
    hide Members;
    out := union;
    for w := 0 to |union|
      invariant |out| == |union|
      invariant forall v :: 0 <= v < w ==> out[v] == Or(union[v], row[v])
      invariant forall v :: w <= v < |union| ==> out[v] == union[v]
    {
      out := out[w := Or(out[w], row[w])];
    }
    OrMembers(union, row, out);
  }

  /** Matrix.Jaccard: word by word popcounts of intersection and union. */
  method Jaccard(m: Matrix, i: nat, j: nat) returns (similarity: real)
    requires Shaped(m) && i < |m.tests| && j < |m.tests|
    ensures similarity == Similarity(m, i, j)
  {
    var intersection, union := 0, 0;
    ghost var both: seq<Word>, either: seq<Word> := [], [];
    for w := 0 to m.words
      invariant |both| == |either| == w
      invariant forall k :: 0 <= k < w ==>
                  both[k] == And(m.bits[i][k], m.bits[j][k]) && either[k] == Or(m.bits[i][k], m.bits[j][k])
      invariant intersection == Total(both) && union == Total(either)
    {
      var a, b := m.bits[i][w], m.bits[j][w];
      intersection := intersection + OnesCount(And(a, b));
      union := union + OnesCount(Or(a, b));
      both, either := both + [And(a, b)], either + [Or(a, b)];
      assert both[..w] + [And(a, b)] == both && either[..w] + [Or(a, b)] == either;
    }
    ZipMembers(m.bits[i], m.bits[j], both, either);
    CountMembers(both);
    CountMembers(either);
    similarity := Ratio(intersection, union);
  }
}
