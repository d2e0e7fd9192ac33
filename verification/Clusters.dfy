/** Single-link clustering by union-find: Matrix.Cluster in internal/analytics/cluster.go. */
module Clusters {
  import opened Bitsets
  import opened CoFailure

  // ---- the forest ----

  /** `root` is where each element's parents lead, and `height` grows on the way, so they do lead there. */
  ghost predicate Forest(parent: seq<nat>, root: seq<nat>, height: seq<nat>) {
    && |parent| == |root| == |height|
    && forall x :: 0 <= x < |parent| ==>
         && parent[x] < |parent| && root[x] < |parent|
         && root[parent[x]] == root[x] && parent[root[x]] == root[x]
         && (parent[x] == x ==> root[x] == x)
         && (parent[x] != x ==> height[x] < height[parent[x]])
  }

  ghost predicate Bounded(height: seq<nat>, top: nat) {
    forall x :: 0 <= x < |height| ==> height[x] <= top
  }

  /** Path halving keeps the forest and its roots, with the very same certificate. */
  lemma HalvingKeepsForest(parent: seq<nat>, root: seq<nat>, height: seq<nat>, x: nat)
    requires Forest(parent, root, height) && x < |parent|
    ensures Forest(parent[x := parent[parent[x]]], root, height)
  {
  }

  /** find, with path halving: it terminates at the root and changes no root. */
  method Find(parent: array<nat>, x0: nat, ghost root: seq<nat>, ghost height: seq<nat>, ghost top: nat)
    returns (x: nat)
    requires Forest(parent[..], root, height) && Bounded(height, top) && x0 < parent.Length
    modifies parent
    ensures Forest(parent[..], root, height)
    ensures x < parent.Length && x == root[x0]
  {
    x := x0;
    while parent[x] != x
      invariant x < parent.Length && Forest(parent[..], root, height) && root[x] == root[x0]
      decreases top - height[x]
    {
      HalvingKeepsForest(parent[..], root, height, x);
      assert parent[..][x] == parent[x];
      var grand := parent[parent[x]];
      ghost var before := parent[..];
      parent[x] := grand;
      assert parent[..] == before[x := before[before[x]]];
      x := parent[x];
    }
  }

  ghost function Merge(root: seq<nat>, a: nat, b: nat): seq<nat> {
    seq(|root|, x requires 0 <= x < |root| => if root[x] == a then b else root[x])
  }

  /** Hanging one root under another merges their two trees and no others. */
  lemma UnionKeepsForest(parent: seq<nat>, root: seq<nat>, height: seq<nat>, a: nat, b: nat)
    requires Forest(parent, root, height)
    requires a < |parent| && b < |parent| && a != b && parent[a] == a && parent[b] == b
    ensures var h := if height[b] <= height[a] then height[a] + 1 else height[b];
            Forest(parent[a := b], Merge(root, a, b), height[b := h])
  {
  }

  // ---- chains of similar tests ----

  ghost predicate Similar(m: Matrix, threshold: real, i: nat, j: nat) {
    i < |m.bits| && j < |m.bits| && Similarity(m, i, j) >= threshold
  }

  lemma SimilarSymmetric(m: Matrix, threshold: real, i: nat, j: nat)
    requires Similar(m, threshold, i, j)
    ensures Similar(m, threshold, j, i)
  {
    assert RunsOf(m, i) * RunsOf(m, j) == RunsOf(m, j) * RunsOf(m, i);
    assert RunsOf(m, i) + RunsOf(m, j) == RunsOf(m, j) + RunsOf(m, i);
  }

  ghost predicate LinkAt(m: Matrix, threshold: real, path: seq<nat>, k: nat)
    requires k + 1 < |path|
  {
    Similar(m, threshold, path[k], path[k + 1])
  }

  ghost predicate Chain(m: Matrix, threshold: real, path: seq<nat>) {
    && path != []
    && (forall k :: 0 <= k < |path| ==> path[k] < |m.bits|)
    && forall k :: 0 <= k < |path| - 1 ==> LinkAt(m, threshold, path, k)
  }

  ghost predicate ChainBetween(m: Matrix, threshold: real, path: seq<nat>, x: nat, y: nat) {
    Chain(m, threshold, path) && path[0] == x && path[|path| - 1] == y
  }

  /** A chain of pairs at or above the threshold links the two tests. */
  ghost predicate Linked(m: Matrix, threshold: real, x: nat, y: nat) {
    exists path :: ChainBetween(m, threshold, path, x, y)
  }

  lemma LinkedReflexive(m: Matrix, threshold: real, x: nat)
    requires x < |m.bits|
    ensures Linked(m, threshold, x, x)
  {
    assert ChainBetween(m, threshold, [x], x, x);
  }

  lemma LinkedStep(m: Matrix, threshold: real, x: nat, y: nat)
    requires Similar(m, threshold, x, y)
    ensures Linked(m, threshold, x, y)
  {
    hide Similarity, RunsOf, Members;
    assert x < |m.bits| && y < |m.bits|;
    hide Similar;
    var path := [x, y];
    assert LinkAt(m, threshold, path, 0);
    assert ChainBetween(m, threshold, path, x, y);
  }

  lemma LinkedTransitive(m: Matrix, threshold: real, x: nat, y: nat, z: nat)
    requires Linked(m, threshold, x, y) && Linked(m, threshold, y, z)
    ensures Linked(m, threshold, x, z)
  {
    var p :| ChainBetween(m, threshold, p, x, y);
    var q :| ChainBetween(m, threshold, q, y, z);
    hide Similar;
    var pq := p + q[1..];
    forall k | 0 <= k < |pq| - 1 ensures LinkAt(m, threshold, pq, k) {
      if k >= |p| - 1 {
        assert pq[k] == q[k - |p| + 1] && pq[k + 1] == q[k - |p| + 2];
        assert LinkAt(m, threshold, q, k - |p| + 1);
      } else {
        assert LinkAt(m, threshold, p, k);
      }
    }
    assert ChainBetween(m, threshold, pq, x, z);
  }

  /** Walking a chain back. */
  lemma {:induction false} ChainBack(m: Matrix, threshold: real, path: seq<nat>, k: nat)
    requires Chain(m, threshold, path) && k < |path|
    ensures Linked(m, threshold, path[k], path[0])
  {
    hide Similar, Linked;
    if k == 0 {
      LinkedReflexive(m, threshold, path[0]);
    } else {
      ChainBack(m, threshold, path, k - 1);
      assert LinkAt(m, threshold, path, k - 1);
      SimilarSymmetric(m, threshold, path[k - 1], path[k]);
      LinkedStep(m, threshold, path[k], path[k - 1]);
      LinkedTransitive(m, threshold, path[k], path[k - 1], path[0]);
    }
  }

  lemma LinkedSymmetric(m: Matrix, threshold: real, x: nat, y: nat)
    requires Linked(m, threshold, x, y)
    ensures Linked(m, threshold, y, x)
  {
    var p :| ChainBetween(m, threshold, p, x, y);
    ChainBack(m, threshold, p, |p| - 1);
  }

  /** Chains cannot leave a class that is closed under similarity. */
  lemma {:induction false} ChainStaysInClass(m: Matrix, threshold: real, root: seq<nat>, path: seq<nat>)
    requires Chain(m, threshold, path) && |root| == |m.bits|
    requires forall i: nat, j: nat :: Similar(m, threshold, i, j) ==> root[i] == root[j]
    ensures root[path[0]] == root[path[|path| - 1]]
  {
    if |path| > 1 {
      hide Similar;
      var rest := path[1..];
      forall k | 0 <= k < |rest| - 1 ensures LinkAt(m, threshold, rest, k) {
        assert LinkAt(m, threshold, path, k + 1);
      }
      ChainStaysInClass(m, threshold, root, rest);
      assert LinkAt(m, threshold, path, 0);
    }
  }

  // ---- the pair loop ----

  ghost predicate Sound(m: Matrix, threshold: real, root: seq<nat>) {
    forall x, y :: 0 <= x < |root| && 0 <= y < |root| && root[x] == root[y] ==> Linked(m, threshold, x, y)
  }

  ghost predicate Handled(i: int, j: int, a: int, b: int) {
    a < b && (a < i || (a == i && b < j))
  }

  ghost predicate Joined(m: Matrix, threshold: real, root: seq<nat>, i: int, j: int) {
    forall a: nat, b: nat :: Handled(i, j, a, b) && b < |root| && Similar(m, threshold, a, b) ==> root[a] == root[b]
  }

  lemma MergeSound(m: Matrix, threshold: real, root: seq<nat>, i: nat, j: nat)
    requires Sound(m, threshold, root) && |root| == |m.bits| && i < |root| && j < |root|
    requires Similar(m, threshold, i, j)
    ensures Sound(m, threshold, Merge(root, root[i], root[j]))
  {
    var merged := Merge(root, root[i], root[j]);
    LinkedStep(m, threshold, i, j);
    forall x, y | 0 <= x < |merged| && 0 <= y < |merged| && merged[x] == merged[y]
      ensures Linked(m, threshold, x, y)
    {
      if root[x] != root[y] {
        if root[x] == root[i] {
          LinkedTransitive(m, threshold, x, i, j);
          LinkedTransitive(m, threshold, x, j, y);
        } else {
          LinkedTransitive(m, threshold, y, i, j);
          LinkedTransitive(m, threshold, y, j, x);
          LinkedSymmetric(m, threshold, y, x);
        }
      }
    }
  }

  /** Two tests share a root exactly when a chain links them. */
  ghost predicate RootsAreComponents(m: Matrix, threshold: real, root: seq<nat>) {
    forall x, y :: 0 <= x < |root| && 0 <= y < |root| ==> (root[x] == root[y] <==> Linked(m, threshold, x, y))
  }

  /** The nested loop over pairs. Afterwards two tests share a root exactly when a chain links them. */
  method JoinSimilar(m: Matrix, threshold: real)
    returns (parent: array<nat>, ghost root: seq<nat>, ghost height: seq<nat>, ghost top: nat)
    requires Shaped(m)
    ensures fresh(parent) && parent.Length == |m.tests|
    ensures Forest(parent[..], root, height) && Bounded(height, top)
    ensures RootsAreComponents(m, threshold, root)
  {
    hide Members, Linked, Similar;
    var n := |m.tests|;
    parent := new nat[n](k => k);
    root, height, top := seq(n, k => k), seq(n, k => 0), 0;
    forall x | 0 <= x < n ensures Linked(m, threshold, x, x) { LinkedReflexive(m, threshold, x); }
    for i := 0 to n
      invariant Forest(parent[..], root, height) && Bounded(height, top) && |root| == n
      invariant Sound(m, threshold, root) && Joined(m, threshold, root, i, i + 1)
    {
      for j := i + 1 to n
        invariant Forest(parent[..], root, height) && Bounded(height, top) && |root| == n
        invariant Sound(m, threshold, root) && Joined(m, threshold, root, i, j)
      {
        root, height, top := JoinPair(m, threshold, i, j, parent, root, height, top);
      }
    }
    AllJoined(m, threshold, root);
  }

  lemma AllJoined(m: Matrix, threshold: real, root: seq<nat>)
    requires |root| == |m.bits| && Sound(m, threshold, root) && Joined(m, threshold, root, |root|, |root| + 1)
    ensures RootsAreComponents(m, threshold, root)
  {
    forall i: nat, j: nat | Similar(m, threshold, i, j) ensures root[i] == root[j] {
      SimilarSymmetric(m, threshold, i, j);
      assert Handled(|root|, |root| + 1, i, j) || Handled(|root|, |root| + 1, j, i) || i == j;
    }
    forall x, y | 0 <= x < |root| && 0 <= y < |root| && Linked(m, threshold, x, y) ensures root[x] == root[y] {
      var path :| ChainBetween(m, threshold, path, x, y);
      ChainStaysInClass(m, threshold, root, path);
    }
  }

  method JoinPair(m: Matrix, threshold: real, i: nat, j: nat, parent: array<nat>,
                  ghost root: seq<nat>, ghost height: seq<nat>, ghost top: nat)
    returns (ghost root': seq<nat>, ghost height': seq<nat>, ghost top': nat)
    requires Shaped(m) && parent.Length == |m.tests| && i < j < |m.tests|
    requires Forest(parent[..], root, height) && Bounded(height, top) && |root| == |m.tests|
    requires Sound(m, threshold, root) && Joined(m, threshold, root, i, j)
    modifies parent
    ensures Forest(parent[..], root', height') && Bounded(height', top') && |root'| == |m.tests|
    ensures Sound(m, threshold, root') && Joined(m, threshold, root', i, j + 1)
  {
    assert |m.bits| == |m.tests|;
    hide Members, Linked, Similarity, Sound, Joined, Merge;
    root', height', top' := root, height, top;
    var similarity := Jaccard(m, i, j);
    if similarity >= threshold {
      var ri := Find(parent, i, root, height, top);
      var rj := Find(parent, j, root, height, top);
      if ri != rj {
        UnionKeepsForest(parent[..], root, height, ri, rj);
        MergeSound(m, threshold, root, i, j);
        ghost var before := parent[..];
        parent[ri] := rj;
        assert parent[..] == before[ri := rj];
        root' := Merge(root, ri, rj);
        height' := height[rj := if height[rj] <= height[ri] then height[ri] + 1 else height[rj]];
        top' := top + 1;
      }
    }
    JoinedMore(m, threshold, root, root', i, j);
  }

  /** Once pair (i, j) is dealt with, by nothing or by merging, one more pair is joined if it is similar. */
  lemma JoinedMore(m: Matrix, threshold: real, root: seq<nat>, root': seq<nat>, i: nat, j: nat)
    requires Joined(m, threshold, root, i, j) && i < j < |root| == |m.bits|
    requires root' == Merge(root, root[i], root[j]) ||
             (root' == root && (Similar(m, threshold, i, j) ==> root[i] == root[j]))
    ensures Joined(m, threshold, root', i, j + 1)
  {
    hide Similar;
    forall a: nat, b: nat | Handled(i, j + 1, a, b) && b < |root'| && Similar(m, threshold, a, b)
      ensures root'[a] == root'[b]
    {
      assert Handled(i, j, a, b) || (a == i && b == j);
    }
  }

  // ---- the reported clusters ----

  datatype Cluster = Cluster(id: nat, size: nat, members: seq<nat>, coversRuns: nat, cohesion: real)

  // ---- cohesion: the mean similarity of a group's pairs ----

  predicate InMatrix(m: Matrix, members: seq<nat>) {
    forall k :: 0 <= k < |members| ==> members[k] < |m.bits|
  }

  /** Similarities of member a with the members after it, up to b. */
  ghost function RowTotal(m: Matrix, members: seq<nat>, a: nat, b: nat): real
    requires InMatrix(m, members) && a < |members| && b <= |members|
  {
    if b <= a + 1 then 0.0 else RowTotal(m, members, a, b - 1) + Similarity(m, members[a], members[b - 1])
  }

  /** The same for the first a members: every pair counted once. */
  ghost function PairTotal(m: Matrix, members: seq<nat>, a: nat): real
    requires InMatrix(m, members) && a <= |members|
  {
    if a == 0 then 0.0 else PairTotal(m, members, a - 1) + RowTotal(m, members, a - 1, |members|)
  }

  /** How many pairs of n members have their first among the first a. */
  function PairCount(n: nat, a: nat): nat
    requires a <= n
  {
    if a == 0 then 0 else PairCount(n, a - 1) + (n - a)
  }

  ghost function Cohesion(m: Matrix, members: seq<nat>): real
    requires InMatrix(m, members)
  {
    if PairCount(|members|, |members|) == 0 then 0.0
    else PairTotal(m, members, |members|) / PairCount(|members|, |members|) as real
  }

  lemma SimilarityRange(m: Matrix, i: nat, j: nat)
    requires i < |m.bits| && j < |m.bits|
    ensures 0.0 <= Similarity(m, i, j) <= 1.0
  {
    var both, either := RunsOf(m, i) * RunsOf(m, j), RunsOf(m, i) + RunsOf(m, j);
    hide RunsOf;
    assert either == both + (either - both) && |either| == |both| + |either - both|;
    RatioRange(|both|, |either|);
  }

  lemma RatioRange(a: nat, b: nat)
    requires a <= b
    ensures 0.0 <= Ratio(a, b) <= 1.0
  {
    if b > 0 { assert a as real / b as real <= b as real / b as real; }
  }

  lemma {:induction false} RowTotalRange(m: Matrix, members: seq<nat>, a: nat, b: nat)
    requires InMatrix(m, members) && a < |members| && b <= |members|
    ensures 0.0 <= RowTotal(m, members, a, b) <= (if b <= a + 1 then 0 else b - a - 1) as real
  {
    hide Similarity;
    if b > a + 1 {
      RowTotalRange(m, members, a, b - 1);
      SimilarityRange(m, members[a], members[b - 1]);
    }
  }

  lemma {:induction false} PairTotalRange(m: Matrix, members: seq<nat>, a: nat)
    requires InMatrix(m, members) && a <= |members|
    ensures 0.0 <= PairTotal(m, members, a) <= PairCount(|members|, a) as real
  {
    hide RowTotal, Similarity, RunsOf;
    if a > 0 {
      PairTotalRange(m, members, a - 1);
      RowTotalRange(m, members, a - 1, |members|);
    }
  }

  /** Cohesion is a similarity too. */
  lemma CohesionRange(m: Matrix, members: seq<nat>)
    requires InMatrix(m, members)
    ensures 0.0 <= Cohesion(m, members) <= 1.0
  {
    PairTotalRange(m, members, |members|);
    var total, pairs := PairTotal(m, members, |members|), PairCount(|members|, |members|) as real;
    if pairs > 0.0 {
      Quotient(total, pairs);
    }
  }

  lemma Quotient(a: real, b: real)
    requires 0.0 <= a <= b && b > 0.0
    ensures 0.0 <= a / b <= 1.0
  {
    assert a / b * b == a;
  }

  /** The nested loop over a group's pairs. */
  method MeanSimilarity(m: Matrix, members: seq<nat>) returns (cohesion: real)
    requires Shaped(m) && InMatrix(m, members)
    ensures cohesion == Cohesion(m, members)
  {
    hide Similarity, Members;
    var total, pairs := 0.0, 0;
    for a := 0 to |members|
      invariant total == PairTotal(m, members, a) && pairs == PairCount(|members|, a)
    {
      ghost var before := total;
      for b := a + 1 to |members|
        invariant total == before + RowTotal(m, members, a, b) && pairs == PairCount(|members|, a) + (b - a - 1)
      {
        var similarity := Jaccard(m, members[a], members[b]);
        total, pairs := total + similarity, pairs + 1;
      }
    }
    cohesion := if pairs == 0 then 0.0 else total / pairs as real;
  }

  /** A maximal linked group of at least two tests, in identity order, with the runs it covers. */
  ghost predicate IsComponent(m: Matrix, threshold: real, c: Cluster) {
    && Ascending(c.members) && c.size == |c.members| >= 2
    && (forall k :: 0 <= k < |c.members| ==> c.members[k] < |m.bits|)
    && c.coversRuns == |RunsOfAll(m, c.members)| && c.cohesion == Cohesion(m, c.members)
    && forall x: nat, y: nat :: x in c.members && y < |m.bits| ==> (y in c.members <==> Linked(m, threshold, x, y))
  }

  /** The report's order: most runs first, then the first member's identity. */
  ghost predicate Before(a: Cluster, b: Cluster)
    requires a.members != [] && b.members != []
  {
    a.coversRuns > b.coversRuns || (a.coversRuns == b.coversRuns && a.members[0] < b.members[0])
  }

  ghost predicate Sorted(cs: seq<Cluster>) {
    && (forall k :: 0 <= k < |cs| ==> cs[k].members != [])
    && forall i, j :: 0 <= i < j < |cs| ==> Before(cs[i], cs[j])
  }

  ghost predicate Reported(cs: seq<Cluster>, x: nat) {
    exists c :: c in cs && x in c.members
  }

  /** The whole report: exactly the components of two or more tests, sorted and numbered. */
  ghost predicate IsClustering(m: Matrix, threshold: real, out: seq<Cluster>) {
    && (forall k :: 0 <= k < |out| ==> out[k].id == k + 1 && IsComponent(m, threshold, out[k]))
    && Sorted(out)
    && forall x: nat, y: nat :: x < |m.bits| && y < |m.bits| && x != y && Linked(m, threshold, x, y) ==>
         Reported(out, x)
  }

  lemma {:induction false} AscendingUnique(a: seq<nat>, b: seq<nat>)
    requires Ascending(a) && Ascending(b) && forall x :: x in a <==> x in b
    ensures a == b
  {
    assert a != [] ==> a[0] in b;
    assert b != [] ==> b[0] in a;
    if a != [] {
      assert a[0] == b[0];
      forall x ensures x in a[1..] <==> x in b[1..] {
        assert x in a[1..] <==> x in a && x != a[0];
        assert x in b[1..] <==> x in b && x != b[0];
      }
      AscendingUnique(a[1..], b[1..]);
    }
  }

  /** Components with a common member are the same record. */
  lemma ComponentUnique(m: Matrix, threshold: real, c: Cluster, d: Cluster, x: nat)
    requires IsComponent(m, threshold, c) && IsComponent(m, threshold, d) && x in c.members && x in d.members
    ensures c.(id := d.id) == d
  {
    forall y ensures y in c.members <==> y in d.members {
      if y in c.members { assert y < |m.bits| && Linked(m, threshold, x, y); }
      if y in d.members { assert y < |m.bits| && Linked(m, threshold, x, y); }
    }
    AscendingUnique(c.members, d.members);
  }

  function Unnumbered(cs: seq<Cluster>): seq<Cluster> {
    seq(|cs|, k requires 0 <= k < |cs| => cs[k].(id := 0))
  }

  lemma ReportSubset(m: Matrix, threshold: real, a: seq<Cluster>, b: seq<Cluster>, c: Cluster)
    requires IsClustering(m, threshold, a) && IsClustering(m, threshold, b) && c in Unnumbered(a)
    ensures c in Unnumbered(b)
  {
    var k :| 0 <= k < |a| && Unnumbered(a)[k] == c;
    var x, y := a[k].members[0], a[k].members[1];
    assert x in a[k].members && y in a[k].members && Linked(m, threshold, x, y);
    assert Reported(b, x);
    var d :| d in b && x in d.members;
    var l :| 0 <= l < |b| && b[l] == d;
    ComponentUnique(m, threshold, a[k], b[l], x);
    assert Unnumbered(b)[l] == c;
  }

  lemma {:induction false} SortedUnique(a: seq<Cluster>, b: seq<Cluster>)
    requires Sorted(a) && Sorted(b) && forall c :: c in a <==> c in b
    ensures a == b
  {
    assert a != [] ==> a[0] in b;
    assert b != [] ==> b[0] in a;
    if a != [] {
      assert a[0] == b[0];
      forall c ensures c in a[1..] <==> c in b[1..] {
        assert c in a[1..] <==> c in a && c != a[0];
        assert c in b[1..] <==> c in b && c != b[0];
      }
      SortedUnique(a[1..], b[1..]);
    }
  }

  /** The report is determined by the matrix and the threshold, not by the order in which groups were visited. */
  lemma ClusteringUnique(m: Matrix, threshold: real, a: seq<Cluster>, b: seq<Cluster>)
    requires IsClustering(m, threshold, a) && IsClustering(m, threshold, b)
    ensures a == b
  {
    forall c ensures c in Unnumbered(a) <==> c in Unnumbered(b) {
      if c in Unnumbered(a) { ReportSubset(m, threshold, a, b, c); }
      if c in Unnumbered(b) { ReportSubset(m, threshold, b, a, c); }
    }
    SortedUnique(Unnumbered(a), Unnumbered(b));
    forall k | 0 <= k < |a| ensures a[k] == b[k] {
      assert Unnumbered(a)[k] == Unnumbered(b)[k];
    }
    assert |a| == |b|;
  }

  // ---- building the report ----

  method CoverSize(m: Matrix, members: seq<nat>) returns (covers: nat)
    requires Shaped(m) && forall k :: 0 <= k < |members| ==> members[k] < |m.bits|
    ensures covers == |RunsOfAll(m, members)|
  {
    hide Members;
    var union: seq<Word> := seq(m.words, _ => ZERO);
    ZerosEmpty(union);
    for k := 0 to |members|
      invariant |union| == m.words && Members(union) == RunsOfAll(m, members[..k])
    {
      assert members[..k + 1][..k] == members[..k];
      union := OrInto(union, m.bits[members[k]]);
    }
    assert members[..|members|] == members;
    CountMembers(union);
    covers := 0;
    for w := 0 to m.words
      invariant covers == Total(union[..w])
    {
      assert union[..w + 1][..w] == union[..w];
      covers := covers + OnesCount(union[w]);
    }
    assert union[..m.words] == union;
  }

  ghost predicate Group(root: seq<nat>, g: nat, members: seq<nat>, n: nat) {
    && Ascending(members)
    && (forall k :: 0 <= k < |members| ==> members[k] < |root|)
    && forall x :: x in members <==> 0 <= x < n && x < |root| && root[x] == g
  }

  ghost predicate GroupsOk(root: seq<nat>, groups: map<nat, seq<nat>>, n: nat) {
    && (forall g :: g in groups ==> groups[g] != [] && Group(root, g, groups[g], n))
    && forall x :: 0 <= x < n && x < |root| ==> root[x] in groups
  }

  /** groups[root] = append(groups[root], i), for every test in order. */
  method GroupByRoot(parent: array<nat>, ghost root: seq<nat>, ghost height: seq<nat>, ghost top: nat)
    returns (groups: map<nat, seq<nat>>)
    requires Forest(parent[..], root, height) && Bounded(height, top)
    modifies parent
    ensures GroupsOk(root, groups, |root|)
  {
    assert |root| == parent.Length;
    hide Forest, GroupsOk, Bounded;
    groups := map[];
    GroupsNone(root);
    for i := 0 to parent.Length
      invariant Forest(parent[..], root, height)
      invariant GroupsOk(root, groups, i)
    {
      var r := Find(parent, i, root, height, top);
      GroupGrows(root, groups, i);
      groups := groups[r := (if r in groups then groups[r] else []) + [i]];
    }
  }

  lemma GroupsNone(root: seq<nat>)
    ensures GroupsOk(root, map[], 0)
  {}

  lemma GroupGrows(root: seq<nat>, before: map<nat, seq<nat>>, i: nat)
    requires i < |root| && GroupsOk(root, before, i)
    ensures var r := root[i];
            GroupsOk(root, before[r := (if r in before then before[r] else []) + [i]], i + 1)
  {
    var r := root[i];
    var members := if r in before then before[r] else [];
    forall k | 0 <= k < |members| ensures members[k] < i {
      assert members[k] in members;
    }
    assert Group(root, r, members + [i], i + 1);
  }

  /** The comparator's insertion point, as sorting finds it. */
  method InsertCluster(cs: seq<Cluster>, c: Cluster) returns (out: seq<Cluster>)
    requires Sorted(cs) && c.members != []
    requires forall k :: 0 <= k < |cs| ==> cs[k].members != [] && cs[k].members[0] != c.members[0]
    ensures Sorted(out) && forall d :: d in out <==> d in cs || d == c
  {
    var k := 0;
    while k < |cs| &&
          (cs[k].coversRuns > c.coversRuns || (cs[k].coversRuns == c.coversRuns && cs[k].members[0] < c.members[0]))
      invariant 0 <= k <= |cs|
      invariant forall i :: 0 <= i < k ==> Before(cs[i], c)
    {
      k := k + 1;
    }
    out := cs[..k] + [c] + cs[k..];
    assert k < |cs| ==> Before(c, cs[k]);
    assert forall i :: k <= i < |cs| ==> Before(c, cs[i]);
  }

  /** Everything sorted so far is a component, and these are the groups visited so far. */
  ghost predicate Listed(m: Matrix, threshold: real, root: seq<nat>, done: set<nat>, cs: seq<Cluster>) {
    && Sorted(cs)
    && (forall c :: c in cs ==> IsComponent(m, threshold, c) && c.members[0] < |root| && root[c.members[0]] in done)
    && forall x: nat, y: nat :: x < |root| && y < |root| && x != y && root[x] == root[y] && root[x] in done ==>
         Reported(cs, x)
  }

  lemma ListedNone(m: Matrix, threshold: real, root: seq<nat>)
    ensures Listed(m, threshold, root, {}, [])
  {}

  lemma ListedOne(m: Matrix, threshold: real, root: seq<nat>, done: set<nat>, g: nat, members: seq<nat>,
                  cs: seq<Cluster>, cs': seq<Cluster>)
    requires |root| == |m.bits| && Listed(m, threshold, root, done, cs) && Group(root, g, members, |root|)
    requires members != []
    requires RootsAreComponents(m, threshold, root)
    requires Sorted(cs')
    requires |members| < 2 ==> cs' == cs
    requires |members| >= 2 ==>
               forall d :: d in cs' <==>
                 d in cs || d == Cluster(0, |members|, members, |RunsOfAll(m, members)|, Cohesion(m, members))
    ensures Listed(m, threshold, root, done + {g}, cs')
  {
    hide IsComponent, Linked, RunsOfAll, Cohesion, Sorted, RootsAreComponents;
    var c := Cluster(0, |members|, members, |RunsOfAll(m, members)|, Cohesion(m, members));
    if |members| >= 2 { GroupComponent(m, threshold, root, g, c); }
    assert members[0] in members;
    forall x: nat, y: nat | x < |root| && y < |root| && x != y && root[x] == root[y] && root[x] in done + {g}
      ensures Reported(cs', x)
    {
      ReportedStays(m, threshold, root, done, g, members, cs, cs', c.coversRuns, c.cohesion, x, y);
    }
  }

  lemma ReportedStays(m: Matrix, threshold: real, root: seq<nat>, done: set<nat>, g: nat, members: seq<nat>,
                      cs: seq<Cluster>, cs': seq<Cluster>, covers: nat, cohesion: real, x: nat, y: nat)
    requires Listed(m, threshold, root, done, cs) && Group(root, g, members, |root|)
    requires |members| < 2 ==> cs' == cs
    requires |members| >= 2 ==> forall d :: d in cs' <==>
             d in cs || d == Cluster(0, |members|, members, covers, cohesion)
    requires x < |root| && y < |root| && x != y && root[x] == root[y] && root[x] in done + {g}
    ensures Reported(cs', x)
  {
    hide IsComponent, Sorted;
    if root[x] == g {
      assert x in members && y in members;
      assert |members| >= 2;
      assert Cluster(0, |members|, members, covers, cohesion) in cs';
    } else {
      assert Reported(cs, x);
      var d :| d in cs && x in d.members;
      assert d in cs';
    }
  }

  lemma GroupComponent(m: Matrix, threshold: real, root: seq<nat>, g: nat, c: Cluster)
    requires |root| == |m.bits| && Group(root, g, c.members, |root|) && c.size == |c.members| >= 2
    requires c.coversRuns == |RunsOfAll(m, c.members)| && c.cohesion == Cohesion(m, c.members)
    requires RootsAreComponents(m, threshold, root)
    ensures IsComponent(m, threshold, c)
  {
    hide Linked, RunsOfAll, Cohesion;
  }

  lemma GroupOf(m: Matrix, root: seq<nat>, groups: map<nat, seq<nat>>, g: nat)
    requires GroupsOk(root, groups, |root|) && g in groups && |root| == |m.bits|
    ensures groups[g] != [] && Group(root, g, groups[g], |root|)
    ensures Ascending(groups[g]) && forall k :: 0 <= k < |groups[g]| ==> groups[g][k] < |m.bits|
  {}

  /** Cluster: join, group, report. The groups are visited in an arbitrary order. */
  method ClusterTests(m: Matrix, threshold: real) returns (out: seq<Cluster>)
    requires Shaped(m)
    ensures IsClustering(m, threshold, out)
  {
    assert |m.bits| == |m.tests|;
    hide Linked, Members, IsComponent, Listed, Group, GroupsOk, IsClustering, Sorted, RootsAreComponents, RunsOfAll;
    hide Cohesion, Shaped, Forest, Bounded, Ascending;
    var parent, root, height, top := JoinSimilar(m, threshold);
    assert |root| == |m.bits| by { ForestLength(parent[..], root, height); }
    var groups := GroupByRoot(parent, root, height, top);
    var clusters := ReportGroups(m, threshold, root, groups);
    out := seq(|clusters|, k requires 0 <= k < |clusters| => clusters[k].(id := k + 1));
    RootsGrouped(root, groups);
    Numbered(m, threshold, root, groups.Keys, clusters, out);
  }

  /** Each group of two or more becomes a cluster, inserted in the report's order. */
  method ReportGroups(m: Matrix, threshold: real, ghost root: seq<nat>, groups: map<nat, seq<nat>>)
    returns (clusters: seq<Cluster>)
    requires Shaped(m) && |root| == |m.bits| && GroupsOk(root, groups, |root|) && RootsAreComponents(m, threshold, root)
    ensures Listed(m, threshold, root, groups.Keys, clusters)
  {
    hide Linked, Members, IsComponent, Listed, Group, GroupsOk, Sorted, RootsAreComponents, RunsOfAll, Cohesion, Shaped;
    hide Ascending;
    var todo: set<nat> := groups.Keys;
    clusters := [];
    assert groups.Keys - todo == {};
    ListedNone(m, threshold, root);
    while todo != {}
      invariant todo <= groups.Keys
      invariant Listed(m, threshold, root, groups.Keys - todo, clusters)
      decreases todo
    {
      var g :| g in todo;
      var members := groups[g];
      ghost var before := clusters;
      GroupOf(m, root, groups, g);
      HeadsDiffer(m, threshold, root, groups.Keys - todo, clusters, g, members);
      if |members| >= 2 {
        var covers := CoverSize(m, members);
        var cohesion := MeanSimilarity(m, members);
        clusters := InsertCluster(clusters, Cluster(0, |members|, members, covers, cohesion));
      }
      ListedOne(m, threshold, root, groups.Keys - todo, g, members, before, clusters);
      assert groups.Keys - (todo - {g}) == groups.Keys - todo + {g};
      todo := todo - {g};
    }
    assert groups.Keys - todo == groups.Keys;
  }

  lemma ForestLength(parent: seq<nat>, root: seq<nat>, height: seq<nat>)
    requires Forest(parent, root, height)
    ensures |root| == |parent|
  {}

  lemma RootsGrouped(root: seq<nat>, groups: map<nat, seq<nat>>)
    requires GroupsOk(root, groups, |root|)
    ensures forall x :: 0 <= x < |root| ==> root[x] in groups
  {}

  lemma HeadsDiffer(m: Matrix, threshold: real, root: seq<nat>, done: set<nat>, cs: seq<Cluster>, g: nat,
                    members: seq<nat>)
    requires Listed(m, threshold, root, done, cs) && g !in done && Group(root, g, members, |root|) && members != []
    ensures Sorted(cs) && forall k :: 0 <= k < |cs| ==> cs[k].members != [] && cs[k].members[0] != members[0]
  {
    assert members[0] in members;
    forall k | 0 <= k < |cs| ensures cs[k].members[0] != members[0] {
      assert cs[k] in cs;
    }
  }

  lemma Numbered(m: Matrix, threshold: real, root: seq<nat>, done: set<nat>, cs: seq<Cluster>, out: seq<Cluster>)
    requires |root| == |m.bits| && Listed(m, threshold, root, done, cs)
    requires RootsAreComponents(m, threshold, root)
    requires forall x :: 0 <= x < |root| ==> root[x] in done
    requires out == seq(|cs|, k requires 0 <= k < |cs| => cs[k].(id := k + 1))
    ensures IsClustering(m, threshold, out)
  {
    forall k | 0 <= k < |out| ensures out[k].id == k + 1 && IsComponent(m, threshold, out[k]) {
      assert cs[k] in cs;
    }
    forall x: nat, y: nat | x < |m.bits| && y < |m.bits| && x != y && Linked(m, threshold, x, y)
      ensures Reported(out, x)
    {
      assert Reported(cs, x);
      var c :| c in cs && x in c.members;
      var k :| 0 <= k < |cs| && cs[k] == c;
      assert out[k] in out && x in out[k].members;
    }
  }
}
