/** Retention rules and the pass over the evidence table: internal/retention, and ScanAll of internal/store. */
module Retention {
  import opened Base

  type EvidenceId = nat

  // `retain` is whether metadata.retain decodes to true.
  datatype Evidence = Evidence(
    id: EvidenceId, repo: string, branch: string, rcsRef: string, procedureRef: string,
    evidenceType: string, source: string, result: string, finished: Time, retain: bool)

  // A compiled pattern is the set of texts it matches.
  datatype Rule = Rule(matchers: seq<(string, string -> bool)>, maxAge: int)

  // An inheritance declaration's source.
  datatype SourceRef = SourceRef(repo: string, ref: string)

  datatype Policy = Policy(rules: seq<Rule>, inherited: set<string>, now: Time)

  function FieldValue(ev: Evidence, field: string): string {
    match field
    case "repo" => ev.repo
    case "branch" => ev.branch
    case "rcs_ref" => ev.rcsRef
    case "procedure_ref" => ev.procedureRef
    case "evidence_type" => ev.evidenceType
    case "source" => ev.source
    case "result" => ev.result
    case _ => ""
  }

  predicate Matches(ev: Evidence, rule: Rule) {
    forall i :: 0 <= i < |rule.matchers| ==> rule.matchers[i].1(FieldValue(ev, rule.matchers[i].0))
  }

  predicate FirstMatch(rules: seq<Rule>, ev: Evidence, i: nat) {
    i < |rules| && Matches(ev, rules[i]) && forall j :: 0 <= j < i ==> !Matches(ev, rules[j])
  }

  /** The first rule that matches is one whose age is positive and has been reached. */
  predicate Expired(rules: seq<Rule>, now: Time, ev: Evidence) {
    exists i :: 0 <= i < |rules| && FirstMatch(rules, ev, i) &&
                rules[i].maxAge > 0 && now - ev.finished >= rules[i].maxAge
  }

  function RefKey(repo: string, ref: string): string { repo + "\0" + ref }

  predicate Doomed(p: Policy, ev: Evidence) {
    !ev.retain && RefKey(ev.repo, ev.rcsRef) !in p.inherited && Expired(p.rules, p.now, ev)
  }

  // ---- the evaluator ----

  method MatchesRule(ev: Evidence, rule: Rule) returns (ok: bool)
    ensures ok == Matches(ev, rule)
  {
    for i := 0 to |rule.matchers|
      invariant forall j :: 0 <= j < i ==> rule.matchers[j].1(FieldValue(ev, rule.matchers[j].0))
    {
      if !rule.matchers[i].1(FieldValue(ev, rule.matchers[i].0)) { return false; }
    }
    return true;
  }

  method MaxAge(rules: seq<Rule>, ev: Evidence) returns (age: int)
    ensures (exists i :: 0 <= i < |rules| && FirstMatch(rules, ev, i) && age == rules[i].maxAge) ||
            (age == -1 && forall i :: 0 <= i < |rules| ==> !Matches(ev, rules[i]))
  {
    for i := 0 to |rules|
      invariant forall j :: 0 <= j < i ==> !Matches(ev, rules[j])
    {
      var ok := MatchesRule(ev, rules[i]);
      if ok {
        assert FirstMatch(rules, ev, i);
        return rules[i].maxAge;
      }
    }
    return -1;
  }

  lemma FirstMatchUnique(rules: seq<Rule>, ev: Evidence, i: nat, j: nat)
    requires FirstMatch(rules, ev, i) && FirstMatch(rules, ev, j)
    ensures i == j
  {}

  // ---- which field a pattern sees ----

  const FIELD_NAMES: set<string> :=
    {"repo", "branch", "rcs_ref", "procedure_ref", "evidence_type", "source", "result"}

  /** A rule with one pattern. */
  function Single(field: string, pattern: string -> bool, age: int): Rule { Rule([(field, pattern)], age) }

  /** A pattern is put to the record's field of that name; under any other name it sees the empty text. */
  lemma PatternSees(ev: Evidence, m: string -> bool, age: int)
    ensures Matches(ev, Single("repo", m, age)) <==> m(ev.repo)
    ensures Matches(ev, Single("branch", m, age)) <==> m(ev.branch)
    ensures Matches(ev, Single("rcs_ref", m, age)) <==> m(ev.rcsRef)
    ensures Matches(ev, Single("procedure_ref", m, age)) <==> m(ev.procedureRef)
    ensures Matches(ev, Single("evidence_type", m, age)) <==> m(ev.evidenceType)
    ensures Matches(ev, Single("source", m, age)) <==> m(ev.source)
    ensures Matches(ev, Single("result", m, age)) <==> m(ev.result)
    ensures forall f :: f !in FIELD_NAMES ==> (Matches(ev, Single(f, m, age)) <==> m(""))
  {
    forall f ensures Matches(ev, Single(f, m, age)) <==> m(FieldValue(ev, f)) {
      var rule := Single(f, m, age);
      assert rule.matchers[0] == (f, m);
    }
  }

  /** A rule matches exactly if each of its patterns would on its own. */
  lemma RuleIsConjunction(ev: Evidence, rule: Rule)
    ensures Matches(ev, rule) <==>
            forall i :: 0 <= i < |rule.matchers| ==>
              Matches(ev, Single(rule.matchers[i].0, rule.matchers[i].1, rule.maxAge))
  {
    forall i | 0 <= i < |rule.matchers|
      ensures Matches(ev, Single(rule.matchers[i].0, rule.matchers[i].1, rule.maxAge)) <==>
              rule.matchers[i].1(FieldValue(ev, rule.matchers[i].0))
    {
      assert Single(rule.matchers[i].0, rule.matchers[i].1, rule.maxAge).matchers[0] == rule.matchers[i];
    }
  }

  ghost predicate Mentions(rules: seq<Rule>, field: string) {
    exists i, j :: 0 <= i < |rules| && 0 <= j < |rules[i].matchers| && rules[i].matchers[j].0 == field
  }

  /** Two records alike in every field the rules mention, whatever else differs. */
  ghost predicate AlikeFor(rules: seq<Rule>, a: Evidence, b: Evidence) {
    && (Mentions(rules, "repo") ==> a.repo == b.repo)
    && (Mentions(rules, "branch") ==> a.branch == b.branch)
    && (Mentions(rules, "rcs_ref") ==> a.rcsRef == b.rcsRef)
    && (Mentions(rules, "procedure_ref") ==> a.procedureRef == b.procedureRef)
    && (Mentions(rules, "evidence_type") ==> a.evidenceType == b.evidenceType)
    && (Mentions(rules, "source") ==> a.source == b.source)
    && (Mentions(rules, "result") ==> a.result == b.result)
  }

  /** Only the mentioned fields decide: such records meet the same first rule, and so get the same age. */
  lemma AgeReadsMentioned(rules: seq<Rule>, a: Evidence, b: Evidence, i: nat)
    requires AlikeFor(rules, a, b)
    ensures FirstMatch(rules, a, i) <==> FirstMatch(rules, b, i)
  {
    forall j | 0 <= j < |rules| ensures Matches(a, rules[j]) <==> Matches(b, rules[j]) {
      forall k | 0 <= k < |rules[j].matchers|
        ensures FieldValue(a, rules[j].matchers[k].0) == FieldValue(b, rules[j].matchers[k].0)
      {
        assert Mentions(rules, rules[j].matchers[k].0);
      }
    }
  }

  // ---- inheritance keys ----

  /** The joined keys of all declarations. */
  function SourceKeys(declared: seq<SourceRef>): set<string> {
    set i | 0 <= i < |declared| :: RefKey(declared[i].repo, declared[i].ref)
  }

  method AllSourceRefs(declared: seq<SourceRef>) returns (refs: set<string>)
    ensures refs == SourceKeys(declared)
  {
    refs := {};
    for i := 0 to |declared|
      invariant refs == set j | 0 <= j < i :: RefKey(declared[j].repo, declared[j].ref)
    {
      refs := refs + {RefKey(declared[i].repo, declared[i].ref)};
    }
  }

  predicate NulFree(s: string) { '\0' !in s }

  /** The joined key tells pairs apart when repository names hold no NUL, which the database's text type rules out. */
  lemma RefKeyExact(repo: string, ref: string, other: string, otherRef: string)
    requires NulFree(repo) && NulFree(other)
    ensures RefKey(repo, ref) == RefKey(other, otherRef) <==> repo == other && ref == otherRef
  {
    var a, b := RefKey(repo, ref), RefKey(other, otherRef);
    assert a[|repo|] == '\0' && b[|other|] == '\0';
    assert forall k :: 0 <= k < |repo| ==> a[k] == repo[k];
    assert forall k :: 0 <= k < |other| ==> b[k] == other[k];
    if a == b {
      assert |repo| == |other|;
      assert repo == a[..|repo|] && other == b[..|other|];
      assert ref == a[|repo| + 1..] && otherRef == b[|other| + 1..];
    }
  }

  /** A key stands for one pair exactly if neither of its parts holds a NUL. */
  lemma RefKeyDecides(repo: string, ref: string)
    ensures (forall other, otherRef :: RefKey(other, otherRef) == RefKey(repo, ref) ==>
               other == repo && otherRef == ref) <==>
            NulFree(repo) && NulFree(ref)
  {
    if NulFree(repo) && NulFree(ref) {
      forall other, otherRef | RefKey(other, otherRef) == RefKey(repo, ref) ensures other == repo && otherRef == ref {
        OneNul(repo, ref, other, otherRef);
        RefKeyExact(repo, ref, other, otherRef);
      }
    } else if !NulFree(repo) {
      var k :| 0 <= k < |repo| && repo[k] == '\0';
      var other, otherRef := repo[..k], repo[k + 1..] + "\0" + ref;
      assert repo == repo[..k] + "\0" + repo[k + 1..];
      assert RefKey(other, otherRef) == RefKey(repo, ref) && other != repo;
    } else {
      var k :| 0 <= k < |ref| && ref[k] == '\0';
      var other, otherRef := repo + "\0" + ref[..k], ref[k + 1..];
      assert ref == ref[..k] + "\0" + ref[k + 1..];
      assert RefKey(other, otherRef) == RefKey(repo, ref) && other != repo;
    }
  }

  lemma OneNul(repo: string, ref: string, other: string, otherRef: string)
    requires NulFree(repo) && NulFree(ref) && RefKey(other, otherRef) == RefKey(repo, ref)
    ensures NulFree(other)
  {
    var a, b := RefKey(repo, ref), RefKey(other, otherRef);
    assert forall k :: 0 <= k < |a| && k != |repo| ==> a[k] != '\0';
    assert b[|other|] == '\0';
    assert forall k :: 0 <= k < |other| ==> b[k] == other[k];
  }

  /** A record is protected exactly if some declaration names its repository and revision. */
  lemma ProtectionExact(declared: seq<SourceRef>, ev: Evidence)
    requires NulFree(ev.repo) && forall i :: 0 <= i < |declared| ==> NulFree(declared[i].repo)
    ensures RefKey(ev.repo, ev.rcsRef) in SourceKeys(declared) <==> SourceRef(ev.repo, ev.rcsRef) in declared
  {
    hide RefKey;
    forall i | 0 <= i < |declared|
      ensures RefKey(ev.repo, ev.rcsRef) == RefKey(declared[i].repo, declared[i].ref) <==>
              declared[i] == SourceRef(ev.repo, ev.rcsRef)
    {
      RefKeyExact(ev.repo, ev.rcsRef, declared[i].repo, declared[i].ref);
    }
  }

  // ---- the table ----

  type Cursor = Option<(Time, EvidenceId)>

  predicate Before(f: Time, id: EvidenceId, g: Time, other: EvidenceId) {
    f < g || (f == g && id < other)
  }

  predicate Past(c: Cursor, ev: Evidence) {
    c.Some? ==> Before(c.value.0, c.value.1, ev.finished, ev.id)
  }

  /** The table in scan order, with its primary key. */
  predicate Ordered(t: seq<Evidence>) {
    forall i, j :: 0 <= i < j < |t| ==> Before(t[i].finished, t[i].id, t[j].finished, t[j].id) && t[i].id != t[j].id
  }

  /** WHERE (finished_at, id) > cursor. */
  function SelectPast(t: seq<Evidence>, c: Cursor): seq<Evidence> {
    if t == [] then [] else (if Past(c, t[0]) then [t[0]] else []) + SelectPast(t[1..], c)
  }

  /** One page of the keyset query. */
  function Page(t: seq<Evidence>, c: Cursor, size: nat): seq<Evidence> {
    var rows := SelectPast(t, c);
    if |rows| <= size then rows else rows[..size]
  }

  function Without(t: seq<Evidence>, ids: set<EvidenceId>): seq<Evidence> {
    if t == [] then [] else (if t[0].id in ids then [] else [t[0]]) + Without(t[1..], ids)
  }

  /** What a complete pass leaves, in order. */
  function Kept(p: Policy, t: seq<Evidence>): seq<Evidence> {
    if t == [] then [] else (if Doomed(p, t[0]) then [] else [t[0]]) + Kept(p, t[1..])
  }

  lemma {:induction false} SelectAppend(a: seq<Evidence>, b: seq<Evidence>, c: Cursor)
    ensures SelectPast(a + b, c) == SelectPast(a, c) + SelectPast(b, c)
  {
    hide Past;
    if a == [] {
      assert a + b == b;
    } else {
      assert (a + b)[1..] == a[1..] + b && (a + b)[0] == a[0];
      SelectAppend(a[1..], b, c);
      var first := if Past(c, a[0]) then [a[0]] else [];
      assert SelectPast(a + b, c) == first + SelectPast((a + b)[1..], c);
      assert SelectPast(a, c) == first + SelectPast(a[1..], c);
      hide SelectPast;
    }
  }

  lemma {:induction false} SelectNone(a: seq<Evidence>, c: Cursor)
    requires forall i :: 0 <= i < |a| ==> !Past(c, a[i])
    ensures SelectPast(a, c) == []
  {
    if a != [] { SelectNone(a[1..], c); }
  }

  lemma {:induction false} SelectAll(a: seq<Evidence>, c: Cursor)
    requires forall i :: 0 <= i < |a| ==> Past(c, a[i])
    ensures SelectPast(a, c) == a
  {
    if a != [] { SelectAll(a[1..], c); }
  }

  lemma {:induction false} WithoutAppend(a: seq<Evidence>, b: seq<Evidence>, ids: set<EvidenceId>)
    ensures Without(a + b, ids) == Without(a, ids) + Without(b, ids)
  {
    if a == [] { assert a + b == b; } else {
      assert (a + b)[1..] == a[1..] + b;
      WithoutAppend(a[1..], b, ids);
    }
  }

  lemma {:induction false} WithoutNone(a: seq<Evidence>, ids: set<EvidenceId>)
    requires forall i :: 0 <= i < |a| ==> a[i].id !in ids
    ensures Without(a, ids) == a
  {
    if a != [] { WithoutNone(a[1..], ids); }
  }

  lemma {:induction false} KeptAppend(p: Policy, a: seq<Evidence>, b: seq<Evidence>)
    ensures Kept(p, a + b) == Kept(p, a) + Kept(p, b)
  {
    hide Doomed;
    if a == [] { assert a + b == b; } else {
      assert (a + b)[1..] == a[1..] + b;
      KeptAppend(p, a[1..], b);
    }
  }

  /** The survivors are exactly the records that are not doomed. */
  lemma {:induction false} KeptIff(p: Policy, t: seq<Evidence>, ev: Evidence)
    ensures ev in Kept(p, t) <==> ev in t && !Doomed(p, ev)
  {
    hide Doomed;
    if t != [] {
      KeptIff(p, t[1..], ev);
      assert ev in t <==> ev == t[0] || ev in t[1..];
    }
  }

  /** Which records survive a pass, in terms of the declarations: those pinned, those a declaration names, and those
      whose first matching rule, if any, keeps them forever or longer. */
  lemma SurvivorsExact(rules: seq<Rule>, declared: seq<SourceRef>, now: Time, t: seq<Evidence>, ev: Evidence)
    requires NulFree(ev.repo) && forall i :: 0 <= i < |declared| ==> NulFree(declared[i].repo)
    ensures ev in Kept(Policy(rules, SourceKeys(declared), now), t) <==>
            ev in t && (ev.retain || SourceRef(ev.repo, ev.rcsRef) in declared || !Expired(rules, now, ev))
  {
    KeptIff(Policy(rules, SourceKeys(declared), now), t, ev);
    ProtectionExact(declared, ev);
    hide Kept, Expired, RefKey, SourceKeys;
  }

  lemma {:induction false} DoomedRemoved(p: Policy, t: seq<Evidence>, ids: set<EvidenceId>)
    requires forall i :: 0 <= i < |t| ==> (t[i].id in ids <==> Doomed(p, t[i]))
    ensures Without(t, ids) == Kept(p, t)
  {
    hide Doomed;
    if t != [] { DoomedRemoved(p, t[1..], ids); }
  }

  /** The table after the first n records of `t` have been dealt with. */
  function Partly(p: Policy, t: seq<Evidence>, n: nat): seq<Evidence>
    requires n <= |t|
  {
    Kept(p, t[..n]) + t[n..]
  }

  function CursorAt(t: seq<Evidence>, n: nat): Cursor
    requires n <= |t|
  {
    if n == 0 then None else Some((t[n - 1].finished, t[n - 1].id))
  }

  /** Deletions behind the cursor do not move it: the next page starts at the first unvisited record. */
  lemma NextPage(p: Policy, t: seq<Evidence>, n: nat)
    requires Ordered(t) && n <= |t|
    ensures SelectPast(Partly(p, t, n), CursorAt(t, n)) == t[n..]
  {
    var c := CursorAt(t, n);
    hide Doomed;
    forall i | 0 <= i < |Kept(p, t[..n])| ensures !Past(c, Kept(p, t[..n])[i]) {
      var ev := Kept(p, t[..n])[i];
      KeptIff(p, t[..n], ev);
      var k :| 0 <= k < n && t[..n][k] == ev;
      assert k < n - 1 ==> Before(t[k].finished, t[k].id, t[n - 1].finished, t[n - 1].id);
    }
    SelectNone(Kept(p, t[..n]), c);
    SelectAll(t[n..], c);
    SelectAppend(Kept(p, t[..n]), t[n..], c);
  }

  /** The ids a page's visit collects. */
  function DoomedIn(p: Policy, page: seq<Evidence>): set<EvidenceId> {
    set i | 0 <= i < |page| && Doomed(p, page[i]) :: page[i].id
  }

  lemma DoomedInExact(p: Policy, t: seq<Evidence>, n: nat, m: nat, k: nat)
    requires Ordered(t) && n <= m <= |t| && k < |t|
    ensures t[k].id in DoomedIn(p, t[n..m]) <==> n <= k < m && Doomed(p, t[k])
  {
    hide Doomed;
    if n <= k < m && Doomed(p, t[k]) { assert t[n..m][k - n] == t[k]; }
    if t[k].id in DoomedIn(p, t[n..m]) {
      var i :| 0 <= i < m - n && Doomed(p, t[n..m][i]) && t[n..m][i].id == t[k].id;
      assert t[n + i].id == t[k].id;
    }
  }

  lemma VisitedUntouched(p: Policy, t: seq<Evidence>, n: nat, ids: set<EvidenceId>)
    requires n <= |t| && forall k :: 0 <= k < n ==> t[k].id !in ids
    ensures Without(Kept(p, t[..n]), ids) == Kept(p, t[..n])
  {
    hide Doomed;
    var a := Kept(p, t[..n]);
    forall i | 0 <= i < |a| ensures a[i].id !in ids {
      KeptIff(p, t[..n], a[i]);
      var k :| 0 <= k < n && t[..n][k] == a[i];
    }
    WithoutNone(a, ids);
  }

  lemma PageKept(p: Policy, t: seq<Evidence>, n: nat, m: nat, ids: set<EvidenceId>)
    requires n <= m <= |t| && forall k :: n <= k < m ==> (t[k].id in ids <==> Doomed(p, t[k]))
    ensures Without(t[n..m], ids) == Kept(p, t[n..m])
  {
    hide Doomed;
    var b := t[n..m];
    assert forall i :: 0 <= i < |b| ==> b[i] == t[n + i];
    DoomedRemoved(p, b, ids);
  }

  lemma RestUntouched(t: seq<Evidence>, m: nat, ids: set<EvidenceId>)
    requires m <= |t| && forall k :: m <= k < |t| ==> t[k].id !in ids
    ensures Without(t[m..], ids) == t[m..]
  {
    var c := t[m..];
    assert forall i :: 0 <= i < |c| ==> c[i] == t[m + i];
    WithoutNone(c, ids);
  }

  lemma JoinPages(p: Policy, t: seq<Evidence>, n: nat, m: nat, ids: set<EvidenceId>)
    requires n <= m <= |t|
    requires Without(Kept(p, t[..n]), ids) == Kept(p, t[..n])
    requires Without(t[n..m], ids) == Kept(p, t[n..m]) && Without(t[m..], ids) == t[m..]
    ensures Without(Partly(p, t, n), ids) == Partly(p, t, m)
  {
    hide Kept, Without;
    var a, b, c := Kept(p, t[..n]), t[n..m], t[m..];
    assert t[n..] == b + c && t[..m] == t[..n] + b;
    WithoutAppend(b, c, ids);
    WithoutAppend(a, b + c, ids);
    KeptAppend(p, t[..n], b);
    assert (a + Kept(p, b)) + c == a + (Kept(p, b) + c);
  }

  /** Deleting a page's doomed records leaves the rest of the table as it is. */
  lemma PageDeleted(p: Policy, t: seq<Evidence>, n: nat, m: nat)
    requires Ordered(t) && n <= m <= |t|
    ensures Without(Partly(p, t, n), DoomedIn(p, t[n..m])) == Partly(p, t, m)
  {
    hide *;
    var ids := DoomedIn(p, t[n..m]);
    forall k | 0 <= k < |t| ensures t[k].id in ids <==> n <= k < m && Doomed(p, t[k]) { DoomedInExact(p, t, n, m, k); }
    VisitedUntouched(p, t, n, ids);
    PageKept(p, t, n, m, ids);
    RestUntouched(t, m, ids);
    JoinPages(p, t, n, m, ids);
  }

  lemma {:induction false} WithoutShorter(t: seq<Evidence>, ids: set<EvidenceId>)
    ensures |Without(t, ids)| <= |t|
  {
    if t != [] { WithoutShorter(t[1..], ids); }
  }
}

/** The worker and the table it scans and deletes from. */
module RetentionWorkerObject {
  import opened Base
  import opened Retention

  class RetentionWorker {
    var table: seq<Evidence>
    var totalDeleted: nat

    constructor (t: seq<Evidence>)
      ensures table == t && totalDeleted == 0
    {
      table, totalDeleted := t, 0;
    }

    method DeleteBatch(ids: set<EvidenceId>) returns (rows: nat)
      modifies this`table
      ensures table == Without(old(table), ids) && rows + |table| == |old(table)|
    {
      WithoutShorter(table, ids);
      var left := Without(table, ids);
      rows := |table| - |left|;
      table := left;
    }

    /** The callback of RunOnce: decide each record of a page, then delete the doomed ones. */
    method VisitPage(p: Policy, batch: seq<Evidence>)
      modifies this
      ensures table == Without(old(table), DoomedIn(p, batch))
      ensures totalDeleted + |table| == old(totalDeleted) + |old(table)|
    {
      var toDelete: set<EvidenceId> := {};
      for i := 0 to |batch|
        invariant toDelete == set j | 0 <= j < i && Doomed(p, batch[j]) :: batch[j].id
        invariant table == old(table) && totalDeleted == old(totalDeleted)
      {
        var ev := batch[i];
        if ev.retain { continue; }
        if RefKey(ev.repo, ev.rcsRef) in p.inherited { continue; }
        var age := MaxAge(p.rules, ev);
        MaxAgeDecides(p, ev, age);
        hide Doomed;
        if age < 0 { continue; }
        if age == 0 { continue; }
        if p.now - ev.finished >= age { toDelete := toDelete + {ev.id}; }
      }
      if toDelete != {} {
        var deleted := DeleteBatch(toDelete);
        totalDeleted := totalDeleted + deleted;
      } else {
        WithoutNone(table, toDelete);
      }
    }

    /** One pass: every record of the table as it was is visited once, in order, and exactly the doomed ones go. */
    method RunOnce(rules: seq<Rule>, declared: seq<SourceRef>, now: Time, batchSize: nat)
      returns (ghost visited: seq<Evidence>)
      requires batchSize > 0 && Ordered(table) && totalDeleted == 0
      modifies this
      ensures table == Kept(Policy(rules, SourceKeys(declared), now), old(table)) && visited == old(table)
      ensures totalDeleted + |table| == |old(table)|
    {
      var inherited := AllSourceRefs(declared);
      visited := ScanAll(Policy(rules, inherited, now), batchSize);
    }

    /** The keyset scan, with the pass's callback on every page. */
    method ScanAll(p: Policy, batchSize: nat) returns (ghost visited: seq<Evidence>)
      requires batchSize > 0 && Ordered(table) && totalDeleted == 0
      modifies this
      ensures table == Kept(p, old(table)) && visited == old(table)
      ensures totalDeleted + |table| == |old(table)|
    {
      hide Ordered, Kept, SelectPast, Without, DoomedIn, Partly;
      ghost var t, n := table, 0;
      var last: Cursor := None;
      visited := [];
      PassEnds(p, t);
      while true
        invariant n <= |t| && last == CursorAt(t, n) && table == Partly(p, t, n) && visited == t[..n]
        invariant totalDeleted + |table| == |t|
        decreases |t| - n
      {
        NextPage(p, t, n);
        var batch := Page(table, last, batchSize);
        ghost var m := n + |batch|;
        assert batch == t[n..m];
        if |batch| == 0 { break; }
        PageDeleted(p, t, n, m);
        VisitPage(p, batch);
        visited := visited + batch;
        var final := batch[|batch| - 1];
        assert final == t[m - 1];
        last := Some((final.finished, final.id));
        n := m;
        if |batch| < batchSize { break; }
      }
      assert n == |t| && t[..n] == t;
    }
  }

  lemma PassEnds(p: Policy, t: seq<Evidence>)
    ensures Partly(p, t, 0) == t && Partly(p, t, |t|) == Kept(p, t)
  {
    assert t[..0] == [] && t[0..] == t && t[..|t|] == t && t[|t|..] == [];
    assert Kept(p, []) == [];
  }

  lemma MaxAgeDecides(p: Policy, ev: Evidence, age: int)
    requires !ev.retain && RefKey(ev.repo, ev.rcsRef) !in p.inherited
    requires (exists i :: 0 <= i < |p.rules| && FirstMatch(p.rules, ev, i) && age == p.rules[i].maxAge) ||
             (age == -1 && forall i :: 0 <= i < |p.rules| ==> !Matches(ev, p.rules[i]))
    ensures Doomed(p, ev) <==> age > 0 && p.now - ev.finished >= age
  {
    hide Matches;
    if i :| 0 <= i < |p.rules| && FirstMatch(p.rules, ev, i) && age == p.rules[i].maxAge {
      forall j | 0 <= j < |p.rules| && FirstMatch(p.rules, ev, j)
        ensures i == j
      {
        FirstMatchUnique(p.rules, ev, i, j);
      }
    }
  }
}
