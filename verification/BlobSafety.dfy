/**
 * Objects and the rows that refer to them. Imports, saves, finalizations and closes hold the
 * sweep lock shared from before they look at an object until they commit; a sweep batch holds it
 * exclusively from its reachability query to its last deletion. Uploads, plain evidence inserts,
 * attempt creation and retention take no lock and interleave with everything.
 */
module BlobSafety {
  import opened Base

  type Digest = nat
  type EvidenceId = nat
  type TxnId = nat

  datatype Package = Package(digest: Digest, assets: set<Digest>)

  // `metadata` is the saved form's references, if the form was saved; `defaults`
  // and `assets` are the scenario's.
  datatype Attempt = Attempt(
    package: PackageId, metadata: Option<set<Digest>>, defaults: set<Digest>, assets: set<Digest>, sealed: bool)

  // `held` is the part of a record's references that came from draft rows and scenario assets.
  datatype Record = Record(refs: set<Digest>, held: set<Digest>)

  // Transactions that own the lock shared. `todo` is what an import has yet to put, a save yet to stat.
  datatype Txn =
    | Import(package: Package, todo: set<Digest>)
    | Save(id: AttemptId, metadata: Option<set<Digest>>, todo: set<Digest>)
    | Dispose(ids: set<AttemptId>, created: map<AttemptId, Attempt>)

  datatype Sweep = Sweep(batch: set<Digest>, referenced: set<Digest>)

  datatype Sys = Sys(
    store: map<Digest, Time>,
    packages: map<PackageId, Package>,
    campaignRefs: set<(PackageId, Digest)>,
    attempts: map<AttemptId, Attempt>,
    draftRefs: set<(AttemptId, Digest)>,
    evidence: map<EvidenceId, Record>,
    txns: map<TxnId, Txn>,
    sweep: Option<Sweep>)

  datatype Action =
    | Begin(t: TxnId, txn: Txn)
    | Put(t: TxnId, d: Digest, now: Time)
    | Stat(t: TxnId, d: Digest)
    | CommitImport(t: TxnId, id: PackageId)
    | CommitSave(t: TxnId)
    | CommitDispose(t: TxnId, records: map<EvidenceId, AttemptId>)
    | Abort(t: TxnId)
    | Upload(d: Digest, now: Time)
    | CreateAttempt(id: AttemptId, row: Attempt)
    | InsertEvidence(e: EvidenceId, refs: set<Digest>)
    | DeleteEvidence(e: EvidenceId)
    | SweepBegin(batch: set<Digest>)
    | SweepDelete(d: Digest)
    | SweepEnd

  // ---- what the steps compute ----

  /** CAS Put: an object already there keeps its age. */
  function Stored(store: map<Digest, Time>, d: Digest, now: Time): map<Digest, Time> {
    if d in store then store else store[d := now]
  }

  function Names(metadata: Option<set<Digest>>): set<Digest> {
    if metadata.Some? then metadata.value else {}
  }

  /** What the evidence's metadata names: the saved form if there is one, else the scenario's defaults. */
  function EvidenceNames(a: Attempt): set<Digest> {
    if a.metadata.Some? then a.metadata.value else a.defaults
  }

  function DraftRows(refs: set<(AttemptId, Digest)>, id: AttemptId): set<Digest> {
    set r | r in refs && r.0 == id :: r.1
  }

  function Without(refs: set<(AttemptId, Digest)>, ids: set<AttemptId>): set<(AttemptId, Digest)> {
    set r | r in refs && r.0 !in ids
  }

  function CampaignRows(id: PackageId, p: Package): set<(PackageId, Digest)> {
    {(id, p.digest)} + set d | d in p.assets :: (id, d)
  }

  /** Some row names the object: a campaign's, a draft's, or a record by any of its references. */
  ghost predicate Named(s: Sys, d: Digest) {
    || (exists p :: (p, d) in s.campaignRefs)
    || (exists a :: (a, d) in s.draftRefs)
    || (exists e :: e in s.evidence && d in s.evidence[e].refs)
  }

  /** The reachability query: the union of three selections from the committed references. */
  function Query(s: Sys, digests: set<Digest>): set<Digest> {
    (set e, d | e in s.evidence && d in s.evidence[e].refs && d in digests :: d) +
    (set r | r in s.campaignRefs && r.1 in digests :: r.1) +
    (set r | r in s.draftRefs && r.1 in digests :: r.1)
  }

  /** It finds exactly the named ones among the objects it is asked about. */
  lemma QueryExact(s: Sys, digests: set<Digest>, d: Digest)
    ensures d in Query(s, digests) <==> d in digests && Named(s, d)
  {
    var campaigns := set r | r in s.campaignRefs && r.1 in digests :: r.1;
    var drafts := set r | r in s.draftRefs && r.1 in digests :: r.1;
    if d in campaigns { var r :| r in s.campaignRefs && r.1 == d; assert (r.0, d) in s.campaignRefs; }
    if d in drafts { var r :| r in s.draftRefs && r.1 == d; assert (r.0, d) in s.draftRefs; }
    if p :| (p, d) in s.campaignRefs && d in digests { assert (p, d).1 in campaigns; }
    if a :| (a, d) in s.draftRefs && d in digests { assert (a, d).1 in drafts; }
  }

  predicate Touches(txn: Txn, id: AttemptId) {
    match txn
    case Import(_, _) => false
    case Save(a, _, _) => a == id
    case Dispose(ids, created) => id in ids || id in created
  }

  /** The row lock: no transaction is at work on the attempt. */
  predicate Free(s: Sys, id: AttemptId) {
    forall t :: t in s.txns ==> !Touches(s.txns[t], id)
  }

  predicate Open(s: Sys, id: AttemptId) {
    id in s.attempts && !s.attempts[id].sealed
  }

  predicate GoodRow(s: Sys, a: Attempt) {
    !a.sealed && a.package in s.packages && a.assets <= s.packages[a.package].assets
  }

  predicate Fresh(s: Sys, txn: Txn) {
    match txn
    case Import(p, todo) => todo == {p.digest} + p.assets
    case Save(id, metadata, todo) => Open(s, id) && Free(s, id) && todo == Names(metadata)
    case Dispose(ids, created) =>
      && (forall id :: id in ids ==> Open(s, id) && Free(s, id))
      && (forall id :: id in created ==> id !in s.attempts && Free(s, id) && GoodRow(s, created[id]))
  }

  predicate Enabled(s: Sys, a: Action) {
    match a
    case Begin(t, txn) => t !in s.txns && s.sweep.None? && Fresh(s, txn)
    case Put(t, d, _) => t in s.txns && s.txns[t].Import? && d in s.txns[t].todo
    case Stat(t, d) => t in s.txns && s.txns[t].Save? && d in s.txns[t].todo && d in s.store
    case CommitImport(t, id) =>
      // an equivalent package already stored has the same assets
      t in s.txns && s.txns[t].Import? && s.txns[t].todo == {} &&
      (id in s.packages ==> s.packages[id].assets == s.txns[t].package.assets)
    case CommitSave(t) => t in s.txns && s.txns[t].Save? && s.txns[t].todo == {} && s.txns[t].id in s.attempts
    case CommitDispose(t, records) =>
      t in s.txns && s.txns[t].Dispose? && Ready(s, s.txns[t]) && records.Keys !! s.evidence.Keys &&
      records.Values == s.txns[t].ids + s.txns[t].created.Keys
    case Abort(t) => t in s.txns
    case Upload(_, _) => true
    case CreateAttempt(id, row) => id !in s.attempts && Free(s, id) && GoodRow(s, row)
    case InsertEvidence(e, _) => e !in s.evidence
    case DeleteEvidence(e) => e in s.evidence
    case SweepBegin(_) => s.sweep.None? && s.txns == map[]
    case SweepDelete(d) => s.sweep.Some? && d in s.sweep.value.batch && d !in s.sweep.value.referenced
    case SweepEnd => s.sweep.Some?
  }

  /** The record finalization files for an attempt whose draft rows are `rows`. */
  function RecordOf(a: Attempt, rows: set<Digest>): Record {
    Record(EvidenceNames(a) + a.assets, rows + a.assets)
  }

  /** One object put or found. */
  function Ticked(txn: Txn, d: Digest): Txn {
    match txn
    case Import(p, todo) => Import(p, todo - {d})
    case Save(id, metadata, todo) => Save(id, metadata, todo - {d})
    case Dispose(_, _) => txn
  }

  function Row(s: Sys, txn: Txn, id: AttemptId): Attempt
    requires txn.Dispose? && (id in txn.created || id in s.attempts)
  {
    if id in txn.created then txn.created[id] else s.attempts[id]
  }

  predicate Ready(s: Sys, txn: Txn) {
    txn.Dispose? ==> forall id :: id in txn.ids ==> id in s.attempts
  }

  function Filed(s: Sys, txn: Txn, records: map<EvidenceId, AttemptId>): map<EvidenceId, Record>
    requires txn.Dispose? && Ready(s, txn) && records.Values == txn.ids + txn.created.Keys
  {
    map e | e in records ::
      (assert records[e] in records.Values; RecordOf(Row(s, txn, records[e]), DraftRows(s.draftRefs, records[e])))
  }

  function Sealed(s: Sys, txn: Txn): map<AttemptId, Attempt>
    requires txn.Dispose? && Ready(s, txn)
  {
    map id | id in txn.ids + txn.created.Keys :: Row(s, txn, id).(sealed := true)
  }

  function CommitImported(s: Sys, t: TxnId, id: PackageId): Sys
    requires t in s.txns && s.txns[t].Import?
  {
    var p := if id in s.packages then s.packages[id] else s.txns[t].package;
    s.(packages := s.packages[id := p], campaignRefs := s.campaignRefs + CampaignRows(id, p), txns := s.txns - {t})
  }

  function CommitSaved(s: Sys, t: TxnId): Sys
    requires t in s.txns && s.txns[t].Save? && s.txns[t].id in s.attempts
  {
    var id, metadata := s.txns[t].id, s.txns[t].metadata;
    s.(attempts := s.attempts[id := s.attempts[id].(metadata := metadata)],
       draftRefs := Without(s.draftRefs, {id}) + (set d | d in Names(metadata) :: (id, d)),
       txns := s.txns - {t})
  }

  function CommitDisposed(s: Sys, t: TxnId, records: map<EvidenceId, AttemptId>): Sys
    requires t in s.txns && s.txns[t].Dispose? && Ready(s, s.txns[t])
    requires records.Values == s.txns[t].ids + s.txns[t].created.Keys
  {
    var txn := s.txns[t];
    s.(attempts := s.attempts + Sealed(s, txn),
       draftRefs := Without(s.draftRefs, records.Values),
       evidence := s.evidence + Filed(s, txn, records),
       txns := s.txns - {t})
  }

  function Next(s: Sys, a: Action): Sys
    requires Enabled(s, a)
  {
    match a
    case Begin(t, txn) => s.(txns := s.txns[t := txn])
    case Put(t, d, now) => s.(store := Stored(s.store, d, now), txns := s.txns[t := Ticked(s.txns[t], d)])
    case Stat(t, d) => s.(txns := s.txns[t := Ticked(s.txns[t], d)])
    case CommitImport(t, id) => CommitImported(s, t, id)
    case CommitSave(t) => CommitSaved(s, t)
    case CommitDispose(t, records) => CommitDisposed(s, t, records)
    case Abort(t) => s.(txns := s.txns - {t})
    case Upload(d, now) => s.(store := Stored(s.store, d, now))
    case CreateAttempt(id, row) => s.(attempts := s.attempts[id := row])
    case InsertEvidence(e, refs) => s.(evidence := s.evidence[e := Record(refs, {})])
    case DeleteEvidence(e) => s.(evidence := s.evidence - {e})
    case SweepBegin(batch) => s.(sweep := Some(Sweep(batch, Query(s, batch))))
    case SweepDelete(d) => s.(store := s.store - {d})
    case SweepEnd => s.(sweep := None)
  }

  // ---- the invariant ----

  /** Every object a campaign or draft row, or the held part of a record, names is stored. */
  predicate RootsStored(s: Sys) {
    && (forall r :: r in s.campaignRefs ==> r.1 in s.store)
    && (forall r :: r in s.draftRefs ==> r.1 in s.store)
    && (forall e :: e in s.evidence ==> s.evidence[e].held <= s.store.Keys)
  }

  predicate HeldIsReferenced(s: Sys) {
    forall e :: e in s.evidence ==> s.evidence[e].held <= s.evidence[e].refs
  }

  /** Draft rows belong to open attempts and name what the saved form names. */
  predicate DraftsAgree(s: Sys) {
    forall r :: r in s.draftRefs ==> Open(s, r.0) && r.1 in Names(s.attempts[r.0].metadata)
  }

  predicate PackagesRooted(s: Sys) {
    forall p :: p in s.packages ==> CampaignRows(p, s.packages[p]) <= s.campaignRefs
  }

  predicate AttemptsKnown(s: Sys) {
    forall a :: a in s.attempts ==>
      s.attempts[a].package in s.packages && s.attempts[a].assets <= s.packages[s.attempts[a].package].assets
  }

  predicate GoodTxn(s: Sys, txn: Txn) {
    match txn
    case Import(p, todo) => {p.digest} + p.assets - todo <= s.store.Keys
    case Save(id, metadata, todo) => Open(s, id) && Names(metadata) - todo <= s.store.Keys
    case Dispose(ids, created) =>
      && (forall id :: id in ids ==> Open(s, id))
      && (forall id :: id in created ==> id !in s.attempts && GoodRow(s, created[id]))
  }

  predicate TxnsGood(s: Sys) {
    forall t :: t in s.txns ==> GoodTxn(s, s.txns[t])
  }

  ghost predicate RowsLocked(s: Sys) {
    forall t, u, id :: t in s.txns && u in s.txns && Touches(s.txns[t], id) && Touches(s.txns[u], id) ==> t == u
  }

  /** While a sweep holds the lock no transaction does, and no object it may delete is a root. */
  predicate SweepHarmless(s: Sys) {
    s.sweep.Some? ==>
      && s.txns == map[]
      && forall d :: d in s.sweep.value.batch - s.sweep.value.referenced ==> Unrooted(s, d)
  }

  predicate Unrooted(s: Sys, d: Digest) {
    && (forall r :: r in s.campaignRefs ==> r.1 != d)
    && (forall r :: r in s.draftRefs ==> r.1 != d)
    && (forall e :: e in s.evidence ==> d !in s.evidence[e].held)
  }

  ghost predicate Inv(s: Sys) {
    && RootsStored(s) && HeldIsReferenced(s) && DraftsAgree(s) && PackagesRooted(s)
    && AttemptsKnown(s) && TxnsGood(s) && RowsLocked(s) && SweepHarmless(s)
  }

  // ---- each step keeps it ----

  lemma BeginKeeps(s: Sys, t: TxnId, txn: Txn)
    requires Inv(s) && Enabled(s, Begin(t, txn))
    ensures Inv(Next(s, Begin(t, txn)))
  {
    var n := Next(s, Begin(t, txn));
    assert TxnsGood(n) by {
      forall u | u in n.txns ensures GoodTxn(n, n.txns[u]) {
        if u != t { assert GoodTxn(s, s.txns[u]); }
      }
    }
    hide GoodTxn;
    assert RootsStored(n) && HeldIsReferenced(n) && DraftsAgree(n) && PackagesRooted(n) && AttemptsKnown(n);
    hide RootsStored, HeldIsReferenced, DraftsAgree, PackagesRooted, AttemptsKnown, TxnsGood;
    assert SweepHarmless(n);
    hide SweepHarmless;
    assert RowsLocked(n);
  }

  lemma PutKeeps(s: Sys, t: TxnId, d: Digest, now: Time)
    requires Inv(s) && Enabled(s, Put(t, d, now))
    ensures Inv(Next(s, Put(t, d, now)))
  {
    var n := Next(s, Put(t, d, now));
    forall u | u in n.txns ensures GoodTxn(n, n.txns[u]) {
      assert GoodTxn(s, s.txns[u]);
    }
  }

  lemma StatKeeps(s: Sys, t: TxnId, d: Digest)
    requires Inv(s) && Enabled(s, Stat(t, d))
    ensures Inv(Next(s, Stat(t, d)))
  {
    var n := Next(s, Stat(t, d));
    forall u | u in n.txns ensures GoodTxn(n, n.txns[u]) {
      assert GoodTxn(s, s.txns[u]);
    }
  }

  lemma CommitImportKeeps(s: Sys, t: TxnId, id: PackageId)
    requires Inv(s) && Enabled(s, CommitImport(t, id))
    ensures Inv(Next(s, CommitImport(t, id)))
  {
    var n := Next(s, CommitImport(t, id));
    assert GoodTxn(s, s.txns[t]);
    var p := n.packages[id];
    forall r | r in CampaignRows(id, p) ensures r.1 in s.store {
      if id in s.packages { assert r in s.campaignRefs; }
    }
    assert forall q :: q in s.packages ==> n.packages[q] == s.packages[q];
    forall u | u in n.txns ensures GoodTxn(n, n.txns[u]) {
      assert GoodTxn(s, s.txns[u]);
    }
  }

  lemma CommitSaveKeeps(s: Sys, t: TxnId)
    requires Inv(s) && Enabled(s, CommitSave(t))
    ensures Inv(Next(s, CommitSave(t)))
  {
    var n := Next(s, CommitSave(t));
    assert GoodTxn(s, s.txns[t]);
    forall u | u in n.txns ensures GoodTxn(n, n.txns[u]) {
      assert GoodTxn(s, s.txns[u]);
    }
  }

  lemma DisposedRecord(s: Sys, t: TxnId, records: map<EvidenceId, AttemptId>, e: EvidenceId)
    requires Inv(s) && Enabled(s, CommitDispose(t, records)) && e in records
    ensures var id, r := records[e], Filed(s, s.txns[t], records)[e];
            DraftRows(s.draftRefs, id) <= r.held <= r.refs &&
            r.held <= s.store.Keys && Row(s, s.txns[t], id).assets <= r.held
  {
    var txn := s.txns[t];
    assert GoodTxn(s, txn);
    assert records[e] in records.Values;
    var id, row := records[e], Row(s, txn, records[e]);
    assert CampaignRows(row.package, s.packages[row.package]) <= s.campaignRefs;
    forall d | d in row.assets ensures d in s.store {
      assert (row.package, d) in CampaignRows(row.package, s.packages[row.package]);
    }
    forall d | d in DraftRows(s.draftRefs, id) ensures d in s.store && d in EvidenceNames(row) {
      assert (id, d) in s.draftRefs;
      assert Open(s, id);
    }
  }

  lemma DisposeTxns(s: Sys, t: TxnId, records: map<EvidenceId, AttemptId>)
    requires Inv(s) && Enabled(s, CommitDispose(t, records))
    ensures TxnsGood(Next(s, CommitDispose(t, records))) && RowsLocked(Next(s, CommitDispose(t, records)))
  {
    hide RootsStored, HeldIsReferenced, DraftsAgree, PackagesRooted, AttemptsKnown, SweepHarmless, Filed, Without;
    hide Sealed;
    var n := Next(s, CommitDispose(t, records));
    forall u | u in n.txns ensures GoodTxn(n, n.txns[u]) {
      assert GoodTxn(s, s.txns[u]);
      OthersUntouched(s, t, u);
      StaysGood(s, t, n, s.txns[u]);
      hide GoodTxn;
    }
    hide GoodTxn;
  }

  /** A transaction on other rows is as good after a disposal as before. */
  lemma StaysGood(s: Sys, t: TxnId, n: Sys, other: Txn)
    requires t in s.txns && s.txns[t].Dispose? && Ready(s, s.txns[t]) && GoodTxn(s, other)
    requires n.store == s.store && n.packages == s.packages && n.attempts == s.attempts + Sealed(s, s.txns[t])
    requires forall id :: id in s.txns[t].ids + s.txns[t].created.Keys ==> !Touches(other, id)
    ensures GoodTxn(n, other)
  {}

  lemma DisposeRows(s: Sys, t: TxnId, records: map<EvidenceId, AttemptId>)
    requires Inv(s) && Enabled(s, CommitDispose(t, records))
    ensures DraftsAgree(Next(s, CommitDispose(t, records))) && AttemptsKnown(Next(s, CommitDispose(t, records)))
  {
    hide RootsStored, HeldIsReferenced, PackagesRooted, RowsLocked, SweepHarmless, Filed;
    assert GoodTxn(s, s.txns[t]);
  }

  lemma DisposeRoots(s: Sys, t: TxnId, records: map<EvidenceId, AttemptId>)
    requires Inv(s) && Enabled(s, CommitDispose(t, records))
    ensures RootsStored(Next(s, CommitDispose(t, records))) && HeldIsReferenced(Next(s, CommitDispose(t, records)))
  {
    var n := Next(s, CommitDispose(t, records));
    forall e | e in n.evidence ensures n.evidence[e].held <= n.evidence[e].refs && n.evidence[e].held <= s.store.Keys {
      if e in records { DisposedRecord(s, t, records, e); }
    }
    hide DraftsAgree, PackagesRooted, AttemptsKnown, TxnsGood, RowsLocked, SweepHarmless, Filed, Sealed;
  }

  lemma CommitDisposeKeeps(s: Sys, t: TxnId, records: map<EvidenceId, AttemptId>)
    requires Inv(s) && Enabled(s, CommitDispose(t, records))
    ensures Inv(Next(s, CommitDispose(t, records)))
  {
    DisposeTxns(s, t, records);
    DisposeRows(s, t, records);
    DisposeRoots(s, t, records);
    hide RootsStored, HeldIsReferenced, DraftsAgree, AttemptsKnown, TxnsGood, RowsLocked, Filed, Without, Sealed;
    hide Unrooted;
  }

  lemma OthersUntouched(s: Sys, t: TxnId, u: TxnId)
    requires RowsLocked(s) && t in s.txns && u in s.txns && t != u && s.txns[t].Dispose?
    ensures forall id :: id in s.txns[t].ids + s.txns[t].created.Keys ==> !Touches(s.txns[u], id)
  {
    assert forall id :: id in s.txns[t].ids + s.txns[t].created.Keys ==> Touches(s.txns[t], id);
  }

  lemma LocklessKeeps(s: Sys, a: Action)
    requires Inv(s) && Enabled(s, a) && (a.Abort? || a.Upload?)
    ensures Inv(Next(s, a))
  {
    var n := Next(s, a);
    forall u | u in n.txns ensures GoodTxn(n, n.txns[u]) {
      assert GoodTxn(s, s.txns[u]);
    }
  }

  lemma CreateAttemptKeeps(s: Sys, id: AttemptId, row: Attempt)
    requires Inv(s) && Enabled(s, CreateAttempt(id, row))
    ensures Inv(Next(s, CreateAttempt(id, row)))
  {
    var n := Next(s, CreateAttempt(id, row));
    forall u | u in n.txns ensures GoodTxn(n, n.txns[u]) {
      assert GoodTxn(s, s.txns[u]) && !Touches(s.txns[u], id);
    }
  }

  lemma EvidenceKeeps(s: Sys, a: Action)
    requires Inv(s) && Enabled(s, a) && (a.InsertEvidence? || a.DeleteEvidence?)
    ensures Inv(Next(s, a))
  {
    var n := Next(s, a);
    assert TxnsGood(n) by {
      forall u | u in n.txns ensures GoodTxn(n, n.txns[u]) {
        assert GoodTxn(s, s.txns[u]);
      }
    }
    hide GoodTxn;
  }

  lemma SweepKeeps(s: Sys, a: Action)
    requires Inv(s) && Enabled(s, a) && (a.SweepBegin? || a.SweepDelete? || a.SweepEnd?)
    ensures Inv(Next(s, a))
  {
    var n := Next(s, a);
    if a.SweepBegin? {
      forall d | d in n.sweep.value.batch - n.sweep.value.referenced ensures Unrooted(n, d) {
        QueryExact(s, a.batch, d);
        assert !Named(s, d);
        assert forall r :: r in s.campaignRefs ==> (r.0, r.1) in s.campaignRefs;
        assert forall r :: r in s.draftRefs ==> (r.0, r.1) in s.draftRefs;
      }
    } else if a.SweepDelete? {
      assert Unrooted(s, a.d);
      forall e | e in n.evidence ensures n.evidence[e].held <= n.store.Keys {
        assert s.evidence[e].held <= s.store.Keys && a.d !in s.evidence[e].held;
      }
    }
  }

  lemma NextKeeps(s: Sys, a: Action)
    requires Inv(s) && Enabled(s, a)
    ensures Inv(Next(s, a))
  {
    hide Next, Inv, Enabled;
    match a
    case Begin(t, txn) => BeginKeeps(s, t, txn);
    case Put(t, d, now) => PutKeeps(s, t, d, now);
    case Stat(t, d) => StatKeeps(s, t, d);
    case CommitImport(t, id) => CommitImportKeeps(s, t, id);
    case CommitSave(t) => CommitSaveKeeps(s, t);
    case CommitDispose(t, records) => CommitDisposeKeeps(s, t, records);
    case Abort(_) => LocklessKeeps(s, a);
    case Upload(_, _) => LocklessKeeps(s, a);
    case CreateAttempt(id, row) => CreateAttemptKeeps(s, id, row);
    case InsertEvidence(_, _) => EvidenceKeeps(s, a);
    case DeleteEvidence(_) => EvidenceKeeps(s, a);
    case SweepBegin(_) => SweepKeeps(s, a);
    case SweepDelete(_) => SweepKeeps(s, a);
    case SweepEnd => SweepKeeps(s, a);
  }

  // ---- whole runs ----

  /** An empty database over any object store. */
  predicate Initial(s: Sys) {
    s.packages == map[] && s.campaignRefs == {} && s.attempts == map[] && s.draftRefs == {} &&
    s.evidence == map[] && s.txns == map[] && s.sweep.None?
  }

  /** One step of any interleaving. */
  predicate Steps(s: Sys, a: Action, n: Sys) {
    Enabled(s, a) && n == Next(s, a)
  }

  predicate Run(states: seq<Sys>, actions: seq<Action>) {
    && |states| == |actions| + 1 && Initial(states[0])
    && forall i :: 0 <= i < |actions| ==> Steps(states[i], actions[i], states[i + 1])
  }

  lemma {:induction false} RunInv(states: seq<Sys>, actions: seq<Action>, i: nat)
    requires Run(states, actions) && i < |states|
    ensures Inv(states[i])
  {
    if i > 0 {
      RunInv(states, actions, i - 1);
      assert Steps(states[i - 1], actions[i - 1], states[i]);
      NextKeeps(states[i - 1], actions[i - 1]);
    }
  }

  /** Blob safety: at every moment of every interleaving, what campaign and draft rows name is in the store. */
  lemma ReferencedObjectsStored(states: seq<Sys>, actions: seq<Action>, i: nat, owner: nat, d: Digest)
    requires Run(states, actions) && i < |states|
    requires (owner, d) in states[i].campaignRefs || (owner, d) in states[i].draftRefs ||
             (owner in states[i].evidence && d in states[i].evidence[owner].held)
    ensures d in states[i].store
  {
    RunInv(states, actions, i);
  }

  predicate FiledFor(s: Sys, n: Sys, txn: Txn, records: map<EvidenceId, AttemptId>, e: EvidenceId)
    requires txn.Dispose? && e in records && (records[e] in txn.created || records[e] in s.attempts)
  {
    && e !in s.evidence && e in n.evidence
    && DraftRows(s.draftRefs, records[e]) + Row(s, txn, records[e]).assets == n.evidence[e].held <= n.evidence[e].refs
    && DraftRows(n.draftRefs, records[e]) == {}
  }

  /**
   * Finalizing or closing moves, in one step of any run, every draft reference of every attempt it disposes of,
   * and the scenario's assets, to that attempt's record; all other rows stay.
   */
  lemma DisposalDropsNothing(states: seq<Sys>, actions: seq<Action>, i: nat)
    requires Run(states, actions) && i < |actions| && actions[i].CommitDispose?
    ensures var s, n, t, records := states[i], states[i + 1], actions[i].t, actions[i].records;
            && Ready(s, s.txns[t])
            && (forall e :: e in records ==> records[e] in records.Values && FiledFor(s, n, s.txns[t], records, e))
            && (forall r :: r in s.draftRefs && r.0 !in records.Values ==> r in n.draftRefs)
            && n.draftRefs <= s.draftRefs && n.campaignRefs == s.campaignRefs && n.store == s.store
  {
    var s, n, t, records := states[i], states[i + 1], actions[i].t, actions[i].records;
    RunInv(states, actions, i);
    assert Steps(s, actions[i], n);
    hide Run, RowsLocked, SweepHarmless, TxnsGood;
    forall e | e in records ensures records[e] in records.Values && FiledFor(s, n, s.txns[t], records, e) {
      assert records[e] in records.Values;
      DisposedRecord(s, t, records, e);
      hide Inv;
      assert n.evidence[e] == Filed(s, s.txns[t], records)[e];
    }
  }

  /** A save that commits leaves exactly the objects its form names as the attempt's draft rows, all of them stored. */
  lemma SaveRefersExactly(states: seq<Sys>, actions: seq<Action>, i: nat)
    requires Run(states, actions) && i < |actions| && actions[i].CommitSave?
    ensures var s, n, t := states[i], states[i + 1], actions[i].t;
            && DraftRows(n.draftRefs, s.txns[t].id) == Names(s.txns[t].metadata) <= n.store.Keys
            && (forall id: nat :: id != s.txns[t].id ==> DraftRows(n.draftRefs, id) == DraftRows(s.draftRefs, id))
  {
    var s, n, t := states[i], states[i + 1], actions[i].t;
    RunInv(states, actions, i);
    assert Steps(s, actions[i], n);
    assert GoodTxn(s, s.txns[t]);
    hide Run, Inv;
    var id := s.txns[t].id;
    forall d | d in Names(s.txns[t].metadata) ensures d in DraftRows(n.draftRefs, id) {
      assert (id, d) in n.draftRefs;
    }
    forall a: nat | a != id ensures DraftRows(n.draftRefs, a) == DraftRows(s.draftRefs, a) {
      assert forall d :: (a, d) in n.draftRefs <==> (a, d) in s.draftRefs;
    }
  }

  // ---- from a sweep's query to its end ----

  /** The sweep that began at step i is still at work at moment j. */
  ghost predicate Sweeping(actions: seq<Action>, i: nat, j: nat) {
    && i < j <= |actions| && actions[i].SweepBegin?
    && forall k :: i < k < j ==> !actions[k].SweepBegin? && !actions[k].SweepEnd?
  }

  lemma {:induction false} SweepFixed(states: seq<Sys>, actions: seq<Action>, i: nat, j: nat)
    requires Run(states, actions) && Sweeping(actions, i, j)
    ensures states[j].sweep == Some(Sweep(actions[i].batch, Query(states[i], actions[i].batch)))
    decreases j
  {
    assert Steps(states[j - 1], actions[j - 1], states[j]);
    if i + 1 < j {
      SweepFixed(states, actions, i, j - 1);
    }
  }

  /** A sweep deletes only objects that no row at all named when it took the lock. */
  lemma SweepTakesOnlyOrphans(states: seq<Sys>, actions: seq<Action>, i: nat, j: nat)
    requires Run(states, actions) && Sweeping(actions, i, j) && j < |actions| && actions[j].SweepDelete?
    ensures actions[j].d in actions[i].batch && !Named(states[i], actions[j].d)
  {
    SweepFixed(states, actions, i, j);
    assert Steps(states[j], actions[j], states[j + 1]);
    QueryExact(states[i], actions[i].batch, actions[j].d);
    hide Named, Query;
  }

  /** What is stored and named by any row when a sweep takes the lock is stored at every moment until it ends,
      even if the row goes meanwhile. */
  lemma {:induction false} NamedSurvives(states: seq<Sys>, actions: seq<Action>, i: nat, j: nat, d: Digest)
    requires Run(states, actions) && Sweeping(actions, i, j) && d in states[i].store && Named(states[i], d)
    ensures d in states[j].store
    decreases j
  {
    hide Named, Query;
    assert Steps(states[j - 1], actions[j - 1], states[j]);
    if i + 1 < j {
      NamedSurvives(states, actions, i, j - 1, d);
      if actions[j - 1].SweepDelete? { SweepTakesOnlyOrphans(states, actions, i, j - 1); }
    }
    OnlySweepsDelete(states[j - 1], actions[j - 1], d);
  }

  /** An object of the batch that no row named may go at any moment of the sweep, and nothing else goes with it. */
  lemma UnnamedMayGo(states: seq<Sys>, actions: seq<Action>, i: nat, j: nat, d: Digest)
    requires Run(states, actions) && Sweeping(actions, i, j) && d in actions[i].batch && !Named(states[i], d)
    ensures Enabled(states[j], SweepDelete(d))
    ensures Next(states[j], SweepDelete(d)) == states[j].(store := states[j].store - {d})
  {
    SweepFixed(states, actions, i, j);
    QueryExact(states[i], actions[i].batch, d);
  }

  /** Nothing but a sweep's deletion takes an object away. */
  lemma OnlySweepsDelete(s: Sys, a: Action, d: Digest)
    requires Enabled(s, a) && d in s.store
    ensures a != SweepDelete(d) ==> d in Next(s, a).store && Next(s, a).store[d] == s.store[d]
  {}

  /** The requests that take no lock: an upload stores its object; a record refers to exactly what it was filed with,
      and goes with all its references; nothing else changes. */
  lemma LocklessWrites(s: Sys, a: Action)
    requires Enabled(s, a)
    ensures var n := Next(s, a);
            match a
            case Upload(d, now) => d in n.store && n == s.(store := n.store) && n.store.Keys == s.store.Keys + {d}
            case InsertEvidence(e, refs) =>
              && n == s.(evidence := n.evidence) && n.evidence.Keys == s.evidence.Keys + {e}
              && (forall k :: k in s.evidence ==> n.evidence[k] == s.evidence[k])
              && n.evidence[e].refs == refs && forall d :: d in refs ==> Named(n, d)
            case DeleteEvidence(e) =>
              && n == s.(evidence := n.evidence) && n.evidence.Keys == s.evidence.Keys - {e}
              && forall k :: k in n.evidence ==> n.evidence[k] == s.evidence[k]
            case CreateAttempt(id, row) =>
              && n == s.(attempts := n.attempts) && n.attempts.Keys == s.attempts.Keys + {id} && n.attempts[id] == row
              && forall k :: k in s.attempts ==> n.attempts[k] == s.attempts[k]
            case _ => true
  {}

  // ---- transactions can be completed ----

  /** The steps can be taken one after the other, and lead there. */
  ghost predicate Leads(s: Sys, acts: seq<Action>, n: Sys)
    decreases |acts|
  {
    if acts == [] then n == s else Enabled(s, acts[0]) && Leads(Next(s, acts[0]), acts[1..], n)
  }

  lemma LeadsOn(s: Sys, a: Action, acts: seq<Action>, n: Sys)
    requires Enabled(s, a) && Leads(Next(s, a), acts, n)
    ensures Leads(s, [a] + acts, n)
  {
    hide Enabled, Next;
    assert ([a] + acts)[1..] == acts;
  }

  predicate SamePackage(s: Sys, id: PackageId, p: Package) {
    id in s.packages ==> s.packages[id].assets == p.assets
  }

  lemma {:induction false} ImportCompletes(s: Sys, t: TxnId, id: PackageId, now: Time)
    returns (acts: seq<Action>, n: Sys)
    requires t in s.txns && s.txns[t].Import? && SamePackage(s, id, s.txns[t].package) && Inv(s)
    ensures Leads(s, acts, n) && Inv(n) && n.txns == s.txns - {t}
    ensures id in n.packages && n.packages[id] == if id in s.packages then s.packages[id] else s.txns[t].package
    decreases |s.txns[t].todo|
  {
    hide Inv;
    if s.txns[t].todo == {} {
      n, acts := Next(s, CommitImport(t, id)), [CommitImport(t, id)];
      CommitImportKeeps(s, t, id);
      assert Leads(n, [], n);
      LeadsOn(s, CommitImport(t, id), [], n);
      assert [CommitImport(t, id)] + [] == acts;
    } else {
      var d :| d in s.txns[t].todo;
      PutKeeps(s, t, d, now);
      var more;
      more, n := ImportCompletes(Next(s, Put(t, d, now)), t, id, now);
      LeadsOn(s, Put(t, d, now), more, n);
      acts := [Put(t, d, now)] + more;
    }
  }

  /** While no sweep holds the lock, an import can be run to its end: its package is there, its objects are stored and
      its rows name them. */
  lemma ImportGoesThrough(s: Sys, t: TxnId, p: Package, id: PackageId, now: Time) returns (acts: seq<Action>, n: Sys)
    requires s.sweep.None? && t !in s.txns && SamePackage(s, id, p) && Inv(s)
    ensures Leads(s, acts, n) && n.txns == s.txns && id in n.packages && n.packages[id].assets == p.assets
    ensures forall d :: d in p.assets || d == n.packages[id].digest ==> (id, d) in n.campaignRefs && d in n.store
  {
    hide Inv;
    var a := Begin(t, Import(p, {p.digest} + p.assets));
    BeginKeeps(s, t, a.txn);
    var more;
    more, n := ImportCompletes(Next(s, a), t, id, now);
    LeadsOn(s, a, more, n);
    acts := [a] + more;
    assert n.txns == s.txns;
    PackageRowsStored(n, id);
  }

  lemma PackageRowsStored(n: Sys, id: PackageId)
    requires Inv(n) && id in n.packages
    ensures forall d :: d in n.packages[id].assets || d == n.packages[id].digest ==>
              (id, d) in n.campaignRefs && d in n.store
  {
    forall d | d in n.packages[id].assets || d == n.packages[id].digest
      ensures (id, d) in n.campaignRefs && d in n.store
    {
      assert (id, d) in CampaignRows(id, n.packages[id]);
    }
  }

  lemma {:induction false} SaveCompletes(s: Sys, t: TxnId) returns (acts: seq<Action>, n: Sys)
    requires t in s.txns && s.txns[t].Save? && s.txns[t].todo <= s.store.Keys && Inv(s)
    ensures Leads(s, acts, n) && n.txns == s.txns - {t}
    ensures DraftRows(n.draftRefs, s.txns[t].id) == Names(s.txns[t].metadata)
    decreases |s.txns[t].todo|
  {
    if s.txns[t].todo == {} {
      assert GoodTxn(s, s.txns[t]);
      hide Inv;
      n, acts := Next(s, CommitSave(t)), [CommitSave(t)];
      forall d | d in Names(s.txns[t].metadata) ensures d in DraftRows(n.draftRefs, s.txns[t].id) {
        assert (s.txns[t].id, d) in n.draftRefs;
      }
      assert Leads(n, [], n);
      LeadsOn(s, CommitSave(t), [], n);
      assert [CommitSave(t)] + [] == acts;
    } else {
      hide Inv;
      var d :| d in s.txns[t].todo;
      StatKeeps(s, t, d);
      var more;
      more, n := SaveCompletes(Next(s, Stat(t, d)), t);
      LeadsOn(s, Stat(t, d), more, n);
      acts := [Stat(t, d)] + more;
    }
  }

  /** While no sweep holds the lock, a save of an open attempt nobody else is at work on can be run to its end if every
      object its form names is stored, and leaves exactly those as the attempt's draft rows. */
  lemma SaveGoesThrough(s: Sys, t: TxnId, id: AttemptId, form: Option<set<Digest>>)
    returns (acts: seq<Action>, n: Sys)
    requires s.sweep.None? && t !in s.txns && Open(s, id) && Free(s, id) && Names(form) <= s.store.Keys && Inv(s)
    ensures Leads(s, acts, n) && n.txns == s.txns && DraftRows(n.draftRefs, id) == Names(form)
  {
    hide Inv;
    var a := Begin(t, Save(id, form, Names(form)));
    BeginKeeps(s, t, a.txn);
    var more;
    more, n := SaveCompletes(Next(s, a), t);
    LeadsOn(s, a, more, n);
    acts := [a] + more;
    assert n.txns == s.txns;
  }
}
