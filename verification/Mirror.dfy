/** The page's own completion check, web/static/finalizationcheck.js, against the server's rules. */
module Mirror {
  import opened Base
  import opened Procedures
  import opened Drafts

  /** What String.prototype.trim strips: not U+0085, but U+FEFF. */
  predicate JsSpace(c: char) {
    c == ' ' || '\t' <= c <= '\r' || c == '\U{00A0}' || c == '\U{FEFF}' || c == '\U{1680}' ||
    '\U{2000}' <= c <= '\U{200A}' || c == '\U{2028}' || c == '\U{2029}' || c == '\U{202F}' ||
    c == '\U{205F}' || c == '\U{3000}'
  }

  predicate JsBlank(s: string) {
    forall i :: 0 <= i < |s| ==> JsSpace(s[i])
  }

  // What `answers[id]` yields. Every plain object inherits one property whose name is a legal
  // control id: "constructor".
  datatype Lookup = Undefined | Inherited | Own(answer: Answer)

  const INHERITED := "constructor"

  function Index(answers: map<string, Answer>, id: string): Lookup {
    if id in answers then Own(answers[id]) else if id == INHERITED then Inherited else Undefined
  }

  datatype Issue =
    | ContextIssue(key: string) | ResultIssue | FinishIssue | OutcomeIssue(id: string) | ReasonIssue(id: string)
    | MissingIssue(id: string) | NotesIssue

  // ---- the rules the loop applies ----

  predicate Truthy(o: Outcome) {
    o.OtherOutcome? ==> o.text != ""
  }

  predicate OutcomeBlocked(result: Verdict, v: Lookup) {
    if v.Own? && v.answer.CheckAnswer? && Truthy(v.answer.outcome)
    then (result == Pass && v.answer.outcome != Passed) || (result == Skipped && v.answer.outcome != NotExecuted)
    else true
  }

  predicate ReasonBlocked(v: Lookup) {
    v.Own? && v.answer.CheckAnswer? && v.answer.outcome == NotExecuted && JsBlank(v.answer.reason)
  }

  predicate JsFailed(v: Lookup) {
    v.Own? && v.answer.CheckAnswer? && v.answer.outcome == Failed
  }

  predicate JsMissing(v: Lookup) {
    match v
    case Undefined => true
    case Own(Null) => true
    case Own(Text(t)) => JsBlank(t)
    case Own(Links(ls)) => ls == []
    case _ => false
  }

  function Answers(d: DraftData): map<string, Answer> {
    if d.answers.Some? then d.answers.value else map[]
  }

  predicate CheckPasses(d: DraftData, b: Block) {
    b.Control? && b.decl.Check? ==>
      !OutcomeBlocked(d.result, Index(Answers(d), b.decl.id)) && !ReasonBlocked(Index(Answers(d), b.decl.id))
  }

  predicate FieldMissing(d: DraftData, b: Block) {
    b.Control? && b.decl.Field? && !b.decl.bound && b.decl.required && JsMissing(Index(Answers(d), b.decl.id))
  }

  predicate CheckFails(d: DraftData, b: Block) {
    b.Control? && b.decl.Check? && JsFailed(Index(Answers(d), b.decl.id))
  }

  predicate AnyMissing(p: Procedure, d: DraftData) {
    exists i :: 0 <= i < |p| && FieldMissing(d, p[i])
  }

  predicate AnyFailed(p: Procedure, d: DraftData) {
    exists i :: 0 <= i < |p| && CheckFails(d, p[i])
  }

  /** When the page shows nothing that blocks completion. */
  predicate Unblocked(p: Procedure, d: DraftData, finishOk: bool) {
    && !JsBlank(d.repo) && !JsBlank(d.branch) && !JsBlank(d.rcsRef)
    && (d.result == Pass || d.result == Fail || d.result == Error || d.result == Skipped)
    && finishOk
    && (forall i :: 0 <= i < |p| ==> CheckPasses(d, p[i]))
    && (d.result == Pass ==> !AnyMissing(p, d))
    && ((AnyMissing(p, d) || d.result == Error || d.result == Skipped || (d.result == Fail && !AnyFailed(p, d))) ==>
          !JsBlank(d.notes))
  }

  /** finalizationBlockers: push an issue for everything that blocks, block by block. */
  method FinalizationBlockers(p: Procedure, d: DraftData, finishOk: bool) returns (issues: seq<Issue>)
    ensures issues == [] <==> Unblocked(p, d, finishOk)
  {
    issues := [];
    if JsBlank(d.repo) { issues := issues + [ContextIssue("repo")]; }
    if JsBlank(d.branch) { issues := issues + [ContextIssue("branch")]; }
    if JsBlank(d.rcsRef) { issues := issues + [ContextIssue("rcs_ref")]; }
    if !(d.result == Pass || d.result == Fail || d.result == Error || d.result == Skipped) {
      issues := issues + [ResultIssue];
    }
    if !finishOk { issues := issues + [FinishIssue]; }
    ghost var header := issues == [];
    var answers := if d.answers.Some? then d.answers.value else map[];
    var missing: seq<string> := [];
    var failed := 0;
    for i := 0 to |p|
      invariant 0 <= failed
      invariant missing != [] <==> exists k :: 0 <= k < i && FieldMissing(d, p[k])
      invariant failed > 0 <==> exists k :: 0 <= k < i && CheckFails(d, p[k])
      invariant issues == [] <==> header && (forall k :: 0 <= k < i ==> CheckPasses(d, p[k]))
                                  && (d.result == Pass ==> missing == [])
    {
      if p[i].Control? && p[i].decl.Check? {
        var id := p[i].decl.id;
        var v := Index(answers, id);
        if OutcomeBlocked(d.result, v) { issues := issues + [OutcomeIssue(id)]; }
        if ReasonBlocked(v) { issues := issues + [ReasonIssue(id)]; }
        if JsFailed(v) { failed := failed + 1; }
      }
      if p[i].Control? && p[i].decl.Field? && !p[i].decl.bound && p[i].decl.required {
        if JsMissing(Index(answers, p[i].decl.id)) {
          missing := missing + [p[i].decl.id];
          if d.result == Pass { issues := issues + [MissingIssue(p[i].decl.id)]; }
        }
      }
    }
    if (missing != [] || d.result == Error || d.result == Skipped || (d.result == Fail && failed == 0)) &&
       JsBlank(d.notes) {
      issues := issues + [NotesIssue];
    }
  }

  // ---- exactly where the two differ ----

  /** Both languages agree whether the text is blank. */
  predicate TrimsAgree(s: string) {
    GoBlank(s) == JsBlank(s)
  }

  /** Blank to the server's trim and not to the page's, and the other way round. */
  predicate ServerBlank(s: string) { GoBlank(s) && !JsBlank(s) }
  predicate PageBlank(s: string) { JsBlank(s) && !GoBlank(s) }

  /** A required answer the page takes for given and the server does not: absent under the inherited name, or a text
      only the server finds blank. */
  predicate PageOverlooks(d: DraftData, b: Block) {
    b.Control? && b.decl.Field? && !b.decl.bound && b.decl.required &&
    match AnswerAt(d, b.decl.id)
    case None => b.decl.id == INHERITED
    case Some(a) => a.Text? && ServerBlank(a.text)
  }

  /** A required answer the server takes for given and the page does not. */
  predicate ServerOverlooks(d: DraftData, b: Block) {
    b.Control? && b.decl.Field? && !b.decl.bound && b.decl.required &&
    AnswerAt(d, b.decl.id).Some? && AnswerAt(d, b.decl.id).value.Text? && PageBlank(AnswerAt(d, b.decl.id).value.text)
  }

  predicate ReasonLost(d: DraftData, b: Block) {
    b.Control? && b.decl.Check? && AnswerAt(d, b.decl.id).Some? &&
    AnswerAt(d, b.decl.id).value.CheckAnswer? && AnswerAt(d, b.decl.id).value.outcome == NotExecuted &&
    PageBlank(AnswerAt(d, b.decl.id).value.reason)
  }

  /** What the page let through also stands at the server. */
  predicate CarriesToServer(p: Procedure, d: DraftData) {
    && !ServerBlank(d.repo) && !ServerBlank(d.branch) && !ServerBlank(d.rcsRef)
    && ((exists i :: 0 <= i < |p| && PageOverlooks(d, p[i])) ==> d.result != Pass && !GoBlank(d.notes))
    && (NeedsNotes(SomeMissing(p, d), SomeFailed(p, d), d.result) ==> !ServerBlank(d.notes))
  }

  /** What the server would accept also stands on the page. */
  predicate CarriesToPage(p: Procedure, d: DraftData) {
    && !PageBlank(d.repo) && !PageBlank(d.branch) && !PageBlank(d.rcsRef)
    && (forall i :: 0 <= i < |p| ==> !ReasonLost(d, p[i]))
    && ((exists i :: 0 <= i < |p| && ServerOverlooks(d, p[i])) ==> d.result != Pass && !JsBlank(d.notes))
    && (NeedsNotes(AnyMissing(p, d), AnyFailed(p, d), d.result) ==> !PageBlank(d.notes))
  }

  /** Block by block, with no assumption on the texts: how the two readings of a control relate. */
  lemma BlockReadings(p: Procedure, d: DraftData, i: nat)
    requires UniqueIds(p) && ValidDraft(p, d) && i < |p| && p[i].Control?
    ensures p[i].decl.Check? ==> (CheckPasses(d, p[i]) <==> CheckReady(d, p[i].decl.id) && !ReasonLost(d, p[i]))
    ensures RequiredMissing(d, p[i].decl) <==>
            (FieldMissing(d, p[i]) && !ServerOverlooks(d, p[i])) || PageOverlooks(d, p[i])
    ensures FieldMissing(d, p[i]) <==>
            (RequiredMissing(d, p[i].decl) && !PageOverlooks(d, p[i])) || ServerOverlooks(d, p[i])
    ensures CheckFails(d, p[i]) <==> FailedCheck(d, p[i].decl)
  {
    ControlOfUnique(p, i);
    var id := p[i].decl.id;
    if id in d.answers.value {
      assert ValidAnswer(p[i].decl, d.answers.value[id]);
    }
    hide GoBlank, JsBlank;
  }

  predicate ReadingsAt(d: DraftData, b: Block) {
    b.Control? ==>
      && (b.decl.Check? ==> (CheckPasses(d, b) <==> CheckReady(d, b.decl.id) && !ReasonLost(d, b)))
      && (RequiredMissing(d, b.decl) <==> (FieldMissing(d, b) && !ServerOverlooks(d, b)) || PageOverlooks(d, b))
      && (FieldMissing(d, b) <==> (RequiredMissing(d, b.decl) && !PageOverlooks(d, b)) || ServerOverlooks(d, b))
      && (CheckFails(d, b) <==> FailedCheck(d, b.decl))
  }

  lemma AllReadings(p: Procedure, d: DraftData)
    requires UniqueIds(p) && ValidDraft(p, d)
    ensures forall i :: 0 <= i < |p| ==> ReadingsAt(d, p[i])
    ensures AnyFailed(p, d) <==> SomeFailed(p, d)
    ensures SomeMissing(p, d) ==> AnyMissing(p, d) || exists i :: 0 <= i < |p| && PageOverlooks(d, p[i])
    ensures AnyMissing(p, d) ==> SomeMissing(p, d) || exists i :: 0 <= i < |p| && ServerOverlooks(d, p[i])
    ensures forall i :: 0 <= i < |p| && PageOverlooks(d, p[i]) ==> SomeMissing(p, d)
    ensures forall i :: 0 <= i < |p| && ServerOverlooks(d, p[i]) ==> AnyMissing(p, d)
  {
    hide UniqueIds, ValidDraft;
    forall i | 0 <= i < |p| ensures ReadingsAt(d, p[i]) {
      if p[i].Control? { BlockReadings(p, d, i); }
    }
    hide CheckPasses, CheckReady, ReasonLost, FieldMissing, RequiredMissing, CheckFails, FailedCheck;
    assert forall i :: 0 <= i < |p| && PageOverlooks(d, p[i]) ==> p[i].Control? && RequiredMissing(d, p[i].decl);
    assert forall i :: 0 <= i < |p| && ServerOverlooks(d, p[i]) ==> FieldMissing(d, p[i]);
  }

  /** A draft without a blocker on the page is finalized exactly if what the page read carries to the server. */
  lemma PageThenServer(p: Procedure, d: DraftData)
    requires UniqueIds(p) && ValidDraft(p, d) && Unblocked(p, d, true)
    ensures Finalizable(p, d) <==> CarriesToServer(p, d)
  {
    AllReadings(p, d);
    hide GoBlank, JsBlank, PageOverlooks, ServerOverlooks, ReasonLost, CheckReady, RequiredMissing, FailedCheck;
    hide FieldMissing, CheckFails, UniqueIds, ValidDraft;
  }

  /** A draft the server would finalize shows no blocker exactly if what the server read carries to the page. */
  lemma ServerThenPage(p: Procedure, d: DraftData)
    requires UniqueIds(p) && ValidDraft(p, d) && Finalizable(p, d)
    ensures Unblocked(p, d, true) <==> CarriesToPage(p, d)
  {
    AllReadings(p, d);
    hide GoBlank, JsBlank, PageOverlooks, ServerOverlooks, ReasonLost, CheckReady, RequiredMissing, FailedCheck;
    hide FieldMissing, CheckFails, UniqueIds, ValidDraft;
  }

  predicate PageAsksNotes(p: Procedure, d: DraftData) {
    NeedsNotes(AnyMissing(p, d), AnyFailed(p, d), d.result)
  }

  predicate ServerAsksNotes(p: Procedure, d: DraftData) {
    NeedsNotes(SomeMissing(p, d), SomeFailed(p, d), d.result)
  }

  predicate BothBlank(s: string) { JsBlank(s) && GoBlank(s) }

  /** Something blocks on both sides: context blank to both, no result, a check not ready, a PASS with a required answer
      missing to both, or notes that both ask for and find blank. */
  predicate BothBlock(p: Procedure, d: DraftData) {
    || BothBlank(d.repo) || BothBlank(d.branch) || BothBlank(d.rcsRef) || d.result == NoVerdict
    || !ChecksReady(p, d)
    || (d.result == Pass && exists i :: 0 <= i < |p| && MissingToBoth(d, p[i]))
    || (PageAsksNotes(p, d) && ServerAsksNotes(p, d) && BothBlank(d.notes))
  }

  predicate MissingToBoth(d: DraftData, b: Block) {
    FieldMissing(d, b) && RequiredMissing(d, b.decl)
  }

  /** Something blocks on the page that the server passes over. */
  predicate PageAlone(p: Procedure, d: DraftData) {
    || PageBlank(d.repo) || PageBlank(d.branch) || PageBlank(d.rcsRef)
    || (exists i :: 0 <= i < |p| && ReasonLost(d, p[i]))
    || (d.result == Pass && exists i :: 0 <= i < |p| && ServerOverlooks(d, p[i]))
    || (PageAsksNotes(p, d) && JsBlank(d.notes) && !(ServerAsksNotes(p, d) && GoBlank(d.notes)))
  }

  /** Something blocks at the server that the page passes over. */
  predicate ServerAlone(p: Procedure, d: DraftData) {
    || ServerBlank(d.repo) || ServerBlank(d.branch) || ServerBlank(d.rcsRef)
    || (d.result == Pass && exists i :: 0 <= i < |p| && PageOverlooks(d, p[i]))
    || (ServerAsksNotes(p, d) && GoBlank(d.notes) && !(PageAsksNotes(p, d) && JsBlank(d.notes)))
  }

  lemma UnblockedBy(p: Procedure, d: DraftData)
    requires UniqueIds(p) && ValidDraft(p, d)
    ensures Unblocked(p, d, true) <==> !BothBlock(p, d) && !PageAlone(p, d)
  {
    AllReadings(p, d);
    assert !d.result.OtherVerdict?;
    hide GoBlank, JsBlank, PageOverlooks, ServerOverlooks, ReasonLost, CheckReady, RequiredMissing, FailedCheck;
    hide FieldMissing, CheckFails, UniqueIds, ValidDraft, SomeMissing, SomeFailed, AnyFailed;
    MissingSplits(p, d);
  }

  /** Missing to the page: to both, or overlooked by the server. */
  lemma MissingSplits(p: Procedure, d: DraftData)
    requires forall i :: 0 <= i < |p| ==> ReadingsAt(d, p[i])
    ensures AnyMissing(p, d) <==> (exists i :: 0 <= i < |p| && MissingToBoth(d, p[i])) ||
                                  (exists i :: 0 <= i < |p| && ServerOverlooks(d, p[i]))
    ensures SomeMissing(p, d) <==> (exists i :: 0 <= i < |p| && MissingToBoth(d, p[i])) ||
                                   (exists i :: 0 <= i < |p| && PageOverlooks(d, p[i]))
  {
    hide RequiredMissing, CheckPasses, CheckReady, CheckFails, FailedCheck, ReasonLost, GoBlank, JsBlank, Index;
    forall i | 0 <= i < |p|
      ensures FieldMissing(d, p[i]) <==> MissingToBoth(d, p[i]) || ServerOverlooks(d, p[i])
      ensures p[i].Control? && RequiredMissing(d, p[i].decl) <==> MissingToBoth(d, p[i]) || PageOverlooks(d, p[i])
    {
      assert ReadingsAt(d, p[i]);
    }
    hide FieldMissing, MissingToBoth, ServerOverlooks, PageOverlooks;
  }

  lemma FinalizableBy(p: Procedure, d: DraftData)
    requires UniqueIds(p) && ValidDraft(p, d)
    ensures Finalizable(p, d) <==> !BothBlock(p, d) && !ServerAlone(p, d)
  {
    AllReadings(p, d);
    hide GoBlank, JsBlank, PageOverlooks, ServerOverlooks, ReasonLost, CheckReady, RequiredMissing, FailedCheck;
    hide FieldMissing, CheckFails, UniqueIds, ValidDraft, AnyMissing, SomeFailed, AnyFailed;
    MissingSplits(p, d);
  }

  /** Page and server agree on a draft exactly if something blocks on both sides, or each alone or neither alone has
      something that blocks. */
  lemma MirrorExact(p: Procedure, d: DraftData)
    requires UniqueIds(p) && ValidDraft(p, d)
    ensures (Unblocked(p, d, true) <==> Finalizable(p, d)) <==>
            BothBlock(p, d) || (PageAlone(p, d) <==> ServerAlone(p, d))
  {
    hide Unblocked, Finalizable, BothBlock, PageAlone, ServerAlone;
    UnblockedBy(p, d);
    FinalizableBy(p, d);
  }

  // ---- where they do not ----

  /** Text without U+0085 and U+FEFF is trimmed alike. */
  lemma PlainTextAgrees(s: string)
    requires forall i :: 0 <= i < |s| ==> s[i] != '\U{0085}' && s[i] != '\U{FEFF}'
    ensures TrimsAgree(s)
  {
    forall i | 0 <= i < |s| ensures GoSpace(s[i]) == JsSpace(s[i]) {
    }
  }

  function Sample(repo: string, notes: string, result: Verdict): DraftData {
    DraftData(repo, "main", "abc", notes, result, Some(map[]), "", "", NoMetadata, Unset)
  }

  /** The trim condition is exact: as a repository, or as the notes an ERROR must carry, a text makes
      page and server disagree whenever the two trims do, and only then. */
  lemma TrimsDecide(t: string)
    ensures (Unblocked([], Sample(t, "", Pass), true) <==> Finalizable([], Sample(t, "", Pass))) <==> TrimsAgree(t)
    ensures (Unblocked([], Sample("r", t, Error), true) <==> Finalizable([], Sample("r", t, Error))) <==> TrimsAgree(t)
  {
    assert !GoSpace("main"[0]) && !JsSpace("main"[0]) && !GoSpace("abc"[0]) && !JsSpace("abc"[0]);
    assert !GoSpace("r"[0]) && !JsSpace("r"[0]);
  }

  /** A byte order mark is notes to the server and nothing to the page; U+0085 the other way round. */
  lemma TrimsDiffer()
    ensures !TrimsAgree("\U{FEFF}") && !TrimsAgree("\U{0085}")
  {
    assert !GoSpace("\U{FEFF}"[0]);
    assert !JsSpace("\U{0085}"[0]);
  }

  /** A required field under the inherited name passes the page unanswered; under any other id both refuse. */
  lemma InheritedAnswer(id: string)
    ensures var p := [Control(1, Field(id, TextField, true, false, None))];
            var d := Sample("r", "", Pass);
            && ValidDraft(p, d) && !Finalizable(p, d)
            && (Unblocked(p, d, true) <==> id == INHERITED)
  {
    var p := [Control(1, Field(id, TextField, true, false, None))];
    var d := Sample("r", "", Pass);
    assert !GoSpace("main"[0]) && !JsSpace("main"[0]) && !GoSpace("abc"[0]) && !JsSpace("abc"[0]);
    assert !GoSpace("r"[0]) && !JsSpace("r"[0]);
    assert RequiredMissing(d, p[0].decl);
    assert FieldMissing(d, p[0]) <==> id != INHERITED;
  }
}
