/** Procedures as the parser delivers them: prose interleaved with decoded declarations. */
module Procedures {
  import opened Base

  datatype FieldKind = TextField | ChoiceField(options: seq<string>) | MeasurementField | EvidenceField

  datatype Link = Link(uri: string, external: bool)

  // A decoded answer. `external` records whether a link is an https URL with a
  // host and no credentials; Malformed is JSON of no shape a control accepts.
  datatype Outcome = Passed | Failed | NotExecuted | OtherOutcome(text: string)
  datatype Answer =
    | Null
    | Text(text: string)
    | Number(value: real)
    | Links(links: seq<Link>)
    | CheckAnswer(outcome: Outcome, reason: string)
    | Malformed

  datatype Declaration =
    | Field(id: string, kind: FieldKind, required: bool, bound: bool, default: Option<Answer>)
    | Check(id: string)

  datatype Block = Markdown(line: nat, text: string) | Control(line: nat, decl: Declaration)

  type Procedure = seq<Block>

  /** The declaration that a map filled block by block ends up holding for `id`. */
  function ControlOf(p: Procedure, id: string): (r: Option<Declaration>)
    ensures r.Some? ==> r.value.id == id && exists i :: 0 <= i < |p| && p[i].Control? && p[i].decl == r.value
    ensures r.None? ==> forall i :: 0 <= i < |p| && p[i].Control? ==> p[i].decl.id != id
  {
    if p == [] then None
    else
      var last := p[|p| - 1];
      if last.Control? && last.decl.id == id then Some(last.decl) else ControlOf(p[..|p| - 1], id)
  }

  ghost predicate UniqueIds(p: Procedure) {
    forall i, j :: 0 <= i < j < |p| && p[i].Control? && p[j].Control? ==> p[i].decl.id != p[j].decl.id
  }

  lemma ControlOfUnique(p: Procedure, i: nat)
    requires UniqueIds(p)
    requires i < |p| && p[i].Control?
    ensures ControlOf(p, p[i].decl.id) == Some(p[i].decl)
  {
    var r := ControlOf(p, p[i].decl.id);
    assert r.Some?;
    var k :| 0 <= k < |p| && p[k].Control? && p[k].decl == r.value;
    assert k == i;
  }
}

/** Unfinished work and the rules it must meet: internal/campaign/draft.go and finalize.go. */
module Drafts {
  import opened Base
  import opened Procedures

  datatype Verdict = NoVerdict | Pass | Fail | Error | Skipped | OtherVerdict(text: string)

  datatype FinishText = Unset | Zoned(at: Time) | Unparseable

  // Metadata as decoded: `token` stands for the remaining content, `wellTyped`
  // for passing the per-key rules, `blobs` for the digests its log names.
  datatype Metadata = NoMetadata | Metadata(token: nat, wellTyped: bool, blobs: set<nat>)

  datatype DraftData = DraftData(
    repo: string, branch: string, rcsRef: string, notes: string,
    result: Verdict, answers: Option<map<string, Answer>>,
    evidenceType: string, source: string, metadata: Metadata, finished: FinishText)

  /** unicode.IsSpace, which strings.TrimSpace strips. */
  predicate GoSpace(c: char) {
    c == ' ' || '\t' <= c <= '\r' || c == '\U{0085}' || c == '\U{00A0}' || c == '\U{1680}' ||
    '\U{2000}' <= c <= '\U{200A}' || c == '\U{2028}' || c == '\U{2029}' || c == '\U{202F}' ||
    c == '\U{205F}' || c == '\U{3000}'
  }

  predicate GoBlank(s: string) {
    forall i :: 0 <= i < |s| ==> GoSpace(s[i])
  }

  predicate ValidEvidenceType(s: string) {
    s == "ci" || s == "manual_test" || s == "demonstration"
  }

  // ---- internal/campaign/draft.go ----

  /** The answers InitialDraft copies: the defaults of unbound fields, and nothing else. */
  function InitialAnswers(p: Procedure): (m: map<string, Answer>)
    ensures forall id :: id in m ==>
              exists i :: 0 <= i < |p| && p[i].Control? && p[i].decl.Field? && p[i].decl.id == id
                          && !p[i].decl.bound && p[i].decl.default == Some(m[id])
    ensures forall i :: 0 <= i < |p| && p[i].Control? && p[i].decl.Field? && !p[i].decl.bound &&
                          p[i].decl.default.Some? ==>
              p[i].decl.id in m
  {
    if p == [] then map[]
    else
      var b := p[|p| - 1];
      var rest := InitialAnswers(p[..|p| - 1]);
      if b.Control? && b.decl.Field? && !b.decl.bound && b.decl.default.Some?
      then rest[b.decl.id := b.decl.default.value] else rest
  }

  function InitialDraft(p: Procedure): DraftData {
    DraftData("", "", "", "", NoVerdict, Some(InitialAnswers(p)), "", "", NoMetadata, Unset)
  }

  predicate ValidCheckAnswer(a: Answer) {
    a.CheckAnswer? && !a.outcome.OtherOutcome? && (a.outcome.NotExecuted? ==> !GoBlank(a.reason))
  }

  predicate ValidAnswer(c: Declaration, a: Answer) {
    && !a.Null?
    && match c
       case Check(_) => ValidCheckAnswer(a)
       case Field(_, kind, _, bound, _) =>
         !bound &&
         match kind
         case TextField => a.Text?
         case ChoiceField(options) => a.Text? && a.text in options
         case MeasurementField => a.Number?
         case EvidenceField => a.Links? && forall i :: 0 <= i < |a.links| ==> a.links[i].external
  }

  predicate ValidHeader(d: DraftData) {
    && !d.finished.Unparseable?
    && (d.evidenceType != "" ==> ValidEvidenceType(d.evidenceType))
    && (d.metadata.Metadata? ==> d.metadata.wellTyped)
    && d.answers.Some?
    && !d.result.OtherVerdict?
  }

  predicate ValidDraft(p: Procedure, d: DraftData) {
    && ValidHeader(d)
    && forall id :: id in d.answers.value ==>
         ControlOf(p, id).Some? && ValidAnswer(ControlOf(p, id).value, d.answers.value[id])
  }

  /** ValidateDraft: index the controls block by block, then test every answer against its control. */
  method ValidateDraft(p: Procedure, d: DraftData) returns (ok: bool)
    ensures ok == ValidDraft(p, d)
  {
    if !ValidHeader(d) { return false; }
    var controls: map<string, Declaration> := map[];
    for i := 0 to |p|
      invariant forall id :: (if id in controls then Some(controls[id]) else None) == ControlOf(p[..i], id)
    {
      assert p[..i + 1][..i] == p[..i];
      if p[i].Control? { controls := controls[p[i].decl.id := p[i].decl]; }
    }
    assert p[..|p|] == p;
    var todo := d.answers.value.Keys;
    while todo != {}
      invariant todo <= d.answers.value.Keys
      invariant forall id :: id in d.answers.value && id !in todo ==>
                  ControlOf(p, id).Some? && ValidAnswer(ControlOf(p, id).value, d.answers.value[id])
      decreases todo
    {
      var id :| id in todo;
      assert (if id in controls then Some(controls[id]) else None) == ControlOf(p, id);
      if id !in controls || !ValidAnswer(controls[id], d.answers.value[id]) { return false; }
      todo := todo - {id};
    }
    return true;
  }

  // ---- internal/campaign/finalize.go ----

  predicate MissingAnswer(a: Option<Answer>) {
    match a
    case None => true
    case Some(Null) => true
    case Some(Text(t)) => GoBlank(t)
    case Some(Links(ls)) => ls == []
    case Some(Malformed) => true
    case _ => false
  }

  function AnswerAt(d: DraftData, id: string): Option<Answer> {
    if d.answers.Some? && id in d.answers.value then Some(d.answers.value[id]) else None
  }

  predicate OutcomeAllowed(result: Verdict, o: Outcome) {
    (result == Pass ==> o == Passed) && (result == Skipped ==> o == NotExecuted)
  }

  predicate CheckReady(d: DraftData, id: string) {
    AnswerAt(d, id).Some? && AnswerAt(d, id).value.CheckAnswer? &&
    OutcomeAllowed(d.result, AnswerAt(d, id).value.outcome)
  }

  predicate RequiredMissing(d: DraftData, c: Declaration) {
    c.Field? && !c.bound && c.required && MissingAnswer(AnswerAt(d, c.id))
  }

  predicate FailedCheck(d: DraftData, c: Declaration) {
    c.Check? && AnswerAt(d, c.id).Some? && AnswerAt(d, c.id).value.CheckAnswer? &&
    AnswerAt(d, c.id).value.outcome == Failed
  }

  predicate SomeMissing(p: Procedure, d: DraftData) {
    exists i :: 0 <= i < |p| && p[i].Control? && RequiredMissing(d, p[i].decl)
  }

  predicate SomeFailed(p: Procedure, d: DraftData) {
    exists i :: 0 <= i < |p| && p[i].Control? && FailedCheck(d, p[i].decl)
  }

  predicate ChecksReady(p: Procedure, d: DraftData) {
    forall i :: 0 <= i < |p| && p[i].Control? && p[i].decl.Check? ==> CheckReady(d, p[i].decl.id)
  }

  predicate NeedsNotes(missing: bool, failed: bool, result: Verdict) {
    missing || result == Error || result == Skipped || (result == Fail && !failed)
  }

  /** What a draft must be for its finalization to be accepted. */
  predicate Finalizable(p: Procedure, d: DraftData) {
    && ValidDraft(p, d)
    && !GoBlank(d.repo) && !GoBlank(d.branch) && !GoBlank(d.rcsRef)
    && d.result != NoVerdict
    && ChecksReady(p, d)
    && (d.result == Pass ==> !SomeMissing(p, d))
    && (NeedsNotes(SomeMissing(p, d), SomeFailed(p, d), d.result) ==> !GoBlank(d.notes))
  }

  /** ValidateFinalization, with its accumulators and its early exits. */
  method ValidateFinalization(p: Procedure, d: DraftData) returns (ok: bool)
    ensures ok == Finalizable(p, d)
  {
    var valid := ValidateDraft(p, d);
    if !valid { return false; }
    if GoBlank(d.repo) || GoBlank(d.branch) || GoBlank(d.rcsRef) { return false; }
    if d.result == NoVerdict { return false; }
    var missing: seq<string> := [];
    var failed := 0;
    for i := 0 to |p|
      invariant forall k :: 0 <= k < i && p[k].Control? && p[k].decl.Check? ==> CheckReady(d, p[k].decl.id)
      invariant missing != [] <==> exists k :: 0 <= k < i && p[k].Control? && RequiredMissing(d, p[k].decl)
      invariant 0 <= failed
      invariant failed > 0 <==> exists k :: 0 <= k < i && p[k].Control? && FailedCheck(d, p[k].decl)
    {
      if p[i].Control? {
        var c := p[i].decl;
        if c.Check? {
          if !CheckReady(d, c.id) { return false; }
          if d.answers.value[c.id].outcome == Failed { failed := failed + 1; }
        }
        if c.Field? && !c.bound && c.required && MissingAnswer(AnswerAt(d, c.id)) {
          missing := missing + [c.id];
        }
      }
    }
    if missing != [] && d.result == Pass { return false; }
    var needsReason := missing != [] || d.result == Error || d.result == Skipped || (d.result == Fail && failed == 0);
    return !(needsReason && GoBlank(d.notes));
  }

  /** No silent PASS: every check passed and every required unbound field answered. */
  ghost predicate HonestPass(p: Procedure, result: Verdict, answers: map<string, Answer>) {
    result == Pass ==>
      forall i :: 0 <= i < |p| && p[i].Control? ==>
        match p[i].decl
        case Check(id) => id in answers && answers[id].CheckAnswer? && answers[id].outcome == Passed
        case Field(id, _, required, bound, _) =>
          required && !bound ==> id in answers && !MissingAnswer(Some(answers[id]))
  }

  lemma FinalizableIsHonest(p: Procedure, d: DraftData)
    requires Finalizable(p, d)
    ensures HonestPass(p, d.result, d.answers.value)
  {
    forall i | 0 <= i < |p| && p[i].Control? && p[i].decl.Check?
      ensures CheckReady(d, p[i].decl.id)
    {
    }
    forall i | 0 <= i < |p| && p[i].Control? && p[i].decl.Field? && d.result == Pass
      ensures !RequiredMissing(d, p[i].decl)
    {
    }
  }

  // ---- closing: internal/store/campaign_close.go:96-120 ----

  const CLOSE_REASON := "Unfinished work skipped when campaign was closed."

  /** Answers after closing: every check without an answer gets NOT_EXECUTED, the rest is untouched. */
  function CloseAnswers(p: Procedure, answers: map<string, Answer>): (m: map<string, Answer>)
    ensures forall id :: id in answers ==> id in m && m[id] == answers[id]
    ensures forall id :: id in m && id !in answers ==>
              m[id] == CheckAnswer(NotExecuted, CLOSE_REASON)
              && exists i :: 0 <= i < |p| && p[i].Control? && p[i].decl == Check(id)
    ensures forall i :: 0 <= i < |p| && p[i].Control? && p[i].decl.Check? ==> p[i].decl.id in m
  {
    if p == [] then answers
    else
      var rest := CloseAnswers(p[..|p| - 1], answers);
      var b := p[|p| - 1];
      if b.Control? && b.decl.Check? && b.decl.id !in rest
      then rest[b.decl.id := CheckAnswer(NotExecuted, CLOSE_REASON)] else rest
  }

  function CloseNotes(notes: string): (r: string)
    ensures notes <= r && |CLOSE_REASON| <= |r| && r[|r| - |CLOSE_REASON|..] == CLOSE_REASON
    ensures |r| == (if notes == "" then 0 else |notes| + 2) + |CLOSE_REASON|
  {
    (if notes != "" then notes + "\n\n" else notes) + CLOSE_REASON
  }

  function ClosedDraft(p: Procedure, d: DraftData): DraftData {
    var answers := if d.answers.Some? then d.answers.value else map[];
    d.(result := Skipped, answers := Some(CloseAnswers(p, answers)), notes := CloseNotes(d.notes))
  }
}
