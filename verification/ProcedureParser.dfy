/** Lines and fences: the text layer of internal/campaign/procedure.go. */
module Fences {
  import opened Drafts

  // ---- lines ----

  function FirstNewline(s: string): (i: nat)
    ensures i <= |s| && (forall k :: 0 <= k < i ==> s[k] != '\n') && (i < |s| ==> s[i] == '\n')
  {
    if s == "" || s[0] == '\n' then 0 else 1 + FirstNewline(s[1..])
  }

  /** strings.SplitAfter(s, "\n") */
  function SplitAfter(s: string): seq<string>
    decreases |s|
  {
    var i := FirstNewline(s);
    if i == |s| then [s] else [s[..i + 1]] + SplitAfter(s[i + 1..])
  }

  /** strings.Split(s, "\n") */
  function Split(s: string): seq<string>
    decreases |s|
  {
    var i := FirstNewline(s);
    if i == |s| then [s] else [s[..i]] + Split(s[i + 1..])
  }

  function Join(lines: seq<string>): string {
    if lines == [] then "" else lines[0] + Join(lines[1..])
  }

  predicate NoNewline(s: string) {
    forall k :: 0 <= k < |s| ==> s[k] != '\n'
  }

  predicate Ended(line: string) {
    line != "" && line[|line| - 1] == '\n' && NoNewline(line[..|line| - 1])
  }

  /** What splitting yields: every line but the last ends in its only newline, the last has none. */
  predicate IsLines(lines: seq<string>) {
    && lines != []
    && (forall k :: 0 <= k < |lines| - 1 ==> Ended(lines[k]))
    && NoNewline(lines[|lines| - 1])
  }

  lemma {:induction false} SplitAfterIsLines(s: string)
    ensures IsLines(SplitAfter(s)) && Join(SplitAfter(s)) == s
    decreases |s|
  {
    hide SplitAfter, Join, IsLines, Ended, NoNewline;
    var i := FirstNewline(s);
    SplitAfterStep(s);
    if i < |s| {
      SplitAfterIsLines(s[i + 1..]);
      LineThenLines(s[..i + 1], SplitAfter(s[i + 1..]));
      assert s == s[..i + 1] + s[i + 1..];
    } else {
      OneLine(s);
    }
  }

  lemma SplitAfterStep(s: string)
    ensures var i := FirstNewline(s);
            if i == |s| then NoNewline(s) && SplitAfter(s) == [s]
            else Ended(s[..i + 1]) && SplitAfter(s) == [s[..i + 1]] + SplitAfter(s[i + 1..])
  {}

  lemma OneLine(s: string)
    requires NoNewline(s)
    ensures IsLines([s]) && Join([s]) == s
  {
    assert [s][1..] == [] && Join([s]) == s + Join([]);
  }

  lemma LineThenLines(line: string, rest: seq<string>)
    requires Ended(line) && IsLines(rest)
    ensures IsLines([line] + rest) && Join([line] + rest) == line + Join(rest)
  {
    hide Ended, NoNewline;
    var all := [line] + rest;
    assert all[1..] == rest;
    assert forall k :: 0 < k < |all| ==> all[k] == rest[k - 1];
  }

  lemma {:induction false} JoinAppend(a: seq<string>, b: seq<string>)
    ensures Join(a + b) == Join(a) + Join(b)
  {
    if a == [] {
      assert a + b == b;
    } else {
      assert (a + b)[1..] == a[1..] + b;
      JoinAppend(a[1..], b);
    }
  }

  function Chop(line: string): string {
    if line != "" && line[|line| - 1] == '\n' then line[..|line| - 1] else line
  }

  function ChopAll(lines: seq<string>): seq<string> {
    seq(|lines|, k requires 0 <= k < |lines| => Chop(lines[k]))
  }

  lemma FirstNewlineAt(s: string, i: nat)
    requires i < |s| && s[i] == '\n' && NoNewline(s[..i])
    ensures FirstNewline(s) == i
  {
    var k := FirstNewline(s);
    assert forall j :: 0 <= j < i ==> s[..i][j] == s[j];
  }

  lemma SplitEnded(line: string, rest: string)
    requires Ended(line)
    ensures Split(line + rest) == [Chop(line)] + Split(rest)
  {
    var n, text := |line| - 1, line + rest;
    assert text[..n] == line[..n] && text[n + 1..] == rest;
    FirstNewlineAt(text, n);
  }

  predicate Closed(lines: seq<string>)
    requires lines != []
  {
    Ended(lines[|lines| - 1])
  }

  /** A run of lines: all but the last ended, the last ended or without newline. */
  predicate IsRun(lines: seq<string>) {
    && lines != []
    && (forall k :: 0 <= k < |lines| - 1 ==> Ended(lines[k]))
    && (Closed(lines) || NoNewline(lines[|lines| - 1]))
  }

  /** Splitting a joined run of lines gives the lines without their newlines, and one empty rest if the run is ended. */
  lemma {:induction false} SplitJoin(lines: seq<string>)
    requires IsRun(lines)
    ensures Split(Join(lines)) == ChopAll(lines) + (if Closed(lines) then [""] else [])
  {
    var first, tail := lines[0], lines[1..];
    if |lines| == 1 {
      assert tail == [] && Join(lines) == first + "";
      if Ended(first) {
        SplitEnded(first, "");
      } else {
        assert first + "" == first && NoNewline(first);
      }
    } else {
      hide Split, Ended, NoNewline;
      assert forall k :: 0 <= k < |tail| - 1 ==> tail[k] == lines[k + 1];
      SplitJoin(tail);
      SplitEnded(first, Join(tail));
      assert ChopAll(lines) == [Chop(first)] + ChopAll(tail);
    }
  }

  function LineText(line: string): string {
    var s := Chop(line);
    if s != "" && s[|s| - 1] == '\r' then s[..|s| - 1] else s
  }

  // ---- fences ----

  datatype Fence = NoFence | Fence(marker: char, width: nat, info: string)

  function TrimBlanks(s: string): string {
    if s != "" && (s[0] == ' ' || s[0] == '\t') then TrimBlanks(s[1..]) else s
  }

  function TrimStart(s: string): string {
    if s != "" && GoSpace(s[0]) then TrimStart(s[1..]) else s
  }

  function TrimEnd(s: string): string {
    if s != "" && GoSpace(s[|s| - 1]) then TrimEnd(s[..|s| - 1]) else s
  }

  /** strings.TrimSpace */
  function TrimSpace(s: string): string { TrimEnd(TrimStart(s)) }

  function RunLength(s: string, c: char): (n: nat)
    ensures n <= |s| && (forall k :: 0 <= k < n ==> s[k] == c) && (n < |s| ==> s[n] != c)
  {
    if s != "" && s[0] == c then 1 + RunLength(s[1..], c) else 0
  }

  function OpeningFence(line: string): Fence {
    var text := TrimBlanks(line);
    if |text| < 3 || (text[0] != '`' && text[0] != '~') then NoFence
    else
      var n := RunLength(text, text[0]);
      if n < 3 then NoFence else Fence(text[0], n, TrimSpace(text[n..]))
  }

  predicate Closes(f: Fence, line: string)
    requires f.Fence?
  {
    var g := OpeningFence(line);
    g.Fence? && g.marker == f.marker && g.width >= f.width && g.info == ""
  }

  /** One line of fence tracking. */
  function Track(f: Fence, line: string): Fence {
    if f.Fence? then (if Closes(f, line) then NoFence else f) else OpeningFence(line)
  }

  /** openingFence's scanning loop. */
  method ScanFence(line: string) returns (f: Fence)
    ensures f == OpeningFence(line)
  {
    var text := TrimBlanks(line);
    if |text| < 3 || (text[0] != '`' && text[0] != '~') { return NoFence; }
    var i := 1;
    while i < |text| && text[i] == text[0]
      invariant 1 <= i <= |text| && forall k :: 0 <= k < i ==> text[k] == text[0]
    {
      i := i + 1;
    }
    assert i == RunLength(text, text[0]);
    if i < 3 { return NoFence; }
    return Fence(text[0], i, TrimSpace(text[i..]));
  }

  // ---- a carriage return at the end changes nothing ----

  lemma {:induction false} TrimBlanksReturn(s: string)
    ensures TrimBlanks(s + "\r") == TrimBlanks(s) + "\r"
  {
    if s != "" && (s[0] == ' ' || s[0] == '\t') {
      assert (s + "\r")[1..] == s[1..] + "\r";
      TrimBlanksReturn(s[1..]);
    } else if s == "" {
      assert s + "\r" == "\r";
    }
  }

  lemma {:induction false} TrimSpaceReturn(s: string)
    ensures TrimSpace(s + "\r") == TrimSpace(s)
    decreases |s|
  {
    if s == "" {
      assert s + "\r" == "\r" && TrimStart("\r") == TrimStart("") == "";
    } else if GoSpace(s[0]) {
      assert (s + "\r")[1..] == s[1..] + "\r";
      TrimSpaceReturn(s[1..]);
    } else {
      assert (s + "\r")[..|s|] == s;
    }
  }

  lemma {:induction false} RunLengthReturn(s: string, c: char)
    requires c != '\r'
    ensures RunLength(s + "\r", c) == RunLength(s, c)
  {
    if s != "" && s[0] == c {
      assert (s + "\r")[1..] == s[1..] + "\r";
      RunLengthReturn(s[1..], c);
    }
  }

  lemma OpeningFenceReturn(s: string)
    ensures OpeningFence(s + "\r") == OpeningFence(s)
  {
    TrimBlanksReturn(s);
    var text := TrimBlanks(s);
    if text != "" && (text[0] == '`' || text[0] == '~') {
      RunLengthReturn(text, text[0]);
      var n := RunLength(text, text[0]);
      assert (text + "\r")[n..] == text[n..] + "\r";
      TrimSpaceReturn(text[n..]);
    }
  }

  /** The scanner that keeps the CR and the one that strips it see the same fence on every line. */
  lemma FenceIgnoresReturn(line: string)
    ensures OpeningFence(Chop(line)) == OpeningFence(LineText(line))
  {
    var s := Chop(line);
    if s != "" && s[|s| - 1] == '\r' {
      assert s == s[..|s| - 1] + "\r";
      OpeningFenceReturn(s[..|s| - 1]);
    }
  }
}

/** ParseProcedure and its helpers, against a left-to-right reading of the lines. */
module ProcedureParser {
  import opened Procedures
  import opened Drafts
  import opened Fences

  const MAX_PROCEDURE_BYTES: nat := 1048576
  const MAX_DECLARATION_BYTES: nat := 65536
  const MAX_CONTROLS: nat := 1000

  datatype Result<+T> = Ok(value: T) | Rejected(line: nat)

  // parseDeclaration: kind, YAML body and the body's first line in the document.
  type Decoder = (string, string, nat) -> Result<Declaration>

  function CharBytes(c: char): nat {
    if c < '\U{0080}' then 1 else if c < '\U{0800}' then 2 else if c < '\U{10000}' then 3 else 4
  }

  /** Length of the UTF-8 encoding. */
  function ByteLength(s: string): nat {
    if s == "" then 0 else ByteLength(s[..|s| - 1]) + CharBytes(s[|s| - 1])
  }

  predicate SourceFault(source: string) {
    ByteLength(source) > MAX_PROCEDURE_BYTES || '\0' in source || GoBlank(source)
  }

  // ---- the reference reading: one mode per line boundary ----

  datatype Mode = Outside(fence: Fence) | Inside | Broken

  predicate Opener(text: string) {
    text == "```test-field" || text == "```test-check"
  }

  function Step(m: Mode, text: string): Mode {
    match m
    case Broken => Broken
    case Inside => if text == "```" then Outside(NoFence) else Inside
    case Outside(f) =>
      if f.Fence? then Outside(Track(f, text))
      else
        var g := OpeningFence(text);
        if g.Fence? && "test-" <= g.info then (if Opener(text) then Inside else Broken) else Outside(g)
  }

  /** The mode just before line i. */
  function ModeAt(lines: seq<string>, i: nat): Mode
    requires i <= |lines|
  {
    if i == 0 then Outside(NoFence) else Step(ModeAt(lines, i - 1), LineText(lines[i - 1]))
  }

  predicate Top(lines: seq<string>, i: nat)
    requires i <= |lines|
  {
    ModeAt(lines, i) == Outside(NoFence)
  }

  /** Line i opens a control: at top level, outside every ordinary fence. */
  predicate Opens(lines: seq<string>, i: nat)
    requires i < |lines|
  {
    Top(lines, i) && ModeAt(lines, i + 1) == Inside
  }

  predicate OutsideThrough(lines: seq<string>, a: nat, b: nat)
    requires a <= b <= |lines|
  {
    forall i :: a <= i <= b ==> ModeAt(lines, i).Outside?
  }

  /** The first closing line at or after i, or the end of the document. */
  function CloserFrom(lines: seq<string>, i: nat): (j: nat)
    requires i <= |lines|
    ensures i <= j <= |lines|
    ensures forall k :: i <= k < j ==> LineText(lines[k]) != "```"
    ensures j < |lines| ==> LineText(lines[j]) == "```"
    decreases |lines| - i
  {
    if i == |lines| || LineText(lines[i]) == "```" then i else CloserFrom(lines, i + 1)
  }

  function KindOf(text: string): string {
    if "```" <= text then text[3..] else text
  }

  /** What the control fence at line i declares: its declaration or the line to blame. */
  function ReadControl(lines: seq<string>, decode: Decoder, i: nat): Result<Declaration>
    requires i < |lines|
  {
    var end := CloserFrom(lines, i + 1);
    if end == |lines| then Rejected(i + 1)
    else
      var body := Join(lines[i + 1..end]);
      if ByteLength(body) > MAX_DECLARATION_BYTES then Rejected(i + 1)
      else decode(KindOf(LineText(lines[i])), body, i + 2)
  }

  predicate BindsResult(d: Declaration) { d.Field? && d.bound }

  predicate Clash(d: Declaration, e: Declaration) {
    d.id == e.id || (BindsResult(d) && BindsResult(e))
  }

  function OpenersBefore(lines: seq<string>, i: nat): (s: set<nat>)
    requires i <= |lines|
    ensures forall k :: k in s ==> k < i
  {
    set k: nat | k < i && Opens(lines, k)
  }

  /** An earlier control has the same id or the same binding, or there are too many already. */
  predicate Crowded(lines: seq<string>, decode: Decoder, i: nat, d: Declaration)
    requires i <= |lines|
  {
    || (exists j :: j in OpenersBefore(lines, i) && ReadControl(lines, decode, j).Ok? &&
                Clash(ReadControl(lines, decode, j).value, d))
    || |OpenersBefore(lines, i)| >= MAX_CONTROLS
  }

  /** Whether line i is fine on its own and with the lines before it; if not, the line to blame. */
  function Fault(lines: seq<string>, decode: Decoder, i: nat): Result<()>
    requires i < |lines|
  {
    if Top(lines, i) && ModeAt(lines, i + 1).Broken? then Rejected(i + 1)
    else if Opens(lines, i) then
      match ReadControl(lines, decode, i)
      case Rejected(l) => Rejected(l)
      case Ok(d) => if Crowded(lines, decode, i, d) then Rejected(i + 1) else Ok(())
    else Ok(())
  }

  predicate NoFaultBefore(lines: seq<string>, decode: Decoder, n: nat)
    requires n <= |lines|
  {
    forall i :: 0 <= i < n ==> Fault(lines, decode, i).Ok?
  }

  // ---- what an accepted document looks like ----

  /** Lines c to e - 1 are block b. */
  predicate Shows(lines: seq<string>, decode: Decoder, b: Block, c: nat, e: nat)
    requires c < e <= |lines|
  {
    && b.line == c + 1
    && Top(lines, c)
    && match b
       case Markdown(_, text) => text == Join(lines[c..e]) && text != "" && OutsideThrough(lines, c, e)
       case Control(_, decl) =>
         Opens(lines, c) && CloserFrom(lines, c + 1) == e - 1 && ReadControl(lines, decode, c) == Ok(decl)
  }

  /** The blocks are the consecutive runs of lines between the cuts; nothing but an empty rest follows. */
  predicate Tiles(lines: seq<string>, decode: Decoder, blocks: seq<Block>, cuts: seq<nat>) {
    && |cuts| == |blocks| + 1 && cuts[0] == 0 && cuts[|blocks|] <= |lines|
    && (forall k :: 0 <= k < |blocks| ==>
          Upright(lines, cuts, k) && Shows(lines, decode, blocks[k], cuts[k], cuts[k + 1]))
  }

  predicate Upright(lines: seq<string>, cuts: seq<nat>, k: nat)
    requires k + 1 < |cuts|
  {
    cuts[k] < cuts[k + 1] <= |lines|
  }

  /** Prose is never cut in two: of two neighbours one is a control. */
  predicate Merged(blocks: seq<Block>) {
    forall k :: 0 < k < |blocks| ==> blocks[k - 1].Control? || blocks[k].Control?
  }

  predicate ProseLast(blocks: seq<Block>) {
    blocks != [] && blocks[|blocks| - 1].Markdown?
  }

  // ---- the scanners ----

  method NextControl(lines: seq<string>, start: nat) returns (r: Result<nat>)
    requires start <= |lines| && Top(lines, start)
    ensures r.Ok? ==> start <= r.value <= |lines| && OutsideThrough(lines, start, r.value)
    ensures r.Ok? && r.value < |lines| ==> Opens(lines, r.value)
    ensures r.Rejected? ==> start < r.line <= |lines| && OutsideThrough(lines, start, r.line - 1)
    ensures r.Rejected? ==> Top(lines, r.line - 1) && ModeAt(lines, r.line).Broken?
  {
    hide OpeningFence, LineText;
    var ordinary := NoFence;
    for i := start to |lines|
      invariant ModeAt(lines, i) == Outside(ordinary)
      invariant OutsideThrough(lines, start, i)
    {
      var line := LineText(lines[i]);
      if ordinary.Fence? {
        if Closes(ordinary, line) { ordinary := NoFence; }
        continue;
      }
      var f := ScanFence(line);
      if f.NoFence? { continue; }
      if !("test-" <= f.info) {
        ordinary := f;
        continue;
      }
      if line != "```test-field" && line != "```test-check" { return Rejected(i + 1); }
      return Ok(i);
    }
    return Ok(|lines|);
  }

  method ParseControl(lines: seq<string>, decode: Decoder, start: nat) returns (r: Result<Block>, end: nat)
    requires start < |lines|
    ensures r.Ok? ==>
              r.value.Control? && r.value.line == start + 1 && ReadControl(lines, decode, start) == Ok(r.value.decl)
    ensures r.Ok? ==> end < |lines| && end == CloserFrom(lines, start + 1)
    ensures r.Rejected? ==> ReadControl(lines, decode, start) == Rejected(r.line)
  {
    var kind := KindOf(LineText(lines[start]));
    end := start + 1;
    while end < |lines| && LineText(lines[end]) != "```"
      invariant start < end <= |lines|
      invariant CloserFrom(lines, start + 1) == CloserFrom(lines, end)
    {
      end := end + 1;
    }
    if end == |lines| { return Rejected(start + 1), 0; }
    var body := Join(lines[start + 1..end]);
    if ByteLength(body) > MAX_DECLARATION_BYTES { return Rejected(start + 1), 0; }
    var d := decode(kind, body, start + 2);
    match d
    case Ok(decl) => return Ok(Control(start + 1, decl)), end;
    case Rejected(line) => return Rejected(line), 0;
  }

  /** controlRegistry: the ids seen, with their lines, and whether the result is bound. */
  class ControlRegistry {
    var seen: map<string, nat>
    var boundResult: bool

    constructor ()
      ensures seen == map[] && !boundResult
    {
      seen, boundResult := map[], false;
    }

    method Add(line: nat, d: Declaration) returns (ok: bool)
      modifies this
      ensures ok == !((BindsResult(d) && old(boundResult)) || d.id in old(seen) || |old(seen)| >= MAX_CONTROLS)
      ensures ok ==> seen == old(seen)[d.id := line] && boundResult == (old(boundResult) || BindsResult(d))
      ensures !ok ==> seen == old(seen) && boundResult == old(boundResult)
    {
      if BindsResult(d) && boundResult { return false; }
      if d.id in seen { return false; }
      if |seen| >= MAX_CONTROLS { return false; }
      seen := seen[d.id := line];
      boundResult := boundResult || BindsResult(d);
      return true;
    }
  }

  predicate Registered(seen: map<string, nat>, bound: bool, lines: seq<string>, decode: Decoder, j: nat)
    requires j < |lines|
  {
    var r := ReadControl(lines, decode, j);
    r.Ok? && r.value.id in seen && seen[r.value.id] == j + 1 && (BindsResult(r.value) ==> bound)
  }

  predicate SeenAt(seen: map<string, nat>, lines: seq<string>, decode: Decoder, n: nat, id: string)
    requires n <= |lines| && id in seen
  {
    && seen[id] > 0 && seen[id] - 1 in OpenersBefore(lines, n)
    && ReadControl(lines, decode, seen[id] - 1).Ok? && ReadControl(lines, decode, seen[id] - 1).value.id == id
  }

  predicate BoundAt(lines: seq<string>, decode: Decoder, j: nat)
    requires j < |lines|
  {
    ReadControl(lines, decode, j).Ok? && BindsResult(ReadControl(lines, decode, j).value)
  }

  /** The registry knows exactly the controls opened before line n. */
  predicate Knows(seen: map<string, nat>, bound: bool, lines: seq<string>, decode: Decoder, n: nat)
    requires n <= |lines|
  {
    && |seen| == |OpenersBefore(lines, n)|
    && (forall j :: j in OpenersBefore(lines, n) ==> Registered(seen, bound, lines, decode, j))
    && (forall id :: id in seen ==> SeenAt(seen, lines, decode, n, id))
    && (bound ==> exists j :: j in OpenersBefore(lines, n) && BoundAt(lines, decode, j))
  }

  /** Inside a control every line up to its closer is body, and after the closer the document is at top level. */
  lemma {:induction false} ControlModes(lines: seq<string>, start: nat, i: nat)
    requires start < i <= |lines| && Opens(lines, start) && i <= CloserFrom(lines, start + 1)
    ensures ModeAt(lines, i) == Inside
    ensures i < |lines| && i == CloserFrom(lines, start + 1) ==> Top(lines, i + 1)
    decreases i
  {
    hide OpeningFence, Track, LineText;
    if i > start + 1 { ControlModes(lines, start, i - 1); }
  }

  /** Lines outside every control open none and are no fault. */
  lemma ProseIsQuiet(lines: seq<string>, decode: Decoder, a: nat, b: nat)
    requires a <= b <= |lines| && OutsideThrough(lines, a, b)
    ensures OpenersBefore(lines, b) == OpenersBefore(lines, a)
    ensures NoFaultBefore(lines, decode, a) ==> NoFaultBefore(lines, decode, b)
  {
    hide Step, ModeAt, ReadControl, Crowded;
    assert forall k :: a <= k < b ==> !Opens(lines, k) && Fault(lines, decode, k).Ok?;
  }

  /** A control adds one opener, its first line; nothing else in it can be at fault. */
  lemma ControlIsOne(lines: seq<string>, decode: Decoder, a: nat, b: nat)
    requires a < b <= |lines| && Opens(lines, a) && CloserFrom(lines, a + 1) == b - 1
    ensures Top(lines, b)
    ensures OpenersBefore(lines, b) == OpenersBefore(lines, a) + {a}
    ensures NoFaultBefore(lines, decode, a) && Fault(lines, decode, a).Ok? ==> NoFaultBefore(lines, decode, b)
  {
    hide ModeAt, ReadControl, Crowded, LineText;
    ControlModes(lines, a, b - 1);
    forall k | a < k < b
      ensures !Opens(lines, k) && Fault(lines, decode, k).Ok?
    {
      ControlModes(lines, a, k);
    }
  }

  lemma RegistryDecides(seen: map<string, nat>, bound: bool, lines: seq<string>, decode: Decoder, n: nat,
                        d: Declaration)
    requires n <= |lines| && Knows(seen, bound, lines, decode, n)
    ensures Crowded(lines, decode, n, d) <==> (BindsResult(d) && bound) || d.id in seen || |seen| >= MAX_CONTROLS
  {
    hide ReadControl, OpenersBefore;
    if d.id in seen {
      assert SeenAt(seen, lines, decode, n, d.id);
      assert Clash(ReadControl(lines, decode, seen[d.id] - 1).value, d);
    }
    if bound && BindsResult(d) {
      var j :| j in OpenersBefore(lines, n) && BoundAt(lines, decode, j);
      assert Clash(ReadControl(lines, decode, j).value, d);
    }
  }

  lemma RegisteredGrows(seen: map<string, nat>, bound: bool, lines: seq<string>, decode: Decoder, a: nat,
                        d: Declaration, j: nat)
    requires j <= a < |lines| && ReadControl(lines, decode, a) == Ok(d) && d.id !in seen
    requires j != a ==> Registered(seen, bound, lines, decode, j)
    ensures Registered(seen[d.id := a + 1], bound || BindsResult(d), lines, decode, j)
  {
    hide ReadControl;
  }

  lemma SeenGrows(seen: map<string, nat>, lines: seq<string>, decode: Decoder, a: nat, b: nat, d: Declaration,
                  id: string)
    requires a < b <= |lines| && ReadControl(lines, decode, a) == Ok(d)
    requires OpenersBefore(lines, b) == OpenersBefore(lines, a) + {a}
    requires id != d.id ==> id in seen && SeenAt(seen, lines, decode, a, id)
    ensures SeenAt(seen[d.id := a + 1], lines, decode, b, id)
  {
    hide ReadControl, OpenersBefore;
  }

  lemma CountGrows(seen: map<string, nat>, id: string, line: nat, openers: set<nat>, a: nat)
    requires id !in seen && a !in openers && |seen| == |openers|
    ensures |seen[id := line]| == |openers + {a}|
  {
    assert seen[id := line].Keys == seen.Keys + {id};
    assert |seen[id := line]| == |seen[id := line].Keys|;
  }

  lemma RegistryGrows(seen: map<string, nat>, bound: bool, lines: seq<string>, decode: Decoder, a: nat, b: nat,
                      d: Declaration)
    requires a < b <= |lines| && Knows(seen, bound, lines, decode, a)
    requires OpenersBefore(lines, b) == OpenersBefore(lines, a) + {a}
    requires ReadControl(lines, decode, a) == Ok(d) && d.id !in seen
    ensures Knows(seen[d.id := a + 1], bound || BindsResult(d), lines, decode, b)
  {
    hide ReadControl, OpenersBefore, Registered, SeenAt, BoundAt;
    var more, both := seen[d.id := a + 1], bound || BindsResult(d);
    CountGrows(seen, d.id, a + 1, OpenersBefore(lines, a), a);
    forall j | j in OpenersBefore(lines, b)
      ensures Registered(more, both, lines, decode, j)
    {
      RegisteredGrows(seen, bound, lines, decode, a, d, j);
    }
    forall id | id in more
      ensures SeenAt(more, lines, decode, b, id)
    {
      SeenGrows(seen, lines, decode, a, b, d, id);
    }
    BindingGrows(seen, bound, lines, decode, a, b, d);
  }

  lemma BindingGrows(seen: map<string, nat>, bound: bool, lines: seq<string>, decode: Decoder, a: nat, b: nat,
                     d: Declaration)
    requires a < b <= |lines| && Knows(seen, bound, lines, decode, a)
    requires OpenersBefore(lines, b) == OpenersBefore(lines, a) + {a}
    requires ReadControl(lines, decode, a) == Ok(d)
    ensures bound || BindsResult(d) ==> exists j :: j in OpenersBefore(lines, b) && BoundAt(lines, decode, j)
  {
    hide ReadControl, OpenersBefore;
    if BindsResult(d) {
      assert a in OpenersBefore(lines, b) && BoundAt(lines, decode, a);
    } else if bound {
      var j :| j in OpenersBefore(lines, a) && BoundAt(lines, decode, j);
      assert j in OpenersBefore(lines, b);
    }
  }

  lemma AppendTile(lines: seq<string>, decode: Decoder, blocks: seq<Block>, cuts: seq<nat>, b: Block, e: nat)
    requires Tiles(lines, decode, blocks, cuts)
    requires cuts[|blocks|] < e <= |lines| && Shows(lines, decode, b, cuts[|blocks|], e)
    ensures Tiles(lines, decode, blocks + [b], cuts + [e])
  {
    hide Shows;
    var more, marks := blocks + [b], cuts + [e];
    forall k | 0 <= k < |more|
      ensures Upright(lines, marks, k) && Shows(lines, decode, more[k], marks[k], marks[k + 1])
    {
      if k < |blocks| { assert Upright(lines, cuts, k); }
    }
  }

  lemma Unchanged(seen: map<string, nat>, bound: bool, lines: seq<string>, decode: Decoder, a: nat, b: nat)
    requires a <= b <= |lines| && Knows(seen, bound, lines, decode, a)
    requires OpenersBefore(lines, b) == OpenersBefore(lines, a)
    ensures Knows(seen, bound, lines, decode, b)
  {
    hide ReadControl, OpenersBefore;
    forall id | id in seen ensures SeenAt(seen, lines, decode, b, id) {
      assert SeenAt(seen, lines, decode, a, id);
    }
  }

  lemma BlameBroken(lines: seq<string>, decode: Decoder, i: nat)
    requires i < |lines| && NoFaultBefore(lines, decode, i) && Top(lines, i) && ModeAt(lines, i + 1).Broken?
    ensures Blames(lines, decode, i + 1)
  {
    assert Fault(lines, decode, i) == Rejected(i + 1);
  }

  lemma BlameControl(lines: seq<string>, decode: Decoder, i: nat, line: nat)
    requires i < |lines| && NoFaultBefore(lines, decode, i) && Opens(lines, i)
    requires ReadControl(lines, decode, i) == Rejected(line)
    ensures Blames(lines, decode, line)
  {
    assert Fault(lines, decode, i) == Rejected(line);
  }

  lemma JudgeCrowd(lines: seq<string>, decode: Decoder, i: nat, d: Declaration)
    requires i < |lines| && NoFaultBefore(lines, decode, i) && Opens(lines, i) && ReadControl(lines, decode, i) == Ok(d)
    ensures Fault(lines, decode, i).Ok? <==> !Crowded(lines, decode, i, d)
    ensures Crowded(lines, decode, i, d) ==> Blames(lines, decode, i + 1)
  {
    hide ReadControl, Crowded, OpenersBefore;
    assert Crowded(lines, decode, i, d) ==> Fault(lines, decode, i) == Rejected(i + 1);
  }

  lemma ShowControl(lines: seq<string>, decode: Decoder, b: Block, c: nat, e: nat)
    requires c < e <= |lines| && Opens(lines, c) && CloserFrom(lines, c + 1) == e - 1
    requires b.Control? && b.line == c + 1 && ReadControl(lines, decode, c) == Ok(b.decl)
    ensures Shows(lines, decode, b, c, e)
  {}

  lemma JoinNonempty(lines: seq<string>)
    requires lines != [] && lines[0] != ""
    ensures Join(lines) != ""
  {}

  /** Before the first line nothing is read. */
  lemma Beginning(lines: seq<string>, decode: Decoder)
    ensures Top(lines, 0) && NoFaultBefore(lines, decode, 0) && Knows(map[], false, lines, decode, 0)
    ensures Tiles(lines, decode, [], [0]) && Merged([]) && !ProseLast([])
  {
    assert OpenersBefore(lines, 0) == {};
  }

  method ParseProcedure(source: string, decode: Decoder) returns (r: Result<seq<Block>>, ghost cuts: seq<nat>)
    ensures SourceFault(source) ==> r == Rejected(1)
    ensures r.Ok? ==> Accepted(source, decode, r.value, cuts)
    ensures r.Rejected? && !SourceFault(source) ==> Blames(SplitAfter(source), decode, r.line)
  {
    hide *;
    cuts := [0];
    if SourceFault(source) { return Rejected(1), cuts; }
    var lines := SplitAfter(source);
    SplitAfterIsLines(source);
    Beginning(lines, decode);
    var blocks: seq<Block> := [];
    var controls := new ControlRegistry();
    var proseStart := 0;
    while true
      invariant proseStart <= |lines| && Top(lines, proseStart) && NoFaultBefore(lines, decode, proseStart)
      invariant Tiles(lines, decode, blocks, cuts) && |cuts| == |blocks| + 1 && cuts[|blocks|] == proseStart
      invariant Merged(blocks) && !ProseLast(blocks)
      invariant Knows(controls.seen, controls.boundResult, lines, decode, proseStart)
      decreases |lines| - proseStart
    {
      var next := NextControl(lines, proseStart);
      if next.Rejected? {
        ProseIsQuiet(lines, decode, proseStart, next.line - 1);
        BlameBroken(lines, decode, next.line - 1);
        return Rejected(next.line), cuts;
      }
      var start := next.value;
      ProseIsQuiet(lines, decode, proseStart, start);
      if start == |lines| {
        blocks, cuts := AppendMarkdown(lines, decode, blocks, cuts, proseStart, |lines|);
        Ending(source, decode, blocks, cuts);
        return Ok(blocks), cuts;
      }
      var block, end := ParseControl(lines, decode, start);
      if block.Rejected? {
        BlameControl(lines, decode, start, block.line);
        return Rejected(block.line), cuts;
      }
      var d := block.value.decl;
      ghost var seen, bound := controls.seen, controls.boundResult;
      Unchanged(seen, bound, lines, decode, proseStart, start);
      RegistryDecides(seen, bound, lines, decode, start, d);
      JudgeCrowd(lines, decode, start, d);
      var ok := controls.Add(block.value.line, d);
      if !ok { return Rejected(block.value.line), cuts; }
      ControlIsOne(lines, decode, start, end + 1);
      RegistryGrows(seen, bound, lines, decode, start, end + 1, d);
      blocks, cuts := AppendMarkdown(lines, decode, blocks, cuts, proseStart, start);
      ShowControl(lines, decode, block.value, start, end + 1);
      AppendTile(lines, decode, blocks, cuts, block.value, end + 1);
      MergedControl(blocks, block.value);
      blocks, cuts := blocks + [block.value], cuts + [end + 1];
      proseStart := end + 1;
    }
  }

  lemma MergedControl(blocks: seq<Block>, b: Block)
    requires Merged(blocks) && b.Control?
    ensures Merged(blocks + [b]) && !ProseLast(blocks + [b])
  {}

  lemma Ending(source: string, decode: Decoder, blocks: seq<Block>, cuts: seq<nat>)
    requires var lines := SplitAfter(source);
             !SourceFault(source) && NoFaultBefore(lines, decode, |lines|) && Tiles(lines, decode, blocks, cuts) &&
             Merged(blocks) && (ProseLast(blocks) ==> cuts[|blocks|] == |lines|) &&
             Join(lines[cuts[|blocks|]..|lines|]) == ""
    ensures Accepted(source, decode, blocks, cuts)
  {
    var lines := SplitAfter(source);
    assert lines[cuts[|blocks|]..|lines|] == lines[cuts[|blocks|]..];
  }

  /** The line an error names belongs to the first fault of the document. */
  predicate Blames(lines: seq<string>, decode: Decoder, line: nat) {
    exists i :: 0 <= i < |lines| && NoFaultBefore(lines, decode, i) && Fault(lines, decode, i) == Rejected(line)
  }

  predicate Accepted(source: string, decode: Decoder, blocks: seq<Block>, cuts: seq<nat>) {
    var lines := SplitAfter(source);
    && !SourceFault(source)
    && NoFaultBefore(lines, decode, |lines|)
    && Tiles(lines, decode, blocks, cuts)
    && Merged(blocks)
    && Join(lines[cuts[|blocks|]..]) == ""
    && (ProseLast(blocks) ==> cuts[|blocks|] == |lines|)
  }

  /** appendMarkdown: a run of lines becomes a block unless it has no text. */
  method AppendMarkdown(lines: seq<string>, decode: Decoder, blocks: seq<Block>, ghost cuts: seq<nat>, start: nat,
                        end: nat)
    returns (more: seq<Block>, ghost marks: seq<nat>)
    requires IsLines(lines) && start <= end <= |lines|
    requires Tiles(lines, decode, blocks, cuts) && cuts[|blocks|] == start
    requires Merged(blocks) && !ProseLast(blocks)
    requires Top(lines, start) && OutsideThrough(lines, start, end)
    ensures Tiles(lines, decode, more, marks) && |marks| == |more| + 1 && marks[|more|] <= end
    ensures Merged(more) && (ProseLast(more) ==> marks[|more|] == end)
    ensures more ==
            if Join(lines[start..end]) == "" then blocks else blocks + [Markdown(start + 1, Join(lines[start..end]))]
    ensures Join(lines[marks[|more|]..end]) == ""
    ensures end < |lines| ==> marks[|more|] == end
  {
    var text := Join(lines[start..end]);
    if text == "" {
      if start < end && end < |lines| {
        assert Ended(lines[start]);
        JoinNonempty(lines[start..end]);
      }
      return blocks, cuts;
    }
    assert start < end;
    AppendTile(lines, decode, blocks, cuts, Markdown(start + 1, text), end);
    assert lines[end..end] == [];
    return blocks + [Markdown(start + 1, text)], cuts + [end];
  }

  // ---- what acceptance means ----

  function SourceOf(lines: seq<string>, cuts: seq<nat>, k: nat): string
    requires k + 1 < |cuts| && cuts[k] <= cuts[k + 1] <= |lines|
  {
    Join(lines[cuts[k]..cuts[k + 1]])
  }

  /** The source lines of the first n blocks, in order. */
  function Sources(lines: seq<string>, decode: Decoder, blocks: seq<Block>, cuts: seq<nat>, n: nat): string
    requires Tiles(lines, decode, blocks, cuts) && n <= |blocks|
  {
    if n == 0 then ""
    else
      assert Upright(lines, cuts, n - 1);
      Sources(lines, decode, blocks, cuts, n - 1) + SourceOf(lines, cuts, n - 1)
  }

  lemma {:induction false} SourcesArePrefix(lines: seq<string>, decode: Decoder, blocks: seq<Block>, cuts: seq<nat>,
                                            n: nat)
    requires Tiles(lines, decode, blocks, cuts) && n <= |blocks|
    ensures cuts[n] <= |lines| && Sources(lines, decode, blocks, cuts, n) == Join(lines[..cuts[n]])
  {
    hide Shows;
    if n == 0 {
      assert lines[..0] == [];
    } else {
      assert Upright(lines, cuts, n - 1);
      SourcesArePrefix(lines, decode, blocks, cuts, n - 1);
      JoinAppend(lines[..cuts[n - 1]], lines[cuts[n - 1]..cuts[n]]);
      assert lines[..cuts[n - 1]] + lines[cuts[n - 1]..cuts[n]] == lines[..cuts[n]];
    }
  }

  /** The markdown texts and the control fences' lines, in order, are exactly the source. */
  lemma BlocksTileSource(source: string, decode: Decoder, blocks: seq<Block>, cuts: seq<nat>)
    requires Accepted(source, decode, blocks, cuts)
    ensures Sources(SplitAfter(source), decode, blocks, cuts, |blocks|) == source
    ensures forall k :: 0 <= k < |blocks| && blocks[k].Markdown? ==>
              Upright(SplitAfter(source), cuts, k) && blocks[k].text == SourceOf(SplitAfter(source), cuts, k)
  {
    hide ModeAt, ReadControl, Fault, NoFaultBefore, SourceFault, Merged, SplitAfter, Join;
    var lines, n := SplitAfter(source), cuts[|blocks|];
    SplitAfterIsLines(source);
    SourcesArePrefix(lines, decode, blocks, cuts, |blocks|);
    JoinAppend(lines[..n], lines[n..]);
    assert lines[..n] + lines[n..] == lines;
  }

  lemma CutsAscend(lines: seq<string>, decode: Decoder, blocks: seq<Block>, cuts: seq<nat>, i: nat, j: nat)
    requires Tiles(lines, decode, blocks, cuts) && i < j <= |blocks|
    ensures cuts[i] < cuts[j]
    decreases j
  {
    hide Shows;
    assert Upright(lines, cuts, j - 1);
    if i < j - 1 { CutsAscend(lines, decode, blocks, cuts, i, j - 1); }
  }

  /** Controls of an accepted document have unique ids, and at most one binds the result. */
  lemma ControlsDistinct(source: string, decode: Decoder, blocks: seq<Block>, cuts: seq<nat>, i: nat, j: nat)
    requires Accepted(source, decode, blocks, cuts)
    requires i < j < |blocks| && blocks[i].Control? && blocks[j].Control?
    ensures blocks[i].decl.id != blocks[j].decl.id
    ensures !(BindsResult(blocks[i].decl) && BindsResult(blocks[j].decl))
  {
    var lines := SplitAfter(source);
    CutsAscend(lines, decode, blocks, cuts, i, j);
    hide ReadControl, ModeAt;
    assert Upright(lines, cuts, i) && Shows(lines, decode, blocks[i], cuts[i], cuts[i + 1]);
    assert Upright(lines, cuts, j) && Shows(lines, decode, blocks[j], cuts[j], cuts[j + 1]);
    assert cuts[i] in OpenersBefore(lines, cuts[j]);
    assert Fault(lines, decode, cuts[j]).Ok?;
  }

  lemma AcceptedUniqueIds(source: string, decode: Decoder, blocks: seq<Block>, cuts: seq<nat>)
    requires Accepted(source, decode, blocks, cuts)
    ensures UniqueIds(blocks)
  {
    hide Accepted;
    forall i, j | 0 <= i < j < |blocks| && blocks[i].Control? && blocks[j].Control?
      ensures blocks[i].decl.id != blocks[j].decl.id
    {
      ControlsDistinct(source, decode, blocks, cuts, i, j);
    }
  }

  /** The block that line i belongs to. */
  lemma {:induction false} BlockOf(lines: seq<string>, decode: Decoder, blocks: seq<Block>, cuts: seq<nat>, n: nat,
                                   i: nat)
    returns (k: nat)
    requires Tiles(lines, decode, blocks, cuts) && n <= |blocks| && i < cuts[n]
    ensures k < n && Upright(lines, cuts, k) && cuts[k] <= i < cuts[k + 1]
  {
    hide Shows;
    assert Upright(lines, cuts, n - 1);
    if cuts[n - 1] <= i { k := n - 1; } else { k := BlockOf(lines, decode, blocks, cuts, n - 1, i); }
  }

  lemma {:induction false} EmptyJoin(lines: seq<string>, i: nat)
    requires Join(lines) == "" && i < |lines|
    ensures lines[i] == ""
  {
    if i > 0 { EmptyJoin(lines[1..], i - 1); }
  }

  predicate StartsControl(blocks: seq<Block>, cuts: seq<nat>, i: nat) {
    exists k :: 0 <= k < |blocks| && k < |cuts| && blocks[k].Control? && cuts[k] == i
  }

  lemma OneStart(lines: seq<string>, decode: Decoder, blocks: seq<Block>, cuts: seq<nat>, i: nat, k: nat)
    requires Tiles(lines, decode, blocks, cuts) && k < |blocks| && cuts[k] <= i < cuts[k + 1]
    ensures StartsControl(blocks, cuts, i) <==> blocks[k].Control? && i == cuts[k]
  {
    hide Shows, Upright;
    assert |cuts| == |blocks| + 1;
    if StartsControl(blocks, cuts, i) {
      var m :| 0 <= m < |blocks| && m < |cuts| && blocks[m].Control? && cuts[m] == i;
      if m < k { CutsAscend(lines, decode, blocks, cuts, m, k); }
      if k + 1 < m { CutsAscend(lines, decode, blocks, cuts, k + 1, m); }
    }
  }

  lemma RestOpensNothing(lines: seq<string>, n: nat, i: nat)
    requires n <= i < |lines| && Join(lines[n..]) == ""
    ensures !Opens(lines, i)
  {
    EmptyJoin(lines[n..], i - n);
    assert LineText(lines[i]) == "" && TrimBlanks("") == "";
  }

  /** A line starts a control block exactly if, read from the top, it opens one outside every ordinary fence. */
  lemma ControlsExact(source: string, decode: Decoder, blocks: seq<Block>, cuts: seq<nat>, i: nat)
    requires Accepted(source, decode, blocks, cuts) && i < |SplitAfter(source)|
    ensures Opens(SplitAfter(source), i) <==> StartsControl(blocks, cuts, i)
  {
    var lines, n := SplitAfter(source), |blocks|;
    hide ModeAt, Fault, ReadControl, Join;
    if i < cuts[n] {
      var k := BlockOf(lines, decode, blocks, cuts, n, i);
      OneStart(lines, decode, blocks, cuts, i, k);
      assert Shows(lines, decode, blocks[k], cuts[k], cuts[k + 1]);
      if blocks[k].Control? && i > cuts[k] { ControlModes(lines, cuts[k], i); }
      if blocks[k].Markdown? { assert ModeAt(lines, i + 1).Outside?; }
    } else {
      RestOpensNothing(lines, cuts[n], i);
      if StartsControl(blocks, cuts, i) {
        var m :| 0 <= m < n && m < |cuts| && blocks[m].Control? && cuts[m] == i;
        CutsAscend(lines, decode, blocks, cuts, m, n);
      }
    }
  }

  lemma RestIsEmpty(lines: seq<string>, c: nat, e: nat)
    requires c < e <= |lines| && Join(lines[c..]) == ""
    ensures Join(lines[c..e]) == ""
  {
    JoinAppend(lines[c..e], lines[e..]);
    assert lines[c..e] + lines[e..] == lines[c..];
  }

  /** Prose that starts at c cannot stop earlier in one tiling than in another. */
  lemma ProseStopsTogether(source: string, decode: Decoder, b1: seq<Block>, c1: seq<nat>, b2: seq<Block>, c2: seq<nat>,
                           k: nat)
    requires Accepted(source, decode, b1, c1) && Accepted(source, decode, b2, c2)
    requires k < |b1| && k < |b2| && c1[k] == c2[k] && b1[k].Markdown? && b2[k].Markdown?
    ensures c1[k + 1] >= c2[k + 1]
  {
    var lines := SplitAfter(source);
    hide ModeAt, ReadControl, Join, Fault;
    assert Upright(lines, c1, k) && Upright(lines, c2, k);
    assert Shows(lines, decode, b2[k], c2[k], c2[k + 1]);
    if k + 1 < |b1| {
      var e := c1[k + 1];
      assert b1[k + 1].Control? && Upright(lines, c1, k + 1) && Shows(lines, decode, b1[k + 1], e, c1[k + 2]);
      assert Opens(lines, e) && e + 1 <= |lines|;
      assert !ModeAt(lines, e + 1).Outside?;
    }
  }

  /** Two tilings that agree up to block k agree on block k. */
  lemma SameBlock(source: string, decode: Decoder, b1: seq<Block>, c1: seq<nat>, b2: seq<Block>, c2: seq<nat>, k: nat)
    requires Accepted(source, decode, b1, c1) && Accepted(source, decode, b2, c2)
    requires k < |b1| && k < |b2| && c1[k] == c2[k]
    ensures b1[k] == b2[k] && c1[k + 1] == c2[k + 1]
  {
    hide ModeAt, ReadControl, Join, Fault, NoFaultBefore, SourceFault, Merged, SplitAfter;
    var lines := SplitAfter(source);
    assert Upright(lines, c1, k) && Upright(lines, c2, k);
    assert Shows(lines, decode, b1[k], c1[k], c1[k + 1]) && Shows(lines, decode, b2[k], c2[k], c2[k + 1]);
    var c := c1[k];
    assert b1[k].Markdown? <==> ModeAt(lines, c + 1).Outside?;
    assert b2[k].Markdown? <==> ModeAt(lines, c + 1).Outside?;
    if b1[k].Markdown? {
      ProseStopsTogether(source, decode, b1, c1, b2, c2, k);
      ProseStopsTogether(source, decode, b2, c2, b1, c1, k);
    }
  }

  /** A tiling that has stopped has nothing left that another could show. */
  lemma NoMoreBlocks(source: string, decode: Decoder, b1: seq<Block>, c1: seq<nat>, b2: seq<Block>, c2: seq<nat>)
    requires Accepted(source, decode, b1, c1) && Accepted(source, decode, b2, c2)
    requires |b1| <= |b2| && c1[|b1|] == c2[|b1|]
    ensures |b1| == |b2|
  {
    var lines, n := SplitAfter(source), |b1|;
    if n < |b2| {
      hide ModeAt, ReadControl, Join, Fault, NoFaultBefore;
      assert Upright(lines, c2, n) && Shows(lines, decode, b2[n], c2[n], c2[n + 1]);
      RestIsEmpty(lines, c2[n], c2[n + 1]);
      RestOpensNothing(lines, c2[n], c2[n]);
    }
  }

  lemma {:induction false} SamePrefix(source: string, decode: Decoder, b1: seq<Block>, c1: seq<nat>, b2: seq<Block>,
                                      c2: seq<nat>, k: nat)
    requires Accepted(source, decode, b1, c1) && Accepted(source, decode, b2, c2)
    requires k <= |b1| && k <= |b2|
    ensures c1[k] == c2[k] && b1[..k] == b2[..k]
  {
    hide Shows, Upright, NoFaultBefore, Merged, SourceFault, Join, SplitAfter;
    if k > 0 {
      SamePrefix(source, decode, b1, c1, b2, c2, k - 1);
      SameBlock(source, decode, b1, c1, b2, c2, k - 1);
      assert b1[..k] == b1[..k - 1] + [b1[k - 1]] && b2[..k] == b2[..k - 1] + [b2[k - 1]];
    }
  }

  /** Acceptance determines the blocks: there is one way to read a document. */
  lemma ReadingUnique(source: string, decode: Decoder, b1: seq<Block>, c1: seq<nat>, b2: seq<Block>, c2: seq<nat>)
    requires Accepted(source, decode, b1, c1) && Accepted(source, decode, b2, c2)
    ensures b1 == b2
  {
    var n := if |b1| <= |b2| then |b1| else |b2|;
    SamePrefix(source, decode, b1, c1, b2, c2, n);
    hide Accepted;
    if |b1| <= |b2| {
      NoMoreBlocks(source, decode, b1, c1, b2, c2);
    } else {
      NoMoreBlocks(source, decode, b2, c2, b1, c1);
    }
    assert b1[..n] == b1 && b2[..n] == b2;
  }
}
