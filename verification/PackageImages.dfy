/** The image check of internal/campaign/package_files.go and its agreement with the parser on what is prose. */
module PackageImages {
  import opened Procedures
  import opened Fences
  import opened ProcedureParser

  // ---- one line ----

  /** Length of the longest prefix without any of the given characters. */
  function RunWithout(s: string, stop: string): (n: nat)
    ensures n <= |s| && (forall k :: 0 <= k < n ==> s[k] !in stop) && (n < |s| ==> s[n] in stop)
  {
    if s == "" || s[0] in stop then 0 else 1 + RunWithout(s[1..], stop)
  }

  /** Replaces each backquoted stretch by nothing, leftmost first; a lone or doubled backquote stays. */
  function StripCode(s: string): (r: string)
    ensures |r| <= |s|
    decreases |s|
  {
    if s == "" then ""
    else
      var n := RunWithout(s[1..], "`");
      if s[0] == '`' && n > 0 && n + 1 < |s| then StripCode(s[n + 2..])
      else [s[0]] + StripCode(s[1..])
  }

  datatype Image = NoImage | Image(target: string, length: nat)

  /** An inline image at the start of s. */
  function MatchImage(s: string): (m: Image)
    ensures m.Image? ==> 0 < m.length <= |s|
  {
    if !("![" <= s) then NoImage
    else
      var caption := RunWithout(s[2..], "]\n");
      var rest := s[2 + caption..];
      if !("](" <= rest) then NoImage
      else
        var n := RunWithout(rest[2..], ") \t\n\U{0C}\r");
        if n == 0 || 2 + n == |rest| || rest[2 + n] != ')' then NoImage
        else Image(rest[2..2 + n], 2 + caption + 2 + n + 1)
  }

  /** strings.Index(s, "![") or the length of s. */
  function ImageStart(s: string): (n: nat)
    ensures n <= |s| && (n < |s| ==> "![" <= s[n..])
  {
    if s == "" || "![" <= s then 0 else 1 + ImageStart(s[1..])
  }

  /** Every image the line embeds, read left to right, is inline and declared. */
  predicate ImagesDeclared(line: string, assets: seq<string>)
    decreases |line|
  {
    var start := ImageStart(line);
    start == |line| ||
    (var m := MatchImage(line[start..]);
     m.Image? && m.target in assets && ImagesDeclared(line[start + m.length..], assets))
  }

  method ValidateImageLine(line: string, assets: seq<string>) returns (ok: bool)
    ensures ok == ImagesDeclared(line, assets)
  {
    hide MatchImage, ImageStart;
    var rest := line;
    while true
      invariant ImagesDeclared(line, assets) == ImagesDeclared(rest, assets)
      decreases |rest|
    {
      var start := ImageStart(rest);
      if start == |rest| { return true; }
      var m := MatchImage(rest[start..]);
      if m.NoImage? { return false; }
      if m.target !in assets { return false; }
      rest := rest[start + m.length..];
    }
  }

  predicate LineOk(line: string, assets: seq<string>) {
    ImagesDeclared(StripCode(line), assets)
  }

  // ---- one markdown block ----

  /** Lines from i on, with fence f open before them: every line outside a fence passes. */
  predicate LinesOk(lines: seq<string>, assets: seq<string>, i: nat, f: Fence)
    requires i <= |lines|
    decreases |lines| - i
  {
    i == |lines| ||
    ((f.NoFence? && OpeningFence(lines[i]).NoFence? ==> LineOk(lines[i], assets)) &&
     LinesOk(lines, assets, i + 1, Track(f, lines[i])))
  }

  method ValidateMarkdownImages(markdown: string, assets: seq<string>) returns (ok: bool)
    ensures ok == LinesOk(Split(markdown), assets, 0, NoFence)
  {
    var code := NoFence;
    var lines := Split(markdown);
    for i := 0 to |lines|
      invariant LinesOk(lines, assets, 0, NoFence) == LinesOk(lines, assets, i, code)
    {
      var line := lines[i];
      if code.Fence? {
        if Closes(code, line) { code := NoFence; }
        continue;
      }
      var f := ScanFence(line);
      if f.Fence? {
        code := f;
        continue;
      }
      var good := ValidateImageLine(StripCode(line), assets);
      if !good { return false; }
    }
    return true;
  }

  predicate BlockOk(b: Block, assets: seq<string>) {
    b.Markdown? ==> LinesOk(Split(b.text), assets, 0, NoFence)
  }

  method ValidateImages(blocks: seq<Block>, assets: seq<string>) returns (ok: bool)
    ensures ok <==> forall k :: 0 <= k < |blocks| ==> BlockOk(blocks[k], assets)
  {
    for k := 0 to |blocks|
      invariant forall j :: 0 <= j < k ==> BlockOk(blocks[j], assets)
    {
      if blocks[k].Control? { continue; }
      var good := ValidateMarkdownImages(blocks[k].text, assets);
      if !good { return false; }
    }
    return true;
  }

  // ---- agreement with the parser ----

  /** The parser reads line i as prose: at top level and opening no fence. */
  predicate ProseLine(lines: seq<string>, i: nat)
    requires i < |lines|
  {
    Top(lines, i) && OpeningFence(LineText(lines[i])).NoFence?
  }

  predicate ProsePasses(lines: seq<string>, assets: seq<string>, i: nat)
    requires i < |lines|
  {
    ProseLine(lines, i) ==> LineOk(Chop(lines[i]), assets)
  }

  lemma EmptyLineOk(assets: seq<string>)
    ensures OpeningFence("").NoFence? && LineOk("", assets)
  {
    assert TrimBlanks("") == "";
    assert StripCode("") == "" && ImageStart("") == 0;
  }

  /** Where the parser stays outside controls, the tracker that keeps the CR moves as the parser does. */
  lemma TrackerFollows(lines: seq<string>, i: nat)
    requires i < |lines| && ModeAt(lines, i).Outside? && ModeAt(lines, i + 1).Outside?
    ensures ModeAt(lines, i + 1).fence == Track(ModeAt(lines, i).fence, Chop(lines[i]))
    ensures ProseLine(lines, i) <==> ModeAt(lines, i).fence.NoFence? && OpeningFence(Chop(lines[i])).NoFence?
  {
    FenceIgnoresReturn(lines[i]);
    hide OpeningFence, LineText, Chop;
  }

  /** Over one run of lines that the parser read outside controls, the restarted tracker is in the parser's state. */
  lemma {:induction false} RunAgrees(lines: seq<string>, assets: seq<string>, texts: seq<string>, c: nat, e: nat,
                                     i: nat)
    requires c <= i <= e <= |lines| && OutsideThrough(lines, c, e)
    requires texts == ChopAll(lines[c..e]) || texts == ChopAll(lines[c..e]) + [""]
    ensures LinesOk(texts, assets, i - c, ModeAt(lines, i).fence) <==>
            forall k :: i <= k < e ==> ProsePasses(lines, assets, k)
    decreases e - i
  {
    hide LineOk, ModeAt, OpeningFence, Track, LineText, Chop;
    if i < e {
      RunAgrees(lines, assets, texts, c, e, i + 1);
      assert texts[i - c] == Chop(lines[i]);
      TrackerFollows(lines, i);
      hide OutsideThrough, ProseLine;
      assert LinesOk(texts, assets, i - c, ModeAt(lines, i).fence) <==>
             ProsePasses(lines, assets, i) && LinesOk(texts, assets, i + 1 - c, ModeAt(lines, i + 1).fence);
    } else {
      EmptyLineOk(assets);
    }
  }

  lemma LinesOfRun(lines: seq<string>, c: nat, e: nat)
    requires IsLines(lines) && c < e <= |lines|
    ensures IsRun(lines[c..e])
  {
    hide Ended, NoNewline;
    var run := lines[c..e];
    assert forall k :: 0 <= k < |run| ==> run[k] == lines[c + k];
  }

  lemma BlockAgrees(lines: seq<string>, decode: Decoder, assets: seq<string>, b: Block, c: nat, e: nat)
    requires IsLines(lines) && c < e <= |lines| && Shows(lines, decode, b, c, e)
    ensures BlockOk(b, assets) <==> forall k :: c <= k < e ==> ProsePasses(lines, assets, k)
  {
    hide LinesOk, LineOk, IsLines, Split, ProsePasses, ModeAt, ReadControl, ChopAll;
    match b
    case Markdown(_, text) => ProseAgrees(lines, assets, text, c, e);
    case Control(_, _) => ControlPasses(lines, assets, c, e);
  }

  lemma ProseAgrees(lines: seq<string>, assets: seq<string>, text: string, c: nat, e: nat)
    requires IsLines(lines) && c < e <= |lines| && Top(lines, c) && OutsideThrough(lines, c, e)
    requires text == Join(lines[c..e])
    ensures LinesOk(Split(text), assets, 0, NoFence) <==> forall k :: c <= k < e ==> ProsePasses(lines, assets, k)
  {
    hide LinesOk, IsLines, IsRun, Split, Join, ProsePasses, ModeAt, ChopAll, OutsideThrough;
    LinesOfRun(lines, c, e);
    SplitJoin(lines[c..e]);
    RunAgrees(lines, assets, Split(text), c, e, c);
  }

  /** No line of a control is prose: the first opens a fence, the others are read inside it. */
  lemma ControlPasses(lines: seq<string>, assets: seq<string>, c: nat, e: nat)
    requires c < e <= |lines| && Opens(lines, c) && CloserFrom(lines, c + 1) == e - 1
    ensures forall k :: c <= k < e ==> ProsePasses(lines, assets, k)
  {
    hide Opens, ProseLine, CloserFrom, LineOk, Chop;
    forall k | c <= k < e
      ensures ProsePasses(lines, assets, k)
    {
      if k > c { BodyIsNoProse(lines, c, k); } else { OpenerIsNoProse(lines, c); }
    }
  }

  lemma BodyIsNoProse(lines: seq<string>, c: nat, k: nat)
    requires c < k < |lines| && Opens(lines, c) && k <= CloserFrom(lines, c + 1)
    ensures !ProseLine(lines, k)
  {
    hide Opens, ModeAt, CloserFrom, OpeningFence, LineText;
    ControlModes(lines, c, k);
  }

  lemma OpenerIsNoProse(lines: seq<string>, c: nat)
    requires c < |lines| && Opens(lines, c)
    ensures !ProseLine(lines, c)
  {
    hide OpeningFence, LineText;
  }

  /** The image check accepts a parsed document exactly if every line the parser read as prose passes. */
  lemma FenceAgreement(source: string, decode: Decoder, assets: seq<string>, blocks: seq<Block>, cuts: seq<nat>)
    requires Accepted(source, decode, blocks, cuts)
    ensures (forall k :: 0 <= k < |blocks| ==> BlockOk(blocks[k], assets)) <==>
            (forall i :: 0 <= i < |SplitAfter(source)| ==> ProsePasses(SplitAfter(source), assets, i))
  {
    var lines, n := SplitAfter(source), |blocks|;
    SplitAfterIsLines(source);
    hide BlockOk, ProsePasses, Fault, Shows;
    if forall k :: 0 <= k < n ==> BlockOk(blocks[k], assets) {
      forall i | 0 <= i < |lines|
        ensures ProsePasses(lines, assets, i)
      {
        if i < cuts[n] {
          var k := BlockOf(lines, decode, blocks, cuts, n, i);
          BlockAgrees(lines, decode, assets, blocks[k], cuts[k], cuts[k + 1]);
        } else {
          RestPasses(lines, assets, cuts[n], i);
        }
      }
    }
    if forall i :: 0 <= i < |lines| ==> ProsePasses(lines, assets, i) {
      forall k | 0 <= k < n
        ensures BlockOk(blocks[k], assets)
      {
        assert Upright(lines, cuts, k);
        BlockAgrees(lines, decode, assets, blocks[k], cuts[k], cuts[k + 1]);
      }
    }
  }

  lemma RestPasses(lines: seq<string>, assets: seq<string>, n: nat, i: nat)
    requires n <= i < |lines| && Join(lines[n..]) == ""
    ensures ProsePasses(lines, assets, i)
  {
    EmptyJoin(lines[n..], i - n);
    EmptyLineOk(assets);
  }
}
