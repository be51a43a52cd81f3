/** The look-ahead window of a streamed answer. The last chunks are held back, so that the tag of a tool
that is recognised in them does not reach the client even if it arrives in pieces. */
module StreamWindow {
  import opened Options
  import opened Strings

  const DONE: string := "[DONE]"
  const WINDOW_SIZE := 6

  // ---------- Tool tags ----------

  function Tag(name: string): string {
    "<" + name + ">"
  }

  // The first configured tool whose opening tag occurs in the text.
  function DetectTools(tools: seq<string>, content: string): (r: Option<string>)
    ensures r.Some? ==> r.value in tools && Index(content, Tag(r.value)) >= 0
    ensures r.None? <==> forall t :: t in tools ==> Index(content, Tag(t)) < 0
  {
    if tools == [] then None
    else if Index(content, Tag(tools[0])) >= 0 then Some(tools[0])
    else DetectTools(tools[1..], content)
  }

  /** Of several tools whose tags occur, the one configured first is taken. */
  lemma {:induction false} FirstConfigured(tools: seq<string>, content: string, k: nat)
    requires k < |tools| && Index(content, Tag(tools[k])) >= 0
    requires forall j :: 0 <= j < k ==> Index(content, Tag(tools[j])) < 0
    ensures DetectTools(tools, content) == Some(tools[k])
  {
    if k > 0 {
      assert Index(content, Tag(tools[0])) < 0;
      forall j | 0 <= j < k - 1 ensures Index(content, Tag(tools[1..][j])) < 0 {
        assert tools[1..][j] == tools[j + 1];
      }
      FirstConfigured(tools[1..], content, k - 1);
    }
  }

  ghost predicate Tagged(tools: seq<string>, s: string) {
    exists t :: t in tools && Index(s, Tag(t)) >= 0
  }

  // ---------- Lines, events and the stream state ----------

  type ContentText = t: string | t != "" && t != DONE witness "a"

  // A line from the model: no content (passed on as it is), a content delta, or the end mark.
  datatype Line =
    | Blank(raw: string, parsed: bool)
    | Delta(text: ContentText)
    | Done

  // What is written to the client: a content delta, a raw line, or an error event.
  datatype Event = Text(content: string) | Raw(line: string) | Failed

  datatype Stream = Stream(
    window: seq<string>, toolDetected: bool, toolName: string, fullContent: string,
    hasResponse: bool, firstToken: bool, committed: bool, out: seq<Event>)

  function Start(committed: bool): Stream {
    Stream([], false, "", "", false, true, committed, [])
  }

  function Content(line: Line): string {
    match line
    case Blank(_, _) => ""
    case Delta(text) => text
    case Done => DONE
  }

  function RawLine(raw: string): Event {
    Raw(if "data: " <= raw then raw else "data: " + raw)
  }

  // ---------- Handling one line ----------

  function NoteFirstToken(s: Stream, content: string): Stream {
    if s.firstToken && content != DONE then s.(committed := true, firstToken := false, out := s.out + [Text("\n")])
    else s
  }

  function Push(s: Stream, content: string): Stream {
    s.(window := s.window + [content],
       fullContent := if content == DONE then s.fullContent else s.fullContent + content)
  }

  function Detect(tools: seq<string>, s: Stream): Stream {
    var joined := Join(s.window);
    match DetectTools(tools, joined)
    case None => s
    case Some(name) =>
      var i := Index(joined, Tag(name));
      s.(toolDetected := true, toolName := name, window := [joined[i..]],
         out := if i > 0 then s.out + [Text(joined[..i])] else s.out)
  }

  function Slide(s: Stream): Stream {
    if !s.toolDetected && |s.window| >= WINDOW_SIZE
    then s.(out := s.out + [Text(s.window[0])], window := s.window[1..])
    else s
  }

  function HandleLine(tools: seq<string>, enabled: bool, s: Stream, line: Line): Stream {
    if line.Blank? then s.(hasResponse := s.hasResponse || line.parsed, out := s.out + [RawLine(line.raw)])
    else
      var content := Content(line);
      var r := s.(hasResponse := s.hasResponse || line.Delta?);
      var p := Push(NoteFirstToken(r, content), content);
      Slide(if !p.toolDetected && enabled then Detect(tools, p) else p)
  }

  predicate OnlyNewlines(s: string) {
    s == "" || (s[0] == '\n' && OnlyNewlines(s[1..]))
  }

  /** An answer counts as blank exactly if it has no other character than newlines. */
  lemma {:induction false} BlankExactly(s: string)
    ensures OnlyNewlines(s) <==> forall c :: c in s ==> c == '\n'
  {
    if s != "" {
      assert s == [s[0]] + s[1..];
      assert s[0] in s && forall c :: c in s[1..] ==> c in s;
      BlankExactly(s[1..]);
    }
  }

  function WithoutDone(window: seq<string>): seq<string> {
    if window != [] && window[|window| - 1] == DONE then window[..|window| - 1] else window
  }

  function Complete(s: Stream): Stream {
    if !s.hasResponse || OnlyNewlines(s.fullContent) then s.(out := s.out + [Failed])
    else if s.window == [] then s
    else
      var w := WithoutDone(s.window);
      s.(window := w, out := s.out + [Text(Join(w)), RawLine(DONE)])
  }

  function Feed(tools: seq<string>, enabled: bool, s: Stream, lines: seq<Line>): Stream {
    if lines == [] then s
    else HandleLine(tools, enabled, Feed(tools, enabled, s, lines[..|lines| - 1]), lines[|lines| - 1])
  }

  /** The handler as the gateway runs it: one object per upstream call, updated line by line. */
  class StreamSession {
    const tools: seq<string>
    const enabled: bool
    var window: seq<string>
    var toolDetected: bool
    var toolName: string
    var fullContent: string
    var hasResponse: bool
    var firstToken: bool
    var committed: bool
    var out: seq<Event>

    function State(): Stream
      reads this
    {
      Stream(window, toolDetected, toolName, fullContent, hasResponse, firstToken, committed, out)
    }

    constructor (tools: seq<string>, enabled: bool, committed: bool)
      ensures this.tools == tools && this.enabled == enabled && State() == Start(committed)
    {
      this.tools, this.enabled := tools, enabled;
      window, toolDetected, toolName, fullContent := [], false, "", "";
      hasResponse, firstToken, this.committed, out := false, true, committed, [];
    }

    method HandleStreamChunk(line: Line)
      modifies this
      ensures State() == HandleLine(tools, enabled, old(State()), line)
    {
      var content := Content(line);
      ghost var s := State();
      if line.Delta? || (line.Blank? && line.parsed) {
        hasResponse := true;
      }
      if line.Blank? {
        out := out + [RawLine(line.raw)];
        return;
      }
      if firstToken && content != DONE {
        committed := true;
        firstToken := false;
        out := out + [Text("\n")];
      }
      window := window + [content];
      if content != DONE {
        fullContent := fullContent + content;
      }
      assert State() == Push(NoteFirstToken(s.(hasResponse := s.hasResponse || line.Delta?), content), content);
      if !toolDetected && enabled {
        DetectAndHandleTool();
      }
      if !toolDetected && |window| >= WINDOW_SIZE {
        out := out + [Text(window[0])];
        window := window[1..];
      }
    }

    method DetectAndHandleTool()
      modifies this
      ensures State() == Detect(tools, old(State()))
    {
      var currentContent := Join(window);
      var found := DetectTools(tools, currentContent);
      if found.None? {
        return;
      }
      toolDetected, toolName := true, found.value;
      var toolStartIndex := Index(currentContent, Tag(found.value));
      if toolStartIndex > 0 {
        out := out + [Text(currentContent[..toolStartIndex])];
      }
      window := [currentContent[toolStartIndex..]];
    }

    method CompleteStreamResponse()
      modifies this
      ensures State() == Complete(old(State()))
    {
      if !hasResponse || OnlyNewlines(fullContent) {
        out := out + [Failed];
        return;
      }
      if |window| > 0 {
        if window[|window| - 1] == DONE {
          window := window[..|window| - 1];
        }
        out := out + [Text(Join(window)), RawLine(DONE)];
      }
    }
  }

  // ---------- What has been received and sent ----------

  // The content deltas among the lines.
  function Contents(lines: seq<Line>): seq<string> {
    if lines == [] then []
    else
      var last := lines[|lines| - 1];
      Contents(lines[..|lines| - 1]) + (if last.Delta? then [last.text] else [])
  }

  // The content deltas and end marks among the lines.
  function Chunks(lines: seq<Line>): seq<string> {
    if lines == [] then []
    else Chunks(lines[..|lines| - 1]) + (if lines[|lines| - 1].Blank? then [] else [Content(lines[|lines| - 1])])
  }

  // All content text written to the client.
  function Sent(out: seq<Event>): string {
    if out == [] then ""
    else
      var last := out[|out| - 1];
      Sent(out[..|out| - 1]) + (if last.Text? then last.content else "")
  }

  function DoneMarks(out: seq<Event>): nat {
    if out == [] then 0
    else DoneMarks(out[..|out| - 1]) + (if out[|out| - 1] == RawLine(DONE) then 1 else 0)
  }

  function LastFew(cs: seq<string>, n: nat): seq<string> {
    if |cs| <= n then cs else cs[|cs| - n..]
  }

  lemma SentSnoc(out: seq<Event>, e: Event)
    ensures Sent(out + [e]) == Sent(out) + (if e.Text? then e.content else "")
    ensures DoneMarks(out + [e]) == DoneMarks(out) + (if e == RawLine(DONE) then 1 else 0)
  {
  }

  // ---------- Nothing is lost while no tool is detected ----------

  // What was sent so far: an opening newline, then the content that has left the window.
  function SentPart(cs: seq<string>, held: nat): string
    requires held <= |cs|
  {
    if cs == [] then "" else "\n" + Join(cs[..|cs| - held])
  }

  ghost predicate Holding(s: Stream, cs: seq<string>) {
    && s.window == LastFew(cs, WINDOW_SIZE - 1)
    && s.fullContent == Join(cs)
    && Sent(s.out) == SentPart(cs, |s.window|)
    && s.firstToken == (cs == [])
    && (cs != [] ==> s.hasResponse && s.committed)
  }

  lemma PushHolding(s: Stream, cs: seq<string>, c: string)
    requires Holding(s, cs) && c != DONE && !s.toolDetected
    ensures var p := Push(NoteFirstToken(s.(hasResponse := true), c), c);
            && p.window == LastFew(cs + [c], WINDOW_SIZE)
            && p.fullContent == Join(cs + [c])
            && Sent(p.out) == SentPart(cs + [c], |p.window|)
            && !p.firstToken && p.hasResponse && p.committed && !p.toolDetected
  {
    JoinSnoc(cs, c);
    SentSnoc(s.out, Text("\n"));
    assert LastFew(cs + [c], WINDOW_SIZE) == LastFew(cs, WINDOW_SIZE - 1) + [c];
    assert (cs + [c])[..|cs| - |s.window|] == cs[..|cs| - |s.window|];
  }

  // Sending the oldest of six chunks moves the boundary by one.
  lemma SentGrows(cs: seq<string>, held: nat)
    requires 0 < held <= |cs|
    ensures SentPart(cs, held) + cs[|cs| - held] == SentPart(cs, held - 1)
  {
    var k := |cs| - held;
    JoinSnoc(cs[..k], cs[k]);
    assert cs[..k + 1] == cs[..k] + [cs[k]];
    assert ("\n" + Join(cs[..k])) + cs[k] == "\n" + (Join(cs[..k]) + cs[k]);
  }

  lemma SlideHolding(p: Stream, cs: seq<string>)
    requires cs != [] && !p.toolDetected
    requires p.window == LastFew(cs, WINDOW_SIZE) && p.fullContent == Join(cs)
    requires Sent(p.out) == SentPart(cs, |p.window|) && !p.firstToken && p.hasResponse && p.committed
    ensures Holding(Slide(p), cs)
  {
    if |cs| >= WINDOW_SIZE {
      assert p.window == cs[|cs| - WINDOW_SIZE..];
      SentSnoc(p.out, Text(p.window[0]));
      SentGrows(cs, WINDOW_SIZE);
      assert p.window[1..] == LastFew(cs, WINDOW_SIZE - 1);
    }
  }

  lemma DeltaHolding(tools: seq<string>, enabled: bool, s: Stream, cs: seq<string>, text: ContentText)
    requires Holding(s, cs) && !s.toolDetected
    requires !HandleLine(tools, enabled, s, Delta(text)).toolDetected
    ensures Holding(HandleLine(tools, enabled, s, Delta(text)), cs + [text])
  {
    var p := Push(NoteFirstToken(s.(hasResponse := true), text), text);
    PushHolding(s, cs, text);
    SlideHolding(p, cs + [text]);
    assert HandleLine(tools, enabled, s, Delta(text)) == Slide(p);
  }

  lemma SentPlusHeld(cs: seq<string>, n: nat)
    ensures cs != [] ==> SentPart(cs, |LastFew(cs, n)|) + Join(LastFew(cs, n)) == "\n" + Join(cs)
  {
    var k := |cs| - |LastFew(cs, n)|;
    JoinSplit(cs, k);
    assert cs[k..] == LastFew(cs, n);
    assert ("\n" + Join(cs[..k])) + Join(cs[k..]) == "\n" + (Join(cs[..k]) + Join(cs[k..]));
  }

  lemma BlankHolding(tools: seq<string>, enabled: bool, s: Stream, cs: seq<string>, line: Line)
    requires Holding(s, cs) && line.Blank?
    ensures Holding(HandleLine(tools, enabled, s, line), cs)
  {
  }

  lemma DetectedStays(tools: seq<string>, enabled: bool, s: Stream, line: Line)
    requires s.toolDetected
    ensures HandleLine(tools, enabled, s, line).toolDetected
  {
  }

  lemma ContentsSnoc(lines: seq<Line>, line: Line)
    ensures Contents(lines + [line]) == if line.Delta? then Contents(lines) + [line.text] else Contents(lines)
  {
  }

  lemma FeedSnoc(tools: seq<string>, enabled: bool, s: Stream, lines: seq<Line>, line: Line)
    ensures Feed(tools, enabled, s, lines + [line]) == HandleLine(tools, enabled, Feed(tools, enabled, s, lines), line)
  {
  }

  lemma StepHolding(tools: seq<string>, enabled: bool, s: Stream, cs: seq<string>, line: Line)
    requires Holding(s, cs) && !s.toolDetected && !line.Done?
    requires !HandleLine(tools, enabled, s, line).toolDetected
    ensures Holding(HandleLine(tools, enabled, s, line), if line.Delta? then cs + [line.text] else cs)
  {
    match line
    case Blank(_, _) => BlankHolding(tools, enabled, s, cs, line);
    case Delta(text) => DeltaHolding(tools, enabled, s, cs, text);
  }

  lemma {:induction false} FeedHolding(tools: seq<string>, enabled: bool, committed: bool, lines: seq<Line>)
    requires Done !in lines && !Feed(tools, enabled, Start(committed), lines).toolDetected
    ensures Holding(Feed(tools, enabled, Start(committed), lines), Contents(lines))
  {
    if lines != [] {
      var front, last := lines[..|lines| - 1], lines[|lines| - 1];
      assert lines == front + [last] && last in lines;
      var s := Feed(tools, enabled, Start(committed), front);
      FeedSnoc(tools, enabled, Start(committed), front, last);
      ContentsSnoc(front, last);
      if s.toolDetected {
        DetectedStays(tools, enabled, s, last);
      }
      FeedHolding(tools, enabled, committed, front);
      StepHolding(tools, enabled, s, Contents(front), last);
    }
  }

  /** While no tool is detected, the text sent so far (after the opening newline) followed by the held
  window is all the content received, in order, and at most five chunks are held back. */
  lemma NothingLost(tools: seq<string>, enabled: bool, committed: bool, lines: seq<Line>)
    requires Done !in lines && !Feed(tools, enabled, Start(committed), lines).toolDetected
    ensures var s := Feed(tools, enabled, Start(committed), lines);
            && |s.window| <= 5
            && (if Contents(lines) == [] then Sent(s.out) == "" && s.window == []
                else Sent(s.out) + Join(s.window) == "\n" + Join(Contents(lines)))
  {
    FeedHolding(tools, enabled, committed, lines);
    SentPlusHeld(Contents(lines), WINDOW_SIZE - 1);
  }
}
