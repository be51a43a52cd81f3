/** One streaming attempt: an upstream call, and as long as its answer asks for a tool, the tool's
result added to the messages and another upstream call. */
module ToolLoop {
  import opened Options
  import opened Strings
  import opened Failures
  import opened StreamWindow
  import opened StreamAfterTag
  import opened StreamCompletion
  import opened StreamDetection

  const MAX_TOOL_CALL_DEPTH: nat := 6
  const MAX_TOOL_RESULT_LENGTH: nat := 100_000
  const CUT_NOTE := "... (truncated due to excessive length)"

  datatype Body = Whole(text: string) | Parts(parts: seq<string>)
  datatype Message = Message(role: string, content: Body)

  // said is the whole answer that asked for the tool; output is the result as handed to the model.
  datatype ToolCall = ToolCall(name: string, input: string, said: string, output: string)
  datatype ToolResult = Found(text: string) | Broken(reason: string)

  // A line as it arrives, and what it parses to.
  datatype Received = Received(raw: string, line: Line)
  datatype Reply = Reply(received: seq<Received>, failure: Option<Failure>)

  // raw: lines are passed on unread. upstream and runTool answer the n-th call of their kind.
  datatype Setup = Setup(
    raw: bool, tools: seq<string>, detecting: bool, advice: string,
    upstream: (nat, string, seq<Message>) -> Reply, runTool: (nat, string, string) -> ToolResult)

  datatype Chat = Chat(messages: seq<Message>, committed: bool, out: seq<Event>, asked: nat, ran: seq<ToolCall>)
  datatype Ended = Ended(chat: Chat, failure: Option<Failure>)

  // ---------- Passing lines on unread ----------

  predicate IsSpace(c: char) {
    c in " \t\n\r\U{0b}\U{0c}\U{85}\U{a0}\U{1680}\U{2028}\U{2029}\U{202f}\U{205f}\U{3000}"
    || '\U{2000}' <= c <= '\U{200a}'
  }

  function TrimLeft(s: string): string {
    if s != "" && IsSpace(s[0]) then TrimLeft(s[1..]) else s
  }

  function TrimRight(s: string): string {
    if s != "" && IsSpace(s[|s| - 1]) then TrimRight(s[..|s| - 1]) else s
  }

  function Payload(raw: string): string {
    if "data: " <= raw then
      var data := TrimRight(TrimLeft(raw[6..]));
      if data == "\"\"" || data == DONE then "" else data
    else ""
  }

  function Payloads(received: seq<Received>): string {
    if received == [] then "" else Payloads(received[..|received| - 1]) + Payload(received[|received| - 1].raw)
  }

  function PassOn(c: Chat, received: seq<Received>): Chat {
    if received == [] then c
    else
      var rest, last := PassOn(c, received[..|received| - 1]), received[|received| - 1];
      if last.raw == "" then rest else rest.(committed := true, out := rest.out + [Raw(last.raw)])
  }

  const NO_CONTENT := Failure("", false, Api(INVALID_RESPONSE, 500))

  function RespondRaw(setup: Setup, c: Chat, model: string): Ended {
    var reply := setup.upstream(c.asked, model, c.messages);
    var passed := PassOn(c.(asked := c.asked + 1), reply.received);
    if reply.failure.Some? then Ended(passed, reply.failure)
    else if OnlyNewlines(Payloads(reply.received)) then Ended(passed, Some(NO_CONTENT))
    else Ended(passed, None)
  }

  // ---------- Reading the answer, running tools ----------

  function Lines(received: seq<Received>): seq<Line> {
    if received == [] then [] else Lines(received[..|received| - 1]) + [received[|received| - 1].line]
  }

  // The stream state when the upstream call has ended.
  function Read(setup: Setup, c: Chat, model: string, depth: nat): Stream {
    Feed(setup.tools, setup.detecting && depth > 0, Start(c.committed),
         Lines(setup.upstream(c.asked, model, c.messages).received))
  }

  function Shorten(result: string): string {
    if |result| > MAX_TOOL_RESULT_LENGTH
    then result[..MAX_TOOL_RESULT_LENGTH] + CUT_NOTE else result
  }

  function Dots(n: nat): seq<Event> {
    if n == 0 then [] else Dots(n - 1) + [Text(".")]
  }

  function Announcement(tool: string): seq<Event> {
    [Text("\n#### \U{1F50D} " + "`" + tool + "` " + "\U{5DE5}\U{5177}\U{68C0}\U{7D22}\U{4E2D}")] + Dots(5)
  }

  const ANALYZING: seq<Event> :=
    [Text("\n#### \U{1F4A1} \U{68C0}\U{7D22}\U{5DF2}\U{5B8C}\U{6210}\U{FF0C}\U{5206}\U{6790}\U{4E2D}")] + Dots(3)
    + [Text("\n")]

  // The two messages a tool call adds.
  function Exchange(call: ToolCall, advice: string): seq<Message> {
    [Message("assistant", Whole(call.said)),
     Message("user", Parts(["[" + call.name + "] Result:", call.output, advice]))]
  }

  // What the model is told of the n-th tool run.
  function OutputOf(setup: Setup, n: nat, name: string, input: string): string {
    match setup.runTool(n, name, input)
    case Broken(reason) => name + " execute failed, err: " + reason
    case Found(text) => Shorten(text)
  }

  /** What the model is told: a result that fits, unchanged; of a longer one the first part and a note, so
  never more than that; of a failure the tool's name and the reason. */
  lemma OutputMeans(setup: Setup, n: nat, name: string, input: string)
    ensures var r, told := setup.runTool(n, name, input), OutputOf(setup, n, name, input);
            && (r.Found? && |r.text| <= MAX_TOOL_RESULT_LENGTH ==> told == r.text)
            && (r.Found? && |r.text| > MAX_TOOL_RESULT_LENGTH ==>
                  told[..MAX_TOOL_RESULT_LENGTH] == r.text[..MAX_TOOL_RESULT_LENGTH]
                  && told[MAX_TOOL_RESULT_LENGTH..] == CUT_NOTE)
            && (r.Found? ==> |told| <= MAX_TOOL_RESULT_LENGTH + |CUT_NOTE|)
            && (r.Broken? ==> name <= told && |told| >= |r.reason| && told[|told| - |r.reason|..] == r.reason)
  {
  }

  // What a tool's run is told as: a result of at most 100000 characters as it is, of a longer one that much and a
  // note, and of a failure the tool's name and the reason.
  ghost predicate Tells(told: string, name: string, result: ToolResult) {
    match result
    case Found(text) =>
      if |text| <= 100_000 then told == text
      else told == text[..100_000] + "... (truncated due to excessive length)"
    case Broken(reason) => told == name + " execute failed, err: " + reason
  }

  // The model's own answer, and the user message with the result between a heading and the advice.
  ghost predicate ToldIn(said: Message, told: Message, answer: string, name: string, result: ToolResult,
                         advice: string)
  {
    && said.role == "assistant" && said.content == Whole(answer)
    && told.role == "user" && told.content.Parts? && |told.content.parts| == 3
    && told.content.parts[0] == "[" + name + "] Result:"
    && Tells(told.content.parts[1], name, result)
    && told.content.parts[2] == advice
  }

  lemma OutputTells(setup: Setup, n: nat, name: string, input: string)
    ensures Tells(OutputOf(setup, n, name, input), name, setup.runTool(n, name, input))
  {
  }

  function CallFor(setup: Setup, c: Chat, s: Stream): ToolCall {
    var input := Join(s.window);
    ToolCall(s.toolName, input, s.fullContent, OutputOf(setup, |c.ran|, s.toolName, input))
  }

  function Execute(setup: Setup, c: Chat, s: Stream): Chat {
    var call := CallFor(setup, c, s);
    c.(messages := c.messages + Exchange(call, setup.advice),
       out := c.out + Announcement(s.toolName) + ANALYZING,
       ran := c.ran + [call])
  }

  function Absorb(c: Chat, s: Stream): Chat {
    c.(asked := c.asked + 1, committed := s.committed, out := c.out + s.out)
  }

  function Respond(setup: Setup, c: Chat, model: string, depth: nat): Ended
    decreases depth
  {
    if setup.raw then RespondRaw(setup, c, model)
    else
      var s, failure := Read(setup, c, model, depth), setup.upstream(c.asked, model, c.messages).failure;
      if failure.Some? then Ended(Absorb(c, s), failure)
      else if !s.toolDetected then Ended(Absorb(c, Complete(s)), None)
      else
        DetectionNeedsDepth(setup, c, model, depth);
        Respond(setup, Execute(setup, Absorb(c, s), s), model, depth - 1)
  }

  lemma {:induction false} DisabledDetectsNothing(tools: seq<string>, committed: bool, lines: seq<Line>)
    ensures !Feed(tools, false, Start(committed), lines).toolDetected
  {
    if lines != [] {
      DisabledDetectsNothing(tools, committed, lines[..|lines| - 1]);
    }
  }

  lemma DetectionNeedsDepth(setup: Setup, c: Chat, model: string, depth: nat)
    ensures Read(setup, c, model, depth).toolDetected ==> setup.detecting && depth > 0
  {
    DisabledDetectsNothing(setup.tools, c.committed, Lines(setup.upstream(c.asked, model, c.messages).received));
  }

  /** An attempt of the streaming path begins uncommitted, with the full depth. */
  function Attempt(setup: Setup, c: Chat, model: string): Ended {
    Respond(setup, c.(committed := false), model, MAX_TOOL_CALL_DEPTH)
  }

  /** The request's state as the gateway keeps it: messages, output and the committed flag are updated
  while an attempt runs. */
  class StreamingChat {
    const setup: Setup
    var messages: seq<Message>
    var committed: bool
    var out: seq<Event>
    var asked: nat
    var ran: seq<ToolCall>

    function State(): Chat
      reads this
    {
      Chat(messages, committed, out, asked, ran)
    }

    constructor (setup: Setup, messages: seq<Message>)
      ensures this.setup == setup && State() == Chat(messages, false, [], 0, [])
    {
      this.setup, this.messages := setup, messages;
      committed, out, asked, ran := false, [], 0, [];
    }

    method RunAttempt(model: string) returns (failure: Option<Failure>)
      modifies this
      ensures Ended(State(), failure) == Attempt(setup, old(State()), model)
    {
      committed := false;
      failure := HandleStreamingWithTools(model, MAX_TOOL_CALL_DEPTH);
    }

    method HandleStreamingWithTools(model: string, depth: nat) returns (failure: Option<Failure>)
      modifies this
      ensures Ended(State(), failure) == Respond(setup, old(State()), model, depth)
      decreases depth, 2
    {
      if setup.raw {
        failure := HandleRawModeStream(model);
        return;
      }
      DetectionNeedsDepth(setup, State(), model, depth);
      var session;
      session, failure := ProcessStream(model, depth);
      if failure.Some? {
        return;
      }
      if session.toolDetected {
        failure := HandleToolExecution(session, model, depth);
      } else {
        var sent := session.out;
        CompleteExtends(session.State());
        session.CompleteStreamResponse();
        out := out + session.out[|sent|..];
      }
    }

    method ProcessStream(model: string, depth: nat) returns (session: StreamSession, failure: Option<Failure>)
      modifies this
      ensures fresh(session) && session.State() == Read(setup, old(State()), model, depth)
      ensures State() == Absorb(old(State()), session.State())
      ensures failure == setup.upstream(old(asked), model, old(messages)).failure
    {
      ghost var c := State();
      var reply := setup.upstream(asked, model, messages);
      session := ReadReply(reply, depth);
      assert session.State() == Read(setup, c, model, depth);
      asked := asked + 1;
      committed, out := session.committed, out + session.out;
      failure := reply.failure;
    }

    method ReadReply(reply: Reply, depth: nat) returns (session: StreamSession)
      ensures fresh(session)
      ensures session.State()
              == Feed(setup.tools, setup.detecting && depth > 0, Start(committed), Lines(reply.received))
    {
      session := new StreamSession(setup.tools, setup.detecting && depth > 0, committed);
      ReadLines(session, reply.received);
    }

    method ReadLines(session: StreamSession, received: seq<Received>)
      modifies session
      ensures session.State() == Feed(session.tools, session.enabled, old(session.State()), Lines(received))
    {
      ghost var start := session.State();
      for i := 0 to |received|
        invariant session.State() == Feed(session.tools, session.enabled, start, Lines(received[..i]))
      {
        FeedNext(session.tools, session.enabled, start, received, i);
        session.HandleStreamChunk(received[i].line);
      }
      assert received[..|received|] == received;
    }

    method HandleToolExecution(session: StreamSession, model: string, depth: nat) returns (failure: Option<Failure>)
      requires depth > 0
      modifies this
      ensures Ended(State(), failure)
              == Respond(setup, Execute(setup, old(State()), old(session.State())), model, depth - 1)
      ensures TellsResult(old(State()), old(session.State()), messages)
      decreases depth, 1
    {
      ApplyTool(session);
      OnlyToolsWriteMessages(setup, State(), model, depth - 1);
      failure := HandleStreamingWithTools(model, depth - 1);
    }

    method ApplyTool(session: StreamSession)
      modifies this
      ensures State() == Execute(setup, old(State()), old(session.State()))
      ensures TellsResult(old(State()), old(session.State()), messages)
    {
      var toolContent := Join(session.window);
      SendAnnouncement(session.toolName);
      var result := RunTool(session.toolName, toolContent);
      var call := ToolCall(session.toolName, toolContent, session.fullContent, result);
      messages := messages + Exchange(call, setup.advice);
      ran := ran + [call];
      out := out + ANALYZING;
      OutputTells(setup, |ran| - 1, call.name, toolContent);
    }

    // The messages begin with the ones before the tool was run and the two that tell of it.
    ghost predicate TellsResult(c: Chat, s: Stream, now: seq<Message>) {
      && |c.messages| + 2 <= |now| && c.messages <= now
      && ToldIn(now[|c.messages|], now[|c.messages| + 1], s.fullContent, s.toolName,
                setup.runTool(|c.ran|, s.toolName, Join(s.window)), setup.advice)
    }

    method RunTool(name: string, toolContent: string) returns (result: string)
      ensures result == OutputOf(setup, |ran|, name, toolContent)
    {
      match setup.runTool(|ran|, name, toolContent) {
        case Broken(reason) =>
          result := name + " execute failed, err: " + reason;
        case Found(text) =>
          result := text;
          if |text| > MAX_TOOL_RESULT_LENGTH {
            result := text[..MAX_TOOL_RESULT_LENGTH] + CUT_NOTE;
          }
      }
    }

    method SendAnnouncement(tool: string)
      modifies this`out
      ensures out == old(out) + Announcement(tool)
    {
      var sent := [Text("\n#### \U{1F50D} " + "`" + tool + "` " + "\U{5DE5}\U{5177}\U{68C0}\U{7D22}\U{4E2D}")];
      for i := 0 to 5
        invariant sent == Announcement(tool)[..1] + Dots(i)
      {
        sent := sent + [Text(".")];
      }
      out := out + sent;
    }

    method HandleRawModeStream(model: string) returns (failure: Option<Failure>)
      modifies this
      ensures Ended(State(), failure) == RespondRaw(setup, old(State()), model)
    {
      var reply := setup.upstream(asked, model, messages);
      asked := asked + 1;
      var content := PassLines(reply.received);
      if reply.failure.Some? {
        return reply.failure;
      }
      return if OnlyNewlines(content) then Some(NO_CONTENT) else None;
    }

    method PassLines(received: seq<Received>) returns (content: string)
      modifies this
      ensures State() == PassOn(old(State()), received) && content == Payloads(received)
    {
      content := "";
      ghost var c := State();
      for i := 0 to |received|
        invariant State() == PassOn(c, received[..i]) && content == Payloads(received[..i])
      {
        var line := received[i].raw;
        assert received[..i + 1][..i] == received[..i];
        if line != "" {
          content := content + Payload(line);
          committed := true;
          out := out + [Raw(line)];
        }
      }
      assert received[..|received|] == received;
    }
  }

  lemma LinesSnoc(received: seq<Received>, last: Received)
    ensures Lines(received + [last]) == Lines(received) + [last.line]
  {
  }

  lemma FeedNext(tools: seq<string>, enabled: bool, s: Stream, received: seq<Received>, i: nat)
    requires i < |received|
    ensures Feed(tools, enabled, s, Lines(received[..i + 1]))
         == HandleLine(tools, enabled, Feed(tools, enabled, s, Lines(received[..i])), received[i].line)
  {
    assert received[..i + 1] == received[..i] + [received[i]];
    LinesSnoc(received[..i], received[i]);
    FeedSnoc(tools, enabled, s, Lines(received[..i]), received[i].line);
  }

  lemma CompleteExtends(s: Stream)
    ensures Complete(s).out == s.out + Complete(s).out[|s.out|..] && |s.out| <= |Complete(s).out|
    ensures Complete(s).committed == s.committed
  {
  }

  // ---------- What an attempt does to the messages ----------

  function Transcript(calls: seq<ToolCall>, advice: string): (r: seq<Message>)
    ensures |r| == 2 * |calls|
  {
    if calls == [] then [] else Transcript(calls[..|calls| - 1], advice) + Exchange(calls[|calls| - 1], advice)
  }

  lemma {:induction false} TranscriptAppend(a: seq<ToolCall>, b: seq<ToolCall>, advice: string)
    ensures Transcript(a + b, advice) == Transcript(a, advice) + Transcript(b, advice)
  {
    if b == [] {
      assert a + b == a;
    } else {
      TranscriptAppend(a, b[..|b| - 1], advice);
      assert (a + b)[..|a + b| - 1] == a + b[..|b| - 1];
    }
  }

  // r continues c: `calls` were run, each adding its two messages after another upstream call.
  ghost predicate Continues(setup: Setup, c: Chat, r: Chat, calls: seq<ToolCall>) {
    && r.ran == c.ran + calls
    && r.messages == c.messages + Transcript(calls, setup.advice)
    && r.asked == c.asked + 1 + |calls|
    && c.out <= r.out
    && (c.committed || calls != [] ==> r.committed)
    && (forall call :: call in calls ==> call.name in setup.tools && Tag(call.name) <= call.input)
  }

  // A detected tool is a configured one, and the window begins with its tag.
  ghost predicate KnownTool(tools: seq<string>, s: Stream) {
    s.toolDetected ==> s.toolName in tools && s.window != [] && Tag(s.toolName) <= s.window[0]
  }

  lemma KnownStep(tools: seq<string>, enabled: bool, s: Stream, line: Line)
    requires KnownTool(tools, s)
    ensures KnownTool(tools, HandleLine(tools, enabled, s, line))
  {
  }

  lemma {:induction false} KnownFeed(tools: seq<string>, enabled: bool, committed: bool, lines: seq<Line>)
    ensures KnownTool(tools, Feed(tools, enabled, Start(committed), lines))
  {
    if lines != [] {
      KnownFeed(tools, enabled, committed, lines[..|lines| - 1]);
      KnownStep(tools, enabled, Feed(tools, enabled, Start(committed), lines[..|lines| - 1]), lines[|lines| - 1]);
    }
  }

  // Reading an answer commits exactly when it brings content, and a tool needs content.
  lemma ReadCommits(setup: Setup, c: Chat, model: string, depth: nat)
    ensures var s := Read(setup, c, model, depth);
            var brings := Contents(Lines(setup.upstream(c.asked, model, c.messages).received)) != [];
            && (s.committed <==> c.committed || brings)
            && (s.toolDetected ==> brings)
            && (!brings ==> Uncommitted(s, c.committed))
            && KnownTool(setup.tools, s)
  {
    var lines := Lines(setup.upstream(c.asked, model, c.messages).received);
    KnownFeed(setup.tools, setup.detecting && depth > 0, c.committed, lines);
    if Contents(lines) == [] {
      NoDeltaNoCommit(setup.tools, setup.detecting && depth > 0, c.committed, lines);
    } else {
      DeltaCommits(setup.tools, setup.detecting && depth > 0, c.committed, lines);
    }
  }

  lemma CallIsKnown(setup: Setup, c: Chat, s: Stream)
    requires KnownTool(setup.tools, s) && s.toolDetected
    ensures var call := CallFor(setup, c, s); call.name in setup.tools && Tag(call.name) <= call.input
  {
    JoinFront(s.window);
  }

  lemma {:induction false} PassOnExtends(c: Chat, received: seq<Received>)
    ensures var p := PassOn(c, received);
            && c.out <= p.out && p.messages == c.messages && p.ran == c.ran && p.asked == c.asked
            && (p.committed <==> c.committed || exists x :: x in received && x.raw != "")
            && (!p.committed ==> p.out == c.out)
  {
    if received != [] {
      var front, last := received[..|received| - 1], received[|received| - 1];
      assert received == front + [last];
      PassOnExtends(c, front);
      assert forall x :: x in received <==> x in front || x == last;
    }
  }

  lemma ContinuesAfter(setup: Setup, c: Chat, c2: Chat, call: ToolCall, r: Chat, calls: seq<ToolCall>)
    requires c2.ran == c.ran + [call] && c2.messages == c.messages + Exchange(call, setup.advice)
             && c2.asked == c.asked + 1
    requires c.out <= c2.out && c2.committed && call.name in setup.tools && Tag(call.name) <= call.input
    requires Continues(setup, c2, r, calls)
    ensures Continues(setup, c, r, [call] + calls)
  {
    assert c.ran + [call] + calls == c.ran + ([call] + calls);
    TranscriptAppend([call], calls, setup.advice);
    assert [call][..0] == [];
    assert Transcript([call], setup.advice) == Exchange(call, setup.advice);
    assert c.messages + Exchange(call, setup.advice) + Transcript(calls, setup.advice)
        == c.messages + (Exchange(call, setup.advice) + Transcript(calls, setup.advice));
  }

  // The tool calls made after c.
  function Since(c: Chat, r: Chat): seq<ToolCall>
    requires |c.ran| <= |r.ran|
  {
    r.ran[|c.ran|..]
  }

  lemma NoCalls(setup: Setup, c: Chat, r: Chat)
    requires r.ran == c.ran && r.messages == c.messages && r.asked == c.asked + 1 && c.out <= r.out
    requires c.committed ==> r.committed
    ensures Continues(setup, c, r, Since(c, r)) && Since(c, r) == []
  {
  }

  lemma ExecuteAdds(setup: Setup, c: Chat, s: Stream)
    requires KnownTool(setup.tools, s) && s.toolDetected && s.committed
    ensures var c2, call := Execute(setup, Absorb(c, s), s), CallFor(setup, Absorb(c, s), s);
            && c2.ran == c.ran + [call] && c2.messages == c.messages + Exchange(call, setup.advice)
            && c2.asked == c.asked + 1
            && c.out <= c2.out && c2.committed && call.name in setup.tools && Tag(call.name) <= call.input
  {
    CallIsKnown(setup, Absorb(c, s), s);
    var c2 := Execute(setup, Absorb(c, s), s);
    assert c2.out[..|c.out|] == c.out;
  }

  lemma LastCall(setup: Setup, c: Chat, model: string, depth: nat)
    requires setup.raw || setup.upstream(c.asked, model, c.messages).failure.Some?
             || !Read(setup, c, model, depth).toolDetected
    ensures var r := Respond(setup, c, model, depth).chat;
            c.ran <= r.ran && Continues(setup, c, r, Since(c, r)) && Since(c, r) == []
  {
    var r := Respond(setup, c, model, depth).chat;
    if setup.raw {
      PassOnExtends(c.(asked := c.asked + 1), setup.upstream(c.asked, model, c.messages).received);
    } else {
      ReadCommits(setup, c, model, depth);
      CompleteExtends(Read(setup, c, model, depth));
    }
    NoCalls(setup, c, r);
  }

  // r continues c with at most so many tool calls.
  ghost predicate Extends(setup: Setup, c: Chat, r: Chat, atMost: nat) {
    c.ran <= r.ran && Continues(setup, c, r, Since(c, r)) && |Since(c, r)| <= atMost
  }

  lemma ExtendsAfter(setup: Setup, c: Chat, s: Stream, r: Chat, atMost: nat)
    requires KnownTool(setup.tools, s) && s.toolDetected && s.committed
    requires Extends(setup, Execute(setup, Absorb(c, s), s), r, atMost)
    ensures Extends(setup, c, r, atMost + 1)
  {
    var c2, call := Execute(setup, Absorb(c, s), s), CallFor(setup, Absorb(c, s), s);
    ExecuteAdds(setup, c, s);
    ContinuesAfter(setup, c, c2, call, r, Since(c2, r));
    assert Since(c, r) == [call] + Since(c2, r);
  }

  lemma ToolStep(setup: Setup, c: Chat, model: string, depth: nat)
    requires !setup.raw && setup.upstream(c.asked, model, c.messages).failure.None?
             && Read(setup, c, model, depth).toolDetected
    ensures depth > 0 && setup.detecting
    ensures var s := Read(setup, c, model, depth);
            && s.committed && KnownTool(setup.tools, s)
            && Respond(setup, c, model, depth) == Respond(setup, Execute(setup, Absorb(c, s), s), model, depth - 1)
  {
    ReadCommits(setup, c, model, depth);
    DetectionNeedsDepth(setup, c, model, depth);
  }

  // An attempt makes no more tool calls than the depth allows.
  ghost predicate Within(setup: Setup, c: Chat, model: string, depth: nat) {
    Extends(setup, c, Respond(setup, c, model, depth).chat, depth)
  }

  lemma LastExtends(setup: Setup, c: Chat, model: string, depth: nat, atMost: nat)
    requires setup.raw || setup.upstream(c.asked, model, c.messages).failure.Some?
             || !Read(setup, c, model, depth).toolDetected
    ensures Extends(setup, c, Respond(setup, c, model, depth).chat, atMost)
  {
    LastCall(setup, c, model, depth);
  }

  lemma ToolRoundExtends(setup: Setup, c: Chat, model: string, depth: nat)
    requires !setup.raw && setup.upstream(c.asked, model, c.messages).failure.None?
    requires depth > 0 && Read(setup, c, model, depth).toolDetected
    requires var s := Read(setup, c, model, depth); Within(setup, Execute(setup, Absorb(c, s), s), model, depth - 1)
    ensures Within(setup, c, model, depth)
  {
    var s := Read(setup, c, model, depth);
    ToolStep(setup, c, model, depth);
    ExtendsAfter(setup, c, s, Respond(setup, Execute(setup, Absorb(c, s), s), model, depth - 1).chat, depth - 1);
  }

  lemma {:induction false} CallsWithinDepth(setup: Setup, c: Chat, model: string, depth: nat)
    ensures Within(setup, c, model, depth)
    decreases depth
  {
    var s := Read(setup, c, model, depth);
    if setup.raw || setup.upstream(c.asked, model, c.messages).failure.Some? || !s.toolDetected {
      LastExtends(setup, c, model, depth, depth);
    } else {
      DetectionNeedsDepth(setup, c, model, depth);
      CallsWithinDepth(setup, Execute(setup, Absorb(c, s), s), model, depth - 1);
      ToolRoundExtends(setup, c, model, depth);
    }
  }

  /** However the model, the tools and failures behave, the only change to the messages is two new ones
  per tool call, at the end; every call is to a configured tool with text that begins with its tag; no
  more calls are made than the depth allows; and an attempt that runs a tool is committed. */
  lemma OnlyToolsWriteMessages(setup: Setup, c: Chat, model: string, depth: nat)
    ensures Extends(setup, c, Respond(setup, c, model, depth).chat, if setup.raw || !setup.detecting then 0 else depth)
  {
    if setup.raw || !setup.detecting {
      DetectionNeedsDepth(setup, c, model, depth);
      LastExtends(setup, c, model, depth, 0);
    } else {
      CallsWithinDepth(setup, c, model, depth);
    }
  }

  // Content text handed to the client, other than the end mark passed on as content.
  function Delivered(out: seq<Event>): seq<string> {
    if out == [] then []
    else
      var last := out[|out| - 1];
      Delivered(out[..|out| - 1]) + (if last.Text? && last.content != DONE then [last.content] else [])
  }

  lemma {:induction false} DeliveredAppend(a: seq<Event>, b: seq<Event>)
    ensures Delivered(a + b) == Delivered(a) + Delivered(b)
  {
    if b == [] {
      assert a + b == a;
    } else {
      DeliveredAppend(a, b[..|b| - 1]);
      assert (a + b)[..|a + b| - 1] == a + b[..|b| - 1];
    }
  }

  lemma {:induction false} NothingDelivered(out: seq<Event>)
    requires NoContentSent(out)
    ensures Delivered(out) == []
  {
    if out != [] {
      NothingDelivered(out[..|out| - 1]);
      assert out[|out| - 1] in out;
    }
  }

  // The upstream reply of the first call has something that counts as a first token.
  ghost predicate BringsContent(setup: Setup, c: Chat, model: string) {
    var received := setup.upstream(c.asked, model, c.messages).received;
    if setup.raw then exists x :: x in received && x.raw != "" else Contents(Lines(received)) != []
  }

  /** An attempt is committed exactly when its first upstream answer brings content; otherwise it leaves
  the messages and tool record alone and delivers no content text, and in raw mode nothing at all. */
  lemma UncommittedLeavesNoTrace(setup: Setup, c: Chat, model: string)
    ensures var r := Attempt(setup, c, model).chat;
            && (r.committed <==> BringsContent(setup, c, model))
            && c.out <= r.out
            && (!r.committed ==>
                  && r.messages == c.messages && r.ran == c.ran
                  && Delivered(r.out) == Delivered(c.out) && (setup.raw ==> r.out == c.out))
  {
    var c0, r := c.(committed := false), Attempt(setup, c, model).chat;
    OnlyToolsWriteMessages(setup, c0, model, MAX_TOOL_CALL_DEPTH);
    if setup.raw {
      PassOnExtends(c0.(asked := c.asked + 1), setup.upstream(c.asked, model, c.messages).received);
    } else {
      CommitsInWindow(setup, c0, model, MAX_TOOL_CALL_DEPTH);
    }
    if !r.committed {
      assert Since(c0, r) == [] && r.ran == c.ran;
      assert Transcript([], setup.advice) == [] && r.messages == c.messages + [];
    }
  }

  lemma QuietOut(before: seq<Event>, s: Stream)
    requires Uncommitted(s, false)
    ensures Delivered(before + s.out) == Delivered(before) == Delivered(before + Complete(s).out)
    ensures !Complete(s).committed
  {
    assert Complete(s).out == s.out + [Failed];
    NothingDelivered(s.out);
    NothingDelivered(s.out + [Failed]);
    DeliveredAppend(before, s.out);
    DeliveredAppend(before, s.out + [Failed]);
  }

  // What follows the first tool call continues from it.
  lemma ToolRound(setup: Setup, c: Chat, model: string, depth: nat)
    requires !setup.raw && setup.upstream(c.asked, model, c.messages).failure.None?
             && Read(setup, c, model, depth).toolDetected
    ensures depth > 0
    ensures var s := Read(setup, c, model, depth);
            Extends(setup, Execute(setup, Absorb(c, s), s), Respond(setup, c, model, depth).chat, depth - 1)
  {
    ToolStep(setup, c, model, depth);
    var s := Read(setup, c, model, depth);
    OnlyToolsWriteMessages(setup, Execute(setup, Absorb(c, s), s), model, depth - 1);
  }

  lemma ToolCommits(setup: Setup, c: Chat, model: string, depth: nat)
    requires !setup.raw && setup.upstream(c.asked, model, c.messages).failure.None?
             && Read(setup, c, model, depth).toolDetected
    ensures Respond(setup, c, model, depth).chat.committed
  {
    ToolRound(setup, c, model, depth);
    var s := Read(setup, c, model, depth);
    ReadCommits(setup, c, model, depth);
    assert Execute(setup, Absorb(c, s), s).committed;
  }

  lemma CommitsInWindow(setup: Setup, c: Chat, model: string, depth: nat)
    requires !setup.raw && !c.committed
    ensures var r := Respond(setup, c, model, depth).chat;
            && (r.committed <==> BringsContent(setup, c, model))
            && (!r.committed ==> Delivered(r.out) == Delivered(c.out))
  {
    var s := Read(setup, c, model, depth);
    ReadCommits(setup, c, model, depth);
    if s.toolDetected && setup.upstream(c.asked, model, c.messages).failure.None? {
      ToolCommits(setup, c, model, depth);
    } else {
      CompleteExtends(s);
      if !s.committed {
        QuietOut(c.out, s);
      }
    }
  }

  // ---------- What a tool is given ----------

  // This is the first tool call made after c.
  ghost predicate RunsFirst(c: Chat, r: Chat, call: ToolCall) {
    |r.ran| > |c.ran| && r.ran[|c.ran|] == call
  }

  lemma ExecuteRunsFirst(setup: Setup, c: Chat, s: Stream, r: Chat, atMost: nat)
    requires Extends(setup, Execute(setup, Absorb(c, s), s), r, atMost)
    ensures RunsFirst(c, r, CallFor(setup, Absorb(c, s), s))
  {
    var c2 := Execute(setup, Absorb(c, s), s);
    assert c2.ran[|c.ran|] == r.ran[|c.ran|];
  }

  /** When a tool is detected and the call did not fail, the next tool call of the attempt is the one made of
  what was read. */
  lemma DetectedToolIsRun(setup: Setup, c: Chat, model: string, depth: nat)
    requires !setup.raw && setup.upstream(c.asked, model, c.messages).failure.None?
             && Read(setup, c, model, depth).toolDetected
    ensures var s := Read(setup, c, model, depth);
            RunsFirst(c, Respond(setup, c, model, depth).chat, CallFor(setup, Absorb(c, s), s))
  {
    ToolRound(setup, c, model, depth);
    ExecuteRunsFirst(setup, c, Read(setup, c, model, depth), Respond(setup, c, model, depth).chat, depth - 1);
  }

  // The call is to a configured tool, with the text from its tag's first occurrence on.
  ghost predicate GetsTheRest(setup: Setup, call: ToolCall, all: string, contents: string) {
    && call.name in setup.tools
    && Index(all, Tag(call.name)) >= 0 && call.input == all[Index(all, Tag(call.name))..]
    && call.said == contents
  }

  /** If tags span at most six chunks and the call did not fail, the tool is run with the whole answer from the
  first occurrence of its tag on, end marks included, and the record holds the whole content. */
  lemma ToolGetsTheRest(setup: Setup, c: Chat, model: string, depth: nat,
                        before: seq<Line>, text: ContentText, after: seq<Line>)
    requires !setup.raw && setup.detecting && depth > 0
    requires setup.upstream(c.asked, model, c.messages).failure.None?
    requires Lines(setup.upstream(c.asked, model, c.messages).received) == before + [Delta(text)] + after
    requires Done !in before
    requires !Tagged(setup.tools, Join(Contents(before)))
    requires Tagged(setup.tools, Join(Contents(before) + [text]))
    requires TagsSpanAtMostSix(setup.tools, Contents(before) + [text])
    ensures var s := Read(setup, c, model, depth);
            var call, lines := CallFor(setup, Absorb(c, s), s), before + [Delta(text)] + after;
            && RunsFirst(c, Respond(setup, c, model, depth).chat, call)
            && GetsTheRest(setup, call, Join(Chunks(lines)), Join(Contents(lines)))
  {
    HeldForTheTool(setup.tools, c.committed, before, text, after);
    DetectedToolIsRun(setup, c, model, depth);
  }

  // ---------- What a failed attempt leaves with the client ----------

  // Nothing but a few end marks came, and then the call failed.
  ghost predicate FailsSilently(setup: Setup, c: Chat, model: string) {
    var reply := setup.upstream(c.asked, model, c.messages);
    reply.failure.Some? && AllDone(Lines(reply.received)) && |Lines(reply.received)| < 6
  }

  lemma NothingAdded(before: seq<Event>, more: seq<Event>)
    ensures before + more == before <==> more == []
  {
    assert |before + more| == |before| + |more|;
  }

  /** Outside raw mode an attempt without content leaves nothing with the client exactly if it fails
  silently; every other line is passed on, and an answer that ends without content is an error event. */
  lemma LeavesNothingExactly(setup: Setup, c: Chat, model: string)
    requires !setup.raw && !BringsContent(setup, c, model)
    ensures Attempt(setup, c, model).chat.out == c.out <==> FailsSilently(setup, c, model)
  {
    var c0 := c.(committed := false);
    var s := Read(setup, c0, model, MAX_TOOL_CALL_DEPTH);
    ReadCommits(setup, c0, model, MAX_TOOL_CALL_DEPTH);
    SilentExactly(setup.tools, setup.detecting, false, Lines(setup.upstream(c.asked, model, c.messages).received));
    NothingAdded(c.out, s.out);
    NothingAdded(c.out, Complete(s).out);
    CompleteNeverSilent(s);
  }

  lemma CompleteNeverSilent(s: Stream)
    requires Uncommitted(s, false)
    ensures Complete(s).out != []
  {
  }
}
