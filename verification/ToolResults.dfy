/** What a tool's run brings: what the model is told of it in the next call, what the client sees, and how many tools
an attempt runs. */
module ToolResults {
  import opened Options
  import opened Strings
  import opened Failures
  import opened StreamWindow
  import opened StreamCompletion
  import opened ToolLoop
  import opened ServedAnswer

  // ---------- What the model is told ----------

  // The two messages that running the detected tool adds.
  function NewMessages(setup: Setup, c: Chat, model: string, depth: nat): (r: seq<Message>)
    ensures |r| == 2
  {
    var s := Read(setup, c, model, depth);
    Exchange(CallFor(setup, Absorb(c, s), s), setup.advice)
  }

  lemma NewAreTold(setup: Setup, c: Chat, model: string, depth: nat)
    ensures var s, more := Read(setup, c, model, depth), NewMessages(setup, c, model, depth);
            ToldIn(more[0], more[1], Join(Contents(Lines(setup.upstream(c.asked, model, c.messages).received))),
                   s.toolName, setup.runTool(|c.ran|, s.toolName, Join(s.window)), setup.advice)
  {
    var s := Read(setup, c, model, depth);
    FeedRecords(setup.tools, setup.detecting && depth > 0, c.committed,
                Lines(setup.upstream(c.asked, model, c.messages).received));
    OutputTells(setup, |c.ran|, s.toolName, Join(s.window));
  }

  lemma ExtendsMessages(setup: Setup, c: Chat, r: Chat, atMost: nat)
    requires Extends(setup, c, r, atMost)
    ensures c.messages <= r.messages
  {
  }

  lemma FailedCallAddsNothing(setup: Setup, c: Chat, model: string, depth: nat)
    requires !setup.raw && setup.upstream(c.asked, model, c.messages).failure.Some?
    ensures var r := Respond(setup, c, model, depth);
            r.failure == setup.upstream(c.asked, model, c.messages).failure && r.chat.messages == c.messages
  {
  }

  // The attempt goes on from the same messages with these two added.
  lemma GoesOnWith(setup: Setup, c: Chat, model: string, depth: nat) returns (c2: Chat)
    requires !setup.raw && setup.upstream(c.asked, model, c.messages).failure.None?
             && Read(setup, c, model, depth).toolDetected
    ensures depth > 0 && c2.asked == c.asked + 1 && c2.messages == c.messages + NewMessages(setup, c, model, depth)
    ensures Respond(setup, c, model, depth) == Respond(setup, c2, model, depth - 1)
    ensures c2.messages <= Respond(setup, c, model, depth).chat.messages
    ensures c2.ran == c.ran + [CallFor(setup, Absorb(c, Read(setup, c, model, depth)), Read(setup, c, model, depth))]
    ensures c2.out == c.out + Read(setup, c, model, depth).out
                      + Announcement(Read(setup, c, model, depth).toolName) + ANALYZING
    ensures c2.out <= Respond(setup, c, model, depth).chat.out
  {
    var s := Read(setup, c, model, depth);
    c2 := Execute(setup, Absorb(c, s), s);
    ToolStep(setup, c, model, depth);
    ToolRound(setup, c, model, depth);
    ExtendsMessages(setup, c2, Respond(setup, c, model, depth).chat, depth - 1);
  }

  /** When a tool is detected and the call did not fail, the messages grow first by two: the model's whole answer,
  and the result of running the tool on the text held, as the model is told it. The next upstream call is made
  with just these messages, so if that one fails the attempt fails with its error. */
  lemma ResultIsTold(setup: Setup, c: Chat, model: string, depth: nat)
    returns (said: Message, told: Message)
    requires !setup.raw && setup.upstream(c.asked, model, c.messages).failure.None?
             && Read(setup, c, model, depth).toolDetected
    ensures var s, answer := Read(setup, c, model, depth), Lines(setup.upstream(c.asked, model, c.messages).received);
            ToldIn(said, told, Join(Contents(answer)), s.toolName,
                   setup.runTool(|c.ran|, s.toolName, Join(s.window)), setup.advice)
    ensures c.messages + [said, told] <= Respond(setup, c, model, depth).chat.messages
    ensures var next := setup.upstream(c.asked + 1, model, c.messages + [said, told]);
            next.failure.Some? ==>
              && Respond(setup, c, model, depth).failure == next.failure
              && Respond(setup, c, model, depth).chat.messages == c.messages + [said, told]
  {
    var more := NewMessages(setup, c, model, depth);
    said, told := more[0], more[1];
    assert more == [said, told];
    NewAreTold(setup, c, model, depth);
    var c2 := GoesOnWith(setup, c, model, depth);
    if setup.upstream(c2.asked, model, c2.messages).failure.Some? {
      FailedCallAddsNothing(setup, c2, model, depth - 1);
    }
  }

  // ---------- What the client sees of it ----------

  lemma {:induction false} SentAppend(a: seq<Event>, b: seq<Event>)
    ensures Sent(a + b) == Sent(a) + Sent(b)
  {
    if b == [] {
      assert a + b == a;
    } else {
      SentAppend(a, b[..|b| - 1]);
      assert (a + b)[..|a + b| - 1] == a + b[..|b| - 1];
    }
  }

  lemma SentText(out: seq<Event>, text: string)
    ensures Sent(out + [Text(text)]) == Sent(out) + text
  {
  }

  function DotText(n: nat): string {
    if n == 0 then "" else DotText(n - 1) + "."
  }

  lemma {:induction false} SentDots(n: nat)
    ensures Sent(Dots(n)) == DotText(n)
  {
    if n > 0 {
      SentDots(n - 1);
      SentText(Dots(n - 1), ".");
    }
  }

  lemma SentOne(text: string)
    ensures Sent([Text(text)]) == text
  {
    SentText([], text);
    assert [] + [Text(text)] == [Text(text)];
  }

  lemma AnnouncedText(tool: string)
    ensures Sent(Announcement(tool))
            == "\n#### \U{1F50D} " + "`" + tool + "` " + "\U{5DE5}\U{5177}\U{68C0}\U{7D22}\U{4E2D}" + "....."
  {
    var start := "\n#### \U{1F50D} " + "`" + tool + "` " + "\U{5DE5}\U{5177}\U{68C0}\U{7D22}\U{4E2D}";
    SentAppend([Text(start)], Dots(5));
    SentOne(start);
    SentDots(5);
    assert DotText(5) == ".....";
  }

  lemma AnalyzingText()
    ensures Sent(ANALYZING)
            == "\n#### \U{1F4A1} \U{68C0}\U{7D22}\U{5DF2}\U{5B8C}\U{6210}\U{FF0C}\U{5206}\U{6790}\U{4E2D}" + "...\n"
  {
    var start := "\n#### \U{1F4A1} \U{68C0}\U{7D22}\U{5DF2}\U{5B8C}\U{6210}\U{FF0C}\U{5206}\U{6790}\U{4E2D}";
    SentAppend([Text(start)] + Dots(3), [Text("\n")]);
    SentAppend([Text(start)], Dots(3));
    SentOne(start);
    SentOne("\n");
    SentDots(3);
    assert DotText(3) + "\n" == "...\n";
  }

  // What the client reads of a tool's run.
  function Reads(tool: string): string {
    "\n#### \U{1F50D} " + "`" + tool + "` " + "\U{5DE5}\U{5177}\U{68C0}\U{7D22}\U{4E2D}" + "....."
    + ("\n#### \U{1F4A1} \U{68C0}\U{7D22}\U{5DF2}\U{5B8C}\U{6210}\U{FF0C}\U{5206}\U{6790}\U{4E2D}" + "...\n")
  }

  lemma ShownReads(tool: string)
    ensures Sent(Announcement(tool) + ANALYZING) == Reads(tool)
  {
    SentAppend(Announcement(tool), ANALYZING);
    AnnouncedText(tool);
    AnalyzingText();
  }

  lemma FrontJoins(a: seq<Event>, b: seq<Event>, x: seq<Event>, y: seq<Event>, all: seq<Event>)
    requires a + b + x + y <= all
    ensures a + b + (x + y) <= all
  {
    assert a + b + (x + y) == a + b + x + y;
  }

  /** After what the answer sent, the client reads that the tool is searching and that the result is being analysed,
  before anything of the next answer. */
  lemma RunIsShown(setup: Setup, c: Chat, model: string, depth: nat) returns (shown: seq<Event>)
    requires !setup.raw && setup.upstream(c.asked, model, c.messages).failure.None?
             && Read(setup, c, model, depth).toolDetected
    ensures c.out + Read(setup, c, model, depth).out + shown <= Respond(setup, c, model, depth).chat.out
    ensures Sent(shown) == Reads(Read(setup, c, model, depth).toolName)
  {
    var s := Read(setup, c, model, depth);
    shown := Announcement(s.toolName) + ANALYZING;
    ShownReads(s.toolName);
    var c2 := GoesOnWith(setup, c, model, depth);
    FrontJoins(c.out, s.out, Announcement(s.toolName), ANALYZING, Respond(setup, c, model, depth).chat.out);
  }

  // ---------- How many tools are run ----------

  // Every answer asks for a tool, whatever it answers, and no call fails.
  ghost predicate AlwaysAsks(setup: Setup) {
    && (forall n: nat, model: string, messages: seq<Message> :: setup.upstream(n, model, messages).failure.None?)
    && (forall n: nat, model: string, messages: seq<Message>, committed: bool ::
          Feed(setup.tools, true, Start(committed), Lines(setup.upstream(n, model, messages).received)).toolDetected)
  }

  /** The depth is used up, no more and no less: a model that asks for a tool in every answer has exactly so many
  run. */
  lemma {:induction false} DepthIsUsedUp(setup: Setup, c: Chat, model: string, depth: nat)
    requires !setup.raw && setup.detecting && AlwaysAsks(setup)
    ensures var r := Respond(setup, c, model, depth);
            r.failure.None? && |r.chat.ran| == |c.ran| + depth && r.chat.asked == c.asked + depth + 1
    decreases depth
  {
    assert setup.upstream(c.asked, model, c.messages).failure.None?;
    if depth > 0 {
      assert Read(setup, c, model, depth).toolDetected;
      var c2 := GoesOnWith(setup, c, model, depth);
      DepthIsUsedUp(setup, c2, model, depth - 1);
    } else {
      DetectionNeedsDepth(setup, c, model, depth);
    }
  }

  /** In one attempt that is six tools, with seven upstream calls. */
  lemma SixToolsAreRun(setup: Setup, c: Chat, model: string)
    requires !setup.raw && setup.detecting && AlwaysAsks(setup)
    ensures var r := Attempt(setup, c, model);
            r.failure.None? && |r.chat.ran| == |c.ran| + 6 && r.chat.asked == c.asked + 7
  {
    DepthIsUsedUp(setup, c.(committed := false), model, MAX_TOOL_CALL_DEPTH);
  }
}
