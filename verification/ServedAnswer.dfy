/** What a request that counts as served has delivered: outside raw mode an answer without content is served
too, as an error event. */
module ServedAnswer {
  import opened Options
  import opened Degradation
  import opened Strings
  import opened StreamWindow
  import opened StreamingRun
  import opened ToolLoop

  lemma HandleRecords(tools: seq<string>, enabled: bool, s: Stream, line: Line)
    ensures var r := HandleLine(tools, enabled, s, line);
            && r.fullContent == (if line.Delta? then s.fullContent + line.text else s.fullContent)
            && (s.hasResponse || line.Delta? ==> r.hasResponse)
            && (s.window != [] || line.Delta? ==> r.window != [])
  {
  }

  // The recorded content is all content received; once there is some, the window is never empty again.
  lemma {:induction false} FeedRecords(tools: seq<string>, enabled: bool, committed: bool, lines: seq<Line>)
    ensures var s := Feed(tools, enabled, Start(committed), lines);
            && s.fullContent == Join(Contents(lines))
            && (Contents(lines) != [] ==> s.hasResponse && s.window != [])
  {
    if lines != [] {
      var front, last := lines[..|lines| - 1], lines[|lines| - 1];
      assert lines == front + [last];
      FeedRecords(tools, enabled, committed, front);
      HandleRecords(tools, enabled, Feed(tools, enabled, Start(committed), front), last);
      ContentsSnoc(front, last);
      if last.Delta? {
        JoinSnoc(Contents(front), last.text);
      }
    }
  }

  // How the output ends when an answer with this content is complete.
  function Ending(content: string): Event {
    if OnlyNewlines(content) then Event.Failed else RawLine(DONE)
  }

  lemma CompleteEnds(s: Stream, lines: seq<Line>)
    requires s.fullContent == Join(Contents(lines))
    requires Contents(lines) != [] ==> s.hasResponse && s.window != []
    ensures Complete(s).out != [] && Complete(s).out[|Complete(s).out| - 1] == Ending(Join(Contents(lines)))
  {
  }

  // The answer of the last upstream call of an attempt.
  function LastAnswer(setup: Setup, c: Chat, model: string, depth: nat): seq<Line>
    decreases depth
  {
    var reply, s := setup.upstream(c.asked, model, c.messages), Read(setup, c, model, depth);
    if reply.failure.Some? || !s.toolDetected then Lines(reply.received)
    else
      DetectionNeedsDepth(setup, c, model, depth);
      LastAnswer(setup, Execute(setup, Absorb(c, s), s), model, depth - 1)
  }

  ghost predicate EndsIn(out: seq<Event>, e: Event) {
    out != [] && out[|out| - 1] == e
  }

  // The attempt fails, or its output ends as its last answer says.
  ghost predicate EndsAsAnswered(setup: Setup, c: Chat, model: string, depth: nat) {
    var e := Respond(setup, c, model, depth);
    e.failure.None? ==> EndsIn(e.chat.out, Ending(Join(Contents(LastAnswer(setup, c, model, depth)))))
  }

  lemma LastCallEnds(setup: Setup, c: Chat, model: string, depth: nat)
    requires !setup.raw && setup.upstream(c.asked, model, c.messages).failure.None?
    requires !Read(setup, c, model, depth).toolDetected
    ensures EndsAsAnswered(setup, c, model, depth)
  {
    var lines := Lines(setup.upstream(c.asked, model, c.messages).received);
    FeedRecords(setup.tools, setup.detecting && depth > 0, c.committed, lines);
    CompleteEnds(Read(setup, c, model, depth), lines);
  }

  lemma ToolStepEnds(setup: Setup, c: Chat, model: string, depth: nat)
    requires !setup.raw && setup.upstream(c.asked, model, c.messages).failure.None?
    requires Read(setup, c, model, depth).toolDetected && depth > 0
    requires var s := Read(setup, c, model, depth);
             EndsAsAnswered(setup, Execute(setup, Absorb(c, s), s), model, depth - 1)
    ensures EndsAsAnswered(setup, c, model, depth)
  {
    ToolStep(setup, c, model, depth);
  }

  /** Outside raw mode, whatever tools were run: an attempt that does not fail ends its output with the end
  mark exactly if its last answer has content other than newlines, and else with an error event. */
  lemma {:induction false} ServedEnds(setup: Setup, c: Chat, model: string, depth: nat)
    requires !setup.raw
    ensures EndsAsAnswered(setup, c, model, depth)
    decreases depth
  {
    var s := Read(setup, c, model, depth);
    if setup.upstream(c.asked, model, c.messages).failure.None? {
      if !s.toolDetected {
        LastCallEnds(setup, c, model, depth);
      } else {
        DetectionNeedsDepth(setup, c, model, depth);
        ServedEnds(setup, Execute(setup, Absorb(c, s), s), model, depth - 1);
        ToolStepEnds(setup, c, model, depth);
      }
    }
  }

  /** In raw mode an attempt that does not fail has passed on a payload other than newlines. */
  lemma RawServedHasPayload(setup: Setup, c: Chat, model: string, depth: nat)
    requires setup.raw
    ensures var reply := setup.upstream(c.asked, model, c.messages);
            Respond(setup, c, model, depth).failure.None?
            <==> reply.failure.None? && !OnlyNewlines(Payloads(reply.received))
  {
  }

  // What the last call of a served run answered, read off its attempt.
  ghost predicate DeliveredBy(setup: Setup, c: Chat, model: string, out: seq<Event>) {
    var start := c.(committed := false);
    if setup.raw then
      !OnlyNewlines(Payloads(setup.upstream(c.asked, model, c.messages).received))
    else
      EndsIn(out, Ending(Join(Contents(LastAnswer(setup, start, model, MAX_TOOL_CALL_DEPTH)))))
  }

  ghost predicate LastDelivered(setup: Setup, r: Run<Chat>) {
    && r.calls != []
    && var l := r.calls[|r.calls| - 1];
       DeliveredBy(setup, l.before, l.model, r.state.out)
  }

  lemma ServedAttempt(setup: Setup, c: Chat, model: string)
    requires Attempt(setup, c, model).failure.None?
    ensures DeliveredBy(setup, c, model, Attempt(setup, c, model).chat.out)
  {
    var start := c.(committed := false);
    if setup.raw {
      RawServedHasPayload(setup, start, model, MAX_TOOL_CALL_DEPTH);
    } else {
      ServedEnds(setup, start, model, MAX_TOOL_CALL_DEPTH);
    }
  }

  /** A request that counts as served, with any number of retries and model switches: in raw mode its last call
  passed on a payload; outside raw mode the output ends with the end mark exactly if the last answer has
  content other than newlines, and else with an error event, and no other model is tried. */
  lemma ServedRunDelivers(setup: Setup, world: nat -> Checks, c: Chat, models: seq<string>, lim: Limits)
    requires lim.maxRetry >= 0 && StreamRun(AttemptStep(setup, world), c, models, lim).verdict == Served
    ensures LastDelivered(setup, StreamRun(AttemptStep(setup, world), c, models, lim))
  {
    var step := AttemptStep(setup, world);
    ServedByLast(step, c, models, 0, lim, None);
    RunIsLoop(step, c, models, lim);
    LastServes(setup, world, StreamRun(step, c, models, lim));
  }

  lemma LastServes(setup: Setup, world: nat -> Checks, r: Run<Chat>)
    requires DecidedByLast(AttemptStep(setup, world), r.calls, r.state, r.verdict) && r.verdict == Served
    ensures LastDelivered(setup, r)
  {
    var l := r.calls[|r.calls| - 1];
    ServedAttempt(setup, l.before, l.model);
  }
}
