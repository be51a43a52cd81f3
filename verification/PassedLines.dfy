/** Lines that are passed on without being read: those without content outside raw mode, and all in raw mode. */
module PassedLines {
  import opened Options
  import opened Strings
  import opened StreamWindow
  import opened ToolLoop

  // ---------- Outside raw mode ----------

  // A line with the prefix of event data, whether it came with it or not.
  ghost predicate Prefixed(raw: string, line: string) {
    "data: " <= line && (line == raw || (line[6..] == raw && !("data: " <= raw)))
  }

  lemma RawLinePrefixed(raw: string)
    ensures RawLine(raw).Raw? && Prefixed(raw, RawLine(raw).line)
  {
    assert ("data: " + raw)[6..] == raw;
  }

  // The raw lines among the events, and the lines without content among those received.
  function RawsOf(out: seq<Event>): seq<string> {
    if out == [] then []
    else
      var last := out[|out| - 1];
      RawsOf(out[..|out| - 1]) + (if last.Raw? then [last.line] else [])
  }

  function Blanks(lines: seq<Line>): seq<string> {
    if lines == [] then []
    else
      var last := lines[|lines| - 1];
      Blanks(lines[..|lines| - 1]) + (if last.Blank? then [last.raw] else [])
  }

  lemma {:induction false} RawsAppend(a: seq<Event>, b: seq<Event>)
    ensures RawsOf(a + b) == RawsOf(a) + RawsOf(b)
  {
    if b == [] {
      assert a + b == a;
    } else {
      RawsAppend(a, b[..|b| - 1]);
      assert (a + b)[..|a + b| - 1] == a + b[..|b| - 1];
    }
  }

  lemma RawsSnoc(out: seq<Event>, e: Event)
    ensures RawsOf(out + [e]) == RawsOf(out) + (if e.Raw? then [e.line] else [])
  {
  }

  lemma HandleRaws(tools: seq<string>, enabled: bool, s: Stream, line: Line)
    ensures RawsOf(HandleLine(tools, enabled, s, line).out)
            == RawsOf(s.out) + (if line.Blank? then [RawLine(line.raw).line] else [])
  {
    if !line.Blank? {
      var content := Content(line);
      var n := NoteFirstToken(s.(hasResponse := s.hasResponse || line.Delta?), content);
      var p := Push(n, content);
      var d := if !p.toolDetected && enabled then Detect(tools, p) else p;
      RawsSnoc(s.out, Text("\n"));
      DetectRaws(tools, p);
      SlideRaws(d);
    } else {
      RawsSnoc(s.out, RawLine(line.raw));
    }
  }

  lemma DetectRaws(tools: seq<string>, p: Stream)
    ensures RawsOf(Detect(tools, p).out) == RawsOf(p.out)
  {
    var joined := Join(p.window);
    if DetectTools(tools, joined).Some? {
      RawsSnoc(p.out, Text(joined[..Index(joined, Tag(DetectTools(tools, joined).value))]));
    }
  }

  lemma SlideRaws(d: Stream)
    ensures RawsOf(Slide(d).out) == RawsOf(d.out)
  {
    if !d.toolDetected && |d.window| >= WINDOW_SIZE {
      RawsSnoc(d.out, Text(d.window[0]));
    }
  }

  /** Outside raw mode exactly the lines without content are passed on, in order, each with the prefix of event
  data, before or after a tool is detected. */
  lemma {:induction false} BlanksPassOn(tools: seq<string>, enabled: bool, committed: bool, lines: seq<Line>)
    ensures var passed, came := RawsOf(Feed(tools, enabled, Start(committed), lines).out), Blanks(lines);
            |passed| == |came| && forall i :: 0 <= i < |came| ==> Prefixed(came[i], passed[i])
  {
    if lines != [] {
      var front, last := lines[..|lines| - 1], lines[|lines| - 1];
      BlanksPassOn(tools, enabled, committed, front);
      HandleRaws(tools, enabled, Feed(tools, enabled, Start(committed), front), last);
      if last.Blank? {
        RawLinePrefixed(last.raw);
      }
    }
  }

  // ---------- Raw mode ----------

  // The lines that are not empty.
  function NonEmpty(received: seq<Received>): seq<string> {
    if received == [] then []
    else
      var last := received[|received| - 1];
      NonEmpty(received[..|received| - 1]) + (if last.raw == "" then [] else [last.raw])
  }

  ghost predicate AllSpace(s: string) {
    forall c :: c in s ==> IsSpace(c)
  }

  // Between spaces there is nothing, an empty text in quotes, or the end mark.
  ghost predicate SaysNothing(data: string) {
    exists l: string, m: string, r: string ::
      data == l + m + r && AllSpace(l) && AllSpace(r) && (m == "" || m == "\"\"" || m == "[DONE]")
  }

  // An event-data line that says something.
  ghost predicate HasPayload(raw: string) {
    "data: " <= raw && !SaysNothing(raw[6..])
  }

  lemma SpaceJoins(a: string, b: string)
    requires AllSpace(a) && AllSpace(b)
    ensures AllSpace(a + b)
  {
  }

  lemma {:induction false} TrimLeftExactly(s: string) returns (l: string)
    ensures s == l + TrimLeft(s) && AllSpace(l)
    ensures TrimLeft(s) == "" || !IsSpace(TrimLeft(s)[0])
  {
    l := "";
    if s != "" && IsSpace(s[0]) {
      l := TrimLeftExactly(s[1..]);
      SpaceJoins([s[0]], l);
      l := [s[0]] + l;
      assert s == [s[0]] + s[1..];
    }
  }

  lemma TrimRightStep(front: string, last: char, r: string)
    requires front == TrimRight(front) + r && AllSpace(r) && IsSpace(last)
    ensures TrimRight(front + [last]) == TrimRight(front) && AllSpace(r + [last])
    ensures front + [last] == TrimRight(front + [last]) + (r + [last])
  {
    assert (front + [last])[..|front|] == front;
    SpaceJoins(r, [last]);
  }

  lemma {:induction false} TrimRightExactly(s: string) returns (r: string)
    ensures s == TrimRight(s) + r && AllSpace(r)
    ensures TrimRight(s) == "" || !IsSpace(TrimRight(s)[|TrimRight(s)| - 1])
  {
    r := "";
    if s != "" && IsSpace(s[|s| - 1]) {
      var front, last := s[..|s| - 1], s[|s| - 1];
      assert s == front + [last];
      r := TrimRightExactly(front);
      TrimRightStep(front, last, r);
      r := r + [last];
    }
  }

  lemma {:induction false} TrimLeftSkips(l: string, s: string)
    requires AllSpace(l)
    ensures TrimLeft(l + s) == TrimLeft(s)
  {
    if l == "" {
      assert l + s == s;
    } else {
      assert l[0] in l && (l + s)[1..] == l[1..] + s && forall c :: c in l[1..] ==> c in l;
      TrimLeftSkips(l[1..], s);
    }
  }

  lemma {:induction false} TrimRightSkips(s: string, r: string)
    requires AllSpace(r)
    ensures TrimRight(s + r) == TrimRight(s)
  {
    if r == "" {
      assert s + r == s;
    } else {
      var n := |r| - 1;
      assert r[n] in r && (s + r)[..|s| + n] == s + r[..n] && forall c :: c in r[..n] ==> c in r;
      TrimRightSkips(s, r[..n]);
    }
  }

  lemma TrimSpaces(s: string)
    requires AllSpace(s)
    ensures TrimLeft(s) == ""
  {
    TrimLeftSkips(s, "");
    assert s + "" == s;
  }

  lemma TrimStops(s: string)
    requires s != ""
    ensures !IsSpace(s[0]) ==> TrimLeft(s) == s
    ensures !IsSpace(s[|s| - 1]) ==> TrimRight(s) == s
  {
  }

  lemma TrimAround(m: string, r: string)
    requires AllSpace(r) && m != "" && !IsSpace(m[0]) && !IsSpace(m[|m| - 1])
    ensures TrimRight(TrimLeft(m + r)) == m
  {
    TrimStops(m + r);
    TrimStops(m);
    TrimRightSkips(m, r);
  }

  lemma TrimAll(l: string, r: string)
    requires AllSpace(l) && AllSpace(r)
    ensures TrimRight(TrimLeft(l + "" + r)) == ""
  {
    SpaceJoins(l, r);
    TrimSpaces(l + r);
    assert l + "" + r == l + r;
  }

  // What is left of a text between spaces, if it begins and ends with something else.
  lemma TrimBetween(l: string, m: string, r: string)
    requires AllSpace(l) && AllSpace(r) && m != "" && !IsSpace(m[0]) && !IsSpace(m[|m| - 1])
    ensures TrimRight(TrimLeft(l + m + r)) == m
  {
    TrimLeftSkips(l, m + r);
    TrimAround(m, r);
    assert l + m + r == l + (m + r);
  }

  lemma TrimSplits(data: string) returns (l: string, r: string)
    ensures data == l + TrimRight(TrimLeft(data)) + r && AllSpace(l) && AllSpace(r)
    ensures var m := TrimRight(TrimLeft(data)); m == "" || !IsSpace(m[0])
  {
    l := TrimLeftExactly(data);
    r := TrimRightExactly(TrimLeft(data));
    var m := TrimRight(TrimLeft(data));
    assert data == l + (m + r) == l + m + r;
    assert m != "" ==> m[0] == TrimLeft(data)[0];
  }

  predicate Nothing(m: string) {
    m == "" || m == "\"\"" || m == "[DONE]"
  }

  lemma TrimmedNothing(data: string)
    requires SaysNothing(data)
    ensures Nothing(TrimRight(TrimLeft(data)))
  {
    var l: string, m: string, r: string :|
      data == l + m + r && AllSpace(l) && AllSpace(r) && (m == "" || m == "\"\"" || m == "[DONE]");
    if m == "" {
      TrimAll(l, r);
    } else {
      assert !IsSpace('"') && !IsSpace('[') && !IsSpace(']');
      TrimBetween(l, m, r);
    }
  }

  lemma SaysNothingExactly(data: string)
    ensures SaysNothing(data) <==> Nothing(TrimRight(TrimLeft(data)))
  {
    if SaysNothing(data) {
      TrimmedNothing(data);
    } else {
      var l, r := TrimSplits(data);
    }
  }

  lemma PayloadExactly(raw: string)
    ensures !OnlyNewlines(Payload(raw)) <==> HasPayload(raw)
  {
    if "data: " <= raw {
      var data := raw[6..];
      var m := TrimRight(TrimLeft(data));
      SaysNothingExactly(data);
      var l, r := TrimSplits(data);
      if !Nothing(m) {
        assert IsSpace('\n') && m[0] != '\n';
      }
    }
  }

  lemma {:induction false} NewlinesJoin(a: string, b: string)
    ensures OnlyNewlines(a + b) <==> OnlyNewlines(a) && OnlyNewlines(b)
  {
    if a == "" {
      assert a + b == b;
    } else {
      assert (a + b)[1..] == a[1..] + b;
      NewlinesJoin(a[1..], b);
    }
  }

  lemma {:induction false} PayloadsExactly(received: seq<Received>)
    ensures !OnlyNewlines(Payloads(received)) <==> exists x :: x in received && HasPayload(x.raw)
  {
    if received != [] {
      var front, last := received[..|received| - 1], received[|received| - 1];
      assert received == front + [last];
      PayloadsExactly(front);
      PayloadExactly(last.raw);
      NewlinesJoin(Payloads(front), Payload(last.raw));
      assert last in received && forall x :: x in received <==> x in front || x == last;
    }
  }

  lemma PassOnNext(c: Chat, front: seq<Received>, last: Received)
    ensures PassOn(c, front + [last]).out == PassOn(c, front).out + (if last.raw == "" then [] else [Raw(last.raw)])
    ensures NonEmpty(front + [last]) == NonEmpty(front) + (if last.raw == "" then [] else [last.raw])
  {
  }

  lemma OneLine(out: seq<Event>, raw: string)
    ensures var more: seq<Event> := if raw == "" then [] else [Raw(raw)];
            && RawsOf(out + more) == RawsOf(out) + (if raw == "" then [] else [raw])
            && Sent(out + more) == Sent(out)
  {
    if raw == "" {
      assert out + [] == out;
    } else {
      RawsSnoc(out, Raw(raw));
      SentSnoc(out, Raw(raw));
    }
  }

  lemma {:induction false} PassOnVerbatim(c: Chat, received: seq<Received>)
    ensures RawsOf(PassOn(c, received).out) == RawsOf(c.out) + NonEmpty(received)
    ensures Sent(PassOn(c, received).out) == Sent(c.out)
  {
    if received != [] {
      var front, last := received[..|received| - 1], received[|received| - 1];
      assert received == front + [last];
      PassOnVerbatim(c, front);
      PassOnNext(c, front, last);
      OneLine(PassOn(c, front).out, last.raw);
    }
  }

  /** In raw mode the client gets every line that is not empty, as it came and in order, and nothing else; and the
  attempt succeeds exactly if the call did not fail and some line of event data says something. */
  lemma RawModePassesOn(setup: Setup, c: Chat, model: string)
    requires setup.raw
    ensures var reply, r := setup.upstream(c.asked, model, c.messages), Attempt(setup, c, model);
            && RawsOf(r.chat.out) == RawsOf(c.out) + NonEmpty(reply.received) && Sent(r.chat.out) == Sent(c.out)
            && (r.failure.None? <==> reply.failure.None? && exists x :: x in reply.received && HasPayload(x.raw))
            && (reply.failure.Some? ==> r.failure == reply.failure)
  {
    var reply, c0 := setup.upstream(c.asked, model, c.messages), c.(committed := false);
    assert Attempt(setup, c, model) == RespondRaw(setup, c0, model);
    PassOnVerbatim(c0.(asked := c.asked + 1), reply.received);
    PayloadsExactly(reply.received);
  }
}
