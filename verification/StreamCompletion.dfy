/** The end of a streamed answer: what the client has received in all. */
module StreamCompletion {
  import opened Options
  import opened Strings
  import opened StreamWindow
  import opened StreamDetection

  // No pass-through line reads like the end mark.
  ghost predicate NoRawDone(lines: seq<Line>) {
    forall line :: line in lines && line.Blank? ==> RawLine(line.raw) != RawLine(DONE)
  }

  lemma {:induction false} ContentsNotDone(lines: seq<Line>)
    ensures DONE !in Contents(lines)
  {
    if lines != [] {
      ContentsNotDone(lines[..|lines| - 1]);
    }
  }

  lemma NoteKeepsDoneMarks(s: Stream, content: string)
    ensures DoneMarks(NoteFirstToken(s, content).out) == DoneMarks(s.out)
  {
  }

  lemma SlideKeepsDoneMarks(s: Stream)
    ensures DoneMarks(Slide(s).out) == DoneMarks(s.out)
  {
  }

  lemma HandleKeepsDoneMarks(tools: seq<string>, enabled: bool, s: Stream, line: Line)
    requires line.Blank? ==> RawLine(line.raw) != RawLine(DONE)
    ensures DoneMarks(HandleLine(tools, enabled, s, line).out) == DoneMarks(s.out)
  {
    if line.Blank? {
      SentSnoc(s.out, RawLine(line.raw));
    } else {
      var r := s.(hasResponse := s.hasResponse || line.Delta?);
      NoteKeepsDoneMarks(r, Content(line));
      var p := Push(NoteFirstToken(r, Content(line)), Content(line));
      DetectKeepsDoneMarks(tools, p);
      SlideKeepsDoneMarks(if !p.toolDetected && enabled then Detect(tools, p) else p);
    }
  }

  lemma DetectKeepsDoneMarks(tools: seq<string>, p: Stream)
    ensures DoneMarks(Detect(tools, p).out) == DoneMarks(p.out)
  {
  }

  lemma {:induction false} FeedHasNoDoneMark(tools: seq<string>, enabled: bool, committed: bool, lines: seq<Line>)
    requires NoRawDone(lines)
    ensures DoneMarks(Feed(tools, enabled, Start(committed), lines).out) == 0
  {
    if lines != [] {
      var front, last := lines[..|lines| - 1], lines[|lines| - 1];
      assert lines == front + [last] && last in lines;
      FeedHasNoDoneMark(tools, enabled, committed, front);
      FeedSnoc(tools, enabled, Start(committed), front, last);
      HandleKeepsDoneMarks(tools, enabled, Feed(tools, enabled, Start(committed), front), last);
    }
  }

  // The held window never contains a tag while detection is on and has not fired.
  lemma HeldWindowUntagged(tools: seq<string>, committed: bool, lines: seq<Line>)
    requires Done !in lines && !Feed(tools, true, Start(committed), lines).toolDetected
    ensures !Tagged(tools, Join(LastFew(Contents(lines), WINDOW_SIZE - 1)))
  {
    var cs := Contents(lines);
    var five := LastFew(cs, WINDOW_SIZE - 1);
    DetectedExactly(tools, committed, lines);
    assert cs[..|cs|] == cs;
    if Tagged(tools, Join(five)) {
      var six := LastFew(cs, WINDOW_SIZE);
      assert LastFew(six, WINDOW_SIZE - 1) == five;
      SuffixTagged(tools, six, WINDOW_SIZE - 1);
      if cs == [] {
        NothingTagged(tools);
      }
    }
  }

  lemma NothingTagged(tools: seq<string>)
    ensures !Tagged(tools, "")
  {
  }

  // The part of the answer that completion still has to send.
  ghost predicate ReadyToComplete(s: Stream, cs: seq<string>) {
    && s.hasResponse && s.fullContent == Join(cs) && s.window != []
    && Sent(s.out) + Join(WithoutDone(s.window)) == "\n" + Join(cs)
  }

  // The end mark never completes a tag.
  lemma DoneIsPushed(tools: seq<string>, enabled: bool, s: Stream)
    requires !s.toolDetected && (enabled ==> !Tagged(tools, Join(s.window + [DONE])))
    ensures HandleLine(tools, enabled, s, Done) == Slide(Push(s, DONE))
  {
  }

  lemma SlideDone(p: Stream, held: seq<string>, cs: seq<string>)
    requires !p.toolDetected && p.window == held + [DONE] && held != [] && p.hasResponse
    requires Sent(p.out) + Join(held) == "\n" + Join(cs) && p.fullContent == Join(cs)
    ensures ReadyToComplete(Slide(p), cs) && !Slide(p).toolDetected
  {
    if |p.window| >= WINDOW_SIZE {
      SendOldest(p.out, held);
      assert p.window[0] == held[0] && p.window[1..] == held[1..] + [DONE];
      DropDone(held[1..]);
    } else {
      DropDone(held);
    }
  }

  lemma SendOldest(out: seq<Event>, held: seq<string>)
    requires held != []
    ensures Sent(out + [Text(held[0])]) + Join(held[1..]) == Sent(out) + Join(held)
  {
    SentSnoc(out, Text(held[0]));
    JoinFront(held);
    Associative(Sent(out), held[0], Join(held[1..]));
  }

  lemma DropDone(w: seq<string>)
    ensures WithoutDone(w + [DONE]) == w
  {
  }

  lemma DoneStep(tools: seq<string>, enabled: bool, s: Stream, cs: seq<string>)
    requires Holding(s, cs) && cs != [] && !s.toolDetected
    requires enabled ==> !Tagged(tools, Join(s.window))
    requires Sent(s.out) + Join(s.window) == "\n" + Join(cs)
    ensures ReadyToComplete(HandleLine(tools, enabled, s, Done), cs)
    ensures !HandleLine(tools, enabled, s, Done).toolDetected
  {
    JoinSnoc(s.window, DONE);
    if enabled {
      NoTagEndsInDone(tools, Join(s.window));
    }
    DoneIsPushed(tools, enabled, s);
    SlideDone(Push(s, DONE), s.window, cs);
  }

  lemma CompleteSends(s: Stream, cs: seq<string>)
    requires ReadyToComplete(s, cs) && !OnlyNewlines(Join(cs))
    ensures var f := Complete(s);
            Sent(f.out) == "\n" + Join(cs) && DoneMarks(f.out) == DoneMarks(s.out) + 1
  {
    var rest := Text(Join(WithoutDone(s.window)));
    SentSnoc(s.out, rest);
    SentSnoc(s.out + [rest], RawLine(DONE));
    assert s.out + [rest, RawLine(DONE)] == (s.out + [rest]) + [RawLine(DONE)];
  }

  /** An answer without tools, ended by one end mark or by none, reaches the client whole: an opening
  newline, then exactly the content in order, and exactly one end mark. */
  lemma AnswerArrivesWhole(tools: seq<string>, enabled: bool, committed: bool, lines: seq<Line>, marked: bool)
    requires Done !in lines && NoRawDone(lines)
    requires !Feed(tools, enabled, Start(committed), lines).toolDetected
    requires !OnlyNewlines(Join(Contents(lines)))
    ensures var s := Feed(tools, enabled, Start(committed), lines + (if marked then [Done] else []));
            && !s.toolDetected
            && Sent(Complete(s).out) == "\n" + Join(Contents(lines))
            && DoneMarks(Complete(s).out) == 1
  {
    var s, cs := Feed(tools, enabled, Start(committed), lines), Contents(lines);
    FeedHolding(tools, enabled, committed, lines);
    NothingLost(tools, enabled, committed, lines);
    FeedHasNoDoneMark(tools, enabled, committed, lines);
    if marked {
      if enabled {
        HeldWindowUntagged(tools, committed, lines);
      }
      DoneStep(tools, enabled, s, cs);
      FeedSnoc(tools, enabled, Start(committed), lines, Done);
      HandleKeepsDoneMarks(tools, enabled, s, Done);
      CompleteSends(HandleLine(tools, enabled, s, Done), cs);
    } else {
      assert lines + [] == lines;
      ContentsNotDone(lines);
      assert cs[|cs| - 1] == s.window[|s.window| - 1];
      CompleteSends(s, cs);
    }
  }

  // ---------- A call that delivers no content ----------

  ghost predicate OnlyDone(window: seq<string>) {
    forall w :: w in window ==> w == DONE
  }

  // All text in these events is the end mark passed on as content.
  ghost predicate NoContentSent(out: seq<Event>) {
    forall e :: e in out && e.Text? ==> e.content == DONE
  }

  lemma {:induction false} DoneHasNoBracket(window: seq<string>)
    requires OnlyDone(window)
    ensures '<' !in Join(window)
  {
    if window != [] {
      var front, last := window[..|window| - 1], window[|window| - 1];
      assert window == front + [last] && last in window;
      assert forall w :: w in front ==> w in window;
      assert '<' !in DONE;
      DoneHasNoBracket(front);
    }
  }

  lemma TagHasBracket(s: string, t: string, i: int)
    requires OccursAt(s, Tag(t), i)
    ensures '<' in s
  {
    assert s[i] == s[i..i + |Tag(t)|][0] == '<';
  }

  lemma NoBracketNoTag(tools: seq<string>, s: string)
    requires '<' !in s
    ensures DetectTools(tools, s).None?
  {
    forall t | t in tools ensures Index(s, Tag(t)) < 0 {
      var i := Index(s, Tag(t));
      if i >= 0 {
        TagHasBracket(s, t, i);
      }
    }
  }

  ghost predicate Uncommitted(s: Stream, committed: bool) {
    && s.committed == committed && !s.toolDetected && s.fullContent == "" && s.firstToken
    && OnlyDone(s.window) && NoContentSent(s.out)
  }

  lemma UncommittedSlide(p: Stream, committed: bool)
    requires Uncommitted(p, committed)
    ensures Uncommitted(Slide(p), committed)
  {
    if |p.window| >= WINDOW_SIZE {
      assert p.window[0] in p.window;
      assert forall w :: w in p.window[1..] ==> w in p.window;
    }
  }

  lemma UncommittedStep(tools: seq<string>, enabled: bool, s: Stream, committed: bool, line: Line)
    requires Uncommitted(s, committed) && !line.Delta?
    ensures Uncommitted(HandleLine(tools, enabled, s, line), committed)
  {
    if line.Done? {
      var p := Push(s, DONE);
      assert forall w :: w in p.window ==> w in s.window || w == DONE;
      DoneHasNoBracket(p.window);
      NoBracketNoTag(tools, Join(p.window));
      DoneIsPushed(tools, enabled, s);
      UncommittedSlide(p, committed);
    }
  }

  /** Without a content delta nothing is committed, no tool is detected and no content text is sent. */
  lemma {:induction false} NoDeltaNoCommit(tools: seq<string>, enabled: bool, committed: bool, lines: seq<Line>)
    requires Contents(lines) == []
    ensures Uncommitted(Feed(tools, enabled, Start(committed), lines), committed)
  {
    if lines != [] {
      var front, last := lines[..|lines| - 1], lines[|lines| - 1];
      assert lines == front + [last];
      ContentsSnoc(front, last);
      FeedSnoc(tools, enabled, Start(committed), front, last);
      NoDeltaNoCommit(tools, enabled, committed, front);
      UncommittedStep(tools, enabled, Feed(tools, enabled, Start(committed), front), committed, last);
    }
  }

  ghost predicate AllDone(lines: seq<Line>) {
    forall line :: line in lines ==> line.Done?
  }

  // Uncommitted, and so far nothing was written: the end marks received are all in the window.
  ghost predicate SilentWhile(s: Stream, lines: seq<Line>) {
    && (s.out == [] <==> AllDone(lines) && |lines| < 6)
    && (s.out == [] ==> |s.window| == |lines|)
  }

  lemma SilentStep(tools: seq<string>, enabled: bool, s: Stream, committed: bool, lines: seq<Line>)
    requires lines != [] && !lines[|lines| - 1].Delta?
    requires Uncommitted(s, committed) && SilentWhile(s, lines[..|lines| - 1])
    ensures SilentWhile(HandleLine(tools, enabled, s, lines[|lines| - 1]), lines)
  {
    var front, last := lines[..|lines| - 1], lines[|lines| - 1];
    assert lines == front + [last];
    assert AllDone(lines) <==> AllDone(front) && last.Done?;
    if last.Done? {
      assert forall w :: w in s.window + [DONE] ==> w in s.window || w == DONE;
      DoneHasNoBracket(s.window + [DONE]);
      NoBracketNoTag(tools, Join(s.window + [DONE]));
      DoneIsPushed(tools, enabled, s);
    }
  }

  /** A call without content writes nothing at all exactly if only end marks come, and too few of them to
  leave the window. */
  lemma {:induction false} SilentExactly(tools: seq<string>, enabled: bool, committed: bool, lines: seq<Line>)
    requires Contents(lines) == []
    ensures SilentWhile(Feed(tools, enabled, Start(committed), lines), lines)
  {
    if lines != [] {
      var front, last := lines[..|lines| - 1], lines[|lines| - 1];
      assert lines == front + [last];
      ContentsSnoc(front, last);
      SilentExactly(tools, enabled, committed, front);
      NoDeltaNoCommit(tools, enabled, committed, front);
      SilentStep(tools, enabled, Feed(tools, enabled, Start(committed), front), committed, lines);
    }
  }

  // The first content delta commits the stream.
  lemma {:induction false} DeltaCommits(tools: seq<string>, enabled: bool, committed: bool, lines: seq<Line>)
    requires Contents(lines) != []
    ensures Feed(tools, enabled, Start(committed), lines).committed
  {
    var front, last := lines[..|lines| - 1], lines[|lines| - 1];
    if Contents(front) != [] {
      DeltaCommits(tools, enabled, committed, front);
    } else {
      NoDeltaNoCommit(tools, enabled, committed, front);
    }
  }
}
