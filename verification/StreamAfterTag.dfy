/** What becomes of an answer in which a tool tag was recognised: what is held for the tool, and which tags
reach the client nevertheless. */
module StreamAfterTag {
  import opened Options
  import opened Strings
  import opened StreamWindow
  import opened StreamDetection

  // ---------- After detection ----------

  lemma FrozenStep(tools: seq<string>, s: Stream, line: Line)
    requires s.toolDetected && !s.firstToken
    ensures var r := HandleLine(tools, true, s, line);
            && r.toolDetected && r.toolName == s.toolName && !r.firstToken && Sent(r.out) == Sent(s.out)
            && r.window == s.window + (if line.Blank? then [] else [Content(line)])
            && r.fullContent == if line.Delta? then s.fullContent + line.text else s.fullContent
  {
    if line.Blank? {
      SentSnoc(s.out, RawLine(line.raw));
    }
  }

  // r is s after these lines: nothing sent as content, all their chunks joined to the held text.
  ghost predicate Frozen(s: Stream, r: Stream, lines: seq<Line>) {
    && r.toolDetected && r.toolName == s.toolName && !r.firstToken && Sent(r.out) == Sent(s.out)
    && r.window == s.window + Chunks(lines)
    && r.fullContent == s.fullContent + Join(Contents(lines))
  }

  lemma FrozenNext(tools: seq<string>, s: Stream, r: Stream, lines: seq<Line>)
    requires lines != [] && Frozen(s, r, lines[..|lines| - 1])
    ensures Frozen(s, HandleLine(tools, true, r, lines[|lines| - 1]), lines)
  {
    FrozenStep(tools, r, lines[|lines| - 1]);
    FrozenContents(lines, s.fullContent);
  }

  /** After detection nothing more is sent as content, and the rest of the answer joins the held text,
  chunk by chunk, end marks included. */
  lemma {:induction false} FrozenAfterDetection(tools: seq<string>, s: Stream, lines: seq<Line>)
    requires s.toolDetected && !s.firstToken
    ensures Frozen(s, Feed(tools, true, s, lines), lines)
  {
    if lines == [] {
      assert s.fullContent + "" == s.fullContent;
    } else {
      FrozenAfterDetection(tools, s, lines[..|lines| - 1]);
      FrozenNext(tools, s, Feed(tools, true, s, lines[..|lines| - 1]), lines);
    }
  }

  lemma FrozenContents(lines: seq<Line>, before: string)
    requires lines != []
    ensures var front, last := lines[..|lines| - 1], lines[|lines| - 1];
            before + Join(Contents(lines))
            == if last.Delta? then (before + Join(Contents(front))) + last.text else before + Join(Contents(front))
  {
    var front, last := lines[..|lines| - 1], lines[|lines| - 1];
    assert lines == front + [last];
    ContentsSnoc(front, last);
    if last.Delta? {
      JoinSnoc(Contents(front), last.text);
      Associative(before, Join(Contents(front)), last.text);
    }
  }

  lemma {:induction false} FeedAppend(tools: seq<string>, enabled: bool, s: Stream, a: seq<Line>, b: seq<Line>)
    ensures Feed(tools, enabled, s, a + b) == Feed(tools, enabled, Feed(tools, enabled, s, a), b)
  {
    if b == [] {
      assert a + b == a;
    } else {
      FeedAppend(tools, enabled, s, a, b[..|b| - 1]);
      assert (a + b)[..|a + b| - 1] == a + b[..|b| - 1];
    }
  }

  lemma {:induction false} ChunksAppend(a: seq<Line>, b: seq<Line>)
    ensures Chunks(a + b) == Chunks(a) + Chunks(b)
  {
    if b == [] {
      assert a + b == a;
    } else {
      ChunksAppend(a, b[..|b| - 1]);
      assert (a + b)[..|a + b| - 1] == a + b[..|b| - 1];
    }
  }

  lemma {:induction false} ContentsAppend(a: seq<Line>, b: seq<Line>)
    ensures Contents(a + b) == Contents(a) + Contents(b)
  {
    if b == [] {
      assert a + b == a;
    } else {
      ContentsAppend(a, b[..|b| - 1]);
      assert (a + b)[..|a + b| - 1] == a + b[..|b| - 1];
    }
  }

  // Without end marks the chunks are the contents.
  lemma {:induction false} ChunksAreContents(lines: seq<Line>)
    requires Done !in lines
    ensures Chunks(lines) == Contents(lines)
  {
    if lines != [] {
      assert lines[|lines| - 1] in lines;
      ChunksAreContents(lines[..|lines| - 1]);
    }
  }

  // The first occurrence of a text is still the first when more text follows.
  lemma FirstStaysFirst(s: string, more: string, t: string)
    requires Index(s, t) >= 0
    ensures Index(s + more, t) == Index(s, t)
  {
    var i, j := Index(s, t), Index(s + more, t);
    OccursInside("", s, more, t, i);
    assert "" + s + more == s + more;
    OccursInFront(s, more, t, j);
  }

  // What is sent and held once the whole answer has come.
  ghost predicate CutInTwo(s: Stream, name: string, all: string, cut: int, contents: string) {
    && s.toolDetected && s.toolName == name
    && 0 <= cut <= |all|
    && Sent(s.out) == "\n" + all[..cut]
    && Join(s.window) == all[cut..]
    && s.fullContent == contents
  }

  lemma JoinCons(s: string, parts: seq<string>)
    ensures Join([s] + parts) == s + Join(parts)
  {
    JoinFront([s] + parts);
    assert ([s] + parts)[1..] == parts;
  }

  lemma CutLater(s: string, more: string, i: nat)
    requires i <= |s|
    ensures (s + more)[..i] == s[..i] && (s + more)[i..] == s[i..] + more
  {
  }

  lemma RestJoins(tools: seq<string>, s: Stream, name: string, full: string, cut: int, after: seq<Line>)
    requires CutAt(s, name, full, cut)
    ensures CutInTwo(Feed(tools, true, s, after), name, full + Join(Chunks(after)), cut, full + Join(Contents(after)))
  {
    FrozenAfterDetection(tools, s, after);
    JoinCons(full[cut..], Chunks(after));
    CutLater(full, Join(Chunks(after)), cut);
  }

  /** The whole answer, for every run in which detection fires: the text is cut in two at the place that the
  last six chunks decided, what precedes it has been sent, the rest, end marks included, is held for the
  tool, and the whole content is recorded. */
  lemma AnswerIsCut(tools: seq<string>, committed: bool, before: seq<Line>, text: ContentText, after: seq<Line>)
    requires Done !in before
    requires !SixTagged(tools, Contents(before)) && SixTagged(tools, Contents(before) + [text])
    ensures var lines, cs := before + [Delta(text)] + after, Contents(before) + [text];
            && DetectTools(tools, LastSix(cs)).Some?
            && CutInTwo(Feed(tools, true, Start(committed), lines), Chosen(tools, cs), Join(Chunks(lines)),
                        CutPoint(tools, cs), Join(Contents(lines)))
  {
    var first, cs := before + [Delta(text)], Contents(before) + [text];
    DetectionCuts(tools, committed, before, text);
    var s := Feed(tools, true, Start(committed), first);
    RestJoins(tools, s, Chosen(tools, cs), Join(cs), CutPoint(tools, cs), after);
    FeedAppend(tools, true, Start(committed), first, after);
    AnswerText(before, text, after);
  }

  // What is held once the whole answer has come: everything from the tag on.
  ghost predicate HoldsTheRest(tools: seq<string>, s: Stream, all: string, contents: string) {
    s.toolName in tools && CutInTwo(s, s.toolName, all, Index(all, Tag(s.toolName)), contents)
  }

  /** If tags span at most six chunks, that place is the first occurrence of the detected tag in the whole
  answer. */
  lemma HeldForTheTool(tools: seq<string>, committed: bool, before: seq<Line>, text: ContentText, after: seq<Line>)
    requires Done !in before
    requires !Tagged(tools, Join(Contents(before)))
    requires Tagged(tools, Join(Contents(before) + [text]))
    requires TagsSpanAtMostSix(tools, Contents(before) + [text])
    ensures var lines := before + [Delta(text)] + after;
            HoldsTheRest(tools, Feed(tools, true, Start(committed), lines), Join(Chunks(lines)), Join(Contents(lines)))
  {
    var cs := Contents(before) + [text];
    DetectsFirstTag(tools, committed, before, text);
    WindowTagged(tools, Contents(before), text);
    AnswerIsCut(tools, committed, before, text, after);
    AnswerText(before, text, after);
    FirstStaysFirst(Join(cs), Join(Chunks(after)), Tag(Chosen(tools, cs)));
  }

  lemma AnswerText(before: seq<Line>, text: ContentText, after: seq<Line>)
    requires Done !in before
    ensures var full := Join(Contents(before) + [text]);
            && Join(Chunks(before + [Delta(text)] + after)) == full + Join(Chunks(after))
            && Join(Contents(before + [Delta(text)] + after)) == full + Join(Contents(after))
  {
    var first := before + [Delta(text)];
    ChunksAreContents(first);
    ContentsSnoc(before, Delta(text));
    ChunksAppend(first, after);
    ContentsAppend(first, after);
    JoinAppend(Chunks(first), Chunks(after));
    JoinAppend(Contents(first), Contents(after));
  }

  // ---------- Tags that reach the client ----------

  lemma TagWithin(s: string, t: string, i: nat)
    requires i <= |s|
    ensures Index(s[..i], t) >= 0 <==> Index(s, t) >= 0 && Index(s, t) + |t| <= i
  {
    assert s == s[..i] + s[i..];
    if Index(s[..i], t) >= 0 {
      FirstStaysFirst(s[..i], s[i..], t);
    }
    if Index(s, t) >= 0 && Index(s, t) + |t| <= i {
      OccursInFront(s[..i], s[i..], t, Index(s, t));
    }
  }

  // The opening newline is part of no tag.
  lemma NewlineBeforeTag(s: string, name: string)
    ensures Index("\n" + s, Tag(name)) >= 0 <==> Index(s, Tag(name)) >= 0
  {
    var i := Index("\n" + s, Tag(name));
    if i >= 0 {
      assert ("\n" + s)[i] == ("\n" + s)[i..i + |Tag(name)|][0] == '<';
      OccursInTail("\n", s, Tag(name), i);
    }
    if Index(s, Tag(name)) >= 0 {
      OccursInside("\n", s, "", Tag(name), Index(s, Tag(name)));
      assert "\n" + s + "" == "\n" + s;
    }
  }

  lemma SentTag(full: string, i: nat, t: string)
    requires i <= |full|
    ensures Index("\n" + full[..i], Tag(t)) >= 0 <==> Index(full, Tag(t)) >= 0 && Index(full, Tag(t)) + |Tag(t)| <= i
  {
    NewlineBeforeTag(full[..i], t);
    TagWithin(full, Tag(t), i);
  }

  /** For every run in which detection fires, exactly the tags that are whole before the cut reach the
  client. That includes the detected tag itself, if it came before in more than six chunks. */
  lemma LeaksExactly(tools: seq<string>, committed: bool, before: seq<Line>, text: ContentText, after: seq<Line>,
                     t: string)
    requires Done !in before
    requires !SixTagged(tools, Contents(before)) && SixTagged(tools, Contents(before) + [text])
    ensures DetectTools(tools, LastSix(Contents(before) + [text])).Some?
    ensures var lines, cut := before + [Delta(text)] + after, CutPoint(tools, Contents(before) + [text]);
            var s, i := Feed(tools, true, Start(committed), lines), Index(Join(Chunks(lines)), Tag(t));
            Index(Sent(s.out), Tag(t)) >= 0 <==> 0 <= i && i + |Tag(t)| <= cut
  {
    AnswerIsCut(tools, committed, before, text, after);
    SentTag(Join(Chunks(before + [Delta(text)] + after)), CutPoint(tools, Contents(before) + [text]), t);
  }

  /** If tags span at most six chunks, the detected tag never reaches the client, and another configured tag
  does exactly if it is whole before the detected one begins: detection goes by the order of the
  configuration, not of the text. */
  lemma LeaksWithinSix(tools: seq<string>, committed: bool, before: seq<Line>, text: ContentText, after: seq<Line>,
                       t: string)
    requires Done !in before
    requires !Tagged(tools, Join(Contents(before)))
    requires Tagged(tools, Join(Contents(before) + [text]))
    requires TagsSpanAtMostSix(tools, Contents(before) + [text])
    ensures var all := Join(Chunks(before + [Delta(text)] + after));
            var s := Feed(tools, true, Start(committed), before + [Delta(text)] + after);
            && Index(Sent(s.out), Tag(s.toolName)) < 0
            && (Index(Sent(s.out), Tag(t)) >= 0
                <==> Index(all, Tag(t)) >= 0 && Index(all, Tag(t)) + |Tag(t)| <= Index(all, Tag(s.toolName)))
  {
    var all := Join(Chunks(before + [Delta(text)] + after));
    var s := Feed(tools, true, Start(committed), before + [Delta(text)] + after);
    HeldForTheTool(tools, committed, before, text, after);
    SentTag(all, Index(all, Tag(s.toolName)), t);
    SentTag(all, Index(all, Tag(s.toolName)), s.toolName);
  }
}
