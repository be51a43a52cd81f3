/** When the look-ahead window recognises a tool tag, and what the client has received by then. */
module StreamDetection {
  import opened Options
  import opened Strings
  import opened StreamWindow

  // ---------- Occurrences ----------

  lemma TaggedAt(tools: seq<string>, s: string, t: string, i: int)
    requires t in tools && OccursAt(s, Tag(t), i)
    ensures Tagged(tools, s)
  {
  }

  lemma TaggedInside(tools: seq<string>, a: string, s: string)
    requires Tagged(tools, s)
    ensures Tagged(tools, a + s)
  {
    var t :| t in tools && Index(s, Tag(t)) >= 0;
    OccursInside(a, s, "", Tag(t), Index(s, Tag(t)));
    assert a + s + "" == a + s;
    TaggedAt(tools, a + s, t, |a| + Index(s, Tag(t)));
  }

  lemma SuffixTagged(tools: seq<string>, cs: seq<string>, n: nat)
    requires Tagged(tools, Join(LastFew(cs, n)))
    ensures Tagged(tools, Join(cs))
  {
    var k := |cs| - |LastFew(cs, n)|;
    assert cs[k..] == LastFew(cs, n);
    JoinSplit(cs, k);
    TaggedInside(tools, Join(cs[..k]), Join(cs[k..]));
  }

  lemma LastOf(s: string, t: string, i: int)
    requires OccursAt(s, t, i) && t != ""
    ensures s[i + |t| - 1] == t[|t| - 1]
  {
  }

  lemma NotInDone(s: string, e: nat)
    requires e < |s + DONE|
    ensures (s + DONE)[e] == '>' ==> e < |s|
  {
  }

  // A tag ends in '>', which the end mark does not contain.
  lemma NoTagEndsInDone(tools: seq<string>, s: string)
    requires !Tagged(tools, s)
    ensures !Tagged(tools, s + DONE)
  {
    forall t | t in tools ensures Index(s + DONE, Tag(t)) < 0 {
      var i, tag := Index(s + DONE, Tag(t)), Tag(t);
      if i >= 0 {
        LastOf(s + DONE, tag, i);
        NotInDone(s, i + |tag| - 1);
        OccursInFront(s, DONE, tag, i);
        TaggedAt(tools, s, t, i);
      }
    }
  }

  // The chunks that have left the window.
  function Older(cs: seq<string>, n: nat): seq<string> {
    cs[..|cs| - |LastFew(cs, n)|]
  }

  lemma WindowIsSuffix(cs: seq<string>, n: nat)
    ensures Join(cs) == Join(Older(cs, n)) + Join(LastFew(cs, n))
    ensures cs != [] ==> SentPart(cs, |LastFew(cs, n)|) == "\n" + Join(Older(cs, n))
  {
    var k := |cs| - |LastFew(cs, n)|;
    JoinSplit(cs, k);
    assert cs[k..] == LastFew(cs, n);
  }

  // ---------- When detection fires ----------

  // Some six consecutive content chunks, or fewer at the start, contain a tag.
  ghost predicate SixTagged(tools: seq<string>, cs: seq<string>) {
    exists m :: 0 < m <= |cs| && Tagged(tools, Join(LastFew(cs[..m], 6)))
  }

  lemma SixTaggedSnoc(tools: seq<string>, cs: seq<string>, c: string)
    ensures SixTagged(tools, cs + [c]) <==>
            SixTagged(tools, cs) || Tagged(tools, Join(LastFew(cs + [c], WINDOW_SIZE)))
  {
    var all := cs + [c];
    assert all[..|all|] == all;
    forall m | 0 < m <= |cs| ensures all[..m] == cs[..m] {}
    if SixTagged(tools, cs) {
      var m :| 0 < m <= |cs| && Tagged(tools, Join(LastFew(cs[..m], WINDOW_SIZE)));
      assert all[..m] == cs[..m];
    }
  }

  lemma DetectFires(tools: seq<string>, p: Stream)
    requires !p.toolDetected
    ensures Detect(tools, p).toolDetected <==> Tagged(tools, Join(p.window))
  {
  }

  lemma DeltaDetects(tools: seq<string>, s: Stream, cs: seq<string>, text: ContentText)
    requires Holding(s, cs) && !s.toolDetected
    ensures HandleLine(tools, true, s, Delta(text)).toolDetected
            <==> Tagged(tools, Join(LastFew(cs + [text], WINDOW_SIZE)))
  {
    PushHolding(s, cs, text);
    DetectFires(tools, Push(NoteFirstToken(s.(hasResponse := true), text), text));
  }

  lemma DetectedStep(tools: seq<string>, s: Stream, cs: seq<string>, line: Line)
    requires !line.Done? && (!s.toolDetected ==> Holding(s, cs))
    requires s.toolDetected <==> SixTagged(tools, cs)
    ensures HandleLine(tools, true, s, line).toolDetected
            <==> SixTagged(tools, if line.Delta? then cs + [line.text] else cs)
  {
    if line.Delta? {
      SixTaggedSnoc(tools, cs, line.text);
      if s.toolDetected {
        DetectedStays(tools, true, s, line);
      } else {
        DeltaDetects(tools, s, cs, line.text);
      }
    }
  }

  /** Detection fires exactly when some six consecutive content chunks contain a configured tag. */
  lemma {:induction false} DetectedExactly(tools: seq<string>, committed: bool, lines: seq<Line>)
    requires Done !in lines
    ensures Feed(tools, true, Start(committed), lines).toolDetected <==> SixTagged(tools, Contents(lines))
  {
    if lines != [] {
      var front, last := lines[..|lines| - 1], lines[|lines| - 1];
      assert lines == front + [last] && last in lines;
      var s := Feed(tools, true, Start(committed), front);
      FeedSnoc(tools, true, Start(committed), front, last);
      ContentsSnoc(front, last);
      DetectedExactly(tools, committed, front);
      if !s.toolDetected {
        FeedHolding(tools, true, committed, front);
      }
      DetectedStep(tools, s, Contents(front), last);
    }
  }

  lemma {:induction false} JoinSinglesLength(cs: seq<string>)
    requires forall c :: c in cs ==> |c| == 1
    ensures |Join(cs)| == |cs|
  {
    if cs != [] {
      JoinSinglesLength(cs[..|cs| - 1]);
      assert cs[|cs| - 1] in cs;
    }
  }

  /** Six is a real limit: a model that answers one byte at a time slips every tag longer than six
  bytes past the detector. */
  lemma SingleBytesEscape(tools: seq<string>, committed: bool, lines: seq<Line>)
    requires Done !in lines && (forall c :: c in Contents(lines) ==> |c| == 1)
    requires forall t :: t in tools ==> |Tag(t)| > 6
    ensures !Feed(tools, true, Start(committed), lines).toolDetected
  {
    var cs := Contents(lines);
    DetectedExactly(tools, committed, lines);
    forall m | 0 < m <= |cs| ensures !Tagged(tools, Join(LastFew(cs[..m], WINDOW_SIZE))) {
      var w := LastFew(cs[..m], WINDOW_SIZE);
      forall c | c in w ensures |c| == 1 {
        assert c in cs;
      }
      JoinSinglesLength(w);
    }
  }

  // ---------- Tags in pieces ----------

  // The occurrence of t at byte p of the joined chunks touches at most six consecutive chunks.
  ghost predicate Spans(cs: seq<string>, t: string, p: int) {
    exists j :: 0 <= j <= |cs| && |Join(cs[..j])| <= p
      && p + |t| <= |Join(cs[..if j + WINDOW_SIZE <= |cs| then j + WINDOW_SIZE else |cs|])|
  }

  ghost predicate TagsSpanAtMostSix(tools: seq<string>, cs: seq<string>) {
    forall t, p :: t in tools && OccursAt(Join(cs), Tag(t), p) ==> Spans(cs, Tag(t), p)
  }

  lemma {:induction false} JoinGrows(cs: seq<string>, j: nat, k: nat)
    requires j <= k <= |cs|
    ensures |Join(cs[..j])| <= |Join(cs[..k])|
  {
    JoinSplit(cs[..k], j);
    assert cs[..k][..j] == cs[..j];
  }

  // An occurrence that only the last chunk completes starts after the chunks that have left the window.
  lemma StartsInWindow(cs: seq<string>, c: string, t: string, p: int)
    requires OccursAt(Join(cs + [c]), t, p) && !OccursAt(Join(cs), t, p) && Spans(cs + [c], t, p)
    ensures |Join(Older(cs + [c], WINDOW_SIZE))| <= p
  {
    var all := cs + [c];
    JoinSnoc(cs, c);
    assert all[..|cs|] == cs;
    OccursInFront(Join(cs), c, t, p);
    var j :| 0 <= j <= |all| && |Join(all[..j])| <= p
      && p + |t| <= |Join(all[..if j + WINDOW_SIZE <= |all| then j + WINDOW_SIZE else |all|])|;
    if j + WINDOW_SIZE <= |cs| {
      JoinGrows(all, j + WINDOW_SIZE, |cs|);
    }
    JoinGrows(all, |all| - |LastFew(all, WINDOW_SIZE)|, j);
  }

  // So it lies inside the last six chunks.
  lemma NewOccurrenceInWindow(cs: seq<string>, c: string, t: string, p: int)
    requires OccursAt(Join(cs + [c]), t, p) && !OccursAt(Join(cs), t, p) && Spans(cs + [c], t, p)
    ensures var w := LastFew(cs + [c], WINDOW_SIZE);
            var skipped := |Join(cs + [c])| - |Join(w)|;
            skipped <= p && OccursAt(Join(w), t, p - skipped)
  {
    StartsInWindow(cs, c, t, p);
    WindowIsSuffix(cs + [c], WINDOW_SIZE);
    OccursInTail(Join(Older(cs + [c], WINDOW_SIZE)), Join(LastFew(cs + [c], WINDOW_SIZE)), t, p);
  }

  // All occurrences of a tag the last chunk completes start at the same place in window and text.
  lemma FirstIndexInWindow(tools: seq<string>, cs: seq<string>, c: string, t: string)
    requires t in tools && !Tagged(tools, Join(cs)) && TagsSpanAtMostSix(tools, cs + [c])
    ensures var all, w := Join(cs + [c]), Join(LastFew(cs + [c], WINDOW_SIZE));
            && (Index(all, Tag(t)) >= 0 <==> Index(w, Tag(t)) >= 0)
            && (Index(w, Tag(t)) >= 0 ==> Index(all, Tag(t)) == |all| - |w| + Index(w, Tag(t)))
  {
    var all, parts := Join(cs + [c]), LastFew(cs + [c], WINDOW_SIZE);
    var w, tag := Join(parts), Tag(t);
    var k := |cs + [c]| - |parts|;
    JoinSplit(cs + [c], k);
    assert (cs + [c])[k..] == parts;
    var skipped := Join((cs + [c])[..k]);
    assert skipped + w + "" == all;
    if Index(w, tag) >= 0 {
      OccursInside(skipped, w, "", tag, Index(w, tag));
    }
    if Index(all, tag) >= 0 {
      NotYet(tools, Join(cs), t, Index(all, tag));
      NewOccurrenceInWindow(cs, c, tag, Index(all, tag));
    }
  }

  lemma NotYet(tools: seq<string>, s: string, t: string, p: int)
    requires t in tools && !Tagged(tools, s)
    ensures !OccursAt(s, Tag(t), p)
  {
  }

  // ---------- The moment of detection ----------

  lemma Cut(skipped: string, w: string, i: nat)
    requires i <= |w|
    ensures ("\n" + skipped) + w[..i] == "\n" + (skipped + w)[..|skipped| + i]
    ensures w[i..] == (skipped + w)[|skipped| + i..]
  {
  }

  lemma SentAtDetection(cs: seq<string>, i: nat)
    requires cs != [] && i <= |Join(LastFew(cs, WINDOW_SIZE))|
    ensures var all, w := Join(cs), Join(LastFew(cs, WINDOW_SIZE));
            && |w| <= |all|
            && SentPart(cs, |LastFew(cs, WINDOW_SIZE)|) + w[..i] == "\n" + all[..|all| - |w| + i]
            && w[i..] == all[|all| - |w| + i..]
  {
    WindowIsSuffix(cs, WINDOW_SIZE);
    Cut(Join(Older(cs, WINDOW_SIZE)), Join(LastFew(cs, WINDOW_SIZE)), i);
  }

  lemma DetectResult(tools: seq<string>, p: Stream)
    requires !p.toolDetected && Tagged(tools, Join(p.window))
    ensures var d, w := Detect(tools, p), Join(p.window);
            && DetectTools(tools, w) == Some(d.toolName)
            && d.toolDetected && d.toolName in tools
            && Index(w, Tag(d.toolName)) >= 0
            && d.window == [w[Index(w, Tag(d.toolName))..]]
            && Sent(d.out) == Sent(p.out) + w[..Index(w, Tag(d.toolName))]
  {
    var w := Join(p.window);
    var name := DetectTools(tools, w).value;
    SentSnoc(p.out, Text(w[..Index(w, Tag(name))]));
  }

  // The text of the last six chunks, the tool recognised in it, and where its tag begins in the whole text.
  function LastSix(cs: seq<string>): string {
    Join(LastFew(cs, 6))
  }

  function Chosen(tools: seq<string>, cs: seq<string>): (name: string)
    requires DetectTools(tools, LastSix(cs)).Some?
    ensures name in tools && Index(LastSix(cs), Tag(name)) >= 0
  {
    DetectTools(tools, LastSix(cs)).value
  }

  function CutPoint(tools: seq<string>, cs: seq<string>): (cut: int)
    requires DetectTools(tools, LastSix(cs)).Some?
    ensures 0 <= cut <= |Join(cs)|
  {
    WindowIsSuffix(cs, WINDOW_SIZE);
    |Join(cs)| - |LastSix(cs)| + Index(LastSix(cs), Tag(Chosen(tools, cs)))
  }

  // What the client has and what is held when the text is cut at the tag of a tool.
  ghost predicate CutAt(s: Stream, name: string, full: string, cut: int) {
    && s.toolDetected && s.toolName == name && !s.firstToken
    && 0 <= cut <= |full|
    && Sent(s.out) == "\n" + full[..cut]
    && s.window == [full[cut..]]
    && s.fullContent == full
  }

  // The tag's place in the last six chunks is the cut in the whole text.
  lemma CutPlace(tools: seq<string>, cs: seq<string>, i: nat)
    requires cs != [] && DetectTools(tools, LastSix(cs)).Some?
    requires i == Index(LastSix(cs), Tag(Chosen(tools, cs)))
    ensures i <= |LastSix(cs)| <= |Join(cs)| && CutPoint(tools, cs) == |Join(cs)| - |LastSix(cs)| + i
    ensures LastSix(cs)[i..] == Join(cs)[CutPoint(tools, cs)..]
    ensures SentPart(cs, |LastFew(cs, WINDOW_SIZE)|) + LastSix(cs)[..i] == "\n" + Join(cs)[..CutPoint(tools, cs)]
  {
    SentAtDetection(cs, i);
  }

  lemma DetectCuts(tools: seq<string>, p: Stream, cs: seq<string>)
    requires cs != [] && !p.toolDetected && !p.firstToken && DetectTools(tools, LastSix(cs)).Some?
    requires p.window == LastFew(cs, WINDOW_SIZE) && p.fullContent == Join(cs)
    requires Sent(p.out) == SentPart(cs, |p.window|)
    ensures CutAt(Detect(tools, p), Chosen(tools, cs), Join(cs), CutPoint(tools, cs))
  {
    DetectResult(tools, p);
    var i := Index(LastSix(cs), Tag(Chosen(tools, cs)));
    CutPlace(tools, cs, i);
    CutHolds(Detect(tools, p), Join(cs), LastSix(cs), i);
  }

  lemma CutHolds(d: Stream, full: string, w: string, i: nat)
    requires i <= |w| <= |full| && w[i..] == full[|full| - |w| + i..]
    requires d.toolDetected && !d.firstToken && d.fullContent == full
    requires d.window == [w[i..]] && Sent(d.out) == "\n" + full[..|full| - |w| + i]
    ensures CutAt(d, d.toolName, full, |full| - |w| + i)
  {
  }

  lemma HandleDetects(tools: seq<string>, s: Stream, text: ContentText)
    requires !s.toolDetected
    ensures var p := Push(NoteFirstToken(s.(hasResponse := true), text), text);
            Detect(tools, p).toolDetected ==>
              HandleLine(tools, true, s, Delta(text)) == Detect(tools, p) && Detect(tools, p).firstToken == p.firstToken
  {
  }

  lemma DeltaCuts(tools: seq<string>, s: Stream, cs: seq<string>, text: ContentText)
    requires Holding(s, cs) && !s.toolDetected && DetectTools(tools, LastSix(cs + [text])).Some?
    ensures CutAt(HandleLine(tools, true, s, Delta(text)), Chosen(tools, cs + [text]), Join(cs + [text]),
                  CutPoint(tools, cs + [text]))
  {
    var p := Push(NoteFirstToken(s.(hasResponse := true), text), text);
    PushHolding(s, cs, text);
    DetectCuts(tools, p, cs + [text]);
    HandleDetects(tools, s, text);
  }

  /** In every run, on the chunk on which detection fires, the text is cut at the first occurrence, within the
  last six chunks, of the tag of the tool recognised there: what precedes it has been sent, the rest is held. */
  lemma DetectionCuts(tools: seq<string>, committed: bool, before: seq<Line>, text: ContentText)
    requires Done !in before
    requires !SixTagged(tools, Contents(before)) && SixTagged(tools, Contents(before) + [text])
    ensures !Feed(tools, true, Start(committed), before).toolDetected
    ensures var cs := Contents(before) + [text];
            && DetectTools(tools, LastSix(cs)).Some?
            && CutAt(Feed(tools, true, Start(committed), before + [Delta(text)]), Chosen(tools, cs), Join(cs),
                     CutPoint(tools, cs))
  {
    DetectedExactly(tools, committed, before);
    SixTaggedSnoc(tools, Contents(before), text);
    FeedHolding(tools, true, committed, before);
    FeedSnoc(tools, true, Start(committed), before, Delta(text));
    DeltaCuts(tools, Feed(tools, true, Start(committed), before), Contents(before), text);
  }

  // ---------- Tags that span at most six chunks ----------

  // The client has what precedes the first occurrence of the detected tag, and the rest is held.
  ghost predicate StoppedAtTag(tools: seq<string>, s: Stream, full: string) {
    var i := Index(full, Tag(s.toolName));
    && s.toolDetected && s.toolName in tools && !s.firstToken
    && i >= 0
    && Sent(s.out) == "\n" + full[..i]
    && s.window == [full[i..]] && Tag(s.toolName) <= full[i..]
  }

  lemma WindowTagged(tools: seq<string>, cs: seq<string>, c: string)
    requires !Tagged(tools, Join(cs)) && Tagged(tools, Join(cs + [c])) && TagsSpanAtMostSix(tools, cs + [c])
    ensures Tagged(tools, LastSix(cs + [c]))
    ensures DetectTools(tools, LastSix(cs + [c])).Some?
    ensures CutPoint(tools, cs + [c]) == Index(Join(cs + [c]), Tag(Chosen(tools, cs + [c])))
  {
    var t :| t in tools && Index(Join(cs + [c]), Tag(t)) >= 0;
    FirstIndexInWindow(tools, cs, c, t);
    FirstIndexInWindow(tools, cs, c, Chosen(tools, cs + [c]));
  }

  /** If every tag spans at most six chunks, detection fires on the chunk that first completes a tag;
  the client has then received exactly the content before the first occurrence of the detected tag,
  and the held window starts with that tag. */
  lemma DetectsFirstTag(tools: seq<string>, committed: bool, before: seq<Line>, text: ContentText)
    requires Done !in before
    requires !Tagged(tools, Join(Contents(before)))
    requires Tagged(tools, Join(Contents(before) + [text]))
    requires TagsSpanAtMostSix(tools, Contents(before) + [text])
    ensures !SixTagged(tools, Contents(before)) && SixTagged(tools, Contents(before) + [text])
    ensures !Feed(tools, true, Start(committed), before).toolDetected
    ensures StoppedAtTag(tools, Feed(tools, true, Start(committed), before + [Delta(text)]),
                         Join(Contents(before) + [text]))
  {
    UntaggedNotSix(tools, Contents(before));
    WindowTagged(tools, Contents(before), text);
    SixTaggedSnoc(tools, Contents(before), text);
    DetectionCuts(tools, committed, before, text);
  }

  lemma UntaggedNotSix(tools: seq<string>, cs: seq<string>)
    requires !Tagged(tools, Join(cs))
    ensures !SixTagged(tools, cs)
  {
    if SixTagged(tools, cs) {
      var m :| 0 < m <= |cs| && Tagged(tools, Join(LastFew(cs[..m], WINDOW_SIZE)));
      SuffixTagged(tools, cs[..m], WINDOW_SIZE);
      PrefixTagged(tools, cs, m);
    }
  }

  lemma PrefixTagged(tools: seq<string>, cs: seq<string>, m: nat)
    requires m <= |cs| && Tagged(tools, Join(cs[..m]))
    ensures Tagged(tools, Join(cs))
  {
    JoinSplit(cs, m);
    TaggedBefore(tools, Join(cs[..m]), Join(cs[m..]));
  }

  lemma TaggedBefore(tools: seq<string>, s: string, b: string)
    requires Tagged(tools, s)
    ensures Tagged(tools, s + b)
  {
    var t :| t in tools && Index(s, Tag(t)) >= 0;
    var i := Index(s, Tag(t));
    assert (s + b)[i..i + |Tag(t)|] == s[i..i + |Tag(t)|];
    TaggedAt(tools, s + b, t, i);
  }
}
