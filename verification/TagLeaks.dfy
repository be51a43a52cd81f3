/** Two kinds of answers on which the tag of a configured tool reaches the client although detection fires. */
module TagLeaks {
  import opened Options
  import opened Strings
  import opened StreamWindow
  import opened StreamDetection

  // ---------- Two tags against the order of the configuration ----------

  lemma OneChunk(text: ContentText)
    ensures LastSix([text]) == text && Join([text]) == text
  {
    assert [text][..0] == [];
    assert Join([text]) == "" + text == text;
    assert LastFew([text], WINDOW_SIZE) == [text];
  }

  lemma SecondTag()
    ensures DetectTools(["a", "b"], "<b><a>") == Some("a") && Index("<b><a>", Tag("a")) == 3
  {
    var s := "<b><a>";
    assert OccursAt(s, Tag("a"), 3);
    forall i | 0 <= i < 3 ensures !OccursAt(s, Tag("a"), i) {
      assert i + 3 <= |s| && s[i..i + 3][1] == s[i + 1] != 'a';
    }
  }

  lemma OneDelta(tools: seq<string>, committed: bool, text: ContentText, name: string, front: string)
    requires DetectTools(tools, text) == Some(name) && front <= text && Index(text, Tag(name)) == |front|
    ensures var s := Feed(tools, true, Start(committed), [Delta(text)]);
            s.toolDetected && s.toolName == name && Sent(s.out) == "\n" + front
  {
    OneChunk(text);
    assert [] + [text] == [text] && [] + [Delta(text)] == [Delta(text)];
    SixTaggedSnoc(tools, [], text);
    DetectionCuts(tools, committed, [], text);
    assert Chosen(tools, [text]) == name && text[..|front|] == front;
  }

  /** One delta with two tags, in the opposite order of the configuration: the tag of b is sent. */
  lemma EarlierTagLeaks(committed: bool)
    ensures var s := Feed(["a", "b"], true, Start(committed), [Delta("<b><a>")]);
            s.toolDetected && s.toolName == "a" && Sent(s.out) == "\n" + Tag("b")
  {
    SecondTag();
    OneDelta(["a", "b"], committed, "<b><a>", "a", Tag("b"));
  }

  // ---------- A tag spelled out ----------

  // A text spelled out, one delta for each character.
  function Spelled(s: string): (lines: seq<Line>)
    ensures Done !in lines
  {
    if s == "" then [] else Spelled(s[..|s| - 1]) + [Delta([s[|s| - 1]])]
  }

  ghost predicate Singles(cs: seq<string>) {
    forall c :: c in cs ==> |c| == 1
  }

  function Letters(s: string): seq<string> {
    Contents(Spelled(s))
  }

  lemma LettersSnoc(s: string)
    requires s != ""
    ensures Letters(s) == Letters(s[..|s| - 1]) + [[s[|s| - 1]]]
  {
    ContentsSnoc(Spelled(s[..|s| - 1]), Delta([s[|s| - 1]]));
  }

  lemma OneMoreLetter(s: string, cs: seq<string>)
    requires s != "" && Singles(cs) && Join(cs) == s[..|s| - 1]
    ensures Singles(cs + [[s[|s| - 1]]]) && Join(cs + [[s[|s| - 1]]]) == s
  {
    OneMoreSingle(cs, [s[|s| - 1]]);
    assert s == s[..|s| - 1] + [s[|s| - 1]];
  }

  lemma {:induction false} SpelledContents(s: string)
    ensures Join(Letters(s)) == s && Singles(Letters(s))
  {
    if s != "" {
      SpelledContents(s[..|s| - 1]);
      LettersSnoc(s);
      OneMoreLetter(s, Letters(s[..|s| - 1]));
    }
  }

  lemma OneMoreSingle(cs: seq<string>, c: string)
    requires Singles(cs) && |c| == 1
    ensures Singles(cs + [c]) && Join(cs + [c]) == Join(cs) + c
  {
    JoinSnoc(cs, c);
  }

  lemma TagBegins(s: string, name: string, i: int)
    ensures OccursAt(s, Tag(name), i) ==> s[i] == '<'
  {
    if OccursAt(s, Tag(name), i) {
      assert s[i] == s[i..i + |Tag(name)|][0];
    }
  }

  // In the end of a tag followed by the tag, the tag begins where it was put: it starts with the only '<'.
  lemma TagAfterItsEnd(name: string, end: string)
    requires '<' !in end
    ensures Index(end + Tag(name), Tag(name)) == |end|
  {
    var s, t := end + Tag(name), Tag(name);
    assert OccursAt(s, t, |end|);
    forall i | 0 <= i < |end| ensures !OccursAt(s, t, i) {
      TagBegins(s, name, i);
      assert s[i] == end[i] && end[i] in end;
    }
  }

  // The last five characters of a longer tag.
  function EndOf(name: string): string
    requires |name| >= 4
  {
    Tag(name)[|Tag(name)| - 5..]
  }

  lemma EndHasNoBracket(name: string)
    requires '<' !in name && |name| >= 4
    ensures '<' !in EndOf(name)
  {
    var t := Tag(name);
    forall i | 0 <= i < 5 ensures EndOf(name)[i] != '<' {
      if i < 4 {
        assert EndOf(name)[i] == t[|t| - 5 + i] == name[|t| - 6 + i];
        assert name[|t| - 6 + i] in name;
      }
    }
  }

  lemma SinglesEnd(cs: seq<string>)
    requires |cs| >= 5 && Singles(cs)
    ensures |Join(cs)| == |cs| && Join(cs)[|cs| - 5..] == Join(cs[|cs| - 5..])
  {
    forall c | c in cs[|cs| - 5..] ensures |c| == 1 {
      assert c in cs;
    }
    JoinSinglesLength(cs);
    JoinSinglesLength(cs[|cs| - 5..]);
    JoinSplit(cs, |cs| - 5);
  }

  lemma WindowOver(cs: seq<string>, c: string)
    requires Singles(cs) && |cs| >= 5
    ensures |Join(cs)| == |cs| && LastSix(cs + [c]) == Join(cs)[|cs| - 5..] + c && Join(cs + [c]) == Join(cs) + c
  {
    SinglesEnd(cs);
    var five := cs[|cs| - 5..];
    assert LastFew(cs + [c], WINDOW_SIZE) == five + [c];
    JoinSnoc(five, c);
    JoinSnoc(cs, c);
  }

  lemma SpelledWindow(t: string)
    requires |t| >= 5
    ensures var cs := Letters(t) + [t];
            LastSix(cs) == t[|t| - 5..] + t && Join(cs) == t + t
  {
    SpelledContents(t);
    JoinSinglesLength(Letters(t));
    WindowOver(Letters(t), t);
  }

  lemma SpelledCut(name: string)
    requires '<' !in name && |name| >= 5
    ensures var cs := Letters(Tag(name)) + [Tag(name)];
            && DetectTools([name], LastSix(cs)) == Some(name)
            && CutPoint([name], cs) == |Tag(name)| && Join(cs) == Tag(name) + Tag(name)
  {
    SpelledWindow(Tag(name));
    EndHasNoBracket(name);
    TagAfterItsEnd(name, EndOf(name));
  }

  lemma NotWhileSpelled(name: string)
    requires |name| >= 5
    ensures !SixTagged([name], Letters(Tag(name)))
  {
    SpelledContents(Tag(name));
    SingleBytesEscape([name], false, Spelled(Tag(name)));
    DetectedExactly([name], false, Spelled(Tag(name)));
  }

  /** A tag of more than six characters, spelled out and then sent again in one piece: detection fires on the
  second one, and the client has the first one whole. */
  lemma SpelledTagLeaks(name: string, committed: bool)
    requires '<' !in name && |name| >= 5
    ensures var s := Feed([name], true, Start(committed), Spelled(Tag(name)) + [Delta(Tag(name))]);
            s.toolDetected && s.toolName == name && Sent(s.out) == "\n" + Tag(name)
  {
    var t: ContentText := Tag(name);
    NotWhileSpelled(name);
    SpelledCut(name);
    SixTaggedSnoc([name], Letters(t), t);
    DetectionCuts([name], committed, Spelled(t), t);
    assert (t + t)[..|t|] == t;
  }
}
