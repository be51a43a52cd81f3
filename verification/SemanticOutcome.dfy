/** What the semantic strategy selects and lists, read off the candidates, their scores and the tie-break order. */
module SemanticOutcome {
  import opened StableSort
  import opened SemanticRouter

  // ---------- What the tie-break order means ----------

  // a is mentioned no later than b.
  ghost predicate MentionedFirst(order: seq<string>, a: string, b: string) {
    exists i, j :: 0 <= i <= j < |order| && order[i] == a && order[j] == b
  }

  ghost predicate Unrepeated(order: seq<string>) {
    forall i, j :: 0 <= i < j < |order| ==> order[i] != order[j]
  }

  lemma MentionedExactly(order: seq<string>, a: string, b: string)
    requires Unrepeated(order) && a in order && b in order
    ensures MentionedFirst(order, a, b) <==> Position(IndexMapOf(order), a) <= Position(IndexMapOf(order), b)
  {
    PositionExactly(order, a);
    PositionExactly(order, b);
    var i, j := IndexMapOf(order)[a], IndexMapOf(order)[b];
    assert order[i] == a && order[j] == b;
    if k, l :| 0 <= k <= l < |order| && order[k] == a && order[l] == b {
      assert k == i && l == j;
    }
  }

  // ---------- What is selected ----------

  // The score of a candidate reaches m; a label that it does not score counts as zero.
  predicate Reaches(c: RoutingCandidate, tag: string, m: int) {
    if tag in c.scores then c.scores[tag] >= m else 0 >= m
  }

  // No candidate scores higher.
  ghost predicate Tops(c: RoutingCandidate, tag: string, candidates: seq<RoutingCandidate>) {
    c in candidates && forall d, m :: d in candidates && Reaches(d, tag, m) ==> Reaches(c, tag, m)
  }

  ghost predicate TopName(n: string, tag: string, candidates: seq<RoutingCandidate>) {
    exists c :: Tops(c, tag, candidates) && c.modelName == n
  }

  lemma {:induction false} InScores(candidates: seq<RoutingCandidate>, tag: string, s: Scored)
    ensures s in Scores(candidates, tag) <==>
            exists c :: c in candidates && s == Scored(c.modelName, ScoreOf(c, tag))
  {
    if s in Scores(candidates, tag) {
      var i :| 0 <= i < |candidates| && Scores(candidates, tag)[i] == s;
      ScoresAt(candidates, tag, i);
      assert candidates[i] in candidates;
    }
    if c :| c in candidates && s == Scored(c.modelName, ScoreOf(c, tag)) {
      var i :| 0 <= i < |candidates| && candidates[i] == c;
      ScoresAt(candidates, tag, i);
      assert Scores(candidates, tag)[i] == s;
    }
  }

  lemma InNames(arr: seq<Scored>, n: string)
    ensures n in NamesOf(arr) <==> exists s :: s in arr && s.name == n
  {
    if n in NamesOf(arr) {
      var i :| 0 <= i < |arr| && NamesOf(arr)[i] == n;
      NamesAt(arr, i);
      assert arr[i] in arr;
    }
    if s :| s in arr && s.name == n {
      var i :| 0 <= i < |arr| && arr[i] == s;
      NamesAt(arr, i);
    }
  }

  lemma TopsExactly(c: RoutingCandidate, tag: string, candidates: seq<RoutingCandidate>)
    requires c in candidates
    ensures Tops(c, tag, candidates) <==> ScoreOf(c, tag) == TopScore(Scores(candidates, tag))
  {
    var arr := Scores(candidates, tag);
    TopScoreReached(arr);
    var s :| s in arr && s.score == TopScore(arr);
    InScores(candidates, tag, s);
    var d :| d in candidates && s == Scored(d.modelName, ScoreOf(d, tag));
    assert Reaches(d, tag, TopScore(arr));
    forall e | e in candidates ensures ScoreOf(e, tag) <= TopScore(arr) {
      InScores(candidates, tag, Scored(e.modelName, ScoreOf(e, tag)));
    }
  }

  lemma WinnersAreTop(tag: string, candidates: seq<RoutingCandidate>, n: string)
    requires candidates != []
    ensures n in Winners(Scores(candidates, tag)) <==> TopName(n, tag, candidates)
  {
    var arr := Scores(candidates, tag);
    var top := Filter(arr, WithScore(TopScore(arr)));
    InNames(top, n);
    if n in Winners(arr) {
      var s :| s in top && s.name == n;
      InFilter(arr, WithScore(TopScore(arr)), s);
      InScores(candidates, tag, s);
      var c :| c in candidates && s == Scored(c.modelName, ScoreOf(c, tag));
      TopsExactly(c, tag, candidates);
    }
    if c :| Tops(c, tag, candidates) && c.modelName == n {
      TopsExactly(c, tag, candidates);
      var s := Scored(n, ScoreOf(c, tag));
      InScores(candidates, tag, s);
      InFilter(arr, WithScore(TopScore(arr)), s);
    }
  }

  lemma DecidedExactly(cfg: Routing, tag: string, candidates: seq<RoutingCandidate>)
    ensures Decided(cfg, tag, candidates)
            <==> exists c :: c in candidates && Reaches(c, tag, 0) && Reaches(c, tag, cfg.minScore)
  {
    if candidates != [] {
      var arr := Scores(candidates, tag);
      TopScoreReached(arr);
      var s :| s in arr && s.score == TopScore(arr);
      InScores(candidates, tag, s);
      forall e | e in candidates ensures ScoreOf(e, tag) <= TopScore(arr) {
        InScores(candidates, tag, Scored(e.modelName, ScoreOf(e, tag)));
      }
    }
  }

  lemma {:induction false} LeastIsIn<T>(s: seq<T>, key: T -> Rank)
    requires s != []
    ensures Least(s, key) in s
  {
    if |s| > 1 {
      LeastIsIn(s[..|s| - 1], key);
      LeastSplit(s, key);
    }
  }

  lemma {:induction false} LeastIsLeast<T>(s: seq<T>, key: T -> Rank, x: T)
    requires x in s
    ensures !Below(key(x), key(Least(s, key)))
  {
    var p, last := s[..|s| - 1], s[|s| - 1];
    assert s == p + [last];
    if p != [] {
      LeastSplit(s, key);
      if x in p {
        LeastIsLeast(p, key, x);
      }
    }
  }

  /** What is selected, for every request: without a candidate that scores at least zero and the minimum, the
  fall-back model, or the model asked for if there is none; else a candidate with the top score, of several the
  one that the tie-break order mentions first, if it mentions them all and none twice, and without a tie-break
  order the alphabetically first. */
  lemma SelectedExactly(cfg: Routing, tag: string, orig: string, candidates: seq<RoutingCandidate>)
    ensures var n, order := Select(cfg, tag, orig, candidates), cfg.tieBreakOrder;
            if exists c :: c in candidates && Reaches(c, tag, 0) && Reaches(c, tag, cfg.minScore)
            then && TopName(n, tag, candidates)
                 && (order == [] ==> forall m :: TopName(m, tag, candidates) ==> AtMost(n, m))
                 && (Unrepeated(order) && (forall m :: TopName(m, tag, candidates) ==> m in order) ==>
                       forall m :: TopName(m, tag, candidates) ==> MentionedFirst(order, n, m))
            else n == if cfg.fallbackModelName != "" then cfg.fallbackModelName else orig
  {
    DecidedExactly(cfg, tag, candidates);
    if Decided(cfg, tag, candidates) {
      var w, order := Winners(Scores(candidates, tag)), cfg.tieBreakOrder;
      var n := Select(cfg, tag, orig, candidates);
      WinnersExist(Scores(candidates, tag));
      SelectedWinner(cfg, tag, orig, candidates);
      WinnersAreTop(tag, candidates, n);
      forall m | TopName(m, tag, candidates)
        ensures order == [] ==> AtMost(n, m)
        ensures Unrepeated(order) && n in order && m in order ==> MentionedFirst(order, n, m)
      {
        WinnersAreTop(tag, candidates, m);
        if order == [] {
          SortNamesHead(w);
        } else if Unrepeated(order) && n in order && m in order {
          SortedHead(w, NameByTieBreak(IndexMapOf(order)));
          LeastIsLeast(w, NameByTieBreak(IndexMapOf(order)), m);
          MentionedExactly(order, n, m);
        }
      }
    }
  }

  lemma SelectedWinner(cfg: Routing, tag: string, orig: string, candidates: seq<RoutingCandidate>)
    requires Decided(cfg, tag, candidates)
    ensures Select(cfg, tag, orig, candidates) in Winners(Scores(candidates, tag))
  {
    var w, order := Winners(Scores(candidates, tag)), cfg.tieBreakOrder;
    WinnersExist(Scores(candidates, tag));
    if order == [] {
      SortNamesHead(w);
    } else {
      SortedHead(w, NameByTieBreak(IndexMapOf(order)));
      LeastIsIn(w, NameByTieBreak(IndexMapOf(order)));
    }
  }

  // ---------- What the list holds ----------

  lemma {:induction false} DedupExactly(s: seq<string>)
    ensures Unrepeated(Dedup(s))
    ensures forall i, j :: 0 <= i < j < |Dedup(s)| ==> FirstBefore(s, Dedup(s)[i], Dedup(s)[j])
  {
    if s != [] {
      var p, last := s[..|s| - 1], s[|s| - 1];
      assert s == p + [last];
      DedupExactly(p);
      var r := Dedup(s);
      forall i, j | 0 <= i < j < |r| ensures FirstBefore(s, r[i], r[j]) && r[i] != r[j] {
        assert r[i] == Dedup(p)[i] && r[i] in p;
        if j < |Dedup(p)| {
          FirstBeforeExtends(p, last, r[i], r[j]);
        } else {
          var k :| 0 <= k < |p| && p[k] == r[i];
          assert s[k] == r[i] && last !in s[..k];
        }
      }
    }
  }

  // a occurs, and before it b does not.
  ghost predicate FirstBefore(s: seq<string>, a: string, b: string) {
    exists k :: 0 <= k < |s| && s[k] == a && b !in s[..k] && a != b
  }

  lemma FirstBeforeExtends(s: seq<string>, x: string, a: string, b: string)
    requires FirstBefore(s, a, b)
    ensures FirstBefore(s + [x], a, b)
  {
    var k :| 0 <= k < |s| && s[k] == a && b !in s[..k] && a != b;
    assert (s + [x])[k] == a && (s + [x])[..k] == s[..k];
  }

  lemma RankingNames(cfg: Routing, tag: string, candidates: seq<RoutingCandidate>, n: string)
    ensures n in Ranking(cfg, tag, candidates) <==> exists c :: c in candidates && c.modelName == n
  {
    var arr, order := Scores(candidates, tag), IndexMapOf(cfg.tieBreakOrder);
    InNames(arr, n);
    forall s: Scored ensures s in arr <==> exists c :: c in candidates && s == Scored(c.modelName, ScoreOf(c, tag)) {
      InScores(candidates, tag, s);
    }
    if c :| c in candidates && c.modelName == n {
      assert Scored(n, ScoreOf(c, tag)) in arr;
    }
    if tag == "" {
      SortNamesAscends(NamesOf(arr));
      SortedIsStable(NamesOf(arr), NameByTieBreak(order));
      assert n in Ranking(cfg, tag, candidates) <==> n in multiset(NamesOf(arr));
    } else {
      NoTieBreakOrder(arr);
      var t := Sorted(arr, ByScoreThenTieBreak(order));
      SortedIsStable(arr, ByScoreThenTieBreak(order));
      InNames(t, n);
      forall s: Scored ensures s in t <==> s in arr {
        assert s in t <==> s in multiset(arr);
      }
    }
  }

  /** The list holds every candidate's name once, and the fall-back model, which comes last unless it is a
  candidate. */
  lemma ListExactly(cfg: Routing, tag: string, candidates: seq<RoutingCandidate>)
    ensures var list := Order(cfg, tag, candidates);
            && Unrepeated(list)
            && (forall n :: n in list <==>
                  (exists c :: c in candidates && c.modelName == n)
                  || (n == cfg.fallbackModelName && n != ""))
            && (cfg.fallbackModelName != "" && (forall c :: c in candidates ==> c.modelName != cfg.fallbackModelName)
                ==> list != [] && list[|list| - 1] == cfg.fallbackModelName)
  {
    var r := Ranking(cfg, tag, candidates);
    DedupExactly(r);
    forall n ensures n in Dedup(r) <==> exists c :: c in candidates && c.modelName == n {
      RankingNames(cfg, tag, candidates, n);
    }
  }

  // ---------- The order of names ----------

  // a comes before b in a dictionary of characters: it is a front part of b, or smaller where they first differ.
  ghost predicate Precedes(a: string, b: string) {
    a <= b || exists k :: 0 <= k < |a| && k < |b| && a[..k] == b[..k] && a[k] < b[k]
  }

  lemma {:induction false} AtMostExactly(a: string, b: string)
    ensures AtMost(a, b) <==> Precedes(a, b)
  {
    if a != "" && b != "" {
      if a[0] == b[0] {
        AtMostExactly(a[1..], b[1..]);
        OneCharMore(a, b);
      } else {
        assert a[..0] == b[..0] && !(a <= b);
        if k :| 0 <= k < |a| && k < |b| && a[..k] == b[..k] && a[k] < b[k] {
          assert k > 0 ==> a[..k][0] == b[..k][0];
        }
      }
    }
  }

  lemma OneCharMore(a: string, b: string)
    requires a != "" && b != "" && a[0] == b[0]
    ensures Precedes(a, b) <==> Precedes(a[1..], b[1..])
  {
    assert a == [a[0]] + a[1..] && b == [b[0]] + b[1..];
    if k :| 0 <= k < |a| && k < |b| && a[..k] == b[..k] && a[k] < b[k] {
      assert a[1..][..k - 1] == a[..k][1..] && b[1..][..k - 1] == b[..k][1..];
      assert a[1..][k - 1] < b[1..][k - 1];
    }
    if k :| 0 <= k < |a[1..]| && k < |b[1..]| && a[1..][..k] == b[1..][..k] && a[1..][k] < b[1..][k] {
      assert a[..k + 1] == [a[0]] + a[1..][..k] && b[..k + 1] == [b[0]] + b[1..][..k];
      assert a[k + 1] < b[k + 1];
    }
  }

  // ---------- The list, read off scores and tie-break order ----------

  /** With a label, of two entries the higher score comes first, and of equal scores the name that a tie-break
  order without repetition mentions first. */
  lemma ListedByMention(cfg: Routing, tag: string, candidates: seq<RoutingCandidate>) returns (t: seq<Scored>)
    requires tag != "" && Unrepeated(cfg.tieBreakOrder)
    ensures Order(cfg, tag, candidates) == AppendFallback(cfg, Dedup(NamesOf(t)))
    ensures multiset(t) == multiset(Scores(candidates, tag))
    ensures forall i, j :: 0 <= i < j < |t| ==>
              && t[i].score >= t[j].score
              && (t[i].score == t[j].score && t[i].name in cfg.tieBreakOrder && t[j].name in cfg.tieBreakOrder ==>
                    MentionedFirst(cfg.tieBreakOrder, t[i].name, t[j].name))
  {
    var order, arr := IndexMapOf(cfg.tieBreakOrder), Scores(candidates, tag);
    t := Sorted(arr, ByScoreThenTieBreak(order));
    NoTieBreakOrder(arr);
    SortedIsStable(arr, ByScoreThenTieBreak(order));
    forall i, j | 0 <= i < j < |t|
      ensures t[i].score >= t[j].score
      ensures t[i].score == t[j].score && t[i].name in cfg.tieBreakOrder && t[j].name in cfg.tieBreakOrder ==>
                MentionedFirst(cfg.tieBreakOrder, t[i].name, t[j].name)
    {
      assert !Below(ByScoreThenTieBreak(order)(t[j]), ByScoreThenTieBreak(order)(t[i]));
      if t[i].name in cfg.tieBreakOrder && t[j].name in cfg.tieBreakOrder {
        MentionedExactly(cfg.tieBreakOrder, t[i].name, t[j].name);
      }
    }
  }
}
