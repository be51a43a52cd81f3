/** The semantic strategy's choice and ordering of candidates by label score. */
module SemanticRouter {
  import opened StableSort

  datatype RoutingCandidate = RoutingCandidate(modelName: string, scores: map<string, int>)
  datatype Scored = Scored(name: string, score: int)
  datatype Routing = Routing(tieBreakOrder: seq<string>, fallbackModelName: string, minScore: int)

  type Positions = map<string, int>

  // ---------- Scores, tie-break positions, names ----------

  // A label missing from the score table counts as zero.
  function ScoreOf(c: RoutingCandidate, tag: string): int {
    if tag in c.scores then c.scores[tag] else 0
  }

  function Scores(candidates: seq<RoutingCandidate>, tag: string): (r: seq<Scored>)
    ensures |r| == |candidates|
  {
    if candidates == [] then []
    else
      var c := candidates[|candidates| - 1];
      Scores(candidates[..|candidates| - 1], tag)
      + [Scored(c.modelName, ScoreOf(c, tag))]
  }

  function NamesOf(arr: seq<Scored>): (r: seq<string>)
    ensures |r| == |arr|
    ensures arr != [] ==> r[0] == arr[0].name
  {
    if arr == [] then [] else NamesOf(arr[..|arr| - 1]) + [arr[|arr| - 1].name]
  }

  lemma NamesAppend(arr: seq<Scored>, s: Scored)
    ensures NamesOf(arr + [s]) == NamesOf(arr) + [s.name]
  {
  }

  function IndexMapOf(order: seq<string>): Positions {
    if order == [] then map[]
    else IndexMapOf(order[..|order| - 1])[order[|order| - 1] := |order| - 1]
  }

  // A name that is not in the tie-break order gets position zero.
  function Position(order: Positions, name: string): int {
    if name in order then order[name] else 0
  }

  ghost predicate LastAt(order: seq<string>, n: string, k: int) {
    0 <= k < |order| && order[k] == n && forall j :: k < j < |order| ==> order[j] != n
  }

  /** A name's position is its last place in the tie-break order, and zero if it is not mentioned. */
  lemma {:induction false} PositionExactly(order: seq<string>, n: string)
    ensures n in IndexMapOf(order) <==> n in order
    ensures n in order ==> LastAt(order, n, IndexMapOf(order)[n])
    ensures Position(IndexMapOf(order), n) == if n in order then IndexMapOf(order)[n] else 0
  {
    if order != [] {
      var front, last := order[..|order| - 1], order[|order| - 1];
      assert order == front + [last];
      PositionExactly(front, n);
      if n in order && n != last {
        var k := IndexMapOf(front)[n];
        assert LastAt(front, n, k) && IndexMapOf(order)[n] == k;
        assert forall j :: k < j < |front| ==> order[j] == front[j];
      }
    }
  }

  method IndexMap(order: seq<string>) returns (m: Positions)
    ensures m == IndexMapOf(order)
    ensures forall n :: n in m <==> n in order
    ensures forall n :: n in order ==> LastAt(order, n, m[n])
  {
    m := map[];
    for i := 0 to |order|
      invariant m == IndexMapOf(order[..i])
    {
      m := m[order[i] := i];
      assert order[..i + 1][..i] == order[..i];
    }
    assert order[..|order|] == order;
    forall n ensures (n in m <==> n in order) && (n in order ==> LastAt(order, n, m[n])) {
      PositionExactly(order, n);
    }
  }

  function ByScore(): Scored -> Rank {
    (s: Scored) => Rank(-s.score, 0)
  }

  function ByTieBreak(order: Positions): Scored -> Rank {
    (s: Scored) => Rank(Position(order, s.name), 0)
  }

  // Score descending, then tie-break position ascending.
  function ByScoreThenTieBreak(order: Positions): Scored -> Rank {
    (s: Scored) => Rank(-s.score, Position(order, s.name))
  }

  function NameByTieBreak(order: Positions): string -> Rank {
    (n: string) => Rank(Position(order, n), 0)
  }

  function WithScore(score: int): Scored -> bool {
    (s: Scored) => s.score == score
  }

  // ---------- Byte-wise string order (the library's sort.Strings) ----------

  predicate AtMost(a: string, b: string) {
    a == "" || (b != "" && (a[0] < b[0] || (a[0] == b[0] && AtMost(a[1..], b[1..]))))
  }

  lemma {:induction false} AtMostTotal(a: string, b: string)
    ensures AtMost(a, b) || AtMost(b, a)
  {
    if a != "" && b != "" && a[0] == b[0] {
      AtMostTotal(a[1..], b[1..]);
    }
  }

  lemma {:induction false} AtMostTransitive(a: string, b: string, c: string)
    requires AtMost(a, b) && AtMost(b, c)
    ensures AtMost(a, c)
  {
    if a != "" && a[0] == b[0] && b[0] == c[0] {
      AtMostTransitive(a[1..], b[1..], c[1..]);
    }
  }

  lemma {:induction false} AtMostAntisymmetric(a: string, b: string)
    requires AtMost(a, b) && AtMost(b, a)
    ensures a == b
  {
    if a != "" && b != "" {
      AtMostAntisymmetric(a[1..], b[1..]);
      assert a == [a[0]] + a[1..] && b == [b[0]] + b[1..];
    }
  }

  function InsertName(s: seq<string>, x: string): seq<string> {
    if s == [] then [x]
    else if AtMost(x, s[0]) then [x] + s
    else [s[0]] + InsertName(s[1..], x)
  }

  function SortNames(s: seq<string>): seq<string> {
    if s == [] then [] else InsertName(SortNames(s[..|s| - 1]), s[|s| - 1])
  }

  lemma {:induction false} SortNamesHead(s: seq<string>)
    requires s != []
    ensures SortNames(s) != [] && SortNames(s)[0] in s
    ensures forall x :: x in s ==> AtMost(SortNames(s)[0], x)
  {
    var p, last := s[..|s| - 1], s[|s| - 1];
    assert s == p + [last];
    AtMostTotal(last, last);
    if p != [] {
      SortNamesHead(p);
      var h := SortNames(p)[0];
      AtMostTotal(last, h);
      forall x | x in p && AtMost(last, h) ensures AtMost(last, x) {
        AtMostTransitive(last, h, x);
      }
    }
  }

  // ---------- De-duplication and fallback ----------

  function Dedup(s: seq<string>): (r: seq<string>)
    ensures forall x :: x in r <==> x in s
    ensures s != [] ==> r != [] && r[0] == s[0]
  {
    if s == [] then []
    else
      var p, last := s[..|s| - 1], s[|s| - 1];
      assert s == p + [last];
      Dedup(p) + (if last in p then [] else [last])
  }

  method DedupNames(s: seq<string>) returns (out: seq<string>)
    ensures out == Dedup(s)
  {
    out := [];
    var seen: set<string> := {};
    for i := 0 to |s|
      invariant out == Dedup(s[..i])
      invariant forall x :: x in seen <==> x in s[..i]
    {
      assert s[..i + 1] == s[..i] + [s[i]] && s[..i + 1][..i] == s[..i];
      if s[i] !in seen {
        seen := seen + {s[i]};
        out := out + [s[i]];
      }
    }
    assert s[..|s|] == s;
  }

  function AppendFallback(cfg: Routing, names: seq<string>): seq<string> {
    if cfg.fallbackModelName != "" && cfg.fallbackModelName !in names then names + [cfg.fallbackModelName] else names
  }

  // ---------- Ordering ----------

  // The reference order: one stable sort, by score and then tie-break position.
  function Ranking(cfg: Routing, tag: string, candidates: seq<RoutingCandidate>): seq<string> {
    var order, names := IndexMapOf(cfg.tieBreakOrder), NamesOf(Scores(candidates, tag));
    if tag == "" then
      if cfg.tieBreakOrder != [] then Sorted(names, NameByTieBreak(order)) else SortNames(names)
    else if cfg.tieBreakOrder != [] then NamesOf(Sorted(Scores(candidates, tag), ByScoreThenTieBreak(order)))
    else NamesOf(Sorted(Scores(candidates, tag), ByScore()))
  }

  function Order(cfg: Routing, tag: string, candidates: seq<RoutingCandidate>): seq<string> {
    AppendFallback(cfg, Dedup(Ranking(cfg, tag, candidates)))
  }

  // What holds while equal-score buckets left of i have been re-sorted.
  ghost predicate BucketsDone(a: seq<Scored>, i: nat, arr: seq<Scored>, order: Positions) {
    && i <= |a|
    && SameClasses(a, arr, ByScoreThenTieBreak(order))
    && (forall k, l :: 0 <= k < l < |a| ==> a[k].score >= a[l].score)
    && Ordered(a[..i], ByScoreThenTieBreak(order))
    && (0 < i < |a| ==> a[i - 1].score > a[i].score)
  }

  lemma BucketSorted(b: seq<Scored>, order: Positions, score: int)
    requires forall s :: s in b ==> s.score == score
    ensures var r := Sorted(b, ByTieBreak(order));
            && |r| == |b| && (forall s :: s in r ==> s.score == score)
            && Ordered(r, ByScoreThenTieBreak(order)) && SameClasses(r, b, ByScoreThenTieBreak(order))
  {
    SortedAgree(b, ByTieBreak(order), ByScoreThenTieBreak(order));
    SortedIsStable(b, ByScoreThenTieBreak(order));
    var r := Sorted(b, ByTieBreak(order));
    assert |multiset(r)| == |multiset(b)|;
    forall s | s in r ensures s in b {
      assert s in multiset(r);
    }
  }

  lemma BucketClasses(a: seq<Scored>, i: nat, j: nat, r: seq<Scored>, arr: seq<Scored>, key: Scored -> Rank)
    requires i <= j <= |a| && SameClasses(a, arr, key) && SameClasses(r, a[i..j], key)
    ensures SameClasses(a[..i] + r + a[j..], arr, key)
  {
    assert a == a[..i] + a[i..j] + a[j..];
    forall q ensures OfRank(a[..i] + r + a[j..], key, q) == OfRank(arr, key, q) {
      assert OfRank(r, key, q) == OfRank(a[i..j], key, q);
      OfRankAppend(a[..i] + r, a[j..], key, q);
      OfRankAppend(a[..i], r, key, q);
      OfRankAppend(a[..i] + a[i..j], a[j..], key, q);
      OfRankAppend(a[..i], a[i..j], key, q);
      assert OfRank(a, key, q) == OfRank(arr, key, q);
    }
  }

  lemma BucketJoins(a: seq<Scored>, r: seq<Scored>, order: Positions)
    requires Ordered(a, ByScoreThenTieBreak(order)) && Ordered(r, ByScoreThenTieBreak(order))
    requires forall x, y :: x in a && y in r ==> x.score > y.score
    ensures Ordered(a + r, ByScoreThenTieBreak(order))
  {
  }

  lemma BucketScores(a: seq<Scored>, i: nat, j: nat, r: seq<Scored>, score: int)
    requires i <= j <= |a| && |r| == j - i
    requires (forall k :: i <= k < j ==> a[k].score == score) && (forall x :: x in r ==> x.score == score)
    ensures |a[..i] + r + a[j..]| == |a|
    ensures forall k :: 0 <= k < |a| ==> (a[..i] + r + a[j..])[k].score == a[k].score
  {
  }

  lemma BucketAbove(a: seq<Scored>, i: nat, r: seq<Scored>, score: int)
    requires i < |a| && a[i].score == score && (i > 0 ==> a[i - 1].score > score)
    requires forall k, l :: 0 <= k < l < |a| ==> a[k].score >= a[l].score
    requires forall x :: x in r ==> x.score == score
    ensures forall x, y :: x in a[..i] && y in r ==> x.score > y.score
  {
  }

  lemma BucketStep(a: seq<Scored>, i: nat, j: nat, arr: seq<Scored>, order: Positions)
    requires i < j <= |a| && BucketsDone(a, i, arr, order)
    requires forall k :: i <= k < j ==> a[k].score == a[i].score
    requires j < |a| ==> a[j].score != a[i].score
    ensures BucketsDone(a[..i] + Sorted(a[i..j], ByTieBreak(order)) + a[j..], j, arr, order)
  {
    var r, score := Sorted(a[i..j], ByTieBreak(order)), a[i].score;
    BucketSorted(a[i..j], order, score);
    BucketScores(a, i, j, r, score);
    BucketClasses(a, i, j, r, arr, ByScoreThenTieBreak(order));
    BucketAbove(a, i, r, score);
    BucketJoins(a[..i], r, order);
    assert (a[..i] + r + a[j..])[..j] == a[..i] + r;
  }

  /** Re-sorting each equal-score bucket in place equals one stable sort by score, then tie-break. */
  method BreakTies(arr: array<Scored>, order: Positions)
    requires forall k, l :: 0 <= k < l < |arr[..]| ==> arr[..][k].score >= arr[..][l].score
    modifies arr
    ensures arr[..] == Sorted(old(arr[..]), ByScoreThenTieBreak(order))
  {
    ghost var was := arr[..];
    var i := 0;
    while i < arr.Length
      invariant BucketsDone(arr[..], i, was, order)
    {
      var j := i + 1;
      while j < arr.Length && arr[j].score == arr[i].score
        invariant i < j <= arr.Length
        invariant forall k :: i <= k < j ==> arr[k].score == arr[i].score
      {
        j := j + 1;
      }
      BucketStep(arr[..], i, j, was, order);
      assert arr[..][..i] == arr[..i] && arr[..][i..j] == arr[i..j] && arr[..][j..] == arr[j..];
      SliceStable(arr, i, j, ByTieBreak(order));
      i := j;
    }
    assert arr[..][..i] == arr[..];
    SortedUnique(arr[..], was, ByScoreThenTieBreak(order));
  }

  method SortByTieBreak(names: seq<string>, order: Positions) returns (out: seq<string>)
    ensures out == Sorted(names, NameByTieBreak(order))
  {
    var a := new string[|names|](i requires 0 <= i < |names| => names[i]);
    assert a[..] == names;
    SortAll(a, NameByTieBreak(order));
    out := a[..];
  }

  method SortByScore(scores: seq<Scored>, tieBreakOrder: seq<string>) returns (out: seq<Scored>)
    ensures out == Sorted(scores, if tieBreakOrder != [] then ByScoreThenTieBreak(IndexMapOf(tieBreakOrder))
                                  else ByScore())
  {
    var arr := new Scored[|scores|](i requires 0 <= i < |scores| => scores[i]);
    assert arr[..] == scores;
    SortAll(arr, ByScore());
    if |tieBreakOrder| > 0 {
      var order := IndexMap(tieBreakOrder);
      ScoresDescend(scores);
      BreakTies(arr, order);
      TwoSorts(scores, order);
    }
    out := arr[..];
  }

  lemma TwoSorts(scores: seq<Scored>, order: Positions)
    ensures Sorted(Sorted(scores, ByScore()), ByScoreThenTieBreak(order)) == Sorted(scores, ByScoreThenTieBreak(order))
  {
    SortedTwice(scores, ByScore(), ByScoreThenTieBreak(order), (r: Rank) => Rank(r.major, 0));
  }

  lemma ScoresDescend(scores: seq<Scored>)
    ensures var s := Sorted(scores, ByScore()); forall k, l :: 0 <= k < l < |s| ==> s[k].score >= s[l].score
  {
    var s := Sorted(scores, ByScore());
    SortedIsStable(scores, ByScore());
    forall k, l | 0 <= k < l < |s| ensures s[k].score >= s[l].score {
      assert !Below(ByScore()(s[l]), ByScore()(s[k]));
    }
  }

  method OrderCandidatesByLabel(cfg: Routing, tag: string, candidates: seq<RoutingCandidate>)
    returns (out: seq<string>)
    ensures out == Order(cfg, tag, candidates)
  {
    var scores := Scores(candidates, tag);
    if tag != "" {
      var sorted := SortByScore(scores, cfg.tieBreakOrder);
      out := NamesOf(sorted);
    } else if |cfg.tieBreakOrder| > 0 {
      var order := IndexMap(cfg.tieBreakOrder);
      out := SortByTieBreak(NamesOf(scores), order);
    } else {
      out := SortNames(NamesOf(scores));
    }
    out := DedupNames(out);
    if cfg.fallbackModelName != "" && cfg.fallbackModelName !in out {
      out := out + [cfg.fallbackModelName];
    }
  }

  // ---------- Selection ----------

  function TopScore(arr: seq<Scored>): (m: int)
    requires arr != []
    ensures forall s :: s in arr ==> s.score <= m
  {
    var p, last := arr[..|arr| - 1], arr[|arr| - 1];
    assert arr == p + [last];
    if p == [] then last.score
    else if last.score > TopScore(p) then last.score else TopScore(p)
  }

  function Winners(arr: seq<Scored>): seq<string>
    requires arr != []
  {
    NamesOf(Filter(arr, WithScore(TopScore(arr))))
  }

  function FallbackOr(cfg: Routing, orig: string): string {
    if cfg.fallbackModelName != "" then cfg.fallbackModelName else orig
  }

  // Some candidate scores high enough to be chosen by score.
  predicate Decided(cfg: Routing, tag: string, candidates: seq<RoutingCandidate>) {
    candidates != [] && TopScore(Scores(candidates, tag)) >= 0 && TopScore(Scores(candidates, tag)) >= cfg.minScore
  }

  function Select(cfg: Routing, tag: string, orig: string, candidates: seq<RoutingCandidate>): string {
    if !Decided(cfg, tag, candidates) then FallbackOr(cfg, orig)
    else
      var w := Winners(Scores(candidates, tag));
      WinnersExist(Scores(candidates, tag));
      if cfg.tieBreakOrder != [] then
        SortedHead(w, NameByTieBreak(IndexMapOf(cfg.tieBreakOrder)));
        Sorted(w, NameByTieBreak(IndexMapOf(cfg.tieBreakOrder)))[0]
      else
        SortNamesHead(w);
        SortNames(w)[0]
  }

  lemma {:induction false} TopScoreReached(arr: seq<Scored>)
    requires arr != []
    ensures exists s :: s in arr && s.score == TopScore(arr)
  {
    var p, last := arr[..|arr| - 1], arr[|arr| - 1];
    if p == [] || last.score > TopScore(p) {
      assert last in arr;
    } else {
      TopScoreReached(p);
    }
  }

  lemma WinnersExist(arr: seq<Scored>)
    requires arr != []
    ensures Winners(arr) != []
  {
    TopScoreReached(arr);
    var s :| s in arr && s.score == TopScore(arr);
    InFilter(arr, WithScore(TopScore(arr)), s);
  }

  // The largest score, or -1 when all are negative.
  method MaxScore(arr: seq<Scored>) returns (max: int)
    requires arr != []
    ensures max == if TopScore(arr) > -1 then TopScore(arr) else -1
  {
    max := -1;
    for i := 0 to |arr|
      invariant max == if i > 0 && TopScore(arr[..i]) > -1 then TopScore(arr[..i]) else -1
    {
      assert arr[..i + 1][..i] == arr[..i];
      if arr[i].score > max {
        max := arr[i].score;
      }
    }
    assert arr[..|arr|] == arr;
  }

  method CollectWinners(arr: seq<Scored>, max: int) returns (winners: seq<string>)
    ensures winners == NamesOf(Filter(arr, WithScore(max)))
  {
    winners := [];
    for i := 0 to |arr|
      invariant winners == NamesOf(Filter(arr[..i], WithScore(max)))
    {
      assert arr[..i + 1] == arr[..i] + [arr[i]];
      FilterSnoc(arr[..i], arr[i], WithScore(max));
      if arr[i].score == max {
        NamesAppend(Filter(arr[..i], WithScore(max)), arr[i]);
        winners := winners + [arr[i].name];
      }
    }
    assert arr[..|arr|] == arr;
  }

  method SelectByLabel(cfg: Routing, tag: string, orig: string, candidates: seq<RoutingCandidate>)
    returns (name: string)
    ensures name == Select(cfg, tag, orig, candidates)
  {
    if |candidates| == 0 {
      return FallbackOr(cfg, orig);
    }
    var arr := Scores(candidates, tag);
    var max := MaxScore(arr);
    if max < 0 || max < cfg.minScore {
      return FallbackOr(cfg, orig);
    }
    var winners := CollectWinners(arr, max);
    WinnersExist(arr);
    assert Decided(cfg, tag, candidates) && max == TopScore(arr) && winners == Winners(arr);
    if |winners| == 1 {
      OnlyWinner(cfg, winners);
      return winners[0];
    }
    if |cfg.tieBreakOrder| > 0 {
      var order := IndexMap(cfg.tieBreakOrder);
      SortedHead(winners, NameByTieBreak(order));
      winners := SortByTieBreak(winners, order);
      return winners[0];
    }
    SortNamesHead(winners);
    return SortNames(winners)[0];
  }

  lemma OnlyWinner(cfg: Routing, winners: seq<string>)
    requires |winners| == 1
    ensures Sorted(winners, NameByTieBreak(IndexMapOf(cfg.tieBreakOrder))) == winners
    ensures SortNames(winners) == winners
  {
  }

  // ---------- The head of the order ----------

  lemma WinnersStep(arr: seq<Scored>)
    requires |arr| > 1
    ensures var p, last := arr[..|arr| - 1], arr[|arr| - 1];
            && TopScore(arr) == (if last.score > TopScore(p) then last.score else TopScore(p))
            && Winners(arr) == (if last.score > TopScore(p) then [last.name]
                                else if last.score == TopScore(p) then Winners(p) + [last.name]
                                else Winners(p))
  {
    var p, last := arr[..|arr| - 1], arr[|arr| - 1];
    assert arr == p + [last];
    FilterSnoc(p, last, WithScore(TopScore(arr)));
    if last.score > TopScore(p) {
      FilterEmpty(p, WithScore(last.score));
      NamesAppend([], last);
    } else {
      NamesAppend(Filter(p, WithScore(TopScore(p))), last);
    }
  }

  lemma OneWinner(arr: seq<Scored>)
    requires |arr| == 1
    ensures TopScore(arr) == arr[0].score && Winners(arr) == [arr[0].name]
  {
    assert arr[..0] == [];
    assert Filter(arr[..0], WithScore(arr[0].score)) == [];
    NamesAppend([], arr[0]);
  }

  lemma LeastAppend<T>(s: seq<T>, x: T, key: T -> Rank)
    requires s != []
    ensures Least(s + [x], key) == if Below(key(x), key(Least(s, key))) then x else Least(s, key)
  {
  }

  lemma LeastSplit<T>(s: seq<T>, key: T -> Rank)
    requires |s| > 1
    ensures var p, last := s[..|s| - 1], s[|s| - 1];
            Least(s, key) == if Below(key(last), key(Least(p, key))) then last else Least(p, key)
  {
  }

  lemma LeastOfOne<T>(x: T, key: T -> Rank)
    ensures Least([x], key) == x
  {
  }

  lemma BelowByScore(a: Scored, b: Scored, order: Positions)
    ensures Below(ByScoreThenTieBreak(order)(a), ByScoreThenTieBreak(order)(b))
            <==> a.score > b.score
                 || (a.score == b.score && Below(NameByTieBreak(order)(a.name), NameByTieBreak(order)(b.name)))
  {
  }

  lemma LeastWinnerStep(arr: seq<Scored>, order: Positions)
    requires |arr| > 1
    requires var p, last := arr[..|arr| - 1], arr[|arr| - 1];
             && Winners(p) != []
             && Least(p, ByScoreThenTieBreak(order)).score == TopScore(p)
             && Least(p, ByScoreThenTieBreak(order)).name == Least(Winners(p), NameByTieBreak(order))
             && TopScore(arr) == (if last.score > TopScore(p) then last.score else TopScore(p))
             && Winners(arr) == (if last.score > TopScore(p) then [last.name]
                                 else if last.score == TopScore(p) then Winners(p) + [last.name]
                                 else Winners(p))
    ensures Winners(arr) != []
    ensures Least(arr, ByScoreThenTieBreak(order)).score == TopScore(arr)
    ensures Least(arr, ByScoreThenTieBreak(order)).name == Least(Winners(arr), NameByTieBreak(order))
  {
    var p, last := arr[..|arr| - 1], arr[|arr| - 1];
    LeastSplit(arr, ByScoreThenTieBreak(order));
    BelowByScore(last, Least(p, ByScoreThenTieBreak(order)), order);
    LeastAppend(Winners(p), last.name, NameByTieBreak(order));
    LeastOfOne(last.name, NameByTieBreak(order));
  }

  lemma {:induction false} LeastIsWinner(arr: seq<Scored>, order: Positions)
    requires arr != []
    ensures Winners(arr) != []
    ensures Least(arr, ByScoreThenTieBreak(order)).score == TopScore(arr)
    ensures Least(arr, ByScoreThenTieBreak(order)).name == Least(Winners(arr), NameByTieBreak(order))
  {
    if |arr| == 1 {
      OneWinner(arr);
    } else {
      LeastIsWinner(arr[..|arr| - 1], order);
      WinnersStep(arr);
      LeastWinnerStep(arr, order);
    }
  }

  lemma {:induction false} FirstOfTop(arr: seq<Scored>)
    requires arr != []
    ensures Winners(arr) != []
    ensures Least(arr, ByScore()).score == TopScore(arr) && Least(arr, ByScore()).name == Winners(arr)[0]
  {
    if |arr| == 1 {
      OneWinner(arr);
    } else {
      FirstOfTop(arr[..|arr| - 1]);
      WinnersStep(arr);
    }
  }

  lemma NamesHead(cfg: Routing, s: seq<Scored>)
    requires s != []
    ensures AppendFallback(cfg, Dedup(NamesOf(s))) != []
    ensures AppendFallback(cfg, Dedup(NamesOf(s)))[0] == s[0].name
  {
  }

  /** With a tie-break order the fall-back list starts with the very model that is selected. */
  lemma HeadIsSelected(cfg: Routing, tag: string, orig: string, candidates: seq<RoutingCandidate>)
    requires tag != "" && cfg.tieBreakOrder != [] && Decided(cfg, tag, candidates)
    ensures Order(cfg, tag, candidates) != []
    ensures Order(cfg, tag, candidates)[0] == Select(cfg, tag, orig, candidates)
  {
    var order, arr := IndexMapOf(cfg.tieBreakOrder), Scores(candidates, tag);
    LeastIsWinner(arr, order);
    SortedHead(arr, ByScoreThenTieBreak(order));
    SortedHead(Winners(arr), NameByTieBreak(order));
    NamesHead(cfg, Sorted(arr, ByScoreThenTieBreak(order)));
  }

  /** Without a tie-break order the list keeps the configuration order among equal scores while the
  selection takes the alphabetically first name, so the two agree exactly when the first of the
  top-scored candidates has the least name among them. */
  lemma HeadIsSelectedWithoutTieBreak(cfg: Routing, tag: string, orig: string, candidates: seq<RoutingCandidate>)
    requires tag != "" && cfg.tieBreakOrder == [] && Decided(cfg, tag, candidates)
    ensures Order(cfg, tag, candidates) != []
    ensures var w := Winners(Scores(candidates, tag));
            && w != []
            && (Order(cfg, tag, candidates)[0] == Select(cfg, tag, orig, candidates)
                <==> forall x :: x in w ==> AtMost(w[0], x))
  {
    var arr := Scores(candidates, tag);
    FirstOfTop(arr);
    var w := Winners(arr);
    SortedHead(arr, ByScore());
    SortNamesHead(w);
    NamesHead(cfg, Sorted(arr, ByScore()));
    if forall x :: x in w ==> AtMost(w[0], x) {
      AtMostAntisymmetric(w[0], SortNames(w)[0]);
    }
  }

  lemma TwoWinners()
    ensures var arr := [Scored("b", 1), Scored("a", 1)];
            TopScore(arr) == 1 && Winners(arr) == ["b", "a"]
  {
    var b, a := Scored("b", 1), Scored("a", 1);
    var arr := [b, a];
    assert arr[..|arr| - 1] == [b] && arr[|arr| - 1] == a;
    OneWinner([b]);
    WinnersStep(arr);
    assert ["b"] + ["a"] == ["b", "a"];
  }

  const NO_TIE_BREAK := Routing([], "", 0)
  const TWO_EQUALS := [RoutingCandidate("b", map["code" := 1]), RoutingCandidate("a", map["code" := 1])]

  lemma EqualScores()
    ensures Scores(TWO_EQUALS, "code") == [Scored("b", 1), Scored("a", 1)]
  {
  }

  // Two candidates with equal scores, listed against the alphabet, tell the two apart.
  lemma HeadMayDiffer()
    ensures Decided(NO_TIE_BREAK, "code", TWO_EQUALS)
    ensures Order(NO_TIE_BREAK, "code", TWO_EQUALS) != []
    ensures Order(NO_TIE_BREAK, "code", TWO_EQUALS)[0] != Select(NO_TIE_BREAK, "code", "auto", TWO_EQUALS)
  {
    EqualScores();
    TwoWinners();
    HeadIsSelectedWithoutTieBreak(NO_TIE_BREAK, "code", "auto", TWO_EQUALS);
    assert "a" in ["b", "a"] && !AtMost("b", "a");
  }

  // ---------- The documented order ----------

  predicate NameAtMost(a: Scored, b: Scored) {
    AtMost(a.name, b.name)
  }

  // Score descending, then tie-break position, then name ascending.
  ghost predicate AsDocumented(order: Positions, s: seq<Scored>) {
    forall i, j :: 0 <= i < j < |s| ==>
      || s[i].score > s[j].score
      || (s[i].score == s[j].score
          && (|| Position(order, s[i].name) < Position(order, s[j].name)
              || (Position(order, s[i].name) == Position(order, s[j].name) && AtMost(s[i].name, s[j].name))))
  }

  // Tie-break position, then name ascending.
  ghost predicate NamesAsDocumented(order: Positions, s: seq<string>) {
    forall i, j :: 0 <= i < j < |s| ==>
      || Position(order, s[i]) < Position(order, s[j])
      || (Position(order, s[i]) == Position(order, s[j]) && AtMost(s[i], s[j]))
  }

  // Candidates with equal scores and equal positions are configured in the order of their names.
  ghost predicate EqualsAscend(order: Positions, tag: string, candidates: seq<RoutingCandidate>) {
    forall i, j :: 0 <= i < j < |candidates| && ScoreOf(candidates[i], tag) == ScoreOf(candidates[j], tag)
                   && Position(order, candidates[i].modelName) == Position(order, candidates[j].modelName)
                   ==> AtMost(candidates[i].modelName, candidates[j].modelName)
  }

  // Candidates with equal positions are configured in the order of their names.
  ghost predicate EqualPositionsAscend(order: Positions, candidates: seq<RoutingCandidate>) {
    forall i, j :: 0 <= i < j < |candidates|
                   && Position(order, candidates[i].modelName) == Position(order, candidates[j].modelName)
                   ==> AtMost(candidates[i].modelName, candidates[j].modelName)
  }

  lemma {:induction false} ScoresAt(candidates: seq<RoutingCandidate>, tag: string, i: nat)
    requires i < |candidates|
    ensures Scores(candidates, tag)[i] == Scored(candidates[i].modelName, ScoreOf(candidates[i], tag))
  {
    if i < |candidates| - 1 {
      ScoresAt(candidates[..|candidates| - 1], tag, i);
    }
  }

  lemma {:induction false} NamesAt(arr: seq<Scored>, i: nat)
    requires i < |arr|
    ensures NamesOf(arr)[i] == arr[i].name
  {
    if i < |arr| - 1 {
      NamesAt(arr[..|arr| - 1], i);
    }
  }

  lemma PairsAreEquals(order: Positions, tag: string, candidates: seq<RoutingCandidate>)
    ensures PairsHold(Scores(candidates, tag), ByScoreThenTieBreak(order), NameAtMost)
            <==> EqualsAscend(order, tag, candidates)
  {
    var arr := Scores(candidates, tag);
    forall i | 0 <= i < |arr|
      ensures arr[i] == Scored(candidates[i].modelName, ScoreOf(candidates[i], tag))
    {
      ScoresAt(candidates, tag, i);
    }
    if PairsHold(arr, ByScoreThenTieBreak(order), NameAtMost) {
      forall i, j | 0 <= i < j < |candidates| && ScoreOf(candidates[i], tag) == ScoreOf(candidates[j], tag)
                    && Position(order, candidates[i].modelName) == Position(order, candidates[j].modelName)
        ensures AtMost(candidates[i].modelName, candidates[j].modelName)
      {
        assert NameAtMost(arr[i], arr[j]);
      }
    }
  }

  lemma PairsArePositions(order: Positions, tag: string, candidates: seq<RoutingCandidate>)
    ensures PairsHold(NamesOf(Scores(candidates, tag)), NameByTieBreak(order), AtMost)
            <==> EqualPositionsAscend(order, candidates)
  {
    var names := NamesOf(Scores(candidates, tag));
    forall i | 0 <= i < |names| ensures names[i] == candidates[i].modelName {
      ScoresAt(candidates, tag, i);
      NamesAt(Scores(candidates, tag), i);
    }
    if PairsHold(names, NameByTieBreak(order), AtMost) {
      forall i, j | 0 <= i < j < |candidates|
                    && Position(order, candidates[i].modelName) == Position(order, candidates[j].modelName)
        ensures AtMost(candidates[i].modelName, candidates[j].modelName)
      {
        assert AtMost(names[i], names[j]);
      }
    }
  }

  lemma ThenIsDocumented(order: Positions, t: seq<Scored>)
    ensures OrderedThen(t, ByScoreThenTieBreak(order), NameAtMost) <==> AsDocumented(order, t)
  {
  }

  lemma NoTieBreakOrder(arr: seq<Scored>)
    ensures Sorted(arr, ByScore()) == Sorted(arr, ByScoreThenTieBreak(IndexMapOf([])))
  {
    SortedAgree(arr, ByScore(), ByScoreThenTieBreak(IndexMapOf([])));
  }

  /** For a label, the list follows the documented order exactly if candidates that tie in score and in tie-break
  position (all positions tie when there is no tie-break order) are already configured in the order of their names. */
  lemma DocumentedExactly(cfg: Routing, tag: string, candidates: seq<RoutingCandidate>)
    requires tag != ""
    ensures var order := IndexMapOf(cfg.tieBreakOrder);
            var t := Sorted(Scores(candidates, tag), ByScoreThenTieBreak(order));
            && Ranking(cfg, tag, candidates) == NamesOf(t)
            && (AsDocumented(order, t) <==> EqualsAscend(order, tag, candidates))
  {
    var order, arr := IndexMapOf(cfg.tieBreakOrder), Scores(candidates, tag);
    var t := Sorted(arr, ByScoreThenTieBreak(order));
    NoTieBreakOrder(arr);
    SortedPairs(arr, ByScoreThenTieBreak(order), NameAtMost);
    PairsAreEquals(order, tag, candidates);
    ThenIsDocumented(order, t);
  }

  lemma {:induction false} InsertAscends(s: seq<string>, x: string)
    requires forall i, j :: 0 <= i < j < |s| ==> AtMost(s[i], s[j])
    ensures multiset(InsertName(s, x)) == multiset(s) + multiset{x}
    ensures var t := InsertName(s, x); forall i, j :: 0 <= i < j < |t| ==> AtMost(t[i], t[j])
  {
    if s != [] {
      assert s == [s[0]] + s[1..];
      AtMostTotal(x, s[0]);
      if AtMost(x, s[0]) {
        forall y | y in s ensures AtMost(x, y) {
          AtMostTotal(s[0], s[0]);
          AtMostTransitive(x, s[0], y);
        }
      } else {
        InsertAscends(s[1..], x);
        var q := InsertName(s[1..], x);
        forall y | y in q ensures AtMost(s[0], y) {
          assert y in multiset(q);
          assert y == x || y in s[1..];
        }
      }
    }
  }

  lemma {:induction false} SortNamesAscends(s: seq<string>)
    ensures multiset(SortNames(s)) == multiset(s)
    ensures var t := SortNames(s); forall i, j :: 0 <= i < j < |t| ==> AtMost(t[i], t[j])
  {
    if s != [] {
      var p, last := s[..|s| - 1], s[|s| - 1];
      assert s == p + [last];
      SortNamesAscends(p);
      InsertAscends(SortNames(p), last);
    }
  }

  /** For the empty label the documented order is always kept without a tie-break order, where the names are sorted;
  with one it is kept exactly if candidates of equal position are already configured in the order of their names. */
  lemma DocumentedWithoutLabelExactly(cfg: Routing, candidates: seq<RoutingCandidate>)
    ensures var order := IndexMapOf(cfg.tieBreakOrder);
            NamesAsDocumented(order, Ranking(cfg, "", candidates))
            <==> cfg.tieBreakOrder == [] || EqualPositionsAscend(order, candidates)
  {
    var order, names := IndexMapOf(cfg.tieBreakOrder), NamesOf(Scores(candidates, ""));
    if cfg.tieBreakOrder == [] {
      SortNamesAscends(names);
    } else {
      var t := Sorted(names, NameByTieBreak(order));
      SortedPairs(names, NameByTieBreak(order), AtMost);
      PairsArePositions(order, "", candidates);
      assert NamesAsDocumented(order, t) <==> OrderedThen(t, NameByTieBreak(order), AtMost);
    }
  }

  const OTHER_TIE_BREAK := Routing(["x"], "", 0)

  // Two candidates with equal scores, listed against the alphabet: without a tie-break order, with one that names
  // neither of them, and with no label, the list puts "b" before "a".
  lemma DocumentedOrderFails()
    ensures Order(NO_TIE_BREAK, "code", TWO_EQUALS) == ["b", "a"]
    ensures Order(OTHER_TIE_BREAK, "code", TWO_EQUALS) == ["b", "a"]
    ensures Order(OTHER_TIE_BREAK, "", TWO_EQUALS) == ["b", "a"]
  {
    var order := IndexMapOf(OTHER_TIE_BREAK.tieBreakOrder);
    var b, a := Scored("b", 1), Scored("a", 1);
    EqualScores();
    TwoInOrder(b, a, ByScore());
    TwoInOrder(b, a, ByScoreThenTieBreak(order));
    NamesOfTwo(b, a);
    assert Scores(TWO_EQUALS, "") == [Scored("b", 0), Scored("a", 0)];
    NamesOfTwo(Scored("b", 0), Scored("a", 0));
    TwoInOrder("b", "a", NameByTieBreak(order));
    DedupTwo("b", "a");
  }

  lemma TwoInOrder<T>(x: T, y: T, key: T -> Rank)
    requires !Below(key(y), key(x))
    ensures Sorted([x, y], key) == [x, y]
  {
    assert [x, y][..1] == [x] && [x][..0] == [];
    assert Sorted([x], key) == [x];
  }

  lemma NamesOfTwo(x: Scored, y: Scored)
    ensures NamesOf([x, y]) == [x.name, y.name]
  {
    assert [x, y][..1] == [x] && [x][..0] == [];
    assert NamesOf([x]) == [x.name];
  }

  lemma DedupTwo(x: string, y: string)
    requires x != y
    ensures Dedup([x, y]) == [x, y]
  {
    assert [x, y][..1] == [x] && [x][..0] == [];
    assert Dedup([x]) == [x];
  }
}
