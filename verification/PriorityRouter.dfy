/** The priority strategy: configuration check, priority groups, the candidates one user sees, and
the list of models to fall back through. */
module PriorityRouter {
  import opened Options
  import opened StableSort
  import opened PriorityGroups

  // ---------- Configuration ----------

  datatype ConfigError =
    | NoCandidates
    | EmptyModelName
    | PriorityOutOfRange(modelName: string)
    | WeightOutOfRange(modelName: string)
    | NegativeVipLevel(modelName: string)
    | NoneEnabled

  function Problem(c: ModelCandidate): Option<ConfigError> {
    if c.modelName == "" then Some(EmptyModelName)
    else if c.priority < 0 || c.priority > 999 then Some(PriorityOutOfRange(c.modelName))
    else if c.weight < 1 || c.weight > 100 then Some(WeightOutOfRange(c.modelName))
    else if c.minVipLevel < 0 then Some(NegativeVipLevel(c.modelName))
    else None
  }

  ghost predicate AcceptedConfig(candidates: seq<ModelCandidate>) {
    && (forall c :: c in candidates ==>
         c.modelName != "" && 0 <= c.priority <= 999 && 1 <= c.weight <= 100 && c.minVipLevel >= 0)
    && (exists c :: c in candidates && c.enabled)
  }

  method ValidateConfig(candidates: seq<ModelCandidate>) returns (err: Option<ConfigError>)
    ensures err.None? <==> AcceptedConfig(candidates)
    ensures err == Some(NoCandidates) <==> candidates == []
    ensures err.Some? && candidates != [] && err != Some(NoneEnabled) ==>
              exists i :: 0 <= i < |candidates| && Problem(candidates[i]) == err
                && forall j :: 0 <= j < i ==> Problem(candidates[j]).None?
  {
    if |candidates| == 0 {
      return Some(NoCandidates);
    }
    var hasEnabled := false;
    for i := 0 to |candidates|
      invariant forall j :: 0 <= j < i ==> Problem(candidates[j]).None?
      invariant hasEnabled <==> exists j :: 0 <= j < i && candidates[j].enabled
    {
      var p := Problem(candidates[i]);
      if p.Some? {
        assert candidates[i] in candidates;
        return p;
      }
      if candidates[i].enabled {
        hasEnabled := true;
      }
    }
    err := if hasEnabled then None else Some(NoneEnabled);
  }

  // ---------- What a user may be given ----------

  function InGroup(priority: int): ModelCandidate -> bool {
    (c: ModelCandidate) => c.enabled && c.priority == priority
  }

  function EligibleFor(q: Request): ModelCandidate -> bool {
    (c: ModelCandidate) => c.enabled && IsCandidateVisible(c, q)
  }

  function OtherThan(name: string): ModelCandidate -> bool {
    (c: ModelCandidate) => c.modelName != name
  }

  function SpareFor(q: Request, selected: string): ModelCandidate -> bool {
    (c: ModelCandidate) => c.enabled && IsCandidateVisible(c, q) && c.modelName != selected
  }

  function ByPriority(): ModelCandidate -> Rank {
    (c: ModelCandidate) => Rank(c.priority, 0)
  }

  // Priority ascending, then weight descending.
  function ByPriorityThenWeight(): ModelCandidate -> Rank {
    (c: ModelCandidate) => Rank(c.priority, -c.weight)
  }

  function Group(candidates: seq<ModelCandidate>, priority: int): seq<ModelCandidate> {
    Filter(candidates, InGroup(priority))
  }

  function Eligible(candidates: seq<ModelCandidate>, q: Request): seq<ModelCandidate> {
    Filter(candidates, EligibleFor(q))
  }

  // The reference for the fall-back list: one stable sort of the whole configuration.
  function DegradationList(candidates: seq<ModelCandidate>, q: Request, selected: string): seq<string> {
    [selected] + Names(Filter(Sorted(candidates, ByPriorityThenWeight()), SpareFor(q, selected)))
  }

  // The visible models of each group, group after group.
  function Gathered(candidates: seq<ModelCandidate>, q: Request, priorities: seq<int>): seq<ModelCandidate> {
    if priorities == [] then []
    else
      var n := |priorities| - 1;
      Gathered(candidates, q, priorities[..n]) + Visible(Group(candidates, priorities[n]), q)
  }

  ghost predicate Ascending(s: seq<int>) {
    forall i, j :: 0 <= i < j < |s| ==> s[i] < s[j]
  }

  // ---------- Grouping is a stable sort by priority ----------

  lemma InVisibleGroup(candidates: seq<ModelCandidate>, priority: int, q: Request, c: ModelCandidate)
    ensures c in Visible(Group(candidates, priority), q) <==>
            c in candidates && c.enabled && c.priority == priority && IsCandidateVisible(c, q)
  {
    InFilter(Group(candidates, priority), SeenBy(q), c);
    InFilter(candidates, InGroup(priority), c);
  }

  lemma {:induction false} EligibleClass(candidates: seq<ModelCandidate>, q: Request, r: Rank)
    ensures OfRank(Eligible(candidates, q), ByPriority(), r)
         == if r.minor == 0 then Visible(Group(candidates, r.major), q) else []
  {
    if candidates != [] {
      var p, last := candidates[..|candidates| - 1], candidates[|candidates| - 1];
      EligibleClass(p, q, r);
      FilterAppend(Group(p, r.major), if InGroup(r.major)(last) then [last] else [], SeenBy(q));
      OfRankAppend(Eligible(p, q), if EligibleFor(q)(last) then [last] else [], ByPriority(), r);
    }
  }

  lemma BlockClass(candidates: seq<ModelCandidate>, q: Request, priority: int, r: Rank)
    ensures OfRank(Visible(Group(candidates, priority), q), ByPriority(), r)
         == if r == Rank(priority, 0) then Visible(Group(candidates, priority), q) else []
  {
    var block := Visible(Group(candidates, priority), q);
    forall c | c in block ensures ByPriority()(c) == Rank(priority, 0) {
      InVisibleGroup(candidates, priority, q, c);
    }
    OneClass(block, ByPriority(), Rank(priority, 0), r);
  }

  lemma {:induction false} GatheredClass(candidates: seq<ModelCandidate>, q: Request, priorities: seq<int>, r: Rank)
    requires Ascending(priorities)
    ensures OfRank(Gathered(candidates, q, priorities), ByPriority(), r)
         == if r.minor == 0 && r.major in priorities then Visible(Group(candidates, r.major), q) else []
  {
    if priorities != [] {
      var n := |priorities| - 1;
      var front, last := priorities[..n], priorities[n];
      var block := Visible(Group(candidates, last), q);
      GatheredClass(candidates, q, front, r);
      OfRankAppend(Gathered(candidates, q, front), block, ByPriority(), r);
      BlockClass(candidates, q, last, r);
      assert priorities == front + [last];
    }
  }

  lemma {:induction false} GatheredOrdered(candidates: seq<ModelCandidate>, q: Request, priorities: seq<int>)
    requires Ascending(priorities)
    ensures forall c :: c in Gathered(candidates, q, priorities) ==> c.priority in priorities
    ensures Ordered(Gathered(candidates, q, priorities), ByPriority())
  {
    if priorities != [] {
      var n := |priorities| - 1;
      var front, last := priorities[..n], priorities[n];
      GatheredOrdered(candidates, q, front);
      forall c | c in Visible(Group(candidates, last), q) ensures c.priority == last {
        InVisibleGroup(candidates, last, q, c);
      }
      assert priorities == front + [last];
    }
  }

  /** Visiting the groups in ascending priority and concatenating what the user sees of each is one
  stable sort by priority of all the enabled candidates the user sees. */
  lemma GatheredIsSorted(candidates: seq<ModelCandidate>, q: Request, priorities: seq<int>)
    requires Ascending(priorities)
    requires forall c :: c in candidates && c.enabled ==> c.priority in priorities
    ensures Gathered(candidates, q, priorities) == Sorted(Eligible(candidates, q), ByPriority())
  {
    var g, e := Gathered(candidates, q, priorities), Eligible(candidates, q);
    GatheredOrdered(candidates, q, priorities);
    forall r ensures OfRank(g, ByPriority(), r) == OfRank(e, ByPriority(), r) {
      GatheredClass(candidates, q, priorities, r);
      EligibleClass(candidates, q, r);
      var v := Visible(Group(candidates, r.major), q);
      if v != [] {
        InVisibleGroup(candidates, r.major, q, v[0]);
      }
    }
    SortedUnique(g, e, ByPriority());
  }

  /** The list built from the concatenated groups is the reference list. */
  lemma ListFromGroups(candidates: seq<ModelCandidate>, q: Request, selected: string)
    ensures Filter(Sorted(Sorted(Eligible(candidates, q), ByPriority()), ByPriorityThenWeight()), OtherThan(selected))
         == Filter(Sorted(candidates, ByPriorityThenWeight()), SpareFor(q, selected))
  {
    var e, key := Eligible(candidates, q), ByPriorityThenWeight();
    SortedTwice(e, ByPriority(), key, (r: Rank) => Rank(r.major, 0));
    SortedFilter(candidates, EligibleFor(q), key);
    FilterTwice(Sorted(candidates, key), EligibleFor(q), OtherThan(selected), SpareFor(q, selected));
  }

  // ---------- Building the list ----------

  function OrderedFrom(selected: string, visible: seq<ModelCandidate>): seq<string> {
    [selected] + Names(Filter(Sorted(visible, ByPriorityThenWeight()), OtherThan(selected)))
  }

  lemma OthersStep(selected: string, s: seq<ModelCandidate>, i: nat)
    requires i < |s|
    ensures Names(Filter(s[..i + 1], OtherThan(selected)))
            == Names(Filter(s[..i], OtherThan(selected)))
               + (if s[i].modelName != selected then [s[i].modelName] else [])
  {
    assert s[..i + 1][..i] == s[..i];
  }

  method BuildOrderedCandidates(selected: string, visible: seq<ModelCandidate>) returns (result: seq<string>)
    ensures result == OrderedFrom(selected, visible)
    ensures var others := Filter(Sorted(visible, ByPriorityThenWeight()), OtherThan(selected));
            result == [selected] + Names(others) && HeaviestFirst(others, Filter(visible, OtherThan(selected)))
  {
    result := [selected];
    var ordered := new ModelCandidate[|visible|](i requires 0 <= i < |visible| => visible[i]);
    assert ordered[..] == visible;
    SortAll(ordered, ByPriorityThenWeight());
    ghost var s := Sorted(visible, ByPriorityThenWeight());
    for i := 0 to ordered.Length
      invariant ordered[..] == s
      invariant result == [selected] + Names(Filter(s[..i], OtherThan(selected)))
    {
      OthersStep(selected, s, i);
      assert ordered[i] == s[i];
      if ordered[i].modelName != selected {
        result := result + [ordered[i].modelName];
      }
    }
    assert s[..|s|] == s;
    SortedFilter(visible, OtherThan(selected), ByPriorityThenWeight());
    SortedHeaviestFirst(Filter(visible, OtherThan(selected)));
  }

  // ---------- What the order is ----------

  function Like(c: ModelCandidate): ModelCandidate -> bool {
    (d: ModelCandidate) => d.priority == c.priority && d.weight == c.weight
  }

  // Lower priority number first, then the heavier model; models alike in both stay in the order they came in.
  ghost predicate HeaviestFirst(t: seq<ModelCandidate>, came: seq<ModelCandidate>) {
    && (forall i, j :: 0 <= i < j < |t| ==>
          t[i].priority < t[j].priority || (t[i].priority == t[j].priority && t[i].weight >= t[j].weight))
    && (forall c: ModelCandidate :: Filter(t, Like(c)) == Filter(came, Like(c)))
    && multiset(t) == multiset(came)
  }

  lemma {:induction false} LikeIsClass(s: seq<ModelCandidate>, c: ModelCandidate)
    ensures Filter(s, Like(c)) == OfRank(s, ByPriorityThenWeight(), ByPriorityThenWeight()(c))
  {
    if s != [] {
      LikeIsClass(s[..|s| - 1], c);
    }
  }

  lemma SortedHeaviestFirst(s: seq<ModelCandidate>)
    ensures HeaviestFirst(Sorted(s, ByPriorityThenWeight()), s)
  {
    var t, key := Sorted(s, ByPriorityThenWeight()), ByPriorityThenWeight();
    SortedIsStable(s, key);
    forall i, j | 0 <= i < j < |t|
      ensures t[i].priority < t[j].priority || (t[i].priority == t[j].priority && t[i].weight >= t[j].weight)
    {
      assert !Below(key(t[j]), key(t[i]));
    }
    forall c: ModelCandidate ensures Filter(t, Like(c)) == Filter(s, Like(c)) {
      LikeIsClass(t, c);
      LikeIsClass(s, c);
      assert OfRank(t, key, key(c)) == OfRank(s, key, key(c));
    }
  }

  /** After the selected model come the names of all other models the user may have, those of lower priority
  number first, of equal priority the heavier ones first, and of equal weight in configuration order. */
  lemma ListHeaviestFirst(candidates: seq<ModelCandidate>, q: Request, selected: string)
    returns (spares: seq<ModelCandidate>)
    ensures DegradationList(candidates, q, selected) == [selected] + Names(spares)
    ensures HeaviestFirst(spares, Filter(candidates, SpareFor(q, selected)))
    ensures forall c :: c in spares <==>
              c in candidates && c.enabled && IsCandidateVisible(c, q) && c.modelName != selected
  {
    var came := Filter(candidates, SpareFor(q, selected));
    spares := Sorted(came, ByPriorityThenWeight());
    SortedFilter(candidates, SpareFor(q, selected), ByPriorityThenWeight());
    SortedHeaviestFirst(came);
    forall c
      ensures c in spares <==> c in candidates && c.enabled && IsCandidateVisible(c, q) && c.modelName != selected
    {
      assert c in spares <==> c in multiset(came);
      InFilter(candidates, SpareFor(q, selected), c);
    }
  }

  /** The same of the list as it is built from what the user sees. */
  lemma BuiltHeaviestFirst(selected: string, visible: seq<ModelCandidate>) returns (others: seq<ModelCandidate>)
    ensures OrderedFrom(selected, visible) == [selected] + Names(others)
    ensures HeaviestFirst(others, Filter(visible, OtherThan(selected)))
    ensures forall c :: c in others <==> c in visible && c.modelName != selected
  {
    others := Sorted(Filter(visible, OtherThan(selected)), ByPriorityThenWeight());
    SortedFilter(visible, OtherThan(selected), ByPriorityThenWeight());
    SortedHeaviestFirst(Filter(visible, OtherThan(selected)));
    forall c ensures c in others <==> c in visible && c.modelName != selected {
      assert c in others <==> c in multiset(Filter(visible, OtherThan(selected)));
      InFilter(visible, OtherThan(selected), c);
    }
  }

  // What the fallback step returns.
  function WithFallback(fallback: string, ordered: seq<string>, visible: seq<ModelCandidate>): seq<string> {
    if fallback == "" || fallback in ordered || !(exists i :: 0 <= i < |visible| && visible[i].modelName == fallback)
    then ordered else ordered + [fallback]
  }

  method AppendVisibleFallback(fallback: string, ordered: seq<string>, visible: seq<ModelCandidate>)
    returns (result: seq<string>)
    ensures result == WithFallback(fallback, ordered, visible)
    ensures var isSeen := exists i :: 0 <= i < |visible| && visible[i].modelName == fallback;
            && (fallback != "" && fallback !in ordered && isSeen ==> result == ordered + [fallback])
            && (fallback == "" || fallback in ordered || !isSeen ==> result == ordered)
  {
    if fallback == "" || fallback in ordered {
      return ordered;
    }
    for i := 0 to |visible|
      invariant forall j :: 0 <= j < i ==> visible[j].modelName != fallback
    {
      if visible[i].modelName == fallback {
        return ordered + [visible[i].modelName];
      }
    }
    return ordered;
  }

  /** Every visible model is already in the list, so the fallback step never changes it. */
  lemma FallbackChangesNothing(fallback: string, selected: string, visible: seq<ModelCandidate>)
    ensures WithFallback(fallback, OrderedFrom(selected, visible), visible) == OrderedFrom(selected, visible)
  {
    forall i | 0 <= i < |visible| && visible[i].modelName == fallback
      ensures fallback in OrderedFrom(selected, visible)
    {
      VisibleIsListed(selected, visible, visible[i]);
    }
  }

  lemma VisibleIsListed(selected: string, visible: seq<ModelCandidate>, c: ModelCandidate)
    requires c in visible
    ensures c.modelName in OrderedFrom(selected, visible)
  {
    var s, others := Sorted(visible, ByPriorityThenWeight()), OtherThan(selected);
    SortedIsStable(visible, ByPriorityThenWeight());
    assert c in multiset(s);
    InFilter(s, others, c);
    NameListed(Filter(s, others), c);
  }

  lemma NameListed(models: seq<ModelCandidate>, c: ModelCandidate)
    ensures c in models ==> c.modelName in Names(models)
  {
    if k :| 0 <= k < |models| && models[k] == c {
      assert Names(models)[k] == c.modelName;
    }
  }
}
