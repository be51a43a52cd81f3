/** A priority group: the models that share one priority, and one round-robin counter vector for
each list of models that some user sees. */
module PriorityGroups {
  import opened RoundRobin
  import opened Options
  import opened VisibleKey
  import opened StableSort

  datatype ModelCandidate = ModelCandidate(modelName: string, priority: int, weight: int, enabled: bool,
                                           minVipLevel: int)

  // A request's user information; None where the identity or its user record is missing.
  datatype User = User(vip: int, vipExpire: Option<int>)
  datatype Request = Request(user: Option<User>, now: int)

  type States = map<string, seq<int>>

  // ---------- Visibility ----------

  predicate IsCandidateVisible(c: ModelCandidate, q: Request) {
    c.minVipLevel == 0
    || (q.user.Some? && q.user.value.vip >= c.minVipLevel
        && (q.user.value.vipExpire.None? || q.now < q.user.value.vipExpire.value))
  }

  function SeenBy(q: Request): ModelCandidate -> bool {
    (c: ModelCandidate) => IsCandidateVisible(c, q)
  }

  function Visible(models: seq<ModelCandidate>, q: Request): seq<ModelCandidate> {
    Filter(models, SeenBy(q))
  }

  // The VIP level a request acts with: zero without an unexpired user record.
  function EffectiveLevel(q: Request): int {
    if q.user.Some? && q.user.value.vip > 0 && (q.user.value.vipExpire.None? || q.now < q.user.value.vipExpire.value)
    then q.user.value.vip else 0
  }

  ghost predicate Accepted(models: seq<ModelCandidate>) {
    forall c :: c in models ==> c.weight > 0 && c.minVipLevel >= 0
  }

  /** A candidate is seen exactly by requests of at least its level: an unexpired user's own level, and zero for
  everyone else. */
  lemma SeenExactly(c: ModelCandidate, q: Request)
    requires c.minVipLevel >= 0
    ensures IsCandidateVisible(c, q) <==> c.minVipLevel <= EffectiveLevel(q)
    ensures q.user.None? ==> EffectiveLevel(q) == 0
    ensures q.user.Some? && q.user.value.vip >= 0 ==>
              EffectiveLevel(q) == match q.user.value.vipExpire
                                   case None => q.user.value.vip
                                   case Some(end) => if q.now < end then q.user.value.vip else 0
  {
  }

  /** Visible sets are nested by VIP level, so two of equal size are the same list. */
  lemma {:induction false} VisibleNested(models: seq<ModelCandidate>, low: Request, high: Request)
    requires Accepted(models) && EffectiveLevel(low) <= EffectiveLevel(high)
    ensures |Visible(models, low)| <= |Visible(models, high)|
    ensures |Visible(models, low)| == |Visible(models, high)| ==> Visible(models, low) == Visible(models, high)
  {
    if models != [] {
      var p := models[..|models| - 1];
      assert models[|models| - 1] in models;
      VisibleNested(p, low, high);
    }
  }

  // ---------- One pick ----------

  function Names(models: seq<ModelCandidate>): (r: seq<string>)
    ensures |r| == |models|
  {
    seq(|models|, i requires 0 <= i < |models| => models[i].modelName)
  }

  function Weights(models: seq<ModelCandidate>): (r: seq<int>)
    ensures |r| == |models|
  {
    seq(|models|, i requires 0 <= i < |models| => models[i].weight)
  }

  // The counters in force for a visible list.
  function CountersFor(states: States, visible: seq<ModelCandidate>): (s: seq<int>)
    ensures |s| == |visible|
  {
    var key := Key(Names(visible));
    if key in states && |states[key]| == |visible| then states[key] else Zeros(|visible|)
  }

  ghost function PickName(states: States, visible: seq<ModelCandidate>): string {
    if visible == [] then ""
    else if |visible| == 1 then visible[0].modelName
    else visible[Choose(CountersFor(states, visible), Weights(visible))].modelName
  }

  ghost function PickStates(states: States, visible: seq<ModelCandidate>): States {
    if |visible| <= 1 then states
    else states[Key(Names(visible)) := Next(CountersFor(states, visible), Weights(visible))]
  }

  ghost predicate Balanced(states: States) {
    forall key :: key in states ==> Sum(states[key]) == 0
  }

  lemma CountersForBalanced(states: States, visible: seq<ModelCandidate>)
    requires Balanced(states)
    ensures Sum(CountersFor(states, visible)) == 0
  {
    SumZeros(|visible|);
  }

  lemma WeightsPositive(visible: seq<ModelCandidate>)
    requires Accepted(visible) && visible != []
    ensures Positive(Weights(visible))
  {
  }

  lemma FirstMaxUnique(s: seq<int>, w: seq<int>, k: int)
    requires IsFirstMax(s, w, k)
    ensures k == Choose(s, w)
  {
    var m := Choose(s, w);
    var a, b := s[k] + w[k], s[m] + w[m];
    assert k < m ==> a < b;
    assert m < k ==> b < a;
  }

  method TotalWeight(visible: seq<ModelCandidate>) returns (total: int)
    ensures total == Sum(Weights(visible))
  {
    total := 0;
    ghost var w := Weights(visible);
    for i := 0 to |visible|
      invariant total == Sum(w[..i])
    {
      total := total + visible[i].weight;
      assert w[..i + 1][..i] == w[..i];
    }
    assert w[..|visible|] == w;
  }

  // Adds every weight to its counter and remembers the first counter above all earlier ones,
  // starting from -1.
  method Raise(s: seq<int>, visible: seq<ModelCandidate>) returns (raised: seq<int>, selectedIdx: nat)
    requires |s| == |visible| > 0 && Sum(s) == 0 && Accepted(visible)
    ensures |raised| == |s| && forall j :: 0 <= j < |s| ==> raised[j] == s[j] + visible[j].weight
    ensures selectedIdx == Choose(s, Weights(visible))
  {
    ghost var w := Weights(visible);
    var maxWeight := -1;
    raised, selectedIdx := s, 0;
    for i := 0 to |visible|
      invariant |raised| == |s|
      invariant forall j :: 0 <= j < |s| ==> raised[j] == if j < i then s[j] + w[j] else s[j]
      invariant selectedIdx < |s| && maxWeight >= -1
      invariant forall j {:trigger s[j]} :: 0 <= j < i ==> s[j] + w[j] <= maxWeight
      invariant maxWeight > -1 ==> selectedIdx < i && s[selectedIdx] + w[selectedIdx] == maxWeight
      invariant maxWeight > -1 ==> forall j {:trigger s[j]} :: 0 <= j < selectedIdx ==> s[j] + w[j] < maxWeight
    {
      raised := raised[i := raised[i] + visible[i].weight];
      if raised[i] > maxWeight {
        maxWeight := raised[i];
        selectedIdx := i;
      }
    }
    WeightsPositive(visible);
    ChosenIsPositive(s, w);
    assert s[Choose(s, w)] + w[Choose(s, w)] <= maxWeight;
    FirstMaxUnique(s, w, selectedIdx);
  }

  // Raises the counters, charges the total weight to the chosen one.
  method Advance(s: seq<int>, visible: seq<ModelCandidate>) returns (weights: seq<int>, selectedIdx: nat)
    requires |s| == |visible| > 0 && Sum(s) == 0 && Accepted(visible)
    ensures selectedIdx == Choose(s, Weights(visible))
    ensures weights == Next(s, Weights(visible)) && Sum(weights) == 0
  {
    var totalWeight := TotalWeight(visible);
    weights, selectedIdx := Raise(s, visible);
    weights := weights[selectedIdx := weights[selectedIdx] - totalWeight];
    assert weights == Next(s, Weights(visible));
    NextZeroSum(s, Weights(visible));
  }

  class PriorityGroup {
    const priority: int
    var models: seq<ModelCandidate>
    var states: States
    // The requests served so far, in order.
    ghost var served: seq<Request>

    ghost predicate Valid()
      reads this
    {
      Accepted(models) && Balanced(states) && states == StatesAfter(models, served)
    }

    constructor (priority: int)
      ensures this.priority == priority && models == [] && served == [] && Valid()
    {
      this.priority := priority;
      models, states, served := [], map[], [];
    }

    method AddModel(model: ModelCandidate)
      requires Valid() && served == [] && model.weight > 0 && model.minVipLevel >= 0
      modifies this`models
      ensures models == old(models) + [model] && Valid()
    {
      models := models + [model];
    }

    /** Picks for a request that sees the given list: what a private round robin over that list alone
    would pick, however many other lists were served in between. */
    method SelectVisibleModelByRoundRobin(visible: seq<ModelCandidate>, ghost q: Request) returns (name: string)
      requires Valid() && visible == Visible(models, q)
      modifies this`states, this`served
      ensures Valid() && served == old(served) + [q]
      ensures name == PickName(old(states), visible) && states == PickStates(old(states), visible)
      ensures name == PrivatePick(visible, TimesSeen(models, old(served), visible))
    {
      VisibleAccepted(models, q);
      InterleavingIsPrivate(models, served, q);
      name := Pick(visible);
      served := served + [q];
      assert served[..|served| - 1] == old(served);
    }

    method Pick(visible: seq<ModelCandidate>) returns (name: string)
      requires Balanced(states) && Accepted(visible)
      modifies this`states
      ensures Balanced(states)
      ensures name == PickName(old(states), visible) && states == PickStates(old(states), visible)
    {
      if |visible| == 0 {
        return "";
      }
      if |visible| == 1 {
        return visible[0].modelName;
      }
      var key := BuildVisibleSetKey(Names(visible));
      var weights := if key in states then states[key] else [];
      if |weights| != |visible| {
        weights := Zeros(|visible|);
      }
      CountersForBalanced(states, visible);
      var selectedIdx;
      weights, selectedIdx := Advance(weights, visible);
      states := states[key := weights];
      return visible[selectedIdx].modelName;
    }
  }

  // ---------- Interleaved users ----------

  // The states after serving requests in this order, from a fresh group.
  ghost function StatesAfter(models: seq<ModelCandidate>, served: seq<Request>): States {
    if served == [] then map[]
    else PickStates(StatesAfter(models, served[..|served| - 1]), Visible(models, served[|served| - 1]))
  }

  // How many of the served requests saw exactly this list.
  function TimesSeen(models: seq<ModelCandidate>, served: seq<Request>, v: seq<ModelCandidate>): nat {
    if served == [] then 0
    else TimesSeen(models, served[..|served| - 1], v) + (if Visible(models, served[|served| - 1]) == v then 1 else 0)
  }

  // Pick number t of a round robin that serves only the list v.
  ghost function PrivatePick(v: seq<ModelCandidate>, t: nat): string {
    if v == [] then "" else v[Choice(Weights(v), t)].modelName
  }

  // Visible lists of one group are equal as soon as their names are.
  lemma SameNamesSameList(models: seq<ModelCandidate>, q: Request, r: Request)
    requires Accepted(models) && Names(Visible(models, q)) == Names(Visible(models, r))
    ensures Visible(models, q) == Visible(models, r)
  {
    assert |Visible(models, q)| == |Visible(models, r)|;
    if EffectiveLevel(q) <= EffectiveLevel(r) {
      VisibleNested(models, q, r);
    } else {
      VisibleNested(models, r, q);
    }
  }

  lemma {:induction false} VisibleAccepted(models: seq<ModelCandidate>, q: Request)
    requires Accepted(models)
    ensures Accepted(Visible(models, q))
  {
    forall c | c in Visible(models, q) ensures c in models {
      InFilter(models, SeenBy(q), c);
    }
  }

  // A pick for the list u moves only the counters of u.
  lemma OnePick(states: States, u: seq<ModelCandidate>, v: seq<ModelCandidate>)
    requires |v| >= 2 && (Names(u) == Names(v) ==> u == v)
    ensures CountersFor(PickStates(states, u), v)
         == if u == v then Next(CountersFor(states, v), Weights(v)) else CountersFor(states, v)
  {
    KeyInjective(Names(u), Names(v));
  }

  // Each visible list has its own private counters, untouched by users who see another list.
  lemma {:induction false} StatesAreIsolated(models: seq<ModelCandidate>, served: seq<Request>, q: Request)
    requires Accepted(models) && |Visible(models, q)| >= 2
    ensures CountersFor(StatesAfter(models, served), Visible(models, q))
         == Counters(Weights(Visible(models, q)), TimesSeen(models, served, Visible(models, q)))
  {
    if served != [] {
      var p, last := served[..|served| - 1], served[|served| - 1];
      var v, u := Visible(models, q), Visible(models, last);
      StatesAreIsolated(models, p, q);
      if Names(u) == Names(v) {
        SameNamesSameList(models, last, q);
      }
      OnePick(StatesAfter(models, p), u, v);
    }
  }

  /** In every interleaving of users of any VIP level, each pick is the one a private round robin over
  that user's own visible list would make: other users never disturb it. */
  lemma InterleavingIsPrivate(models: seq<ModelCandidate>, served: seq<Request>, q: Request)
    requires Accepted(models)
    ensures PickName(StatesAfter(models, served), Visible(models, q))
         == PrivatePick(Visible(models, q), TimesSeen(models, served, Visible(models, q)))
  {
    if |Visible(models, q)| >= 2 {
      StatesAreIsolated(models, served, q);
    }
  }

  // Which of the models of v the group picks in these states.
  ghost function PickedIndex(states: States, v: seq<ModelCandidate>): (i: nat)
    requires v != []
    ensures i < |v| && PickName(states, v) == v[i].modelName
  {
    if |v| == 1 then 0 else Choose(CountersFor(states, v), Weights(v))
  }

  // How often the group picked model i of v for a request that saw v.
  ghost function Picked(models: seq<ModelCandidate>, served: seq<Request>, v: seq<ModelCandidate>, i: nat): nat {
    if served == [] then 0
    else
      var front, last := served[..|served| - 1], served[|served| - 1];
      Picked(models, front, v, i)
      + (if v != [] && Visible(models, last) == v && PickedIndex(StatesAfter(models, front), v) == i then 1 else 0)
  }

  // Picks of a private round robin from number t on.
  ghost function CountDuring(w: seq<int>, t: nat, n: nat, i: nat): int
    requires i < |w|
  {
    Count(w, t + n, i) - Count(w, t, i)
  }

  // Picks made over a stretch of requests that follows others.
  ghost function PickedDuring(models: seq<ModelCandidate>, before: seq<Request>, stretch: seq<Request>,
                              v: seq<ModelCandidate>, i: nat): int
  {
    Picked(models, before + stretch, v, i) - Picked(models, before, v, i)
  }

  lemma PickedNow(models: seq<ModelCandidate>, served: seq<Request>, q: Request)
    requires Accepted(models) && Visible(models, q) != []
    ensures var v := Visible(models, q);
            PickedIndex(StatesAfter(models, served), v) == Choice(Weights(v), TimesSeen(models, served, v))
  {
    if |Visible(models, q)| >= 2 {
      StatesAreIsolated(models, served, q);
    }
  }

  /** The picks actually made for a visible list, whatever other lists were served in between, are as many
  for each model as those of a private round robin. */
  lemma {:induction false} PickedIsCount(models: seq<ModelCandidate>, served: seq<Request>, q: Request, i: nat)
    requires Accepted(models) && i < |Visible(models, q)|
    ensures Picked(models, served, Visible(models, q), i)
         == Count(Weights(Visible(models, q)), TimesSeen(models, served, Visible(models, q)), i)
  {
    if served != [] {
      var front, v := served[..|served| - 1], Visible(models, q);
      PickedIsCount(models, front, q, i);
      PickedNow(models, front, q);
      CountNext(Weights(v), TimesSeen(models, front, v), i);
      PickedSnoc(models, served, v, i);
    }
  }

  lemma PickedSnoc(models: seq<ModelCandidate>, served: seq<Request>, v: seq<ModelCandidate>, i: nat)
    requires served != [] && v != []
    ensures var front, now := served[..|served| - 1], Visible(models, served[|served| - 1]) == v;
            && TimesSeen(models, served, v) == TimesSeen(models, front, v) + (if now then 1 else 0)
            && Picked(models, served, v, i)
               == Picked(models, front, v, i)
               + (if now && PickedIndex(StatesAfter(models, front), v) == i then 1 else 0)
  {
  }

  /** Over any stretch of requests in which exactly W see the list v, W being its total weight, the group
  picks each model of v for them exactly as often as its weight says, whoever is served in between. */
  lemma StretchIsFair(models: seq<ModelCandidate>, before: seq<Request>, stretch: seq<Request>, q: Request, i: nat)
    requires Accepted(models) && i < |Visible(models, q)|
    requires TimesSeen(models, stretch, Visible(models, q)) == Sum(Weights(Visible(models, q)))
    ensures var v := Visible(models, q);
            PickedDuring(models, before, stretch, v, i) == v[i].weight
  {
    var v := Visible(models, q);
    OneMoreRound(models, before, stretch, q, i, TimesSeen(models, before, v), TimesSeen(models, stretch, v));
  }

  lemma OneMoreRound(models: seq<ModelCandidate>, before: seq<Request>, stretch: seq<Request>, q: Request, i: nat,
                     t: nat, n: nat)
    requires Accepted(models) && i < |Visible(models, q)| && n == Sum(Weights(Visible(models, q)))
    requires TimesSeen(models, before, Visible(models, q)) == t && TimesSeen(models, stretch, Visible(models, q)) == n
    ensures PickedDuring(models, before, stretch, Visible(models, q), i) == Visible(models, q)[i].weight
  {
    PickedAfter(models, before, stretch, q, i, n);
    OneRound(models, q, t, n, i);
  }

  lemma PickedAfter(models: seq<ModelCandidate>, before: seq<Request>, stretch: seq<Request>, q: Request, i: nat,
                    n: nat)
    requires Accepted(models) && i < |Visible(models, q)| && TimesSeen(models, stretch, Visible(models, q)) == n
    ensures var v, w := Visible(models, q), Weights(Visible(models, q));
            PickedDuring(models, before, stretch, v, i) == CountDuring(w, TimesSeen(models, before, v), n, i)
  {
    PickedIsCount(models, before, q, i);
    PickedIsCount(models, before + stretch, q, i);
    TimesSeenAppend(models, before, stretch, Visible(models, q));
  }

  lemma OneRound(models: seq<ModelCandidate>, q: Request, t: nat, n: nat, i: nat)
    requires Accepted(models) && i < |Visible(models, q)| && n == Sum(Weights(Visible(models, q)))
    ensures CountDuring(Weights(Visible(models, q)), t, n, i) == Visible(models, q)[i].weight
  {
    var v := Visible(models, q);
    VisibleAccepted(models, q);
    WeightsPositive(v);
    PeriodFair(Weights(v), n, t, 0, i);
  }

  lemma {:induction false} TimesSeenAppend(models: seq<ModelCandidate>, a: seq<Request>, b: seq<Request>,
                                           v: seq<ModelCandidate>)
    ensures TimesSeen(models, a + b, v) == TimesSeen(models, a, v) + TimesSeen(models, b, v)
  {
    if b == [] {
      assert a + b == a;
    } else {
      TimesSeenAppend(models, a, b[..|b| - 1], v);
      assert (a + b)[..|a + b| - 1] == a + b[..|b| - 1];
    }
  }
}
