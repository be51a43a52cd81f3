/** The priority strategy as an object: its groups are filled once from the configuration, and each
routed request advances the round-robin counters of exactly one group. */
module PriorityStrategy {
  import opened Options
  import opened StableSort
  import opened PriorityGroups
  import opened PriorityRouter

  datatype Outcome =
    | NotRouted
    | NoVisibleCandidate
    | Routed(selected: string, ordered: seq<string>)

  function Lower(c: char): char {
    if 'A' <= c <= 'Z' then (c as int + 32) as char else c
  }

  // strings.EqualFold(model, "auto"); none of these letters has a non-ASCII fold.
  predicate IsAuto(model: string) {
    |model| == 4 && Lower(model[0]) == 'a' && Lower(model[1]) == 'u' && Lower(model[2]) == 't' && Lower(model[3]) == 'o'
  }

  ghost predicate Distinct(s: seq<int>) {
    forall i, j :: 0 <= i < j < |s| ==> s[i] != s[j]
  }

  lemma InsertAscending(s: seq<int>, j: nat, k: int)
    requires Ascending(s) && j <= |s|
    requires (forall l :: 0 <= l < j ==> s[l] < k) && (forall l :: j <= l < |s| ==> k < s[l])
    ensures Ascending(s[..j] + [k] + s[j..])
    ensures forall p :: p in s[..j] + [k] + s[j..] <==> p in s || p == k
  {
  }

  method SortInts(keys: seq<int>) returns (sorted: seq<int>)
    requires Distinct(keys)
    ensures Ascending(sorted)
    ensures forall p :: p in sorted <==> p in keys
  {
    sorted := [];
    for i := 0 to |keys|
      invariant Ascending(sorted)
      invariant forall p :: p in sorted <==> p in keys[..i]
    {
      var k, j := keys[i], 0;
      while j < |sorted| && sorted[j] < k
        invariant 0 <= j <= |sorted|
        invariant forall l :: 0 <= l < j ==> sorted[l] < k
      {
        j := j + 1;
      }
      forall l | j <= l < |sorted| ensures k < sorted[l] {
        assert sorted[l] in keys[..i];
      }
      InsertAscending(sorted, j, k);
      sorted := sorted[..j] + [k] + sorted[j..];
      assert keys[..i + 1] == keys[..i] + [k];
    }
    assert keys[..|keys|] == keys;
  }

  // The list a request is served from: what the user sees of the first non-empty group.
  function ServedFrom(candidates: seq<ModelCandidate>, q: Request): seq<ModelCandidate> {
    var all := Sorted(Eligible(candidates, q), ByPriority());
    if all == [] then [] else Visible(Group(candidates, all[0].priority), q)
  }

  /** The automatic router is asked for by the name "auto", in any case of letters. */
  lemma AutoExactly(model: string)
    ensures IsAuto(model) <==>
            |model| == 4 && model[0] in {'a', 'A'} && model[1] in {'u', 'U'} && model[2] in {'t', 'T'}
            && model[3] in {'o', 'O'}
  {
  }

  // The request may be given this model.
  predicate MayHave(candidates: seq<ModelCandidate>, q: Request, c: ModelCandidate) {
    c in candidates && c.enabled && IsCandidateVisible(c, q)
  }

  lemma InSortedEligible(candidates: seq<ModelCandidate>, q: Request, c: ModelCandidate)
    ensures c in Sorted(Eligible(candidates, q), ByPriority()) <==> MayHave(candidates, q, c)
  {
    var eligible := Eligible(candidates, q);
    SortedIsStable(eligible, ByPriority());
    assert c in Sorted(eligible, ByPriority()) <==> c in multiset(Sorted(eligible, ByPriority()));
    assert c in eligible <==> c in multiset(eligible);
    InFilter(candidates, EligibleFor(q), c);
  }

  /** A request is served from the models it may have whose priority number is least among those, in configuration
  order; so from none exactly if it may have none. */
  lemma ServedIsLowest(candidates: seq<ModelCandidate>, q: Request, c: ModelCandidate)
    ensures c in ServedFrom(candidates, q) <==>
              MayHave(candidates, q, c) && forall d :: MayHave(candidates, q, d) ==> c.priority <= d.priority
    ensures c in ServedFrom(candidates, q) ==>
              ServedFrom(candidates, q) == Visible(Group(candidates, c.priority), q)
  {
    var all := Sorted(Eligible(candidates, q), ByPriority());
    InSortedEligible(candidates, q, c);
    if all != [] {
      SortedIsStable(Eligible(candidates, q), ByPriority());
      LeastComesFirst(all);
      InVisibleGroup(candidates, all[0].priority, q, c);
      InSortedEligible(candidates, q, all[0]);
      forall d | MayHave(candidates, q, d) ensures all[0].priority <= d.priority {
        InSortedEligible(candidates, q, d);
      }
    }
  }

  lemma LeastComesFirst(all: seq<ModelCandidate>)
    requires all != [] && Ordered(all, ByPriority())
    ensures forall c :: c in all ==> all[0].priority <= c.priority
  {
    forall i | 0 <= i < |all| ensures all[0].priority <= all[i].priority {
      assert i > 0 ==> !Below(ByPriority()(all[i]), ByPriority()(all[0]));
    }
  }

  lemma {:induction false} GroupExtends(candidates: seq<ModelCandidate>, i: nat, priority: int)
    requires i < |candidates|
    ensures Group(candidates[..i + 1], priority)
         == Group(candidates[..i], priority) + (if InGroup(priority)(candidates[i]) then [candidates[i]] else [])
  {
    assert candidates[..i + 1][..i] == candidates[..i];
  }

  lemma GroupsExtend(candidates: seq<ModelCandidate>, i: nat)
    requires i < |candidates|
    ensures forall p :: Group(candidates[..i + 1], p)
                     == if InGroup(p)(candidates[i]) then Group(candidates[..i], p) + [candidates[i]]
                        else Group(candidates[..i], p)
  {
    forall p ensures Group(candidates[..i + 1], p)
                  == if InGroup(p)(candidates[i]) then Group(candidates[..i], p) + [candidates[i]]
                     else Group(candidates[..i], p)
    {
      GroupExtends(candidates, i, p);
    }
  }

  class Strategy {
    const candidates: seq<ModelCandidate>
    const fallbackModelName: string
    var priorityGroups: map<int, PriorityGroup>
    // The keys of the map in some order: Go's iteration order is arbitrary.
    var keys: seq<int>

    ghost predicate Keyed()
      reads this
    {
      && Distinct(keys)
      && (forall p :: p in keys <==> p in priorityGroups)
      && (forall p, r :: p in priorityGroups && r in priorityGroups && p != r ==>
            priorityGroups[p] != priorityGroups[r])
    }

    // The groups hold the enabled candidates of their priority, in configuration order.
    ghost predicate Filled(upTo: nat)
      requires upTo <= |candidates|
      reads this, priorityGroups.Values
    {
      && (forall p :: p in priorityGroups ==>
           && priorityGroups[p].Valid()
           && priorityGroups[p].models == Group(candidates[..upTo], p) != [])
      && Keyed()
      && (forall i :: 0 <= i < upTo && candidates[i].enabled ==> candidates[i].priority in priorityGroups)
    }

    ghost predicate Valid()
      reads this, priorityGroups.Values
    {
      AcceptedConfig(candidates) && Filled(|candidates|)
    }

    constructor (candidates: seq<ModelCandidate>, fallbackModelName: string)
      requires AcceptedConfig(candidates)
      ensures Valid() && this.candidates == candidates && this.fallbackModelName == fallbackModelName
      ensures forall p :: p in priorityGroups ==> fresh(priorityGroups[p]) && priorityGroups[p].served == []
    {
      this.candidates := candidates;
      this.fallbackModelName := fallbackModelName;
      priorityGroups, keys := map[], [];
      new;
      ghost var groups: set<PriorityGroup> := {};
      for i := 0 to |candidates|
        invariant Filled(i) && fresh(groups)
        invariant this.candidates == candidates && this.fallbackModelName == fallbackModelName
        invariant forall p :: p in priorityGroups ==> priorityGroups[p] in groups && priorityGroups[p].served == []
      {
        var group := Place(i, groups);
        groups := groups + (if group == null then {} else {group});
      }
      assert candidates[..|candidates|] == candidates;
    }

    method NewGroup(priority: int) returns (created: PriorityGroup)
      requires Keyed() && priority !in priorityGroups
      modifies this`priorityGroups, this`keys
      ensures Keyed() && priorityGroups == old(priorityGroups)[priority := created]
      ensures fresh(created) && created.Valid() && created.models == [] && created.served == []
    {
      created := new PriorityGroup(priority);
      priorityGroups := priorityGroups[priority := created];
      keys := keys + [priority];
    }

    // Files an enabled candidate in its group, which alone may still be empty.
    method AddToGroup(i: nat, group: PriorityGroup)
      requires AcceptedConfig(candidates) && i < |candidates| && candidates[i].enabled
               && candidates[i].priority in priorityGroups
      requires group == priorityGroups[candidates[i].priority] && group.served == []
      requires Keyed() && forall p :: p in priorityGroups ==>
                 && priorityGroups[p].Valid() && priorityGroups[p].models == Group(candidates[..i], p)
                 && (p != candidates[i].priority ==> priorityGroups[p].models != [])
      requires forall k :: 0 <= k < i && candidates[k].enabled ==> candidates[k].priority in priorityGroups
      modifies group`models
      ensures Filled(i + 1)
    {
      var c := candidates[i];
      assert c in candidates;
      group.AddModel(c);
      forall p | p in priorityGroups
        ensures priorityGroups[p].Valid() && priorityGroups[p].models == Group(candidates[..i + 1], p) != []
      {
        GroupExtends(candidates, i, p);
        assert p != c.priority ==> priorityGroups[p] != group;
      }
    }

    // Files one configured candidate in the group of its priority, creating the group if needed.
    method Place(i: nat, ghost groups: set<PriorityGroup>) returns (created: PriorityGroup?)
      requires AcceptedConfig(candidates) && i < |candidates| && Filled(i)
      requires forall p :: p in priorityGroups ==> priorityGroups[p] in groups && priorityGroups[p].served == []
      modifies this`priorityGroups, this`keys, groups
      ensures Filled(i + 1) && (created != null ==> fresh(created))
      ensures forall p :: p in priorityGroups ==>
                (priorityGroups[p] in groups || priorityGroups[p] == created) && priorityGroups[p].served == []
    {
      created := null;
      var c := candidates[i];
      if !c.enabled {
        GroupsExtend(candidates, i);
        return;
      }
      if c.priority !in priorityGroups {
        NoneBefore(i, c.priority);
        created := NewGroup(c.priority);
      }
      AddToGroup(i, priorityGroups[c.priority]);
    }

    lemma NoneBefore(i: nat, priority: int)
      requires i <= |candidates| && Filled(i) && priority !in priorityGroups
      ensures Group(candidates[..i], priority) == []
    {
      forall c | c in candidates[..i] ensures !InGroup(priority)(c) {
        var k :| 0 <= k < i && candidates[k] == c;
      }
      FilterEmpty(candidates[..i], InGroup(priority));
    }

    method VisibleSelectionFor(q: Request)
      returns (selectedPriority: int, selectedVisible: seq<ModelCandidate>, allVisible: seq<ModelCandidate>)
      requires Valid()
      ensures allVisible == Sorted(Eligible(candidates, q), ByPriority())
      ensures selectedVisible == ServedFrom(candidates, q)
      ensures allVisible == [] <==> selectedVisible == []
      ensures allVisible != [] ==> selectedPriority in priorityGroups && selectedPriority == allVisible[0].priority
    {
      var priorities := SortInts(keys);
      selectedPriority, selectedVisible, allVisible := -1, [], [];
      assert candidates[..|candidates|] == candidates;
      for i := 0 to |priorities|
        invariant allVisible == Gathered(candidates, q, priorities[..i])
        invariant allVisible == [] <==> selectedVisible == []
        invariant allVisible != [] ==> selectedPriority in priorityGroups && selectedPriority == allVisible[0].priority
        invariant selectedVisible != [] ==> selectedVisible == Visible(Group(candidates, selectedPriority), q)
      {
        assert priorities[..i + 1][..i] == priorities[..i];
        assert priorities[i] in priorities;
        var visible := Visible(priorityGroups[priorities[i]].models, q);
        if |visible| != 0 {
          if |selectedVisible| == 0 {
            InVisibleGroup(candidates, priorities[i], q, visible[0]);
            selectedPriority := priorities[i];
            selectedVisible := visible;
          }
          allVisible := allVisible + visible;
        }
      }
      assert priorities[..|priorities|] == priorities;
      forall c | c in candidates && c.enabled ensures c.priority in priorities {
        var k :| 0 <= k < |candidates| && candidates[k] == c;
      }
      GatheredIsSorted(candidates, q, priorities);
    }

    // Lets one group pick; the other groups stay as they are.
    method PickFrom(p: int, visible: seq<ModelCandidate>, ghost q: Request) returns (name: string)
      requires Valid() && p in priorityGroups && visible == Visible(priorityGroups[p].models, q)
      modifies priorityGroups[p]
      ensures Valid()
      ensures name == PrivatePick(visible, TimesSeen(priorityGroups[p].models, old(priorityGroups[p].served), visible))
      ensures priorityGroups[p].served == old(priorityGroups[p].served) + [q]
      ensures forall o :: o in priorityGroups && o != p ==> priorityGroups[o].served == old(priorityGroups[o].served)
    {
      name := priorityGroups[p].SelectVisibleModelByRoundRobin(visible, q);
    }

    /** One routed request: the model is the one that a private round robin over what the user sees of the
    first non-empty group would pick next, no other group moves, and the list is the reference list. */
    method Run(messageCount: nat, model: string, q: Request) returns (r: Outcome)
      requires Valid()
      modifies priorityGroups.Values
      ensures Valid()
      ensures r == NotRouted <==> messageCount == 0 || !IsAuto(model)
      ensures r == NoVisibleCandidate <==> messageCount != 0 && IsAuto(model) && Eligible(candidates, q) == []
      ensures r.Routed? ==>
                var visible := ServedFrom(candidates, q);
                && visible != [] && visible[0].priority in priorityGroups
                && priorityGroups[visible[0].priority].models == Group(candidates, visible[0].priority)
                && r.selected == PrivatePick(visible, TimesSeen(Group(candidates, visible[0].priority),
                                                                old(priorityGroups[visible[0].priority].served),
                                                                visible))
                && priorityGroups[visible[0].priority].served == old(priorityGroups[visible[0].priority].served) + [q]
                && r.ordered == DegradationList(candidates, q, r.selected)
      ensures forall p :: p in priorityGroups
                && (r.Routed? ==> p != ServedFrom(candidates, q)[0].priority)
                ==> priorityGroups[p].served == old(priorityGroups[p].served)
    {
      if messageCount == 0 || !IsAuto(model) {
        return NotRouted;
      }
      var selectedPriority, selectedVisible, allVisible := VisibleSelectionFor(q);
      EmptyTogether(q);
      if |allVisible| == 0 {
        return NoVisibleCandidate;
      }
      InVisibleGroup(candidates, selectedPriority, q, selectedVisible[0]);
      assert candidates[..|candidates|] == candidates;
      var selected := PickFrom(selectedPriority, selectedVisible, q);
      var ordered := BuildOrderedCandidates(selected, allVisible);
      ordered := AppendVisibleFallback(fallbackModelName, ordered, allVisible);
      FallbackChangesNothing(fallbackModelName, selected, allVisible);
      ListFromGroups(candidates, q, selected);
      return Routed(selected, ordered);
    }

    lemma EmptyTogether(q: Request)
      ensures Eligible(candidates, q) == [] <==> Sorted(Eligible(candidates, q), ByPriority()) == []
    {
    }
  }

  method New(candidates: seq<ModelCandidate>, fallbackModelName: string)
    returns (err: Option<ConfigError>, s: Strategy?)
    ensures err.None? <==> AcceptedConfig(candidates)
    ensures err.None? <==> s != null
    ensures s != null ==> fresh(s) && s.Valid() && s.candidates == candidates
    ensures s != null ==> forall p :: p in s.priorityGroups ==> s.priorityGroups[p].served == []
  {
    s := null;
    err := ValidateConfig(candidates);
    if err.None? {
      s := new Strategy(candidates, fallbackModelName);
    }
  }
}
