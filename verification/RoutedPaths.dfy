/** From the router to the retry loops: the lists that the priority router hands on are lists on which
the streaming and the single-response path behave alike. */
module RoutedPaths {
  import opened StableSort
  import opened PriorityGroups
  import opened PriorityRouter
  import Degradation

  ghost predicate NamesOnce(s: seq<ModelCandidate>) {
    forall i, j :: 0 <= i < j < |s| ==> s[i].modelName != s[j].modelName
  }

  lemma CountTwice(s: seq<ModelCandidate>, i: nat, j: nat)
    requires i < j < |s| && s[i] == s[j]
    ensures multiset(s)[s[i]] >= 2
  {
    assert s == s[..j] + [s[j]] + s[j + 1..];
    assert s[i] == s[..j][i] && s[i] in multiset(s[..j]);
  }

  lemma {:induction false} CountOnce(s: seq<ModelCandidate>, c: ModelCandidate)
    requires NamesOnce(s)
    ensures multiset(s)[c] <= 1
  {
    if s != [] {
      var front, last := s[..|s| - 1], s[|s| - 1];
      assert s == front + [last];
      CountOnce(front, c);
      if c == last {
        assert c !in front;
      }
    }
  }

  lemma OncePermuted(a: seq<ModelCandidate>, b: seq<ModelCandidate>)
    requires NamesOnce(a) && multiset(a) == multiset(b)
    ensures NamesOnce(b)
  {
    forall i, j | 0 <= i < j < |b| ensures b[i].modelName != b[j].modelName {
      assert b[i] in multiset(b) && b[j] in multiset(b);
      var x :| 0 <= x < |a| && a[x] == b[i];
      var y :| 0 <= y < |a| && a[y] == b[j];
      if b[i] == b[j] {
        CountTwice(b, i, j);
        CountOnce(a, b[i]);
      }
    }
  }

  // The candidates that follow the selected one in the list, in configuration order.
  function SpareCandidates(candidates: seq<ModelCandidate>, q: Request, selected: string): seq<ModelCandidate> {
    Filter(candidates, SpareFor(q, selected))
  }

  function Spare(candidates: seq<ModelCandidate>, q: Request, selected: string): seq<ModelCandidate> {
    Filter(Sorted(candidates, ByPriorityThenWeight()), SpareFor(q, selected))
  }

  lemma SpareOnce(candidates: seq<ModelCandidate>, q: Request, selected: string)
    ensures NamesOnce(Spare(candidates, q, selected)) <==> NamesOnce(SpareCandidates(candidates, q, selected))
  {
    var f := SpareCandidates(candidates, q, selected);
    SortedFilter(candidates, SpareFor(q, selected), ByPriorityThenWeight());
    SortedIsStable(f, ByPriorityThenWeight());
    if NamesOnce(f) {
      OncePermuted(f, Spare(candidates, q, selected));
    }
    if NamesOnce(Spare(candidates, q, selected)) {
      OncePermuted(Spare(candidates, q, selected), f);
    }
  }

  lemma SpareNamed(candidates: seq<ModelCandidate>, q: Request, selected: string, c: ModelCandidate)
    requires AcceptedConfig(candidates) && c in Spare(candidates, q, selected)
    ensures c.modelName != selected && c.modelName != ""
  {
    var sorted := Sorted(candidates, ByPriorityThenWeight());
    SortedIsStable(candidates, ByPriorityThenWeight());
    InFilter(sorted, SpareFor(q, selected), c);
    assert c in multiset(sorted) && c in candidates;
  }

  lemma ListIsClean(selected: string, spare: seq<ModelCandidate>)
    requires selected != ""
    requires forall c :: c in spare ==> c.modelName != selected && c.modelName != ""
    ensures "" !in [selected] + Names(spare)
    ensures Degradation.Distinct([selected] + Names(spare)) <==> NamesOnce(spare)
  {
    var list := [selected] + Names(spare);
    forall i | 0 <= i < |spare| ensures list[i + 1] == spare[i].modelName && spare[i] in spare {}
    if Degradation.Distinct(list) {
      forall i, j | 0 <= i < j < |spare| ensures spare[i].modelName != spare[j].modelName {
        assert list[i + 1] != list[j + 1];
      }
    }
  }

  /** The router's list holds no empty name, and no repetition exactly if no two of the enabled candidates
  that the user sees, other than the selected model, have the same name. */
  lemma RoutedListIsClean(candidates: seq<ModelCandidate>, q: Request, selected: string)
    requires AcceptedConfig(candidates) && selected != ""
    ensures var list := DegradationList(candidates, q, selected);
            && list[0] == selected && "" !in list
            && (Degradation.Distinct(list) <==> NamesOnce(SpareCandidates(candidates, q, selected)))
  {
    var spare := Spare(candidates, q, selected);
    SpareOnce(candidates, q, selected);
    forall c | c in spare ensures c.modelName != selected && c.modelName != "" {
      SpareNamed(candidates, q, selected, c);
    }
    ListIsClean(selected, spare);
  }

  /** So on a router's list both paths behave alike in every environment, unless the streaming run breaks
  off after content was sent, exactly under that condition: without it there is an environment in which
  they make different calls. */
  lemma RoutedListsAgree<S>(candidates: seq<ModelCandidate>, q: Request, selected: string,
                            step: (S, string, nat) -> (S, Degradation.Outcome), s: S, lim: Degradation.Limits)
    requires AcceptedConfig(candidates) && selected != "" && lim.maxRetry >= 0
    ensures var list := DegradationList(candidates, q, selected);
            var t, r := Degradation.StreamRun(step, s, list, lim), Degradation.DegradeRun(step, s, list, lim);
            NamesOnce(SpareCandidates(candidates, q, selected)) && !Degradation.BreaksOff(t.calls)
            ==> t.state == r.state && t.calls == r.calls && t.verdict == r.verdict
    ensures var list, down := DegradationList(candidates, q, selected), Degradation.AlwaysDown<S>();
            !NamesOnce(SpareCandidates(candidates, q, selected))
            ==> Degradation.StreamRun(down, s, list, lim).calls != Degradation.DegradeRun(down, s, list, lim).calls
  {
    var list := DegradationList(candidates, q, selected);
    RoutedListIsClean(candidates, q, selected);
    if !NamesOnce(SpareCandidates(candidates, q, selected)) {
      Degradation.RepetitionTellsThemApart(s, list, lim);
    } else if !Degradation.BreaksOff(Degradation.StreamRun(step, s, list, lim).calls) {
      Degradation.PathsAgree(step, s, list, lim);
    }
  }
}
