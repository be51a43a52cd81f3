/** Stable sorting by a two-level integer rank.

The routers sort slices with the Go library's stable sort. `Sorted` is the reference: an insertion
sort that is characterised completely by two facts, that its result is in rank order and that it
keeps every class of equally ranked elements in its original order. `UniqueOrder` shows that these
two facts determine the result, so any two ways of computing such a list agree. */
module StableSort {

  datatype Rank = Rank(major: int, minor: int)

  predicate Below(a: Rank, b: Rank) {
    a.major < b.major || (a.major == b.major && a.minor < b.minor)
  }

  ghost predicate Ordered<T>(s: seq<T>, key: T -> Rank) {
    forall i, j :: 0 <= i < j < |s| ==> !Below(key(s[j]), key(s[i]))
  }

  // The elements of rank r, in order.
  function OfRank<T>(s: seq<T>, key: T -> Rank, r: Rank): seq<T> {
    if s == [] then []
    else
      var last := s[|s| - 1];
      OfRank(s[..|s| - 1], key, r) + (if key(last) == r then [last] else [])
  }

  ghost predicate SameClasses<T>(a: seq<T>, b: seq<T>, key: T -> Rank) {
    forall r :: OfRank(a, key, r) == OfRank(b, key, r)
  }

  function Insert<T>(s: seq<T>, x: T, key: T -> Rank): seq<T> {
    if s == [] || !Below(key(x), key(s[|s| - 1])) then s + [x]
    else Insert(s[..|s| - 1], x, key) + [s[|s| - 1]]
  }

  function Sorted<T>(s: seq<T>, key: T -> Rank): seq<T> {
    if s == [] then [] else Insert(Sorted(s[..|s| - 1], key), s[|s| - 1], key)
  }

  function Filter<T>(s: seq<T>, keep: T -> bool): seq<T> {
    if s == [] then []
    else
      var last := s[|s| - 1];
      Filter(s[..|s| - 1], keep) + (if keep(last) then [last] else [])
  }

  // The first element of least rank.
  function Least<T>(s: seq<T>, key: T -> Rank): T
    requires s != []
  {
    var last := s[|s| - 1];
    if |s| == 1 then last
    else
      var l := Least(s[..|s| - 1], key);
      if Below(key(last), key(l)) then last else l
  }

  // ---------- Concatenation ----------

  lemma {:induction false} OfRankAppend<T>(a: seq<T>, b: seq<T>, key: T -> Rank, r: Rank)
    ensures OfRank(a + b, key, r) == OfRank(a, key, r) + OfRank(b, key, r)
  {
    if b == [] {
      assert a + b == a;
    } else {
      OfRankAppend(a, b[..|b| - 1], key, r);
      assert (a + b)[..|a + b| - 1] == a + b[..|b| - 1];
    }
  }

  lemma {:induction false} FilterAppend<T>(a: seq<T>, b: seq<T>, keep: T -> bool)
    ensures Filter(a + b, keep) == Filter(a, keep) + Filter(b, keep)
  {
    if b == [] {
      assert a + b == a;
    } else {
      FilterAppend(a, b[..|b| - 1], keep);
      assert (a + b)[..|a + b| - 1] == a + b[..|b| - 1];
    }
  }

  lemma FilterSnoc<T>(s: seq<T>, x: T, keep: T -> bool)
    ensures Filter(s + [x], keep) == if keep(x) then Filter(s, keep) + [x] else Filter(s, keep)
  {
  }

  lemma {:induction false} InOfRank<T>(s: seq<T>, key: T -> Rank, r: Rank, x: T)
    ensures x in OfRank(s, key, r) <==> x in s && key(x) == r
  {
    if s != [] {
      InOfRank(s[..|s| - 1], key, r, x);
      assert s == s[..|s| - 1] + [s[|s| - 1]];
    }
  }

  lemma {:induction false} InFilter<T>(s: seq<T>, keep: T -> bool, x: T)
    ensures x in Filter(s, keep) <==> x in s && keep(x)
  {
    if s != [] {
      InFilter(s[..|s| - 1], keep, x);
      assert s == s[..|s| - 1] + [s[|s| - 1]];
    }
  }

  lemma {:induction false} FilterEmpty<T>(s: seq<T>, keep: T -> bool)
    requires forall x :: x in s ==> !keep(x)
    ensures Filter(s, keep) == []
  {
    if s != [] {
      FilterEmpty(s[..|s| - 1], keep);
    }
  }

  lemma {:induction false} FilterTwice<T>(s: seq<T>, p: T -> bool, q: T -> bool, both: T -> bool)
    requires forall x :: x in s ==> (both(x) <==> p(x) && q(x))
    ensures Filter(Filter(s, p), q) == Filter(s, both)
  {
    if s != [] {
      var t, last := s[..|s| - 1], s[|s| - 1];
      FilterTwice(t, p, q, both);
      FilterAppend(Filter(t, p), if p(last) then [last] else [], q);
    }
  }

  lemma {:induction false} OneClass<T>(s: seq<T>, key: T -> Rank, here: Rank, r: Rank)
    requires forall x :: x in s ==> key(x) == here
    ensures OfRank(s, key, r) == if r == here then s else []
  {
    if s != [] {
      OneClass(s[..|s| - 1], key, here, r);
      assert s == s[..|s| - 1] + [s[|s| - 1]];
    }
  }

  // ---------- The reference sort ----------

  lemma {:induction false} InsertClasses<T>(s: seq<T>, x: T, key: T -> Rank, r: Rank)
    ensures OfRank(Insert(s, x, key), key, r) == OfRank(s + [x], key, r)
  {
    OfRankAppend(s, [x], key, r);
    if s != [] && Below(key(x), key(s[|s| - 1])) {
      var p, last := s[..|s| - 1], s[|s| - 1];
      InsertClasses(p, x, key, r);
      OfRankAppend(p, [x], key, r);
      OfRankAppend(Insert(p, x, key), [last], key, r);
    }
  }

  lemma {:induction false} InsertPermutes<T>(s: seq<T>, x: T, key: T -> Rank)
    ensures multiset(Insert(s, x, key)) == multiset(s) + multiset{x}
  {
    if s != [] && Below(key(x), key(s[|s| - 1])) {
      InsertPermutes(s[..|s| - 1], x, key);
      assert s == s[..|s| - 1] + [s[|s| - 1]];
    }
  }

  lemma {:induction false} InsertOrdered<T>(s: seq<T>, x: T, key: T -> Rank)
    requires Ordered(s, key)
    ensures Ordered(Insert(s, x, key), key)
  {
    if s != [] && Below(key(x), key(s[|s| - 1])) {
      var p, last := s[..|s| - 1], s[|s| - 1];
      InsertOrdered(p, x, key);
      InsertPermutes(p, x, key);
      var q := Insert(p, x, key);
      forall i | 0 <= i < |q| ensures !Below(key(last), key(q[i])) {
        assert q[i] in multiset(q);
        assert q[i] == x || q[i] in p;
      }
    }
  }

  /** A stable sort: the result is in rank order, a permutation, and keeps every rank class in order. */
  lemma {:induction false} SortedIsStable<T>(s: seq<T>, key: T -> Rank)
    ensures Ordered(Sorted(s, key), key)
    ensures SameClasses(Sorted(s, key), s, key)
    ensures multiset(Sorted(s, key)) == multiset(s)
  {
    if s != [] {
      var p, last := s[..|s| - 1], s[|s| - 1];
      SortedIsStable(p, key);
      InsertOrdered(Sorted(p, key), last, key);
      InsertPermutes(Sorted(p, key), last, key);
      assert s == p + [last];
      forall r ensures OfRank(Sorted(s, key), key, r) == OfRank(s, key, r) {
        InsertClasses(Sorted(p, key), last, key, r);
        OfRankAppend(Sorted(p, key), [last], key, r);
      }
    }
  }

  lemma TopRank<T>(a: seq<T>, b: seq<T>, key: T -> Rank)
    requires Ordered(a, key) && Ordered(b, key) && SameClasses(a, b, key) && a != []
    ensures b != [] && key(a[|a| - 1]) == key(b[|b| - 1])
  {
    var x := a[|a| - 1];
    InOfRank(a, key, key(x), x);
    InOfRank(b, key, key(x), x);
    var y := b[|b| - 1];
    InOfRank(b, key, key(y), y);
    InOfRank(a, key, key(y), y);
  }

  /** Rank order and the order inside each rank class determine a list. */
  lemma {:induction false} UniqueOrder<T>(a: seq<T>, b: seq<T>, key: T -> Rank)
    requires Ordered(a, key) && Ordered(b, key) && SameClasses(a, b, key)
    ensures a == b
    decreases |a|
  {
    if a == [] {
      if b != [] {
        TopRank(b, a, key);
      }
    } else {
      TopRank(a, b, key);
      var r := key(a[|a| - 1]);
      var p, q := a[..|a| - 1], b[..|b| - 1];
      assert OfRank(a, key, r) == OfRank(p, key, r) + [a[|a| - 1]];
      assert OfRank(b, key, r) == OfRank(q, key, r) + [b[|b| - 1]];
      assert OfRank(a, key, r) == OfRank(b, key, r);
      assert a[|a| - 1] == OfRank(a, key, r)[|OfRank(a, key, r)| - 1] == b[|b| - 1];
      forall t ensures OfRank(p, key, t) == OfRank(q, key, t) {
        assert OfRank(a, key, t) == OfRank(b, key, t);
        if t == r {
          assert OfRank(p, key, t) == OfRank(a, key, t)[..|OfRank(a, key, t)| - 1];
          assert OfRank(q, key, t) == OfRank(b, key, t)[..|OfRank(b, key, t)| - 1];
        } else {
          assert OfRank(a, key, t) == OfRank(p, key, t);
          assert OfRank(b, key, t) == OfRank(q, key, t);
        }
      }
      UniqueOrder(p, q, key);
      assert a == p + [a[|a| - 1]] && b == q + [b[|b| - 1]];
    }
  }

  lemma SortedUnique<T>(a: seq<T>, s: seq<T>, key: T -> Rank)
    requires Ordered(a, key) && SameClasses(a, s, key)
    ensures a == Sorted(s, key)
  {
    SortedIsStable(s, key);
    UniqueOrder(a, Sorted(s, key), key);
  }

  // ---------- Filtering ----------

  lemma {:induction false} OfRankFilter<T>(s: seq<T>, keep: T -> bool, key: T -> Rank, r: Rank)
    ensures OfRank(Filter(s, keep), key, r) == Filter(OfRank(s, key, r), keep)
  {
    if s != [] {
      var p, last := s[..|s| - 1], s[|s| - 1];
      OfRankFilter(p, keep, key, r);
      OfRankAppend(Filter(p, keep), if keep(last) then [last] else [], key, r);
      FilterAppend(OfRank(p, key, r), if key(last) == r then [last] else [], keep);
    }
  }

  lemma {:induction false} FilterOrdered<T>(s: seq<T>, keep: T -> bool, key: T -> Rank)
    requires Ordered(s, key)
    ensures Ordered(Filter(s, keep), key)
  {
    if s != [] {
      var p, last := s[..|s| - 1], s[|s| - 1];
      FilterOrdered(p, keep, key);
      var f := Filter(p, keep);
      forall i | 0 <= i < |f| ensures !Below(key(last), key(f[i])) {
        InFilter(p, keep, f[i]);
      }
    }
  }

  /** Dropping elements before or after a stable sort makes no difference. */
  lemma SortedFilter<T>(s: seq<T>, keep: T -> bool, key: T -> Rank)
    ensures Sorted(Filter(s, keep), key) == Filter(Sorted(s, key), keep)
  {
    SortedIsStable(s, key);
    FilterOrdered(Sorted(s, key), keep, key);
    forall r ensures OfRank(Filter(Sorted(s, key), keep), key, r) == OfRank(Filter(s, keep), key, r) {
      OfRankFilter(Sorted(s, key), keep, key, r);
      OfRankFilter(s, keep, key, r);
    }
    SortedUnique(Filter(Sorted(s, key), keep), Filter(s, keep), key);
  }

  // ---------- Changing the key ----------

  lemma {:induction false} InsertAgree<T>(s: seq<T>, x: T, k1: T -> Rank, k2: T -> Rank)
    requires forall y :: y in s ==> (Below(k1(x), k1(y)) <==> Below(k2(x), k2(y)))
    ensures Insert(s, x, k1) == Insert(s, x, k2)
  {
    if s != [] && Below(k1(x), k1(s[|s| - 1])) {
      InsertAgree(s[..|s| - 1], x, k1, k2);
    }
  }

  /** Two keys that compare all elements alike sort alike. */
  lemma {:induction false} SortedAgree<T>(s: seq<T>, k1: T -> Rank, k2: T -> Rank)
    requires forall x, y :: x in s && y in s ==> (Below(k1(x), k1(y)) <==> Below(k2(x), k2(y)))
    ensures Sorted(s, k1) == Sorted(s, k2)
  {
    if s != [] {
      var p, last := s[..|s| - 1], s[|s| - 1];
      assert s == p + [last];
      SortedAgree(p, k1, k2);
      SortedIsStable(p, k1);
      forall y | y in Sorted(p, k1) ensures y in s {
        assert y in multiset(Sorted(p, k1));
      }
      InsertAgree(Sorted(p, k1), last, k1, k2);
    }
  }

  // A class of a finer key lies inside one class of a coarser key.
  lemma {:induction false} OfRankRefined<T>(s: seq<T>, fine: T -> Rank, r: Rank, coarse: T -> Rank, q: Rank)
    requires forall x :: x in s && fine(x) == r ==> coarse(x) == q
    ensures OfRank(OfRank(s, coarse, q), fine, r) == OfRank(s, fine, r)
  {
    if s != [] {
      var p, last := s[..|s| - 1], s[|s| - 1];
      OfRankRefined(p, fine, r, coarse, q);
      OfRankAppend(OfRank(p, coarse, q), if coarse(last) == q then [last] else [], fine, r);
    }
  }

  /** Sorting by a coarse key first does not disturb a later sort by a finer one. */
  lemma SortedTwice<T>(s: seq<T>, coarse: T -> Rank, fine: T -> Rank, down: Rank -> Rank)
    requires forall x :: x in s ==> coarse(x) == down(fine(x))
    ensures SameClasses(Sorted(s, coarse), s, fine)
    ensures Sorted(Sorted(s, coarse), fine) == Sorted(s, fine)
  {
    var c := Sorted(s, coarse);
    SortedIsStable(s, coarse);
    forall x | x in c ensures x in s {
      assert x in multiset(c);
    }
    forall r ensures OfRank(c, fine, r) == OfRank(s, fine, r) {
      OfRankRefined(c, fine, r, coarse, down(r));
      OfRankRefined(s, fine, r, coarse, down(r));
    }
    SortedIsStable(c, fine);
    forall r ensures OfRank(Sorted(c, fine), fine, r) == OfRank(s, fine, r) {
      assert OfRank(Sorted(c, fine), fine, r) == OfRank(c, fine, r);
    }
    SortedUnique(Sorted(c, fine), s, fine);
  }

  // ---------- Order inside a rank ----------

  ghost predicate AllPairs<T>(s: seq<T>, rel: (T, T) -> bool) {
    forall i, j :: 0 <= i < j < |s| ==> rel(s[i], s[j])
  }

  // Any two elements of rank r stand in the relation, the earlier one first.
  ghost predicate PairsAt<T>(s: seq<T>, key: T -> Rank, rel: (T, T) -> bool, r: Rank) {
    forall i, j :: 0 <= i < j < |s| && key(s[i]) == r && key(s[j]) == r ==> rel(s[i], s[j])
  }

  // Any two equally ranked elements stand in the relation, the earlier one first.
  ghost predicate PairsHold<T>(s: seq<T>, key: T -> Rank, rel: (T, T) -> bool) {
    forall i, j :: 0 <= i < j < |s| && key(s[i]) == key(s[j]) ==> rel(s[i], s[j])
  }

  // Rank order, and the relation among equally ranked elements.
  ghost predicate OrderedThen<T>(s: seq<T>, key: T -> Rank, rel: (T, T) -> bool) {
    forall i, j :: 0 <= i < j < |s| ==>
      Below(key(s[i]), key(s[j])) || (key(s[i]) == key(s[j]) && rel(s[i], s[j]))
  }

  lemma AllPairsSnoc<T>(s: seq<T>, x: T, rel: (T, T) -> bool)
    ensures AllPairs(s + [x], rel) <==> AllPairs(s, rel) && forall y :: y in s ==> rel(y, x)
  {
    var t := s + [x];
    if AllPairs(t, rel) {
      forall i, j | 0 <= i < j < |s| ensures rel(s[i], s[j]) {
        assert rel(t[i], t[j]);
      }
      forall y | y in s ensures rel(y, x) {
        var i :| 0 <= i < |s| && s[i] == y;
        assert rel(t[i], t[|s|]);
      }
    }
  }

  lemma PairsAtSnoc<T>(s: seq<T>, x: T, key: T -> Rank, rel: (T, T) -> bool, r: Rank)
    ensures PairsAt(s + [x], key, rel, r)
            <==> PairsAt(s, key, rel, r) && (key(x) == r ==> forall y :: y in OfRank(s, key, r) ==> rel(y, x))
  {
    var t := s + [x];
    forall y ensures y in OfRank(s, key, r) <==> y in s && key(y) == r {
      InOfRank(s, key, r, y);
    }
    if PairsAt(t, key, rel, r) {
      forall i, j | 0 <= i < j < |s| && key(s[i]) == r && key(s[j]) == r ensures rel(s[i], s[j]) {
        assert t[i] == s[i] && t[j] == s[j];
      }
      forall y | y in s && key(y) == r && key(x) == r ensures rel(y, x) {
        var i :| 0 <= i < |s| && s[i] == y;
        assert t[i] == y && t[|s|] == x;
      }
    }
  }

  lemma {:induction false} PairsOfClass<T>(s: seq<T>, key: T -> Rank, rel: (T, T) -> bool, r: Rank)
    ensures PairsAt(s, key, rel, r) <==> AllPairs(OfRank(s, key, r), rel)
  {
    if s != [] {
      var p, last := s[..|s| - 1], s[|s| - 1];
      assert s == p + [last];
      PairsOfClass(p, key, rel, r);
      PairsAtSnoc(p, last, key, rel, r);
      AllPairsSnoc(OfRank(p, key, r), last, rel);
      assert OfRank(s, key, r) == if key(last) == r then OfRank(p, key, r) + [last] else OfRank(p, key, r);
    }
  }

  /** A stable sort brings equally ranked elements into an order exactly if they came in that order. */
  lemma SortedPairs<T>(s: seq<T>, key: T -> Rank, rel: (T, T) -> bool)
    ensures OrderedThen(Sorted(s, key), key, rel) <==> PairsHold(s, key, rel)
  {
    var t := Sorted(s, key);
    SortedIsStable(s, key);
    forall r ensures PairsAt(t, key, rel, r) <==> PairsAt(s, key, rel, r) {
      PairsOfClass(t, key, rel, r);
      PairsOfClass(s, key, rel, r);
      assert OfRank(t, key, r) == OfRank(s, key, r);
    }
    PairsByRank(s, key, rel);
    PairsByRank(t, key, rel);
    ThenIsPairs(t, key, rel);
  }

  lemma PairsByRank<T>(s: seq<T>, key: T -> Rank, rel: (T, T) -> bool)
    ensures PairsHold(s, key, rel) <==> forall r :: PairsAt(s, key, rel, r)
  {
    if forall r :: PairsAt(s, key, rel, r) {
      forall i, j | 0 <= i < j < |s| && key(s[i]) == key(s[j]) ensures rel(s[i], s[j]) {
        assert PairsAt(s, key, rel, key(s[i]));
      }
    }
  }

  lemma ThenIsPairs<T>(s: seq<T>, key: T -> Rank, rel: (T, T) -> bool)
    requires Ordered(s, key)
    ensures OrderedThen(s, key, rel) <==> PairsHold(s, key, rel)
  {
    if PairsHold(s, key, rel) {
      forall i, j | 0 <= i < j < |s|
        ensures Below(key(s[i]), key(s[j])) || (key(s[i]) == key(s[j]) && rel(s[i], s[j]))
      {
        assert !Below(key(s[j]), key(s[i]));
      }
    }
  }

  // ---------- The head of a sorted list ----------

  lemma {:induction false} InsertHead<T>(s: seq<T>, x: T, key: T -> Rank)
    requires Ordered(s, key) && s != []
    ensures Insert(s, x, key) != []
    ensures Insert(s, x, key)[0] == if Below(key(x), key(s[0])) then x else s[0]
  {
    if Below(key(x), key(s[|s| - 1])) {
      if |s| > 1 {
        InsertHead(s[..|s| - 1], x, key);
      } else {
        assert s[..|s| - 1] == [];
      }
    }
  }

  /** A stable sort starts with the first element of least rank. */
  lemma {:induction false} SortedHead<T>(s: seq<T>, key: T -> Rank)
    requires s != []
    ensures Sorted(s, key) != [] && Sorted(s, key)[0] == Least(s, key)
  {
    var p, last := s[..|s| - 1], s[|s| - 1];
    if |s| == 1 {
      assert Sorted(p, key) == [];
    } else {
      SortedHead(p, key);
      SortedIsStable(p, key);
      InsertHead(Sorted(p, key), last, key);
    }
  }

  // ---------- In place ----------

  lemma InsertStep<T>(was: seq<T>, lo: nat, j: nat, i: nat, x: T, key: T -> Rank)
    requires lo < j <= i <= |was| && Below(key(x), key(was[j - 1]))
    ensures Insert(was[lo..j], x, key) + was[j..i] == Insert(was[lo..j - 1], x, key) + was[j - 1..i]
  {
    assert was[lo..j][..j - 1 - lo] == was[lo..j - 1];
    assert [was[j - 1]] + was[j..i] == was[j - 1..i];
  }

  lemma Placed<T>(now: seq<T>, was: seq<T>, lo: nat, j: nat, i: nat, key: T -> Rank)
    requires lo <= j <= i < |was| == |now| && now[j] == was[i]
    requires forall k :: 0 <= k < j || i < k < |was| ==> now[k] == was[k]
    requires forall k :: j < k <= i ==> now[k] == was[k - 1]
    requires j > lo ==> !Below(key(was[i]), key(was[j - 1]))
    requires Insert(was[lo..i], was[i], key) == Insert(was[lo..j], was[i], key) + was[j..i]
    ensures now == was[..lo] + Insert(was[lo..i], was[i], key) + was[i + 1..]
  {
  }

  // Moves a[i] down into the sorted stretch a[lo..i].
  method Sift<T>(a: array<T>, lo: nat, i: nat, key: T -> Rank)
    requires lo <= i < a.Length
    modifies a
    ensures a[..] == old(a[..lo]) + Insert(old(a[lo..i]), old(a[i]), key) + old(a[i + 1..])
  {
    ghost var was, x := a[..], a[i];
    var j := i;
    while j > lo && Below(key(a[j]), key(a[j - 1]))
      invariant lo <= j <= i
      invariant a[j] == x
      invariant forall k :: 0 <= k < j || i < k < a.Length ==> a[k] == was[k]
      invariant forall k :: j < k <= i ==> a[k] == was[k - 1]
      invariant Insert(was[lo..i], x, key) == Insert(was[lo..j], x, key) + was[j..i]
    {
      InsertStep(was, lo, j, i, x, key);
      a[j], a[j - 1] := a[j - 1], a[j];
      j := j - 1;
    }
    Placed(a[..], was, lo, j, i, key);
  }

  lemma {:induction false} InsertLength<T>(s: seq<T>, x: T, key: T -> Rank)
    ensures |Insert(s, x, key)| == |s| + 1
  {
    if s != [] && Below(key(x), key(s[|s| - 1])) {
      InsertLength(s[..|s| - 1], x, key);
    }
  }

  lemma {:induction false} SortedLength<T>(s: seq<T>, key: T -> Rank)
    ensures |Sorted(s, key)| == |s|
  {
    if s != [] {
      SortedLength(s[..|s| - 1], key);
      InsertLength(Sorted(s[..|s| - 1], key), s[|s| - 1], key);
    }
  }

  lemma SortedStep<T>(was: seq<T>, lo: nat, i: nat, key: T -> Rank)
    requires lo <= i < |was|
    ensures |Sorted(was[lo..i], key)| == i - lo
    ensures Sorted(was[lo..i + 1], key) == Insert(Sorted(was[lo..i], key), was[i], key)
  {
    assert was[lo..i + 1][..i - lo] == was[lo..i];
    SortedLength(was[lo..i], key);
  }

  lemma Slices<T>(now: seq<T>, a: seq<T>, b: seq<T>, c: seq<T>)
    requires now == a + b + c
    ensures now[..|a|] == a && now[|a|..|a| + |b|] == b && now[|a| + |b|..] == c
    ensures c != [] ==> now[|a| + |b|] == c[0] && now[|a| + |b| + 1..] == c[1..]
  {
  }

  /** Sorts a[lo..hi] in place and leaves the rest of the array alone. */
  method SliceStable<T>(a: array<T>, lo: nat, hi: nat, key: T -> Rank)
    requires lo <= hi <= a.Length
    modifies a
    ensures a[..] == old(a[..lo]) + Sorted(old(a[lo..hi]), key) + old(a[hi..])
  {
    ghost var was := a[..];
    assert was[lo..lo] == [];
    assert a[..] == was[..lo] + Sorted(was[lo..lo], key) + was[lo..];
    for i := lo to hi
      invariant a[..] == was[..lo] + Sorted(was[lo..i], key) + was[i..]
    {
      SortedStep(was, lo, i, key);
      ghost var p := Sorted(was[lo..i], key);
      Slices(a[..], was[..lo], p, was[i..]);
      assert a[..lo] == a[..][..lo] && a[lo..i] == a[..][lo..i] && a[i + 1..] == a[..][i + 1..] && a[i] == a[..][i];
      Sift(a, lo, i, key);
      assert was[i + 1..] == was[i..][1..];
    }
  }

  method SortAll<T>(a: array<T>, key: T -> Rank)
    modifies a
    ensures a[..] == Sorted(old(a[..]), key)
  {
    ghost var was := a[..];
    assert a[0..a.Length] == was && a[..0] == [] && a[a.Length..] == [];
    SliceStable(a, 0, a.Length, key);
  }
}
