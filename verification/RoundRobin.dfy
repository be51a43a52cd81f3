/** Smooth weighted round robin, as one pure step and as a private schedule over a fixed list of
weights. Each pick adds every weight to its counter, takes the first largest counter and subtracts
the total weight from it. */
module RoundRobin {

  function Sum(s: seq<int>): int {
    if s == [] then 0 else Sum(s[..|s| - 1]) + s[|s| - 1]
  }

  function Zeros(n: nat): (z: seq<int>)
    ensures |z| == n && forall i :: 0 <= i < n ==> z[i] == 0
  {
    if n == 0 then [] else Zeros(n - 1) + [0]
  }

  // k is the first index at which the raised counter s[k] + w[k] is largest.
  ghost predicate IsFirstMax(s: seq<int>, w: seq<int>, k: int) {
    && 0 <= k < |s| == |w|
    && (forall j {:trigger s[j]} :: 0 <= j < k ==> s[j] + w[j] < s[k] + w[k])
    && (forall j {:trigger s[j]} :: k < j < |s| ==> s[j] + w[j] <= s[k] + w[k])
  }

  lemma {:induction false} FirstMaxExists(s: seq<int>, w: seq<int>)
    requires |s| == |w| > 0
    ensures exists k: nat :: IsFirstMax(s, w, k)
  {
    if |s| == 1 {
      assert IsFirstMax(s, w, 0);
    } else {
      var n := |s| - 1;
      FirstMaxExists(s[..n], w[..n]);
      var k: nat :| IsFirstMax(s[..n], w[..n], k);
      assert s[..n][k] == s[k] && w[..n][k] == w[k];
      assert IsFirstMax(s, w, if s[n] + w[n] > s[k] + w[k] then n else k);
    }
  }

  // One pick: the chosen index, and the counters after it.
  ghost function Choose(s: seq<int>, w: seq<int>): (k: nat)
    requires |s| == |w| > 0
    ensures IsFirstMax(s, w, k)
  {
    FirstMaxExists(s, w);
    var k: nat :| IsFirstMax(s, w, k);
    k
  }

  ghost function Next(s: seq<int>, w: seq<int>): (r: seq<int>)
    requires |s| == |w| > 0
    ensures |r| == |w|
    ensures forall i {:trigger r[i]} :: 0 <= i < |w| ==> r[i] == s[i] + w[i] - (if i == Choose(s, w) then Sum(w) else 0)
  {
    var k, W := Choose(s, w), Sum(w);
    seq(|w|, i requires 0 <= i < |w| => s[i] + w[i] - (if i == k then W else 0))
  }

  // ---------- A private schedule ----------

  // The counters before pick number t (counting from 0), starting from zeros.
  ghost function Counters(w: seq<int>, t: nat): (s: seq<int>)
    requires w != []
    ensures |s| == |w|
  {
    if t == 0 then Zeros(|w|) else Next(Counters(w, t - 1), w)
  }

  ghost function Choice(w: seq<int>, t: nat): (k: nat)
    requires w != []
    ensures k < |w|
  {
    Choose(Counters(w, t), w)
  }

  // How often candidate i is chosen by the first t picks.
  ghost function Count(w: seq<int>, t: nat, i: nat): nat
    requires i < |w|
  {
    if t == 0 then 0 else Count(w, t - 1, i) + (if Choice(w, t - 1) == i then 1 else 0)
  }

  ghost predicate Positive(w: seq<int>) {
    w != [] && forall i :: 0 <= i < |w| ==> w[i] > 0
  }

  // ---------- Sums ----------

  lemma {:induction false} SumMoved(r: seq<int>, s: seq<int>, w: seq<int>, k: nat, W: int)
    requires |r| == |s| == |w|
    requires forall i :: 0 <= i < |w| ==> r[i] == s[i] + w[i] - (if i == k then W else 0)
    ensures Sum(r) == Sum(s) + Sum(w) - (if k < |w| then W else 0)
  {
    if r != [] {
      var n := |r| - 1;
      SumMoved(r[..n], s[..n], w[..n], k, W);
    }
  }

  lemma {:induction false} SumUpdate(s: seq<int>, k: nat, v: int)
    requires k < |s|
    ensures Sum(s[k := v]) == Sum(s) - s[k] + v
  {
    var n := |s| - 1;
    if k == n {
      assert s[k := v][..n] == s[..n];
    } else {
      SumUpdate(s[..n], k, v);
      assert s[k := v][..n] == s[..n][k := v];
    }
  }

  lemma {:induction false} SumZeros(n: nat)
    ensures Sum(Zeros(n)) == 0
  {
    if n > 0 {
      SumZeros(n - 1);
      assert Zeros(n)[..n - 1] == Zeros(n - 1);
    }
  }

  lemma {:induction false} SumAtLeast(s: seq<int>, b: int)
    requires forall j :: 0 <= j < |s| ==> s[j] >= b
    ensures Sum(s) >= |s| * b
  {
    if s != [] {
      SumAtLeast(s[..|s| - 1], b);
      assert |s| * b == (|s| - 1) * b + b;
    }
  }

  lemma {:induction false} SumAtMost(s: seq<int>, b: int)
    requires forall j :: 0 <= j < |s| ==> s[j] <= b
    ensures Sum(s) <= |s| * b
  {
    if s != [] {
      SumAtMost(s[..|s| - 1], b);
      assert |s| * b == (|s| - 1) * b + b;
    }
  }

  lemma Owed(n: int, b: int)
    ensures n * (-b) == -((n - 1) * b) - b
  {
  }

  // A counter is bounded above by what the others can owe.
  lemma UpperFromLower(s: seq<int>, b: int, i: nat)
    requires i < |s| && Sum(s) == 0
    requires forall j :: 0 <= j < |s| ==> s[j] >= -b
    ensures s[i] <= (|s| - 1) * b
  {
    var r := s[i := -b];
    SumUpdate(s, i, -b);
    SumAtLeast(r, -b);
    Owed(|s|, b);
  }

  /** A pick keeps the counters summing to zero. */
  lemma NextZeroSum(s: seq<int>, w: seq<int>)
    requires |s| == |w| > 0 && Sum(s) == 0
    ensures Sum(Next(s, w)) == 0
  {
    SumMoved(Next(s, w), s, w, Choose(s, w), Sum(w));
  }

  /** With positive weights and counters that sum to zero, the largest raised counter is positive:
  this is why a search that starts from the value -1 still finds the first largest one. */
  lemma ChosenIsPositive(s: seq<int>, w: seq<int>)
    requires |s| == |w| && Positive(w) && Sum(s) == 0
    ensures s[Choose(s, w)] + w[Choose(s, w)] > 0
  {
    var top := s[Choose(s, w)] + w[Choose(s, w)];
    var x := seq(|w|, i requires 0 <= i < |w| => s[i] + w[i]);
    SumMoved(x, s, w, 0, 0);
    SumPositive(w);
    SumAtMost(x, top);
    Cancel(|x|, 0, top);
  }

  lemma {:induction false} SumPositive(w: seq<int>)
    requires Positive(w)
    ensures Sum(w) >= |w|
  {
    SumAtLeast(w, 1);
  }

  // ---------- Invariants of the schedule ----------

  lemma {:induction false} CountersZeroSum(w: seq<int>, t: nat)
    requires w != []
    ensures Sum(Counters(w, t)) == 0
  {
    if t == 0 {
      SumZeros(|w|);
    } else {
      CountersZeroSum(w, t - 1);
      NextZeroSum(Counters(w, t - 1), w);
    }
  }

  lemma OneMore(t: int, x: int, W: int, c: int)
    ensures t * x - W * c == (t - 1) * x - W * c + x
    ensures t * x - W * (c + 1) == (t - 1) * x - W * c + x - W
  {
  }

  // A counter records exactly how far its candidate is ahead of or behind its share.
  lemma {:induction false} CounterMeaning(w: seq<int>, t: nat, i: nat)
    requires i < |w|
    ensures Counters(w, t)[i] == t * w[i] - Sum(w) * Count(w, t, i)
  {
    if t > 0 {
      CounterMeaning(w, t - 1, i);
      OneMore(t, w[i], Sum(w), Count(w, t - 1, i));
    }
  }

  lemma {:induction false} CountersBelow(w: seq<int>, t: nat)
    requires Positive(w)
    ensures forall i :: 0 <= i < |w| ==> Counters(w, t)[i] >= 1 - Sum(w)
  {
    SumPositive(w);
    if t > 0 {
      CountersBelow(w, t - 1);
      CountersZeroSum(w, t - 1);
      ChosenIsPositive(Counters(w, t - 1), w);
    }
  }

  /** Prefix fairness: after any number t of picks no candidate is ahead of its share t*w[i]/W by a
  whole pick or more, and none is behind by more than (n-1)(W-1)/W. */
  lemma PrefixFair(w: seq<int>, t: nat, i: nat)
    requires Positive(w) && i < |w|
    ensures t * w[i] - (|w| - 1) * (Sum(w) - 1) <= Sum(w) * Count(w, t, i) <= t * w[i] + Sum(w) - 1
    ensures Sum(w) > 0 && Count(w, t, i) <= (t * w[i] + Sum(w) - 1) / Sum(w)
  {
    SumPositive(w);
    CounterMeaning(w, t, i);
    CountersBelow(w, t);
    CountersZeroSum(w, t);
    UpperFromLower(Counters(w, t), Sum(w) - 1, i);
    QuotientBound(Count(w, t, i), t * w[i] + Sum(w) - 1, Sum(w));
  }

  lemma Cancel(d: int, a: int, b: int)
    requires d > 0 && d * a < d * b
    ensures a < b
  {
  }

  lemma QuotientBound(c: nat, x: int, d: nat)
    requires d > 0 && d * c <= x
    ensures c <= x / d
  {
    assert d * (x / d + 1) == d * (x / d) + d;
    Cancel(d, c, x / d + 1);
  }

  lemma WholePicksAhead(d: int, x: int, c: int, v: int)
    requires d > 0 && v == d * x - d * c && v >= 1 - d
    ensures v >= 0 && x >= c && (v == 0 ==> x == c)
  {
    assert d * (x - c) == v && d * (-1) == -d;
    Cancel(d, -1, x - c);
    if v == 0 {
      Cancel(d, x - c, 1);
    }
  }

  lemma {:induction false} NonNegativeZeroSum(s: seq<int>)
    requires Sum(s) == 0 && forall j :: 0 <= j < |s| ==> s[j] >= 0
    ensures s == Zeros(|s|)
  {
    if s != [] {
      var p := s[..|s| - 1];
      SumAtLeast(p, 0);
      NonNegativeZeroSum(p);
      assert s == p + [0];
    }
  }

  // After as many picks as the total weight W no candidate is ahead of its weight.
  lemma FullRound(w: seq<int>, W: nat, i: nat)
    requires Positive(w) && W == Sum(w) && i < |w|
    ensures Counters(w, W)[i] >= 0
    ensures Counters(w, W)[i] == 0 ==> Count(w, W, i) == w[i]
  {
    SumPositive(w);
    CountersBelow(w, W);
    CounterMeaning(w, W, i);
    WholePicksAhead(W, w[i], Count(w, W, i), Counters(w, W)[i]);
  }

  lemma ReturnsToZero(w: seq<int>, W: nat)
    requires Positive(w) && W == Sum(w)
    ensures Counters(w, W) == Zeros(|w|)
  {
    var s := Counters(w, W);
    forall i | 0 <= i < |w| ensures s[i] >= 0 {
      FullRound(w, W, i);
    }
    CountersZeroSum(w, W);
    NonNegativeZeroSum(s);
  }

  lemma RoundCounts(w: seq<int>, W: nat, i: nat)
    requires Positive(w) && W == Sum(w) && i < |w|
    ensures Count(w, W, i) == w[i]
  {
    ReturnsToZero(w, W);
    FullRound(w, W, i);
  }

  lemma {:induction false} ScheduleRepeats(w: seq<int>, W: nat, t: nat)
    requires Positive(w) && W == Sum(w)
    ensures Counters(w, t + W) == Counters(w, t)
    ensures Choice(w, t + W) == Choice(w, t)
  {
    if t == 0 {
      ReturnsToZero(w, W);
    } else {
      ScheduleRepeats(w, W, t - 1);
    }
  }

  lemma CountNext(w: seq<int>, t: nat, i: nat)
    requires i < |w|
    ensures Count(w, t + 1, i) == Count(w, t, i) + (if Choice(w, t) == i then 1 else 0)
  {
  }

  lemma RepeatStep(w: seq<int>, t: nat, u: nat, i: nat)
    requires i < |w| && Choice(w, u) == Choice(w, t) && Count(w, u, i) == Count(w, t, i) + w[i]
    ensures Count(w, u + 1, i) == Count(w, t + 1, i) + w[i]
  {
    CountNext(w, t, i);
    CountNext(w, u, i);
  }

  lemma {:induction false} CountRepeats(w: seq<int>, W: nat, t: nat, i: nat)
    requires Positive(w) && W == Sum(w) && i < |w|
    ensures Count(w, t + W, i) == Count(w, t, i) + w[i]
  {
    if t == 0 {
      RoundCounts(w, W, i);
    } else {
      ScheduleRepeats(w, W, t - 1);
      CountRepeats(w, W, t - 1, i);
      RepeatStep(w, t - 1, t - 1 + W, i);
    }
  }

  lemma {:induction false} ZeroAtMultiples(w: seq<int>, W: nat, k: nat)
    requires Positive(w) && W == Sum(w)
    ensures Counters(w, k * W) == Zeros(|w|)
  {
    if k > 0 {
      ZeroAtMultiples(w, W, k - 1);
      assert k * W == (k - 1) * W + W;
      ScheduleRepeats(w, W, (k - 1) * W);
    }
  }

  /** The schedule has period W: any W consecutive picks choose candidate i exactly w[i] times, and
  at every multiple of W all counters are zero again. */
  lemma PeriodFair(w: seq<int>, W: nat, t: nat, k: nat, i: nat)
    requires Positive(w) && W == Sum(w) && i < |w|
    ensures Count(w, t + W, i) - Count(w, t, i) == w[i]
    ensures Choice(w, t + W) == Choice(w, t)
    ensures Counters(w, k * W) == Zeros(|w|)
  {
    CountRepeats(w, W, t, i);
    ScheduleRepeats(w, W, t);
    ZeroAtMultiples(w, W, k);
  }
}
