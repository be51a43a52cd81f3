/** Joining texts and finding one text in another. */
module Strings {

  function Join(parts: seq<string>): string {
    if parts == [] then "" else Join(parts[..|parts| - 1]) + parts[|parts| - 1]
  }

  predicate OccursAt(s: string, t: string, i: int) {
    0 <= i && i + |t| <= |s| && s[i..i + |t|] == t
  }

  function IndexFrom(s: string, t: string, i: nat): (r: int)
    requires i <= |s|
    ensures r == -1 || (i <= r && OccursAt(s, t, r))
    ensures forall j :: i <= j && OccursAt(s, t, j) ==> 0 <= r <= j
    decreases |s| - i
  {
    if OccursAt(s, t, i) then i
    else if i == |s| then -1
    else IndexFrom(s, t, i + 1)
  }

  // The first place where t occurs in s, or -1.
  function Index(s: string, t: string): (r: int)
    ensures r == -1 || OccursAt(s, t, r)
    ensures forall j :: OccursAt(s, t, j) ==> 0 <= r <= j
  {
    IndexFrom(s, t, 0)
  }

  lemma {:induction false} JoinAppend(a: seq<string>, b: seq<string>)
    ensures Join(a + b) == Join(a) + Join(b)
  {
    if b == [] {
      assert a + b == a;
    } else {
      JoinAppend(a, b[..|b| - 1]);
      assert (a + b)[..|a + b| - 1] == a + b[..|b| - 1];
    }
  }

  lemma JoinSplit(cs: seq<string>, k: nat)
    requires k <= |cs|
    ensures Join(cs) == Join(cs[..k]) + Join(cs[k..])
  {
    var a, b := cs[..k], cs[k..];
    JoinAppend(a, b);
    assert cs == a + b;
  }

  lemma JoinSnoc(cs: seq<string>, c: string)
    ensures Join(cs + [c]) == Join(cs) + c
  {
  }

  lemma OccursInside(a: string, s: string, b: string, t: string, i: int)
    requires OccursAt(s, t, i)
    ensures OccursAt(a + s + b, t, |a| + i)
  {
  }

  lemma OccursInFront(s: string, b: string, t: string, i: int)
    requires OccursAt(s + b, t, i)
    ensures i + |t| <= |s| ==> OccursAt(s, t, i)
  {
  }

  lemma OccursInTail(a: string, s: string, t: string, i: int)
    requires OccursAt(a + s, t, i) && |a| <= i
    ensures OccursAt(s, t, i - |a|)
  {
  }

  lemma JoinFront(w: seq<string>)
    requires w != []
    ensures Join(w) == w[0] + Join(w[1..])
  {
    JoinSplit(w, 1);
    assert w[..1][..0] == [];
  }

  lemma Associative(a: string, b: string, c: string)
    ensures (a + b) + c == a + (b + c)
  {
  }
}
