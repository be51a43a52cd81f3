/** Sampling of error logs: per (user, error type) and time window at most so many are kept. One
`char` stands for one byte. */
module ErrorSampler {

  // ---------- User names as counter keys ----------

  const NUL: char := 0 as char

  const PUNCTUATION: seq<char> := ['\\', '/', ':', '*', '?', '\"', '<', '>', '|', NUL, '\n', '\r', '\t']

  function ControlChars(n: nat): (s: seq<char>)
    requires n <= 32
    ensures forall c :: c in s <==> c as int < n
  {
    if n == 0 then [] else ControlChars(n - 1) + [(n - 1) as char]
  }

  function RemoveAll(s: string, c: char): (r: string)
    ensures forall d :: d in r <==> d in s && d != c
    ensures |r| <= |s|
  {
    if s == "" then ""
    else if s[0] == c then RemoveAll(s[1..], c)
    else [s[0]] + RemoveAll(s[1..], c)
  }

  function Keep(s: string, bad: seq<char>): string {
    if s == "" then ""
    else if s[0] in bad then Keep(s[1..], bad)
    else [s[0]] + Keep(s[1..], bad)
  }

  lemma {:induction false} RemoveAllKeep(s: string, bad: seq<char>, c: char)
    ensures RemoveAll(Keep(s, bad), c) == Keep(s, bad + [c])
  {
    if s != "" {
      RemoveAllKeep(s[1..], bad, c);
      if s[0] !in bad {
        var k := [s[0]] + Keep(s[1..], bad);
        assert k[1..] == Keep(s[1..], bad);
      }
    }
  }

  lemma {:induction false} KeepNothingBad(s: string)
    ensures Keep(s, []) == s
  {
    if s != "" {
      KeepNothingBad(s[1..]);
    }
  }

  // What is left of a name: its permitted bytes, at most 255 of them.
  function Sanitized(name: string, defaultName: string): string {
    if name == "" then defaultName
    else
      var kept := Keep(name, PUNCTUATION + ControlChars(32));
      if |kept| > 255 then kept[..255] else kept
  }

  method InvalidChars() returns (r: seq<char>)
    ensures r == PUNCTUATION + ControlChars(32)
  {
    r := PUNCTUATION;
    for i := 0 to 32
      invariant r == PUNCTUATION + ControlChars(i)
    {
      r := r + [i as char];
    }
  }

  method RemoveEach(name: string, bad: seq<char>) returns (r: string)
    ensures r == Keep(name, bad)
  {
    r := name;
    KeepNothingBad(name);
    for i := 0 to |bad|
      invariant r == Keep(name, bad[..i])
    {
      RemoveAllKeep(name, bad[..i], bad[i]);
      assert bad[..i + 1] == bad[..i] + [bad[i]];
      r := RemoveAll(r, bad[i]);
    }
    assert bad[..|bad|] == bad;
  }

  method SanitizeFilename(name: string, defaultName: string) returns (r: string)
    ensures r == Sanitized(name, defaultName)
  {
    if name == "" {
      return defaultName;
    }
    var invalidChars := InvalidChars();
    r := RemoveEach(name, invalidChars);
    if |r| > 255 {
      r := r[..255];
    }
  }

  lemma {:induction false} KeepHasNoBad(s: string, bad: seq<char>)
    ensures forall c :: c in Keep(s, bad) ==> c !in bad
  {
    if s != "" {
      KeepHasNoBad(s[1..], bad);
    }
  }

  lemma KeptPrefixClean(s: string, bad: seq<char>, more: seq<char>, n: nat)
    requires n <= |Keep(s, bad + more)|
    ensures forall c :: c in Keep(s, bad + more)[..n] ==> c !in bad && c !in more
  {
    KeepHasNoBad(s, bad + more);
    assert forall c :: c in Keep(s, bad + more)[..n] ==> c in Keep(s, bad + more);
  }

  /** A sanitised name holds no punctuation that some file system forbids and no control character, in particular
  no NUL, and at most 255 bytes. */
  lemma SanitizedIsClean(name: string)
    ensures forall c :: c in Sanitized(name, "unknown") ==> Permitted(c)
    ensures |Sanitized(name, "unknown")| <= 255
  {
    if name == "" {
      assert forall i :: 0 <= i < 7 ==> "unknown"[i] > 'Z' && Permitted("unknown"[i]);
    } else {
      var kept := Keep(name, PUNCTUATION + ControlChars(32));
      KeptPrefixClean(name, PUNCTUATION, ControlChars(32), if |kept| > 255 then 255 else |kept|);
      assert kept[..|kept|] == kept;
    }
  }

  predicate Permitted(c: char) {
    c as int >= 32 && c !in {'\\', '/', ':', '*', '?', '\"', '<', '>', '|'}
  }

  /** A name of at most 255 permitted bytes is not changed, so sanitising twice is sanitising once; an empty one
  becomes the default. */
  lemma SanitizedUnchanged(name: string)
    ensures name == "" ==> Sanitized(name, "unknown") == "unknown"
    ensures name != "" && |name| <= 255 && (forall c :: c in name ==> Permitted(c)) ==>
              Sanitized(name, "unknown") == name
    ensures Sanitized(name, "unknown") != "" ==>
              Sanitized(Sanitized(name, "unknown"), "unknown") == Sanitized(name, "unknown")
  {
    SanitizedIsClean(name);
    PermittedKept(name);
    PermittedKept(Sanitized(name, "unknown"));
  }

  lemma {:induction false} KeepsGood(s: string, bad: seq<char>)
    requires forall c :: c in s ==> c !in bad
    ensures Keep(s, bad) == s
  {
    if s != "" {
      assert s == [s[0]] + s[1..] && s[0] in s;
      KeepsGood(s[1..], bad);
    }
  }

  lemma PermittedKept(s: string)
    ensures (forall c :: c in s ==> Permitted(c)) ==> Keep(s, PUNCTUATION + ControlChars(32)) == s
  {
    assert forall c :: c in PUNCTUATION ==> !Permitted(c);
    assert forall c :: c in ControlChars(32) ==> !Permitted(c);
    if forall c :: c in s ==> Permitted(c) {
      KeepsGood(s, PUNCTUATION + ControlChars(32));
    }
  }

  function CounterKey(user: string, errorType: string): string {
    user + [NUL] + errorType
  }

  function FirstNul(s: string): nat {
    if s == "" || s[0] == NUL then 0 else 1 + FirstNul(s[1..])
  }

  lemma {:induction false} KeySplits(user: string, errorType: string)
    requires NUL !in user
    ensures FirstNul(CounterKey(user, errorType)) == |user|
  {
    if user != "" {
      KeySplits(user[1..], errorType);
      assert CounterKey(user, errorType)[1..] == CounterKey(user[1..], errorType);
    }
  }

  lemma NoNulKeyInjective(u: string, e: string, v: string, f: string)
    requires NUL !in u && NUL !in v && CounterKey(u, e) == CounterKey(v, f)
    ensures u == v && e == f
  {
    var k := CounterKey(u, e);
    KeySplits(u, e);
    KeySplits(v, f);
    assert k[..|u|] == u && k[..|v|] == v;
    assert k[|u| + 1..] == e && k[|v| + 1..] == f;
  }

  /** Distinct (sanitised user, error type) pairs never share a counter. */
  lemma KeysNeverCollide(a: string, e: string, b: string, f: string)
    ensures CounterKey(Sanitized(a, "unknown"), e) == CounterKey(Sanitized(b, "unknown"), f)
            <==> Sanitized(a, "unknown") == Sanitized(b, "unknown") && e == f
  {
    SanitizedIsClean(a);
    SanitizedIsClean(b);
    if CounterKey(Sanitized(a, "unknown"), e) == CounterKey(Sanitized(b, "unknown"), f) {
      NoNulKeyInjective(Sanitized(a, "unknown"), e, Sanitized(b, "unknown"), f);
    }
  }

  // ---------- The sampler ----------

  datatype Call = Call(now: int, user: string, errorType: string)
  datatype Sampler = Sampler(windowID: int, counts: map<string, nat>)

  const NO_WINDOW := Sampler(-1, map[])

  // Go's integer division truncates toward zero.
  function Window(now: int, windowSec: int): int
    requires windowSec > 0
  {
    if now >= 0 then now / windowSec else -((-now) / windowSec)
  }

  /** Two times are in one window exactly if the same multiples of the window length bound them; before time zero
  the bounds are mirrored. */
  lemma WindowExactly(now: int, windowSec: int, w: int)
    requires windowSec > 0
    ensures now >= 0 ==> (Window(now, windowSec) == w <==> windowSec * w <= now < windowSec * (w + 1))
    ensures now < 0 ==> (Window(now, windowSec) == w <==> windowSec * (w - 1) < now <= windowSec * w)
  {
    if now >= 0 {
      QuotientExactly(now, windowSec, w);
    } else {
      QuotientExactly(-now, windowSec, -w);
      Mirrored(windowSec, w);
      Mirrored(windowSec, w - 1);
    }
  }

  lemma Mirrored(d: int, w: int)
    ensures d * -w == -(d * w)
  {
  }

  lemma QuotientExactly(n: nat, d: int, k: int)
    requires d > 0
    ensures n / d == k <==> d * k <= n < d * (k + 1)
  {
    var q := n / d;
    assert d * (q + 1) == d * q + d;
    Between(d, n, q, k);
  }

  // Only one multiple of d is the last one not above n.
  lemma Between(d: int, n: int, q: int, k: int)
    requires d > 0 && d * q <= n < d * (q + 1)
    ensures k == q <==> d * k <= n < d * (k + 1)
  {
    if d * k <= n < d * (k + 1) {
      Cancel(d, k, q + 1);
      Cancel(d, q, k + 1);
    }
  }

  function CountOf(s: Sampler, key: string): nat {
    if key in s.counts then s.counts[key] else 0
  }

  function Rolled(s: Sampler, w: int): Sampler {
    if w != s.windowID then Sampler(w, map[]) else s
  }

  predicate Allowed(s: Sampler, c: Call, max: int, windowSec: int)
    requires windowSec > 0
  {
    CountOf(Rolled(s, Window(c.now, windowSec)), CounterKey(c.user, c.errorType)) < max
  }

  function After(s: Sampler, c: Call, max: int, windowSec: int): Sampler
    requires windowSec > 0
  {
    var r, key := Rolled(s, Window(c.now, windowSec)), CounterKey(c.user, c.errorType);
    if Allowed(s, c, max, windowSec) then r.(counts := r.counts[key := CountOf(r, key) + 1]) else r
  }

  class ErrorLogSampler {
    const maxPerWindow: int
    const windowSec: int
    var windowID: int
    var counts: map<string, nat>

    ghost predicate Valid() {
      maxPerWindow > 0 && windowSec > 0
    }

    function State(): Sampler
      reads this
    {
      Sampler(windowID, counts)
    }

    constructor (maxPerWindow: int, windowSec: int)
      ensures Valid() && State() == NO_WINDOW
      ensures this.maxPerWindow == (if maxPerWindow <= 0 then 1 else maxPerWindow)
      ensures this.windowSec == (if windowSec <= 0 then 1 else windowSec)
    {
      this.windowSec := if windowSec <= 0 then 1 else windowSec;
      this.maxPerWindow := if maxPerWindow <= 0 then 1 else maxPerWindow;
      windowID, counts := -1, map[];
    }

    method Allow(now: int, user: string, errorType: string) returns (ok: bool)
      requires Valid()
      modifies this
      ensures Valid()
      ensures ok == Allowed(old(State()), Call(now, user, errorType), maxPerWindow, windowSec)
      ensures State() == After(old(State()), Call(now, user, errorType), maxPerWindow, windowSec)
    {
      var wid := Window(now, windowSec);
      if wid != windowID {
        windowID := wid;
        counts := map[];
      }
      var key := CounterKey(user, errorType);
      var count := if key in counts then counts[key] else 0;
      if count >= maxPerWindow {
        return false;
      }
      counts := counts[key := count + 1];
      return true;
    }
  }

  // ---------- Whole runs ----------

  function Run(calls: seq<Call>, max: int, windowSec: int): Sampler
    requires windowSec > 0
  {
    if calls == [] then NO_WINDOW
    else After(Run(calls[..|calls| - 1], max, windowSec), calls[|calls| - 1], max, windowSec)
  }

  // The calls so far with this key in this window.
  function Seen(calls: seq<Call>, w: int, key: string, windowSec: int): nat
    requires windowSec > 0
  {
    if calls == [] then 0
    else
      var last := calls[|calls| - 1];
      Seen(calls[..|calls| - 1], w, key, windowSec)
      + (if Window(last.now, windowSec) == w && CounterKey(last.user, last.errorType) == key then 1 else 0)
  }

  ghost predicate NonDecreasing(calls: seq<Call>) {
    forall i, j :: 0 <= i < j < |calls| ==> calls[i].now <= calls[j].now
  }

  lemma Cancel(d: int, x: int, y: int)
    requires d > 0 && d * x < d * y
    ensures x < y
  {
  }

  lemma DivMonotone(a: int, b: int, d: int)
    requires d > 0 && 0 <= a <= b
    ensures 0 <= a / d <= b / d
  {
    var y := b / d;
    assert d * (y + 1) == d * y + d;
    Cancel(d, a / d, y + 1);
  }

  lemma WindowMonotone(a: int, b: int, windowSec: int)
    requires windowSec > 0 && a <= b
    ensures Window(a, windowSec) <= Window(b, windowSec)
  {
    if a >= 0 {
      DivMonotone(a, b, windowSec);
    } else if b < 0 {
      DivMonotone(-b, -a, windowSec);
    } else {
      DivMonotone(b, b, windowSec);
      DivMonotone(-a, -a, windowSec);
    }
  }

  // The calls with this key in the unbroken stretch of calls in this window at the end.
  function SeenSince(calls: seq<Call>, w: int, key: string, windowSec: int): nat
    requires windowSec > 0
  {
    if calls == [] || Window(calls[|calls| - 1].now, windowSec) != w then 0
    else
      var last := calls[|calls| - 1];
      SeenSince(calls[..|calls| - 1], w, key, windowSec)
      + (if CounterKey(last.user, last.errorType) == key then 1 else 0)
  }

  function AtMost(n: nat, max: nat): nat {
    if n < max then n else max
  }

  // The counters hold the admitted calls of that stretch.
  lemma {:induction false} CountersAreHistory(calls: seq<Call>, max: nat, windowSec: int, key: string)
    requires windowSec > 0
    ensures calls == [] ==> Run(calls, max, windowSec) == NO_WINDOW
    ensures calls != [] ==>
              var w := Window(calls[|calls| - 1].now, windowSec);
              && Run(calls, max, windowSec).windowID == w
              && CountOf(Run(calls, max, windowSec), key) == AtMost(SeenSince(calls, w, key, windowSec), max)
  {
    if calls != [] {
      var p, last := calls[..|calls| - 1], calls[|calls| - 1];
      CountersAreHistory(p, max, windowSec, key);
      CountersAreHistory(p, max, windowSec, CounterKey(last.user, last.errorType));
    }
  }

  /** For every clock, even one that goes back: a call is allowed exactly when fewer than max calls of its
  key have come in the unbroken stretch of calls in its window. */
  lemma AllowedExactly(calls: seq<Call>, c: Call, max: nat, windowSec: int)
    requires windowSec > 0 && max > 0
    ensures Allowed(Run(calls, max, windowSec), c, max, windowSec)
            <==> SeenSince(calls, Window(c.now, windowSec), CounterKey(c.user, c.errorType), windowSec) < max
  {
    CountersAreHistory(calls, max, windowSec, CounterKey(c.user, c.errorType));
  }

  // A call of this key in window w is followed by a call in another window.
  ghost predicate LeftBehind(calls: seq<Call>, w: int, key: string, windowSec: int)
    requires windowSec > 0
  {
    exists i, j :: 0 <= i < j < |calls| && Window(calls[i].now, windowSec) == w
                   && CounterKey(calls[i].user, calls[i].errorType) == key && Window(calls[j].now, windowSec) != w
  }

  lemma {:induction false} SeenSome(calls: seq<Call>, w: int, key: string, windowSec: int)
    requires windowSec > 0
    ensures Seen(calls, w, key, windowSec) > 0 <==>
            exists i :: 0 <= i < |calls| && Window(calls[i].now, windowSec) == w
                        && CounterKey(calls[i].user, calls[i].errorType) == key
  {
    if calls != [] {
      SeenSome(calls[..|calls| - 1], w, key, windowSec);
    }
  }

  lemma SeenStep(calls: seq<Call>, w: int, key: string, windowSec: int)
    requires windowSec > 0 && calls != []
    ensures var p, last := calls[..|calls| - 1], calls[|calls| - 1];
            var here: nat := if CounterKey(last.user, last.errorType) == key then 1 else 0;
            if Window(last.now, windowSec) == w
            then SeenSince(calls, w, key, windowSec) == SeenSince(p, w, key, windowSec) + here
                 && Seen(calls, w, key, windowSec) == Seen(p, w, key, windowSec) + here
            else SeenSince(calls, w, key, windowSec) == 0
                 && Seen(calls, w, key, windowSec) == Seen(p, w, key, windowSec)
  {
  }

  lemma {:induction false} SeenSplit(calls: seq<Call>, w: int, key: string, windowSec: int)
    requires windowSec > 0
    ensures SeenSince(calls, w, key, windowSec) <= Seen(calls, w, key, windowSec)
    ensures SeenSince(calls, w, key, windowSec) < Seen(calls, w, key, windowSec)
            <==> LeftBehind(calls, w, key, windowSec)
  {
    if calls != [] {
      var p, last := calls[..|calls| - 1], calls[|calls| - 1];
      SeenStep(calls, w, key, windowSec);
      if Window(last.now, windowSec) == w {
        SeenSplit(p, w, key, windowSec);
        LeftBehindSame(calls, w, key, windowSec);
      } else {
        SeenSome(p, w, key, windowSec);
        LeftBehindOther(calls, w, key, windowSec);
      }
    }
  }

  lemma LeftBehindSame(calls: seq<Call>, w: int, key: string, windowSec: int)
    requires windowSec > 0 && calls != [] && Window(calls[|calls| - 1].now, windowSec) == w
    ensures LeftBehind(calls, w, key, windowSec) <==> LeftBehind(calls[..|calls| - 1], w, key, windowSec)
  {
  }

  lemma LeftBehindOther(calls: seq<Call>, w: int, key: string, windowSec: int)
    requires windowSec > 0 && calls != [] && Window(calls[|calls| - 1].now, windowSec) != w
    ensures LeftBehind(calls, w, key, windowSec) <==>
            exists i :: 0 <= i < |calls| - 1 && Window(calls[i].now, windowSec) == w
                        && CounterKey(calls[i].user, calls[i].errorType) == key
  {
  }

  // With this limit the sampler allows a call that the whole history of the window would refuse, or
  // refuses one that it would allow.
  ghost predicate TellsApart(calls: seq<Call>, c: Call, max: nat, windowSec: int)
    requires windowSec > 0
  {
    max > 0
    && Allowed(Run(calls, max, windowSec), c, max, windowSec)
       != (Seen(calls, Window(c.now, windowSec), CounterKey(c.user, c.errorType), windowSec) < max)
  }

  /** Exactly when some limit tells the sampler from the whole history of the window: when a call of the
  same key and window was followed by a call in another window. */
  lemma HistoryAnswersExactly(calls: seq<Call>, c: Call, windowSec: int)
    requires windowSec > 0
    ensures LeftBehind(calls, Window(c.now, windowSec), CounterKey(c.user, c.errorType), windowSec)
            <==> exists max: nat :: TellsApart(calls, c, max, windowSec)
  {
    var w, key := Window(c.now, windowSec), CounterKey(c.user, c.errorType);
    var n := SeenSince(calls, w, key, windowSec);
    SeenSplit(calls, w, key, windowSec);
    forall max: nat | max > 0
      ensures TellsApart(calls, c, max, windowSec) <==> n < max <= Seen(calls, w, key, windowSec)
    {
      AllowedExactly(calls, c, max, windowSec);
    }
    assert n < Seen(calls, w, key, windowSec) ==> TellsApart(calls, c, n + 1, windowSec);
  }

  /** In any run whose clock never goes back, a call is allowed exactly when fewer than max earlier
  calls had the same key in the same window. */
  lemma AllowMatchesHistory(calls: seq<Call>, c: Call, max: nat, windowSec: int)
    requires windowSec > 0 && max > 0 && NonDecreasing(calls + [c])
    ensures Allowed(Run(calls, max, windowSec), c, max, windowSec)
            <==> Seen(calls, Window(c.now, windowSec), CounterKey(c.user, c.errorType), windowSec) < max
  {
    var w, key := Window(c.now, windowSec), CounterKey(c.user, c.errorType);
    AllowedExactly(calls, c, max, windowSec);
    SeenSplit(calls, w, key, windowSec);
    if LeftBehind(calls, w, key, windowSec) {
      var i, j :| 0 <= i < j < |calls| && Window(calls[i].now, windowSec) == w
                  && CounterKey(calls[i].user, calls[i].errorType) == key && Window(calls[j].now, windowSec) != w;
      assert (calls + [c])[i].now <= (calls + [c])[j].now <= (calls + [c])[|calls|].now;
      WindowMonotone(calls[i].now, calls[j].now, windowSec);
      WindowMonotone(calls[j].now, c.now, windowSec);
    }
  }

  // Such a run: a clock that goes back reopens a window that was already used up.
  lemma BackwardsClockAdmitsMore(user: string, errorType: string)
    ensures var calls := [Call(60, user, errorType), Call(0, user, errorType)];
            && Allowed(Run(calls, 1, 60), Call(60, user, errorType), 1, 60)
            && Seen(calls, Window(60, 60), CounterKey(user, errorType), 60) == 1
  {
    var a, b := Call(60, user, errorType), Call(0, user, errorType);
    var calls := [a, b];
    assert calls[..1] == [a] && [a][..0] == [];
    assert Seen([], 1, CounterKey(user, errorType), 60) == 0;
    assert Run([a], 1, 60) == After(NO_WINDOW, a, 1, 60);
    assert Run(calls, 1, 60) == After(Run([a], 1, 60), b, 1, 60);
  }

  // ---------- The decision to keep an error log ----------

  datatype ErrorLogMode = All | Sampled | Never

  method ShouldSaveErrorLog(mode: ErrorLogMode, sampler: ErrorLogSampler?, now: int, userName: string,
                            errorType: string)
    returns (save: bool)
    requires sampler != null ==> sampler.Valid()
    modifies sampler
    ensures mode == All ==> save
    ensures mode == Never ==> !save
    ensures mode == Sampled && sampler == null ==> save
    ensures mode == Sampled && sampler != null ==>
              var c := Call(now, Sanitized(userName, "unknown"), errorType);
              && save == Allowed(old(sampler.State()), c, sampler.maxPerWindow, sampler.windowSec)
              && sampler.State() == After(old(sampler.State()), c, sampler.maxPerWindow, sampler.windowSec)
    ensures mode != Sampled && sampler != null ==> sampler.State() == old(sampler.State())
  {
    match mode
    case All => return true;
    case Sampled =>
      if sampler == null {
        return true;
      }
      var userKey := SanitizeFilename(userName, "unknown");
      save := sampler.Allow(now, userKey, errorType);
    case Never => return false;
  }
}
