/** The key under which a priority group files its round-robin state: every model name in order,
each preceded by its byte length in decimal and a colon. One `char` stands for one byte. */
module VisibleKey {
  import opened Options

  function Digits(n: nat): string {
    if n < 10 then [('0' as int + n) as char]
    else Digits(n / 10) + [('0' as int + n % 10) as char]
  }

  function Encode(name: string): string {
    Digits(|name|) + ":" + name
  }

  function Key(names: seq<string>): string {
    if names == [] then "" else Key(names[..|names| - 1]) + Encode(names[|names| - 1])
  }

  method BuildVisibleSetKey(names: seq<string>) returns (key: string)
    ensures key == Key(names)
  {
    key := "";
    for i := 0 to |names|
      invariant key == Key(names[..i])
    {
      key := key + Digits(|names[i]|) + ":" + names[i];
      assert names[..i + 1][..i] == names[..i];
      assert key == Key(names[..i]) + Encode(names[i]);
    }
    assert names[..|names|] == names;
  }

  // Reads decimal digits up to a colon; acc is the number read so far.
  function ReadLength(s: string, acc: nat): (r: Option<(nat, string)>)
    ensures r.Some? ==> |r.value.1| < |s|
  {
    if s == "" then None
    else if s[0] == ':' then Some((acc, s[1..]))
    else if '0' <= s[0] <= '9' then ReadLength(s[1..], 10 * acc + (s[0] as int - '0' as int))
    else None
  }

  function Decode(s: string): Option<seq<string>>
    decreases |s|
  {
    if s == "" then Some([])
    else
      match ReadLength(s, 0)
      case None => None
      case Some((n, rest)) =>
        if |rest| < n then None
        else
          match Decode(rest[n..])
          case None => None
          case Some(names) => Some([rest[..n]] + names)
  }

  lemma {:induction false} ReadDigits(n: nat, tail: string)
    ensures ReadLength(Digits(n) + tail, 0) == ReadLength(tail, n)
  {
    if n < 10 {
      assert (Digits(n) + tail)[1..] == tail;
    } else {
      var d := [('0' as int + n % 10) as char];
      ReadDigits(n / 10, d + tail);
      assert Digits(n) + tail == Digits(n / 10) + (d + tail);
      assert (d + tail)[1..] == tail;
    }
  }

  lemma {:induction false} KeyFront(name: string, names: seq<string>)
    ensures Key([name] + names) == Encode(name) + Key(names)
  {
    var all := [name] + names;
    if names == [] {
      assert all[..|all| - 1] == [];
      assert Key([]) == "";
    } else {
      var p := names[..|names| - 1];
      KeyFront(name, p);
      assert all[..|all| - 1] == [name] + p && all[|all| - 1] == names[|names| - 1];
      assert Key(all) == Key([name] + p) + Encode(names[|names| - 1]);
    }
  }

  /** The decoder recovers the exact list of names, whatever bytes the names contain. */
  lemma {:induction false} DecodeKey(names: seq<string>)
    ensures Decode(Key(names)) == Some(names)
  {
    if names != [] {
      var name, tail := names[0], names[1..];
      assert names == [name] + tail;
      DecodeKey(tail);
      KeyFront(name, tail);
      var rest := name + Key(tail);
      assert Key(names) == Digits(|name|) + (":" + rest);
      ReadDigits(|name|, ":" + rest);
      assert (":" + rest)[1..] == rest;
      assert rest[..|name|] == name && rest[|name|..] == Key(tail);
      assert |Digits(|name|)| > 0;
    }
  }

  /** Equal keys mean equal lists of names. */
  lemma KeyInjective(a: seq<string>, b: seq<string>)
    ensures Key(a) == Key(b) <==> a == b
  {
    DecodeKey(a);
    DecodeKey(b);
  }
}
