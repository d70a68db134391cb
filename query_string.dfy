/** Serialisation of a parameter set into the query string the client sends,
    and the splitting that reads it back. No percent-encoding is done: keys
    and values appear in the query string exactly as given. */
module QueryString {
  import opened Parameters

  /** One `key=value` piece. */
  function Pair(p: (string, string)): string
  {
    p.0 + "=" + p.1
  }

  /** The pieces of `ps` in order, joined by single `&` separators. Defined
      from the back, the way the client accumulates it. */
  function Join(ps: Params): (q: string)
    ensures q == [] <==> ps == []
  {
    if |ps| == 0 then ""
    else if |ps| == 1 then Pair(ps[0])
    else Join(ps[..|ps| - 1]) + "&" + Pair(ps[|ps| - 1])
  }

  /** Adding a parameter at the end adds `&key=value` at the end. */
  lemma JoinAppend(ps: Params, p: (string, string))
    requires ps != []
    ensures Join(ps + [p]) == Join(ps) + "&" + Pair(p)
  {
    assert (ps + [p])[..|ps|] == ps;
  }

  /** `s` cut at every occurrence of `c`; always at least one piece. */
  function Split(s: string, c: char): (parts: seq<string>)
    ensures |parts| >= 1
    decreases |s|
  {
    if s == [] then [[]]
    else
      var rest := Split(s[1..], c);
      if s[0] == c then [[]] + rest
      else [[s[0]] + rest[0]] + rest[1..]
  }

  /** Reading a query string back: cut it at `&`, then cut each piece at `=`.
      The empty string holds no pairs. */
  function ParseQuery(q: string): Params
  {
    if q == [] then []
    else
      var pieces := Split(q, '&');
      seq(|pieces|, i requires 0 <= i < |pieces| => ParsePair(pieces[i]))
  }

  function ParsePair(piece: string): (string, string)
  {
    var kv := Split(piece, '=');
    (kv[0], if |kv| > 1 then kv[1] else [])
  }

  /** No key and no value contains a separator. */
  predicate Plain(ps: Params)
  {
    forall i :: 0 <= i < |ps| ==>
      '&' !in ps[i].0 && '=' !in ps[i].0 && '&' !in ps[i].1 && '=' !in ps[i].1
  }

  /** No key and no value contains `&`. */
  predicate NoAmp(ps: Params)
  {
    forall i :: 0 <= i < |ps| ==> '&' !in ps[i].0 && '&' !in ps[i].1
  }

  lemma {:induction false} SplitWithout(s: string, c: char)
    requires c !in s
    ensures Split(s, c) == [s]
    decreases |s|
  {
    if s != [] {
      SplitWithout(s[1..], c);
      assert s == [s[0]] + s[1..];
    }
  }

  /** Splitting distributes over a separator. */
  lemma {:induction false} SplitAt(a: string, b: string, c: char)
    ensures Split(a + [c] + b, c) == Split(a, c) + Split(b, c)
    decreases |a|
  {
    var s := a + [c] + b;
    if a == [] {
      assert s[1..] == b;
    } else {
      assert s[1..] == a[1..] + [c] + b;
      SplitAt(a[1..], b, c);
    }
  }

  /** The query string is the sequence of `key=value` pieces with nothing
      between them but single `&` separators. */
  lemma {:induction false} SplitJoin(ps: Params)
    requires NoAmp(ps)
    ensures ps != [] ==>
      Split(Join(ps), '&') == seq(|ps|, i requires 0 <= i < |ps| => Pair(ps[i]))
    decreases |ps|
  {
    if ps != [] {
      var last := ps[|ps| - 1];
      assert '&' !in Pair(last);
      SplitWithout(Pair(last), '&');
      if |ps| > 1 {
        var init := ps[..|ps| - 1];
        assert NoAmp(init) by {
          forall i | 0 <= i < |init| ensures '&' !in init[i].0 && '&' !in init[i].1 {
            assert init[i] == ps[i];
          }
        }
        SplitJoin(init);
        SplitAt(Join(init), Pair(last), '&');
      }
    }
  }

  lemma ParsePairOfPair(p: (string, string))
    requires '=' !in p.0 && '=' !in p.1
    ensures ParsePair(Pair(p)) == p
  {
    SplitAt(p.0, p.1, '=');
    SplitWithout(p.0, '=');
    SplitWithout(p.1, '=');
  }

  /** Round trip: with no separator inside any key or value, reading the query
      string back yields the original pairs, in their original order. */
  lemma JoinRoundTrip(ps: Params)
    requires Plain(ps)
    ensures ParseQuery(Join(ps)) == ps
  {
    if ps != [] {
      SplitJoin(ps);
      var r := ParseQuery(Join(ps));
      assert |r| == |ps|;
      forall i | 0 <= i < |ps| ensures r[i] == ps[i] {
        ParsePairOfPair(ps[i]);
      }
    }
  }

  /** The query string starts with the first `key=value` piece and ends with
      the last: no leading `?`, no leading or trailing `&`. */
  lemma {:induction false} JoinEnds(ps: Params)
    requires ps != []
    ensures Pair(ps[0]) <= Join(ps)
    ensures var q, t := Join(ps), Pair(ps[|ps| - 1]); |t| <= |q| && q[|q| - |t|..] == t
    decreases |ps|
  {
    if |ps| > 1 {
      var init := ps[..|ps| - 1];
      JoinEnds(init);
      assert init[0] == ps[0];
    }
  }
}
