/** URL query strings as the sign-in code writes them: `key=value` pairs joined
    by '&', inserted into template literals without percent-encoding. The
    parser is the reading a server applies; the round-trip lemma says the
    server reads back exactly the pairs written, provided no key or value
    contains a separator. */
module Query {

  datatype Param = Param(key: string, value: string)

  function Render(p: Param): string
  {
    p.key + "=" + p.value
  }

  /** `k1=v1&k2=v2&...`; the empty list gives the empty string. */
  function QueryString(ps: seq<Param>): string
  {
    if ps == [] then ""
    else if |ps| == 1 then Render(ps[0])
    else Render(ps[0]) + "&" + QueryString(ps[1..])
  }

  /** A URL made of a base, '?', and a query string. */
  function Url(base: string, ps: seq<Param>): (url: string)
    ensures |url| == |base| + 1 + |QueryString(ps)|
    ensures url[..|base| + 1] == base + "?"
    ensures url[|base| + 1..] == QueryString(ps)
  {
    base + "?" + QueryString(ps)
  }

  /** No separator occurs where it would be misread: keys hold neither '&'
      nor '=', values hold no '&'. */
  predicate Unambiguous(ps: seq<Param>)
  {
    forall i :: 0 <= i < |ps| ==>
      '&' !in ps[i].key && '=' !in ps[i].key && '&' !in ps[i].value
  }

  /** The pieces of `s` between occurrences of `sep`. */
  function Split(s: string, sep: char): (parts: seq<string>)
    ensures |parts| >= 1
    decreases |s|
  {
    if s == [] then [""]
    else
      var rest := Split(s[1..], sep);
      if s[0] == sep then [""] + rest
      else [[s[0]] + rest[0]] + rest[1..]
  }

  /** A `key=value` piece cut at its first '='; a piece without '=' is a key
      with an empty value. */
  function SplitFirst(s: string, sep: char): (kv: (string, string))
    decreases |s|
  {
    if s == [] then ("", "")
    else if s[0] == sep then ("", s[1..])
    else
      var kv := SplitFirst(s[1..], sep);
      ([s[0]] + kv.0, kv.1)
  }

  function ParsePieces(pieces: seq<string>): seq<Param>
  {
    if pieces == [] then []
    else
      var kv := SplitFirst(pieces[0], '=');
      [Param(kv.0, kv.1)] + ParsePieces(pieces[1..])
  }

  /** The pairs a reader finds in a query string. */
  function ParseQuery(q: string): seq<Param>
  {
    if q == [] then [] else ParsePieces(Split(q, '&'))
  }

  lemma {:induction false} SplitWithout(a: string, sep: char)
    requires sep !in a
    ensures Split(a, sep) == [a]
    decreases |a|
  {
    if a != [] {
      SplitWithout(a[1..], sep);
      assert [a[0]] + a[1..] == a;
    }
  }

  lemma {:induction false} SplitAfterFirst(a: string, sep: char, b: string)
    requires sep !in a
    ensures Split(a + [sep] + b, sep) == [a] + Split(b, sep)
    decreases |a|
  {
    if a == [] {
      assert a + [sep] + b == [sep] + b;
      assert ([sep] + b)[1..] == b;
    } else {
      assert (a + [sep] + b)[1..] == a[1..] + [sep] + b;
      SplitAfterFirst(a[1..], sep, b);
      assert [a[0]] + a[1..] == a;
    }
  }

  lemma {:induction false} SplitFirstRendered(k: string, v: string)
    requires '=' !in k
    ensures SplitFirst(k + "=" + v, '=') == (k, v)
    decreases |k|
  {
    if k == [] {
      assert k + "=" + v == ['='] + v;
      assert (['='] + v)[1..] == v;
    } else {
      assert (k + "=" + v)[1..] == k[1..] + "=" + v;
      SplitFirstRendered(k[1..], v);
      assert [k[0]] + k[1..] == k;
    }
  }

  lemma {:induction false} ParsePiecesOfQuery(ps: seq<Param>)
    requires ps != [] && Unambiguous(ps)
    ensures ParsePieces(Split(QueryString(ps), '&')) == ps
    decreases |ps|
  {
    var p := ps[0];
    var r := Render(p);
    assert '&' !in r by {
      assert r == p.key + "=" + p.value;
    }
    SplitFirstRendered(p.key, p.value);
    if |ps| == 1 {
      SplitWithout(r, '&');
    } else {
      var rest := ps[1..];
      assert Unambiguous(rest) by {
        forall i | 0 <= i < |rest|
          ensures '&' !in rest[i].key && '=' !in rest[i].key && '&' !in rest[i].value
        {
          assert rest[i] == ps[i + 1];
        }
      }
      SplitAfterFirst(r, '&', QueryString(rest));
      ParsePiecesOfQuery(rest);
      var pieces := Split(QueryString(ps), '&');
      assert pieces == [r] + Split(QueryString(rest), '&');
      assert pieces[1..] == Split(QueryString(rest), '&');
      assert ps == [p] + rest;
    }
  }

  /** Round trip: a reader recovers exactly the pairs that were written. */
  lemma {:induction false} ParseQueryString(ps: seq<Param>)
    requires Unambiguous(ps)
    ensures ParseQuery(QueryString(ps)) == ps
  {
    if ps != [] {
      assert |Render(ps[0])| >= 1 by {
        assert Render(ps[0]) == ps[0].key + "=" + ps[0].value;
      }
      assert QueryString(ps) != [];
      ParsePiecesOfQuery(ps);
    }
  }
}
