/**
 * The query strings the OAuth requests are built from. The source writes
 * them with f-strings and no percent-encoding: `k1=v1&k2=v2&...`. This module
 * gives that rendering and a reference parser (split on '&', then on the
 * first '='), and proves that parsing gives the parameters back whenever no
 * value contains '&' and no key contains '='.
 */
module UrlQuery {
  import opened Wrappers
  import opened PythonSemantics

  type Param = (string, string)

  /** `k1=v1&k2=v2&...`, in the given order, without escaping. */
  function RenderQuery(params: seq<Param>): string {
    if |params| == 0 then ""
    else if |params| == 1 then params[0].0 + "=" + params[0].1
    else params[0].0 + "=" + params[0].1 + "&" + RenderQuery(params[1..])
  }

  /** A URL: a base that ends the path, '?', and the rendered query. */
  function Url(base: string, params: seq<Param>): string {
    base + "?" + RenderQuery(params)
  }

  /** `s.split(c)`. */
  function Split(s: string, c: char): (parts: seq<string>)
    ensures |parts| > 0
    decreases |s|
  {
    var i := Find(s, c);
    if i < 0 then [s] else [s[..i]] + Split(s[i + 1..], c)
  }

  /** One `key=value` piece; a piece without '=' is a key with an empty value. */
  function ParamOf(piece: string): Param {
    var i := Find(piece, '=');
    if i < 0 then (piece, "") else (piece[..i], piece[i + 1..])
  }

  function ParseQuery(q: string): (params: seq<Param>)
    ensures |params| == |Split(q, '&')|
  {
    var parts := Split(q, '&');
    seq(|parts|, i requires 0 <= i < |parts| => ParamOf(parts[i]))
  }

  /** Everything after the first '?' of a URL. */
  function QueryOf(url: string): string {
    var i := Find(url, '?');
    if i < 0 then "" else url[i + 1..]
  }

  /** The value of the first parameter named `key`. */
  function Lookup(params: seq<Param>, key: string): (v: Option<string>)
    ensures v.Some? <==> exists i :: 0 <= i < |params| && params[i].0 == key
  {
    if |params| == 0 then None
    else if params[0].0 == key then Some(params[0].1)
    else
      var v := Lookup(params[1..], key);
      assert forall i :: 1 <= i < |params| ==> params[i] == params[1..][i - 1];
      v
  }

  /** The value found for a key is that of its first occurrence. */
  lemma {:induction false} LookupFirst(params: seq<Param>, key: string, i: nat)
    requires i < |params| && params[i].0 == key
    requires forall j :: 0 <= j < i ==> params[j].0 != key
    ensures Lookup(params, key) == Some(params[i].1)
  {
    if i > 0 {
      LookupFirst(params[1..], key, i - 1);
    }
  }

  /** Parameters that survive rendering without escaping. */
  predicate Unambiguous(params: seq<Param>) {
    forall i :: 0 <= i < |params| ==>
      '&' !in params[i].0 && '=' !in params[i].0 && '&' !in params[i].1
  }

  lemma SplitWithoutSeparator(s: string, c: char)
    requires c !in s
    ensures Split(s, c) == [s]
  {
  }

  lemma SplitAfterPiece(a: string, b: string, c: char)
    requires c !in a
    ensures Split(a + [c] + b, c) == [a] + Split(b, c)
  {
    var s := a + [c] + b;
    assert s[|a|] == c;
    forall j | 0 <= j < |a| ensures s[j] != c { assert s[j] == a[j]; }
    assert Find(s, c) == |a|;
    assert s[..|a|] == a && s[|a| + 1..] == b;
  }

  lemma ParamOfPiece(k: string, v: string)
    requires '=' !in k
    ensures ParamOf(k + "=" + v) == (k, v)
  {
    var s := k + "=" + v;
    assert s[|k|] == '=';
    forall j | 0 <= j < |k| ensures s[j] != '=' { assert s[j] == k[j]; }
    assert Find(s, '=') == |k|;
    assert s[..|k|] == k && s[|k| + 1..] == v;
  }

  /** Splitting the rendering on '&' gives one `key=value` piece per parameter. */
  lemma {:induction false} SplitRendered(params: seq<Param>)
    requires |params| > 0 && Unambiguous(params)
    ensures |Split(RenderQuery(params), '&')| == |params|
    ensures forall i :: 0 <= i < |params| ==>
      Split(RenderQuery(params), '&')[i] == params[i].0 + "=" + params[i].1
  {
    var piece := params[0].0 + "=" + params[0].1;
    assert '&' !in piece by {
      forall j | 0 <= j < |piece| ensures piece[j] != '&' {
        if j < |params[0].0| { assert piece[j] == params[0].0[j]; }
        else if j > |params[0].0| { assert piece[j] == params[0].1[j - |params[0].0| - 1]; }
      }
    }
    if |params| == 1 {
      SplitWithoutSeparator(piece, '&');
    } else {
      var rest := params[1..];
      assert Unambiguous(rest) by {
        forall i | 0 <= i < |rest| ensures '&' !in rest[i].0 && '=' !in rest[i].0 && '&' !in rest[i].1 {
          assert rest[i] == params[i + 1];
        }
      }
      SplitRendered(rest);
      assert RenderQuery(params) == piece + ['&'] + RenderQuery(rest);
      SplitAfterPiece(piece, RenderQuery(rest), '&');
      forall i | 1 <= i < |params|
        ensures Split(RenderQuery(params), '&')[i] == params[i].0 + "=" + params[i].1
      {
        assert rest[i - 1] == params[i];
      }
    }
  }

  /** Parsing a rendered query gives back the parameters, in order. */
  lemma {:induction false} ParseRenderRoundTrip(params: seq<Param>)
    requires |params| > 0 && Unambiguous(params)
    ensures ParseQuery(RenderQuery(params)) == params
  {
    SplitRendered(params);
    var parsed := ParseQuery(RenderQuery(params));
    forall i | 0 <= i < |params| ensures parsed[i] == params[i] {
      ParamOfPiece(params[i].0, params[i].1);
    }
  }

  /** The query of a URL whose base has no '?' is the rendered query. */
  lemma QueryOfUrl(base: string, params: seq<Param>)
    requires '?' !in base
    ensures QueryOf(Url(base, params)) == RenderQuery(params)
  {
    var u := Url(base, params);
    assert u[|base|] == '?';
    forall j | 0 <= j < |base| ensures u[j] != '?' { assert u[j] == base[j]; }
    assert Find(u, '?') == |base|;
    assert u[|base| + 1..] == RenderQuery(params);
  }
}
