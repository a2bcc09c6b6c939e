/**
 * The few pieces of Python's built-in behaviour the modelled code relies on:
 * truthiness, f-string rendering of an optional value, `str(int)`,
 * `str.lower`, `str.join` and `os.path.splitext` / `os.path.join` on POSIX.
 */
module PythonSemantics {
  import opened Wrappers

  /** `bool(x)` for an optional string: absent, None and "" are falsy. */
  predicate Truthy(o: Option<string>) {
    o.Some? && o.value != ""
  }

  /** `bool(xs)` for an optional list: absent, None and [] are falsy. */
  predicate NonEmpty<T>(o: Option<seq<T>>) {
    o.Some? && |o.value| > 0
  }

  /** How an f-string renders an optional string: None becomes "None". */
  function Render(o: Option<string>): (r: string)
    ensures o.Some? ==> r == o.value
    ensures o.None? ==> r == "None"
  {
    match o
    case Some(s) => s
    case None => "None"
  }

  function Digit(d: nat): (c: char)
    requires d < 10
    ensures '0' <= c <= '9'
  {
    "0123456789"[d]
  }

  /** `str(n)` for a non-negative integer: decimal digits, no leading zero. */
  function NatToString(n: nat): (s: string)
    ensures |s| > 0
    ensures forall i :: 0 <= i < |s| ==> '0' <= s[i] <= '9'
    ensures |s| > 1 ==> s[0] != '0'
  {
    if n < 10 then [Digit(n)] else NatToString(n / 10) + [Digit(n % 10)]
  }

  function LowerChar(c: char): char {
    if 'A' <= c <= 'Z' then (c as int - 'A' as int + 'a' as int) as char else c
  }

  /** `s.lower()` restricted to ASCII letters. */
  function Lower(s: string): (r: string)
    ensures |r| == |s|
    ensures forall i :: 0 <= i < |s| ==> r[i] == LowerChar(s[i])
  {
    seq(|s|, i requires 0 <= i < |s| => LowerChar(s[i]))
  }

  /** `s.rfind(c)`: the last index holding c, or -1. */
  function RFind(s: string, c: char): (i: int)
    ensures -1 <= i < |s|
    ensures i >= 0 ==> s[i] == c
    ensures forall j :: i < j < |s| ==> s[j] != c
  {
    if |s| == 0 then -1
    else if s[|s| - 1] == c then |s| - 1
    else RFind(s[..|s| - 1], c)
  }

  /** `s.find(c)`: the first index holding c, or -1. */
  function Find(s: string, c: char): (i: int)
    ensures -1 <= i < |s|
    ensures i >= 0 ==> s[i] == c
    ensures forall j :: 0 <= j < |s| && (i < 0 || j < i) ==> s[j] != c
  {
    if |s| == 0 then -1
    else if s[0] == c then 0
    else var k := Find(s[1..], c); if k < 0 then -1 else k + 1
  }

  /** The last index before `end` whose character is not c, or -1. */
  function RFindOther(s: string, c: char, end: int): (i: int)
    requires 0 <= end <= |s|
    ensures -1 <= i < end
    ensures i >= 0 ==> s[i] != c
    ensures forall j :: i < j < end ==> s[j] == c
    decreases end
  {
    if end == 0 then -1
    else if s[end - 1] != c then end - 1
    else RFindOther(s, c, end - 1)
  }

  /**
   * `os.path.splitext(p)` on POSIX: the extension starts at the last '.'
   * after the last '/', unless everything between that '/' and the dot is
   * dots (a leading-dot name such as ".png" has no extension).
   */
  function SplitExt(p: string): (r: (string, string))
    ensures r.0 + r.1 == p
  {
    var sep := RFind(p, '/');
    var dot := RFind(p, '.');
    if dot > sep && RFindOther(p, '.', dot) > sep then (p[..dot], p[dot..]) else (p, "")
  }

  /** An extension is empty, or starts with its only '.' and holds no '/'. */
  lemma ExtensionShape(p: string)
    ensures var ext := SplitExt(p).1;
      ext == "" || (ext[0] == '.' && '.' !in ext[1..] && '/' !in ext)
  {
    var sep := RFind(p, '/');
    var dot := RFind(p, '.');
    if dot > sep && RFindOther(p, '.', dot) > sep {
      var ext := p[dot..];
      assert forall j :: 0 <= j < |ext| ==> ext[j] == p[dot + j];
      assert forall j :: 1 <= j < |ext| ==> ext[j] != '.';
      assert forall j :: 0 <= j < |ext[1..]| ==> ext[1..][j] == ext[j + 1];
    }
  }

  /** `os.path.splitext(p)[1]`. */
  function Extension(p: string): string {
    SplitExt(p).1
  }

  /**
   * A name with a non-empty stem free of '/' and '.' followed by a suffix
   * that starts with its only '.' has exactly that suffix as extension.
   */
  lemma {:induction false} ExtensionOfStemAndSuffix(stem: string, suffix: string)
    requires stem != "" && '/' !in stem && '.' !in stem
    requires |suffix| > 0 && suffix[0] == '.' && '.' !in suffix[1..] && '/' !in suffix
    ensures Extension(stem + suffix) == suffix
  {
    var p := stem + suffix;
    var sep := RFind(p, '/');
    var dot := RFind(p, '.');
    assert p[|stem|] == '.';
    forall j | 0 <= j < |p| ensures p[j] != '/' {
      if j < |stem| { assert p[j] == stem[j]; } else { assert p[j] == suffix[j - |stem|]; }
    }
    assert sep == -1;
    forall j | |stem| < j < |p| ensures p[j] != '.' {
      assert p[j] == suffix[1..][j - |stem| - 1];
    }
    assert dot == |stem|;
    assert p[|stem| - 1] == stem[|stem| - 1] && stem[|stem| - 1] != '.';
    assert RFindOther(p, '.', dot) > sep;
    assert p[..dot] == stem && p[dot..] == suffix;
  }

  /** `sep.join(xs)`. */
  function Join(sep: string, xs: seq<string>): string {
    if |xs| == 0 then ""
    else if |xs| == 1 then xs[0]
    else xs[0] + sep + Join(sep, xs[1..])
  }

  /** Where the i-th item starts inside `sep.join(xs)`. */
  function Offset(sep: string, xs: seq<string>, i: nat): nat
    requires i <= |xs|
  {
    if i == 0 then 0 else |xs[0]| + |sep| + Offset(sep, xs[1..], i - 1)
  }

  /** A slice that lies past a prefix is a slice of what follows it. */
  lemma SliceAfterPrefix(a: string, b: string, lo: nat, hi: nat)
    requires lo <= hi <= |b|
    ensures (a + b)[|a| + lo..|a| + hi] == b[lo..hi]
  {
    forall k | 0 <= k < hi - lo
      ensures (a + b)[|a| + lo..|a| + hi][k] == b[lo..hi][k]
    {
      assert (a + b)[|a| + lo + k] == b[lo + k];
    }
  }

  /** The head item and the separator after it open `sep.join(xs)`. */
  lemma JoinHead(sep: string, xs: seq<string>)
    requires |xs| > 1
    ensures Join(sep, xs) == (xs[0] + sep) + Join(sep, xs[1..])
    ensures Join(sep, xs)[..|xs[0]|] == xs[0]
    ensures Join(sep, xs)[|xs[0]|..|xs[0]| + |sep|] == sep
  {
    var j := Join(sep, xs);
    assert j == xs[0] + sep + Join(sep, xs[1..]);
    assert j[..|xs[0]|] == xs[0];
    assert j[|xs[0]|..|xs[0]| + |sep|] == sep;
  }

  /** The i-th item of `sep.join(xs)` sits at its offset. */
  lemma {:induction false} JoinItemAt(sep: string, xs: seq<string>, i: nat)
    requires i < |xs|
    ensures Offset(sep, xs, i) + |xs[i]| <= |Join(sep, xs)|
    ensures Join(sep, xs)[Offset(sep, xs, i)..Offset(sep, xs, i) + |xs[i]|] == xs[i]
  {
    if |xs| == 1 {
    } else if i == 0 {
      JoinHead(sep, xs);
    } else {
      JoinHead(sep, xs);
      JoinItemAt(sep, xs[1..], i - 1);
      var head := xs[0] + sep;
      var o := Offset(sep, xs[1..], i - 1);
      assert xs[1..][i - 1] == xs[i];
      assert Offset(sep, xs, i) == |head| + o;
      SliceAfterPrefix(head, Join(sep, xs[1..]), o, o + |xs[i]|);
    }
  }

  /** The separator follows every item but the last. */
  lemma {:induction false} JoinSeparatorAfter(sep: string, xs: seq<string>, i: nat)
    requires i + 1 < |xs|
    ensures Offset(sep, xs, i) + |xs[i]| + |sep| <= |Join(sep, xs)|
    ensures Join(sep, xs)[Offset(sep, xs, i) + |xs[i]|..Offset(sep, xs, i) + |xs[i]| + |sep|] == sep
  {
    JoinHead(sep, xs);
    if i > 0 {
      JoinSeparatorAfter(sep, xs[1..], i - 1);
      var head := xs[0] + sep;
      var o := Offset(sep, xs[1..], i - 1);
      assert xs[1..][i - 1] == xs[i];
      assert Offset(sep, xs, i) == |head| + o;
      SliceAfterPrefix(head, Join(sep, xs[1..]), o + |xs[i]|, o + |xs[i]| + |sep|);
    }
  }

  /**
   * `sep.join(xs)` holds every item, in order, at its offset, with the
   * separator between an item and the next one.
   */
  lemma JoinKeepsItemsInOrder(sep: string, xs: seq<string>, i: nat)
    requires i < |xs|
    ensures Offset(sep, xs, i) + |xs[i]| <= |Join(sep, xs)|
    ensures Join(sep, xs)[Offset(sep, xs, i)..Offset(sep, xs, i) + |xs[i]|] == xs[i]
    ensures i + 1 < |xs| ==>
      Offset(sep, xs, i) + |xs[i]| + |sep| <= |Join(sep, xs)| &&
      Join(sep, xs)[Offset(sep, xs, i) + |xs[i]|..Offset(sep, xs, i) + |xs[i]| + |sep|] == sep
  {
    JoinItemAt(sep, xs, i);
    if i + 1 < |xs| {
      JoinSeparatorAfter(sep, xs, i);
    }
  }

  /** `os.path.join(dir, name)` for a directory without a trailing '/'. */
  function PathJoin(dir: string, name: string): (r: string)
    ensures |name| > 0 && name[0] == '/' ==> r == name
    ensures (|name| == 0 || name[0] != '/') ==> r == dir + "/" + name
  {
    if |name| > 0 && name[0] == '/' then name else dir + "/" + name
  }
}
