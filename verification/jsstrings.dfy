/** The JavaScript string built-ins the components rely on (`join`, `indexOf`,
    `substring`, `split(c)[0]`, `trim`), over `string` = `seq<char>`. */
module JsStrings {

  /** `xs.join(sep)`. */
  function Join(xs: seq<string>, sep: string): string
  {
    if |xs| == 0 then ""
    else if |xs| == 1 then xs[0]
    else xs[0] + sep + Join(xs[1..], sep)
  }

  /** Joining with a non-empty separator gives the empty string exactly when
      there is nothing to join or the only item is itself empty. */
  lemma {:induction false} JoinEmptyIff(xs: seq<string>, sep: string)
    requires sep != ""
    ensures Join(xs, sep) == "" <==> |xs| == 0 || (|xs| == 1 && xs[0] == "")
  {
    if |xs| >= 2 {
      assert Join(xs, sep) == xs[0] + sep + Join(xs[1..], sep);
      assert |Join(xs, sep)| >= |sep| > 0;
    }
  }

  /** Every item occurs in the join, in order, separated by `sep`:
      the join of `xs + [x]` extends the join of `xs`. */
  lemma {:induction false} JoinSnoc(xs: seq<string>, x: string, sep: string)
    requires |xs| > 0
    ensures Join(xs + [x], sep) == Join(xs, sep) + sep + x
  {
    if |xs| == 1 {
      assert (xs + [x])[1..] == [x];
    } else {
      assert (xs + [x])[1..] == xs[1..] + [x];
      JoinSnoc(xs[1..], x, sep);
    }
  }

  /** `xs.join(sep) || fallback`: an empty join is falsy and yields the fallback. */
  function JoinOr(xs: seq<string>, sep: string, fallback: string): string
  {
    var joined := Join(xs, sep);
    if joined == "" then fallback else joined
  }

  /** With a non-empty separator, the fallback is used exactly when the list is
      empty or holds a single empty item. */
  lemma JoinOrFallbackIff(xs: seq<string>, sep: string, fallback: string)
    requires sep != ""
    ensures |xs| == 0 ==> JoinOr(xs, sep, fallback) == fallback
    ensures (|xs| > 1 || (|xs| == 1 && xs[0] != "")) ==> JoinOr(xs, sep, fallback) == Join(xs, sep)
  {
    JoinEmptyIff(xs, sep);
  }

  /** `s.indexOf(c)`: the first position of `c`, or -1 when it does not occur. */
  function IndexOf(s: string, c: char): (r: int)
    ensures -1 <= r < |s|
    ensures r == -1 <==> c !in s
    ensures r >= 0 ==> s[r] == c && c !in s[..r]
  {
    if |s| == 0 then -1
    else if s[0] == c then 0
    else
      var k := IndexOf(s[1..], c);
      if k == -1 then -1
      else
        assert s[..k + 1] == [s[0]] + s[1..][..k];
        k + 1
  }

  /** The index a `substring` bound is clamped to: below 0 reads as 0, past the
      end as the length. */
  function Clamp(x: int, n: nat): (r: nat)
    ensures r <= n
    ensures 0 <= x <= n ==> r == x
    ensures x < 0 ==> r == 0
    ensures n < x ==> r == n
  {
    if x < 0 then 0 else if x > n then n else x
  }

  /** `s.substring(start, end)`: both bounds are clamped, and when the start is
      past the end the two are swapped. */
  function Substring(s: string, start: int, end: int): string
  {
    var a, b := Clamp(start, |s|), Clamp(end, |s|);
    if a <= b then s[a..b] else s[b..a]
  }

  /** `substring` does not care about the order of its bounds. */
  lemma SubstringSwaps(s: string, start: int, end: int)
    ensures Substring(s, start, end) == Substring(s, end, start)
  {
  }

  /** `s.split(c)[0]`: the text before the first `c`, or all of `s`. */
  function BeforeFirst(s: string, c: char): (r: string)
    ensures c !in r
    ensures r <= s
    ensures c in s ==> |r| < |s| && s[|r|] == c
    ensures c !in s ==> r == s
  {
    var k := IndexOf(s, c);
    if k == -1 then s else s[..k]
  }

  /** ECMAScript WhiteSpace and LineTerminator code points, which `trim` removes. */
  predicate IsWhitespace(ch: char)
  {
    || ch == ' ' || ch == '\t' || ch == '\n' || ch == '\r'
    || ch == '\U{000B}' || ch == '\U{000C}' || ch == '\U{00A0}' || ch == '\U{1680}'
    || ('\U{2000}' <= ch <= '\U{200A}')
    || ch == '\U{2028}' || ch == '\U{2029}' || ch == '\U{202F}' || ch == '\U{205F}'
    || ch == '\U{3000}' || ch == '\U{FEFF}'
  }

  /** Nothing but whitespace (also true of ""). */
  predicate Blank(s: string)
  {
    forall i :: 0 <= i < |s| ==> IsWhitespace(s[i])
  }

  /** `s.trimStart()`: drops the leading whitespace and nothing else. */
  function TrimStart(s: string): (r: string)
    ensures |r| <= |s| && r == s[|s| - |r|..]
    ensures Blank(s[..|s| - |r|])
    ensures r == "" || !IsWhitespace(r[0])
  {
    if |s| > 0 && IsWhitespace(s[0]) then
      var r := TrimStart(s[1..]);
      assert s[..|s| - |r|] == [s[0]] + s[1..][..|s| - 1 - |r|];
      r
    else s
  }

  /** `s.trimEnd()`: drops the trailing whitespace and nothing else. */
  function TrimEnd(s: string): (r: string)
    ensures r <= s
    ensures Blank(s[|r|..])
    ensures r == "" || !IsWhitespace(r[|r| - 1])
  {
    if |s| > 0 && IsWhitespace(s[|s| - 1]) then
      var r := TrimEnd(s[..|s| - 1]);
      assert s[|r|..] == s[..|s| - 1][|r|..] + [s[|s| - 1]];
      r
    else s
  }

  /** `s.trim()`. */
  function Trim(s: string): string
  {
    TrimEnd(TrimStart(s))
  }

  /** A string trims to "" (is falsy after `trim()`) exactly when it is blank. */
  lemma TrimEmptyIff(s: string)
    ensures Trim(s) == "" <==> Blank(s)
  {
    var t := TrimStart(s);
    var k := |s| - |t|;
    assert forall j :: 0 <= j < |t| ==> t[j] == s[k + j];
    assert Blank(t[0..]) ==> Blank(t);
    assert s[..|s|] == s;
  }
}
