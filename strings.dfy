/** Text helpers with the meaning of the Python and JavaScript string
    operations the source uses (`startswith`, `replace`, `split`, `join`,
    `str(int)`, slicing). Strings are sequences of characters. */
module Strings {

  predicate StartsWith(s: string, prefix: string) {
    |prefix| <= |s| && s[..|prefix|] == prefix
  }

  predicate EndsWith(s: string, suffix: string) {
    |suffix| <= |s| && s[|s| - |suffix|..] == suffix
  }

  /** Python `s.replace(c, "")` for a one-character `c`: every occurrence goes. */
  function RemoveChar(s: string, c: char): (r: string)
    ensures c !in r
    ensures forall x :: x in r <==> x in s && x != c
    ensures |r| <= |s|
  {
    if s == [] then []
    else if s[0] == c then RemoveChar(s[1..], c)
    else [s[0]] + RemoveChar(s[1..], c)
  }

  /** Index of the first occurrence of `c` in `s`. */
  function IndexOf(s: string, c: char): (i: nat)
    requires c in s
    ensures i < |s| && s[i] == c && c !in s[..i]
  {
    if s[0] == c then 0 else IndexOf(s[1..], c) + 1
  }

  /** Python `s.split(c)` for a one-character separator `c`. */
  function Split(s: string, c: char): (parts: seq<string>)
    ensures |parts| >= 1
    decreases |s|
  {
    if c !in s then [s]
    else
      var i := IndexOf(s, c);
      [s[..i]] + Split(s[i + 1..], c)
  }

  /** The text before the first `c`, or all of `s` when it has none. */
  function Before(s: string, c: char): (r: string)
    ensures c !in r && StartsWith(s, r)
  {
    if c in s then s[..IndexOf(s, c)] else s
  }

  /** The text after the first `c`. */
  function After(s: string, c: char): string
    requires c in s
  {
    s[IndexOf(s, c) + 1..]
  }

  /** `split` yields the text before the first separator first, and the text
      between the first and the second separator next. */
  lemma SplitParts(s: string, c: char)
    ensures Split(s, c)[0] == Before(s, c)
    ensures c in s ==> |Split(s, c)| >= 2 && Split(s, c)[1] == Before(After(s, c), c)
  {
    if c in s {
      var i := IndexOf(s, c);
      var rest := s[i + 1..];
      assert Split(s, c) == [s[..i]] + Split(rest, c);
      if c in rest {
        assert Split(rest, c)[0] == rest[..IndexOf(rest, c)];
      }
    }
  }

  /** Python `sep.join(parts)`. */
  function Join(sep: string, parts: seq<string>): (r: string)
  {
    if parts == [] then ""
    else if |parts| == 1 then parts[0]
    else parts[0] + sep + Join(sep, parts[1..])
  }

  /** A non-empty join ends with its last part. */
  lemma {:induction false} JoinEndsWithLast(sep: string, parts: seq<string>)
    requires parts != []
    ensures EndsWith(Join(sep, parts), parts[|parts| - 1])
  {
    if |parts| > 1 {
      JoinEndsWithLast(sep, parts[1..]);
      var tail := Join(sep, parts[1..]);
      var last := parts[|parts| - 1];
      var pre := parts[0] + sep;
      assert Join(sep, parts) == pre + tail;
      assert tail[|tail| - |last|..] == last;
      assert (pre + tail)[|pre + tail| - |last|..] == tail[|tail| - |last|..];
    }
  }

  /** A concatenation ends with its second part. */
  lemma EndsWithConcat(a: string, b: string)
    ensures EndsWith(a + b, b)
  {
    assert (a + b)[|a + b| - |b|..] == b;
  }

  /** Text put in front keeps a suffix. */
  lemma EndsWithPrepend(a: string, b: string, suffix: string)
    requires EndsWith(b, suffix)
    ensures EndsWith(a + b, suffix)
  {
    assert (a + b)[|a + b| - |suffix|..] == b[|b| - |suffix|..];
  }

  lemma ConcatAssoc(a: string, b: string, c: string)
    ensures a + b + c == a + (b + c)
  {
  }

  /** If `t` is `pre + s` and the last characters of `pre` and `w` differ,
      `t` does not end with `w + s`. */
  lemma NoOtherSuffix(t: string, pre: string, s: string, w: string)
    requires t == pre + s && |pre| > 0 && |w| > 0
    requires pre[|pre| - 1] != w[|w| - 1]
    ensures !EndsWith(t, w + s)
  {
    if |w + s| <= |t| {
      var k := |t| - |s| - 1;
      assert t[k] == pre[|pre| - 1];
      assert t[|t| - |w + s|..][|w| - 1] == t[k];
      assert (w + s)[|w| - 1] == w[|w| - 1];
    }
  }

  /** The last character of a concatenation with a non-empty second part. */
  lemma LastOfConcat(a: string, b: string)
    requires |b| > 0
    ensures |a + b| > 0 && (a + b)[|a + b| - 1] == b[|b| - 1]
  {
  }

  /** A join ends with the last character of its last part. */
  lemma JoinLastChar(sep: string, parts: seq<string>)
    requires parts != [] && |parts[|parts| - 1]| > 0
    ensures var j := Join(sep, parts); |j| > 0 && j[|j| - 1] == parts[|parts| - 1][|parts[|parts| - 1]| - 1]
  {
    JoinEndsWithLast(sep, parts);
    var j, last := Join(sep, parts), parts[|parts| - 1];
    assert j[|j| - |last|..][|last| - 1] == last[|last| - 1];
  }

  function DigitChar(d: nat): char
    requires d < 10
  {
    "0123456789"[d]
  }

  /** Python `str(n)` for a natural number. */
  function NatToString(n: nat): (r: string)
    ensures |r| >= 1
    decreases n
  {
    if n < 10 then [DigitChar(n)] else NatToString(n / 10) + [DigitChar(n % 10)]
  }

  /** Python `str(i)` for an integer: a minus sign, then the digits. */
  function IntToString(i: int): (r: string)
    ensures |r| >= 1
  {
    if i < 0 then "-" + NatToString(-i) else NatToString(i)
  }
}
