/** The few JavaScript built-ins the modelled code relies on: strict
    equality search in an array, `String.prototype.indexOf`, `substring`,
    `trim`, and the first element of `split(';')`. */
module Js {

  /** JavaScript values as far as `===` tells apart the ones compared here:
      a number, or a one-column row object such as `{ port: 5000 }` as the
      sqlite driver returns it. Strict equality never equates a number with
      an object. */
  datatype JsValue = Number(n: int) | ColumnRecord(column: string, value: int)

  /** `values.indexOf(x)`: the first position holding `x`, or -1. */
  function IndexOfValue(values: seq<JsValue>, x: JsValue): (r: int)
    ensures r == -1 <==> x !in values
    ensures r != -1 ==> 0 <= r < |values| && values[r] == x && x !in values[..r]
  {
    if values == [] then -1
    else if values[0] == x then 0
    else
      var k := IndexOfValue(values[1..], x);
      assert values[1..][..k + 1] == values[1..k + 2] by {
        if k != -1 { assert values[1..][..k + 1] == values[1..][..k + 1]; }
      }
      if k == -1 then -1 else k + 1
  }

  /** `m` occurs in `s` starting at position `i`. */
  predicate OccursAt(s: string, m: string, i: nat) {
    i + |m| <= |s| && s[i..i + |m|] == m
  }

  /** `m` is a substring of `s`. */
  predicate Contains(s: string, m: string) {
    exists i: nat :: i <= |s| && OccursAt(s, m, i)
  }

  lemma OccursAtTail(s: string, m: string)
    requires s != []
    ensures forall i: nat :: OccursAt(s, m, i + 1) <==> OccursAt(s[1..], m, i)
  {
    forall i: nat ensures OccursAt(s, m, i + 1) <==> OccursAt(s[1..], m, i) {
      if i + 1 + |m| <= |s| {
        assert s[1..][i..i + |m|] == s[i + 1..i + 1 + |m|];
      }
    }
  }

  /** `s.indexOf(m)`: the first position where `m` occurs, or -1. */
  function IndexOf(s: string, m: string): (r: int)
    ensures r == -1 <==> !Contains(s, m)
    ensures r != -1 ==> 0 <= r && OccursAt(s, m, r) && forall j: nat :: j < r ==> !OccursAt(s, m, j)
    decreases |s|
  {
    if OccursAt(s, m, 0) then 0
    else if s == [] then -1
    else
      OccursAtTail(s, m);
      var k := IndexOf(s[1..], m);
      assert k == -1 ==> forall i: nat :: !OccursAt(s, m, i) by {
        if k == -1 {
          forall i: nat ensures !OccursAt(s, m, i) {
            if i > 0 { assert !OccursAt(s[1..], m, i - 1); }
          }
        }
      }
      assert k != -1 ==> forall j: nat :: j < k + 1 ==> !OccursAt(s, m, j) by {
        if k != -1 {
          forall j: nat | j < k + 1 ensures !OccursAt(s, m, j) {
            if j > 0 { assert !OccursAt(s[1..], m, j - 1); }
          }
        }
      }
      if k == -1 then -1 else k + 1
  }

  /** `s.indexOf(m) === 0` holds exactly when `s` starts with `m`. */
  lemma IndexOfZeroIffPrefix(s: string, m: string)
    ensures IndexOf(s, m) == 0 <==> m <= s
  {
    if m <= s { assert s[0..|m|] == m; }
  }

  /** `s.indexOf(c) === -1` for a one-character `c` holds exactly when the
      character does not occur in `s`. */
  lemma IndexOfCharAbsent(s: string, c: char)
    ensures IndexOf(s, [c]) == -1 <==> c !in s
  {
    if c in s {
      var i :| 0 <= i < |s| && s[i] == c;
      assert OccursAt(s, [c], i);
    } else {
      forall i: nat ensures !OccursAt(s, [c], i) {
        if i + 1 <= |s| { assert s[i..i + 1][0] == s[i]; }
      }
    }
  }

  /** `s.substring(k)` for a non-negative `k`: the suffix from `k`, or ""
      when `k` is past the end. */
  function Substring(s: string, k: nat): (r: string)
    ensures k <= |s| ==> s == s[..k] + r
    ensures k >= |s| ==> r == ""
  {
    if k <= |s| then s[k..] else ""
  }

  /** The characters `String.prototype.trim` removes: WhiteSpace and
      LineTerminator of the ECMAScript standard. */
  predicate IsJsSpace(c: char) {
    || c == '\t' || c == '\n' || c == '\U{B}' || c == '\U{C}' || c == '\r'
    || c == ' ' || c == '\U{A0}' || c == '\U{1680}'
    || ('\U{2000}' <= c <= '\U{200A}')
    || c == '\U{2028}' || c == '\U{2029}' || c == '\U{202F}' || c == '\U{205F}'
    || c == '\U{3000}' || c == '\U{FEFF}'
  }

  predicate AllSpace(s: string) {
    forall i :: 0 <= i < |s| ==> IsJsSpace(s[i])
  }

  function TrimStart(s: string): (r: string)
    ensures |r| <= |s| && r == s[|s| - |r|..] && AllSpace(s[..|s| - |r|])
    ensures r != [] ==> !IsJsSpace(r[0])
  {
    if s != [] && IsJsSpace(s[0]) then
      var r := TrimStart(s[1..]);
      assert s[..|s| - |r|] == [s[0]] + s[1..][..|s[1..]| - |r|];
      r
    else s
  }

  function TrimEnd(s: string): (r: string)
    ensures |r| <= |s| && r == s[..|r|] && AllSpace(s[|r|..])
    ensures r != [] ==> !IsJsSpace(r[|r| - 1])
  {
    if s != [] && IsJsSpace(s[|s| - 1]) then
      var r := TrimEnd(s[..|s| - 1]);
      assert s[|r|..] == s[..|s| - 1][|r|..] + [s[|s| - 1]];
      r
    else s
  }

  /** `s.trim()`: `s` without its leading and trailing white space. */
  function Trim(s: string): (r: string)
    ensures r != [] ==> !IsJsSpace(r[0]) && !IsJsSpace(r[|r| - 1])
  {
    TrimEnd(TrimStart(s))
  }

  /** Trimming white space around a text that neither starts nor ends with
      white space gives back that text. */
  lemma {:induction false} TrimAround(pre: string, t: string, post: string)
    requires AllSpace(pre) && AllSpace(post)
    requires t != [] ==> !IsJsSpace(t[0]) && !IsJsSpace(t[|t| - 1])
    ensures Trim(pre + t + post) == t
  {
    if t == [] {
      assert pre + t + post == (pre + post) + [];
      TrimStartSpaces(pre + post, []);
    } else {
      assert pre + t + post == pre + (t + post);
      TrimStartSpaces(pre, t + post);
      TrimEndSpaces(t, post);
    }
  }

  lemma {:induction false} TrimStartSpaces(pre: string, rest: string)
    requires AllSpace(pre)
    requires rest != [] ==> !IsJsSpace(rest[0])
    ensures TrimStart(pre + rest) == rest
    decreases |pre|
  {
    if pre == [] {
      assert pre + rest == rest;
    } else {
      assert (pre + rest)[1..] == pre[1..] + rest;
      TrimStartSpaces(pre[1..], rest);
    }
  }

  lemma {:induction false} TrimEndSpaces(rest: string, post: string)
    requires AllSpace(post)
    requires rest != [] ==> !IsJsSpace(rest[|rest| - 1])
    ensures TrimEnd(rest + post) == rest
    decreases |post|
  {
    if post == [] {
      assert rest + post == rest;
    } else {
      var n := |rest + post|;
      assert (rest + post)[..n - 1] == rest + post[..|post| - 1];
      TrimEndSpaces(rest, post[..|post| - 1]);
    }
  }

  /** `s.split(sep)[0]`: the text before the first `sep`, or all of `s`. */
  function FirstSegment(s: string, sep: char): (r: string)
    ensures r <= s && sep !in r
    ensures |r| < |s| ==> s[|r|] == sep
  {
    if s == [] || s[0] == sep then "" else [s[0]] + FirstSegment(s[1..], sep)
  }

  /** Only the text before the first separator decides the first segment. */
  lemma {:induction false} FirstSegmentOfJoin(a: string, b: string, sep: char)
    requires sep !in a
    ensures FirstSegment(a + [sep] + b, sep) == a
  {
    if a == [] {
      assert (a + [sep] + b)[0] == sep;
    } else {
      assert (a + [sep] + b)[1..] == a[1..] + [sep] + b;
      FirstSegmentOfJoin(a[1..], b, sep);
    }
  }
}
