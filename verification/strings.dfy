/** String operations the serialisation relies on: `String.prototype.trim`,
    concatenation of a list of pieces, and occurrence of one string inside
    another. */
module Strings {

  /** The code points `trim` removes: WhiteSpace and LineTerminator of
      sections 12.2 and 12.3 of ECMA-262 (TAB, VT, FF, SP, NBSP, ZWNBSP, the
      Unicode space separators, LF, CR, LS and PS). */
  predicate IsWhiteSpace(c: char) {
    || c == '\t' || c == '\U{000B}' || c == '\U{000C}' || c == ' ' || c == '\U{00A0}'
    || c == '\U{FEFF}' || c == '\U{1680}' || ('\U{2000}' <= c <= '\U{200A}')
    || c == '\U{202F}' || c == '\U{205F}' || c == '\U{3000}'
    || c == '\n' || c == '\r' || c == '\U{2028}' || c == '\U{2029}'
  }

  predicate AllWhiteSpace(s: string) {
    forall i :: 0 <= i < |s| ==> IsWhiteSpace(s[i])
  }

  /** Drops the leading white space: what is left is a suffix of `s` that is
      empty or starts with a non-white-space character, and everything dropped
      was white space. */
  function TrimStart(s: string): (r: string)
    ensures |r| <= |s| && r == s[|s| - |r|..]
    ensures forall i :: 0 <= i < |s| - |r| ==> IsWhiteSpace(s[i])
    ensures r != [] ==> !IsWhiteSpace(r[0])
  {
    if s != [] && IsWhiteSpace(s[0]) then
      var r := TrimStart(s[1..]);
      assert forall i :: 1 <= i < |s| - |r| ==> s[i] == s[1..][i - 1];
      r
    else
      s
  }

  /** Drops the trailing white space: what is left is a prefix of `s` that is
      empty or ends with a non-white-space character, and everything dropped
      was white space. */
  function TrimEnd(s: string): (r: string)
    ensures |r| <= |s| && r == s[..|r|]
    ensures forall i :: |r| <= i < |s| ==> IsWhiteSpace(s[i])
    ensures r != [] ==> !IsWhiteSpace(r[|r| - 1])
  {
    if s != [] && IsWhiteSpace(s[|s| - 1]) then
      var r := TrimEnd(s[..|s| - 1]);
      assert forall i :: |r| <= i < |s| - 1 ==> s[i] == s[..|s| - 1][i];
      r
    else
      s
  }

  /** TrimStart drops exactly the longest white-space prefix: if `s[..k]` is
      all white space and `s[k]` is not (or `k` is the end), `k` characters go. */
  lemma {:induction false} TrimStartDropsLongestPrefix(s: string, k: nat)
    requires k <= |s|
    requires forall i :: 0 <= i < k ==> IsWhiteSpace(s[i])
    requires k == |s| || !IsWhiteSpace(s[k])
    ensures TrimStart(s) == s[k..]
    decreases k
  {
    if k > 0 {
      assert forall i :: 0 <= i < k - 1 ==> s[1..][i] == s[i + 1];
      TrimStartDropsLongestPrefix(s[1..], k - 1);
      assert s[1..][k - 1..] == s[k..];
    }
  }

  /** TrimEnd drops exactly the longest white-space suffix. */
  lemma {:induction false} TrimEndDropsLongestSuffix(s: string, m: nat)
    requires m <= |s|
    requires forall i :: m <= i < |s| ==> IsWhiteSpace(s[i])
    requires m == 0 || !IsWhiteSpace(s[m - 1])
    ensures TrimEnd(s) == s[..m]
    decreases |s| - m
  {
    if m < |s| {
      var s' := s[..|s| - 1];
      assert forall i :: m <= i < |s'| ==> s'[i] == s[i];
      TrimEndDropsLongestSuffix(s', m);
      assert s'[..m] == s[..m];
    }
  }

  /** `String.prototype.trim` (section 22.1.3.32 of ECMA-262): what is left
      neither starts nor ends with white space, and nothing is left exactly
      when there was nothing but white space. */
  function Trim(s: string): (r: string)
    ensures r != [] ==> !IsWhiteSpace(r[0]) && !IsWhiteSpace(r[|r| - 1])
    ensures r == [] <==> AllWhiteSpace(s)
  {
    var t := TrimStart(s);
    var r := TrimEnd(t);
    assert r != [] ==> r[0] == t[0];
    assert r == [] ==> t == [];
    assert AllWhiteSpace(s) ==> t == [];
    r
  }

  lemma TrimStartOfPadded(lead: string, rest: string)
    requires AllWhiteSpace(lead)
    requires rest != [] && !IsWhiteSpace(rest[0])
    ensures TrimStart(lead + rest) == rest
  {
    var s := lead + rest;
    assert forall i :: 0 <= i < |lead| ==> s[i] == lead[i];
    assert s[|lead|] == rest[0];
    TrimStartDropsLongestPrefix(s, |lead|);
    assert s[|lead|..] == rest;
  }

  lemma TrimEndOfPadded(body: string, trail: string)
    requires AllWhiteSpace(trail)
    requires body != [] && !IsWhiteSpace(body[|body| - 1])
    ensures TrimEnd(body + trail) == body
  {
    var t := body + trail;
    assert forall i :: |body| <= i < |t| ==> t[i] == trail[i - |body|];
    assert t[|body| - 1] == body[|body| - 1];
    TrimEndDropsLongestSuffix(t, |body|);
    assert t[..|body|] == body;
  }

  /** Trimming removes exactly the white-space padding around a body that
      neither starts nor ends with white space. */
  lemma TrimStripsPadding(lead: string, body: string, trail: string)
    requires AllWhiteSpace(lead) && AllWhiteSpace(trail)
    requires body != [] && !IsWhiteSpace(body[0]) && !IsWhiteSpace(body[|body| - 1])
    ensures Trim(lead + body + trail) == body
  {
    assert lead + body + trail == lead + (body + trail);
    assert (body + trail)[0] == body[0];
    TrimStartOfPadded(lead, body + trail);
    TrimEndOfPadded(body, trail);
  }

  /** The pieces of a list written one after the other. */
  function Concat(parts: seq<string>): string {
    if parts == [] then [] else parts[0] + Concat(parts[1..])
  }

  lemma {:induction false} ConcatLast(parts: seq<string>)
    requires parts != []
    ensures Concat(parts) == Concat(parts[..|parts| - 1]) + parts[|parts| - 1]
    decreases |parts|
  {
    if |parts| > 1 {
      ConcatLast(parts[1..]);
      assert parts[1..][..|parts| - 2] == parts[..|parts| - 1][1..];
    }
  }

  /** `t` occurs in `s` as a contiguous piece. */
  predicate Contains(s: string, t: string) {
    exists i :: 0 <= i <= |s| - |t| && s[i..][..|t|] == t
  }

  /** Every piece of a list occurs in the concatenation of the list. */
  lemma {:induction false} ConcatContainsParts(parts: seq<string>, k: nat)
    requires k < |parts|
    ensures Contains(Concat(parts), parts[k])
    decreases |parts|
  {
    var s := Concat(parts);
    if k == 0 {
      assert s[0..][..|parts[0]|] == parts[0];
    } else {
      ConcatContainsParts(parts[1..], k - 1);
      var rest := Concat(parts[1..]);
      var i :| 0 <= i <= |rest| - |parts[k]| && rest[i..][..|parts[k]|] == parts[k];
      var j := |parts[0]| + i;
      assert s[j..] == rest[i..];
    }
  }

  /** One more part moves from the rest of a concatenation into its head. */
  lemma {:induction false} ConcatPrefixStep(parts: seq<string>, head: string, k: nat)
    requires k < |parts| && Concat(parts) == head + Concat(parts[k..])
    ensures Concat(parts) == (head + parts[k]) + Concat(parts[k + 1..])
  {
    var rest := Concat(parts[k + 1..]);
    assert parts[k..][1..] == parts[k + 1..];
    assert Concat(parts[k..]) == parts[k] + rest;
    assert head + (parts[k] + rest) == (head + parts[k]) + rest;
  }

  /** The first seven parts, joined, open the concatenation. */
  lemma {:induction false} ConcatStartsWithSeven(parts: seq<string>)
    requires |parts| >= 7
    ensures parts[0] + parts[1] + parts[2] + parts[3] + parts[4] + parts[5] + parts[6] <= Concat(parts)
  {
    assert Concat(parts) == [] + Concat(parts[0..]) by { assert parts[0..] == parts; }
    ConcatPrefixStep(parts, [], 0);
    assert [] + parts[0] == parts[0];
    ConcatPrefixStep(parts, parts[0], 1);
    ConcatPrefixStep(parts, parts[0] + parts[1], 2);
    ConcatPrefixStep(parts, parts[0] + parts[1] + parts[2], 3);
    ConcatPrefixStep(parts, parts[0] + parts[1] + parts[2] + parts[3], 4);
    ConcatPrefixStep(parts, parts[0] + parts[1] + parts[2] + parts[3] + parts[4], 5);
    ConcatPrefixStep(parts, parts[0] + parts[1] + parts[2] + parts[3] + parts[4] + parts[5], 6);
  }

  /** Two neighbouring parts occur together, in order, in the concatenation. */
  lemma {:induction false} ConcatContainsAdjacent(parts: seq<string>, k: nat)
    requires k + 1 < |parts|
    ensures Contains(Concat(parts), parts[k] + parts[k + 1])
    decreases |parts|
  {
    var s := Concat(parts);
    if k == 0 {
      assert Concat(parts[1..]) == parts[1] + Concat(parts[2..]) by {
        assert parts[1..][1..] == parts[2..];
      }
      assert s == (parts[0] + parts[1]) + Concat(parts[2..]);
      assert s[0..][..|parts[0] + parts[1]|] == parts[0] + parts[1];
    } else {
      ConcatContainsAdjacent(parts[1..], k - 1);
      var t := parts[k] + parts[k + 1];
      var rest := Concat(parts[1..]);
      var i :| 0 <= i <= |rest| - |t| && rest[i..][..|t|] == t;
      var j := |parts[0]| + i;
      assert s[j..] == rest[i..];
    }
  }

  /** How many times `c` occurs in `s`. */
  function Count(s: string, c: char): (n: nat)
    ensures n <= |s|
    ensures n == 0 <==> c !in s
  {
    if s == [] then 0 else (if s[0] == c then 1 else 0) + Count(s[1..], c)
  }

  lemma {:induction false} CountAppend(a: string, b: string, c: char)
    ensures Count(a + b, c) == Count(a, c) + Count(b, c)
    decreases |a|
  {
    if a != [] {
      CountAppend(a[1..], b, c);
      assert (a + b)[0] == a[0];
      assert (a + b)[1..] == a[1..] + b;
      assert Count(a + b, c) == (if a[0] == c then 1 else 0) + Count((a + b)[1..], c);
    } else {
      assert a + b == b;
    }
  }

  lemma {:induction false} ConcatAppend(a: seq<string>, b: seq<string>)
    ensures Concat(a + b) == Concat(a) + Concat(b)
    decreases |a|
  {
    if a == [] {
      assert a + b == b;
    } else {
      ConcatAppend(a[1..], b);
      assert (a + b)[1..] == a[1..] + b;
    }
  }

  /** A character that occurs in none of the pieces does not occur in their concatenation. */
  lemma {:induction false} ConcatAvoids(parts: seq<string>, c: char)
    requires forall k :: 0 <= k < |parts| ==> c !in parts[k]
    ensures c !in Concat(parts)
    decreases |parts|
  {
    if parts != [] {
      ConcatAvoids(parts[1..], c);
    }
  }
}
