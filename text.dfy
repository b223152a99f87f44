/**
 * The string operations the province search uses: JavaScript's `String.prototype.trim`,
 * `String.prototype.includes` and `Array.prototype.filter` with `includes`.
 */
module Text {

  /** ECMAScript WhiteSpace and LineTerminator code points: what `trim` strips. */
  predicate IsWhitespace(c: char) {
    || c == '\U{0009}' || c == '\U{000A}' || c == '\U{000B}' || c == '\U{000C}'
    || c == '\U{000D}' || c == '\U{0020}' || c == '\U{00A0}' || c == '\U{1680}'
    || ('\U{2000}' <= c <= '\U{200A}')
    || c == '\U{2028}' || c == '\U{2029}' || c == '\U{202F}' || c == '\U{205F}'
    || c == '\U{3000}' || c == '\U{FEFF}'
  }

  /** `s` without its leading whitespace. */
  function TrimStart(s: string): (r: string)
    ensures |r| <= |s| && r == s[|s| - |r|..]
    ensures forall k :: 0 <= k < |s| - |r| ==> IsWhitespace(s[k])
    ensures r == [] || !IsWhitespace(r[0])
  {
    if s != [] && IsWhitespace(s[0]) then TrimStart(s[1..]) else s
  }

  /** `s` without its trailing whitespace. */
  function TrimEnd(s: string): (r: string)
    ensures |r| <= |s| && r == s[..|r|]
    ensures forall k :: |r| <= k < |s| ==> IsWhitespace(s[k])
    ensures r == [] || !IsWhitespace(r[|r| - 1])
  {
    if s != [] && IsWhitespace(s[|s| - 1]) then TrimEnd(s[..|s| - 1]) else s
  }

  /** `r` is `s` from position `i` on, less some whitespace at both ends. */
  ghost predicate TrimmedAt(s: string, r: string, i: int) {
    && 0 <= i <= |s| - |r|
    && r == s[i..i + |r|]
    && (forall k :: 0 <= k < i ==> IsWhitespace(s[k]))
    && (forall k :: i + |r| <= k < |s| ==> IsWhitespace(s[k]))
  }

  /** `s.trim()`: the middle of `s` between its leading and trailing whitespace. */
  function Trim(s: string): (r: string)
    ensures exists i :: TrimmedAt(s, r, i)
    ensures r == [] || (!IsWhitespace(r[0]) && !IsWhitespace(r[|r| - 1]))
  {
    var t := TrimStart(s);
    var r := TrimEnd(t);
    TrimmedInside(s, t, r);
    r
  }

  /** Trimming the end of a suffix `t` of `s` trims `s` at the start of `t`. */
  lemma TrimmedInside(s: string, t: string, r: string)
    requires |t| <= |s| && t == s[|s| - |t|..] && forall k :: 0 <= k < |s| - |t| ==> IsWhitespace(s[k])
    requires |r| <= |t| && r == t[..|r|] && forall k :: |r| <= k < |t| ==> IsWhitespace(t[k])
    ensures TrimmedAt(s, r, |s| - |t|)
  {
    var i := |s| - |t|;
    assert s[i..i + |r|] == t[..|r|];
    forall k | i + |r| <= k < |s| ensures IsWhitespace(s[k]) {
      assert s[k] == t[k - i];
    }
  }

  predicate StartsWith(s: string, prefix: string) {
    |prefix| <= |s| && s[..|prefix|] == prefix
  }

  /** `s.includes(sub)`, scanning the start positions left to right. */
  predicate Contains(s: string, sub: string)
  {
    StartsWith(s, sub) || (s != [] && Contains(s[1..], sub))
  }

  /** `sub` occurs in `s` at position `i`. */
  ghost predicate OccursAt(s: string, sub: string, i: int) {
    0 <= i <= |s| - |sub| && s[i..i + |sub|] == sub
  }

  /** `Contains` finds exactly the substrings of `s`. */
  lemma {:induction false} ContainsIsSubstring(s: string, sub: string)
    ensures Contains(s, sub) <==> exists i :: OccursAt(s, sub, i)
  {
    if s == [] {
      if sub == [] { assert OccursAt(s, sub, 0); }
    } else {
      ContainsIsSubstring(s[1..], sub);
      if StartsWith(s, sub) {
        assert OccursAt(s, sub, 0);
      } else if exists i :: OccursAt(s, sub, i) {
        var i :| OccursAt(s, sub, i);
        assert i != 0;
        assert OccursAt(s[1..], sub, i - 1);
      } else if Contains(s[1..], sub) {
        var i :| OccursAt(s[1..], sub, i);
        assert OccursAt(s, sub, i + 1);
      }
    }
  }

  /** Every string includes the empty string. */
  lemma ContainsEmpty(s: string)
    ensures Contains(s, "")
  {
    assert StartsWith(s, "");
  }

  /** `names.filter(p => p.includes(q))`: every copy of a matching name is kept. */
  function FilterContaining(names: seq<string>, q: string): (r: seq<string>)
    ensures forall x :: multiset(r)[x] == if Contains(x, q) then multiset(names)[x] else 0
    ensures forall x :: x in r <==> x in names && Contains(x, q)
    ensures multiset(r) <= multiset(names)
    ensures |r| <= |names|
  {
    if names == [] then []
    else
      assert names == [names[0]] + names[1..];
      assert multiset(names) == multiset{names[0]} + multiset(names[1..]);
      (if Contains(names[0], q) then [names[0]] else []) + FilterContaining(names[1..], q)
  }

  /** `a` is `b` with some elements left out, the rest kept in order. */
  predicate IsSubsequence(a: seq<string>, b: seq<string>)
  {
    if a == [] then true
    else if b == [] then false
    else if a[0] == b[0] then IsSubsequence(a[1..], b[1..])
    else IsSubsequence(a, b[1..])
  }

  /** Filtering keeps the order of the names it keeps. */
  lemma {:induction false} FilterIsSubsequence(names: seq<string>, q: string)
    ensures IsSubsequence(FilterContaining(names, q), names)
  {
    if names != [] {
      FilterIsSubsequence(names[1..], q);
      var rest := FilterContaining(names[1..], q);
      if Contains(names[0], q) {
        assert ([names[0]] + rest)[1..] == rest;
      } else {
        assert FilterContaining(names, q) == rest;
        SubsequenceOfTail(rest, names);
      }
    }
  }

  lemma {:induction false} SubsequenceOfTail(a: seq<string>, b: seq<string>)
    requires b != []
    requires IsSubsequence(a, b[1..])
    ensures IsSubsequence(a, b)
  {
    if a != [] && a[0] == b[0] {
      SubsequenceDropFirst(a, b[1..]);
    }
  }

  /** Dropping the first element of a subsequence keeps it a subsequence. */
  lemma {:induction false} SubsequenceDropFirst(a: seq<string>, b: seq<string>)
    requires a != []
    requires IsSubsequence(a, b)
    ensures IsSubsequence(a[1..], b)
  {
    if b != [] && a[0] != b[0] {
      SubsequenceDropFirst(a, b[1..]);
      SubsequenceOfTail(a[1..], b);
    } else if b != [] {
      SubsequenceOfTail(a[1..], b);
    }
  }

  /** Filtering with the empty query keeps every name. */
  lemma {:induction false} FilterEmptyQuery(names: seq<string>)
    ensures FilterContaining(names, "") == names
  {
    if names != [] {
      ContainsEmpty(names[0]);
      FilterEmptyQuery(names[1..]);
      assert names == [names[0]] + names[1..];
    }
  }
}
