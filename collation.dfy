/**
 * The sort of the name-listing queries (`getProvinces`, `getDistricts`, `getSubDistricts`,
 * and `findProvinceByName` through `getProvinces`):
 * `names.sort((a, b) => a.localeCompare(b, "th"))`.
 * Thai collation is not modelled; `le(a, b)` stands for `a.localeCompare(b, "th") <= 0`
 * and is only assumed to be a total preorder (distinct names may compare equal).
 */
module Collation {

  ghost predicate TotalPreorder(le: (string, string) -> bool) {
    && (forall a, b :: le(a, b) || le(b, a))
    && (forall a, b, c :: le(a, b) && le(b, c) ==> le(a, c))
  }

  ghost predicate Sorted(le: (string, string) -> bool, s: seq<string>) {
    forall i, j :: 0 <= i < j < |s| ==> le(s[i], s[j])
  }

  predicate NoDuplicates(s: seq<string>) {
    forall i, j :: 0 <= i < j < |s| ==> s[i] != s[j]
  }

  /** Puts `x` in front of the first element it does not follow. */
  function Insert(le: (string, string) -> bool, x: string, s: seq<string>): (r: seq<string>)
    ensures multiset(r) == multiset(s) + multiset{x}
  {
    if s == [] then [x]
    else if le(x, s[0]) then [x] + s
    else
      assert s == [s[0]] + s[1..];
      [s[0]] + Insert(le, x, s[1..])
  }

  /** Inserting into a sorted sequence keeps it sorted. */
  lemma {:induction false} InsertSorted(le: (string, string) -> bool, x: string, s: seq<string>)
    ensures TotalPreorder(le) && Sorted(le, s) ==> Sorted(le, Insert(le, x, s))
  {
    if TotalPreorder(le) && Sorted(le, s) && s != [] && !le(x, s[0]) {
      var tail := s[1..];
      var rest := Insert(le, x, tail);
      assert Sorted(le, tail);
      InsertSorted(le, x, tail);
      HeadBelowInsert(le, x, s);
      var r := [s[0]] + rest;
      forall i, j | 0 <= i < j < |r| ensures le(r[i], r[j]) {
        if i == 0 {
          assert r[j] == rest[j - 1];
        } else {
          assert r[i] == rest[i - 1] && r[j] == rest[j - 1];
        }
      }
    }
  }

  /** The head of a sorted `s` that `x` does not precede precedes all of `Insert(x, s[1..])`. */
  lemma HeadBelowInsert(le: (string, string) -> bool, x: string, s: seq<string>)
    requires TotalPreorder(le) && Sorted(le, s) && s != [] && !le(x, s[0])
    ensures forall k :: 0 <= k < |Insert(le, x, s[1..])| ==> le(s[0], Insert(le, x, s[1..])[k])
  {
    var rest := Insert(le, x, s[1..]);
    assert le(s[0], x);
    forall k | 0 <= k < |rest| ensures le(s[0], rest[k]) {
      var y := rest[k];
      assert y in multiset(rest);
      if y != x {
        assert y in multiset(s[1..]);
        var m :| 0 <= m < |s[1..]| && s[1..][m] == y;
        assert s[m + 1] == y;
      }
    }
  }

  /** Insertion sort: a sorted permutation of `s`. */
  function SortBy(le: (string, string) -> bool, s: seq<string>): (r: seq<string>)
    ensures multiset(r) == multiset(s)
    ensures |r| == |s|
    ensures TotalPreorder(le) ==> Sorted(le, r)
  {
    if s == [] then []
    else
      var rest := SortBy(le, s[1..]);
      assert s == [s[0]] + s[1..];
      assert |rest| == |multiset(rest)| == |multiset(s[1..])| == |s[1..]|;
      InsertSorted(le, s[0], rest);
      Insert(le, s[0], rest)
  }

  /** Duplicate-freedom is a property of the multiset alone. */
  lemma {:induction false} NoDuplicatesByCount(s: seq<string>)
    ensures NoDuplicates(s) <==> forall x :: multiset(s)[x] <= 1
  {
    if s != [] {
      var t := s[1..];
      assert s == [s[0]] + t;
      NoDuplicatesByCount(t);
      if NoDuplicates(s) {
        assert NoDuplicates(t) by {
          forall i, j | 0 <= i < j < |t| ensures t[i] != t[j] {
            assert t[i] == s[i + 1] && t[j] == s[j + 1];
          }
        }
        assert s[0] !in t;
      } else {
        var i, j :| 0 <= i < j < |s| && s[i] == s[j];
        if i == 0 {
          assert s[0] in t by { assert t[j - 1] == s[j]; }
          assert multiset(s)[s[0]] == 1 + multiset(t)[s[0]];
        } else {
          assert t[i - 1] == t[j - 1];
          assert !NoDuplicates(t);
          var x :| multiset(t)[x] > 1;
          assert multiset(s)[x] >= multiset(t)[x];
        }
      }
    }
  }

  /** A permutation of a duplicate-free sequence is duplicate-free. */
  lemma PermutationKeepsNoDuplicates(a: seq<string>, b: seq<string>)
    requires multiset(a) == multiset(b)
    requires NoDuplicates(a)
    ensures NoDuplicates(b)
  {
    NoDuplicatesByCount(a);
    NoDuplicatesByCount(b);
  }
}
