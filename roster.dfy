/**
 The list operations the relay applies to a channel's participants and to the
 global online list: `includes`/`push` (append when absent) and `filter`
 (remove every copy of one name).
 */
module Roster {

  /** No name occurs twice. */
  predicate NoDups(s: seq<string>) {
    forall i, j :: 0 <= i < j < |s| ==> s[i] != s[j]
  }

  /** `a` is obtained from `b` by deleting elements, the rest keeping their order. */
  predicate Subsequence(a: seq<string>, b: seq<string>)
    decreases |b|
  {
    if a == [] then true
    else if b == [] then false
    else if a[0] == b[0] then Subsequence(a[1..], b[1..])
    else Subsequence(a, b[1..])
  }

  /** `s.filter(u => u !== x)`: every copy of `x` removed. */
  function Without(s: seq<string>, x: string): (r: seq<string>)
    ensures x !in r
    ensures forall y :: y in r <==> y in s && y != x
    ensures |r| <= |s|
    ensures x !in s ==> r == s
  {
    if s == [] then []
    else if s[0] == x then Without(s[1..], x)
    else [s[0]] + Without(s[1..], x)
  }

  /** `if (!s.includes(x)) s.push(x)`, as a value. */
  function AppendIfAbsent(s: seq<string>, x: string): (r: seq<string>)
    ensures x in r
    ensures forall y :: y in r <==> y in s || y == x
    ensures r == s <==> x in s
    ensures x !in s ==> r == s + [x]
    ensures NoDups(s) ==> NoDups(r)
  {
    if x in s then s else s + [x]
  }

  lemma {:induction false} WithoutKeepsNoDups(s: seq<string>, x: string)
    requires NoDups(s)
    ensures NoDups(Without(s, x))
  {
    if s != [] {
      assert NoDups(s[1..]) by {
        forall i, j | 0 <= i < j < |s[1..]| ensures s[1..][i] != s[1..][j] {
          assert s[1..][i] == s[i + 1] && s[1..][j] == s[j + 1];
        }
      }
      WithoutKeepsNoDups(s[1..], x);
      if s[0] != x {
        var w := Without(s[1..], x);
        assert s[0] !in s[1..] by {
          forall k | 0 <= k < |s[1..]| ensures s[1..][k] != s[0] {
            assert s[1..][k] == s[k + 1];
          }
        }
        assert s[0] !in w;
        var r := [s[0]] + w;
        forall i, j | 0 <= i < j < |r| ensures r[i] != r[j] {
          assert r[j] == w[j - 1];
          if i > 0 {
            assert r[i] == w[i - 1];
          }
        }
      }
    }
  }

  /** Removing one name keeps every other name, in its relative order. */
  lemma {:induction false} WithoutIsSubsequence(s: seq<string>, x: string)
    ensures Subsequence(Without(s, x), s)
  {
    if s != [] {
      var w := Without(s[1..], x);
      WithoutIsSubsequence(s[1..], x);
      if s[0] == x {
        if w != [] {
          assert w[0] in w;
          assert w[0] != s[0];
        }
      } else {
        var r := [s[0]] + w;
        assert r[0] == s[0] && r[1..] == w;
      }
    }
  }

  /** Removing one name removes all of its copies and changes no other count. */
  lemma {:induction false} WithoutCounts(s: seq<string>, x: string)
    ensures multiset(Without(s, x)) == multiset(s)[x := 0]
  {
    if s == [] {
    } else {
      assert s == [s[0]] + s[1..];
      WithoutCounts(s[1..], x);
      if s[0] == x {
        assert multiset(s) == multiset{s[0]} + multiset(s[1..]);
      } else {
        assert multiset([s[0]] + Without(s[1..], x)) == multiset{s[0]} + multiset(Without(s[1..], x));
        assert multiset(s) == multiset{s[0]} + multiset(s[1..]);
      }
    }
  }
}
