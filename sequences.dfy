/** Generic facts about sequences used by the table model, the row rules and the input checks. */
module Sequences {

  /** No value occurs twice in `s`. */
  predicate Distinct<T(==)>(s: seq<T>) {
    forall i, j :: 0 <= i < j < |s| ==> s[i] != s[j]
  }

  /** `s` is non-decreasing. */
  predicate Ascending(s: seq<int>) {
    forall i, j :: 0 <= i < j < |s| ==> s[i] <= s[j]
  }

  /** `s` is strictly increasing. */
  predicate StrictlyAscending(s: seq<int>) {
    forall i, j :: 0 <= i < j < |s| ==> s[i] < s[j]
  }

  /** The elements of `s` that are not in `drop`, in their original order. */
  function FilterOut<T(==,!new)>(s: seq<T>, drop: seq<T>): (r: seq<T>)
    ensures forall x :: x in r <==> x in s && x !in drop
    ensures Distinct(s) ==> Distinct(r)
    ensures |r| <= |s|
  {
    if s == [] then []
    else
      var rest := FilterOut(s[1..], drop);
      assert Distinct(s) ==> s[0] !in s[1..];
      if s[0] in drop then rest else [s[0]] + rest
  }

  /** Filtering twice is filtering once by both lists. */
  lemma {:induction false} FilterOutTwice<T(!new)>(s: seq<T>, a: seq<T>, b: seq<T>)
    ensures FilterOut(FilterOut(s, a), b) == FilterOut(s, a + b)
  {
    if s != [] {
      FilterOutTwice(s[1..], a, b);
      if s[0] in a {
        assert FilterOut(s, a) == FilterOut(s[1..], a);
      } else {
        assert FilterOut(s, a) == [s[0]] + FilterOut(s[1..], a);
        assert ([s[0]] + FilterOut(s[1..], a))[1..] == FilterOut(s[1..], a);
      }
    }
  }

  /** Filtering out values that do not occur changes nothing. */
  lemma {:induction false} FilterOutAbsent<T(!new)>(s: seq<T>, drop: seq<T>)
    requires forall x :: x in drop ==> x !in s
    ensures FilterOut(s, drop) == s
  {
    if s != [] {
      FilterOutAbsent(s[1..], drop);
      assert [s[0]] + s[1..] == s;
    }
  }

  /** Filtering a concatenation filters each part. */
  lemma {:induction false} FilterOutConcat<T(!new)>(a: seq<T>, b: seq<T>, drop: seq<T>)
    ensures FilterOut(a + b, drop) == FilterOut(a, drop) + FilterOut(b, drop)
  {
    if a != [] {
      FilterOutConcat(a[1..], b, drop);
      assert (a + b)[1..] == a[1..] + b;
    } else {
      assert a + b == b;
    }
  }

  /** The set of the elements of `s`, as Python's `set(nums)` builds it. */
  function Elements<T>(s: seq<T>): set<T> {
    set x | x in s
  }

  /** `len(set(s)) == len(s)` holds exactly when `s` has no duplicate. */
  lemma {:induction false} DistinctIffNoShrink<T>(s: seq<T>)
    ensures |Elements(s)| == |s| <==> Distinct(s)
    ensures |Elements(s)| <= |s|
  {
    if s == [] {
      assert Elements(s) == {};
    } else {
      var rest := s[1..];
      DistinctIffNoShrink(rest);
      assert Elements(s) == {s[0]} + Elements(rest);
      if s[0] in rest {
        assert Elements(s) == Elements(rest);
        var j :| 0 <= j < |rest| && rest[j] == s[0];
        assert s[0] == s[j + 1];
        assert !Distinct(s);
      } else {
        assert |Elements(s)| == |Elements(rest)| + 1;
        if Distinct(rest) {
          forall i, j | 0 <= i < j < |s| ensures s[i] != s[j] {
            if i > 0 {
              assert s[i] == rest[i - 1] && s[j] == rest[j - 1];
            } else {
              assert s[j] == rest[j - 1];
            }
          }
        } else {
          var i, j :| 0 <= i < j < |rest| && rest[i] == rest[j];
          assert s[i + 1] == s[j + 1];
        }
      }
    }
  }

  /** Distinctness and the element set do not depend on the order of the elements. */
  lemma PermutationKeepsElements<T>(s: seq<T>, t: seq<T>)
    requires multiset(s) == multiset(t)
    ensures Elements(s) == Elements(t)
    ensures |s| == |t|
  {
    assert |s| == |multiset(s)| == |multiset(t)| == |t|;
    forall x ensures x in s <==> x in t {
      assert x in s <==> x in multiset(s);
      assert x in t <==> x in multiset(t);
    }
  }
}
