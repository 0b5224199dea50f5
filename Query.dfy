/** The two SQL clauses the read queries are built from: a WHERE filter over row ids and an
    ORDER BY, here a stable insertion sort under a comparator. SQL leaves the order of equal
    keys unspecified; the sort keeps them in row-id order. */
module Query {

  ghost predicate Total<T(!new)>(le: (T, T) -> bool)
  {
    forall a, b :: le(a, b) || le(b, a)
  }

  ghost predicate Transitive<T(!new)>(le: (T, T) -> bool)
  {
    forall a, b, c :: le(a, b) && le(b, c) ==> le(a, c)
  }

  /** Every element is in order with its successor. */
  predicate Sorted<T>(s: seq<T>, le: (T, T) -> bool)
  {
    forall k :: 0 < k < |s| ==> le(s[k - 1], s[k])
  }

  predicate Distinct<T(==)>(s: seq<T>)
  {
    forall i, j :: 0 <= i < j < |s| ==> s[i] != s[j]
  }

  /** The ids below `n` that satisfy `keep`, ascending (a WHERE clause over a serial id). */
  function Select(n: nat, keep: nat -> bool): (r: seq<nat>)
    ensures forall x: nat :: x in r <==> x < n && keep(x)
    ensures forall i, j :: 0 <= i < j < |r| ==> r[i] < r[j]
  {
    if n == 0 then []
    else
      var front := Select(n - 1, keep);
      assert forall k :: 0 <= k < |front| ==> front[k] in front;
      front + (if keep(n - 1) then [n - 1] else [])
  }

  function Insert<T(==,!new)>(x: T, s: seq<T>, le: (T, T) -> bool): (r: seq<T>)
    ensures multiset(r) == multiset(s) + multiset{x} && |r| == |s| + 1
    ensures r[0] == x || (s != [] && r[0] == s[0])
  {
    if s == [] then [x]
    else if le(x, s[0]) then [x] + s
    else
      assert s == [s[0]] + s[1..];
      [s[0]] + Insert(x, s[1..], le)
  }

  /** Inserting into a sorted sequence keeps it sorted. */
  lemma {:induction false} InsertSorted<T(!new)>(x: T, s: seq<T>, le: (T, T) -> bool)
    requires Total(le) && Sorted(s, le)
    ensures Sorted(Insert(x, s, le), le)
  {
    if s != [] && !le(x, s[0]) {
      var rest := Insert(x, s[1..], le);
      var r := [s[0]] + rest;
      assert r == Insert(x, s, le);
      assert le(s[0], x);
      assert Sorted(s[1..], le);
      InsertSorted(x, s[1..], le);
      forall k | 0 < k < |r| ensures le(r[k - 1], r[k]) {
        if k == 1 {
          assert r[1] == rest[0];
        } else {
          assert r[k - 1] == rest[k - 2] && r[k] == rest[k - 1];
        }
      }
    }
  }

  /** Inserting a new element into a sequence without repetitions keeps it without. */
  lemma {:induction false} InsertDistinct<T(!new)>(x: T, s: seq<T>, le: (T, T) -> bool)
    requires Distinct(s) && x !in s
    ensures Distinct(Insert(x, s, le))
  {
    var r := Insert(x, s, le);
    if s == [] {
    } else if le(x, s[0]) {
      forall i, j | 0 <= i < j < |r| ensures r[i] != r[j] {
        assert r[j] == s[j - 1];
        if i > 0 {
          assert r[i] == s[i - 1];
        }
      }
    } else {
      var t := s[1..];
      var rest := Insert(x, t, le);
      assert r == [s[0]] + rest;
      assert Distinct(t);
      InsertDistinct(x, t, le);
      assert s[0] !in rest by {
        assert s[0] !in t;
        assert s[0] !in multiset(rest);
      }
      forall i, j | 0 <= i < j < |r| ensures r[i] != r[j] {
        assert r[j] == rest[j - 1];
        if i > 0 {
          assert r[i] == rest[i - 1];
        }
      }
    }
  }

  /** ORDER BY: a permutation of `s` in which every element is in order with its successor. */
  function Sort<T(==,!new)>(s: seq<T>, le: (T, T) -> bool): (r: seq<T>)
    requires Total(le)
    ensures multiset(r) == multiset(s) && |r| == |s|
    ensures Sorted(r, le)
    ensures Distinct(s) ==> Distinct(r)
  {
    if s == [] then []
    else
      assert s == [s[0]] + s[1..];
      var rest := Sort(s[1..], le);
      InsertSorted(s[0], rest, le);
      if Distinct(s) then
        assert s[0] !in s[1..] && s[0] !in multiset(rest);
        InsertDistinct(s[0], rest, le);
        Insert(s[0], rest, le)
      else
        Insert(s[0], rest, le)
  }

  /** Under a transitive comparator, order with the successor gives order between any two. */
  lemma {:induction false} SortedPairwise<T(!new)>(s: seq<T>, le: (T, T) -> bool)
    requires Transitive(le) && Sorted(s, le)
    ensures forall i, j :: 0 <= i < j < |s| ==> le(s[i], s[j])
  {
    if |s| > 1 {
      var t := s[..|s| - 1];
      assert Sorted(t, le);
      SortedPairwise(t, le);
      forall i, j | 0 <= i < j < |s| ensures le(s[i], s[j]) {
        if j < |s| - 1 {
          assert s[i] == t[i] && s[j] == t[j];
        } else if i < j - 1 {
          assert le(t[i], t[j - 1]);
        }
      }
    }
  }

  /** `SELECT id ... WHERE keep ORDER BY le`: every selected id exactly once, each in order
      with every later one. */
  function SelectSorted(n: nat, keep: nat -> bool, le: (nat, nat) -> bool): (r: seq<nat>)
    requires Total(le) && Transitive(le)
    ensures forall x: nat :: x in r <==> x < n && keep(x)
    ensures Distinct(r)
    ensures forall i, j :: 0 <= i < j < |r| ==> le(r[i], r[j])
  {
    var c := Select(n, keep);
    assert Distinct(c);
    var r := Sort(c, le);
    assert forall x :: x in r <==> x in c by {
      forall x ensures x in r <==> x in c {
        assert x in r <==> x in multiset(r);
      }
    }
    SortedPairwise(r, le);
    r
  }
}
