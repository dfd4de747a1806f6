/**
 * Listings of rows: maxima over the finite key sets of the tables, used where a
 * handler asks for the row with the highest value of a column
 * (`order by ... desc limit 1`, `max(...)`), whole `order by ... desc`
 * listings, and the order-preserving `Array.prototype.filter`.
 */
module Ordering {

  /** Every non-empty finite set of keys has a key whose score is maximal. */
  lemma {:induction false} MaxExists(s: set<int>, score: int -> int)
    requires s != {}
    ensures exists m :: m in s && forall x :: x in s ==> score(x) <= score(m)
  {
    assert exists y :: y in s by {
      if forall y :: y !in s {
        assert false;
      }
    }
    var x :| x in s;
    if s == {x} {
      assert forall y :: y in s ==> y == x;
    } else {
      MaxExists(s - {x}, score);
      var m :| m in s - {x} && forall y :: y in s - {x} ==> score(y) <= score(m);
      if score(x) <= score(m) {
        assert forall y :: y in s ==> score(y) <= score(m);
      } else {
        assert forall y :: y in s ==> score(y) <= score(x);
      }
    }
  }

  /** `order by score desc`: no key is followed by a key of higher score. */
  predicate SortedDesc(s: seq<int>, score: int -> int)
  {
    forall i, j :: 0 <= i < j < |s| ==> score(s[j]) <= score(s[i])
  }

  /** Inserts `x` in front of the first key whose score does not exceed its own. */
  function InsertDesc(s: seq<int>, x: int, score: int -> int): (r: seq<int>)
    ensures multiset(r) == multiset(s) + multiset{x}
    ensures |r| == |s| + 1
    decreases |s|
  {
    if s == [] || score(s[0]) <= score(x) then [x] + s
    else
      assert s == [s[0]] + s[1..];
      [s[0]] + InsertDesc(s[1..], x, score)
  }

  /** A head no lower than every element of an ordered tail keeps the order. */
  lemma ConsSorted(h: int, t: seq<int>, score: int -> int)
    requires SortedDesc(t, score)
    requires forall y :: y in t ==> score(y) <= score(h)
    ensures SortedDesc([h] + t, score)
  {
    var r := [h] + t;
    forall i, j | 0 <= i < j < |r| ensures score(r[j]) <= score(r[i]) {
      assert r[j] == t[j - 1];
      if i > 0 {
        assert r[i] == t[i - 1];
      }
    }
  }

  /** The tail of an ordered listing is ordered and no element of it exceeds the head. */
  lemma SortedTail(s: seq<int>, score: int -> int)
    requires s != [] && SortedDesc(s, score)
    ensures SortedDesc(s[1..], score)
    ensures forall y :: y in s[1..] ==> score(y) <= score(s[0])
  {
    forall y | y in s[1..] ensures score(y) <= score(s[0]) {
      var m :| 0 <= m < |s[1..]| && s[1..][m] == y;
      assert s[m + 1] == y;
    }
  }

  /** Every element of an insertion is the inserted key or one of the listing. */
  lemma InsertDescMembers(s: seq<int>, x: int, score: int -> int)
    ensures forall y :: y in InsertDesc(s, x, score) ==> y == x || y in s
  {
    var r := InsertDesc(s, x, score);
    forall y | y in r ensures y == x || y in s {
      assert y in multiset(r);
    }
  }

  /** Insertion keeps the order. */
  lemma {:induction false} InsertDescSorted(s: seq<int>, x: int, score: int -> int)
    requires SortedDesc(s, score)
    ensures SortedDesc(InsertDesc(s, x, score), score)
    decreases |s|
  {
    if s == [] {
      ConsSorted(x, s, score);
    } else if score(s[0]) <= score(x) {
      SortedTail(s, score);
      assert forall y :: y in s ==> y == s[0] || y in s[1..];
      ConsSorted(x, s, score);
    } else {
      SortedTail(s, score);
      InsertDescSorted(s[1..], x, score);
      InsertDescMembers(s[1..], x, score);
      ConsSorted(s[0], InsertDesc(s[1..], x, score), score);
    }
  }

  /**
   * The keys of a finite set listed once each, highest score first: what a
   * `select ... order by ... desc` over the rows returns.
   */
  method ListDesc(keys: set<int>, score: int -> int) returns (r: seq<int>)
    ensures multiset(r) == multiset(keys)
    ensures SortedDesc(r, score)
  {
    r := [];
    var rest := keys;
    while rest != {}
      invariant rest <= keys
      invariant multiset(r) + multiset(rest) == multiset(keys)
      invariant SortedDesc(r, score)
      decreases |rest|
    {
      assert exists y :: y in rest by {
        if forall y :: y !in rest {
          assert false;
        }
      }
      var x :| x in rest;
      InsertDescSorted(r, x, score);
      r := InsertDesc(r, x, score);
      rest := rest - {x};
    }
  }

  /** A listing of a set holds its keys, each exactly once. */
  lemma SetListing(r: seq<int>, keys: set<int>)
    requires multiset(r) == multiset(keys)
    ensures forall i :: 0 <= i < |r| ==> r[i] in keys
    ensures forall x :: x in keys ==> x in r
    ensures forall i, j :: 0 <= i < j < |r| ==> r[i] != r[j]
  {
    forall i | 0 <= i < |r| ensures r[i] in keys {
      assert r[i] in multiset(r);
    }
    forall x | x in keys ensures x in r {
      assert x in multiset(keys);
    }
    forall i, j | 0 <= i < j < |r| ensures r[i] != r[j] {
      if r[i] == r[j] {
        RepeatedCount(r, i, j);
        assert false;
      }
    }
  }

  /** `r` is `s` with some elements dropped and the rest in their order. */
  predicate Subsequence<T(==)>(r: seq<T>, s: seq<T>)
    decreases |s|
  {
    r == [] || (s != [] && ((r[0] == s[0] && Subsequence(r[1..], s[1..])) || Subsequence(r, s[1..])))
  }

  /**
   * The elements of `s` that `keep` accepts, in their order (`Array.prototype.filter`);
   * `FilterCount` adds that each is kept as often as it occurs.
   */
  function Filter<T(==,!new)>(s: seq<T>, keep: T -> bool): (r: seq<T>)
    ensures forall x :: x in r <==> x in s && keep(x)
    ensures Subsequence(r, s)
    ensures |r| <= |s|
  {
    if s == [] then []
    else
      var rest := Filter(s[1..], keep);
      if keep(s[0]) then
        assert ([s[0]] + rest)[1..] == rest;
        [s[0]] + rest
      else
        rest
  }

  /** Filtering keeps every accepted element as often as it occurs, and no other element. */
  lemma {:induction false} FilterCount<T(!new)>(s: seq<T>, keep: T -> bool)
    ensures forall x :: multiset(Filter(s, keep))[x] == if keep(x) then multiset(s)[x] else 0
    decreases |s|
  {
    if s != [] {
      FilterCount(s[1..], keep);
      assert s == [s[0]] + s[1..];
      assert multiset(s) == multiset{s[0]} + multiset(s[1..]);
    }
  }

  /** Filtering a list with one more element at the end. */
  lemma {:induction false} FilterSnoc<T(!new)>(s: seq<T>, x: T, keep: T -> bool)
    ensures Filter(s + [x], keep) == Filter(s, keep) + (if keep(x) then [x] else [])
    decreases |s|
  {
    var t := s + [x];
    if s == [] {
      assert t[1..] == [];
    } else {
      assert t[0] == s[0] && t[1..] == s[1..] + [x];
      FilterSnoc(s[1..], x, keep);
    }
  }

  /** A value at two positions is counted at least twice. */
  lemma RepeatedCount<T>(r: seq<T>, i: int, j: int)
    requires 0 <= i < j < |r| && r[i] == r[j]
    ensures multiset(r)[r[i]] >= 2
  {
    var x := r[i];
    var a, b, c := r[..i], r[i + 1..j], r[j + 1..];
    assert r == a + [x] + b + [x] + c;
    assert multiset(r) == multiset(a) + multiset{x} + multiset(b) + multiset{x} + multiset(c);
  }

  /** A value counted at least twice sits at two positions. */
  lemma TwoPositions<T>(r: seq<T>, x: T)
    requires multiset(r)[x] >= 2
    ensures exists i, j :: 0 <= i < j < |r| && r[i] == x && r[j] == x
  {
    assert x in multiset(r);
    var i :| 0 <= i < |r| && r[i] == x;
    var a, c := r[..i], r[i + 1..];
    assert r == a + [x] + c;
    assert multiset(r) == multiset(a) + multiset{x} + multiset(c);
    if x in a {
      var m :| 0 <= m < |a| && a[m] == x;
      assert r[m] == x && m < i;
    } else {
      assert multiset(a)[x] == 0;
      assert x in multiset(c);
      var m :| 0 <= m < |c| && c[m] == x;
      assert r[i + 1 + m] == x;
    }
  }

  /** No element occurs twice. */
  predicate Distinct<T(==)>(s: seq<T>)
  {
    forall i, j :: 0 <= i < j < |s| ==> s[i] != s[j]
  }

  /** Filtering a list without repetitions gives a list without repetitions. */
  lemma {:induction false} FilterDistinct<T(!new)>(s: seq<T>, keep: T -> bool)
    requires Distinct(s)
    ensures Distinct(Filter(s, keep))
  {
    if s != [] {
      assert Distinct(s[1..]) by {
        forall i, j | 0 <= i < j < |s[1..]| ensures s[1..][i] != s[1..][j] {
          assert s[1..][i] == s[i + 1] && s[1..][j] == s[j + 1];
        }
      }
      FilterDistinct(s[1..], keep);
      var rest := Filter(s[1..], keep);
      if keep(s[0]) {
        assert s[0] !in s[1..] by {
          forall m | 0 <= m < |s[1..]| ensures s[1..][m] != s[0] {
            assert s[1..][m] == s[m + 1];
          }
        }
        var r := [s[0]] + rest;
        forall i, j | 0 <= i < j < |r| ensures r[i] != r[j] {
          assert r[j] == rest[j - 1];
          if i > 0 {
            assert r[i] == rest[i - 1];
          } else {
            assert r[j] in rest;
          }
        }
      }
    }
  }
}
