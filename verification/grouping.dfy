/** Splitting a list into one list per key, the way the engine groups by subject. */
module Grouping {
  import opened Ordering

  function HasKey<T>(key: T -> string, k: string): T -> bool { x => key(x) == k }

  /** The groups of the listed keys laid end to end, each in input order. */
  function Grouped<T>(s: seq<T>, key: T -> string, keys: seq<string>): seq<T> {
    if keys == [] then [] else
      Grouped(s, key, keys[..|keys| - 1]) + Filter(s, HasKey(key, keys[|keys| - 1]))
  }

  ghost predicate DistinctKeys<T>(s: seq<T>, key: T -> string) {
    forall i, j :: 0 <= i < j < |s| ==> key(s[i]) != key(s[j])
  }

  lemma {:induction false} FilterCount<T>(s: seq<T>, p: T -> bool, x: T)
    ensures multiset(Filter(s, p))[x] == if p(x) then multiset(s)[x] else 0
  {
    if s != [] {
      var init := s[..|s| - 1];
      FilterCount(init, p, x);
      assert s == init + [s[|s| - 1]];
    }
  }

  /** Filtering by p and by its complement loses nothing. */
  lemma FilterSplits<T(!new)>(s: seq<T>, p: T -> bool, q: T -> bool)
    requires forall x :: x in s ==> (q(x) <==> !p(x))
    ensures multiset(Filter(s, p)) + multiset(Filter(s, q)) == multiset(s)
  {
    forall x: T ensures (multiset(Filter(s, p)) + multiset(Filter(s, q)))[x] == multiset(s)[x] {
      FilterCount(s, p, x);
      FilterCount(s, q, x);
      if x !in s { assert multiset(s)[x] == 0; }
    }
  }

  lemma {:induction false} GroupedCount<T>(s: seq<T>, key: T -> string, keys: seq<string>, x: T)
    requires forall i, j :: 0 <= i < j < |keys| ==> keys[i] != keys[j]
    ensures multiset(Grouped(s, key, keys))[x] == if key(x) in keys then multiset(s)[x] else 0
  {
    if keys != [] {
      var init, last := keys[..|keys| - 1], keys[|keys| - 1];
      GroupedCount(s, key, init, x);
      FilterCount(s, HasKey(key, last), x);
      assert keys == init + [last];
    }
  }

  /** When every key is listed, once, grouping is a permutation. */
  lemma GroupedIsPermutation<T(!new)>(s: seq<T>, key: T -> string, keys: seq<string>)
    requires forall i, j :: 0 <= i < j < |keys| ==> keys[i] != keys[j]
    requires forall x :: x in s ==> key(x) in keys
    ensures multiset(Grouped(s, key, keys)) == multiset(s)
  {
    forall x: T ensures multiset(Grouped(s, key, keys))[x] == multiset(s)[x] {
      GroupedCount(s, key, keys, x);
      if key(x) !in keys { assert x !in s; }
    }
  }

  lemma {:induction false} TwoPlaces<T>(s: seq<T>, x: T)
    requires multiset(s)[x] >= 2
    ensures exists i, j :: 0 <= i < j < |s| && s[i] == s[j] == x
  {
    var init, last := s[..|s| - 1], s[|s| - 1];
    assert s == init + [last];
    if last == x {
      assert x in multiset(init);
      var i :| 0 <= i < |init| && init[i] == x;
      assert s[i] == s[|s| - 1] == x;
    } else {
      TwoPlaces(init, x);
      var i, j :| 0 <= i < j < |init| && init[i] == init[j] == x;
      assert s[i] == s[j] == x;
    }
  }

  lemma PlacesCount<T>(s: seq<T>, i: nat, j: nat)
    requires i < j < |s| && s[i] == s[j]
    ensures multiset(s)[s[i]] >= 2
  {
    assert s == s[..j] + [s[j]] + s[j + 1..];
    assert s[..j][i] == s[i];
    assert s[i] in multiset(s[..j]);
  }

  /** Distinct keys survive dropping elements and reordering. */
  lemma DistinctKeysSurvive<T>(s: seq<T>, t: seq<T>, key: T -> string)
    requires DistinctKeys(s, key) && multiset(t) <= multiset(s)
    ensures DistinctKeys(t, key)
  {
    forall i, j | 0 <= i < j < |t| ensures key(t[i]) != key(t[j]) {
      if t[i] == t[j] {
        PlacesCount(t, i, j);
        TwoPlaces(s, t[i]);
      } else {
        assert t[i] in multiset(s) && t[j] in multiset(s);
        var a :| 0 <= a < |s| && s[a] == t[i];
        var b :| 0 <= b < |s| && s[b] == t[j];
        assert a < b || b < a;
      }
    }
  }

  lemma FilterAppend<T>(s: seq<T>, x: T, p: T -> bool)
    ensures Filter(s + [x], p) == Filter(s, p) + (if p(x) then [x] else [])
  {
    assert (s + [x])[..|s|] == s;
  }

  /** The dictionary of lists: each key met so far maps to its elements in order. */
  method GroupBy<T>(s: seq<T>, key: T -> string) returns (groups: map<string, seq<T>>)
    ensures forall k :: k in groups ==> groups[k] == Filter(s, HasKey(key, k)) != []
    ensures forall k :: k !in groups ==> Filter(s, HasKey(key, k)) == []
  {
    groups := map[];
    for i := 0 to |s|
      invariant forall k :: k in groups ==> groups[k] == Filter(s[..i], HasKey(key, k)) != []
      invariant forall k :: k !in groups ==> Filter(s[..i], HasKey(key, k)) == []
    {
      assert s[..i + 1] == s[..i] + [s[i]];
      forall k: string ensures Filter(s[..i + 1], HasKey(key, k)) == Filter(s[..i], HasKey(key, k)) + (if key(s[i]) == k then [s[i]] else []) {
        FilterAppend(s[..i], s[i], HasKey(key, k));
      }
      var k := key(s[i]);
      groups := groups[k := (if k in groups then groups[k] else []) + [s[i]]];
    }
    assert s[..|s|] == s;
  }
}
