/** Orders shared by several tables: text order as SQLite and Python compare it,
    the stable sort behind `sorted(...)`, and reading a set out in a given order. */
module Ordering {

  /** Code-point order of strings: a proper prefix comes first. */
  predicate TextLess(a: string, b: string) {
    b != "" && (a == "" || a[0] < b[0] || (a[0] == b[0] && TextLess(a[1..], b[1..])))
  }

  predicate TextAtMost(a: string, b: string) {
    a == b || TextLess(a, b)
  }

  lemma {:induction false} TextLessTransitive(a: string, b: string, c: string)
    requires TextLess(a, b) && TextLess(b, c)
    ensures TextLess(a, c)
  {
    if a != "" && a[0] == b[0] && b[0] == c[0] {
      TextLessTransitive(a[1..], b[1..], c[1..]);
    }
  }

  lemma {:induction false} TextLessTrichotomy(a: string, b: string)
    ensures (TextLess(a, b) && a != b && !TextLess(b, a))
         || (a == b && !TextLess(a, b))
         || (TextLess(b, a) && a != b && !TextLess(a, b))
  {
    if a != "" && b != "" {
      TextLessTrichotomy(a[1..], b[1..]);
      assert a == [a[0]] + a[1..] && b == [b[0]] + b[1..];
    }
  }

  /** Strings whose first parts have equal length are ordered part by part. */
  lemma {:induction false} TextLessConcat(a: string, a': string, b: string, b': string)
    requires |a| == |a'|
    ensures TextLess(a + b, a' + b') <==> TextLess(a, a') || (a == a' && TextLess(b, b'))
  {
    if a == "" {
      assert a + b == b && a' + b' == b';
    } else {
      assert (a + b)[1..] == a[1..] + b && (a' + b')[1..] == a'[1..] + b';
      TextLessConcat(a[1..], a'[1..], b, b');
      assert a == [a[0]] + a[1..] && a' == [a'[0]] + a'[1..];
    }
  }

  // ---------------------------------------------------------------- sorting

  ghost predicate TotalPreorder<T(!new)>(le: (T, T) -> bool) {
    && (forall x, y :: le(x, y) || le(y, x))
    && (forall x, y, z :: le(x, y) && le(y, z) ==> le(x, z))
  }

  ghost predicate StrictTotal<T(!new)>(lt: (T, T) -> bool) {
    && (forall x :: !lt(x, x))
    && (forall x, y :: x != y ==> lt(x, y) || lt(y, x))
    && (forall x, y, z :: lt(x, y) && lt(y, z) ==> lt(x, z))
  }

  ghost predicate SortedBy<T(!new)>(s: seq<T>, le: (T, T) -> bool) {
    forall i, j :: 0 <= i < j < |s| ==> le(s[i], s[j])
  }

  /** Put x before the first element it does not come strictly after. */
  function Insert<T>(x: T, s: seq<T>, le: (T, T) -> bool): seq<T> {
    if s == [] || le(x, s[0]) then [x] + s else [s[0]] + Insert(x, s[1..], le)
  }

  /** Stable insertion sort: equal keys keep their input order. */
  function Sort<T>(s: seq<T>, le: (T, T) -> bool): seq<T> {
    if s == [] then [] else Insert(s[0], Sort(s[1..], le), le)
  }

  lemma {:induction false} InsertMembers<T>(x: T, s: seq<T>, le: (T, T) -> bool)
    ensures multiset(Insert(x, s, le)) == multiset{x} + multiset(s)
  {
    if s != [] && !le(x, s[0]) {
      InsertMembers(x, s[1..], le);
      assert s == [s[0]] + s[1..];
    }
  }

  lemma InsertedFrom<T>(x: T, s: seq<T>, le: (T, T) -> bool, i: nat)
    requires i < |Insert(x, s, le)|
    ensures Insert(x, s, le)[i] == x || Insert(x, s, le)[i] in s
  {
    InsertMembers(x, s, le);
    assert Insert(x, s, le)[i] in multiset(Insert(x, s, le));
  }

  lemma {:induction false} InsertFacts<T(!new)>(x: T, s: seq<T>, le: (T, T) -> bool)
    requires TotalPreorder(le) && SortedBy(s, le)
    ensures SortedBy(Insert(x, s, le), le)
    ensures multiset(Insert(x, s, le)) == multiset{x} + multiset(s)
  {
    InsertMembers(x, s, le);
    if s == [] {
    } else if le(x, s[0]) {
      forall i | 0 <= i < |s| ensures le(x, s[i]) { assert i > 0 ==> le(s[0], s[i]); }
    } else {
      InsertFacts(x, s[1..], le);
      var r := Insert(x, s[1..], le);
      forall i | 0 <= i < |r| ensures le(s[0], r[i]) {
        InsertedFrom(x, s[1..], le, i);
        if r[i] != x {
          var k :| 0 <= k < |s[1..]| && s[1..][k] == r[i];
          assert s[k + 1] == r[i];
        }
      }
    }
  }

  /** Sorting rearranges, loses nothing and repeats nothing. */
  lemma {:induction false} SortFacts<T(!new)>(s: seq<T>, le: (T, T) -> bool)
    requires TotalPreorder(le)
    ensures SortedBy(Sort(s, le), le)
    ensures multiset(Sort(s, le)) == multiset(s)
    ensures |Sort(s, le)| == |s|
  {
    if s != [] {
      SortFacts(s[1..], le);
      InsertFacts(s[0], Sort(s[1..], le), le);
      assert s == [s[0]] + s[1..];
    }
    assert |multiset(Sort(s, le))| == |multiset(s)|;
  }

  // ------------------------------------------------------- sets read in order

  lemma {:induction false} HasLeast<T(!new)>(s: set<T>, lt: (T, T) -> bool)
    requires StrictTotal(lt) && s != {}
    ensures exists m :: m in s && forall x :: x in s && x != m ==> lt(m, x)
    decreases |s|
  {
    var a :| a in s;
    var rest := s - {a};
    if rest == {} {
      assert s == {a};
    } else {
      HasLeast(rest, lt);
      var m :| m in rest && forall x :: x in rest && x != m ==> lt(m, x);
      var least := if lt(a, m) then a else m;
      forall x | x in s && x != least ensures lt(least, x) {
        if x != a && x != m { assert x in rest && lt(m, x); }
      }
      assert least in s;
    }
  }

  function Least<T(!new)>(s: set<T>, lt: (T, T) -> bool): (m: T)
    requires StrictTotal(lt) && s != {}
    ensures m in s && forall x :: x in s && x != m ==> lt(m, x)
  {
    HasLeast(s, lt);
    var m :| m in s && forall x :: x in s && x != m ==> lt(m, x);
    m
  }

  /** The members of s in increasing order: what ORDER BY a unique key yields. */
  function InOrder<T(!new)>(s: set<T>, lt: (T, T) -> bool): (r: seq<T>)
    requires StrictTotal(lt)
    ensures forall x :: x in r <==> x in s
    ensures forall i, j :: 0 <= i < j < |r| ==> lt(r[i], r[j])
    ensures |r| == |s|
    decreases |s|
  {
    if s == {} then [] else
      var m := Least(s, lt);
      [m] + InOrder(s - {m}, lt)
  }

  lemma NonEmptyHasMember<T>(r: seq<T>)
    ensures r != [] ==> exists x :: x in r
  {
    if r != [] { assert r[0] in r; }
  }

  lemma {:induction false} InOrderIsTheOnlyReading<T(!new)>(s: set<T>, lt: (T, T) -> bool, r: seq<T>)
    requires StrictTotal(lt)
    requires forall x :: x in r <==> x in s
    requires forall i, j :: 0 <= i < j < |r| ==> lt(r[i], r[j])
    ensures r == InOrder(s, lt)
    decreases |s|
  {
    if s == {} {
      NonEmptyHasMember(r);
    } else {
      var m := Least(s, lt);
      FirstIsLeast(s, lt, r);
      var rest := r[1..];
      assert r == [m] + rest;
      forall x | x in rest ensures x != m {
        var k :| 0 <= k < |rest| && rest[k] == x;
        assert lt(r[0], r[k + 1]);
      }
      InOrderIsTheOnlyReading(s - {m}, lt, rest);
    }
  }

  lemma FirstIsLeast<T(!new)>(s: set<T>, lt: (T, T) -> bool, r: seq<T>)
    requires StrictTotal(lt) && s != {}
    requires forall x :: x in r <==> x in s
    requires forall i, j :: 0 <= i < j < |r| ==> lt(r[i], r[j])
    ensures r != [] && r[0] == Least(s, lt)
  {
    var m := Least(s, lt);
    assert m in r;
    forall j | 0 < j < |r| ensures r[j] != m {
      assert lt(r[0], r[j]);
      assert r[0] in r;
      assert r[0] == m || lt(m, r[0]);
    }
  }

  // ---------------------------------------------------------------- filtering

  function Filter<T>(s: seq<T>, p: T -> bool): seq<T> {
    if s == [] then [] else
      var last := s[|s| - 1];
      Filter(s[..|s| - 1], p) + (if p(last) then [last] else [])
  }

  predicate Every<T>(s: seq<T>, p: T -> bool) {
    s == [] || (Every(s[..|s| - 1], p) && p(s[|s| - 1]))
  }

  lemma {:induction false} EveryMember<T>(s: seq<T>, p: T -> bool)
    ensures Every(s, p) <==> forall x :: x in s ==> p(x)
  {
    if s != [] {
      EveryMember(s[..|s| - 1], p);
      assert s == s[..|s| - 1] + [s[|s| - 1]];
    }
  }

  /** One more element; and an element that fails, fails the whole. */
  lemma EveryStep<T>(s: seq<T>, n: nat, p: T -> bool)
    requires n < |s|
    ensures Every(s[..n + 1], p) <==> Every(s[..n], p) && p(s[n])
    ensures !p(s[n]) ==> !Every(s, p)
  {
    assert s[..n + 1][..n] == s[..n];
    EveryMember(s, p);
    assert s[n] in s;
  }

  lemma {:induction false} FilterMembers<T>(s: seq<T>, p: T -> bool)
    ensures forall x :: x in Filter(s, p) <==> x in s && p(x)
  {
    if s != [] {
      FilterMembers(s[..|s| - 1], p);
      assert s == s[..|s| - 1] + [s[|s| - 1]];
    }
  }

  ghost predicate Ascending<T(!new)>(s: seq<T>, lt: (T, T) -> bool) {
    forall i, j :: 0 <= i < j < |s| ==> lt(s[i], s[j])
  }

  lemma {:induction false} FilterAscends<T(!new)>(s: seq<T>, p: T -> bool, lt: (T, T) -> bool)
    requires Ascending(s, lt)
    ensures Ascending(Filter(s, p), lt)
  {
    if s != [] {
      var init, last := s[..|s| - 1], s[|s| - 1];
      FilterAscends(init, p, lt);
      FilterMembers(init, p);
      var f := Filter(init, p);
      forall i | 0 <= i < |f| ensures lt(f[i], last) {
        assert f[i] in f;
        var k :| 0 <= k < |init| && init[k] == f[i];
        assert lt(s[k], s[|s| - 1]);
      }
    }
  }

  function Chosen<T>(s: set<T>, p: T -> bool): set<T> {
    set x | x in s && p(x)
  }

  /** Filtering rows already read in order gives the filtered set read in order. */
  lemma FilterOfInOrder<T(!new)>(s: set<T>, lt: (T, T) -> bool, p: T -> bool)
    requires StrictTotal(lt)
    ensures Filter(InOrder(s, lt), p) == InOrder(Chosen(s, p), lt)
  {
    FilterMembers(InOrder(s, lt), p);
    FilterAscends(InOrder(s, lt), p, lt);
    InOrderIsTheOnlyReading(Chosen(s, p), lt, Filter(InOrder(s, lt), p));
  }
}
