/** Small shared vocabulary: optional values, ordered lists, filters and stable sorting. */
module Prelude {

  datatype Option<+T> = None | Some(value: T)

  function Min(a: int, b: int): int { if a <= b then a else b }

  function Max(a: int, b: int): int { if a >= b then a else b }

  ghost predicate StrictlyIncreasing(s: seq<int>) {
    forall i, j :: 0 <= i < j < |s| ==> s[i] < s[j]
  }

  lemma AppendIncreasing(s: seq<int>, x: int)
    requires StrictlyIncreasing(s) && forall y :: y in s ==> y < x
    ensures StrictlyIncreasing(s + [x])
  {
    forall i, j | 0 <= i < j < |s + [x]| ensures (s + [x])[i] < (s + [x])[j] {
      assert (s + [x])[i] in s;
    }
  }

  /** A strictly increasing list is determined by its members. */
  lemma {:induction false} SameMembersSameList(a: seq<int>, b: seq<int>)
    requires StrictlyIncreasing(a) && StrictlyIncreasing(b)
    requires forall x :: x in a <==> x in b
    ensures a == b
  {
    assert a != [] ==> a[0] in a && a[0] in b;
    assert b != [] ==> b[0] in b && b[0] in a;
    if a != [] && b != [] {
      var ta, tb := a[1..], b[1..];
      assert a == [a[0]] + ta && b == [b[0]] + tb;
      forall x ensures x in ta <==> x in tb {
        if x in ta { assert x in a && x > a[0]; }
        if x in tb { assert x in b && x > b[0]; }
      }
      SameMembersSameList(ta, tb);
    }
  }

  function Filter<T(!new)>(s: seq<T>, p: T -> bool): (r: seq<T>)
    ensures forall x :: x in r <==> x in s && p(x)
    ensures |r| <= |s|
  {
    if s == [] then [] else if p(s[0]) then [s[0]] + Filter(s[1..], p) else Filter(s[1..], p)
  }

  lemma FilterCons<T(!new)>(s: seq<T>, p: T -> bool)
    requires s != []
    ensures Filter(s, p) == (if p(s[0]) then [s[0]] else []) + Filter(s[1..], p)
  {
  }

  lemma {:induction false} FilterConcat<T(!new)>(a: seq<T>, b: seq<T>, p: T -> bool)
    ensures Filter(a + b, p) == Filter(a, p) + Filter(b, p)
  {
    if a == [] {
      assert a + b == b;
    } else {
      assert (a + b)[1..] == a[1..] + b;
      FilterConcat(a[1..], b, p);
    }
  }

  lemma {:induction false} FilterAgree<T(!new)>(s: seq<T>, p: T -> bool, q: T -> bool)
    requires forall x :: x in s ==> p(x) == q(x)
    ensures Filter(s, p) == Filter(s, q)
  {
    if s != [] { FilterAgree(s[1..], p, q); }
  }

  lemma {:induction false} FilterAll<T(!new)>(s: seq<T>, p: T -> bool)
    requires forall x :: x in s ==> p(x)
    ensures Filter(s, p) == s
  {
    if s != [] { FilterAll(s[1..], p); }
  }

  lemma {:induction false} FilterNone<T(!new)>(s: seq<T>, p: T -> bool)
    requires forall x :: x in s ==> !p(x)
    ensures Filter(s, p) == []
  {
    if s != [] { FilterNone(s[1..], p); }
  }

  /** A list of unwanted, wanted and unwanted stretches filters to the wanted one. */
  lemma FilterMiddle<T(!new)>(before: seq<T>, wanted: seq<T>, after: seq<T>, p: T -> bool)
    requires forall x :: x in before || x in after ==> !p(x)
    requires forall x :: x in wanted ==> p(x)
    ensures Filter(before + wanted + after, p) == wanted
  {
    FilterConcat(before + wanted, after, p);
    FilterConcat(before, wanted, p);
    FilterAll(wanted, p);
    FilterNone(before, p);
    FilterNone(after, p);
  }

  /** Once an element is of the second kind, all later ones are. */
  ghost predicate SwitchesOnce<T(!new)>(s: seq<T>, first: T -> bool, second: T -> bool) {
    && (forall i :: 0 <= i < |s| ==> first(s[i]) == !second(s[i]))
    && (forall i, j :: 0 <= i < j < |s| && second(s[i]) ==> second(s[j]))
  }

  /** A list that switches once is its elements of the first kind followed by those of the second. */
  lemma {:induction false} FilterSwitch<T(!new)>(s: seq<T>, first: T -> bool, second: T -> bool)
    requires SwitchesOnce(s, first, second)
    ensures Filter(s, first) + Filter(s, second) == s
  {
    if s != [] {
      if second(s[0]) {
        AllSwitched(s, first, second);
        FilterNone(s, first);
        FilterAll(s, second);
      } else {
        RestSwitches(s, first, second);
        FilterSwitch(s[1..], first, second);
        FilterCons(s, first);
        FilterCons(s, second);
        hide Filter, SwitchesOnce;
        ConsJoin(s, Filter(s[1..], first), Filter(s[1..], second));
      }
    }
  }

  lemma AllSwitched<T(!new)>(s: seq<T>, first: T -> bool, second: T -> bool)
    requires SwitchesOnce(s, first, second) && s != [] && second(s[0])
    ensures forall x :: x in s ==> second(x) && !first(x)
  {
    forall x | x in s ensures second(x) && !first(x) { var i :| 0 <= i < |s| && s[i] == x; }
  }

  lemma RestSwitches<T(!new)>(s: seq<T>, first: T -> bool, second: T -> bool)
    requires SwitchesOnce(s, first, second) && s != []
    ensures SwitchesOnce(s[1..], first, second) && first(s[0]) == !second(s[0])
  {
  }

  lemma ConsJoin<T>(s: seq<T>, a: seq<T>, b: seq<T>)
    requires s != [] && a + b == s[1..]
    ensures ([s[0]] + a) + ([] + b) == s
  {
  }

  lemma {:induction false} FilterFilter<T(!new)>(s: seq<T>, p: T -> bool, q: T -> bool)
    ensures Filter(Filter(s, p), q) == Filter(s, x => p(x) && q(x))
  {
    if s != [] {
      FilterFilter(s[1..], p, q);
      if p(s[0]) {
        assert Filter(s, p) == [s[0]] + Filter(s[1..], p);
        assert ([s[0]] + Filter(s[1..], p))[1..] == Filter(s[1..], p);
      }
    }
  }

  /** Order-preserving map over a list. */
  function Map<T, U>(s: seq<T>, f: T -> U): (r: seq<U>)
    ensures |r| == |s|
    ensures forall i :: 0 <= i < |s| ==> r[i] == f(s[i])
  {
    seq(|s|, i requires 0 <= i < |s| => f(s[i]))
  }

  /** Stable insertion sort by an integer key: the ORDER BY clauses and sorted() calls of the platform. */
  function InsertBy<T>(x: T, s: seq<T>, key: T -> int): (r: seq<T>)
    ensures multiset(r) == multiset{x} + multiset(s)
  {
    if s == [] then [x]
    else if key(x) <= key(s[0]) then [x] + s
    else
      assert s == [s[0]] + s[1..];
      [s[0]] + InsertBy(x, s[1..], key)
  }

  function SortBy<T>(s: seq<T>, key: T -> int): (r: seq<T>)
    ensures multiset(r) == multiset(s)
  {
    if s == [] then []
    else
      assert s == [s[0]] + s[1..];
      InsertBy(s[0], SortBy(s[1..], key), key)
  }

  ghost predicate SortedBy<T>(s: seq<T>, key: T -> int) {
    forall i, j :: 0 <= i < j < |s| ==> key(s[i]) <= key(s[j])
  }

  lemma {:induction false} InsertBySorted<T(!new)>(x: T, s: seq<T>, key: T -> int)
    requires SortedBy(s, key)
    ensures SortedBy(InsertBy(x, s, key), key)
  {
    if s != [] && key(x) > key(s[0]) {
      InsertBySorted(x, s[1..], key);
      var t := InsertBy(x, s[1..], key);
      forall y | y in t ensures key(s[0]) <= key(y) {
        assert y in multiset(t);
        if y != x { assert y in multiset(s[1..]); }
      }
    }
  }

  lemma {:induction false} SortBySorted<T(!new)>(s: seq<T>, key: T -> int)
    ensures SortedBy(SortBy(s, key), key)
  {
    if s != [] {
      SortBySorted(s[1..], key);
      InsertBySorted(s[0], SortBy(s[1..], key), key);
    }
  }

  /** Sorting what is already sorted changes nothing. */
  lemma {:induction false} SortByFixed<T>(s: seq<T>, key: T -> int)
    requires SortedBy(s, key)
    ensures SortBy(s, key) == s
  {
    if s != [] { SortByFixed(s[1..], key); }
  }

  /** A key-ordered split sorts piece by piece. */
  lemma {:induction false} SortByConcat<T(!new)>(a: seq<T>, b: seq<T>, key: T -> int)
    requires forall x, y :: x in a && y in b ==> key(x) <= key(y)
    ensures SortBy(a + b, key) == SortBy(a, key) + SortBy(b, key)
  {
    if a == [] {
      assert a + b == b;
    } else {
      assert (a + b)[1..] == a[1..] + b;
      SortByConcat(a[1..], b, key);
      MultisetMembers(SortBy(b, key), b);
      InsertBefore(a[0], SortBy(a[1..], key), SortBy(b, key), key);
    }
  }

  lemma {:induction false} InsertBefore<T(!new)>(x: T, a: seq<T>, b: seq<T>, key: T -> int)
    requires forall y :: y in b ==> key(x) <= key(y)
    ensures InsertBy(x, a + b, key) == InsertBy(x, a, key) + b
  {
    if a == [] {
      assert a + b == b;
    } else {
      assert (a + b)[1..] == a[1..] + b;
      InsertBefore(x, a[1..], b, key);
    }
  }

  lemma MultisetMembers<T(!new)>(a: seq<T>, b: seq<T>)
    requires multiset(a) == multiset(b)
    ensures |a| == |b|
    ensures forall x :: x in a <==> x in b
  {
    forall x ensures x in a <==> x in b {
      assert x in a <==> x in multiset(a);
    }
    assert |multiset(a)| == |a|;
  }

  ghost predicate KeysDistinct<T>(s: seq<T>, key: T -> int) {
    forall i, j :: 0 <= i < j < |s| ==> key(s[i]) != key(s[j])
  }

  lemma ConsDistinct<T>(x: T, s: seq<T>, key: T -> int)
    requires KeysDistinct(s, key) && forall y | y in s :: key(y) != key(x)
    ensures KeysDistinct([x] + s, key)
  {
    forall i, j | 0 <= i < j < |[x] + s| ensures key(([x] + s)[i]) != key(([x] + s)[j]) {
      assert ([x] + s)[j] in s;
    }
  }

  lemma {:induction false} FilterDistinct<T(!new)>(s: seq<T>, p: T -> bool, key: T -> int)
    requires KeysDistinct(s, key)
    ensures KeysDistinct(Filter(s, p), key)
  {
    if s != [] {
      FilterDistinct(s[1..], p, key);
      var rest := Filter(s[1..], p);
      assert forall y | y in rest :: y in s[1..] && key(y) != key(s[0]);
      ConsDistinct(s[0], rest, key);
    }
  }

  lemma {:induction false} InsertDistinct<T(!new)>(x: T, s: seq<T>, key: T -> int)
    requires KeysDistinct(s, key) && forall y | y in s :: key(y) != key(x)
    ensures KeysDistinct(InsertBy(x, s, key), key)
  {
    ConsDistinct(x, s, key);
    if s != [] && key(x) > key(s[0]) {
      InsertDistinct(x, s[1..], key);
      var t := InsertBy(x, s[1..], key);
      forall y | y in t ensures key(y) != key(s[0]) {
        assert y in multiset(t);
        if y != x { assert y in multiset(s[1..]); }
      }
      ConsDistinct(s[0], t, key);
    }
  }

  lemma {:induction false} SortDistinct<T(!new)>(s: seq<T>, key: T -> int)
    requires KeysDistinct(s, key)
    ensures KeysDistinct(SortBy(s, key), key)
  {
    if s != [] {
      SortDistinct(s[1..], key);
      MultisetMembers(SortBy(s[1..], key), s[1..]);
      InsertDistinct(s[0], SortBy(s[1..], key), key);
    }
  }

  lemma SameHead<T(!new)>(a: seq<T>, b: seq<T>, key: T -> int)
    requires SortedBy(a, key) && SortedBy(b, key) && KeysDistinct(a, key) && a != []
    requires multiset(a) == multiset(b)
    ensures b != [] && a[0] == b[0]
  {
    MultisetMembers(a, b);
    assert a[0] in b && b[0] in a;
    var i :| 0 <= i < |a| && a[i] == b[0];
    var j :| 0 <= j < |b| && b[j] == a[0];
    FirstOfItsKey(a, key, i);
  }

  lemma FirstOfItsKey<T(!new)>(a: seq<T>, key: T -> int, i: nat)
    requires KeysDistinct(a, key) && i < |a| && key(a[0]) == key(a[i])
    ensures a[0] == a[i]
  {
  }

  lemma CancelHead<T>(x: T, a: seq<T>, b: seq<T>)
    requires multiset([x] + a) == multiset([x] + b)
    ensures multiset(a) == multiset(b)
  {
    assert multiset([x] + a) == multiset{x} + multiset(a);
    assert multiset([x] + b) == multiset{x} + multiset(b);
    assert multiset(a) == multiset([x] + a) - multiset{x};
  }

  /** Two orderings of the same elements under distinct keys are the same list. */
  lemma {:induction false} SortedUnique<T(!new)>(a: seq<T>, b: seq<T>, key: T -> int)
    requires SortedBy(a, key) && SortedBy(b, key) && KeysDistinct(a, key)
    requires multiset(a) == multiset(b)
    ensures a == b
  {
    if a == [] {
      assert |multiset(b)| == 0;
    } else {
      SameHead(a, b, key);
      assert a == [a[0]] + a[1..] && b == [a[0]] + b[1..];
      CancelHead(a[0], a[1..], b[1..]);
      SortedUnique(a[1..], b[1..], key);
    }
  }

  lemma {:induction false} LeastExists(s: set<int>)
    requires s != {}
    ensures exists m :: m in s && forall k :: k in s ==> m <= k
  {
    if forall x :: x !in s { assert false; }
    var x :| x in s;
    var rest := s - {x};
    assert forall k :: k in s ==> k == x || k in rest;
    if rest == {} {
      assert forall k :: k in s ==> x <= k;
    } else {
      LeastExists(rest);
      var m :| m in rest && forall k :: k in rest ==> m <= k;
      var least := Min(m, x);
      assert least in s && forall k :: k in s ==> least <= k;
    }
  }

  /** The members of a finite set of instants in ascending order: an ORDER BY over a unique key. */
  function Ascending(s: set<int>): (r: seq<int>)
    ensures StrictlyIncreasing(r)
    ensures forall x :: x in r <==> x in s
  {
    if s == {} then []
    else
      LeastExists(s);
      var m :| m in s && forall k :: k in s ==> m <= k;
      [m] + Ascending(s - {m})
  }
}
