/** `Array.prototype.sort` with a comparator, as the admin lists and the
    catalogue use it. The engine's sort is stable, so sorting by a comparator
    that induces a total preorder has exactly one result: the elements in that
    order, ties kept in their input order. `SortBy` computes it by stable
    insertion. */
module Sorting {
  import opened Lists

  /** `leq(a, b)` holds when the comparator does not put `b` strictly before `a`. */
  ghost predicate TotalPreorder<T(!new)>(leq: (T, T) -> bool) {
    (forall a, b :: leq(a, b) || leq(b, a)) &&
    (forall a, b, c :: leq(a, b) && leq(b, c) ==> leq(a, c))
  }

  predicate SortedBy<T>(s: seq<T>, leq: (T, T) -> bool) {
    forall i, j :: 0 <= i < j < |s| ==> leq(s[i], s[j])
  }

  /** Puts `x` before the first element it does not follow. */
  function Insert<T>(x: T, s: seq<T>, leq: (T, T) -> bool): (r: seq<T>)
    ensures |r| == |s| + 1
  {
    if s == [] || leq(x, s[0]) then [x] + s else [s[0]] + Insert(x, s[1..], leq)
  }

  function SortBy<T>(s: seq<T>, leq: (T, T) -> bool): (r: seq<T>)
    ensures |r| == |s|
  {
    if s == [] then [] else Insert(s[0], SortBy(s[1..], leq), leq)
  }

  lemma {:induction false} InsertPermutes<T>(x: T, s: seq<T>, leq: (T, T) -> bool)
    ensures multiset(Insert(x, s, leq)) == multiset(s) + multiset{x}
  {
    if s != [] && !leq(x, s[0]) {
      InsertPermutes(x, s[1..], leq);
      assert s == [s[0]] + s[1..];
    }
  }

  lemma {:induction false} SortByPermutes<T>(s: seq<T>, leq: (T, T) -> bool)
    ensures multiset(SortBy(s, leq)) == multiset(s)
  {
    if s != [] {
      SortByPermutes(s[1..], leq);
      InsertPermutes(s[0], SortBy(s[1..], leq), leq);
      assert s == [s[0]] + s[1..];
    }
  }

  lemma {:induction false} InsertSorted<T(!new)>(x: T, s: seq<T>, leq: (T, T) -> bool)
    requires TotalPreorder(leq)
    requires SortedBy(s, leq)
    ensures SortedBy(Insert(x, s, leq), leq)
  {
    if s != [] && !leq(x, s[0]) {
      InsertSorted(x, s[1..], leq);
      InsertPermutes(x, s[1..], leq);
      var r := Insert(x, s[1..], leq);
      assert leq(s[0], x);
      forall j | 0 <= j < |r| ensures leq(s[0], r[j]) {
        assert r[j] in multiset(r);
        assert r[j] == x || r[j] in multiset(s[1..]);
        if r[j] != x {
          var k :| 0 <= k < |s[1..]| && s[1..][k] == r[j];
          assert s[k + 1] == r[j];
        }
      }
    }
  }

  lemma {:induction false} SortBySorted<T(!new)>(s: seq<T>, leq: (T, T) -> bool)
    requires TotalPreorder(leq)
    ensures SortedBy(SortBy(s, leq), leq)
  {
    if s != [] {
      SortBySorted(s[1..], leq);
      InsertSorted(s[0], SortBy(s[1..], leq), leq);
    }
  }

  /** `leq` orders the values in `xs`, whatever it does elsewhere: a
      comparator that misbehaves only on values the list does not hold. */
  ghost predicate PreorderOn<T>(xs: set<T>, leq: (T, T) -> bool) {
    (forall a, b :: a in xs && b in xs ==> leq(a, b) || leq(b, a)) &&
    (forall a, b, c :: a in xs && b in xs && c in xs && leq(a, b) && leq(b, c) ==> leq(a, c))
  }

  lemma {:induction false} InsertSortedOn<T>(x: T, s: seq<T>, leq: (T, T) -> bool, xs: set<T>)
    requires PreorderOn(xs, leq)
    requires x in xs && forall i :: 0 <= i < |s| ==> s[i] in xs
    requires SortedBy(s, leq)
    ensures SortedBy(Insert(x, s, leq), leq)
  {
    if s == [] {
    } else if leq(x, s[0]) {
      var r := [x] + s;
      forall i, j | 0 <= i < j < |r| ensures leq(r[i], r[j]) {
        if i == 0 && j > 1 {
          assert leq(s[0], s[j - 1]);
        }
      }
    } else {
      assert SortedBy(s[1..], leq) by {
        forall i, j | 0 <= i < j < |s[1..]| ensures leq(s[1..][i], s[1..][j]) {
          assert s[1..][i] == s[i + 1] && s[1..][j] == s[j + 1];
        }
      }
      InsertSortedOn(x, s[1..], leq, xs);
      InsertPermutes(x, s[1..], leq);
      var r := Insert(x, s[1..], leq);
      assert leq(s[0], x);
      forall j | 0 <= j < |r| ensures leq(s[0], r[j]) {
        assert r[j] in multiset(r);
        assert r[j] == x || r[j] in multiset(s[1..]);
        if r[j] != x {
          var k :| 0 <= k < |s[1..]| && s[1..][k] == r[j];
          assert s[k + 1] == r[j];
        }
      }
    }
  }

  /** Sorting orders the list when the comparator orders the values it holds. */
  lemma {:induction false} SortBySortedOn<T>(s: seq<T>, leq: (T, T) -> bool, xs: set<T>)
    requires PreorderOn(xs, leq)
    requires forall i :: 0 <= i < |s| ==> s[i] in xs
    ensures SortedBy(SortBy(s, leq), leq)
  {
    if s != [] {
      SortBySortedOn(s[1..], leq, xs);
      var t := SortBy(s[1..], leq);
      SortByPermutes(s[1..], leq);
      forall i | 0 <= i < |t| ensures t[i] in xs {
        assert t[i] in multiset(s[1..]);
        var k :| 0 <= k < |s[1..]| && s[1..][k] == t[i];
        assert s[k + 1] == t[i];
      }
      InsertSortedOn(s[0], t, leq, xs);
    }
  }

  /** Sorting leaves an already ordered list as it is. */
  lemma {:induction false} SortBySortedIsIdentity<T>(s: seq<T>, leq: (T, T) -> bool)
    requires SortedBy(s, leq)
    ensures SortBy(s, leq) == s
  {
    if s != [] {
      assert SortedBy(s[1..], leq) by {
        forall i, j | 0 <= i < j < |s[1..]| ensures leq(s[1..][i], s[1..][j]) {
          assert s[1..][i] == s[i + 1] && s[1..][j] == s[j + 1];
        }
      }
      SortBySortedIsIdentity(s[1..], leq);
      if |s| > 1 {
        assert leq(s[0], s[1]);
      }
    }
  }

  /** The values the comparator cannot tell apart from `z`. */
  function TiedWith<T>(leq: (T, T) -> bool, z: T): T -> bool {
    (y: T) => leq(z, y) && leq(y, z)
  }

  /** Inserting `x` adds it to the kept elements ahead of every kept element
      already there, when `x` does not come after any of them. */
  lemma {:induction false} InsertFilter<T>(x: T, t: seq<T>, leq: (T, T) -> bool, keep: T -> bool)
    requires keep(x) ==> forall i :: 0 <= i < |t| && keep(t[i]) ==> leq(x, t[i])
    ensures Filter(Insert(x, t, leq), keep) == (if keep(x) then [x] else []) + Filter(t, keep)
  {
    if t == [] || leq(x, t[0]) {
      assert ([x] + t)[1..] == t;
    } else {
      assert !(keep(x) && keep(t[0]));
      InsertFilter(x, t[1..], leq, keep);
      assert ([t[0]] + Insert(x, t[1..], leq))[1..] == Insert(x, t[1..], leq);
    }
  }

  /** Among elements the comparator orders in both directions pairwise,
      sorting keeps the input order. */
  lemma {:induction false} SortByKeepsOrderOf<T(!new)>(s: seq<T>, leq: (T, T) -> bool, keep: T -> bool)
    requires forall a, b :: keep(a) && keep(b) ==> leq(a, b)
    ensures Filter(SortBy(s, leq), keep) == Filter(s, keep)
  {
    if s != [] {
      SortByKeepsOrderOf(s[1..], leq, keep);
      var t := SortBy(s[1..], leq);
      assert forall i :: 0 <= i < |t| && keep(s[0]) && keep(t[i]) ==> leq(s[0], t[i]);
      InsertFilter(s[0], t, leq, keep);
    }
  }

  /** The sort is stable: the elements tied with any `z` come out in the
      order they went in. */
  lemma SortByStable<T(!new)>(s: seq<T>, leq: (T, T) -> bool, z: T)
    requires forall a, b, c :: leq(a, b) && leq(b, c) ==> leq(a, c)
    ensures Filter(SortBy(s, leq), TiedWith(leq, z)) == Filter(s, TiedWith(leq, z))
  {
    SortByKeepsOrderOf(s, leq, TiedWith(leq, z));
  }

  /** Every element of the sorted list is one of the input's, so a property
      all of them have survives the sort. */
  lemma SortByKeepsAll<T>(s: seq<T>, leq: (T, T) -> bool, has: T -> bool)
    requires forall i :: 0 <= i < |s| ==> has(s[i])
    ensures forall i :: 0 <= i < |SortBy(s, leq)| ==> has(SortBy(s, leq)[i])
  {
    var r := SortBy(s, leq);
    SortByPermutes(s, leq);
    forall i | 0 <= i < |r| ensures has(r[i]) {
      assert r[i] in multiset(s);
      var k :| 0 <= k < |s| && s[k] == r[i];
    }
  }
}
