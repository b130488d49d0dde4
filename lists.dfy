/** `Array.prototype.filter` and the facts about it that the storefront's
    list views rely on: it keeps exactly the matching elements, in their
    order, and successive filters compose into one conjunction. */
module Lists {

  function Filter<T>(s: seq<T>, keep: T -> bool): (r: seq<T>)
    ensures |r| <= |s|
    ensures forall i :: 0 <= i < |r| ==> keep(r[i])
  {
    if s == [] then []
    else if keep(s[0]) then [s[0]] + Filter(s[1..], keep)
    else Filter(s[1..], keep)
  }

  /** `a` is `b` with some elements left out, the rest in the same order. */
  predicate IsSubsequence<T(==)>(a: seq<T>, b: seq<T>) {
    a == [] || (b != [] && (if a[0] == b[0] then IsSubsequence(a[1..], b[1..]) else IsSubsequence(a, b[1..])))
  }

  lemma {:induction false} FilterMembership<T>(s: seq<T>, keep: T -> bool, x: T)
    ensures x in Filter(s, keep) <==> x in s && keep(x)
  {
    if s != [] {
      FilterMembership(s[1..], keep, x);
      assert x in s <==> x == s[0] || x in s[1..];
    }
  }

  lemma {:induction false} SubsequenceOfTail<T>(a: seq<T>, b: seq<T>)
    requires b != [] && IsSubsequence(a, b[1..])
    ensures IsSubsequence(a, b)
    decreases |b|, 0
  {
    if a != [] && a[0] == b[0] {
      SubsequenceDropHead(a, b[1..]);
    }
  }

  lemma {:induction false} SubsequenceDropHead<T>(a: seq<T>, b: seq<T>)
    requires a != [] && IsSubsequence(a, b)
    ensures IsSubsequence(a[1..], b)
    decreases |b|, 1
  {
    if a[1..] != [] {
      if a[0] == b[0] {
        SubsequenceOfTail(a[1..], b);
      } else {
        SubsequenceDropHead(a, b[1..]);
        SubsequenceOfTail(a[1..], b);
      }
    }
  }

  lemma {:induction false} FilterIsSubsequence<T>(s: seq<T>, keep: T -> bool)
    ensures IsSubsequence(Filter(s, keep), s)
  {
    if s != [] {
      FilterIsSubsequence(s[1..], keep);
      if !keep(s[0]) && Filter(s[1..], keep) != [] {
        SubsequenceOfTail(Filter(s[1..], keep), s);
      }
    }
  }

  lemma {:induction false} FilterAllKept<T>(s: seq<T>, keep: T -> bool)
    requires forall i :: 0 <= i < |s| ==> keep(s[i])
    ensures Filter(s, keep) == s
  {
    if s != [] {
      FilterAllKept(s[1..], keep);
    }
  }

  /** Two successive filters keep what the conjunction keeps. */
  lemma {:induction false} FilterFilter<T>(s: seq<T>, f: T -> bool, g: T -> bool)
    ensures Filter(Filter(s, f), g) == Filter(s, x => f(x) && g(x))
  {
    if s != [] {
      FilterFilter(s[1..], f, g);
    }
  }

  /** The same, with the conjunction given as a predicate of its own. */
  lemma {:induction false} FilterFilterAs<T>(s: seq<T>, f: T -> bool, g: T -> bool, h: T -> bool)
    requires forall x :: h(x) == (f(x) && g(x))
    ensures Filter(Filter(s, f), g) == Filter(s, h)
  {
    if s != [] {
      FilterFilterAs(s[1..], f, g, h);
    }
  }

  lemma FilterCommutes<T>(s: seq<T>, f: T -> bool, g: T -> bool)
    ensures Filter(Filter(s, f), g) == Filter(Filter(s, g), f)
  {
    FilterFilter(s, f, g);
    FilterFilter(s, g, f);
    FilterSamePredicate(s, x => f(x) && g(x), x => g(x) && f(x));
  }

  lemma {:induction false} FilterSamePredicate<T>(s: seq<T>, f: T -> bool, g: T -> bool)
    requires forall x :: f(x) == g(x)
    ensures Filter(s, f) == Filter(s, g)
  {
    if s != [] {
      FilterSamePredicate(s[1..], f, g);
    }
  }

  lemma {:induction false} FilterCount<T>(s: seq<T>, keep: T -> bool)
    ensures |Filter(s, keep)| == |s| <==> forall i :: 0 <= i < |s| ==> keep(s[i])
  {
    if s != [] {
      FilterCount(s[1..], keep);
      if !keep(s[0]) {
        assert |Filter(s, keep)| < |s|;
      }
      if forall i :: 0 <= i < |s[1..]| ==> keep(s[1..][i]) {
        if keep(s[0]) {
          forall i | 0 <= i < |s| ensures keep(s[i]) {
            if i > 0 { assert s[i] == s[1..][i - 1]; }
          }
        }
      } else {
        var i :| 0 <= i < |s[1..]| && !keep(s[1..][i]);
        assert !keep(s[i + 1]);
      }
    }
  }

  /** One `if (active) result = result.filter(g)` step of a list view: the
      list so far keeps what `before` keeps, and afterwards what `after`
      keeps. */
  method Narrow<T>(result: seq<T>, ghost s: seq<T>, ghost before: T -> bool, active: bool, g: T -> bool,
                   ghost after: T -> bool)
    returns (narrowed: seq<T>)
    requires result == Filter(s, before)
    requires forall x :: after(x) == (before(x) && (active ==> g(x)))
    ensures narrowed == Filter(s, after)
  {
    if active {
      narrowed := Filter(result, g);
      FilterFilterAs(s, before, g, after);
    } else {
      narrowed := result;
      FilterSamePredicate(s, before, after);
    }
  }

  /** Filtering a concatenation filters each part. */
  lemma {:induction false} FilterConcat<T>(a: seq<T>, b: seq<T>, keep: T -> bool)
    ensures Filter(a + b, keep) == Filter(a, keep) + Filter(b, keep)
  {
    if a == [] {
      assert a + b == b;
    } else {
      assert (a + b)[0] == a[0] && (a + b)[1..] == a[1..] + b;
      FilterConcat(a[1..], b, keep);
    }
  }

  /** Filtering a sequence whose one dropped element sits between kept ones removes just it. */
  lemma FilterDropsOne<T>(a: seq<T>, x: T, b: seq<T>, keep: T -> bool)
    requires forall i :: 0 <= i < |a| ==> keep(a[i])
    requires forall i :: 0 <= i < |b| ==> keep(b[i])
    requires !keep(x)
    ensures Filter(a + [x] + b, keep) == a + b
  {
    FilterConcat(a + [x], b, keep);
    FilterConcat(a, [x], keep);
    FilterAllKept(a, keep);
    FilterAllKept(b, keep);
    assert Filter([x], keep) == [] by {
      assert [x][1..] == [];
    }
    assert a + [] == a;
  }

  /** A relation that holds between the heads of three sequences and along
      their tails holds along the whole of them. */
  lemma ConsAlong<X, Y, Z>(xs: seq<X>, ys: seq<Y>, z: Z, zs: seq<Z>, ok: (X, Y, Z) -> bool)
    requires |ys| == |xs| && |zs| < |xs|
    requires ok(xs[0], ys[0], z)
    requires forall j :: 0 <= j < |zs| ==> ok(xs[1..][j], ys[1..][j], zs[j])
    ensures forall j :: 0 <= j < |[z] + zs| ==> ok(xs[j], ys[j], ([z] + zs)[j])
  {
    forall j | 1 <= j < |[z] + zs|
      ensures ok(xs[j], ys[j], ([z] + zs)[j])
    {
      assert xs[1..][j - 1] == xs[j] && ys[1..][j - 1] == ys[j];
    }
  }

  /** `s.map(f).join("")`, the texts of the elements one after another; also
      what a sequence of `text += f(x)` steps leaves behind. */
  function ConcatMap<T>(s: seq<T>, f: T -> string): string {
    if s == [] then "" else f(s[0]) + ConcatMap(s[1..], f)
  }

  lemma {:induction false} ConcatMapAppend<T>(a: seq<T>, b: seq<T>, f: T -> string)
    ensures ConcatMap(a + b, f) == ConcatMap(a, f) + ConcatMap(b, f)
  {
    if a != [] {
      assert (a + b)[1..] == a[1..] + b;
      ConcatMapAppend(a[1..], b, f);
    } else {
      assert a + b == b;
    }
  }
}
