/**
 * The array operations the three role screens share: `reduce` with `+` (a
 * left fold) and `filter`, plus the optional value a `find` returns.
 */
module Lists {

  datatype Option<+T> = None | Some(value: T)

  /** An array `reduce` that adds up weights from 0: a left fold, so it peels the last element. */
  function Sum<T>(s: seq<T>, w: T -> int): int
  {
    if s == [] then 0 else Sum(s[..|s| - 1], w) + w(s[|s| - 1])
  }

  /** An array `filter`: the elements satisfying `p`, in their original order. */
  function Filter<T>(s: seq<T>, p: T -> bool): (r: seq<T>)
    ensures |r| <= |s|
    ensures forall i :: 0 <= i < |r| ==> r[i] in s && p(r[i])
    ensures forall i :: 0 <= i < |s| && p(s[i]) ==> s[i] in r
  {
    if s == [] then []
    else
      var front := Filter(s[..|s| - 1], p);
      if p(s[|s| - 1]) then front + [s[|s| - 1]] else front
  }

  lemma SumSnoc<T>(s: seq<T>, x: T, w: T -> int)
    ensures Sum(s + [x], w) == Sum(s, w) + w(x)
  {
    assert (s + [x])[..|s|] == s;
  }

  lemma {:induction false} SumConcat<T>(a: seq<T>, b: seq<T>, w: T -> int)
    ensures Sum(a + b, w) == Sum(a, w) + Sum(b, w)
    decreases |b|
  {
    if b != [] {
      var b' := b[..|b| - 1];
      var x := b[|b| - 1];
      assert a + b == (a + b') + [x];
      assert b == b' + [x];
      SumSnoc(a + b', x, w);
      SumSnoc(b', x, w);
      SumConcat(a, b', w);
    } else {
      assert a + b == a;
    }
  }

  /** When every weight is at least `lo`, the fold is at least `lo` per element. */
  lemma {:induction false} SumBound<T>(s: seq<T>, w: T -> int, lo: nat)
    ensures (forall i :: 0 <= i < |s| ==> w(s[i]) >= lo) ==> Sum(s, w) >= lo * |s|
    decreases |s|
  {
    if s != [] && forall i :: 0 <= i < |s| ==> w(s[i]) >= lo {
      var front := s[..|s| - 1];
      assert forall i :: 0 <= i < |front| ==> w(front[i]) >= lo by {
        forall i | 0 <= i < |front| ensures w(front[i]) >= lo { assert front[i] == s[i]; }
      }
      SumBound(front, w, lo);
      assert lo * |s| == lo * |front| + lo;
    }
  }

  /** Replacing one element changes the fold by exactly the difference of the two weights. */
  lemma SumUpdate<T>(s: seq<T>, k: nat, x: T, w: T -> int)
    requires k < |s|
    ensures Sum(s[k := x], w) == Sum(s, w) - w(s[k]) + w(x)
  {
    var front, was, back := s[..k], s[k], s[k + 1..];
    assert s == (front + [was]) + back;
    assert s[k := x] == (front + [x]) + back;
    SumConcat(front + [was], back, w);
    SumConcat(front + [x], back, w);
    SumSnoc(front, was, w);
    SumSnoc(front, x, w);
  }

  /** Removing one element lowers the fold by that element's weight. */
  lemma SumRemoveAt<T>(s: seq<T>, k: nat, w: T -> int)
    requires k < |s|
    ensures Sum(s[..k] + s[k + 1..], w) == Sum(s, w) - w(s[k])
  {
    var front, gone, back := s[..k], s[k], s[k + 1..];
    calc {
      Sum(s, w);
      { assert s == (front + [gone]) + back; }
      Sum((front + [gone]) + back, w);
      { SumConcat(front + [gone], back, w); }
      Sum(front + [gone], w) + Sum(back, w);
      { SumSnoc(front, gone, w); }
      Sum(front, w) + w(gone) + Sum(back, w);
      { SumConcat(front, back, w); }
      Sum(front + back, w) + w(gone);
    }
  }

  /** Two sequences whose elements weigh the same position by position have the same fold. */
  lemma {:induction false} SumPointwise<T, U>(a: seq<T>, v: T -> int, b: seq<U>, w: U -> int)
    requires |a| == |b|
    requires forall i :: 0 <= i < |a| ==> v(a[i]) == w(b[i])
    ensures Sum(a, v) == Sum(b, w)
    decreases |a|
  {
    if a != [] {
      SumPointwise(a[..|a| - 1], v, b[..|b| - 1], w);
    }
  }

  lemma FilterSnoc<T>(s: seq<T>, x: T, p: T -> bool)
    ensures Filter(s + [x], p) == if p(x) then Filter(s, p) + [x] else Filter(s, p)
  {
    assert (s + [x])[..|s|] == s;
  }

  lemma {:induction false} FilterConcat<T>(a: seq<T>, b: seq<T>, p: T -> bool)
    ensures Filter(a + b, p) == Filter(a, p) + Filter(b, p)
    decreases |b|
  {
    if b != [] {
      var b' := b[..|b| - 1];
      var x := b[|b| - 1];
      assert a + b == (a + b') + [x];
      assert b == b' + [x];
      FilterSnoc(a + b', x, p);
      FilterSnoc(b', x, p);
      FilterConcat(a, b', p);
    } else {
      assert a + b == a;
    }
  }

  /** A filter that keeps everything is the identity. */
  lemma {:induction false} FilterKeepsAll<T>(s: seq<T>, p: T -> bool)
    requires forall i :: 0 <= i < |s| ==> p(s[i])
    ensures Filter(s, p) == s
    decreases |s|
  {
    if s != [] {
      FilterKeepsAll(s[..|s| - 1], p);
      assert s == s[..|s| - 1] + [s[|s| - 1]];
    }
  }

  /** A filter that drops exactly the element at `k` is the removal of index `k`. */
  lemma {:induction false} FilterDropsOne<T>(s: seq<T>, k: nat, p: T -> bool)
    requires k < |s|
    requires !p(s[k])
    requires forall i :: 0 <= i < |s| && i != k ==> p(s[i])
    ensures Filter(s, p) == s[..k] + s[k + 1..]
    decreases |s|
  {
    var init, last := s[..|s| - 1], s[|s| - 1];
    if k == |s| - 1 {
      assert forall i :: 0 <= i < |init| ==> p(init[i]) by {
        forall i | 0 <= i < |init| ensures p(init[i]) { assert init[i] == s[i]; }
      }
      FilterKeepsAll(init, p);
      assert s[..k] == init && s[k + 1..] == [];
    } else {
      assert forall i :: 0 <= i < |init| && i != k ==> p(init[i]) by {
        forall i | 0 <= i < |init| && i != k ensures p(init[i]) { assert init[i] == s[i]; }
      }
      FilterDropsOne(init, k, p);
      assert s[..k] + s[k + 1..] == (init[..k] + init[k + 1..]) + [last];
    }
  }

  function Indicator(b: bool): nat { if b then 1 else 0 }

  /** Replacing one element changes the filtered length by the change in that element's membership. */
  lemma FilterCountUpdate<T>(s: seq<T>, k: nat, x: T, p: T -> bool)
    requires k < |s|
    ensures |Filter(s[k := x], p)| == |Filter(s, p)| - Indicator(p(s[k])) + Indicator(p(x))
  {
    var front, was, back := s[..k], s[k], s[k + 1..];
    assert s == (front + [was]) + back;
    assert s[k := x] == (front + [x]) + back;
    FilterConcat(front + [was], back, p);
    FilterConcat(front + [x], back, p);
    FilterSnoc(front, was, p);
    FilterSnoc(front, x, p);
  }

  /** Peeling the last element off a filter's input changes its length by that element's membership. */
  lemma FilterLastLength<T>(s: seq<T>, p: T -> bool)
    requires s != []
    ensures |Filter(s, p)| == |Filter(s[..|s| - 1], p)| + Indicator(p(s[|s| - 1]))
  {
  }
}
