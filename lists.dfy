/** The array updaters the pages share: membership toggling (`includes ? filter : [...prev, x]`)
  * and `Array.from(new Set(xs))`. */
module Lists {

  /** `xs.filter(y => y !== x)`. */
  function Without<T(==,!new)>(xs: seq<T>, x: T): (r: seq<T>)
    ensures x !in r
    ensures forall y :: y != x ==> (y in r <==> y in xs)
    ensures |r| <= |xs|
    ensures x !in xs ==> r == xs
    ensures r == Filter(xs, y => y != x)
  {
    if xs == [] then []
    else if xs[0] == x then Without(xs[1..], x)
    else [xs[0]] + Without(xs[1..], x)
  }

  /** `xs.includes(x) ? xs.filter(y => y !== x) : [...xs, x]`. */
  function Toggle<T(==,!new)>(xs: seq<T>, x: T): (r: seq<T>)
    ensures x in r <==> x !in xs
    ensures forall y :: y != x ==> (y in r <==> y in xs)
    ensures x !in xs ==> r == xs + [x]
    ensures x in xs ==> r == Filter(xs, y => y != x)
  {
    if x in xs then Without(xs, x) else xs + [x]
  }

  /** Removing what was just appended gives back the list. */
  lemma {:induction false} WithoutAppended<T(!new)>(xs: seq<T>, x: T)
    requires x !in xs
    ensures Without(xs + [x], x) == xs
  {
    if xs == [] {
      assert [x][1..] == [];
    } else {
      assert (xs + [x])[1..] == xs[1..] + [x];
      WithoutAppended(xs[1..], x);
    }
  }

  /** Toggling an absent element twice restores the list. */
  lemma ToggleTwiceAbsent<T(!new)>(xs: seq<T>, x: T)
    requires x !in xs
    ensures Toggle(Toggle(xs, x), x) == xs
  {
    WithoutAppended(xs, x);
  }

  /** Toggling a present element twice moves it, once, to the end. */
  lemma ToggleTwicePresent<T(!new)>(xs: seq<T>, x: T)
    requires x in xs
    ensures Toggle(Toggle(xs, x), x) == Without(xs, x) + [x]
  {
  }

  predicate NoDuplicates<T(==)>(xs: seq<T>) {
    forall i, j :: 0 <= i < j < |xs| ==> xs[i] != xs[j]
  }

  /** `Array.from(new Set(xs))`: each element once, at the place it first occurs. */
  function Dedupe<T(==,!new)>(xs: seq<T>): (r: seq<T>)
    ensures NoDuplicates(r)
    ensures forall y :: y in r <==> y in xs
    ensures |r| <= |xs|
    ensures xs != [] ==> r != [] && r[0] == xs[0]
  {
    if xs == [] then []
    else
      var init := Dedupe(xs[..|xs| - 1]);
      var last := xs[|xs| - 1];
      assert forall y :: y in xs <==> y in xs[..|xs| - 1] || y == last by {
        assert xs == xs[..|xs| - 1] + [last];
      }
      if last in init then init else init + [last]
  }

  /** Removal works part by part. */
  lemma {:induction false} WithoutAppend<T(!new)>(a: seq<T>, b: seq<T>, x: T)
    ensures Without(a + b, x) == Without(a, x) + Without(b, x)
  {
    if a == [] {
      assert a + b == b;
    } else {
      assert (a + b)[1..] == a[1..] + b;
      WithoutAppend(a[1..], b, x);
    }
  }

  /** The order is that of first occurrences: the head comes first, and then the
    * deduplicated rest without the head. */
  lemma {:induction false} DedupeFront<T(!new)>(xs: seq<T>)
    requires xs != []
    ensures Dedupe(xs) == [xs[0]] + Without(Dedupe(xs[1..]), xs[0])
    decreases |xs|
  {
    if |xs| > 1 {
      var ys, l, x := xs[..|xs| - 1], xs[|xs| - 1], xs[0];
      assert ys[0] == x;
      assert xs[1..] == ys[1..] + [l];
      assert xs[1..][..|xs[1..]| - 1] == ys[1..];
      DedupeFront(ys);
      var tail := Dedupe(ys[1..]);
      assert Dedupe(xs[1..]) == if l in tail then tail else tail + [l];
      if l !in tail {
        WithoutAppend(tail, [l], x);
        assert l in Dedupe(ys) <==> l == x;
      }
    }
  }

  /** Deduplication keeps a list that already has no repeats. */
  lemma {:induction false} DedupeNoDuplicates<T(!new)>(xs: seq<T>)
    requires NoDuplicates(xs)
    ensures Dedupe(xs) == xs
  {
    if xs != [] {
      var init := xs[..|xs| - 1];
      DedupeNoDuplicates(init);
      assert xs[|xs| - 1] !in init;
      assert xs == init + [xs[|xs| - 1]];
    }
  }

  /** `xs.filter(p)`: the elements satisfying `p`, in their order. */
  function Filter<T(!new)>(xs: seq<T>, p: T -> bool): (r: seq<T>)
    ensures |r| <= |xs|
    ensures forall x :: x in r <==> x in xs && p(x)
  {
    if xs == [] then []
    else
      var rest := Filter(xs[1..], p);
      assert forall x :: x in xs <==> x == xs[0] || x in xs[1..];
      if p(xs[0]) then [xs[0]] + rest else rest
  }

  /** Filtering keeps the order: a list is filtered part by part. */
  lemma {:induction false} FilterAppend<T(!new)>(a: seq<T>, b: seq<T>, p: T -> bool)
    ensures Filter(a + b, p) == Filter(a, p) + Filter(b, p)
  {
    if a == [] {
      assert a + b == b;
    } else {
      assert (a + b)[1..] == a[1..] + b;
      FilterAppend(a[1..], b, p);
    }
  }
}
