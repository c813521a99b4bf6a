/** The JavaScript array operation the components build their new state with. */
module JsArrays {

  /** `xs.filter(p)`: the elements of `xs` that satisfy `p`, in their original order. */
  function Filter<T(!new)>(xs: seq<T>, p: T -> bool): (r: seq<T>)
    ensures |r| <= |xs|
    ensures forall i :: 0 <= i < |r| ==> p(r[i])
    ensures forall x :: x in r <==> x in xs && p(x)
  {
    if xs == [] then [] else (if p(xs[0]) then [xs[0]] else []) + Filter(xs[1..], p)
  }

  /** Filtering distributes over concatenation: the order of the kept elements is the input order. */
  lemma {:induction false} FilterConcat<T(!new)>(a: seq<T>, b: seq<T>, p: T -> bool)
    ensures Filter(a + b, p) == Filter(a, p) + Filter(b, p)
  {
    if a == [] {
      assert a + b == b;
    } else {
      assert (a + b)[1..] == a[1..] + b;
      FilterConcat(a[1..], b, p);
    }
  }

  /** When every element satisfies `p`, filtering returns the input unchanged. */
  lemma {:induction false} FilterKeepsAll<T(!new)>(xs: seq<T>, p: T -> bool)
    requires forall i :: 0 <= i < |xs| ==> p(xs[i])
    ensures Filter(xs, p) == xs
  {
    if xs != [] {
      FilterKeepsAll(xs[1..], p);
    }
  }

  /** Every element that satisfies `p` is kept as often as it occurs; the others are all dropped. */
  lemma {:induction false} FilterCounts<T(!new)>(xs: seq<T>, p: T -> bool, x: T)
    ensures multiset(Filter(xs, p))[x] == if p(x) then multiset(xs)[x] else 0
  {
    if xs != [] {
      FilterCounts(xs[1..], p, x);
      assert xs == [xs[0]] + xs[1..];
      assert multiset(xs) == multiset([xs[0]]) + multiset(xs[1..]);
    }
  }

  /** Two filters commute: keeping what satisfies `p` and then `q` keeps the same elements, in the
      same order, as keeping what satisfies `q` and then `p`. */
  lemma {:induction false} FilterCommute<T(!new)>(xs: seq<T>, p: T -> bool, q: T -> bool)
    ensures Filter(Filter(xs, p), q) == Filter(Filter(xs, q), p)
  {
    if xs != [] {
      FilterCommute(xs[1..], p, q);
      var head := if p(xs[0]) then [xs[0]] else [];
      var head' := if q(xs[0]) then [xs[0]] else [];
      FilterConcat(head, Filter(xs[1..], p), q);
      FilterConcat(head', Filter(xs[1..], q), p);
    }
  }

  /** `xs.filter(x => id(x) !== target)`: how every list handler removes an entry by its id. */
  function WithoutId<T(!new)>(xs: seq<T>, id: T -> string, target: string): (r: seq<T>)
    ensures |r| <= |xs|
    ensures forall i :: 0 <= i < |r| ==> id(r[i]) != target
    ensures forall x :: x in r <==> x in xs && id(x) != target
  {
    Filter(xs, x => id(x) != target)
  }

  /** After removal every entry without the id is kept as often as it occurred,
      and a list that never had the id is returned unchanged. */
  lemma WithoutIdSpec<T(!new)>(xs: seq<T>, id: T -> string, target: string)
    ensures forall x :: id(x) != target ==> multiset(WithoutId(xs, id, target))[x] == multiset(xs)[x]
    ensures (forall i :: 0 <= i < |xs| ==> id(xs[i]) != target) ==> WithoutId(xs, id, target) == xs
  {
    var p := x => id(x) != target;
    forall x | id(x) != target
      ensures multiset(WithoutId(xs, id, target))[x] == multiset(xs)[x]
    {
      FilterCounts(xs, p, x);
    }
    if forall i :: 0 <= i < |xs| ==> id(xs[i]) != target {
      FilterKeepsAll(xs, p);
    }
  }

  /** Removal keeps the relative order: removing from a concatenation removes from each part. */
  lemma WithoutIdConcat<T(!new)>(a: seq<T>, b: seq<T>, id: T -> string, target: string)
    ensures WithoutId(a + b, id, target) == WithoutId(a, id, target) + WithoutId(b, id, target)
  {
    FilterConcat(a, b, x => id(x) != target);
  }

  /** Removal by id commutes with any other filter. */
  lemma WithoutIdFilter<T(!new)>(xs: seq<T>, p: T -> bool, id: T -> string, target: string)
    ensures Filter(WithoutId(xs, id, target), p) == WithoutId(Filter(xs, p), id, target)
  {
    FilterCommute(xs, x => id(x) != target, p);
  }

  /** Removing the id of an entry just appended to a list that did not hold that id undoes the append. */
  lemma WithoutIdUndoesAppend<T(!new)>(xs: seq<T>, x: T, id: T -> string)
    requires forall i :: 0 <= i < |xs| ==> id(xs[i]) != id(x)
    ensures WithoutId(xs + [x], id, id(x)) == xs
  {
    WithoutIdConcat(xs, [x], id, id(x));
    WithoutIdSpec(xs, id, id(x));
    assert Filter([x], y => id(y) != id(x)) == [];
  }
}
