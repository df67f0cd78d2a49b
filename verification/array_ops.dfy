/** Models of the Array.prototype methods the components call on their record lists:
    `reduce` with a numeric seed, `filter`, `map`, and `slice().sort(compare)` with a
    string key. Arrays are values here, so no operation can change its input. */
module ArrayOps {
  import opened Strings

  /** The sum of `f` over `xs`, defined from the right: the meaning of a total. */
  function SumOf<T>(xs: seq<T>, f: T -> int): int {
    if xs == [] then 0 else f(xs[0]) + SumOf(xs[1..], f)
  }

  /** `xs.reduce((acc, x) => acc + f(x), seed)`: a left-to-right fold from `seed`. */
  function FoldSum<T>(seed: int, xs: seq<T>, f: T -> int): int
    decreases |xs|
  {
    if xs == [] then seed else FoldSum(seed + f(xs[0]), xs[1..], f)
  }

  /** The left fold adds the sum of all the elements to its seed. */
  lemma {:induction false} FoldSumIsSum<T>(seed: int, xs: seq<T>, f: T -> int)
    ensures FoldSum(seed, xs, f) == seed + SumOf(xs, f)
    decreases |xs|
  {
    if xs != [] {
      FoldSumIsSum(seed + f(xs[0]), xs[1..], f);
    }
  }

  /** A total over a concatenation is the sum of the two totals. */
  lemma {:induction false} SumOfAppend<T>(xs: seq<T>, ys: seq<T>, f: T -> int)
    ensures SumOf(xs + ys, f) == SumOf(xs, f) + SumOf(ys, f)
  {
    if xs == [] {
      assert xs + ys == ys;
    } else {
      assert (xs + ys)[1..] == xs[1..] + ys;
      SumOfAppend(xs[1..], ys, f);
    }
  }

  /** `a` can be obtained from `b` by deleting elements, keeping the order of the rest. */
  predicate IsSubsequence<T(==)>(a: seq<T>, b: seq<T>) {
    a == [] || (b != [] && if a[0] == b[0] then IsSubsequence(a[1..], b[1..]) else IsSubsequence(a, b[1..]))
  }

  /** `xs.filter(p)`: exactly the elements satisfying `p`, in their original order. */
  function Filter<T(==)>(xs: seq<T>, p: T -> bool): (r: seq<T>)
    ensures IsSubsequence(r, xs) && |r| <= |xs|
    ensures forall x :: x in r ==> x in xs && p(x)
    ensures forall x :: x in xs && p(x) ==> x in r
    ensures (forall x :: x in xs ==> p(x)) ==> r == xs
    ensures |r| == |xs| ==> forall x :: x in xs ==> p(x)
    ensures forall x :: x in xs ==> multiset(r)[x] == (if p(x) then multiset(xs)[x] else 0)
  {
    if xs == [] then []
    else
      assert xs == [xs[0]] + xs[1..];
      if p(xs[0]) then [xs[0]] + Filter(xs[1..], p)
      else Filter(xs[1..], p)
  }

  /** Filtering with two predicates that agree on every element gives the same result. */
  lemma {:induction false} FilterCongruent<T>(xs: seq<T>, p: T -> bool, q: T -> bool)
    requires forall x :: x in xs ==> p(x) == q(x)
    ensures Filter(xs, p) == Filter(xs, q)
  {
    if xs != [] {
      FilterCongruent(xs[1..], p, q);
    }
  }

  /** `xs.map(f)`: the image of every element, position by position. */
  function MapSeq<T, U>(xs: seq<T>, f: T -> U): (r: seq<U>)
    ensures |r| == |xs|
    ensures forall i :: 0 <= i < |xs| ==> r[i] == f(xs[i])
  {
    if xs == [] then [] else [f(xs[0])] + MapSeq(xs[1..], f)
  }

  /** The keys of `xs` are in ascending order, each no greater than the next. */
  ghost predicate SortedBy<T>(xs: seq<T>, key: T -> string) {
    forall i :: 0 < i < |xs| ==> LexLe(key(xs[i - 1]), key(xs[i]))
  }

  /** Inserts `x` before the first element whose key is not smaller than its own. */
  function InsertBy<T>(x: T, xs: seq<T>, key: T -> string): (r: seq<T>)
    requires SortedBy(xs, key)
    ensures SortedBy(r, key)
    ensures multiset(r) == multiset(xs) + multiset{x}
    ensures r[0] == x || (xs != [] && r[0] == xs[0])
  {
    if xs == [] || LexLe(key(x), key(xs[0])) then [x] + xs
    else
      LexLeTotal(key(x), key(xs[0]));
      assert xs == [xs[0]] + xs[1..];
      [xs[0]] + InsertBy(x, xs[1..], key)
  }

  /** `xs.slice().sort((a, b) => key(a).localeCompare(key(b)))`: a sorted permutation of `xs`
      (insertion sort, which like the engine's sort is stable). */
  function SortBy<T>(xs: seq<T>, key: T -> string): (r: seq<T>)
    ensures SortedBy(r, key)
    ensures multiset(r) == multiset(xs)
  {
    if xs == [] then []
    else
      assert xs == [xs[0]] + xs[1..];
      InsertBy(xs[0], SortBy(xs[1..], key), key)
  }

  /** Mapping commutes with insertion up to order: the images are those of `xs` plus `f(x)`. */
  lemma {:induction false} MapOfInsertBy<T, U>(x: T, xs: seq<T>, key: T -> string, f: T -> U)
    requires SortedBy(xs, key)
    ensures multiset(MapSeq(InsertBy(x, xs, key), f)) == multiset(MapSeq(xs, f)) + multiset{f(x)}
  {
    if xs == [] || LexLe(key(x), key(xs[0])) {
      assert MapSeq([x] + xs, f) == [f(x)] + MapSeq(xs, f);
    } else {
      var rest := InsertBy(x, xs[1..], key);
      MapOfInsertBy(x, xs[1..], key, f);
      assert MapSeq([xs[0]] + rest, f) == [f(xs[0])] + MapSeq(rest, f);
      assert MapSeq(xs, f) == [f(xs[0])] + MapSeq(xs[1..], f);
    }
  }

  /** The images of a sorted copy are a permutation of the images of the original. */
  lemma {:induction false} MapOfSortBy<T, U>(xs: seq<T>, key: T -> string, f: T -> U)
    ensures multiset(MapSeq(SortBy(xs, key), f)) == multiset(MapSeq(xs, f))
  {
    if xs != [] {
      MapOfSortBy(xs[1..], key, f);
      MapOfInsertBy(xs[0], SortBy(xs[1..], key), key, f);
      assert MapSeq(xs, f) == [f(xs[0])] + MapSeq(xs[1..], f);
    }
  }
}
