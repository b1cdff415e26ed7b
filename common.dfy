/** Small value types and sequence helpers shared by every component of the model. */
module Common {

  /** Python's `None` or a value. */
  datatype Option<T> = None | Some(value: T)

  /** An operation that either succeeds or raises. */
  datatype Result<T> = Ok(value: T) | Err(message: string)

  /** A pointer position in window pixels. */
  datatype Pos = Pos(x: int, y: int)

  /** Degrees of rotation per pixel of mouse drag, in both the labelling tool and the experiment. */
  const Sensitivity: real := 0.5

  function Min(a: int, b: int): int
  {
    if a <= b then a else b
  }

  /** The elements of `s` that satisfy `p`, in their original order (a list comprehension with a guard). */
  function Filter<T>(s: seq<T>, p: T -> bool): (r: seq<T>)
    ensures |r| <= |s|
    ensures forall x :: x in r ==> x in s && p(x)
    decreases |s|
  {
    if s == [] then []
    else (if p(s[0]) then [s[0]] else []) + Filter(s[1..], p)
  }

  /** Filtering a concatenation filters each part and keeps them in order. */
  lemma {:induction false} FilterAppend<T>(a: seq<T>, b: seq<T>, p: T -> bool)
    ensures Filter(a + b, p) == Filter(a, p) + Filter(b, p)
    decreases |a|
  {
    if a == [] {
      assert a + b == b;
    } else {
      assert (a + b)[0] == a[0];
      assert (a + b)[1..] == a[1..] + b;
      FilterAppend(a[1..], b, p);
    }
  }

  /** A guard and its negation split a sequence into two parts that together hold every element once. */
  lemma {:induction false} FilterComplement<T>(s: seq<T>, p: T -> bool, q: T -> bool)
    requires forall x :: q(x) == !p(x)
    ensures |Filter(s, p)| + |Filter(s, q)| == |s|
    ensures multiset(Filter(s, p)) + multiset(Filter(s, q)) == multiset(s)
    decreases |s|
  {
    if s != [] {
      FilterComplement(s[1..], p, q);
      assert s == [s[0]] + s[1..];
    }
  }

  /** Filtering keeps every element that satisfies the guard, as often as it occurs. */
  lemma {:induction false} FilterKeeps<T>(s: seq<T>, p: T -> bool, x: T)
    requires p(x)
    ensures multiset(Filter(s, p))[x] == multiset(s)[x]
    decreases |s|
  {
    if s != [] {
      FilterKeeps(s[1..], p, x);
      assert s == [s[0]] + s[1..];
    }
  }

  /** Python's `sum(...)` over reals, left to right. */
  function Sum(s: seq<real>): real
    decreases |s|
  {
    if s == [] then 0.0 else Sum(s[..|s| - 1]) + s[|s| - 1]
  }

  /** A sum of nonnegative terms is nonnegative. */
  lemma {:induction false} SumNonnegative(s: seq<real>)
    requires forall i :: 0 <= i < |s| ==> 0.0 <= s[i]
    ensures 0.0 <= Sum(s)
    decreases |s|
  {
    if s != [] {
      SumNonnegative(s[..|s| - 1]);
    }
  }

  /**
   * Counting what satisfies `q` over the whole sequence is counting it in each of the two
   * parts that a guard and its negation split the sequence into.
   */
  lemma {:induction false} FilterSplitCount<T>(s: seq<T>, p: T -> bool, np: T -> bool, q: T -> bool)
    requires forall x :: np(x) == !p(x)
    ensures |Filter(s, q)| == |Filter(Filter(s, p), q)| + |Filter(Filter(s, np), q)|
    decreases |s|
  {
    if s != [] {
      FilterSplitCount(s[1..], p, np, q);
      if p(s[0]) {
        assert Filter(s, p) == [s[0]] + Filter(s[1..], p);
        assert Filter(s, np) == Filter(s[1..], np);
        FilterAppend([s[0]], Filter(s[1..], p), q);
      } else {
        assert Filter(s, np) == [s[0]] + Filter(s[1..], np);
        assert Filter(s, p) == Filter(s[1..], p);
        FilterAppend([s[0]], Filter(s[1..], np), q);
      }
    }
  }

  /** What a foreign least-squares fit (`linregress`) returns. */
  datatype Regression = Regression(slope: real, intercept: real, r: real, p: real, stdErr: real)
}
