/** Failure-compatible result types and the one sequence filter the model needs. */
module Outcome {

  /** An optional value, as Rust's `Option`. */
  datatype Option<+T> = None | Some(value: T)

  /** A value or an error, as Rust's `Result`; usable with `:-` like the `?` operator. */
  datatype Result<+T, +E> = Ok(value: T) | Err(error: E) {
    predicate IsFailure() {
      Err?
    }

    function PropagateFailure<U>(): Result<U, E>
      requires Err?
    {
      Err(error)
    }

    function Extract(): T
      requires Ok?
    {
      value
    }
  }

  /** The elements of `s` that satisfy `p`, in their original order. */
  function Filter<T>(s: seq<T>, p: T -> bool): (r: seq<T>)
    ensures |r| <= |s|
    ensures forall x :: x in r ==> x in s && p(x)
    ensures forall x :: x in s && p(x) ==> x in r
  {
    if s == [] then []
    else if p(s[0]) then [s[0]] + Filter(s[1..], p)
    else Filter(s[1..], p)
  }

  /** Filtering distributes over concatenation, so order is that of the input. */
  lemma {:induction false} FilterAppend<T>(a: seq<T>, b: seq<T>, p: T -> bool)
    ensures Filter(a + b, p) == Filter(a, p) + Filter(b, p)
  {
    if a == [] {
      assert a + b == b;
    } else {
      assert (a + b)[1..] == a[1..] + b;
      FilterAppend(a[1..], b, p);
    }
  }

  /** Predicates that agree on every element of `s` select the same subsequence. */
  lemma {:induction false} FilterCongruent<T>(s: seq<T>, p: T -> bool, q: T -> bool)
    requires forall x :: x in s ==> p(x) == q(x)
    ensures Filter(s, p) == Filter(s, q)
  {
    if s != [] {
      assert forall x :: x in s[1..] ==> x in s;
      FilterCongruent(s[1..], p, q);
    }
  }

  /** A filter that selects nothing yields the empty sequence. */
  lemma FilterNone<T>(s: seq<T>, p: T -> bool)
    requires forall x :: x in s ==> !p(x)
    ensures Filter(s, p) == []
  {
  }
}
