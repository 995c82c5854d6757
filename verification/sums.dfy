/**
 Summation over sequences.

 `Inject` is the accumulation the invoice uses, `inject(acc) { |sum, x| sum + f(x) }`:
 a left fold that starts from `acc` and adds `f(x)` for each element in order.
 `Sum` is an independent, right-recursive definition of the mathematical sum.
 `Inject`'s contract relates the two; the lemmas give the algebra the invoice
 totals rely on.
 */
module Sums {

  /** Left fold: adds `f(x)` to the running `acc` for each `x` of `xs`, first to last.
      Whatever the start value, the fold arrives at it plus the sum of `f` over `xs`. */
  function Inject<T>(acc: int, xs: seq<T>, f: T -> int): (r: int)
    ensures r == acc + Sum(xs, f)
    decreases |xs|
  {
    if |xs| == 0 then acc else Inject(acc + f(xs[0]), xs[1..], f)
  }

  /** Reference sum of `f` over `xs`. */
  function Sum<T>(xs: seq<T>, f: T -> int): (r: int)
    decreases |xs|
  {
    if |xs| == 0 then 0 else f(xs[0]) + Sum(xs[1..], f)
  }

  /** The sum is additive over concatenation. */
  lemma {:induction false} SumConcat<T>(xs: seq<T>, ys: seq<T>, f: T -> int)
    ensures Sum(xs + ys, f) == Sum(xs, f) + Sum(ys, f)
    decreases |xs|
  {
    if |xs| == 0 {
      assert xs + ys == ys;
    } else {
      assert (xs + ys)[1..] == xs[1..] + ys;
      SumConcat(xs[1..], ys, f);
    }
  }

  /** Summing a pointwise sum equals adding the two sums. */
  lemma {:induction false} SumPointwise<T>(xs: seq<T>, f: T -> int, g: T -> int, h: T -> int)
    requires forall x :: h(x) == f(x) + g(x)
    ensures Sum(xs, h) == Sum(xs, f) + Sum(xs, g)
    decreases |xs|
  {
    if |xs| > 0 {
      SumPointwise(xs[1..], f, g, h);
    }
  }
}
