// Sums of a weight over a sequence, and how they follow single updates.
module Sums {

  function Sum<T>(weight: T -> nat, xs: seq<T>): nat {
    if xs == [] then 0 else Sum(weight, xs[..|xs| - 1]) + weight(xs[|xs| - 1])
  }

  lemma SumAppend<T>(weight: T -> nat, xs: seq<T>, x: T)
    ensures Sum(weight, xs + [x]) == Sum(weight, xs) + weight(x)
  {
  }

  lemma {:induction false} SumConcat<T>(weight: T -> nat, xs: seq<T>, ys: seq<T>)
    ensures Sum(weight, xs + ys) == Sum(weight, xs) + Sum(weight, ys)
  {
    if ys == [] {
      assert xs + ys == xs;
    } else {
      var n := |ys| - 1;
      assert (xs + ys)[..|xs| + n] == xs + ys[..n];
      SumConcat(weight, xs, ys[..n]);
    }
  }

  lemma SumHead<T>(weight: T -> nat, xs: seq<T>)
    requires xs != []
    ensures Sum(weight, xs) == weight(xs[0]) + Sum(weight, xs[1..])
  {
    assert xs == xs[..1] + xs[1..];
    SumConcat(weight, xs[..1], xs[1..]);
    assert xs[..1] == [] + [xs[0]];
    SumAppend(weight, [], xs[0]);
  }

  lemma SumSplit<T>(weight: T -> nat, xs: seq<T>, i: nat)
    requires i < |xs|
    ensures Sum(weight, xs) == Sum(weight, xs[..i]) + weight(xs[i]) + Sum(weight, xs[i + 1..])
  {
    assert xs == xs[..i] + xs[i..];
    SumConcat(weight, xs[..i], xs[i..]);
    SumHead(weight, xs[i..]);
    assert xs[i..][1..] == xs[i + 1..];
  }

  lemma SumUpdate<T>(weight: T -> nat, xs: seq<T>, i: nat, x: T)
    requires i < |xs|
    ensures Sum(weight, xs[i := x]) + weight(xs[i]) == Sum(weight, xs) + weight(x)
    ensures weight(xs[i]) <= Sum(weight, xs)
  {
    var ys := xs[i := x];
    SumSplit(weight, xs, i);
    SumSplit(weight, ys, i);
    assert ys[..i] == xs[..i] && ys[i + 1..] == xs[i + 1..];
  }

  lemma SumRemove<T>(weight: T -> nat, xs: seq<T>, i: nat)
    requires i < |xs|
    ensures Sum(weight, xs[..i] + xs[i + 1..]) + weight(xs[i]) == Sum(weight, xs)
  {
    SumSplit(weight, xs, i);
    SumConcat(weight, xs[..i], xs[i + 1..]);
  }

  lemma {:induction false} SumIsPositive<T>(weight: T -> nat, xs: seq<T>)
    ensures Sum(weight, xs) > 0 <==> exists i :: 0 <= i < |xs| && weight(xs[i]) > 0
  {
    if xs == [] {
    } else {
      var n := |xs| - 1;
      SumIsPositive(weight, xs[..n]);
      if weight(xs[n]) == 0 && Sum(weight, xs) > 0 {
        var i :| 0 <= i < n && weight(xs[..n][i]) > 0;
        assert weight(xs[i]) > 0;
      }
      if i :| 0 <= i < |xs| && weight(xs[i]) > 0 {
        if i < n {
          assert weight(xs[..n][i]) > 0;
        }
      }
    }
  }
}
