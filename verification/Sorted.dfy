/** `sorted({...})` on integers: each once, in increasing order. */
module Sorted {

  predicate Increasing(xs: seq<int>) {
    forall i, j :: 0 <= i < j < |xs| ==> xs[i] < xs[j]
  }

  function Insert(xs: seq<int>, x: int): (r: seq<int>)
    requires Increasing(xs)
    ensures Increasing(r)
    ensures forall y :: y in r <==> y == x || y in xs
  {
    if xs == [] then [x]
    else if x < xs[0] then [x] + xs
    else if x == xs[0] then xs
    else
      var r := Insert(xs[1..], x);
      assert forall y :: y in xs <==> y == xs[0] || y in xs[1..];
      assert forall i :: 0 <= i < |r| ==> r[i] in r;
      [xs[0]] + r
  }

  method SortedDistinct(xs: seq<int>) returns (r: seq<int>)
    ensures Increasing(r)
    ensures forall x :: x in r <==> x in xs
    ensures r == [] <==> xs == []
  {
    r := [];
    for i := 0 to |xs|
      invariant Increasing(r)
      invariant forall x :: x in r <==> x in xs[..i]
      invariant r == [] <==> i == 0
    {
      assert xs[..i + 1] == xs[..i] + [xs[i]];
      r := Insert(r, xs[i]);
      assert xs[i] in r;
    }
    assert xs[..|xs|] == xs;
  }
}
