/** Sums and counts over the processes of a system. */
module Sums {

  function Sum<T>(xs: seq<T>, f: T -> int): int {
    if xs == [] then 0 else Sum(xs[..|xs| - 1], f) + f(xs[|xs| - 1])
  }

  function One(b: bool): int { if b then 1 else 0 }

  lemma {:induction false} SumUpdate<T>(xs: seq<T>, f: T -> int, k: nat, x: T)
    requires k < |xs|
    ensures Sum(xs[k := x], f) == Sum(xs, f) - f(xs[k]) + f(x)
    decreases |xs|
  {
    var l := |xs| - 1;
    if k == l {
      assert xs[k := x][..l] == xs[..l];
    } else {
      assert xs[k := x][..l] == xs[..l][k := x];
      SumUpdate(xs[..l], f, k, x);
    }
  }

  lemma {:induction false} SumSame<T>(xs: seq<T>, f: T -> int, v: int)
    requires forall k :: 0 <= k < |xs| ==> f(xs[k]) == v
    ensures Sum(xs, f) == |xs| * v
    decreases |xs|
  {
    if xs != [] {
      SumSame(xs[..|xs| - 1], f, v);
      assert |xs| * v == (|xs| - 1) * v + v;
    }
  }

  lemma {:induction false} SumEqual<T>(xs: seq<T>, ys: seq<T>, f: T -> int)
    requires |xs| == |ys| && forall k :: 0 <= k < |xs| ==> f(xs[k]) == f(ys[k])
    ensures Sum(xs, f) == Sum(ys, f)
    decreases |xs|
  {
    if xs != [] {
      SumEqual(xs[..|xs| - 1], ys[..|ys| - 1], f);
    }
  }

  lemma {:induction false} SumAtMost<T>(xs: seq<T>, f: T -> int, g: T -> int)
    requires forall k :: 0 <= k < |xs| ==> f(xs[k]) <= g(xs[k])
    ensures Sum(xs, f) <= Sum(xs, g)
    ensures (exists k :: 0 <= k < |xs| && f(xs[k]) < g(xs[k])) ==> Sum(xs, f) < Sum(xs, g)
    decreases |xs|
  {
    if xs != [] {
      var l := |xs| - 1;
      SumAtMost(xs[..l], f, g);
      assert forall k :: 0 <= k < l ==> xs[..l][k] == xs[k];
    }
  }

  // Two functions that differ at one place only.
  lemma {:induction false} SumDiffers<T>(xs: seq<T>, f: T -> int, g: T -> int, k: nat)
    requires k < |xs| && forall j :: 0 <= j < |xs| && j != k ==> f(xs[j]) == g(xs[j])
    ensures Sum(xs, g) == Sum(xs, f) - f(xs[k]) + g(xs[k])
    decreases |xs|
  {
    var l := |xs| - 1;
    assert forall j :: 0 <= j < l ==> xs[..l][j] == xs[j];
    if k < l {
      SumDiffers(xs[..l], f, g, k);
    } else {
      SumAgree(xs[..l], f, g);
    }
  }

  lemma SumAgree<T>(xs: seq<T>, f: T -> int, g: T -> int)
    requires forall j :: 0 <= j < |xs| ==> f(xs[j]) == g(xs[j])
    ensures Sum(xs, f) == Sum(xs, g)
  {
    SumAtMost(xs, f, g);
    SumAtMost(xs, g, f);
  }

  lemma {:induction false} SumNatural<T>(xs: seq<T>, f: T -> int)
    requires forall k :: 0 <= k < |xs| ==> f(xs[k]) >= 0
    ensures Sum(xs, f) >= 0
    decreases |xs|
  {
    if xs != [] {
      SumNatural(xs[..|xs| - 1], f);
    }
  }

  // f counts: it is 0 or 1.
  lemma {:induction false} CountBounds<T>(xs: seq<T>, f: T -> int)
    requires forall k :: 0 <= k < |xs| ==> 0 <= f(xs[k]) <= 1
    ensures 0 <= Sum(xs, f) <= |xs|
    ensures Sum(xs, f) == |xs| <==> forall k :: 0 <= k < |xs| ==> f(xs[k]) == 1
    ensures Sum(xs, f) == 0 <==> forall k :: 0 <= k < |xs| ==> f(xs[k]) == 0
    decreases |xs|
  {
    if xs != [] {
      var l := |xs| - 1;
      CountBounds(xs[..l], f);
      assert forall k :: 0 <= k < l ==> xs[..l][k] == xs[k];
    }
  }
}
