// Sums over sequences and how they change when one entry changes.
module Sums {

  function Total(xs: seq<nat>): nat {
    if xs == [] then 0 else Total(xs[..|xs| - 1]) + xs[|xs| - 1]
  }

  lemma {:induction false} TotalUpdate(xs: seq<nat>, i: nat, x: nat)
    requires i < |xs|
    ensures Total(xs[i := x]) == Total(xs) - xs[i] + x
    decreases |xs|
  {
    var ys := xs[i := x];
    var last := |xs| - 1;
    if i == last {
      assert ys[..last] == xs[..last];
    } else {
      assert ys[..last] == xs[..last][i := x];
      TotalUpdate(xs[..last], i, x);
    }
  }

  // How many entries satisfy a test.
  function Tally<T>(xs: seq<T>, test: T -> bool): (n: nat)
    ensures n <= |xs|
  {
    if xs == [] then 0
    else Tally(xs[..|xs| - 1], test) + (if test(xs[|xs| - 1]) then 1 else 0)
  }

  lemma {:induction false} TallyUpdate<T>(xs: seq<T>, i: nat, x: T, test: T -> bool)
    requires i < |xs|
    ensures Tally(xs[i := x], test)
         == Tally(xs, test) - (if test(xs[i]) then 1 else 0) + (if test(x) then 1 else 0)
    decreases |xs|
  {
    var ys := xs[i := x];
    var last := |xs| - 1;
    if i == last {
      assert ys[..last] == xs[..last];
    } else {
      assert ys[..last] == xs[..last][i := x];
      TallyUpdate(xs[..last], i, x, test);
    }
  }

  lemma {:induction false} TallyNone<T>(xs: seq<T>, test: T -> bool)
    ensures Tally(xs, test) == 0 <==> forall i | 0 <= i < |xs| :: !test(xs[i])
    decreases |xs|
  {
    if xs != [] {
      var rest := xs[..|xs| - 1];
      TallyNone(rest, test);
      if Tally(xs, test) == 0 {
        forall i | 0 <= i < |xs| ensures !test(xs[i]) {
          if i < |rest| { assert rest[i] == xs[i]; }
        }
      } else if !test(xs[|xs| - 1]) {
        var i :| 0 <= i < |rest| && test(rest[i]);
        assert test(xs[i]);
      }
    }
  }

  lemma {:induction false} TotalZeros(xs: seq<nat>)
    requires forall i | 0 <= i < |xs| :: xs[i] == 0
    ensures Total(xs) == 0
    decreases |xs|
  {
    if xs != [] {
      TotalZeros(xs[..|xs| - 1]);
    }
  }
}
