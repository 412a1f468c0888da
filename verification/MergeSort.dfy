// What HASH_SRT makes of a list: bottom-up merge sort on sequences, and why the result is
// the one stable sorted arrangement.
module MergeSort {
  import opened Basics

  // On a tie the element of the first run goes first.
  function Merge<T>(p: seq<T>, q: seq<T>, le: (T, T) -> bool): (r: seq<T>)
    decreases |p| + |q|
    ensures |r| == |p| + |q|
  {
    if p == [] then q
    else if q == [] then p
    else if le(p[0], q[0]) then [p[0]] + Merge(p[1..], q, le)
    else [q[0]] + Merge(p, q[1..], le)
  }

  lemma MinTwice(w: nat, n: nat)
    ensures Min(w, n) <= Min(2 * w, n) <= n && Min(w, n - Min(w, n)) == Min(2 * w, n) - Min(w, n)
  {
  }

  // One pass: runs of w elements are merged two by two.
  function Pass<T>(s: seq<T>, w: nat, le: (T, T) -> bool): (r: seq<T>)
    requires w > 0
    decreases |s|
    ensures |r| == |s|
  {
    if s == [] then []
    else
      var m, n := Min(w, |s|), Min(2 * w, |s|);
      Merge(s[..m], s[m..n], le) + Pass(s[n..], w, le)
  }

  function Passes<T>(s: seq<T>, w: nat, le: (T, T) -> bool): seq<T>
    requires w > 0
    decreases |s| - 2 * w
  {
    if |s| <= 2 * w then Pass(s, w, le) else Passes(Pass(s, w, le), 2 * w, le)
  }

  // The comparison is total and transitive on these elements.
  ghost predicate Preorder<T>(s: seq<T>, le: (T, T) -> bool) {
    && (forall a, b | a in s && b in s :: le(a, b) || le(b, a))
    && (forall a, b, c | a in s && b in s && c in s && le(a, b) && le(b, c) :: le(a, c))
  }

  // a belongs before b: it is smaller, or it is equal and came first.
  predicate Before<T>(a: T, b: T, le: (T, T) -> bool, rank: T -> int) {
    le(a, b) && (le(b, a) ==> rank(a) < rank(b))
  }

  ghost predicate StableSorted<T>(s: seq<T>, le: (T, T) -> bool, rank: T -> int) {
    forall i, j | 0 <= i < j < |s| :: Before(s[i], s[j], le, rank)
  }

  ghost predicate Ranked<T>(s: seq<T>, rank: T -> int) {
    forall i, j | 0 <= i < j < |s| :: rank(s[i]) < rank(s[j])
  }

  lemma HeadIn<T>(s: seq<T>)
    requires s != []
    ensures multiset(s) == multiset{s[0]} + multiset(s[1..])
  {
    assert s == [s[0]] + s[1..];
  }

  lemma {:induction false} MergeIn<T>(p: seq<T>, q: seq<T>, le: (T, T) -> bool)
    ensures multiset(Merge(p, q, le)) == multiset(p) + multiset(q)
    decreases |p| + |q|
  {
    if p != [] && q != [] {
      var merged := Merge(p, q, le);
      HeadIn(merged);
      if le(p[0], q[0]) {
        MergeIn(p[1..], q, le);
        HeadIn(p);
        assert merged[1..] == Merge(p[1..], q, le);
      } else {
        MergeIn(p, q[1..], le);
        HeadIn(q);
        assert merged[1..] == Merge(p, q[1..], le);
      }
    } else {
      assert p == [] ==> multiset(p) == multiset{};
      assert q == [] ==> multiset(q) == multiset{};
    }
  }

  lemma {:induction false} PassIn<T>(s: seq<T>, w: nat, le: (T, T) -> bool)
    requires w > 0
    ensures multiset(Pass(s, w, le)) == multiset(s)
    decreases |s|
  {
    hide Merge;
    if s != [] {
      var m, n := Min(w, |s|), Min(2 * w, |s|);
      MergeIn(s[..m], s[m..n], le);
      PassIn(s[n..], w, le);
      assert s == s[..m] + s[m..n] + s[n..];
    }
  }

  // Whatever the comparison says, nothing is lost or duplicated.
  lemma {:induction false} PassesIn<T>(s: seq<T>, w: nat, le: (T, T) -> bool)
    requires w > 0
    ensures multiset(Passes(s, w, le)) == multiset(s)
    decreases |s| - 2 * w
  {
    hide Pass;
    PassIn(s, w, le);
    if |s| > 2 * w { PassesIn(Pass(s, w, le), 2 * w, le); }
  }

  lemma SameMembers<T>(s: seq<T>, t: seq<T>, x: T)
    requires multiset(s) == multiset(t)
    ensures x in s <==> x in t
  {
    assert x in multiset(s) <==> x in multiset(t);
  }

  lemma BeforeTransitive<T>(all: seq<T>, a: T, b: T, c: T, le: (T, T) -> bool, rank: T -> int)
    requires Preorder(all, le) && a in all && b in all && c in all
    requires Before(a, b, le, rank) && Before(b, c, le, rank)
    ensures Before(a, c, le, rank)
  {
  }

  lemma SortedCons<T>(e: T, s: seq<T>, le: (T, T) -> bool, rank: T -> int)
    requires StableSorted(s, le, rank) && forall x | x in s :: Before(e, x, le, rank)
    ensures StableSorted([e] + s, le, rank)
  {
  }

  lemma SortedTail<T>(s: seq<T>, le: (T, T) -> bool, rank: T -> int)
    requires StableSorted(s, le, rank) && s != []
    ensures StableSorted(s[1..], le, rank)
    ensures forall x | x in s[1..] :: Before(s[0], x, le, rank)
  {
  }

  lemma {:induction false} MergeSorted<T>(all: seq<T>, p: seq<T>, q: seq<T>, le: (T, T) -> bool, rank: T -> int)
    requires Preorder(all, le) && (forall a | a in p + q :: a in all)
    requires StableSorted(p, le, rank) && StableSorted(q, le, rank)
    requires forall a, b | a in p && b in q :: rank(a) < rank(b)
    ensures StableSorted(Merge(p, q, le), le, rank)
    decreases |p| + |q|
  {
    hide StableSorted, Before, Preorder;
    if p != [] && q != [] {
      SortedTail(p, le, rank);
      SortedTail(q, le, rank);
      HeadsBefore(all, p, q, le, rank);
      if le(p[0], q[0]) {
        MergeSorted(all, p[1..], q, le, rank);
        MergeIn(p[1..], q, le);
        forall x | x in Merge(p[1..], q, le) ensures Before(p[0], x, le, rank) {
          SameMembers(Merge(p[1..], q, le), p[1..] + q, x);
        }
        SortedCons(p[0], Merge(p[1..], q, le), le, rank);
      } else {
        MergeSorted(all, p, q[1..], le, rank);
        MergeIn(p, q[1..], le);
        forall x | x in Merge(p, q[1..], le) ensures Before(q[0], x, le, rank) {
          SameMembers(Merge(p, q[1..], le), p + q[1..], x);
        }
        SortedCons(q[0], Merge(p, q[1..], le), le, rank);
      }
    }
  }

  // The head that the merge takes belongs before everything else.
  lemma HeadsBefore<T>(all: seq<T>, p: seq<T>, q: seq<T>, le: (T, T) -> bool, rank: T -> int)
    requires Preorder(all, le) && p != [] && q != [] && (forall a | a in p + q :: a in all)
    requires forall x | x in p[1..] :: Before(p[0], x, le, rank)
    requires forall x | x in q[1..] :: Before(q[0], x, le, rank)
    requires rank(p[0]) < rank(q[0])
    ensures le(p[0], q[0]) ==> forall x | x in p[1..] + q :: Before(p[0], x, le, rank)
    ensures !le(p[0], q[0]) ==> forall x | x in p + q[1..] :: Before(q[0], x, le, rank)
  {
    assert p[0] in p + q && q[0] in p + q;
    if le(p[0], q[0]) {
      forall x | x in p[1..] + q ensures Before(p[0], x, le, rank) {
        assert x in p + q;
        if x !in p[1..] && x != q[0] { BeforeTransitive(all, p[0], q[0], x, le, rank); }
      }
    } else {
      forall x | x in p + q[1..] ensures Before(q[0], x, le, rank) {
        assert x in p + q;
        if x !in q[1..] && x != p[0] { BeforeTransitive(all, q[0], p[0], x, le, rank); }
      }
    }
  }

  // Between passes: every run of w elements is a sorted arrangement of the same elements
  // as in the original list.
  ghost predicate Runs<T>(s: seq<T>, o: seq<T>, w: nat, le: (T, T) -> bool, rank: T -> int)
    decreases |s|
  {
    && |s| == |o|
    && (w > 0 && s != [] ==>
          var m := Min(w, |s|);
          && StableSorted(s[..m], le, rank) && multiset(s[..m]) == multiset(o[..m])
          && Runs(s[m..], o[m..], w, le, rank))
  }

  lemma {:induction false} SingletonRuns<T>(s: seq<T>, le: (T, T) -> bool, rank: T -> int)
    ensures Runs(s, s, 1, le, rank)
  {
    if s != [] { SingletonRuns(s[1..], le, rank); }
  }

  lemma FirstRun<T>(s: seq<T>, o: seq<T>, w: nat, le: (T, T) -> bool, rank: T -> int)
    requires w > 0 && Runs(s, o, w, le, rank)
    ensures var m := Min(w, |s|);
            && |s| == |o| && StableSorted(s[..m], le, rank) && multiset(s[..m]) == multiset(o[..m])
            && Runs(s[m..], o[m..], w, le, rank)
  {
    if s == [] {
      SortedEmpty(s, le, rank);
    } else {
      hide StableSorted;
    }
  }

  lemma NoRuns<T>(s: seq<T>, o: seq<T>, w: nat, v: nat, le: (T, T) -> bool, rank: T -> int)
    requires s == [] && Runs(s, o, w, le, rank)
    ensures Runs(s, o, v, le, rank)
  {
  }

  lemma Slices<T>(s: seq<T>, m: nat, n: nat)
    requires m <= n <= |s|
    ensures s[m..][..n - m] == s[m..n] && s[m..][n - m..] == s[n..]
  {
  }

  // The first two runs, and what follows them.
  lemma TwoRuns<T>(s: seq<T>, o: seq<T>, w: nat, le: (T, T) -> bool, rank: T -> int)
    requires w > 0 && Runs(s, o, w, le, rank)
    ensures var m, n := Min(w, |s|), Min(2 * w, |s|);
            && |s| == |o|
            && StableSorted(s[..m], le, rank) && multiset(s[..m]) == multiset(o[..m])
            && StableSorted(s[m..n], le, rank) && multiset(s[m..n]) == multiset(o[m..n])
            && Runs(s[n..], o[n..], w, le, rank)
  {
    hide StableSorted, Runs, Min;
    var m, n := Min(w, |s|), Min(2 * w, |s|);
    MinTwice(w, |s|);
    FirstRun(s, o, w, le, rank);
    SecondRun(s, o, m, n, w, le, rank);
  }

  lemma SecondRun<T>(s: seq<T>, o: seq<T>, m: nat, n: nat, w: nat, le: (T, T) -> bool, rank: T -> int)
    requires w > 0 && m <= n <= |s| == |o| && n - m == Min(w, |s| - m) && Runs(s[m..], o[m..], w, le, rank)
    ensures StableSorted(s[m..n], le, rank) && multiset(s[m..n]) == multiset(o[m..n])
    ensures Runs(s[n..], o[n..], w, le, rank)
  {
    hide StableSorted, Runs, Min;
    FirstRun(s[m..], o[m..], w, le, rank);
    Slices(s, m, n);
    Slices(o, m, n);
  }

  lemma RunsCons<T>(first: seq<T>, rest: seq<T>, o: seq<T>, w: nat, le: (T, T) -> bool, rank: T -> int)
    requires |first| == Min(w, |o|) && |first| + |rest| == |o|
    requires StableSorted(first, le, rank) && multiset(first) == multiset(o[..|first|])
    requires Runs(rest, o[|first|..], w, le, rank)
    ensures Runs(first + rest, o, w, le, rank)
  {
    hide StableSorted;
    assert (first + rest)[..|first|] == first && (first + rest)[|first|..] == rest;
  }

  lemma {:induction false} PassRuns<T>(all: seq<T>, s: seq<T>, o: seq<T>, w: nat, le: (T, T) -> bool, rank: T -> int)
    requires w > 0 && Runs(s, o, w, le, rank) && Ranked(o, rank)
    requires Preorder(all, le) && forall x | x in o :: x in all
    ensures Runs(Pass(s, w, le), o, 2 * w, le, rank)
    decreases |s|
  {
    hide StableSorted, Preorder, Merge, Runs;
    if s != [] {
      var m, n := Min(w, |s|), Min(2 * w, |s|);
      TwoRuns(s, o, w, le, rank);
      assert o[..n][..m] == o[..m] && o[..n][m..] == o[m..n];
      MergeRuns(all, s[..m], s[m..n], o[..n], m, le, rank);
      PassRuns(all, s[n..], o[n..], w, le, rank);
      RunsCons(Merge(s[..m], s[m..n], le), Pass(s[n..], w, le), o, 2 * w, le, rank);
    } else {
      NoRuns(s, o, w, 2 * w, le, rank);
    }
  }

  lemma MergeRuns<T>(all: seq<T>, p: seq<T>, q: seq<T>, o: seq<T>, m: nat, le: (T, T) -> bool, rank: T -> int)
    requires Preorder(all, le) && (forall x | x in o :: x in all) && Ranked(o, rank) && m <= |o|
    requires StableSorted(p, le, rank) && StableSorted(q, le, rank)
    requires multiset(p) == multiset(o[..m]) && multiset(q) == multiset(o[m..])
    ensures StableSorted(Merge(p, q, le), le, rank) && multiset(Merge(p, q, le)) == multiset(o)
  {
    hide StableSorted, Preorder;
    RunsApart(p, q, o, m, rank);
    MergeSorted(all, p, q, le, rank);
    MergeIn(p, q, le);
    assert o == o[..m] + o[m..];
  }

  lemma SortedEmpty<T>(s: seq<T>, le: (T, T) -> bool, rank: T -> int)
    requires s == []
    ensures StableSorted(s, le, rank)
  {
  }

  lemma RunsApart<T>(p: seq<T>, q: seq<T>, o: seq<T>, m: nat, rank: T -> int)
    requires m <= |o| && Ranked(o, rank) && multiset(p) == multiset(o[..m]) && multiset(q) == multiset(o[m..])
    ensures forall a, b | a in p && b in q :: rank(a) < rank(b)
    ensures forall a | a in p + q :: a in o
  {
    forall a | a in p ensures a in o[..m] { SameMembers(p, o[..m], a); }
    forall b | b in q ensures b in o[m..] { SameMembers(q, o[m..], b); }
  }

  lemma {:induction false} PassesSort<T>(s: seq<T>, o: seq<T>, w: nat, le: (T, T) -> bool, rank: T -> int)
    requires w > 0 && Runs(s, o, w, le, rank) && Ranked(o, rank) && Preorder(o, le)
    ensures StableSorted(Passes(s, w, le), le, rank) && multiset(Passes(s, w, le)) == multiset(o)
    decreases |s| - 2 * w
  {
    hide StableSorted, Preorder;
    PassRuns(o, s, o, w, le, rank);
    var pass := Pass(s, w, le);
    if |s| > 2 * w {
      PassesSort(pass, o, 2 * w, le, rank);
    } else {
      if s == [] { SortedEmpty(pass, le, rank); }
      assert pass[..|s|] == pass && o[..|s|] == o;
    }
  }

  // For a comparison that is total and transitive on the elements, the sorted list is a
  // permutation in which every element belongs before all that follow it.
  lemma SortsStably<T>(s: seq<T>, le: (T, T) -> bool, rank: T -> int)
    requires Preorder(s, le) && Ranked(s, rank)
    ensures StableSorted(Passes(s, 1, le), le, rank) && multiset(Passes(s, 1, le)) == multiset(s)
  {
    SingletonRuns(s, le, rank);
    PassesSort(s, s, 1, le, rank);
  }

  // There is only one such arrangement.
  lemma {:induction false} StableUnique<T>(s: seq<T>, t: seq<T>, le: (T, T) -> bool, rank: T -> int)
    requires StableSorted(s, le, rank) && StableSorted(t, le, rank) && multiset(s) == multiset(t)
    ensures s == t
  {
    hide StableSorted;
    assert |multiset(s)| == |s| && |multiset(t)| == |t|;
    if s != [] {
      HeadFirst(s, le, rank);
      HeadFirst(t, le, rank);
      SameMembers(s, t, s[0]);
      SameMembers(s, t, t[0]);
      assert s[0] == t[0];
      SortedTail(s, le, rank);
      SortedTail(t, le, rank);
      assert s == [s[0]] + s[1..] && t == [t[0]] + t[1..];
      assert multiset(s[1..]) == multiset(s) - multiset{s[0]};
      assert multiset(t[1..]) == multiset(t) - multiset{t[0]};
      StableUnique(s[1..], t[1..], le, rank);
    }
  }

  lemma HeadFirst<T>(s: seq<T>, le: (T, T) -> bool, rank: T -> int)
    requires StableSorted(s, le, rank) && s != []
    ensures forall x | x in s :: x == s[0] || Before(s[0], x, le, rank)
  {
  }
}
