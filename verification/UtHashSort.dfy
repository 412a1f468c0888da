// HASH_SRT: the app-order list sorted in place, on the pointers.
module UtHashSort {
  import opened Basics
  import opened MergeSort
  import opened UtHash

  // The rest of the list: forward links only, as prev is not looked at.
  ghost predicate Pending(first: Node?, s: seq<Node>)
    reads s`next
  {
    first == At(s, 0) && forall i {:trigger s[i].next} | 0 <= i < |s| :: s[i].next == At(s, i + 1)
  }

  // What is left of the first of two runs: where its last node leads no longer matters.
  ghost predicate Run(first: Node?, s: seq<Node>)
    reads s`next
  {
    && (s != [] ==> first == s[0])
    && (forall i {:trigger s[i].next} | 0 <= i < |s| - 1 :: s[i].next == s[i + 1])
  }

  // The list being built: linked both ways, its last next still to be written.
  ghost predicate Output(list: Node?, tail: Node?, out: seq<Node>)
    reads out`prev, out`next
  {
    && list == At(out, 0) && tail == At(out, |out| - 1)
    && (forall i {:trigger out[i].prev} | 0 <= i < |out| :: out[i].prev == At(out, i - 1))
    && (forall i {:trigger out[i].next} | 0 <= i < |out| - 1 :: out[i].next == out[i + 1])
  }

  // No node is in two of these, or twice in one, and all come from s.
  ghost predicate Apart(s: seq<Node>, out: seq<Node>, p: seq<Node>, r: seq<Node>) {
    && Distinct(out) && Distinct(p) && Distinct(r)
    && (forall n | n in out :: n in s && n !in p && n !in r)
    && (forall n | n in p :: n in s && n !in r)
    && (forall n | n in r :: n in s)
  }

  lemma TakeFirst(s: seq<Node>, out: seq<Node>, p: seq<Node>, r: seq<Node>)
    requires Apart(s, out, p, r) && p != []
    ensures p[0] in s && p[0] !in out && p[0] !in p[1..] && p[0] !in r && Apart(s, out + [p[0]], p[1..], r)
  {
  }

  lemma TakeSecond(s: seq<Node>, out: seq<Node>, p: seq<Node>, r: seq<Node>)
    requires Apart(s, out, p, r) && r != []
    ensures r[0] in s && r[0] !in out && r[0] !in p && r[0] !in r[1..] && Apart(s, out + [r[0]], p, r[1..])
  {
  }

  method Link(list: Node?, tail: Node?, e: Node, ghost out: seq<Node>) returns (list': Node?, tail': Node?)
    requires Output(list, tail, out) && Distinct(out) && e !in out
    modifies out`next, e`prev
    ensures Output(list', tail', out + [e])
  {
    list', tail' := list, e;
    if tail != null {
      tail.next := e;
    } else {
      list' := e;
    }
    e.prev := tail;
  }

  // Linking does not disturb what is still to come.
  method Put(list: Node?, tail: Node?, e: Node, ghost s: seq<Node>, ghost out: seq<Node>,
             ghost p: Node?, ghost P: seq<Node>, ghost q: Node?, ghost R: seq<Node>)
    returns (list': Node?, tail': Node?)
    requires Output(list, tail, out) && Apart(s, out + [e], P, R) && Run(p, P) && Pending(q, R)
    modifies s`next, s`prev
    ensures Output(list', tail', out + [e]) && Run(p, P) && Pending(q, R)
  {
    assert forall i | 0 <= i < |out| :: out[i] == (out + [e])[i];
    assert (out + [e])[|out|] == e && e in s;
    forall n | n in out ensures n in s && n !in P && n !in R {
      assert n in out + [e];
    }
    assert forall i | 0 <= i < |out| :: out[i] in s;
    assert (forall i | 0 <= i < |P| :: P[i] !in out) && (forall i | 0 <= i < |R| :: R[i] !in out);
    list', tail' := Link(list, tail, e, out);
  }

  // The choice of the next node: from the first run p of psize nodes, or from the second,
  // which is the first qsize of r.
  method TakeNext(p: Node?, psize: nat, q: Node?, qsize: nat, le: (Node, Node) -> bool,
                  ghost P: seq<Node>, ghost R: seq<Node>)
    returns (e: Node, p': Node?, psize': nat, q': Node?, qsize': nat, fromFirst: bool)
    requires psize == |P| && Run(p, P) && Pending(q, R) && (psize > 0 || (qsize > 0 && q != null))
    ensures fromFirst ==> P != [] && e == P[0] && psize' == |P[1..]| && qsize' == qsize && Run(p', P[1..]) && Pending(q', R)
    ensures fromFirst ==>
              Merge(P, R[..Min(qsize, |R|)], le) == [e] + Merge(P[1..], R[..Min(qsize, |R|)], le)
    ensures !fromFirst ==>
              && R != [] && e == R[0] && psize' == |P| && qsize > 0 && qsize' == qsize - 1
              && Run(p', P) && Pending(q', R[1..])
    ensures !fromFirst ==>
              Merge(P, R[..Min(qsize, |R|)], le) == [e] + Merge(P, R[1..][..Min(qsize', |R[1..]|)], le)
  {
    p', psize', q', qsize' := p, psize, q, qsize;
    ghost var Q := R[..Min(qsize, |R|)];
    assert P != [] ==> P == [P[0]] + P[1..];
    assert Q != [] ==> Q == [Q[0]] + Q[1..] && R[1..][..Min(qsize - 1, |R[1..]|)] == Q[1..];
    if psize == 0 {
      e, q', qsize', fromFirst := q, q.next, qsize - 1, false;
    } else if qsize == 0 || q == null {
      e, p', psize', fromFirst := p, p.next, psize - 1, true;
    } else if le(p, q) {
      e, p', psize', fromFirst := p, p.next, psize - 1, true;
    } else {
      e, q', qsize', fromFirst := q, q.next, qsize - 1, false;
    }
  }

  // The run that starts here ends after insize nodes or with the list.
  method Skip(p: Node, insize: nat, ghost R: seq<Node>) returns (psize: nat, q: Node?)
    requires Pending(p, R) && insize > 0
    ensures psize == Min(insize, |R|) && q == At(R, psize)
  {
    q, psize := p, 0;
    var i := 0;
    while i < insize
      invariant 0 <= i <= insize && psize == i <= |R| && q == At(R, i) && (i < insize ==> i < |R|)
    {
      psize := psize + 1;
      q := q.next;
      if q == null {
        break;
      }
      i := i + 1;
    }
  }

  lemma NoneLeft(q: Node?, R: seq<Node>)
    requires Pending(q, R)
    ensures q == null <==> R == []
    ensures R != [] ==> q == R[0]
  {
  }

  // Two runs merged behind what was already put out.
  method MergeTwo(first: Node?, size: nat, second: Node?, insize: nat, list: Node?, tail: Node?, le: (Node, Node) -> bool,
                  ghost s: seq<Node>, ghost out: seq<Node>, ghost P0: seq<Node>, ghost R0: seq<Node>)
    returns (list': Node?, tail': Node?, q: Node?)
    requires Output(list, tail, out) && Apart(s, out, P0, R0) && size == |P0| && Run(first, P0) && Pending(second, R0)
    modifies s`prev, s`next
    ensures var m := Min(insize, |R0|);
            && Output(list', tail', out + Merge(P0, R0[..m], le)) && Apart(s, out + Merge(P0, R0[..m], le), [], R0[m..])
            && Pending(q, R0[m..])
  {
    hide Distinct, Apart, Run, Pending, Output, Merge;
    var p, psize: nat, qsize: nat := first, size, insize;
    q, list', tail' := second, list, tail;
    ghost var done, P, R, j: nat := out, P0, R0, 0;
    while psize > 0 || (qsize > 0 && q != null)
      invariant Output(list', tail', done) && Apart(s, done, P, R)
      invariant psize == |P| && Run(p, P) && Pending(q, R)
      invariant j + qsize == insize && j <= |R0| && R == R0[j..]
      invariant done + Merge(P, R[..Min(qsize, |R|)], le) == out + Merge(P0, R0[..Min(insize, |R0|)], le)
      decreases |P| + qsize
    {
      var e, p', psize', q', qsize', fromFirst := TakeNext(p, psize, q, qsize, le, P, R);
      ghost var P', R' := if fromFirst then P[1..] else P, if fromFirst then R else R[1..];
      if fromFirst { TakeFirst(s, done, P, R); } else { TakeSecond(s, done, P, R); }
      list', tail' := Put(list', tail', e, s, done, p', P', q', R');
      p, psize, q, qsize, done, P, R, j := p', psize', q', qsize', done + [e], P', R', if fromFirst then j else j + 1;
    }
    NoneLeft(q, R);
    MergeNothing(P, R[..Min(qsize, |R|)], le);
    assert done + [] == done;
  }

  lemma MergeNothing(p: seq<Node>, q: seq<Node>, le: (Node, Node) -> bool)
    requires p == [] && q == []
    ensures Merge(p, q, le) == []
  {
  }

  method Close(list: Node?, tail: Node?, ghost s: seq<Node>, ghost out: seq<Node>)
    requires Output(list, tail, out) && Apart(s, out, [], [])
    modifies s`next
    ensures AppList(list, tail, out)
  {
    assert forall i | 0 <= i < |out| :: out[i] in s;
    if tail != null {
      tail.next := null;
    }
  }

  // Two runs found and merged.
  method SortRound(p: Node, insize: nat, list: Node?, tail: Node?, le: (Node, Node) -> bool,
                   ghost s: seq<Node>, ghost out: seq<Node>, ghost R: seq<Node>)
    returns (list': Node?, tail': Node?, p': Node?)
    requires Output(list, tail, out) && Apart(s, out, [], R) && Pending(p, R) && R != [] && insize > 0
    modifies s`prev, s`next
    ensures var m, n := Min(insize, |R|), Min(2 * insize, |R|);
            var out' := out + Merge(R[..m], R[m..n], le);
            Output(list', tail', out') && Apart(s, out', [], R[n..]) && Pending(p', R[n..])
  {
    hide Distinct, Apart, Run, Pending, Output, Merge;
    var psize, q := Skip(p, insize, R);
    TwoParts(s, out, p, q, R, psize, insize);
    list', tail', p' := MergeTwo(p, psize, q, insize, list, tail, le, s, out, R[..psize], R[psize..]);
  }

  // One pass over the whole list.
  method SortPass(first: Node, insize: nat, le: (Node, Node) -> bool, ghost s: seq<Node>)
    returns (list: Node?, tail: Node?, nmerges: nat)
    requires Pending(first, s) && Distinct(s) && s != [] && insize > 0
    modifies s`prev, s`next
    ensures AppList(list, tail, Pass(s, insize, le)) && (nmerges <= 1 <==> |s| <= 2 * insize)
  {
    hide Distinct, Apart, Run, Pending, Output, Merge, AppList, Pass;
    var p: Node? := first;
    list, tail, nmerges := null, null, 0;
    ghost var out: seq<Node>, R: seq<Node> := [], s;
    NothingYet(s);
    while p != null
      invariant Output(list, tail, out) && Apart(s, out, [], R) && Pending(p, R)
      invariant out + Pass(R, insize, le) == Pass(s, insize, le) && |R| <= |s|
      invariant if nmerges == 0 then R == s
                else if nmerges == 1 then |R| == |s| - Min(2 * insize, |s|)
                else |s| > 2 * insize
      decreases |R|
    {
      nmerges := nmerges + 1;
      NoneLeft(p, R);
      PassStep(R, insize, le);
      ghost var n := Min(2 * insize, |R|);
      list, tail, p := SortRound(p, insize, list, tail, le, s, out, R);
      out, R := out + Merge(R[..Min(insize, |R|)], R[Min(insize, |R|)..n], le), R[n..];
    }
    NoneLeft(p, R);
    PassStep(R, insize, le);
    assert out + [] == out && Pass(R, insize, le) == [];
    Close(list, tail, s, out);
  }

  lemma PassStep(R: seq<Node>, w: nat, le: (Node, Node) -> bool)
    requires w > 0
    ensures R == [] ==> Pass(R, w, le) == []
    ensures R != [] ==>
            var m, n := Min(w, |R|), Min(2 * w, |R|);
            Pass(R, w, le) == Merge(R[..m], R[m..n], le) + Pass(R[n..], w, le)
  {
  }

  lemma NothingYet(s: seq<Node>)
    requires Distinct(s)
    ensures Output(null, null, []) && Apart(s, [], [], s)
  {
  }

  // The next two runs of what is left.
  lemma TwoParts(s: seq<Node>, out: seq<Node>, p: Node, q: Node?, R: seq<Node>, psize: nat, insize: nat)
    requires Pending(p, R) && Apart(s, out, [], R) && R != [] && psize == Min(insize, |R|) && q == At(R, psize)
    ensures Apart(s, out, R[..psize], R[psize..]) && Run(p, R[..psize]) && Pending(q, R[psize..])
    ensures var n := Min(2 * insize, |R|);
            && R[psize..][..Min(insize, |R[psize..]|)] == R[psize..n]
            && R[psize..][Min(insize, |R[psize..]|)..] == R[n..]
  {
  }

  ghost function Position(s: seq<Node>, n: Node): int {
    if n in s then (var i :| 0 <= i < |s| && s[i] == n; i) else |s|
  }

  lemma PositionsRank(s: seq<Node>)
    requires Distinct(s)
    ensures Ranked(s, n => Position(s, n))
  {
    forall i | 0 <= i < |s| ensures Position(s, s[i]) == i {
    }
  }

  // Sorts the app order; buckets, keys and hashes are not touched, so no lookup changes.
  method Sort(t: HashTable, le: (Node, Node) -> bool)
    requires t.Valid()
    modifies t`head, t`tail, t`items, t.items`prev, t.items`next
    ensures t.Valid() && t.items == Passes(old(t.items), 1, le)
  {
    hide Passes, AppList, HashTable.Chains, KeyBytes, Distinct;
    ghost var goal := Passes(t.items, 1, le);
    t.Ends();
    if t.head != null {
      SortList(t, le);
      SameNodes(t.items, le);
      t.items := goal;
    } else {
      SameNodes(t.items, le);
    }
  }

  lemma SameNodes(s: seq<Node>, le: (Node, Node) -> bool)
    ensures |Passes(s, 1, le)| == |s| && forall n :: n in Passes(s, 1, le) <==> n in s
  {
    hide Passes;
    PassesIn(s, 1, le);
    var sorted := Passes(s, 1, le);
    assert |multiset(sorted)| == |sorted| && |multiset(s)| == |s|;
    forall n ensures n in sorted <==> n in s { SameMembers(sorted, s, n); }
  }

  // The list Sort leaves: the elements of the old one, smaller before greater, and equal
  // ones in their old order.
  lemma SortedOrder(s: seq<Node>, le: (Node, Node) -> bool)
    requires Distinct(s) && Preorder(s, le)
    ensures var sorted := Passes(s, 1, le);
            && multiset(sorted) == multiset(s)
            && forall i, j | 0 <= i < j < |sorted| ::
                 le(sorted[i], sorted[j]) && (le(sorted[j], sorted[i]) ==> Position(s, sorted[i]) < Position(s, sorted[j]))
  {
    hide Passes, Position, Distinct, Preorder;
    PositionsRank(s);
    SortsStably(s, le, n => Position(s, n));
    var sorted := Passes(s, 1, le);
    forall i, j | 0 <= i < j < |sorted|
      ensures le(sorted[i], sorted[j]) && (le(sorted[j], sorted[i]) ==> Position(s, sorted[i]) < Position(s, sorted[j]))
    {
      assert Before(sorted[i], sorted[j], le, n => Position(s, n));
    }
  }

  method SortList(t: HashTable, le: (Node, Node) -> bool)
    requires t.head != null && AppList(t.head, t.tail, t.items)
    modifies t`head, t`tail, t.items`prev, t.items`next
    ensures AppList(t.head, t.tail, Passes(t.items, 1, le)) && t.head != null
  {
    hide AppList, Pending, Distinct, Pass;
    var insize, looping, list := 1, true, t.head;
    ghost var cur := t.items;
    InAppOrder(list, t.tail, cur);
    while looping
      invariant insize > 0 && |cur| == |t.items| && cur != [] && multiset(cur) == multiset(t.items)
      invariant looping ==> list != null && Pending(list, cur) && Distinct(cur) && insize <= |cur|
      invariant looping ==> Passes(cur, insize, le) == Passes(t.items, 1, le)
      invariant !looping ==> t.head != null && AppList(t.head, t.tail, cur) && cur == Passes(t.items, 1, le)
      decreases looping, |cur| - insize
    {
      forall n | n in cur ensures n in t.items { SameMembers(cur, t.items, n); }
      assert forall i | 0 <= i < |cur| :: cur[i] in t.items;
      var first, tail, nmerges := SortPass(list, insize, le, cur);
      PassIn(cur, insize, le);
      ghost var next := Pass(cur, insize, le);
      list := first;
      InAppOrder(list, tail, next);
      if nmerges <= 1 {
        looping := false;
        t.tail := tail;
        t.head := list;
      }
      cur := next;
      insize := insize * 2;
    }
  }

  lemma InAppOrder(head: Node?, tail: Node?, s: seq<Node>)
    requires AppList(head, tail, s)
    ensures Pending(head, s) && Distinct(s) && (s == [] <==> head == null)
  {
  }
}
