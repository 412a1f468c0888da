// uthash: one set of nodes threaded by two doubly linked structures, the insertion
// ("app") order and the bucket chains, with in-place bucket doubling. Valid() is what
// HASH_FSCK checks, in full.
module UtHash {
  import opened Basics
  import opened Words

  const INITIAL_NUM_BUCKETS_LOG2: nat := 5
  const BKT_CAPACITY_THRESH: nat := 10

  // An element with its hash handle (LRU's _entry).
  class Node {
    var k: nat
    var v: int
    var prev: Node?
    var next: Node?
    var hhPrev: Node?
    var hhNext: Node?
    var hashv: nat

    constructor ()
    {
      k, v, prev, next, hhPrev, hhNext, hashv := 0, 0, null, null, null, null, 0;
    }
  }

  datatype Bucket = Bucket(hhHead: Node?, count: nat, expandMult: nat)

  const EMPTY_BUCKET := Bucket(null, 0, 0)

  ghost predicate Distinct(s: seq<Node>) {
    forall i, j | 0 <= i < j < |s| :: s[i] != s[j]
  }

  function At(s: seq<Node>, i: int): Node? {
    if 0 <= i < |s| then s[i] else null
  }

  // The app-order list from head to tail.
  ghost predicate AppList(head: Node?, tail: Node?, items: seq<Node>)
    reads items`prev, items`next
  {
    && Distinct(items)
    && head == At(items, 0) && (items != [] ==> tail == items[|items| - 1])
    && (forall i {:trigger items[i].prev} | 0 <= i < |items| :: items[i].prev == At(items, i - 1))
    && (forall i {:trigger items[i].next} | 0 <= i < |items| :: items[i].next == At(items, i + 1))
  }

  // One bucket's chain, consistent in both directions, and its count exact.
  ghost predicate Chain(bucket: Bucket, chain: seq<Node>)
    reads chain`hhPrev, chain`hhNext
  {
    && Distinct(chain)
    && bucket.hhHead == At(chain, 0) && bucket.count == |chain|
    && (forall i {:trigger chain[i].hhPrev} | 0 <= i < |chain| :: chain[i].hhPrev == At(chain, i - 1))
    && (forall i {:trigger chain[i].hhNext} | 0 <= i < |chain| :: chain[i].hhNext == At(chain, i + 1))
  }

  // What is left of a chain while it is being walked: forward links only.
  ghost predicate Rest(first: Node?, chain: seq<Node>)
    reads chain`hhNext
  {
    first == At(chain, 0) &&
    forall i {:trigger chain[i].hhNext} | 0 <= i < |chain| :: chain[i].hhNext == At(chain, i + 1)
  }

  // HASH_TO_BKT for a power-of-two number of buckets (see BucketIsMasked).
  function BucketOf(hashv: nat, numBuckets: nat): (b: nat)
    requires numBuckets > 0
    ensures b < numBuckets
  {
    hashv % numBuckets
  }

  lemma BucketIsMasked(hashv: nat, log2: nat)
    ensures And(hashv, Pow2(log2) - 1) == BucketOf(hashv, Pow2(log2))
  {
    AndMask(hashv, log2);
  }

  function Quotient(a: nat, b: nat): (q: nat)
    requires b > 0
    ensures q * b <= a < q * b + b
  {
    a / b
  }

  // Every node is in the chain of its own bucket and in no other.
  ghost predicate Placed(chains: seq<seq<Node>>, nodes: set<Node>)
    reads nodes`hashv
  {
    && |chains| > 0
    && (forall b, n | 0 <= b < |chains| && n in chains[b] :: n in nodes && BucketOf(n.hashv, |chains|) == b)
    && (forall n | n in nodes :: n in chains[BucketOf(n.hashv, |chains|)])
  }

  // Both push sites (HASH_ADD_TO_BKT and the loop of HASH_EXPAND_BUCKETS) link a node
  // in front of a chain.
  method PushFront(buckets: array<Bucket>, b: nat, node: Node, ghost chain: seq<Node>)
    requires b < buckets.Length && Chain(buckets[b], chain) && node !in chain
    modifies buckets, node`hhNext, node`hhPrev, chain`hhPrev
    ensures buckets[..] == old(buckets[..])[b := Bucket(node, old(buckets[b].count) + 1, old(buckets[b].expandMult))]
    ensures Chain(buckets[b], [node] + chain)
  {
    var bucket := buckets[b];
    node.hhNext := bucket.hhHead;
    node.hhPrev := null;
    if bucket.hhHead != null {
      bucket.hhHead.hhPrev := node;
    }
    buckets[b] := bucket.(hhHead := node, count := bucket.count + 1);
  }

  // HASH_DEL_IN_BKT
  method RemoveFromBucket(buckets: array<Bucket>, b: nat, del: Node, ghost chain: seq<Node>, ghost j: nat)
    requires b < buckets.Length && Chain(buckets[b], chain) && j < |chain| && chain[j] == del
    modifies buckets, chain`hhNext, chain`hhPrev
    ensures buckets[..] == old(buckets[..])[b := buckets[b]]
    ensures buckets[b].expandMult == old(buckets[b].expandMult)
    ensures Chain(buckets[b], Without(chain, j))
  {
    hide Without;
    var bucket := buckets[b];
    var first := bucket.hhHead;
    if first == del {
      first := del.hhNext;
    }
    if del.hhPrev != null {
      del.hhPrev.hhNext := del.hhNext;
    }
    if del.hhNext != null {
      del.hhNext.hhPrev := del.hhPrev;
    }
    buckets[b] := bucket.(hhHead := first, count := bucket.count - 1);
    ChainBridged(buckets[b], chain, j);
  }

  // A chain whose links skip node j is the chain without it.
  lemma ChainBridged(bucket: Bucket, chain: seq<Node>, j: nat)
    requires Distinct(chain) && j < |chain|
    requires bucket.hhHead == At(chain, if j == 0 then 1 else 0) && bucket.count == |chain| - 1
    requires forall i {:trigger chain[i].hhPrev} | 0 <= i < |chain| && i != j ::
               chain[i].hhPrev == At(chain, if i == j + 1 then j - 1 else i - 1)
    requires forall i {:trigger chain[i].hhNext} | 0 <= i < |chain| && i != j ::
               chain[i].hhNext == At(chain, if i == j - 1 then j + 1 else i + 1)
    ensures Chain(bucket, Without(chain, j))
  {
    var rest := Without(chain, j);
    assert Distinct(rest) by { WithoutDistinct(chain, j); }
    forall i | 0 <= i < |rest| ensures rest[i].hhPrev == At(rest, i - 1) && rest[i].hhNext == At(rest, i + 1) {
      var k := if i < j then i else i + 1;
      assert rest[i] == chain[k];
    }
  }

  // Appending to a nonempty app-order list.
  method LinkLast(tail: Node, add: Node, ghost head: Node?, ghost items: seq<Node>)
    requires AppList(head, tail, items) && items != [] && add !in items
    modifies tail`next, add`prev, add`next
    ensures AppList(head, add, items + [add])
  {
    add.next := null;
    tail.next := add;
    add.prev := tail;
  }

  // The app-order half of HASH_DELETE, for a list of at least two.
  method UnlinkApp(head: Node, tail: Node, del: Node, ghost items: seq<Node>, ghost j: nat)
    returns (head': Node?, tail': Node?)
    requires AppList(head, tail, items) && |items| > 1 && j < |items| && items[j] == del
    modifies items`prev, items`next
    ensures AppList(head', tail', Without(items, j))
  {
    hide Without;
    head', tail' := head, tail;
    if del == tail {
      tail' := del.prev;
    }
    if del.prev != null {
      del.prev.next := del.next;
    } else {
      head' := del.next;
    }
    if del.next != null {
      del.next.prev := del.prev;
    }
    AppBridged(head', tail', items, j);
  }

  // A list whose links skip element j is the list without it.
  lemma AppBridged(head: Node?, tail: Node?, items: seq<Node>, j: nat)
    requires Distinct(items) && |items| > 1 && j < |items|
    requires head == At(items, if j == 0 then 1 else 0) && tail == At(items, |items| - (if j == |items| - 1 then 2 else 1))
    requires forall i {:trigger items[i].prev} | 0 <= i < |items| && i != j ::
               items[i].prev == At(items, if i == j + 1 then j - 1 else i - 1)
    requires forall i {:trigger items[i].next} | 0 <= i < |items| && i != j ::
               items[i].next == At(items, if i == j - 1 then j + 1 else i + 1)
    ensures AppList(head, tail, Without(items, j))
  {
    var rest := Without(items, j);
    assert Distinct(rest) by { WithoutDistinct(items, j); }
    forall i | 0 <= i < |rest| ensures rest[i].prev == At(rest, i - 1) && rest[i].next == At(rest, i + 1) {
      var k := if i < j then i else i + 1;
      assert rest[i] == items[k];
    }
  }

  lemma WithoutDistinct(s: seq<Node>, j: nat)
    requires Distinct(s) && j < |s|
    ensures Distinct(Without(s, j))
  {
  }

  function Without(s: seq<Node>, j: nat): (r: seq<Node>)
    requires j < |s|
    ensures |r| == |s| - 1
    ensures forall i | 0 <= i < |r| :: r[i] == if i < j then s[i] else s[i + 1]
  {
    s[..j] + s[j + 1..]
  }

  // Nodes beyond the ideal chain length, over all chains.
  ghost function Excess(chains: seq<seq<Node>>, ideal: nat): nat {
    if chains == [] then 0
    else Excess(chains[..|chains| - 1], ideal) + Over(|chains[|chains| - 1]|, ideal)
  }

  function Over(count: nat, ideal: nat): (over: nat)
    ensures if count > ideal then ideal + over == count else over == 0
  {
    if count > ideal then count - ideal else 0
  }

  lemma {:induction false} ExcessUpdate(chains: seq<seq<Node>>, b: nat, chain: seq<Node>, ideal: nat)
    requires b < |chains|
    ensures Excess(chains[b := chain], ideal) == Excess(chains, ideal) - Over(|chains[b]|, ideal) + Over(|chain|, ideal)
    decreases |chains|
  {
    var last := |chains| - 1;
    if b == last {
      assert chains[b := chain][..last] == chains[..last];
    } else {
      assert chains[b := chain][..last] == chains[..last][b := chain];
      ExcessUpdate(chains[..last], b, chain, ideal);
    }
  }

  lemma {:induction false} ExcessEmpty(chains: seq<seq<Node>>, ideal: nat)
    requires forall b | 0 <= b < |chains| :: chains[b] == []
    ensures Excess(chains, ideal) == 0
    decreases |chains|
  {
    if chains != [] { ExcessEmpty(chains[..|chains| - 1], ideal); }
  }

  function CeilDiv(n: nat, d: nat): nat
    requires d > 0
  {
    if n % d == 0 then n / d else n / d + 1
  }

  lemma CeilDivPositive(n: nat, d: nat)
    requires d > 0
    ensures n > 0 ==> CeilDiv(n, d) > 0
  {
    if n < d { ModOf(n, d, 0, n); } else { assert n == (n / d) * d + n % d; }
  }

  lemma CeilDivIsLeast(n: nat, d: nat)
    requires d > 0
    ensures n <= CeilDiv(n, d) * d < n + d
  {
    assert n == (n / d) * d + n % d;
    assert (n / d + 1) * d == (n / d) * d + d;
  }

  // Pushing a node on the chain of its own bucket keeps every chain and the placement.
  lemma PlacedPush(chains: seq<seq<Node>>, nodes: set<Node>, node: Node)
    requires Placed(chains, nodes) && node !in nodes
    ensures var b := BucketOf(node.hashv, |chains|);
            node !in chains[b] && Placed(chains[b := [node] + chains[b]], nodes + {node})
  {
  }

  lemma ChainsDisjoint(chains: seq<seq<Node>>, nodes: set<Node>, b: nat, c: nat, n: Node)
    requires Placed(chains, nodes) && b < |chains| && c < |chains| && c != b && n in chains[c]
    ensures n in nodes && n !in chains[b]
  {
    assert BucketOf(n.hashv, |chains|) == c;
  }

  ghost predicate AllChains(buckets: array<Bucket>, chains: seq<seq<Node>>, nodes: set<Node>)
    requires buckets.Length == |chains| && Placed(chains, nodes)
    reads buckets, nodes`hhPrev, nodes`hhNext, nodes`hashv
  {
    forall b | 0 <= b < |chains| :: Chain(buckets[b], chains[b])
  }

  function Pushed(chains: seq<seq<Node>>, b: nat, node: Node): seq<seq<Node>>
    requires b < |chains|
  {
    chains[b := [node] + chains[b]]
  }

  // Linking a node in front of the chain of its bucket, seen over the whole table.
  method LinkNode(buckets: array<Bucket>, b: nat, node: Node, ghost chains: seq<seq<Node>>, ghost nodes: set<Node>)
    requires buckets.Length == |chains| && Placed(chains, nodes) && AllChains(buckets, chains, nodes)
    requires node !in nodes && b == BucketOf(node.hashv, |chains|)
    modifies buckets, node`hhNext, node`hhPrev, nodes`hhPrev
    ensures Placed(Pushed(chains, b, node), nodes + {node})
    ensures AllChains(buckets, Pushed(chains, b, node), nodes + {node})
    ensures buckets[..] == old(buckets[..])[b := buckets[b]] && buckets[b].count == |chains[b]| + 1
    ensures buckets[b].count == old(buckets[b].count) + 1 && buckets[b].expandMult == old(buckets[b].expandMult)
  {
    hide BucketOf;
    PlacedPush(chains, nodes, node);
    forall c, i | 0 <= c < |chains| && c != b && 0 <= i < |chains[c]|
      ensures chains[c][i] in nodes && chains[c][i] !in chains[b]
    {
      ChainsDisjoint(chains, nodes, b, c, chains[c][i]);
    }
    PushFront(buckets, b, node, chains[b]);
    forall c | 0 <= c < |chains| ensures Chain(buckets[c], Pushed(chains, b, node)[c]) {
      if c != b {
        assert old(Chain(buckets[c], chains[c]));
        assert buckets[c] == old(buckets[..])[c];
      }
    }
  }

  lemma PlacedRemove(chains: seq<seq<Node>>, nodes: set<Node>, b: nat, j: nat)
    requires Placed(chains, nodes) && b < |chains| && j < |chains[b]| && Distinct(chains[b])
    ensures Placed(chains[b := Without(chains[b], j)], nodes - {chains[b][j]})
  {
    var del, chain := chains[b][j], chains[b];
    var chains' := chains[b := Without(chain, j)];
    forall c, n | 0 <= c < |chains| && n in chains'[c]
      ensures n in nodes - {del} && BucketOf(n.hashv, |chains|) == c
    {
      if c == b {
        var i :| 0 <= i < |chains'[b]| && chains'[b][i] == n;
        var k := if i < j then i else i + 1;
        assert n == chain[k] && k != j;
        assert n in chain && n != del;
      } else {
        assert n in chains[c] && BucketOf(n.hashv, |chains|) == c;
        assert del in chains[b] && BucketOf(del.hashv, |chains|) == b;
      }
    }
    forall n | n in nodes - {del} ensures n in chains'[BucketOf(n.hashv, |chains|)] {
      var c := BucketOf(n.hashv, |chains|);
      if c == b {
        var i :| 0 <= i < |chain| && chain[i] == n;
        assert chains'[b][if i < j then i else i - 1] == n;
      }
    }
  }

  // Taking a node out of the chain of its bucket, seen over the whole table.
  method UnlinkNode(buckets: array<Bucket>, b: nat, del: Node, ghost chains: seq<seq<Node>>, ghost nodes: set<Node>,
                    ghost j: nat)
    requires buckets.Length == |chains| && Placed(chains, nodes) && AllChains(buckets, chains, nodes)
    requires b < |chains| && j < |chains[b]| && chains[b][j] == del
    modifies buckets, nodes`hhNext, nodes`hhPrev
    ensures Placed(chains[b := Without(chains[b], j)], nodes - {del})
    ensures AllChains(buckets, chains[b := Without(chains[b], j)], nodes - {del})
    ensures forall c | 0 <= c < buckets.Length :: buckets[c].expandMult == old(buckets[c].expandMult)
  {
    hide BucketOf;
    assert Chain(buckets[b], chains[b]);
    PlacedRemove(chains, nodes, b, j);
    forall c, i | 0 <= c < |chains| && c != b && 0 <= i < |chains[c]|
      ensures chains[c][i] in nodes && chains[c][i] !in chains[b]
    {
      ChainsDisjoint(chains, nodes, b, c, chains[c][i]);
    }
    RemoveFromBucket(buckets, b, del, chains[b], j);
    forall c | 0 <= c < buckets.Length ensures buckets[c].expandMult == old(buckets[c].expandMult) {
      if c != b { assert buckets[c] == old(buckets[..])[c]; }
    }
    forall c | 0 <= c < |chains| ensures Chain(buckets[c], chains[b := Without(chains[b], j)][c]) {
      if c != b {
        assert old(Chain(buckets[c], chains[c]));
        assert buckets[c] == old(buckets[..])[c];
      }
    }
  }

  // expand_mult: how many times the ideal length a chain is, if it is over it.
  predicate MultipleOf(bucket: Bucket, ideal: nat) {
    ideal > 0 && bucket.expandMult == if bucket.count > ideal then Quotient(bucket.count, ideal) else 0
  }

  ghost predicate Multiplied(buckets: seq<Bucket>, ideal: nat) {
    forall b | 0 <= b < |buckets| :: MultipleOf(buckets[b], ideal)
  }

  // One round of the inner loop of HASH_EXPAND_BUCKETS.
  method MoveNode(thh: Node, newBuckets: array<Bucket>, log2: nat, ideal: nat, nonideal: nat,
                  ghost newChains: seq<seq<Node>>, ghost moved: set<Node>)
    returns (nonideal': nat)
    requires newBuckets.Length == |newChains| == Pow2(log2) && ideal > 0
    requires Placed(newChains, moved) && AllChains(newBuckets, newChains, moved) && thh !in moved
    requires nonideal == Excess(newChains, ideal) && Multiplied(newBuckets[..], ideal)
    modifies newBuckets, thh`hhNext, thh`hhPrev, moved`hhPrev
    ensures var chains := Pushed(newChains, BucketOf(thh.hashv, |newChains|), thh);
            && Placed(chains, moved + {thh}) && AllChains(newBuckets, chains, moved + {thh})
            && nonideal' == Excess(chains, ideal)
    ensures Multiplied(newBuckets[..], ideal)
  {
    hide BucketOf, And, Pow2, Quotient, Excess, Placed;
    BucketIsMasked(thh.hashv, log2);
    var bkt := And(thh.hashv, newBuckets.Length - 1);
    ExcessUpdate(newChains, bkt, [thh] + newChains[bkt], ideal);
    LinkNode(newBuckets, bkt, thh, newChains, moved);
    ghost var chains, linked := Pushed(newChains, bkt, thh), newBuckets[..];
    nonideal' := nonideal;
    if newBuckets[bkt].count > ideal {
      nonideal' := nonideal' + 1;
      newBuckets[bkt] := newBuckets[bkt].(expandMult := Quotient(newBuckets[bkt].count, ideal));
    }
    forall b | 0 <= b < |chains| ensures Chain(newBuckets[b], chains[b]) {
      assert Chain(linked[b], chains[b]);
    }
    forall b | 0 <= b < newBuckets.Length ensures MultipleOf(newBuckets[b], ideal) {
      assert b != bkt ==> MultipleOf(old(newBuckets[..])[b], ideal);
      assert MultipleOf(old(newBuckets[..])[bkt], ideal);
    }
  }

  // The inner loop of HASH_EXPAND_BUCKETS: every node of one old chain is pushed on the
  // chain of its new bucket, counting those beyond the ideal length.
  method MoveChain(first: Node?, newBuckets: array<Bucket>, log2: nat, ideal: nat, nonideal: nat,
                   ghost chain: seq<Node>, ghost newChains: seq<seq<Node>>, ghost moved: set<Node>)
    returns (nonideal': nat, ghost newChains': seq<seq<Node>>, ghost moved': set<Node>)
    requires newBuckets.Length == |newChains| == Pow2(log2) && ideal > 0
    requires Placed(newChains, moved) && AllChains(newBuckets, newChains, moved)
    requires Distinct(chain) && Rest(first, chain) && forall n | n in chain :: n !in moved
    requires nonideal == Excess(newChains, ideal) && Multiplied(newBuckets[..], ideal)
    modifies newBuckets, chain`hhNext, chain`hhPrev, moved`hhPrev
    ensures |newChains'| == |newChains| && Placed(newChains', moved') && AllChains(newBuckets, newChains', moved')
    ensures forall n :: n in moved' <==> n in moved || n in chain
    ensures nonideal' == Excess(newChains', ideal) && Multiplied(newBuckets[..], ideal)
  {
    hide BucketOf, Pow2, Chain, Excess, Placed, Multiplied;
    var thh := first;
    ghost var j := 0;
    nonideal', newChains', moved' := nonideal, newChains, moved;
    while thh != null
      invariant 0 <= j <= |chain| && Rest(thh, chain[j..])
      invariant |newChains'| == |newChains| && Placed(newChains', moved') && AllChains(newBuckets, newChains', moved')
      invariant forall n :: n in moved' <==> n in moved || n in chain[..j]
      invariant nonideal' == Excess(newChains', ideal) && Multiplied(newBuckets[..], ideal)
      decreases |chain| - j
    {
      var hhNxt := thh.hhNext;
      assert chain[j..][0] == thh;
      ghost var bkt := BucketOf(thh.hashv, |newChains'|);
      nonideal' := MoveNode(thh, newBuckets, log2, ideal, nonideal', newChains', moved');
      newChains', moved' := Pushed(newChains', bkt, thh), moved' + {thh};
      assert chain[..j + 1] == chain[..j] + [thh];
      j := j + 1;
      thh := hhNxt;
    }
  }

  // Facts about one old chain that the rehashing loop uses.
  lemma OldChain(buckets: array<Bucket>, chains: seq<seq<Node>>, nodes: set<Node>, i: nat)
    requires Placed(chains, nodes) && i < |chains|
    ensures forall n | n in chains[i] :: n in nodes && BucketOf(n.hashv, |chains|) == i
    ensures forall n | n in nodes && BucketOf(n.hashv, |chains|) == i :: n in chains[i]
    ensures forall b, j | 0 <= b < |chains| && b != i && 0 <= j < |chains[b]| :: chains[b][j] !in chains[i]
  {
    forall b, j | 0 <= b < |chains| && b != i && 0 <= j < |chains[b]| ensures chains[b][j] !in chains[i] {
      ChainsDisjoint(chains, nodes, i, b, chains[b][j]);
    }
  }

  // The outer loop of HASH_EXPAND_BUCKETS.
  method Rehash(buckets: array<Bucket>, newBuckets: array<Bucket>, n: nat, log2: nat, ideal: nat,
                ghost chains: seq<seq<Node>>, ghost nodes: set<Node>)
    returns (nonideal: nat, ghost newChains: seq<seq<Node>>)
    requires 0 < n == buckets.Length == |chains| && Placed(chains, nodes) && AllChains(buckets, chains, nodes)
    requires buckets != newBuckets && newBuckets.Length == Pow2(log2) && ideal > 0
    requires forall b | 0 <= b < newBuckets.Length :: newBuckets[b] == EMPTY_BUCKET
    modifies newBuckets, nodes`hhNext, nodes`hhPrev
    ensures |newChains| == newBuckets.Length && Placed(newChains, nodes) && AllChains(newBuckets, newChains, nodes)
    ensures nonideal == Excess(newChains, ideal) && Multiplied(newBuckets[..], ideal)
  {
    hide BucketOf, Pow2, Chain, Excess, AllChains, Placed, Rest, Distinct, Quotient;
    ghost var moved: set<Node>;
    nonideal, newChains, moved := 0, seq(newBuckets.Length, _ => []), {};
    EmptyTable(newBuckets, newChains);
    ExcessEmpty(newChains, ideal);
    OldChains(buckets, chains, nodes);
    var i := 0;
    while i < n
      invariant 0 <= i <= n && |newChains| == newBuckets.Length
      invariant Placed(newChains, moved) && AllChains(newBuckets, newChains, moved)
      invariant forall m <- moved :: m in nodes && BucketOf(m.hashv, n) < i
      invariant forall m <- nodes :: BucketOf(m.hashv, n) < i ==> m in moved
      invariant forall b | i <= b < n :: Rest(buckets[b].hhHead, chains[b])
      invariant nonideal == Excess(newChains, ideal) && Multiplied(newBuckets[..], ideal)
    {
      OldChain(buckets, chains, nodes, i);
      nonideal, newChains, moved :=
        MoveChain(buckets[i].hhHead, newBuckets, log2, ideal, nonideal, chains[i], newChains, moved);
      i := i + 1;
    }
    assert moved == nodes;
  }

  // One more in this bucket calls for an expansion.
  predicate Crowded(bucket: Bucket, noexpand: nat) {
    bucket.count + 1 >= (bucket.expandMult + 1) * BKT_CAPACITY_THRESH && noexpand != 1
  }

  ghost predicate Members(items: seq<Node>, nodes: set<Node>) {
    (forall n | n in nodes :: n in items) && (forall n | n in items :: n in nodes)
  }

  ghost predicate Hashed(hash: nat -> nat, nodes: set<Node>)
    reads nodes`hashv, nodes`k
  {
    forall n | n in nodes :: n.hashv == hash(KeyBytes(n.k))
  }

  lemma OneMember(items: seq<Node>, nodes: set<Node>, add: Node)
    requires Members(items, nodes)
    ensures Members(items + [add], nodes + {add})
  {
  }

  lemma FewerHashed(hash: nat -> nat, nodes: set<Node>, fewer: set<Node>)
    requires Hashed(hash, nodes) && fewer <= nodes
    ensures Hashed(hash, fewer)
  {
    hide KeyBytes;
  }

  lemma OneHashed(hash: nat -> nat, nodes: set<Node>, add: Node)
    requires Hashed(hash, nodes) && add.hashv == hash(KeyBytes(add.k))
    ensures Hashed(hash, nodes + {add})
  {
    hide KeyBytes;
  }

  lemma EmptyIsNotCrowded()
    ensures !Crowded(EMPTY_BUCKET, 0)
  {
  }

  class HashTable {
    const hash: nat -> nat          // any function of the key bytes
    var head: Node?
    // the UT_hash_table, meaningful only while head is not null
    var tail: Node?
    var numItems: nat
    var buckets: array<Bucket>
    var numBuckets: nat
    var log2NumBuckets: nat
    var idealChainMaxlen: nat
    var nonidealItems: nat
    var ineffExpands: nat
    var noexpand: nat

    ghost var items: seq<Node>
    ghost var nodes: set<Node>
    ghost var chains: seq<seq<Node>>

    ghost predicate Chains()
      reads this`buckets, this`numBuckets, this`log2NumBuckets, this`nodes, this`chains,
            buckets, nodes`hhPrev, nodes`hhNext, nodes`hashv
    {
      && numBuckets == buckets.Length == |chains| == Pow2(log2NumBuckets)
      && Placed(chains, nodes) && AllChains(buckets, chains, nodes)
    }

    ghost predicate Valid()
      reads this, buckets, nodes, items
    {
      && Members(items, nodes) && AppList(head, tail, items)
      && (head != null ==> numItems == |items| && Chains())
      && Hashed(hash, nodes)
    }

    // head = NULL
    constructor (hash: nat -> nat)
      ensures Valid() && items == [] && nodes == {} && head == null && this.hash == hash && fresh(buckets)
    {
      this.hash := hash;
      head, tail, numItems, numBuckets, log2NumBuckets := null, null, 0, 0, 0;
      idealChainMaxlen, nonidealItems, ineffExpands, noexpand := 0, 0, 0, 0;
      buckets := new Bucket[0];
      items, nodes, chains := [], {}, [];
    }

    lemma Ends()
      requires Valid()
      ensures Distinct(items) && (items == [] <==> head == null)
      ensures items != [] ==> head == items[0]
      ensures (forall n | n in nodes :: n in items) && (forall n | n in items :: n in nodes)
    {
      AppEnds(head, tail, items);
    }

    // HASH_COUNT
    method Count() returns (n: nat)
      requires Valid()
      ensures n == |items|
    {
      n := if head != null then numItems else 0;
    }

    // HASH_MAKE_TABLE
    method MakeTable()
      requires nodes == {}
      modifies this`tail, this`numItems, this`buckets, this`numBuckets, this`log2NumBuckets, this`idealChainMaxlen,
               this`nonidealItems, this`ineffExpands, this`noexpand, this`chains
      ensures Chains() && fresh(buckets) && numItems == 0 && log2NumBuckets == INITIAL_NUM_BUCKETS_LOG2
      ensures tail == head && NewTable()
    {
      assert Pow2(5) == 32;
      hide Pow2, AllChains, Placed, Chain;
      tail, numItems, idealChainMaxlen, nonidealItems, ineffExpands, noexpand := head, 0, 0, 0, 0, 0;
      log2NumBuckets := INITIAL_NUM_BUCKETS_LOG2;
      numBuckets := Pow2(INITIAL_NUM_BUCKETS_LOG2);
      buckets := new Bucket[numBuckets](_ => EMPTY_BUCKET);
      chains := seq(numBuckets, _ => []);
      EmptyTable(buckets, chains);
    }

    // HASH_ADD_TO_BKT, with the expansion it may trigger.
    method AddToBucket(bkt: nat, add: Node)
      requires Chains() && add !in nodes && bkt == BucketOf(add.hashv, numBuckets) && numItems > 0
      modifies this`buckets, this`numBuckets, this`log2NumBuckets, this`idealChainMaxlen, this`nonidealItems,
               this`ineffExpands, this`noexpand, this`chains, this`nodes, buckets, add`hhNext, add`hhPrev,
               nodes`hhPrev, nodes`hhNext
      ensures Chains() && nodes == old(nodes) + {add} && (buckets == old(buckets) || fresh(buckets))
      ensures if Crowded(old(buckets[bkt]), old(noexpand)) then Expanded(old(numBuckets), old(ineffExpands), old(noexpand))
              else AsBefore(old(numBuckets), old(idealChainMaxlen), old(nonidealItems), old(ineffExpands), old(noexpand))
    {
      hide BucketOf, Pow2, AllChains, Placed;
      LinkNode(buckets, bkt, add, chains, nodes);
      chains, nodes := Pushed(chains, bkt, add), nodes + {add};
      if buckets[bkt].count >= (buckets[bkt].expandMult + 1) * BKT_CAPACITY_THRESH && noexpand != 1 {
        ExpandBuckets();
      }
    }

    // The table has been expanded, and the expansion judged.
    ghost predicate Expanded(buckets0: nat, ineff0: nat, noexpand0: nat)
      reads this`buckets, buckets, this`numBuckets, this`numItems, this`idealChainMaxlen, this`nonidealItems, this`chains,
            this`ineffExpands, this`noexpand
    {
      && numBuckets == 2 * buckets0 > 0 && idealChainMaxlen == CeilDiv(numItems, numBuckets)
      && nonidealItems == Excess(chains, idealChainMaxlen) && Multiplied(buckets[..], idealChainMaxlen)
      && ineffExpands == (if nonidealItems > numItems / 2 then ineff0 + 1 else 0)
      && noexpand == (if ineffExpands > 1 then 1 else noexpand0)
    }

    // 32 empty buckets.
    ghost predicate NewTable()
      reads this`buckets, buckets, this`numBuckets, this`idealChainMaxlen, this`nonidealItems, this`ineffExpands,
            this`noexpand
    {
      && (forall b | 0 <= b < buckets.Length :: buckets[b] == EMPTY_BUCKET)
      && AsBefore(32, 0, 0, 0, 0)
    }

    predicate AsBefore(buckets0: nat, ideal0: nat, nonideal0: nat, ineff0: nat, noexpand0: nat)
      reads this`numBuckets, this`idealChainMaxlen, this`nonidealItems, this`ineffExpands, this`noexpand
    {
      numBuckets == buckets0 && idealChainMaxlen == ideal0 && nonidealItems == nonideal0 && ineffExpands == ineff0
      && noexpand == noexpand0
    }

    // The first element makes the table.
    method EnlistFirst(add: Node)
      requires nodes == {}
      modifies this`head, this`tail, this`numItems, this`buckets, this`numBuckets, this`log2NumBuckets,
               this`idealChainMaxlen, this`nonidealItems, this`ineffExpands, this`noexpand, this`chains,
               this`items, add`prev, add`next
      ensures items == [add] && AppList(head, tail, items) && head == add
      ensures Chains() && numItems == 0 && fresh(buckets) && NewTable()
    {
      hide Pow2, Placed, AllChains;
      add.next := null;
      head := add;
      add.prev := null;
      MakeTable();
      items := [add];
    }

    // The first half of HASH_ADD_KEYPTR: the app order, and the table if there is none.
    method Enlist(add: Node)
      requires Valid() && add !in nodes
      modifies this`head, this`tail, this`numItems, this`buckets, this`numBuckets, this`log2NumBuckets,
               this`idealChainMaxlen, this`nonidealItems, this`ineffExpands, this`noexpand, this`chains,
               this`items, add`prev, add`next, nodes`next
      ensures items == old(items) + [add] && AppList(head, tail, items) && head != null
      ensures Chains() && numItems == |items| && (buckets == old(buckets) || fresh(buckets))
      ensures if old(head) == null then NewTable()
              else
                buckets == old(buckets) && AsBefore(old(numBuckets), old(idealChainMaxlen), old(nonidealItems),
                                                    old(ineffExpands), old(noexpand))
    {
      hide BucketOf, Pow2, And, KeyBytes, Chain, Placed, AllChains, AppList;
      AppEnds(head, tail, items);
      if head == null {
        assert nodes == {};
        EnlistFirst(add);
      } else {
        LinkLast(tail, add, head, items);
        tail := add;
        items := items + [add];
      }
      numItems := numItems + 1;
    }

    // HASH_ADD_INT
    method Add(add: Node)
      requires Valid() && add !in nodes
      modifies this`head, this`tail, this`numItems, this`buckets, this`numBuckets, this`log2NumBuckets,
               this`idealChainMaxlen, this`nonidealItems, this`ineffExpands, this`noexpand, this`chains, this`nodes,
               this`items, buckets, add`prev, add`next, add`hhPrev, add`hhNext, add`hashv,
               nodes`prev, nodes`next, nodes`hhPrev, nodes`hhNext
      ensures Valid() && items == old(items) + [add] && nodes == old(nodes) + {add}
      ensures buckets == old(buckets) || fresh(buckets)
      ensures old(head) == null ==> AsBefore(32, 0, 0, 0, 0)
      ensures old(head) != null ==>
                old(numBuckets) == old(buckets).Length > 0 &&
                if Crowded(old(buckets[..])[BucketOf(hash(KeyBytes(add.k)), old(numBuckets))], old(noexpand))
                then Expanded(old(numBuckets), old(ineffExpands), old(noexpand))
                else AsBefore(old(numBuckets), old(idealChainMaxlen), old(nonidealItems), old(ineffExpands), old(noexpand))
    {
      hide BucketOf, KeyBytes, AppList, Chains, Expanded, Crowded, Members, Hashed;
      assert !Crowded(EMPTY_BUCKET, 0) by { EmptyIsNotCrowded(); }
      Enlist(add);
      Enchain(add);
      OneMember(old(items), old(nodes), add);
      OneHashed(hash, old(nodes), add);
    }

    // The second half: the hash and the bucket.
    method Enchain(add: Node)
      requires Chains() && add !in nodes && numItems > 0
      modifies this`buckets, this`numBuckets, this`log2NumBuckets, this`idealChainMaxlen, this`nonidealItems,
               this`ineffExpands, this`noexpand, this`chains, this`nodes, buckets, add`hhNext, add`hhPrev, add`hashv,
               nodes`hhPrev, nodes`hhNext
      ensures Chains() && nodes == old(nodes) + {add} && (buckets == old(buckets) || fresh(buckets))
      ensures add.hashv == hash(KeyBytes(add.k))
      ensures old(numBuckets) == old(buckets).Length > 0
      ensures if Crowded(old(buckets[..])[BucketOf(hash(KeyBytes(add.k)), old(numBuckets))], old(noexpand))
              then Expanded(old(numBuckets), old(ineffExpands), old(noexpand))
              else AsBefore(old(numBuckets), old(idealChainMaxlen), old(nonidealItems), old(ineffExpands), old(noexpand))
    {
      hide BucketOf, KeyBytes, Chains, Crowded, Expanded, AsBefore;
      add.hashv := hash(KeyBytes(add.k));
      var bkt := ToBucket(add.hashv);
      AddToBucket(bkt, add);
    }

    // HASH_TO_BKT
    method ToBucket(hashv: nat) returns (bkt: nat)
      requires Chains()
      ensures numBuckets == buckets.Length > 0 && bkt == BucketOf(hashv, numBuckets)
    {
      hide BucketOf, And, Placed, AllChains;
      BucketIsMasked(hashv, log2NumBuckets);
      bkt := And(hashv, numBuckets - 1);
    }

    // The bucket half of HASH_DELETE.
    method Unchain(del: Node)
      requires Chains() && del in nodes
      modifies this`chains, this`nodes, buckets, nodes`hhPrev, nodes`hhNext
      ensures Chains() && nodes == old(nodes) - {del}
      ensures forall c | 0 <= c < buckets.Length :: buckets[c].expandMult == old(buckets[c].expandMult)
    {
      hide BucketOf, Pow2, And, Placed, AllChains;
      ghost var j := PlaceInChain(chains, nodes, del);
      BucketIsMasked(del.hashv, log2NumBuckets);
      var bkt := And(del.hashv, numBuckets - 1);
      UnlinkNode(buckets, bkt, del, chains, nodes, j);
      chains, nodes := chains[bkt := Without(chains[bkt], j)], nodes - {del};
    }

    // The app-order half of HASH_DELETE when other elements remain.
    method Delist(del: Node, ghost j: nat)
      requires AppList(head, tail, items) && numItems == |items| > 1 && j < |items| && items[j] == del && head != null
      modifies this`head, this`tail, this`numItems, this`items, items`prev, items`next
      ensures AppList(head, tail, items) && items == Without(old(items), j)
      ensures numItems == |items| && head != null
    {
      hide AppList;
      AppEnds(head, tail, items);
      head, tail := UnlinkApp(head, tail, del, items, j);
      items := Without(items, j);
      numItems := numItems - 1;
      AppEnds(head, tail, items);
    }

    // HASH_DEL; deleting the last element frees the table.
    method Delete(del: Node, ghost j: nat)
      requires Valid() && j < |items| && items[j] == del
      modifies this`head, this`tail, this`numItems, this`chains, this`nodes, this`items, buckets,
               nodes`prev, nodes`next, nodes`hhPrev, nodes`hhNext
      ensures Valid() && items == Without(old(items), j) && nodes == old(nodes) - {del}
      ensures items == [] <==> head == null
      ensures forall c | 0 <= c < buckets.Length :: buckets[c].expandMult == old(buckets[c].expandMult)
    {
      hide BucketOf, Pow2, And, KeyBytes, Chain, Placed, AllChains, AppList, Hashed;
      AppEnds(head, tail, items);
      AppOnly(head, tail, items, j);
      WithoutNodes(items, nodes, j);
      FewerHashed(hash, nodes, nodes - {del});
      if del.prev == null && del.next == null {
        head := null;
        items, nodes := [], {};
        NoItems(tail);
        FewerHashed(hash, old(nodes), {});
      } else {
        Delist(del, j);
        Unchain(del);
      }
    }

    // HASH_FIND: a node with these key bytes, or null when the table has none.
    method Find(key: nat) returns (out: Node?)
      requires Valid()
      ensures out != null ==> out in items && KeyBytes(out.k) == KeyBytes(key)
      ensures out == null ==> forall n | n in items :: KeyBytes(n.k) != KeyBytes(key)
    {
      out := null;
      if head != null {
        BucketIsMasked(hash(KeyBytes(key)), log2NumBuckets);
        var bkt := And(hash(KeyBytes(key)), numBuckets - 1);
        ghost var chain := chains[bkt];
        assert Chain(buckets[bkt], chain);
        hide And, Pow2, BucketOf, KeyBytes;
        out := buckets[bkt].hhHead;
        ghost var j := 0;
        while out != null
          invariant 0 <= j <= |chain| && out == At(chain, j)
          invariant forall i | 0 <= i < j :: KeyBytes(chain[i].k) != KeyBytes(key)
          decreases |chain| - j
        {
          if KeyBytes(out.k) == KeyBytes(key) {
            break;
          }
          out := out.hhNext;
          j := j + 1;
        }
      }
    }

    // HASH_EXPAND_BUCKETS
    method ExpandBuckets()
      requires Chains() && numItems > 0
      modifies this`buckets, this`numBuckets, this`log2NumBuckets, this`idealChainMaxlen, this`nonidealItems,
               this`ineffExpands, this`noexpand, this`chains, nodes`hhNext, nodes`hhPrev
      ensures Chains() && fresh(buckets)
      ensures log2NumBuckets == old(log2NumBuckets) + 1 && numBuckets == 2 * old(numBuckets)
      ensures idealChainMaxlen == CeilDiv(numItems, numBuckets)
      ensures nonidealItems == Excess(chains, idealChainMaxlen)
      ensures Expanded(old(numBuckets), old(ineffExpands), old(noexpand))
    {
      hide BucketOf, And, Pow2, AllChains, Placed, Excess, CeilDiv, Multiplied;
      PowDouble(log2NumBuckets);
      var newBuckets := new Bucket[numBuckets * 2](_ => EMPTY_BUCKET);
      idealChainMaxlen := IdealLength(numItems, numBuckets, log2NumBuckets);
      ghost var newChains;
      nonidealItems, newChains :=
        Rehash(buckets, newBuckets, numBuckets, log2NumBuckets + 1, idealChainMaxlen, chains, nodes);
      buckets := newBuckets;
      chains := newChains;
      numBuckets := numBuckets * 2;
      log2NumBuckets := log2NumBuckets + 1;
      JudgeExpansion();
    }

    // Two expansions in a row that leave more than half of the items over the ideal length
    // are the last.
    method JudgeExpansion()
      modifies this`ineffExpands, this`noexpand
      ensures ineffExpands == if nonidealItems > numItems / 2 then old(ineffExpands) + 1 else 0
      ensures noexpand == if ineffExpands > 1 then 1 else old(noexpand)
    {
      ineffExpands := if nonidealItems > numItems / 2 then ineffExpands + 1 else 0;
      if ineffExpands > 1 {
        noexpand := 1;
      }
    }
  }

  ghost function PlaceInChain(chains: seq<seq<Node>>, nodes: set<Node>, n: Node): (j: nat)
    requires Placed(chains, nodes) && n in nodes
    reads nodes`hashv
    ensures j < |chains[BucketOf(n.hashv, |chains|)]| && chains[BucketOf(n.hashv, |chains|)][j] == n
  {
    var chain := chains[BucketOf(n.hashv, |chains|)];
    var j :| 0 <= j < |chain| && chain[j] == n;
    j
  }

  lemma AppEnds(head: Node?, tail: Node?, items: seq<Node>)
    requires AppList(head, tail, items)
    ensures Distinct(items) && (items == [] <==> head == null)
    ensures items != [] ==> head == items[0] && tail == items[|items| - 1]
  {
  }

  lemma NoItems(tail: Node?)
    ensures AppList(null, tail, [])
  {
  }

  lemma AppOnly(head: Node?, tail: Node?, items: seq<Node>, j: nat)
    requires AppList(head, tail, items) && j < |items|
    ensures items[j].prev == null && items[j].next == null <==> |items| == 1
  {
  }

  lemma WithoutNodes(items: seq<Node>, nodes: set<Node>, j: nat)
    requires Distinct(items) && j < |items| && Members(items, nodes)
    ensures Members(Without(items, j), nodes - {items[j]})
  {
    var rest := Without(items, j);
    forall n | n in nodes - {items[j]} ensures n in rest {
      var i :| 0 <= i < |items| && items[i] == n;
      assert rest[if i < j then i else i - 1] == n;
    }
    forall n | n in rest ensures n in nodes - {items[j]} {
      var i :| 0 <= i < |rest| && rest[i] == n;
      assert items[if i < j then i else i + 1] == n;
    }
  }

  lemma PowDouble(log2: nat)
    ensures Pow2(log2 + 1) == 2 * Pow2(log2)
  {
  }

  // ceil(items / 2n) by shift and mask, n being 2^log2.
  function IdealLength(items: nat, n: nat, log2: nat): (ideal: nat)
    requires n == Pow2(log2)
    ensures ideal == CeilDiv(items, 2 * n)
    ensures items > 0 ==> ideal > 0
  {
    PowDouble(log2);
    AndMask(items, log2 + 1);
    CeilDivPositive(items, 2 * n);
    hide Pow2, And;
    items / Pow2(log2 + 1) + (if And(items, n * 2 - 1) != 0 then 1 else 0)
  }

  lemma EmptyTable(buckets: array<Bucket>, chains: seq<seq<Node>>)
    requires buckets.Length == |chains| > 0
    requires forall b | 0 <= b < |chains| :: buckets[b] == EMPTY_BUCKET && chains[b] == []
    ensures Placed(chains, {}) && AllChains(buckets, chains, {})
  {
  }

  lemma OldChains(buckets: array<Bucket>, chains: seq<seq<Node>>, nodes: set<Node>)
    requires buckets.Length == |chains| && Placed(chains, nodes) && AllChains(buckets, chains, nodes)
    ensures forall b | 0 <= b < |chains| :: Rest(buckets[b].hhHead, chains[b])
    ensures forall b | 0 <= b < |chains| :: Distinct(chains[b])
  {
    forall b | 0 <= b < |chains| ensures Rest(buckets[b].hhHead, chains[b]) && Distinct(chains[b]) {
      assert Chain(buckets[b], chains[b]);
    }
  }
}
