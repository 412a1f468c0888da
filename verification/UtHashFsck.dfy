// HASH_FSCK: the library's own integrity check finds nothing wrong with a valid table.
module UtHashFsck {
  import opened Basics
  import opened UtHash
  import opened Words

  ghost function NodeSet(s: seq<Node>): set<Node> { set n | n in s }

  lemma {:induction false} DistinctSize(s: seq<Node>)
    requires Distinct(s)
    ensures |NodeSet(s)| == |s|
    decreases |s|
  {
    if s == [] {
      assert NodeSet(s) == {};
    } else {
      var last, rest := s[|s| - 1], s[..|s| - 1];
      DistinctSize(rest);
      assert s == rest + [last];
      assert NodeSet(s) == NodeSet(rest) + {last};
      assert last !in rest;
    }
  }

  ghost function Sizes(chains: seq<seq<Node>>): nat {
    if chains == [] then 0 else Sizes(chains[..|chains| - 1]) + |chains[|chains| - 1]|
  }

  ghost function Below(nodes: set<Node>, k: nat, numBuckets: nat): set<Node>
    requires numBuckets > 0
    reads nodes`hashv
  {
    set n | n in nodes && BucketOf(n.hashv, numBuckets) < k
  }

  lemma {:induction false} BelowSize(chains: seq<seq<Node>>, nodes: set<Node>, k: nat)
    requires Placed(chains, nodes) && k <= |chains|
    requires forall b | 0 <= b < |chains| :: Distinct(chains[b])
    ensures |Below(nodes, k, |chains|)| == Sizes(chains[..k])
  {
    hide Distinct, BucketOf, NodeSet;
    if k == 0 {
      assert Below(nodes, 0, |chains|) == {};
    } else {
      BelowSize(chains, nodes, k - 1);
      DistinctSize(chains[k - 1]);
      assert chains[..k][..k - 1] == chains[..k - 1];
      BelowNext(chains, nodes, k);
    }
  }

  lemma BelowNext(chains: seq<seq<Node>>, nodes: set<Node>, k: nat)
    requires Placed(chains, nodes) && 0 < k <= |chains|
    ensures var below, here := Below(nodes, k - 1, |chains|), NodeSet(chains[k - 1]);
            Below(nodes, k, |chains|) == below + here && below !! here
  {
    hide Distinct, BucketOf;
  }

  // Every element is counted in exactly one bucket.
  lemma CountsAddUp(t: HashTable)
    requires t.Valid() && t.head != null
    ensures Sizes(t.chains) == |t.items|
  {
    hide BucketOf, Pow2, KeyBytes;
    t.Ends();
    DistinctSize(t.items);
    assert NodeSet(t.items) == t.nodes;
    forall b | 0 <= b < |t.chains| ensures Distinct(t.chains[b]) {
      assert Chain(t.buckets[b], t.chains[b]);
    }
    BelowSize(t.chains, t.nodes, |t.chains|);
    assert Below(t.nodes, |t.chains|, |t.chains|) == t.nodes;
    assert t.chains[..|t.chains|] == t.chains;
  }

  method CheckBucket(bucket: Bucket, ghost chain: seq<Node>) returns (ok: bool, bktCount: nat)
    requires Chain(bucket, chain)
    ensures ok && bktCount == |chain|
  {
    var thh, prev: Node? := bucket.hhHead, null;
    ok, bktCount := true, 0;
    while thh != null
      invariant bktCount <= |chain| && thh == At(chain, bktCount) && prev == At(chain, bktCount - 1) && ok
      decreases |chain| - bktCount
    {
      ok := ok && prev == thh.hhPrev;
      bktCount := bktCount + 1;
      prev := thh;
      thh := thh.hhNext;
    }
    ok := ok && bucket.count == bktCount;
  }

  method CheckAppOrder(t: HashTable) returns (ok: bool)
    requires t.Valid() && t.head != null
    ensures ok
  {
    var thh, prev: Node? := t.head, null;
    var count := 0;
    ok := true;
    while thh != null
      invariant 0 <= count <= |t.items| && thh == At(t.items, count) && prev == At(t.items, count - 1) && ok
      decreases |t.items| - count
    {
      count := count + 1;
      ok := ok && prev == thh.prev;
      prev := thh;
      thh := thh.next;
    }
    ok := ok && count == t.numItems;
  }

  method Fsck(t: HashTable) returns (ok: bool)
    requires t.Valid()
    ensures ok
  {
    hide AppList, BucketOf, Pow2, KeyBytes, Placed, Chain;
    ok := true;
    if t.head != null {
      var count, i := 0, 0;
      while i < t.numBuckets
        invariant 0 <= i <= t.numBuckets && ok && count == Sizes(t.chains[..i])
      {
        assert Chain(t.buckets[i], t.chains[i]);
        var fine, bktCount := CheckBucket(t.buckets[i], t.chains[i]);
        ok := ok && fine;
        count := count + bktCount;
        assert t.chains[..i + 1][..i] == t.chains[..i];
        i := i + 1;
      }
      CountsAddUp(t);
      assert t.chains[..i] == t.chains;
      ok := ok && count == t.numItems;
      var ordered := CheckAppOrder(t);
      ok := ok && ordered;
    }
  }
}
