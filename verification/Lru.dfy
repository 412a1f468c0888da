// LRU: the hash table's app order used as recency, over a fixed array of entries.
module Lru {
  import opened Basics
  import opened UtHash
  import opened LruSpec

  function PairOf(n: Node): Pair
    reads n`k, n`v
  {
    Pair(KeyBytes(n.k), n.v)
  }

  ghost function PairsOf(items: seq<Node>): (ps: seq<Pair>)
    reads items`k, items`v
    ensures |ps| == |items| && forall i | 0 <= i < |ps| :: ps[i] == PairOf(items[i])
  {
    if items == [] then [] else PairsOf(items[..|items| - 1]) + [PairOf(items[|items| - 1])]
  }

  lemma {:induction false} PairsWithout(items: seq<Node>, j: nat)
    requires j < |items|
    ensures PairsOf(Without(items, j)) == PairsOf(items)[..j] + PairsOf(items)[j + 1..]
  {
    hide PairsOf, KeyBytes;
    var left, right := PairsOf(Without(items, j)), PairsOf(items)[..j] + PairsOf(items)[j + 1..];
    assert |left| == |right| && forall i | 0 <= i < |left| :: left[i] == right[i];
  }

  class LRU {
    const capacity: nat
    const table: HashTable
    const entries: array<Node>

    // The first entries of the array.
    ghost function Used(count: nat): set<Node>
      requires count <= entries.Length
      reads entries
    {
      set n | n in entries[..count]
    }

    ghost predicate Valid()
      reads this, table, table.buckets, table.nodes, table.items, entries
    {
      && table.Valid() && entries.Length == capacity
      && |table.items| <= capacity
      && (forall i, j | 0 <= i < j < capacity :: entries[i] != entries[j])
      && table.nodes == Used(|table.items|)
      && DistinctKeys(PairsOf(table.items))
    }

    // The cache's contents, least recently used first.
    ghost function Contents(): seq<Pair>
      reads this, table, table.items
    {
      PairsOf(table.items)
    }

    constructor (capacity: nat, hash: nat -> nat)
      ensures Valid() && Contents() == [] && this.capacity == capacity
      ensures fresh(table) && fresh(table.buckets) && fresh(entries) && fresh(Used(capacity))
    {
      this.capacity := capacity;
      table := new HashTable(hash);
      var filler := new Node();
      entries := new Node[capacity](_ => filler);
      new;
      var i := 0;
      while i < capacity
        invariant 0 <= i <= capacity && fresh(entries) && entries.Length == capacity
        invariant forall j | 0 <= j < i :: fresh(entries[j])
        invariant forall j, l | 0 <= j < l < i :: entries[j] != entries[l]
        invariant table.Valid() && table.items == [] && table.nodes == {} && fresh(table) && fresh(table.buckets)
      {
        entries[i] := new Node();
        i := i + 1;
      }
    }

    method Insert(k: nat, v: int)
      requires Valid() && capacity > 0 && !Has(Contents(), KeyBytes(k))
      modifies table, table.buckets, Used(capacity)
      ensures Valid() && Contents() == LruSpec.Insert(capacity, old(Contents()), KeyBytes(k), v)
      ensures table.buckets == old(table.buckets) || fresh(table.buckets)
    {
      hide HashTable.Valid, KeyBytes, LruSpec.Insert, Distinct, DistinctKeys, PairsOf;
      var entry := Vacate(KeyBytes(k), v);
      entry.k := k;
      entry.v := v;
      PushBack(entry);
    }

    // HASH_ADD of an entry that is not in the table: it becomes the most recently used.
    method PushBack(entry: Node)
      requires table.Valid() && entries.Length == capacity && |table.items| < capacity
      requires forall i, j | 0 <= i < j < capacity :: entries[i] != entries[j]
      requires entry !in table.nodes && entry !in table.items && table.nodes + {entry} == Used(|table.items| + 1)
      requires DistinctKeys(Contents() + [PairOf(entry)])
      modifies table, table.buckets, table.nodes`prev, table.nodes`next, table.nodes`hhPrev, table.nodes`hhNext,
               entry`prev, entry`next, entry`hhPrev, entry`hhNext, entry`hashv
      ensures Valid() && Contents() == old(Contents()) + [PairOf(entry)]
      ensures table.buckets == old(table.buckets) || fresh(table.buckets)
    {
      hide HashTable.Valid, KeyBytes, Distinct, DistinctKeys;
      table.Add(entry);
    }

    // The entry to reuse: the least recently used one, taken out of the table, once the
    // array is full; before that, the next free one.
    method Vacate(ghost key: nat, ghost v: int) returns (entry: Node)
      requires Valid() && capacity > 0 && !Has(Contents(), key)
      modifies table, table.buckets, table.nodes`prev, table.nodes`next, table.nodes`hhPrev, table.nodes`hhNext
      ensures table.Valid() && entry !in table.nodes && entry !in table.items && table.buckets == old(table.buckets)
      ensures |table.items| < capacity && table.nodes + {entry} == Used(|table.items| + 1)
      ensures Contents() + [Pair(key, v)] == LruSpec.Insert(capacity, old(Contents()), key, v)
      ensures DistinctKeys(Contents() + [Pair(key, v)])
    {
      hide HashTable.Valid, Distinct, LruSpec.Insert, IndexOf, DistinctKeys, PairsOf;
      table.Ends();
      ghost var ps, all := Contents(), table.items;
      InsertAt(capacity, ps, key, v);
      var used := table.Count();
      if used >= capacity {
        entry := table.head;
        table.Delete(entry, 0);
        assert PairsOf(all) == ps;
        PairsWithout(all, 0);
      } else {
        entry := entries[used];
        assert entries[..used + 1] == entries[..used] + [entry];
      }
      table.Ends();
    }

    method Find(k: nat) returns (v: int)
      requires Valid()
      modifies table, table.buckets, table.nodes
      ensures Valid() && v == Lookup(old(Contents()), KeyBytes(k))
      ensures Contents() == Touch(old(Contents()), KeyBytes(k))
      ensures table.buckets == old(table.buckets) || fresh(table.buckets)
    {
      hide HashTable.Valid, KeyBytes, Distinct, Touch, Lookup, IndexOf, DistinctKeys, PairsOf;
      table.Ends();
      var elem := table.Find(k);
      if elem == null {
        TouchAbsent(Contents(), KeyBytes(k));
        return NOT_FOUND;
      }
      assert elem in table.nodes;
      TakeOut(elem, Position(elem));
      PushBack(elem);
      return elem.v;
    }

    // HASH_DEL of a hit.
    method TakeOut(elem: Node, ghost j: nat)
      requires Valid() && j < |table.items| && table.items[j] == elem
      modifies table, table.buckets, table.nodes`prev, table.nodes`next, table.nodes`hhPrev, table.nodes`hhNext
      ensures table.Valid() && elem !in table.nodes && elem !in table.items && table.buckets == old(table.buckets)
      ensures |table.items| < capacity && table.nodes + {elem} == Used(|table.items| + 1)
      ensures Contents() + [PairOf(elem)] == Touch(old(Contents()), KeyBytes(elem.k))
      ensures Lookup(old(Contents()), KeyBytes(elem.k)) == elem.v && table.nodes == old(table.nodes) - {elem}
      ensures DistinctKeys(Contents() + [PairOf(elem)])
    {
      hide HashTable.Valid, KeyBytes, Distinct, Touch, Lookup, IndexOf, DistinctKeys, PairsOf;
      table.Ends();
      ghost var ps, all := Contents(), table.items;
      TouchAt(ps, j);
      table.Delete(elem, j);
      assert PairsOf(all) == ps;
      PairsWithout(all, j);
      table.Ends();
    }

    ghost function Position(n: Node): (j: nat)
      requires n in table.items
      reads table
      ensures j < |table.items| && table.items[j] == n
    {
      var j :| 0 <= j < |table.items| && table.items[j] == n;
      j
    }
  }
}
