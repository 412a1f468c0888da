// What the LRU cache is for: a bounded list of key/value pairs, least recently used
// first, and what it holds after any history of requests.
module LruSpec {

  const NOT_FOUND: int := -1

  datatype Pair = Pair(key: nat, value: int)

  // Index of the pair with the key, or the length of the list when there is none.
  function IndexOf(ps: seq<Pair>, key: nat): (i: nat)
    ensures i <= |ps| && (i < |ps| ==> ps[i].key == key)
    ensures forall j | 0 <= j < i :: ps[j].key != key
  {
    if ps == [] || ps[0].key == key then 0 else 1 + IndexOf(ps[1..], key)
  }

  predicate Has(ps: seq<Pair>, key: nat) { IndexOf(ps, key) < |ps| }

  function Lookup(ps: seq<Pair>, key: nat): int {
    if Has(ps, key) then ps[IndexOf(ps, key)].value else NOT_FOUND
  }

  // find: a hit becomes the most recently used.
  function Touch(ps: seq<Pair>, key: nat): seq<Pair> {
    var i := IndexOf(ps, key);
    if i == |ps| then ps else ps[..i] + ps[i + 1..] + [ps[i]]
  }

  // insert: the least recently used pair makes room when the cache is full.
  function Insert(capacity: nat, ps: seq<Pair>, key: nat, value: int): seq<Pair> {
    (if |ps| >= capacity && ps != [] then ps[1..] else ps) + [Pair(key, value)]
  }

  ghost predicate DistinctKeys(ps: seq<Pair>) {
    forall i, j | 0 <= i < j < |ps| :: ps[i].key != ps[j].key
  }

  // No value is the one that stands for "not found".
  ghost predicate NoneMissing(ps: seq<Pair>) {
    forall i | 0 <= i < |ps| :: ps[i].value != NOT_FOUND
  }

  lemma InsertKeepsDistinct(capacity: nat, ps: seq<Pair>, key: nat, value: int)
    requires DistinctKeys(ps) && !Has(ps, key)
    ensures DistinctKeys(Insert(capacity, ps, key, value))
  {
  }

  lemma TouchKeepsDistinct(ps: seq<Pair>, key: nat)
    requires DistinctKeys(ps)
    ensures DistinctKeys(Touch(ps, key)) && |Touch(ps, key)| == |ps|
  {
  }

  // With distinct keys, wherever a key is found is where IndexOf finds it.
  lemma IndexUnique(ps: seq<Pair>, i: nat)
    requires DistinctKeys(ps) && i < |ps|
    ensures IndexOf(ps, ps[i].key) == i
  {
  }

  lemma TouchAt(ps: seq<Pair>, i: nat)
    requires DistinctKeys(ps) && i < |ps|
    ensures Has(ps, ps[i].key) && Lookup(ps, ps[i].key) == ps[i].value
    ensures Touch(ps, ps[i].key) == ps[..i] + ps[i + 1..] + [ps[i]]
    ensures DistinctKeys(Touch(ps, ps[i].key))
  {
    IndexUnique(ps, i);
    TouchKeepsDistinct(ps, ps[i].key);
  }

  lemma InsertAt(capacity: nat, ps: seq<Pair>, key: nat, value: int)
    requires DistinctKeys(ps) && !Has(ps, key) && 0 < capacity && |ps| <= capacity
    ensures var kept := if |ps| < capacity then ps else ps[..0] + ps[1..];
            Insert(capacity, ps, key, value) == kept + [Pair(key, value)]
            && DistinctKeys(Insert(capacity, ps, key, value))
  {
    InsertKeepsDistinct(capacity, ps, key, value);
  }

  lemma TouchAbsent(ps: seq<Pair>, key: nat)
    requires forall i | 0 <= i < |ps| :: ps[i].key != key
    ensures !Has(ps, key) && Touch(ps, key) == ps && Lookup(ps, key) == NOT_FOUND
  {
  }
}
