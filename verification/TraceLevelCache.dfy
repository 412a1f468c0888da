// trace_level_func_cache: the filter's answers memoised by code object address, of
// which the hash table looks at four bytes.
module TraceLevelCache {
  import opened Basics
  import opened UtHash
  import opened LruSpec
  import opened Lru
  import LruHistory

  lemma ServedNoneMissing(capacity: nat, ps: seq<Pair>, key: nat, answer: int)
    requires NoneMissing(ps) && answer != NOT_FOUND && DistinctKeys(ps)
    ensures NoneMissing(LruHistory.Serve(capacity, ps, key, answer))
    ensures Lookup(ps, key) == NOT_FOUND <==> !Has(ps, key)
    ensures !Has(ps, key) ==> Touch(ps, key) == ps
  {
  }

  method FindTraceLevelOrCallFilter(lru: LRU, code: nat, filter: nat -> int) returns (level: int, hit: bool)
    requires lru.Valid() && lru.capacity > 0 && NoneMissing(lru.Contents()) && filter(code) != NOT_FOUND
    modifies lru.table, lru.table.buckets, lru.Used(lru.capacity)
    ensures lru.Valid() && NoneMissing(lru.Contents())
    ensures lru.Contents() == LruHistory.Serve(lru.capacity, old(lru.Contents()), KeyBytes(code), filter(code))
    ensures level == LruHistory.Level(old(lru.Contents()), KeyBytes(code), filter(code))
    ensures hit == Has(old(lru.Contents()), KeyBytes(code))
    ensures lru.table.buckets == old(lru.table.buckets) || fresh(lru.table.buckets)
  {
    hide HashTable.Valid, KeyBytes, Insert, Touch, Lookup, Has, PairsOf, DistinctKeys;
    ServedNoneMissing(lru.capacity, lru.Contents(), KeyBytes(code), filter(code));
    level := lru.Find(code);
    hit := level != NOT_FOUND;
    if !hit {
      level := filter(code);
      lru.Insert(code, level);
    }
  }

  function Keys(codes: seq<nat>): seq<nat> {
    seq(|codes|, i requires 0 <= i < |codes| => KeyBytes(codes[i]))
  }

  // The cache after requests for these code objects, and the level a request gets.
  function After(capacity: nat, filter: nat -> int, codes: seq<nat>): seq<Pair> {
    if codes == [] then []
    else
      var last := codes[|codes| - 1];
      LruHistory.Serve(capacity, After(capacity, filter, codes[..|codes| - 1]), KeyBytes(last), filter(last))
  }

  function LevelAt(capacity: nat, filter: nat -> int, codes: seq<nat>, i: nat): int
    requires i < |codes|
  {
    LruHistory.Level(After(capacity, filter, codes[..i]), KeyBytes(codes[i]), filter(codes[i]))
  }

  ghost predicate Answers(filter: nat -> int, codes: seq<nat>) {
    forall i | 0 <= i < |codes| :: filter(codes[i]) != NOT_FOUND
  }

  // --- hits, whatever the filter answers ---

  ghost predicate SameKeys(ps: seq<Pair>, qs: seq<Pair>) {
    |ps| == |qs| && forall i | 0 <= i < |ps| :: ps[i].key == qs[i].key
  }

  lemma {:induction false} SameIndex(ps: seq<Pair>, qs: seq<Pair>, key: nat)
    requires SameKeys(ps, qs)
    ensures IndexOf(ps, key) == IndexOf(qs, key)
    decreases |ps|
  {
    if ps != [] {
      assert forall i | 0 <= i < |ps| - 1 :: ps[1..][i] == ps[i + 1] && qs[1..][i] == qs[i + 1];
      SameIndex(ps[1..], qs[1..], key);
    }
  }

  // Where the pairs of the touched list come from.
  function Source(ps: seq<Pair>, key: nat, p: nat): (q: nat)
    requires p < |ps|
    ensures q < |ps|
  {
    var i := IndexOf(ps, key);
    if i == |ps| || p < i then p else if p < |ps| - 1 then p + 1 else i
  }

  lemma TouchAtSource(ps: seq<Pair>, key: nat)
    ensures |Touch(ps, key)| == |ps| && forall p | 0 <= p < |ps| :: Touch(ps, key)[p] == ps[Source(ps, key, p)]
  {
    hide IndexOf;
    var i := IndexOf(ps, key);
    forall p | 0 <= p < |ps| ensures Touch(ps, key)[p] == ps[Source(ps, key, p)] {
      if i < |ps| { LastMoved(ps, i, p); }
    }
  }

  lemma LastMoved(ps: seq<Pair>, i: nat, p: nat)
    requires i < |ps| && p < |ps|
    ensures (ps[..i] + ps[i + 1..] + [ps[i]])[p] == ps[if p < i then p else if p < |ps| - 1 then p + 1 else i]
  {
  }

  lemma TouchKeys(ps: seq<Pair>, qs: seq<Pair>, key: nat)
    requires SameKeys(ps, qs)
    ensures SameKeys(Touch(ps, key), Touch(qs, key))
    ensures NoneMissing(ps) ==> NoneMissing(Touch(ps, key))
  {
    hide IndexOf, Touch;
    SameIndex(ps, qs, key);
    TouchAtSource(ps, key);
    TouchAtSource(qs, key);
  }

  lemma InsertKeys(capacity: nat, ps: seq<Pair>, qs: seq<Pair>, key: nat, a: int, b: int)
    requires SameKeys(ps, qs)
    ensures SameKeys(Insert(capacity, ps, key, a), Insert(capacity, qs, key, b))
    ensures NoneMissing(ps) && a != NOT_FOUND ==> NoneMissing(Insert(capacity, ps, key, a))
  {
  }

  // Which keys are in the cache does not depend on their values.
  lemma ServeKeys(capacity: nat, ps: seq<Pair>, qs: seq<Pair>, key: nat, a: int, b: int)
    requires SameKeys(ps, qs) && NoneMissing(ps) && NoneMissing(qs) && a != NOT_FOUND && b != NOT_FOUND
    ensures SameKeys(LruHistory.Serve(capacity, ps, key, a), LruHistory.Serve(capacity, qs, key, b))
    ensures NoneMissing(LruHistory.Serve(capacity, ps, key, a)) && NoneMissing(LruHistory.Serve(capacity, qs, key, b))
  {
    hide Touch, Insert;
    SameIndex(ps, qs, key);
    TouchKeys(ps, qs, key);
    TouchKeys(qs, ps, key);
    InsertKeys(capacity, Touch(ps, key), Touch(qs, key), key, a, b);
    InsertKeys(capacity, Touch(qs, key), Touch(ps, key), key, b, a);
  }

  lemma {:induction false} AfterKeys(capacity: nat, filter: nat -> int, codes: seq<nat>)
    requires Answers(filter, codes)
    ensures var any := LruHistory.Contents(capacity, (k: nat) => 0, Keys(codes));
            SameKeys(After(capacity, filter, codes), any) && NoneMissing(any)
    ensures NoneMissing(After(capacity, filter, codes))
    decreases |codes|
  {
    hide LruHistory.Serve, KeyBytes;
    if codes != [] {
      var init, last := codes[..|codes| - 1], codes[|codes| - 1];
      AfterKeys(capacity, filter, init);
      assert Keys(codes)[..|codes| - 1] == Keys(init);
      ServeKeys(capacity, After(capacity, filter, init), LruHistory.Contents(capacity, (k: nat) => 0, Keys(init)),
                KeyBytes(last), filter(last), 0);
    }
  }

  // The i-th request is a hit exactly when its key was requested before, with fewer
  // than `capacity` other keys since.
  ghost predicate HitRight(codes: seq<nat>, i: nat, capacity: nat, hit: bool)
    requires i < |codes|
  {
    hit <==> KeyBytes(codes[i]) in Keys(codes[..i])
             && |LruHistory.Later(Keys(codes[..i]), KeyBytes(codes[i]))| < capacity
  }

  lemma OneMoreRequest(codes: seq<nat>, i: nat, capacity: nat, filter: nat -> int)
    requires capacity > 0 && Answers(filter, codes) && i < |codes|
    ensures var ps := After(capacity, filter, codes[..i]);
            && LruHistory.Serve(capacity, ps, KeyBytes(codes[i]), filter(codes[i])) == After(capacity, filter, codes[..i + 1])
            && HitRight(codes, i, capacity, Has(ps, KeyBytes(codes[i])))
  {
    hide LruHistory.Later;
    AfterKeys(capacity, filter, codes[..i]);
    SameIndex(After(capacity, filter, codes[..i]), LruHistory.Contents(capacity, (k: nat) => 0, Keys(codes[..i])),
              KeyBytes(codes[i]));
    LruHistory.ResidentByLastUse(capacity, (k: nat) => 0, Keys(codes[..i]), KeyBytes(codes[i]));
    assert codes[..i + 1][..i] == codes[..i];
  }

  // A whole run of one greenlet's cache, on the real table, whatever the filter: the
  // levels are those of the list model, and hits and misses those of the c most
  // recently used keys.
  method ServeAll(codes: seq<nat>, capacity: nat, hash: nat -> nat, filter: nat -> int)
    returns (levels: seq<int>, hits: seq<bool>)
    requires capacity > 0 && Answers(filter, codes)
    ensures |levels| == |hits| == |codes|
    ensures forall i | 0 <= i < |codes| ::
              levels[i] == LevelAt(capacity, filter, codes, i) && HitRight(codes, i, capacity, hits[i])
  {
    hide LRU.Valid, HitRight, Insert, Touch, Lookup, PairsOf, Keys, LruHistory.Serve;
    var lru := new LRU(capacity, hash);
    levels, hits := [], [];
    while |levels| < |codes|
      invariant |hits| == |levels| <= |codes|
      invariant lru.Valid() && NoneMissing(lru.Contents()) && lru.capacity == capacity <= lru.entries.Length
      invariant fresh(lru.table) && fresh(lru.table.buckets) && fresh(lru.Used(capacity))
      invariant lru.Contents() == After(capacity, filter, codes[..|levels|])
      invariant forall i | 0 <= i < |levels| ::
                  levels[i] == LevelAt(capacity, filter, codes, i) && HitRight(codes, i, capacity, hits[i])
    {
      OneMoreRequest(codes, |levels|, capacity, filter);
      var level, hit := FindTraceLevelOrCallFilter(lru, codes[|levels|], filter);
      levels, hits := levels + [level], hits + [hit];
    }
  }

  // --- when the levels are the filter's ---

  // Where a pair of the cache was before a request that did not bring it.
  lemma ServedBefore(capacity: nat, ps: seq<Pair>, key: nat, answer: int, p: nat) returns (q: nat)
    requires p < |LruHistory.Serve(capacity, ps, key, answer)|
    requires LruHistory.Serve(capacity, ps, key, answer)[p] != Pair(key, answer)
    ensures q < |ps| && ps[q] == LruHistory.Serve(capacity, ps, key, answer)[p]
  {
    var touched := Touch(ps, key);
    if Lookup(ps, key) != NOT_FOUND {
      q := TouchedBefore(ps, key, p);
    } else {
      q := TouchedBefore(ps, key, if |touched| >= capacity && touched != [] then p + 1 else p);
    }
  }

  lemma TouchedBefore(ps: seq<Pair>, key: nat, p: nat) returns (q: nat)
    requires p < |Touch(ps, key)|
    ensures q < |ps| && ps[q] == Touch(ps, key)[p]
  {
    TouchAtSource(ps, key);
    q := Source(ps, key, p);
  }

  // Every cached pair is the filter's answer for some code object requested.
  lemma {:induction false} AfterFromCodes(capacity: nat, filter: nat -> int, codes: seq<nat>, p: nat) returns (j: nat)
    requires p < |After(capacity, filter, codes)|
    ensures j < |codes|
    ensures After(capacity, filter, codes)[p] == Pair(KeyBytes(codes[j]), filter(codes[j]))
    decreases |codes|
  {
    hide KeyBytes, LruHistory.Serve;
    var init, last := codes[..|codes| - 1], |codes| - 1;
    if After(capacity, filter, codes)[p] == Pair(KeyBytes(codes[last]), filter(codes[last])) {
      j := last;
    } else {
      var q := ServedBefore(capacity, After(capacity, filter, init), KeyBytes(codes[last]), filter(codes[last]), p);
      j := AfterFromCodes(capacity, filter, init, q);
    }
  }

  // Code objects in the set that share their key bytes have the same level.
  ghost predicate RespectsKeys(filter: nat -> int, codes: iset<nat>) {
    forall x, y | x in codes && y in codes && KeyBytes(x) == KeyBytes(y) :: filter(x) == filter(y)
  }

  ghost predicate AllRight(capacity: nat, filter: nat -> int, codes: seq<nat>) {
    forall i | 0 <= i < |codes| :: LevelAt(capacity, filter, codes, i) == filter(codes[i])
  }

  lemma RespectedLevel(capacity: nat, filter: nat -> int, codes: seq<nat>, i: nat, all: iset<nat>)
    requires RespectsKeys(filter, all) && (forall c | c in codes :: c in all) && i < |codes|
    ensures LevelAt(capacity, filter, codes, i) == filter(codes[i])
  {
    hide KeyBytes;
    var ps, key := After(capacity, filter, codes[..i]), KeyBytes(codes[i]);
    if Has(ps, key) {
      var j := AfterFromCodes(capacity, filter, codes[..i], IndexOf(ps, key));
      assert codes[..i][j] == codes[j] && codes[j] in codes && codes[i] in codes;
    }
  }

  // Every run over a set of code objects gets the filter's own levels if and only if the
  // filter respects key bytes on that set.
  lemma RightExactlyWhenKeysRespected(capacity: nat, filter: nat -> int, all: iset<nat>)
    requires capacity > 0 && forall c | c in all :: filter(c) != NOT_FOUND
    ensures RespectsKeys(filter, all) <==>
            forall codes: seq<nat> | forall c | c in codes :: c in all :: AllRight(capacity, filter, codes)
  {
    hide KeyBytes, AllRight, LevelAt;
    if RespectsKeys(filter, all) {
      forall codes: seq<nat> | forall c | c in codes :: c in all ensures AllRight(capacity, filter, codes) {
        AllRespected(capacity, filter, codes, all);
      }
    } else {
      var x, y :| x in all && y in all && KeyBytes(x) == KeyBytes(y) && filter(x) != filter(y);
      CollisionGivesWrongLevel(capacity, x, y, filter);
      assert forall c | c in [x, y] :: c in all;
    }
  }

  lemma AllRespected(capacity: nat, filter: nat -> int, codes: seq<nat>, all: iset<nat>)
    requires RespectsKeys(filter, all) && forall c | c in codes :: c in all
    ensures AllRight(capacity, filter, codes)
  {
    forall i | 0 <= i < |codes| ensures LevelAt(capacity, filter, codes, i) == filter(codes[i]) {
      RespectedLevel(capacity, filter, codes, i, all);
    }
  }

  // Two requests in a row are enough: the second is given the first one's level.
  lemma CollisionGivesWrongLevel(capacity: nat, x: nat, y: nat, filter: nat -> int)
    requires capacity > 0 && KeyBytes(x) == KeyBytes(y) && filter(x) != filter(y) && filter(x) != NOT_FOUND
    ensures LevelAt(capacity, filter, [x, y], 1) == filter(x) != filter(y) && !AllRight(capacity, filter, [x, y])
  {
    assert [x, y][..1] == [x] && [x][..0] == [];
    assert After(capacity, filter, [x]) == [Pair(KeyBytes(x), filter(x))];
  }
}
