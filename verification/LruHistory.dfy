// The cache under its callers' discipline: what is resident after a whole history.
module LruHistory {
  import opened LruSpec

  // find, and on NOT_FOUND ask the filter and insert its answer.
  function Serve(capacity: nat, ps: seq<Pair>, key: nat, answer: int): seq<Pair> {
    if Lookup(ps, key) != NOT_FOUND then Touch(ps, key) else Insert(capacity, Touch(ps, key), key, answer)
  }

  function Level(ps: seq<Pair>, key: nat, answer: int): int {
    if Lookup(ps, key) != NOT_FOUND then Lookup(ps, key) else answer
  }

  function Contents(capacity: nat, filter: nat -> int, history: seq<nat>): seq<Pair> {
    if history == [] then []
    else
      var key := history[|history| - 1];
      Serve(capacity, Contents(capacity, filter, history[..|history| - 1]), key, filter(key))
  }

  // --- the independent description ---

  function Removed(ks: seq<nat>, key: nat): seq<nat> {
    if ks == [] then []
    else if ks[|ks| - 1] == key then Removed(ks[..|ks| - 1], key)
    else Removed(ks[..|ks| - 1], key) + [ks[|ks| - 1]]
  }

  // All distinct keys ever requested, by their last use, oldest first.
  function Recency(history: seq<nat>): seq<nat> {
    if history == [] then []
    else Removed(Recency(history[..|history| - 1]), history[|history| - 1]) + [history[|history| - 1]]
  }

  function LastOf(ks: seq<nat>, n: nat): seq<nat> {
    if |ks| <= n then ks else ks[|ks| - n..]
  }

  // Index just past the last request for the key; 0 if there was none.
  function LastUse(history: seq<nat>, key: nat): (t: nat)
    ensures t <= |history| && (t == 0 <==> key !in history)
    ensures t > 0 ==> history[t - 1] == key
  {
    if history == [] then 0
    else if history[|history| - 1] == key then |history|
    else
      assert history == history[..|history| - 1] + [history[|history| - 1]];
      LastUse(history[..|history| - 1], key)
  }

  ghost predicate Unique(ks: seq<nat>) {
    forall i, j | 0 <= i < j < |ks| :: ks[i] != ks[j]
  }

  lemma {:induction false} RemovedFacts(ks: seq<nat>, key: nat)
    requires Unique(ks)
    ensures Unique(Removed(ks, key)) && key !in Removed(ks, key)
    ensures forall k :: k in Removed(ks, key) <==> k in ks && k != key
    ensures key !in ks ==> Removed(ks, key) == ks
    decreases |ks|
  {
    if ks != [] {
      var init, last := ks[..|ks| - 1], ks[|ks| - 1];
      assert ks == init + [last];
      RemovedFacts(init, key);
      assert last !in init;
    }
  }

  // Removing the element at i is cutting it out.
  lemma {:induction false} RemovedAt(ks: seq<nat>, i: nat)
    requires Unique(ks) && i < |ks|
    ensures Removed(ks, ks[i]) == ks[..i] + ks[i + 1..]
    decreases |ks|
  {
    var init, last := ks[..|ks| - 1], ks[|ks| - 1];
    if i == |ks| - 1 {
      RemovedFacts(init, last);
      assert ks[i + 1..] == [];
    } else {
      RemovedAt(init, i);
      assert init[..i] + init[i + 1..] + [last] == ks[..i] + ks[i + 1..];
    }
  }

  lemma {:induction false} RecencyFacts(history: seq<nat>)
    ensures Unique(Recency(history)) && forall k :: k in Recency(history) <==> k in history
    decreases |history|
  {
    if history != [] {
      var init, last := history[..|history| - 1], history[|history| - 1];
      RecencyFacts(init);
      RemovedFacts(Recency(init), last);
      assert history == init + [last];
    }
  }

  // Recency is ordered by last use.
  lemma {:induction false} RecencyOrdered(history: seq<nat>, i: nat, j: nat)
    requires i < j < |Recency(history)|
    ensures LastUse(history, Recency(history)[i]) < LastUse(history, Recency(history)[j])
    decreases |history|
  {
    var init, last := history[..|history| - 1], history[|history| - 1];
    var before := Recency(init);
    RecencyFacts(init);
    RemovedFacts(before, last);
    var kept := Removed(before, last);
    if j < |kept| {
      var i', j' := RemovedOrder(before, last, i, j);
      RecencyOrdered(init, i', j');
      assert kept[i] in kept && kept[j] in kept;
    } else {
      assert kept[i] in kept;
    }
  }

  // Removing keeps the relative order of what stays.
  lemma {:induction false} RemovedOrder(ks: seq<nat>, key: nat, i: nat, j: nat) returns (i': nat, j': nat)
    requires Unique(ks) && i < j < |Removed(ks, key)|
    ensures i' < j' < |ks| && ks[i'] == Removed(ks, key)[i] && ks[j'] == Removed(ks, key)[j]
    decreases |ks|
  {
    if key in ks {
      var p :| 0 <= p < |ks| && ks[p] == key;
      RemovedAt(ks, p);
      i', j' := if i < p then i else i + 1, if j < p then j else j + 1;
    } else {
      RemovedFacts(ks, key);
      i', j' := i, j;
    }
  }

  function PairsFor(ks: seq<nat>, filter: nat -> int): seq<Pair> {
    seq(|ks|, i requires 0 <= i < |ks| => Pair(ks[i], filter(ks[i])))
  }

  lemma IndexFor(ks: seq<nat>, filter: nat -> int, key: nat)
    requires Unique(ks)
    ensures Has(PairsFor(ks, filter), key) <==> key in ks
    ensures key in ks ==> ks[IndexOf(PairsFor(ks, filter), key)] == key && Lookup(PairsFor(ks, filter), key) == filter(key)
  {
    var ps := PairsFor(ks, filter);
    if key in ks {
      var i :| 0 <= i < |ks| && ks[i] == key;
      assert ps[i].key == key;
    }
  }

  // What one request does to the resident keys, oldest first.
  function Updated(capacity: nat, ks: seq<nat>, key: nat): seq<nat> {
    (if key in ks then Removed(ks, key) else if |ks| >= capacity && ks != [] then ks[1..] else ks) + [key]
  }

  lemma ServeUpdates(capacity: nat, ks: seq<nat>, filter: nat -> int, key: nat)
    requires capacity > 0 && Unique(ks) && forall k :: filter(k) != NOT_FOUND
    ensures Serve(capacity, PairsFor(ks, filter), key, filter(key)) == PairsFor(Updated(capacity, ks, key), filter)
  {
    hide PairsFor, Removed, IndexOf;
    IndexFor(ks, filter, key);
    if key in ks {
      var i := IndexOf(PairsFor(ks, filter), key);
      PairsLength(ks, filter);
      RemovedAt(ks, i);
      PairsTouched(ks, filter, i);
    } else {
      PairsLength(ks, filter);
      PairsInserted(ks, filter, key);
    }
  }

  lemma PairsLength(ks: seq<nat>, filter: nat -> int)
    ensures |PairsFor(ks, filter)| == |ks|
  {
  }

  lemma PairsTouched(ks: seq<nat>, filter: nat -> int, i: nat)
    requires i < |ks|
    ensures var ps := PairsFor(ks, filter);
            ps[..i] + ps[i + 1..] + [ps[i]] == PairsFor(ks[..i] + ks[i + 1..] + [ks[i]], filter)
  {
  }

  lemma PairsInserted(ks: seq<nat>, filter: nat -> int, key: nat)
    ensures PairsFor(ks, filter) + [Pair(key, filter(key))] == PairsFor(ks + [key], filter)
    ensures ks != [] ==> PairsFor(ks, filter)[1..] + [Pair(key, filter(key))] == PairsFor(ks[1..] + [key], filter)
  {
  }

  lemma MovedInSuffix(all: seq<nat>, d: nat, p: nat)
    requires d <= p < |all|
    ensures var ks := all[d..];
            (all[..p] + all[p + 1..] + [all[p]])[d..] == ks[..p - d] + ks[p - d + 1..] + [all[p]]
  {
  }

  lemma LastOfHit(n: nat, all: seq<nat>, p: nat)
    requires n > 0 && Unique(all) && p < |all| && |all| <= p + n
    ensures all[p] in LastOf(all, n)
    ensures LastOf(all[..p] + all[p + 1..] + [all[p]], n) == Removed(LastOf(all, n), all[p]) + [all[p]]
  {
    hide Removed, LastOf, Unique;
    var d := if |all| <= n then 0 else |all| - n;
    var ks, moved := all[d..], all[..p] + all[p + 1..] + [all[p]];
    LastOfIs(all, n);
    LastOfIs(moved, n);
    UniqueSuffix(all, d);
    assert ks[p - d] == all[p];
    RemovedAt(ks, p - d);
    MovedInSuffix(all, d, p);
  }

  lemma LastOfIs(ks: seq<nat>, n: nat)
    ensures LastOf(ks, n) == ks[if |ks| <= n then 0 else |ks| - n..]
  {
  }

  lemma UniqueSuffix(ks: seq<nat>, d: nat)
    requires Unique(ks) && d <= |ks|
    ensures Unique(ks[d..])
  {
  }

  lemma LastOfMiss(n: nat, all: seq<nat>, p: nat)
    requires n > 0 && Unique(all) && p + n < |all|
    ensures all[p] !in LastOf(all, n) && |LastOf(all, n)| == n
    ensures LastOf(all[..p] + all[p + 1..] + [all[p]], n) == LastOf(all, n)[1..] + [all[p]]
  {
  }

  lemma LastOfNew(n: nat, all: seq<nat>, key: nat)
    requires n > 0 && key !in all
    ensures key !in LastOf(all, n)
    ensures LastOf(all + [key], n) == (if |LastOf(all, n)| >= n then LastOf(all, n)[1..] else LastOf(all, n)) + [key]
  {
  }

  // Keeping the last n of the recency order commutes with one more request.
  lemma LastOfUpdated(n: nat, all: seq<nat>, key: nat)
    requires n > 0 && Unique(all)
    ensures LastOf(Removed(all, key) + [key], n) == Updated(n, LastOf(all, n), key)
  {
    hide Removed, LastOf, Unique;
    if key in all {
      var p :| 0 <= p < |all| && all[p] == key;
      RemovedAt(all, p);
      if |all| <= p + n {
        LastOfHit(n, all, p);
      } else {
        LastOfMiss(n, all, p);
      }
    } else {
      RemovedFacts(all, key);
      LastOfNew(n, all, key);
    }
  }

  // The cache holds exactly the `capacity` most recently used distinct keys of the whole
  // history, in order of last use, each with the filter's own answer.
  lemma {:induction false} ResidentIsMostRecent(capacity: nat, filter: nat -> int, history: seq<nat>)
    requires capacity > 0 && forall k :: filter(k) != NOT_FOUND
    ensures Contents(capacity, filter, history) == PairsFor(LastOf(Recency(history), capacity), filter)
    decreases |history|
  {
    if history != [] {
      var init, key := history[..|history| - 1], history[|history| - 1];
      ResidentIsMostRecent(capacity, filter, init);
      RecencyFacts(init);
      ServeUpdates(capacity, LastOf(Recency(init), capacity), filter, key);
      LastOfUpdated(capacity, Recency(init), key);
    }
  }

  // The keys requested since the last request for the given one.
  ghost function Later(history: seq<nat>, key: nat): set<nat> {
    set k | k in history && LastUse(history, k) > LastUse(history, key)
  }

  function KeySet(ks: seq<nat>): set<nat> { set k | k in ks }

  lemma {:induction false} KeySetSize(ks: seq<nat>)
    requires Unique(ks)
    ensures |KeySet(ks)| == |ks|
    decreases |ks|
  {
    if ks != [] {
      var init, last := ks[..|ks| - 1], ks[|ks| - 1];
      KeySetSize(init);
      assert last !in KeySet(init);
      assert KeySet(ks) == KeySet(init) + {last} by { assert ks == init + [last]; }
    }
  }

  // They are the ones after it in the recency order.
  lemma LaterIsAfter(history: seq<nat>, p: nat)
    requires p < |Recency(history)|
    ensures |Later(history, Recency(history)[p])| == |Recency(history)| - p - 1
  {
    var all := Recency(history);
    var after := all[p + 1..];
    RecencyFacts(history);
    forall k ensures k in Later(history, all[p]) <==> k in KeySet(after) {
      if k in all {
        var q :| 0 <= q < |all| && all[q] == k;
        if q < p { RecencyOrdered(history, q, p); }
        if p < q {
          RecencyOrdered(history, p, q);
          assert after[q - p - 1] == k;
        }
        if k in after {
          var r :| 0 <= r < |after| && after[r] == k;
          assert all[p + 1 + r] == k;
        }
      }
    }
    assert Later(history, all[p]) == KeySet(after);
    KeySetSize(after);
  }

  // The same in terms of last uses alone: a key is resident exactly when it has been
  // requested and fewer than `capacity` keys have been requested since.
  lemma ResidentByLastUse(capacity: nat, filter: nat -> int, history: seq<nat>, key: nat)
    requires capacity > 0 && forall k :: filter(k) != NOT_FOUND
    ensures Has(Contents(capacity, filter, history), key) <==> key in history && |Later(history, key)| < capacity
  {
    ResidentIsMostRecent(capacity, filter, history);
    RecencyFacts(history);
    var all := Recency(history);
    var ks := LastOf(all, capacity);
    IndexFor(ks, filter, key);
    if key in history {
      var p :| 0 <= p < |all| && all[p] == key;
      LaterIsAfter(history, p);
      if |all| <= p + capacity { LastOfHit(capacity, all, p); } else { LastOfMiss(capacity, all, p); }
    } else {
      assert key !in ks;
    }
  }

  // Every hit at capacity c is a hit at capacity c + 1.
  lemma LargerCacheHitsMore(capacity: nat, filter: nat -> int, history: seq<nat>, key: nat)
    requires capacity > 0 && forall k :: filter(k) != NOT_FOUND
    ensures Has(Contents(capacity, filter, history), key) ==> Has(Contents(capacity + 1, filter, history), key)
  {
    ResidentByLastUse(capacity, filter, history, key);
    ResidentByLastUse(capacity + 1, filter, history, key);
  }

  // Every request is answered as the filter would answer it.
  lemma LevelIsFilters(capacity: nat, filter: nat -> int, history: seq<nat>, key: nat)
    requires capacity > 0 && forall k :: filter(k) != NOT_FOUND
    ensures Level(Contents(capacity, filter, history), key, filter(key)) == filter(key)
  {
    ResidentIsMostRecent(capacity, filter, history);
    RecencyFacts(history);
    IndexFor(LastOf(Recency(history), capacity), filter, key);
  }
}
