// The spinlock counters: over every run each counts the times its side got a lock only
// after having found it taken.
module RingWaits {
  import opened Basics
  import opened Words
  import opened Sums
  import opened RingProtocol
  import opened RingSteps
  import opened RingTheorems

  // The producer's try for its slot's lock finds it taken.
  predicate FindsBusy(s: State, p: nat) {
    p < |s.producers| && s.producers[p].Spin? && s.producers[p].slot < |s.busy| && s.busy[s.producers[p].slot]
  }

  predicate PopFindsBusy(s: State) {
    s.consumer.PopSpin? && s.consumer.slot < |s.busy| && s.busy[s.consumer.slot]
  }

  // The last thing the producer did, among the first n steps of the run, was such a try.
  ghost predicate Blocked(actions: seq<Action>, states: seq<State>, n: nat, p: nat)
    requires n <= |actions| < |states|
  {
    n > 0 && if actions[n - 1] == Produce(p) then FindsBusy(states[n - 1], p) else Blocked(actions, states, n - 1, p)
  }

  ghost predicate PopBlocked(actions: seq<Action>, states: seq<State>, n: nat)
    requires n <= |actions| < |states|
  {
    n > 0 && if actions[n - 1] == Consume then PopFindsBusy(states[n - 1])
             else actions[n - 1] != StartPop && PopBlocked(actions, states, n - 1)
  }

  // Among the first n steps, those by which a producer got a lock after such a try.
  ghost function LateLocks(actions: seq<Action>, states: seq<State>, n: nat): nat
    requires n <= |actions| < |states|
  {
    if n == 0 then 0
    else LateLocks(actions, states, n - 1) + (if LateLock(actions, states, n - 1) then 1 else 0)
  }

  ghost predicate LateLock(actions: seq<Action>, states: seq<State>, m: nat)
    requires m < |actions| < |states|
  {
    var s := states[m];
    actions[m].Produce? && actions[m].p < |s.producers| && s.producers[actions[m].p].Spin?
    && !FindsBusy(s, actions[m].p) && Blocked(actions, states, m, actions[m].p)
  }

  ghost function LatePops(actions: seq<Action>, states: seq<State>, n: nat): nat
    requires n <= |actions| < |states|
  {
    if n == 0 then 0
    else
      LatePops(actions, states, n - 1)
      + (var s := states[n - 1];
         if actions[n - 1] == Consume && s.consumer.PopSpin? && !PopFindsBusy(s) && PopBlocked(actions, states, n - 1)
         then 1 else 0)
  }

  predicate AboutToCountWait(pc: ProducerPc) { pc.CountWait? }

  // lock_element's collision flag says so.
  lemma {:induction false} CollisionIsBlocked(c: Config, actions: seq<Action>, states: seq<State>, n: nat, p: nat)
    requires IsRun(c, actions, states) && n <= |actions| && p < |states[n].producers|
    ensures states[n].producers[p].Spin? ==>
              (states[n].producers[p].collision <==> Blocked(actions, states, n, p))
    decreases n
  {
    hide Inv, Shape, Next;
    if n == 0 {
      FreshPcs(c);
    } else {
      RunInv(c, actions, states, n - 1);
      StepCollision(c, states[n - 1], actions[n - 1], p);
      CollisionIsBlocked(c, actions, states, n - 1, p);
    }
  }

  lemma FreshPcs(c: Config)
    ensures Init(c).consumer.Ready? && forall pc <- Init(c).producers :: pc.Idle?
    ensures Tally(Init(c).producers, AboutToCountWait) == 0
  {
    TallyNone(Init(c).producers, AboutToCountWait);
  }

  lemma StepCollision(c: Config, s: State, a: Action, p: nat)
    requires Shape(c, s) && Next(c, s, a).Some?
    ensures var s' := Next(c, s, a).value;
            && |s'.producers| == |s.producers|
            && (p < |s.producers| && a != Produce(p) && s'.producers[p].Spin? ==> s'.producers[p] == s.producers[p])
            && (p < |s.producers| && a == Produce(p) && s'.producers[p].Spin? ==>
                  s'.producers[p].collision == FindsBusy(s, p))
  {
  }

  lemma {:induction false} PopCollisionIsBlocked(c: Config, actions: seq<Action>, states: seq<State>, n: nat)
    requires IsRun(c, actions, states) && n <= |actions|
    ensures states[n].consumer.PopSpin? ==> (states[n].consumer.collision <==> PopBlocked(actions, states, n))
    decreases n
  {
    hide Inv, Shape, Next;
    if n == 0 {
      FreshPcs(c);
    } else {
      RunInv(c, actions, states, n - 1);
      StepPopCollision(c, states[n - 1], actions[n - 1]);
      PopCollisionIsBlocked(c, actions, states, n - 1);
    }
  }

  lemma StepPopCollision(c: Config, s: State, a: Action)
    requires Shape(c, s) && Next(c, s, a).Some?
    ensures var s' := Next(c, s, a).value;
            s'.consumer.PopSpin? ==>
              if a == StartPop then !s'.consumer.collision
              else if a == Consume then s'.consumer.collision == PopFindsBusy(s)
              else s'.consumer == s.consumer
  {
  }

  // What one step does to the producers' counter.
  lemma StepWaits(c: Config, s: State, a: Action)
    requires Shape(c, s) && Next(c, s, a).Some?
    ensures var s' := Next(c, s, a).value;
            var late := a.Produce? && a.p < |s.producers| && s.producers[a.p].Spin? && !FindsBusy(s, a.p)
                        && s.producers[a.p].collision;
            && Tally(s'.producers, AboutToCountWait) + (if s'.producerWaits != s.producerWaits then 1 else 0)
               == Tally(s.producers, AboutToCountWait) + (if late then 1 else 0)
            && (s'.producerWaits == s.producerWaits || s'.producerWaits == Bump(s.producerWaits))
  {
    match a {
      case Produce(p) => TallyUpdate(s.producers, p, Next(c, s, a).value.producers[p], AboutToCountWait);
      case Commit(p) => TallyUpdate(s.producers, p, Idle, AboutToCountWait);
      case _ =>
    }
  }

  lemma StepPopWaits(c: Config, s: State, a: Action)
    requires Shape(c, s) && Next(c, s, a).Some?
    ensures var s' := Next(c, s, a).value;
            var late := a == Consume && s.consumer.PopSpin? && !PopFindsBusy(s) && s.consumer.collision;
            && (if s'.consumer.PopCountWait? then 1 else 0) + (if s'.consumerWaits != s.consumerWaits then 1 else 0)
               == (if s.consumer.PopCountWait? then 1 else 0) + (if late then 1 else 0)
            && (s'.consumerWaits == s.consumerWaits || s'.consumerWaits == Bump(s.consumerWaits))
  {
  }

  // A counter that wraps, what is about to be counted, and the true number.
  lemma CountsOn(counter: nat, about: nat, counter': nat, about': nat, number: nat, number': nat)
    requires (counter + about) % COUNTER_MODULUS == number % COUNTER_MODULUS
    requires counter' == counter || counter' == Bump(counter)
    requires about' + (if counter' != counter then 1 else 0) + number == about + number'
    requires number' == number || number' == number + 1
    ensures (counter' + about') % COUNTER_MODULUS == number' % COUNTER_MODULUS
  {
    if number' == number + 1 {
      ModSucc(counter + about, number, COUNTER_MODULUS);
    }
    if counter' != counter {
      BumpedBy(counter, about');
    }
  }

  lemma BumpedBy(counter: nat, about: nat)
    ensures (Bump(counter) + about) % COUNTER_MODULUS == (counter + 1 + about) % COUNTER_MODULUS
  {
    var q := (counter + 1) / COUNTER_MODULUS;
    var r := (Bump(counter) + about) % COUNTER_MODULUS;
    ModOf(counter + 1 + about, COUNTER_MODULUS, q + (Bump(counter) + about) / COUNTER_MODULUS, r);
  }

  // At every point of every run: the producers' counter, with those that have the lock and
  // are about to count, is the number of locks that were got after waiting.
  lemma {:induction false} ProducerWaitsCount(c: Config, actions: seq<Action>, states: seq<State>, n: nat)
    requires IsRun(c, actions, states) && n <= |actions|
    ensures (states[n].producerWaits + Tally(states[n].producers, AboutToCountWait)) % COUNTER_MODULUS
         == LateLocks(actions, states, n) % COUNTER_MODULUS
    decreases n
  {
    hide Inv, Shape, Next, FindsBusy, Blocked;
    if n == 0 {
      FreshPcs(c);
    } else {
      var s, a := states[n - 1], actions[n - 1];
      RunInv(c, actions, states, n - 1);
      ProducerWaitsCount(c, actions, states, n - 1);
      StepWaits(c, s, a);
      if a.Produce? && a.p < |s.producers| { CollisionIsBlocked(c, actions, states, n - 1, a.p); }
      CountsOn(s.producerWaits, Tally(s.producers, AboutToCountWait), states[n].producerWaits,
               Tally(states[n].producers, AboutToCountWait), LateLocks(actions, states, n - 1),
               LateLocks(actions, states, n));
    }
  }

  // And the consumer's likewise.
  lemma {:induction false} ConsumerWaitsCount(c: Config, actions: seq<Action>, states: seq<State>, n: nat)
    requires IsRun(c, actions, states) && n <= |actions|
    ensures (states[n].consumerWaits + (if states[n].consumer.PopCountWait? then 1 else 0)) % COUNTER_MODULUS
         == LatePops(actions, states, n) % COUNTER_MODULUS
    decreases n
  {
    hide Inv, Shape, Next, PopFindsBusy, PopBlocked;
    if n == 0 {
      FreshPcs(c);
    } else {
      RunInv(c, actions, states, n - 1);
      ConsumerWaitsCount(c, actions, states, n - 1);
      StepPopWaits(c, states[n - 1], actions[n - 1]);
      PopCollisionIsBlocked(c, actions, states, n - 1);
      CountsOn(states[n - 1].consumerWaits, if states[n - 1].consumer.PopCountWait? then 1 else 0,
               states[n].consumerWaits, if states[n].consumer.PopCountWait? then 1 else 0,
               LatePops(actions, states, n - 1), LatePops(actions, states, n));
    }
  }
}
