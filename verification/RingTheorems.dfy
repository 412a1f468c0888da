// Safety of the ring buffer over all runs: every interleaving of any number of
// producers with the one consumer.
module RingTheorems {
  import opened Basics
  import opened Sums
  import opened RingProtocol
  import opened RingInvariant
  import opened RingSteps

  // A run: its actions, and the states before, between and after them.
  ghost predicate IsRun(c: Config, actions: seq<Action>, states: seq<State>) {
    && c.Valid() && |states| == |actions| + 1 && states[0] == Init(c)
    && forall i {:trigger actions[i]} | 0 <= i < |actions| :: Leads(c, states[i], actions[i], states[i + 1])
  }

  // (Shape adds nothing: every run keeps it.)
  ghost predicate Leads(c: Config, s: State, a: Action, s': State) {
    Shape(c, s) && Next(c, s, a) == Some(s')
  }

  lemma {:induction false} RunInv(c: Config, actions: seq<Action>, states: seq<State>, n: nat)
    requires IsRun(c, actions, states) && n <= |actions|
    ensures Inv(c, states[n])
    ensures n < |actions| ==> Leads(c, states[n], actions[n], states[n + 1])
  {
    hide Inv, Next, Shape;
    if n == 0 {
      InitInv(c);
    } else {
      RunInv(c, actions, states, n - 1);
      assert Leads(c, states[n - 1], actions[n - 1], states[n]);
      StepKept(c, states[n - 1], actions[n - 1]);
    }
    if n < |actions| {
      assert actions[n] == actions[n];
    }
  }

  // The states a run can pass through.
  ghost predicate Reachable(c: Config, s: State) {
    c.Valid() && Shape(c, s) &&
    exists actions, states {:trigger IsRun(c, actions, states)} :: IsRun(c, actions, states) && states[|actions|] == s
  }

  lemma ReachableInv(c: Config, s: State)
    requires Reachable(c, s)
    ensures Inv(c, s)
  {
    hide Inv, Next, Shape;
    var actions, states :| IsRun(c, actions, states) && states[|actions|] == s;
    RunInv(c, actions, states, |actions|);
  }

  lemma InitReachable(c: Config)
    requires c.Valid()
    ensures Reachable(c, Init(c))
  {
    InitInv(c);
    assert IsRun(c, [], [Init(c)]);
  }

  lemma ReachableNext(c: Config, s: State, a: Action)
    requires Reachable(c, s) && Next(c, s, a).Some?
    ensures Reachable(c, Next(c, s, a).value)
  {
    hide Next, Shape, Inv;
    ReachableInv(c, s);
    StepKept(c, s, a);
    InvShape(c, s);
    var s' := Next(c, s, a).value;
    InvShape(c, s');
    var actions, states :| IsRun(c, actions, states) && states[|actions|] == s;
    var actions', states' := actions + [a], states + [s'];
    forall i | 0 <= i < |actions'| ensures Leads(c, states'[i], actions'[i], states'[i + 1]) {
      if i < |actions| { assert Leads(c, states[i], actions[i], states[i + 1]); }
    }
    assert IsRun(c, actions', states') && states'[|actions'|] == s';
  }

  lemma InvShape(c: Config, s: State)
    requires Inv(c, s)
    ensures c.Valid() && Shape(c, s)
  {
  }

  // The state a given sequence of actions leads to from s, or None when some action is
  // not open to its thread when its turn comes.
  ghost function Follow(c: Config, s: State, actions: seq<Action>): (r: Option<State>)
    ensures r.Some? ==> Shape(c, r.value)
    decreases |actions|
  {
    if actions == [] then Checked(c, Some(s))
    else
      var before := Follow(c, s, actions[..|actions| - 1]);
      if before.None? then None else Checked(c, Next(c, before.value, actions[|actions| - 1]))
  }

  ghost function Checked(c: Config, r: Option<State>): Option<State> {
    if r.Some? && Shape(c, r.value) then r else None
  }

  // Following actions from a reachable state is running on.
  lemma {:induction false} FollowReachable(c: Config, s: State, actions: seq<Action>)
    requires Reachable(c, s) && Follow(c, s, actions).Some?
    ensures Reachable(c, Follow(c, s, actions).value)
    decreases |actions|
  {
    hide Reachable, Next, Shape;
    if actions != [] {
      var init := actions[..|actions| - 1];
      FollowReachable(c, s, init);
      ReachableNext(c, Follow(c, s, init).value, actions[|actions| - 1]);
    }
  }

  lemma FollowThen(c: Config, s: State, actions: seq<Action>, a: Action)
    requires Reachable(c, s) && Follow(c, s, actions).Some? && Next(c, Follow(c, s, actions).value, a).Some?
    ensures Follow(c, s, actions + [a]) == Next(c, Follow(c, s, actions).value, a)
  {
    hide Next, Shape, IsRun;
    FollowReachable(c, s, actions);
    ReachableNext(c, Follow(c, s, actions).value, a);
    assert (actions + [a])[..|actions|] == actions;
  }

  lemma {:induction false} FollowAppend(c: Config, s: State, first: seq<Action>, second: seq<Action>)
    requires Reachable(c, s) && Follow(c, s, first).Some?
    ensures Follow(c, s, first + second) == Follow(c, Follow(c, s, first).value, second)
    decreases |second|
  {
    hide Next, Shape, Reachable, Inv;
    if second == [] {
      assert first + second == first;
    } else {
      var init := second[..|second| - 1];
      FollowAppend(c, s, first, init);
      assert (first + second)[..|first + second| - 1] == first + init;
    }
  }

  datatype Thread = Producer(p: nat) | Consumer

  predicate Holds(s: State, t: Thread, i: nat) {
    match t
    case Producer(p) => p < |s.producers| && s.producers[p].Holding() && s.producers[p].slot == i
    case Consumer => s.consumer.Holding() && s.consumer.slot == i
  }

  // Inside lock_element's loop.
  predicate Waits(s: State, t: Thread, i: nat) {
    match t
    case Producer(p) => p < |s.producers| && s.producers[p].Spin? && s.producers[p].slot == i
    case Consumer => s.consumer.PopSpin? && s.consumer.slot == i
  }

  function Actor(a: Action): Thread {
    match a
    case Produce(p) => Producer(p)
    case Fill(p, _) => Producer(p)
    case Commit(p) => Producer(p)
    case _ => Consumer
  }

  // What a thread that holds a lock does next; an owner that has nothing more to write
  // commits.
  function ForwardAction(s: State, t: Thread): Action {
    match t
    case Producer(p) => if p < |s.producers| && s.producers[p].Filling? then Commit(p) else Produce(p)
    case Consumer => Consume
  }

  // Own steps a holder still has to take before its lock is free.
  function StepsToRelease(s: State, t: Thread): nat {
    match t
    case Producer(p) =>
      if p >= |s.producers| then 0
      else (match s.producers[p]
            case CountWait(_, _) => 5
            case TestAndSet(_, _) => 4
            case IncOverflow(_, _) => 3
            case IncResettable(_, _) => 2
            case Filling(_, _) => 1
            case _ => 0)
    case Consumer =>
      match s.consumer
      case PopCountWait(_) => 6
      case Retest(_) => 5
      case Copy(_) => 4
      case Recycle(_) => 3
      case ClearData(_) => 2
      case Unlock(_) => 1
      case _ => 0
  }

  // A slot's busy flag is set exactly while one thread is between taking and releasing
  // the lock, and never by two.
  lemma MutualExclusion(c: Config, s: State, i: nat)
    requires Reachable(c, s) && i < c.Capacity()
    ensures s.busy[i] <==> exists t :: Holds(s, t, i)
    ensures forall t, u | Holds(s, t, i) && Holds(s, u, i) :: t == u
  {
    hide Tickets, Texts, Books, Overflows, Stints;
    ReachableInv(c, s);
    if s.busy[i] {
      match s.log.holder[i] {
        case ByProducer(p) => assert Holds(s, Producer(p), i);
        case ByConsumer => assert Holds(s, Consumer, i);
      }
    }
  }

  // A message changes only under the hand of the thread that holds its slot.
  lemma OnlyTheHolderWrites(c: Config, s: State, a: Action, i: nat)
    requires Reachable(c, s) && Next(c, s, a).Some? && i < c.Capacity()
    ensures i < |Next(c, s, a).value.elements|
    ensures Next(c, s, a).value.elements[i] != s.elements[i] ==> Holds(s, Actor(a), i)
  {
  }

  // Nobody waits on a waiting thread: whoever holds the slot can step at once, whatever
  // the others do, and each of its steps brings the release closer.
  lemma WaitersWaitOnWorkers(c: Config, s: State, t: Thread, i: nat)
    requires Reachable(c, s) && i < c.Capacity() && Waits(s, t, i) && s.busy[i]
    ensures exists u :: u != t && Holds(s, u, i) && CloserToRelease(c, s, u, i)
  {
    MutualExclusion(c, s, i);
    var u :| Holds(s, u, i);
    if u.Producer? {
      ProducerRelease(c, s, u.p);
    } else {
      if s.consumer.Retest? { PopPastFirstTestSucceeds(c, s); }
      ConsumerRelease(c, s);
    }
  }

  ghost predicate CloserToRelease(c: Config, s: State, t: Thread, i: nat)
    requires Shape(c, s)
  {
    var next := Next(c, s, ForwardAction(s, t));
    && (forall j :: !Waits(s, t, j))
    && next.Some?
    && StepsToRelease(next.value, t) < StepsToRelease(s, t)
    && (if StepsToRelease(next.value, t) == 0 then i < |next.value.busy| && !next.value.busy[i]
        else Holds(next.value, t, i))
  }

  lemma ProducerRelease(c: Config, s: State, p: nat)
    requires Shape(c, s) && p < |s.producers| && s.producers[p].Holding()
    ensures CloserToRelease(c, s, Producer(p), s.producers[p].slot)
  {
  }

  lemma ConsumerRelease(c: Config, s: State)
    requires Shape(c, s) && s.consumer.Holding() && (s.consumer.Retest? ==> s.hasData[s.consumer.slot])
    ensures CloserToRelease(c, s, Consumer, s.consumer.slot)
  {
  }

  // Reservations of a slot = pops + overruns + the message in it, one reservation
  // being possibly in flight between its lock and its test-and-set.
  lemma SlotBooks(c: Config, s: State, i: nat)
    requires Reachable(c, s) && i < c.Capacity()
    ensures s.log.acquired[i] == s.log.popped[i] + s.log.overrun[i] + (if s.hasData[i] then 1 else 0)
                                 + (if ArrivalInFlight(s, i) then 1 else 0)
  {
    hide Tickets, Texts, Overflows, Stints;
    ReachableInv(c, s);
    if s.log.holder[i].ByProducer? && s.producers[s.log.holder[i].p].Arriving() {
      assert Holds(s, Producer(s.log.holder[i].p), i);
    }
  }

  ghost predicate ArrivalInFlight(s: State, i: nat) {
    exists p :: 0 <= p < |s.producers| && Holds(s, Producer(p), i) && s.producers[p].Arriving()
  }

  // The second test of has_data never fails: once a pop has seen the flag, only that
  // pop can clear it, so a pop that starts to wait for a lock returns a message.
  lemma PopPastFirstTestSucceeds(c: Config, s: State)
    requires Reachable(c, s) && s.consumer.Retest?
    ensures s.consumer.slot == s.tail && s.hasData[s.tail]
    ensures Next(c, s, Consume).Some? && Next(c, s, Consume).value.consumer == Copy(s.tail)
  {
    hide Tickets, Texts, Overflows, Stints, Locks;
    ReachableInv(c, s);
  }

  // How far a pop has come that began with these deliveries.
  ghost predicate PopOnItsWay(s: State, before: seq<Delivery>) {
    match s.consumer
    case PopSpin(_, _) => s.log.deliveries == before
    case PopCountWait(_) => s.log.deliveries == before
    case Retest(_) => s.log.deliveries == before
    case Copy(_) => s.log.deliveries == before
    case Recycle(_) => OneMore(s, before)
    case ClearData(_) => OneMore(s, before)
    case Unlock(_) => OneMore(s, before)
    case _ => false
  }

  // One message more, and it is in the consumer's buffer.
  ghost predicate OneMore(s: State, before: seq<Delivery>) {
    var ds := s.log.deliveries;
    |ds| == |before| + 1 && before <= ds && s.buffer == ds[|before|].message
  }

  lemma PopGoesOn(c: Config, s: State, a: Action, before: seq<Delivery>)
    requires Inv(c, s) && Next(c, s, a).Some? && PopOnItsWay(s, before)
    requires s.consumer.Retest? ==> s.hasData[s.consumer.slot]
    ensures var s' := Next(c, s, a).value;
            if s'.consumer.Ready? then OneMore(s', before) else PopOnItsWay(s', before)
  {
    hide Locks, Tickets, Books, Overflows, Texts, Stints;
  }

  lemma RetestFindsData(c: Config, s: State)
    requires Inv(c, s) && s.consumer.Retest?
    ensures s.hasData[s.consumer.slot]
  {
    hide Tickets, Texts, Overflows, Stints, Locks;
  }

  // In every run: a pop that finds the flag clear changes nothing. One that finds it set is
  // under way from then on, however long it waits, and by the time the consumer is ready
  // again it has taken exactly one message, and that is what is in the consumer's buffer.
  lemma {:induction false} PopReturnsMessage(c: Config, actions: seq<Action>, states: seq<State>, i: nat, j: nat)
    requires IsRun(c, actions, states) && i < j <= |actions| && actions[i] == StartPop
    requires forall k | i < k < j :: !states[k].consumer.Ready?
    ensures var s, ds := states[i], states[i].log.deliveries;
            && s.tail < |s.hasData|
            && if !s.hasData[s.tail] then j == i + 1 && states[j] == s
               else if states[j].consumer.Ready? then j > i + 1 && OneMore(states[j], ds)
               else PopOnItsWay(states[j], ds)
    decreases j
  {
    hide Inv, Shape, Next, StepProducer, Append, Release;
    RunInv(c, actions, states, i);
    PopBegins(c, states[i]);
    if j > i + 1 {
      PopReturnsMessage(c, actions, states, i, j - 1);
      RunInv(c, actions, states, j - 1);
      if states[j - 1].consumer.Retest? { RetestFindsData(c, states[j - 1]); }
      PopGoesOn(c, states[j - 1], actions[j - 1], states[i].log.deliveries);
    }
  }

  lemma PopBegins(c: Config, s: State)
    requires Shape(c, s) && Next(c, s, StartPop).Some?
    ensures var s' := Next(c, s, StartPop).value;
            && s.tail < |s.hasData| && s.consumer.Ready?
            && if s.hasData[s.tail] then PopOnItsWay(s', s.log.deliveries) else s' == s
  {
  }

  // However often head is masked, retried or wraps around its word, it counts tickets
  // modulo the capacity; it stays within the number of pending masks of the capacity;
  // the k-th ticket is served by slot k modulo the capacity, and nobody shares a ticket.
  lemma HeadCountsTickets(c: Config, s: State)
    requires Reachable(c, s)
    ensures s.head % c.Capacity() == |s.log.owner| % c.Capacity()
    ensures s.head <= c.Capacity() + Tally(s.producers, Masking)
    ensures forall p | 0 <= p < |s.producers| && (s.producers[p].Spin? || s.producers[p].Holding()) ::
              s.producers[p].slot == s.producers[p].ticket % c.Capacity()
    ensures forall p, q | 0 <= p < q < |s.producers| && !s.producers[p].Idle? && !s.producers[q].Idle? ::
              s.producers[p].ticket != s.producers[q].ticket
  {
    hide Locks, Texts, Books, Overflows, Stints;
    ReachableInv(c, s);
  }

  // Every message the consumer gets is the concatenation, cut at the message capacity,
  // of all that was written to its slot since the previous pop of that slot.
  lemma DeliveriesAreWhole(c: Config, s: State, k: nat)
    requires Reachable(c, s) && k < |s.log.deliveries|
    ensures s.log.deliveries[k].message == UpToNul(Clip(Joined(s.log.deliveries[k].stints), c.messageCapacity))
  {
    ReachableInv(c, s);
  }

  // --- overflow accounting ---

  // Increments of the resettable counter that fall between the load and the store of
  // get_and_reset_overflow_counter, among the first n steps of a run.
  ghost function IncrementsDuringReset(actions: seq<Action>, states: seq<State>, n: nat): nat
    requires n <= |actions| < |states|
  {
    if n == 0 then 0
    else IncrementsDuringReset(actions, states, n - 1) + (if DuringReset(states[n - 1], actions[n - 1]) then 1 else 0)
  }

  predicate DuringReset(s: State, a: Action) {
    s.consumer.Resetting? && a.Produce? && a.p < |s.producers| && s.producers[a.p].IncResettable?
  }

  lemma OverrunsGrow(c: Config, s: State, a: Action)
    requires Inv(c, s) && Next(c, s, a).Some?
    ensures Total(s.log.overrun) <= Total(Next(c, s, a).value.log.overrun)
  {
    hide Locks, Texts, Books, Overflows, Stints, Tickets;
    if a.Produce? && s.producers[a.p].TestAndSet? {
      var i := s.producers[a.p].slot;
      TotalUpdate(s.log.overrun, i, s.log.overrun[i] + 1);
    }
  }

  lemma {:induction false} LostIsCounted(c: Config, actions: seq<Action>, states: seq<State>, n: nat)
    requires IsRun(c, actions, states) && n <= |actions| && Total(states[n].log.overrun) < COUNTER_MODULUS
    ensures IncrementsDuringReset(actions, states, n) == Wiped(states[n])
    decreases n
  {
    hide Inv, Next, Shape, Wiped, DuringReset;
    if n == 0 {
      NothingWiped(c);
    } else {
      RunInv(c, actions, states, n - 1);
      OverrunsGrow(c, states[n - 1], actions[n - 1]);
      LostIsCounted(c, actions, states, n - 1);
      LostByStep(c, states[n - 1], actions[n - 1]);
    }
  }

  lemma NothingWiped(c: Config)
    ensures Wiped(Init(c)) == 0
  {
  }

  ghost function Wiped(s: State): int {
    s.log.lost + (if s.consumer.Resetting? then s.resettable - s.consumer.loaded else 0)
  }

  lemma ProducerLeavesReset(c: Config, s: State, p: nat)
    requires Shape(c, s) && p < |s.producers| && StepProducer(c, s, p).Some? && !s.producers[p].IncResettable?
    ensures Wiped(StepProducer(c, s, p).value) == Wiped(s)
  {
  }

  lemma CountIsWiped(c: Config, s: State, p: nat)
    requires Inv(c, s) && p < |s.producers| && s.producers[p].IncResettable?
    requires Total(s.log.overrun) < COUNTER_MODULUS
    ensures Wiped(CountResettable(s, p)) == Wiped(s) + (if s.consumer.Resetting? then 1 else 0)
  {
    hide Locks, Texts, Books, Stints, Tickets;
    TallyPositive(s.producers, p);
  }

  lemma ResetWipes(c: Config, s: State)
    requires Inv(c, s) && StepConsumer(c, s).Some? && Total(s.log.overrun) < COUNTER_MODULUS
    ensures Wiped(StepConsumer(c, s).value) == Wiped(s)
  {
    hide Locks, Texts, Books, Stints, Tickets;
  }

  lemma LostByStep(c: Config, s: State, a: Action)
    requires Inv(c, s) && Next(c, s, a).Some?
    requires Total(s.log.overrun) < COUNTER_MODULUS
    ensures Wiped(Next(c, s, a).value)
         == Wiped(s) + (if DuringReset(s, a) then 1 else 0)
  {
    hide Locks, Texts, Books, Stints, Tickets, Overflows, CountResettable, StepConsumer;
    match a {
      case Produce(p) =>
        if s.producers[p].IncResettable? {
          CountIsWiped(c, s, p);
        } else {
          ProducerLeavesReset(c, s, p);
        }
      case Consume => ResetWipes(c, s);
      case _ =>
    }
  }

  lemma TallyPositive(producers: seq<ProducerPc>, p: nat)
    requires p < |producers| && producers[p].IncResettable?
    ensures Tally(producers, BetweenCounts) > 0
  {
    TallyNone(producers, BetweenCounts);
    assert BetweenCounts(producers[p]);
  }

  // At every point of a run: what the consumer was told never exceeds the total; once no
  // update is in flight it is the whole total if and only if no increment fell between a
  // load and its store.
  lemma OverflowAccounting(c: Config, actions: seq<Action>, states: seq<State>, n: nat)
    requires IsRun(c, actions, states) && n <= |actions| && Total(states[n].log.overrun) < COUNTER_MODULUS
    ensures var s := states[n];
            && s.log.returned + s.resettable <= s.overflow <= Total(s.log.overrun)
            && ((forall p | 0 <= p < |s.producers| :: !s.producers[p].IncOverflow? && !s.producers[p].IncResettable?)
                && !s.consumer.Resetting? ==>
                  && s.overflow == Total(s.log.overrun)
                  && s.log.returned + s.resettable + IncrementsDuringReset(actions, states, n) == s.overflow
                  && (s.log.returned + s.resettable == s.overflow <==> IncrementsDuringReset(actions, states, n) == 0))
  {
    hide Locks, Texts, Books, Stints, Tickets, Next, Shape;
    var s := states[n];
    RunInv(c, actions, states, n);
    LostIsCounted(c, actions, states, n);
    TallyNone(s.producers, BeforeCount);
    TallyNone(s.producers, BetweenCounts);
  }
}
