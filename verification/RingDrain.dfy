// Draining once the producers have finished: one thread, so every pop runs to its end
// before the next begins. Pops and drains as functions of the buffer's value, tied to
// the step machine.
module RingDrain {
  import opened Basics
  import opened Words
  import opened Sums
  import opened RingProtocol
  import opened RingInvariant
  import opened RingSteps
  import opened RingTheorems
  import opened RingConservation
  import opened RingFifo
  import opened RingAccounts
  import opened RingQuiet

  // What is left of the buffer's state when nobody is inside.
  datatype Ring = Ring(logCapacity: nat, messageCapacity: nat, head: nat, tail: nat, hasData: seq<bool>,
                       elements: seq<string>, overflow: nat, resettable: nat)
  {
    ghost predicate Valid() {
      |hasData| == |elements| == Pow2(logCapacity) && tail < Pow2(logCapacity)
    }
  }

  function Capacity(r: Ring): nat { Pow2(r.logCapacity) }

  function View(c: Config, s: State): Ring {
    Ring(c.logCapacity, c.messageCapacity, s.head, s.tail, s.hasData, s.elements, s.overflow, s.resettable)
  }

  function AfterPop(r: Ring): Ring
    requires r.Valid()
  {
    if r.hasData[r.tail] then
      r.(tail := (r.tail + 1) % Pow2(r.logCapacity), hasData := r.hasData[r.tail := false],
         elements := r.elements[r.tail := ""])
    else r
  }

  // --- the step machine left to one thread ---

  // Into the critical section ...
  const POP_ENTER: seq<Action> := [StartPop, Consume, Consume]

  function Entered(s: State): State
    requires s.tail < |s.busy| && s.tail < |s.log.holder|
  {
    s.(busy := s.busy[s.tail := true], consumer := Copy(s.tail),
       log := s.log.(holder := s.log.holder[s.tail := ByConsumer]))
  }

  lemma SoloEnter(c: Config, s: State)
    requires Reachable(c, s) && s.consumer.Ready? && s.hasData[s.tail] && !s.busy[s.tail]
    ensures Follow(c, s, POP_ENTER) == Some(Entered(s))
  {
    assert Follow(c, s, []) == Some(s);
    hide Follow, Reachable;
    FollowThen(c, s, [], StartPop);
    FollowThen(c, s, [StartPop], Consume);
    FollowThen(c, s, [StartPop, Consume], Consume);
    assert [] + [StartPop] == [StartPop] && [StartPop] + [Consume] == [StartPop, Consume];
    assert POP_ENTER == [StartPop, Consume] + [Consume];
  }

  // ... where the message is taken and its slot recycled ...
  const POP_TAKE: seq<Action> := [Consume, Consume]

  function Emptied(c: Config, s: State): State
    requires Shape(c, s) && s.consumer.Copy?
  {
    var i := s.consumer.slot;
    s.(tail := And(s.tail + 1, c.Capacity() - 1), elements := s.elements[i := ""], buffer := UpToNul(s.elements[i]),
       consumer := ClearData(i),
       log := s.log.(since := s.log.since[i := []],
                     deliveries := s.log.deliveries + [Delivery(UpToNul(s.elements[i]), s.log.since[i])]))
  }

  lemma SoloTake(c: Config, s: State)
    requires Reachable(c, s) && s.consumer.Copy?
    ensures Follow(c, s, POP_TAKE) == Some(Emptied(c, s))
  {
    assert Follow(c, s, []) == Some(s);
    hide Follow, Reachable;
    FollowThen(c, s, [], Consume);
    FollowThen(c, s, [Consume], Consume);
    assert [] + [Consume] == [Consume] && POP_TAKE == [Consume] + [Consume];
  }

  // ... and out of it.
  const POP_LEAVE: seq<Action> := [Consume, Consume]

  function Left(c: Config, s: State): State
    requires Shape(c, s) && s.consumer.ClearData?
  {
    var i := s.consumer.slot;
    s.(busy := s.busy[i := false], hasData := s.hasData[i := false], consumer := Ready,
       log := s.log.(holder := s.log.holder[i := Free], popped := s.log.popped[i := s.log.popped[i] + 1]))
  }

  lemma SoloLeave(c: Config, s: State)
    requires Reachable(c, s) && s.consumer.ClearData?
    ensures Follow(c, s, POP_LEAVE) == Some(Left(c, s))
  {
    assert Follow(c, s, []) == Some(s);
    hide Follow, Reachable;
    FollowThen(c, s, [], Consume);
    FollowThen(c, s, [Consume], Consume);
    assert [] + [Consume] == [Consume] && POP_LEAVE == [Consume] + [Consume];
  }

  const POP_SCRIPT: seq<Action> := (POP_ENTER + POP_TAKE) + POP_LEAVE

  // A pop that nobody disturbs does to the buffer what AfterPop says and hands the
  // consumer the tail's message.
  lemma SoloPop(c: Config, s: State)
    requires Reachable(c, s) && Quiet(s) && s.hasData[s.tail]
    ensures Follow(c, s, POP_SCRIPT).Some? && View(c, s).Valid()
    ensures Reachable(c, Follow(c, s, POP_SCRIPT).value) && PoppedFrom(c, s, Follow(c, s, POP_SCRIPT).value)
  {
    hide Follow, Inv, IsRun, Next, Left, Emptied, Entered, PoppedFrom;
    ReachableInv(c, s);
    QuietIsFree(c, s);
    SoloState(c, s);
    SoloEnter(c, s);
    FollowReachable(c, s, POP_ENTER);
    SoloTake(c, Entered(s));
    FollowAppend(c, s, POP_ENTER, POP_TAKE);
    FollowReachable(c, s, POP_ENTER + POP_TAKE);
    SoloLeave(c, Emptied(c, Entered(s)));
    FollowAppend(c, s, POP_ENTER + POP_TAKE, POP_LEAVE);
    FollowReachable(c, s, POP_SCRIPT);
  }

  ghost predicate PoppedFrom(c: Config, s: State, s': State)
    requires Shape(c, s) && View(c, s).Valid()
  {
    && View(c, s') == AfterPop(View(c, s)) && Quiet(s')
    && s'.buffer == UpToNul(s.elements[s.tail]) && s'.log.owner == s.log.owner
    && s'.log.deliveries == s.log.deliveries + [Delivery(UpToNul(s.elements[s.tail]), s.log.since[s.tail])]
  }

  lemma SoloState(c: Config, s: State)
    requires c.Valid() && Shape(c, s) && Quiet(s) && s.hasData[s.tail] && !s.busy[s.tail]
    ensures s.tail < |s.busy| && s.tail < |s.log.holder|
    ensures Shape(c, Entered(s)) && Entered(s).consumer == Copy(s.tail)
    ensures Shape(c, Emptied(c, Entered(s))) && Emptied(c, Entered(s)).consumer == ClearData(s.tail)
    ensures View(c, s).Valid() && PoppedFrom(c, s, Left(c, Emptied(c, Entered(s))))
  {
    AndMask(s.tail + 1, c.logCapacity);
  }

  lemma QuietIsFree(c: Config, s: State)
    requires Inv(c, s) && Quiet(s)
    ensures forall i | 0 <= i < c.Capacity() :: !s.busy[i]
    ensures View(c, s).Valid()
  {
    hide Tickets, Texts, Books, Overflows, Stints;
  }

  // --- draining ---

  function Occupied(r: Ring): nat { Tally(r.hasData, Set) }

  lemma PopFreesOne(r: Ring)
    requires r.Valid() && r.hasData[r.tail]
    ensures AfterPop(r).Valid() && Occupied(AfterPop(r)) == Occupied(r) - 1
  {
    TallyUpdate(r.hasData, r.tail, false, Set);
  }

  // The messages popped until a pop finds nothing, and the buffer then.
  function Drain(r: Ring): (seq<string>, Ring)
    requires r.Valid()
    decreases Occupied(r)
  {
    if !r.hasData[r.tail] then ([], r)
    else
      PopFreesOne(r);
      var rest := Drain(AfterPop(r));
      ([UpToNul(r.elements[r.tail])] + rest.0, rest.1)
  }

  // The slot j places after the tail.
  function From(n: nat, tail: nat, j: nat): (i: nat)
    requires n > 0
    ensures i < n
  {
    (tail + j) % n
  }

  // How many places after the tail a slot is.
  function Offset(n: nat, tail: nat, i: nat): (j: nat)
    requires n > 0
    ensures j < n
  {
    (i - tail) % n
  }

  // The occupied slots are the m slots from the tail on, cyclically.
  ghost predicate Interval(r: Ring, m: nat)
    requires r.Valid()
  {
    var n := Pow2(r.logCapacity);
    m <= n && forall j | 0 <= j < n :: r.hasData[From(n, r.tail, j)] <==> j < m
  }

  lemma FromEnds(n: nat, tail: nat)
    requires n > 0 && tail < n
    ensures From(n, tail, 0) == tail && From(n, tail, n) == tail
  {
    ModOf(tail, n, 0, tail);
    ModOf(tail + n, n, 1, tail);
  }

  lemma FromInjective(n: nat, tail: nat, j: nat, k: nat)
    requires n > 0 && j < n && k < n && From(n, tail, j) == From(n, tail, k)
    ensures j == k
  {
    ModUnique(tail + j, tail + k, n);
  }

  lemma ShiftTail(n: nat, tail: nat, j: nat)
    requires n > 0
    ensures From(n, (tail + 1) % n, j) == From(n, tail, j + 1)
    decreases j
  {
    ModOf((tail + 1) % n, n, 0, (tail + 1) % n);
    if j > 0 {
      ShiftTail(n, tail, j - 1);
      ModSucc((tail + 1) % n + (j - 1), tail + j, n);
    }
  }

  lemma OffsetReaches(n: nat, tail: nat, i: nat)
    requires tail < n && i < n
    ensures From(n, tail, Offset(n, tail, i)) == i
  {
    if i >= tail {
      ModOf(i - tail, n, 0, i - tail);
      ModOf(i, n, 0, i);
    } else {
      ModOf(i - tail, n, -1, i - tail + n);
      ModOf(i + n, n, 1, i);
    }
  }

  lemma IntervalAfterPop(r: Ring, m: nat)
    requires r.Valid() && Interval(r, m) && m > 0
    ensures r.hasData[r.tail] && AfterPop(r).Valid() && Interval(AfterPop(r), m - 1)
    ensures forall j | 0 <= j < m - 1 ::
              AfterPop(r).elements[From(Pow2(r.logCapacity), AfterPop(r).tail, j)]
              == r.elements[From(Pow2(r.logCapacity), r.tail, j + 1)]
  {
    var n := Pow2(r.logCapacity);
    FromEnds(n, r.tail);
    hide From, Pow2;
    assert r.hasData[From(n, r.tail, 0)];
    var r' := AfterPop(r);
    forall j | 0 <= j < n
      ensures r'.hasData[From(n, r'.tail, j)] <==> j < m - 1
      ensures j < m - 1 ==> r'.elements[From(n, r'.tail, j)] == r.elements[From(n, r.tail, j + 1)]
    {
      ShiftTail(n, r.tail, j);
      if j + 1 < n && From(n, r.tail, j + 1) == From(n, r.tail, 0) {
        FromInjective(n, r.tail, j + 1, 0);
      }
    }
  }

  // The messages of the m slots from the tail on.
  function Upcoming(r: Ring, m: nat): (messages: seq<string>)
    requires r.Valid()
  {
    seq(m, j requires 0 <= j < m => UpToNul(r.elements[From(Pow2(r.logCapacity), r.tail, j)]))
  }

  // If the occupied slots are an interval from the tail, draining delivers every one of
  // them, oldest first, and leaves the buffer empty.
  lemma {:induction false} DrainDeliversAll(r: Ring, m: nat)
    requires r.Valid() && Interval(r, m)
    ensures Drain(r).0 == Upcoming(r, m)
    ensures forall i | 0 <= i < |Drain(r).1.hasData| :: !Drain(r).1.hasData[i]
    decreases m
  {
    var n := Pow2(r.logCapacity);
    FromEnds(n, r.tail);
    hide From, Offset, Pow2;
    if m == 0 {
      assert !r.hasData[From(n, r.tail, 0)];
      forall i | 0 <= i < n ensures !r.hasData[i] {
        OffsetReaches(n, r.tail, i);
      }
    } else {
      IntervalAfterPop(r, m);
      DrainDeliversAll(AfterPop(r), m - 1);
      assert Upcoming(r, m) == [UpToNul(r.elements[r.tail])] + Upcoming(AfterPop(r), m - 1);
    }
  }

  function Messages(ds: seq<Delivery>): seq<string> {
    seq(|ds|, k requires 0 <= k < |ds| => ds[k].message)
  }

  // Draining is what the step machine does when only the consumer is left to run: some
  // continuation of the run pops exactly the drained messages and ends with nobody
  // inside and the buffer as Drain says.
  lemma {:induction false} DrainIsARun(c: Config, s: State) returns (script: seq<Action>)
    requires Reachable(c, s) && Quiet(s)
    ensures View(c, s).Valid() && Follow(c, s, script).Some?
    ensures var s', d := Follow(c, s, script).value, Drain(View(c, s));
            && Reachable(c, s') && Quiet(s') && View(c, s') == d.1
            && Messages(s'.log.deliveries) == Messages(s.log.deliveries) + d.0
    decreases Occupied(View(c, s))
  {
    hide Inv, Quiet, Next, IsRun;
    ReachableInv(c, s);
    QuietIsFree(c, s);
    script := [];
    if s.hasData[s.tail] {
      SoloPop(c, s);
      var next := Follow(c, s, POP_SCRIPT).value;
      PopFreesOne(View(c, s));
      var rest := DrainIsARun(c, next);
      script := POP_SCRIPT + rest;
      FollowAppend(c, s, POP_SCRIPT, rest);
      PoppedMessage(c, s, next);
    }
  }

  // The copied message is the head of what Drain yields.
  lemma PoppedMessage(c: Config, s: State, next: State)
    requires Shape(c, s) && View(c, s).Valid() && s.hasData[s.tail] && PoppedFrom(c, s, next)
    ensures Messages(next.log.deliveries) + Drain(View(c, next)).0
            == Messages(s.log.deliveries) + Drain(View(c, s)).0
    ensures Drain(View(c, next)).1 == Drain(View(c, s)).1
  {
    hide Shape, Quiet;
    PopFreesOne(View(c, s));
  }

  // After any run without overruns the drain delivers every occupied slot, each holding
  // the text of one reservation, from the tail on, and the buffer ends empty.
  lemma NoOverrunDrain(c: Config, s: State)
    requires Reachable(c, s) && Quiet(s) && Total(s.log.overrun) == 0
    ensures View(c, s).Valid() && Window(c, s)
    ensures var m := |s.log.owner| - |s.log.deliveries|;
            && Interval(View(c, s), m) && Occupied(View(c, s)) == m
            && Drain(View(c, s)).0 == Upcoming(View(c, s), m)
            && forall j | 0 <= j < m ::
                 var i := From(c.Capacity(), s.tail, j);
                 i < |s.log.since| && |s.log.since[i]| == 1
                 && Upcoming(View(c, s), m)[j] == UpToNul(Clip(s.log.since[i][0].text, c.messageCapacity))
    ensures forall i | 0 <= i < |Drain(View(c, s)).1.hasData| :: !Drain(View(c, s)).1.hasData[i]
  {
    hide Inv, Shape, Next, Quiet, Drain, IsRun, From;
    var n, popped, m := c.Capacity(), |s.log.deliveries|, |s.log.owner| - |s.log.deliveries|;
    ReachableInv(c, s);
    QuietIsFree(c, s);
    OccupiedIsTailToHead(c, s);
    OverrunsAreTheGap(c, s);
    forall j | 0 <= j < n ensures s.hasData[From(n, s.tail, j)] <==> j < m {
      WindowSlot(c, s, j);
    }
    DrainDeliversAll(View(c, s), m);
    forall j | 0 <= j < m
      ensures var i := From(n, s.tail, j);
              i < |s.log.since| && |s.log.since[i]| == 1 && s.elements[i] == Clip(s.log.since[i][0].text, c.messageCapacity)
    {
      SingleSlot(c, s, From(n, s.tail, j));
    }
  }

  lemma WindowSlot(c: Config, s: State, j: nat)
    requires c.Valid() && Window(c, s) && j < c.Capacity() && s.tail == |s.log.deliveries| % c.Capacity()
    ensures Pending(c, s, From(c.Capacity(), s.tail, j)) <==> j < |s.log.owner| - |s.log.deliveries|
  {
    var n, popped, i := c.Capacity(), |s.log.deliveries|, From(c.Capacity(), s.tail, j);
    FromCount(n, popped, j);
    if j < |s.log.owner| - popped {
      assert SlotOf(popped + j, n) == i;
    } else if Pending(c, s, i) {
      var k :| popped <= k < |s.log.owner| && SlotOf(k, n) == i;
      ModUnique(k, popped + j, n);
    }
  }

  lemma SingleSlot(c: Config, s: State, i: nat)
    requires Reachable(c, s) && Quiet(s) && Total(s.log.overrun) == 0 && i < |s.hasData| == c.Capacity() && s.hasData[i]
    ensures |s.elements| == |s.log.since| == c.Capacity() && |s.log.since[i]| == 1
    ensures s.elements[i] == Clip(s.log.since[i][0].text, c.messageCapacity)
  {
    hide Locks, Tickets, Books, Overflows, Stints, IsRun, Next, Accounts;
    ReachableInv(c, s);
    OneReservationEach(c, s);
    var locked := AccountsOf(c, s);
    QuietSlot(c, s, locked, i);
    assert s.log.since[i] == [] + [s.log.since[i][0]];
    JoinedSnoc([], s.log.since[i][0]);
    assert "" + s.log.since[i][0].text == s.log.since[i][0].text;
  }

  // After a well-spaced run the drain delivers exactly what was written under the
  // tickets not yet popped, in ticket order, and the buffer ends empty.
  lemma SpacedDrain(c: Config, actions: seq<Action>, states: seq<State>, n: nat)
    requires IsRun(c, actions, states) && n <= |actions| && Spaced(c, actions, states, n) && Quiet(states[n])
    ensures var s := states[n];
            var popped, drawn := |s.log.deliveries|, |s.log.owner|;
            && View(c, s).Valid() && popped <= drawn == |Written(actions, states, n)|
            && Drain(View(c, s)).0 == seq(drawn - popped, j requires 0 <= j < drawn - popped =>
                                            UpToNul(Clip(Written(actions, states, n)[popped + j], c.messageCapacity)))
            && forall i | 0 <= i < |Drain(View(c, s)).1.hasData| :: !Drain(View(c, s)).1.hasData[i]
  {
    hide Inv, Shape, Next, Spaced, Quiet, Interval, Drain, Upcoming;
    var s := states[n];
    RunInv(c, actions, states, n);
    QuietIsFree(c, s);
    OwnersAndPops(c, actions, states, n);
    SpacedInterval(c, actions, states, n);
    DrainDeliversAll(View(c, s), |s.log.owner| - |s.log.deliveries|);
  }

  lemma SpacedInterval(c: Config, actions: seq<Action>, states: seq<State>, n: nat)
    requires IsRun(c, actions, states) && n <= |actions| && Spaced(c, actions, states, n) && Quiet(states[n])
    requires var s := states[n];
             && View(c, s).Valid() && |s.log.deliveries| <= |s.log.owner| <= |s.log.deliveries| + c.Capacity()
             && |Written(actions, states, n)| == |s.log.owner|
    ensures var s := states[n];
            var popped, m := |s.log.deliveries|, |s.log.owner| - |s.log.deliveries|;
            && Interval(View(c, s), m)
            && Upcoming(View(c, s), m) == seq(m, j requires 0 <= j < m =>
                                                UpToNul(Clip(Written(actions, states, n)[popped + j], c.messageCapacity)))
  {
    hide Inv, Shape, Next, Spaced, Quiet, From, Clip, Written;
    var s := states[n];
    var r, cap, t := View(c, s), c.Capacity(), |s.log.deliveries|;
    forall j | 0 <= j < cap
      ensures r.hasData[From(cap, r.tail, j)] <==> t + j < |s.log.owner|
      ensures t + j < |s.log.owner| ==>
                r.elements[From(cap, r.tail, j)] == Clip(Written(actions, states, n)[t + j], c.messageCapacity)
    {
      SpacedSlot(c, actions, states, n, j);
    }
  }

  lemma OwnersAndPops(c: Config, actions: seq<Action>, states: seq<State>, n: nat)
    requires IsRun(c, actions, states) && n <= |actions| && Spaced(c, actions, states, n)
    ensures var s := states[n];
            && |s.log.deliveries| <= |s.log.owner| <= |s.log.deliveries| + c.Capacity()
            && s.tail == |s.log.deliveries| % c.Capacity()
            && |Written(actions, states, n)| == |s.log.owner|
  {
    hide Next, Shape, Spaced;
    SpacedFifo(c, actions, states, n);
    OriginsRun(c, actions, states, n);
  }

  // The j-th slot after the tail holds the j-th ticket still to be popped, if any.
  lemma SpacedSlot(c: Config, actions: seq<Action>, states: seq<State>, n: nat, j: nat)
    requires IsRun(c, actions, states) && n <= |actions| && Spaced(c, actions, states, n) && Quiet(states[n])
    requires j < c.Capacity() == |states[n].hasData| == |states[n].elements|
    requires |states[n].log.deliveries| <= |states[n].log.owner|
    ensures var s := states[n];
            var k, i := |s.log.deliveries| + j, From(c.Capacity(), s.tail, j);
            && (s.hasData[i] <==> k < |s.log.owner|)
            && (k < |s.log.owner| ==> k < |Written(actions, states, n)| &&
                                      s.elements[i] == Clip(Written(actions, states, n)[k], c.messageCapacity))
  {
    hide Tickets, Locks, Books, Overflows, Stints, Spaced, Written, Next;
    var s := states[n];
    var cap, t, i := c.Capacity(), |s.log.deliveries|, From(c.Capacity(), s.tail, j);
    RunInv(c, actions, states, n);
    OwnersAndPops(c, actions, states, n);
    SpacedFifo(c, actions, states, n);
    ModMod(t + j, cap, 1);
    FromCount(cap, t, j);
    assert SlotOk(cap, t, i, s.hasData[i], s.log.since[i], |s.log.owner|, s.consumer);
    if s.hasData[i] {
      SameSlotSameTicket(cap, t, s.log.since[i][0].ticket, t + j);
    }
    if t + j < |s.log.owner| {
      assert TicketOk(cap, t + j, s.log.owner[t + j], s.hasData, s.log.since, s.producers);
      OriginsRun(c, actions, states, n);
      assert StintOk(cap, i, s.log.since[i][0], Written(actions, states, n), s.consumer, s.log.deliveries);
      assert s.log.since[i] == [] + [s.log.since[i][0]];
      JoinedSnoc([], s.log.since[i][0]);
      assert "" + s.log.since[i][0].text == s.log.since[i][0].text;
    }
  }

  lemma FromCount(n: nat, t: nat, j: nat)
    requires n > 0
    ensures From(n, t % n, j) == (t + j) % n
    decreases j
  {
    if j == 0 {
      ModOf(t % n, n, 0, t % n);
    } else {
      FromCount(n, t, j - 1);
      ModSucc(t % n + (j - 1), t + (j - 1), n);
    }
  }
}
