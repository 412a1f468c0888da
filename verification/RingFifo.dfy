// First in, first out: what holds of every interleaving in which no ticket is drawn
// while a whole buffer of earlier tickets is still to be popped.
module RingFifo {
  import opened Basics
  import opened Words
  import opened Sums
  import opened RingProtocol
  import opened RingInvariant
  import opened RingSteps
  import opened RingTheorems
  import opened RingConservation

  // The invariant of well-spaced runs. With t pops so far, the tickets t, t+1, ... that
  // have been drawn each have a slot to themselves.
  ghost predicate Fifo(n: nat, tail: nat, hasData: seq<bool>, since: seq<seq<Stint>>, overrun: seq<nat>,
                       owner: seq<nat>, producers: seq<ProducerPc>, consumer: ConsumerPc, deliveries: seq<Delivery>)
  {
    var t := |deliveries|;
    && n > 0 && |hasData| == |since| == |overrun| == n
    && tail == t % n && t <= |owner| <= t + n
    && (forall i | 0 <= i < n :: overrun[i] == 0)
    && (forall i | 0 <= i < n :: SlotOk(n, t, i, hasData[i], since[i], |owner|, consumer))
    && (forall p | 0 <= p < |producers| :: ProducerOk(n, t, producers[p], hasData, since))
    && (forall k | t <= k < |owner| :: TicketOk(n, k, owner[k], hasData, since, producers))
    && (forall k | 0 <= k < t :: DeliveredBy(deliveries[k], k))
  }

  // A delivery made of exactly one reservation, the one with the given ticket.
  ghost predicate DeliveredBy(d: Delivery, ticket: nat) {
    |d.stints| == 1 && d.stints[0].ticket == ticket
  }

  ghost predicate SlotOk(n: nat, t: nat, i: nat, hasData: bool, stints: seq<Stint>, issued: nat, consumer: ConsumerPc)
    requires n > 0
  {
    && |stints| <= 1
    && (stints != [] ==>
          var k := stints[0].ticket;
          k % n == i && k < issued && (k >= t || (consumer == Recycle(i) && k == t - 1)))
    && (hasData && consumer != ClearData(i) ==> stints != [])
    && (consumer == ClearData(i) ==> stints == [])
    && (consumer == Recycle(i) ==> stints != [] && stints[0].ticket == t - 1)
  }

  ghost predicate ProducerOk(n: nat, t: nat, pc: ProducerPc, hasData: seq<bool>, since: seq<seq<Stint>>)
    requires n > 0 && |hasData| == |since| == n
  {
    && (!pc.Idle? ==> pc.ticket >= t)
    && (pc.Masking() || pc.Spin? ==> forall st <- since[pc.ticket % n] :: st.ticket != pc.ticket)
    && (pc.Arriving() && pc.slot < n ==> !hasData[pc.slot])
  }

  // A ticket not yet popped is in the hands of its producer, or in its slot.
  ghost predicate TicketOk(n: nat, k: nat, p: nat, hasData: seq<bool>, since: seq<seq<Stint>>, producers: seq<ProducerPc>)
    requires n > 0 && |since| == |hasData| == n
  {
    || (p < |producers| && !producers[p].Idle? && producers[p].ticket == k)
    || (hasData[k % n] && since[k % n] != [] && since[k % n][0].ticket == k)
  }

  // --- steps ---

  lemma FifoIssue(n: nat, tail: nat, hasData: seq<bool>, since: seq<seq<Stint>>, overrun: seq<nat>, owner: seq<nat>,
                  ps: seq<ProducerPc>, consumer: ConsumerPc, ds: seq<Delivery>, p: nat, pc: ProducerPc)
    requires Fifo(n, tail, hasData, since, overrun, owner, ps, consumer, ds) && p < |ps| && ps[p].Idle?
    requires (pc.Masking() || pc.Spin?) && pc.ticket == |owner|
    requires |owner| < |ds| + n
    ensures Fifo(n, tail, hasData, since, overrun, owner + [p], ps[p := pc], consumer, ds)
  {
  }

  // Steps before the lock, and steps of a holder that touch neither flag nor message.
  lemma FifoMove(n: nat, tail: nat, hasData: seq<bool>, since: seq<seq<Stint>>, overrun: seq<nat>, owner: seq<nat>,
                 ps: seq<ProducerPc>, consumer: ConsumerPc, ds: seq<Delivery>, p: nat, pc: ProducerPc)
    requires Fifo(n, tail, hasData, since, overrun, owner, ps, consumer, ds) && p < |ps| && !ps[p].Idle?
    requires !pc.Idle? && pc.ticket == ps[p].ticket
    requires pc.Holding() == ps[p].Holding() && (pc.Arriving() ==> ps[p].Arriving() && pc.slot == ps[p].slot)
    ensures Fifo(n, tail, hasData, since, overrun, owner, ps[p := pc], consumer, ds)
  {
  }

  // Only one ticket of those not yet popped belongs to a slot.
  lemma SameSlotSameTicket(n: nat, t: nat, k: nat, j: nat)
    requires n > 0 && t <= k < t + n && t <= j < t + n && k % n == j % n
    ensures k == j
  {
    ModUnique(k, j, n);
  }

  // A free slot that a producer reaches is empty.
  lemma SlotEmpty(n: nat, tail: nat, hasData: seq<bool>, since: seq<seq<Stint>>, overrun: seq<nat>, owner: seq<nat>,
                  ps: seq<ProducerPc>, consumer: ConsumerPc, ds: seq<Delivery>, p: nat)
    requires Fifo(n, tail, hasData, since, overrun, owner, ps, consumer, ds) && p < |ps|
    requires ps[p].Spin? && ps[p].slot == ps[p].ticket % n && ps[p].ticket < |owner|
    requires consumer != Recycle(ps[p].slot) && consumer != ClearData(ps[p].slot)
    ensures since[ps[p].slot] == [] && !hasData[ps[p].slot]
  {
    var i := ps[p].slot;
    assert SlotOk(n, |ds|, i, hasData[i], since[i], |owner|, consumer);
    assert ProducerOk(n, |ds|, ps[p], hasData, since);
    if since[i] != [] {
      SameSlotSameTicket(n, |ds|, since[i][0].ticket, ps[p].ticket);
    }
  }

  lemma FifoTake(n: nat, head: nat, tail: nat, busy: seq<bool>, holder: seq<Holder>, hasData: seq<bool>,
                 since: seq<seq<Stint>>, overrun: seq<nat>, owner: seq<nat>, ps: seq<ProducerPc>, consumer: ConsumerPc,
                 ds: seq<Delivery>, p: nat, pc: ProducerPc)
    requires Fifo(n, tail, hasData, since, overrun, owner, ps, consumer, ds) && p < |ps| && ps[p].Spin?
    requires Tickets(n, head, owner, ps) && Locks(busy, holder, ps, consumer) && |busy| == n
    requires pc.Arriving() && pc.ticket == ps[p].ticket && pc.slot == ps[p].slot < n && !busy[pc.slot]
    ensures Fifo(n, tail, hasData, since[pc.slot := since[pc.slot] + [Stint(pc.ticket, "")]], overrun, owner,
                 ps[p := pc], consumer, ds)
  {
    var i := pc.slot;
    SlotEmpty(n, tail, hasData, since, overrun, owner, ps, consumer, ds, p);
    var since' := since[i := since[i] + [Stint(pc.ticket, "")]];
    var ps' := ps[p := pc];
    forall q | 0 <= q < |ps| ensures ProducerOk(n, |ds|, ps'[q], hasData, since') {
      assert ProducerOk(n, |ds|, ps[q], hasData, since);
    }
    forall k | |ds| <= k < |owner| ensures TicketOk(n, k, owner[k], hasData, since', ps') {
      assert TicketOk(n, k, owner[k], hasData, since, ps);
    }
  }

  lemma FifoMark(n: nat, tail: nat, busy: seq<bool>, holder: seq<Holder>, hasData: seq<bool>, since: seq<seq<Stint>>,
                 overrun: seq<nat>, owner: seq<nat>, ps: seq<ProducerPc>, consumer: ConsumerPc, ds: seq<Delivery>,
                 p: nat, pc: ProducerPc)
    requires Fifo(n, tail, hasData, since, overrun, owner, ps, consumer, ds) && p < |ps|
    requires Locks(busy, holder, ps, consumer) && Stints(since, ps)
    requires ps[p].Arriving() && pc == Filling(ps[p].ticket, ps[p].slot) && pc.slot < n
    ensures !hasData[pc.slot]
    ensures Fifo(n, tail, hasData[pc.slot := true], since, overrun, owner, ps[p := pc], consumer, ds)
  {
    assert ProducerOk(n, |ds|, ps[p], hasData, since);
    var ps' := ps[p := pc];
    forall q | 0 <= q < |ps| ensures ProducerOk(n, |ds|, ps'[q], hasData[pc.slot := true], since) {
      assert ProducerOk(n, |ds|, ps[q], hasData, since);
    }
    forall k | |ds| <= k < |owner| ensures TicketOk(n, k, owner[k], hasData[pc.slot := true], since, ps') {
      assert TicketOk(n, k, owner[k], hasData, since, ps);
    }
  }

  lemma FifoAppend(n: nat, tail: nat, hasData: seq<bool>, since: seq<seq<Stint>>, overrun: seq<nat>, owner: seq<nat>,
                   ps: seq<ProducerPc>, consumer: ConsumerPc, ds: seq<Delivery>, i: nat, stints: seq<Stint>)
    requires Fifo(n, tail, hasData, since, overrun, owner, ps, consumer, ds) && i < n
    requires |stints| == |since[i]| && stints != [] && stints[|stints| - 1].ticket == since[i][|stints| - 1].ticket
    ensures Fifo(n, tail, hasData, since[i := stints], overrun, owner, ps, consumer, ds)
  {
    var since' := since[i := stints];
    assert SlotOk(n, |ds|, i, hasData[i], since[i], |owner|, consumer);
    forall q | 0 <= q < |ps| ensures ProducerOk(n, |ds|, ps[q], hasData, since') {
      assert ProducerOk(n, |ds|, ps[q], hasData, since);
      assert (ps[q].Masking() || ps[q].Spin?) && ps[q].ticket % n == i ==> since[i][0] in since[i];
    }
    forall k | |ds| <= k < |owner| ensures TicketOk(n, k, owner[k], hasData, since', ps) {
      assert TicketOk(n, k, owner[k], hasData, since, ps);
    }
  }

  lemma FifoDrop(n: nat, tail: nat, hasData: seq<bool>, since: seq<seq<Stint>>, overrun: seq<nat>, owner: seq<nat>,
                 ps: seq<ProducerPc>, consumer: ConsumerPc, ds: seq<Delivery>, p: nat)
    requires Fifo(n, tail, hasData, since, overrun, owner, ps, consumer, ds) && p < |ps| && ps[p].Filling?
    requires Stints(since, ps) && ps[p].slot == ps[p].ticket % n && hasData[ps[p].slot]
    ensures Fifo(n, tail, hasData, since, overrun, owner, ps[p := Idle], consumer, ds)
  {
    var i := ps[p].slot;
    assert SlotOk(n, |ds|, i, hasData[i], since[i], |owner|, consumer);
    var ps' := ps[p := Idle];
    forall k | |ds| <= k < |owner| ensures TicketOk(n, k, owner[k], hasData, since, ps') {
      assert TicketOk(n, k, owner[k], hasData, since, ps);
    }
  }

  // The slot at the tail, when it has data, has the oldest ticket still to be popped.
  lemma TailHasOldest(n: nat, tail: nat, hasData: seq<bool>, since: seq<seq<Stint>>, overrun: seq<nat>,
                      owner: seq<nat>, ps: seq<ProducerPc>, consumer: ConsumerPc, ds: seq<Delivery>)
    requires Fifo(n, tail, hasData, since, overrun, owner, ps, consumer, ds)
    requires tail < n && hasData[tail] && consumer != ClearData(tail) && consumer != Recycle(tail)
    ensures |since[tail]| == 1 && since[tail][0].ticket == |ds| < |owner|
  {
    assert SlotOk(n, |ds|, tail, hasData[tail], since[tail], |owner|, consumer);
    SameSlotSameTicket(n, |ds|, since[tail][0].ticket, |ds|);
  }

  lemma FifoTakeCopy(n: nat, tail: nat, tail': nat, busy: seq<bool>, holder: seq<Holder>, hasData: seq<bool>,
                     since: seq<seq<Stint>>, overrun: seq<nat>, owner: seq<nat>, ps: seq<ProducerPc>,
                     consumer: ConsumerPc, ds: seq<Delivery>, head: nat, message: string)
    requires Fifo(n, tail, hasData, since, overrun, owner, ps, consumer, ds)
    requires Locks(busy, holder, ps, consumer) && Tickets(n, head, owner, ps) && |holder| == n
    requires consumer == Copy(tail) && tail < n && hasData[tail] && tail' == (tail + 1) % n
    ensures Fifo(n, tail', hasData, since, overrun, owner, ps, Recycle(tail), ds + [Delivery(message, since[tail])])
  {
    var t := |ds|;
    var ds' := ds + [Delivery(message, since[tail])];
    TailHasOldest(n, tail, hasData, since, overrun, owner, ps, consumer, ds);
    ModOf(tail, n, 0, tail);
    ModSucc(tail, t, n);
    forall i | 0 <= i < n ensures SlotOk(n, t + 1, i, hasData[i], since[i], |owner|, Recycle(tail)) {
      assert SlotOk(n, t, i, hasData[i], since[i], |owner|, consumer);
    }
    forall q | 0 <= q < |ps| ensures ProducerOk(n, t + 1, ps[q], hasData, since) {
      assert ProducerOk(n, t, ps[q], hasData, since);
      assert since[tail][0] in since[tail];
    }
    forall k | 0 <= k < t + 1 ensures DeliveredBy(ds'[k], k) {
      assert k < t ==> DeliveredBy(ds[k], k);
    }
  }

  lemma FifoRecycle(n: nat, tail: nat, hasData: seq<bool>, since: seq<seq<Stint>>, overrun: seq<nat>,
                    owner: seq<nat>, ps: seq<ProducerPc>, ds: seq<Delivery>, i: nat)
    requires Fifo(n, tail, hasData, since, overrun, owner, ps, Recycle(i), ds) && i < n
    ensures Fifo(n, tail, hasData, since[i := []], overrun, owner, ps, ClearData(i), ds)
  {
    var since' := since[i := []];
    assert SlotOk(n, |ds|, i, hasData[i], since[i], |owner|, Recycle(i));
    forall j | 0 <= j < n ensures SlotOk(n, |ds|, j, hasData[j], since'[j], |owner|, ClearData(i)) {
      assert SlotOk(n, |ds|, j, hasData[j], since[j], |owner|, Recycle(i));
    }
    forall q | 0 <= q < |ps| ensures ProducerOk(n, |ds|, ps[q], hasData, since') {
      assert ProducerOk(n, |ds|, ps[q], hasData, since);
    }
    forall k | |ds| <= k < |owner| ensures TicketOk(n, k, owner[k], hasData, since', ps) {
      assert TicketOk(n, k, owner[k], hasData, since, ps);
    }
  }

  lemma FifoClear(n: nat, tail: nat, hasData: seq<bool>, since: seq<seq<Stint>>, overrun: seq<nat>,
                  owner: seq<nat>, ps: seq<ProducerPc>, ds: seq<Delivery>, i: nat)
    requires Fifo(n, tail, hasData, since, overrun, owner, ps, ClearData(i), ds) && i < n
    ensures Fifo(n, tail, hasData[i := false], since, overrun, owner, ps, Unlock(i), ds)
  {
    forall j | 0 <= j < n ensures SlotOk(n, |ds|, j, hasData[i := false][j], since[j], |owner|, Unlock(i)) {
      assert SlotOk(n, |ds|, j, hasData[j], since[j], |owner|, ClearData(i));
    }
    forall q | 0 <= q < |ps| ensures ProducerOk(n, |ds|, ps[q], hasData[i := false], since) {
      assert ProducerOk(n, |ds|, ps[q], hasData, since);
    }
    assert SlotOk(n, |ds|, i, hasData[i], since[i], |owner|, ClearData(i));
    forall k | |ds| <= k < |owner| ensures TicketOk(n, k, owner[k], hasData[i := false], since, ps) {
      assert TicketOk(n, k, owner[k], hasData, since, ps);
    }
  }

  // Consumer steps outside the copy-recycle-clear sequence.
  lemma FifoConsumer(n: nat, tail: nat, hasData: seq<bool>, since: seq<seq<Stint>>, overrun: seq<nat>,
                     owner: seq<nat>, ps: seq<ProducerPc>, before: ConsumerPc, after: ConsumerPc, ds: seq<Delivery>)
    requires Fifo(n, tail, hasData, since, overrun, owner, ps, before, ds)
    requires !before.Taking() && !after.Taking()
    ensures Fifo(n, tail, hasData, since, overrun, owner, ps, after, ds)
  {
    forall i | 0 <= i < n ensures SlotOk(n, |ds|, i, hasData[i], since[i], |owner|, after) {
      assert SlotOk(n, |ds|, i, hasData[i], since[i], |owner|, before);
    }
  }

  // --- whole states ---

  ghost predicate FifoState(c: Config, s: State) {
    Fifo(c.Capacity(), s.tail, s.hasData, s.log.since, s.log.overrun, s.log.owner, s.producers, s.consumer,
         s.log.deliveries)
  }

  // The step does not draw a ticket while `capacity` earlier ones are still unpopped.
  predicate KeepsSpace(c: Config, s: State, a: Action) {
    a.Produce? && a.p < |s.producers| && s.producers[a.p].Idle? ==> |s.log.owner| < |s.log.deliveries| + c.Capacity()
  }

  lemma FifoByProducer(c: Config, s: State, p: nat)
    requires Inv(c, s) && FifoState(c, s) && KeepsSpace(c, s, Produce(p))
    requires p < |s.producers| && StepProducer(c, s, p).Some?
    ensures FifoState(c, StepProducer(c, s, p).value)
  {
    hide Fifo, Tickets, Locks, Texts, Books, Overflows, Stints;
    var n := c.Capacity();
    var pc' := StepProducer(c, s, p).value.producers[p];
    var pc := s.producers[p];
    if pc.Idle? {
      FifoIssue(n, s.tail, s.hasData, s.log.since, s.log.overrun, s.log.owner, s.producers, s.consumer,
                s.log.deliveries, p, pc');
    } else if pc.Spin? && !s.busy[pc.slot] {
      FifoTake(n, s.head, s.tail, s.busy, s.log.holder, s.hasData, s.log.since, s.log.overrun, s.log.owner,
               s.producers, s.consumer, s.log.deliveries, p, pc');
    } else if pc.TestAndSet? {
      FifoMark(n, s.tail, s.busy, s.log.holder, s.hasData, s.log.since, s.log.overrun, s.log.owner, s.producers,
               s.consumer, s.log.deliveries, p, Filling(pc.ticket, pc.slot));
    } else {
      FifoMove(n, s.tail, s.hasData, s.log.since, s.log.overrun, s.log.owner, s.producers, s.consumer,
               s.log.deliveries, p, pc');
    }
  }

  lemma FifoByOwner(c: Config, s: State, p: nat, chunk: string)
    requires Inv(c, s) && FifoState(c, s) && p < |s.producers| && s.producers[p].Filling?
    ensures FifoState(c, Append(c, s, p, chunk)) && FifoState(c, Release(c, s, p))
  {
    hide Fifo, Locks, Texts, Overflows;
    var i := s.producers[p].slot;
    FifoAppend(c.Capacity(), s.tail, s.hasData, s.log.since, s.log.overrun, s.log.owner, s.producers, s.consumer,
               s.log.deliveries, i, Append(c, s, p, chunk).log.since[i]);
    FifoDrop(c.Capacity(), s.tail, s.hasData, s.log.since, s.log.overrun, s.log.owner, s.producers, s.consumer,
             s.log.deliveries, p);
  }

  lemma FifoByConsumer(c: Config, s: State)
    requires Inv(c, s) && FifoState(c, s) && StepConsumer(c, s).Some?
    ensures FifoState(c, StepConsumer(c, s).value)
  {
    hide Fifo, Tickets, Locks, Texts, Books, Overflows, Stints;
    var n := c.Capacity();
    var after := StepConsumer(c, s).value.consumer;
    match s.consumer {
      case Copy(i) =>
        CommittedAtTail(c, s);
        AndMask(s.tail + 1, c.logCapacity);
        FifoTakeCopy(n, s.tail, (s.tail + 1) % n, s.busy, s.log.holder, s.hasData, s.log.since, s.log.overrun,
                     s.log.owner, s.producers, s.consumer, s.log.deliveries, s.head, UpToNul(s.elements[i]));
      case Recycle(i) =>
        FifoRecycle(n, s.tail, s.hasData, s.log.since, s.log.overrun, s.log.owner, s.producers, s.log.deliveries, i);
      case ClearData(i) =>
        FifoClear(n, s.tail, s.hasData, s.log.since, s.log.overrun, s.log.owner, s.producers, s.log.deliveries, i);
      case _ =>
        FifoConsumer(n, s.tail, s.hasData, s.log.since, s.log.overrun, s.log.owner, s.producers, s.consumer, after,
                     s.log.deliveries);
    }
  }

  lemma CommittedAtTail(c: Config, s: State)
    requires Inv(c, s) && s.consumer.Copy?
    ensures s.consumer.slot == s.tail && s.hasData[s.tail]
  {
    hide Tickets, Locks, Texts, Overflows, Stints;
  }

  lemma FifoByStart(c: Config, s: State)
    requires Inv(c, s) && FifoState(c, s) && s.consumer.Ready?
    ensures FifoState(c, TestFirst(c, s)) && FifoState(c, s.(consumer := Resetting(s.resettable)))
  {
    hide Fifo, Tickets, Locks, Texts, Books, Overflows, Stints;
    FifoConsumer(c.Capacity(), s.tail, s.hasData, s.log.since, s.log.overrun, s.log.owner, s.producers, s.consumer,
                 TestFirst(c, s).consumer, s.log.deliveries);
    FifoConsumer(c.Capacity(), s.tail, s.hasData, s.log.since, s.log.overrun, s.log.owner, s.producers, s.consumer,
                 Resetting(s.resettable), s.log.deliveries);
  }

  lemma FifoStep(c: Config, s: State, a: Action)
    requires Inv(c, s) && FifoState(c, s) && KeepsSpace(c, s, a) && Next(c, s, a).Some?
    ensures FifoState(c, Next(c, s, a).value)
  {
    hide Fifo, Tickets, Locks, Texts, Books, Overflows, Stints;
    match a {
      case Produce(p) => FifoByProducer(c, s, p);
      case Fill(p, chunk) => FifoByOwner(c, s, p, chunk);
      case Commit(p) => FifoByOwner(c, s, p, "");
      case StartReset => FifoByStart(c, s);
      case StartPop => FifoByStart(c, s);
      case Consume => FifoByConsumer(c, s);
    }
  }

  // The first n steps of a run draw every ticket with room for it.
  ghost predicate Spaced(c: Config, actions: seq<Action>, states: seq<State>, n: nat)
    requires n <= |actions| < |states|
  {
    forall i {:trigger actions[i]} | 0 <= i < n :: KeepsSpace(c, states[i], actions[i])
  }

  lemma {:induction false} SpacedFifo(c: Config, actions: seq<Action>, states: seq<State>, n: nat)
    requires IsRun(c, actions, states) && n <= |actions| && Spaced(c, actions, states, n)
    ensures FifoState(c, states[n])
    decreases n
  {
    hide Inv, Shape, Next, KeepsSpace, Fifo;
    if n == 0 {
      NothingQueued(c);
    } else {
      SpacedFifo(c, actions, states, n - 1);
      RunInv(c, actions, states, n - 1);
      FifoStep(c, states[n - 1], actions[n - 1]);
    }
  }

  lemma NothingQueued(c: Config)
    requires c.Valid()
    ensures FifoState(c, Init(c))
  {
  }

  // --- what a well-spaced run guarantees ---

  // No overrun is counted.
  lemma NoOverrunWhenSpaced(c: Config, actions: seq<Action>, states: seq<State>, n: nat)
    requires IsRun(c, actions, states) && n <= |actions| && Spaced(c, actions, states, n)
    ensures Total(states[n].log.overrun) == 0 && states[n].overflow == 0 && states[n].resettable == 0
  {
    hide Tickets, Locks, Texts, Books, Stints, Shape, Next, KeepsSpace;
    SpacedFifo(c, actions, states, n);
    RunInv(c, actions, states, n);
    TotalZeros(states[n].log.overrun);
  }

  // The k-th successful pop returns what the holder of ticket k wrote, and nothing else.
  lemma FirstInFirstOut(c: Config, actions: seq<Action>, states: seq<State>, n: nat, k: nat)
    requires IsRun(c, actions, states) && n <= |actions| && Spaced(c, actions, states, n)
    requires k < |states[n].log.deliveries|
    ensures k < |Written(actions, states, n)|
    ensures states[n].log.deliveries[k].message == UpToNul(Clip(Written(actions, states, n)[k], c.messageCapacity))
  {
    hide Inv, Shape, Next, KeepsSpace;
    SpacedFifo(c, actions, states, n);
    var d := states[n].log.deliveries[k];
    assert DeliveredBy(d, k);
    DeliveredIsWritten(c, actions, states, n, d);
    assert d.stints[0] in d.stints;
    assert d.stints == [] + [d.stints[0]];
    JoinedSnoc([], d.stints[0]);
    assert "" + d.stints[0].text == d.stints[0].text;
  }

  // A producer that waits, waits for the consumer's unlock and for nothing else.
  lemma WaitsOnlyForConsumer(c: Config, actions: seq<Action>, states: seq<State>, n: nat, p: nat)
    requires IsRun(c, actions, states) && n <= |actions| && Spaced(c, actions, states, n)
    requires p < |states[n].producers| && states[n].producers[p].Spin?
    ensures var s := states[n];
            var i := s.producers[p].slot;
            i < |s.busy| && (s.busy[i] ==> Holds(s, Consumer, i))
  {
    hide Texts, Books, Overflows, Next, KeepsSpace;
    var s := states[n];
    var cap, t, i := c.Capacity(), |s.log.deliveries|, s.producers[p].slot;
    RunInv(c, actions, states, n);
    SpacedFifo(c, actions, states, n);
    if s.log.holder[i].ByProducer? {
      var q := s.log.holder[i].p;
      assert ProducerOk(cap, t, s.producers[p], s.hasData, s.log.since);
      assert ProducerOk(cap, t, s.producers[q], s.hasData, s.log.since);
      SameSlotSameTicket(cap, t, s.producers[p].ticket, s.producers[q].ticket);
    }
  }

  // A pop that finds nothing: every ticket drawn has been popped, or the oldest one
  // left has not yet been announced by its producer.
  lemma EmptyPopMeansNothingReady(c: Config, actions: seq<Action>, states: seq<State>, n: nat)
    requires IsRun(c, actions, states) && n <= |actions| && Spaced(c, actions, states, n)
    requires var s := states[n]; s.consumer.Ready? && s.tail < |s.hasData| && !s.hasData[s.tail]
    ensures var s := states[n];
            var popped := |s.log.deliveries|;
            popped == |s.log.owner| || exists p :: 0 <= p < |s.producers| && HasUnannounced(s.producers[p], popped)
  {
    hide Texts, Overflows, Next, KeepsSpace;
    var s := states[n];
    var cap, t := c.Capacity(), |s.log.deliveries|;
    RunInv(c, actions, states, n);
    SpacedFifo(c, actions, states, n);
    if t < |s.log.owner| {
      assert TicketOk(cap, t, s.log.owner[t], s.hasData, s.log.since, s.producers);
      assert HasUnannounced(s.producers[s.log.owner[t]], t);
    }
  }

  // The producer has drawn the ticket and not yet set its slot's flag.
  predicate HasUnannounced(pc: ProducerPc, ticket: nat) {
    (pc.Masking() || pc.Spin? || pc.Arriving()) && pc.ticket == ticket
  }
}
