// Per-slot accounts of a run, overruns included: which tickets went to a slot, in which
// order their locks were taken, how many of them each delivery holds.
module RingAccounts {
  import opened Basics
  import opened Words
  import opened Sums
  import opened RingProtocol
  import opened RingInvariant
  import opened RingSteps
  import opened RingTheorems
  import opened RingConservation

  // --- counting by slot ---

  function SlotOf(k: nat, n: nat): (i: nat)
    requires n > 0
    ensures i < n
  {
    k % n
  }

  // The numbers below m that belong to slot i, in order.
  function Numbers(m: nat, n: nat, i: nat): seq<nat>
    requires n > 0
  {
    if m == 0 then [] else Numbers(m - 1, n, i) + (if SlotOf(m - 1, n) == i then [m - 1] else [])
  }

  lemma {:induction false} NumbersGrow(p: nat, d: nat, n: nat, i: nat)
    requires n > 0 && p <= d
    ensures Numbers(p, n, i) <= Numbers(d, n, i)
    ensures |Numbers(p, n, i)| < |Numbers(d, n, i)| <==> exists k :: p <= k < d && SlotOf(k, n) == i
    decreases d
  {
    hide SlotOf;
    if p < d {
      NumbersGrow(p, d - 1, n, i);
      if SlotOf(d - 1, n) != i && exists k :: p <= k < d && SlotOf(k, n) == i {
        var k :| p <= k < d && SlotOf(k, n) == i;
        assert p <= k < d - 1;
      }
    }
  }

  // Among n consecutive numbers each slot has one, so no two.
  lemma {:induction false} NumbersSpan(p: nat, d: nat, n: nat, i: nat)
    requires n > 0 && p <= d <= p + n
    ensures |Numbers(d, n, i)| <= |Numbers(p, n, i)| + 1
    decreases d
  {
    if p < d {
      NumbersSpan(p, d - 1, n, i);
      NumbersGrow(p, d - 1, n, i);
      if SlotOf(d - 1, n) == i && |Numbers(p, n, i)| < |Numbers(d - 1, n, i)| {
        var k :| p <= k < d - 1 && SlotOf(k, n) == i;
        ModUnique(k, d - 1, n);
      }
    }
  }

  lemma {:induction false} NumbersTotal(m: nat, n: nat)
    requires n > 0
    ensures Total(seq(n, i requires 0 <= i < n => |Numbers(m, n, i)|)) == m
  {
    hide SlotOf;
    var counts := seq(n, i requires 0 <= i < n => |Numbers(m, n, i)|);
    if m == 0 {
      TotalZeros(counts);
    } else {
      NumbersTotal(m - 1, n);
      var before := seq(n, i requires 0 <= i < n => |Numbers(m - 1, n, i)|);
      var j := SlotOf(m - 1, n);
      assert counts == before[j := before[j] + 1];
      TotalUpdate(before, j, before[j] + 1);
    }
  }

  // --- pops ---

  ghost predicate Popped(n: nat, tail: nat, count: nat, popped: seq<nat>, consumer: ConsumerPc)
    requires n > 0
  {
    && |popped| == n && tail == SlotOf(count, n)
    && forall i | 0 <= i < n ::
         popped[i] + (if consumer.Taking() && consumer.slot == i then 1 else 0) == |Numbers(count, n, i)|
  }

  lemma PoppedMove(n: nat, tail: nat, count: nat, popped: seq<nat>, before: ConsumerPc, after: ConsumerPc)
    requires n > 0 && Popped(n, tail, count, popped, before)
    requires before.Taking() == after.Taking() && (after.Taking() ==> after.slot == before.slot)
    ensures Popped(n, tail, count, popped, after)
  {
  }

  lemma PoppedCopy(n: nat, tail: nat, count: nat, popped: seq<nat>, i: nat)
    requires n > 0 && Popped(n, tail, count, popped, Copy(i)) && i == tail
    ensures Popped(n, SlotOf(tail + 1, n), count + 1, popped, Recycle(i))
  {
    ModSucc(tail, count, n) by { ModOf(tail, n, 0, tail); }
    hide SlotOf;
  }

  lemma PoppedClear(n: nat, tail: nat, count: nat, popped: seq<nat>, i: nat)
    requires n > 0 && Popped(n, tail, count, popped, ClearData(i)) && i < n
    ensures Popped(n, tail, count, popped[i := popped[i] + 1], Unlock(i))
  {
    hide SlotOf, Numbers;
  }

  // --- tickets drawn ---

  // On its way to the lock of slot i.
  function Heading(n: nat, i: nat): ProducerPc -> bool
    requires n > 0
  {
    (pc: ProducerPc) => EnRoute(pc) && SlotOf(pc.ticket, n) == i
  }

  ghost predicate Drawn(n: nat, count: nat, acquired: seq<nat>, producers: seq<ProducerPc>)
    requires n > 0
  {
    |acquired| == n &&
    forall i | 0 <= i < n :: acquired[i] + Tally(producers, Heading(n, i)) == |Numbers(count, n, i)|
  }

  lemma DrawnMove(n: nat, count: nat, acquired: seq<nat>, ps: seq<ProducerPc>, p: nat, pc: ProducerPc)
    requires n > 0 && Drawn(n, count, acquired, ps) && p < |ps|
    requires EnRoute(ps[p]) == EnRoute(pc) && (EnRoute(pc) ==> pc.ticket == ps[p].ticket)
    ensures Drawn(n, count, acquired, ps[p := pc])
  {
    hide SlotOf, Numbers;
    forall i | 0 <= i < n ensures Tally(ps[p := pc], Heading(n, i)) == Tally(ps, Heading(n, i)) {
      TallyUpdate(ps, p, pc, Heading(n, i));
    }
  }

  lemma DrawnIssue(n: nat, count: nat, acquired: seq<nat>, ps: seq<ProducerPc>, p: nat, pc: ProducerPc)
    requires n > 0 && Drawn(n, count, acquired, ps) && p < |ps| && ps[p].Idle?
    requires EnRoute(pc) && pc.ticket == count
    ensures Drawn(n, count + 1, acquired, ps[p := pc])
  {
    hide SlotOf;
    forall i | 0 <= i < n
      ensures acquired[i] + Tally(ps[p := pc], Heading(n, i)) == |Numbers(count + 1, n, i)|
    {
      TallyUpdate(ps, p, pc, Heading(n, i));
    }
  }

  lemma DrawnTake(n: nat, count: nat, acquired: seq<nat>, ps: seq<ProducerPc>, p: nat, pc: ProducerPc, i: nat)
    requires n > 0 && Drawn(n, count, acquired, ps) && p < |ps|
    requires EnRoute(ps[p]) && SlotOf(ps[p].ticket, n) == i && !EnRoute(pc)
    ensures Drawn(n, count, acquired[i := acquired[i] + 1], ps[p := pc])
  {
    hide SlotOf, Numbers;
    forall j | 0 <= j < n
      ensures acquired[i := acquired[i] + 1][j] + Tally(ps[p := pc], Heading(n, j)) == |Numbers(count, n, j)|
    {
      TallyUpdate(ps, p, pc, Heading(n, j));
    }
  }

  // --- the order of the locks ---

  function TicketsIn(stints: seq<Stint>): (ks: seq<nat>)
    ensures |ks| == |stints|
  {
    seq(|stints|, j requires 0 <= j < |stints| => stints[j].ticket)
  }

  // The tickets handed out from slot i: the k-th delivery is from slot k modulo n.
  function TicketsOf(ds: seq<Delivery>, n: nat, i: nat): seq<nat>
    requires n > 0
  {
    if ds == [] then []
    else
      var last := |ds| - 1;
      TicketsOf(ds[..last], n, i) + (if SlotOf(last, n) == i then TicketsIn(ds[last].stints) else [])
  }

  // For each slot, the tickets of the producers that locked it, in that order; read off
  // the first m steps of the run.
  ghost function LockOrder(n: nat, actions: seq<Action>, states: seq<State>, m: nat): (locked: seq<seq<nat>>)
    requires m <= |actions| < |states|
    ensures |locked| == n
  {
    if m == 0 then seq(n, _ => [])
    else LockStep(states[m - 1], actions[m - 1], LockOrder(n, actions, states, m - 1))
  }

  ghost function LockStep(s: State, a: Action, locked: seq<seq<nat>>): (locked': seq<seq<nat>>)
    ensures |locked'| == |locked|
  {
    if a.Produce? && a.p < |s.producers| && s.producers[a.p].Spin? then
      var i := s.producers[a.p].slot;
      if i < |s.busy| && !s.busy[i] && i < |locked| then locked[i := locked[i] + [s.producers[a.p].ticket]] else locked
    else locked
  }

  // What a slot has handed out and what is in it are its reservations, in lock order.
  ghost predicate Handed(n: nat, locked: seq<seq<nat>>, acquired: seq<nat>, since: seq<seq<Stint>>, ds: seq<Delivery>,
                         consumer: ConsumerPc)
    requires n > 0
  {
    |locked| == |acquired| == |since| == n &&
    forall i | 0 <= i < n ::
      && |locked[i]| == acquired[i]
      && locked[i] == TicketsOf(ds, n, i) + (if consumer == Recycle(i) then [] else TicketsIn(since[i]))
  }

  lemma HandedMove(n: nat, locked: seq<seq<nat>>, acquired: seq<nat>, since: seq<seq<Stint>>, ds: seq<Delivery>,
                   before: ConsumerPc, after: ConsumerPc)
    requires n > 0 && Handed(n, locked, acquired, since, ds, before) && !before.Recycle? && !after.Recycle?
    ensures Handed(n, locked, acquired, since, ds, after)
  {
  }

  lemma TicketsSnoc(stints: seq<Stint>, st: Stint)
    ensures TicketsIn(stints + [st]) == TicketsIn(stints) + [st.ticket]
  {
  }

  lemma HandedTake(n: nat, locked: seq<seq<nat>>, acquired: seq<nat>, since: seq<seq<Stint>>, ds: seq<Delivery>,
                   consumer: ConsumerPc, i: nat, st: Stint)
    requires n > 0 && Handed(n, locked, acquired, since, ds, consumer) && i < n && consumer != Recycle(i)
    ensures Handed(n, locked[i := locked[i] + [st.ticket]], acquired[i := acquired[i] + 1],
                   since[i := since[i] + [st]], ds, consumer)
  {
    hide TicketsOf, TicketsIn;
    TicketsSnoc(since[i], st);
    assert TicketsOf(ds, n, i) + (TicketsIn(since[i]) + [st.ticket]) == locked[i] + [st.ticket];
  }

  lemma HandedAppend(n: nat, locked: seq<seq<nat>>, acquired: seq<nat>, since: seq<seq<Stint>>, ds: seq<Delivery>,
                     consumer: ConsumerPc, i: nat, stints: seq<Stint>)
    requires n > 0 && Handed(n, locked, acquired, since, ds, consumer) && i < n
    requires TicketsIn(stints) == TicketsIn(since[i])
    ensures Handed(n, locked, acquired, since[i := stints], ds, consumer)
  {
    hide TicketsOf, TicketsIn;
  }

  lemma HandedCopy(n: nat, locked: seq<seq<nat>>, acquired: seq<nat>, since: seq<seq<Stint>>, ds: seq<Delivery>,
                   i: nat, message: string)
    requires n > 0 && Handed(n, locked, acquired, since, ds, Copy(i)) && i == SlotOf(|ds|, n)
    ensures Handed(n, locked, acquired, since, ds + [Delivery(message, since[i])], Recycle(i))
  {
    hide SlotOf, TicketsIn;
    var ds' := ds + [Delivery(message, since[i])];
    assert ds'[..|ds|] == ds;
    forall j | 0 <= j < n
      ensures TicketsOf(ds', n, j) == TicketsOf(ds, n, j) + (if j == i then TicketsIn(since[i]) else [])
    {
    }
  }

  lemma HandedRecycle(n: nat, locked: seq<seq<nat>>, acquired: seq<nat>, since: seq<seq<Stint>>, ds: seq<Delivery>, i: nat)
    requires n > 0 && Handed(n, locked, acquired, since, ds, Recycle(i)) && i < n
    ensures Handed(n, locked, acquired, since[i := []], ds, ClearData(i))
  {
    hide TicketsOf;
  }

  // --- flags and contents ---

  // A flag is set for a slot with something in it, and only a reservation that is about
  // to set it can be ahead of the flag.
  ghost predicate Filled(hasData: seq<bool>, since: seq<seq<Stint>>, holder: seq<Holder>, producers: seq<ProducerPc>,
                         ds: seq<Delivery>, consumer: ConsumerPc)
  {
    && |hasData| == |since| == |holder|
    && (forall k | 0 <= k < |ds| :: ds[k].stints != [])
    && (forall i | 0 <= i < |since| :: hasData[i] && consumer != ClearData(i) ==> since[i] != [])
    && (forall i | 0 <= i < |since| :: since[i] != [] ==> hasData[i] || ArrivingAt(holder[i], producers) == 1)
    && (forall i | 0 <= i < |since| && consumer == ClearData(i) :: since[i] == [])
  }

  lemma FilledMove(hasData: seq<bool>, since: seq<seq<Stint>>, busy: seq<bool>, holder: seq<Holder>,
                   ps: seq<ProducerPc>, ds: seq<Delivery>, consumer: ConsumerPc, p: nat, pc: ProducerPc)
    requires Filled(hasData, since, holder, ps, ds, consumer) && p < |ps| && ps[p].Arriving() == pc.Arriving()
    ensures Filled(hasData, since, holder, ps[p := pc], ds, consumer)
  {
  }

  lemma FilledTake(hasData: seq<bool>, since: seq<seq<Stint>>, busy: seq<bool>, holder: seq<Holder>,
                   ps: seq<ProducerPc>, ds: seq<Delivery>, consumer: ConsumerPc, p: nat, pc: ProducerPc, st: Stint)
    requires Filled(hasData, since, holder, ps, ds, consumer) && Locks(busy, holder, ps, consumer) && p < |ps|
    requires !ps[p].Holding() && pc.Arriving() && pc.slot < |busy| && !busy[pc.slot]
    ensures var i := pc.slot;
            Filled(hasData, since[i := since[i] + [st]], holder[i := ByProducer(p)], ps[p := pc], ds, consumer)
  {
  }

  lemma FilledMark(hasData: seq<bool>, since: seq<seq<Stint>>, busy: seq<bool>, holder: seq<Holder>,
                   ps: seq<ProducerPc>, ds: seq<Delivery>, consumer: ConsumerPc, p: nat, pc: ProducerPc)
    requires Filled(hasData, since, holder, ps, ds, consumer) && Locks(busy, holder, ps, consumer) && p < |ps|
    requires ps[p].Arriving() && !pc.Arriving() && pc.Holding() && pc.slot == ps[p].slot
    requires pc.slot < |since| && since[pc.slot] != []
    ensures Filled(hasData[pc.slot := true], since, holder, ps[p := pc], ds, consumer)
  {
  }

  lemma FilledAppend(hasData: seq<bool>, since: seq<seq<Stint>>, holder: seq<Holder>, ps: seq<ProducerPc>,
                     ds: seq<Delivery>, consumer: ConsumerPc, i: nat, stints: seq<Stint>)
    requires Filled(hasData, since, holder, ps, ds, consumer) && i < |since| && since[i] != [] && stints != []
    ensures Filled(hasData, since[i := stints], holder, ps, ds, consumer)
  {
  }

  lemma FilledDrop(hasData: seq<bool>, since: seq<seq<Stint>>, busy: seq<bool>, holder: seq<Holder>,
                   ps: seq<ProducerPc>, ds: seq<Delivery>, consumer: ConsumerPc, p: nat)
    requires Filled(hasData, since, holder, ps, ds, consumer) && Locks(busy, holder, ps, consumer) && p < |ps|
    requires ps[p].Holding() && !ps[p].Arriving()
    ensures Filled(hasData, since, holder[ps[p].slot := Free], ps[p := Idle], ds, consumer)
  {
  }

  lemma FilledConsumer(hasData: seq<bool>, since: seq<seq<Stint>>, holder: seq<Holder>, ps: seq<ProducerPc>,
                       ds: seq<Delivery>, before: ConsumerPc, after: ConsumerPc)
    requires Filled(hasData, since, holder, ps, ds, before) && !before.ClearData? && !after.ClearData?
    ensures Filled(hasData, since, holder, ps, ds, after)
  {
  }

  lemma FilledCopy(hasData: seq<bool>, since: seq<seq<Stint>>, holder: seq<Holder>, ps: seq<ProducerPc>,
                   ds: seq<Delivery>, i: nat, message: string)
    requires Filled(hasData, since, holder, ps, ds, Copy(i)) && i < |hasData| && hasData[i]
    ensures Filled(hasData, since, holder, ps, ds + [Delivery(message, since[i])], Recycle(i))
  {
  }

  lemma FilledRecycle(hasData: seq<bool>, since: seq<seq<Stint>>, holder: seq<Holder>, ps: seq<ProducerPc>,
                      ds: seq<Delivery>, i: nat)
    requires Filled(hasData, since, holder, ps, ds, Recycle(i)) && i < |hasData|
    ensures Filled(hasData, since[i := []], holder, ps, ds, ClearData(i))
  {
  }

  lemma FilledClear(hasData: seq<bool>, since: seq<seq<Stint>>, holder: seq<Holder>, ps: seq<ProducerPc>,
                    ds: seq<Delivery>, i: nat)
    requires Filled(hasData, since, holder, ps, ds, ClearData(i)) && i < |hasData|
    ensures Filled(hasData[i := false], since, holder, ps, ds, Unlock(i))
  {
  }

  // --- whole states and runs ---

  ghost predicate Accounts(c: Config, s: State, locked: seq<seq<nat>>) {
    var n, ds := c.Capacity(), s.log.deliveries;
    && Popped(n, s.tail, |ds|, s.log.popped, s.consumer)
    && Drawn(n, |s.log.owner|, s.log.acquired, s.producers)
    && Handed(n, locked, s.log.acquired, s.log.since, ds, s.consumer)
    && Filled(s.hasData, s.log.since, s.log.holder, s.producers, ds, s.consumer)
  }

  lemma InitAccounts(c: Config)
    requires c.Valid()
    ensures Accounts(c, Init(c), seq(c.Capacity(), _ => []))
  {
    var n, s := c.Capacity(), Init(c);
    ModOf(0, n, 0, 0);
    forall i | 0 <= i < n ensures Tally(s.producers, Heading(n, i)) == 0 {
      TallyNone(s.producers, Heading(n, i));
    }
  }

  // What the invariant says of a producer's slot and ticket.
  lemma ProducerFacts(c: Config, s: State, p: nat)
    requires Inv(c, s) && p < |s.producers|
    ensures var pc, n := s.producers[p], c.Capacity();
            && (pc.Spin? || pc.Holding() ==> pc.slot < n && pc.slot == SlotOf(pc.ticket, n))
            && (pc.Spin? && !s.busy[pc.slot] ==> s.consumer != Recycle(pc.slot))
            && (pc.Holding() ==> s.consumer != Recycle(pc.slot) && s.log.since[pc.slot] != [])
  {
    hide Texts, Books, Overflows, Stints;
  }

  lemma IssueAccounts(c: Config, s: State, p: nat, locked: seq<seq<nat>>)
    requires Inv(c, s) && Accounts(c, s, locked) && p < |s.producers| && s.producers[p].Idle?
    ensures Accounts(c, IssueTicket(c, s, p), locked)
  {
    hide Inv, Popped, Drawn, Handed, Filled;
    var pc := IssueTicket(c, s, p).producers[p];
    DrawnIssue(c.Capacity(), |s.log.owner|, s.log.acquired, s.producers, p, pc);
    FilledMove(s.hasData, s.log.since, s.busy, s.log.holder, s.producers, s.log.deliveries, s.consumer, p, pc);
  }

  lemma LockAccounts(c: Config, s: State, p: nat, locked: seq<seq<nat>>)
    requires Inv(c, s) && Accounts(c, s, locked) && p < |s.producers| && s.producers[p].Spin?
    requires !s.busy[s.producers[p].slot]
    ensures Accounts(c, TryLock(c, s, p), LockStep(s, Produce(p), locked))
  {
    hide Tickets, Texts, Books, Overflows, Stints, Locks, Popped, Drawn, Handed, Filled;
    ProducerFacts(c, s, p);
    var n, i, k := c.Capacity(), s.producers[p].slot, s.producers[p].ticket;
    var pc := TryLock(c, s, p).producers[p];
    HandedSize(n, locked, s.log.acquired, s.log.since, s.log.deliveries, s.consumer);
    DrawnTake(n, |s.log.owner|, s.log.acquired, s.producers, p, pc, i);
    HandedTake(n, locked, s.log.acquired, s.log.since, s.log.deliveries, s.consumer, i, Stint(k, ""));
    FilledTake(s.hasData, s.log.since, s.busy, s.log.holder, s.producers, s.log.deliveries, s.consumer, p, pc, Stint(k, ""));
  }

  lemma HandedSize(n: nat, locked: seq<seq<nat>>, acquired: seq<nat>, since: seq<seq<Stint>>, ds: seq<Delivery>,
                   consumer: ConsumerPc)
    requires n > 0 && Handed(n, locked, acquired, since, ds, consumer)
    ensures |locked| == n
  {
  }

  lemma MoveAccounts(c: Config, s: State, p: nat, locked: seq<seq<nat>>)
    requires Inv(c, s) && Accounts(c, s, locked) && p < |s.producers| && StepProducer(c, s, p).Some?
    requires !s.producers[p].Idle? && (s.producers[p].Spin? ==> s.busy[s.producers[p].slot])
    ensures Accounts(c, StepProducer(c, s, p).value, locked)
  {
    hide Tickets, Texts, Books, Overflows, Stints, Locks, Popped, Drawn, Handed, Filled;
    ProducerFacts(c, s, p);
    var pc := StepProducer(c, s, p).value.producers[p];
    DrawnMove(c.Capacity(), |s.log.owner|, s.log.acquired, s.producers, p, pc);
    if s.producers[p].TestAndSet? {
      var i := pc.slot;
      assert s.hasData[i] ==> s.hasData[i := true] == s.hasData;
      FilledMark(s.hasData, s.log.since, s.busy, s.log.holder, s.producers, s.log.deliveries, s.consumer, p, pc);
    } else {
      FilledMove(s.hasData, s.log.since, s.busy, s.log.holder, s.producers, s.log.deliveries, s.consumer, p, pc);
    }
  }

  lemma OwnerAccounts(c: Config, s: State, p: nat, chunk: string, locked: seq<seq<nat>>)
    requires Inv(c, s) && Accounts(c, s, locked) && p < |s.producers| && s.producers[p].Filling?
    ensures Accounts(c, Append(c, s, p, chunk), locked) && Accounts(c, Release(c, s, p), locked)
  {
    hide Tickets, Texts, Books, Overflows, Stints, Locks, Popped, Drawn, Handed, Filled;
    ProducerFacts(c, s, p);
    var n, i := c.Capacity(), s.producers[p].slot;
    var stints, stints' := s.log.since[i], Append(c, s, p, chunk).log.since[i];
    assert TicketsIn(stints') == TicketsIn(stints);
    HandedAppend(n, locked, s.log.acquired, s.log.since, s.log.deliveries, s.consumer, i, stints');
    FilledAppend(s.hasData, s.log.since, s.log.holder, s.producers, s.log.deliveries, s.consumer, i, stints');
    DrawnMove(n, |s.log.owner|, s.log.acquired, s.producers, p, Idle);
    FilledDrop(s.hasData, s.log.since, s.busy, s.log.holder, s.producers, s.log.deliveries, s.consumer, p);
  }

  // The consumer's steps outside the taking of a message.
  lemma IdleAccounts(c: Config, s: State, after: ConsumerPc, locked: seq<seq<nat>>)
    requires Accounts(c, s, locked) && c.Valid() && !s.consumer.Taking() && !after.Taking()
    ensures Accounts(c, s.(consumer := after), locked)
  {
    hide Popped, Drawn, Handed, Filled;
    var n, ds := c.Capacity(), s.log.deliveries;
    PoppedMove(n, s.tail, |ds|, s.log.popped, s.consumer, after);
    HandedMove(n, locked, s.log.acquired, s.log.since, ds, s.consumer, after);
    FilledConsumer(s.hasData, s.log.since, s.log.holder, s.producers, ds, s.consumer, after);
  }

  lemma HolderAccounts(c: Config, s: State, i: nat, h: Holder, locked: seq<seq<nat>>)
    requires Accounts(c, s, locked) && c.Valid() && !s.consumer.Taking()
    requires i < |s.log.holder| && !s.log.holder[i].ByProducer? && !h.ByProducer?
    ensures Accounts(c, s.(log := s.log.(holder := s.log.holder[i := h])), locked)
  {
    hide Popped, Drawn, Handed;
  }

  lemma CopyAccounts(c: Config, s: State, locked: seq<seq<nat>>)
    requires Inv(c, s) && Accounts(c, s, locked) && s.consumer.Copy?
    ensures Accounts(c, TakeCopy(c, s), locked)
  {
    hide Tickets, Texts, Overflows, Stints, Locks, Popped, Drawn, Handed, Filled;
    var n, i, ds := c.Capacity(), s.consumer.slot, s.log.deliveries;
    AndMask(s.tail + 1, c.logCapacity);
    PoppedTail(n, s.tail, |ds|, s.log.popped, s.consumer);
    PoppedCopy(n, s.tail, |ds|, s.log.popped, i);
    HandedCopy(n, locked, s.log.acquired, s.log.since, ds, i, UpToNul(s.elements[i]));
    FilledCopy(s.hasData, s.log.since, s.log.holder, s.producers, ds, i, UpToNul(s.elements[i]));
  }

  lemma PoppedTail(n: nat, tail: nat, count: nat, popped: seq<nat>, consumer: ConsumerPc)
    requires n > 0 && Popped(n, tail, count, popped, consumer)
    ensures tail == SlotOf(count, n) && |popped| == n
  {
  }

  lemma TakingAccounts(c: Config, s: State, locked: seq<seq<nat>>)
    requires Inv(c, s) && Accounts(c, s, locked) && s.consumer.Taking() && StepConsumer(c, s).Some?
    ensures Accounts(c, StepConsumer(c, s).value, locked)
  {
    hide Tickets, Texts, Books, Overflows, Stints, Locks, Popped, Drawn, Handed, Filled;
    var n, i, ds := c.Capacity(), s.consumer.slot, s.log.deliveries;
    if s.consumer.Recycle? {
      PoppedMove(n, s.tail, |ds|, s.log.popped, s.consumer, ClearData(i));
      HandedRecycle(n, locked, s.log.acquired, s.log.since, ds, i);
      FilledRecycle(s.hasData, s.log.since, s.log.holder, s.producers, ds, i);
    } else {
      PoppedTail(n, s.tail, |ds|, s.log.popped, s.consumer);
      PoppedClear(n, s.tail, |ds|, s.log.popped, i);
      HandedMove(n, locked, s.log.acquired, s.log.since, ds, s.consumer, Unlock(i));
      FilledClear(s.hasData, s.log.since, s.log.holder, s.producers, ds, i);
    }
  }

  lemma ConsumerAccounts(c: Config, s: State, locked: seq<seq<nat>>)
    requires Inv(c, s) && Accounts(c, s, locked) && StepConsumer(c, s).Some?
    ensures Accounts(c, StepConsumer(c, s).value, locked)
  {
    hide Tickets, Texts, Books, Overflows, Stints, Popped, Drawn, Handed, Filled;
    if s.consumer.Taking() {
      TakingAccounts(c, s, locked);
    } else if s.consumer.Copy? {
      CopyAccounts(c, s, locked);
    } else {
      var s1 := s;
      if s.consumer.PopSpin? && !s.busy[s.consumer.slot] {
        HolderAccounts(c, s, s.consumer.slot, ByConsumer, locked);
        s1 := s.(log := s.log.(holder := s.log.holder[s.consumer.slot := ByConsumer]));
      } else if s.consumer.Unlock? {
        HolderAccounts(c, s, s.consumer.slot, Free, locked);
        s1 := s.(log := s.log.(holder := s.log.holder[s.consumer.slot := Free]));
      }
      IdleAccounts(c, s1, StepConsumer(c, s).value.consumer, locked);
    }
  }

  lemma StepAccounts(c: Config, s: State, a: Action, locked: seq<seq<nat>>)
    requires Inv(c, s) && Accounts(c, s, locked) && Next(c, s, a).Some?
    ensures Accounts(c, Next(c, s, a).value, LockStep(s, a, locked))
  {
    hide Tickets, Texts, Books, Overflows, Stints, Locks, Popped, Drawn, Handed, Filled;
    match a {
      case Produce(p) =>
        if s.producers[p].Idle? {
          IssueAccounts(c, s, p, locked);
        } else if s.producers[p].Spin? && !s.busy[s.producers[p].slot] {
          LockAccounts(c, s, p, locked);
        } else {
          MoveAccounts(c, s, p, locked);
        }
      case Fill(p, chunk) => OwnerAccounts(c, s, p, chunk, locked);
      case Commit(p) => OwnerAccounts(c, s, p, "", locked);
      case StartReset => IdleAccounts(c, s, Resetting(s.resettable), locked);
      case StartPop => IdleAccounts(c, s, TestFirst(c, s).consumer, locked);
      case Consume => ConsumerAccounts(c, s, locked);
    }
  }

  // The accounts hold at every point of every run.
  lemma {:induction false} RunAccounts(c: Config, actions: seq<Action>, states: seq<State>, m: nat)
    requires IsRun(c, actions, states) && m <= |actions|
    ensures Accounts(c, states[m], LockOrder(c.Capacity(), actions, states, m))
    decreases m
  {
    hide Inv, Accounts, Next, LockStep, Shape;
    if m == 0 {
      InitAccounts(c);
    } else {
      RunAccounts(c, actions, states, m - 1);
      RunInv(c, actions, states, m - 1);
      StepAccounts(c, states[m - 1], actions[m - 1], LockOrder(c.Capacity(), actions, states, m - 1));
    }
  }
}
