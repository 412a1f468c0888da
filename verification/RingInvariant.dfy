// What every step of the ring buffer keeps. Each part of the invariant speaks of a few
// components of the state only; RingSteps puts the parts together.
module RingInvariant {
  import opened Basics
  import opened Words
  import opened Sums
  import opened RingProtocol

  predicate Masking(pc: ProducerPc) { pc.Masking() }
  predicate BeforeCount(pc: ProducerPc) { pc.IncOverflow? }
  predicate BetweenCounts(pc: ProducerPc) { pc.IncResettable? }

  // The text a slot should hold: everything its reservations wrote since the slot was
  // last recycled. Overrun reservations add to the old text, they do not replace it.
  function Joined(stints: seq<Stint>): string {
    if stints == [] then "" else Joined(stints[..|stints| - 1]) + stints[|stints| - 1].text
  }

  // A lock has exactly one holder, and it is a thread inside its critical section.
  ghost predicate Locks(busy: seq<bool>, holder: seq<Holder>, producers: seq<ProducerPc>, consumer: ConsumerPc) {
    && |busy| == |holder|
    && (forall i | 0 <= i < |busy| :: busy[i] <==> holder[i] != Free)
    && (forall p | 0 <= p < |producers| :: producers[p].Holding() ==>
          producers[p].slot < |holder| && holder[producers[p].slot] == ByProducer(p))
    && (forall i | 0 <= i < |holder| :: holder[i].ByProducer? ==>
          var p := holder[i].p;
          p < |producers| && producers[p].Holding() && producers[p].slot == i)
    && (consumer.Holding() ==> consumer.slot < |holder| && holder[consumer.slot] == ByConsumer)
    && (forall i | 0 <= i < |holder| :: holder[i] == ByConsumer ==> consumer.Holding() && consumer.slot == i)
  }

  // head counts tickets modulo the capacity n, and every ticket goes to its own slot.
  ghost predicate Tickets(n: nat, head: nat, owner: seq<nat>, producers: seq<ProducerPc>)
    requires n > 0
  {
    && head % n == |owner| % n
    && head <= n + Tally(producers, Masking)
    && (forall p | 0 <= p < |producers| && !producers[p].Idle? ::
          var pc := producers[p];
          && pc.ticket < |owner| && owner[pc.ticket] == p
          && (if pc.Masking() then pc.reserved >= n && pc.reserved % n == pc.ticket % n
              else pc.slot == pc.ticket % n))
  }

  // 1 while a producer holds the slot but has not yet set its flag.
  ghost function ArrivingAt(holder: Holder, producers: seq<ProducerPc>): nat {
    if holder.ByProducer? && holder.p < |producers| && producers[holder.p].Arriving() then 1 else 0
  }

  // The per-slot books, with the reservation in flight accounted for; and has_data is
  // set for every holder past its test-and-set and for a pop past its first test.
  ghost predicate Books(tail: nat, hasData: seq<bool>, holder: seq<Holder>, acquired: seq<nat>, popped: seq<nat>,
                        overrun: seq<nat>, producers: seq<ProducerPc>, consumer: ConsumerPc)
  {
    && |hasData| == |holder| == |acquired| == |popped| == |overrun|
    && (forall i | 0 <= i < |holder| ::
          acquired[i] == popped[i] + overrun[i] + (if hasData[i] then 1 else 0) + ArrivingAt(holder[i], producers))
    && (forall p | 0 <= p < |producers| :: producers[p].Holding() && !producers[p].Arriving() ==>
          producers[p].slot < |hasData| && hasData[producers[p].slot])
    && (consumer.Committed() ==> consumer.slot < |hasData| && hasData[consumer.slot])
    && (consumer.Committed() && !consumer.Taking() ==> consumer.slot == tail)
  }

  // Every overrun is in the total counter or about to be; what the consumer collected,
  // what it has yet to collect and what was wiped out make up the resettable count.
  ghost predicate Overflows(overflow: nat, resettable: nat, returned: nat, lost: nat, overruns: nat,
                            producers: seq<ProducerPc>, consumer: ConsumerPc)
  {
    overruns < COUNTER_MODULUS ==>
      && overflow + Tally(producers, BeforeCount) == overruns
      && returned + resettable + lost + Tally(producers, BetweenCounts) == overflow
      && (consumer.Resetting? ==> consumer.loaded <= resettable)
  }

  // Each slot holds exactly what was written to it since it was recycled, and so did
  // every message the consumer got.
  ghost predicate Texts(size: nat, elements: seq<string>, since: seq<seq<Stint>>, deliveries: seq<Delivery>) {
    && |elements| == |since|
    && (forall i | 0 <= i < |elements| :: elements[i] == Clip(Joined(since[i]), size))
    && (forall k | 0 <= k < |deliveries| ::
          deliveries[k].message == UpToNul(Clip(Joined(deliveries[k].stints), size)))
  }

  // A reservation that has set or seen the flag has a stint on record.
  ghost predicate Stints(since: seq<seq<Stint>>, producers: seq<ProducerPc>) {
    forall p | 0 <= p < |producers| && producers[p].Holding() ::
      var pc := producers[p];
      pc.slot < |since| && since[pc.slot] != [] && since[pc.slot][|since[pc.slot]| - 1].ticket == pc.ticket
  }

  // --- Locks ---

  lemma LocksMove(busy: seq<bool>, holder: seq<Holder>, ps: seq<ProducerPc>, consumer: ConsumerPc, p: nat, pc: ProducerPc)
    requires Locks(busy, holder, ps, consumer) && p < |ps|
    requires ps[p].Holding() == pc.Holding() && (pc.Holding() ==> pc.slot == ps[p].slot)
    ensures Locks(busy, holder, ps[p := pc], consumer)
  {
  }

  lemma LocksTake(busy: seq<bool>, holder: seq<Holder>, ps: seq<ProducerPc>, consumer: ConsumerPc, p: nat, pc: ProducerPc)
    requires Locks(busy, holder, ps, consumer) && p < |ps|
    requires !ps[p].Holding() && pc.Holding() && pc.slot < |busy| && !busy[pc.slot]
    ensures Locks(busy[pc.slot := true], holder[pc.slot := ByProducer(p)], ps[p := pc], consumer)
  {
  }

  lemma LocksDrop(busy: seq<bool>, holder: seq<Holder>, ps: seq<ProducerPc>, consumer: ConsumerPc, p: nat)
    requires Locks(busy, holder, ps, consumer) && p < |ps| && ps[p].Holding()
    ensures Locks(busy[ps[p].slot := false], holder[ps[p].slot := Free], ps[p := Idle], consumer)
  {
  }

  lemma LocksConsumer(busy: seq<bool>, holder: seq<Holder>, ps: seq<ProducerPc>, before: ConsumerPc, after: ConsumerPc)
    requires Locks(busy, holder, ps, before)
    ensures before.Holding() == after.Holding() && (after.Holding() ==> after.slot == before.slot) ==>
              Locks(busy, holder, ps, after)
    ensures !before.Holding() && after.Holding() && after.slot < |busy| && !busy[after.slot] ==>
              Locks(busy[after.slot := true], holder[after.slot := ByConsumer], ps, after)
    ensures before.Holding() && !after.Holding() ==>
              Locks(busy[before.slot := false], holder[before.slot := Free], ps, after)
  {
    LocksTaken(busy, holder, ps, before, after);
    LocksFreed(busy, holder, ps, before, after);
  }

  lemma LocksTaken(busy: seq<bool>, holder: seq<Holder>, ps: seq<ProducerPc>, before: ConsumerPc, after: ConsumerPc)
    requires Locks(busy, holder, ps, before)
    ensures !before.Holding() && after.Holding() && after.slot < |busy| && !busy[after.slot] ==>
              Locks(busy[after.slot := true], holder[after.slot := ByConsumer], ps, after)
  {
  }

  lemma LocksFreed(busy: seq<bool>, holder: seq<Holder>, ps: seq<ProducerPc>, before: ConsumerPc, after: ConsumerPc)
    requires Locks(busy, holder, ps, before)
    ensures before.Holding() && !after.Holding() ==>
              Locks(busy[before.slot := false], holder[before.slot := Free], ps, after)
  {
  }

  // --- Tickets ---

  lemma TicketsMove(n: nat, head: nat, owner: seq<nat>, ps: seq<ProducerPc>, p: nat, pc: ProducerPc)
    requires n > 0 && Tickets(n, head, owner, ps) && p < |ps|
    requires ps[p].Masking() == pc.Masking()
    requires !pc.Idle? ==> !ps[p].Idle? && pc.ticket == ps[p].ticket
    requires !pc.Idle? ==> if pc.Masking() then pc.reserved == ps[p].reserved else pc.slot == ps[p].slot
    ensures Tickets(n, head, owner, ps[p := pc])
  {
    TallyUpdate(ps, p, pc, Masking);
  }

  // A ticket drawn: head may wrap around the word, which n divides.
  lemma TicketsIssue(n: nat, times: nat, head: nat, owner: seq<nat>, ps: seq<ProducerPc>, p: nat, pc: ProducerPc)
    requires n > 0 && times > 0 && n * times > 0
    requires Tickets(n, head, owner, ps) && p < |ps| && ps[p].Idle?
    requires pc == if head >= n then MaskLoad(|owner|, head) else Spin(|owner|, head, false)
    ensures Tickets(n, (head + 1) % (n * times), owner + [p], ps[p := pc])
  {
    TallyUpdate(ps, p, pc, Masking);
    ModMod(head + 1, n, times);
    ModSucc(head, |owner|, n);
    WrapShrinks(head + 1, n * times);
    if head < n {
      ModOf(head, n, 0, head);
    }
  }

  lemma WrapShrinks(x: nat, m: nat)
    requires m > 0
    ensures x % m <= x
  {
    if x < m {
      ModOf(x, m, 0, x);
    }
  }

  // head masked back into range: the value changes, its residue does not.
  lemma TicketsMask(n: nat, head: nat, owner: seq<nat>, ps: seq<ProducerPc>, p: nat)
    requires n > 0 && Tickets(n, head, owner, ps) && p < |ps| && ps[p].MaskCas?
    ensures Tickets(n, head % n, owner, ps[p := Spin(ps[p].ticket, ps[p].reserved % n, false)])
  {
    TallyUpdate(ps, p, Spin(ps[p].ticket, ps[p].reserved % n, false), Masking);
    ModOf(head % n, n, 0, head % n);
  }

  // --- Books ---

  // Steps of a producer that keep its lock, or its lack of one, and its flag.
  lemma BooksMove(tail: nat, hasData: seq<bool>, holder: seq<Holder>, acquired: seq<nat>, popped: seq<nat>,
                  overrun: seq<nat>, ps: seq<ProducerPc>, consumer: ConsumerPc, p: nat, pc: ProducerPc)
    requires Books(tail, hasData, holder, acquired, popped, overrun, ps, consumer) && p < |ps|
    requires ps[p].Holding() == pc.Holding() && (pc.Holding() ==> pc.slot == ps[p].slot)
    requires ps[p].Arriving() == pc.Arriving()
    ensures Books(tail, hasData, holder, acquired, popped, overrun, ps[p := pc], consumer)
  {
  }

  lemma BooksTake(tail: nat, hasData: seq<bool>, busy: seq<bool>, holder: seq<Holder>, acquired: seq<nat>,
                  popped: seq<nat>, overrun: seq<nat>, ps: seq<ProducerPc>, consumer: ConsumerPc, p: nat, pc: ProducerPc)
    requires Books(tail, hasData, holder, acquired, popped, overrun, ps, consumer) && p < |ps|
    requires Locks(busy, holder, ps, consumer)
    requires !ps[p].Holding() && pc.Arriving() && pc.slot < |busy| && !busy[pc.slot]
    ensures Books(tail, hasData, holder[pc.slot := ByProducer(p)], acquired[pc.slot := acquired[pc.slot] + 1], popped,
                  overrun, ps[p := pc], consumer)
  {
  }

  // test_and_set on has_data: an overrun when it was set already.
  lemma BooksMark(tail: nat, hasData: seq<bool>, busy: seq<bool>, holder: seq<Holder>, acquired: seq<nat>,
                  popped: seq<nat>, overrun: seq<nat>, ps: seq<ProducerPc>, consumer: ConsumerPc, p: nat, pc: ProducerPc)
    requires Books(tail, hasData, holder, acquired, popped, overrun, ps, consumer) && p < |ps|
    requires Locks(busy, holder, ps, consumer)
    requires ps[p].Arriving() && pc.Holding() && !pc.Arriving() && pc.slot == ps[p].slot
    ensures var i := pc.slot;
            if hasData[i] then
              Books(tail, hasData, holder, acquired, popped, overrun[i := overrun[i] + 1], ps[p := pc], consumer)
            else
              Books(tail, hasData[i := true], holder, acquired, popped, overrun, ps[p := pc], consumer)
  {
  }

  lemma BooksDrop(tail: nat, hasData: seq<bool>, busy: seq<bool>, holder: seq<Holder>, acquired: seq<nat>,
                  popped: seq<nat>, overrun: seq<nat>, ps: seq<ProducerPc>, consumer: ConsumerPc, p: nat)
    requires Books(tail, hasData, holder, acquired, popped, overrun, ps, consumer) && p < |ps|
    requires Locks(busy, holder, ps, consumer) && ps[p].Holding() && !ps[p].Arriving()
    ensures Books(tail, hasData, holder[ps[p].slot := Free], acquired, popped, overrun, ps[p := Idle], consumer)
  {
  }

  lemma CommittedHasData(tail: nat, hasData: seq<bool>, holder: seq<Holder>, acquired: seq<nat>, popped: seq<nat>,
                         overrun: seq<nat>, ps: seq<ProducerPc>, consumer: ConsumerPc)
    requires Books(tail, hasData, holder, acquired, popped, overrun, ps, consumer) && consumer.Committed()
    ensures consumer.slot < |hasData| && hasData[consumer.slot]
  {
  }

  // Between pops.
  lemma BooksReady(tail: nat, hasData: seq<bool>, holder: seq<Holder>, acquired: seq<nat>, popped: seq<nat>,
                   overrun: seq<nat>, ps: seq<ProducerPc>, before: ConsumerPc, after: ConsumerPc)
    requires Books(tail, hasData, holder, acquired, popped, overrun, ps, before)
    requires !after.Popping() || (after.PopSpin? && after.slot == tail && tail < |hasData| && hasData[tail])
    ensures Books(tail, hasData, holder, acquired, popped, overrun, ps, after)
  {
  }

  // From the first test of has_data to the copy: the slot is the one at the tail.
  lemma BooksConsumer(tail: nat, hasData: seq<bool>, busy: seq<bool>, holder: seq<Holder>, acquired: seq<nat>,
                      popped: seq<nat>, overrun: seq<nat>, ps: seq<ProducerPc>, before: ConsumerPc, after: ConsumerPc)
    requires Books(tail, hasData, holder, acquired, popped, overrun, ps, before)
    requires Locks(busy, holder, ps, before)
    requires before.Committed() && !before.Taking() && after.Committed() && !after.Taking() && after.slot == before.slot
    ensures Books(tail, hasData, holder, acquired, popped, overrun, ps, after)
    ensures !busy[after.slot] ==>
              Books(tail, hasData, holder[after.slot := ByConsumer], acquired, popped, overrun, ps, after)
  {
  }

  // The copy moves the tail on; recycling follows.
  lemma BooksTaken(tail: nat, hasData: seq<bool>, holder: seq<Holder>, acquired: seq<nat>, popped: seq<nat>,
                   overrun: seq<nat>, ps: seq<ProducerPc>, before: ConsumerPc, after: ConsumerPc, tail': nat)
    requires Books(tail, hasData, holder, acquired, popped, overrun, ps, before)
    requires before.Committed() && after.Taking() && after.slot == before.slot
    ensures Books(tail', hasData, holder, acquired, popped, overrun, ps, after)
  {
  }

  lemma BooksUnlock(tail: nat, hasData: seq<bool>, busy: seq<bool>, holder: seq<Holder>, acquired: seq<nat>,
                    popped: seq<nat>, overrun: seq<nat>, ps: seq<ProducerPc>, consumer: ConsumerPc)
    requires Books(tail, hasData, holder, acquired, popped, overrun, ps, consumer)
    requires Locks(busy, holder, ps, consumer) && consumer.Unlock?
    ensures Books(tail, hasData, holder[consumer.slot := Free], acquired, popped, overrun, ps, Ready)
  {
  }

  lemma BooksClear(tail: nat, hasData: seq<bool>, busy: seq<bool>, holder: seq<Holder>, acquired: seq<nat>,
                   popped: seq<nat>, overrun: seq<nat>, ps: seq<ProducerPc>, consumer: ConsumerPc)
    requires Books(tail, hasData, holder, acquired, popped, overrun, ps, consumer)
    requires Locks(busy, holder, ps, consumer) && consumer.ClearData?
    ensures var i := consumer.slot;
            Books(tail, hasData[i := false], holder, acquired, popped[i := popped[i] + 1], overrun, ps, Unlock(i))
  {
  }

  // --- Overflows ---

  lemma OverflowsStep(ps: seq<ProducerPc>, p: nat, pc: ProducerPc)
    requires p < |ps|
    ensures Tally(ps[p := pc], BeforeCount)
         == Tally(ps, BeforeCount) - (if ps[p].IncOverflow? then 1 else 0) + (if pc.IncOverflow? then 1 else 0)
    ensures Tally(ps[p := pc], BetweenCounts)
         == Tally(ps, BetweenCounts) - (if ps[p].IncResettable? then 1 else 0) + (if pc.IncResettable? then 1 else 0)
  {
    TallyUpdate(ps, p, pc, BeforeCount);
    TallyUpdate(ps, p, pc, BetweenCounts);
  }

  // --- Texts ---

  lemma JoinedSnoc(stints: seq<Stint>, last: Stint)
    ensures Joined(stints + [last]) == Joined(stints) + last.text
  {
    assert (stints + [last])[..|stints|] == stints;
  }

  lemma ClipAppend(text: string, chunk: string, size: nat)
    ensures Clip(Clip(text, size) + chunk, size) == Clip(text + chunk, size)
  {
  }

  // Appending to the last reservation's text.
  lemma TextsAppend(size: nat, elements: seq<string>, since: seq<seq<Stint>>, deliveries: seq<Delivery>, i: nat,
                    chunk: string)
    requires Texts(size, elements, since, deliveries) && i < |since| && since[i] != []
    ensures var last := since[i][|since[i]| - 1];
            Texts(size, elements[i := Clip(elements[i] + chunk, size)],
                  since[i := since[i][..|since[i]| - 1] + [Stint(last.ticket, last.text + chunk)]], deliveries)
  {
    hide Clip, Joined;
    var init, last := since[i][..|since[i]| - 1], since[i][|since[i]| - 1];
    assert since[i] == init + [last];
    JoinedSnoc(init, last);
    JoinedSnoc(init, Stint(last.ticket, last.text + chunk));
    assert Joined(init) + last.text + chunk == Joined(init) + (last.text + chunk);
    ClipAppend(Joined(since[i]), chunk, size);
  }

  // A reservation joins with nothing written yet.
  lemma TextsJoin(size: nat, elements: seq<string>, since: seq<seq<Stint>>, deliveries: seq<Delivery>, i: nat, k: nat)
    requires Texts(size, elements, since, deliveries) && i < |since|
    ensures Texts(size, elements, since[i := since[i] + [Stint(k, "")]], deliveries)
  {
    JoinedSnoc(since[i], Stint(k, ""));
    assert Joined(since[i]) + "" == Joined(since[i]);
  }

  // --- Stints ---

  lemma StintsTake(busy: seq<bool>, holder: seq<Holder>, since: seq<seq<Stint>>, ps: seq<ProducerPc>,
                   consumer: ConsumerPc, p: nat, pc: ProducerPc)
    requires Locks(busy, holder, ps, consumer) && Stints(since, ps) && p < |ps|
    requires pc.Holding() && pc.slot < |busy| == |since| && !busy[pc.slot]
    ensures Stints(since[pc.slot := since[pc.slot] + [Stint(pc.ticket, "")]], ps[p := pc])
  {
  }

  lemma StintsAppend(busy: seq<bool>, holder: seq<Holder>, since: seq<seq<Stint>>, ps: seq<ProducerPc>,
                     consumer: ConsumerPc, p: nat, stints: seq<Stint>)
    requires Locks(busy, holder, ps, consumer) && Stints(since, ps) && p < |ps| && ps[p].Holding()
    requires stints != [] && stints[|stints| - 1].ticket == ps[p].ticket
    ensures Stints(since[ps[p].slot := stints], ps)
  {
  }

  lemma StintsRecycle(busy: seq<bool>, holder: seq<Holder>, since: seq<seq<Stint>>, ps: seq<ProducerPc>,
                      consumer: ConsumerPc)
    requires Locks(busy, holder, ps, consumer) && Stints(since, ps)
    requires consumer.Holding() && consumer.slot < |since|
    ensures Stints(since[consumer.slot := []], ps)
  {
  }
}
