// The ring buffer's invariant holds in every reachable state, and what it says there.
module RingSteps {
  import opened Basics
  import opened Words
  import opened Sums
  import opened RingProtocol
  import opened RingInvariant

  ghost predicate Inv(c: Config, s: State) {
    && c.Valid() && Shape(c, s)
    && Locks(s.busy, s.log.holder, s.producers, s.consumer)
    && Tickets(c.Capacity(), s.head, s.log.owner, s.producers)
    && Books(s.tail, s.hasData, s.log.holder, s.log.acquired, s.log.popped, s.log.overrun, s.producers, s.consumer)
    && Overflows(s.overflow, s.resettable, s.log.returned, s.log.lost, Total(s.log.overrun), s.producers, s.consumer)
    && Texts(c.messageCapacity, s.elements, s.log.since, s.log.deliveries)
    && Stints(s.log.since, s.producers)
  }

  lemma InitInv(c: Config)
    requires c.Valid()
    ensures Inv(c, Init(c))
  {
    var s := Init(c);
    TallyNone(s.producers, Masking);
    TallyNone(s.producers, BeforeCount);
    TallyNone(s.producers, BetweenCounts);
    TotalZeros(s.log.overrun);
  }

  lemma ShapeIssue(c: Config, s: State, p: nat)
    requires c.Valid() && Shape(c, s) && p < |s.producers| && s.producers[p].Idle?
    ensures Shape(c, IssueTicket(c, s, p))
  {
  }

  lemma IssueKept(c: Config, s: State, p: nat)
    requires Inv(c, s) && p < |s.producers| && s.producers[p].Idle?
    ensures Inv(c, IssueTicket(c, s, p))
  {
    hide Locks, Tickets, Books, Texts, Shape, Stints, Overflows;
    ShapeIssue(c, s, p);
    var pc := IssueTicket(c, s, p).producers[p];
    Pow2Divides(c.logCapacity, c.headBits);
    if s.head < c.Capacity() { ModOf(s.head, c.Capacity(), 0, s.head); }
    LocksMove(s.busy, s.log.holder, s.producers, s.consumer, p, pc);
    TicketsIssue(c.Capacity(), Pow2(c.headBits - c.logCapacity), s.head, s.log.owner, s.producers, p, pc);
    BooksMove(s.tail, s.hasData, s.log.holder, s.log.acquired, s.log.popped, s.log.overrun, s.producers, s.consumer, p, pc);
    CountersIssue(s.overflow, s.resettable, s.log.returned, s.log.lost, Total(s.log.overrun), s.producers, s.consumer, p, pc);
    StintsMove(s.log.since, s.producers, p, pc);
  }

  lemma CountersIssue(overflow: nat, resettable: nat, returned: nat, lost: nat, overruns: nat, ps: seq<ProducerPc>,
                      consumer: ConsumerPc, p: nat, pc: ProducerPc)
    requires Overflows(overflow, resettable, returned, lost, overruns, ps, consumer) && p < |ps| && ps[p].Idle?
    requires !pc.IncOverflow? && !pc.IncResettable?
    ensures Overflows(overflow, resettable, returned, lost, overruns, ps[p := pc], consumer)
  {
    OverflowsStep(ps, p, pc);
  }

  lemma StintsMove(since: seq<seq<Stint>>, ps: seq<ProducerPc>, p: nat, pc: ProducerPc)
    requires Stints(since, ps) && p < |ps|
    requires pc.Holding() ==> ps[p].Holding() && pc.slot == ps[p].slot && pc.ticket == ps[p].ticket
    ensures Stints(since, ps[p := pc])
  {
  }

  lemma LoadKept(c: Config, s: State, p: nat)
    requires Inv(c, s) && p < |s.producers| && s.producers[p].MaskLoad?
    ensures Inv(c, LoadForMask(s, p))
  {
    hide Locks, Tickets, Books, Texts;
    var pc := LoadForMask(s, p).producers[p];
    LocksMove(s.busy, s.log.holder, s.producers, s.consumer, p, pc);
    TicketsMove(c.Capacity(), s.head, s.log.owner, s.producers, p, pc);
    BooksMove(s.tail, s.hasData, s.log.holder, s.log.acquired, s.log.popped, s.log.overrun, s.producers, s.consumer, p, pc);
    OverflowsStep(s.producers, p, pc);
  }

  lemma ExchangeKept(c: Config, s: State, p: nat)
    requires Inv(c, s) && p < |s.producers| && s.producers[p].MaskCas?
    ensures Inv(c, ExchangeMask(c, s, p))
  {
    hide Locks, Tickets, Books, Texts;
    var pc := ExchangeMask(c, s, p).producers[p];
    AndMask(s.head, c.logCapacity);
    AndMask(s.producers[p].reserved, c.logCapacity);
    LocksMove(s.busy, s.log.holder, s.producers, s.consumer, p, pc);
    if s.head == s.producers[p].seen {
      TicketsMask(c.Capacity(), s.head, s.log.owner, s.producers, p);
    } else {
      TicketsMove(c.Capacity(), s.head, s.log.owner, s.producers, p, pc);
    }
    BooksMove(s.tail, s.hasData, s.log.holder, s.log.acquired, s.log.popped, s.log.overrun, s.producers, s.consumer, p, pc);
    OverflowsStep(s.producers, p, pc);
  }

  lemma TryLockKept(c: Config, s: State, p: nat)
    requires Inv(c, s) && p < |s.producers| && s.producers[p].Spin?
    ensures Inv(c, TryLock(c, s, p))
  {
    hide Locks, Tickets, Books, Texts;
    var i := s.producers[p].slot;
    var pc := TryLock(c, s, p).producers[p];
    TicketsMove(c.Capacity(), s.head, s.log.owner, s.producers, p, pc);
    OverflowsStep(s.producers, p, pc);
    if s.busy[i] {
      LocksMove(s.busy, s.log.holder, s.producers, s.consumer, p, pc);
      BooksMove(s.tail, s.hasData, s.log.holder, s.log.acquired, s.log.popped, s.log.overrun, s.producers, s.consumer, p, pc);
    } else {
      LocksTake(s.busy, s.log.holder, s.producers, s.consumer, p, pc);
      BooksTake(s.tail, s.hasData, s.busy, s.log.holder, s.log.acquired, s.log.popped, s.log.overrun, s.producers,
                s.consumer, p, pc);
      StintsTake(s.busy, s.log.holder, s.log.since, s.producers, s.consumer, p, pc);
      TextsJoin(c.messageCapacity, s.elements, s.log.since, s.log.deliveries, i, pc.ticket);
    }
  }

  lemma CountWaitKept(c: Config, s: State, p: nat)
    requires Inv(c, s) && p < |s.producers| && s.producers[p].CountWait?
    ensures Inv(c, CountProducerWait(s, p))
  {
    hide Locks, Tickets, Books, Texts;
    var pc := CountProducerWait(s, p).producers[p];
    LocksMove(s.busy, s.log.holder, s.producers, s.consumer, p, pc);
    TicketsMove(c.Capacity(), s.head, s.log.owner, s.producers, p, pc);
    BooksMove(s.tail, s.hasData, s.log.holder, s.log.acquired, s.log.popped, s.log.overrun, s.producers, s.consumer, p, pc);
    OverflowsStep(s.producers, p, pc);
  }

  lemma MarkKept(c: Config, s: State, p: nat)
    requires Inv(c, s) && p < |s.producers| && s.producers[p].TestAndSet?
    ensures Inv(c, MarkData(c, s, p))
  {
    hide Locks, Tickets, Books, Texts, Stints;
    var i := s.producers[p].slot;
    var pc := MarkData(c, s, p).producers[p];
    StintsMove(s.log.since, s.producers, p, pc);
    LocksMove(s.busy, s.log.holder, s.producers, s.consumer, p, pc);
    TicketsMove(c.Capacity(), s.head, s.log.owner, s.producers, p, pc);
    BooksMark(s.tail, s.hasData, s.busy, s.log.holder, s.log.acquired, s.log.popped, s.log.overrun, s.producers,
              s.consumer, p, pc);
    OverflowsStep(s.producers, p, pc);
    TotalUpdate(s.log.overrun, i, s.log.overrun[i] + 1);
  }

  lemma CountOverflowKept(c: Config, s: State, p: nat)
    requires Inv(c, s) && p < |s.producers| && s.producers[p].IncOverflow?
    ensures Inv(c, CountOverflow(s, p))
  {
    hide Locks, Tickets, Books, Texts;
    var pc := CountOverflow(s, p).producers[p];
    LocksMove(s.busy, s.log.holder, s.producers, s.consumer, p, pc);
    TicketsMove(c.Capacity(), s.head, s.log.owner, s.producers, p, pc);
    BooksMove(s.tail, s.hasData, s.log.holder, s.log.acquired, s.log.popped, s.log.overrun, s.producers, s.consumer, p, pc);
    OverflowsStep(s.producers, p, pc);
  }

  lemma CountResettableKept(c: Config, s: State, p: nat)
    requires Inv(c, s) && p < |s.producers| && s.producers[p].IncResettable?
    ensures Inv(c, CountResettable(s, p))
  {
    hide Locks, Tickets, Books, Texts;
    var pc := CountResettable(s, p).producers[p];
    LocksMove(s.busy, s.log.holder, s.producers, s.consumer, p, pc);
    TicketsMove(c.Capacity(), s.head, s.log.owner, s.producers, p, pc);
    BooksMove(s.tail, s.hasData, s.log.holder, s.log.acquired, s.log.popped, s.log.overrun, s.producers, s.consumer, p, pc);
    OverflowsStep(s.producers, p, pc);
  }

  lemma AppendKept(c: Config, s: State, p: nat, chunk: string)
    requires Inv(c, s) && p < |s.producers| && s.producers[p].Filling?
    ensures Inv(c, Append(c, s, p, chunk))
  {
    hide Locks, Tickets, Books, Texts;
    var i := s.producers[p].slot;
    StintsAppend(s.busy, s.log.holder, s.log.since, s.producers, s.consumer, p, Append(c, s, p, chunk).log.since[i]);
    TextsAppend(c.messageCapacity, s.elements, s.log.since, s.log.deliveries, i, chunk);
  }

  lemma ReleaseKept(c: Config, s: State, p: nat)
    requires Inv(c, s) && p < |s.producers| && s.producers[p].Filling?
    ensures Inv(c, Release(c, s, p))
  {
    hide Locks, Tickets, Books, Texts;
    LocksDrop(s.busy, s.log.holder, s.producers, s.consumer, p);
    TicketsMove(c.Capacity(), s.head, s.log.owner, s.producers, p, Idle);
    BooksDrop(s.tail, s.hasData, s.busy, s.log.holder, s.log.acquired, s.log.popped, s.log.overrun, s.producers,
              s.consumer, p);
    OverflowsStep(s.producers, p, Idle);
  }

  lemma StartKept(c: Config, s: State)
    requires Inv(c, s) && s.consumer.Ready?
    ensures Inv(c, TestFirst(c, s)) && Inv(c, s.(consumer := Resetting(s.resettable)))
  {
    hide Tickets, Texts, Locks, Books;
    var r := Resetting(s.resettable);
    LocksConsumer(s.busy, s.log.holder, s.producers, s.consumer, r);
    BooksReady(s.tail, s.hasData, s.log.holder, s.log.acquired, s.log.popped, s.log.overrun, s.producers, s.consumer, r);
    if s.hasData[s.tail] {
      var q := PopSpin(s.tail, false);
      LocksConsumer(s.busy, s.log.holder, s.producers, s.consumer, q);
      BooksReady(s.tail, s.hasData, s.log.holder, s.log.acquired, s.log.popped, s.log.overrun, s.producers, s.consumer, q);
    }
  }

  lemma ResetKept(c: Config, s: State)
    requires Inv(c, s) && s.consumer.Resetting?
    ensures Inv(c, StepConsumer(c, s).value)
  {
    hide Tickets, Texts, Locks, Books;
    LocksConsumer(s.busy, s.log.holder, s.producers, s.consumer, Ready);
    BooksReady(s.tail, s.hasData, s.log.holder, s.log.acquired, s.log.popped, s.log.overrun, s.producers, s.consumer, Ready);
  }

  lemma PopLockKept(c: Config, s: State)
    requires Inv(c, s) && s.consumer.PopSpin?
    ensures Inv(c, LockForPop(c, s))
  {
    hide Tickets, Texts, Locks, Books;
    var i := s.consumer.slot;
    var q := LockForPop(c, s).consumer;
    LocksConsumer(s.busy, s.log.holder, s.producers, s.consumer, q);
    BooksConsumer(s.tail, s.hasData, s.busy, s.log.holder, s.log.acquired, s.log.popped, s.log.overrun, s.producers,
                  s.consumer, q);
  }

  lemma PopHoldKept(c: Config, s: State)
    requires Inv(c, s) && (s.consumer.PopCountWait? || s.consumer.Retest?)
    ensures Inv(c, StepConsumer(c, s).value)
    ensures s.consumer.Retest? ==> StepConsumer(c, s).value.consumer.Copy?
  {
    hide Tickets, Texts, Locks, Books;
    CommittedHasData(s.tail, s.hasData, s.log.holder, s.log.acquired, s.log.popped, s.log.overrun, s.producers, s.consumer);
    var q := StepConsumer(c, s).value.consumer;
    LocksConsumer(s.busy, s.log.holder, s.producers, s.consumer, q);
    BooksConsumer(s.tail, s.hasData, s.busy, s.log.holder, s.log.acquired, s.log.popped, s.log.overrun, s.producers,
                  s.consumer, q);
  }

  lemma TakeCopyKept(c: Config, s: State)
    requires Inv(c, s) && s.consumer.Copy?
    ensures Inv(c, TakeCopy(c, s))
  {
    hide Tickets, Locks, Books, Texts, Overflows, Stints;
    var i := s.consumer.slot;
    TextsCopied(c.messageCapacity, s.elements, s.log.since, s.log.deliveries, i);
    ReadyCounters(s.overflow, s.resettable, s.log.returned, s.log.lost, Total(s.log.overrun), s.producers, s.consumer, i);
    AndMask(s.tail + 1, c.logCapacity);
    LocksConsumer(s.busy, s.log.holder, s.producers, s.consumer, Recycle(i));
    BooksTaken(s.tail, s.hasData, s.log.holder, s.log.acquired, s.log.popped, s.log.overrun, s.producers, s.consumer,
               Recycle(i), TakeCopy(c, s).tail);
  }

  lemma TextsCopied(size: nat, elements: seq<string>, since: seq<seq<Stint>>, deliveries: seq<Delivery>, i: nat)
    requires Texts(size, elements, since, deliveries) && i < |since|
    ensures i < |elements| && Texts(size, elements, since, deliveries + [Delivery(UpToNul(elements[i]), since[i])])
  {
    hide Joined, Clip, UpToNul;
  }

  lemma ReadyCounters(overflow: nat, resettable: nat, returned: nat, lost: nat, overruns: nat, ps: seq<ProducerPc>,
                      consumer: ConsumerPc, i: nat)
    requires Overflows(overflow, resettable, returned, lost, overruns, ps, consumer)
    ensures Overflows(overflow, resettable, returned, lost, overruns, ps, Recycle(i))
  {
  }

  lemma RecycleKept(c: Config, s: State)
    requires Inv(c, s) && s.consumer.Recycle?
    ensures Inv(c, StepConsumer(c, s).value)
  {
    hide Tickets, Locks, Books;
    var i := s.consumer.slot;
    LocksConsumer(s.busy, s.log.holder, s.producers, s.consumer, ClearData(i));
    BooksTaken(s.tail, s.hasData, s.log.holder, s.log.acquired, s.log.popped, s.log.overrun, s.producers, s.consumer,
               ClearData(i), s.tail);
    StintsRecycle(s.busy, s.log.holder, s.log.since, s.producers, s.consumer);
    ShapeRecycle(c, s);
  }

  lemma ShapeRecycle(c: Config, s: State)
    requires Inv(c, s) && s.consumer.Recycle?
    ensures Shape(c, StepConsumer(c, s).value)
  {
    hide Tickets, Books, Overflows, Texts;
  }

  lemma ClearKept(c: Config, s: State)
    requires Inv(c, s) && s.consumer.ClearData?
    ensures Inv(c, StepConsumer(c, s).value)
  {
    hide Tickets, Texts, Locks, Books;
    LocksConsumer(s.busy, s.log.holder, s.producers, s.consumer, Unlock(s.consumer.slot));
    BooksClear(s.tail, s.hasData, s.busy, s.log.holder, s.log.acquired, s.log.popped, s.log.overrun, s.producers, s.consumer);
  }

  lemma UnlockKept(c: Config, s: State)
    requires Inv(c, s) && s.consumer.Unlock?
    ensures Inv(c, StepConsumer(c, s).value)
  {
    hide Tickets, Texts, Locks, Books;
    LocksConsumer(s.busy, s.log.holder, s.producers, s.consumer, Ready);
    BooksUnlock(s.tail, s.hasData, s.busy, s.log.holder, s.log.acquired, s.log.popped, s.log.overrun, s.producers,
                s.consumer);
  }

  // Every step of every thread keeps the invariant.
  lemma StepKept(c: Config, s: State, a: Action)
    requires Inv(c, s) && Next(c, s, a).Some?
    ensures Inv(c, Next(c, s, a).value)
  {
    hide Tickets, Texts, Locks, Books, Overflows, Stints;
    match a {
      case Produce(p) => ProducerKept(c, s, p);
      case Fill(p, chunk) => AppendKept(c, s, p, chunk);
      case Commit(p) => ReleaseKept(c, s, p);
      case StartReset => StartKept(c, s);
      case StartPop => StartKept(c, s);
      case Consume => ConsumerKept(c, s);
    }
  }

  lemma ProducerKept(c: Config, s: State, p: nat)
    requires Inv(c, s) && p < |s.producers| && StepProducer(c, s, p).Some?
    ensures Inv(c, StepProducer(c, s, p).value)
  {
    hide Tickets, Texts, Locks, Books, Overflows, Stints;
    match s.producers[p] {
      case Idle => IssueKept(c, s, p);
      case MaskLoad(_, _) => LoadKept(c, s, p);
      case MaskCas(_, _, _) => ExchangeKept(c, s, p);
      case Spin(_, _, _) => TryLockKept(c, s, p);
      case CountWait(_, _) => CountWaitKept(c, s, p);
      case TestAndSet(_, _) => MarkKept(c, s, p);
      case IncOverflow(_, _) => CountOverflowKept(c, s, p);
      case IncResettable(_, _) => CountResettableKept(c, s, p);
    }
  }

  lemma ConsumerKept(c: Config, s: State)
    requires Inv(c, s) && StepConsumer(c, s).Some?
    ensures Inv(c, StepConsumer(c, s).value)
  {
    hide Tickets, Texts, Locks, Books, Overflows, Stints;
    match s.consumer {
      case Resetting(_) => ResetKept(c, s);
      case PopSpin(_, _) => PopLockKept(c, s);
      case PopCountWait(_) => PopHoldKept(c, s);
      case Retest(_) => PopHoldKept(c, s);
      case Copy(_) => TakeCopyKept(c, s);
      case Recycle(_) => RecycleKept(c, s);
      case ClearData(_) => ClearKept(c, s);
      case Unlock(_) => UnlockKept(c, s);
    }
  }
}
