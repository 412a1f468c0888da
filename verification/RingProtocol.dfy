// The multi-producer, single-consumer overrunning ring buffer as an interleaved
// step machine: every shared-memory access of reserve_push, commit_push, pop and
// get_and_reset_overflow_counter is one step of one thread, under sequentially
// consistent atomics. Next is deterministic in (state, action); a run is a sequence of
// such steps from Init, so "in every interleaving" is "for every run".
module RingProtocol {
  import opened Basics
  import opened Words
  import opened Sums

  // The 64-bit statistics counters wrap at this value.
  const COUNTER_MODULUS: nat := 0x1_0000_0000_0000_0000

  // capacity = 2^logCapacity; headBits is the width of the head counter.
  datatype Config = Config(logCapacity: nat, headBits: nat, messageCapacity: nat, producers: nat) {
    predicate Valid() {
      logCapacity <= 31 && (headBits == 32 || headBits == 64)
    }

    function Capacity(): nat { Pow2(logCapacity) }
  }

  // Where a producer is. The ticket is history only: no step looks at it.
  datatype ProducerPc =
    | Idle
    | MaskLoad(ticket: nat, reserved: nat)             // head &= : load
    | MaskCas(ticket: nat, reserved: nat, seen: nat)   // head &= : compare and exchange
    | Spin(ticket: nat, slot: nat, collision: bool)    // lock_element's loop
    | CountWait(ticket: nat, slot: nat)                // lock taken after a collision
    | TestAndSet(ticket: nat, slot: nat)               // lock taken; has_data not looked at yet
    | IncOverflow(ticket: nat, slot: nat)
    | IncResettable(ticket: nat, slot: nat)
    | Filling(ticket: nat, slot: nat)                  // the caller owns the message
  {
    predicate Masking() { MaskLoad? || MaskCas? }

    predicate Holding() {
      CountWait? || TestAndSet? || IncOverflow? || IncResettable? || Filling?
    }

    // Holds the slot's lock but has not yet set its has_data flag.
    predicate Arriving() { CountWait? || TestAndSet? }
  }

  datatype ConsumerPc =
    | Ready
    | Resetting(loaded: nat)                     // between the counter's load and its store of 0
    | PopSpin(slot: nat, collision: bool)
    | PopCountWait(slot: nat)
    | Retest(slot: nat)
    | Copy(slot: nat)
    | Recycle(slot: nat)
    | ClearData(slot: nat)
    | Unlock(slot: nat)
  {
    predicate Holding() {
      PopCountWait? || Retest? || Copy? || Recycle? || ClearData? || Unlock?
    }

    predicate Popping() { PopSpin? || Holding() }

    // The first test of has_data has succeeded and the flag is still to be cleared.
    predicate Committed() { Popping() && !Unlock? }

    // The message has been copied out but the slot is not yet marked empty.
    predicate Taking() { Recycle? || ClearData? }
  }

  // What one reservation wrote to its slot.
  datatype Stint = Stint(ticket: nat, text: string)

  // One successful pop: the message the consumer got, and everything that was
  // written to the slot since it was last recycled, reservation by reservation.
  datatype Delivery = Delivery(message: string, stints: seq<Stint>)

  datatype Holder = Free | ByProducer(p: nat) | ByConsumer

  // History, read by no step of the machine.
  datatype History = History(
    owner: seq<nat>,                // owner[k] drew ticket k, the k-th increment of head
    holder: seq<Holder>,            // who holds each slot's lock
    since: seq<seq<Stint>>,         // reservations of each slot since its last recycling
    acquired: seq<nat>,             // per slot: locks taken by producers
    popped: seq<nat>,               // per slot: has_data cleared by the consumer
    overrun: seq<nat>,              // per slot: has_data found already set by a producer
    deliveries: seq<Delivery>,
    returned: nat,                  // sum of all values get_and_reset_overflow_counter returned
    lost: nat)                      // increments wiped out between its load and its store

  datatype State = State(
    head: nat, tail: nat,
    busy: seq<bool>, hasData: seq<bool>, elements: seq<string>,
    overflow: nat, resettable: nat, producerWaits: nat, consumerWaits: nat,
    producers: seq<ProducerPc>, consumer: ConsumerPc,
    buffer: string,                 // the consumer's own copy
    log: History)

  datatype Action =
    | Produce(p: nat)               // producer p takes its next step (begins reserve_push when idle)
    | Fill(p: nat, chunk: string)   // producer p appends to the message it owns
    | Commit(p: nat)                // commit_push
    | StartReset                    // the consumer begins get_and_reset_overflow_counter
    | StartPop                      // the consumer begins pop: tests has_data[tail]
    | Consume                       // the consumer takes its next step

  function Clip(text: string, size: nat): string { text[..Min(|text|, size)] }

  function Bump(counter: nat): nat { (counter + 1) % COUNTER_MODULUS }

  function Init(c: Config): State {
    var n := c.Capacity();
    State(0, 0, seq(n, _ => false), seq(n, _ => false), seq(n, _ => ""), 0, 0, 0, 0,
          seq(c.producers, _ => Idle), Ready, "",
          History([], seq(n, _ => Free), seq(n, _ => []), seq(n, _ => 0), seq(n, _ => 0),
                  seq(n, _ => 0), [], 0, 0))
  }

  // Sizes and ranges that every step relies on.
  ghost predicate Shape(c: Config, s: State) {
    var n := c.Capacity();
    && |s.busy| == |s.hasData| == |s.elements| == n
    && |s.log.holder| == |s.log.since| == |s.log.acquired| == n
    && |s.log.popped| == |s.log.overrun| == n
    && |s.producers| == c.producers
    && s.tail < n
    && (forall p | 0 <= p < |s.producers| ::
          var pc := s.producers[p];
          && (pc.Spin? || pc.Holding() ==> pc.slot < n)
          && (pc.Holding() ==> s.log.since[pc.slot] != []))
    && (s.consumer.Popping() ==> s.consumer.slot < n)
  }

  // --- reserve_push ---

  function IssueTicket(c: Config, s: State, p: nat): State
    requires p < |s.producers|
  {
    var k := |s.log.owner|;
    s.(head := (s.head + 1) % Pow2(c.headBits),
       producers := s.producers[p := if s.head >= c.Capacity() then MaskLoad(k, s.head) else Spin(k, s.head, false)],
       log := s.log.(owner := s.log.owner + [p]))
  }

  function LoadForMask(s: State, p: nat): State
    requires p < |s.producers| && s.producers[p].MaskLoad?
  {
    var pc := s.producers[p];
    s.(producers := s.producers[p := MaskCas(pc.ticket, pc.reserved, s.head)])
  }

  function ExchangeMask(c: Config, s: State, p: nat): State
    requires p < |s.producers| && s.producers[p].MaskCas?
  {
    var pc := s.producers[p];
    var mask := c.Capacity() - 1;
    if s.head == pc.seen then
      s.(head := And(pc.seen, mask), producers := s.producers[p := Spin(pc.ticket, And(pc.reserved, mask), false)])
    else
      s.(producers := s.producers[p := MaskLoad(pc.ticket, pc.reserved)])
  }

  function TryLock(c: Config, s: State, p: nat): State
    requires Shape(c, s) && p < |s.producers| && s.producers[p].Spin?
  {
    var pc := s.producers[p];
    var i := pc.slot;
    if s.busy[i] then
      s.(producers := s.producers[p := Spin(pc.ticket, i, true)])
    else
      s.(busy := s.busy[i := true],
         producers := s.producers[p := if pc.collision then CountWait(pc.ticket, i) else TestAndSet(pc.ticket, i)],
         log := s.log.(holder := s.log.holder[i := ByProducer(p)],
                       since := s.log.since[i := s.log.since[i] + [Stint(pc.ticket, "")]],
                       acquired := s.log.acquired[i := s.log.acquired[i] + 1]))
  }

  function CountProducerWait(s: State, p: nat): State
    requires p < |s.producers| && s.producers[p].CountWait?
  {
    var pc := s.producers[p];
    s.(producerWaits := Bump(s.producerWaits), producers := s.producers[p := TestAndSet(pc.ticket, pc.slot)])
  }

  function MarkData(c: Config, s: State, p: nat): State
    requires Shape(c, s) && p < |s.producers| && s.producers[p].TestAndSet?
  {
    var pc := s.producers[p];
    var i := pc.slot;
    if s.hasData[i] then
      s.(producers := s.producers[p := IncOverflow(pc.ticket, i)],
         log := s.log.(overrun := s.log.overrun[i := s.log.overrun[i] + 1]))
    else
      s.(hasData := s.hasData[i := true], producers := s.producers[p := Filling(pc.ticket, i)])
  }

  function CountOverflow(s: State, p: nat): State
    requires p < |s.producers| && s.producers[p].IncOverflow?
  {
    var pc := s.producers[p];
    s.(overflow := Bump(s.overflow), producers := s.producers[p := IncResettable(pc.ticket, pc.slot)])
  }

  function CountResettable(s: State, p: nat): State
    requires p < |s.producers| && s.producers[p].IncResettable?
  {
    var pc := s.producers[p];
    s.(resettable := Bump(s.resettable), producers := s.producers[p := Filling(pc.ticket, pc.slot)])
  }

  function StepProducer(c: Config, s: State, p: nat): Option<State>
    requires Shape(c, s) && p < |s.producers|
  {
    match s.producers[p]
    case Idle => Some(IssueTicket(c, s, p))
    case MaskLoad(_, _) => Some(LoadForMask(s, p))
    case MaskCas(_, _, _) => Some(ExchangeMask(c, s, p))
    case Spin(_, _, _) => Some(TryLock(c, s, p))
    case CountWait(_, _) => Some(CountProducerWait(s, p))
    case TestAndSet(_, _) => Some(MarkData(c, s, p))
    case IncOverflow(_, _) => Some(CountOverflow(s, p))
    case IncResettable(_, _) => Some(CountResettable(s, p))
    case Filling(_, _) => None
  }

  // --- the caller's use of the reserved message, and commit_push ---

  function Append(c: Config, s: State, p: nat, chunk: string): State
    requires Shape(c, s) && p < |s.producers| && s.producers[p].Filling?
  {
    var i := s.producers[p].slot;
    var stints := s.log.since[i];
    var last := stints[|stints| - 1];
    s.(elements := s.elements[i := Clip(s.elements[i] + chunk, c.messageCapacity)],
       log := s.log.(since := s.log.since[i := stints[..|stints| - 1] + [Stint(last.ticket, last.text + chunk)]]))
  }

  function Release(c: Config, s: State, p: nat): State
    requires Shape(c, s) && p < |s.producers| && s.producers[p].Filling?
  {
    var i := s.producers[p].slot;
    s.(busy := s.busy[i := false], producers := s.producers[p := Idle],
       log := s.log.(holder := s.log.holder[i := Free]))
  }

  // --- pop and get_and_reset_overflow_counter ---

  function TestFirst(c: Config, s: State): State
    requires Shape(c, s)
  {
    if s.hasData[s.tail] then s.(consumer := PopSpin(s.tail, false)) else s
  }

  function LockForPop(c: Config, s: State): State
    requires Shape(c, s) && s.consumer.PopSpin?
  {
    var i := s.consumer.slot;
    if s.busy[i] then
      s.(consumer := PopSpin(i, true))
    else
      s.(busy := s.busy[i := true],
         consumer := if s.consumer.collision then PopCountWait(i) else Retest(i),
         log := s.log.(holder := s.log.holder[i := ByConsumer]))
  }

  // operator= copies with strncpy, so only up to a NUL in the text.
  function TakeCopy(c: Config, s: State): State
    requires Shape(c, s) && s.consumer.Copy?
  {
    var i := s.consumer.slot;
    s.(tail := And(s.tail + 1, c.Capacity() - 1), buffer := UpToNul(s.elements[i]), consumer := Recycle(i),
       log := s.log.(deliveries := s.log.deliveries + [Delivery(UpToNul(s.elements[i]), s.log.since[i])]))
  }

  function StepConsumer(c: Config, s: State): Option<State>
    requires Shape(c, s)
  {
    match s.consumer
    case Ready => None
    case Resetting(loaded) =>
      Some(s.(resettable := 0, consumer := Ready,
              log := s.log.(returned := s.log.returned + loaded,
                            lost := s.log.lost + (if s.resettable >= loaded then s.resettable - loaded else 0))))
    case PopSpin(_, _) => Some(LockForPop(c, s))
    case PopCountWait(i) => Some(s.(consumerWaits := Bump(s.consumerWaits), consumer := Retest(i)))
    case Retest(i) => Some(s.(consumer := if s.hasData[i] then Copy(i) else Unlock(i)))
    case Copy(_) => Some(TakeCopy(c, s))
    case Recycle(i) =>
      Some(s.(elements := s.elements[i := ""], consumer := ClearData(i), log := s.log.(since := s.log.since[i := []])))
    case ClearData(i) =>
      Some(s.(hasData := s.hasData[i := false], consumer := Unlock(i),
              log := s.log.(popped := s.log.popped[i := s.log.popped[i] + 1])))
    case Unlock(i) =>
      Some(s.(busy := s.busy[i := false], consumer := Ready, log := s.log.(holder := s.log.holder[i := Free])))
  }

  // None: the action is not open to its thread in this state.
  function Next(c: Config, s: State, a: Action): Option<State>
    requires Shape(c, s)
  {
    match a
    case Produce(p) => if p < |s.producers| then StepProducer(c, s, p) else None
    case Fill(p, chunk) =>
      if p < |s.producers| && s.producers[p].Filling? then Some(Append(c, s, p, chunk)) else None
    case Commit(p) =>
      if p < |s.producers| && s.producers[p].Filling? then Some(Release(c, s, p)) else None
    case StartReset => if s.consumer.Ready? then Some(s.(consumer := Resetting(s.resettable))) else None
    case StartPop => if s.consumer.Ready? then Some(TestFirst(c, s)) else None
    case Consume => StepConsumer(c, s)
  }
}
