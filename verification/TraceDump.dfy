// The dump loop of trace_dump.cpp over the ring buffer's consumer side, after the
// producers have finished (TraceDump::stop). The classes are proved against the value
// functions of RingDrain, which are proved against the step machine there.
module TraceDump {
  import opened Basics
  import opened Words
  import opened RingProtocol
  import opened RingDrain

  // What process() emits: a popped message, or the report of lost messages.
  datatype Line = Message(text: string) | LostReport(count: nat)

  class TraceMessageRingBuffer {
    const logCapacity: nat
    const messageCapacity: nat
    const hasData: array<bool>
    const busy: array<bool>
    const elements: array<string>
    var head: nat
    var tail: nat
    var overflowCounter: nat
    var resettableOverflowCounter: nat

    ghost predicate Valid()
      reads this, hasData, busy, elements
    {
      && hasData != busy
      && hasData.Length == busy.Length == elements.Length == Pow2(logCapacity)
      && tail < Pow2(logCapacity)
      && (forall i | 0 <= i < busy.Length :: !busy[i])
    }

    ghost function Value(): (r: Ring)
      requires Valid()
      reads this, hasData, busy, elements
      ensures r.Valid()
    {
      Ring(logCapacity, messageCapacity, head, tail, hasData[..], elements[..], overflowCounter,
           resettableOverflowCounter)
    }

    constructor (logCapacity: nat, messageCapacity: nat)
      ensures Valid() && fresh(hasData) && fresh(busy) && fresh(elements)
      ensures this.logCapacity == logCapacity && this.messageCapacity == messageCapacity
      ensures head == 0 && tail == 0 && overflowCounter == 0 && resettableOverflowCounter == 0
      ensures forall i | 0 <= i < hasData.Length :: !hasData[i] && elements[i] == ""
    {
      this.logCapacity, this.messageCapacity := logCapacity, messageCapacity;
      hasData := new bool[Pow2(logCapacity)](_ => false);
      busy := new bool[Pow2(logCapacity)](_ => false);
      elements := new string[Pow2(logCapacity)](_ => "");
      head, tail, overflowCounter, resettableOverflowCounter := 0, 0, 0, 0;
    }

    method LockElement(i: nat)
      requires i < busy.Length && !busy[i]
      modifies busy
      ensures busy[..] == old(busy[..])[i := true]
    {
      // compare and exchange succeeds at once: nobody else is running
      busy[i] := true;
    }

    method UnlockElement(i: nat)
      requires i < busy.Length
      modifies busy
      ensures busy[..] == old(busy[..])[i := false]
    {
      busy[i] := false;
    }

    method Pop() returns (message: Option<string>)
      requires Valid()
      modifies this`tail, hasData, busy, elements
      ensures Valid() && Value() == AfterPop(old(Value()))
      ensures message == if old(hasData[tail]) then Some(UpToNul(old(elements[tail]))) else None
    {
      var i := tail;
      if !hasData[i] {
        return None;
      }
      LockElement(i);
      ghost var locked := busy[..];
      var found := hasData[i];
      if found {
        AndMask(tail + 1, logCapacity);
        tail := And(tail + 1, Pow2(logCapacity) - 1);
        message := Some(UpToNul(elements[i]));
        elements[i] := "";
        hasData[i] := false;
      } else {
        message := None;
      }
      assert busy[..] == locked;
      UnlockElement(i);
      assert forall j | 0 <= j < busy.Length :: busy[..][j] == old(busy[..])[i := true][i := false][j];
    }

    method GetAndResetOverflowCounter() returns (r: nat)
      requires Valid()
      modifies this`resettableOverflowCounter
      ensures r == old(resettableOverflowCounter) && Valid()
      ensures Value() == old(Value()).(resettable := 0)
    {
      r := resettableOverflowCounter;
      resettableOverflowCounter := 0;
    }
  }

  // The lines of a complete drain: the lost count first, if there is one to report.
  function DrainLines(r: Ring): seq<Line>
    requires r.Valid()
  {
    (if r.resettable > 0 then [LostReport(r.resettable)] else []) + MessageLines(Drain(r).0)
  }

  function MessageLines(messages: seq<string>): seq<Line> {
    seq(|messages|, i requires 0 <= i < |messages| => Message(messages[i]))
  }

  // One round of the loop, as a value.
  function Round(r: Ring): (seq<Line>, Ring)
    requires r.Valid()
  {
    var quiet := r.(resettable := 0);
    ((if r.resettable > 0 then [LostReport(r.resettable)] else [])
     + (if r.hasData[r.tail] then [Message(UpToNul(r.elements[r.tail]))] else []),
     AfterPop(quiet))
  }

  lemma {:induction false} DrainIgnoresCounter(r: Ring)
    requires r.Valid()
    ensures Drain(r.(resettable := 0)).0 == Drain(r).0
    ensures Drain(r.(resettable := 0)).1 == Drain(r).1.(resettable := 0)
    decreases Occupied(r)
  {
    if r.hasData[r.tail] {
      PopFreesOne(r);
      DrainIgnoresCounter(AfterPop(r));
      assert AfterPop(r).(resettable := 0) == AfterPop(r.(resettable := 0));
    }
  }

  // What a round leaves is what a pop leaves, and the drain goes on from there.
  lemma RoundStep(r: Ring)
    requires r.Valid() && r.hasData[r.tail]
    ensures var next := Round(r).1;
            && next.Valid() && Occupied(next) == Occupied(r) - 1
            && Drain(r).0 == [UpToNul(r.elements[r.tail])] + Drain(next).0
            && Drain(r).1.(resettable := 0) == Drain(next).1
  {
    PopFreesOne(r);
    DrainIgnoresCounter(AfterPop(r));
    assert AfterPop(r).(resettable := 0) == AfterPop(r.(resettable := 0));
  }

  lemma NoLines()
    ensures MessageLines([]) == []
  {
  }

  lemma LinesOfFirst(first: string, rest: seq<string>)
    ensures MessageLines([first] + rest) == [Message(first)] + MessageLines(rest)
  {
  }

  // The report comes first, if there is one, and says how many; then the messages of the
  // drain in their order, and nothing else.
  lemma LinesInOrder(r: Ring)
    requires r.Valid()
    ensures var lines, messages := DrainLines(r), Drain(r).0;
            var first := if r.resettable > 0 then 1 else 0;
            && |lines| == first + |messages|
            && (r.resettable > 0 ==> lines[0] == LostReport(r.resettable))
            && forall k | 0 <= k < |messages| :: lines[first + k] == Message(messages[k])
  {
    hide Drain;
  }

  // A round and then the rest is the whole drain.
  lemma RoundThenRest(r: Ring)
    requires r.Valid()
    ensures Round(r).1.Valid() && Round(r).1.resettable == 0
    ensures r.hasData[r.tail] ==>
              && DrainLines(r) == Round(r).0 + DrainLines(Round(r).1)
              && Drain(r).1.(resettable := 0) == Drain(Round(r).1).1
              && Occupied(Round(r).1) == Occupied(r) - 1
    ensures !r.hasData[r.tail] ==>
              && DrainLines(r) == Round(r).0 && Drain(r).1.(resettable := 0) == Round(r).1
              && !Round(r).1.hasData[Round(r).1.tail]
  {
    hide Occupied, MessageLines;
    if r.hasData[r.tail] {
      RoundStep(r);
      LinesOfFirst(UpToNul(r.elements[r.tail]), Drain(Round(r).1).0);
    } else {
      assert MessageLines([]) == [] by { NoLines(); }
    }
  }

  class TraceDump {
    const ringBuffer: TraceMessageRingBuffer
    var messageBuffer: string
    var output: seq<Line>

    ghost predicate Valid()
      reads this, ringBuffer, ringBuffer.hasData, ringBuffer.busy, ringBuffer.elements
    {
      ringBuffer.Valid()
    }

    constructor (ringBuffer: TraceMessageRingBuffer)
      requires ringBuffer.Valid()
      ensures Valid() && this.ringBuffer == ringBuffer && output == []
    {
      this.ringBuffer, messageBuffer, output := ringBuffer, "", [];
    }

    method PopAndProcess() returns (popped: bool)
      requires Valid()
      modifies this, ringBuffer, ringBuffer.hasData, ringBuffer.busy, ringBuffer.elements
      ensures Valid() && popped == old(ringBuffer.hasData[ringBuffer.tail])
      ensures output == old(output) + Round(old(ringBuffer.Value())).0
      ensures ringBuffer.Value() == Round(old(ringBuffer.Value())).1
    {
      var overflow := ringBuffer.GetAndResetOverflowCounter();
      if overflow > 0 {
        output := output + [LostReport(overflow)];
      }
      var message := ringBuffer.Pop();
      if message.Some? {
        messageBuffer := message.value;
        output := output + [Message(messageBuffer)];
        return true;
      }
      return false;
    }

    // Terminates because every round but the last empties a slot.
    method ProcessRemaining()
      requires Valid()
      modifies this, ringBuffer, ringBuffer.hasData, ringBuffer.busy, ringBuffer.elements
      ensures Valid()
      ensures output == old(output) + DrainLines(old(ringBuffer.Value()))
      ensures ringBuffer.Value() == Drain(old(ringBuffer.Value())).1.(resettable := 0)
      ensures !ringBuffer.hasData[ringBuffer.tail]
    {
      hide DrainLines, Drain, Round, Occupied, MessageLines;
      ghost var start, lines := ringBuffer.Value(), output;
      RoundThenRest(ringBuffer.Value());
      var more := PopAndProcess();
      while more
        invariant Valid()
        invariant more ==> lines + DrainLines(start) == output + DrainLines(ringBuffer.Value())
        invariant more ==> Drain(start).1.(resettable := 0) == Drain(ringBuffer.Value()).1
        invariant more ==> ringBuffer.Value().resettable == 0
        invariant !more ==> lines + DrainLines(start) == output
        invariant !more ==> Drain(start).1.(resettable := 0) == ringBuffer.Value()
        invariant !more ==> !ringBuffer.hasData[ringBuffer.tail]
        decreases more, Occupied(ringBuffer.Value())
      {
        RoundThenRest(ringBuffer.Value());
        DrainIgnoresCounter(ringBuffer.Value());
        more := PopAndProcess();
      }
    }
  }
}
