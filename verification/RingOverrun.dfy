// What an overrun really does. The design notes say that an overrunning producer
// replaces the old message, so that a slow consumer sees new messages; reserve_push
// does not recycle the slot, so the new text is added after the old one.
module RingOverrun {
  import opened Basics
  import opened Words
  import opened Sums
  import opened RingProtocol
  import opened RingInvariant
  import opened RingSteps
  import opened RingTheorems
  import opened RingQuiet
  import opened RingDrain

  // The parts of the state the argument follows, while producer p alone is running.
  datatype Track = Track(head: nat, tail: nat, hasData: seq<bool>, since: seq<seq<Stint>>, owner: seq<nat>,
                         deliveries: seq<Delivery>)

  function Tracked(s: State): Track {
    Track(s.head, s.tail, s.hasData, s.log.since, s.log.owner, s.log.deliveries)
  }

  // p is at pc, everybody else is idle.
  ghost predicate Alone(s: State, p: nat, pc: ProducerPc) {
    && s.consumer.Ready? && p < |s.producers| && s.producers[p] == pc
    && forall q | 0 <= q < |s.producers| && q != p :: s.producers[q].Idle?
  }

  // One step of p, with what it does spelled out.
  ghost predicate Lands(c: Config, s: State, a: Action, t: Track, p: nat, pc: ProducerPc)
    requires Shape(c, s)
  {
    var r := Next(c, s, a);
    r.Some? && Tracked(r.value) == t && Alone(r.value, p, pc)
  }

  lemma StepIssue(c: Config, s: State, p: nat)
    requires Shape(c, s) && Alone(s, p, Idle)
    ensures Lands(c, s, Produce(p), Tracked(s).(head := (s.head + 1) % Pow2(c.headBits), owner := s.log.owner + [p]),
                  p, if s.head >= c.Capacity() then MaskLoad(|s.log.owner|, s.head) else Spin(|s.log.owner|, s.head, false))
  {
  }

  lemma StepLoad(c: Config, s: State, p: nat)
    requires Shape(c, s) && p < |s.producers| && s.producers[p].MaskLoad? && Alone(s, p, s.producers[p])
    ensures Lands(c, s, Produce(p), Tracked(s), p, MaskCas(s.producers[p].ticket, s.producers[p].reserved, s.head))
  {
  }

  lemma StepExchange(c: Config, s: State, p: nat)
    requires Shape(c, s) && p < |s.producers|
    requires s.producers[p].MaskCas? && s.producers[p].seen == s.head && Alone(s, p, s.producers[p])
    ensures Lands(c, s, Produce(p), Tracked(s).(head := s.head % c.Capacity()), p,
                  Spin(s.producers[p].ticket, s.producers[p].reserved % c.Capacity(), false))
  {
    AndMask(s.head, c.logCapacity);
    AndMask(s.producers[p].reserved, c.logCapacity);
  }

  lemma NobodyHolds(c: Config, s: State, p: nat, i: nat)
    requires Reachable(c, s) && p < |s.producers| && s.producers[p].Spin? && Alone(s, p, s.producers[p]) && i < c.Capacity()
    ensures !s.busy[i]
  {
    hide Tickets, Texts, Books, Overflows, Stints;
    ReachableInv(c, s);
  }

  lemma StepLock(c: Config, s: State, p: nat)
    requires Reachable(c, s) && p < |s.producers|
    requires s.producers[p].Spin? && !s.producers[p].collision && Alone(s, p, s.producers[p])
    ensures var k, i := s.producers[p].ticket, s.producers[p].slot;
            Lands(c, s, Produce(p), Tracked(s).(since := s.log.since[i := s.log.since[i] + [Stint(k, "")]]), p,
                  TestAndSet(k, i))
  {
    hide IsRun;
    NobodyHolds(c, s, p, s.producers[p].slot);
  }

  lemma StepMark(c: Config, s: State, p: nat)
    requires Shape(c, s) && p < |s.producers| && s.producers[p].TestAndSet? && Alone(s, p, s.producers[p])
    ensures var k, i := s.producers[p].ticket, s.producers[p].slot;
            Lands(c, s, Produce(p), Tracked(s).(hasData := s.hasData[i := true]), p,
                  if s.hasData[i] then IncOverflow(k, i) else Filling(k, i))
  {
    assert s.hasData[s.producers[p].slot] ==> s.hasData[s.producers[p].slot := true] == s.hasData;
  }

  lemma StepCount(c: Config, s: State, p: nat)
    requires Shape(c, s) && p < |s.producers| && Alone(s, p, s.producers[p])
    requires s.producers[p].IncOverflow? || s.producers[p].IncResettable?
    ensures var k, i := s.producers[p].ticket, s.producers[p].slot;
            Lands(c, s, Produce(p), Tracked(s), p,
                  if s.producers[p].IncOverflow? then IncResettable(k, i) else Filling(k, i))
  {
  }

  lemma StepFill(c: Config, s: State, p: nat, text: string)
    requires Shape(c, s) && p < |s.producers| && s.producers[p].Filling? && Alone(s, p, s.producers[p])
    ensures var i := s.producers[p].slot;
            var init, last := s.log.since[i][..|s.log.since[i]| - 1], s.log.since[i][|s.log.since[i]| - 1];
            Lands(c, s, Fill(p, text),
                  Tracked(s).(since := s.log.since[i := init + [Stint(last.ticket, last.text + text)]]), p, s.producers[p])
  {
  }

  lemma StepCommit(c: Config, s: State, p: nat)
    requires Shape(c, s) && p < |s.producers| && s.producers[p].Filling? && Alone(s, p, s.producers[p])
    ensures Lands(c, s, Commit(p), Tracked(s), p, Idle)
  {
  }

  // The buffer after one complete reservation of p: the text is added to the slot.
  function AfterPush(t: Track, n: nat, headBits: nat, p: nat, text: string): Track
    requires n > 0
  {
    var i := t.head % n;
    var head' := (t.head + 1) % Pow2(headBits);
    if i >= |t.since| || i >= |t.hasData| then t
    else t.(head := if t.head >= n then head' % n else head', hasData := t.hasData[i := true],
            since := t.since[i := t.since[i] + [Stint(|t.owner|, text)]], owner := t.owner + [p])
  }

  // Appending one open action to what has been followed so far.
  lemma Extend(c: Config, o: State, script: seq<Action>, a: Action) returns (longer: seq<Action>, s: State)
    requires Reachable(c, o) && Follow(c, o, script).Some? && Next(c, Follow(c, o, script).value, a).Some?
    ensures longer == script + [a] && Follow(c, o, longer) == Some(s) && Reachable(c, s)
    ensures Some(s) == Next(c, Follow(c, o, script).value, a)
  {
    hide Follow, Next, Reachable;
    FollowThen(c, o, script, a);
    longer, s := script + [a], Next(c, Follow(c, o, script).value, a).value;
    FollowReachable(c, o, longer);
  }

  // From the draw of the ticket to the lock.
  lemma StartPush(c: Config, o: State, p: nat) returns (script: seq<Action>, s: State)
    requires Reachable(c, o) && Alone(o, p, Idle)
    ensures Follow(c, o, script) == Some(s) && Reachable(c, s)
    ensures var n, k := c.Capacity(), |o.log.owner|;
            var head' := (o.head + 1) % Pow2(c.headBits);
            && Alone(s, p, Spin(k, o.head % n, false))
            && Tracked(s) == Tracked(o).(head := if o.head >= n then head' % n else head', owner := o.log.owner + [p])
  {
    var n := c.Capacity();
    if o.head < n { ModOf(o.head, n, 0, o.head); }
    assert Follow(c, o, []) == Some(o);
    hide Follow, Next, IsRun, Shape;
    StepIssue(c, o, p);
    script, s := Extend(c, o, [], Produce(p));
    if o.head >= n {
      StepLoad(c, s, p);
      script, s := Extend(c, o, script, Produce(p));
      StepExchange(c, s, p);
      script, s := Extend(c, o, script, Produce(p));
    }
  }

  // A reservation that nobody disturbs, on a free or on an occupied slot.
  lemma SoloPush(c: Config, o: State, p: nat, text: string) returns (script: seq<Action>, s: State)
    requires Reachable(c, o) && Alone(o, p, Idle)
    ensures Follow(c, o, script) == Some(s) && Reachable(c, s) && Alone(s, p, Idle)
    ensures Tracked(s) == AfterPush(Tracked(o), c.Capacity(), c.headBits, p, text)
  {
    hide Follow, Next, IsRun, Shape, AfterPush;
    SameSizes(c, o);
    var first, s1 := StartPush(c, o, p);
    StepLock(c, s1, p);
    var second, s2 := Extend(c, o, first, Produce(p));
    script, s := FinishPush(c, o, second, s2, p, text);
    PushTrack(Tracked(o), c.Capacity(), c.headBits, p, text, Tracked(s1), Tracked(s2), Tracked(s));
  }

  lemma PushTrack(t: Track, n: nat, headBits: nat, p: nat, text: string, t1: Track, t2: Track, t3: Track)
    requires n > 0 && |t.since| == |t.hasData| == n
    requires var head' := (t.head + 1) % Pow2(headBits);
             t1 == t.(head := if t.head >= n then head' % n else head', owner := t.owner + [p])
    requires var i := t.head % n;
             && t2 == t1.(since := t1.since[i := t1.since[i] + [Stint(|t.owner|, "")]])
             && t3 == t2.(hasData := t2.hasData[i := true],
                          since := t2.since[i := t2.since[i][..|t2.since[i]| - 1] + [Stint(|t.owner|, text)]])
    ensures t3 == AfterPush(t, n, headBits, p, text)
  {
    var i := t.head % n;
    assert t2.since[i][..|t2.since[i]| - 1] == t.since[i];
  }

  // From the lock to the commit.
  lemma FinishPush(c: Config, o: State, start: seq<Action>, s0: State, p: nat, text: string)
    returns (script: seq<Action>, s: State)
    requires Reachable(c, o) && Follow(c, o, start) == Some(s0) && Reachable(c, s0) && p < |s0.producers|
    requires s0.producers[p].TestAndSet? && Alone(s0, p, s0.producers[p])
    requires s0.producers[p].slot < |s0.log.since| && s0.log.since[s0.producers[p].slot] != []
    requires s0.log.since[s0.producers[p].slot][|s0.log.since[s0.producers[p].slot]| - 1]
          == Stint(s0.producers[p].ticket, "")
    ensures Follow(c, o, script) == Some(s) && Reachable(c, s) && Alone(s, p, Idle)
    ensures s0.producers[p].slot < |s0.hasData|
    ensures var i := s0.producers[p].slot;
            var init := s0.log.since[i][..|s0.log.since[i]| - 1];
            Tracked(s) == Tracked(s0).(hasData := s0.hasData[i := true],
                                       since := s0.log.since[i := init + [Stint(s0.producers[p].ticket, text)]])
  {
    hide Follow, Next, IsRun;
    StepMark(c, s0, p);
    script, s := Extend(c, o, start, Produce(p));
    if s0.hasData[s0.producers[p].slot] {
      StepCount(c, s, p);
      script, s := Extend(c, o, script, Produce(p));
      StepCount(c, s, p);
      script, s := Extend(c, o, script, Produce(p));
    }
    StepFill(c, s, p, text);
    script, s := Extend(c, o, script, Fill(p, text));
    assert "" + text == text;
    StepCommit(c, s, p);
    script, s := Extend(c, o, script, Commit(p));
  }

  // Three reservations in a buffer of two, then two pops: the third text arrives glued
  // to the first, ahead of the second. Replacement and FIFO order both fail, although
  // nothing is lost.
  lemma OverrunKeepsOldText(c: Config, x0: string, x1: string, x2: string) returns (actions: seq<Action>)
    requires c.Valid() && c.logCapacity == 1 && c.producers > 0
    ensures Follow(c, Init(c), actions).Some?
    ensures Messages(Follow(c, Init(c), actions).value.log.deliveries)
         == [UpToNul(Clip(x0 + x2, c.messageCapacity)), UpToNul(Clip(x1, c.messageCapacity))]
  {
    var o := Init(c);
    assert Pow2(1) == 2;
    var t := Tracked(o);
    assert t.hasData == [false, false] && t.since == [[], []];
    WideWord(c.headBits);
    ThreeTracks(t, c.headBits, x0, x1, x2);
    assert |o.producers| == c.producers && Alone(o, 0, Idle);
    InitReachable(c);
    hide Follow, Reachable, Shape, AfterPush, Tracked, Init;
    var s3;
    actions, s3 := ThreePushes(c, o, x0, x1, x2);
    FromTrack(s3);
    actions := PopBoth(c, o, actions, s3);
    JoinedTwo(Stint(0, x0), Stint(2, x2));
    JoinedOne(Stint(1, x1));
  }

  lemma FromTrack(s: State)
    requires Alone(s, 0, Idle)
    ensures Quiet(s) && Tracked(s) == Track(s.head, s.tail, s.hasData, s.log.since, s.log.owner, s.log.deliveries)
  {
  }

  lemma WideWord(bits: nat)
    requires bits >= 2
    ensures Pow2(bits) > 3
  {
    Pow2Divides(2, bits);
    assert Pow2(2) == 4;
    MultipleFar(Pow2(bits - 2), 4);
  }

  lemma ThreeTracks(t: Track, bits: nat, x0: string, x1: string, x2: string)
    requires t.head == 0 && t.tail == 0 && t.hasData == [false, false] && t.since == [[], []]
    requires t.owner == [] && t.deliveries == [] && Pow2(bits) > 3
    ensures var t3 := AfterPush(AfterPush(AfterPush(t, 2, bits, 0, x0), 2, bits, 0, x1), 2, bits, 0, x2);
            && t3.tail == 0 && t3.hasData == [true, true] && t3.deliveries == []
            && t3.since == [[Stint(0, x0), Stint(2, x2)], [Stint(1, x1)]]
  {
    ModOf(1, Pow2(bits), 0, 1);
    ModOf(2, Pow2(bits), 0, 2);
    hide Pow2;
    var t1 := AfterPush(t, 2, bits, 0, x0);
    assert t.since[0] + [Stint(0, x0)] == [Stint(0, x0)] && t.since[1] + [Stint(1, x1)] == [Stint(1, x1)];
    assert t1.head == 1 && t1.since == [[Stint(0, x0)], []];
    var t2 := AfterPush(t1, 2, bits, 0, x1);
    assert t2.head == 2 && t2.since == [[Stint(0, x0)], [Stint(1, x1)]];
    assert t2.since[0] + [Stint(2, x2)] == [Stint(0, x0), Stint(2, x2)];
  }

  lemma ThreePushes(c: Config, o: State, x0: string, x1: string, x2: string)
    returns (script: seq<Action>, s3: State)
    requires Reachable(c, o) && Alone(o, 0, Idle) && c.Capacity() == 2
    ensures Follow(c, o, script) == Some(s3) && Reachable(c, s3) && Alone(s3, 0, Idle)
    ensures Tracked(s3) == AfterPush(AfterPush(AfterPush(Tracked(o), 2, c.headBits, 0, x0), 2, c.headBits, 0, x1), 2,
                                     c.headBits, 0, x2)
  {
    hide Follow, Reachable, Shape, AfterPush, Tracked;
    var a0, s1 := SoloPush(c, o, 0, x0);
    var a1, s2 := SoloPush(c, s1, 0, x1);
    var a2;
    a2, s3 := SoloPush(c, s2, 0, x2);
    FollowAppend(c, o, a0, a1);
    FollowAppend(c, o, a0 + a1, a2);
    script := (a0 + a1) + a2;
  }

  lemma SameSizes(c: Config, s: State)
    requires Shape(c, s)
    ensures |s.log.since| == |s.hasData| == c.Capacity()
  {
  }

  lemma JoinedOne(st: Stint)
    ensures Joined([st]) == st.text
  {
    JoinedSnoc([], st);
    assert [] + [st] == [st] && "" + st.text == st.text;
  }

  lemma JoinedTwo(st: Stint, st': Stint)
    ensures Joined([st, st']) == st.text + st'.text
  {
    JoinedOne(st);
    JoinedSnoc([st], st');
    assert [st] + [st'] == [st, st'];
  }

  lemma PopBoth(c: Config, o: State, actions: seq<Action>, s: State) returns (more: seq<Action>)
    requires Reachable(c, o) && Follow(c, o, actions) == Some(s) && Reachable(c, s) && Quiet(s) && c.Capacity() == 2
    requires s.tail == 0 && s.hasData == [true, true] && |s.log.since| == 2 && s.log.deliveries == []
    ensures Follow(c, o, more).Some?
    ensures Messages(Follow(c, o, more).value.log.deliveries)
         == [UpToNul(Clip(Joined(s.log.since[0]), c.messageCapacity)),
             UpToNul(Clip(Joined(s.log.since[1]), c.messageCapacity))]
  {
    hide Follow, IsRun, Shape, Joined, Locks, Tickets, Books, Overflows, Stints;
    ReachableInv(c, s);
    SoloPop(c, s);
    var s1 := Follow(c, s, POP_SCRIPT).value;
    ModOf(1, 2, 0, 1);
    assert View(c, s1).tail == 1 && View(c, s1).hasData[1] && View(c, s1).elements[1] == s.elements[1];
    ReachableInv(c, s1);
    SoloPop(c, s1);
    FollowAppend(c, o, actions, POP_SCRIPT);
    FollowAppend(c, o, actions + POP_SCRIPT, POP_SCRIPT);
    more := (actions + POP_SCRIPT) + POP_SCRIPT;
  }

  // --- an overrun that is never reported ---

  lemma {:induction false} SameIncrements(actions: seq<Action>, states: seq<State>, a: Action, s: State, n: nat)
    requires n <= |actions| < |states|
    ensures IncrementsDuringReset(actions + [a], states + [s], n) == IncrementsDuringReset(actions, states, n)
    decreases n
  {
    if n > 0 { SameIncrements(actions, states, a, s, n - 1); }
  }

  lemma RunOn(c: Config, actions: seq<Action>, states: seq<State>, a: Action)
    returns (actions': seq<Action>, states': seq<State>)
    requires IsRun(c, actions, states) && Shape(c, states[|actions|])
    requires Next(c, states[|actions|], a).Some?
    ensures var m := |actions|;
            && IsRun(c, actions', states') && |actions'| == m + 1 && |states'| == m + 2
            && Some(states'[m + 1]) == Next(c, states[m], a) && Shape(c, states'[m + 1])
            && IncrementsDuringReset(actions', states', m + 1)
               == IncrementsDuringReset(actions, states, m) + (if DuringReset(states[m], a) then 1 else 0)
  {
    hide Shape, Next, Inv, DuringReset;
    var m, s := |actions|, Next(c, states[|actions|], a).value;
    actions', states' := actions + [a], states + [s];
    forall i {:trigger actions'[i]} | 0 <= i < |actions'| ensures Leads(c, states'[i], actions'[i], states'[i + 1]) {
      if i < m { assert actions'[i] == actions[i]; }
    }
    ShapeOfRun(c, actions', states');
    SameIncrements(actions, states, a, s, m);
  }

  lemma ShapeOfRun(c: Config, actions: seq<Action>, states: seq<State>)
    requires IsRun(c, actions, states)
    ensures Shape(c, states[|actions|])
  {
    hide Shape, Next, Locks, Tickets, Books, Overflows, Texts, Stints;
    RunInv(c, actions, states, |actions|);
  }

  lemma FirstPush(c: Config) returns (s: State)
    requires c.Valid() && c.logCapacity == 0 && c.producers > 0
    ensures Reachable(c, s) && Alone(s, 0, Idle)
    ensures s.hasData == [true] && |s.log.owner| == 1 && s.log.deliveries == []
  {
    var o := Init(c);
    assert Pow2(0) == 1 && Tracked(o).hasData == [false] && Tracked(o).since == [[]];
    assert |o.producers| == c.producers && Alone(o, 0, Idle);
    InitReachable(c);
    hide Follow, Next, IsRun, Shape, Init;
    var script;
    script, s := SoloPush(c, o, 0, "");
    assert Tracked(s).hasData == [true] && Tracked(s).deliveries == [] && |Tracked(s).owner| == 1;
  }

  // A second reservation up to where it is about to count its overrun for the report.
  lemma AboutToCount(c: Config, o: State) returns (s: State)
    requires Reachable(c, o) && Alone(o, 0, Idle) && c.Capacity() == 1
    requires o.hasData == [true] && |o.log.owner| == 1 && o.log.deliveries == []
    ensures Reachable(c, s) && 0 < |s.producers| && s.producers[0].IncResettable? && Alone(s, 0, s.producers[0])
    ensures s.hasData == [true] && |s.log.owner| == 2 && s.log.deliveries == []
  {
    hide Follow, Next, IsRun, Shape;
    var script;
    script, s := StartPush(c, o, 0);
    assert Tracked(s).hasData == [true] && Tracked(s).deliveries == [] && |Tracked(s).owner| == 2;
    ModOf(o.head, 1, o.head, 0);
    StepLock(c, s, 0);
    script, s := Extend(c, o, script, Produce(0));
    StepMark(c, s, 0);
    script, s := Extend(c, o, script, Produce(0));
    assert s.hasData == [true];
    StepCount(c, s, 0);
    script, s := Extend(c, o, script, Produce(0));
  }

  // The consumer loads the counter, the producer increments it, and the consumer stores
  // zero: in a buffer of one, two reservations, one overrun, and nothing to report.
  lemma OverrunNeverReported(c: Config) returns (actions: seq<Action>, states: seq<State>)
    requires c.Valid() && c.logCapacity == 0 && c.producers > 0
    ensures IsRun(c, actions, states)
    ensures var s := states[|actions|];
            && Quiet(s) && Total(s.log.overrun) == s.overflow == 1
            && s.log.returned + s.resettable == 0 && IncrementsDuringReset(actions, states, |actions|) == 1
  {
    assert Pow2(0) == 1;
    hide IsRun, Shape, IncrementsDuringReset, Reachable;
    var o := FirstPush(c);
    var s0 := AboutToCount(c, o);
    actions, states := ARun(c, s0);
    ResetMeanwhile(c, s0);
    actions, states := RunOn(c, actions, states, StartReset);
    actions, states := RunOn(c, actions, states, Produce(0));
    actions, states := RunOn(c, actions, states, Consume);
    actions, states := RunOn(c, actions, states, Commit(0));
    var s := states[|actions|];
    RunReachable(c, actions, states);
    OverrunsAreTheGap(c, s);
    assert Tally([true], RingQuiet.Set) == 1;
    OverflowAccounting(c, actions, states, |actions|);
  }

  lemma ARun(c: Config, s: State) returns (actions: seq<Action>, states: seq<State>)
    requires Reachable(c, s)
    ensures IsRun(c, actions, states) && |states| == |actions| + 1 && states[|actions|] == s && Shape(c, s)
  {
    actions, states :| IsRun(c, actions, states) && states[|actions|] == s;
  }

  lemma RunReachable(c: Config, actions: seq<Action>, states: seq<State>)
    requires IsRun(c, actions, states)
    ensures Reachable(c, states[|actions|])
  {
    hide Shape, Next;
    ShapeOfRun(c, actions, states);
  }

  // The four steps.
  lemma ResetMeanwhile(c: Config, s: State)
    requires Shape(c, s) && 0 < |s.producers| && s.producers[0].IncResettable? && Alone(s, 0, s.producers[0])
    requires s.hasData == [true] && |s.log.owner| == 2 && s.log.deliveries == []
    ensures var s1 := Next(c, s, StartReset);
            && s1.Some? && Shape(c, s1.value) && DuringReset(s1.value, Produce(0))
            && var s2 := Next(c, s1.value, Produce(0));
               && s2.Some? && Shape(c, s2.value)
               && var s3 := Next(c, s2.value, Consume);
                  && s3.Some? && Shape(c, s3.value)
                  && var s4 := Next(c, s3.value, Commit(0));
                     && s4.Some? && Quiet(s4.value) && s4.value.hasData == [true] && |s4.value.log.owner| == 2
                     && s4.value.log.deliveries == []
  {
  }
}
