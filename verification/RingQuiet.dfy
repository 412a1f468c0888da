// What the accounts say once nobody is inside: exactly when the occupied slots are the
// interval from tail to head, when a message is one reservation's text, and when
// messages leave in ticket order.
module RingQuiet {
  import opened Basics
  import opened Words
  import opened Sums
  import opened RingProtocol
  import opened RingInvariant
  import opened RingSteps
  import opened RingTheorems
  import opened RingConservation
  import opened RingAccounts

  ghost predicate Quiet(s: State) {
    s.consumer.Ready? && forall p | 0 <= p < |s.producers| :: s.producers[p].Idle?
  }

  predicate Set(flag: bool) { flag }

  // --- sums ---

  lemma {:induction false} TotalSum(a: seq<nat>, b: seq<nat>, c: seq<nat>)
    requires |a| == |b| == |c| && forall i | 0 <= i < |a| :: a[i] == b[i] + c[i]
    ensures Total(a) == Total(b) + Total(c)
    decreases |a|
  {
    if a != [] {
      var k := |a| - 1;
      TotalSum(a[..k], b[..k], c[..k]);
    }
  }

  function Flag(flag: bool): nat { if flag then 1 else 0 }

  lemma {:induction false} TotalFlags(flags: seq<bool>)
    ensures Total(seq(|flags|, i requires 0 <= i < |flags| => Flag(flags[i]))) == Tally(flags, Set)
    decreases |flags|
  {
    if flags != [] {
      var rest := flags[..|flags| - 1];
      TotalFlags(rest);
      var all := seq(|flags|, i requires 0 <= i < |flags| => Flag(flags[i]));
      assert all[..|rest|] == seq(|rest|, i requires 0 <= i < |rest| => Flag(rest[i]));
    }
  }

  lemma {:induction false} TotalZero(xs: seq<nat>)
    ensures Total(xs) == 0 <==> forall i | 0 <= i < |xs| :: xs[i] == 0
    decreases |xs|
  {
    if xs != [] {
      var rest := xs[..|xs| - 1];
      TotalZero(rest);
      assert forall i | 0 <= i < |rest| :: rest[i] == xs[i];
    }
  }

  // --- one slot ---

  // The books of a slot once nobody is inside.
  lemma QuietSlot(c: Config, s: State, locked: seq<seq<nat>>, i: nat)
    requires Inv(c, s) && Accounts(c, s, locked) && Quiet(s) && i < c.Capacity()
    ensures var n, popped, drawn := c.Capacity(), |s.log.deliveries|, |s.log.owner|;
            && |s.log.overrun| == |s.hasData| == |s.log.since| == |locked| == n
            && s.tail == SlotOf(popped, n)
            && |Numbers(drawn, n, i)| == |Numbers(popped, n, i)| + s.log.overrun[i] + Flag(s.hasData[i])
            && locked[i] == TicketsOf(s.log.deliveries, n, i) + TicketsIn(s.log.since[i])
            && |locked[i]| == |Numbers(drawn, n, i)|
            && (s.hasData[i] <==> s.log.since[i] != [])
            && forall k | 0 <= k < popped :: s.log.deliveries[k].stints != []
  {
    hide Locks, Tickets, Texts, Overflows, Stints, Numbers, TicketsOf, TicketsIn, SlotOf;
    TallyNone(s.producers, Heading(c.Capacity(), i));
  }

  // --- no overrun and the interval ---

  // Drawn and not yet popped, and no more of them than there are slots.
  ghost predicate Window(c: Config, s: State) {
    |s.log.deliveries| <= |s.log.owner| <= |s.log.deliveries| + c.Capacity()
  }

  // The slot of some ticket drawn and not yet popped.
  ghost predicate Pending(c: Config, s: State, i: nat) {
    exists k :: |s.log.deliveries| <= k < |s.log.owner| && SlotOf(k, c.Capacity()) == i
  }

  lemma WindowFits(c: Config, s: State, locked: seq<seq<nat>>)
    requires Inv(c, s) && Accounts(c, s, locked) && Quiet(s) && Total(s.log.overrun) == 0
    ensures Window(c, s)
  {
    hide Inv, Accounts, Quiet, Numbers, SlotOf;
    var n, popped, drawn := c.Capacity(), |s.log.deliveries|, |s.log.owner|;
    TotalZero(s.log.overrun);
    if drawn < popped {
      var i := SlotOf(drawn, n);
      QuietSlot(c, s, locked, i);
      NumbersGrow(drawn, popped, n, i);
    }
    if drawn > popped + n {
      var i := SlotOf(popped, n);
      QuietSlot(c, s, locked, i);
      NumbersGrow(popped, popped + 1, n, i);
      NumbersGrow(popped + 1, drawn, n, i);
      SameSlotNext(popped, n);
    }
  }

  lemma SameSlotNext(k: nat, n: nat)
    requires n > 0
    ensures SlotOf(k + n, n) == SlotOf(k, n)
  {
    assert k + n == (k / n + 1) * n + k % n;
    ModOf(k + n, n, k / n + 1, k % n);
  }

  // With nobody inside, no overrun has been counted if and only if the occupied slots are
  // exactly those of the tickets drawn and not yet popped, at most one for each slot:
  // the cyclic interval from the tail to the head.
  lemma OccupiedIsTailToHead(c: Config, s: State)
    requires Reachable(c, s) && Quiet(s)
    ensures var n := c.Capacity();
            && s.tail == |s.log.deliveries| % n && s.head % n == |s.log.owner| % n
            && (Total(s.log.overrun) == 0 <==>
                  Window(c, s) && forall i | 0 <= i < n :: i < |s.hasData| && (s.hasData[i] <==> Pending(c, s, i)))
  {
    hide Inv, Accounts, Quiet, Numbers, IsRun, Shape, Next;
    var n, popped, drawn := c.Capacity(), |s.log.deliveries|, |s.log.owner|;
    var locked := AccountsOf(c, s);
    ReachableInv(c, s);
    HeadCountsTickets(c, s);
    QuietSlot(c, s, locked, 0);
    TotalZero(s.log.overrun);
    if Total(s.log.overrun) == 0 { WindowFits(c, s, locked); }
    if Window(c, s) {
      forall i | 0 <= i < n ensures s.log.overrun[i] == 0 <==> (s.hasData[i] <==> Pending(c, s, i)) {
        QuietSlot(c, s, locked, i);
        NumbersGrow(popped, drawn, n, i);
        NumbersSpan(popped, drawn, n, i);
      }
    }
  }

  lemma AccountsOf(c: Config, s: State) returns (locked: seq<seq<nat>>)
    requires Reachable(c, s)
    ensures Accounts(c, s, locked)
  {
    hide Accounts, Next, Shape, Inv;
    var actions, states :| IsRun(c, actions, states) && states[|actions|] == s;
    RunAccounts(c, actions, states, |actions|);
    locked := LockOrder(c.Capacity(), actions, states, |actions|);
  }

  // Every ticket drawn has been popped, is in a slot, or was an overrun.
  lemma OverrunsAreTheGap(c: Config, s: State)
    requires Reachable(c, s) && Quiet(s)
    ensures |s.log.owner| == |s.log.deliveries| + Tally(s.hasData, Set) + Total(s.log.overrun)
  {
    hide Inv, Accounts, Quiet, Numbers, IsRun, Shape, Next, TicketsOf, TicketsIn, SlotOf, Flag, Total, Tally;
    var n, popped, drawn := c.Capacity(), |s.log.deliveries|, |s.log.owner|;
    var locked := AccountsOf(c, s);
    ReachableInv(c, s);
    QuietSlot(c, s, locked, 0);
    var all := seq(n, i requires 0 <= i < n => |Numbers(drawn, n, i)|);
    var out := seq(n, i requires 0 <= i < n => |Numbers(popped, n, i)|);
    var held := seq(n, i requires 0 <= i < n => Flag(s.hasData[i]));
    var rest := seq(n, i requires 0 <= i < n => s.log.overrun[i] + Flag(s.hasData[i]));
    forall i | 0 <= i < n ensures all[i] == out[i] + rest[i] && rest[i] == s.log.overrun[i] + held[i] {
      QuietSlot(c, s, locked, i);
    }
    TotalSum(all, out, rest);
    TotalSum(rest, s.log.overrun, held);
    NumbersTotal(drawn, n);
    NumbersTotal(popped, n);
    TotalFlags(s.hasData);
    assert held == seq(|s.hasData|, i requires 0 <= i < |s.hasData| => Flag(s.hasData[i]));
  }

  // After a run without overruns, a pop that finds nothing means that nothing is left.
  lemma EmptyPopMeansEmpty(c: Config, s: State)
    requires Reachable(c, s) && Quiet(s) && Total(s.log.overrun) == 0 && !s.hasData[s.tail]
    ensures |s.log.deliveries| == |s.log.owner| && forall i | 0 <= i < |s.hasData| :: !s.hasData[i]
  {
    hide IsRun, Next, Quiet;
    OccupiedIsTailToHead(c, s);
    assert !Pending(c, s, s.tail);
    assert SlotOf(|s.log.deliveries|, c.Capacity()) == s.tail;
  }

  // --- glued reservations ---

  // Reservations beyond the first.
  function Extra(stints: seq<Stint>): nat { if stints == [] then 0 else |stints| - 1 }

  function ExtraAt(ds: seq<Delivery>, n: nat, i: nat): nat
    requires n > 0
  {
    if ds == [] then 0
    else
      var last := |ds| - 1;
      ExtraAt(ds[..last], n, i) + (if SlotOf(last, n) == i then Extra(ds[last].stints) else 0)
  }

  function ExtraIn(ds: seq<Delivery>): nat {
    if ds == [] then 0 else ExtraIn(ds[..|ds| - 1]) + Extra(ds[|ds| - 1].stints)
  }

  lemma {:induction false} ExtraCounts(ds: seq<Delivery>, n: nat, i: nat)
    requires n > 0 && forall k | 0 <= k < |ds| :: ds[k].stints != []
    ensures |TicketsOf(ds, n, i)| == |Numbers(|ds|, n, i)| + ExtraAt(ds, n, i)
    decreases |ds|
  {
    hide SlotOf;
    if ds != [] {
      ExtraCounts(ds[..|ds| - 1], n, i);
    }
  }

  lemma {:induction false} ExtraTotal(ds: seq<Delivery>, n: nat)
    requires n > 0
    ensures Total(seq(n, i requires 0 <= i < n => ExtraAt(ds, n, i))) == ExtraIn(ds)
    decreases |ds|
  {
    hide SlotOf, Extra;
    var counts := seq(n, i requires 0 <= i < n => ExtraAt(ds, n, i));
    if ds == [] {
      TotalZeros(counts);
    } else {
      var last := |ds| - 1;
      ExtraTotal(ds[..last], n);
      var before := seq(n, i requires 0 <= i < n => ExtraAt(ds[..last], n, i));
      var j := SlotOf(last, n);
      assert counts == before[j := before[j] + Extra(ds[last].stints)];
      TotalUpdate(before, j, before[j] + Extra(ds[last].stints));
    }
  }

  lemma {:induction false} NoExtra(ds: seq<Delivery>)
    ensures ExtraIn(ds) == 0 <==> forall k | 0 <= k < |ds| :: |ds[k].stints| <= 1
    decreases |ds|
  {
    if ds != [] {
      var rest := ds[..|ds| - 1];
      NoExtra(rest);
      assert forall k | 0 <= k < |rest| :: rest[k] == ds[k];
    }
  }

  ghost function Leftover(since: seq<seq<Stint>>): seq<nat> {
    seq(|since|, i requires 0 <= i < |since| => Extra(since[i]))
  }

  // Slot by slot, the overruns are the reservations glued onto an earlier one, in the
  // messages popped and in the one still there: counted, but not lost.
  lemma OverrunsAreGluedOn(c: Config, s: State)
    requires Reachable(c, s) && Quiet(s)
    ensures |s.log.overrun| == |s.log.since| == c.Capacity()
    ensures forall i | 0 <= i < c.Capacity() ::
              s.log.overrun[i] == ExtraAt(s.log.deliveries, c.Capacity(), i) + Extra(s.log.since[i])
    ensures Total(s.log.overrun) == ExtraIn(s.log.deliveries) + Total(Leftover(s.log.since))
  {
    hide Inv, Accounts, Quiet, Numbers, IsRun, Shape, Next, TicketsOf, ExtraAt;
    var n, ds := c.Capacity(), s.log.deliveries;
    var locked := AccountsOf(c, s);
    ReachableInv(c, s);
    QuietSlot(c, s, locked, 0);
    forall i | 0 <= i < n ensures s.log.overrun[i] == ExtraAt(ds, n, i) + Extra(s.log.since[i]) {
      QuietSlot(c, s, locked, i);
      ExtraCounts(ds, n, i);
    }
    TotalSum(s.log.overrun, seq(n, i requires 0 <= i < n => ExtraAt(ds, n, i)), Leftover(s.log.since));
    ExtraTotal(ds, n);
  }

  // With nobody inside: every message popped is the text of exactly one reservation, and
  // every slot holds at most one, if and only if no overrun was counted.
  lemma OneReservationEach(c: Config, s: State)
    requires Reachable(c, s) && Quiet(s)
    ensures Total(s.log.overrun) == 0 <==>
              && (forall k | 0 <= k < |s.log.deliveries| :: |s.log.deliveries[k].stints| == 1)
              && (forall i | 0 <= i < |s.log.since| :: |s.log.since[i]| <= 1)
  {
    hide Inv, Accounts, Quiet, Numbers, IsRun, Shape, Next, TicketsOf, ExtraAt, ExtraIn;
    OverrunsAreGluedOn(c, s);
    NoExtra(s.log.deliveries);
    TotalZero(Leftover(s.log.since));
    assert forall i | 0 <= i < |s.log.since| :: Leftover(s.log.since)[i] == Extra(s.log.since[i]);
    var locked := AccountsOf(c, s);
    ReachableInv(c, s);
    QuietSlot(c, s, locked, 0);
  }

  // --- ticket order ---

  // At any point of any run: the k-th message popped is that of ticket k alone, for all
  // of them, if and only if each is of a single reservation and the locks of every slot
  // were taken in ticket order as far as it has been popped.
  lemma FifoExactly(c: Config, actions: seq<Action>, states: seq<State>, m: nat)
    requires IsRun(c, actions, states) && m <= |actions|
    requires !states[m].consumer.Recycle?
    ensures var n, ds, locked := c.Capacity(), states[m].log.deliveries, LockOrder(c.Capacity(), actions, states, m);
            (forall k | 0 <= k < |ds| :: TicketsIn(ds[k].stints) == [k]) <==>
            (forall k | 0 <= k < |ds| :: |ds[k].stints| == 1) &&
            (forall i | 0 <= i < n :: Numbers(|ds|, n, i) <= locked[i])
  {
    hide Popped, Drawn, Filled, Numbers, TicketsOf, TicketsIn, LockOrder, Next, Shape, SlotOf;
    RunAccounts(c, actions, states, m);
    var n, ds, locked := c.Capacity(), states[m].log.deliveries, LockOrder(c.Capacity(), actions, states, m);
    forall i | 0 <= i < n ensures TicketsOf(ds, n, i) <= locked[i] {
    }
    if forall k | 0 <= k < |ds| :: TicketsIn(ds[k].stints) == [k] {
      forall i | 0 <= i < n ensures TicketsOf(ds, n, i) == Numbers(|ds|, n, i) {
        InTurn(ds, n, i);
      }
      assert forall k | 0 <= k < |ds| :: |ds[k].stints| == |TicketsIn(ds[k].stints)|;
    } else if (forall k | 0 <= k < |ds| :: |ds[k].stints| == 1)
              && forall i | 0 <= i < n :: Numbers(|ds|, n, i) <= locked[i] {
      forall i | 0 <= i < n ensures TicketsOf(ds, n, i) == Numbers(|ds|, n, i) {
        SinglesCount(ds, n, i);
      }
      TurnsAreTickets(ds, n);
    }
  }

  lemma {:induction false} SinglesCount(ds: seq<Delivery>, n: nat, i: nat)
    requires n > 0 && forall k | 0 <= k < |ds| :: |ds[k].stints| == 1
    ensures |TicketsOf(ds, n, i)| == |Numbers(|ds|, n, i)|
    decreases |ds|
  {
    hide SlotOf;
    if ds != [] { SinglesCount(ds[..|ds| - 1], n, i); }
  }

  lemma {:induction false} InTurn(ds: seq<Delivery>, n: nat, i: nat)
    requires n > 0 && forall k | 0 <= k < |ds| :: TicketsIn(ds[k].stints) == [k]
    ensures TicketsOf(ds, n, i) == Numbers(|ds|, n, i)
    decreases |ds|
  {
    hide SlotOf, TicketsIn;
    if ds != [] { InTurn(ds[..|ds| - 1], n, i); }
  }

  lemma {:induction false} TurnsAreTickets(ds: seq<Delivery>, n: nat)
    requires n > 0 && (forall k | 0 <= k < |ds| :: |ds[k].stints| == 1)
    requires forall i | 0 <= i < n :: TicketsOf(ds, n, i) == Numbers(|ds|, n, i)
    ensures forall k | 0 <= k < |ds| :: TicketsIn(ds[k].stints) == [k]
    decreases |ds|
  {
    hide SlotOf, TicketsIn;
    if ds != [] {
      var last := |ds| - 1;
      var init, j := ds[..last], SlotOf(last, n);
      forall i | 0 <= i < n ensures TicketsOf(init, n, i) == Numbers(last, n, i) {
        LastTurn(ds, n, i);
      }
      LastTurn(ds, n, j);
      assert forall k | 0 <= k < last :: init[k] == ds[k];
      TurnsAreTickets(init, n);
    }
  }

  lemma LastTurn(ds: seq<Delivery>, n: nat, i: nat)
    requires n > 0 && ds != [] && |ds[|ds| - 1].stints| == 1 && TicketsOf(ds, n, i) == Numbers(|ds|, n, i)
    ensures TicketsOf(ds[..|ds| - 1], n, i) == Numbers(|ds| - 1, n, i)
    ensures SlotOf(|ds| - 1, n) == i ==> TicketsIn(ds[|ds| - 1].stints) == [|ds| - 1]
  {
    hide SlotOf, TicketsIn;
    var last := |ds| - 1;
    var before, numbers := TicketsOf(ds[..last], n, i), Numbers(last, n, i);
    if SlotOf(last, n) == i {
      assert TicketsOf(ds, n, i) == before + TicketsIn(ds[last].stints) && Numbers(|ds|, n, i) == numbers + [last];
      LastEqual(before, TicketsIn(ds[last].stints), numbers, last);
    } else {
      assert TicketsOf(ds, n, i) == before + [] == before && Numbers(|ds|, n, i) == numbers + [] == numbers;
    }
  }

  lemma LastEqual(a: seq<nat>, x: seq<nat>, b: seq<nat>, y: nat)
    requires a + x == b + [y] && |x| == 1
    ensures a == b && x == [y]
  {
    assert a == (a + x)[..|a|] && b == (b + [y])[..|b|];
    assert x == (a + x)[|a|..] && [y] == (b + [y])[|b|..];
  }

  // A message of one ticket is what that ticket's holder wrote.
  lemma SingleIsWritten(c: Config, actions: seq<Action>, states: seq<State>, m: nat, d: Delivery)
    requires IsRun(c, actions, states) && m <= |actions| && d in states[m].log.deliveries && |d.stints| == 1
    ensures d.stints[0].ticket < |Written(actions, states, m)|
    ensures d.message == UpToNul(Clip(Written(actions, states, m)[d.stints[0].ticket], c.messageCapacity))
  {
    hide Inv, Shape, Next;
    DeliveredIsWritten(c, actions, states, m, d);
    assert d.stints[0] in d.stints && d.stints == [] + [d.stints[0]];
    JoinedSnoc([], d.stints[0]);
    assert "" + d.stints[0].text == d.stints[0].text;
  }
}
