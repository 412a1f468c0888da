// Conservation of what producers write: in every interleaving, overruns included, each
// reservation's text sits in exactly one place, and reaches the consumer at most once.
module RingConservation {
  import opened Basics
  import opened RingProtocol
  import opened RingInvariant
  import opened RingSteps
  import opened RingTheorems

  // What the holder of each ticket has written after n steps, read off the run itself.
  ghost function Written(actions: seq<Action>, states: seq<State>, n: nat): seq<string>
    requires n <= |actions| < |states|
  {
    if n == 0 then [] else WrittenStep(states[n - 1], actions[n - 1], Written(actions, states, n - 1))
  }

  ghost function WrittenStep(s: State, a: Action, texts: seq<string>): seq<string> {
    match a
    case Produce(p) => if p < |s.producers| && s.producers[p].Idle? then texts + [""] else texts
    case Fill(p, chunk) =>
      if p < |s.producers| && s.producers[p].Filling? && s.producers[p].ticket < |texts| then
        var k := s.producers[p].ticket;
        texts[k := texts[k] + chunk]
      else texts
    case _ => texts
  }

  ghost predicate Present(k: nat, stints: seq<Stint>) {
    exists st <- stints :: st.ticket == k
  }

  ghost predicate Delivered(k: nat, ds: seq<Delivery>) {
    exists d <- ds :: Present(k, d.stints)
  }

  // Drawn, and still on the way to the slot's lock.
  predicate EnRoute(pc: ProducerPc) { pc.Masking() || pc.Spin? }

  ghost predicate Origins(n: nat, owner: seq<nat>, since: seq<seq<Stint>>, ps: seq<ProducerPc>, consumer: ConsumerPc,
                          ds: seq<Delivery>, texts: seq<string>)
  {
    && n > 0 && |since| == n && |texts| == |owner|
    && (forall i | 0 <= i < n :: forall st <- since[i] :: StintOk(n, i, st, texts, consumer, ds))
    && (forall d <- ds :: forall st <- d.stints :: st.ticket < |texts| && st.text == texts[st.ticket])
    && (forall p | 0 <= p < |ps| :: PcOk(n, ps[p], since, ds, texts))
    && (forall k | 0 <= k < |owner| :: Placed(n, k, owner[k], since, ps, ds))
    && (forall x, y, k | 0 <= x < y < |ds| && Present(k, ds[x].stints) :: !Present(k, ds[y].stints))
    && (forall i | 0 <= i < n :: Distinct(since[i]))
    && (forall d <- ds :: Distinct(d.stints))
    && (forall i | 0 <= i < n && consumer == Recycle(i) :: ds != [] && ds[|ds| - 1].stints == since[i])
  }

  ghost predicate Distinct(stints: seq<Stint>) {
    forall x, y | 0 <= x < y < |stints| :: stints[x].ticket != stints[y].ticket
  }

  ghost predicate StintOk(n: nat, i: nat, st: Stint, texts: seq<string>, consumer: ConsumerPc, ds: seq<Delivery>)
    requires n > 0
  {
    && st.ticket < |texts| && st.ticket % n == i && st.text == texts[st.ticket]
    && (consumer != Recycle(i) ==> !Delivered(st.ticket, ds))
  }

  ghost predicate PcOk(n: nat, pc: ProducerPc, since: seq<seq<Stint>>, ds: seq<Delivery>, texts: seq<string>)
    requires n > 0 && |since| == n
  {
    && (!pc.Idle? ==> !Delivered(pc.ticket, ds))
    && (EnRoute(pc) ==> pc.ticket < |texts| && texts[pc.ticket] == "" && !Present(pc.ticket, since[pc.ticket % n]))
  }

  ghost predicate Placed(n: nat, k: nat, p: nat, since: seq<seq<Stint>>, ps: seq<ProducerPc>, ds: seq<Delivery>)
    requires n > 0 && |since| == n
  {
    (p < |ps| && EnRoute(ps[p]) && ps[p].ticket == k) || Present(k, since[k % n]) || Delivered(k, ds)
  }

  // --- steps ---

  lemma OriginsIssue(n: nat, owner: seq<nat>, since: seq<seq<Stint>>, ps: seq<ProducerPc>, consumer: ConsumerPc,
                     ds: seq<Delivery>, texts: seq<string>, p: nat, pc: ProducerPc)
    requires Origins(n, owner, since, ps, consumer, ds, texts) && p < |ps| && ps[p].Idle?
    requires EnRoute(pc) && pc.ticket == |owner|
    ensures Origins(n, owner + [p], since, ps[p := pc], consumer, ds, texts + [""])
  {
    var texts', ps' := texts + [""], ps[p := pc];
    forall q | 0 <= q < |ps| ensures PcOk(n, ps'[q], since, ds, texts') {
      assert PcOk(n, ps[q], since, ds, texts);
    }
    forall k | 0 <= k < |owner| + 1 ensures Placed(n, k, (owner + [p])[k], since, ps', ds) {
      assert k < |owner| ==> Placed(n, k, owner[k], since, ps, ds);
    }
  }

  lemma OriginsMove(n: nat, owner: seq<nat>, since: seq<seq<Stint>>, ps: seq<ProducerPc>, consumer: ConsumerPc,
                    ds: seq<Delivery>, texts: seq<string>, p: nat, pc: ProducerPc)
    requires Origins(n, owner, since, ps, consumer, ds, texts) && p < |ps| && !ps[p].Idle?
    requires EnRoute(pc) == EnRoute(ps[p]) && (!pc.Idle? ==> pc.ticket == ps[p].ticket)
    ensures Origins(n, owner, since, ps[p := pc], consumer, ds, texts)
  {
    forall k | 0 <= k < |owner| ensures Placed(n, k, owner[k], since, ps[p := pc], ds) {
      assert Placed(n, k, owner[k], since, ps, ds);
    }
  }

  lemma PresentSnoc(k: nat, stints: seq<Stint>, st: Stint)
    ensures Present(k, stints + [st]) <==> Present(k, stints) || st.ticket == k
  {
    assert st in stints + [st];
    if Present(k, stints) {
      var x :| x in stints && x.ticket == k;
      assert x in stints + [st];
    }
  }

  lemma TicketsSlot(n: nat, head: nat, owner: seq<nat>, ps: seq<ProducerPc>, p: nat)
    requires n > 0 && Tickets(n, head, owner, ps) && p < |ps| && ps[p].Spin?
    ensures ps[p].ticket < |owner| && ps[p].slot == ps[p].ticket % n
    ensures forall q | 0 <= q < |ps| && !ps[q].Idle? && ps[q].ticket == ps[p].ticket :: q == p
  {
  }

  lemma OriginsTake(n: nat, head: nat, owner: seq<nat>, since: seq<seq<Stint>>, ps: seq<ProducerPc>,
                    consumer: ConsumerPc, ds: seq<Delivery>, texts: seq<string>, p: nat, pc: ProducerPc)
    requires Origins(n, owner, since, ps, consumer, ds, texts) && p < |ps| && ps[p].Spin?
    requires Tickets(n, head, owner, ps)
    requires pc.Holding() && pc.ticket == ps[p].ticket && pc.slot == ps[p].slot && pc.slot < n
    requires consumer != Recycle(pc.slot)
    ensures Origins(n, owner, since[pc.slot := since[pc.slot] + [Stint(pc.ticket, "")]], ps[p := pc], consumer, ds, texts)
  {
    hide Distinct, Tickets;
    var i, st := pc.slot, Stint(pc.ticket, "");
    var since', ps' := since[i := since[i] + [st]], ps[p := pc];
    TicketsSlot(n, head, owner, ps, p);
    assert PcOk(n, ps[p], since, ds, texts);
    forall j | 0 <= j < n, x <- since'[j] ensures StintOk(n, j, x, texts, consumer, ds) {
      if x in since[j] { assert StintOk(n, j, x, texts, consumer, ds); }
    }
    forall q | 0 <= q < |ps| ensures PcOk(n, ps'[q], since', ds, texts) {
      assert PcOk(n, ps[q], since, ds, texts);
      if EnRoute(ps'[q]) { PresentSnoc(ps[q].ticket, since[i], st); }
    }
    forall k | 0 <= k < |owner| ensures Placed(n, k, owner[k], since', ps', ds) {
      assert Placed(n, k, owner[k], since, ps, ds);
      PresentSnoc(k, since[i], st);
    }
    DistinctSnoc(since[i], st);
  }

  lemma DistinctSnoc(stints: seq<Stint>, st: Stint)
    requires Distinct(stints) && !Present(st.ticket, stints)
    ensures Distinct(stints + [st])
  {
    forall x | 0 <= x < |stints| ensures stints[x].ticket != st.ticket {
      assert stints[x] in stints;
    }
  }

  lemma StintAppend(n: nat, since: seq<seq<Stint>>, consumer: ConsumerPc, ds: seq<Delivery>, texts: seq<string>, i: nat,
                    chunk: string, j: nat, x: Stint)
    requires n > 0 && |since| == n && i < n && j < n && since[i] != [] && Distinct(since[i])
    requires forall y | 0 <= y < n :: forall st <- since[y] :: StintOk(n, y, st, texts, consumer, ds)
    requires var init, last := since[i][..|since[i]| - 1], since[i][|since[i]| - 1];
             x in since[i := init + [Stint(last.ticket, last.text + chunk)]][j]
    ensures var k := since[i][|since[i]| - 1].ticket;
            k < |texts| && StintOk(n, j, x, texts[k := texts[k] + chunk], consumer, ds)
  {
    var init, last := since[i][..|since[i]| - 1], since[i][|since[i]| - 1];
    assert StintOk(n, i, last, texts, consumer, ds);
    if j != i {
      assert StintOk(n, j, x, texts, consumer, ds);
    } else if x in init {
      var y :| 0 <= y < |init| && init[y] == x;
      assert since[i][y] == x && since[i][y].ticket != since[i][|init|].ticket;
      assert StintOk(n, j, x, texts, consumer, ds);
    }
  }

  // Writing to the last reservation of a slot, whose ticket is nowhere else.
  lemma OriginsAppend(n: nat, owner: seq<nat>, since: seq<seq<Stint>>, ps: seq<ProducerPc>, consumer: ConsumerPc,
                      ds: seq<Delivery>, texts: seq<string>, i: nat, chunk: string, p: nat)
    requires Origins(n, owner, since, ps, consumer, ds, texts) && i < n && since[i] != [] && consumer != Recycle(i)
    requires p < |ps| && ps[p].Filling? && ps[p].ticket == since[i][|since[i]| - 1].ticket
    ensures var init, last := since[i][..|since[i]| - 1], since[i][|since[i]| - 1];
            && last.ticket < |texts|
            && Origins(n, owner, since[i := init + [Stint(last.ticket, last.text + chunk)]], ps, consumer, ds,
                       texts[last.ticket := texts[last.ticket] + chunk])
  {
    var init, last := since[i][..|since[i]| - 1], since[i][|since[i]| - 1];
    assert since[i] == init + [last] && last in since[i];
    var k := last.ticket;
    assert PcOk(n, ps[p], since, ds, texts);
    var st := Stint(k, last.text + chunk);
    var texts', since' := texts[k := texts[k] + chunk], since[i := init + [st]];
    forall j | 0 <= j < n, x <- since'[j] ensures StintOk(n, j, x, texts', consumer, ds) {
      StintAppend(n, since, consumer, ds, texts, i, chunk, j, x);
    }
    forall d | d in ds, x <- d.stints ensures x.ticket < |texts'| && x.text == texts'[x.ticket] {
      assert Present(x.ticket, d.stints);
    }
    forall q | 0 <= q < |ps| ensures PcOk(n, ps[q], since', ds, texts') {
      assert PcOk(n, ps[q], since, ds, texts);
      if EnRoute(ps[q]) {
        PresentSnoc(ps[q].ticket, init, st);
        PresentSnoc(ps[q].ticket, init, last);
      }
    }
    forall q | 0 <= q < |owner| ensures Placed(n, q, owner[q], since', ps, ds) {
      assert Placed(n, q, owner[q], since, ps, ds);
      PresentSnoc(q, init, st);
      PresentSnoc(q, init, last);
    }
    assert Distinct(since'[i]);
  }

  lemma OriginsTakeCopy(n: nat, head: nat, owner: seq<nat>, since: seq<seq<Stint>>, ps: seq<ProducerPc>,
                        consumer: ConsumerPc, ds: seq<Delivery>, texts: seq<string>, i: nat, message: string,
                        busy: seq<bool>, holder: seq<Holder>)
    requires Origins(n, owner, since, ps, consumer, ds, texts) && i < n && consumer == Copy(i)
    requires Locks(busy, holder, ps, consumer) && Tickets(n, head, owner, ps) && |busy| == n
    ensures Origins(n, owner, since, ps, Recycle(i), ds + [Delivery(message, since[i])], texts)
  {
    var d := Delivery(message, since[i]);
    var ds' := ds + [d];
    forall j | 0 <= j < n, st <- since[j] ensures StintOk(n, j, st, texts, Recycle(i), ds') {
      assert StintOk(n, j, st, texts, consumer, ds);
      if j != i {
        forall x | x in since[i] ensures x.ticket != st.ticket {
          assert StintOk(n, i, x, texts, consumer, ds);
        }
      }
    }
    forall q | 0 <= q < |ps| ensures PcOk(n, ps[q], since, ds', texts) {
      assert PcOk(n, ps[q], since, ds, texts);
      if !ps[q].Idle? {
        forall x | x in since[i] ensures x.ticket != ps[q].ticket {
          assert StintOk(n, i, x, texts, consumer, ds);
        }
      }
    }
    forall k | 0 <= k < |owner| ensures Placed(n, k, owner[k], since, ps, ds') {
      assert Placed(n, k, owner[k], since, ps, ds);
      if Delivered(k, ds) {
        var e :| e in ds && Present(k, e.stints);
        assert e in ds';
      }
    }
    forall st | st in since[i] ensures !Delivered(st.ticket, ds) {
      assert StintOk(n, i, st, texts, consumer, ds);
    }
    forall x, y, k | 0 <= x < y < |ds'| && Present(k, ds'[x].stints) ensures !Present(k, ds'[y].stints) {
      assert ds[x] in ds;
    }
  }

  lemma OriginsRecycle(n: nat, owner: seq<nat>, since: seq<seq<Stint>>, ps: seq<ProducerPc>, ds: seq<Delivery>,
                       texts: seq<string>, i: nat)
    requires Origins(n, owner, since, ps, Recycle(i), ds, texts) && i < n
    ensures Origins(n, owner, since[i := []], ps, ClearData(i), ds, texts)
  {
    var since' := since[i := []];
    forall q | 0 <= q < |ps| ensures PcOk(n, ps[q], since', ds, texts) {
      assert PcOk(n, ps[q], since, ds, texts);
    }
    forall k | 0 <= k < |owner| ensures Placed(n, k, owner[k], since', ps, ds) {
      assert Placed(n, k, owner[k], since, ps, ds);
      if k % n == i && Present(k, since[i]) {
        assert ds[|ds| - 1] in ds;
      }
    }
    forall j | 0 <= j < n, st <- since'[j] ensures StintOk(n, j, st, texts, ClearData(i), ds) {
      assert StintOk(n, j, st, texts, Recycle(i), ds);
    }
  }

  lemma OriginsConsumer(n: nat, owner: seq<nat>, since: seq<seq<Stint>>, ps: seq<ProducerPc>, before: ConsumerPc,
                        after: ConsumerPc, ds: seq<Delivery>, texts: seq<string>)
    requires Origins(n, owner, since, ps, before, ds, texts) && !before.Recycle? && !after.Recycle?
    ensures Origins(n, owner, since, ps, after, ds, texts)
  {
    forall j | 0 <= j < n, st <- since[j] ensures StintOk(n, j, st, texts, after, ds) {
      assert StintOk(n, j, st, texts, before, ds);
    }
  }

  // --- whole states and runs ---

  ghost predicate OriginsState(c: Config, s: State, texts: seq<string>) {
    Origins(c.Capacity(), s.log.owner, s.log.since, s.producers, s.consumer, s.log.deliveries, texts)
  }

  lemma OriginsByProducer(c: Config, s: State, p: nat, texts: seq<string>)
    requires Inv(c, s) && OriginsState(c, s, texts) && p < |s.producers| && StepProducer(c, s, p).Some?
    ensures OriginsState(c, StepProducer(c, s, p).value, if s.producers[p].Idle? then texts + [""] else texts)
  {
    hide Origins, Tickets, Locks, Texts, Books, Overflows, Stints;
    var n := c.Capacity();
    var pc := s.producers[p];
    var pc' := StepProducer(c, s, p).value.producers[p];
    if pc.Idle? {
      OriginsIssue(n, s.log.owner, s.log.since, s.producers, s.consumer, s.log.deliveries, texts, p, pc');
    } else if pc.Spin? && !s.busy[pc.slot] {
      FreeSlot(c, s, pc.slot);
      OriginsTake(n, s.head, s.log.owner, s.log.since, s.producers, s.consumer, s.log.deliveries, texts, p, pc');
    } else {
      OriginsMove(n, s.log.owner, s.log.since, s.producers, s.consumer, s.log.deliveries, texts, p, pc');
    }
  }

  lemma FreeSlot(c: Config, s: State, i: nat)
    requires Inv(c, s) && i < c.Capacity()
    ensures !s.busy[i] ==> s.consumer != Recycle(i)
    ensures s.log.holder[i].ByProducer? ==> s.consumer != Recycle(i)
  {
    hide Tickets, Texts, Books, Overflows, Stints;
  }

  lemma OriginsByOwner(c: Config, s: State, p: nat, chunk: string, texts: seq<string>)
    requires Inv(c, s) && OriginsState(c, s, texts) && p < |s.producers| && s.producers[p].Filling?
    ensures s.producers[p].ticket < |texts|
    ensures OriginsState(c, Release(c, s, p), texts)
    ensures var k := s.producers[p].ticket;
            OriginsState(c, Append(c, s, p, chunk), texts[k := texts[k] + chunk])
  {
    hide Origins, Tickets, Texts, Books, Overflows;
    var i := s.producers[p].slot;
    FreeSlot(c, s, i);
    OriginsMove(c.Capacity(), s.log.owner, s.log.since, s.producers, s.consumer, s.log.deliveries, texts, p, Idle);
    OriginsAppend(c.Capacity(), s.log.owner, s.log.since, s.producers, s.consumer, s.log.deliveries, texts, i, chunk, p);
  }

  lemma OriginsByConsumer(c: Config, s: State, texts: seq<string>)
    requires Inv(c, s) && OriginsState(c, s, texts) && StepConsumer(c, s).Some?
    ensures OriginsState(c, StepConsumer(c, s).value, texts)
  {
    hide Origins, Tickets, Locks, Texts, Books, Overflows, Stints;
    var n := c.Capacity();
    match s.consumer {
      case Ready =>
      case Copy(i) =>
        OriginsTakeCopy(n, s.head, s.log.owner, s.log.since, s.producers, s.consumer, s.log.deliveries, texts, i,
                        UpToNul(s.elements[i]), s.busy, s.log.holder);
      case Recycle(i) =>
        OriginsRecycle(n, s.log.owner, s.log.since, s.producers, s.log.deliveries, texts, i);
      case _ =>
        OriginsConsumer(n, s.log.owner, s.log.since, s.producers, s.consumer, StepConsumer(c, s).value.consumer,
                        s.log.deliveries, texts);
    }
  }

  lemma OriginsByStart(c: Config, s: State, texts: seq<string>)
    requires Inv(c, s) && OriginsState(c, s, texts) && s.consumer.Ready?
    ensures OriginsState(c, TestFirst(c, s), texts)
    ensures OriginsState(c, s.(consumer := Resetting(s.resettable)), texts)
  {
    hide Origins, Tickets, Locks, Texts, Books, Overflows, Stints;
    OriginsConsumer(c.Capacity(), s.log.owner, s.log.since, s.producers, s.consumer, TestFirst(c, s).consumer,
                    s.log.deliveries, texts);
    OriginsConsumer(c.Capacity(), s.log.owner, s.log.since, s.producers, s.consumer, Resetting(s.resettable),
                    s.log.deliveries, texts);
  }

  lemma OriginsStep(c: Config, s: State, a: Action, texts: seq<string>)
    requires Inv(c, s) && OriginsState(c, s, texts) && Next(c, s, a).Some? && |texts| == |s.log.owner|
    ensures OriginsState(c, Next(c, s, a).value, WrittenStep(s, a, texts))
  {
    hide Origins, Tickets, Locks, Texts, Books, Overflows, Stints;
    match a {
      case Produce(p) => OriginsByProducer(c, s, p, texts);
      case Fill(p, chunk) => OriginsByOwner(c, s, p, chunk, texts);
      case Commit(p) => OriginsByOwner(c, s, p, "", texts);
      case StartReset => OriginsByStart(c, s, texts);
      case StartPop => OriginsByStart(c, s, texts);
      case Consume => OriginsByConsumer(c, s, texts);
    }
  }

  lemma {:induction false} OriginsRun(c: Config, actions: seq<Action>, states: seq<State>, n: nat)
    requires IsRun(c, actions, states) && n <= |actions|
    ensures OriginsState(c, states[n], Written(actions, states, n))
    ensures |Written(actions, states, n)| == |states[n].log.owner|
    decreases n
  {
    hide Inv, Shape, Next, WrittenStep, Origins;
    if n == 0 {
      NothingWritten(c);
    } else {
      OriginsRun(c, actions, states, n - 1);
      RunInv(c, actions, states, n - 1);
      OriginsStep(c, states[n - 1], actions[n - 1], Written(actions, states, n - 1));
    }
    OriginsSize(c, states[n], Written(actions, states, n));
  }

  lemma NothingWritten(c: Config)
    requires c.Valid()
    ensures OriginsState(c, Init(c), [])
  {
  }

  lemma OriginsSize(c: Config, s: State, texts: seq<string>)
    requires OriginsState(c, s, texts)
    ensures |texts| == |s.log.owner|
  {
  }

  // Every drawn ticket is in one place: on its way to the lock, in its slot, or in one
  // delivery. Nothing written is dropped (beyond the cut at the message capacity) and
  // nothing is delivered twice, even when overruns occur.
  lemma EachTicketOnce(c: Config, s: State, k: nat)
    requires Reachable(c, s) && k < |s.log.owner|
    ensures |s.log.since| == c.Capacity()
    ensures Placed(c.Capacity(), k, s.log.owner[k], s.log.since, s.producers, s.log.deliveries)
    ensures Delivered(k, s.log.deliveries) && !s.consumer.Recycle? ==> !Present(k, s.log.since[k % c.Capacity()])
    ensures forall x, y | 0 <= x < y < |s.log.deliveries| && Present(k, s.log.deliveries[x].stints) ::
              !Present(k, s.log.deliveries[y].stints)
  {
    hide Inv, Shape, Next, WrittenStep;
    var actions, states :| IsRun(c, actions, states) && states[|actions|] == s;
    OriginsRun(c, actions, states, |actions|);
    var i := k % c.Capacity();
    if Present(k, s.log.since[i]) {
      var st :| st in s.log.since[i] && st.ticket == k;
      assert StintOk(c.Capacity(), i, st, Written(actions, states, |actions|), s.consumer, s.log.deliveries);
    }
  }

  // What a reservation contributes to a message is exactly what its holder wrote.
  lemma DeliveredIsWritten(c: Config, actions: seq<Action>, states: seq<State>, n: nat, d: Delivery)
    requires IsRun(c, actions, states) && n <= |actions| && d in states[n].log.deliveries
    ensures forall st <- d.stints ::
              st.ticket < |Written(actions, states, n)| && st.text == Written(actions, states, n)[st.ticket]
    ensures d.message == UpToNul(Clip(Joined(d.stints), c.messageCapacity))
  {
    hide Shape, Next, WrittenStep, Locks, Tickets, Books, Overflows, Stints;
    RunInv(c, actions, states, n);
    OriginsRun(c, actions, states, n);
  }
}
