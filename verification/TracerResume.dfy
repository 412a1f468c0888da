// Exactly when all goes well after a resume, and what the module's own way of suspending,
// from functions whose frames come and go, makes of it.
module TracerResume {
  import opened Basics
  import opened TracerSpec
  import opened Tracer
  import opened TracerRuns
  import opened TracerSuspend

  // Every mark stands for its greenlet's stack.
  ghost predicate Stands(p: Paused, filter: Filter) {
    forall g | g in p.spec.tracked && g in p.kept :: StandsFor(p, g, filter)
  }

  function TraceRun(p: Paused, events: seq<Event>, filter: Filter): Paused {
    if events == [] then p else TraceStep(TraceRun(p, events[..|events| - 1], filter), events[|events| - 1], filter)
  }

  lemma {:induction false} TraceRunWorld(p: Paused, events: seq<Event>, filter: Filter)
    ensures var q := TraceRun(p, events, filter);
            q.spec.world == WorldAfter(p.spec.world, events) && q.enabled == p.enabled
    decreases |events|
  {
    hide TraceStep;
    if events != [] {
      TraceRunWorld(p, events[..|events| - 1], filter);
      TraceSpec(TraceRun(p, events[..|events| - 1], filter), events[|events| - 1], filter);
    }
  }

  lemma {:induction false} TraceRunSound(p: Paused, events: seq<Event>, filter: Filter)
    requires Sound(p, filter)
    ensures Sound(TraceRun(p, events, filter), filter)
    decreases |events|
  {
    hide Sound, TraceStep;
    if events != [] {
      TraceRunSound(p, events[..|events| - 1], filter);
      StepSound(TraceRun(p, events[..|events| - 1], filter), events[|events| - 1], filter);
    }
  }

  // --- standing marks go on standing ---

  lemma StandingTrusted(p: Paused, e: Event, filter: Filter)
    requires Sound(p, filter) && Stands(p, filter)
    ensures Trusted(p, e, filter)
  {
    hide StandsFor, SureOf;
  }

  lemma StepStands(p: Paused, e: Event, filter: Filter)
    requires Sound(p, filter) && Stands(p, filter) && p.enabled > 0
    ensures Stands(TraceStep(p, e, filter), filter)
  {
    hide Encodes, SureOf, MarkLine, Line, NextMark;
    var g, st := p.spec.world.current, StackOf(p.spec.world, p.spec.world.current);
    match e
    case Switch(_) => SwitchStacks(p.spec.world, e);
    case Call(f) =>
      var t := TrackedOn(p.spec, g, |st| + 1, Entered);
      FreshEncodes(st, t, filter);
      OnCall(KeptOf(p, g).mark, st, f, t, filter);
    case Return =>
      if st != [] {
        var t := TrackedOn(p.spec, g, |st|, Left);
        FreshEncodes(st, t, filter);
        OnReturn(KeptOf(p, g).mark, st, t, filter);
      }
  }

  lemma {:induction false} StandsForever(p: Paused, events: seq<Event>, filter: Filter)
    requires Sound(p, filter) && Stands(p, filter) && p.enabled > 0 && p.log == p.spec.log
    ensures var q := TraceRun(p, events, filter); Stands(q, filter) && q.log == q.spec.log
    decreases |events|
  {
    hide Sound, Stands, TraceStep, Trusted;
    if events != [] {
      var init, e := events[..|events| - 1], events[|events| - 1];
      StandsForever(p, init, filter);
      TraceRunSound(p, init, filter);
      TraceRunWorld(p, init, filter);
      var q := TraceRun(p, init, filter);
      StandingTrusted(q, e, filter);
      TrustedLine(q, e, filter);
      StepStands(q, e, filter);
    }
  }

  // --- marks that do not stand show sooner or later ---

  // A mark that does not stand, although it gives the next call its right line: then the
  // frame on top returns to one that does not stand either.
  lemma ReturnToo(mark: int, st: seq<Frame>, f: Frame, t: Tracked, filter: Filter)
    requires st != [] && t.base <= |st| && !Encodes(mark, st, t, filter) && Logs(filter.level(f.code))
    requires mark == NO_TRACE_FROM_DEPTH_DISABLED || t.base - t.offset < mark < NO_TRACE_FROM_DEPTH_DISABLED
    requires MarkLine(mark, st + [f], 0, Entered, t, filter) == Line(st + [f], 0, Entered, t, filter)
    ensures var h := |st| - 1;
            && h > 0 && t.base <= h
            && !Encodes(NextMark(mark, |st| - t.offset, filter.level(st[h].code)), st[..h], t, filter)
  {
    var h, first := |st| - 1, FirstNested(st, t.base, filter);
    assert (st + [f])[|st|] == f && forall i | 0 <= i < |st| :: (st + [f])[i] == st[i];
    assert Suppressed(st + [f], t.base, |st|, filter) <==> first < |st| by {
      if first < |st| { assert NestedAt((st + [f])[first], filter); }
    }
    assert h > 0 && t.base <= h;
    var first' := FirstNested(st[..h], t.base, filter);
    assert forall i | 0 <= i < h :: st[..h][i] == st[i];
    assert first' == if first < h then first else h by {
      if first < h { assert NestedAt(st[..h][first], filter); }
    }
  }

  // What of a line depends on the greenlet's number.
  lemma AnyGid(mark: int, st: seq<Frame>, gid: nat, kind: Kind, t: Tracked, filter: Filter)
    requires st != []
    ensures MarkLine(mark, st, gid, kind, t, filter) == Line(st, gid, kind, t, filter)
       <==> MarkLine(mark, st, 0, Entered, t, filter) == Line(st, 0, Entered, t, filter)
  {
  }

  // A line more than has been told, on either side.
  lemma LogsApart(p: Paused, e: Event, filter: Filter)
    requires p.enabled > 0 && p.log == p.spec.log && Subject(p.spec.world, e) != []
    ensures var g, st := p.spec.world.current, Subject(p.spec.world, e);
            var t, q := TrackedOn(p.spec, g, |st|, KindOf(e)), TraceStep(p, e, filter);
            q.log == q.spec.log <==>
            MarkLine(KeptOf(p, g).mark, st, g, KindOf(e), t, filter) == Line(st, g, KindOf(e), t, filter)
  {
    hide Line, MarkLine, KeptAfter;
    var g, st := p.spec.world.current, Subject(p.spec.world, e);
    var t, q := TrackedOn(p.spec, g, |st|, KindOf(e)), TraceStep(p, e, filter);
    var mine, theirs := MarkLine(KeptOf(p, g).mark, st, g, KindOf(e), t, filter), Line(st, g, KindOf(e), t, filter);
    assert q.log == p.log + mine && q.spec.log == p.log + theirs;
    assert q.log[|p.log|..] == mine && q.spec.log[|p.log|..] == theirs;
  }

  ghost predicate Continues(w: World, events: seq<Event>, filter: Filter) {
    AllowedRun(w, events) && Covers(filter, w, events)
  }

  // One more event of a continuation.
  lemma Onward(o: Paused, done: seq<Event>, e: Event, filter: Filter)
    requires Continues(o.spec.world, done, filter) && Allowed(TraceRun(o, done, filter).spec.world, e)
    requires e.Call? ==> e.frame.code in filter.codes
    ensures Continues(o.spec.world, done + [e], filter)
    ensures TraceRun(o, done + [e], filter) == TraceStep(TraceRun(o, done, filter), e, filter)
  {
    hide Sane, TraceStep, CoversWorld;
    TraceRunWorld(o, done, filter);
    StartSane(o.spec.world, done);
    assert (done + [e])[..|done|] == done;
  }

  lemma {:induction false} Bound(xs: set<nat>) returns (b: nat)
    ensures forall x | x in xs :: x < b
  {
    if xs == {} {
      b := 0;
    } else {
      var x :| x in xs;
      var rest := xs - {x};
      b := Bound(rest);
      b := b + x + 1;
      assert forall y | y in xs :: y == x || y in rest;
    }
  }

  // There is always an address that no live frame has.
  lemma FreeAddr(w: World) returns (a: nat)
    ensures a != 0 && forall g, i | 0 <= i < Height(w, g) :: StackOf(w, g)[i].addr != a
  {
    var used := set g, i | g in w.stacks && 0 <= i < |w.stacks[g]| :: w.stacks[g][i].addr;
    a := Bound(used);
    a := a + 1;
    forall g, i | 0 <= i < Height(w, g) ensures StackOf(w, g)[i].addr != a {
      assert StackOf(w, g)[i].addr in used;
    }
  }

  // Calling a new frame, returning and switching are always allowed.
  lemma CallAllowed(w: World, f: Frame)
    requires Sane(w) && Height(w, w.current) > 0
    requires f.addr != 0 && forall g, i | 0 <= i < Height(w, g) :: StackOf(w, g)[i].addr != f.addr
    ensures Allowed(w, Call(f))
  {
    hide Sane;
    MoreSane(w, StepWorld(w, Call(f)), w.current, f);
  }

  lemma MoreSane(w: World, w': World, g: nat, f: Frame)
    requires Sane(w) && Height(w, g) > 0
    requires f.addr != 0 && forall h, i | 0 <= i < Height(w, h) :: StackOf(w, h)[i].addr != f.addr
    requires StackOf(w', g) == StackOf(w, g) + [f] && forall h | h != g :: StackOf(w', h) == StackOf(w, h)
    ensures Sane(w')
  {
    hide StackOf, KeyBytes;
  }

  lemma ReturnAllowed(w: World)
    requires Sane(w) && Height(w, w.current) > 0
    ensures Allowed(w, Return)
  {
    hide Sane;
    FewerSane(w, StepWorld(w, Return));
  }

  lemma FewerSane(w: World, w': World)
    requires Sane(w) && forall g :: StackOf(w', g) <= StackOf(w, g)
    ensures Sane(w')
  {
    hide StackOf, KeyBytes;
    assert forall g, i | 0 <= i < Height(w', g) :: StackOf(w', g)[i] == StackOf(w, g)[i];
  }

  lemma SwitchAllowed(w: World, g: nat)
    requires Sane(w)
    ensures Allowed(w, Switch(g))
  {
    SwitchStacks(w, Switch(g));
  }

  // The running greenlet's mark does not stand: calling a function that is logged, after
  // so and so many returns, gives a line too many or too few.
  lemma {:induction false} Deviates(o: Paused, done: seq<Event>, code: nat, filter: Filter) returns (events: seq<Event>)
    requires Continues(o.spec.world, done, filter) && code in filter.codes && Logs(filter.level(code))
    requires var p := TraceRun(o, done, filter);
             && Sound(p, filter) && p.enabled > 0 && p.log == p.spec.log && Sane(p.spec.world)
             && p.spec.world.current in p.spec.tracked && !StandsFor(p, p.spec.world.current, filter)
    ensures Continues(o.spec.world, events, filter)
    ensures TraceRun(o, events, filter).log != TraceRun(o, events, filter).spec.log
    decreases Height(TraceRun(o, done, filter).spec.world, TraceRun(o, done, filter).spec.world.current)
  {
    hide Sound, TraceStep, Continues, Sane, Encodes, MarkLine, Line;
    var p := TraceRun(o, done, filter);
    TrackedAlive(p, filter);
    var addr := FreeAddr(p.spec.world);
    var f := Frame(addr, code);
    CallAllowed(p.spec.world, f);
    Onward(o, done, Call(f), filter);
    events := done + [Call(f)];
    if TraceRun(o, events, filter).log == TraceRun(o, events, filter).spec.log {
      ReturnAllowed(p.spec.world);
      Onward(o, done, Return, filter);
      events := done + [Return];
      if TraceRun(o, events, filter).log == TraceRun(o, events, filter).spec.log {
        ReturnStays(p, f, filter);
        events := Deviates(o, events, code, filter);
      }
    }
  }

  lemma TrackedAlive(p: Paused, filter: Filter)
    requires Sound(p, filter)
    ensures p.kept.Keys == p.spec.tracked.Keys && forall g | g in p.spec.tracked :: Height(p.spec.world, g) > 0
  {
  }

  lemma ReturnStays(p: Paused, f: Frame, filter: Filter)
    requires Sound(p, filter) && p.enabled > 0 && p.log == p.spec.log && Logs(filter.level(f.code))
    requires Allowed(p.spec.world, Return)
    requires p.spec.world.current in p.spec.tracked && !StandsFor(p, p.spec.world.current, filter)
    requires TraceStep(p, Call(f), filter).log == TraceStep(p, Call(f), filter).spec.log
    ensures var q, g := TraceStep(p, Return, filter), p.spec.world.current;
            && Sound(q, filter) && q.enabled > 0 && Sane(q.spec.world) && q.spec.world.current == g
            && Height(q.spec.world, g) < Height(p.spec.world, g)
            && g in q.spec.tracked && !StandsFor(q, g, filter)
  {
    hide Sane, Encodes, MarkLine, Line, SureOf, NextMark;
    var g, st := p.spec.world.current, StackOf(p.spec.world, p.spec.world.current);
    var t, mark := p.spec.tracked[g], p.kept[g].mark;
    SureBounds(p.kept[g], st, t, filter);
    LogsApart(p, Call(f), filter);
    AnyGid(mark, st + [f], g, Entered, t, filter);
    ReturnToo(mark, st, f, t, filter);
    StepSound(p, Return, filter);
    TraceSpec(p, Return, filter);
    TraceKept(p, Return, filter);
  }

  lemma SureBounds(k: Kept, st: seq<Frame>, t: Tracked, filter: Filter)
    requires SureOf(k, st, t, filter)
    ensures t.base <= |st|
    ensures k.mark == NO_TRACE_FROM_DEPTH_DISABLED || t.base - t.offset < k.mark < NO_TRACE_FROM_DEPTH_DISABLED
  {
  }

  // --- and if no function is ever logged they do not matter ---

  ghost predicate NeverLogs(filter: Filter) {
    forall c | c in filter.codes :: !Logs(filter.level(c))
  }

  lemma {:induction false} NothingEitherWay(p: Paused, events: seq<Event>, filter: Filter)
    requires NeverLogs(filter) && Continues(p.spec.world, events, filter) && p.log == p.spec.log
    ensures var q := TraceRun(p, events, filter); q.log == q.spec.log && CoversWorld(filter, q.spec.world)
    decreases |events|
  {
    hide Sane;
    if events != [] {
      var init, e := events[..|events| - 1], events[|events| - 1];
      NothingEitherWay(p, init, filter);
      CoversRun(filter, p.spec.world, events, |events|);
      assert events[..|events|] == events;
      TraceRunWorld(p, events, filter);
      NoLine(TraceRun(p, init, filter), e, filter);
    }
  }

  lemma NoLine(p: Paused, e: Event, filter: Filter)
    requires NeverLogs(filter) && CoversWorld(filter, p.spec.world) && p.log == p.spec.log
    requires e.Call? ==> e.frame.code in filter.codes
    ensures TraceStep(p, e, filter).log == TraceStep(p, e, filter).spec.log
  {
    var st := Subject(p.spec.world, e);
    if st != [] {
      var top := st[|st| - 1];
      assert e.Return? ==> top == StackOf(p.spec.world, p.spec.world.current)[|st| - 1];
      assert top.code in filter.codes;
    }
  }

  // --- exactly ---

  // Tracing is on and nothing has gone wrong yet: every continuation, of any greenlets, is
  // logged as it should be if and only if every mark stands for its stack, or there is
  // nothing to log at all.
  lemma RightFromHere(p: Paused, filter: Filter)
    requires Sound(p, filter) && p.enabled > 0 && p.log == p.spec.log
    requires Sane(p.spec.world) && CoversWorld(filter, p.spec.world)
    ensures (forall events: seq<Event> | Continues(p.spec.world, events, filter) ::
               TraceRun(p, events, filter).log == TraceRun(p, events, filter).spec.log)
       <==> Stands(p, filter) || NeverLogs(filter)
  {
    hide Sound, StandsFor, TraceStep, Sane, TraceRun, Continues;
    if Stands(p, filter) {
      forall events: seq<Event> | Continues(p.spec.world, events, filter)
        ensures TraceRun(p, events, filter).log == TraceRun(p, events, filter).spec.log
      {
        StandsForever(p, events, filter);
      }
    } else if NeverLogs(filter) {
      forall events: seq<Event> | Continues(p.spec.world, events, filter)
        ensures TraceRun(p, events, filter).log == TraceRun(p, events, filter).spec.log
      {
        NothingEitherWay(p, events, filter);
      }
    } else {
      var g :| g in p.spec.tracked && g in p.kept && !StandsFor(p, g, filter);
      var code :| code in filter.codes && Logs(filter.level(code));
      var events := WrongIn(p, g, code, filter);
    }
  }

  lemma WrongIn(p: Paused, g: nat, code: nat, filter: Filter) returns (events: seq<Event>)
    requires Sound(p, filter) && p.enabled > 0 && p.log == p.spec.log
    requires Sane(p.spec.world) && CoversWorld(filter, p.spec.world)
    requires g in p.spec.tracked && g in p.kept && !StandsFor(p, g, filter)
    requires code in filter.codes && Logs(filter.level(code))
    ensures Continues(p.spec.world, events, filter)
    ensures TraceRun(p, events, filter).log != TraceRun(p, events, filter).spec.log
  {
    hide Sane, Encodes, SureOf;
    SwitchAllowed(p.spec.world, g);
    SwitchStacks(p.spec.world, Switch(g));
    assert Continues(p.spec.world, [], filter);
    assert [] + [Switch(g)] == [Switch(g)];
    Onward(p, [], Switch(g), filter);
    StepSound(p, Switch(g), filter);
    events := Deviates(p, [Switch(g)], code, filter);
  }

  // The same of a run with suspensions: at a resume, or at any other time tracing is on.
  lemma ResumeExactly(w: World, events: seq<Toggled>, filter: Filter)
    requires AllowedPaused(w, events, filter) && PauseRun(w, events, filter).enabled > 0
    requires PauseRun(w, events, filter).log == PauseRun(w, events, filter).spec.log
    ensures var p := PauseRun(w, events, filter);
            (forall more: seq<Event> | Continues(p.spec.world, more, filter) ::
               TraceRun(p, more, filter).log == TraceRun(p, more, filter).spec.log)
            <==> Stands(p, filter) || NeverLogs(filter)
  {
    hide Sound, Stands, Continues, TraceRun, TraceStep, Sane;
    var p, es := PauseRun(w, events, filter), Events(events);
    StartSound(w, filter);
    RunSound(StartPaused(w), events, filter);
    WorldNow(w, events, filter);
    WorldIsSpecs(w, es, filter);
    CoversRun(filter, w, es, |es|);
    assert es[..|es|] == es;
    RightFromHere(p, filter);
  }

  // --- the marks in terms of stacks and levels ---

  // Some frame within the depth limit turns tracing off for those above it.
  predicate Marked(st: seq<Frame>, t: Tracked, filter: Filter)
    requires t.base <= |st|
  {
    var first := FirstNested(st, t.base, filter);
    first < |st| && first + 1 - t.offset <= DEPTH_LIMIT
  }

  // The place in its stack of the frame that turns tracing off for those above it: just
  // above the stack if it has just returned.
  function Barrier(st: seq<Frame>, t: Tracked, returned: seq<Frame>, filter: Filter): Option<nat>
    requires t.base <= |st| && |returned| <= 1
  {
    if Marked(st, t, filter) then Some(FirstNested(st, t.base, filter))
    else if returned != [] && NestedAt(returned[0], filter) && |st| + 1 - t.offset <= DEPTH_LIMIT then Some(|st|)
    else None
  }

  // The mark that is its depth.
  function MarkFor(barrier: Option<nat>, t: Tracked): int {
    if barrier.Some? then barrier.value + 1 - t.offset else NO_TRACE_FROM_DEPTH_DISABLED
  }

  lemma MarkAfterCall(mark: int, st: seq<Frame>, f: Frame, t: Tracked, filter: Filter)
    requires t.base <= |st| && Encodes(mark, st, t, filter)
    ensures NextMark(mark, |st| + 1 - t.offset, filter.level(f.code)) == MarkFor(Barrier(st + [f], t, [], filter), t)
  {
    OnCall(mark, st, f, t, filter);
    var first, first' := FirstNested(st, t.base, filter), FirstNested(st + [f], t.base, filter);
    assert forall i | 0 <= i < |st| :: (st + [f])[i] == st[i];
    if first < |st| { assert NestedAt((st + [f])[first], filter); }
  }

  lemma MarkAfterReturn(mark: int, st: seq<Frame>, t: Tracked, filter: Filter)
    requires st != [] && t.base <= |st| && Encodes(mark, st, t, filter)
    ensures var h := |st| - 1;
            NextMark(mark, |st| - t.offset, filter.level(st[h].code))
            == MarkFor(Barrier(st[..h], t.(base := Min(t.base, h)), [st[h]], filter), t)
  {
    var h := |st| - 1;
    OnReturn(mark, st, t, filter);
    var first, first' := FirstNested(st, t.base, filter), FirstNested(st[..h], Min(t.base, h), filter);
    assert forall i | 0 <= i < h :: st[..h][i] == st[i];
    if first < h { assert NestedAt(st[..h][first], filter); }
  }

  // The frame that an event brings to an end.
  function Returned(p: Paused, e: Event): seq<Frame> {
    var st := Subject(p.spec.world, e);
    if e.Return? && st != [] then [st[|st| - 1]] else []
  }

  function BarrierOf(p: Paused, g: nat, returned: seq<Frame>, filter: Filter): Option<nat>
    requires g in p.spec.tracked && p.spec.tracked[g].base <= Height(p.spec.world, g) && |returned| <= 1
  {
    Barrier(StackOf(p.spec.world, g), p.spec.tracked[g], returned, filter)
  }

  // What a traced event leaves as its greenlet's mark, while marks stand.
  lemma MarkByLevels(p: Paused, e: Event, filter: Filter)
    requires Sound(p, filter) && Stands(p, filter) && p.enabled > 0 && Subject(p.spec.world, e) != []
    ensures var q, g := TraceStep(p, e, filter), p.spec.world.current;
            g in q.kept ==>
              && g in q.spec.tracked && q.spec.tracked[g].base <= Height(q.spec.world, g)
              && q.kept[g].mark == MarkFor(BarrierOf(q, g, Returned(p, e), filter), q.spec.tracked[g])
  {
    hide Encodes, SureOf, MarkLine, Line, NextMark, Barrier;
    var g, st := p.spec.world.current, StackOf(p.spec.world, p.spec.world.current);
    var t := TrackedOn(p.spec, g, |Subject(p.spec.world, e)|, KindOf(e));
    FreshEncodes(st, t, filter);
    match e
    case Call(f) => MarkAfterCall(KeptOf(p, g).mark, st, f, t, filter);
    case Return => MarkAfterReturn(KeptOf(p, g).mark, st, t, filter);
  }

  // The stack is now one with the same barrier, or one with none in sight of a mark that
  // is disabled or above it. (The disabled mark is also the depth at the limit.)
  predicate Undisturbed(barrier: Option<nat>, st: seq<Frame>, t: Tracked, filter: Filter)
    requires t.base <= |st|
  {
    var disabled := if barrier.Some? then barrier.value + 1 - t.offset == DEPTH_LIMIT else true;
    if Marked(st, t, filter) then
      var first := FirstNested(st, t.base, filter);
      barrier == Some(first) || (disabled && first + 1 - t.offset == DEPTH_LIMIT)
    else disabled || barrier.value >= |st|
  }

  lemma StandsByLevels(barrier: Option<nat>, st: seq<Frame>, t: Tracked, filter: Filter)
    requires t.base <= |st| && (barrier.Some? ==> barrier.value + 1 - t.offset <= DEPTH_LIMIT)
    ensures Encodes(MarkFor(barrier, t), st, t, filter) <==> Undisturbed(barrier, st, t, filter)
  {
  }

  // What g does from here on goes unseen, and it does not come down below height h.
  ghost predicate Unseen(p: Paused, g: nat, h: nat, events: seq<Toggled>, filter: Filter)
    decreases |events|
  {
    Height(PauseFrom(p, events, filter).spec.world, g) >= h &&
    (events != [] ==>
       var init := events[..|events| - 1];
       Unseen(p, g, h, init, filter) && UnseenBy(PauseFrom(p, init, filter), g, events[|events| - 1]))
  }

  predicate UnseenBy(p: Paused, g: nat, e: Toggled) {
    e.Traced? && !e.event.Switch? && p.spec.world.current == g ==> p.enabled <= 0
  }

  // g's mark, and its stack up to height h, are as they were.
  ghost predicate LeftAlone(p: Paused, q: Paused, g: nat, h: nat) {
    && g in p.kept && g in p.spec.tracked && g in q.kept && g in q.spec.tracked
    && q.kept[g].mark == p.kept[g].mark && q.spec.tracked[g].offset == p.spec.tracked[g].offset
    && (p.spec.tracked[g].base <= h ==> q.spec.tracked[g] == p.spec.tracked[g])
    && h <= Height(p.spec.world, g) && h <= Height(q.spec.world, g)
    && StackOf(q.spec.world, g)[..h] == StackOf(p.spec.world, g)[..h]
  }

  lemma LeftStill(p: Paused, q: Paused, r: Paused, g: nat, h: nat)
    requires LeftAlone(p, q, g, h) && LeftAlone(q, r, g, h)
    ensures LeftAlone(p, r, g, h)
  {
    hide StackOf;
  }

  lemma {:induction false} UnseenKeeps(p: Paused, g: nat, h: nat, events: seq<Toggled>, filter: Filter)
    requires Sound(p, filter) && g in p.kept && h > 0 && Unseen(p, g, h, events, filter)
    ensures Sound(PauseFrom(p, events, filter), filter) && LeftAlone(p, PauseFrom(p, events, filter), g, h)
    decreases |events|
  {
    hide Sound, TraceStep, LeftAlone, StackOf;
    if events == [] {
      TrackedAlive(p, filter);
      LeftAtOnce(p, g, h);
    } else {
      var init, n := events[..|events| - 1], |events| - 1;
      UnseenKeeps(p, g, h, init, filter);
      RunSound(p, events, filter);
      var q := PauseFrom(p, init, filter);
      UnseenStep(p, q, g, h, events[n], filter);
      LeftStill(p, q, PauseFrom(p, events, filter), g, h);
    }
  }

  lemma LeftAtOnce(p: Paused, g: nat, h: nat)
    requires g in p.kept && g in p.spec.tracked && h <= Height(p.spec.world, g)
    ensures LeftAlone(p, p, g, h)
  {
  }

  lemma UnseenStep(o: Paused, p: Paused, g: nat, h: nat, e: Toggled, filter: Filter)
    requires Sound(p, filter) && LeftAlone(o, p, g, h) && h > 0 && UnseenBy(p, g, e)
    requires Height(PauseStep(p, e, filter).spec.world, g) >= h
    ensures LeftAlone(p, PauseStep(p, e, filter), g, h)
  {
    hide SureOf, Line, MarkLine, NextMark;
  }

  // So the mark stands for a greenlet's stack if and only if, in terms of levels alone, the
  // stack has not been disturbed since the greenlet's last traced event.
  lemma ResumeByLevels(p: Paused, e: Event, events: seq<Toggled>, filter: Filter)
    requires Sound(p, filter) && Stands(p, filter) && p.enabled > 0 && Subject(p.spec.world, e) != []
    requires p.spec.world.current in TraceStep(p, e, filter).kept
    requires Unseen(TraceStep(p, e, filter), p.spec.world.current, 1, events, filter)
    ensures var q, g := TraceStep(p, e, filter), p.spec.world.current;
            var r := PauseFrom(q, events, filter);
            && g in r.kept && g in r.spec.tracked && r.spec.tracked[g].base <= Height(r.spec.world, g)
            && g in q.spec.tracked && q.spec.tracked[g].base <= Height(q.spec.world, g)
            && (StandsFor(r, g, filter) <==>
                  Undisturbed(BarrierOf(q, g, Returned(p, e), filter), StackOf(r.spec.world, g), r.spec.tracked[g], filter))
  {
    hide Encodes, TraceStep, Undisturbed, Unseen, MarkLine, Line;
    var q, g := TraceStep(p, e, filter), p.spec.world.current;
    MarkByLevels(p, e, filter);
    StepSound(p, e, filter);
    UnseenKeeps(q, g, 1, events, filter);
    TrackedAlive(q, filter);
    var r := PauseFrom(q, events, filter);
    StandsByLevels(BarrierOf(q, g, Returned(p, e), filter), StackOf(r.spec.world, g), r.spec.tracked[g], filter);
  }
}
