// The tracer over whole runs, and what the stack specification implies.
module TracerRuns {
  import opened TracerSpec
  import opened Tracer

  function Start(w: World): Spec { Spec(w, map[], []) }

  lemma {:induction false} WorldIsSpecs(w: World, events: seq<Event>, filter: Filter)
    requires AllowedRun(w, events)
    ensures SpecRun(Start(w), events, filter).world == WorldAfter(w, events) && Sane(WorldAfter(w, events))
    decreases |events|
  {
    if events != [] { WorldIsSpecs(w, events[..|events| - 1], filter); }
  }

  lemma {:induction false} AllowedPrefix(w: World, events: seq<Event>, n: nat)
    requires AllowedRun(w, events) && n < |events|
    ensures AllowedRun(w, events[..n]) && AllowedRun(w, events[..n + 1])
    ensures Allowed(WorldAfter(w, events[..n]), events[n])
    decreases |events|
  {
    var init := events[..|events| - 1];
    if n < |init| {
      AllowedPrefix(w, init, n);
      assert init[..n] == events[..n] && init[..n + 1] == events[..n + 1];
    } else {
      assert events[..n] == init && events[..n + 1] == events;
    }
  }

  lemma SwitchKeeps(m: map<nat, Storage>, lastFrame: nat, lastGid: int, s: Spec, filter: Filter, e: Event)
    requires e.Switch? && Follows(m, lastFrame, lastGid, s, filter)
    ensures Follows(m, lastFrame, lastGid, SpecStep(s, e, filter), filter)
    ensures Suppresses(m, s.world, s.tracked, filter) ==>
              Suppresses(m, SpecStep(s, e, filter).world, SpecStep(s, e, filter).tracked, filter)
    ensures SpecStep(s, e, filter).log == s.log
  {
    hide StackOf, Encodes, CacheOk;
    SwitchStacks(s.world, e);
  }

  lemma SwitchStacks(w: World, e: Event)
    requires e.Switch?
    ensures forall g :: StackOf(StepWorld(w, e), g) == StackOf(w, g)
  {
  }

  // The filter is asked about these frames' code objects only.
  ghost predicate CoversWorld(filter: Filter, w: World) {
    forall g, i | 0 <= i < Height(w, g) :: StackOf(w, g)[i].code in filter.codes
  }

  ghost predicate Covers(filter: Filter, w: World, events: seq<Event>) {
    && CoversWorld(filter, w)
    && (forall k | 0 <= k < |events| && events[k].Call? :: events[k].frame.code in filter.codes)
  }

  lemma {:induction false} CoversRun(filter: Filter, w: World, events: seq<Event>, n: nat)
    requires Covers(filter, w, events) && n <= |events|
    ensures Covers(filter, WorldAfter(w, events[..n]), events)
  {
    if n == 0 {
      assert WorldAfter(w, events[..0]) == w;
    } else {
      CoversRun(filter, w, events, n - 1);
      assert events[..n][..n - 1] == events[..n - 1];
      var before := WorldAfter(w, events[..n - 1]);
      var after := WorldAfter(w, events[..n]);
      forall g, i | 0 <= i < Height(after, g) ensures StackOf(after, g)[i].code in filter.codes {
        if i < Height(before, g) && StackOf(after, g)[i] == StackOf(before, g)[i] {
        } else {
          assert events[n - 1].Call?;
        }
      }
    }
  }

  lemma SpecSnoc(s: Spec, events: seq<Event>, e: Event, filter: Filter)
    ensures SpecRun(s, events + [e], filter) == SpecStep(SpecRun(s, events, filter), e, filter)
    ensures WorldAfter(s.world, events + [e]) == StepWorld(WorldAfter(s.world, events), e)
  {
    hide SpecStep;
    assert (events + [e])[..|events|] == events;
  }

  lemma TopCovered(filter: Filter, w: World, events: seq<Event>, n: nat)
    requires Covers(filter, w, events) && n < |events|
    ensures var st := StackOf(w, w.current);
            && (events[n].Call? ==> events[n].frame.code in filter.codes)
            && (st != [] ==> st[|st| - 1].code in filter.codes)
  {
  }

  // Replaying any allowed run of calls, returns and switches logs exactly what the stack
  // specification says, entry for entry: same events, same greenlets, same depths.
  method Replay(w0: World, events: seq<Event>, capacity: nat, filter: Filter) returns (log: seq<Entry>)
    requires AllowedRun(w0, events) && GoodFilter(filter) && Covers(filter, w0, events)
    ensures log == SpecRun(Start(w0), events, filter).log
  {
    hide Follows, Suppresses, GoodFilter, SpecStep, AllowedRun, Sane, Advanced, Covers,
         SpecRun, WorldAfter, StackOf;
    var storage := new ThreadStorage(capacity);
    var w, n := w0, 0;
    ghost var s := Start(w0);
    StartFollows(storage, w0, events, filter);
    while n < |events|
      invariant 0 <= n <= |events| && w == s.world
      invariant s == SpecRun(Start(w0), events[..n], filter) && w == WorldAfter(w0, events[..n])
      invariant fresh(storage) && fresh(storage.gidMap.Values) && storage.enabled == 1
      invariant storage.Valid(s, filter) && Suppresses(storage.Storages(), s.world, s.tracked, filter)
      invariant storage.log == s.log
    {
      AllowedPrefix(w0, events, n);
      CoversRun(filter, w0, events, n);
      TopCovered(filter, w, events, n);
      WorldIsSpecs(w0, events[..n], filter);
      WorldIsSpecs(w0, events[..n + 1], filter);
      assert events[..n + 1] == events[..n] + [events[n]];
      SpecSnoc(Start(w0), events[..n], events[n], filter);
      var chain := StackOf(w, w.current);
      match events[n] {
        case Call(f) =>
          storage.GreenletTraceFunc(PyTraceCall, w.current, chain + [f], filter, s);
        case Return =>
          storage.GreenletTraceFunc(PyTraceReturn, w.current, chain, filter, s);
        case Switch(g) =>
          SwitchKeeps(storage.Storages(), storage.lastFrame, storage.lastGid, s, filter, events[n]);
      }
      s := SpecStep(s, events[n], filter);
      w := StepWorld(w, events[n]);
      n := n + 1;
    }
    assert events[..|events|] == events;
    log := storage.log;
  }

  lemma StartFollows(storage: ThreadStorage, w: World, events: seq<Event>, filter: Filter)
    requires storage.gidMap == map[] && storage.lastFrame == 0 && storage.Linked() && AllowedRun(w, events)
    ensures storage.Valid(Start(w), filter)
    ensures Suppresses(storage.Storages(), w, map[], filter)
    ensures SpecRun(Start(w), events[..0], filter) == Start(w) && WorldAfter(w, events[..0]) == w
  {
    WorldIsSpecs(w, events, filter);
    StartSane(w, events);
  }

  lemma {:induction false} StartSane(w: World, events: seq<Event>)
    requires AllowedRun(w, events)
    ensures Sane(w)
    decreases |events|
  {
  }

  // --- what the specification implies ---

  // The greenlet's stack stays at least h high throughout.
  ghost predicate StaysUp(w: World, g: nat, h: nat, events: seq<Event>)
    decreases |events|
  {
    Height(WorldAfter(w, events), g) >= h && (events == [] || StaysUp(w, g, h, events[..|events| - 1]))
  }

  lemma {:induction false} WorldOfRun(s: Spec, events: seq<Event>, filter: Filter)
    ensures SpecRun(s, events, filter).world == WorldAfter(s.world, events)
    decreases |events|
  {
    if events != [] { WorldOfRun(s, events[..|events| - 1], filter); }
  }

  // While it does, neither the frames below h nor what is tracked of it change.
  lemma {:induction false} BelowIsKept(s: Spec, g: nat, h: nat, events: seq<Event>, filter: Filter)
    requires g in s.tracked && s.tracked[g].base <= h && 0 < h <= Height(s.world, g) && StaysUp(s.world, g, h, events)
    ensures var s' := SpecRun(s, events, filter);
            && g in s'.tracked && s'.tracked[g] == s.tracked[g] && Height(s'.world, g) >= h
            && StackOf(s'.world, g)[..h] == StackOf(s.world, g)[..h]
    decreases |events|
  {
    if events == [] {
      assert WorldAfter(s.world, events) == s.world;
    } else {
      var init, e := events[..|events| - 1], events[|events| - 1];
      BelowIsKept(s, g, h, init, filter);
      WorldOfRun(s, init, filter);
      WorldOfRun(s, events, filter);
      StepBelow(SpecRun(s, init, filter), g, h, e, filter);
    }
  }

  lemma StepBelow(s: Spec, g: nat, h: nat, e: Event, filter: Filter)
    requires g in s.tracked && s.tracked[g].base <= h && h > 0
    requires Height(s.world, g) >= h && Height(SpecStep(s, e, filter).world, g) >= h
    ensures var s' := SpecStep(s, e, filter);
            && g in s'.tracked && s'.tracked[g] == s.tracked[g]
            && StackOf(s'.world, g)[..h] == StackOf(s.world, g)[..h]
  {
  }

  // A frame's return carries the same depth as its call, and is logged exactly when its
  // call was: between the two its greenlet's stack does not drop below it.
  lemma ReturnMatchesCall(s: Spec, f: Frame, between: seq<Event>, filter: Filter)
    requires var g := s.world.current;
             var s1 := SpecStep(s, Call(f), filter);
             var s2 := SpecRun(s1, between, filter);
             && (g in s.tracked ==> s.tracked[g].base <= Height(s.world, g))
             && StaysUp(s1.world, g, Height(s1.world, g), between)
             && s2.world.current == g && Height(s2.world, g) == Height(s1.world, g)
    ensures var g := s.world.current;
            var s1 := SpecStep(s, Call(f), filter);
            var s2 := SpecRun(s1, between, filter);
            var s3 := SpecStep(s2, Return, filter);
            var line, line' := s1.log[|s.log|..], s3.log[|s2.log|..];
            && |line| == |line'| <= 1
            && (|line| == 1 ==> line[0].kind.Entered? && line'[0] == line[0].(kind := Left))
  {
    hide Line, SpecRun, StaysUp;
    var g := s.world.current;
    var s1 := SpecStep(s, Call(f), filter);
    var h := Height(s1.world, g);
    var s2 := SpecRun(s1, between, filter);
    BelowIsKept(s1, g, h, between, filter);
    var st, t := StackOf(s1.world, g), s1.tracked[g];
    assert st[..h] == st && StackOf(s2.world, g)[..h] == StackOf(s2.world, g);
    assert st == StackOf(s.world, g) + [f];
    LinePair(st, g, t, filter);
    assert s1.log[|s.log|..] == Line(st, g, Entered, t, filter);
    assert SpecStep(s2, Return, filter).log[|s2.log|..] == Line(st, g, Left, t, filter);
  }

  lemma LinePair(st: seq<Frame>, gid: nat, t: Tracked, filter: Filter)
    requires st != []
    ensures var line, line' := Line(st, gid, Entered, t, filter), Line(st, gid, Left, t, filter);
            && |line| == |line'| <= 1
            && (|line| == 1 ==> line[0].kind.Entered? && line'[0] == line[0].(kind := Left))
  {
  }

  // The default filter answers True, which is 1, which is NO_TRACE_NESTED: a program
  // traced with it logs nothing at all, although it is documented to trace everything.
  lemma {:induction false} DefaultFilterLogsNothing(w: World, events: seq<Event>, filter: Filter)
    requires forall c :: filter.level(c) == 1
    ensures SpecRun(Start(w), events, filter).log == []
    decreases |events|
  {
    if events != [] {
      DefaultFilterLogsNothing(w, events[..|events| - 1], filter);
    }
  }

  // An event has a line exactly when its depth is within the limit, its own level is a
  // tracing one, and none of the frames under it that count turns tracing off.
  lemma LineByLevels(st: seq<Frame>, gid: nat, kind: Kind, t: Tracked, filter: Filter)
    requires st != [] && filter.level(st[|st| - 1].code) >= 0
    ensures Line(st, gid, kind, t, filter) == [Entry(kind, gid, |st| - t.offset, st[|st| - 1])]
       <==> |st| - t.offset <= 314159 && filter.level(st[|st| - 1].code) >= 2
            && forall i | t.base <= i < |st| - 1 :: filter.level(st[i].code) != 1
    ensures Line(st, gid, kind, t, filter) == [] || |Line(st, gid, kind, t, filter)| == 1
  {
    if exists i :: t.base <= i < |st| - 1 && filter.level(st[i].code) == NO_TRACE_NESTED {
      var i :| t.base <= i < |st| - 1 && filter.level(st[i].code) == NO_TRACE_NESTED;
      assert NestedAt(st[i], filter);
    }
  }
}
