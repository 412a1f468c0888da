// Two runs in which a suspension made through suspend_tracing and resume_tracing in one
// greenlet spoils the log of another: a line too many, and lines lost.
module TracerStray {
  import opened Basics
  import opened TracerSpec
  import opened Tracer
  import opened TracerRuns
  import opened TracerSuspend
  import opened TracerResume
  import opened TracerBrackets

  // Greenlets 0 and 1 with these stacks.
  function Two(a: seq<Frame>, b: seq<Frame>, current: nat): World { World(map[0 := a, 1 := b], current) }

  predicate Apart(fs: seq<Frame>) {
    (forall i | 0 <= i < |fs| :: fs[i].addr != 0) && forall i, j | 0 <= i < j < |fs| :: fs[i].addr != fs[j].addr
  }

  lemma TwoSane(a: seq<Frame>, b: seq<Frame>, current: nat)
    requires Apart(a + b)
    ensures Sane(Two(a, b, current))
  {
    var w, all := Two(a, b, current), a + b;
    forall g, i | 0 <= i < Height(w, g) ensures StackOf(w, g)[i].addr != 0 {
      assert StackOf(w, g)[i] == all[if g == 0 then i else |a| + i];
    }
    forall g, h, i, j | 0 <= i < Height(w, g) && 0 <= j < Height(w, h) && (g != h || i != j)
      ensures StackOf(w, g)[i].addr != StackOf(w, h)[j].addr
    {
      var x, y := if g == 0 then i else |a| + i, if h == 0 then j else |a| + j;
      assert StackOf(w, g)[i] == all[x] && StackOf(w, h)[j] == all[y];
    }
    assert KeyBytes(0) != KeyBytes(1);
  }

  // One more event, of either.
  lemma AndThen(w: World, es: seq<Event>, a: seq<Frame>, b: seq<Frame>, current: nat, e: Event,
                a': seq<Frame>, b': seq<Frame>, current': nat) returns (es': seq<Event>)
    requires AllowedRun(w, es) && WorldAfter(w, es) == Two(a, b, current) && current <= 1
    requires match e
             case Call(f) => current' == current && if current == 0 then a' == a + [f] && b' == b
                                                    else a' == a && b' == b + [f]
             case Return => current' == current && if current == 0 then a != [] && a' == a[..|a| - 1] && b' == b
                                                   else b != [] && a' == a && b' == b[..|b| - 1]
             case Switch(g) => current' == g && a' == a && b' == b
    requires Apart(a' + b')
    ensures es' == es + [e] && AllowedRun(w, es') && WorldAfter(w, es') == Two(a', b', current')
  {
    es' := es + [e];
    assert es'[..|es|] == es;
    TwoSane(a', b', current');
    hide Sane, Apart;
    StartSane(w, es);
    assert StepWorld(Two(a, b, current), e).stacks == map[0 := a', 1 := b'];
  }

  lemma {:induction false} EventsAppend(x: seq<Toggled>, y: seq<Toggled>)
    ensures Events(x + y) == Events(x) + Events(y)
    decreases |y|
  {
    if y == [] {
      assert x + y == x;
    } else {
      var init, last := y[..|y| - 1], [y[|y| - 1]];
      EventsAppend(x, init);
      assert x + y == (x + init) + last && y == init + last;
      assert ((x + init) + last)[..|x + init|] == x + init;
    }
  }

  lemma EventsOfThree(a: Toggled, b: Toggled, c: Toggled)
    ensures Events([a, b, c]) == Seen(a) + Seen(b) + Seen(c)
  {
    assert [a, b, c] == ([a] + [b]) + [c];
    EventsAppend([a] + [b], [c]);
    EventsAppend([a], [b]);
    EventsOfOne(a);
    EventsOfOne(b);
    EventsOfOne(c);
  }

  function Seen(e: Toggled): seq<Event> { match e case Traced(event) => [event] case _ => [] }

  // Meanwhile greenlet 1 calls x.
  function Visit(x: Frame): seq<Toggled> { [Traced(Switch(1)), Traced(Call(x)), Traced(Switch(0))] }

  function Interlude(s: Frame, x: Frame, r: Frame): seq<Toggled> { Opening([s]) + Visit(x) + Closing([r]) }

  lemma VisitUnseen(p: Paused, x: Frame, filter: Filter)
    requires Sound(p, filter) && p.spec.world.current == 0 && p.enabled == 0
    ensures var q := PauseFrom(p, Visit(x), filter);
            && q.enabled == 0 && q.spec.world.current == 0 && StackOf(q.spec.world, 0) == StackOf(p.spec.world, 0)
            && StackOf(q.spec.world, 1) == StackOf(p.spec.world, 1) + [x] && 1 in q.kept && 1 in q.spec.tracked
            && q.kept[1].mark == KeptOf(p, 1).mark
            && q.spec.tracked[1] == TrackedOn(p.spec, 1, Height(p.spec.world, 1) + 1, Entered)
  {
    hide SureOf, Line, MarkLine, NextMark;
    Three(p, Traced(Switch(1)), Traced(Call(x)), Traced(Switch(0)), filter);
  }

  lemma Three(p: Paused, a: Toggled, b: Toggled, c: Toggled, filter: Filter)
    ensures PauseFrom(p, [a], filter) == PauseStep(p, a, filter)
    ensures PauseFrom(p, [a, b], filter) == PauseStep(PauseFrom(p, [a], filter), b, filter)
    ensures PauseFrom(p, [a, b, c], filter) == PauseStep(PauseFrom(p, [a, b], filter), c, filter)
  {
    hide PauseStep;
    assert [] + [a] == [a] && [a] + [b] == [a, b] && [a, b] + [c] == [a, b, c];
    PauseSnoc(p, [], a, filter);
    PauseSnoc(p, [a], b, filter);
    PauseSnoc(p, [a, b], c, filter);
  }

  lemma VisitInside(p: Paused, x: Frame, filter: Filter)
    requires p.spec.world.current == 0 && p.enabled == 0
    ensures Inside(p, 0, Height(p.spec.world, 0), Visit(x), filter)
  {
    hide Line, MarkLine, NextMark, KeptAfter, PauseFrom;
    var h, a, b, c := Height(p.spec.world, 0), Traced(Switch(1)), Traced(Call(x)), Traced(Switch(0));
    Three(p, a, b, c, filter);
    assert [a, b, c][..2] == [a, b] && [a, b][..1] == [a] && [a][..0] == [];
    assert PauseFrom(p, [], filter) == p by { Nothing(p, filter); }
    assert Inside(p, 0, h, [], filter) && Inside(p, 0, h, [a], filter) && Inside(p, 0, h, [a, b], filter);
  }

  lemma Nothing(p: Paused, filter: Filter)
    ensures PauseFrom(p, [], filter) == p
  {
  }

  lemma AfterInterlude(p: Paused, s: Frame, x: Frame, r: Frame, filter: Filter)
    requires Sound(p, filter) && Stands(p, filter) && p.spec.world.current == 0 && p.enabled == 1 && p.log == p.spec.log
    ensures var q := PauseFrom(p, Interlude(s, x, r), filter);
            && Sound(q, filter) && q.log == q.spec.log && q.enabled == 1 && q.spec.world.current == 0
            && StackOf(q.spec.world, 1) == StackOf(p.spec.world, 1) + [x] && 1 in q.kept && 1 in q.spec.tracked
            && q.kept[1].mark == KeptOf(p, 1).mark
            && q.spec.tracked[1] == TrackedOn(p.spec, 1, Height(p.spec.world, 1) + 1, Entered)
  {
    hide Sound, Stands, PauseFrom, Inside, StackOf, Opening, Closing, Visit;
    var q := PauseFrom(p, Opening([s]), filter);
    var q' := PauseFrom(q, Visit(x), filter);
    OpeningStands(p, [s], filter);
    BracketsAlone([s]);
    BracketsAlone([r]);
    AloneRuns(p, Opening([s]), filter);
    VisitUnseen(q, x, filter);
    VisitInside(q, x, filter);
    BracketedSuspension(p, [s], Visit(x), [r], filter);
    PauseAppend(p, Opening([s]), Visit(x), filter);
    PauseAppend(p, Opening([s]) + Visit(x), Closing([r]), filter);
    RunSound(q, Visit(x), filter);
    AloneRuns(q', Closing([r]), filter);
    KeptSame(p, q, 1);
  }

  lemma KeptSame(p: Paused, q: Paused, x: nat)
    requires OthersSame(p, q, p.spec.world.current) && x != p.spec.world.current
    ensures KeptOf(q, x) == KeptOf(p, x) && Height(q.spec.world, x) == Height(p.spec.world, x)
    ensures TrackedOn(q.spec, x, Height(q.spec.world, x) + 1, Entered)
         == TrackedOn(p.spec, x, Height(p.spec.world, x) + 1, Entered)
  {
  }

  // Greenlet 1 calls f.
  lemma NextCall(p: Paused, f: Frame, filter: Filter)
    requires p.log == p.spec.log && p.enabled == 1 && 1 in p.kept && 1 in p.spec.tracked
    ensures var q := PauseStep(PauseStep(p, Traced(Switch(1)), filter), Traced(Call(f)), filter);
            var st, t := StackOf(p.spec.world, 1) + [f], p.spec.tracked[1];
            && q.log == p.log + MarkLine(p.kept[1].mark, st, 1, Entered, t, filter)
            && q.spec.log == p.log + Line(st, 1, Entered, t, filter)
            && q.enabled == 1 && q.spec.world.current == 1 && StackOf(q.spec.world, 1) == st
            && 1 in q.kept && 1 in q.spec.tracked && q.spec.tracked[1] == t
            && q.kept[1].mark == NextMark(p.kept[1].mark, |st| - t.offset, filter.level(f.code))
  {
    hide MarkLine, Line, NextMark;
  }

  // --- a line too many ---

  function TooMany(s: Frame, n: Frame, r: Frame): seq<Toggled> { Interlude(s, n, r) + [Traced(Switch(1))] }

  // The interlude is allowed wherever these stacks are.
  lemma InterludeAllowed(w: World, es: seq<Event>, a: seq<Frame>, b: seq<Frame>, s: Frame, x: Frame, r: Frame)
    returns (es': seq<Event>)
    requires AllowedRun(w, es) && WorldAfter(w, es) == Two(a, b, 0)
    requires Apart(a + b) && Apart((a + [s]) + b) && Apart(a + (b + [x])) && Apart((a + [r]) + (b + [x]))
    ensures es' == es + [Call(s), Return, Switch(1), Call(x), Switch(0), Call(r), Return]
    ensures AllowedRun(w, es') && WorldAfter(w, es') == Two(a, b + [x], 0)
  {
    hide AllowedRun, WorldAfter, Apart, Two;
    assert (a + [s])[..|a|] == a && (a + [r])[..|a|] == a;
    es' := AndThen(w, es, a, b, 0, Call(s), a + [s], b, 0);
    es' := AndThen(w, es', a + [s], b, 0, Return, a, b, 0);
    es' := AndThen(w, es', a, b, 0, Switch(1), a, b, 1);
    es' := AndThen(w, es', a, b, 1, Call(x), a, b + [x], 1);
    es' := AndThen(w, es', a, b + [x], 1, Switch(0), a, b + [x], 0);
    es' := AndThen(w, es', a, b + [x], 0, Call(r), a + [r], b + [x], 0);
    es' := AndThen(w, es', a + [r], b + [x], 0, Return, a, b + [x], 0);
  }

  // And then the call in greenlet 1.
  lemma CallAfterwards(w: World, es: seq<Event>, a: seq<Frame>, b: seq<Frame>, f: Frame) returns (es': seq<Event>)
    requires AllowedRun(w, es) && WorldAfter(w, es) == Two(a, b, 0) && Apart(a + b) && Apart(a + (b + [f]))
    ensures es' == es + [Switch(1), Call(f)] && AllowedRun(w, es')
  {
    hide AllowedRun, WorldAfter, Apart, Two;
    es' := AndThen(w, es, a, b, 0, Switch(1), a, b, 1);
    es' := AndThen(w, es', a, b, 1, Call(f), a, b + [f], 1);
  }

  lemma TooManyAllowed(a: Frame, s: Frame, n: Frame, r: Frame, f: Frame)
    requires Apart([a, s, n, r, f])
    ensures AllowedRun(Two([a], [], 0), Events(TooMany(s, n, r) + [Traced(Call(f))]))
    ensures Events(TooMany(s, n, r) + [Traced(Call(f))])
         == [Call(s), Return, Switch(1), Call(n), Switch(0), Call(r), Return, Switch(1), Call(f)]
  {
    var w := Two([a], [], 0);
    ApartAlong(a, s, n, r, f);
    TwoSane([a], [], 0);
    NoEvents(w);
    TooManyEvents(s, n, r, f);
    hide Sane, AllowedRun, WorldAfter, Apart, Events, Two;
    var es := InterludeAllowed(w, [], [a], [], s, n, r);
    es := CallAfterwards(w, es, [a], [] + [n], f);
    assert es == [Call(s), Return, Switch(1), Call(n), Switch(0), Call(r), Return, Switch(1), Call(f)];
  }

  lemma TooManyEvents(s: Frame, n: Frame, r: Frame, f: Frame)
    ensures Events(TooMany(s, n, r) + [Traced(Call(f))])
         == [Call(s), Return, Switch(1), Call(n), Switch(0), Call(r), Return, Switch(1), Call(f)]
  {
    EventsOfInterlude(s, n, r);
    EventsAppend(Interlude(s, n, r), [Traced(Switch(1))]);
    EventsAppend(TooMany(s, n, r), [Traced(Call(f))]);
    EventsOfOne(Traced(Switch(1)));
    EventsOfOne(Traced(Call(f)));
  }

  lemma ApartAlong(a: Frame, s: Frame, n: Frame, r: Frame, f: Frame)
    requires Apart([a, s, n, r, f])
    ensures Apart([a] + []) && Apart(([a] + [s]) + []) && Apart([a] + ([] + [n])) && Apart(([a] + [r]) + ([] + [n]))
    ensures Apart([a] + (([] + [n]) + [f]))
  {
    var fs := [a, s, n, r, f];
    assert fs[0] == a && fs[1] == s && fs[2] == n && fs[3] == r && fs[4] == f;
  }

  lemma NoEvents(w: World)
    requires Sane(w)
    ensures AllowedRun(w, []) && WorldAfter(w, []) == w
  {
  }

  lemma EventsOfOne(e: Toggled)
    ensures Events([e]) == Seen(e)
  {
    assert [e][..0] == [];
  }

  lemma EventsOfInterlude(s: Frame, x: Frame, r: Frame)
    ensures Events(Interlude(s, x, r)) ==
            [Call(s), Return, Switch(1), Call(x), Switch(0), Call(r), Return]
  {
    assert [s][1..] == [] && [r][1..] == [];
    assert Opening([s]) == [Traced(Call(s)), SuspendTracing, Traced(Return)];
    assert Closing([r]) == [Traced(Call(r)), ResumeTracing, Traced(Return)];
    hide Events, Opening, Closing;
    EventsOfThree(Traced(Call(s)), SuspendTracing, Traced(Return));
    EventsOfThree(Traced(Switch(1)), Traced(Call(x)), Traced(Switch(0)));
    EventsOfThree(Traced(Call(r)), ResumeTracing, Traced(Return));
    EventsAppend(Opening([s]), Visit(x));
    EventsAppend(Opening([s]) + Visit(x), Closing([r]));
  }

  // Greenlet 0 suspends tracing; meanwhile greenlet 1 calls n, which turns tracing off for
  // all that it calls; greenlet 0 resumes; and n's call of f is logged.
  lemma LineTooMany(a: Frame, s: Frame, n: Frame, r: Frame, f: Frame, filter: Filter)
    requires Apart([a, s, n, r, f]) && forall x <- [a, s, n, r, f] :: x.code in filter.codes
    requires NestedAt(n, filter) && Logs(filter.level(f.code))
    ensures var w, run := Two([a], [], 0), TooMany(s, n, r);
            var p, q := PauseRun(w, run, filter), PauseRun(w, run + [Traced(Call(f))], filter);
            && AllowedPaused(w, run + [Traced(Call(f))], filter)
            && p.enabled == 1 && p.log == p.spec.log && q.spec.log == p.log
            && q.log == q.spec.log + [Entry(Entered, 1, 2, f)]
  {
    hide Sound, Stands, PauseFrom, Interlude, TraceStep, AllowedRun, Events;
    var w := Two([a], [], 0);
    TooManyAllowed(a, s, n, r, f);
    StartSound(w, filter);
    StartStands(w, filter);
    AfterInterlude(StartPaused(w), s, n, r, filter);
    var p := PauseRun(w, Interlude(s, n, r), filter);
    PauseSnoc(StartPaused(w), Interlude(s, n, r), Traced(Switch(1)), filter);
    PauseSnoc(StartPaused(w), TooMany(s, n, r), Traced(Call(f)), filter);
    SwitchLogs(p, filter);
    NextCall(p, f, filter);
    assert StackOf(p.spec.world, 1) == [n] && [n] + [f] == [n, f] && NestedAt([n, f][0], filter);
  }

  lemma SwitchLogs(p: Paused, filter: Filter)
    ensures var q := TraceStep(p, Switch(1), filter);
            q.log == p.log && q.spec.log == p.spec.log && q.enabled == p.enabled
  {
  }

  lemma StartStands(w: World, filter: Filter)
    ensures Stands(StartPaused(w), filter)
  {
  }

  // --- lines lost ---

  // While a greenlet stays above the depth of a mark, none of its events is logged.
  lemma {:induction false} MarkSilences(p: Paused, h: nat, events: seq<Event>, filter: Filter)
    requires var g := p.spec.world.current;
             && g in p.kept && g in p.spec.tracked && p.kept.Keys == p.spec.tracked.Keys && 0 < h <= Height(p.spec.world, g)
             && p.spec.tracked[g].base <= h && p.kept[g].mark <= h - p.spec.tracked[g].offset
             && StaysUp(p.spec.world, g, h, events)
    requires forall e | e in events :: !e.Switch?
    ensures var q, g := TraceRun(p, events, filter), p.spec.world.current;
            && q.log == p.log && q.spec.world.current == g && Height(q.spec.world, g) >= h
            && q.kept.Keys == q.spec.tracked.Keys && g in q.kept
            && q.kept[g].mark == p.kept[g].mark && q.spec.tracked[g] == p.spec.tracked[g]
    decreases |events|
  {
    hide TraceStep;
    if events != [] {
      var init, e := events[..|events| - 1], events[|events| - 1];
      MarkSilences(p, h, init, filter);
      TraceRunWorld(p, events, filter);
      SilencedStep(TraceRun(p, init, filter), h, e, filter);
    }
  }

  lemma SilencedStep(p: Paused, h: nat, e: Event, filter: Filter)
    requires var g := p.spec.world.current;
             && g in p.kept && g in p.spec.tracked && p.kept.Keys == p.spec.tracked.Keys && 0 < h <= Height(p.spec.world, g)
             && p.spec.tracked[g].base <= h && p.kept[g].mark <= h - p.spec.tracked[g].offset
             && Height(TraceStep(p, e, filter).spec.world, g) >= h && !e.Switch?
    ensures var q, g := TraceStep(p, e, filter), p.spec.world.current;
            && q.log == p.log && q.spec.world.current == g && q.kept.Keys == q.spec.tracked.Keys && g in q.kept
            && q.kept[g].mark == p.kept[g].mark && q.spec.tracked[g] == p.spec.tracked[g]
  {
    hide Line;
  }

  function NestedReturn(n: Frame): seq<Toggled> { [Traced(Call(n)), Traced(Return), Traced(Switch(0))] }

  function Lost(n: Frame, s: Frame, x: Frame, r: Frame): seq<Toggled> {
    NestedReturn(n) + Interlude(s, x, r) + [Traced(Switch(1))]
  }

  lemma LostAllowed(a: Frame, b: Frame, n: Frame, s: Frame, x: Frame, r: Frame, f: Frame)
    requires Apart([a, b, n, s, x, r, f])
    ensures var es := Events(Lost(n, s, x, r) + [Traced(Call(f))]);
            && AllowedRun(Two([a], [b], 1), es)
            && es == [Call(n), Return, Switch(0)]
                     + [Call(s), Return, Switch(1), Call(x), Switch(0), Call(r), Return] + [Switch(1), Call(f)]
  {
    var w := Two([a], [b], 1);
    LostApart(a, b, n, s, x, r, f);
    TwoSane([a], [b], 1);
    NoEvents(w);
    LostEvents(n, s, x, r, f);
    hide Sane, AllowedRun, WorldAfter, Apart, Events, Two;
    var es := NestedAllowed(w, [a], [b], n);
    es := InterludeAllowed(w, es, [a], [b], s, x, r);
    es := CallAfterwards(w, es, [a], [b] + [x], f);
  }

  lemma NestedAllowed(w: World, a: seq<Frame>, b: seq<Frame>, n: Frame) returns (es: seq<Event>)
    requires AllowedRun(w, []) && WorldAfter(w, []) == Two(a, b, 1) && Apart(a + b) && Apart(a + (b + [n]))
    ensures es == [Call(n), Return, Switch(0)] && AllowedRun(w, es) && WorldAfter(w, es) == Two(a, b, 0)
  {
    hide AllowedRun, WorldAfter, Apart, Two;
    assert (b + [n])[..|b|] == b;
    es := AndThen(w, [], a, b, 1, Call(n), a, b + [n], 1);
    es := AndThen(w, es, a, b + [n], 1, Return, a, b, 1);
    es := AndThen(w, es, a, b, 1, Switch(0), a, b, 0);
  }

  lemma LostEvents(n: Frame, s: Frame, x: Frame, r: Frame, f: Frame)
    ensures Events(Lost(n, s, x, r) + [Traced(Call(f))])
         == [Call(n), Return, Switch(0)]
            + [Call(s), Return, Switch(1), Call(x), Switch(0), Call(r), Return] + [Switch(1), Call(f)]
  {
    EventsOfThree(Traced(Call(n)), Traced(Return), Traced(Switch(0)));
    EventsOfInterlude(s, x, r);
    hide Events;
    EventsAppend(NestedReturn(n), Interlude(s, x, r));
    EventsAppend(NestedReturn(n) + Interlude(s, x, r), [Traced(Switch(1))]);
    EventsAppend(Lost(n, s, x, r), [Traced(Call(f))]);
    EventsOfOne(Traced(Switch(1)));
    EventsOfOne(Traced(Call(f)));
  }

  lemma LostApart(a: Frame, b: Frame, n: Frame, s: Frame, x: Frame, r: Frame, f: Frame)
    requires Apart([a, b, n, s, x, r, f])
    ensures Apart([a] + [b]) && Apart([a] + ([b] + [n])) && Apart(([a] + [s]) + [b]) && Apart([a] + ([b] + [x]))
    ensures Apart(([a] + [r]) + ([b] + [x])) && Apart([a] + (([b] + [x]) + [f]))
  {
    var fs := [a, b, n, s, x, r, f];
    assert fs[0] == a && fs[1] == b && fs[2] == n && fs[3] == s && fs[4] == x && fs[5] == r && fs[6] == f;
  }

  // Greenlet 1's mark after its first call of n, which turns tracing off for what it calls.
  lemma AfterNested(a: Frame, b: Frame, n: Frame, filter: Filter)
    requires NestedAt(n, filter)
    ensures var p := PauseRun(Two([a], [b], 1), NestedReturn(n), filter);
            && Sound(p, filter) && Stands(p, filter) && p.enabled == 1 && p.log == p.spec.log
            && p.spec.world.current == 0 && StackOf(p.spec.world, 1) == [b]
            && 1 in p.kept && p.kept[1].mark == 2 && 1 in p.spec.tracked && p.spec.tracked[1] == Tracked(1, 0)
  {
    hide Stands, Sound, Trusted, Encodes;
    var o := StartPaused(Two([a], [b], 1));
    StartSound(o.spec.world, filter);
    StartStands(o.spec.world, filter);
    Three(o, Traced(Call(n)), Traced(Return), Traced(Switch(0)), filter);
    StandsOn(o, Call(n), filter);
    var p1 := TraceStep(o, Call(n), filter);
    assert StackOf(p1.spec.world, 1) == [b, n] && p1.kept[1].mark == 2 && p1.spec.tracked[1] == Tracked(1, 0);
    StandsOn(p1, Return, filter);
    var p2 := TraceStep(p1, Return, filter);
    assert [b, n][..1] == [b];
    assert StackOf(p2.spec.world, 1) == [b] && p2.kept[1].mark == 2 && p2.spec.tracked[1] == Tracked(1, 0);
    StandsOn(p2, Switch(0), filter);
  }

  lemma StandsOn(p: Paused, e: Event, filter: Filter)
    requires Sound(p, filter) && Stands(p, filter) && p.enabled > 0 && p.log == p.spec.log
    ensures var q := TraceStep(p, e, filter);
            Sound(q, filter) && Stands(q, filter) && q.enabled == p.enabled && q.log == q.spec.log
  {
    hide Sound, Stands, Trusted, TraceStep;
    StepSound(p, e, filter);
    StandingTrusted(p, e, filter);
    TrustedLine(p, e, filter);
    StepStands(p, e, filter);
    TraceSpec(p, e, filter);
  }

  // Greenlet 1 has called n, which has returned; greenlet 0 suspends tracing; meanwhile
  // greenlet 1 calls x, which turns nothing off; greenlet 0 resumes. Then x's call of f is
  // not logged, nor is anything else until x returns.
  lemma LinesLost(a: Frame, b: Frame, n: Frame, s: Frame, x: Frame, r: Frame, f: Frame, filter: Filter)
    requires Apart([a, b, n, s, x, r, f]) && forall y <- [a, b, n, s, x, r, f] :: y.code in filter.codes
    requires NestedAt(n, filter) && !NestedAt(x, filter) && Logs(filter.level(f.code))
    ensures var w, run := Two([a], [b], 1), Lost(n, s, x, r);
            var p, q := PauseRun(w, run, filter), PauseRun(w, run + [Traced(Call(f))], filter);
            && AllowedPaused(w, run + [Traced(Call(f))], filter)
            && p.enabled == 1 && p.log == p.spec.log && q.log == p.log
            && q.spec.log == q.log + [Entry(Entered, 1, 3, f)]
            && forall more: seq<Event> | (forall e | e in more :: !e.Switch?) && StaysUp(q.spec.world, 1, 2, more) ::
                 TraceRun(q, more, filter).log == q.log
  {
    hide Sound, Stands, PauseFrom, Interlude, NestedReturn, TraceStep, AllowedRun, Events, StaysUp, TraceRun;
    var w := Two([a], [b], 1);
    var o := StartPaused(w);
    LostAllowed(a, b, n, s, x, r, f);
    AfterNested(a, b, n, filter);
    AfterInterlude(PauseRun(w, NestedReturn(n), filter), s, x, r, filter);
    PauseAppend(o, NestedReturn(n), Interlude(s, x, r), filter);
    var p := PauseRun(w, NestedReturn(n) + Interlude(s, x, r), filter);
    PauseSnoc(o, NestedReturn(n) + Interlude(s, x, r), Traced(Switch(1)), filter);
    PauseSnoc(o, Lost(n, s, x, r), Traced(Call(f)), filter);
    SwitchLogs(p, filter);
    NextCall(p, f, filter);
    assert StackOf(p.spec.world, 1) == [b, x] && [b, x] + [f] == [b, x, f];
    var q := PauseRun(w, Lost(n, s, x, r) + [Traced(Call(f))], filter);
    KeysAfter(q, filter, o, Lost(n, s, x, r) + [Traced(Call(f))]);
    forall more: seq<Event> | (forall e | e in more :: !e.Switch?) && StaysUp(q.spec.world, 1, 2, more)
      ensures TraceRun(q, more, filter).log == q.log
    {
      MarkSilences(q, 2, more, filter);
    }
  }

  lemma KeysAfter(q: Paused, filter: Filter, o: Paused, events: seq<Toggled>)
    requires q == PauseFrom(o, events, filter) && o == StartPaused(o.spec.world)
    ensures q.kept.Keys == q.spec.tracked.Keys
  {
    hide Sound, PauseFrom;
    StartSound(o.spec.world, filter);
    RunSound(o, events, filter);
    TrackedAlive(q, filter);
  }
}
