// Suspending as the module does it. suspend_tracing and resume_tracing are functions, and
// traced themselves: the frame of the first is on the stack when tracing goes off and has
// gone when it comes on again, and the frame of the second is there instead. With
// no_tracing_context_recursive so are the frames of the context manager.
module TracerBrackets {
  import opened TracerSpec
  import opened Tracer
  import opened TracerSuspend
  import opened TracerResume

  // Calls of fs one from the other, the last of which suspends, and their returns.
  function Opening(fs: seq<Frame>): seq<Toggled> {
    if fs == [] then [SuspendTracing] else [Traced(Call(fs[0]))] + Opening(fs[1..]) + [Traced(Return)]
  }

  // The same with a resume.
  function Closing(fs: seq<Frame>): seq<Toggled> {
    if fs == [] then [ResumeTracing] else [Traced(Call(fs[0]))] + Closing(fs[1..]) + [Traced(Return)]
  }

  // Tracing stays off, through nested suspensions or not, and g never below height h.
  ghost predicate Inside(p: Paused, g: nat, h: nat, body: seq<Toggled>, filter: Filter)
    decreases |body|
  {
    var q := PauseFrom(p, body, filter);
    q.enabled <= 0 && Height(q.spec.world, g) >= h && (body != [] ==> Inside(p, g, h, body[..|body| - 1], filter))
  }

  lemma {:induction false} InsideIsUnseen(p: Paused, g: nat, h: nat, body: seq<Toggled>, filter: Filter)
    requires Inside(p, g, h, body, filter)
    ensures Unseen(p, g, h, body, filter)
    decreases |body|
  {
    if body != [] { InsideIsUnseen(p, g, h, body[..|body| - 1], filter); }
  }

  lemma {:induction false} InsideIsSilent(p: Paused, g: nat, h: nat, body: seq<Toggled>, filter: Filter)
    requires Inside(p, g, h, body, filter)
    ensures var q := PauseFrom(p, body, filter); q.log == p.log && q.spec.log == p.spec.log
    decreases |body|
  {
    hide TraceStep;
    if body != [] {
      var init := body[..|body| - 1];
      InsideIsSilent(p, g, h, init, filter);
      SilentStep(PauseFrom(p, init, filter), body[|body| - 1], filter);
    }
  }

  lemma SilentStep(p: Paused, e: Toggled, filter: Filter)
    requires p.enabled <= 0
    ensures var q := PauseStep(p, e, filter); q.log == p.log && q.spec.log == p.spec.log
  {
  }

  lemma Around(p: Paused, f: Frame, inner: seq<Toggled>, filter: Filter)
    ensures PauseFrom(p, [Traced(Call(f))] + inner + [Traced(Return)], filter)
         == TraceStep(PauseFrom(TraceStep(p, Call(f), filter), inner, filter), Return, filter)
  {
    hide TraceStep;
    var first := [Traced(Call(f))];
    assert [] + first == first;
    PauseSnoc(p, [], Traced(Call(f)), filter);
    PauseAppend(p, first, inner, filter);
    PauseSnoc(p, first + inner, Traced(Return), filter);
  }

  // A return that goes unseen leaves a mark that stood standing.
  lemma UnseenReturn(p: Paused, filter: Filter)
    requires Sound(p, filter) && Stands(p, filter) && p.enabled <= 0
    ensures Stands(TraceStep(p, Return, filter), filter)
  {
    hide Encodes, Line, MarkLine;
    var g, st := p.spec.world.current, StackOf(p.spec.world, p.spec.world.current);
    if st != [] && g in p.kept {
      LowerStands(p.kept[g].mark, st, |st| - 1, p.spec.tracked[g], filter);
    } else if st != [] {
      FreshEncodes(st[..|st| - 1], Tracked(|st| - 1, 1), filter);
    }
  }

  // The calls are seen, their returns are not, and the marks go on standing.
  lemma {:induction false} OpeningStands(p: Paused, fs: seq<Frame>, filter: Filter)
    requires Sound(p, filter) && Stands(p, filter) && p.enabled == 1 && p.log == p.spec.log
    ensures var g, q := p.spec.world.current, PauseFrom(p, Opening(fs), filter);
            && Sound(q, filter) && Stands(q, filter) && q.enabled == 0 && q.log == q.spec.log
            && q.spec.world.current == g && StackOf(q.spec.world, g) == StackOf(p.spec.world, g)
            && (fs != [] && Height(q.spec.world, g) > 0 ==> g in q.kept)
    decreases |fs|
  {
    hide StandsFor, Sound, TraceStep, Trusted;
    if fs == [] {
      assert [SuspendTracing][..0] == [];
      ToggleSound(p, 0, filter);
      SameStands(p, 0, filter);
    } else {
      var call := TraceStep(p, Call(fs[0]), filter);
      TraceSpec(p, Call(fs[0]), filter);
      StepSound(p, Call(fs[0]), filter);
      StandingTrusted(p, Call(fs[0]), filter);
      TrustedLine(p, Call(fs[0]), filter);
      StepStands(p, Call(fs[0]), filter);
      OpeningStands(call, fs[1..], filter);
      var off := PauseFrom(call, Opening(fs[1..]), filter);
      Around(p, fs[0], Opening(fs[1..]), filter);
      StepSound(off, Return, filter);
      UnseenReturn(off, filter);
      SilentStep(off, Traced(Return), filter);
      TraceSpec(off, Return, filter);
      CallAndReturn(p, fs[0], off, filter);
    }
  }

  lemma SameStands(p: Paused, enabled: int, filter: Filter)
    ensures Stands(p, filter) <==> Stands(p.(enabled := enabled), filter)
  {
    hide Encodes;
  }

  lemma CallAndReturn(p: Paused, f: Frame, q: Paused, filter: Filter)
    requires var g := p.spec.world.current;
             q.spec.world.current == g && StackOf(q.spec.world, g) == StackOf(StepWorld(p.spec.world, Call(f)), g)
    ensures var g, w := p.spec.world.current, TraceStep(q, Return, filter).spec.world;
            && w.current == g && StackOf(w, g) == StackOf(p.spec.world, g)
            && (Height(w, g) > 0 ==> g in TraceStep(q, Return, filter).kept)
  {
    hide Line, MarkLine, KeptAfter;
    var st := StackOf(p.spec.world, p.spec.world.current);
    assert (st + [f])[..|st|] == st;
  }

  // The running greenlet is back where it was when tracing went off.
  lemma BodyStands(p: Paused, body: seq<Toggled>, filter: Filter)
    requires var g := p.spec.world.current;
             && Sound(p, filter) && Stands(p, filter) && PauseFrom(p, body, filter).spec.world.current == g
             && (Height(p.spec.world, g) > 0 ==> g in p.kept)
             && Inside(p, g, Height(p.spec.world, g), body, filter)
             && Height(PauseFrom(p, body, filter).spec.world, g) == Height(p.spec.world, g)
    ensures var g, q := p.spec.world.current, PauseFrom(p, body, filter);
            && Sound(q, filter) && StandsUpTo(q, Height(q.spec.world, g), filter)
            && StackOf(q.spec.world, g) == StackOf(p.spec.world, g)
  {
    hide Sound, TraceStep, Encodes, Inside, Unseen;
    var g, h := p.spec.world.current, Height(p.spec.world, p.spec.world.current);
    RunSound(p, body, filter);
    TrackedAlive(p, filter);
    var q := PauseFrom(p, body, filter);
    TrackedAlive(q, filter);
    if h > 0 {
      InsideIsUnseen(p, g, h, body, filter);
      UnseenKeeps(p, g, h, body, filter);
      assert StandsFor(p, g, filter);
      assert StackOf(q.spec.world, g)[..h] == StackOf(q.spec.world, g);
      assert StackOf(p.spec.world, g)[..h] == StackOf(p.spec.world, g);
    }
    WholeStands(q, filter);
  }

  // The running greenlet's mark stands for its stack up to height low.
  ghost predicate StandsUpTo(p: Paused, low: nat, filter: Filter) {
    var g, st := p.spec.world.current, StackOf(p.spec.world, p.spec.world.current);
    low <= |st| &&
    if g in p.kept then
      g in p.spec.tracked && p.spec.tracked[g].base <= low && Encodes(p.kept[g].mark, st[..low], p.spec.tracked[g], filter)
    else g !in p.spec.tracked && low == |st|
  }

  lemma CallUpTo(p: Paused, f: Frame, low: nat, filter: Filter)
    requires p.enabled <= 0 && StandsUpTo(p, low, filter)
    ensures StandsUpTo(TraceStep(p, Call(f), filter), low, filter)
  {
    hide Encodes, Line, MarkLine;
    var st := StackOf(p.spec.world, p.spec.world.current);
    FreshEncodes(st, Tracked(|st|, 0), filter);
    assert (st + [f])[..low] == st[..low] && st[..|st|] == st;
  }

  lemma ReturnUpTo(p: Paused, low: nat, filter: Filter)
    requires StandsUpTo(p, low, filter) && p.spec.world.current in p.kept && low < Height(p.spec.world, p.spec.world.current)
    ensures StandsUpTo(TraceStep(p, Return, filter), low, filter)
  {
    hide Encodes, Line, MarkLine, NextMark;
    var g, st := p.spec.world.current, StackOf(p.spec.world, p.spec.world.current);
    var t := p.spec.tracked[g];
    assert st[..|st| - 1][..low] == st[..low];
    AboveKeeps(p.kept[g].mark, st[..low], |st| - t.offset, filter.level(st[|st| - 1].code), t, filter);
    if low == 0 { FreshEncodes([], t, filter); }
  }

  // The calls are not seen and their returns are: whatever their levels, the mark stands
  // again where it stood before.
  lemma {:induction false} ClosingHeals(p: Paused, fs: seq<Frame>, low: nat, filter: Filter)
    requires Sound(p, filter) && p.enabled == 0 && StandsUpTo(p, low, filter)
    ensures var g, q := p.spec.world.current, PauseFrom(p, Closing(fs), filter);
            && Sound(q, filter) && q.enabled == 1 && StandsUpTo(q, low, filter)
            && q.spec.world.current == g && StackOf(q.spec.world, g) == StackOf(p.spec.world, g)
            && (Height(q.spec.world, g) > 0 && (fs != [] || g in p.kept) ==> g in q.kept)
    decreases |fs|
  {
    hide Sound, TraceStep, StandsUpTo;
    if fs == [] {
      assert [ResumeTracing][..0] == [];
      ToggleSound(p, 1, filter);
      SameUpTo(p, 1, low, filter);
    } else {
      var call := TraceStep(p, Call(fs[0]), filter);
      TraceSpec(p, Call(fs[0]), filter);
      StepSound(p, Call(fs[0]), filter);
      CallUpTo(p, fs[0], low, filter);
      CallKept(p, fs[0], low, filter);
      ClosingHeals(call, fs[1..], low, filter);
      var on := PauseFrom(call, Closing(fs[1..]), filter);
      Around(p, fs[0], Closing(fs[1..]), filter);
      StepSound(on, Return, filter);
      ReturnUpTo(on, low, filter);
      TraceSpec(on, Return, filter);
      CallAndReturn(p, fs[0], on, filter);
    }
  }

  lemma SameUpTo(p: Paused, enabled: int, low: nat, filter: Filter)
    ensures StandsUpTo(p.(enabled := enabled), low, filter) <==> StandsUpTo(p, low, filter)
  {
    hide Encodes;
  }

  lemma CallKept(p: Paused, f: Frame, low: nat, filter: Filter)
    requires StandsUpTo(p, low, filter)
    ensures var g, q := p.spec.world.current, TraceStep(p, Call(f), filter);
            g in q.kept && low < Height(q.spec.world, g) && q.spec.world == StepWorld(p.spec.world, Call(f))
  {
    hide Encodes, Line, MarkLine, KeptAfter;
  }

  // Lines of the stack's frames are due up to this depth: that of the first that turns
  // tracing off, if it is within the limit.
  function Threshold(st: seq<Frame>, t: Tracked, filter: Filter): int
    requires t.base <= |st|
  {
    var first := FirstNested(st, t.base, filter);
    if first < |st| && first + 1 - t.offset < DEPTH_LIMIT then first + 1 - t.offset else DEPTH_LIMIT
  }

  // Tracing is resumed with frames fs above st, and none of them that is logged has a depth
  // between the mark and where lines are due.
  ghost predicate Spared(mark: int, st: seq<Frame>, fs: seq<Frame>, t: Tracked, filter: Filter) {
    t.base <= |st| &&
    forall k | 0 <= k < |fs| && Logs(filter.level(fs[k].code)) ::
      |st| + k + 1 - t.offset <= mark <==> |st| + k + 1 - t.offset <= Threshold(st + fs, t, filter)
  }

  // The same of the running greenlet.
  ghost predicate SparedNow(p: Paused, fs: seq<Frame>, filter: Filter) {
    var g, st := p.spec.world.current, StackOf(p.spec.world, p.spec.world.current);
    Spared(KeptOf(p, g).mark, st, fs, TrackedOn(p.spec, g, |st| + 1, Entered), filter)
  }

  lemma SparedInside(mark: int, st: seq<Frame>, fs: seq<Frame>, t: Tracked, filter: Filter)
    requires fs != [] && t.base <= |st|
    ensures Threshold(st + fs, t, filter) == Threshold((st + [fs[0]]) + fs[1..], t, filter)
    ensures var depth := |st| + 1 - t.offset;
            Spared(mark, st, fs, t, filter) <==>
            Spared(mark, st + [fs[0]], fs[1..], t, filter)
            && (Logs(filter.level(fs[0].code)) ==> (depth <= mark <==> depth <= Threshold(st + fs, t, filter)))
  {
    hide Threshold;
    assert (st + [fs[0]]) + fs[1..] == st + fs;
    assert forall k | 0 <= k < |fs| - 1 :: fs[1..][k] == fs[k + 1];
    if Spared(mark, st + [fs[0]], fs[1..], t, filter) {
      forall k | 1 <= k < |fs| && Logs(filter.level(fs[k].code))
        ensures |st| + k + 1 - t.offset <= mark <==> |st| + k + 1 - t.offset <= Threshold(st + fs, t, filter)
      {
        assert fs[1..][k - 1] == fs[k];
      }
    }
  }

  // Whether the frame above st has a line, and whether the mark lets it through.
  lemma LinesByDepth(mark: int, st: seq<Frame>, fs: seq<Frame>, gid: nat, t: Tracked, filter: Filter)
    requires fs != [] && t.base <= |st|
    ensures var x, depth, logs := st + [fs[0]], |st| + 1 - t.offset, Logs(filter.level(fs[0].code));
            && MarkLine(mark, x, gid, Kind.Left, t, filter)
               == (if logs && depth <= mark then [Entry(Kind.Left, gid, depth, fs[0])] else [])
            && Line(x, gid, Kind.Left, t, filter)
               == (if logs && depth <= Threshold(st + fs, t, filter) then [Entry(Kind.Left, gid, depth, fs[0])] else [])
  {
    var x, all := st + [fs[0]], st + fs;
    var first := FirstNested(all, t.base, filter);
    assert forall i | 0 <= i < |x| :: x[i] == all[i];
    if first < |st| { assert NestedAt(x[first], filter); }
  }

  // The marks let the same lines through up to this depth.
  predicate SameBelow(mark: int, mark': int, depth: int) {
    mark == mark' || (mark >= depth && mark' >= depth)
  }

  // The running greenlet's mark lets through what it did below its stack, and what it has
  // let through so far is as much as was due, or less or more as the mark is.
  ghost predicate Counted(p: Paused, q: Paused, fs: seq<Frame>, filter: Filter) {
    var g, st := p.spec.world.current, StackOf(p.spec.world, p.spec.world.current);
    var t, mark := TrackedOn(p.spec, g, |st| + 1, Entered), KeptOf(p, g).mark;
    && t.base <= |st|
    && (g in q.kept ==> g in q.spec.tracked && q.spec.tracked[g] == t
                        && SameBelow(q.kept[g].mark, mark, |st| - t.offset))
    && (if Spared(mark, st, fs, t, filter) then q.log == q.spec.log else |q.log| != |q.spec.log|)
    && (mark <= Threshold(st + fs, t, filter) ==> |q.log| <= |q.spec.log|)
    && (mark >= Threshold(st + fs, t, filter) ==> |q.log| >= |q.spec.log|)
  }

  lemma {:induction false} ClosingCounts(p: Paused, fs: seq<Frame>, filter: Filter)
    requires Sound(p, filter) && p.enabled == 0 && p.log == p.spec.log && (fs == [] ==> p.spec.world.current in p.kept)
    ensures var g, q := p.spec.world.current, PauseFrom(p, Closing(fs), filter);
            && Counted(p, q, fs, filter) && Sound(q, filter) && q.enabled == 1
            && q.spec.world.current == g && StackOf(q.spec.world, g) == StackOf(p.spec.world, g)
            && (Height(q.spec.world, g) > 0 ==> g in q.kept)
    decreases |fs|
  {
    hide Sound, TraceStep, Counted, SureOf;
    TrackedAlive(p, filter);
    if fs == [] {
      assert [ResumeTracing][..0] == [];
      ToggleSound(p, 1, filter);
      CountsNone(p, filter);
    } else {
      var call := TraceStep(p, Call(fs[0]), filter);
      TraceSpec(p, Call(fs[0]), filter);
      StepSound(p, Call(fs[0]), filter);
      SilentStep(p, Traced(Call(fs[0])), filter);
      CallTracks(p, fs[0], filter);
      ClosingCounts(call, fs[1..], filter);
      var on := PauseFrom(call, Closing(fs[1..]), filter);
      Around(p, fs[0], Closing(fs[1..]), filter);
      StepSound(on, Return, filter);
      TraceSpec(on, Return, filter);
      CallAndReturn(p, fs[0], on, filter);
      CountsOne(p, call, on, fs, filter);
    }
  }

  lemma CallTracks(p: Paused, f: Frame, filter: Filter)
    requires p.kept.Keys == p.spec.tracked.Keys && p.enabled <= 0
    ensures var g, q := p.spec.world.current, TraceStep(p, Call(f), filter);
            && g in q.kept && g in q.spec.tracked && q.spec.world == StepWorld(p.spec.world, Call(f))
            && StackOf(q.spec.world, g) == StackOf(p.spec.world, g) + [f]
            && q.spec.tracked[g] == TrackedOn(p.spec, g, Height(p.spec.world, g) + 1, Entered)
            && q.kept[g].mark == KeptOf(p, g).mark
  {
    hide Line, MarkLine;
  }

  lemma CountsNone(p: Paused, filter: Filter)
    requires Sound(p, filter) && p.spec.world.current in p.kept && p.log == p.spec.log
    ensures Counted(p, p.(enabled := 1), [], filter)
  {
    hide Encodes, Threshold;
  }

  lemma CountsOne(p: Paused, call: Paused, on: Paused, fs: seq<Frame>, filter: Filter)
    requires Sound(p, filter) && p.enabled == 0 && fs != [] && call == TraceStep(p, Call(fs[0]), filter)
    requires Counted(call, on, fs[1..], filter) && on.enabled == 1
    requires var g := p.spec.world.current;
             && on.spec.world.current == g && StackOf(on.spec.world, g) == StackOf(call.spec.world, g)
             && g in on.kept && Sound(on, filter)
    ensures Counted(p, TraceStep(on, Return, filter), fs, filter)
  {
    hide Encodes, Threshold, Spared, MarkLine, Line, TraceStep, NextMark, Sound;
    var g, st := p.spec.world.current, StackOf(p.spec.world, p.spec.world.current);
    var t, mark := TrackedOn(p.spec, g, |st| + 1, Entered), KeptOf(p, g).mark;
    BaseBelow(p, filter);
    TrackedAlive(p, filter);
    TrackedAlive(on, filter);
    MarkBound(on, filter);
    CallTracks(p, fs[0], filter);
    SparedInside(mark, st, fs, t, filter);
    LinesByDepth(on.kept[g].mark, st, fs, g, t, filter);
    ReturnCounts(on, filter);
    DepthsBelow(on.kept[g].mark, |st| + 1 - t.offset, filter.level(fs[0].code));
    assert (st + [fs[0]])[|st|] == fs[0];
  }

  lemma BaseBelow(p: Paused, filter: Filter)
    requires Sound(p, filter)
    ensures var g, h := p.spec.world.current, Height(p.spec.world, p.spec.world.current);
            TrackedOn(p.spec, g, h + 1, Entered).base <= h
  {
    hide Encodes;
  }

  lemma MarkBound(p: Paused, filter: Filter)
    requires Sound(p, filter)
    ensures forall g | g in p.kept :: p.kept[g].mark <= NO_TRACE_FROM_DEPTH_DISABLED
  {
  }

  // What a traced return does.
  lemma ReturnCounts(p: Paused, filter: Filter)
    requires var g := p.spec.world.current;
             p.enabled > 0 && g in p.kept && g in p.spec.tracked && Height(p.spec.world, g) > 0
             && p.spec.tracked[g].base < Height(p.spec.world, g)
    ensures var g, q := p.spec.world.current, TraceStep(p, Return, filter);
            var st, t := StackOf(p.spec.world, g), p.spec.tracked[g];
            && q.log == p.log + MarkLine(p.kept[g].mark, st, g, Kind.Left, t, filter)
            && q.spec.log == p.spec.log + Line(st, g, Kind.Left, t, filter)
            && (g in q.kept ==> g in q.spec.tracked && q.spec.tracked[g] == t
                                && q.kept[g].mark ==
                                   NextMark(p.kept[g].mark, |st| - t.offset, filter.level(st[|st| - 1].code)))
  {
    hide Line, MarkLine, NextMark;
  }

  lemma DepthsBelow(mark: int, depth: int, level: int)
    requires mark <= NO_TRACE_FROM_DEPTH_DISABLED
    ensures SameBelow(NextMark(mark, depth, level), mark, depth)
  {
  }

  // The one frame above a stack for which the mark stands.
  lemma OneFrame(mark: int, st: seq<Frame>, f: Frame, t: Tracked, filter: Filter)
    requires t.base <= |st| && Encodes(mark, st, t, filter)
    ensures Spared(mark, st, [f], t, filter)
  {
    OnCall(mark, st, f, t, filter);
    var first, first' := FirstNested(st, t.base, filter), FirstNested(st + [f], t.base, filter);
    assert forall i | 0 <= i < |st| :: (st + [f])[i] == st[i];
    if first < |st| { assert NestedAt((st + [f])[first], filter); }
  }

  // Frames on a stack for which the mark stands.
  lemma StandingSpares(mark: int, st: seq<Frame>, fs: seq<Frame>, t: Tracked, filter: Filter)
    requires t.base <= |st| && Encodes(mark, st + fs, t, filter)
    ensures Spared(mark, st, fs, t, filter)
  {
  }

  // Greenlets other than g are as they were.
  ghost predicate OthersSame(p: Paused, q: Paused, g: nat) {
    forall x | x != g ::
      && (x in q.kept <==> x in p.kept) && (x in q.spec.tracked <==> x in p.spec.tracked)
      && (x in p.kept ==> q.kept[x] == p.kept[x]) && (x in p.spec.tracked ==> q.spec.tracked[x] == p.spec.tracked[x])
      && StackOf(q.spec.world, x) == StackOf(p.spec.world, x)
  }

  lemma OthersStay(p: Paused, e: Toggled, filter: Filter)
    requires p.kept.Keys == p.spec.tracked.Keys && !(e.Traced? && e.event.Switch?)
    ensures OthersSame(p, PauseStep(p, e, filter), p.spec.world.current)
    ensures PauseStep(p, e, filter).spec.world.current == p.spec.world.current
  {
    hide Line, MarkLine, KeptAfter;
  }

  lemma {:induction false} AloneRuns(p: Paused, events: seq<Toggled>, filter: Filter)
    requires Sound(p, filter) && forall e | e in events :: !(e.Traced? && e.event.Switch?)
    ensures var q, g := PauseFrom(p, events, filter), p.spec.world.current;
            OthersSame(p, q, g) && q.spec.world.current == g
    decreases |events|
  {
    hide Sound, PauseStep, StackOf;
    if events != [] {
      var init, last := events[..|events| - 1], events[|events| - 1];
      AloneRuns(p, init, filter);
      RunSound(p, init, filter);
      TrackedAlive(PauseFrom(p, init, filter), filter);
      OthersStay(PauseFrom(p, init, filter), last, filter);
    }
  }

  lemma OthersStand(p: Paused, q: Paused, g: nat, filter: Filter)
    requires OthersSame(p, q, g)
    ensures forall x | x != g && x in p.kept && x in p.spec.tracked :: x in q.kept && x in q.spec.tracked
    ensures forall x | x != g && x in q.kept && x in q.spec.tracked ::
              x in p.kept && x in p.spec.tracked && (StandsFor(q, x, filter) <==> StandsFor(p, x, filter))
  {
    hide Encodes, StackOf;
  }

  // Suspending, with frames fs on the stack; anything, while tracing is off, that leaves the
  // greenlet where it was; and resuming, with frames rs on the stack. Whatever the levels of
  // all these, the greenlet's mark stands afterwards, and everything that follows will be
  // logged as it should be if and only if the marks of the other greenlets do. The lines of
  // rs are right if and only if they are spared, as resume_tracing alone always is.
  lemma BracketedSuspension(p: Paused, fs: seq<Frame>, body: seq<Toggled>, rs: seq<Frame>, filter: Filter)
    requires Sound(p, filter) && Stands(p, filter) && p.enabled == 1 && p.log == p.spec.log && fs != [] && rs != []
    requires var g, q := p.spec.world.current, PauseFrom(p, Opening(fs), filter);
             && Inside(q, g, Height(p.spec.world, g), body, filter)
             && var q' := PauseFrom(q, body, filter);
                q'.enabled == 0 && q'.spec.world.current == g && Height(q'.spec.world, g) == Height(p.spec.world, g)
    ensures var g, q := p.spec.world.current, PauseFrom(p, Opening(fs) + body + Closing(rs), filter);
            && Sound(q, filter) && q.enabled == 1
            && q.spec.world.current == g && StackOf(q.spec.world, g) == StackOf(p.spec.world, g)
            && q.kept.Keys == q.spec.tracked.Keys && (g in q.kept ==> StandsFor(q, g, filter))
            && (Stands(q, filter) <==> forall x | x in q.kept && x != g :: StandsFor(q, x, filter))
            && (q.log == q.spec.log <==> SparedNow(PauseFrom(p, Opening(fs) + body, filter), rs, filter))
            && (|rs| == 1 ==> q.log == q.spec.log)
  {
    hide Sound, Stands, Inside, PauseFrom, StandsFor, StandsUpTo, SparedNow, Counted, Opening, Closing;
    var g, h, q := p.spec.world.current, Height(p.spec.world, p.spec.world.current), PauseFrom(p, Opening(fs), filter);
    var q' := PauseFrom(q, body, filter);
    var q'' := PauseFrom(q', Closing(rs), filter);
    OpeningStands(p, fs, filter);
    BodyStands(q, body, filter);
    InsideIsSilent(q, g, h, body, filter);
    ClosingHeals(q', rs, h, filter);
    ClosingCounts(q', rs, filter);
    CountedLogs(q', q'', rs, filter);
    if |rs| == 1 {
      OneSpared(q', rs[0], filter);
      assert rs == [rs[0]];
    }
    PauseAppend(p, Opening(fs), body, filter);
    PauseAppend(p, Opening(fs) + body, Closing(rs), filter);
    TrackedAlive(q'', filter);
    WholeStands(q'', filter);
    StandsAll(q'', g, filter);
  }

  lemma CountedLogs(p: Paused, q: Paused, fs: seq<Frame>, filter: Filter)
    requires Counted(p, q, fs, filter)
    ensures q.log == q.spec.log <==> SparedNow(p, fs, filter)
  {
    hide Spared, Threshold;
  }

  lemma OneSpared(p: Paused, r: Frame, filter: Filter)
    requires Sound(p, filter) && StandsUpTo(p, Height(p.spec.world, p.spec.world.current), filter)
    ensures SparedNow(p, [r], filter)
  {
    hide Encodes, Spared;
    var g, st := p.spec.world.current, StackOf(p.spec.world, p.spec.world.current);
    var t := TrackedOn(p.spec, g, |st| + 1, Entered);
    TrackedAlive(p, filter);
    FreshEncodes(st, t, filter);
    assert st[..|st|] == st;
    OneFrame(KeptOf(p, g).mark, st, r, t, filter);
  }

  lemma WholeStands(p: Paused, filter: Filter)
    requires p.kept.Keys == p.spec.tracked.Keys
    ensures var g := p.spec.world.current;
            StandsUpTo(p, Height(p.spec.world, g), filter) <==> (g in p.kept ==> StandsFor(p, g, filter))
  {
    hide Encodes;
    var st := StackOf(p.spec.world, p.spec.world.current);
    assert st[..|st|] == st;
  }

  lemma StandsAll(p: Paused, g: nat, filter: Filter)
    requires p.kept.Keys == p.spec.tracked.Keys && (g in p.kept ==> StandsFor(p, g, filter))
    ensures Stands(p, filter) <==> forall x | x in p.kept && x != g :: StandsFor(p, x, filter)
  {
    hide StandsFor;
  }

  // The mark that the calls leave, in terms of levels.
  lemma {:induction false} OpeningMark(p: Paused, fs: seq<Frame>, filter: Filter)
    requires Sound(p, filter) && Stands(p, filter) && p.enabled == 1 && p.log == p.spec.log && fs != []
    requires Height(p.spec.world, p.spec.world.current) > 0
    ensures var g, q := p.spec.world.current, PauseFrom(p, Opening(fs), filter);
            var st, t := StackOf(p.spec.world, g), TrackedOn(p.spec, g, Height(p.spec.world, g) + 1, Entered);
            && g in q.kept && g in q.spec.tracked && q.spec.tracked[g] == t && t.base <= |st|
            && q.kept[g].mark == MarkFor(Barrier(st + fs, t, [], filter), t)
    decreases |fs|
  {
    hide StandsFor, Sound, TraceStep, Trusted, Barrier;
    var g, st, rest := p.spec.world.current, StackOf(p.spec.world, p.spec.world.current), fs[1..];
    var call := TraceStep(p, Call(fs[0]), filter);
    TrackedAlive(p, filter);
    StandsBase(p, filter);
    CallTracked(p, fs[0], filter);
    TraceSpec(p, Call(fs[0]), filter);
    StepSound(p, Call(fs[0]), filter);
    StandingTrusted(p, Call(fs[0]), filter);
    TrustedLine(p, Call(fs[0]), filter);
    StepStands(p, Call(fs[0]), filter);
    MarkByLevels(p, Call(fs[0]), filter);
    Around(p, fs[0], Opening(rest), filter);
    var off := PauseFrom(call, Opening(rest), filter);
    OpeningStands(call, rest, filter);
    if rest == [] {
      assert [SuspendTracing][..0] == [];
      assert fs == [fs[0]];
    } else {
      OpeningMark(call, rest, filter);
      assert st + fs == (st + [fs[0]]) + rest;
    }
    ReturnTracked(off, filter);
  }

  lemma StandsBase(p: Paused, filter: Filter)
    requires Stands(p, filter) && p.kept.Keys == p.spec.tracked.Keys
    ensures forall g | g in p.spec.tracked :: p.spec.tracked[g].base <= Height(p.spec.world, g)
  {
    hide Encodes;
    assert forall g | g in p.spec.tracked :: g in p.kept ==> StandsFor(p, g, filter);
  }

  lemma CallTracked(p: Paused, f: Frame, filter: Filter)
    ensures var g, q := p.spec.world.current, TraceStep(p, Call(f), filter);
            && g in q.kept && g in q.spec.tracked
            && q.spec.tracked[g] == TrackedOn(p.spec, g, Height(p.spec.world, g) + 1, Entered)
            && StackOf(q.spec.world, g) == StackOf(p.spec.world, g) + [f]
  {
    hide Line, MarkLine, KeptAfter;
  }

  lemma ReturnTracked(p: Paused, filter: Filter)
    requires var g := p.spec.world.current;
             && p.enabled <= 0 && Height(p.spec.world, g) > 1 && g in p.kept && g in p.spec.tracked
             && p.spec.tracked[g].base < Height(p.spec.world, g)
    ensures var g, q := p.spec.world.current, TraceStep(p, Return, filter);
            && g in q.kept && g in q.spec.tracked && q.spec.tracked[g] == p.spec.tracked[g]
            && q.kept[g].mark == p.kept[g].mark
  {
    hide Line, MarkLine;
  }

  // Which lines are right is a matter of levels: of those of st and fs, which make the
  // mark, and those of st and rs.
  lemma BracketByLevels(p: Paused, fs: seq<Frame>, body: seq<Toggled>, rs: seq<Frame>, filter: Filter)
    requires Sound(p, filter) && Stands(p, filter) && p.enabled == 1 && p.log == p.spec.log && fs != [] && rs != []
    requires var g, q := p.spec.world.current, PauseFrom(p, Opening(fs), filter);
             && Height(p.spec.world, g) > 0 && Inside(q, g, Height(p.spec.world, g), body, filter)
             && var q' := PauseFrom(q, body, filter);
                q'.spec.world.current == g && Height(q'.spec.world, g) == Height(p.spec.world, g)
    ensures var g, st := p.spec.world.current, StackOf(p.spec.world, p.spec.world.current);
            var t := TrackedOn(p.spec, g, |st| + 1, Entered);
            && t.base <= |st|
            && (SparedNow(PauseFrom(p, Opening(fs) + body, filter), rs, filter) <==>
                  Spared(MarkFor(Barrier(st + fs, t, [], filter), t), st, rs, t, filter))
  {
    hide Sound, StandsFor, PauseFrom, Opening, Inside, Unseen, Encodes, Spared;
    var g, st, q := p.spec.world.current, StackOf(p.spec.world, p.spec.world.current), PauseFrom(p, Opening(fs), filter);
    var h := |st|;
    OpeningStands(p, fs, filter);
    OpeningMark(p, fs, filter);
    InsideIsUnseen(q, g, h, body, filter);
    UnseenKeeps(q, g, h, body, filter);
    PauseAppend(p, Opening(fs), body, filter);
    var q' := PauseFrom(q, body, filter);
    assert StackOf(q'.spec.world, g)[..h] == StackOf(q'.spec.world, g) && StackOf(q.spec.world, g)[..h] == st;
  }

  // The same frames, or frames of the same levels, are spared.
  lemma SameLevelsSpared(st: seq<Frame>, fs: seq<Frame>, rs: seq<Frame>, t: Tracked, filter: Filter)
    requires t.base <= |st| && |fs| == |rs| && forall k | 0 <= k < |fs| :: NestedAt(fs[k], filter) == NestedAt(rs[k], filter)
    ensures Spared(MarkFor(Barrier(st + fs, t, [], filter), t), st, rs, t, filter)
  {
    var a, b := st + fs, st + rs;
    forall i | t.base <= i < |a| ensures NestedAt(a[i], filter) == NestedAt(b[i], filter) {
    }
    var first, first' := FirstNested(a, t.base, filter), FirstNested(b, t.base, filter);
    assert first == first';
    StandingSpares(MarkFor(Barrier(a, t, [], filter), t), st, rs, t, filter);
  }

  // In one greenlet, no other running meanwhile: everything that follows will be logged as
  // it should be, and if the lines of rs are spared, so is everything so far.
  lemma SuspensionInOneGreenlet(p: Paused, fs: seq<Frame>, body: seq<Toggled>, rs: seq<Frame>, filter: Filter)
    requires Sound(p, filter) && Stands(p, filter) && p.enabled == 1 && p.log == p.spec.log && fs != [] && rs != []
    requires forall e | e in body :: !(e.Traced? && e.event.Switch?)
    requires var g, q := p.spec.world.current, PauseFrom(p, Opening(fs), filter);
             && Inside(q, g, Height(p.spec.world, g), body, filter)
             && var q' := PauseFrom(q, body, filter);
                q'.enabled == 0 && Height(q'.spec.world, g) == Height(p.spec.world, g)
    ensures var q := PauseFrom(p, Opening(fs) + body + Closing(rs), filter);
            && Stands(q, filter) && (|rs| == 1 ==> q.log == q.spec.log)
            && (q.log == q.spec.log <==> SparedNow(PauseFrom(p, Opening(fs) + body, filter), rs, filter))
            && (q.log == q.spec.log ==>
                  forall more: seq<Event> :: TraceRun(q, more, filter).log == TraceRun(q, more, filter).spec.log)
  {
    hide Sound, Inside, PauseFrom, StandsFor, TraceRun, StackOf, OthersSame, Opening, Closing, SparedNow;
    var g, q := p.spec.world.current, PauseFrom(p, Opening(fs), filter);
    OpeningStands(p, fs, filter);
    AloneRuns(q, body, filter);
    BracketedSuspension(p, fs, body, rs, filter);
    var all := Opening(fs) + body + Closing(rs);
    var q' := PauseFrom(p, all, filter);
    BracketsAlone(fs);
    BracketsAlone(rs);
    AloneRuns(p, all, filter);
    TrackedAlive(p, filter);
    OthersStand(p, q', g, filter);
    if q'.log == q'.spec.log {
      forall more: seq<Event> ensures TraceRun(q', more, filter).log == TraceRun(q', more, filter).spec.log {
        StandsForever(q', more, filter);
      }
    }
  }

  lemma {:induction false} BracketsAlone(fs: seq<Frame>)
    ensures forall e | e in Opening(fs) :: !(e.Traced? && e.event.Switch?)
    ensures forall e | e in Closing(fs) :: !(e.Traced? && e.event.Switch?)
    decreases |fs|
  {
    if fs != [] { BracketsAlone(fs[1..]); }
  }
}
