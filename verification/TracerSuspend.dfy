// Suspending and resuming tracing in the middle of a run. While it is off, marks stand
// still and stacks do not, so that a mark may be wrong at the resume: here, what the
// marks make of a run, and which of its lines they cannot spoil.
module TracerSuspend {
  import opened Basics
  import opened TracerSpec
  import opened Tracer
  import opened TracerRuns

  datatype Toggled = Traced(event: Event) | SuspendTracing | ResumeTracing

  // A greenlet's mark, and the height up to which its stack is the one the mark stands
  // for: all of it until a suspension, then the lowest it has come down to.
  datatype Kept = Kept(mark: int, sure: nat)

  // spec.log is what should be logged: the specification's lines for the events while
  // tracing is on. log is what the marks let through.
  datatype Paused = Paused(spec: Spec, enabled: int, kept: map<nat, Kept>, log: seq<Entry>)

  function StartPaused(w: World): Paused { Paused(Start(w), 1, map[], []) }

  // A greenlet without a storage is unmarked, and nothing has happened to its stack.
  function KeptOf(p: Paused, g: nat): Kept {
    if g in p.kept then p.kept[g] else Kept(NO_TRACE_FROM_DEPTH_DISABLED, Height(p.spec.world, g))
  }

  // Once the stack is back at the height it is sure up to, it stays so while traced.
  function KeptAfter(k: Kept, on: bool, depth: int, level: int, before: nat, after: nat): Kept {
    Kept(if on then NextMark(k.mark, depth, level) else k.mark,
         if on && k.sure == before then after else Min(k.sure, after))
  }

  function TraceStep(p: Paused, e: Event, filter: Filter): Paused {
    var g, st, s' := p.spec.world.current, Subject(p.spec.world, e), SpecStep(p.spec, e, filter);
    if st == [] then p.(spec := s')
    else
      var on, t := p.enabled > 0, TrackedOn(p.spec, g, |st|, KindOf(e));
      var k := KeptAfter(KeptOf(p, g), on, |st| - t.offset, filter.level(st[|st| - 1].code),
                         Height(p.spec.world, g), Height(s'.world, g));
      Paused(if on then s' else s'.(log := p.spec.log), p.enabled,
             if g in s'.tracked then p.kept[g := k] else p.kept - {g},
             p.log + (if on then MarkLine(KeptOf(p, g).mark, st, g, KindOf(e), t, filter) else []))
  }

  function PauseStep(p: Paused, e: Toggled, filter: Filter): Paused {
    match e
    case SuspendTracing => p.(enabled := p.enabled - 1)
    case ResumeTracing => if p.enabled <= 0 then p.(enabled := p.enabled + 1) else p
    case Traced(event) => TraceStep(p, event, filter)
  }

  function PauseFrom(p: Paused, events: seq<Toggled>, filter: Filter): Paused {
    if events == [] then p
    else PauseStep(PauseFrom(p, events[..|events| - 1], filter), events[|events| - 1], filter)
  }

  function PauseRun(w: World, events: seq<Toggled>, filter: Filter): Paused {
    PauseFrom(StartPaused(w), events, filter)
  }

  function Events(events: seq<Toggled>): seq<Event> {
    if events == [] then []
    else
      Events(events[..|events| - 1])
      + (match events[|events| - 1] case Traced(e) => [e] case _ => [])
  }

  // What the environment may do; suspending and resuming are always possible.
  ghost predicate AllowedPaused(w: World, events: seq<Toggled>, filter: Filter) {
    AllowedRun(w, Events(events)) && Covers(filter, w, Events(events))
  }

  lemma PauseSnoc(p: Paused, events: seq<Toggled>, e: Toggled, filter: Filter)
    ensures PauseFrom(p, events + [e], filter) == PauseStep(PauseFrom(p, events, filter), e, filter)
    ensures Events(events + [e]) == Events(events) + (match e case Traced(event) => [event] case _ => [])
  {
    hide PauseStep;
    assert (events + [e])[..|events|] == events;
  }

  lemma {:induction false} PauseAppend(p: Paused, first: seq<Toggled>, more: seq<Toggled>, filter: Filter)
    ensures PauseFrom(p, first + more, filter) == PauseFrom(PauseFrom(p, first, filter), more, filter)
    decreases |more|
  {
    hide PauseStep;
    if more == [] {
      assert first + more == first;
    } else {
      var init, last := more[..|more| - 1], more[|more| - 1];
      PauseAppend(p, first, init, filter);
      PauseSnoc(p, first + init, last, filter);
      assert first + more == (first + init) + [last];
    }
  }

  // --- what stands ---

  // The greenlet's mark stands for its stack.
  ghost predicate StandsFor(p: Paused, g: nat, filter: Filter)
    requires g in p.spec.tracked && g in p.kept
  {
    p.spec.tracked[g].base <= Height(p.spec.world, g)
    && Encodes(p.kept[g].mark, StackOf(p.spec.world, g), p.spec.tracked[g], filter)
  }

  // The mark stands for the part of the stack it is sure of.
  ghost predicate SureOf(k: Kept, st: seq<Frame>, t: Tracked, filter: Filter) {
    && t.base <= k.sure <= |st| && Encodes(k.mark, st[..k.sure], t, filter)
    && (k.mark == NO_TRACE_FROM_DEPTH_DISABLED || k.mark > t.base - t.offset)
  }

  ghost predicate Sound(p: Paused, filter: Filter) {
    && p.kept.Keys == p.spec.tracked.Keys
    && forall g | g in p.spec.tracked ::
         Height(p.spec.world, g) > 0 && SureOf(p.kept[g], StackOf(p.spec.world, g), p.spec.tracked[g], filter)
  }

  // A call, traced or not, on a stack that has grown above what is sure or has not.
  lemma SureCall(k: Kept, st: seq<Frame>, f: Frame, t: Tracked, on: bool, filter: Filter)
    requires SureOf(k, st, t, filter)
    ensures SureOf(KeptAfter(k, on, |st| + 1 - t.offset, filter.level(f.code), |st|, |st| + 1), st + [f], t, filter)
  {
    var st', level := st + [f], filter.level(f.code);
    assert st'[..k.sure] == st[..k.sure];
    if on && k.sure == |st| {
      assert st[..k.sure] == st && st'[..|st| + 1] == st';
      OnCall(k.mark, st, f, t, filter);
    } else if on {
      AboveKeeps(k.mark, st[..k.sure], |st| + 1 - t.offset, level, t, filter);
    }
  }

  lemma SureReturn(k: Kept, st: seq<Frame>, t: Tracked, on: bool, filter: Filter)
    requires SureOf(k, st, t, filter) && st != []
    ensures var h := |st| - 1;
            SureOf(KeptAfter(k, on, |st| - t.offset, filter.level(st[h].code), |st|, h), st[..h],
                   t.(base := Min(t.base, h)), filter)
  {
    hide Encodes, NextMark;
    var h, level := |st| - 1, filter.level(st[|st| - 1].code);
    MarkAbove(k.mark, |st| - t.offset, level, t.base - t.offset);
    assert forall x | 0 <= x <= h :: st[..h][..x] == st[..x];
    if on && k.sure == |st| {
      assert st[..k.sure] == st;
      OnReturn(k.mark, st, t, filter);
    } else if on {
      AboveKeeps(k.mark, st[..k.sure], |st| - t.offset, level, t, filter);
    } else if k.sure > h {
      assert st[..k.sure] == st;
      LowerStands(k.mark, st, h, t, filter);
    }
  }

  lemma MarkAbove(mark: int, depth: int, level: int, low: int)
    requires mark == NO_TRACE_FROM_DEPTH_DISABLED || mark > low
    ensures var mark' := NextMark(mark, depth, level);
            mark' == NO_TRACE_FROM_DEPTH_DISABLED || mark' == depth || mark' > low
  {
  }

  // An event above a stack leaves a mark that stands for it.
  lemma AboveKeeps(mark: int, st: seq<Frame>, depth: int, level: int, t: Tracked, filter: Filter)
    requires t.base <= |st| && Encodes(mark, st, t, filter) && depth > |st| - t.offset
    ensures Encodes(NextMark(mark, depth, level), st, t, filter)
  {
  }

  // A mark stands for what is left when frames have gone.
  lemma LowerStands(mark: int, st: seq<Frame>, h: nat, t: Tracked, filter: Filter)
    requires t.base <= |st| && Encodes(mark, st, t, filter) && h <= |st|
    requires mark == NO_TRACE_FROM_DEPTH_DISABLED || mark > t.base - t.offset
    ensures Encodes(mark, st[..h], t.(base := Min(t.base, h)), filter)
  {
    var t' := t.(base := Min(t.base, h));
    var first, first' := FirstNested(st, t.base, filter), FirstNested(st[..h], t'.base, filter);
    assert forall i | 0 <= i < h :: st[..h][i] == st[i];
    if first < h { assert first' == first; } else { assert first' == h; }
  }

  // What an event of any kind does to the marks, on or off.
  lemma StepSound(p: Paused, e: Event, filter: Filter)
    requires Sound(p, filter)
    ensures Sound(TraceStep(p, e, filter), filter)
  {
    hide Encodes, SureOf, KeptAfter, MarkLine, Line;
    var g, w, on := p.spec.world.current, p.spec.world, p.enabled > 0;
    var st := StackOf(w, g);
    match e
    case Switch(_) => SwitchStacks(w, e);
    case Call(f) =>
      var t := TrackedOn(p.spec, g, |st| + 1, Entered);
      FreshSure(st, t, filter);
      SureCall(KeptOf(p, g), st, f, t, on, filter);
    case Return =>
      if st != [] {
        var t := TrackedOn(p.spec, g, |st|, Left);
        FreshSure(st, t, filter);
        SureReturn(KeptOf(p, g), st, t, on, filter);
      }
  }

  lemma FreshSure(st: seq<Frame>, t: Tracked, filter: Filter)
    ensures t.base == |st| ==> SureOf(Kept(NO_TRACE_FROM_DEPTH_DISABLED, |st|), st, t, filter)
  {
  }

  lemma {:induction false} RunSound(p: Paused, events: seq<Toggled>, filter: Filter)
    requires Sound(p, filter)
    ensures Sound(PauseFrom(p, events, filter), filter)
    decreases |events|
  {
    hide Sound, TraceStep;
    if events != [] {
      var init, last := events[..|events| - 1], events[|events| - 1];
      RunSound(p, init, filter);
      var q := PauseFrom(p, init, filter);
      match last
      case Traced(e) => StepSound(q, e, filter);
      case _ => ToggleSound(q, PauseStep(q, last, filter).enabled, filter);
    }
  }

  lemma ToggleSound(p: Paused, enabled: int, filter: Filter)
    requires Sound(p, filter)
    ensures Sound(p.(enabled := enabled), filter)
  {
  }

  // --- which lines are right ---

  // The event's frame stands at most one above what is sure of its stack, or the mark
  // stands for the whole of it.
  ghost predicate Trusted(p: Paused, e: Event, filter: Filter) {
    var g, st := p.spec.world.current, Subject(p.spec.world, e);
    st != [] && p.enabled > 0 ==>
      |st| - 1 <= KeptOf(p, g).sure || (g in p.spec.tracked && g in p.kept && StandsFor(p, g, filter))
  }

  // The line of an event by a mark that stands for the stack up to below its frame.
  lemma LineOnSure(k: Kept, st: seq<Frame>, gid: nat, kind: Kind, t: Tracked, filter: Filter)
    requires st != [] && t.base <= k.sure <= |st| && |st| - 1 <= k.sure && Encodes(k.mark, st[..k.sure], t, filter)
    ensures MarkLine(k.mark, st, gid, kind, t, filter) == Line(st, gid, kind, t, filter)
  {
    var top := |st| - 1;
    if k.sure == top {
      assert st[..top] + [st[top]] == st;
      OnCall(k.mark, st[..top], st[top], t, filter);
    } else {
      assert st[..|st|] == st;
      OnReturn(k.mark, st, t, filter);
    }
  }

  lemma TrustedLine(p: Paused, e: Event, filter: Filter)
    requires Sound(p, filter) && Trusted(p, e, filter) && p.log == p.spec.log
    ensures TraceStep(p, e, filter).log == TraceStep(p, e, filter).spec.log
  {
    hide Encodes, Line, MarkLine;
    var g, st := p.spec.world.current, Subject(p.spec.world, e);
    if st != [] && p.enabled > 0 {
      var t, k := TrackedOn(p.spec, g, |st|, KindOf(e)), KeptOf(p, g);
      var below := StackOf(p.spec.world, g);
      FreshSure(below, t, filter);
      assert below[..|below|] == below && st[..|below|] == below;
      if |st| - 1 <= k.sure {
        assert st[..k.sure] == below[..k.sure];
        LineOnSure(k, st, g, KindOf(e), t, filter);
      } else {
        LineOnSure(k.(sure := |below|), st, g, KindOf(e), t, filter);
      }
    }
  }

  ghost predicate TrustedRun(w: World, events: seq<Toggled>, filter: Filter) {
    forall n | 0 <= n < |events| && events[n].Traced? ::
      Trusted(PauseRun(w, events[..n], filter), events[n].event, filter)
  }

  // With suspensions anywhere: the log is the specification's if every traced event is
  // trusted. So a wrong line, too many or too few, is always about a frame two or more
  // above the lowest its greenlet came down to since a suspension, whatever the filter.
  lemma {:induction false} TrustedIsRight(w: World, events: seq<Toggled>, filter: Filter)
    requires TrustedRun(w, events, filter)
    ensures PauseRun(w, events, filter).log == PauseRun(w, events, filter).spec.log
    decreases |events|
  {
    hide Sound, Trusted, TraceStep;
    if events != [] {
      var init, n := events[..|events| - 1], |events| - 1;
      assert forall k | 0 <= k < n :: init[k] == events[k] && init[..k] == events[..k];
      TrustedIsRight(w, init, filter);
      StartSound(w, filter);
      RunSound(StartPaused(w), init, filter);
      if events[n].Traced? { TrustedLine(PauseRun(w, init, filter), events[n].event, filter); }
    }
  }

  lemma StartSound(w: World, filter: Filter)
    ensures Sound(StartPaused(w), filter)
  {
  }

  // A greenlet that is down at the height it is sure of has a mark that stands.
  lemma SureStands(p: Paused, g: nat, filter: Filter)
    requires Sound(p, filter) && g in p.kept && p.kept[g].sure == Height(p.spec.world, g)
    ensures g in p.spec.tracked && StandsFor(p, g, filter)
  {
    var st := StackOf(p.spec.world, g);
    assert st[..|st|] == st;
  }

  // --- the counter of suspensions ---

  // Suspensions less resumes from the k-th action on.
  function Balance(events: seq<Toggled>, k: nat): int
    requires k <= |events|
    decreases |events|
  {
    if k == |events| then 0
    else
      Balance(events[..|events| - 1], k) + Change(events[|events| - 1])
  }

  function Change(e: Toggled): int {
    match e
    case SuspendTracing => 1
    case ResumeTracing => -1
    case Traced(_) => 0
  }

  // Tracing is on exactly while no stretch of the run up to now has more suspensions than
  // resumes; resumes that have nothing to undo do not count against later suspensions.
  lemma {:induction false} EnabledByBalance(w: World, events: seq<Toggled>, filter: Filter)
    ensures var enabled := PauseRun(w, events, filter).enabled;
            && (forall k | 0 <= k <= |events| :: Balance(events, k) <= 1 - enabled)
            && (exists k :: 0 <= k <= |events| && Balance(events, k) == 1 - enabled)
            && (enabled > 0 <==> forall k | 0 <= k <= |events| :: Balance(events, k) <= 0)
    decreases |events|
  {
    hide TraceStep;
    if events == [] {
      assert Balance(events, 0) == 0;
    } else {
      var init, n := events[..|events| - 1], |events|;
      EnabledByBalance(w, init, filter);
      var before, after := PauseRun(w, init, filter).enabled, PauseRun(w, events, filter).enabled;
      StepEnabled(PauseRun(w, init, filter), events[n - 1], filter);
      assert Balance(init, |init|) == 0;
      assert before <= 1;
      assert after == before - Change(events[n - 1]) || (events[n - 1].ResumeTracing? && after == before == 1);
      forall k | 0 <= k <= n ensures Balance(events, k) <= 1 - after {
        if k < n { assert Balance(events, k) == Balance(init, k) + Change(events[n - 1]); }
      }
      var k :| 0 <= k <= |init| && Balance(init, k) == 1 - before;
      var most := if after == before == 1 then n else k;
      assert Balance(events, most) == 1 - after;
      Decides(events, after);
    }
  }

  lemma Decides(events: seq<Toggled>, enabled: int)
    requires forall k | 0 <= k <= |events| :: Balance(events, k) <= 1 - enabled
    requires exists k :: 0 <= k <= |events| && Balance(events, k) == 1 - enabled
    ensures enabled > 0 <==> forall k | 0 <= k <= |events| :: Balance(events, k) <= 0
  {
    hide Balance;
    var k :| 0 <= k <= |events| && Balance(events, k) == 1 - enabled;
  }

  lemma StepEnabled(p: Paused, e: Toggled, filter: Filter)
    ensures PauseStep(p, e, filter).enabled ==
            match e
            case SuspendTracing => p.enabled - 1
            case ResumeTracing => if p.enabled <= 0 then p.enabled + 1 else p.enabled
            case Traced(_) => p.enabled
  {
  }

  // --- the world goes on ---

  lemma LogAside(s: Spec, s': Spec, e: Event, filter: Filter)
    requires s.world == s'.world && s.tracked == s'.tracked
    ensures var t, t' := SpecStep(s, e, filter), SpecStep(s', e, filter);
            t.world == t'.world && t.tracked == t'.tracked
  {
    hide Line;
  }

  lemma TraceSpec(p: Paused, e: Event, filter: Filter)
    ensures var s', p' := SpecStep(p.spec, e, filter), TraceStep(p, e, filter);
            && p'.spec.world == s'.world == StepWorld(p.spec.world, e) && p'.spec.tracked == s'.tracked
            && p'.enabled == p.enabled && p'.spec.log == if p.enabled > 0 then s'.log else p.spec.log
  {
    hide Line, MarkLine, KeptAfter;
  }

  lemma NothingSeen(w: World, filter: Filter)
    ensures Events([]) == [] && SpecRun(Start(w), [], filter) == Start(w)
  {
  }

  // Suspending takes lines away and changes nothing else: stacks and tracking are those
  // of the same run without it.
  lemma {:induction false} SuspendingOnlySilences(w: World, events: seq<Toggled>, filter: Filter)
    ensures var p, s := PauseRun(w, events, filter).spec, SpecRun(Start(w), Events(events), filter);
            p.world == s.world && p.tracked == s.tracked
    decreases |events|
  {
    hide SpecStep, TraceStep, SpecRun, Events;
    if events == [] {
      NothingSeen(w, filter);
    } else {
      var init, last := events[..|events| - 1], events[|events| - 1];
      SuspendingOnlySilences(w, init, filter);
      assert events == init + [last];
      PauseSnoc(StartPaused(w), init, last, filter);
      match last
      case Traced(e) =>
        SpecSnoc(Start(w), Events(init), e, filter);
        LogAside(PauseRun(w, init, filter).spec, SpecRun(Start(w), Events(init), filter), e, filter);
        TraceSpec(PauseRun(w, init, filter), e, filter);
      case _ =>
        assert Events(init) + [] == Events(init);
    }
  }

  lemma {:induction false} WorldNow(w: World, events: seq<Toggled>, filter: Filter)
    ensures PauseRun(w, events, filter).spec.world == WorldAfter(w, Events(events))
  {
    hide PauseFrom, Events, SpecRun, WorldAfter;
    SuspendingOnlySilences(w, events, filter);
    WorldOfRun(Start(w), Events(events), filter);
  }

  // What is allowed of a run is allowed of its beginnings.
  lemma {:induction false} AllowedSoFar(w: World, events: seq<Toggled>, n: nat, filter: Filter)
    requires AllowedPaused(w, events, filter) && n <= |events|
    ensures AllowedPaused(w, events[..n], filter)
    decreases |events|
  {
    if n < |events| {
      var init := events[..|events| - 1];
      var es, before := Events(events), Events(init);
      if events[|events| - 1].Traced? {
        assert es == before + [events[|events| - 1].event];
        assert es[..|es| - 1] == before;
        assert forall k | 0 <= k < |before| :: before[k] == es[k];
      } else {
        assert es == before;
      }
      AllowedSoFar(w, init, n, filter);
      assert init[..n] == events[..n];
    } else {
      assert events[..n] == events;
    }
  }

  // The state before the n-th action, and what the environment promises of it.
  lemma AllowedNext(w: World, events: seq<Toggled>, n: nat, filter: Filter)
    requires AllowedPaused(w, events, filter) && n < |events|
    ensures var p := PauseRun(w, events[..n], filter);
            && Sane(p.spec.world) && CoversWorld(filter, p.spec.world)
            && PauseRun(w, events[..n + 1], filter) == PauseStep(p, events[n], filter)
            && (events[n].Traced? ==>
                  Allowed(p.spec.world, events[n].event)
                  && (events[n].event.Call? ==> events[n].event.frame.code in filter.codes))
  {
    hide PauseStep, SpecStep, Sane, CoversWorld, PauseFrom, Events, WorldAfter, SpecRun;
    var before, upto := events[..n], events[..n + 1];
    assert upto == before + [events[n]];
    PauseSnoc(StartPaused(w), before, events[n], filter);
    AllowedSoFar(w, events, n, filter);
    AllowedSoFar(w, events, n + 1, filter);
    WorldNow(w, before, filter);
    WorldIsSpecs(w, Events(before), filter);
    CoversRun(filter, w, Events(before), |Events(before)|);
    assert Events(before)[..|Events(before)|] == Events(before);
    if events[n].Traced? {
      assert Events(upto)[..|Events(before)|] == Events(before);
      assert Events(upto)[|Events(before)|] == events[n].event;
    }
  }

  // --- the tracer through such a run ---

  // Between the actions of a run: the storages' marks are those kept.
  ghost predicate Going(storage: ThreadStorage, p: Paused, filter: Filter)
    reads storage, storage.gidMap.Values
  {
    && storage.Valid(p.spec, filter) && storage.enabled == p.enabled && storage.log == p.log
    && MarksAre(storage.Storages(), p)
  }

  ghost predicate MarksAre(m: map<nat, Storage>, p: Paused) {
    && p.kept.Keys == p.spec.tracked.Keys
    && forall g | g in p.kept :: KeyBytes(g) in m && m[KeyBytes(g)].mark == p.kept[g].mark
  }

  // With tracing on, the marks stand for the stacks in the storage if and only if those
  // kept do.
  lemma StandIsSuppresses(storage: ThreadStorage, p: Paused, filter: Filter)
    requires Going(storage, p, filter)
    ensures Suppresses(storage.Storages(), p.spec.world, p.spec.tracked, filter)
       <==> forall g | g in p.spec.tracked && g in p.kept :: StandsFor(p, g, filter)
  {
    hide Encodes, KeyBytes, Follows;
  }

  lemma TraceKept(p: Paused, e: Event, filter: Filter)
    requires Subject(p.spec.world, e) != [] && p.kept.Keys == p.spec.tracked.Keys
    ensures var g, st, p' := p.spec.world.current, Subject(p.spec.world, e), TraceStep(p, e, filter);
            var t, on := TrackedOn(p.spec, g, |st|, KindOf(e)), p.enabled > 0;
            && p'.kept.Keys == p'.spec.tracked.Keys && p'.spec.tracked == SpecStep(p.spec, e, filter).tracked
            && (forall x | x in p'.kept && x != g :: x in p.kept && p'.kept[x] == p.kept[x])
            && (g in p'.kept ==>
                  p'.kept[g].mark == if on then NextMark(KeptOf(p, g).mark, |st| - t.offset, filter.level(st[|st| - 1].code))
                                     else KeptOf(p, g).mark)
            && p'.log == p.log + (if on then MarkLine(KeptOf(p, g).mark, st, g, KindOf(e), t, filter) else [])
  {
    hide Line, MarkLine, NextMark, StackOf;
  }

  // An event moves the kept marks as it moves the storages'.
  lemma MarksAdvance(m: map<nat, Storage>, m': map<nat, Storage>, p: Paused, e: Event, filter: Filter,
                     log': seq<Entry>)
    requires MarksAre(m, p) && Tracks(m, p.spec.world, p.spec.tracked) && Subject(p.spec.world, e) != []
    requires Sane(p.spec.world) && Sane(StepWorld(p.spec.world, e)) && !e.Switch?
    requires var s' := SpecStep(p.spec, e, filter); Tracks(m', s'.world, s'.tracked)
    requires Advanced(m, m', p.spec, e, filter, p.enabled, p.log, log')
    ensures MarksAre(m', TraceStep(p, e, filter)) && log' == TraceStep(p, e, filter).log
  {
    hide KeyBytes, Sane, Line, MarkLine, StorageOk, NextMark, TraceStep, StackOf, SpecStep, TrackedOn;
    var g, p' := p.spec.world.current, TraceStep(p, e, filter);
    NewKey(m, p.spec, e, g);
    TraceKept(p, e, filter);
    forall x | x in p'.kept ensures KeyBytes(x) in m' && m'[KeyBytes(x)].mark == p'.kept[x].mark {
      OthersKeys(m, p.spec, e, x);
    }
  }

  // An event of the run, done to the storage.
  method StepEvent(storage: ThreadStorage, e: Event, w: World, ghost p: Paused, filter: Filter)
    requires Going(storage, p, filter) && w == p.spec.world && GoodFilter(filter)
    requires Allowed(w, e) && CoversWorld(filter, w) && (e.Call? ==> e.frame.code in filter.codes)
    modifies storage, storage.gidMap.Values
    ensures Going(storage, TraceStep(p, e, filter), filter)
    ensures fresh(storage.gidMap.Values - old(storage.gidMap.Values))
  {
    hide Follows, Suppresses, GoodFilter, SpecStep, Sane, Advanced, StackOf, TraceStep, MarksAre;
    ghost var m := storage.Storages();
    var chain := StackOf(w, w.current);
    SaneNow(storage, p, filter);
    match e {
      case Call(f) =>
        storage.GreenletTraceFunc(PyTraceCall, w.current, chain + [f], filter, p.spec);
        EventFollows(m, storage.Storages(), storage.lastFrame, storage.lastGid, p, e, filter, storage.log);
      case Return =>
        storage.GreenletTraceFunc(PyTraceReturn, w.current, chain, filter, p.spec);
        EventFollows(m, storage.Storages(), storage.lastFrame, storage.lastGid, p, e, filter, storage.log);
      case Switch(g) =>
        SwitchKeeps(m, storage.lastFrame, storage.lastGid, p.spec, filter, e);
        SwitchMarks(m, p, e, filter);
    }
  }

  lemma SaneNow(storage: ThreadStorage, p: Paused, filter: Filter)
    requires Going(storage, p, filter)
    ensures Sane(p.spec.world) && Tracks(storage.Storages(), p.spec.world, p.spec.tracked)
  {
  }

  // Leaving out lines leaves the rest as it is.
  lemma EventFollows(m: map<nat, Storage>, m': map<nat, Storage>, lastFrame: nat, lastGid: int, p: Paused, e: Event,
                     filter: Filter, log': seq<Entry>)
    requires Follows(m', lastFrame, lastGid, SpecStep(p.spec, e, filter), filter)
    requires Sane(p.spec.world) && Tracks(m, p.spec.world, p.spec.tracked) && Allowed(p.spec.world, e)
    requires MarksAre(m, p) && !e.Switch? && Subject(p.spec.world, e) != []
    requires Advanced(m, m', p.spec, e, filter, p.enabled, p.log, log')
    ensures Follows(m', lastFrame, lastGid, TraceStep(p, e, filter).spec, filter)
    ensures MarksAre(m', TraceStep(p, e, filter)) && log' == TraceStep(p, e, filter).log
    ensures TraceStep(p, e, filter).enabled == p.enabled
  {
    hide Sane, Tracks, MarksAre, Advanced, Caches, Shortcut, SpecStep, TraceStep;
    TraceSpec(p, e, filter);
    MarksAdvance(m, m', p, e, filter, log');
  }

  lemma SwitchMarks(m: map<nat, Storage>, p: Paused, e: Event, filter: Filter)
    requires e.Switch? && MarksAre(m, p)
    ensures TraceStep(p, e, filter) == p.(spec := SpecStep(p.spec, e, filter))
    ensures MarksAre(m, TraceStep(p, e, filter))
  {
  }

  // Replaying any allowed run with suspensions and resumes anywhere logs what the marks
  // make of it, and, where the run is trusted, exactly what the specification says.
  method ReplayWithSuspensions(w0: World, events: seq<Toggled>, capacity: nat, filter: Filter)
    returns (log: seq<Entry>, enabled: int)
    requires AllowedPaused(w0, events, filter) && GoodFilter(filter)
    ensures log == PauseRun(w0, events, filter).log && enabled == PauseRun(w0, events, filter).enabled
    ensures TrustedRun(w0, events, filter) ==> log == PauseRun(w0, events, filter).spec.log
  {
    hide AllowedPaused, GoodFilter, PauseStep, PauseRun, TrustedRun, CoversWorld, Going;
    var storage := new ThreadStorage(capacity);
    var w, n := w0, 0;
    StartGoing(storage, w0, events, filter);
    while n < |events|
      invariant 0 <= n <= |events| && w == PauseRun(w0, events[..n], filter).spec.world
      invariant fresh(storage) && fresh(storage.gidMap.Values)
      invariant Going(storage, PauseRun(w0, events[..n], filter), filter)
    {
      AllowedNext(w0, events, n, filter);
      w := Step(storage, events[n], w, PauseRun(w0, events[..n], filter), filter);
      n := n + 1;
    }
    assert events[..|events|] == events;
    log, enabled := Results(storage, PauseRun(w0, events, filter), filter);
    if TrustedRun(w0, events, filter) { TrustedIsRight(w0, events, filter); }
  }

  method Results(storage: ThreadStorage, ghost p: Paused, filter: Filter) returns (log: seq<Entry>, enabled: int)
    requires Going(storage, p, filter)
    ensures log == p.log && enabled == p.enabled
  {
    log, enabled := storage.log, storage.enabled;
  }

  // One action of the run, done to the storage.
  method Step(storage: ThreadStorage, e: Toggled, w: World, ghost p: Paused, filter: Filter) returns (w': World)
    requires Going(storage, p, filter) && w == p.spec.world && GoodFilter(filter) && CoversWorld(filter, w)
    requires e.Traced? ==> Allowed(w, e.event) && (e.event.Call? ==> e.event.frame.code in filter.codes)
    modifies storage, storage.gidMap.Values
    ensures Going(storage, PauseStep(p, e, filter), filter) && w' == PauseStep(p, e, filter).spec.world
    ensures fresh(storage.gidMap.Values - old(storage.gidMap.Values))
  {
    hide Follows, GoodFilter, SpecStep, TraceStep, Sane, CoversWorld;
    w' := w;
    match e
    case SuspendTracing => storage.Suspend();
    case ResumeTracing => storage.Resume();
    case Traced(event) =>
      w' := StepWorld(w, event);
      TraceSpec(p, event, filter);
      StepEvent(storage, event, w, p, filter);
  }

  lemma StartGoing(storage: ThreadStorage, w: World, events: seq<Toggled>, filter: Filter)
    requires storage.gidMap == map[] && storage.lastFrame == 0 && storage.Linked() && storage.enabled == 1
    requires storage.log == [] && AllowedPaused(w, events, filter)
    ensures Going(storage, PauseRun(w, events[..0], filter), filter) && PauseRun(w, events[..0], filter).spec.world == w
  {
    StartSane(w, Events(events));
  }
}
