// What the greenlet tracer should log: a specification by stacks. A world is a set of
// greenlets, each with its own stack of frames, one of them running; the environment
// calls, returns and switches.
module TracerSpec {
  import opened Basics

  // Trace levels
  const NO_TRACE: int := 0
  const NO_TRACE_NESTED: int := 1

  // The filter's level for each code object, and the code objects it is asked about.
  datatype Filter = Filter(level: nat -> int, codes: set<nat>)

  // A frame's address (never 0) and its code object.
  datatype Frame = Frame(addr: nat, code: nat)

  datatype World = World(stacks: map<nat, seq<Frame>>, current: nat)

  datatype Event = Call(frame: Frame) | Return | Switch(gid: nat)

  function StackOf(w: World, gid: nat): seq<Frame> {
    if gid in w.stacks then w.stacks[gid] else []
  }

  function Height(w: World, gid: nat): nat { |StackOf(w, gid)| }

  function StepWorld(w: World, e: Event): World {
    match e
    case Call(f) => w.(stacks := w.stacks[w.current := StackOf(w, w.current) + [f]])
    case Return =>
      var st := StackOf(w, w.current);
      if st == [] then w else w.(stacks := w.stacks[w.current := st[..|st| - 1]])
    case Switch(g) => w.(current := g)
  }

  // Live frames have distinct nonzero addresses, and live greenlets distinct key bytes.
  // Addresses and ids of the dead may be used again.
  ghost predicate Sane(w: World) {
    && (forall g, i | 0 <= i < Height(w, g) :: StackOf(w, g)[i].addr != 0)
    && (forall g, h, i, j | 0 <= i < Height(w, g) && 0 <= j < Height(w, h) && (g != h || i != j) ::
          StackOf(w, g)[i].addr != StackOf(w, h)[j].addr)
    && (forall g, h | g != h && Height(w, g) > 0 && Height(w, h) > 0 :: KeyBytes(g) != KeyBytes(h))
  }

  // What is known of a greenlet that has a storage: the height its storage starts from
  // (frames from there up were entered since), and the constant by which the recorded
  // depth falls short of the stack's height.
  datatype Tracked = Tracked(base: nat, offset: nat)

  datatype Kind = Entered | Left

  datatype Entry = Entry(kind: Kind, gid: nat, depth: int, frame: Frame)

  datatype Spec = Spec(world: World, tracked: map<nat, Tracked>, log: seq<Entry>)

  // Levels that make a log line: anything but the two "no trace" levels.
  predicate Logs(level: int) { level != NO_TRACE && level != NO_TRACE_NESTED }

  predicate NestedAt(frame: Frame, filter: Filter) { filter.level(frame.code) == NO_TRACE_NESTED }

  // Some frame in st[from..to) turns tracing off for everything it calls.
  predicate Suppressed(st: seq<Frame>, from: nat, to: nat, filter: Filter)
    requires to <= |st|
  {
    exists i :: from <= i < to && NestedAt(st[i], filter)
  }

  // A greenlet seen first on a call starts below the called frame; one seen first on a
  // return starts above the returning frame, and one lower in depth.
  function TrackedOn(s: Spec, gid: nat, height: nat, kind: Kind): Tracked
    requires height > 0
  {
    if gid in s.tracked then s.tracked[gid]
    else if kind.Entered? then Tracked(height - 1, 0) else Tracked(height, 1)
  }

  // Nothing is logged deeper than this.
  const DEPTH_LIMIT: int := 314159

  // The line for an event of the top frame of st, if there is one.
  function Line(st: seq<Frame>, gid: nat, kind: Kind, t: Tracked, filter: Filter): seq<Entry>
    requires st != []
  {
    var top := |st| - 1;
    if Logs(filter.level(st[top].code)) && !Suppressed(st, t.base, top, filter) && |st| - t.offset <= DEPTH_LIMIT
    then [Entry(kind, gid, |st| - t.offset, st[top])]
    else []
  }

  function SpecStep(s: Spec, e: Event, filter: Filter): Spec {
    var g := s.world.current;
    match e
    case Switch(_) => s.(world := StepWorld(s.world, e))
    case Call(f) =>
      var st := StackOf(s.world, g) + [f];
      var t := TrackedOn(s, g, |st|, Entered);
      Spec(StepWorld(s.world, e), s.tracked[g := t], s.log + Line(st, g, Entered, t, filter))
    case Return =>
      var st := StackOf(s.world, g);
      if st == [] then s
      else
        var t := TrackedOn(s, g, |st|, Left);
        Spec(StepWorld(s.world, e),
             if |st| == 1 then s.tracked - {g} else s.tracked[g := t.(base := Min(t.base, |st| - 1))],
             s.log + Line(st, g, Left, t, filter))
  }

  function SpecRun(s: Spec, events: seq<Event>, filter: Filter): Spec {
    if events == [] then s
    else SpecStep(SpecRun(s, events[..|events| - 1], filter), events[|events| - 1], filter)
  }

  // The environment's side of one event: nothing returns from an empty stack, and the
  // world stays sane.
  ghost predicate Allowed(w: World, e: Event) {
    (e.Return? ==> Height(w, w.current) > 0) && Sane(StepWorld(w, e))
  }

  ghost predicate AllowedRun(w: World, events: seq<Event>)
    decreases |events|
  {
    Sane(w) && (events == [] ||
      (AllowedRun(w, events[..|events| - 1]) &&
       Allowed(WorldAfter(w, events[..|events| - 1]), events[|events| - 1])))
  }

  function WorldAfter(w: World, events: seq<Event>): World {
    if events == [] then w else StepWorld(WorldAfter(w, events[..|events| - 1]), events[|events| - 1])
  }
}
