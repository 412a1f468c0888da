// The greenlet tracer of ctracing.pyx: per-thread storage with a last-frame shortcut in
// front of a greenlet map, a depth counter per greenlet, and one integer that stands
// for nested suppression.
module Tracer {
  import opened Basics
  import opened TracerSpec
  import opened LruSpec
  import LruHistory

  const NO_TRACE_FROM_DEPTH_DISABLED: int := DEPTH_LIMIT

  // A storage as a value.
  datatype Storage = Storage(gid: nat, depth: int, mark: int, cache: seq<Pair>)

  class GreenletStorage {
    const gid: nat
    var depth: int
    var noTraceFromDepth: int
    var traceLevelLru: seq<Pair>    // the LRU's contents; class LRU refines this list

    constructor (gid: nat)
      ensures this.gid == gid && depth == -1 && noTraceFromDepth == NO_TRACE_FROM_DEPTH_DISABLED && traceLevelLru == []
    {
      this.gid, depth, noTraceFromDepth, traceLevelLru := gid, -1, NO_TRACE_FROM_DEPTH_DISABLED, [];
    }

    ghost function Value(): Storage
      reads this
    {
      Storage(gid, depth, noTraceFromDepth, traceLevelLru)
    }
  }

  // Index of the first frame from `from` on that turns tracing off, or the height.
  function FirstNested(st: seq<Frame>, from: nat, filter: Filter): (i: nat)
    requires from <= |st|
    ensures from <= i <= |st| && (i < |st| ==> NestedAt(st[i], filter))
    ensures forall j | from <= j < i :: !NestedAt(st[j], filter)
    decreases |st| - from
  {
    if from == |st| || NestedAt(st[from], filter) then from else FirstNested(st, from + 1, filter)
  }

  // What the one integer means: the depth of the outermost suppressing frame; when
  // there is none within the depth limit, "disabled" or a stale depth above the stack.
  ghost predicate Encodes(noTraceFromDepth: int, st: seq<Frame>, t: Tracked, filter: Filter)
    requires t.base <= |st|
  {
    var first := FirstNested(st, t.base, filter);
    && noTraceFromDepth <= NO_TRACE_FROM_DEPTH_DISABLED
    && (if first < |st| && first + 1 - t.offset <= DEPTH_LIMIT then noTraceFromDepth == first + 1 - t.offset
        else noTraceFromDepth > |st| - t.offset || noTraceFromDepth == NO_TRACE_FROM_DEPTH_DISABLED)
  }

  // The filter is a function of the code object, and of the bytes the cache keeps of it;
  // it never answers with the cache's "not found".
  ghost predicate GoodFilter(filter: Filter) {
    && (forall c | c in filter.codes :: filter.level(c) != NOT_FOUND)
    && (forall c, d | c in filter.codes && d in filter.codes && KeyBytes(c) == KeyBytes(d) ::
          filter.level(c) == filter.level(d))
  }

  // Everything cached is the filter's own answer.
  ghost predicate CacheOk(cache: seq<Pair>, filter: Filter) {
    DistinctKeys(cache) && forall i, c | 0 <= i < |cache| && c in filter.codes && KeyBytes(c) == cache[i].key ::
      filter.level(c) == cache[i].value
  }

  // What an event with tracing enabled does to the one integer.
  function NextMark(ntfd: int, depth: int, level: int): int {
    if depth > ntfd then ntfd
    else if level == NO_TRACE_NESTED then depth
    else NO_TRACE_FROM_DEPTH_DISABLED
  }

  // Called: the counter after inc is the frame's depth. Encodes is kept, and the test
  // against the one integer decides as the stack of levels would.
  lemma OnCall(ntfd: int, st: seq<Frame>, f: Frame, t: Tracked, filter: Filter)
    requires t.base <= |st| && Encodes(ntfd, st, t, filter)
    ensures var st', depth := st + [f], |st| + 1 - t.offset;
            && (depth <= ntfd <==> !Suppressed(st', t.base, |st|, filter) && depth <= DEPTH_LIMIT)
            && Encodes(NextMark(ntfd, depth, filter.level(f.code)), st', t, filter)
  {
    var st' := st + [f];
    var first, first' := FirstNested(st, t.base, filter), FirstNested(st', t.base, filter);
    assert forall i | 0 <= i < |st| :: st'[i] == st[i];
    if first < |st| { assert NestedAt(st'[first], filter); }
    assert first < |st| ==> first' == first;
    assert st'[|st|] == f;
    forall j | t.base <= j < first ensures !NestedAt(st'[j], filter) {
      assert !NestedAt(st[j], filter);
    }
    assert first == |st| ==> first' == (if NestedAt(f, filter) then |st| else |st| + 1);
  }

  lemma OnReturn(ntfd: int, st: seq<Frame>, t: Tracked, filter: Filter)
    requires st != [] && t.base <= |st| && Encodes(ntfd, st, t, filter)
    ensures var st', depth := st[..|st| - 1], |st| - t.offset;
            && (depth <= ntfd <==> !Suppressed(st, t.base, |st| - 1, filter) && depth <= DEPTH_LIMIT)
            && Encodes(NextMark(ntfd, depth, filter.level(st[|st| - 1].code)), st', t.(base := Min(t.base, |st| - 1)), filter)
  {
    var st' := st[..|st| - 1];
    var t' := t.(base := Min(t.base, |st| - 1));
    var first, first' := FirstNested(st, t.base, filter), FirstNested(st', t'.base, filter);
    assert forall i | 0 <= i < |st'| :: st'[i] == st[i];
    if first < |st'| { assert NestedAt(st'[first], filter); }
    assert first < |st'| ==> first' == first;
  }

  // find_trace_level_or_call_filter with the cache as a list.
  lemma CacheServes(capacity: nat, cache: seq<Pair>, code: nat, filter: Filter)
    requires GoodFilter(filter) && CacheOk(cache, filter) && NoneMissing(cache) && code in filter.codes
    ensures LruHistory.Level(cache, KeyBytes(code), filter.level(code)) == filter.level(code)
    ensures CacheOk(LruHistory.Serve(capacity, cache, KeyBytes(code), filter.level(code)), filter)
    ensures NoneMissing(LruHistory.Serve(capacity, cache, KeyBytes(code), filter.level(code)))
  {
    var key := KeyBytes(code);
    if Has(cache, key) {
      TouchAt(cache, IndexOf(cache, key));
    } else {
      InsertKeepsDistinct(capacity, cache, key, filter.level(code));
    }
  }

  // --- the state between events, as values ---

  // The storages are those of the tracked greenlets, each under its own key bytes; every
  // tracked greenlet has a live frame; each depth is its greenlet's height less a constant.
  ghost predicate Tracks(m: map<nat, Storage>, w: World, tracked: map<nat, Tracked>) {
    && (forall g | g in tracked :: KeyBytes(g) in m && StorageOk(m[KeyBytes(g)], g, StackOf(w, g), tracked[g]))
    && (forall k | k in m :: m[k].gid in tracked && KeyBytes(m[k].gid) == k)
  }

  ghost predicate StorageOk(gs: Storage, gid: nat, st: seq<Frame>, t: Tracked) {
    gs.gid == gid && st != [] && t.base <= |st| && gs.depth == |st| - t.offset
  }

  // Each storage's integer stands for its greenlet's stack of levels.
  ghost predicate Suppresses(m: map<nat, Storage>, w: World, tracked: map<nat, Tracked>, filter: Filter) {
    forall g | g in tracked :: KeyBytes(g) in m && tracked[g].base <= Height(w, g)
                               && Encodes(m[KeyBytes(g)].mark, StackOf(w, g), tracked[g], filter)
  }

  // The greenlet's stack with the frame of the event on top.
  function Subject(w: World, e: Event): seq<Frame> {
    match e
    case Call(f) => StackOf(w, w.current) + [f]
    case Return => StackOf(w, w.current)
    case Switch(_) => []
  }

  function KindOf(e: Event): Kind { if e.Call? then Entered else Left }

  // The line that the test against the one integer lets through.
  function MarkLine(mark: int, st: seq<Frame>, gid: nat, kind: Kind, t: Tracked, filter: Filter): seq<Entry>
    requires st != []
  {
    var top := st[|st| - 1];
    if |st| - t.offset <= mark && Logs(filter.level(top.code)) then [Entry(kind, gid, |st| - t.offset, top)] else []
  }

  function MarkIn(m: map<nat, Storage>, gid: nat): int {
    if KeyBytes(gid) in m then m[KeyBytes(gid)].mark else NO_TRACE_FROM_DEPTH_DISABLED
  }

  // What an event does to the marks and the log, whether the marks stand for the stacks
  // or not: suspended, nothing.
  ghost predicate Advanced(m: map<nat, Storage>, m': map<nat, Storage>, s: Spec, e: Event, filter: Filter, enabled: int,
                           log: seq<Entry>, log': seq<Entry>)
    requires Subject(s.world, e) != []
  {
    var g, st := s.world.current, Subject(s.world, e);
    var t, mark := TrackedOn(s, g, |st|, KindOf(e)), MarkIn(m, g);
    var mark' := if enabled > 0 then NextMark(mark, |st| - t.offset, filter.level(st[|st| - 1].code)) else mark;
    && (forall k | k in m' :: if k == KeyBytes(g) then m'[k].mark == mark' else k in m && m'[k].mark == m[k].mark)
    && log' == log + (if enabled > 0 then MarkLine(mark, st, g, KindOf(e), t, filter) else [])
  }

  ghost predicate Caches(m: map<nat, Storage>, filter: Filter) {
    forall k | k in m :: CacheOk(m[k].cache, filter) && NoneMissing(m[k].cache)
  }

  // The last-frame field is the top of the stack of the greenlet of the last event.
  ghost predicate Shortcut(lastFrame: nat, lastGid: int, w: World, tracked: map<nat, Tracked>) {
    lastFrame != 0 ==>
      lastGid in tracked && Height(w, lastGid) > 0 && StackOf(w, lastGid)[Height(w, lastGid) - 1].addr == lastFrame
  }

  ghost predicate Follows(m: map<nat, Storage>, lastFrame: nat, lastGid: int, s: Spec, filter: Filter) {
    Sane(s.world) && Tracks(m, s.world, s.tracked) && Caches(m, filter) && Shortcut(lastFrame, lastGid, s.world, s.tracked)
  }

  function TopAddr(chain: seq<Frame>): nat {
    if chain == [] then 0 else chain[|chain| - 1].addr
  }

  // Live addresses are distinct, so the shortcut's frame can only be on top of the
  // stack of the greenlet the last event was about.
  lemma LastFrameIsTop(lastFrame: nat, lastGid: int, w: World, tracked: map<nat, Tracked>, gid: nat)
    requires Sane(w) && Shortcut(lastFrame, lastGid, w, tracked)
    requires lastFrame != 0 && lastFrame == TopAddr(StackOf(w, gid))
    ensures gid == lastGid && gid in tracked
  {
    var mine, theirs := StackOf(w, gid), StackOf(w, lastGid);
    assert mine[|mine| - 1].addr == theirs[|theirs| - 1].addr;
  }

  // A running greenlet without a storage has its key to itself.
  lemma NewKey(m: map<nat, Storage>, s: Spec, e: Event, gid: nat)
    requires Tracks(m, s.world, s.tracked) && gid == s.world.current && Sane(s.world) && Sane(StepWorld(s.world, e))
    requires e.Call? || Height(s.world, gid) > 0
    ensures KeyBytes(gid) in m <==> gid in s.tracked
  {
    var w := if e.Call? then StepWorld(s.world, e) else s.world;
    assert Height(w, gid) > 0;
    if KeyBytes(gid) in m {
      assert Height(w, m[KeyBytes(gid)].gid) > 0;
    }
  }

  // The storage an event finds or creates.
  function Found(m: map<nat, Storage>, gid: nat, depth: int): Storage {
    if KeyBytes(gid) in m then m[KeyBytes(gid)] else Storage(gid, depth, NO_TRACE_FROM_DEPTH_DISABLED, [])
  }

  // The storage with its counter moved by an event, and the event's depth.
  function Moved(found: Storage, kind: Kind): Storage {
    found.(depth := if kind.Entered? then found.depth + 1 else found.depth - 1)
  }

  function DepthOf(found: Storage, kind: Kind): int {
    if kind.Entered? then found.depth + 1 else found.depth
  }

  // What consulting the filter does to a storage, and the line it logs.
  ghost predicate Consulted(before: Storage, after: Storage, depth: int, code: nat, filter: Filter, enabled: int) {
    && after.gid == before.gid && after.depth == before.depth
    && after.mark == (if enabled > 0 then NextMark(before.mark, depth, filter.level(code)) else before.mark)
    && CacheOk(after.cache, filter) && NoneMissing(after.cache)
  }

  // One event's effect on the storage it found, and on the log.
  ghost predicate Observed(found: Storage, gs: Storage, kind: Kind, frame: Frame, filter: Filter, enabled: int,
                           log: seq<Entry>, log': seq<Entry>)
  {
    && Consulted(Moved(found, kind), gs, DepthOf(found, kind), frame.code, filter, enabled)
    && log' == log + ConsultLine(Moved(found, kind), DepthOf(found, kind), kind, frame, filter, enabled)
  }

  function ConsultLine(gs: Storage, depth: int, kind: Kind, frame: Frame, filter: Filter, enabled: int): seq<Entry> {
    if enabled > 0 && depth <= gs.mark && Logs(filter.level(frame.code)) then [Entry(kind, gs.gid, depth, frame)] else []
  }

  lemma CallTracks(m: map<nat, Storage>, s: Spec, filter: Filter, f: Frame, gs: Storage)
    requires Sane(s.world) && Tracks(m, s.world, s.tracked) && Sane(StepWorld(s.world, Call(f)))
    requires gs.gid == s.world.current
    requires gs.depth == Found(m, s.world.current, Height(s.world, s.world.current)).depth + 1
    ensures var s' := SpecStep(s, Call(f), filter);
            Tracks(m[KeyBytes(s.world.current) := gs], s'.world, s'.tracked)
  {
    hide KeyBytes, Sane, Line;
    var g := s.world.current;
    NewKey(m, s, Call(f), g);
    var s', m' := SpecStep(s, Call(f), filter), m[KeyBytes(g) := gs];
    forall x | x in s'.tracked
      ensures KeyBytes(x) in m' && StorageOk(m'[KeyBytes(x)], x, StackOf(s'.world, x), s'.tracked[x])
    {
      OthersKeys(m, s, Call(f), x);
    }
  }

  // A call: everything kept between events is kept.
  lemma CallFollows(m: map<nat, Storage>, lastFrame: nat, lastGid: int, s: Spec, filter: Filter, f: Frame,
                    gs: Storage)
    requires Follows(m, lastFrame, lastGid, s, filter) && Sane(StepWorld(s.world, Call(f)))
    requires gs.gid == s.world.current && CacheOk(gs.cache, filter) && NoneMissing(gs.cache)
    requires gs.depth == Found(m, s.world.current, Height(s.world, s.world.current)).depth + 1
    ensures var s' := SpecStep(s, Call(f), filter);
            Follows(m[KeyBytes(s.world.current) := gs], f.addr, s.world.current, s', filter)
  {
    hide KeyBytes, Sane, Line, CacheOk, NoneMissing, Tracks;
    CallTracks(m, s, filter, f, gs);
  }

  // A call: with tracing enabled the line is the specification's, and the integer goes
  // on standing for the stack.
  lemma CallLogs(m: map<nat, Storage>, s: Spec, filter: Filter, f: Frame, gs: Storage)
    requires Sane(s.world) && Sane(StepWorld(s.world, Call(f)))
    requires Tracks(m, s.world, s.tracked) && Suppresses(m, s.world, s.tracked, filter)
    requires var found := Found(m, s.world.current, Height(s.world, s.world.current));
             gs.gid == s.world.current && gs.mark == NextMark(found.mark, found.depth + 1, filter.level(f.code))
    ensures var s', g := SpecStep(s, Call(f), filter), s.world.current;
            var found := Found(m, g, Height(s.world, g));
            && Suppresses(m[KeyBytes(g) := gs], s'.world, s'.tracked, filter)
            && s'.log == s.log + ConsultLine(found.(depth := found.depth + 1), found.depth + 1, Entered, f, filter, 1)
  {
    hide KeyBytes, Sane, Encodes;
    var g := s.world.current;
    var st := StackOf(s.world, g);
    var t := TrackedOn(s, g, |st| + 1, Entered);
    NewKey(m, s, Call(f), g);
    var found := Found(m, g, |st|);
    FreshEncodes(st, t, filter);
    OnCall(found.mark, st, f, t, filter);
    var s', m' := SpecStep(s, Call(f), filter), m[KeyBytes(g) := gs];
    forall x | x in s'.tracked
      ensures KeyBytes(x) in m' && s'.tracked[x].base <= Height(s'.world, x)
              && Encodes(m'[KeyBytes(x)].mark, StackOf(s'.world, x), s'.tracked[x], filter)
    {
      OthersKeys(m, s, Call(f), x);
    }
  }

  // A storage that has just been made stands for a stack with nothing entered yet.
  lemma FreshEncodes(st: seq<Frame>, t: Tracked, filter: Filter)
    ensures t.base == |st| ==> Encodes(NO_TRACE_FROM_DEPTH_DISABLED, st, t, filter)
  {
  }

  lemma ReturnTracks(m: map<nat, Storage>, s: Spec, filter: Filter, gs: Storage)
    requires Sane(s.world) && Tracks(m, s.world, s.tracked) && Sane(StepWorld(s.world, Return))
    requires Height(s.world, s.world.current) > 0
    requires gs.gid == s.world.current
    requires gs.depth == Found(m, s.world.current, Height(s.world, s.world.current) - 1).depth - 1
    ensures var s' := SpecStep(s, Return, filter);
            var m' := m[KeyBytes(s.world.current) := gs];
            Tracks(if Height(s.world, s.world.current) == 1 then m' - {KeyBytes(s.world.current)} else m',
                   s'.world, s'.tracked)
  {
    hide KeyBytes, Sane, Line;
    var g := s.world.current;
    NewKey(m, s, Return, g);
    var s', m1 := SpecStep(s, Return, filter), m[KeyBytes(g) := gs];
    var m' := if Height(s.world, g) == 1 then m1 - {KeyBytes(g)} else m1;
    forall x | x in s'.tracked
      ensures KeyBytes(x) in m' && StorageOk(m'[KeyBytes(x)], x, StackOf(s'.world, x), s'.tracked[x])
    {
      OthersKeys(m, s, Return, x);
    }
  }

  lemma ReturnFollows(m: map<nat, Storage>, lastFrame: nat, lastGid: int, s: Spec, filter: Filter, gs: Storage)
    requires Follows(m, lastFrame, lastGid, s, filter) && Sane(StepWorld(s.world, Return))
    requires Height(s.world, s.world.current) > 0
    requires gs.gid == s.world.current && CacheOk(gs.cache, filter) && NoneMissing(gs.cache)
    requires gs.depth == Found(m, s.world.current, Height(s.world, s.world.current) - 1).depth - 1
    ensures var s', st := SpecStep(s, Return, filter), StackOf(s.world, s.world.current);
            var m' := m[KeyBytes(s.world.current) := gs];
            Follows(if |st| == 1 then m' - {KeyBytes(s.world.current)} else m', TopAddr(st[..|st| - 1]),
                    s.world.current, s', filter)
  {
    hide KeyBytes, Sane, Line, CacheOk, NoneMissing, Tracks;
    ReturnTracks(m, s, filter, gs);
  }

  // The returning greenlet's line, and its mark afterwards.
  lemma ReturnLine(m: map<nat, Storage>, s: Spec, filter: Filter, mark: int)
    requires Sane(s.world) && Sane(StepWorld(s.world, Return)) && Height(s.world, s.world.current) > 0
    requires Tracks(m, s.world, s.tracked) && Suppresses(m, s.world, s.tracked, filter)
    requires var st := StackOf(s.world, s.world.current);
             var found := Found(m, s.world.current, |st| - 1);
             mark == NextMark(found.mark, found.depth, filter.level(st[|st| - 1].code))
    ensures var g, st := s.world.current, StackOf(s.world, s.world.current);
            var found, t := Found(m, g, |st| - 1), TrackedOn(s, g, |st|, Left);
            && Min(t.base, |st| - 1) <= |st| - 1
            && Encodes(mark, st[..|st| - 1], t.(base := Min(t.base, |st| - 1)), filter)
            && Line(st, g, Left, t, filter) == ConsultLine(found, found.depth, Left, st[|st| - 1], filter, 1)
  {
    hide KeyBytes, Sane, Encodes;
    var g := s.world.current;
    var st := StackOf(s.world, g);
    var t := TrackedOn(s, g, |st|, Left);
    NewKey(m, s, Return, g);
    FreshEncodes(st, t, filter);
    OnReturn(Found(m, g, |st| - 1).mark, st, t, filter);
  }

  lemma ReturnLogs(m: map<nat, Storage>, s: Spec, filter: Filter, gs: Storage)
    requires Sane(s.world) && Sane(StepWorld(s.world, Return)) && Height(s.world, s.world.current) > 0
    requires Tracks(m, s.world, s.tracked) && Suppresses(m, s.world, s.tracked, filter)
    requires var st := StackOf(s.world, s.world.current);
             var found := Found(m, s.world.current, |st| - 1);
             gs.gid == s.world.current && gs.mark == NextMark(found.mark, found.depth, filter.level(st[|st| - 1].code))
    ensures var s', g := SpecStep(s, Return, filter), s.world.current;
            var st := StackOf(s.world, g);
            var found := Found(m, g, |st| - 1);
            && Suppresses(if |st| == 1 then m[KeyBytes(g) := gs] - {KeyBytes(g)} else m[KeyBytes(g) := gs],
                          s'.world, s'.tracked, filter)
            && s'.log == s.log + ConsultLine(found, found.depth, Left, st[|st| - 1], filter, 1)
  {
    hide KeyBytes, Sane, Encodes, Line, ConsultLine, NextMark;
    var g := s.world.current;
    var st := StackOf(s.world, g);
    ReturnLine(m, s, filter, gs.mark);
    var s', m1 := SpecStep(s, Return, filter), m[KeyBytes(g) := gs];
    var m' := if |st| == 1 then m1 - {KeyBytes(g)} else m1;
    forall x | x in s'.tracked
      ensures KeyBytes(x) in m' && s'.tracked[x].base <= Height(s'.world, x)
              && Encodes(m'[KeyBytes(x)].mark, StackOf(s'.world, x), s'.tracked[x], filter)
    {
      OthersKeys(m, s, Return, x);
    }
  }

  // Greenlets that are not running keep their stacks, and their keys differ.
  lemma OthersKeys(m: map<nat, Storage>, s: Spec, e: Event, x: nat)
    requires Sane(s.world) && Sane(StepWorld(s.world, e)) && !e.Switch?
    requires Tracks(m, s.world, s.tracked) && (e.Call? || Height(s.world, s.world.current) > 0)
    ensures x in s.tracked && x != s.world.current ==>
              KeyBytes(x) != KeyBytes(s.world.current) && StackOf(StepWorld(s.world, e), x) == StackOf(s.world, x)
  {
    var w := if e.Call? then StepWorld(s.world, e) else s.world;
    assert Height(w, s.world.current) > 0;
    if x in s.tracked && x != s.world.current {
      assert Height(w, x) > 0;
    }
  }

  // --- the tracer itself ---

  datatype What = PyTraceCall | PyTraceReturn | PyTraceOther

  class ThreadStorage {
    var enabled: int
    var lastFrame: nat                       // 0 is NULL
    var lastGid: int
    var lastGstorage: GreenletStorage?
    var gidMap: map<nat, GreenletStorage>    // by key bytes
    const capacity: nat
    var log: seq<Entry>                      // what log_call and log_return wrote

    constructor (capacity: nat)
      ensures gidMap == map[] && lastFrame == 0 && enabled == 1 && log == [] && this.capacity == capacity && Linked()
    {
      enabled, lastFrame, lastGid, lastGstorage, gidMap, log := 1, 0, -1, null, map[], [];
      this.capacity := capacity;
    }

    ghost function Storages(): (m: map<nat, Storage>)
      reads this`gidMap, gidMap.Values
    {
      map k | k in gidMap :: gidMap[k].Value()
    }

    // The storages are those of a consistent map, and the shortcut's pointer is the
    // map's own (so it has not been deleted).
    ghost predicate Linked()
      reads this`gidMap, this`lastFrame, this`lastGid, this`lastGstorage
    {
      && (forall k | k in gidMap :: KeyBytes(gidMap[k].gid) == k)
      && (lastFrame != 0 ==> lastGid >= 0 && KeyBytes(lastGid) in gidMap && lastGstorage == gidMap[KeyBytes(lastGid)])
    }

    ghost predicate Valid(s: Spec, filter: Filter)
      reads this`gidMap, this`lastFrame, this`lastGid, this`lastGstorage, gidMap.Values
    {
      Linked() && Follows(Storages(), lastFrame, lastGid, s, filter)
    }

    // find_gstorage
    method FindGstorage(gid: nat) returns (r: GreenletStorage?)
      ensures r == if KeyBytes(gid) in gidMap then gidMap[KeyBytes(gid)] else null
    {
      r := if KeyBytes(gid) in gidMap then gidMap[KeyBytes(gid)] else null;
    }

    // calc_new_greenlet_depth: frames below the top one. The chain of f_back pointers
    // is the greenlet's stack, top frame last.
    method CalcNewGreenletDepth(chain: seq<Frame>) returns (depth: int)
      requires chain != []
      ensures depth == |chain| - 1
    {
      depth := 0;
      var at := |chain| - 1;
      while at != 0
        invariant 0 <= at < |chain| && depth == |chain| - 1 - at
      {
        depth := depth + 1;
        at := at - 1;
      }
    }

    // The storage of the greenlet, made at the depth it is found at if there is none.
    method FindOrMake(gid: nat, chain: seq<Frame>) returns (gstore: GreenletStorage)
      requires chain != [] && forall k | k in gidMap :: KeyBytes(gidMap[k].gid) == k
      modifies this`gidMap
      ensures forall k | k in gidMap :: KeyBytes(gidMap[k].gid) == k
      ensures KeyBytes(gid) in gidMap && gidMap[KeyBytes(gid)] == gstore && gidMap == old(gidMap)[KeyBytes(gid) := gstore]
      ensures KeyBytes(gid) in old(gidMap) ==> gidMap == old(gidMap)
      ensures KeyBytes(gid) !in old(gidMap) ==> fresh(gstore) && gstore.gid == gid
      ensures gstore.Value() == Found(old(Storages()), gid, |chain| - 1)
      ensures Storages() == old(Storages())[KeyBytes(gid) := gstore.Value()]
    {
      hide KeyBytes;
      var found := FindGstorage(gid);
      if found == null {
        gstore := new GreenletStorage(gid);
        gidMap := gidMap[KeyBytes(gid) := gstore];
        gstore.depth := CalcNewGreenletDepth(chain);
      } else {
        gstore := found;
      }
    }

    lemma Held(gid: nat, depth: int)
      requires KeyBytes(gid) in gidMap
      ensures Found(Storages(), gid, depth) == gidMap[KeyBytes(gid)].Value()
      ensures Storages() == Storages()[KeyBytes(gid) := gidMap[KeyBytes(gid)].Value()]
      ensures gidMap == gidMap[KeyBytes(gid) := gidMap[KeyBytes(gid)]]
    {
    }

    // get_gstore_on_call and get_gstore_on_return differ in which frame the shortcut is
    // compared with and which frame it is left at: `test` and `leave`.
    method GetGstore(gid: nat, chain: seq<Frame>, test: nat, leave: nat, ghost s: Spec, filter: Filter)
      returns (gstore: GreenletStorage, hit: bool)
      requires Valid(s, filter) && chain != [] && test == TopAddr(StackOf(s.world, gid))
      modifies this`lastGid, this`lastFrame, this`lastGstorage, this`gidMap
      ensures hit ==> gid in s.tracked && gid == old(lastGid) && gstore == old(lastGstorage) && gidMap == old(gidMap)
      ensures lastGid == gid && lastFrame == leave && lastGstorage == gstore
      ensures KeyBytes(gid) in gidMap && gidMap[KeyBytes(gid)] == gstore && gidMap == old(gidMap)[KeyBytes(gid) := gstore]
      ensures KeyBytes(gid) in old(gidMap) ==> gidMap == old(gidMap)
      ensures KeyBytes(gid) !in old(gidMap) ==> fresh(gstore) && gstore.gid == gid
      ensures gstore.Value() == Found(old(Storages()), gid, |chain| - 1)
      ensures Linked() && Storages() == old(Storages())[KeyBytes(gid) := gstore.Value()]
    {
      hide Follows, KeyBytes, Found, Storages;
      var cached: GreenletStorage? := null;
      var running := gid;
      hit := lastFrame != 0 && lastFrame == test;
      if hit {
        ShortcutIsRight(s, filter, gid);
        Held(gid, |chain| - 1);
        running := lastGid;
        cached := lastGstorage;
      }
      lastGid := running;
      lastFrame := leave;
      if cached != null {
        gstore := cached;
      } else {
        gstore := FindOrMake(running, chain);
        lastGstorage := gstore;
      }
    }

    // When the shortcut fires, the cached greenlet is the running one and the cached
    // storage is the one the map holds for it.
    lemma ShortcutIsRight(s: Spec, filter: Filter, gid: nat)
      requires Valid(s, filter) && lastFrame != 0 && lastFrame == TopAddr(StackOf(s.world, gid))
      ensures gid == lastGid && gid in s.tracked && KeyBytes(gid) in gidMap && lastGstorage == gidMap[KeyBytes(gid)]
    {
      LastFrameIsTop(lastFrame, lastGid, s.world, s.tracked, gid);
    }

    // The part of greenlet_trace_func between the depth counter and the clean-up.
    method Consult(gstore: GreenletStorage, depth: int, kind: Kind, frame: Frame, filter: Filter)
      requires GoodFilter(filter) && CacheOk(gstore.traceLevelLru, filter) && NoneMissing(gstore.traceLevelLru)
      requires frame.code in filter.codes
      modifies gstore`noTraceFromDepth, gstore`traceLevelLru, this`log
      ensures Consulted(old(gstore.Value()), gstore.Value(), depth, frame.code, filter, enabled)
      ensures log == old(log) + ConsultLine(old(gstore.Value()), depth, kind, frame, filter, enabled)
    {
      if enabled > 0 {
        if depth <= gstore.noTraceFromDepth {
          gstore.noTraceFromDepth := NO_TRACE_FROM_DEPTH_DISABLED;
          CacheServes(capacity, gstore.traceLevelLru, frame.code, filter);
          var level := LruHistory.Level(gstore.traceLevelLru, KeyBytes(frame.code), filter.level(frame.code));
          gstore.traceLevelLru :=
            LruHistory.Serve(capacity, gstore.traceLevelLru, KeyBytes(frame.code), filter.level(frame.code));
          if level == NO_TRACE_NESTED {
            gstore.noTraceFromDepth := depth;
          } else if level != NO_TRACE {
            log := log + [Entry(kind, gstore.gid, depth, frame)];
          }
        }
      }
    }

    method DelGstorage(key: nat)
      requires Linked() && key in gidMap && lastFrame == 0
      modifies this`gidMap
      ensures gidMap == old(gidMap) - {key} && Linked() && Storages() == old(Storages()) - {key}
    {
      gidMap := gidMap - {key};
    }

    lemma FoundIsCached(s: Spec, filter: Filter, gid: nat, depth: int)
      requires Valid(s, filter)
      ensures CacheOk(Found(Storages(), gid, depth).cache, filter) && NoneMissing(Found(Storages(), gid, depth).cache)
      ensures KeyBytes(gid) in gidMap ==> Found(Storages(), gid, depth) == Storages()[KeyBytes(gid)]
      ensures Sane(s.world) && Tracks(Storages(), s.world, s.tracked)
    {
    }

    // The storage's counter moves and the filter is consulted; on a call the depth is
    // the counter after the increment, on a return the counter before the decrement.
    method Account(gid: nat, gstore: GreenletStorage, kind: Kind, frame: Frame, filter: Filter)
      requires GoodFilter(filter) && CacheOk(gstore.traceLevelLru, filter) && NoneMissing(gstore.traceLevelLru)
      requires frame.code in filter.codes
      requires Linked() && KeyBytes(gid) in gidMap && gidMap[KeyBytes(gid)] == gstore
      modifies gstore`depth, gstore`noTraceFromDepth, gstore`traceLevelLru, this`log
      ensures Storages() == old(Storages())[KeyBytes(gid) := gstore.Value()]
      ensures Observed(old(gstore.Value()), gstore.Value(), kind, frame, filter, enabled, old(log), log)
    {
      hide CacheOk, NoneMissing, GoodFilter, KeyBytes, Consulted;
      var depth := gstore.depth;
      if kind.Entered? {
        gstore.depth := gstore.depth + 1;
        depth := gstore.depth;
      } else {
        gstore.depth := gstore.depth - 1;
      }
      assert gstore.Value() == Moved(old(gstore.Value()), kind);
      Consult(gstore, depth, kind, frame, filter);
      assert forall k | k in gidMap && k != KeyBytes(gid) :: gidMap[k].Value() == old(Storages())[k];
    }

    method Observe(gid: nat, chain: seq<Frame>, kind: Kind, test: nat, leave: nat, filter: Filter, ghost s: Spec)
      returns (gstore: GreenletStorage)
      requires Valid(s, filter) && GoodFilter(filter) && chain != [] && test == TopAddr(StackOf(s.world, gid))
      requires chain[|chain| - 1].code in filter.codes
      modifies this`lastGid, this`lastFrame, this`lastGstorage, this`gidMap, this`log, gidMap.Values
      ensures Linked() && lastGid == gid && lastFrame == leave && lastGstorage == gstore
      ensures KeyBytes(gid) in gidMap && gidMap[KeyBytes(gid)] == gstore && gidMap == old(gidMap)[KeyBytes(gid) := gstore]
      ensures gstore in old(gidMap.Values) || fresh(gstore)
      ensures Storages() == old(Storages())[KeyBytes(gid) := gstore.Value()]
      ensures Observed(Found(old(Storages()), gid, |chain| - 1), gstore.Value(), kind, chain[|chain| - 1], filter,
                       enabled, old(log), log)
    {
      hide Follows, Observed, KeyBytes, CacheOk, NoneMissing, GoodFilter, Found, Linked, Storages;
      FoundIsCached(s, filter, gid, |chain| - 1);
      var hit;
      gstore, hit := GetGstore(gid, chain, test, leave, s, filter);
      Account(gid, gstore, kind, chain[|chain| - 1], filter);
    }

    // greenlet_trace_func on PyTrace_CALL. Everything kept between events is kept,
    // enabled or not; nothing is logged while disabled; while enabled, if the marks
    // stand for the stacks they go on doing so, and the log is the specification's.
    method TraceCall(gid: nat, chain: seq<Frame>, frame: Frame, filter: Filter, ghost s: Spec)
      requires Valid(s, filter) && GoodFilter(filter) && gid == s.world.current
      requires chain == StackOf(s.world, gid) + [frame] && Sane(StepWorld(s.world, Call(frame)))
      requires frame.code in filter.codes
      modifies this, gidMap.Values
      ensures Valid(SpecStep(s, Call(frame), filter), filter) && enabled == old(enabled)
      ensures Advanced(old(Storages()), Storages(), s, Call(frame), filter, enabled, old(log), log)
      ensures enabled > 0 && old(Suppresses(Storages(), s.world, s.tracked, filter)) && old(log) == s.log ==>
                var s' := SpecStep(s, Call(frame), filter);
                log == s'.log && Suppresses(Storages(), s'.world, s'.tracked, filter)
      ensures fresh(gidMap.Values - old(gidMap.Values))
    {
      hide Follows, Suppresses, Observed, KeyBytes, GoodFilter, Found, SpecStep, Sane, Linked, Advanced;
      ghost var m := Storages();
      var gstore := Observe(gid, chain, Entered, TopAddr(chain[..|chain| - 1]), frame.addr, filter, s);
      AfterCall(m, old(lastFrame), old(lastGid), s, filter, frame, gstore.Value(), enabled, old(log), log);
    }

    // greenlet_trace_func on PyTrace_RETURN, with the same promises; the storage goes
    // when the bottom frame returns.
    method TraceReturn(gid: nat, chain: seq<Frame>, filter: Filter, ghost s: Spec)
      requires Valid(s, filter) && GoodFilter(filter) && gid == s.world.current
      requires chain == StackOf(s.world, gid) && chain != [] && Sane(StepWorld(s.world, Return))
      requires chain[|chain| - 1].code in filter.codes
      modifies this, gidMap.Values
      ensures Valid(SpecStep(s, Return, filter), filter) && enabled == old(enabled)
      ensures Advanced(old(Storages()), Storages(), s, Return, filter, enabled, old(log), log)
      ensures enabled > 0 && old(Suppresses(Storages(), s.world, s.tracked, filter)) && old(log) == s.log ==>
                var s' := SpecStep(s, Return, filter);
                log == s'.log && Suppresses(Storages(), s'.world, s'.tracked, filter)
      ensures fresh(gidMap.Values - old(gidMap.Values))
    {
      hide Follows, Suppresses, Observed, KeyBytes, GoodFilter, Found, SpecStep, Sane, Linked, Advanced;
      ghost var m := Storages();
      var below := TopAddr(chain[..|chain| - 1]);
      var gstore := Observe(gid, chain, Left, TopAddr(chain), below, filter, s);
      AfterReturn(m, old(lastFrame), old(lastGid), s, filter, gstore.Value(), enabled, old(log), log);
      if |chain| == 1 {
        DelGstorage(KeyBytes(gid));
      }
    }

    // The profile function's entry point: other kinds of event are ignored.
    method GreenletTraceFunc(what: What, gid: nat, chain: seq<Frame>, filter: Filter, ghost s: Spec)
      requires Valid(s, filter) && GoodFilter(filter) && gid == s.world.current && Sane(s.world)
      requires what.PyTraceCall? ==> chain != [] && chain == StackOf(s.world, gid) + [chain[|chain| - 1]]
                                     && Sane(StepWorld(s.world, Call(chain[|chain| - 1])))
      requires what.PyTraceReturn? ==> chain != [] && chain == StackOf(s.world, gid) && Sane(StepWorld(s.world, Return))
      requires !what.PyTraceOther? ==> chain[|chain| - 1].code in filter.codes
      modifies this, gidMap.Values
      ensures Valid(After(s, what, chain, filter), filter) && enabled == old(enabled)
      ensures what.PyTraceCall? ==>
                Advanced(old(Storages()), Storages(), s, Call(chain[|chain| - 1]), filter, enabled, old(log), log)
      ensures what.PyTraceReturn? ==>
                Advanced(old(Storages()), Storages(), s, Return, filter, enabled, old(log), log)
      ensures what.PyTraceOther? ==> Storages() == old(Storages()) && log == old(log)
      ensures enabled > 0 && old(Suppresses(Storages(), s.world, s.tracked, filter)) && old(log) == s.log ==>
                var s' := After(s, what, chain, filter);
                log == s'.log && Suppresses(Storages(), s'.world, s'.tracked, filter)
      ensures fresh(gidMap.Values - old(gidMap.Values))
    {
      hide Follows, Suppresses, SpecStep, Sane, GoodFilter;
      if what == PyTraceCall {
        TraceCall(gid, chain, chain[|chain| - 1], filter, s);
      } else if what == PyTraceReturn {
        TraceReturn(gid, chain, filter, s);
      }
    }

    // suspend and resume: `enabled` goes down freely but never above one.
    method Suspend()
      modifies this`enabled
      ensures enabled == old(enabled) - 1
    {
      enabled := enabled - 1;
    }

    method Resume()
      modifies this`enabled
      ensures enabled == if old(enabled) <= 0 then old(enabled) + 1 else old(enabled)
    {
      if enabled <= 0 {
        enabled := enabled + 1;
      }
    }
  }

  // What the specification sees of a profile event.
  function After(s: Spec, what: What, chain: seq<Frame>, filter: Filter): Spec {
    match what
    case PyTraceCall => if chain == [] then s else SpecStep(s, Call(chain[|chain| - 1]), filter)
    case PyTraceReturn => SpecStep(s, Return, filter)
    case PyTraceOther => s
  }

  lemma CallAdvances(m: map<nat, Storage>, s: Spec, filter: Filter, f: Frame, gs: Storage, enabled: int,
                     log: seq<Entry>, log': seq<Entry>)
    requires Sane(s.world) && Sane(StepWorld(s.world, Call(f))) && Tracks(m, s.world, s.tracked)
    requires Observed(Found(m, s.world.current, Height(s.world, s.world.current)), gs, Entered, f, filter, enabled,
                      log, log')
    ensures Advanced(m, m[KeyBytes(s.world.current) := gs], s, Call(f), filter, enabled, log, log')
  {
    hide Sane, KeyBytes, CacheOk, NoneMissing;
    NewKey(m, s, Call(f), s.world.current);
  }

  lemma ReturnAdvances(m: map<nat, Storage>, s: Spec, filter: Filter, gs: Storage, enabled: int,
                       log: seq<Entry>, log': seq<Entry>)
    requires Sane(s.world) && Sane(StepWorld(s.world, Return)) && Tracks(m, s.world, s.tracked)
    requires Height(s.world, s.world.current) > 0
    requires var g, h := s.world.current, Height(s.world, s.world.current);
             Observed(Found(m, g, h - 1), gs, Left, StackOf(s.world, g)[h - 1], filter, enabled, log, log')
    ensures var g := s.world.current;
            && Advanced(m, m[KeyBytes(g) := gs], s, Return, filter, enabled, log, log')
            && Advanced(m, m[KeyBytes(g) := gs] - {KeyBytes(g)}, s, Return, filter, enabled, log, log')
  {
    hide Sane, KeyBytes, CacheOk, NoneMissing;
    NewKey(m, s, Return, s.world.current);
  }

  // The value-level account of a call, for the method above.
  lemma AfterCall(m: map<nat, Storage>, lastFrame: nat, lastGid: int, s: Spec, filter: Filter, f: Frame,
                  gs: Storage, enabled: int, log: seq<Entry>, log': seq<Entry>)
    requires Follows(m, lastFrame, lastGid, s, filter) && Sane(StepWorld(s.world, Call(f)))
    requires Observed(Found(m, s.world.current, Height(s.world, s.world.current)), gs, Entered, f, filter, enabled,
                      log, log')
    ensures var s', g := SpecStep(s, Call(f), filter), s.world.current;
            var m' := m[KeyBytes(g) := gs];
            && Follows(m', f.addr, g, s', filter)
            && (enabled > 0 && Suppresses(m, s.world, s.tracked, filter) ==>
                  Suppresses(m', s'.world, s'.tracked, filter) && (log == s.log ==> log' == s'.log))
            && Advanced(m, m', s, Call(f), filter, enabled, log, log')
  {
    hide Sane, Suppresses, Advanced;
    CallAdvances(m, s, filter, f, gs, enabled, log, log');
    NewKey(m, s, Call(f), s.world.current);
    CallFollows(m, lastFrame, lastGid, s, filter, f, gs);
    if enabled > 0 && Suppresses(m, s.world, s.tracked, filter) {
      CallLogs(m, s, filter, f, gs);
    }
  }

  lemma AfterReturn(m: map<nat, Storage>, lastFrame: nat, lastGid: int, s: Spec, filter: Filter,
                    gs: Storage, enabled: int, log: seq<Entry>, log': seq<Entry>)
    requires Follows(m, lastFrame, lastGid, s, filter) && Sane(StepWorld(s.world, Return))
    requires Height(s.world, s.world.current) > 0
    requires var g, h := s.world.current, Height(s.world, s.world.current);
             Observed(Found(m, g, h - 1), gs, Left, StackOf(s.world, g)[h - 1], filter, enabled, log, log')
    ensures var s', g, st := SpecStep(s, Return, filter), s.world.current, StackOf(s.world, s.world.current);
            var m1 := m[KeyBytes(g) := gs];
            var m' := if |st| == 1 then m1 - {KeyBytes(g)} else m1;
            && Follows(m', TopAddr(st[..|st| - 1]), g, s', filter)
            && (enabled > 0 && Suppresses(m, s.world, s.tracked, filter) ==>
                  Suppresses(m', s'.world, s'.tracked, filter) && (log == s.log ==> log' == s'.log))
            && Advanced(m, m', s, Return, filter, enabled, log, log')
  {
    hide Sane, Suppresses, Advanced;
    ReturnAdvances(m, s, filter, gs, enabled, log, log');
    NewKey(m, s, Return, s.world.current);
    ReturnFollows(m, lastFrame, lastGid, s, filter, gs);
    if enabled > 0 && Suppresses(m, s.world, s.tracked, filter) {
      ReturnLogs(m, s, filter, gs);
    }
  }
}
