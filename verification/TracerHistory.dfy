// Where what is tracked of a greenlet comes from, in terms of the run alone: when it was
// first seen, on a call or on a return, and how low its stack has been since.
module TracerHistory {
  import opened Basics
  import opened TracerSpec
  import opened Tracer
  import opened TracerRuns

  // What the event is to the greenlet.
  function MoveOf(w: World, e: Event, g: nat): Option<Kind> {
    if e.Switch? || w.current != g || (e.Return? && Height(w, g) == 0) then None else Some(KindOf(e))
  }

  // Its calls and returns, one entry for every event of the run.
  function Moves(w: World, events: seq<Event>, g: nat): (ms: seq<Option<Kind>>)
    ensures |ms| == |events|
  {
    if events == [] then []
    else
      var init := events[..|events| - 1];
      Moves(w, init, g) + [MoveOf(WorldAfter(w, init), events[|events| - 1], g)]
  }

  // Its heights, before the first event and after each.
  function Heights(w: World, events: seq<Event>, g: nat): (hs: seq<nat>)
    ensures |hs| == |events| + 1 && hs[|events|] == Height(WorldAfter(w, events), g)
  {
    if events == [] then [Height(w, g)]
    else Heights(w, events[..|events| - 1], g) + [Height(WorldAfter(w, events), g)]
  }

  // Its storage was made at the m-th event: the first it was seen at, ever or since its
  // stack was empty; and the stack has not been empty since.
  ghost predicate MadeAt(hs: seq<nat>, ms: seq<Option<Kind>>, m: nat)
    requires |hs| == |ms| + 1
  {
    && m < |ms| && ms[m].Some? && (hs[m] == 0 || forall k | 0 <= k < m :: ms[k].None?)
    && forall k | m < k < |hs| :: hs[k] > 0
  }

  // The lowest height from the m-th event on.
  ghost predicate Lowest(hs: seq<nat>, m: nat, height: nat) {
    (forall k | m <= k < |hs| :: height <= hs[k]) && exists k :: m <= k < |hs| && height == hs[k]
  }

  // A greenlet is tracked if and only if it has been seen and has frames. Then its storage
  // was made at some event: what is above the lowest height since counts for suppression,
  // and depths are heights, less one if that event was a return.
  ghost predicate TrackedSo(hs: seq<nat>, ms: seq<Option<Kind>>, t: Option<Tracked>)
    requires |hs| == |ms| + 1
  {
    && (t.Some? <==> hs[|ms|] > 0 && exists m :: 0 <= m < |ms| && ms[m].Some?)
    && (t.Some? ==> exists m: nat :: MadeAt(hs, ms, m))
    && forall m: nat | MadeAt(hs, ms, m) ::
         t.Some? && t.value.offset == (if ms[m].value.Entered? then 0 else 1) && Lowest(hs, m, t.value.base)
  }

  lemma StaysSo(hs: seq<nat>, ms: seq<Option<Kind>>, t: Option<Tracked>)
    requires |hs| == |ms| + 1 && TrackedSo(hs, ms, t)
    ensures TrackedSo(hs + [hs[|ms|]], ms + [None], t)
  {
    hide MadeAt, Lowest;
    var hs', ms' := hs + [hs[|ms|]], ms + [None];
    assert hs'[|ms'|] == hs[|ms|];
    SeenStays(ms);
    if t.Some? {
      var m: nat :| MadeAt(hs, ms, m);
      MadeBefore(hs, ms, hs[|ms|], None, m);
      MadeInRange(hs, ms, m);
    }
    forall m: nat | MadeAt(hs', ms', m)
      ensures m < |ms'| && ms'[m].Some? && t.Some? && Lowest(hs', m, t.value.base)
      ensures t.value.offset == (if ms'[m].value.Entered? then 0 else 1)
    {
      MadeInRange(hs', ms', m);
      MadeBefore(hs, ms, hs[|ms|], None, m);
      LowestOn(hs, hs[|ms|], m, t.value.base);
      LowestLast(hs, m, t.value.base);
    }
  }

  lemma SeenStays(ms: seq<Option<Kind>>)
    ensures (exists m :: 0 <= m < |ms| && ms[m].Some?) <==> exists m :: 0 <= m < |ms + [None]| && (ms + [None])[m].Some?
  {
    if m :| 0 <= m < |ms| && ms[m].Some? { assert (ms + [None])[m].Some?; }
  }

  lemma MadeInRange(hs: seq<nat>, ms: seq<Option<Kind>>, m: nat)
    requires |hs| == |ms| + 1 && MadeAt(hs, ms, m)
    ensures m < |ms| && ms[m].Some?
  {
  }

  lemma LowestLast(hs: seq<nat>, m: nat, height: nat)
    requires m < |hs| && Lowest(hs, m, height)
    ensures height <= hs[|hs| - 1]
  {
  }

  // An event more leaves the earlier beginnings as they were, unless the stack is empty now.
  lemma MadeBefore(hs: seq<nat>, ms: seq<Option<Kind>>, h: nat, move: Option<Kind>, m: nat)
    requires |hs| == |ms| + 1
    ensures m < |ms| ==> (MadeAt(hs + [h], ms + [move], m) <==> MadeAt(hs, ms, m) && h > 0)
    ensures m == |ms| ==>
              (MadeAt(hs + [h], ms + [move], m) <==>
                 move.Some? && h > 0 && (hs[m] == 0 || forall k | 0 <= k < m :: ms[k].None?))
  {
    var hs', ms' := hs + [h], ms + [move];
    assert hs'[|hs|] == h && (forall k | 0 <= k < |hs| :: hs'[k] == hs[k]) && forall k | 0 <= k < |ms| :: ms'[k] == ms[k];
  }

  lemma LowestOn(hs: seq<nat>, h: nat, m: nat, base: nat)
    requires m < |hs| && Lowest(hs, m, base)
    ensures Lowest(hs + [h], m, Min(base, h))
  {
    var hs' := hs + [h];
    assert hs'[|hs|] == h && forall k | 0 <= k < |hs| :: hs'[k] == hs[k];
    var k :| m <= k < |hs| && base == hs[k];
    assert hs'[if base <= h then k else |hs|] == Min(base, h);
  }

  // What a call or a return makes of it.
  function AfterMove(t: Option<Tracked>, h: nat, kind: Kind): Option<Tracked>
    requires kind.Left? ==> h > 0
  {
    var now := if t.Some? then t.value else if kind.Entered? then Tracked(h, 0) else Tracked(h, 1);
    if kind.Entered? then Some(now) else if h == 1 then None else Some(now.(base := Min(now.base, h - 1)))
  }

  lemma MovesSo(hs: seq<nat>, ms: seq<Option<Kind>>, t: Option<Tracked>, kind: Kind)
    requires |hs| == |ms| + 1 && TrackedSo(hs, ms, t) && (kind.Left? ==> hs[|ms|] > 0)
    ensures var h := hs[|ms|];
            TrackedSo(hs + [if kind.Entered? then h + 1 else h - 1], ms + [Some(kind)], AfterMove(t, h, kind))
  {
    var n, h := |ms|, hs[|ms|];
    var h' := if kind.Entered? then h + 1 else h - 1;
    var hs', ms', t' := hs + [h'], ms + [Some(kind)], AfterMove(t, h, kind);
    assert ms'[n] == Some(kind) && hs'[n + 1] == h' && hs'[n] == h;
    if h' > 0 {
      if t.Some? {
        var m: nat :| MadeAt(hs, ms, m);
        MadeBefore(hs, ms, h', Some(kind), m);
        assert MadeAt(hs', ms', m);
      } else {
        MadeBefore(hs, ms, h', Some(kind), n);
        assert MadeAt(hs', ms', n);
      }
    }
    forall m: nat | MadeAt(hs', ms', m)
      ensures t'.Some? && t'.value.offset == (if ms'[m].value.Entered? then 0 else 1) && Lowest(hs', m, t'.value.base)
    {
      MadeBefore(hs, ms, h', Some(kind), m);
      if m < n {
        assert ms'[m] == ms[m];
        LowestOn(hs, h', m, t.value.base);
        assert t.value.base <= h;
      } else {
        NoneSeen(hs, ms, t);
        assert Lowest(hs, n, h);
        LowestOn(hs, h', n, h);
      }
    }
  }

  // Seen for the first time since its stack was empty.
  lemma NoneSeen(hs: seq<nat>, ms: seq<Option<Kind>>, t: Option<Tracked>)
    requires |hs| == |ms| + 1 && TrackedSo(hs, ms, t)
    requires hs[|ms|] == 0 || forall k | 0 <= k < |ms| :: ms[k].None?
    ensures t.None?
  {
  }

  function TrackedNow(s: Spec, g: nat): Option<Tracked> {
    if g in s.tracked then Some(s.tracked[g]) else None
  }

  // Over every run, of every greenlet.
  lemma {:induction false} TrackedByHistory(w: World, events: seq<Event>, g: nat, filter: Filter)
    ensures TrackedSo(Heights(w, events, g), Moves(w, events, g), TrackedNow(SpecRun(Start(w), events, filter), g))
    decreases |events|
  {
    hide TrackedSo, AfterMove, SpecStep;
    if events == [] {
      NothingTracked(w, g, filter);
    } else {
      var init, e := events[..|events| - 1], events[|events| - 1];
      var s, hs, ms := SpecRun(Start(w), init, filter), Heights(w, init, g), Moves(w, init, g);
      TrackedByHistory(w, init, g, filter);
      WorldOfRun(Start(w), init, filter);
      StepTracked(s, e, g, filter);
      var move := MoveOf(s.world, e, g);
      if move.Some? {
        MovesSo(hs, ms, TrackedNow(s, g), move.value);
      } else {
        StaysSo(hs, ms, TrackedNow(s, g));
      }
    }
  }

  lemma NothingTracked(w: World, g: nat, filter: Filter)
    ensures TrackedSo(Heights(w, [], g), Moves(w, [], g), TrackedNow(SpecRun(Start(w), [], filter), g))
  {
  }

  lemma StepTracked(s: Spec, e: Event, g: nat, filter: Filter)
    ensures var s', h, move := SpecStep(s, e, filter), Height(s.world, g), MoveOf(s.world, e, g);
            && s'.world == StepWorld(s.world, e)
            && (if move.None? then TrackedNow(s', g) == TrackedNow(s, g) && Height(s'.world, g) == h
                else (move.value.Left? ==> h > 0)
                     && TrackedNow(s', g) == AfterMove(TrackedNow(s, g), h, move.value)
                     && Height(s'.world, g) == if move.value.Entered? then h + 1 else h - 1)
  {
    hide Line;
  }
}
