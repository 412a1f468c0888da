// What comes out in which room, for every object: leaves in terms of their unlimited text,
// containers in terms of what their elements leave in their windows.
module ReprCut {
  import opened Basics
  import opened TraceMessage
  import opened ReprSpec
  import opened ReprTheorems
  import opened ReprNul
  import Framing

  // --- leaves ---

  function Suffix(count: nat): string { "... <len=" + Framing.Decimal(count) + ">" }

  // A string: of more than 64 characters the repr of the first 64, of others their own;
  // uncut if it has at most 64 and its repr fits with a NUL; whole with the length after it
  // if it has more and both fit; and otherwise, if one character of it fits before a quote
  // and the length, as much of it as does.
  lemma StrText(g: Graph, r: Ref, avail: nat)
    requires r in g && g[r].PyStr?
    ensures var length, suffix := g[r].length, Suffix(g[r].length);
            var shown: string := if length > 64 then g[r].headRepr else g[r].repr;
            Repr(g, r, avail) ==
            if length <= 64 && |shown| < avail then Out(true, shown)
            else if length > 64 && |shown| + |suffix| < avail then Out(true, shown + suffix)
            else if avail >= |suffix| + 3 then Out(true, shown[..avail - |suffix| - 2] + "'" + suffix)
            else Out(false, "")
  {
  }

  // Every other object that does not contain others, from its unlimited text. Only the room
  // decides: an integer or a plain object that fits exactly loses its last character to a
  // NUL; a long integer, or a word, that does is whole but said not to have fitted; a word is
  // the only one of which a part is left; names give way to a question mark.
  lemma LeafText(g: Graph, r: Ref, avail: nat)
    requires r in g ==> !Container(g[r]) && !g[r].PyStr?
    ensures var full, out := Full(g, r, 0), Repr(g, r, avail);
            if r !in g || g[r].PyWord? then out == Out(|full| < avail, full[..Min(|full|, avail)])
            else
              match g[r]
              case PyLong(_) => out == if |full| <= avail then Out(|full| < avail, full) else Out(false, "")
              case PyFloat(_) => out == if |full| <= avail then Out(true, full) else Out(false, "")
              case PyFunction(_) => out == NameOr(full, "<func ?>", 9, |full|, avail)
              case PyType(_) => out == NameOr(full, "<type ?>", 9, |full|, avail)
              case PyMethod(_, _, _) => out == NameOr(full, "<meth ?>", 11, |full| + 1, avail)
              case _ =>
                out == if |full| < avail then Out(true, full)
                       else if |full| > avail then Out(false, "")
                       else Out(true, if avail == 0 then "" else full[..avail - 1] + [NUL])
  {
    hide Named, MethodRepr, NameOr;
    assert "<func " + "?>" == "<func ?>" && "<type " + "?>" == "<type ?>";
    if r in g {
      match g[r]
      case PyFunction(name) => NamedText("<func ", name, avail);
      case PyType(name) => NamedText("<type ", name, avail);
      case PyMethod(funcName, className, selfAddress) => MethodText(funcName, className, selfAddress, avail);
      case _ =>
    }
  }

  lemma NamedText(prefix: CString, name: CString, avail: nat)
    requires |prefix| == 6
    ensures Named(prefix, name, 9, avail) == NameOr(prefix + name + ">", prefix + "?>", 9, |prefix| + |name| + 1, avail)
  {
  }

  lemma MethodText(funcName: CString, className: Option<CString>, selfAddress: Option<CString>, avail: nat)
    ensures var full := "<meth " + (funcName + Part(" cls ", className) + Part(" obj 0x", selfAddress) + ">");
            MethodRepr(funcName, className, selfAddress, avail) == NameOr(full, "<meth ?>", 11, |full| + 1, avail)
  {
    hide MethodTail;
    var needed := |funcName| + |Part(" cls ", className)| + |Part(" obj 0x", selfAddress)| + 7;
    if avail >= 11 {
      if needed < avail {
        MethodWhole(funcName, className, selfAddress, avail);
      } else if |funcName| < avail - 6 {
        if MethodTail(className, selfAddress, avail - 6 - |funcName|).ok {
          TailNeeds(className, selfAddress, avail - 6 - |funcName|);
        }
      }
    }
  }

  lemma TailNeeds(className: Option<CString>, selfAddress: Option<CString>, avail: nat)
    requires MethodTail(className, selfAddress, avail).ok
    ensures |Part(" cls ", className)| + |Part(" obj 0x", selfAddress)| + 1 < avail
  {
    hide ClassPart, SelfPart;
    assert ClassPart(className, avail).ok && |ClassPart(className, avail).text| == |Part(" cls ", className)| by {
      ClassNeeds(className, avail);
    }
    SelfNeeds(selfAddress, avail - |ClassPart(className, avail).text|);
  }

  lemma ClassNeeds(className: Option<CString>, avail: nat)
    ensures ClassPart(className, avail).ok ==> |ClassPart(className, avail).text| == |Part(" cls ", className)|
  {
  }

  lemma SelfNeeds(selfAddress: Option<CString>, avail: nat)
    ensures SelfPart(selfAddress, avail).ok ==> |SelfPart(selfAddress, avail).text| == |Part(" obj 0x", selfAddress)|
  {
  }

  // The text in the room it needs, or else the question mark, or in less than `least` bytes
  // nothing.
  function NameOr(full: string, unknown: string, least: nat, needed: nat, avail: nat): Out {
    if avail < least then Out(false, "") else if needed <= avail then Out(true, full) else Out(true, unknown)
  }

  // A dict subclass: its head as any plain object, and after that, if the head is whole, the
  // dict in the room that is left.
  lemma SubDictText(g: Graph, r: Ref, avail: nat)
    requires r in g && g[r].PySubDict?
    ensures var head, out := "<" + g[r].typeName + " 0x" + g[r].address + ">", Repr(g, r, avail);
            if |head| > avail then out == Out(false, "")
            else if |head| == avail then out == Out(false, head[..avail - 1] + [NUL])
            else
              var body := DictRepr(g, g[r].entries, avail - |head|);
              out == Out(body.ok, head + body.text)
  {
    hide DictLoop, Finish, DictRepr, PrintOut;
    var head := "<" + g[r].typeName + " 0x" + g[r].address + ">";
    var printed := PrintOut(head, avail);
    assert Repr(g, r, avail) == SubDict(g, g[r].entries, g[r].typeName, g[r].address, avail);
    PrintedHead(head, avail);
    if |head| == avail {
      NoDict(g, g[r].entries);
      assert printed.text + "" == printed.text;
    }
  }

  lemma PrintedHead(head: string, avail: nat)
    ensures PrintOut(head, avail) ==
            if |head| > avail then Out(false, "")
            else if |head| == avail > 0 then Out(true, head[..avail - 1] + [NUL])
            else Out(true, head)
  {
  }

  lemma NoDict(g: Graph, entries: seq<(Ref, Ref)>)
    ensures DictRepr(g, entries, 0) == Out(false, "")
  {
    hide DictLoop, Finish;
  }

  // --- containers ---

  // What the rounds of a loop leave, one text each: ps[j] is that of round i + j, in a room
  // of which `used` bytes and those of the rounds before it are gone. Only the last round
  // may have failed, and if it has not there are all of them.
  ghost predicate Rounds(leaves: (nat, nat, string, bool) -> bool, count: nat, i: nat, used: nat, avail: nat,
                         ps: seq<string>, failed: bool)
  {
    && (if failed then ps != [] && i + |ps| <= count else i + |ps| == count)
    && forall j | 0 <= j < |ps| :: RoundAt(leaves, i, used, avail, ps, failed, j)
  }

  ghost predicate RoundAt(leaves: (nat, nat, string, bool) -> bool, i: nat, used: nat, avail: nat, ps: seq<string>,
                          failed: bool, j: nat)
    requires j < |ps|
  {
    var room := avail - used - |Concat(ps[..j])|;
    room >= 0 && leaves(i + j, room, ps[j], failed && j == |ps| - 1)
  }

  // A round of a list: the comma, unless it is the first, and the element, in a window of at
  // most 64 bytes.
  ghost function ElementLeaves(g: Graph, items: seq<Ref>): (nat, nat, string, bool) -> bool {
    (k: nat, room: nat, p: string, failed: bool) => k < |items| && ElementIs(g, items, k, Min(64, room), p, failed)
  }

  ghost predicate ElementIs(g: Graph, items: seq<Ref>, k: nat, window: nat, p: string, failed: bool)
    requires k < |items|
  {
    if k == 0 then
      var element := Repr(g, items[0], window);
      p == element.text && failed == !element.ok
    else if window <= 1 then p == ","[..window] && failed
    else
      var element := Repr(g, items[k], window - 1);
      p == "," + element.text && failed == !element.ok
  }

  // A round of a dict: the comma, unless it is the first, the key in a window of at most 32
  // bytes, the colon, and the value in one of at most 64.
  ghost function EntryLeaves(g: Graph, entries: seq<(Ref, Ref)>): (nat, nat, string, bool) -> bool {
    (k: nat, room: nat, p: string, failed: bool) => k < |entries| && EntryIs(g, entries, k, room, p, failed)
  }

  ghost predicate EntryIs(g: Graph, entries: seq<(Ref, Ref)>, k: nat, room: nat, p: string, failed: bool)
    requires k < |entries|
  {
    if k > 0 && room <= 1 then p == ","[..room] && failed
    else
      var comma: string := if k > 0 then "," else "";
      var key := Repr(g, entries[k].0, Min(32, room - |comma|));
      var left := room - |comma| - |key.text|;
      if !key.ok then p == comma + key.text && failed
      else if left <= 1 then p == comma + key.text + ":"[..left] && failed
      else
        var value := Repr(g, entries[k].1, Min(64, left - 1));
        p == comma + key.text + ":" + value.text && failed == !value.ok
  }

  lemma ElementRound(g: Graph, items: seq<Ref>, k: nat, room: nat)
    requires k < |items|
    ensures var element := Element(g, items, k, room);
            ElementLeaves(g, items)(k, room, element.text, !element.ok)
  {
    hide Repr;
    assert forall s: string :: "" + s == s;
    assert ","[..0] == "" && ","[..1] == "," && "," + "" == ",";
  }

  lemma EntryRound(g: Graph, entries: seq<(Ref, Ref)>, k: nat, room: nat)
    requires k < |entries|
    ensures var entry := Entry(g, entries, k, room);
            EntryLeaves(g, entries)(k, room, entry.text, !entry.ok)
  {
    hide Repr, EntryKey;
    KeyRound(g, entries, k, room);
    assert ":"[..0] == "" && ":"[..1] == ":";
  }

  lemma KeyRound(g: Graph, entries: seq<(Ref, Ref)>, k: nat, room: nat)
    requires k < |entries|
    ensures EntryKey(g, entries, k, room) ==
            if k > 0 && room <= 1 then Out(false, ","[..room])
            else
              var comma: string := if k > 0 then "," else "";
              var key := Repr(g, entries[k].0, Min(32, room - |comma|));
              Out(key.ok, comma + key.text)
  {
    hide Repr;
    var w := Min(MAX_DICT_KEY_LEN, room);
    assert ","[..0] == "" && ","[..1] == ",";
    if k == 0 {
      assert "" + Repr(g, entries[k].0, w).text == Repr(g, entries[k].0, w).text;
    }
  }

  lemma {:induction false} ConcatCons(p: string, ps: seq<string>)
    ensures Concat([p] + ps) == p + Concat(ps)
    decreases |ps|
  {
    if ps == [] {
      assert [p] + ps == [p] && [p][..0] == [];
      assert Concat([p]) == "" + p == p + "";
    } else {
      var init, last := ps[..|ps| - 1], ps[|ps| - 1];
      ConcatCons(p, init);
      assert ([p] + ps)[..|ps|] == [p] + init;
    }
  }

  // A round more in front.
  lemma RoundsCons(leaves: (nat, nat, string, bool) -> bool, count: nat, i: nat, used: nat, avail: nat, p: string,
                   ps: seq<string>, failed: bool)
    requires i < count && used <= avail && leaves(i, avail - used, p, false)
    requires Rounds(leaves, count, i + 1, used + |p|, avail, ps, failed)
    ensures Rounds(leaves, count, i, used, avail, [p] + ps, failed)
  {
    hide RoundAt;
    FirstRound(leaves, i, used, avail, p, ps, failed);
    forall j | 0 <= j < |[p] + ps| ensures RoundAt(leaves, i, used, avail, [p] + ps, failed, j) {
      if j > 0 { LaterRound(leaves, i, used, avail, p, ps, failed, j - 1); }
    }
  }

  lemma FirstRound(leaves: (nat, nat, string, bool) -> bool, i: nat, used: nat, avail: nat, p: string, ps: seq<string>,
                   failed: bool)
    requires used <= avail && leaves(i, avail - used, p, failed && ps == [])
    ensures RoundAt(leaves, i, used, avail, [p] + ps, failed, 0)
  {
    assert ([p] + ps)[..0] == [];
  }

  lemma LaterRound(leaves: (nat, nat, string, bool) -> bool, i: nat, used: nat, avail: nat, p: string, ps: seq<string>,
                   failed: bool, j: nat)
    requires j < |ps| && RoundAt(leaves, i + 1, used + |p|, avail, ps, failed, j)
    ensures RoundAt(leaves, i, used, avail, [p] + ps, failed, j + 1)
  {
    hide Concat;
    ConcatCons(p, ps[..j]);
    assert ([p] + ps)[..j + 1] == [p] + ps[..j];
  }

  lemma NoRounds(leaves: (nat, nat, string, bool) -> bool, count: nat, used: nat, avail: nat)
    ensures Rounds(leaves, count, count, used, avail, [], false)
  {
  }

  lemma LastRound(leaves: (nat, nat, string, bool) -> bool, count: nat, i: nat, used: nat, avail: nat, p: string)
    requires i < count && used <= avail && leaves(i, avail - used, p, true)
    ensures Rounds(leaves, count, i, used, avail, [p], true)
  {
    hide RoundAt;
    FirstRound(leaves, i, used, avail, p, [], true);
    assert [p] + [] == [p];
  }

  lemma {:induction false} PiecesAreRounds(g: Graph, items: seq<Ref>, i: nat, text: string, spare: nat, avail: nat)
    requires i <= Min(|items|, MAX_LIST_ELEMS) && 0 < |text| <= avail && spare <= |text|
    ensures Rounds(ElementLeaves(g, items), Min(|items|, 4), i, |text|, avail, ListPieces(g, items, i, |text|, avail),
                   ListLoop(g, items, i, text, spare, avail).truncated)
    decreases MAX_LIST_ELEMS - i
  {
    hide TruncText, Element, ElementLeaves, Rounds;
    var leaves, count := ElementLeaves(g, items), Min(|items|, 4);
    if i == count {
      NoRounds(leaves, count, |text|, avail);
    } else {
      var element := Element(g, items, i, avail - |text|);
      var spare' := if avail - |text| >= |TruncText(|items|)| + 2 then |text| else spare;
      ElementRound(g, items, i, avail - |text|);
      if element.ok {
        PiecesAreRounds(g, items, i + 1, text + element.text, spare', avail);
        RoundsCons(leaves, count, i, |text|, avail, element.text,
                   ListPieces(g, items, i + 1, |text| + |element.text|, avail),
                   ListLoop(g, items, i + 1, text + element.text, spare', avail).truncated);
      } else {
        LastRound(leaves, count, i, |text|, avail, element.text);
        assert [element.text] + [] == [element.text];
      }
    }
  }

  lemma {:induction false} DictPiecesAreRounds(g: Graph, entries: seq<(Ref, Ref)>, i: nat, text: string, spare: nat,
                                               avail: nat)
    requires i <= Min(|entries|, MAX_DICT_ELEMS) && 0 < |text| <= avail && spare <= |text|
    ensures Rounds(EntryLeaves(g, entries), Min(|entries|, 4), i, |text|, avail,
                   DictPieces(g, entries, i, |text|, avail), DictLoop(g, entries, i, text, spare, avail).truncated)
    decreases MAX_DICT_ELEMS - i
  {
    hide TruncText, Entry, EntryLeaves, Rounds;
    var leaves, count := EntryLeaves(g, entries), Min(|entries|, 4);
    if i == count {
      NoRounds(leaves, count, |text|, avail);
    } else {
      var entry := Entry(g, entries, i, avail - |text|);
      var spare' := if avail - |text| >= |TruncText(|entries|)| + 2 then |text| else spare;
      EntryRound(g, entries, i, avail - |text|);
      if entry.ok {
        DictPiecesAreRounds(g, entries, i + 1, text + entry.text, spare', avail);
        RoundsCons(leaves, count, i, |text|, avail, entry.text,
                   DictPieces(g, entries, i + 1, |text| + |entry.text|, avail),
                   DictLoop(g, entries, i + 1, text + entry.text, spare', avail).truncated);
      } else {
        LastRound(leaves, count, i, |text|, avail, entry.text);
        assert [entry.text] + [] == [entry.text];
      }
    }
  }

  // Where a cut container is closed: after everything if there is room for the bracket and
  // the length, and otherwise after the last rounds that leave room for them and a NUL.
  ghost predicate ClosedAfter(ps: seq<string>, kept: nat, suffix: nat, avail: nat) {
    if 1 + |Concat(ps)| + 1 + suffix <= avail then kept == |ps|
    else
      && kept < |ps| && 1 + |Concat(ps[..kept])| + 1 + suffix + 1 <= avail
      && forall j | kept < j < |ps| :: 1 + |Concat(ps[..j])| + 1 + suffix + 1 > avail
  }

  // A container is its opening bracket, whole rounds, its closing bracket and, if anything
  // was cut, its length.
  ghost predicate Closed(out: Out, open: string, close: string, count: nat, ps: seq<string>, failed: bool, kept: nat,
                         avail: nat)
  {
    if !failed && count <= 4 && 1 + |Concat(ps)| + 1 < avail then out == Out(true, open + Concat(ps) + close)
    else
      kept <= |ps| && ClosedAfter(ps, kept, |Suffix(count)|, avail)
      && out == Out(true, open + Concat(ps[..kept]) + close + Suffix(count))
  }

  lemma FinishCloses(loop: Loop, open: CString, close: CString, count: nat, avail: nat, ps: seq<string>, q: nat)
    returns (kept: nat)
    requires |open| == |close| == 1 && |loop.text| <= avail && loop.spare <= |loop.text| && loop.text == open + Concat(ps)
    requires if ps == [] then |loop.text| + |TruncText(count)| + 2 <= avail
             else SpareAt(ps, q, loop.spare, |TruncText(count)|, avail)
    requires !loop.truncated ==> (loop.last + 1 < count <==> count > 4)
    ensures Closed(Finish(loop, count, close, avail), open, close, count, ps, loop.truncated, kept, avail)
  {
    hide TruncText, Suffix, Concat;
    assert TruncText(count) == Suffix(count) by { SuffixIs(count); }
    kept := if |loop.text| + 1 + |TruncText(count)| <= avail then |ps| else q;
    assert ps[..|ps|] == ps;
    var suffix, closed := TruncText(count), WriteOut(close, avail - |loop.text|);
    var text := loop.text + closed.text;
    if loop.truncated || loop.last + 1 < count || |loop.text| + 1 >= avail {
      if avail - |text| < |suffix| {
        ConcatPrefix(ps, q);
        assert text[..loop.spare] == loop.text[..loop.spare] == open + Concat(ps[..q]);
        assert open + Concat(ps[..q]) + (close + suffix) == open + Concat(ps[..q]) + close + suffix;
        assert Finish(loop, count, close, avail).text == open + Concat(ps[..q]) + close + suffix;
      } else {
        assert closed.text == close && suffix[..|suffix|] == suffix;
        assert Finish(loop, count, close, avail).text == open + Concat(ps) + close + suffix;
      }
    } else {
      assert closed == Out(true, close);
      assert Finish(loop, count, close, avail) == Out(true, open + Concat(ps) + close);
      assert Closed(Finish(loop, count, close, avail), open, close, count, ps, loop.truncated, kept, avail);
    }
    if kept < |ps| {
      forall j | kept < j < |ps| ensures 1 + |Concat(ps[..j])| + 1 + |suffix| + 1 > avail {
        assert !Roomy(ps, j, |suffix|, avail);
      }
    }
    assert ClosedAfter(ps, kept, |suffix|, avail);
  }

  lemma SuffixIs(count: nat)
    ensures TruncText(count) == Suffix(count)
  {
  }

  // In any room, of any list: what its rounds leave, and what is kept of it.
  lemma ListText(g: Graph, items: seq<Ref>, isList: bool, avail: nat)
    returns (ps: seq<string>, failed: bool, kept: nat)
    ensures var open: string, close: string := if isList then "[" else "(", if isList then "]" else ")";
            if avail < |Suffix(|items|)| + 3 then ListRepr(g, items, isList, avail) == Out(false, "")
            else
              && Rounds(ElementLeaves(g, items), Min(|items|, 4), 0, 1, avail, ps, failed)
              && Closed(ListRepr(g, items, isList, avail), open, close, |items|, ps, failed, kept, avail)
  {
    hide TruncText, Suffix, Closed, Finish, SpareAt, Concat, ListLoop, ListPieces, Rounds, ElementLeaves;
    SuffixIs(|items|);
    ps, failed, kept := [], false, 0;
    if avail >= |TruncText(|items|)| + 3 {
      var loop := ListLoop(g, items, 0, Open(isList), 0, avail);
      ps, failed := ListPieces(g, items, 0, 1, avail), loop.truncated;
      var q := ListInPieces(g, items, isList, avail);
      PiecesAreRounds(g, items, 0, Open(isList), 0, avail);
      ListLast(g, items, isList, avail);
      kept := FinishCloses(loop, Open(isList), Close(isList), |items|, avail, ps, q);
    }
  }

  lemma ListLast(g: Graph, items: seq<Ref>, isList: bool, avail: nat)
    requires |TruncText(|items|)| + 3 <= avail
    ensures var loop := ListLoop(g, items, 0, Open(isList), 0, avail);
            !loop.truncated ==> (loop.last + 1 < |items| <==> |items| > 4)
  {
    hide TruncText, Element;
    if items != [] {
      ListLoopSpares(g, items, 0, Open(isList), 0, avail, Open(isList));
    }
  }

  // And of any dict.
  lemma DictText(g: Graph, entries: seq<(Ref, Ref)>, avail: nat) returns (ps: seq<string>, failed: bool, kept: nat)
    ensures if avail < |Suffix(|entries|)| + 3 then DictRepr(g, entries, avail) == Out(false, "")
            else
              && Rounds(EntryLeaves(g, entries), Min(|entries|, 4), 0, 1, avail, ps, failed)
              && Closed(DictRepr(g, entries, avail), "{", "}", |entries|, ps, failed, kept, avail)
  {
    hide TruncText, Suffix, Closed, Finish, SpareAt, Concat, DictLoop, DictPieces, Rounds, EntryLeaves;
    SuffixIs(|entries|);
    ps, failed, kept := [], false, 0;
    if avail >= |TruncText(|entries|)| + 3 {
      var loop := DictLoop(g, entries, 0, "{", 0, avail);
      ps, failed := DictPieces(g, entries, 0, 1, avail), loop.truncated;
      var q := DictInPieces(g, entries, avail);
      DictPiecesAreRounds(g, entries, 0, "{", 0, avail);
      DictLast(g, entries, avail);
      kept := FinishCloses(loop, "{", "}", |entries|, avail, ps, q);
    }
  }

  lemma DictLast(g: Graph, entries: seq<(Ref, Ref)>, avail: nat)
    requires |TruncText(|entries|)| + 3 <= avail
    ensures var loop := DictLoop(g, entries, 0, "{", 0, avail);
            !loop.truncated ==> (loop.last + 1 < |entries| <==> |entries| > 4)
  {
    hide TruncText, Entry;
    if entries != [] {
      DictLoopSpares(g, entries, 0, "{", 0, avail);
    }
  }

  // --- the first element ---

  // A plain object longer than the window is left out altogether, and with it the rest: the
  // list is its bracket pair and its length.
  lemma TooLongFirst(g: Graph, items: seq<Ref>, isList: bool, avail: nat)
    requires items != [] && items[0] in g && avail >= |Suffix(|items|)| + 3
    requires g[items[0]].PyOther? && |Full(g, items[0], 0)| > Min(64, avail - 1)
    ensures ListRepr(g, items, isList, avail) == Out(true, (if isList then "[]" else "()") + Suffix(|items|))
  {
    hide Suffix, Full, Repr, ListRepr;
    LeafText(g, items[0], Min(64, avail - 1));
    var ps, failed, kept := ListText(g, items, isList, avail);
    assert RoundAt(ElementLeaves(g, items), 0, 1, avail, ps, failed, 0);
    assert ps[..0] == [] && ps[0] == "";
    assert ps == [""];
    assert forall k | 0 <= k <= 1 :: ps[..k] == if k == 0 then [] else ps;
    assert Concat(ps) == "" == Concat([]);
  }
}
