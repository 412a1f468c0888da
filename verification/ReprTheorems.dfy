// What the serializer's output looks like: how a cut container ends, how long it can get,
// and when an object comes out whole.
module ReprTheorems {
  import opened Basics
  import opened TraceMessage
  import opened ReprSpec

  // --- a cut container ends in its bracket and its length ---

  // What was kept, its own opening bracket at least, then the closing bracket and the
  // complete suffix, with no NUL in them to hide the rest.
  ghost predicate EndsCut(text: string, open: string, close: CString, count: nat) {
    exists kept: string :: open <= kept && text == kept + close + TruncText(count)
  }

  // Where the loop may be rewound to: after the opening bracket, with room to spare for
  // the closing one, the suffix and printf's NUL.
  predicate SparePoint(loop: Loop, open: string, count: nat, avail: nat) {
    && |open| <= loop.spare <= |loop.text| <= avail && open <= loop.text
    && loop.spare + |TruncText(count)| + 2 <= avail
  }

  lemma FinishEnds(loop: Loop, open: string, count: nat, close: CString, avail: nat)
    requires |close| == 1 && |loop.text| <= avail && loop.spare <= |loop.text|
    requires count > 0 ==> SparePoint(loop, open, count, avail)
    requires count == 0 ==> !loop.truncated && |loop.text| + 1 < avail
    ensures var out := Finish(loop, count, close, avail);
            if loop.truncated || loop.last + 1 < count || |loop.text| + 1 >= avail
            then EndsCut(out.text, open, close, count)
            else out.text == loop.text + close
    ensures |Finish(loop, count, close, avail).text| <= |loop.text| + 1 + |TruncText(count)|
  {
    hide TruncText;
    var suffix := TruncText(count);
    var closed := WriteOut(close, avail - |loop.text|);
    var text := loop.text + closed.text;
    if loop.truncated || loop.last + 1 < count || |loop.text| + 1 >= avail {
      var out := Finish(loop, count, close, avail);
      if avail - |text| < |suffix| {
        assert text[..loop.spare] == loop.text[..loop.spare];
        assert out.text == loop.text[..loop.spare] + close + suffix;
      } else {
        assert |suffix| > 0;
        assert closed.text == close;
        assert out.text == loop.text + close + suffix;
      }
    }
  }

  lemma {:induction false} ListLoopSpares(g: Graph, items: seq<Ref>, i: nat, text: string, spare: nat, avail: nat,
                                          open: string)
    requires i <= Min(|items|, MAX_LIST_ELEMS) && 0 < |text| <= avail && spare <= |text| && items != []
    requires if i == 0 then text == open && |text| + |TruncText(|items|)| + 2 <= avail
             else SparePoint(Loop(text, spare, false, i - 1), open, |items|, avail)
    ensures SparePoint(ListLoop(g, items, i, text, spare, avail), open, |items|, avail)
    ensures |ListLoop(g, items, i, text, spare, avail).text| <= |text| + MAX_LIST_ELEM_LEN * (MAX_LIST_ELEMS - i)
    ensures var loop := ListLoop(g, items, i, text, spare, avail);
            !loop.truncated ==> loop.last + 1 == Min(|items|, MAX_LIST_ELEMS)
    decreases MAX_LIST_ELEMS - i
  {
    hide TruncText, Element;
    if i < Min(|items|, MAX_LIST_ELEMS) {
      var spare' := if avail - |text| >= |TruncText(|items|)| + 2 then |text| else spare;
      var element := Element(g, items, i, avail - |text|);
      if element.ok {
        ListLoopSpares(g, items, i + 1, text + element.text, spare', avail, open);
      }
    }
  }

  lemma {:induction false} DictLoopSpares(g: Graph, entries: seq<(Ref, Ref)>, i: nat, text: string, spare: nat, avail: nat)
    requires i <= Min(|entries|, MAX_DICT_ELEMS) && 0 < |text| <= avail && spare <= |text| && entries != []
    requires if i == 0 then text == "{" && |text| + |TruncText(|entries|)| + 2 <= avail
             else SparePoint(Loop(text, spare, false, i - 1), "{", |entries|, avail)
    ensures SparePoint(DictLoop(g, entries, i, text, spare, avail), "{", |entries|, avail)
    ensures |DictLoop(g, entries, i, text, spare, avail).text|
            <= |text| + 98 * (MAX_DICT_ELEMS - i) - (if i == 0 then 1 else 0)
    ensures var loop := DictLoop(g, entries, i, text, spare, avail);
            !loop.truncated ==> loop.last + 1 == Min(|entries|, MAX_DICT_ELEMS)
    decreases MAX_DICT_ELEMS - i
  {
    hide TruncText, Entry;
    if i < Min(|entries|, MAX_DICT_ELEMS) {
      var spare' := if avail - |text| >= |TruncText(|entries|)| + 2 then |text| else spare;
      var entry := Entry(g, entries, i, avail - |text|);
      EntryLength(g, entries, i, avail - |text|);
      if entry.ok {
        DictLoopSpares(g, entries, i + 1, text + entry.text, spare', avail);
      }
    }
  }

  lemma EntryLength(g: Graph, entries: seq<(Ref, Ref)>, i: nat, room: nat)
    requires i < |entries|
    ensures |Entry(g, entries, i, room).text| <= MAX_DICT_KEY_LEN + MAX_DICT_VAL_LEN + (if i == 0 then 1 else 2)
  {
    hide Repr;
  }

  // The list is refused if its bare minimum does not fit. Otherwise it comes out, cut or
  // not: cut means an element that failed, more than four, or no room for the bracket.
  lemma ListEnds(g: Graph, items: seq<Ref>, isList: bool, avail: nat)
    ensures var out := ListRepr(g, items, isList, avail);
            if avail < |TruncText(|items|)| + 3 then out == Out(false, "")
            else
              var loop := ListLoop(g, items, 0, Open(isList), 0, avail);
              && out.ok && |out.text| <= 258 + |TruncText(|items|)|
              && if loop.truncated || |items| > MAX_LIST_ELEMS || |loop.text| + 1 >= avail
                 then EndsCut(out.text, Open(isList), Close(isList), |items|)
                 else out.text == loop.text + Close(isList)
  {
    hide Finish, TruncText, EndsCut;
    if avail >= |TruncText(|items|)| + 3 {
      var loop := ListLoop(g, items, 0, Open(isList), 0, avail);
      if items != [] {
        ListLoopSpares(g, items, 0, Open(isList), 0, avail, Open(isList));
      }
      FinishEnds(loop, Open(isList), |items|, Close(isList), avail);
    }
  }

  lemma DictEnds(g: Graph, entries: seq<(Ref, Ref)>, avail: nat)
    ensures var out := DictRepr(g, entries, avail);
            if avail < |TruncText(|entries|)| + 3 then out == Out(false, "")
            else
              var loop := DictLoop(g, entries, 0, "{", 0, avail);
              && out.ok && |out.text| <= 393 + |TruncText(|entries|)|
              && if loop.truncated || |entries| > MAX_DICT_ELEMS || |loop.text| + 1 >= avail
                 then EndsCut(out.text, "{", "}", |entries|)
                 else out.text == loop.text + "}"
  {
    hide Finish, TruncText, EndsCut;
    if avail >= |TruncText(|entries|)| + 3 {
      var loop := DictLoop(g, entries, 0, "{", 0, avail);
      if entries != [] {
        DictLoopSpares(g, entries, 0, "{", 0, avail);
      }
      FinishEnds(loop, "{", |entries|, "}", avail);
    }
  }

  // --- an object that fits comes out whole ---

  function Part(prefix: string, part: Option<CString>): string {
    if part.None? then "" else prefix + part.value
  }

  // The text of an object with no limit on its length, to n levels of containers.
  function Full(g: Graph, r: Ref, n: nat): string
    decreases n, 2
  {
    if r !in g then "<null>"
    else
      match g[r]
      case PyInt(digits) => digits
      case PyLong(digits) => digits
      case PyFloat(digits) => digits + "f"
      case PyStr(_, repr, _) => repr
      case PyWord(word) => word
      case PyFunction(name) => "<func " + name + ">"
      case PyMethod(funcName, className, selfAddress) =>
        "<meth " + (funcName + Part(" cls ", className) + Part(" obj 0x", selfAddress) + ">")
      case PyType(name) => "<type " + name + ">"
      case PyOther(typeName, address) => "<" + typeName + " 0x" + address + ">"
      case PyList(items) => if n == 0 then "" else "[" + FullItems(g, items, n - 1) + "]"
      case PyTuple(items) => if n == 0 then "" else "(" + FullItems(g, items, n - 1) + ")"
      case PyDict(entries) => if n == 0 then "" else "{" + FullEntries(g, entries, n - 1) + "}"
      case PySubDict(entries, typeName, address) =>
        if n == 0 then ""
        else "<" + typeName + " 0x" + address + ">" + ("{" + FullEntries(g, entries, n - 1) + "}")
  }

  function FullItems(g: Graph, items: seq<Ref>, n: nat): string
    decreases n, 3, |items|
  {
    if items == [] then ""
    else
      var k := |items| - 1;
      FullItems(g, items[..k], n) + (if k > 0 then "," else "") + Full(g, items[k], n)
  }

  function FullEntries(g: Graph, entries: seq<(Ref, Ref)>, n: nat): string
    decreases n, 3, |entries|
  {
    if entries == [] then ""
    else
      var k := |entries| - 1;
      FullEntries(g, entries[..k], n) + (if k > 0 then "," else "")
      + Full(g, entries[k].0, n) + ":" + Full(g, entries[k].1, n)
  }

  // Nothing in the object has to be cut in a window of this size.
  predicate Fits(g: Graph, r: Ref, n: nat, avail: int)
    decreases n, 2
  {
    && |Full(g, r, n)| < avail
    && (r in g ==>
          match g[r]
          case PyStr(length, _, _) => length <= MAX_STR_LEN
          case PyFunction(_) => avail >= 9
          case PyType(_) => avail >= 9
          case PyMethod(_, _, _) => avail >= 11
          case PyList(items) => n > 0 && FitsList(g, items, n - 1, avail)
          case PyTuple(items) => n > 0 && FitsList(g, items, n - 1, avail)
          case PyDict(entries) => n > 0 && FitsDict(g, entries, n - 1, avail)
          case PySubDict(entries, typeName, address) =>
            n > 0 && FitsDict(g, entries, n - 1, avail - |typeName| - |address| - 5)
          case _ => true)
  }

  predicate FitsList(g: Graph, items: seq<Ref>, n: nat, avail: int)
    decreases n, 4, |items| + 1
  {
    |items| <= MAX_LIST_ELEMS && |TruncText(|items|)| + 3 <= avail && FitItems(g, items, n, avail)
  }

  predicate FitItems(g: Graph, items: seq<Ref>, n: nat, avail: int)
    decreases n, 3, |items|
  {
    items != [] ==>
      var k := |items| - 1;
      var room := avail - 1 - |FullItems(g, items[..k], n)|;
      && FitItems(g, items[..k], n, avail)
      && Fits(g, items[k], n, (if room < MAX_LIST_ELEM_LEN then room else MAX_LIST_ELEM_LEN) - (if k > 0 then 1 else 0))
  }

  predicate FitsDict(g: Graph, entries: seq<(Ref, Ref)>, n: nat, avail: int)
    decreases n, 4, |entries| + 1
  {
    |entries| <= MAX_DICT_ELEMS && |TruncText(|entries|)| + 3 <= avail && FitEntries(g, entries, n, avail)
  }

  predicate FitEntries(g: Graph, entries: seq<(Ref, Ref)>, n: nat, avail: int)
    decreases n, 3, |entries|
  {
    entries != [] ==>
      var k := |entries| - 1;
      var keyRoom := avail - 1 - |FullEntries(g, entries[..k], n)| - (if k > 0 then 1 else 0);
      var valueRoom := keyRoom - |Full(g, entries[k].0, n)| - 1;
      && FitEntries(g, entries[..k], n, avail)
      && Fits(g, entries[k].0, n, if keyRoom < MAX_DICT_KEY_LEN then keyRoom else MAX_DICT_KEY_LEN)
      && Fits(g, entries[k].1, n, if valueRoom < MAX_DICT_VAL_LEN then valueRoom else MAX_DICT_VAL_LEN)
  }

  lemma {:induction false} FitItemsAt(g: Graph, items: seq<Ref>, n: nat, avail: int, i: nat)
    requires FitItems(g, items, n, avail) && i <= |items|
    ensures FitItems(g, items[..i], n, avail) && |FullItems(g, items[..i], n)| <= |FullItems(g, items, n)|
    decreases |items|
  {
    if i < |items| {
      var k := |items| - 1;
      FitItemsAt(g, items[..k], n, avail, i);
      assert items[..k][..i] == items[..i];
    } else {
      assert items[..i] == items;
    }
  }

  lemma {:induction false} FitEntriesAt(g: Graph, entries: seq<(Ref, Ref)>, n: nat, avail: int, i: nat)
    requires FitEntries(g, entries, n, avail) && i <= |entries|
    ensures FitEntries(g, entries[..i], n, avail) && |FullEntries(g, entries[..i], n)| <= |FullEntries(g, entries, n)|
    decreases |entries|
  {
    if i < |entries| {
      var k := |entries| - 1;
      FitEntriesAt(g, entries[..k], n, avail, i);
      assert entries[..k][..i] == entries[..i];
    } else {
      assert entries[..i] == entries;
    }
  }

  lemma TailWhole(className: Option<CString>, selfAddress: Option<CString>, avail: nat)
    requires |Part(" cls ", className)| + |Part(" obj 0x", selfAddress)| + 1 < avail
    ensures MethodTail(className, selfAddress, avail) ==
            Out(true, Part(" cls ", className) + Part(" obj 0x", selfAddress) + ">")
  {
    hide ClassPart, SelfPart;
    assert ClassPart(className, avail) == Out(true, Part(" cls ", className)) by { ClassWhole(className, avail); }
    var left := avail - |Part(" cls ", className)|;
    assert SelfPart(selfAddress, left) == Out(true, Part(" obj 0x", selfAddress)) by { SelfWhole(selfAddress, left); }
  }

  lemma ClassWhole(className: Option<CString>, avail: nat)
    requires |Part(" cls ", className)| < avail
    ensures ClassPart(className, avail) == Out(true, Part(" cls ", className))
  {
  }

  lemma SelfWhole(selfAddress: Option<CString>, avail: nat)
    requires |Part(" obj 0x", selfAddress)| < avail
    ensures SelfPart(selfAddress, avail) == Out(true, Part(" obj 0x", selfAddress))
  {
  }

  lemma MethodWhole(funcName: CString, className: Option<CString>, selfAddress: Option<CString>, avail: nat)
    requires avail >= 11
    requires |funcName| + |Part(" cls ", className)| + |Part(" obj 0x", selfAddress)| + 7 < avail
    ensures MethodRepr(funcName, className, selfAddress, avail) ==
            Out(true, "<meth " + (funcName + Part(" cls ", className) + Part(" obj 0x", selfAddress) + ">"))
  {
    hide MethodTail, Part;
    TailWhole(className, selfAddress, avail - 6 - |funcName|);
    assert WriteOut(funcName, avail - 6) == Out(true, funcName);
    assert funcName + (Part(" cls ", className) + Part(" obj 0x", selfAddress) + ">") ==
           funcName + Part(" cls ", className) + Part(" obj 0x", selfAddress) + ">";
  }

  // The serializer agrees with the unlimited text wherever nothing has to be cut.
  lemma {:induction false} FittingIsWhole(g: Graph, r: Ref, n: nat, avail: nat)
    requires Fits(g, r, n, avail)
    ensures Repr(g, r, avail) == Out(true, Full(g, r, n))
    decreases n, 2, 0
  {
    hide ListRepr, DictRepr, FitsList, FitsDict, MethodRepr;
    if r in g {
      match g[r]
      case PyList(items) => ListWhole(g, items, true, n - 1, avail);
      case PyTuple(items) => ListWhole(g, items, false, n - 1, avail);
      case PyDict(entries) => DictWhole(g, entries, n - 1, avail);
      case PySubDict(entries, typeName, address) =>
        DictWhole(g, entries, n - 1, avail - |typeName| - |address| - 5);
      case PyMethod(funcName, className, selfAddress) => MethodWhole(funcName, className, selfAddress, avail);
      case _ =>
    }
  }

  lemma {:induction false} ListWhole(g: Graph, items: seq<Ref>, isList: bool, n: nat, avail: nat)
    requires FitsList(g, items, n, avail) && |FullItems(g, items, n)| + 2 < avail
    ensures ListRepr(g, items, isList, avail) == Out(true, Open(isList) + FullItems(g, items, n) + Close(isList))
    decreases n, 4
  {
    hide ListLoop, EndsCut;
    assert items[..0] == [];
    assert Open(isList) + "" == Open(isList);
    ListLoopWhole(g, items, 0, n, avail, Open(isList), 0);
    ListEnds(g, items, isList, avail);
  }

  lemma ListLoopStep(g: Graph, items: seq<Ref>, i: nat, text: string, spare: nat, avail: nat)
    returns (next: nat)
    requires i <= |items| <= MAX_LIST_ELEMS && 0 < |text| <= avail && spare <= |text|
    ensures i == |items| ==>
              var loop := ListLoop(g, items, i, text, spare, avail);
              loop.text == text && !loop.truncated
    ensures i < |items| && Element(g, items, i, avail - |text|).ok ==>
              && next <= |text|
              && ListLoop(g, items, i, text, spare, avail) ==
                 ListLoop(g, items, i + 1, text + Element(g, items, i, avail - |text|).text, next, avail)
  {
    hide Element;
    next := if avail - |text| >= |TruncText(|items|)| + 2 then |text| else spare;
  }

  lemma FullItemsSnoc(g: Graph, items: seq<Ref>, i: nat, n: nat)
    requires i < |items|
    ensures FullItems(g, items[..i + 1], n) ==
            FullItems(g, items[..i], n) + ((if i > 0 then "," else "") + Full(g, items[i], n))
  {
    hide Full;
    assert items[..i + 1][..i] == items[..i];
  }

  lemma {:induction false} ListLoopWhole(g: Graph, items: seq<Ref>, i: nat, n: nat, avail: nat, open: string, spare: nat)
    requires FitItems(g, items, n, avail) && i <= |items| <= MAX_LIST_ELEMS && |open| == 1
    requires |FullItems(g, items, n)| + 2 < avail && spare <= 1 + |FullItems(g, items[..i], n)| <= avail
    ensures var loop := ListLoop(g, items, i, open + FullItems(g, items[..i], n), spare, avail);
            loop.text == open + FullItems(g, items, n) && !loop.truncated
    decreases n, 3, |items| - i
  {
    hide FitItems, Element, ListLoop, FullItems, Full;
    var text := open + FullItems(g, items[..i], n);
    var spare' := ListLoopStep(g, items, i, text, spare, avail);
    if i == |items| {
      assert items[..i] == items;
    } else {
      FitItemsAt(g, items, n, avail, i + 1);
      ElementWhole(g, items, i, n, avail);
      FullItemsSnoc(g, items, i, n);
      var step := Element(g, items, i, avail - |text|);
      assert text + step.text == open + FullItems(g, items[..i + 1], n);
      ListLoopWhole(g, items, i + 1, n, avail, open, spare');
    }
  }

  lemma {:induction false} ElementWhole(g: Graph, items: seq<Ref>, i: nat, n: nat, avail: nat)
    requires i < |items| && FitItems(g, items[..i + 1], n, avail) && 1 + |FullItems(g, items[..i], n)| <= avail
    ensures Element(g, items, i, avail - 1 - |FullItems(g, items[..i], n)|) ==
            Out(true, (if i > 0 then "," else "") + Full(g, items[i], n))
    decreases n, 3, 0
  {
    hide Full, Repr, Fits;
    assert items[..i + 1][..i] == items[..i];
    var room := avail - 1 - |FullItems(g, items[..i], n)|;
    var window := Min(room, MAX_LIST_ELEM_LEN) - (if i > 0 then 1 else 0);
    FitsLength(g, items[i], n, window);
    FittingIsWhole(g, items[i], n, window);
  }

  lemma {:induction false} DictWhole(g: Graph, entries: seq<(Ref, Ref)>, n: nat, avail: nat)
    requires FitsDict(g, entries, n, avail) && |FullEntries(g, entries, n)| + 2 < avail
    ensures DictRepr(g, entries, avail) == Out(true, "{" + FullEntries(g, entries, n) + "}")
    decreases n, 4
  {
    hide DictLoop, EndsCut;
    assert entries[..0] == [];
    assert "{" + "" == "{";
    DictLoopWhole(g, entries, 0, n, avail, 0);
    DictEnds(g, entries, avail);
  }

  lemma DictLoopStep(g: Graph, entries: seq<(Ref, Ref)>, i: nat, text: string, spare: nat, avail: nat)
    returns (next: nat)
    requires i <= |entries| <= MAX_DICT_ELEMS && 0 < |text| <= avail && spare <= |text|
    ensures i == |entries| ==>
              var loop := DictLoop(g, entries, i, text, spare, avail);
              loop.text == text && !loop.truncated
    ensures i < |entries| && Entry(g, entries, i, avail - |text|).ok ==>
              && next <= |text|
              && DictLoop(g, entries, i, text, spare, avail) ==
                 DictLoop(g, entries, i + 1, text + Entry(g, entries, i, avail - |text|).text, next, avail)
  {
    hide Entry;
    next := if avail - |text| >= |TruncText(|entries|)| + 2 then |text| else spare;
  }

  lemma FullEntriesSnoc(g: Graph, entries: seq<(Ref, Ref)>, i: nat, n: nat)
    requires i < |entries|
    ensures FullEntries(g, entries[..i + 1], n) ==
            FullEntries(g, entries[..i], n)
            + ((if i > 0 then "," else "") + Full(g, entries[i].0, n) + ":" + Full(g, entries[i].1, n))
  {
    hide Full;
    assert entries[..i + 1][..i] == entries[..i];
  }

  lemma {:induction false} DictLoopWhole(g: Graph, entries: seq<(Ref, Ref)>, i: nat, n: nat, avail: nat, spare: nat)
    requires FitEntries(g, entries, n, avail) && i <= |entries| <= MAX_DICT_ELEMS
    requires |FullEntries(g, entries, n)| + 2 < avail && spare <= 1 + |FullEntries(g, entries[..i], n)| <= avail
    ensures var loop := DictLoop(g, entries, i, "{" + FullEntries(g, entries[..i], n), spare, avail);
            loop.text == "{" + FullEntries(g, entries, n) && !loop.truncated
    decreases n, 3, |entries| - i
  {
    hide FitEntries, Entry, DictLoop, FullEntries, Full;
    var text := "{" + FullEntries(g, entries[..i], n);
    var spare' := DictLoopStep(g, entries, i, text, spare, avail);
    if i == |entries| {
      assert entries[..i] == entries;
    } else {
      FitEntriesAt(g, entries, n, avail, i + 1);
      EntryWhole(g, entries, i, n, avail);
      FullEntriesSnoc(g, entries, i, n);
      var step := Entry(g, entries, i, avail - |text|);
      assert text + step.text == "{" + FullEntries(g, entries[..i + 1], n);
      DictLoopWhole(g, entries, i + 1, n, avail, spare');
    }
  }

  lemma {:induction false} EntryWhole(g: Graph, entries: seq<(Ref, Ref)>, i: nat, n: nat, avail: nat)
    requires i < |entries| && FitEntries(g, entries[..i + 1], n, avail) && 1 + |FullEntries(g, entries[..i], n)| <= avail
    ensures Entry(g, entries, i, avail - 1 - |FullEntries(g, entries[..i], n)|) ==
            Out(true, (if i > 0 then "," else "") + Full(g, entries[i].0, n) + ":" + Full(g, entries[i].1, n))
    decreases n, 3, 0
  {
    hide Full, Repr, Fits, EntryKey, Entry;
    assert entries[..i + 1][..i] == entries[..i];
    var room := avail - 1 - |FullEntries(g, entries[..i], n)|;
    var keyRoom := room - (if i > 0 then 1 else 0);
    KeyWhole(g, entries, i, n, room);
    var valueRoom := keyRoom - |Full(g, entries[i].0, n)| - 1;
    var window := if valueRoom < MAX_DICT_VAL_LEN then valueRoom else MAX_DICT_VAL_LEN;
    FitsLength(g, entries[i].1, n, window);
    FittingIsWhole(g, entries[i].1, n, window);
    var key := (if i > 0 then "," else "") + Full(g, entries[i].0, n);
    EntryFrom(g, entries, i, room, key, Full(g, entries[i].1, n));
  }

  lemma EntryFrom(g: Graph, entries: seq<(Ref, Ref)>, i: nat, room: nat, key: string, value: string)
    requires i < |entries| && |key| + 1 < room && EntryKey(g, entries, i, room) == Out(true, key)
    requires Repr(g, entries[i].1, Min(MAX_DICT_VAL_LEN, room - |key| - 1)) == Out(true, value)
    ensures Entry(g, entries, i, room) == Out(true, key + ":" + value)
  {
    hide Repr, EntryKey;
  }

  lemma {:induction false} KeyWhole(g: Graph, entries: seq<(Ref, Ref)>, i: nat, n: nat, room: nat)
    requires i < |entries|
    requires var keyRoom := room - (if i > 0 then 1 else 0);
             Fits(g, entries[i].0, n, if keyRoom < MAX_DICT_KEY_LEN then keyRoom else MAX_DICT_KEY_LEN)
    ensures EntryKey(g, entries, i, room) == Out(true, (if i > 0 then "," else "") + Full(g, entries[i].0, n))
    ensures |EntryKey(g, entries, i, room).text| < room
    decreases n, 2, 1
  {
    hide Full, Repr, Fits;
    var keyRoom := room - (if i > 0 then 1 else 0);
    var window := if keyRoom < MAX_DICT_KEY_LEN then keyRoom else MAX_DICT_KEY_LEN;
    FitsLength(g, entries[i].0, n, window);
    FittingIsWhole(g, entries[i].0, n, window);
  }

  lemma FitsLength(g: Graph, r: Ref, n: nat, avail: int)
    requires Fits(g, r, n, avail)
    ensures |Full(g, r, n)| < avail
  {
    hide Full;
  }

  // --- two particular objects ---

  lemma SingletonList(g: Graph, r: Ref, avail: nat)
    requires avail >= 14
    ensures TruncText(1) == "... <len=1>"
    ensures var element := Repr(g, r, Min(MAX_LIST_ELEM_LEN, avail - 1));
            ListRepr(g, [r], true, avail) == Finish(Loop("[" + element.text, 1, !element.ok, 0), 1, "]", avail)
  {
    hide Repr, Finish;
    assert Framing.Decimal(1) == "1";
    var element := Repr(g, r, Min(MAX_LIST_ELEM_LEN, avail - 1));
    assert "" + element.text == element.text;
    assert Element(g, [r], 0, avail - 1) == element;
    assert ListLoop(g, [r], 0, "[", 0, avail) ==
           if element.ok then ListLoop(g, [r], 1, "[" + element.text, 1, avail)
           else Loop("[" + element.text, 1, true, 0);
  }

  // The largest power of two up to n.
  function Floor2(n: nat): (p: nat)
    requires n > 0
    ensures p <= n < 2 * p
  {
    if n == 1 then 1 else 2 * Floor2(n / 2)
  }

  lemma {:induction false} Floor2Next(n: nat)
    requires n > 1
    ensures Floor2(n) == if n == 2 * Floor2(n - 1) then n else Floor2(n - 1)
  {
    if n > 3 {
      if n % 2 == 0 {
        Floor2Next(n / 2);
        assert (n - 1) / 2 == n / 2 - 1;
      } else {
        assert (n - 1) / 2 == n / 2;
      }
    }
  }

  function Wrapped(k: nat): (s: string)
    ensures |s| == 13 + 2 * k && s[0] == '['
  {
    if k == 0 then "[]... <len=1>" else "[" + Wrapped(k - 1) + "]"
  }

  // A list that contains itself: each level of windows adds a pair of brackets, until at
  // 13 bytes more than a power of two they no longer fit and everything inside is cut.
  lemma {:induction false} SelfContainingList(g: Graph, r: Ref, avail: nat)
    requires r in g && g[r] == PyList([r])
    ensures Repr(g, r, avail) ==
            if avail < 14 then Out(false, "")
            else if avail > 64 then Out(true, Wrapped(20))
            else Out(true, Wrapped(avail - 13 - Floor2(avail - 13)))
    decreases avail
  {
    hide ListLoop, TruncText, Finish, Wrapped, Floor2, Element, StrRepr, SubDict, DictRepr, MethodRepr, Named, ObjRepr;
    if avail < 14 {
      assert Framing.Decimal(1) == "1";
      assert |TruncText(1)| >= 11;
    } else {
      var window := Min(MAX_LIST_ELEM_LEN, avail - 1);
      SingletonList(g, r, avail);
      SelfContainingList(g, r, window);
      if window < 14 {
        SelfFinish(avail, 0);
      } else {
        SelfFinish(avail, window - 13 - Floor2(window - 13));
        WrapsNext(avail, window);
      }
    }
  }

  // One level's number of brackets from the number inside it.
  lemma WrapsNext(avail: nat, window: nat)
    requires avail > 14 && window == Min(MAX_LIST_ELEM_LEN, avail - 1)
    ensures var k := window - 13 - Floor2(window - 13);
            && 0 <= k && 14 + 2 * k <= avail
            && (avail > 64 ==> k == 19)
            && (avail <= 64 ==>
                  avail - 13 - Floor2(avail - 13) == if 14 + 2 * k + 1 < avail then k + 1 else 0)
  {
    if avail <= 64 {
      Floor2Next(avail - 13);
    } else {
      assert Floor2(51) == 32;
    }
  }

  // What one level makes of the level inside it.
  lemma SelfFinish(avail: nat, k: nat)
    requires avail >= 14 && TruncText(1) == "... <len=1>"
    ensures Finish(Loop("[" + "", 1, true, 0), 1, "]", avail).text == Wrapped(0)
    ensures 14 + 2 * k <= avail ==>
              Finish(Loop("[" + Wrapped(k), 1, false, 0), 1, "]", avail).text ==
              if 14 + 2 * k + 1 < avail then Wrapped(k + 1) else Wrapped(0)
  {
    hide TruncText;
    assert ("[" + Wrapped(k))[..1] == "[";
  }

  // printf reports an exact fit as success although its last character became a NUL: an
  // object whose text is exactly as long as its window hides the rest of its list from C.
  lemma NulHidesTheRest(g: Graph, r: Ref, typeName: CString, address: CString, avail: nat)
    requires r in g && g[r] == PyOther(typeName, address) && avail >= 80
    ensures var text := "<" + typeName + " 0x" + address + ">";
            && (NUL in ListRepr(g, [r], true, avail).text <==> |text| == MAX_LIST_ELEM_LEN)
            && (|text| == MAX_LIST_ELEM_LEN ==>
                  ListRepr(g, [r], true, avail) == Out(true, "[" + text[..63] + [NUL] + "]"))
  {
    hide ListRepr, TruncText;
    SingletonList(g, r, avail);
  }
}
