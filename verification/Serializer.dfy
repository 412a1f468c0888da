// ctracing_log_serialize.pyx: the recursive serializer on a shared buffer, with nested
// limits and rewinds. Every method does to the buffer what its function in ReprSpec says.
module Serializer {
  import opened Basics
  import opened TraceMessage
  import opened ReprSpec

  // fast_repr calls that can be nested inside one with this much room, itself included.
  function Levels(avail: int): nat {
    if avail < 14 then 1 else if avail <= 64 then avail - 12 else MAX_LEVELS
  }

  const MAX_LEVELS: nat := 53

  method LongRepr(digits: CString, out: TraceMessage) returns (ok: bool)
    requires out.Valid()
    modifies out`writeIndex, out.buffer
    ensures out.Valid()
    ensures var spec := if |digits| <= old(out.AvailSize()) then WriteOut(digits, old(out.AvailSize())) else Out(false, "");
            ok == spec.ok && Grew(old(out.buffer[..]), out.buffer[..], old(out.writeIndex), out.writeIndex,
                                  out.limitIndex, spec.text)
    ensures old(out.Ended()) ==> out.Ended()
  {
    if |digits| <= out.AvailSize() {
      ok := out.Write(digits);
    } else {
      ok := false;
    }
  }

  method FloatRepr(digits: CString, out: TraceMessage) returns (ok: bool)
    requires out.Valid()
    modifies out`writeIndex, out.buffer
    ensures out.Valid()
    ensures var spec := if |digits| + 1 <= old(out.AvailSize()) then Out(true, digits + "f") else Out(false, "");
            ok == spec.ok && Grew(old(out.buffer[..]), out.buffer[..], old(out.writeIndex), out.writeIndex,
                                  out.limitIndex, spec.text)
    ensures old(out.Ended()) ==> out.Ended()
  {
    if |digits| + 1 <= out.AvailSize() {
      ghost var b0, w0 := out.buffer[..], out.writeIndex;
      var done := out.Write(digits);
      ghost var b1, w1 := out.buffer[..], out.writeIndex;
      done := out.Write("f");
      GrewThen(b0, b1, out.buffer[..], w0, w1, out.writeIndex, out.limitIndex, out.limitIndex, digits, "f");
      ok := true;
    } else {
      ok := false;
    }
  }

  method StrOrUnicodeRepr(length: nat, repr: CString, headRepr: CString, out: TraceMessage) returns (ok: bool)
    requires out.Valid()
    modifies out`writeIndex, out.buffer
    ensures out.Valid() && ok == StrRepr(length, repr, headRepr, old(out.AvailSize())).ok
    ensures Grew(old(out.buffer[..]), out.buffer[..], old(out.writeIndex), out.writeIndex, out.limitIndex,
                 StrRepr(length, repr, headRepr, old(out.AvailSize())).text)
    ensures old(out.Ended()) ==> out.Ended()
  {
    hide PrintedWhole, Grew, TruncText;
    GrewNothing(out.buffer[..], out.writeIndex, out.limitIndex);
    var truncated := length > MAX_STR_LEN;
    var shown := if truncated then headRepr else repr;
    var truncatedBuffer := "";
    if truncated || |shown| + 1 > out.AvailSize() {
      truncatedBuffer := TruncText(length);
    }
    if |shown| + |truncatedBuffer| + 1 > out.AvailSize() {
      var reprLen := out.AvailSize() - |truncatedBuffer| - 2;
      if reprLen > 0 {
        ok := out.Printf(shown[..Min(reprLen, |shown|)] + "'" + truncatedBuffer);
      } else {
        ok := false;
      }
    } else {
      ok := out.Printf(shown + truncatedBuffer);
    }
  }

  lemma GrewLength(b0: seq<char>, b1: seq<char>, w0: int, w1: int, limit: int, text: string)
    requires Grew(b0, b1, w0, w1, limit, text)
    ensures 0 <= w0 <= w1 == w0 + |text| <= limit
  {
    assert |b1[..w1]| == w1;
  }

  // One more write after `text` was written at w0.
  method Append(str: string, out: TraceMessage, ghost b0: seq<char>, ghost w0: int, ghost text: string) returns (ok: bool)
    requires out.Valid() && NoNul(str)
    requires Grew(b0, out.buffer[..], w0, out.writeIndex, out.limitIndex, text)
    modifies out`writeIndex, out.buffer
    ensures out.Valid() && out.writeIndex == w0 + |text| + |WriteOut(str, old(out.AvailSize())).text|
    ensures ok == WriteOut(str, old(out.AvailSize())).ok
    ensures Grew(b0, out.buffer[..], w0, out.writeIndex, out.limitIndex, text + WriteOut(str, old(out.AvailSize())).text)
    ensures out.Ended()
  {
    ghost var b1, w1 := out.buffer[..], out.writeIndex;
    ok := out.Write(str);
    GrewThen(b0, b1, out.buffer[..], w0, w1, out.writeIndex, out.limitIndex, out.limitIndex, text,
             WriteOut(str, out.limitIndex - w1).text);
    assert |out.buffer[..][..out.writeIndex]| == out.writeIndex;
  }

  // The same with printf.
  method AppendFormatted(str: string, out: TraceMessage, ghost b0: seq<char>, ghost w0: int, ghost text: string)
    returns (ok: bool)
    requires out.Valid() && NoNul(str)
    requires Grew(b0, out.buffer[..], w0, out.writeIndex, out.limitIndex, text)
    modifies out`writeIndex, out.buffer
    ensures out.Valid() && out.writeIndex == w0 + |text| + |PrintOut(str, old(out.AvailSize())).text|
    ensures ok == PrintOut(str, old(out.AvailSize())).ok
    ensures Grew(b0, out.buffer[..], w0, out.writeIndex, out.limitIndex, text + PrintOut(str, old(out.AvailSize())).text)
    ensures out.Ended()
  {
    ghost var b1, w1 := out.buffer[..], out.writeIndex;
    ok := out.Printf(str);
    GrewThen(b0, b1, out.buffer[..], w0, w1, out.writeIndex, out.limitIndex, out.limitIndex, text,
             PrintOut(str, out.limitIndex - w1).text);
    assert |out.buffer[..][..out.writeIndex]| == out.writeIndex;
  }

  // function_repr and type_repr
  method NamedRepr(prefix: CString, name: CString, least: nat, out: TraceMessage) returns (ok: bool)
    requires out.Valid() && |prefix| + 2 < least
    modifies out`writeIndex, out.buffer
    ensures out.Valid() && ok == Named(prefix, name, least, old(out.AvailSize())).ok
    ensures Grew(old(out.buffer[..]), out.buffer[..], old(out.writeIndex), out.writeIndex, out.limitIndex,
                 Named(prefix, name, least, old(out.AvailSize())).text)
    ensures old(out.Ended()) ==> out.Ended()
  {
    hide Grew;
    ghost var b0, w0, limit := out.buffer[..], out.writeIndex, out.limitIndex;
    GrewNothing(b0, w0, limit);
    if out.AvailSize() < least {
      return false;
    }
    var done := Append(prefix, out, b0, w0, "");
    assert "" + prefix == prefix;
    var prevPos := out.writeIndex;
    done := Append(name, out, b0, w0, prefix);
    if !done {
      ghost var text := prefix + WriteOut(name, limit - prevPos).text;
      GrewRewound(b0, out.buffer[..], w0, out.writeIndex, limit, text, prevPos);
      assert text[..|prefix|] == prefix;
      out.Rewind(prevPos);
      done := Append("?>", out, b0, w0, prefix);
    } else {
      done := Append(">", out, b0, w0, prefix + name);
    }
    ok := true;
  }

  // The part of method_repr that may run out of room.
  method MethodBody(funcName: CString, className: Option<CString>, selfAddress: Option<CString>, out: TraceMessage)
    returns (ok: bool)
    requires out.Valid()
    modifies out`writeIndex, out.buffer
    ensures out.Valid()
    ensures var avail := old(out.AvailSize());
            var spec := Then(WriteOut(funcName, avail), avail, (left: nat) => MethodTail(className, selfAddress, left));
            ok == spec.ok && Grew(old(out.buffer[..]), out.buffer[..], old(out.writeIndex), out.writeIndex,
                                  out.limitIndex, spec.text)
    ensures ok ==> out.Ended()
  {
    hide Grew, MethodTail, TraceMessage.Ended;
    ghost var b0, w0, avail := out.buffer[..], out.writeIndex, out.limitIndex - out.writeIndex;
    GrewNothing(b0, w0, out.limitIndex);
    ok := Append(funcName, out, b0, w0, "");
    ghost var text := "" + WriteOut(funcName, avail).text;
    assert text == WriteOut(funcName, avail).text;
    if ok {
      ok := MethodTailRepr(className, selfAddress, out, b0, w0, text);
    }
  }

  method MethodTailRepr(className: Option<CString>, selfAddress: Option<CString>, out: TraceMessage,
                        ghost b0: seq<char>, ghost w0: int, ghost head: string)
    returns (ok: bool)
    requires out.Valid() && out.writeIndex == w0 + |head|
    requires Grew(b0, out.buffer[..], w0, out.writeIndex, out.limitIndex, head)
    modifies out`writeIndex, out.buffer
    ensures out.Valid()
    ensures var spec := MethodTail(className, selfAddress, old(out.AvailSize()));
            ok == spec.ok && Grew(b0, out.buffer[..], w0, out.writeIndex, out.limitIndex, head + spec.text)
    ensures ok ==> out.Ended()
  {
    hide TraceMessage.Ended, Grew, OwnerPart;
    ghost var avail := out.AvailSize();
    ok := WriteOwner(className, selfAddress, out, b0, w0, head);
    ghost var text := head + OwnerPart(className, selfAddress, avail).text;
    if ok {
      ghost var left := out.AvailSize();
      ok := Append(">", out, b0, w0, text);
      text := text + WriteOut(">", left).text;
    }
    assert text == head + MethodTail(className, selfAddress, avail).text;
  }

  method WriteOwner(className: Option<CString>, selfAddress: Option<CString>, out: TraceMessage,
                    ghost b0: seq<char>, ghost w0: int, ghost head: string)
    returns (ok: bool)
    requires out.Valid() && out.writeIndex == w0 + |head|
    requires Grew(b0, out.buffer[..], w0, out.writeIndex, out.limitIndex, head)
    modifies out`writeIndex, out.buffer
    ensures var spec := OwnerPart(className, selfAddress, old(out.AvailSize()));
            && out.Valid() && out.writeIndex == w0 + |head + spec.text| && ok == spec.ok
            && Grew(b0, out.buffer[..], w0, out.writeIndex, out.limitIndex, head + spec.text)
  {
    hide TraceMessage.Ended, Grew, ClassPart;
    ghost var avail := out.AvailSize();
    ok := WriteClass(className, out, b0, w0, head);
    ghost var text := head + ClassPart(className, avail).text;
    if selfAddress.Some? && ok {
      ghost var left := out.AvailSize();
      ok := AppendFormatted(" obj 0x" + selfAddress.value, out, b0, w0, text);
      text := text + SelfPart(selfAddress, left).text;
    }
    assert text == head + OwnerPart(className, selfAddress, avail).text;
  }

  method WriteClass(className: Option<CString>, out: TraceMessage, ghost b0: seq<char>, ghost w0: int, ghost head: string)
    returns (ok: bool)
    requires out.Valid() && out.writeIndex == w0 + |head|
    requires Grew(b0, out.buffer[..], w0, out.writeIndex, out.limitIndex, head)
    modifies out`writeIndex, out.buffer
    ensures var spec := ClassPart(className, old(out.AvailSize()));
            && out.Valid() && out.writeIndex == w0 + |head + spec.text| && ok == spec.ok
            && Grew(b0, out.buffer[..], w0, out.writeIndex, out.limitIndex, head + spec.text)
  {
    hide Grew;
    ok := true;
    if className.Some? {
      ghost var avail := out.AvailSize();
      ghost var text := head + WriteOut(" cls ", avail).text;
      ok := Append(" cls ", out, b0, w0, head);
      if ok {
        ghost var left := out.AvailSize();
        ok := Append(className.value, out, b0, w0, text);
        text := text + WriteOut(className.value, left).text;
      }
      assert text == head + ClassPart(className, avail).text;
    } else {
      assert head == head + "";
    }
  }

  method MethodRepr(funcName: CString, className: Option<CString>, selfAddress: Option<CString>, out: TraceMessage)
    returns (ok: bool)
    requires out.Valid()
    modifies out`writeIndex, out.buffer
    ensures out.Valid() && ok == ReprSpec.MethodRepr(funcName, className, selfAddress, old(out.AvailSize())).ok
    ensures Grew(old(out.buffer[..]), out.buffer[..], old(out.writeIndex), out.writeIndex, out.limitIndex,
                 ReprSpec.MethodRepr(funcName, className, selfAddress, old(out.AvailSize())).text)
    ensures old(out.Ended()) ==> out.Ended()
  {
    hide MethodTail;
    if out.AvailSize() < 11 {
      return false;
    }
    ghost var b0, w0, limit, avail := out.buffer[..], out.writeIndex, out.limitIndex, out.AvailSize() - 6;
    var success := out.Write("<meth ");
    var prevPos := out.writeIndex;
    ghost var b1 := out.buffer[..];
    success := MethodBody(funcName, className, selfAddress, out);
    ghost var body := Then(WriteOut(funcName, avail), avail, (left: nat) => MethodTail(className, selfAddress, left));
    if !success {
      GrewRewound(b1, out.buffer[..], prevPos, out.writeIndex, limit, body.text, prevPos);
      out.Rewind(prevPos);
      GrewThen(b0, b1, out.buffer[..], w0, prevPos, prevPos, limit, limit, "<meth ", "");
      success := Append("?>", out, b0, w0, "<meth ");
    } else {
      GrewThen(b0, b1, out.buffer[..], w0, prevPos, out.writeIndex, limit, limit, "<meth ", body.text);
    }
    ok := true;
  }

  method ObjRepr(typeName: CString, address: CString, out: TraceMessage) returns (ok: bool)
    requires out.Valid()
    modifies out`writeIndex, out.buffer
    ensures out.Valid() && ok == ReprSpec.ObjRepr(typeName, address, old(out.AvailSize())).ok
    ensures Grew(old(out.buffer[..]), out.buffer[..], old(out.writeIndex), out.writeIndex, out.limitIndex,
                 ReprSpec.ObjRepr(typeName, address, old(out.AvailSize())).text)
    ensures out.Ended()
  {
    ok := out.Printf("<" + typeName + " 0x" + address + ">");
  }

  // What follows the loops of list_or_tuple_repr and dict_repr.
  method FinishRepr(i: nat, count: nat, truncated: bool, spareOfs: int, close: CString, out: TraceMessage,
                    ghost b0: seq<char>, ghost w0: int, ghost loop: Loop)
    requires out.Valid() && out.writeIndex == w0 + |loop.text| && loop.spare <= |loop.text|
    requires Grew(b0, out.buffer[..], w0, out.writeIndex, out.limitIndex, loop.text)
    requires i == loop.last && truncated == loop.truncated
    requires count == 0 ==> !truncated && out.AvailSize() > |close|
    requires count > 0 ==> spareOfs == w0 + loop.spare
    modifies out`writeIndex, out.buffer
    ensures out.Valid()
    ensures Grew(b0, out.buffer[..], w0, out.writeIndex, out.limitIndex,
                 Finish(loop, count, close, out.limitIndex - w0).text)
    ensures out.Ended()
  {
    hide TraceMessage.Ended, Grew, TruncText, CutOff;
    var done := Append(close, out, b0, w0, loop.text);
    var cut := truncated || !done;
    if i + 1 < count || cut {
      ghost var text := loop.text + WriteOut(close, out.limitIndex - w0 - |loop.text|).text;
      WriteLength(spareOfs, close, TruncText(count), out, b0, w0, text, loop.spare);
    }
  }

  // The suffix, over the last elements if there is no room for it after them.
  method WriteLength(spareOfs: int, close: CString, truncatedBuffer: CString, out: TraceMessage,
                     ghost b0: seq<char>, ghost w0: int, ghost text: string, ghost spare: nat)
    requires out.Valid() && out.writeIndex == w0 + |text| && spare <= |text| && spareOfs == w0 + spare
    requires Grew(b0, out.buffer[..], w0, out.writeIndex, out.limitIndex, text)
    requires NoNul(close + truncatedBuffer)
    modifies out`writeIndex, out.buffer
    ensures out.Valid() && out.Ended()
    ensures Grew(b0, out.buffer[..], w0, out.writeIndex, out.limitIndex,
                 CutOff(text, spare, close, truncatedBuffer, out.limitIndex - w0))
  {
    hide TraceMessage.Ended, Grew, NoNul;
    GrewLength(b0, out.buffer[..], w0, out.writeIndex, out.limitIndex, text);
    var done;
    if out.AvailSize() < |truncatedBuffer| {
      GrewRewound(b0, out.buffer[..], w0, out.writeIndex, out.limitIndex, text, spareOfs);
      out.Rewind(spareOfs);
      done := AppendFormatted(close + truncatedBuffer, out, b0, w0, text[..spare]);
    } else {
      done := Append(truncatedBuffer, out, b0, w0, text);
    }
  }

  // The branches of fast_repr that do not come back to it.
  method LeafRepr(o: PyObj, out: TraceMessage) returns (ok: bool)
    requires out.Valid() && !o.PyDict? && !o.PySubDict? && !o.PyList? && !o.PyTuple?
    modifies out`writeIndex, out.buffer
    ensures out.Valid() && ok == LeafOut(o, old(out.AvailSize())).ok
    ensures Grew(old(out.buffer[..]), out.buffer[..], old(out.writeIndex), out.writeIndex, out.limitIndex,
                 LeafOut(o, old(out.AvailSize())).text)
    ensures old(out.Ended()) ==> out.Ended()
  {
    hide TraceMessage.Ended, Grew, WriteOut, PrintOut, Named, StrRepr, ReprSpec.MethodRepr, ReprSpec.ObjRepr;
    match o
    case PyInt(digits) => ok := out.Printf(digits);
    case PyLong(digits) => ok := LongRepr(digits, out);
    case PyFloat(digits) => ok := FloatRepr(digits, out);
    case PyStr(length, repr, headRepr) => ok := StrOrUnicodeRepr(length, repr, headRepr, out);
    case PyWord(word) => ok := out.Write(word);
    case PyFunction(name) => ok := NamedRepr("<func ", name, 9, out);
    case PyMethod(funcName, className, selfAddress) => ok := MethodRepr(funcName, className, selfAddress, out);
    case PyType(name) => ok := NamedRepr("<type ", name, 9, out);
    case PyOther(typeName, address) => ok := ObjRepr(typeName, address, out);
  }

  method FastRepr(g: Graph, r: Ref, out: TraceMessage, ghost depth: nat) returns (ok: bool)
    requires out.Valid() && depth + Levels(out.AvailSize()) <= MAX_LEVELS
    modifies out`writeIndex, out`limitIndex, out.buffer
    ensures out.Valid() && out.limitIndex == old(out.limitIndex) && ok == Repr(g, r, old(out.AvailSize())).ok
    ensures Grew(old(out.buffer[..]), out.buffer[..], old(out.writeIndex), out.writeIndex, out.limitIndex,
                 Repr(g, r, old(out.AvailSize())).text)
    ensures old(out.Ended()) ==> out.Ended()
    ensures out.limitIndex == out.capacity && old(out.buffer[out.writeIndex]) == NUL ==> out.buffer[out.writeIndex] == NUL
    decreases out.AvailSize(), 4
  {
    hide TraceMessage.Ended, Grew, WriteOut, LeafOut, ListRepr, SubDict, ReprSpec.DictRepr, Levels;
    out.EndsInNul();
    if r !in g {
      ok := out.Write("<null>");
    } else {
      match g[r]
      case PyDict(entries) => ok := DictRepr(g, entries, out, depth);
      case PySubDict(entries, typeName, address) => ok := SubDictRepr(g, entries, typeName, address, out, depth);
      case PyList(items) => ok := ListOrTupleRepr(g, items, true, out, depth);
      case PyTuple(items) => ok := ListOrTupleRepr(g, items, false, out, depth);
      case o => ok := LeafRepr(o, out);
    }
    out.EndsInNul();
  }

  method SubDictRepr(g: Graph, entries: seq<(Ref, Ref)>, typeName: CString, address: CString, out: TraceMessage,
                     ghost depth: nat)
    returns (ok: bool)
    requires out.Valid() && depth + Levels(out.AvailSize()) <= MAX_LEVELS
    modifies out`writeIndex, out`limitIndex, out.buffer
    ensures out.Valid() && out.limitIndex == old(out.limitIndex)
    ensures ok == SubDict(g, entries, typeName, address, old(out.AvailSize())).ok
    ensures Grew(old(out.buffer[..]), out.buffer[..], old(out.writeIndex), out.writeIndex, out.limitIndex,
                 SubDict(g, entries, typeName, address, old(out.AvailSize())).text)
    ensures old(out.Ended()) ==> out.Ended()
    decreases out.AvailSize(), 3
  {
    hide Grew, ReprSpec.ObjRepr, ReprSpec.DictRepr;
    ghost var b0, w0, avail := out.buffer[..], out.writeIndex, out.AvailSize();
    ok := ObjRepr(typeName, address, out);
    ghost var head := ReprSpec.ObjRepr(typeName, address, avail);
    if !ok {
      return false;
    }
    ghost var b1, w1 := out.buffer[..], out.writeIndex;
    GrewLength(b0, b1, w0, w1, out.limitIndex, head.text);
    ok := DictRepr(g, entries, out, depth);
    GrewThen(b0, b1, out.buffer[..], w0, w1, out.writeIndex, out.limitIndex, out.limitIndex, head.text,
             ReprSpec.DictRepr(g, entries, avail - |head.text|).text);
  }

  method ListOrTupleRepr(g: Graph, items: seq<Ref>, isList: bool, out: TraceMessage, ghost depth: nat) returns (ok: bool)
    requires out.Valid() && depth + Levels(out.AvailSize()) <= MAX_LEVELS
    modifies out`writeIndex, out`limitIndex, out.buffer
    ensures out.Valid() && out.limitIndex == old(out.limitIndex)
    ensures ok == ListRepr(g, items, isList, old(out.AvailSize())).ok
    ensures Grew(old(out.buffer[..]), out.buffer[..], old(out.writeIndex), out.writeIndex, out.limitIndex,
                 ListRepr(g, items, isList, old(out.AvailSize())).text)
    ensures old(out.Ended()) ==> out.Ended()
    decreases out.AvailSize(), 2
  {
    hide Grew, Finish, ListLoop, Open, Close, Levels, TruncText, TraceMessage.Ended;
    ghost var b0, w0, avail := out.buffer[..], out.writeIndex, out.AvailSize();
    GrewNothing(b0, w0, out.limitIndex);
    if |TruncText(|items|)| + 3 > out.AvailSize() {
      return false;
    }
    ok := Append(Open(isList), out, b0, w0, "");
    assert "" + Open(isList) == Open(isList);
    ghost var loop := ListLoop(g, items, 0, Open(isList), 0, avail);
    var i, truncated, spareOfs := ListElements(g, items, out, depth, b0, w0, Open(isList));
    FinishRepr(i, |items|, truncated, spareOfs, Close(isList), out, b0, w0, loop);
    ok := true;
  }

  // The loop of list_or_tuple_repr; i keeps the index of its last round.
  method ListElements(g: Graph, items: seq<Ref>, out: TraceMessage, ghost depth: nat,
                   ghost b0: seq<char>, ghost w0: int, ghost open: string)
    returns (i: nat, truncated: bool, spareOfs: int)
    requires out.Valid() && |open| == 1 && out.writeIndex == w0 + 1
    requires |TruncText(|items|)| + 2 <= out.AvailSize() && depth + Levels(out.limitIndex - w0) <= MAX_LEVELS
    requires Grew(b0, out.buffer[..], w0, out.writeIndex, out.limitIndex, open)
    modifies out`writeIndex, out`limitIndex, out.buffer
    ensures out.Valid() && out.limitIndex == old(out.limitIndex)
    ensures var loop := ListLoop(g, items, 0, open, 0, out.limitIndex - w0);
            && out.writeIndex == w0 + |loop.text| && i == loop.last && truncated == loop.truncated
            && (items == [] ==> !truncated && loop.text == open)
            && (items != [] ==> spareOfs == w0 + loop.spare)
            && Grew(b0, out.buffer[..], w0, out.writeIndex, out.limitIndex, loop.text)
    decreases out.AvailSize() + 1, 1
  {
    hide Grew, Element, Repr, TruncText;
    var truncatedLen := |TruncText(|items|)|;
    ghost var limit, avail := out.limitIndex, out.limitIndex - w0;
    var next, count := 0, Min(|items|, MAX_LIST_ELEMS);
    i, truncated, spareOfs := 0, false, 0;
    ghost var text: string, spare: nat := open, 0;
    while next < count
      invariant 0 <= next <= count && i == (if next == 0 then 0 else next - 1) && !truncated
      invariant out.Valid() && out.limitIndex == limit && out.writeIndex == w0 + |text|
      invariant 0 < |text| <= avail && spare <= |text|
      invariant Grew(b0, out.buffer[..], w0, out.writeIndex, limit, text)
      invariant ListLoop(g, items, 0, open, 0, avail) == ListLoop(g, items, next, text, spare, avail)
      invariant if next > 0 then spareOfs == w0 + spare else text == open
      decreases count - next
    {
      i := next;
      if out.AvailSize() >= truncatedLen + 2 {
        spareOfs := out.writeIndex;
        spare := |text|;
      }
      ghost var before := text;
      var done := ElementRepr(g, items, i, out, depth + 1, b0, w0, before);
      text := before + Element(g, items, i, avail - |before|).text;
      if !done {
        truncated := true;
        break;
      }
      next := next + 1;
    }
  }

  method ElementRepr(g: Graph, items: seq<Ref>, i: nat, out: TraceMessage, ghost depth: nat,
                     ghost b0: seq<char>, ghost w0: int, ghost text: string)
    returns (ok: bool)
    requires out.Valid() && i < |items| && depth + Levels(Min(MAX_LIST_ELEM_LEN, out.AvailSize())) <= MAX_LEVELS
    requires Grew(b0, out.buffer[..], w0, out.writeIndex, out.limitIndex, text)
    modifies out`writeIndex, out`limitIndex, out.buffer
    ensures var spec := Element(g, items, i, old(out.AvailSize()));
            && out.Valid() && out.limitIndex == old(out.limitIndex) && ok == spec.ok
            && out.writeIndex == w0 + |text + spec.text|
            && Grew(b0, out.buffer[..], w0, out.writeIndex, out.limitIndex, text + spec.text)
    decreases out.AvailSize(), 6
  {
    hide Grew, CommaElement;
    ghost var b1, w1, window := out.buffer[..], out.writeIndex, Min(MAX_LIST_ELEM_LEN, out.AvailSize());
    var lastLimit := out.Limit(MAX_LIST_ELEM_LEN);
    ok := CommaAndElement(g, items, i, out, depth);
    ghost var spec := CommaElement(g, items, i, window);
    GrewThen(b0, b1, out.buffer[..], w0, w1, out.writeIndex, lastLimit, out.limitIndex, text, spec.text);
    out.Unlimit(lastLimit);
    GrewLength(b0, out.buffer[..], w0, out.writeIndex, out.limitIndex, text + spec.text);
  }

  method CommaAndElement(g: Graph, items: seq<Ref>, i: nat, out: TraceMessage, ghost depth: nat) returns (ok: bool)
    requires out.Valid() && i < |items| && depth + Levels(out.AvailSize()) <= MAX_LEVELS
    modifies out`writeIndex, out`limitIndex, out.buffer
    ensures out.Valid() && out.limitIndex == old(out.limitIndex)
    ensures ok == CommaElement(g, items, i, old(out.AvailSize())).ok
    ensures Grew(old(out.buffer[..]), out.buffer[..], old(out.writeIndex), out.writeIndex, out.limitIndex,
                 CommaElement(g, items, i, old(out.AvailSize())).text)
    decreases out.AvailSize(), 5
  {
    hide Grew, Repr;
    ghost var b0, w0, window := out.buffer[..], out.writeIndex, out.AvailSize();
    if i == 0 {
      ok := FastRepr(g, items[i], out, depth);
      assert "" + Repr(g, items[i], window).text == Repr(g, items[i], window).text;
      return;
    }
    ok := out.Write(",");
    ghost var comma, b1, w1 := WriteOut(",", window), out.buffer[..], out.writeIndex;
    GrewLength(b0, b1, w0, w1, out.limitIndex, comma.text);
    if ok {
      ok := FastRepr(g, items[i], out, depth);
      GrewThen(b0, b1, out.buffer[..], w0, w1, out.writeIndex, out.limitIndex, out.limitIndex, comma.text,
               Repr(g, items[i], window - |comma.text|).text);
    }
  }

  method DictRepr(g: Graph, entries: seq<(Ref, Ref)>, out: TraceMessage, ghost depth: nat) returns (ok: bool)
    requires out.Valid() && depth + Levels(out.AvailSize()) <= MAX_LEVELS
    modifies out`writeIndex, out`limitIndex, out.buffer
    ensures out.Valid() && out.limitIndex == old(out.limitIndex)
    ensures ok == ReprSpec.DictRepr(g, entries, old(out.AvailSize())).ok
    ensures Grew(old(out.buffer[..]), out.buffer[..], old(out.writeIndex), out.writeIndex, out.limitIndex,
                 ReprSpec.DictRepr(g, entries, old(out.AvailSize())).text)
    ensures old(out.Ended()) ==> out.Ended()
    decreases out.AvailSize(), 2
  {
    hide Grew, Finish, DictLoop;
    ghost var b0, w0, avail := out.buffer[..], out.writeIndex, out.AvailSize();
    GrewNothing(b0, w0, out.limitIndex);
    if |TruncText(|entries|)| + 3 > out.AvailSize() {
      return false;
    }
    ok := Append("{", out, b0, w0, "");
    assert "" + "{" == "{";
    ghost var loop := DictLoop(g, entries, 0, "{", 0, avail);
    var i, truncated, spareOfs := DictEntries(g, entries, out, depth, b0, w0, "{");
    FinishRepr(i, |entries|, truncated, spareOfs, "}", out, b0, w0, loop);
    ok := true;
  }

  // The loop of dict_repr.
  method DictEntries(g: Graph, entries: seq<(Ref, Ref)>, out: TraceMessage, ghost depth: nat,
                   ghost b0: seq<char>, ghost w0: int, ghost open: string)
    returns (i: nat, truncated: bool, spareOfs: int)
    requires out.Valid() && |open| == 1 && out.writeIndex == w0 + 1
    requires |TruncText(|entries|)| + 2 <= out.AvailSize() && depth + Levels(out.limitIndex - w0) <= MAX_LEVELS
    requires Grew(b0, out.buffer[..], w0, out.writeIndex, out.limitIndex, open)
    modifies out`writeIndex, out`limitIndex, out.buffer
    ensures out.Valid() && out.limitIndex == old(out.limitIndex)
    ensures var loop := DictLoop(g, entries, 0, open, 0, out.limitIndex - w0);
            && out.writeIndex == w0 + |loop.text| && i == loop.last && truncated == loop.truncated
            && (entries == [] ==> !truncated && loop.text == open)
            && (entries != [] ==> spareOfs == w0 + loop.spare)
            && Grew(b0, out.buffer[..], w0, out.writeIndex, out.limitIndex, loop.text)
    decreases out.AvailSize() + 1, 1
  {
    hide Grew, Entry, Repr, TruncText;
    var truncatedLen := |TruncText(|entries|)|;
    ghost var limit, avail := out.limitIndex, out.limitIndex - w0;
    var next, count := 0, Min(|entries|, MAX_DICT_ELEMS);
    i, truncated, spareOfs := 0, false, 0;
    ghost var text: string, spare: nat := open, 0;
    while next < count
      invariant 0 <= next <= count && i == (if next == 0 then 0 else next - 1) && !truncated
      invariant out.Valid() && out.limitIndex == limit && out.writeIndex == w0 + |text|
      invariant 0 < |text| <= avail && spare <= |text|
      invariant Grew(b0, out.buffer[..], w0, out.writeIndex, limit, text)
      invariant DictLoop(g, entries, 0, open, 0, avail) == DictLoop(g, entries, next, text, spare, avail)
      invariant if next > 0 then spareOfs == w0 + spare else text == open
      decreases count - next
    {
      i := next;
      if out.AvailSize() >= truncatedLen + 2 {
        spareOfs := out.writeIndex;
        spare := |text|;
      }
      ghost var before := text;
      var done := EntryRepr(g, entries, i, out, depth + 1, b0, w0, before);
      text := before + Entry(g, entries, i, avail - |before|).text;
      if !done {
        truncated := true;
        break;
      }
      next := next + 1;
    }
  }

  method EntryRepr(g: Graph, entries: seq<(Ref, Ref)>, i: nat, out: TraceMessage, ghost depth: nat,
                   ghost b0: seq<char>, ghost w0: int, ghost head: string)
    returns (ok: bool)
    requires out.Valid() && i < |entries| && depth + Levels(Min(MAX_DICT_VAL_LEN, out.AvailSize())) <= MAX_LEVELS
    requires Grew(b0, out.buffer[..], w0, out.writeIndex, out.limitIndex, head)
    modifies out`writeIndex, out`limitIndex, out.buffer
    ensures var spec := Entry(g, entries, i, old(out.AvailSize()));
            && out.Valid() && out.limitIndex == old(out.limitIndex) && ok == spec.ok
            && out.writeIndex == w0 + |head + spec.text|
            && Grew(b0, out.buffer[..], w0, out.writeIndex, out.limitIndex, head + spec.text)
    decreases out.AvailSize(), 7
  {
    hide Grew, Entry;
    ghost var b1, w1, spec := out.buffer[..], out.writeIndex, Entry(g, entries, i, out.AvailSize());
    ok := KeyAndValue(g, entries, i, out, depth);
    GrewThen(b0, b1, out.buffer[..], w0, w1, out.writeIndex, out.limitIndex, out.limitIndex, head, spec.text);
    GrewLength(b0, out.buffer[..], w0, out.writeIndex, out.limitIndex, head + spec.text);
  }

  method KeyAndValue(g: Graph, entries: seq<(Ref, Ref)>, i: nat, out: TraceMessage, ghost depth: nat) returns (ok: bool)
    requires out.Valid() && i < |entries| && depth + Levels(Min(MAX_DICT_VAL_LEN, out.AvailSize())) <= MAX_LEVELS
    modifies out`writeIndex, out`limitIndex, out.buffer
    ensures var spec := Entry(g, entries, i, old(out.AvailSize()));
            && out.Valid() && out.limitIndex == old(out.limitIndex) && ok == spec.ok
            && Grew(old(out.buffer[..]), out.buffer[..], old(out.writeIndex), out.writeIndex, out.limitIndex, spec.text)
    decreases out.AvailSize(), 6, 1
  {
    hide Grew, Repr, EntryKey;
    ghost var b0, w0, room := out.buffer[..], out.writeIndex, out.AvailSize();
    ok := KeyRepr(g, entries, i, out, depth);
    ghost var text := EntryKey(g, entries, i, room).text;
    if !ok {
      return false;
    }
    ok := Append(":", out, b0, w0, text);
    text := text + WriteOut(":", room - |text|).text;
    if !ok {
      return false;
    }
    ok := WindowedRepr(g, entries[i].1, MAX_DICT_VAL_LEN, out, depth, b0, w0, text);
  }

  method KeyRepr(g: Graph, entries: seq<(Ref, Ref)>, i: nat, out: TraceMessage, ghost depth: nat) returns (ok: bool)
    requires out.Valid() && i < |entries| && depth + Levels(Min(MAX_DICT_VAL_LEN, out.AvailSize())) <= MAX_LEVELS
    modifies out`writeIndex, out`limitIndex, out.buffer
    ensures var spec := EntryKey(g, entries, i, old(out.AvailSize()));
            && out.Valid() && out.limitIndex == old(out.limitIndex) && ok == spec.ok
            && out.writeIndex == old(out.writeIndex) + |spec.text|
            && Grew(old(out.buffer[..]), out.buffer[..], old(out.writeIndex), out.writeIndex, out.limitIndex, spec.text)
    decreases out.AvailSize(), 6, 0
  {
    hide Grew, Repr;
    ghost var b0, w0, room := out.buffer[..], out.writeIndex, out.AvailSize();
    GrewNothing(b0, w0, out.limitIndex);
    ghost var text := "";
    if i > 0 {
      ok := Append(",", out, b0, w0, "");
      text := WriteOut(",", room).text;
      assert "" + text == text;
      if !ok {
        return false;
      }
    }
    ok := WindowedRepr(g, entries[i].0, MAX_DICT_KEY_LEN, out, depth, b0, w0, text);
  }

  // fast_repr between limit and unlimit, after `text` was written at w0.
  method WindowedRepr(g: Graph, r: Ref, size: nat, out: TraceMessage, ghost depth: nat,
                      ghost b0: seq<char>, ghost w0: int, ghost text: string)
    returns (ok: bool)
    requires out.Valid() && depth + Levels(Min(size, out.AvailSize())) <= MAX_LEVELS
    requires Grew(b0, out.buffer[..], w0, out.writeIndex, out.limitIndex, text)
    modifies out`writeIndex, out`limitIndex, out.buffer
    ensures var spec := Repr(g, r, Min(size, old(out.AvailSize())));
            && out.Valid() && out.limitIndex == old(out.limitIndex) && ok == spec.ok
            && out.writeIndex == w0 + |text + spec.text|
            && Grew(b0, out.buffer[..], w0, out.writeIndex, out.limitIndex, text + spec.text)
    decreases out.AvailSize(), 5
  {
    hide Grew, Repr;
    ghost var b1, w1, window := out.buffer[..], out.writeIndex, Min(size, out.AvailSize());
    var lastLimit := out.Limit(size);
    ok := FastRepr(g, r, out, depth);
    ghost var spec := Repr(g, r, window);
    GrewThen(b0, b1, out.buffer[..], w0, w1, out.writeIndex, lastLimit, out.limitIndex, text, spec.text);
    out.Unlimit(lastLimit);
    GrewLength(b0, out.buffer[..], w0, out.writeIndex, out.limitIndex, text + spec.text);
  }
}
