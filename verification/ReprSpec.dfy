// What the truncating serializer writes, as a function of the object graph and of the
// room there is. Objects refer to each other by reference, so the graph may be cyclic;
// a reference to nothing is NULL.
module ReprSpec {
  import opened Basics
  import opened TraceMessage
  import Framing

  const MAX_STR_LEN: nat := 64
  const MAX_LIST_ELEM_LEN: nat := 64
  const MAX_LIST_ELEMS: nat := 4
  const MAX_DICT_ELEMS: nat := 4
  const MAX_DICT_KEY_LEN: nat := 32
  const MAX_DICT_VAL_LEN: nat := 64

  type CString = s: string | NoNul(s)

  type Ref = nat

  // Texts that Python computes (digits, reprs, names, addresses) are part of the object.
  datatype PyObj =
    | PyInt(digits: CString)
    | PyLong(digits: CString)
    | PyFloat(digits: CString)
    | PyStr(length: nat, repr: CString, headRepr: CString)   // headRepr: of the first 64 characters
    | PyDict(entries: seq<(Ref, Ref)>)
    | PySubDict(entries: seq<(Ref, Ref)>, typeName: CString, address: CString)
    | PyList(items: seq<Ref>)
    | PyTuple(items: seq<Ref>)
    | PyWord(word: CString)                                  // None, True, False
    | PyFunction(name: CString)
    | PyMethod(funcName: CString, className: Option<CString>, selfAddress: Option<CString>)
    | PyType(name: CString)
    | PyOther(typeName: CString, address: CString)

  type Graph = map<Ref, PyObj>

  lemma DecimalNoNul(n: nat)
    ensures NoNul(Framing.Decimal(n))
  {
    var s := Framing.Decimal(n);
    assert forall i | 0 <= i < |s| :: Framing.IsDigit(s[i]);
  }

  // init_trunc_len_str
  function TruncText(n: nat): (s: CString)
    ensures |s| >= 11
  {
    DecimalNoNul(n);
    "... <len=" + Framing.Decimal(n) + ">"
  }

  // --- leaves ---

  function StrRepr(length: nat, repr: CString, headRepr: CString, avail: nat): (out: Out)
    ensures |out.text| <= avail
  {
    var long := length > MAX_STR_LEN;
    var shown := if long then headRepr else repr;
    var truncated := long || |shown| + 1 > avail;
    var suffix: string := if truncated then TruncText(length) else "";
    if |shown| + |suffix| + 1 > avail then
      var kept := avail - |suffix| - 2;
      if kept > 0 then PrintOut(shown[..Min(kept, |shown|)] + "'" + suffix, avail) else Out(false, "")
    else PrintOut(shown + suffix, avail)
  }

  // "<func name>" and the like: the name in full or a question mark.
  function Named(prefix: CString, name: CString, least: nat, avail: nat): (out: Out)
    requires |prefix| + 2 < least
    ensures |out.text| <= avail
  {
    if avail < least then Out(false, "")
    else
      var room := avail - |prefix|;
      if WriteOut(name, room).ok then Out(true, prefix + name + WriteOut(">", room - |name|).text)
      else Out(true, prefix + WriteOut("?>", room).text)
  }

  // One after the other, stopping at the first failure.
  function Then(first: Out, avail: nat, next: nat -> Out): (out: Out)
    requires |first.text| <= avail
    ensures (forall left :: |next(left).text| <= left) ==> |out.text| <= avail
  {
    if !first.ok then first
    else
      var second := next(avail - |first.text|);
      Out(second.ok, first.text + second.text)
  }

  function ClassPart(className: Option<CString>, avail: nat): (out: Out)
    ensures |out.text| <= avail
  {
    if className.None? then Out(true, "")
    else Then(WriteOut(" cls ", avail), avail, (left: nat) => WriteOut(className.value, left))
  }

  function SelfPart(selfAddress: Option<CString>, avail: nat): (out: Out)
    ensures |out.text| <= avail
  {
    if selfAddress.None? then Out(true, "") else PrintOut(" obj 0x" + selfAddress.value, avail)
  }

  function OwnerPart(className: Option<CString>, selfAddress: Option<CString>, avail: nat): (out: Out)
    ensures |out.text| <= avail
  {
    Then(ClassPart(className, avail), avail, (left: nat) => SelfPart(selfAddress, left))
  }

  function MethodTail(className: Option<CString>, selfAddress: Option<CString>, avail: nat): (out: Out)
    ensures |out.text| <= avail
  {
    Then(OwnerPart(className, selfAddress, avail), avail, (left: nat) => WriteOut(">", left))
  }

  function MethodRepr(funcName: CString, className: Option<CString>, selfAddress: Option<CString>, avail: nat): (out: Out)
    ensures |out.text| <= avail
  {
    if avail < 11 then Out(false, "")
    else
      var body := Then(WriteOut(funcName, avail - 6), avail - 6, (left: nat) => MethodTail(className, selfAddress, left));
      if body.ok then Out(true, "<meth " + body.text) else Out(true, "<meth " + WriteOut("?>", avail - 6).text)
  }

  function ObjRepr(typeName: CString, address: CString, avail: nat): (out: Out)
    ensures |out.text| <= avail
  {
    PrintOut("<" + typeName + " 0x" + address + ">", avail)
  }

  // Objects that do not contain others.
  function LeafOut(o: PyObj, avail: nat): (out: Out)
    requires !o.PyDict? && !o.PySubDict? && !o.PyList? && !o.PyTuple?
    ensures |out.text| <= avail
  {
    hide Named, MethodRepr, ObjRepr, StrRepr;
    match o
    case PyInt(digits) => PrintOut(digits, avail)
    case PyLong(digits) => if |digits| <= avail then WriteOut(digits, avail) else Out(false, "")
    case PyFloat(digits) => if |digits| + 1 <= avail then Out(true, digits + "f") else Out(false, "")
    case PyStr(length, repr, headRepr) => StrRepr(length, repr, headRepr, avail)
    case PyWord(word) => WriteOut(word, avail)
    case PyFunction(name) => Named("<func ", name, 9, avail)
    case PyMethod(funcName, className, selfAddress) => MethodRepr(funcName, className, selfAddress, avail)
    case PyType(name) => Named("<type ", name, 9, avail)
    case PyOther(typeName, address) => ObjRepr(typeName, address, avail)
  }

  // --- containers ---

  // A loop over elements: the text so far (the opening bracket included), where the
  // closing bracket and the suffix would still fit, whether something was cut, and the
  // index of the last round.
  datatype Loop = Loop(text: string, spare: nat, truncated: bool, last: nat)

  // The closing bracket and, if anything was cut, the suffix, over the last elements if
  // there is no room for it after them.
  function Finish(loop: Loop, count: nat, close: CString, avail: nat): (out: Out)
    requires |loop.text| <= avail && loop.spare <= |loop.text|
    ensures out.ok && |out.text| <= avail
  {
    var suffix := TruncText(count);
    var closed := WriteOut(close, avail - |loop.text|);
    var text := loop.text + closed.text;
    if loop.last + 1 < count || loop.truncated || !closed.ok
    then Out(true, CutOff(text, loop.spare, close, suffix, avail))
    else Out(true, text)
  }

  function CutOff(text: string, spare: nat, close: CString, suffix: CString, avail: nat): (r: string)
    requires spare <= |text| <= avail
    ensures |r| <= avail
  {
    if avail - |text| < |suffix|
    then text[..spare] + PrintOut(close + suffix, avail - spare).text
    else text + WriteOut(suffix, avail - |text|).text
  }

  function Repr(g: Graph, r: Ref, avail: nat): (out: Out)
    ensures |out.text| <= avail
    decreases avail, 4, 0
  {
    if r !in g then WriteOut("<null>", avail)
    else
      match g[r]
      case PyDict(entries) => DictRepr(g, entries, avail)
      case PySubDict(entries, typeName, address) => SubDict(g, entries, typeName, address, avail)
      case PyList(items) => ListRepr(g, items, true, avail)
      case PyTuple(items) => ListRepr(g, items, false, avail)
      case o => LeafOut(o, avail)
  }

  function SubDict(g: Graph, entries: seq<(Ref, Ref)>, typeName: CString, address: CString, avail: nat): (out: Out)
    ensures |out.text| <= avail
    decreases avail, 3, 0
  {
    var head := ObjRepr(typeName, address, avail);
    if !head.ok then head
    else
      var body := DictRepr(g, entries, avail - |head.text|);
      Out(body.ok, head.text + body.text)
  }

  function Open(isList: bool): (s: CString) ensures |s| == 1 { if isList then "[" else "(" }

  function Close(isList: bool): (s: CString) ensures |s| == 1 { if isList then "]" else ")" }

  function ListRepr(g: Graph, items: seq<Ref>, isList: bool, avail: nat): (out: Out)
    ensures |out.text| <= avail
    decreases avail, 2, 0
  {
    if |TruncText(|items|)| + 3 > avail then Out(false, "")
    else Finish(ListLoop(g, items, 0, Open(isList), 0, avail), |items|, Close(isList), avail)
  }

  // The loop over at most the first four elements, from round i on.
  function ListLoop(g: Graph, items: seq<Ref>, i: nat, text: string, spare: nat, avail: nat): (loop: Loop)
    requires i <= Min(|items|, MAX_LIST_ELEMS) && 0 < |text| <= avail && spare <= |text|
    ensures |loop.text| <= avail && loop.spare <= |loop.text|
    decreases avail, 1, MAX_LIST_ELEMS - i
  {
    var suffix := TruncText(|items|);
    if i == Min(|items|, MAX_LIST_ELEMS) then Loop(text, spare, false, if i == 0 then 0 else i - 1)
    else
      var spare' := if avail - |text| >= |suffix| + 2 then |text| else spare;
      var element := Element(g, items, i, avail - |text|);
      if element.ok then ListLoop(g, items, i + 1, text + element.text, spare', avail)
      else Loop(text + element.text, spare', true, i)
  }

  // A comma unless it is the first, and the element, in one window of 64 bytes.
  function Element(g: Graph, items: seq<Ref>, i: nat, room: nat): (out: Out)
    requires i < |items|
    ensures |out.text| <= Min(MAX_LIST_ELEM_LEN, room)
    decreases room, 6, 0
  {
    CommaElement(g, items, i, Min(MAX_LIST_ELEM_LEN, room))
  }

  function CommaElement(g: Graph, items: seq<Ref>, i: nat, window: nat): (out: Out)
    requires i < |items|
    ensures |out.text| <= window
    decreases window, 5, 0
  {
    var comma := if i > 0 then WriteOut(",", window) else Out(true, "");
    if !comma.ok then comma
    else
      var element := Repr(g, items[i], window - |comma.text|);
      Out(element.ok, comma.text + element.text)
  }

  function DictRepr(g: Graph, entries: seq<(Ref, Ref)>, avail: nat): (out: Out)
    ensures |out.text| <= avail
    decreases avail, 2, 0
  {
    if |TruncText(|entries|)| + 3 > avail then Out(false, "")
    else Finish(DictLoop(g, entries, 0, "{", 0, avail), |entries|, "}", avail)
  }

  function DictLoop(g: Graph, entries: seq<(Ref, Ref)>, i: nat, text: string, spare: nat, avail: nat): (loop: Loop)
    requires i <= Min(|entries|, MAX_DICT_ELEMS) && 0 < |text| <= avail && spare <= |text|
    ensures |loop.text| <= avail && loop.spare <= |loop.text|
    decreases avail, 1, MAX_DICT_ELEMS - i
  {
    var suffix := TruncText(|entries|);
    if i == Min(|entries|, MAX_DICT_ELEMS) then Loop(text, spare, false, if i == 0 then 0 else i - 1)
    else
      var spare' := if avail - |text| >= |suffix| + 2 then |text| else spare;
      var entry := Entry(g, entries, i, avail - |text|);
      if entry.ok then DictLoop(g, entries, i + 1, text + entry.text, spare', avail)
      else Loop(text + entry.text, spare', true, i)
  }

  // A comma unless it is the first, the key in a window of 32 bytes, a colon, and the
  // value in a window of 64.
  function Entry(g: Graph, entries: seq<(Ref, Ref)>, i: nat, room: nat): (out: Out)
    requires i < |entries|
    ensures |out.text| <= room
    decreases room, 6, 0
  {
    var key := EntryKey(g, entries, i, room);
    if !key.ok then key
    else
      var colon := WriteOut(":", room - |key.text|);
      var text := key.text + colon.text;
      if !colon.ok then Out(false, text)
      else
        var value := Repr(g, entries[i].1, Min(MAX_DICT_VAL_LEN, room - |text|));
        Out(value.ok, text + value.text)
  }

  function EntryKey(g: Graph, entries: seq<(Ref, Ref)>, i: nat, room: nat): (out: Out)
    requires i < |entries|
    ensures |out.text| <= room
    decreases room, 5, 0
  {
    var comma := if i > 0 then WriteOut(",", room) else Out(true, "");
    if !comma.ok then comma
    else
      var key := Repr(g, entries[i].0, Min(MAX_DICT_KEY_LEN, room - |comma.text|));
      Out(key.ok, comma.text + key.text)
  }
}
