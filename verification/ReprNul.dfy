// Where an exact fit leaves a NUL in the serializer's output, and with it hides what
// follows from C: which objects do, in which windows, and when it outlives a rewind.
module ReprNul {
  import opened Basics
  import opened TraceMessage
  import opened ReprSpec

  // --- leaves ---

  predicate Container(o: PyObj) { o.PyList? || o.PyTuple? || o.PyDict? || o.PySubDict? }

  // printf was given a text exactly as long as the room.
  predicate ExactFit(o: PyObj, avail: nat) {
    match o
    case PyInt(digits) => |digits| == avail > 0
    case PyOther(typeName, address) => |typeName| + |address| + 5 == avail
    case _ => false
  }

  // Only an exactly fitting integer or plain object leaves a NUL; a string never does,
  // as room for the NUL is kept back for it.
  lemma LeafNul(g: Graph, r: Ref, avail: nat)
    requires r in g ==> !Container(g[r])
    ensures NUL in Repr(g, r, avail).text <==> r in g && ExactFit(g[r], avail)
  {
    hide MethodRepr, StrRepr, Named;
    if r in g {
      match g[r]
      case PyFunction(name) => NamedNoNul("<func ", name, avail);
      case PyType(name) => NamedNoNul("<type ", name, avail);
      case PyMethod(funcName, className, selfAddress) => MethodNoNul(funcName, className, selfAddress, avail);
      case PyStr(length, repr, headRepr) => StrNoNul(length, repr, headRepr, avail);
      case _ =>
    }
  }

  lemma NamedNoNul(prefix: CString, name: CString, avail: nat)
    requires |prefix| < 7
    ensures NUL !in Named(prefix, name, 9, avail).text
  {
  }

  lemma StrNoNul(length: nat, repr: CString, headRepr: CString, avail: nat)
    ensures NUL !in StrRepr(length, repr, headRepr, avail).text
  {
    hide TruncText;
  }

  // A name that fits exactly leaves no room for the bracket and is taken back.
  lemma MethodNoNul(funcName: CString, className: Option<CString>, selfAddress: Option<CString>, avail: nat)
    ensures NUL !in MethodRepr(funcName, className, selfAddress, avail).text
  {
    hide MethodTail;
    if avail >= 11 {
      var name := WriteOut(funcName, avail - 6);
      assert NUL !in name.text;
      TailNoNul(className, selfAddress, avail - 6 - |name.text|);
    }
  }

  lemma ClassNoNul(className: Option<CString>, avail: nat)
    ensures NUL !in ClassPart(className, avail).text && |ClassPart(className, avail).text| <= avail
  {
  }

  lemma TailNoNul(className: Option<CString>, selfAddress: Option<CString>, avail: nat)
    ensures var out := MethodTail(className, selfAddress, avail);
            |out.text| <= avail && (out.ok ==> NUL !in out.text)
  {
    hide ClassPart;
    ClassNoNul(className, avail);
    var cls := ClassPart(className, avail);
    if cls.ok {
      var left := avail - |cls.text|;
      assert NUL in SelfPart(selfAddress, left).text ==> |SelfPart(selfAddress, left).text| == left;
    }
  }

  // A dict subclass writes its head with printf and goes on with what room is left.
  lemma SubDictNul(g: Graph, entries: seq<(Ref, Ref)>, typeName: CString, address: CString, avail: nat)
    ensures var head := |typeName| + |address| + 5;
            NUL in SubDict(g, entries, typeName, address, avail).text <==>
            head == avail || (head < avail && NUL in DictRepr(g, entries, avail - head).text)
  {
    hide DictLoop, Finish;
  }

  // --- containers ---

  function Concat(ps: seq<string>): string {
    if ps == [] then "" else Concat(ps[..|ps| - 1]) + ps[|ps| - 1]
  }

  lemma ConcatSnoc(ps: seq<string>, p: string)
    ensures Concat(ps + [p]) == Concat(ps) + p
  {
    assert (ps + [p])[..|ps|] == ps;
  }

  lemma {:induction false} ConcatNul(ps: seq<string>)
    ensures NUL in Concat(ps) <==> exists i :: 0 <= i < |ps| && NUL in ps[i]
    decreases |ps|
  {
    if ps != [] {
      var last := |ps| - 1;
      ConcatNul(ps[..last]);
      assert forall i | 0 <= i < last :: ps[..last][i] == ps[i];
    }
  }

  lemma {:induction false} ConcatPrefix(ps: seq<string>, q: nat)
    requires q <= |ps|
    ensures Concat(ps[..q]) <= Concat(ps)
    decreases |ps|
  {
    if q == |ps| {
      assert ps[..q] == ps;
    } else {
      ConcatPrefix(ps[..|ps| - 1], q);
      assert ps[..|ps| - 1][..q] == ps[..q];
    }
  }

  // What the rounds of a list's loop write, from round i on, `used` bytes being written.
  function ListPieces(g: Graph, items: seq<Ref>, i: nat, used: nat, avail: nat): seq<string>
    requires i <= Min(|items|, MAX_LIST_ELEMS) && used <= avail
    decreases MAX_LIST_ELEMS - i
  {
    if i == Min(|items|, MAX_LIST_ELEMS) then []
    else
      var element := Element(g, items, i, avail - used);
      [element.text] + (if element.ok then ListPieces(g, items, i + 1, used + |element.text|, avail) else [])
  }

  function DictPieces(g: Graph, entries: seq<(Ref, Ref)>, i: nat, used: nat, avail: nat): seq<string>
    requires i <= Min(|entries|, MAX_DICT_ELEMS) && used <= avail
    decreases MAX_DICT_ELEMS - i
  {
    if i == Min(|entries|, MAX_DICT_ELEMS) then []
    else
      var entry := Entry(g, entries, i, avail - used);
      [entry.text] + (if entry.ok then DictPieces(g, entries, i + 1, used + |entry.text|, avail) else [])
  }

  // At the start of round j there was room for the closing bracket, the suffix and a NUL.
  predicate Roomy(ps: seq<string>, j: nat, suffix: nat, avail: nat)
    requires j <= |ps|
  {
    avail >= 1 + |Concat(ps[..j])| + suffix + 2
  }

  // The spare point is the start of the last such round.
  ghost predicate SpareAt(ps: seq<string>, q: nat, spare: nat, suffix: nat, avail: nat) {
    && q < |ps| && spare == 1 + |Concat(ps[..q])| && Roomy(ps, q, suffix, avail)
    && forall j | q < j < |ps| :: !Roomy(ps, j, suffix, avail)
  }

  // Round |done| is entered: the spare point moves up if there is room.
  lemma NextRound(done: seq<string>, q: nat, spare: nat, suffix: nat, avail: nat, piece: string) returns (q': nat)
    requires if done == [] then 1 + suffix + 2 <= avail else SpareAt(done, q, spare, suffix, avail)
    ensures var used := 1 + |Concat(done)|;
            SpareAt(done + [piece], q', if avail >= used + suffix + 2 then used else spare, suffix, avail)
  {
    var n, all := |done|, done + [piece];
    assert all[..n] == done;
    q' := if Roomy(all, n, suffix, avail) then n else q;
    forall j | 0 <= j <= n ensures Roomy(all, j, suffix, avail) == Roomy(done, j, suffix, avail) {
      assert all[..j] == done[..j];
    }
    assert done[..n] == done && all[..q'] == done[..q'];
  }

  // One round of the loop and of its pieces.
  lemma ListRound(g: Graph, items: seq<Ref>, i: nat, text: string, spare: nat, avail: nat)
    requires i <= Min(|items|, MAX_LIST_ELEMS) && 0 < |text| <= avail && spare <= |text|
    ensures i == Min(|items|, MAX_LIST_ELEMS) ==>
              && ListLoop(g, items, i, text, spare, avail).text == text
              && ListLoop(g, items, i, text, spare, avail).spare == spare
              && ListPieces(g, items, i, |text|, avail) == []
    ensures i < Min(|items|, MAX_LIST_ELEMS) ==>
              var element := Element(g, items, i, avail - |text|);
              var spare' := if avail - |text| >= |TruncText(|items|)| + 2 then |text| else spare;
              && ListLoop(g, items, i, text, spare, avail) ==
                 (if element.ok then ListLoop(g, items, i + 1, text + element.text, spare', avail)
                  else Loop(text + element.text, spare', true, i))
              && ListPieces(g, items, i, |text|, avail) ==
                 [element.text] + (if element.ok then ListPieces(g, items, i + 1, |text + element.text|, avail) else [])
  {
    hide TruncText, Element;
  }

  lemma {:induction false} ListTold(g: Graph, items: seq<Ref>, done: seq<string>, q: nat, spare: nat, avail: nat,
                                    open: string)
    returns (q': nat)
    requires |done| <= Min(|items|, MAX_LIST_ELEMS) && |open| == 1 && |open + Concat(done)| <= avail && items != []
    requires if done == [] then |TruncText(|items|)| + 3 <= avail && spare == 0
             else SpareAt(done, q, spare, |TruncText(|items|)|, avail)
    requires spare <= |open + Concat(done)|
    ensures var text := open + Concat(done);
            var loop := ListLoop(g, items, |done|, text, spare, avail);
            var all := done + ListPieces(g, items, |done|, |text|, avail);
            loop.text == open + Concat(all) && SpareAt(all, q', loop.spare, |TruncText(|items|)|, avail)
    decreases MAX_LIST_ELEMS - |done|
  {
    hide TruncText, Element, SpareAt, Concat, ListLoop, ListPieces;
    var i, text := |done|, open + Concat(done);
    ListRound(g, items, i, text, spare, avail);
    if i == Min(|items|, MAX_LIST_ELEMS) {
      assert done + [] == done;
      q' := q;
    } else {
      var element := Element(g, items, i, avail - |text|);
      var spare' := if avail - |text| >= |TruncText(|items|)| + 2 then |text| else spare;
      q' := NextRound(done, q, spare, |TruncText(|items|)|, avail, element.text);
      ConcatSnoc(done, element.text);
      assert text + element.text == open + Concat(done + [element.text]);
      if element.ok {
        q' := ListTold(g, items, done + [element.text], q', spare', avail, open);
        var rest := ListPieces(g, items, i + 1, |text| + |element.text|, avail);
        assert (done + [element.text]) + rest == done + ([element.text] + rest);
      } else {
        assert [element.text] + [] == [element.text];
      }
    }
  }

  // The same for dicts.
  lemma DictRound(g: Graph, entries: seq<(Ref, Ref)>, i: nat, text: string, spare: nat, avail: nat)
    requires i <= Min(|entries|, MAX_DICT_ELEMS) && 0 < |text| <= avail && spare <= |text|
    ensures i == Min(|entries|, MAX_DICT_ELEMS) ==>
              && DictLoop(g, entries, i, text, spare, avail).text == text
              && DictLoop(g, entries, i, text, spare, avail).spare == spare
              && DictPieces(g, entries, i, |text|, avail) == []
    ensures i < Min(|entries|, MAX_DICT_ELEMS) ==>
              var entry := Entry(g, entries, i, avail - |text|);
              var spare' := if avail - |text| >= |TruncText(|entries|)| + 2 then |text| else spare;
              && DictLoop(g, entries, i, text, spare, avail) ==
                 (if entry.ok then DictLoop(g, entries, i + 1, text + entry.text, spare', avail)
                  else Loop(text + entry.text, spare', true, i))
              && DictPieces(g, entries, i, |text|, avail) ==
                 [entry.text] + (if entry.ok then DictPieces(g, entries, i + 1, |text + entry.text|, avail) else [])
  {
    hide TruncText, Entry;
  }

  lemma {:induction false} DictTold(g: Graph, entries: seq<(Ref, Ref)>, done: seq<string>, q: nat, spare: nat, avail: nat)
    returns (q': nat)
    requires |done| <= Min(|entries|, MAX_DICT_ELEMS) && |"{" + Concat(done)| <= avail && entries != []
    requires if done == [] then |TruncText(|entries|)| + 3 <= avail && spare == 0
             else SpareAt(done, q, spare, |TruncText(|entries|)|, avail)
    requires spare <= |"{" + Concat(done)|
    ensures var text := "{" + Concat(done);
            var loop := DictLoop(g, entries, |done|, text, spare, avail);
            var all := done + DictPieces(g, entries, |done|, |text|, avail);
            loop.text == "{" + Concat(all) && SpareAt(all, q', loop.spare, |TruncText(|entries|)|, avail)
    decreases MAX_DICT_ELEMS - |done|
  {
    hide TruncText, Entry, SpareAt, Concat, DictLoop, DictPieces;
    var i, text := |done|, "{" + Concat(done);
    DictRound(g, entries, i, text, spare, avail);
    if i == Min(|entries|, MAX_DICT_ELEMS) {
      assert done + [] == done;
      q' := q;
    } else {
      var entry := Entry(g, entries, i, avail - |text|);
      var spare' := if avail - |text| >= |TruncText(|entries|)| + 2 then |text| else spare;
      q' := NextRound(done, q, spare, |TruncText(|entries|)|, avail, entry.text);
      ConcatSnoc(done, entry.text);
      assert text + entry.text == "{" + Concat(done + [entry.text]);
      if entry.ok {
        q' := DictTold(g, entries, done + [entry.text], q', spare', avail);
        var rest := DictPieces(g, entries, i + 1, |text| + |entry.text|, avail);
        assert (done + [entry.text]) + rest == done + ([entry.text] + rest);
      } else {
        assert [entry.text] + [] == [entry.text];
      }
    }
  }

  // The elements were written over by the closing bracket and the suffix.
  predicate Rewound(loop: Loop, count: nat, close: CString, avail: nat)
    requires |loop.text| <= avail && |close| == 1
  {
    && (loop.truncated || loop.last + 1 < count || |loop.text| + 1 >= avail)
    && avail < |loop.text| + 1 + |TruncText(count)|
  }

  // Round i's piece is still in the output.
  ghost predicate Survives(ps: seq<string>, i: nat, suffix: nat, avail: nat, rewound: bool) {
    rewound ==> exists j :: i < j < |ps| && Roomy(ps, j, suffix, avail)
  }

  lemma KeptNul(loop: Loop, count: nat, open: string, close: CString, avail: nat, ps: seq<string>, q: nat)
    requires |open| == |close| == 1 && NUL !in open && |loop.text| <= avail && loop.spare <= |loop.text|
    requires loop.text == open + Concat(ps)
    requires if ps == [] then |loop.text| + |TruncText(count)| + 2 <= avail
             else SpareAt(ps, q, loop.spare, |TruncText(count)|, avail)
    ensures NUL in Finish(loop, count, close, avail).text <==>
            exists i :: 0 <= i < |ps| && NUL in ps[i]
                        && Survives(ps, i, |TruncText(count)|, avail, Rewound(loop, count, close, avail))
  {
    hide TruncText, Concat, Finish;
    ConcatNul(ps);
    FinishKept(loop, count, close, avail);
    if ps != [] {
      ConcatPrefix(ps, q);
      ConcatNul(ps[..q]);
      assert loop.text[..loop.spare] == open + Concat(ps[..q]);
      assert forall i | 0 <= i < q :: ps[..q][i] == ps[i];
    }
  }

  // NULs in a finished container are those in the part of the loop's text that is kept.
  lemma FinishKept(loop: Loop, count: nat, close: CString, avail: nat)
    requires |close| == 1 && |loop.text| <= avail && loop.spare <= |loop.text|
    requires Rewound(loop, count, close, avail) ==> loop.spare + |TruncText(count)| + 2 <= avail
    ensures NUL in Finish(loop, count, close, avail).text <==>
            NUL in if Rewound(loop, count, close, avail) then loop.text[..loop.spare] else loop.text
  {
    hide TruncText;
    var suffix, closed := TruncText(count), WriteOut(close, avail - |loop.text|);
    var text := loop.text + closed.text;
    assert NUL !in closed.text && NUL !in suffix && NUL !in close + suffix;
    if Rewound(loop, count, close, avail) {
      assert text[..loop.spare] == loop.text[..loop.spare];
    }
  }

  // The whole loop of a list, told by its pieces.
  lemma ListInPieces(g: Graph, items: seq<Ref>, isList: bool, avail: nat) returns (q: nat)
    requires |TruncText(|items|)| + 3 <= avail
    ensures var ps := ListPieces(g, items, 0, 1, avail);
            var loop := ListLoop(g, items, 0, Open(isList), 0, avail);
            && loop.text == Open(isList) + Concat(ps)
            && (if ps == [] then |loop.text| + |TruncText(|items|)| + 2 <= avail
                else SpareAt(ps, q, loop.spare, |TruncText(|items|)|, avail))
  {
    hide TruncText, SpareAt, Element;
    q := 0;
    if items != [] {
      assert Open(isList) + Concat([]) == Open(isList);
      q := ListTold(g, items, [], 0, 0, avail, Open(isList));
      assert [] + ListPieces(g, items, 0, 1, avail) == ListPieces(g, items, 0, 1, avail);
      assert ListPieces(g, items, 0, 1, avail) != [];
    }
  }

  // At any index, in any room: the output of a list contains a NUL if and only if it is
  // not refused and the piece of some round has one and was not written over at the end.
  lemma ListNul(g: Graph, items: seq<Ref>, isList: bool, avail: nat)
    ensures NUL in ListRepr(g, items, isList, avail).text <==>
            |TruncText(|items|)| + 3 <= avail &&
            var ps := ListPieces(g, items, 0, 1, avail);
            var loop := ListLoop(g, items, 0, Open(isList), 0, avail);
            var rewound := Rewound(loop, |items|, Close(isList), avail);
            exists i :: 0 <= i < |ps| && NUL in ps[i] && Survives(ps, i, |TruncText(|items|)|, avail, rewound)
  {
    hide TruncText, SpareAt, Survives, Finish, Concat, ListLoop, ListPieces, Rewound;
    if |TruncText(|items|)| + 3 <= avail {
      var q := ListInPieces(g, items, isList, avail);
      KeptNul(ListLoop(g, items, 0, Open(isList), 0, avail), |items|, Open(isList), Close(isList), avail,
              ListPieces(g, items, 0, 1, avail), q);
    }
  }

  lemma DictInPieces(g: Graph, entries: seq<(Ref, Ref)>, avail: nat) returns (q: nat)
    requires |TruncText(|entries|)| + 3 <= avail
    ensures var ps := DictPieces(g, entries, 0, 1, avail);
            var loop := DictLoop(g, entries, 0, "{", 0, avail);
            && loop.text == "{" + Concat(ps)
            && (if ps == [] then |loop.text| + |TruncText(|entries|)| + 2 <= avail
                else SpareAt(ps, q, loop.spare, |TruncText(|entries|)|, avail))
  {
    hide TruncText, SpareAt, Entry;
    q := 0;
    if entries != [] {
      assert "{" + Concat([]) == "{";
      q := DictTold(g, entries, [], 0, 0, avail);
      assert [] + DictPieces(g, entries, 0, 1, avail) == DictPieces(g, entries, 0, 1, avail);
      assert DictPieces(g, entries, 0, 1, avail) != [];
    }
  }

  // The same for dicts.
  lemma DictNul(g: Graph, entries: seq<(Ref, Ref)>, avail: nat)
    ensures NUL in DictRepr(g, entries, avail).text <==>
            |TruncText(|entries|)| + 3 <= avail &&
            var ps := DictPieces(g, entries, 0, 1, avail);
            var loop := DictLoop(g, entries, 0, "{", 0, avail);
            var rewound := Rewound(loop, |entries|, "}", avail);
            exists i :: 0 <= i < |ps| && NUL in ps[i] && Survives(ps, i, |TruncText(|entries|)|, avail, rewound)
  {
    hide TruncText, SpareAt, Survives, Finish, Concat, DictLoop, DictPieces, Rewound;
    if |TruncText(|entries|)| + 3 <= avail {
      var q := DictInPieces(g, entries, avail);
      KeptNul(DictLoop(g, entries, 0, "{", 0, avail), |entries|, "{", "}", avail, DictPieces(g, entries, 0, 1, avail), q);
    }
  }

  // The piece of one round: it has a NUL if and only if the element leaves one in what is
  // left of its window. For leaves, LeafNul says when that is.
  lemma ElementNul(g: Graph, items: seq<Ref>, i: nat, room: nat)
    requires i < |items|
    ensures var comma := if i > 0 then 1 else 0;
            NUL in Element(g, items, i, room).text <==>
            comma <= Min(MAX_LIST_ELEM_LEN, room) && NUL in Repr(g, items[i], Min(MAX_LIST_ELEM_LEN, room) - comma).text
  {
    hide Repr;
    if Min(MAX_LIST_ELEM_LEN, room) == 1 { NoRoomNoNul(g, items[i]); }
  }

  lemma NoRoomNoNul(g: Graph, r: Ref)
    ensures NUL !in Repr(g, r, 0).text
  {
    hide Repr;
  }

  // The same for a dict's entry: its key, or its value if that is reached.
  lemma EntryNul(g: Graph, entries: seq<(Ref, Ref)>, i: nat, room: nat)
    requires i < |entries|
    ensures var comma := if i > 0 then 1 else 0;
            NUL in Entry(g, entries, i, room).text <==>
            && comma <= room
            && var key := Repr(g, entries[i].0, Min(MAX_DICT_KEY_LEN, room - comma));
               var used := comma + |key.text| + 1;
               NUL in key.text
               || (key.ok && used <= room && NUL in Repr(g, entries[i].1, Min(MAX_DICT_VAL_LEN, room - used)).text)
  {
    hide Repr;
    NoRoomNoNul(g, entries[i].0);
    NoRoomNoNul(g, entries[i].1);
  }
}
