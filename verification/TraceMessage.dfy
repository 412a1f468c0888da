// TraceMessage: a fixed buffer with a write index and a limit, as the serializer uses it.
module TraceMessage {
  import opened Basics

  const SEVERITY_NOTSET: int := -1

  function Clip(n: int, lower: int, upper: int): (r: int)
    ensures lower <= upper ==> lower <= r <= upper && (lower <= n <= upper ==> r == n)
    ensures lower <= upper ==> (n < lower ==> r == lower) && (upper < n ==> r == upper)
  {
    var least := if n < upper then n else upper;
    if least > lower then least else lower
  }

  // A C string's characters.
  predicate NoNul(s: string) { NUL !in s }

  // What one operation appends, and whether it says it succeeded.
  datatype Out = Out(ok: bool, text: string)

  // write: everything that fits is stored; an exact fit is stored and reported as failure.
  function WriteOut(s: string, avail: nat): Out {
    if |s| < avail then Out(true, s) else Out(false, s[..avail])
  }

  // printf: all or nothing, except that a text exactly as long as the room loses its
  // last character to a NUL and is reported as success.
  function PrintOut(s: string, avail: nat): Out {
    if |s| < avail then Out(true, s)
    else if |s| > avail then Out(false, "")
    else Out(true, if avail == 0 then "" else s[..avail - 1] + [NUL])
  }

  // What write does to buffer and offset: all that fits is put after what was there, and it
  // succeeds if a NUL fitted too.
  ghost predicate WroteFitting(str: string, room: int, b0: seq<char>, w0: int, b1: seq<char>, w1: int, ok: bool) {
    && 0 <= w0 <= w1 < |b1| == |b0| && room >= 0 && w1 == w0 + Min(|str|, room) && (ok <==> |str| < room)
    && b1[..w1] == b0[..w0] + str[..w1 - w0] && (ok ==> b1[w1] == NUL)
  }

  // What printf does: a text longer than the room leaves offset and bytes before it alone, a
  // shorter one is put after them, and one that fits exactly is but for its last character.
  ghost predicate PrintedWhole(text: string, room: int, b0: seq<char>, w0: int, b1: seq<char>, w1: int, ok: bool) {
    && 0 <= w0 <= w1 < |b1| == |b0| && (ok <==> |text| <= room)
    && (|text| > room ==> w1 == w0 && b1[..w1] == b0[..w0] && b1[w1] == NUL)
    && (|text| < room ==> w1 == w0 + |text| && b1[..w1] == b0[..w0] + text && b1[w1] == NUL)
    && (|text| == room > 0 ==> w1 == w0 + |text| && b1[..w1] == b0[..w0] + text[..room - 1] + [NUL])
    && (|text| == room == 0 ==> w1 == w0 && b1[..w1] == b0[..w0])
  }

  // Between two states of a buffer: `text` was appended at w0 and nothing else changed
  // below w0 or past the limit; at the limit itself only a NUL can have been stored.
  ghost predicate Grew(b0: seq<char>, b1: seq<char>, w0: int, w1: int, limit: int, text: string) {
    && |b0| == |b1| && 0 <= w0 <= w1 <= limit < |b0|
    && b1[..w1] == b0[..w0] + text
    && (forall i | limit < i < |b0| :: b1[i] == b0[i])
    && (b1[limit] == b0[limit] || b1[limit] == NUL)
  }

  lemma GrewNothing(b: seq<char>, w: int, limit: int)
    requires 0 <= w <= limit < |b|
    ensures Grew(b, b, w, w, limit, "")
  {
  }

  lemma GrewThen(b0: seq<char>, b1: seq<char>, b2: seq<char>, w0: int, w1: int, w2: int, limit: int, inner: int,
                 t1: string, t2: string)
    requires Grew(b0, b1, w0, w1, limit, t1) && Grew(b1, b2, w1, w2, inner, t2) && inner <= limit
    ensures Grew(b0, b2, w0, w2, limit, t1 + t2)
  {
  }

  lemma GrewRewound(b0: seq<char>, b1: seq<char>, w0: int, w1: int, limit: int, text: string, o: int)
    requires Grew(b0, b1, w0, w1, limit, text) && w0 <= o <= w1
    ensures |text| == w1 - w0 && Grew(b0, b1[o := NUL], w0, o, limit, text[..o - w0])
  {
    assert b1[o := NUL][..o] == b1[..w1][..o];
  }

  method StrNCpy(to: array<char>, from: array<char>, n: nat)
    requires n <= to.Length && n <= from.Length && to != from
    modifies to
    ensures forall i | 0 <= i < n :: to[i] == if NUL in from[..i] then NUL else from[i]
    ensures forall i | n <= i < to.Length :: to[i] == old(to[i])
  {
    var i, ended := 0, false;
    while i < n
      invariant 0 <= i <= n
      invariant ended == (NUL in from[..i])
      invariant forall j | 0 <= j < i :: to[j] == if NUL in from[..j] then NUL else from[j]
      invariant forall j | i <= j < to.Length :: to[j] == old(to[j])
    {
      to[i] := if ended then NUL else from[i];
      assert from[..i + 1] == from[..i] + [from[i]];
      ended := ended || from[i] == NUL;
      i := i + 1;
    }
  }

  // A text that printf took is in the buffer, but for the last character of an exact fit.
  lemma Printed(b: seq<char>, w: nat, size: nat, text: string)
    requires |text| <= size && w + size <= |b|
    requires size > 0 ==>
               var stored := if |text| < size then |text| else size - 1;
               b[w..w + stored] == text[..stored] && b[w + stored] == NUL
    ensures b[..w + |text|] == b[..w] + PrintOut(text, size).text
  {
    if |text| == size > 0 {
      assert b[..w + size] == b[..w] + b[w..w + size - 1] + [b[w + size - 1]];
    } else {
      assert b[..w + |text|] == b[..w] + b[w..w + |text|];
    }
  }

  class TraceMessage {
    var capacity: int
    var buffer: array<char>
    var writeIndex: int
    var limitIndex: int
    var severity: int
    var timestamp: nat

    // write may stand past a limit that was lowered; the serializer never leaves it so.
    ghost predicate Shape()
      reads this, buffer
    {
      && capacity > 0 && buffer.Length == capacity + 1
      && 0 <= writeIndex <= capacity && 0 <= limitIndex <= capacity && buffer[capacity] == NUL
    }

    ghost predicate Valid()
      reads this, buffer
    {
      Shape() && writeIndex <= limitIndex
    }

    // The text is terminated where writing would go on, or the limit is reached (at the
    // capacity there is always a NUL).
    ghost predicate Ended()
      requires Valid()
      reads this, buffer
    {
      writeIndex < limitIndex ==> buffer[writeIndex] == NUL
    }

    lemma EndsInNul()
      requires Valid()
      ensures buffer[writeIndex] == NUL ==> Ended()
      ensures Ended() && limitIndex == capacity ==> buffer[writeIndex] == NUL
    {
    }

    ghost function Text(): string
      requires Shape()
      reads this, buffer
    {
      buffer[..writeIndex]
    }

    constructor (newCapacity: int)
      requires newCapacity > 0
      ensures Valid() && capacity == newCapacity && Text() == "" && limitIndex == capacity && fresh(buffer)
    {
      capacity := newCapacity;
      buffer := new char[newCapacity + 1](_ => NUL);
      writeIndex, limitIndex, severity, timestamp := 0, newCapacity, SEVERITY_NOTSET, 0;
    }

    method Recycle()
      requires capacity > 0 && buffer.Length == capacity + 1
      modifies this, buffer
      ensures Valid() && writeIndex == 0 && limitIndex == capacity && severity == SEVERITY_NOTSET && timestamp == 0
      ensures capacity == old(capacity) && buffer == old(buffer) && buffer[0] == NUL
    {
      writeIndex := 0;
      limitIndex := capacity;
      buffer[0], buffer[capacity] := NUL, NUL;
      severity := SEVERITY_NOTSET;
      timestamp := 0;
    }

    method Realloc(newCapacity: int)
      requires newCapacity > 0
      modifies this
      ensures Valid() && fresh(buffer) && capacity == newCapacity && writeIndex == 0 && limitIndex == capacity
    {
      capacity := newCapacity;
      buffer := new char[newCapacity + 1](_ => NUL);
      Recycle();
    }

    // operator=. strncpy stops at the first NUL and pads with NULs, so what follows a
    // NUL in the text is not copied.
    method Assign(other: TraceMessage)
      requires Shape() && other.Shape() && other != this && buffer != other.buffer
      modifies this, buffer
      ensures Shape() && capacity == other.capacity && writeIndex == other.writeIndex && limitIndex == other.limitIndex
      ensures severity == other.severity && timestamp == other.timestamp
      ensures forall i | 0 <= i < capacity ::
                buffer[i] == if NUL in other.buffer[..i] then NUL else other.buffer[i]
      ensures buffer == old(buffer) || fresh(buffer)
      ensures UpToNul(Text()) == UpToNul(other.Text())
      ensures NoNul(other.Text()) ==> Text() == other.Text()
    {
      if other.capacity != capacity {
        Realloc(other.capacity);
      }
      writeIndex := other.writeIndex;
      limitIndex := other.limitIndex;
      severity := other.severity;
      timestamp := other.timestamp;
      StrNCpy(buffer, other.buffer, capacity);
      CopiedText(other);
    }

    // What strncpy leaves out is what C does not see.
    lemma CopiedText(other: TraceMessage)
      requires Shape() && other.Shape() && capacity == other.capacity && writeIndex == other.writeIndex
      requires forall i | 0 <= i < capacity :: buffer[i] == if NUL in other.buffer[..i] then NUL else other.buffer[i]
      ensures UpToNul(Text()) == UpToNul(other.Text())
      ensures NoNul(other.Text()) ==> Text() == other.Text()
    {
      var seen := UpToNul(other.Text());
      forall j | 0 <= j < |seen| ensures buffer[j] == seen[j] {
        assert other.buffer[..j] == seen[..j];
      }
      if |seen| < writeIndex {
        assert other.buffer[|seen|] == NUL;
        assert buffer[|seen|] == NUL;
      }
      assert |seen| <= |Text()| && forall j | 0 <= j < |seen| :: Text()[j] == seen[j];
      assert Text()[..|seen|] == seen;
      UpToNulIs(Text(), seen);
    }

    function AvailSize(): int
      reads this
    {
      limitIndex - writeIndex
    }

    method Limit(size: int) returns (previous: int)
      requires Valid()
      modifies this`limitIndex
      ensures Valid() && previous == old(limitIndex)
      ensures limitIndex == writeIndex + Clip(size, 0, old(limitIndex) - writeIndex) <= previous
    {
      previous := limitIndex;
      limitIndex := writeIndex + Clip(size, 0, AvailSize());
    }

    method Unlimit(i: int)
      requires Shape()
      modifies this`limitIndex
      ensures Shape() && limitIndex == Clip(i, 0, capacity) && (Valid() <==> writeIndex <= limitIndex)
    {
      limitIndex := Clip(i, 0, capacity);
    }

    method Rewind(offset: int)
      requires Valid()
      modifies this`writeIndex, buffer
      ensures Valid() && Ended() && writeIndex == Clip(offset, 0, limitIndex)
      ensures buffer[..] == old(buffer[..])[writeIndex := NUL]
    {
      writeIndex := Clip(offset, 0, limitIndex);
      buffer[writeIndex] := NUL;
    }

    method Write(str: string) returns (ok: bool)
      requires Valid() && NoNul(str)
      modifies this`writeIndex, buffer
      ensures Valid() && ok == WriteOut(str, old(AvailSize())).ok
      ensures Grew(old(buffer[..]), buffer[..], old(writeIndex), writeIndex, limitIndex,
                   WriteOut(str, old(AvailSize())).text)
      ensures Ended() && (ok ==> buffer[writeIndex] == NUL)
      ensures WroteFitting(str, old(AvailSize()), old(buffer[..]), old(writeIndex), buffer[..], writeIndex, ok)
    {
      ghost var b0, w0 := buffer[..], writeIndex;
      var i := 0;
      while writeIndex < limitIndex
        invariant 0 <= i <= |str| && writeIndex == w0 + i && Valid()
        invariant Grew(b0, buffer[..], w0, writeIndex, limitIndex, str[..i])
        invariant forall j | writeIndex <= j < |b0| :: buffer[j] == b0[j]
      {
        buffer[writeIndex] := if i < |str| then str[i] else NUL;
        if i == |str| {
          assert str[..i] == str;
          return true;
        }
        assert str[..i + 1] == str[..i] + [str[i]];
        writeIndex := writeIndex + 1;
        i := i + 1;
      }
      assert str[..i] == WriteOut(str, limitIndex - w0).text;
      return false;
    }

    // printf, given the text the format expands to: vsnprintf into the room left.
    method Printf(text: string) returns (ok: bool)
      requires Valid() && NoNul(text)
      modifies this`writeIndex, buffer
      ensures Valid() && Ended() && ok == PrintOut(text, old(AvailSize())).ok
      ensures Grew(old(buffer[..]), buffer[..], old(writeIndex), writeIndex, limitIndex,
                   PrintOut(text, old(AvailSize())).text)
      ensures PrintedWhole(text, old(AvailSize()), old(buffer[..]), old(writeIndex), buffer[..], writeIndex, ok)
    {
      var n := |text|;
      var size := AvailSize();
      Vsnprintf(text, size);
      if n <= size {
        Printed(buffer[..], writeIndex, size, text);
        writeIndex := writeIndex + n;
        return true;
      } else {
        buffer[writeIndex] := NUL;
        return false;
      }
    }

    // The C library's part: at most size - 1 characters and a NUL; nothing if size is 0.
    method Vsnprintf(text: string, size: int)
      requires Valid() && 0 <= size && writeIndex + size <= limitIndex
      modifies buffer
      ensures Valid()
      ensures forall i | 0 <= i < buffer.Length && !(writeIndex <= i < writeIndex + size) :: buffer[i] == old(buffer[i])
      ensures size > 0 ==>
                var stored := if |text| < size then |text| else size - 1;
                && buffer[writeIndex..writeIndex + stored] == text[..stored]
                && buffer[writeIndex + stored] == NUL
    {
      if size > 0 {
        var stored := if |text| < size then |text| else size - 1;
        forall i | 0 <= i < stored { buffer[writeIndex + i] := text[i]; }
        buffer[writeIndex + stored] := NUL;
        forall i | 0 <= i < stored ensures buffer[writeIndex..writeIndex + stored][i] == text[i] {
        }
      }
    }
  }
}
