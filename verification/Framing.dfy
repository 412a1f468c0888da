// Octet counting, section 3.4.1 of RFC 6587: a frame is the message's length in
// decimal, a space, and the message. The encoder is SyslogTCPSocket::send; the decoder
// here is the one the RFC implies, written from the receiver's side.
module Framing {

  function Digit(d: nat): char
    requires d < 10
  {
    '0' + d as char
  }

  predicate IsDigit(ch: char) { '0' <= ch <= '9' }

  function DigitValue(ch: char): (d: nat)
    requires IsDigit(ch)
    ensures d < 10
  {
    (ch - '0') as nat
  }

  // printf("%ld") of a non-negative number.
  function Decimal(n: nat): (s: string)
    ensures |s| > 0
    ensures forall i | 0 <= i < |s| :: IsDigit(s[i])
    decreases n
  {
    if n < 10 then [Digit(n)] else Decimal(n / 10) + [Digit(n % 10)]
  }

  function Value(s: string): nat
    requires forall i | 0 <= i < |s| :: IsDigit(s[i])
  {
    if s == [] then 0 else 10 * Value(s[..|s| - 1]) + DigitValue(s[|s| - 1])
  }

  lemma {:induction false} DecimalRoundTrip(n: nat)
    ensures Value(Decimal(n)) == n
    decreases n
  {
    var s := Decimal(n);
    if n < 10 {
      assert s[..|s| - 1] == [];
    } else {
      DecimalRoundTrip(n / 10);
      assert s[..|s| - 1] == Decimal(n / 10);
    }
  }

  // Only zero starts with a zero.
  lemma {:induction false} NoLeadingZero(n: nat)
    requires n > 0
    ensures Decimal(n)[0] != '0'
    decreases n
  {
    if n >= 10 { NoLeadingZero(n / 10); }
  }

  function Prefix(message: string): string { Decimal(|message|) + " " }

  function Frame(message: string): string { Prefix(message) + message }

  function Frames(messages: seq<string>): string {
    if messages == [] then "" else Frames(messages[..|messages| - 1]) + Frame(messages[|messages| - 1])
  }

  // --- the receiver ---

  // Length of the run of digits at the start.
  function DigitRun(s: string): (n: nat)
    ensures n <= |s| && (forall i | 0 <= i < n :: IsDigit(s[i])) && (n < |s| ==> !IsDigit(s[n]))
  {
    if s == [] || !IsDigit(s[0]) then 0 else 1 + DigitRun(s[1..])
  }

  // The length of the first frame if the whole of it has arrived.
  function FirstFrame(s: string): (n: nat)
    ensures n <= |s|
  {
    var d := DigitRun(s);
    if d == 0 || s[0] == '0' || d == |s| || s[d] != ' ' || |s| - (d + 1) < Value(s[..d]) then 0
    else d + 1 + Value(s[..d])
  }

  // All complete frames, and what is left over.
  function Decode(s: string): (seq<string>, string)
    decreases |s|
  {
    var n := FirstFrame(s);
    if n == 0 then ([], s)
    else
      var rest := Decode(s[n..]);
      ([s[DigitRun(s) + 1..n]] + rest.0, rest.1)
  }

  lemma DigitRunIs(s: string, d: nat)
    requires d <= |s| && (forall i | 0 <= i < d :: IsDigit(s[i])) && (d < |s| ==> !IsDigit(s[d]))
    ensures DigitRun(s) == d
  {
  }

  lemma FirstFrameIs(message: string, more: string)
    requires message != ""
    ensures FirstFrame(Frame(message) + more) == |Frame(message)|
    ensures DigitRun(Frame(message) + more) == |Decimal(|message|)|
  {
    var s, d := Frame(message) + more, |Decimal(|message|)|;
    assert s[..d] == Decimal(|message|) && s[d] == ' ';
    forall i | 0 <= i < d ensures IsDigit(s[i]) { assert s[i] == Decimal(|message|)[i]; }
    DigitRunIs(s, d);
    DecimalRoundTrip(|message|);
    NoLeadingZero(|message|);
  }

  // A proper prefix of a frame has no complete frame in it.
  lemma NoFrameInPart(message: string, part: string)
    requires message != "" && part < Frame(message)
    ensures FirstFrame(part) == 0
  {
    var f, d := Frame(message), |Decimal(|message|)|;
    assert f[..d] == Decimal(|message|) && f[d] == ' ';
    forall i | 0 <= i < d && i < |part| ensures IsDigit(part[i]) { assert part[i] == Decimal(|message|)[i]; }
    if |part| <= d {
      DigitRunIs(part, |part|);
    } else {
      assert part[d] == ' ' && part[..d] == Decimal(|message|);
      DigitRunIs(part, d);
      DecimalRoundTrip(|message|);
    }
  }

  lemma {:induction false} FramesCons(messages: seq<string>)
    requires messages != []
    ensures Frames(messages) == Frame(messages[0]) + Frames(messages[1..])
    decreases |messages|
  {
    hide Frame;
    var init, last := messages[..|messages| - 1], Frame(messages[|messages| - 1]);
    if init == [] {
      assert Frames(messages) == "" + last;
      assert messages[1..] == [];
    } else {
      FramesCons(init);
      assert messages[1..][..|messages| - 2] == init[1..];
      calc {
        Frames(messages);
        Frames(init) + last;
        (Frame(messages[0]) + Frames(init[1..])) + last;
        Frame(messages[0]) + (Frames(init[1..]) + last);
        Frame(messages[0]) + Frames(messages[1..]);
      }
    }
  }

  lemma DecodePart(next: string, part: string)
    requires next != "" && part < Frame(next)
    ensures Decode(Frames([]) + part) == ([], part)
  {
    hide Frame, FirstFrame;
    assert Frames([]) + part == part;
    NoFrameInPart(next, part);
  }

  // Complete frames followed by part of one decode to exactly those messages.
  lemma {:induction false} DecodeFrames(messages: seq<string>, next: string, part: string)
    requires "" !in messages && next != "" && part < Frame(next)
    ensures Decode(Frames(messages) + part) == (messages, part)
    decreases |messages|
  {
    hide Decode, Frames, Frame;
    if messages == [] {
      DecodePart(next, part);
    } else {
      var m, rest := messages[0], Frames(messages[1..]) + part;
      FramesCons(messages);
      assert Frames(messages) + part == Frame(m) + rest;
      DecodeFirst(m, rest);
      DecodeFrames(messages[1..], next, part);
      assert messages == [m] + messages[1..];
    }
  }

  lemma DecodeFirst(m: string, rest: string)
    requires m != ""
    ensures Decode(Frame(m) + rest) == ([m] + Decode(rest).0, Decode(rest).1)
  {
    hide DigitRun, FirstFrame, Decimal;
    var s := Frame(m) + rest;
    FirstFrameIs(m, rest);
    assert s[|Frame(m)|..] == rest;
    assert s[|Decimal(|m|)| + 1..|Frame(m)|] == m;
  }

  // So a byte stream determines its messages: there is no other way to read it.
  lemma FramesUnique(a: seq<string>, b: seq<string>, next: string, part: string, next': string, part': string)
    requires "" !in a && "" !in b && next != "" && next' != "" && part < Frame(next) && part' < Frame(next')
    requires Frames(a) + part == Frames(b) + part'
    ensures a == b && part == part'
  {
    DecodeFrames(a, next, part);
    DecodeFrames(b, next', part');
  }
}
