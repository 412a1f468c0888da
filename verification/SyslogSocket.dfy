// SyslogTCPSocket and SyslogTraceDump::process. The kernel's answers are parameters:
// whether a socket could be made and connected, and how much each send accepted.
module SyslogSocket {
  import opened Framing

  // What ::send returned: how many bytes were taken, or -1.
  datatype SendResult = Took(n: nat) | Failed

  // The kernel's side of one attempt.
  datatype Kernel = Kernel(socketOk: bool, connectOk: bool, first: SendResult, second: SendResult)

  function Taken(result: SendResult, data: string): (taken: string)
    ensures taken <= data
    ensures Complete(result, data) ==> taken == data
    ensures |taken| == if result.Failed? then 0 else if result.n < |data| then result.n else |data|
  {
    match result
    case Took(n) => if n <= |data| then data[..n] else data
    case Failed => ""
  }

  // ::send never takes more than it was given, so "took n" means min(n, size).
  predicate Complete(result: SendResult, data: string) {
    result.Took? && result.n >= |data|
  }

  // One connection as the receiver sees it.
  datatype Connection = Connection(bytes: string, closed: bool)

  // The messages in `sent`, whole, then at most the beginning of one more, and that
  // only on a connection that has been closed.
  ghost predicate WellFramed(c: Connection, sent: seq<string>) {
    "" !in sent && exists next, part :: Interrupted(c, sent, next, part)
  }

  ghost predicate Interrupted(c: Connection, sent: seq<string>, next: string, part: string) {
    next != "" && part < Frame(next) && c.bytes == Frames(sent) + part && (part != "" ==> c.closed)
  }

  lemma WellFramedDecodes(c: Connection, sent: seq<string>)
    requires WellFramed(c, sent)
    ensures Decode(c.bytes).0 == sent
    ensures !c.closed ==> Decode(c.bytes).1 == ""
  {
    var next, part :| Interrupted(c, sent, next, part);
    DecodeFrames(sent, next, part);
  }

  lemma CloseKeeps(c: Connection, sent: seq<string>)
    requires WellFramed(c, sent)
    ensures WellFramed(c.(closed := true), sent)
  {
    var next, part :| Interrupted(c, sent, next, part);
    assert Interrupted(c.(closed := true), sent, next, part);
  }

  // What one send puts on an open connection.
  lemma SendFrames(c: Connection, sent: seq<string>, message: string, first: SendResult, second: SendResult)
    requires WellFramed(c, sent) && !c.closed && message != ""
    ensures Complete(first, Prefix(message)) && Complete(second, message) ==>
              WellFramed(c.(bytes := c.bytes + Frame(message)), sent + [message])
    ensures Complete(first, Prefix(message)) && !Complete(second, message) ==>
              WellFramed(Connection(c.bytes + Prefix(message) + Taken(second, message), true), sent)
    ensures !Complete(first, Prefix(message)) ==>
              WellFramed(Connection(c.bytes + Taken(first, Prefix(message)), true), sent)
  {
    hide WellFramed, Frames;
    OpenIsWhole(c, sent);
    if Complete(first, Prefix(message)) && Complete(second, message) {
      FrameAdded(sent, message);
    } else if Complete(first, Prefix(message)) {
      var part := Prefix(message) + Taken(second, message);
      assert c.bytes + Prefix(message) + Taken(second, message) == c.bytes + part;
      PartAdded(sent, message, part);
    } else {
      PartAdded(sent, message, Taken(first, Prefix(message)));
    }
  }

  lemma OpenIsWhole(c: Connection, sent: seq<string>)
    requires WellFramed(c, sent) && !c.closed
    ensures "" !in sent && c.bytes == Frames(sent)
  {
    hide Frames, Frame;
    assert Frames(sent) + "" == Frames(sent);
  }

  lemma FrameAdded(sent: seq<string>, message: string)
    requires "" !in sent && message != ""
    ensures WellFramed(Connection(Frames(sent) + Frame(message), false), sent + [message])
  {
    hide Frame;
    var all := sent + [message];
    assert all[..|sent|] == sent;
    assert Frames(all) + "" == Frames(all);
    assert "" < Frame(message) by { FrameNotEmpty(message); }
    assert Interrupted(Connection(Frames(all), false), all, message, "");
  }

  lemma FrameNotEmpty(message: string)
    ensures "" < Frame(message)
  {
  }

  lemma PartAdded(sent: seq<string>, message: string, part: string)
    requires "" !in sent && message != "" && part < Frame(message)
    ensures WellFramed(Connection(Frames(sent) + part, true), sent)
  {
    hide Frame;
    assert Interrupted(Connection(Frames(sent) + part, true), sent, message, part);
  }

  lemma WholeFrame(bytes: string, message: string)
    ensures bytes + Prefix(message) + message == bytes + Frame(message)
  {
  }

  // The prefix would fill its 64-byte buffer.
  predicate TooLong(message: string) { |Prefix(message)| == 64 }

  predicate Connects(kernel: Kernel) { kernel.socketOk && kernel.connectOk }

  // Both sends are taken whole.
  predicate TakesWhole(kernel: Kernel, message: string) {
    !TooLong(message) && Complete(kernel.first, Prefix(message)) && Complete(kernel.second, message)
  }

  // What comes out on the wire.
  function Wire(kernel: Kernel, message: string): string {
    if TooLong(message) then ""
    else
      Taken(kernel.first, Prefix(message))
      + (if Complete(kernel.first, Prefix(message)) then Taken(kernel.second, message) else "")
  }

  // The message gets through at the first attempt, over the connection there is or a new
  // one, or at the second, over a new one.
  predicate GetsThrough(up: bool, kernels: (Kernel, Kernel), message: string) {
    message != ""
    && (((up || Connects(kernels.0)) && TakesWhole(kernels.0, message))
        || (Connects(kernels.1) && TakesWhole(kernels.1, message)))
  }

  // Whether there is a connection afterwards: it survives success, and a message that was
  // not tried or is too long.
  predicate UpAfter(up: bool, kernels: (Kernel, Kernel), message: string) {
    if message == "" then up
    else if TooLong(message) then up || Connects(kernels.0) || Connects(kernels.1)
    else GetsThrough(up, kernels, message)
  }

  // All connections after one attempt: nothing, or what came out on the last one.
  function Tried(cs: seq<Connection>, up: bool, kernel: Kernel, message: string): seq<Connection> {
    var all := if !up && Connects(kernel) then cs + [Connection("", false)] else cs;
    if (!up && !Connects(kernel)) || all == [] then cs
    else
      var last := |all| - 1;
      all[last := Connection(all[last].bytes + Wire(kernel, message), !TakesWhole(kernel, message) && !TooLong(message))]
  }

  // And after both, the second only if the first was in vain.
  function TriedTwice(cs: seq<Connection>, up: bool, kernels: (Kernel, Kernel), message: string): seq<Connection> {
    if message == "" then cs
    else
      var once := Tried(cs, up, kernels.0, message);
      if (up || Connects(kernels.0)) && TakesWhole(kernels.0, message) then once
      else Tried(once, TooLong(message) && (up || Connects(kernels.0)), kernels.1, message)
  }

  // Before the n-th message.
  predicate UpAt(messages: seq<string>, kernels: seq<(Kernel, Kernel)>, n: nat)
    requires n <= |messages| == |kernels|
  {
    n > 0 && UpAfter(UpAt(messages, kernels, n - 1), kernels[n - 1], messages[n - 1])
  }

  class SyslogTCPSocket {
    var connected: bool                    // fd != -1
    var connections: seq<Connection>       // every connection ever made; the last is fd's
    ghost var sent: seq<seq<string>>       // per connection: messages whose send returned true

    ghost predicate Valid()
      reads this
    {
      && |connections| == |sent|
      && (connected ==> connections != [] && !connections[|connections| - 1].closed)
      && (forall i | 0 <= i < |connections| :: WellFramed(connections[i], sent[i]))
    }

    constructor ()
      ensures Valid() && !connected && connections == [] && sent == []
    {
      connected, connections, sent := false, [], [];
    }

    method Close()
      requires Valid()
      modifies this
      ensures Valid() && !connected && sent == old(sent)
      ensures connections == if old(connected) then CloseLast(old(connections)) else old(connections)
    {
      if connected {
        var last := |connections| - 1;
        CloseKeeps(connections[last], sent[last]);
        connections := CloseLast(connections);
        connected := false;
      }
    }

    method TryConnect(kernel: Kernel) returns (ok: bool)
      requires Valid()
      modifies this
      ensures Valid() && ok == connected
      ensures ok <==> old(connected) || (kernel.socketOk && kernel.connectOk)
      ensures if connected && !old(connected)
              then connections == old(connections) + [Connection("", false)] && sent == old(sent) + [[]]
              else connections == old(connections) && sent == old(sent)
    {
      if connected {
        return true;
      }
      if !kernel.socketOk || !kernel.connectOk {
        return false;
      }
      assert Interrupted(Connection("", false), [], "x", "");
      connections, sent, connected := connections + [Connection("", false)], sent + [[]], true;
      return true;
    }

    method Send(buffer: string, kernel: Kernel) returns (ok: bool)
      requires Valid() && connected && buffer != ""
      modifies this
      ensures Valid() && |connections| == old(|connections|)
      ensures ok <==> TakesWhole(kernel, buffer)
      ensures connected <==> ok || TooLong(buffer)
      ensures var last := |connections| - 1;
              && connections[..last] == old(connections)[..last]
              && connections[last] == Connection(old(connections)[last].bytes + Wire(kernel, buffer), !connected)
      ensures sent == if ok then Extended(old(sent), buffer) else old(sent)
    {
      hide WellFramed, Frame, Frames;
      var prefix := Prefix(buffer);
      if |prefix| == 64 {
        return false;
      }
      var last := |connections| - 1;
      var c := connections[last];
      SendFrames(c, sent[last], buffer, kernel.first, kernel.second);
      connections := connections[last := c.(bytes := c.bytes + Taken(kernel.first, prefix))];
      assert c.bytes + Taken(kernel.first, prefix) + Taken(kernel.second, buffer)
          == c.bytes + (Taken(kernel.first, prefix) + Taken(kernel.second, buffer));
      if Complete(kernel.first, prefix) {
        c := connections[last];
        connections := connections[last := c.(bytes := c.bytes + Taken(kernel.second, buffer))];
        if Complete(kernel.second, buffer) {
          WholeFrame(old(connections)[last].bytes, buffer);
          sent := Extended(sent, buffer);
          return true;
        }
      }
      connections := CloseLast(connections);
      connected := false;
      return false;
    }

    // One round of SyslogTraceDump::process.
    method Attempt(message: string, kernel: Kernel) returns (ok: bool)
      requires Valid() && message != ""
      modifies this
      ensures Valid() && ok == ((old(connected) || Connects(kernel)) && TakesWhole(kernel, message))
      ensures connected == (ok || (TooLong(message) && (old(connected) || Connects(kernel))))
      ensures connections == Tried(old(connections), old(connected), kernel, message)
      ensures Flatten(sent) == Flatten(old(sent)) + (if ok then [message] else [])
    {
      hide Complete, Prefix, WellFramed, Flatten;
      ok := false;
      ghost var before := sent;
      var up := TryConnect(kernel);
      FlattenSnoc(before, []);
      if up {
        ghost var ready, cs := sent, connections;
        ok := Send(message, kernel);
        if ok { FlattenExtended(ready, message); }
        assert connections == cs[|cs| - 1 := connections[|cs| - 1]];
      }
    }

    // SyslogTraceDump::process: at most two attempts, the second for a connection that
    // turned out to be dead.
    method Process(message: string, kernels: (Kernel, Kernel)) returns (ok: bool)
      requires Valid()
      modifies this
      ensures Valid() && (ok <==> GetsThrough(old(connected), kernels, message))
      ensures connected == UpAfter(old(connected), kernels, message)
      ensures connections == TriedTwice(old(connections), old(connected), kernels, message)
      ensures Flatten(sent) == Flatten(old(sent)) + (if ok then [message] else [])
    {
      hide Flatten, WellFramed, Tried, TakesWhole, TooLong;
      ok := false;
      if message != "" {
        var i := 0;
        while i < 2 && !ok
          invariant 0 <= i <= 2 && Valid()
          invariant i == 0 ==> !ok && connected == old(connected) && connections == old(connections)
          invariant i == 1 ==>
                      && ok == ((old(connected) || Connects(kernels.0)) && TakesWhole(kernels.0, message))
                      && connected == (ok || (TooLong(message) && (old(connected) || Connects(kernels.0))))
                      && connections == Tried(old(connections), old(connected), kernels.0, message)
          invariant i == 2 ==>
                      && ok == GetsThrough(old(connected), kernels, message)
                      && connected == UpAfter(old(connected), kernels, message)
                      && connections == TriedTwice(old(connections), old(connected), kernels, message)
          invariant Flatten(sent) == Flatten(old(sent)) + (if ok then [message] else [])
        {
          ok := Attempt(message, if i == 0 then kernels.0 else kernels.1);
          LongIsNotTaken(kernels, message);
          i := i + 1;
        }
      }
    }
  }

  lemma LongIsNotTaken(kernels: (Kernel, Kernel), message: string)
    ensures TooLong(message) ==> !TakesWhole(kernels.0, message) && !TakesWhole(kernels.1, message)
  {
  }

  function CloseLast(cs: seq<Connection>): (r: seq<Connection>) {
    if cs == [] then [] else cs[|cs| - 1 := cs[|cs| - 1].(closed := true)]
  }

  ghost function Extended(sent: seq<seq<string>>, message: string): seq<seq<string>> {
    if sent == [] then [] else sent[|sent| - 1 := sent[|sent| - 1] + [message]]
  }

  function Flatten(lists: seq<seq<string>>): seq<string> {
    if lists == [] then [] else Flatten(lists[..|lists| - 1]) + lists[|lists| - 1]
  }

  lemma FlattenSnoc(lists: seq<seq<string>>, last: seq<string>)
    ensures Flatten(lists + [last]) == Flatten(lists) + last
  {
    assert (lists + [last])[..|lists|] == lists;
  }

  lemma FlattenExtended(lists: seq<seq<string>>, message: string)
    requires lists != []
    ensures Flatten(Extended(lists, message)) == Flatten(lists) + [message]
  {
    var init, last := lists[..|lists| - 1], lists[|lists| - 1];
    assert Extended(lists, message) == init + [last + [message]];
    assert lists == init + [last];
    FlattenSnoc(init, last);
    FlattenSnoc(init, last + [message]);
  }

  // The messages marked true.
  function Chosen(messages: seq<string>, marks: seq<bool>): seq<string>
    requires |messages| == |marks|
  {
    if messages == [] then []
    else Chosen(messages[..|messages| - 1], marks[..|marks| - 1])
         + (if marks[|marks| - 1] then [messages[|messages| - 1]] else [])
  }

  lemma UpNext(messages: seq<string>, kernels: seq<(Kernel, Kernel)>, n: nat)
    requires n <= |messages| == |kernels|
    ensures n == 0 ==> !UpAt(messages, kernels, n)
    ensures n < |messages| ==>
              UpAt(messages, kernels, n + 1) == UpAfter(UpAt(messages, kernels, n), kernels[n], messages[n])
  {
    hide UpAfter;
  }

  lemma NoneChosen(messages: seq<string>)
    ensures Chosen(messages[..0], []) == [] == Flatten([])
  {
  }

  lemma ChosenNext(messages: seq<string>, marks: seq<bool>, mark: bool)
    requires |marks| < |messages|
    ensures var k := |marks|;
            Chosen(messages[..k + 1], marks + [mark])
            == Chosen(messages[..k], marks) + (if mark then [messages[k]] else [])
  {
    var k := |marks|;
    assert messages[..k + 1][..k] == messages[..k] && (marks + [mark])[..k] == marks;
  }

  function DecodeAll(cs: seq<Connection>): seq<seq<string>> {
    seq(|cs|, i requires 0 <= i < |cs| => Decode(cs[i].bytes).0)
  }

  // A whole life of the syslog writer. Decoding every connection and reading the
  // results in order gives exactly the messages whose process succeeded, each once and
  // in order, whatever the kernel did; only a closed connection can end inside a frame.
  method ProcessAll(messages: seq<string>, kernels: seq<(Kernel, Kernel)>)
    returns (connections: seq<Connection>, oks: seq<bool>)
    requires |messages| == |kernels|
    ensures |oks| == |messages|
    ensures forall i | 0 <= i < |messages| ::
              oks[i] == GetsThrough(UpAt(messages, kernels, i), kernels[i], messages[i])
    ensures Flatten(DecodeAll(connections)) == Chosen(messages, oks)
    ensures forall i | 0 <= i < |connections| && !connections[i].closed :: Decode(connections[i].bytes).1 == ""
  {
    hide Chosen, Flatten, WellFramed, GetsThrough, UpAfter, TriedTwice, UpAt;
    var socket := new SyslogTCPSocket();
    oks := [];
    NoneChosen(messages);
    UpNext(messages, kernels, 0);
    while |oks| < |messages|
      invariant |oks| <= |messages| && socket.Valid() && fresh(socket)
      invariant socket.connected == UpAt(messages, kernels, |oks|)
      invariant forall i | 0 <= i < |oks| ::
                  oks[i] == GetsThrough(UpAt(messages, kernels, i), kernels[i], messages[i])
      invariant Flatten(socket.sent) == Chosen(messages[..|oks|], oks)
    {
      var k := |oks|;
      var ok := socket.Process(messages[k], kernels[k]);
      ChosenNext(messages, oks, ok);
      UpNext(messages, kernels, k);
      oks := oks + [ok];
    }
    assert messages[..|messages|] == messages;
    connections := socket.connections;
    DecodedIsSent(connections, socket.sent);
  }

  lemma DecodedIsSent(connections: seq<Connection>, sent: seq<seq<string>>)
    requires |connections| == |sent| && forall i | 0 <= i < |sent| :: WellFramed(connections[i], sent[i])
    ensures DecodeAll(connections) == sent
    ensures forall i | 0 <= i < |connections| && !connections[i].closed :: Decode(connections[i].bytes).1 == ""
  {
    forall i | 0 <= i < |connections|
      ensures Decode(connections[i].bytes).0 == sent[i]
      ensures !connections[i].closed ==> Decode(connections[i].bytes).1 == ""
    {
      WellFramedDecodes(connections[i], sent[i]);
    }
  }
}
