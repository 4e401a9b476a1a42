/** The debug monitor (`debug`): open the port with retries, assert DTR, and
    from then on copy every byte the device sends to the console, one at a
    time, until a read fails. A read timeout is not a failure; the monitor
    never ends successfully. */
module DebugStream {
  import opened Io
  import opened Connect

  /** `DebugError`: the only ways the monitor ends. */
  datatype DebugError = PortOpenError | DTRError | ReadError

  /** How the pass-through loop ended, the port with every call made on it,
      and the characters written to the console. */
  datatype Relayed = Relayed(outcome: Outcome<DebugError>, port: Port, console: string)

  /** A byte shown as the character with the same code (`b as char`). */
  function Chars(bytes: seq<byte>): (text: string)
    ensures |text| == |bytes|
  {
    seq(|bytes|, i requires 0 <= i < |bytes| => bytes[i] as char)
  }

  function Shown(earlier: string, run: Relayed): Relayed {
    run.(console := earlier + run.console)
  }

  /** The reference pass-through loop. Every byte read is written to the
      console and then the port is flushed, whatever the flush answers; a
      timeout reads again; any other read error ends the loop. */
  function Relay(port: Port): (r: Relayed)
    ensures r.outcome == Waiting || r.outcome == Failed(ReadError)
    decreases |port.incoming|
  {
    if port.incoming == [] then Relayed(Waiting, port, [])
    else
      var got := ReadExact(port);
      match got.event
      case Byte(b) => Shown([b as char], Relay(FlushPort(got.port).port))
      case Timeout => Relay(got.port)
      case Broken => Relayed(Failed(ReadError), got.port, [])
  }

  /** The loop of `debug`. */
  method PassThrough(start: Port) returns (run: Relayed)
    ensures run == Relay(start)
  {
    var port, console := start, [];
    while true
      invariant Relay(start) == Shown(console, Relay(port))
      decreases |port.incoming|
    {
      if port.incoming == [] {
        return Relayed(Waiting, port, console);
      }
      var got := ReadExact(port);
      match got.event {
        case Byte(b) =>
          var f := FlushPort(got.port);
          assert console + ([b as char] + Relay(f.port).console) == (console + [b as char]) + Relay(f.port).console;
          console, port := console + [b as char], f.port;
        case Timeout =>
          port := got.port;
        case Broken =>
          return Relayed(Failed(ReadError), got.port, console);
      }
    }
  }

  /** `debug`. `opens` are the outcomes of the open attempts and `device` the
      connection the successful open yields. Returns how the monitor ended,
      how many opens were tried, the port with every call made on it, and
      what was written to the console. */
  method Debug(opens: seq<bool>, device: Port)
    returns (r: Outcome<DebugError>, attempts: nat, port: Port, console: string)
    ensures r == Failed(PortOpenError) <==> GivesUp(opens)
    ensures GivesUp(opens) ==> attempts == RETRY_LIMIT && port == device && console == []
    ensures !GivesUp(opens) ==>
              && ConnectsAfter(opens, attempts)
              && if !AckAt(device.acks, 0) then
                   r == Failed(DTRError) && port == After(device, [SetDtr(false)]) && console == []
                 else
                   var run := Relay(After(device, [SetDtr(true)]));
                   r == run.outcome && port == run.port && console == run.console
    ensures !r.Finished?
  {
    port, console := device, [];
    var connected;
    connected, attempts := OpenWithRetry(opens);
    if !connected {
      return Failed(PortOpenError), attempts, port, console;
    }
    var dtr := SetDataTerminalReady(port);
    port := dtr.port;
    if !dtr.ok {
      return Failed(DTRError), attempts, port, console;
    }
    var run := PassThrough(port);
    r, port, console := run.outcome, run.port, run.console;
  }

  /** The events before the first read error. */
  function UpToBreak(events: seq<ReadEvent>): (r: seq<ReadEvent>)
    ensures Broken !in r
  {
    if events == [] || events[0] == Broken then [] else [events[0]] + UpToBreak(events[1..])
  }

  /** The console shows every byte received before the first read error, in
      order and nothing else; the monitor fails exactly when a read error
      comes, and otherwise is still waiting when the input ends. */
  lemma {:induction false} RelayShowsBytes(port: Port)
    ensures Relay(port).console == Chars(Payload(UpToBreak(port.incoming)))
    ensures Relay(port).outcome == Failed(ReadError) <==> Broken in port.incoming
    decreases |port.incoming|
  {
    if port.incoming != [] {
      var e := port.incoming[0];
      var rest := port.incoming[1..];
      assert port.incoming == [e] + rest;
      var got := ReadExact(port);
      match e {
        case Byte(b) =>
          var f := FlushPort(got.port);
          RelayShowsBytes(f.port);
          assert Payload([e] + UpToBreak(rest)) == [b] + Payload(UpToBreak(rest));
          assert Chars([b] + Payload(UpToBreak(rest))) == [b as char] + Chars(Payload(UpToBreak(rest)));
        case Timeout =>
          RelayShowsBytes(got.port);
          assert Payload([e] + UpToBreak(rest)) == Payload(UpToBreak(rest));
        case Broken =>
      }
    }
  }

  /** The monitor only listens: it never puts a byte on the wire. */
  lemma {:induction false} RelaySendsNothing(port: Port)
    ensures Sent(Relay(port).port.trace) == Sent(port.trace)
    decreases |port.incoming|
  {
    if port.incoming != [] {
      var got := ReadExact(port);
      SentAppend(port.trace, [Read(port.incoming[0])]);
      SentOne(Read(port.incoming[0]));
      match got.event {
        case Byte(b) =>
          var f := FlushPort(got.port);
          SentAppend(got.port.trace, [Flush(f.ok)]);
          SentOne(Flush(f.ok));
          RelaySendsNothing(f.port);
        case Timeout =>
          RelaySendsNothing(got.port);
        case Broken =>
      }
    }
  }

  /** A carriage return between two letters, with a timeout in the middle, is
      shown as it came, and the monitor is still listening afterwards. */
  lemma RelayExample(acks: seq<bool>, trace: seq<PortOp>)
    ensures var r := Relay(Port([Byte(0x41), Timeout, Byte(0x0D), Byte(0x42)], acks, trace));
            r.console == ['A', '\r', 'B'] && r.outcome == Waiting
  {
    var events := [Byte(0x41), Timeout, Byte(0x0D), Byte(0x42)];
    RelayShowsBytes(Port(events, acks, trace));
    assert UpToBreak(events) == events;
    assert Payload(events) == [0x41, 0x0D, 0x42];
  }
}
