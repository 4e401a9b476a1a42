/** Assembling one protocol line from single-byte reads (`read_line`): bytes
    are collected until a newline; a read timeout is not an error and only
    makes the loop read again; any other read error ends the call. */
module LineChannel {
  import opened Io

  const NEWLINE: byte := 10

  /** The result of `read_line`. Its Rust type also admits `Ok(None)`, but no
      path of the loop produces it (a timeout never ends the call), so that
      value has no counterpart here. `Stalled` is the model's own: the scripted
      input ended before a line did, where the program would still be reading. */
  datatype LineOutcome = Got(text: seq<byte>) | Err | Stalled

  /** What `read_line` returns on `events`, and how many of them it reads. */
  datatype LineScan = LineScan(outcome: LineOutcome, used: nat)

  /** None of `events` ends a line: each is a non-newline byte or a timeout. */
  predicate Unterminated(events: seq<ReadEvent>) {
    forall k :: 0 <= k < |events| ==> events[k] != Broken && events[k] != Byte(NEWLINE)
  }

  /** The scan of `prefix + rest` when `prefix` was already read into `text`:
      the text goes in front of the line found later, and the reads add up. */
  function Behind(text: seq<byte>, read: nat, later: LineScan): LineScan {
    LineScan(if later.outcome.Got? then Got(text + later.outcome.text) else later.outcome, later.used + read)
  }

  /** The reference reading of one line from an event stream. */
  function ScanLine(events: seq<ReadEvent>): (r: LineScan)
    ensures r.used <= |events|
    ensures r.outcome.Stalled? ==> r.used == |events|
    ensures !r.outcome.Stalled? ==> r.used >= 1
    decreases |events|
  {
    if events == [] then LineScan(Stalled, 0)
    else
      match events[0]
      case Broken => LineScan(Err, 1)
      case Timeout => Behind([], 1, ScanLine(events[1..]))
      case Byte(b) =>
        if b == NEWLINE then LineScan(Got([]), 1)
        else Behind([b], 1, ScanLine(events[1..]))
  }

  /** `read_line`: read one byte at a time, pushing every byte that is not a
      newline onto the line. */
  method ReadLine(port: Port) returns (r: LineOutcome, after: Port)
    ensures var scan := ScanLine(port.incoming);
            r == scan.outcome && after == Consumed(port, scan.used)
  {
    var out: seq<byte> := [];
    var p := port;
    ghost var i := 0;
    while true
      invariant i <= |port.incoming| && p == Consumed(port, i)
      invariant ScanLine(port.incoming) == Behind(out, i, ScanLine(p.incoming))
      decreases |p.incoming|
    {
      if p.incoming == [] {
        return Stalled, p;
      }
      ReadNext(port, i);
      var got := ReadExact(p);
      ScanFirst(p.incoming);
      p, i := got.port, i + 1;
      match got.event {
        case Byte(b) =>
          if b == NEWLINE {
            assert out + [] == out;
            return Got(out), p;
          }
          Absorb(out, i - 1, [b], ScanLine(p.incoming));
          out := out + [b];
        case Timeout =>
          Absorb(out, i - 1, [], ScanLine(p.incoming));
          assert out + [] == out;
        case Broken =>
          return Err, p;
      }
    }
  }

  /** One read of the scan: what the first event does to the line. */
  lemma ScanFirst(events: seq<ReadEvent>)
    requires events != []
    ensures ScanLine(events) == match events[0]
      case Broken => LineScan(Err, 1)
      case Timeout => Behind([], 1, ScanLine(events[1..]))
      case Byte(b) => if b == NEWLINE then LineScan(Got([]), 1) else Behind([b], 1, ScanLine(events[1..]))
  {
  }

  /** Bytes read later go behind the bytes read before them. */
  lemma Absorb(text: seq<byte>, read: nat, extra: seq<byte>, later: LineScan)
    ensures Behind(text, read, Behind(extra, 1, later)) == Behind(text + extra, read + 1, later)
  {
    if later.outcome.Got? {
      assert text + (extra + later.outcome.text) == (text + extra) + later.outcome.text;
    }
  }

  /** Reading a stretch of plain bytes and timeouts only moves its bytes to the
      front of whatever the rest of the stream yields. */
  lemma {:induction false} ScanSplit(prefix: seq<ReadEvent>, rest: seq<ReadEvent>)
    requires Unterminated(prefix)
    ensures ScanLine(prefix + rest) == Behind(Payload(prefix), |prefix|, ScanLine(rest))
    decreases |prefix|
  {
    if prefix == [] {
      assert prefix + rest == rest;
    } else {
      var e := prefix[0];
      var head: seq<byte> := if e.Byte? then [e.value] else [];
      assert e != Broken && e != Byte(NEWLINE);
      assert (prefix + rest)[0] == e && (prefix + rest)[1..] == prefix[1..] + rest;
      assert ScanLine(prefix + rest) == Behind(head, 1, ScanLine(prefix[1..] + rest));
      ScanSplit(prefix[1..], rest);
      BehindTwice(head, Payload(prefix[1..]), |prefix| - 1, ScanLine(rest));
    }
  }

  lemma BehindTwice(a: seq<byte>, b: seq<byte>, n: nat, later: LineScan)
    ensures Behind(a, 1, Behind(b, n, later)) == Behind(a + b, n + 1, later)
  {
    if later.outcome.Got? {
      assert a + (b + later.outcome.text) == (a + b) + later.outcome.text;
    }
  }

  /** A line ended by a newline, after nothing but bytes and timeouts, is
      exactly its bytes in arrival order, without the newline. */
  lemma LineIsItsBytes(prefix: seq<ReadEvent>, rest: seq<ReadEvent>)
    requires Unterminated(prefix)
    ensures ScanLine(prefix + [Byte(NEWLINE)] + rest) == LineScan(Got(Payload(prefix)), |prefix| + 1)
  {
    assert prefix + [Byte(NEWLINE)] + rest == prefix + ([Byte(NEWLINE)] + rest);
    ScanSplit(prefix, [Byte(NEWLINE)] + rest);
  }

  /** A read error before the newline ends the call with an error; the bytes
      collected so far are dropped. */
  lemma ErrorDropsLine(prefix: seq<ReadEvent>, rest: seq<ReadEvent>)
    requires Unterminated(prefix)
    ensures ScanLine(prefix + [Broken] + rest) == LineScan(Err, |prefix| + 1)
  {
    assert prefix + [Broken] + rest == prefix + ([Broken] + rest);
    ScanSplit(prefix, [Broken] + rest);
  }

  /** A timeout anywhere before the end of the line changes nothing but the
      number of reads: no byte collected before it is lost. */
  lemma TimeoutIsSkipped(prefix: seq<ReadEvent>, rest: seq<ReadEvent>)
    requires Unterminated(prefix)
    ensures ScanLine(prefix + [Timeout] + rest).outcome == ScanLine(prefix + rest).outcome
    ensures ScanLine(prefix + [Timeout] + rest).used == ScanLine(prefix + rest).used + 1
  {
    assert prefix + [Timeout] + rest == (prefix + [Timeout]) + rest;
    assert Unterminated(prefix + [Timeout]);
    ScanSplit(prefix + [Timeout], rest);
    ScanSplit(prefix, rest);
    PayloadAppend(prefix, [Timeout]);
  }

  /** Without a newline or an error the call never returns: it reads the whole
      stream and is still waiting. */
  lemma NoLineWithoutNewline(events: seq<ReadEvent>)
    requires Unterminated(events)
    ensures ScanLine(events) == LineScan(Stalled, |events|)
  {
    assert events + [] == events;
    ScanSplit(events, []);
  }

  /** What a device sends for one line: its bytes, then a newline. */
  function Encode(line: seq<byte>): seq<ReadEvent> {
    seq(|line|, i requires 0 <= i < |line| => Byte(line[i])) + [Byte(NEWLINE)]
  }

  /** A line sent by the device, with no newline inside it, is read back as it
      was sent. */
  lemma {:induction false} LineRoundTrip(line: seq<byte>, rest: seq<ReadEvent>)
    requires NEWLINE !in line
    ensures ScanLine(Encode(line) + rest) == LineScan(Got(line), |line| + 1)
  {
    var bytes := seq(|line|, i requires 0 <= i < |line| => Byte(line[i]));
    assert Encode(line) + rest == bytes + [Byte(NEWLINE)] + rest;
    PayloadOfBytes(line);
    LineIsItsBytes(bytes, rest);
  }

  lemma {:induction false} PayloadOfBytes(line: seq<byte>)
    ensures Payload(seq(|line|, i requires 0 <= i < |line| => Byte(line[i]))) == line
    decreases |line|
  {
    if line != [] {
      var bytes := seq(|line|, i requires 0 <= i < |line| => Byte(line[i]));
      assert bytes[1..] == seq(|line[1..]|, i requires 0 <= i < |line[1..]| => Byte(line[1..][i]));
      PayloadOfBytes(line[1..]);
      assert line == [line[0]] + line[1..];
    }
  }
}
