/** The flasher's surroundings, as values: the serial connection to a device
    and the firmware file. Each side-effecting call of the serial and file
    libraries is a function from the old value to the new one, so a `&mut`
    borrow in the program becomes a value passed in and handed back.

    What the outside world will answer is fixed up front: the read events the
    device will deliver, and whether each control, write or flush call (and
    each file call) succeeds. Every serial call made is recorded in `trace`. */
module Io {

  /** An octet on the wire or in the file. */
  type byte = b: int | 0 <= b < 256

  /** Rust's `Option`, for "the file could not be opened". */
  datatype Option<T> = None | Some(value: T)

  /** How a session ends. `Waiting` is the model's own: the scripted input
      ran out while the program was still polling the port, where the real
      program would go on polling. */
  datatype Outcome<E> = Finished | Failed(error: E) | Waiting

  /** What one `read_exact` of a single byte gives back. */
  datatype ReadEvent =
    | Byte(value: byte)  // a byte arrived
    | Timeout            // io::ErrorKind::TimedOut: nothing within the 100 ms timeout
    | Broken             // any other read error

  /** One call on the serial connection, with its result. */
  datatype PortOp =
    | SetDtr(ok: bool)
    | Write(data: seq<byte>, ok: bool)
    | Flush(ok: bool)
    | Read(event: ReadEvent)

  /** An open serial connection: what the device will deliver to the next
      reads, the answers to the next DTR, write and flush calls (in call order;
      once exhausted, every call succeeds), and every call made so far. */
  datatype Port = Port(incoming: seq<ReadEvent>, acks: seq<bool>, trace: seq<PortOp>)

  datatype Reply = Reply(ok: bool, port: Port)
  datatype Received = Received(event: ReadEvent, port: Port)

  /** Whether the call answered by `acks[k]` succeeds. */
  predicate AckAt(acks: seq<bool>, k: nat) {
    k >= |acks| || acks[k]
  }

  function Drop<T>(s: seq<T>, n: nat): seq<T> {
    if n <= |s| then s[n..] else []
  }

  /** The port after the calls `ops`, none of them a read, were made on it. */
  function After(p: Port, ops: seq<PortOp>): Port {
    p.(acks := Drop(p.acks, |ops|), trace := p.trace + ops)
  }

  /** Calls made one batch after another add up, and the next answer after a
      batch is the one following it in the script. */
  lemma AfterAfter(p: Port, a: seq<PortOp>, b: seq<PortOp>)
    ensures After(After(p, a), b) == After(p, a + b)
    ensures AckAt(After(p, a).acks, 0) == AckAt(p.acks, |a|)
  {
    assert p.trace + a + b == p.trace + (a + b);
    if |a| + |b| <= |p.acks| {
      assert p.acks[|a|..][|b|..] == p.acks[|a| + |b|..];
    }
  }

  /** `write_data_terminal_ready(true)`. */
  function SetDataTerminalReady(p: Port): Reply {
    var ok := AckAt(p.acks, 0);
    Reply(ok, After(p, [SetDtr(ok)]))
  }

  /** `write_all(data)`: on success every byte of `data` is on the wire. */
  function WriteAll(p: Port, data: seq<byte>): Reply {
    var ok := AckAt(p.acks, 0);
    Reply(ok, After(p, [Write(data, ok)]))
  }

  /** `flush()`. */
  function FlushPort(p: Port): Reply {
    var ok := AckAt(p.acks, 0);
    Reply(ok, After(p, [Flush(ok)]))
  }

  /** `read_exact` of one byte: the next scripted event. */
  function ReadExact(p: Port): Received
    requires p.incoming != []
  {
    var e := p.incoming[0];
    Received(e, p.(incoming := p.incoming[1..], trace := p.trace + [Read(e)]))
  }

  /** The reads recorded for the events `events`. */
  function Reads(events: seq<ReadEvent>): seq<PortOp> {
    seq(|events|, i requires 0 <= i < |events| => Read(events[i]))
  }

  /** The port after its first `n` incoming events were read one by one. */
  function Consumed(p: Port, n: nat): Port
    requires n <= |p.incoming|
  {
    p.(incoming := p.incoming[n..], trace := p.trace + Reads(p.incoming[..n]))
  }

  /** Reading once more from a port that has consumed `n` events delivers the
      next event and leaves a port that has consumed `n + 1`. */
  lemma ReadNext(p: Port, n: nat)
    requires n < |p.incoming|
    ensures ReadExact(Consumed(p, n)) == Received(p.incoming[n], Consumed(p, n + 1))
  {
    assert p.incoming[..n + 1] == p.incoming[..n] + [p.incoming[n]];
    assert Reads(p.incoming[..n + 1]) == Reads(p.incoming[..n]) + [Read(p.incoming[n])];
    assert p.incoming[n..][1..] == p.incoming[n + 1..];
  }

  /** The bytes a trace put on the wire: the data of every successful write, in order. */
  function Sent(trace: seq<PortOp>): seq<byte> {
    if trace == [] then []
    else
      var op := trace[|trace| - 1];
      Sent(trace[..|trace| - 1]) + (if op.Write? && op.ok then op.data else [])
  }

  /** The data bytes among `events`, in arrival order. */
  function Payload(events: seq<ReadEvent>): seq<byte> {
    if events == [] then []
    else (if events[0].Byte? then [events[0].value] else []) + Payload(events[1..])
  }

  lemma {:induction false} SentAppend(a: seq<PortOp>, b: seq<PortOp>)
    ensures Sent(a + b) == Sent(a) + Sent(b)
    decreases |b|
  {
    if b != [] {
      var b' := b[..|b| - 1];
      assert (a + b)[..|a + b| - 1] == a + b';
      assert (a + b)[|a + b| - 1] == b[|b| - 1];
      SentAppend(a, b');
    } else {
      assert a + b == a;
    }
  }

  /** A single call puts its data on the wire when it is a successful write. */
  lemma SentOne(op: PortOp)
    ensures Sent([op]) == if op.Write? && op.ok then op.data else []
  {
    assert [op][..0] == [];
  }

  lemma {:induction false} PayloadAppend(a: seq<ReadEvent>, b: seq<ReadEvent>)
    ensures Payload(a + b) == Payload(a) + Payload(b)
    decreases |a|
  {
    if a == [] {
      assert a + b == b;
    } else {
      var head: seq<byte> := if a[0].Byte? then [a[0].value] else [];
      assert (a + b)[0] == a[0] && (a + b)[1..] == a[1..] + b;
      assert Payload(a + b) == head + Payload(a[1..] + b);
      PayloadAppend(a[1..], b);
      assert head + (Payload(a[1..]) + Payload(b)) == (head + Payload(a[1..])) + Payload(b);
    }
  }

  /** The firmware file once opened: its bytes, the answers to the next
      metadata, seek and read calls (in call order; once exhausted, every call
      succeeds) and the read position. */
  datatype FileState = FileState(content: seq<byte>, acks: seq<bool>, pos: nat)

  datatype FileReply = FileReply(ok: bool, file: FileState)
  datatype FileRead = FileRead(ok: bool, data: seq<byte>, file: FileState)

  /** `metadata()`; on success the length is `|content|`. */
  function Metadata(f: FileState): FileReply {
    FileReply(AckAt(f.acks, 0), f.(acks := Drop(f.acks, 1)))
  }

  /** `seek(SeekFrom::Start(at))`; seeking past the end is allowed. */
  function SeekTo(f: FileState, at: nat): FileReply {
    var ok := AckAt(f.acks, 0);
    FileReply(ok, f.(acks := Drop(f.acks, 1), pos := if ok then at else f.pos))
  }

  /** The bytes of `content` from `at`, at most `max` of them. */
  function Window(content: seq<byte>, at: nat, max: nat): (w: seq<byte>)
    ensures |w| <= max
  {
    var lo := if at < |content| then at else |content|;
    var hi := if at + max < |content| then at + max else |content|;
    content[lo..hi]
  }

  /** `read(&mut buf)` into a buffer of `max` bytes: what is left of the
      file from the position, up to `max` bytes. */
  function ReadUpTo(f: FileState, max: nat): (r: FileRead)
    ensures |r.data| <= max
  {
    var ok := AckAt(f.acks, 0);
    var data := if ok then Window(f.content, f.pos, max) else [];
    FileRead(ok, data, f.(acks := Drop(f.acks, 1), pos := f.pos + |data|))
  }
}
