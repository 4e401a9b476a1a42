/** The flash session (`boot`): open the firmware file, open the port with
    retries, assert DTR and send `BOOT`, then answer the device's requests line
    by line. The device drives the transfer: it asks for the file size
    (`SIZE`), then for one 256-byte chunk at a time (`DATA`), and ends the
    session with `DONE`. */
module Flash {
  import opened Io
  import opened Text
  import opened LineChannel
  import opened Connect

  /** `BootError`. `SerialReadError` is declared by the program but never
      produced by it. */
  datatype BootError =
    | PortOpenError
    | SerialReadError
    | DTRError
    | WriteError
    | ReadError
    | FileOpenError
    | FileReadError

  const BOOT: seq<byte> := [66, 79, 79, 84]        // "BOOT"
  const LOG_TAG: seq<byte> := [108, 111, 103, 58]  // "log:"
  const ICCID: seq<byte> := [73, 67, 67, 73, 68]   // "ICCID"
  const IMEI: seq<byte> := [73, 77, 69, 73]        // "IMEI"
  const SID: seq<byte> := [83, 73, 68]             // "SID"
  const SIZE: seq<byte> := [83, 73, 90, 69]        // "SIZE"
  const DATA: seq<byte> := [68, 65, 84, 65]        // "DATA"
  const DONE: seq<byte> := [68, 79, 78, 69]        // "DONE"

  /** The size of the buffer sent for every `DATA` request. */
  const CHUNK: nat := 256

  /** Which branch of the dispatch a line takes. */
  datatype Request =
    | LogLine | IccidLine | ImeiLine | SidLine
    | SizeRequest | DataRequest | DoneSignal | Unrecognised

  /** The dispatch: the first keyword the line contains decides, tested in
      this order. */
  function Classify(line: seq<byte>): Request {
    if Contains(line, LOG_TAG) then LogLine
    else if Contains(line, ICCID) then IccidLine
    else if Contains(line, IMEI) then ImeiLine
    else if Contains(line, SID) then SidLine
    else if Contains(line, SIZE) then SizeRequest
    else if Contains(line, DATA) then DataRequest
    else if Contains(line, DONE) then DoneSignal
    else Unrecognised
  }

  /** The keywords in priority order, with the branch each selects. */
  const KEYWORDS: seq<seq<byte>> := [LOG_TAG, ICCID, IMEI, SID, SIZE, DATA, DONE]
  const REQUESTS: seq<Request> := [LogLine, IccidLine, ImeiLine, SidLine, SizeRequest, DataRequest, DoneSignal]

  /** A line shown to the user: a `log:` message, an identity field or a line
      nobody expected. */
  datatype Notice = Log(text: seq<byte>) | Identity(text: seq<byte>) | Uncaught(text: seq<byte>)

  /** The two counters of the session: the file length sent in reply to
      `SIZE`, and the file offset of the next chunk. */
  datatype Session = Session(size: nat, binIndex: nat)

  /** Whether the loop goes on after a line. */
  datatype Control = Proceed | Finish | Abort(error: BootError)

  /** Everything handling one line changes. */
  datatype Handled = Handled(control: Control, session: Session, port: Port, file: FileState, notices: seq<Notice>)

  function Zeros(n: nat): seq<byte> {
    seq(n, _ => 0)
  }

  /** The reference handling of one received line. */
  function Step(line: seq<byte>, s: Session, port: Port, file: FileState): (h: Handled)
    ensures h.port.incoming == port.incoming
    ensures h.control.Abort? ==> h.control.error == WriteError || h.control.error == FileReadError
  {
    var kind := Classify(line);
    if kind == LogLine then
      assert |LOG_TAG| <= |line|;
      Handled(Proceed, s, port, file, [Log(line[4..])])
    else if kind == IccidLine || kind == ImeiLine || kind == SidLine then
      Handled(Proceed, s, port, file, [Identity(line)])
    else if kind == SizeRequest then AnswerSize(s, port, file)
    else if kind == DataRequest then AnswerData(s, port, file)
    else if kind == DoneSignal then
      Handled(Finish, s, port, file, [])
    else
      Handled(Proceed, s, port, file, [Uncaught(line)])
  }

  /** The reference reply to `SIZE`: the file length in decimal, then a flush. */
  function AnswerSize(s: Session, port: Port, file: FileState): (h: Handled)
    ensures h.port.incoming == port.incoming && h.notices == []
    ensures h.control.Abort? ==> h.control.error == WriteError || h.control.error == FileReadError
  {
    var meta := Metadata(file);
    if !meta.ok then Handled(Abort(FileReadError), s, port, meta.file, [])
    else
      var s' := Session(|file.content|, s.binIndex);
      var w := WriteAll(port, Decimal(|file.content|));
      if !w.ok then Handled(Abort(WriteError), s', w.port, meta.file, [])
      else
        var f := FlushPort(w.port);
        Handled(if f.ok then Proceed else Abort(WriteError), s', f.port, meta.file, [])
  }

  /** The reference reply to `DATA`: the next 256 bytes of the file from the
      offset, zero-filled past its end, then a flush. */
  function AnswerData(s: Session, port: Port, file: FileState): (h: Handled)
    ensures h.port.incoming == port.incoming && h.notices == []
    ensures h.control == Proceed || h.control == Abort(FileReadError)
  {
    var sk := SeekTo(file, s.binIndex);
    if !sk.ok then Handled(Abort(FileReadError), s, port, sk.file, [])
    else
      var rd := ReadUpTo(sk.file, CHUNK);
      if !rd.ok then Handled(Abort(FileReadError), s, port, rd.file, [])
      else
        var w := WriteAll(port, rd.data + Zeros(CHUNK - |rd.data|));
        var f := FlushPort(w.port);
        Handled(Proceed, Session(s.size, if w.ok then s.binIndex + CHUNK else s.binIndex), f.port, rd.file, [])
  }

  /** One pass of the dispatch loop's body. Every branch but `DATA` only
      computes its reply, which is `Step` itself; the `DATA` branch fills a
      buffer in place and is the method `SendChunk`. */
  method HandleLine(line: seq<byte>, s: Session, port: Port, file: FileState) returns (h: Handled)
    ensures h == Step(line, s, port, file)
  {
    if Classify(line) == DataRequest {
      h := SendChunk(s, port, file);
    } else {
      h := Step(line, s, port, file);
    }
  }

  /** The `DATA` branch: allocate a zeroed buffer, let the file read fill its
      front, and write all of it; the offset moves on only when the write
      succeeded, and a failed flush is ignored. */
  method SendChunk(s: Session, port: Port, file: FileState) returns (h: Handled)
    ensures h == AnswerData(s, port, file)
  {
    var buf := new byte[CHUNK](_ => 0);
    var sk := SeekTo(file, s.binIndex);
    if !sk.ok {
      return Handled(Abort(FileReadError), s, port, sk.file, []);
    }
    var rd := ReadUpTo(sk.file, CHUNK);
    if !rd.ok {
      return Handled(Abort(FileReadError), s, port, rd.file, []);
    }
    for i := 0 to |rd.data|
      invariant forall k :: 0 <= k < i ==> buf[k] == rd.data[k]
      invariant forall k :: i <= k < CHUNK ==> buf[k] == 0
    {
      buf[i] := rd.data[i];
    }
    assert buf[..] == rd.data + Zeros(CHUNK - |rd.data|);
    var w := WriteAll(port, buf[..]);
    var binIndex := s.binIndex;
    if w.ok {
      binIndex := binIndex + CHUNK;
    }
    var f := FlushPort(w.port);
    h := Handled(Proceed, Session(s.size, binIndex), f.port, rd.file, []);
  }

  /** How the dispatch loop ends, with the last counters, port, file and the
      lines shown on the way. */
  datatype Run = Run(outcome: Outcome<BootError>, session: Session, port: Port, file: FileState, notices: seq<Notice>)

  function Extend(earlier: seq<Notice>, run: Run): Run {
    run.(notices := earlier + run.notices)
  }

  lemma ExtendTwice(a: seq<Notice>, b: seq<Notice>, run: Run)
    ensures Extend(a, Extend(b, run)) == Extend(a + b, run)
  {
    assert a + (b + run.notices) == (a + b) + run.notices;
  }

  /** The reference dispatch loop: read a line, handle it, repeat until a line
      ends the session or reading fails. */
  function Serve(s: Session, port: Port, file: FileState): (r: Run)
    ensures r.outcome.Failed? ==> r.outcome.error in {ReadError, WriteError, FileReadError}
    decreases |port.incoming|
  {
    var scan := ScanLine(port.incoming);
    var p := Consumed(port, scan.used);
    match scan.outcome
    case Stalled => Run(Waiting, s, p, file, [])
    case Err => Run(Failed(ReadError), s, p, file, [])
    case Got(line) =>
      var h := Step(line, s, p, file);
      match h.control
      case Finish => Run(Finished, h.session, h.port, h.file, h.notices)
      case Abort(e) => Run(Failed(e), h.session, h.port, h.file, h.notices)
      case Proceed => Extend(h.notices, Serve(h.session, h.port, h.file))
  }

  /** The port once DTR is asserted and `BOOT` written and flushed. */
  function Started(device: Port): Port {
    After(device, [SetDtr(true), Write(BOOT, true), Flush(true)])
  }

  /** `boot`. `image` is the firmware file (`None` when it cannot be opened),
      `opens` the outcomes of the open attempts, and `device` the connection
      the successful open yields. Returns how the session ended, how many
      opens were tried, the port with every call made on it, and the lines
      shown to the user. */
  method Boot(image: Option<FileState>, opens: seq<bool>, device: Port)
    returns (r: Outcome<BootError>, attempts: nat, port: Port, notices: seq<Notice>)
    ensures image.None? ==> r == Failed(FileOpenError) && attempts == 0 && port == device && notices == []
    ensures image.Some? ==> (r == Failed(PortOpenError) <==> GivesUp(opens))
    ensures image.Some? && GivesUp(opens) ==> attempts == RETRY_LIMIT && port == device && notices == []
    ensures image.Some? && !GivesUp(opens) ==>
              && ConnectsAfter(opens, attempts)
              && if !AckAt(device.acks, 0) then
                   r == Failed(DTRError) && port == After(device, [SetDtr(false)]) && notices == []
                 else if !AckAt(device.acks, 1) then
                   r == Failed(WriteError) && port == After(device, [SetDtr(true), Write(BOOT, false)]) && notices == []
                 else if !AckAt(device.acks, 2) then
                   r == Failed(WriteError) && port == After(device, [SetDtr(true), Write(BOOT, true), Flush(false)])
                   && notices == []
                 else
                   var run := Serve(Session(0, 0), Started(device), image.value);
                   r == run.outcome && port == run.port && notices == run.notices
    ensures r != Failed(SerialReadError)
  {
    port, notices := device, [];
    if image.None? {
      return Failed(FileOpenError), 0, port, notices;
    }
    var connected;
    connected, attempts := OpenWithRetry(opens);
    if !connected {
      return Failed(PortOpenError), attempts, port, notices;
    }
    var dtr := SetDataTerminalReady(port);
    port := dtr.port;
    if !dtr.ok {
      return Failed(DTRError), attempts, port, notices;
    }
    AfterAfter(device, [SetDtr(true)], [Write(BOOT, AckAt(device.acks, 1))]);
    assert [SetDtr(true)] + [Write(BOOT, AckAt(device.acks, 1))] == [SetDtr(true), Write(BOOT, AckAt(device.acks, 1))];
    var w := WriteAll(port, BOOT);
    port := w.port;
    if !w.ok {
      return Failed(WriteError), attempts, port, notices;
    }
    AfterAfter(device, [SetDtr(true), Write(BOOT, true)], [Flush(AckAt(device.acks, 2))]);
    assert [SetDtr(true), Write(BOOT, true)] + [Flush(AckAt(device.acks, 2))]
        == [SetDtr(true), Write(BOOT, true), Flush(AckAt(device.acks, 2))];
    var f := FlushPort(port);
    port := f.port;
    if !f.ok {
      return Failed(WriteError), attempts, port, notices;
    }

    assert [SetDtr(true), Write(BOOT, true)] + [Flush(true)] == [SetDtr(true), Write(BOOT, true), Flush(true)];
    assert port == Started(device);
    var run := Dispatch(port, image.value);
    r, port, notices := run.outcome, run.port, run.notices;
  }

  /** The dispatch loop of `boot`, from fresh counters until a line ends the
      session or reading fails. */
  method Dispatch(start: Port, image: FileState) returns (run: Run)
    ensures run == Serve(Session(0, 0), start, image)
  {
    var session, port, file, notices := Session(0, 0), start, image, [];
    while true
      invariant Serve(Session(0, 0), start, image) == Extend(notices, Serve(session, port, file))
      decreases |port.incoming|
    {
      var line;
      line, port := ReadLine(port);
      match line {
        case Stalled =>
          return Run(Waiting, session, port, file, notices);
        case Err =>
          return Run(Failed(ReadError), session, port, file, notices);
        case Got(text) =>
          var h := HandleLine(text, session, port, file);
          match h.control {
            case Finish =>
              return Run(Finished, h.session, h.port, h.file, notices + h.notices);
            case Abort(e) =>
              return Run(Failed(e), h.session, h.port, h.file, notices + h.notices);
            case Proceed =>
              ExtendTwice(notices, h.notices, Serve(h.session, h.port, h.file));
              session, port, file, notices := h.session, h.port, h.file, notices + h.notices;
          }
      }
    }
  }
}
