/** What the flash session guarantees: the order of the dispatch, the reply to
    `SIZE`, the chunk sent for `DATA`, the counters' invariant, and what the
    device receives over a whole session without faults. */
module FlashProperties {
  import opened Io
  import opened Text
  import opened LineChannel
  import opened Flash

  /** A line takes branch `j` of the dispatch exactly when it contains keyword
      `j` and none of the keywords tested before it. */
  lemma ClassifyFirstMatch(line: seq<byte>, j: nat)
    requires j < |KEYWORDS|
    ensures Classify(line) == REQUESTS[j]
        <==> Contains(line, KEYWORDS[j]) && forall i :: 0 <= i < j ==> !Contains(line, KEYWORDS[i])
  {
    var none := forall i :: 0 <= i < j ==> !Contains(line, KEYWORDS[i]);
    if j >= 1 {
      assert none ==> !Contains(line, KEYWORDS[0]);
    }
    if j >= 2 {
      assert none ==> !Contains(line, KEYWORDS[1]);
    }
    if j >= 3 {
      assert none ==> !Contains(line, KEYWORDS[2]);
    }
    if j >= 4 {
      assert none ==> !Contains(line, KEYWORDS[3]);
    }
    if j >= 5 {
      assert none ==> !Contains(line, KEYWORDS[4]);
    }
    if j >= 6 {
      assert none ==> !Contains(line, KEYWORDS[5]);
    }
  }

  /** A line is unrecognised exactly when it contains none of the keywords. */
  lemma ClassifyNoMatch(line: seq<byte>)
    ensures Classify(line) == Unrecognised <==> forall i :: 0 <= i < |KEYWORDS| ==> !Contains(line, KEYWORDS[i])
  {
    if Classify(line) == Unrecognised {
      forall i | 0 <= i < |KEYWORDS|
        ensures !Contains(line, KEYWORDS[i])
      {
        assert i in {0, 1, 2, 3, 4, 5, 6};
      }
    } else if Contains(line, LOG_TAG) {
      assert Contains(line, KEYWORDS[0]);
    } else if Contains(line, ICCID) {
      assert Contains(line, KEYWORDS[1]);
    } else if Contains(line, IMEI) {
      assert Contains(line, KEYWORDS[2]);
    } else if Contains(line, SID) {
      assert Contains(line, KEYWORDS[3]);
    } else if Contains(line, SIZE) {
      assert Contains(line, KEYWORDS[4]);
    } else if Contains(line, DATA) {
      assert Contains(line, KEYWORDS[5]);
    } else {
      assert Contains(line, KEYWORDS[6]);
    }
  }

  /** Only a `DONE` line ends the session successfully. */
  lemma OnlyDoneFinishes(line: seq<byte>, s: Session, port: Port, file: FileState)
    ensures Step(line, s, port, file).control == Finish <==> Classify(line) == DoneSignal
  {
  }

  /** Log, identity and unrecognised lines are shown and change nothing else:
      not the counters, not the port (nothing is written), not the file. */
  lemma ShownLinesChangeNothing(line: seq<byte>, s: Session, port: Port, file: FileState)
    requires Classify(line) in {LogLine, IccidLine, ImeiLine, SidLine, Unrecognised}
    ensures var h := Step(line, s, port, file);
            && h.control == Proceed && h.session == s && h.port == port && h.file == file
            && h.notices == [match Classify(line)
                             case LogLine => Log(line[4..])
                             case Unrecognised => Uncaught(line)
                             case _ => Identity(line)]
  {
  }

  /** For a line that starts with `log:` the message shown is what follows the
      tag. The text shown is always the line from its fifth byte on, wherever
      the tag occurs. */
  lemma LogShowsMessage(message: seq<byte>, s: Session, port: Port, file: FileState)
    ensures Step(LOG_TAG + message, s, port, file).notices == [Log(message)]
  {
    assert (LOG_TAG + message)[..|LOG_TAG|] == LOG_TAG;
    assert (LOG_TAG + message)[4..] == message;
  }

  /** The reply to `SIZE`: a metadata failure aborts with `FileReadError`
      before anything is written; otherwise the size counter becomes the file
      length and the offset is kept, and the decimal digits of the length, which
      read back as the length, are written in one call with no newline and then
      flushed. A failed write (then nothing is flushed) or a failed flush
      aborts with `WriteError`. */
  lemma SizeReply(line: seq<byte>, s: Session, port: Port, file: FileState)
    requires Classify(line) == SizeRequest
    ensures var h := Step(line, s, port, file);
            var n := |file.content|;
            var wrote := AckAt(port.acks, 0);
            var flushed := AckAt(port.acks, 1);
            && (!AckAt(file.acks, 0) ==> h.control == Abort(FileReadError) && h.port == port && h.session == s)
            && (AckAt(file.acks, 0) ==>
                  && h.session == Session(n, s.binIndex)
                  && h.port == After(port, [Write(Decimal(n), wrote)] + (if wrote then [Flush(flushed)] else []))
                  && Sent(h.port.trace) == Sent(port.trace) + (if wrote then Decimal(n) else [])
                  && h.control == (if wrote && flushed then Proceed else Abort(WriteError)))
            && ValueOf(Decimal(n)) == n
  {
    var n := |file.content|;
    DecimalRoundTrip(n);
    if AckAt(file.acks, 0) {
      var ops := [Write(Decimal(n), AckAt(port.acks, 0))];
      SentOne(ops[0]);
      SentAppend(port.trace, ops);
      if AckAt(port.acks, 0) {
        var w := WriteAll(port, Decimal(n));
        AfterAfter(port, ops, [Flush(AckAt(w.port.acks, 0))]);
        SentAppend(port.trace + ops, [Flush(AckAt(w.port.acks, 0))]);
        SentOne(Flush(AckAt(w.port.acks, 0)));
      } else {
        assert ops + [] == ops;
      }
    }
  }

  /** The chunk sent at offset `at`: the file's bytes from `at`, then zeros up
      to 256 bytes. */
  function Chunk(content: seq<byte>, at: nat): seq<byte> {
    var w := Window(content, at, CHUNK);
    w + Zeros(CHUNK - |w|)
  }

  /** Every chunk is 256 bytes: byte `i` is the file's byte at `at + i` when
      there is one, and zero past the end of the file. */
  lemma ChunkBytes(content: seq<byte>, at: nat)
    ensures |Chunk(content, at)| == CHUNK
    ensures forall i :: 0 <= i < CHUNK ==> Chunk(content, at)[i] == if at + i < |content| then content[at + i] else 0
  {
  }

  /** The reply to `DATA`: a failed seek or read aborts with `FileReadError`;
      otherwise the chunk at the current offset is written and then flushed,
      and the offset moves on by 256 exactly when the write succeeded, so a
      failed write makes the next `DATA` send the same chunk again. The size
      counter is kept and the session goes on whatever the flush answered. */
  lemma DataChunk(line: seq<byte>, s: Session, port: Port, file: FileState)
    requires Classify(line) == DataRequest
    ensures var h := Step(line, s, port, file);
            && (!(AckAt(file.acks, 0) && AckAt(file.acks, 1)) ==>
                  h.control == Abort(FileReadError) && h.port == port && h.session == s)
            && (AckAt(file.acks, 0) && AckAt(file.acks, 1) ==>
                  var wrote := AckAt(port.acks, 0);
                  && h.control == Proceed
                  && h.port == After(port, [Write(Chunk(file.content, s.binIndex), wrote), Flush(AckAt(port.acks, 1))])
                  && h.session == Session(s.size, if wrote then s.binIndex + CHUNK else s.binIndex)
                  && h.file.content == file.content)
  {
    if AckAt(file.acks, 0) && AckAt(file.acks, 1) {
      var sk := SeekTo(file, s.binIndex);
      assert AckAt(sk.file.acks, 0);
      var w := WriteAll(port, Chunk(file.content, s.binIndex));
      AfterAfter(port, [Write(Chunk(file.content, s.binIndex), w.ok)], [Flush(AckAt(w.port.acks, 0))]);
    }
  }

  /** The offset stays a multiple of 256 and never decreases, however the
      session goes. */
  lemma {:induction false} ServeKeepsAlignment(s: Session, port: Port, file: FileState)
    requires s.binIndex % CHUNK == 0
    ensures Serve(s, port, file).session.binIndex % CHUNK == 0
    ensures Serve(s, port, file).session.binIndex >= s.binIndex
    decreases |port.incoming|
  {
    var scan := ScanLine(port.incoming);
    var p := Consumed(port, scan.used);
    if scan.outcome.Got? {
      var h := Step(scan.outcome.text, s, p, file);
      StepMovesOffset(scan.outcome.text, s, p, file);
      if h.control == Proceed {
        ServeKeepsAlignment(h.session, h.port, h.file);
      }
    }
  }

  /** Handling one line leaves the offset as it was or moves it on by one chunk. */
  lemma StepMovesOffset(line: seq<byte>, s: Session, port: Port, file: FileState)
    ensures var b := Step(line, s, port, file).session.binIndex;
            b == s.binIndex || b == s.binIndex + CHUNK
  {
  }

  /** What a device sends when it asks for `k` chunks in a row. */
  function Repeat(events: seq<ReadEvent>, k: nat): seq<ReadEvent> {
    if k == 0 then [] else events + Repeat(events, k - 1)
  }

  /** The chunks at offsets `at`, `at + 256`, ... , `k` of them, back to back. */
  function Chunks(content: seq<byte>, at: nat, k: nat): seq<byte>
    decreases k
  {
    if k == 0 then [] else Chunks(content, at, k - 1) + Chunk(content, at + CHUNK * (k - 1))
  }

  /** Reads put nothing on the wire. */
  lemma SentIgnoresReads(trace: seq<PortOp>, events: seq<ReadEvent>)
    ensures Sent(trace + Reads(events)) == Sent(trace)
    decreases |events|
  {
    if events != [] {
      var n := |events| - 1;
      assert Reads(events) == Reads(events[..n]) + [Read(events[n])];
      assert trace + Reads(events) == (trace + Reads(events[..n])) + [Read(events[n])];
      SentIgnoresReads(trace, events[..n]);
    } else {
      assert trace + Reads(events) == trace;
    }
  }

  /** The three request words are recognised as what they name, and none
      holds a newline. */
  lemma KeywordLines()
    ensures Classify(SIZE) == SizeRequest
    ensures Classify(DATA) == DataRequest
    ensures Classify(DONE) == DoneSignal
    ensures NEWLINE !in SIZE && NEWLINE !in DATA && NEWLINE !in DONE
  {
    SizeLine();
    DataLine();
    DoneLine();
  }

  lemma SizeLine()
    ensures Classify(SIZE) == SizeRequest
  {
    assert SIZE[..3][2] != SID[2] && SIZE[1..][..3][0] != SID[0];
    assert !Contains(SIZE[1..][1..], SID);
    assert !Contains(SIZE[1..], SID);
    assert !Contains(SIZE, SID);
  }

  lemma DataLine()
    ensures Classify(DATA) == DataRequest
  {
    assert DATA[..3][0] != SID[0] && DATA[1..][..3][0] != SID[0];
    assert !Contains(DATA[1..][1..], SID);
    assert !Contains(DATA[1..], SID);
    assert !Contains(DATA, SID);
    assert !Contains(DATA, SIZE);
  }

  lemma DoneLine()
    ensures Classify(DONE) == DoneSignal
  {
    assert DONE[..3][0] != SID[0] && DONE[1..][..3][0] != SID[0];
    assert !Contains(DONE[1..][1..], SID);
    assert !Contains(DONE[1..], SID);
    assert !Contains(DONE, SID);
    assert !Contains(DONE, SIZE) && !Contains(DONE, DATA);
  }

  /** When the next line on the port is `line`, the dispatch loop reads it
      (which sends nothing), handles it, and goes on exactly when the handling
      says so. */
  lemma ServeFirstLine(s: Session, port: Port, file: FileState, line: seq<byte>, rest: seq<ReadEvent>)
    requires NEWLINE !in line
    requires port.incoming == Encode(line) + rest
    ensures var p := Consumed(port, |line| + 1);
            var h := Step(line, s, p, file);
            && p.incoming == rest && p.acks == port.acks
            && Sent(p.trace) == Sent(port.trace)
            && Serve(s, port, file) == match h.control
                 case Finish => Run(Finished, h.session, h.port, h.file, h.notices)
                 case Abort(e) => Run(Failed(e), h.session, h.port, h.file, h.notices)
                 case Proceed => Extend(h.notices, Serve(h.session, h.port, h.file))
  {
    LineRoundTrip(line, rest);
    var n := |line| + 1;
    assert |Encode(line)| == n;
    assert port.incoming[n..] == rest;
    SentIgnoresReads(port.trace, port.incoming[..n]);
  }

  /** A request for data when every call succeeds: the chunk at the offset
      goes out and the offset moves on by 256. */
  lemma CleanDataStep(ask: seq<byte>, s: Session, p: Port, file: FileState)
    requires Classify(ask) == DataRequest
    requires p.acks == [] && file.acks == []
    ensures var h := Step(ask, s, p, file);
            && h.control == Proceed && h.notices == []
            && h.session == Session(s.size, s.binIndex + CHUNK)
            && h.port.incoming == p.incoming && h.port.acks == []
            && Sent(h.port.trace) == Sent(p.trace) + Chunk(file.content, s.binIndex)
            && h.file.content == file.content && h.file.acks == []
  {
    DataChunk(ask, s, p, file);
    SentWriteFlush(p.trace, Chunk(file.content, s.binIndex));
  }

  /** A successful write followed by a flush puts exactly the written bytes
      on the wire. */
  lemma SentWriteFlush(trace: seq<PortOp>, data: seq<byte>)
    ensures Sent(trace + [Write(data, true), Flush(true)]) == Sent(trace) + data
  {
    SentAppend(trace, [Write(data, true), Flush(true)]);
    SentAppend([Write(data, true)], [Flush(true)]);
    assert [Write(data, true), Flush(true)] == [Write(data, true)] + [Flush(true)];
    SentOne(Write(data, true));
    SentOne(Flush(true));
  }

  /** When nothing fails, `k` requests for data in a row (each the line
      `ask`) get the `k` chunks from the current offset, in order: the
      session goes on from the state `h`, with the offset `256 * k` further
      on and nothing shown. */
  lemma {:induction false} DataRun(ask: seq<byte>, s: Session, port: Port, file: FileState, k: nat, tail: seq<ReadEvent>)
    returns (h: Handled)
    requires Classify(ask) == DataRequest && NEWLINE !in ask
    requires port.acks == [] && file.acks == []
    requires port.incoming == Repeat(Encode(ask), k) + tail
    ensures Serve(s, port, file) == Extend([], Serve(h.session, h.port, h.file))
    ensures Sent(h.port.trace) == Sent(port.trace) + Chunks(file.content, s.binIndex, k)
    ensures h.port.incoming == tail && h.port.acks == []
    ensures h.session == Session(s.size, s.binIndex + CHUNK * k)
    ensures h.file.content == file.content && h.file.acks == []
    decreases k, 1
  {
    if k == 0 {
      assert port.incoming == tail;
      h := Handled(Proceed, s, port, file, []);
      assert [] + Serve(s, port, file).notices == Serve(s, port, file).notices;
    } else {
      h := DataRunMore(ask, s, port, file, k, tail);
    }
  }

  lemma {:induction false} DataRunMore(ask: seq<byte>, s: Session, port: Port, file: FileState, k: nat, tail: seq<ReadEvent>)
    returns (h: Handled)
    requires k > 0
    requires Classify(ask) == DataRequest && NEWLINE !in ask
    requires port.acks == [] && file.acks == []
    requires port.incoming == Repeat(Encode(ask), k) + tail
    ensures Serve(s, port, file) == Extend([], Serve(h.session, h.port, h.file))
    ensures Sent(h.port.trace) == Sent(port.trace) + Chunks(file.content, s.binIndex, k)
    ensures h.port.incoming == tail && h.port.acks == []
    ensures h.session == Session(s.size, s.binIndex + CHUNK * k)
    ensures h.file.content == file.content && h.file.acks == []
    decreases k, 0
  {
    RepeatSnoc(Encode(ask), k, tail);
    var first := DataRun(ask, s, port, file, k - 1, Encode(ask) + tail);
    h := DataFirst(ask, first.session, first.port, first.file, tail);
    SkipTwice(Serve(s, port, file), Serve(first.session, first.port, first.file), Serve(h.session, h.port, h.file));
    ChainChunks(Sent(port.trace), file.content, s, k, first, h);
  }

  /** The trace and the offset after `k - 1` requests and then one more. */
  lemma ChainChunks(before: seq<byte>, content: seq<byte>, s: Session, k: nat, first: Handled, h: Handled)
    requires k > 0
    requires Sent(first.port.trace) == before + Chunks(content, s.binIndex, k - 1)
    requires first.session == Session(s.size, s.binIndex + CHUNK * (k - 1)) && first.file.content == content
    requires Sent(h.port.trace) == Sent(first.port.trace) + Chunk(first.file.content, first.session.binIndex)
    requires h.session == Session(first.session.size, first.session.binIndex + CHUNK)
    ensures Sent(h.port.trace) == before + Chunks(content, s.binIndex, k)
    ensures h.session == Session(s.size, s.binIndex + CHUNK * k)
  {
    Associate(before, Chunks(content, s.binIndex, k - 1), Chunk(content, s.binIndex + CHUNK * (k - 1)),
              Sent(first.port.trace), Sent(h.port.trace));
    assert CHUNK * (k - 1) + CHUNK == CHUNK * k;
  }

  lemma Associate(before: seq<byte>, done: seq<byte>, last: seq<byte>, x: seq<byte>, y: seq<byte>)
    requires x == before + done && y == x + last
    ensures y == before + (done + last)
  {
  }

  lemma {:induction false} RepeatSnoc(e: seq<ReadEvent>, k: nat, tail: seq<ReadEvent>)
    requires k > 0
    ensures Repeat(e, k) + tail == Repeat(e, k - 1) + (e + tail)
    decreases k
  {
    if k > 1 {
      RepeatSnoc(e, k - 1, tail);
      assert Repeat(e, k) + tail == e + (Repeat(e, k - 1) + tail);
    }
  }

  lemma SkipTwice(a: Run, b: Run, c: Run)
    requires a == Extend([], b) && b == Extend([], c)
    ensures a == Extend([], c)
  {
    assert [] + ([] + c.notices) == [] + c.notices;
  }

  /** When nothing fails, a device asking for `k` chunks and then sending
      `DONE` gets the `k` chunks from the current offset, in order, and the
      session ends successfully with the offset `256 * k` further on. */
  lemma DataPhase(s: Session, port: Port, file: FileState, k: nat, rest: seq<ReadEvent>)
    requires port.acks == [] && file.acks == []
    requires port.incoming == Repeat(Encode(DATA), k) + Encode(DONE) + rest
    ensures var r := Serve(s, port, file);
            && r.outcome == Finished
            && r.session == Session(s.size, s.binIndex + CHUNK * k)
            && Sent(r.port.trace) == Sent(port.trace) + Chunks(file.content, s.binIndex, k)
            && r.notices == []
  {
    assert port.incoming == Repeat(Encode(DATA), k) + (Encode(DONE) + rest);
    KeywordLines();
    var h := DataRun(DATA, s, port, file, k, Encode(DONE) + rest);
    DoneFirst(DONE, h.session, h.port, h.file, rest);
    Unextend(Serve(s, port, file), Serve(h.session, h.port, h.file));
  }

  /** A run that only continues another ends as that one does. */
  lemma Unextend(r: Run, later: Run)
    requires r == Extend([], later)
    ensures r == later
  {
    assert [] + later.notices == later.notices;
  }

  /** A `DONE` line at the head of the port ends the session successfully,
      sending nothing and leaving the counters as they were. */
  lemma DoneFirst(fin: seq<byte>, s: Session, port: Port, file: FileState, rest: seq<ReadEvent>)
    requires Classify(fin) == DoneSignal && NEWLINE !in fin
    requires port.incoming == Encode(fin) + rest
    ensures Serve(s, port, file).outcome == Finished
    ensures Serve(s, port, file).session == s
    ensures Sent(Serve(s, port, file).port.trace) == Sent(port.trace)
    ensures Serve(s, port, file).notices == []
  {
    ServeFirstLine(s, port, file, fin, rest);
  }

  /** A request for data at the head of the port, when every call succeeds:
      the session goes on from the state `h` that sent the chunk at the
      offset. */
  lemma DataFirst(ask: seq<byte>, s: Session, port: Port, file: FileState, later: seq<ReadEvent>) returns (h: Handled)
    requires Classify(ask) == DataRequest && NEWLINE !in ask
    requires port.acks == [] && file.acks == []
    requires port.incoming == Encode(ask) + later
    ensures Serve(s, port, file) == Extend([], Serve(h.session, h.port, h.file))
    ensures Sent(h.port.trace) == Sent(port.trace) + Chunk(file.content, s.binIndex)
    ensures h.port.incoming == later && h.port.acks == []
    ensures h.session == Session(s.size, s.binIndex + CHUNK)
    ensures h.file.content == file.content && h.file.acks == []
  {
    ServeFirstLine(s, port, file, ask, later);
    var p := Consumed(port, |ask| + 1);
    CleanDataStep(ask, s, p, file);
    h := Step(ask, s, p, file);
  }

  /** A whole session without faults: the device asks for the size, then for
      `k` chunks, then sends `DONE`. The wire carries the decimal length and
      then the chunks; the session ends successfully with the counters at the
      file length and `256 * k`. */
  lemma CleanSession(port: Port, file: FileState, k: nat, rest: seq<ReadEvent>)
    requires port.acks == [] && file.acks == []
    requires port.incoming == Encode(SIZE) + Repeat(Encode(DATA), k) + Encode(DONE) + rest
    ensures var r := Serve(Session(0, 0), port, file);
            && r.outcome == Finished
            && r.session == Session(|file.content|, CHUNK * k)
            && Sent(r.port.trace) == Sent(port.trace) + Decimal(|file.content|) + Chunks(file.content, 0, k)
  {
    var later := Repeat(Encode(DATA), k) + Encode(DONE) + rest;
    assert port.incoming == Encode(SIZE) + later;
    var h := SizeFirst(Session(0, 0), port, file, later);
    DataPhase(h.session, h.port, h.file, k, rest);
    var r := Serve(h.session, h.port, h.file);
    assert Sent(r.port.trace) == Sent(port.trace) + Decimal(|file.content|) + Chunks(file.content, 0, k);
    assert [] + r.notices == r.notices;
  }

  /** A `SIZE` line at the head of the port, when every call succeeds: the
      session goes on from the state `h` that sent the decimal length. */
  lemma SizeFirst(s: Session, port: Port, file: FileState, later: seq<ReadEvent>) returns (h: Handled)
    requires port.acks == [] && file.acks == []
    requires port.incoming == Encode(SIZE) + later
    ensures Serve(s, port, file) == Extend([], Serve(h.session, h.port, h.file))
    ensures Sent(h.port.trace) == Sent(port.trace) + Decimal(|file.content|)
    ensures h.port.incoming == later && h.port.acks == []
    ensures h.session == Session(|file.content|, s.binIndex)
    ensures h.file.content == file.content && h.file.acks == []
  {
    KeywordLines();
    ServeFirstLine(s, port, file, SIZE, later);
    var p := Consumed(port, |SIZE| + 1);
    SizeReply(SIZE, s, p, file);
    h := Step(SIZE, s, p, file);
  }

  /** The chunks from offset `at` are the file from `at`, zero-padded. */
  lemma {:induction false} ChunksBytes(content: seq<byte>, at: nat, k: nat)
    ensures |Chunks(content, at, k)| == CHUNK * k
    ensures forall i :: 0 <= i < CHUNK * k ==>
              Chunks(content, at, k)[i] == if at + i < |content| then content[at + i] else 0
    decreases k
  {
    if k > 0 {
      var start := at + CHUNK * (k - 1);
      ChunkBytes(content, start);
      ChunksBytes(content, at, k - 1);
      var c := Chunks(content, at, k);
      forall i | 0 <= i < CHUNK * k
        ensures c[i] == if at + i < |content| then content[at + i] else 0
      {
        if i >= CHUNK * (k - 1) {
          assert c[i] == Chunk(content, start)[i - CHUNK * (k - 1)];
        }
      }
    }
  }

  /** Enough chunks to cover the file carry the whole file, then zeros up to
      the next multiple of 256: no byte of an earlier chunk can reach a later
      one, because every chunk starts from a zeroed buffer (src/main.rs:229). */
  lemma WholeImage(content: seq<byte>, k: nat)
    requires |content| <= CHUNK * k
    ensures Chunks(content, 0, k) == content + Zeros(CHUNK * k - |content|)
  {
    ChunksBytes(content, 0, k);
  }

  /** The smallest number of chunks that covers the file. */
  function ChunkCount(n: nat): nat {
    (n + CHUNK - 1) / CHUNK
  }

  /** A fault-free flash of a file of `n` bytes in which the device asks for
      as many chunks as cover it: after `BOOT` the device receives the decimal
      text of `n` and the file padded with zeros to a multiple of 256, and the
      offset ends at `256 * ceil(n / 256)`. */
  lemma FlashDeliversImage(device: Port, file: FileState, rest: seq<ReadEvent>)
    requires device.acks == [] && file.acks == []
    requires device.incoming == Encode(SIZE) + Repeat(Encode(DATA), ChunkCount(|file.content|)) + Encode(DONE) + rest
    ensures var n := |file.content|;
            var r := Serve(Session(0, 0), Started(device), file);
            && r.outcome == Finished
            && r.session.binIndex == CHUNK * ChunkCount(n)
            && Sent(r.port.trace) == Sent(device.trace) + BOOT + Decimal(n) + file.content + Zeros(CHUNK * ChunkCount(n) - n)
  {
    var n := |file.content|;
    var k := ChunkCount(n);
    StartSendsBoot(device);
    CleanSession(Started(device), file, k, rest);
    WholeImage(file.content, k);
  }

  /** The preamble puts exactly `BOOT` on the wire and reads nothing. */
  lemma StartSendsBoot(device: Port)
    ensures Sent(Started(device).trace) == Sent(device.trace) + BOOT
    ensures Started(device).incoming == device.incoming
  {
    var ops := [SetDtr(true), Write(BOOT, true), Flush(true)];
    assert ops == [SetDtr(true)] + [Write(BOOT, true)] + [Flush(true)];
    SentAppend(device.trace, ops);
    SentAppend([SetDtr(true)] + [Write(BOOT, true)], [Flush(true)]);
    SentAppend([SetDtr(true)], [Write(BOOT, true)]);
    SentOne(SetDtr(true));
    SentOne(Write(BOOT, true));
    SentOne(Flush(true));
  }

  /** A file of 1000 bytes: the device asks for the size, four chunks, and ends.
      The reply to `SIZE` is the four bytes "1000"; the last chunk carries the
      final 232 bytes of the file and 24 zeros. */
  lemma ThousandByteFile(device: Port, file: FileState)
    requires device.acks == [] && file.acks == [] && |file.content| == 1000
    requires device.incoming == Encode(SIZE) + Repeat(Encode(DATA), 4) + Encode(DONE)
    ensures var r := Serve(Session(0, 0), Started(device), file);
            && r.outcome == Finished
            && r.session == Session(1000, 1024)
            && Sent(r.port.trace) == Sent(device.trace) + BOOT + [49, 48, 48, 48] + file.content + Zeros(24)
  {
    assert ChunkCount(1000) == 4;
    assert Decimal(1000) == [49, 48, 48, 48];
    assert device.incoming == Encode(SIZE) + Repeat(Encode(DATA), 4) + Encode(DONE) + [];
    FlashDeliversImage(device, file, []);
    CleanSession(Started(device), file, 4, []);
  }
}
