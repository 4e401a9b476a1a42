# Flasher: a verified model of the serial flashing tool

Flasher is a command-line tool. It finds SARP devices on the USB serial ports
and updates their firmware over a small line-based protocol. It can also show
what a device prints. This project models the core of `src/main.rs` in Dafny
and proves properties about that model.

- **Device discovery** (`Scanner`): the three port filters. Bootloaders are
  vendor id 0x3232 with product id 0. Nodes are vendor 0x3232 with a non-zero
  product id. The third filter keeps both.
- **Line reading** (`LineChannel`): `read_line`. It reads single bytes until a
  newline. A timeout only makes it read again; any other read error ends the
  call.
- **Opening the port** (`Connect`): the retry loop shared by `boot` and
  `debug`. It gives up after 30000 failed opens.
- **The flash session** (`Flash`, `FlashProperties`): `boot`. It checks that
  the file opens, opens the port, asserts DTR, and writes and flushes `BOOT`.
  Then it serves the device's requests:
  - log lines and identity lines (ICCID, IMEI, SID) are shown;
  - `SIZE` is answered with the file length in decimal;
  - `DATA` is answered with the next 256-byte chunk, zero-filled;
  - `DONE` ends the session;
  - any other line is shown as uncaught.
- **The debug monitor** (`DebugStream`): `debug`. After opening the port and
  asserting DTR, it copies every received byte to the console.
- **Strings** (`Text`): `str::contains` and `u64::to_string`, as used by the
  protocol.

The serial port and the file are values in `Io`:
- `Port` holds the read events the device will deliver and the answers to the
  next DTR, write and flush calls. It records every call made in a trace.
- `FileState` holds the file's bytes, the answers to the next metadata, seek
  and read calls, and the read position.

A Rust `&mut` borrow becomes a value passed in and handed back. Each loop of
the program is a method with a loop, proved equal to a reference function:
- the filters are proved equal to `Names(Kept(...))`;
- `read_line` to `ScanLine`;
- the dispatch loop to `Serve`, with each line handled as `Step`;
- the debug loop to `Relay`.

The properties are then lemmas about those functions.

Three behaviours of `src/main.rs` worth knowing:
- Every `DATA` request fills a freshly zeroed 256-byte buffer
  (`src/main.rs:229`). A short last chunk is therefore padded with zeros, never
  with bytes left over from the previous chunk (`FlashProperties.WholeImage`).
- `read_line` never returns `Ok(None)` (`src/main.rs:145-149`). A timeout does
  not end the call; it only makes it read again
  (`LineChannel.TimeoutIsSkipped`).
- The text shown for a line containing `log:` is `&s[4..]`
  (`src/main.rs:200`): the line from its fifth byte on, wherever the tag
  occurs in the line (`FlashProperties.LogShowsMessage` covers a line that
  starts with the tag).

## Model

| member | source | states |
|---|---|---|
| Scanner.Collect | src/main.rs:16-37 | The names pushed by the shared filter loop are the names of the enumerated ports that pass the filter, in enumeration order. A failed enumeration gives an empty list. |
| Scanner.GetBootloaders | src/main.rs:16-37 | The list holds the names of the ports with vendor 0x3232 and product 0, in order. It is empty when enumeration fails. |
| Scanner.GetNodes | src/main.rs:39-60 | The list holds the names of the ports with vendor 0x3232 and a non-zero product id, in order. It is empty when enumeration fails. |
| Scanner.GetNodesAndBootloaders | src/main.rs:76-97 | The list holds the names of every port with vendor 0x3232, in order. It is empty when enumeration fails. |
| Scanner.Classification | src/main.rs:22-28 | A port is kept by the combined filter iff it is USB with vendor 0x3232. Among those, product 0 is a bootloader and any other product id is a node, never both. |
| Scanner.KeptMembers | src/main.rs:21-26 | A port is in a filter's output iff it was enumerated and passes the filter's test. |
| Scanner.KeptIsSubsequence | src/main.rs:21-26 | A filter's output is a subsequence of the enumeration: same order, nothing invented. |
| Scanner.ClassesRefineCombined | src/main.rs:44-48 | Applying the bootloader or node filter to the combined list gives that filter's own list. |
| Scanner.ClassesPartitionCombined | src/main.rs:84-85 | The bootloader names plus the node names are, as a multiset, exactly the combined filter's names. |
| Scanner.KeptNamesStep | src/main.rs:24-26 | One more enumerated port adds its name at the end of a filter's list iff the filter selects it. |
| Scanner.NameOfKept | src/main.rs:24-26 | A name is on a filter's list iff some enumerated port with that name passes the filter. |
| Scanner.ClassesDisjoint | src/main.rs:24-48 | When port names are unique, no name is both a bootloader and a node. |
| Connect.OpenWithRetry | src/main.rs:160-173 | The port opens iff one of the first 30000 attempts succeeds. Then the attempt count is the first successful attempt; otherwise it is 30000. |
| LineChannel.ReadLine | src/main.rs:133-152 | The outcome and the number of events read equal the reference scan `ScanLine` of the incoming events. |
| LineChannel.LineRoundTrip | src/main.rs:137-143 | A line with no newline inside, followed by a newline, is read back exactly, after its length plus one reads. |
| LineChannel.LineIsItsBytes | src/main.rs:139-143 | Between bytes and timeouts, the line returned is exactly the bytes received before the first newline, in order. |
| LineChannel.ErrorDropsLine | src/main.rs:145-148 | A read error other than a timeout, before the newline, gives an error; the collected bytes are dropped. |
| LineChannel.TimeoutIsSkipped | src/main.rs:145-149 | A timeout before the newline changes only the read count, never the line. |
| LineChannel.NoLineWithoutNewline | src/main.rs:132-137 | Without a newline or an error the call consumes the whole input and never returns a line. |
| LineChannel.ScanSplit | src/main.rs:137-150 | Reading a stretch of plain bytes and timeouts moves its bytes in front of whatever the rest of the stream yields. |
| Text.ContainsIffOccurs | src/main.rs:199-251 | The keyword test succeeds iff the keyword occurs at some offset of the line. |
| Text.DecimalRoundTrip | src/main.rs:217 | The decimal text sent for a size reads back as that size. |
| Text.DecimalInjective | src/main.rs:217 | Different sizes are sent as different texts. |
| Flash.Boot | src/main.rs:154-266 | An unopenable file gives `FileOpenError` before anything else. Open failures follow `OpenWithRetry`. A DTR failure gives `DTRError`. A failed `BOOT` write or flush gives `WriteError`, with the exact calls made. Otherwise the session is the reference loop `Serve` from counters 0 and 0. `SerialReadError` never results. |
| Flash.Dispatch | src/main.rs:193-265 | The dispatch loop ends as the reference `Serve` from counters 0 and 0, with the same port, file and shown lines. |
| Flash.HandleLine | src/main.rs:198-258 | One pass of the loop body handles a line as the reference `Step` does, with the `DATA` branch done by `SendChunk`. |
| Flash.SendChunk | src/main.rs:228-250 | The `DATA` branch, which fills a zeroed 256-byte buffer, behaves as the reference reply `AnswerData`. |
| FlashProperties.ClassifyFirstMatch | src/main.rs:199-251 | A line takes the branch of keyword j iff it contains keyword j and none of the keywords tested before it. |
| FlashProperties.ClassifyNoMatch | src/main.rs:256-258 | A line is uncaught iff it contains none of the seven keywords. |
| FlashProperties.OnlyDoneFinishes | src/main.rs:251-255 | Handling a line ends the session successfully iff the line is classified as `DONE`. |
| FlashProperties.ShownLinesChangeNothing | src/main.rs:199-210 | Log, identity and uncaught lines are shown and leave counters, port and file unchanged. |
| FlashProperties.LogShowsMessage | src/main.rs:199-201 | A line `log:` + m shows exactly m. |
| FlashProperties.SizeReply | src/main.rs:211-226 | A metadata failure gives `FileReadError` and nothing is written. Otherwise the size becomes the file length and its decimal text is written and flushed. Those bytes reach the wire iff the write succeeds. A failed write or flush gives `WriteError`. |
| FlashProperties.ChunkBytes | src/main.rs:229-240 | A chunk is 256 bytes: the file's bytes from the offset, then zeros past the end of the file. |
| FlashProperties.DataChunk | src/main.rs:228-250 | A failed seek or read gives `FileReadError` and nothing is written. Otherwise the chunk at the offset is written and flushed, and the offset moves on by 256 iff the write succeeded. A flush failure is ignored. |
| FlashProperties.StepMovesOffset | src/main.rs:241 | Handling any line leaves the offset unchanged or moves it on by exactly 256. |
| FlashProperties.ServeKeepsAlignment | src/main.rs:191-265 | Over a whole session the offset stays a multiple of 256 and never decreases. |
| FlashProperties.DataPhase | src/main.rs:228-255 | With no faults, k `DATA` requests then `DONE` send the k consecutive chunks from the offset. The session then ends successfully with the offset 256·k further on. |
| FlashProperties.CleanSession | src/main.rs:191-255 | With no faults, `SIZE`, k `DATA` and `DONE` put the decimal length and then k chunks from offset 0 on the wire, and end with counters (length, 256·k). |
| FlashProperties.ChunksBytes | src/main.rs:228-241 | The k chunks from an offset are 256·k bytes: the file from that offset, zero past its end. |
| FlashProperties.WholeImage | src/main.rs:229-241 | Chunks covering the file carry the whole file and then only zeros. |
| FlashProperties.StartSendsBoot | src/main.rs:176-187 | The preamble puts exactly `BOOT` on the wire and reads nothing. |
| FlashProperties.FlashDeliversImage | src/main.rs:154-266 | In a fault-free flash where the device asks for enough chunks, the device receives `BOOT`, the decimal length, and the file padded with zeros to a multiple of 256. |
| FlashProperties.ThousandByteFile | src/main.rs:211-250 | A 1000-byte file: the reply to `SIZE` is "1000", four chunks are sent, and the last ends with 24 zeros. |
| DebugStream.PassThrough | src/main.rs:290-304 | The pass-through loop ends as the reference `Relay`, with the same port and console output. |
| DebugStream.Debug | src/main.rs:268-305 | Open failures give `PortOpenError` exactly when every attempt fails. A DTR failure gives `DTRError` after one DTR call. Otherwise the result is `Relay` on the port after DTR. The monitor never ends successfully. |
| DebugStream.RelayShowsBytes | src/main.rs:292-304 | The console shows exactly the bytes received before the first read error, in order. The monitor fails with `ReadError` iff such an error arrives. |
| DebugStream.RelaySendsNothing | src/main.rs:292-304 | The monitor never puts a byte on the wire. |
| DebugStream.RelayExample | src/main.rs:292-304 | "A", a timeout, a carriage return and "B" are shown as "A\rB", and the monitor is still listening. |

## Left out

- `main`, `get_file` and `get_all`: the menu, the file dialog and the unfiltered port list are user interface and are not part of this model.
- The progress bar, the colours, the `println` of the port name in `debug` and the filters' `println` diagnostics on a failed enumeration (`src/main.rs:33`, `:56`, `:93`) are not modelled. Lines shown to the user are `Notice` values, and the debug output is the characters written.
- Baud rate, the 100 ms read timeout and wall-clock time: a timeout is the `Timeout` read event.
- The open attempts, the DTR, write, flush, metadata, seek and read outcomes, and the bytes the device sends are parameters fixed up front. Real hardware and the operating system are outside the model.
- The input script is finite. Where the program would block forever waiting for bytes, the model ends with `Stalled` (in `read_line`) or `Waiting` (in `boot` and `debug`).
- `Ok(None)` from `read_line` is never produced by the program, so it has no counterpart, and the `None` arm of the dispatch loop is absent.
- `SerialReadError` is declared but never produced; the model proves it never results from `Flash.Boot`.
- UTF-8: the model keeps the received bytes, one per character. The program pushes `buf[0] as char` onto a `String`, so a byte of 0x80 or more takes two UTF-8 bytes there, and `&s[4..]` counts those bytes, not received bytes. The text shown for a `log:` line therefore matches the model's `line[4..]` only when the first four received bytes are ASCII. For example, on the bytes `E9 61 62 6C 6F 67 3A` the program shows `log:` and the model shows `og:`. The panic of `&s[4..]` when offset 4 is not a character boundary is not modelled either.
- Io.ReadUpTo: a successful file read always returns the whole remaining window, up to 256 bytes. A short read is not modelled.
- Io.WriteAll: a failed `write_all` is modelled as putting no bytes on the wire. The bytes of a partial write are not modelled.
- `u64` overflow of the offset and `u32` overflow of the retry counter cannot occur within the program's limits; the counters are unbounded naturals.
- Failures writing to the console in `debug` are ignored by the program and are not modelled.
