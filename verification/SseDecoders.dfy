/** Two independent decoders of the event-stream format (WHATWG HTML Living Standard, sections 9.2.5
    and 9.2.6): the chunk buffer of sdks/typescript/src/transport.ts and the line scanner of
    sdks/go/client.go. */
module SseDecoders {
  import opened Integers
  import opened SseText

  // ---- TypeScript: blocks separated by a blank line ------------------------------------------

  predicate SepAt(buffer: string, i: nat) {
    i + 1 < |buffer| && buffer[i] == '\n' && buffer[i + 1] == '\n'
  }

  /** `buffer.indexOf('\n\n')`; the length of the buffer when there is none. */
  function FindSep(buffer: string): (i: nat)
    ensures i <= |buffer|
    ensures i < |buffer| ==> SepAt(buffer, i)
    ensures forall j: nat :: j < i ==> !SepAt(buffer, j)
  {
    if |buffer| < 2 then |buffer|
    else if SepAt(buffer, 0) then 0
    else
      var rest := FindSep(buffer[1..]);
      assert forall j: nat :: 0 < j < 1 + rest ==> (SepAt(buffer, j) <==> SepAt(buffer[1..], j - 1));
      1 + rest
  }

  /** The first separator is where it is. */
  lemma FirstSep(buffer: string, i: nat)
    requires SepAt(buffer, i) && forall j: nat :: j < i ==> !SepAt(buffer, j)
    ensures FindSep(buffer) == i
  {}

  /** `parseSseEvent`; None for a block without data. */
  function ParseEvent(raw: string, trim: string -> string): Option<string> {
    var parts := Parts(Split(raw), trim);
    if parts == [] then None else Some(Join(parts))
  }

  /** The event of a block as a sequence of none or one. */
  function Event(raw: string, trim: string -> string): seq<string> {
    var event := ParseEvent(raw, trim);
    if event.Some? then [event.value] else []
  }

  /** The payloads of the complete blocks of `buffer`, and what is left of it. */
  function Drain(buffer: string, trim: string -> string): (seq<string>, string)
    decreases |buffer|
  {
    var sep := FindSep(buffer);
    if sep == |buffer| then ([], buffer)
    else
      var rest := Drain(buffer[sep + 2..], trim);
      (Event(buffer[..sep], trim) + rest.0, rest.1)
  }

  function Concat(chunks: seq<string>): string {
    if chunks == [] then "" else Concat(chunks[..|chunks| - 1]) + chunks[|chunks| - 1]
  }

  /** A separator found in a prefix is the first separator of the whole. */
  lemma SepOfPrefix(a: string, b: string)
    requires FindSep(a) < |a|
    ensures FindSep(a + b) == FindSep(a)
  {
    var i := FindSep(a);
    forall j: nat | j <= i ensures SepAt(a + b, j) == SepAt(a, j) {
      assert j + 1 < |a| && (a + b)[j] == a[j] && (a + b)[j + 1] == a[j + 1];
    }
    FirstSep(a + b, i);
  }

  lemma DrainBlock(buffer: string, trim: string -> string)
    requires FindSep(buffer) < |buffer|
    ensures var sep := FindSep(buffer);
            var rest := Drain(buffer[sep + 2..], trim);
            Drain(buffer, trim) == (Event(buffer[..sep], trim) + rest.0, rest.1)
  {}

  lemma Associate(a: seq<string>, b: seq<string>, c: seq<string>)
    ensures a + (b + c) == (a + b) + c
  {}

  /** Draining after each piece is draining at the end. */
  lemma {:induction false} DrainInPieces(a: string, b: string, trim: string -> string)
    ensures var first := Drain(a, trim);
            var second := Drain(first.1 + b, trim);
            Drain(a + b, trim) == (first.0 + second.0, second.1)
    decreases |a|
  {
    var sep := FindSep(a);
    if sep == |a| {
      var second := Drain(a + b, trim);
      assert Drain(a, trim) == ([], a) && [] + second.0 == second.0;
    } else {
      SepOfPrefix(a, b);
      var after := a[sep + 2..];
      assert (a + b)[..sep] == a[..sep] && (a + b)[sep + 2..] == after + b;
      DrainInPieces(after, b, trim);
      var rest := Drain(after, trim);
      var second := Drain(rest.1 + b, trim);
      var one := Event(a[..sep], trim);
      DrainBlock(a, trim);
      DrainBlock(a + b, trim);
      Associate(one, rest.0, second.0);
    }
  }

  method ParseSseEvent(raw: string) returns (data: Option<string>)
    ensures data == ParseEvent(raw, TrimStart)
  {
    var lines := Split(raw);
    var dataParts: seq<string> := [];
    for i := 0 to |lines|
      invariant dataParts == Parts(lines[..i], TrimStart)
    {
      assert lines[..i + 1][..i] == lines[..i];
      var line := lines[i];
      if ":" <= line { continue; }
      if "data:" <= line {
        dataParts := dataParts + [TrimStart(line[5..])];
      }
    }
    assert lines[..|lines|] == lines;
    if |dataParts| == 0 { return None; }
    data := Some(Join(dataParts));
  }

  /** The inner loop of `stream`: take complete events off the front of the buffer. */
  method TakeEvents(text: string) returns (payloads: seq<string>, buffer: string)
    ensures (payloads, buffer) == Drain(text, TrimStart)
  {
    payloads, buffer := [], text;
    assert [] + Drain(text, TrimStart).0 == Drain(text, TrimStart).0;
    var sep := FindSep(buffer);
    while sep != |buffer|
      invariant sep == FindSep(buffer)
      invariant Drain(text, TrimStart) == (payloads + Drain(buffer, TrimStart).0, Drain(buffer, TrimStart).1)
      decreases |buffer|
    {
      var raw := buffer[..sep];
      ghost var whole := buffer;
      buffer := buffer[sep + 2..];
      var data := ParseSseEvent(raw);
      DrainBlock(whole, TrimStart);
      Associate(payloads, Event(raw, TrimStart), Drain(buffer, TrimStart).0);
      AppendEvent(payloads, raw, TrimStart);
      if data.Some? {
        payloads := payloads + [data.value];
      }
      sep := FindSep(buffer);
    }
    assert Drain(buffer, TrimStart) == ([], buffer) && payloads + [] == payloads;
    assert Drain(text, TrimStart).0 == payloads && Drain(text, TrimStart).1 == buffer;
  }

  lemma AppendEvent(payloads: seq<string>, raw: string, trim: string -> string)
    ensures var event := ParseEvent(raw, trim);
            payloads + Event(raw, trim) == if event.Some? then payloads + [event.value] else payloads
  {}

  /** The reader loop of `stream`. However the text is cut into chunks, the payloads and the leftover
      buffer are those of the whole text. */
  method Stream(chunks: seq<string>) returns (payloads: seq<string>, buffer: string)
    ensures (payloads, buffer) == Drain(Concat(chunks), TrimStart)
  {
    payloads, buffer := [], "";
    for i := 0 to |chunks|
      invariant (payloads, buffer) == Drain(Concat(chunks[..i]), TrimStart)
    {
      assert chunks[..i + 1][..i] == chunks[..i];
      DrainInPieces(Concat(chunks[..i]), chunks[i], TrimStart);
      buffer := buffer + chunks[i];
      var more;
      more, buffer := TakeEvents(buffer);
      payloads := payloads + more;
    }
    assert chunks[..|chunks|] == chunks;
  }

  /** Chunk invariance, between any two ways of cutting the same text. */
  lemma ChunkInvariance(chunks: seq<string>, chunks': seq<string>, trim: string -> string)
    requires Concat(chunks) == Concat(chunks')
    ensures DrainChunks(chunks, trim) == DrainChunks(chunks', trim) == Drain(Concat(chunks), trim)
  {
    DrainChunksIsDrain(chunks, trim);
    DrainChunksIsDrain(chunks', trim);
  }

  /** The reader fed chunk by chunk: each chunk is appended to the buffer, which is then drained. */
  function DrainChunks(chunks: seq<string>, trim: string -> string): (seq<string>, string) {
    if chunks == [] then ([], "")
    else
      var (payloads, buffer) := DrainChunks(chunks[..|chunks| - 1], trim);
      var (more, rest) := Drain(buffer + chunks[|chunks| - 1], trim);
      (payloads + more, rest)
  }

  lemma {:induction false} DrainChunksIsDrain(chunks: seq<string>, trim: string -> string)
    ensures DrainChunks(chunks, trim) == Drain(Concat(chunks), trim)
  {
    if chunks != [] {
      DrainChunksIsDrain(chunks[..|chunks| - 1], trim);
      DrainInPieces(Concat(chunks[..|chunks| - 1]), chunks[|chunks| - 1], trim);
    }
  }

  // ---- Go: line by line ----------------------------------------------------------------------

  /** The tokens of `bufio.ScanLines` before the carriage return is dropped: an unterminated last
      line counts, an empty one does not. */
  function RawLines(text: string): seq<string> { WithoutBlankEnd(Split(text)) }

  function WithoutBlankEnd(lines: seq<string>): seq<string>
    requires lines != []
  {
    if lines[|lines| - 1] == "" then lines[..|lines| - 1] else lines
  }

  function DropCr(line: string): string {
    if line != "" && line[|line| - 1] == '\r' then line[..|line| - 1] else line
  }

  function Each(lines: seq<string>, f: string -> string): (r: seq<string>)
    ensures |r| == |lines| && forall i :: 0 <= i < |lines| ==> r[i] == f(lines[i])
  {
    seq(|lines|, i requires 0 <= i < |lines| => f(lines[i]))
  }

  function ScanLines(text: string): seq<string> { Each(RawLines(text), DropCr) }

  /** Payloads sent so far and the data lines pending. */
  datatype Scanner = Scanner(sent: seq<string>, pending: seq<string>)

  /** One turn of the scanner loop. */
  function Feed(s: Scanner, line: string, trim: string -> string): Scanner {
    if line == "" then (if s.pending != [] then Scanner(s.sent + [Join(s.pending)], []) else s)
    else if IsComment(line) || !IsData(line) then s
    else s.(pending := s.pending + [trim(line[5..])])
  }

  function Scan(s: Scanner, lines: seq<string>, trim: string -> string): Scanner {
    if lines == [] then s else Feed(Scan(s, lines[..|lines| - 1], trim), lines[|lines| - 1], trim)
  }

  const EMPTY := Scanner([], [])

  /** What the Go client sends for a text. */
  function GoPayloads(text: string): seq<string> { Scan(EMPTY, ScanLines(text), TrimSpaces).sent }

  /** `StreamWorkloadEvents`: raw payloads, in the order they are decoded. */
  method StreamWorkloadEvents(text: string) returns (payloads: seq<string>)
    ensures payloads == GoPayloads(text)
  {
    var lines := ScanLines(text);
    var dataLines: seq<string> := [];
    payloads := [];
    for i := 0 to |lines|
      invariant Scanner(payloads, dataLines) == Scan(EMPTY, lines[..i], TrimSpaces)
    {
      assert lines[..i + 1][..i] == lines[..i];
      var line := lines[i];
      if line == "" {
        if |dataLines| > 0 {
          payloads := payloads + [Join(dataLines)];
          dataLines := [];
        }
        continue;
      }
      if ":" <= line { continue; }
      if "data:" <= line {
        dataLines := dataLines + [TrimSpaces(line[5..])];
      }
    }
    assert lines[..|lines|] == lines;
  }

  lemma {:induction false} ScanConcat(s: Scanner, a: seq<string>, b: seq<string>, trim: string -> string)
    ensures Scan(s, a + b, trim) == Scan(Scan(s, a, trim), b, trim)
  {
    if b == [] {
      assert a + b == a;
    } else {
      ScanConcat(s, a, b[..|b| - 1], trim);
      assert (a + b)[..|a + b| - 1] == a + b[..|b| - 1];
    }
  }

  lemma ScanCons(s: Scanner, line: string, lines: seq<string>, trim: string -> string)
    ensures Scan(s, [line] + lines, trim) == Scan(Feed(s, line, trim), lines, trim)
  {
    ScanConcat(s, [line], lines, trim);
    var none: seq<string> := [line][..0];
    assert none == [] && Scan(s, [line], trim) == Feed(Scan(s, none, trim), line, trim);
  }

  /** What was sent before only goes in front. */
  lemma {:induction false} ScanSent(sent: seq<string>, pending: seq<string>, lines: seq<string>, trim: string -> string)
    ensures var t := Scan(Scanner([], pending), lines, trim);
            Scan(Scanner(sent, pending), lines, trim) == Scanner(sent + t.sent, t.pending)
  {
    if lines != [] { ScanSent(sent, pending, lines[..|lines| - 1], trim); }
  }

  predicate Quiet(lines: seq<string>) { forall i :: 0 < i < |lines| ==> lines[i] != "" }

  /** Lines that are not blank, save perhaps the first, only collect data. */
  lemma {:induction false} ScanQuietLines(lines: seq<string>, trim: string -> string)
    requires Quiet(lines)
    ensures Scan(EMPTY, lines, trim) == Scanner([], Parts(lines, trim))
  {
    if lines != [] { ScanQuietLines(lines[..|lines| - 1], trim); }
  }

  // ---- The two agree -------------------------------------------------------------------------

  /** Without a blank-line separator only the first and the last line can be empty. */
  lemma {:induction false} BlankLinesNeedSep(text: string)
    requires FindSep(text) == |text|
    ensures forall i :: 0 < i < |Split(text)| - 1 ==> Split(text)[i] != ""
    ensures |Split(text)| > 1 && Split(text)[|Split(text)| - 1] == "" ==> text[|text| - 1] == '\n'
    ensures text != "" && text[0] != '\n' ==> Split(text)[0] != ""
  {
    if text != "" {
      if |text| > 1 { assert FindSep(text) == 1 + FindSep(text[1..]); }
      BlankLinesNeedSep(text[1..]);
      if text[0] == '\n' && |text| > 1 { assert text[1] != '\n'; }
    }
  }

  /** The block before the first separator has no separator and does not end in LF. */
  lemma SepInsideBlock(text: string)
    requires FindSep(text) < |text|
    ensures var raw := text[..FindSep(text)]; FindSep(raw) == |raw| && (raw != "" ==> raw[|raw| - 1] != '\n')
  {
    var sep := FindSep(text);
    var raw := text[..sep];
    forall j: nat | j < |raw| ensures !SepAt(raw, j) {
      assert !SepAt(text, j) && raw[j] == text[j];
    }
    if raw != "" { assert !SepAt(text, sep - 1); }
  }

  lemma RawLinesAfterLf(a: string, b: string)
    ensures RawLines(a + "\n" + b) == Split(a) + RawLines(b)
  {
    SplitAtLf(a, b);
    BlankEndOfConcat(Split(a), Split(b));
  }

  lemma BlankEndOfConcat(a: seq<string>, b: seq<string>)
    requires b != []
    ensures WithoutBlankEnd(a + b) == a + WithoutBlankEnd(b)
  {
    assert (a + b)[|a + b| - 1] == b[|b| - 1];
    assert (a + b)[..|a + b| - 1] == a + b[..|b| - 1];
  }

  lemma CutAtLf(text: string, i: nat)
    requires i < |text| && text[i] == '\n'
    ensures text == text[..i] + "\n" + text[i + 1..]
  {}

  lemma RawLinesAtLf(text: string, i: nat)
    requires i < |text| && text[i] == '\n'
    ensures RawLines(text) == Split(text[..i]) + RawLines(text[i + 1..])
  {
    CutAtLf(text, i);
    RawLinesAfterLf(text[..i], text[i + 1..]);
  }

  lemma LinesAroundSep(text: string, sep: nat)
    requires SepAt(text, sep)
    ensures RawLines(text) == Split(text[..sep]) + ([""] + RawLines(text[sep + 2..]))
  {
    var tail := text[sep + 1..];
    RawLinesAtLf(text, sep);
    BlankFirst(tail);
    assert tail[1..] == text[sep + 2..];
  }

  lemma BlankFirst(text: string)
    requires text != "" && text[0] == '\n'
    ensures RawLines(text) == [""] + RawLines(text[1..])
  {
    RawLinesAtLf(text, 0);
    assert text[..0] == "";
  }

  lemma ScanThroughBlank(head: seq<string>, rest: seq<string>, parts: seq<string>, sent: seq<string>,
                         trim: string -> string)
    requires Scan(EMPTY, head, trim) == Scanner([], parts)
    requires Feed(Scanner([], parts), "", trim) == Scanner(sent, [])
    ensures Scan(EMPTY, head + ([""] + rest), trim) == Scan(Scanner(sent, []), rest, trim)
  {
    ScanConcat(EMPTY, head, [""] + rest, trim);
    ScanCons(Scanner([], parts), "", rest, trim);
  }

  /** The lines up to and including the first separator send the block's event. */
  lemma ScanBlock(text: string, sep: nat, trim: string -> string)
    requires sep == FindSep(text) < |text|
    ensures Scan(EMPTY, RawLines(text), trim) ==
            Scan(Scanner(Event(text[..sep], trim), []), RawLines(text[sep + 2..]), trim)
  {
    LinesAroundSep(text, sep);
    SepInsideBlock(text);
    var raw := text[..sep];
    BlockIsQuiet(raw, trim);
    ScanThroughBlank(Split(raw), RawLines(text[sep + 2..]), Parts(Split(raw), trim), Event(raw, trim), trim);
  }

  lemma QuietBlock(raw: string)
    requires FindSep(raw) == |raw| && (raw != "" ==> raw[|raw| - 1] != '\n')
    ensures Quiet(Split(raw))
  {
    BlankLinesNeedSep(raw);
    var lines := Split(raw);
    forall i | 0 < i < |lines| ensures lines[i] != "" {
      if i == |lines| - 1 && raw == "" { assert false; }
    }
  }

  /** A block collects its data parts, and the blank line after it sends them. */
  lemma BlockIsQuiet(raw: string, trim: string -> string)
    requires FindSep(raw) == |raw| && (raw != "" ==> raw[|raw| - 1] != '\n')
    ensures Scan(EMPTY, Split(raw), trim) == Scanner([], Parts(Split(raw), trim))
    ensures Feed(Scanner([], Parts(Split(raw), trim)), "", trim) == Scanner(Event(raw, trim), [])
  {
    QuietBlock(raw);
    ScanQuietLines(Split(raw), trim);
    BlankLineSends(raw, trim);
  }

  lemma BlankLineSends(raw: string, trim: string -> string)
    ensures Feed(Scanner([], Parts(Split(raw), trim)), "", trim) == Scanner(Event(raw, trim), [])
  {
    var parts := Parts(Split(raw), trim);
    assert [] + [Join(parts)] == [Join(parts)];
  }

  /** Block decoding and line decoding give the same payloads on every text: comments, multi-line
      data, runs of blank lines and unterminated tails included. */
  lemma {:induction false} BlocksAreLines(text: string, trim: string -> string)
    ensures Scan(EMPTY, RawLines(text), trim).sent == Drain(text, trim).0
    decreases |text|
  {
    var sep := FindSep(text);
    if sep == |text| {
      BlankLinesNeedSep(text);
      ScanQuietLines(RawLines(text), trim);
    } else {
      BlocksAreLines(text[sep + 2..], trim);
      ScanBlock(text, sep, trim);
      ScanSent(Event(text[..sep], trim), [], RawLines(text[sep + 2..]), trim);
    }
  }

  /** With carriage returns the two clients differ: one before LF hides the blank line from the
      TypeScript client, so it sends nothing where the Go client sends the payload. */
  lemma CarriageReturnsDiffer(line: string)
    requires NoLf(line) && IsData(line) && line[|line| - 1] != '\r'
    ensures var text := line + "\r" + "\n" + "\r\n";
            GoPayloads(text) == [TrimSpaces(line[5..])] && Drain(text, TrimStart).0 == []
  {
    var text := line + "\r" + "\n" + "\r\n";
    ScanCarriageReturns(line, text);
    assert ScanLines(text) == [line] + ([""] + []);
    ScanCons(EMPTY, line, [""] + [], TrimSpaces);
    ScanCons(Feed(EMPTY, line, TrimSpaces), "", [], TrimSpaces);
    forall j: nat | j < |text| ensures !SepAt(text, j) {
      assert j < |line| ==> text[j] == line[j];
    }
  }

  lemma ScanCarriageReturns(line: string, text: string)
    requires NoLf(line) && line != "" && line[|line| - 1] != '\r' && text == line + "\r" + "\n" + "\r\n"
    ensures ScanLines(text) == [line, ""]
  {
    SplitNoLf(line + "\r");
    SplitNoLf("\r");
    SplitAtLf("\r", "");
    assert "\r" + "\n" + "" == "\r\n";
    assert RawLines("\r\n") == ["\r"];
    RawLinesAfterLf(line + "\r", "\r\n");
    assert RawLines(text) == [line + "\r", "\r"];
    assert DropCr(line + "\r") == line && DropCr("\r") == "";
  }
}
