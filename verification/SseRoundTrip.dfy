/** Encoding payloads as an event stream and decoding them again, for both clients. */
module SseRoundTrip {
  import opened SseText
  import opened SseDecoders

  /** The wire form of one payload: a data field per line, then a blank line. */
  function Encode(payload: string): string { EncodeLines(Split(payload)) + "\n" }

  function EncodeLines(lines: seq<string>): string {
    if lines == [] then "" else "data: " + lines[0] + "\n" + EncodeLines(lines[1..])
  }

  function EncodeAll(payloads: seq<string>): string {
    if payloads == [] then "" else Encode(payloads[0]) + EncodeAll(payloads[1..])
  }

  // ---- Any decoder ---------------------------------------------------------------------------

  /** A line decoder that first applies `fix` to a line and trims values with `trim` reads the field
      of `line` as `value(line)`. */
  predicate FieldReads(fix: string -> string, trim: string -> string, value: string -> string, line: string) {
    var field := fix("data: " + line);
    field != "" && !IsComment(field) && IsData(field) && trim(field[5..]) == value(line)
  }

  ghost predicate Reads(fix: string -> string, trim: string -> string, value: string -> string) {
    && fix("") == ""
    && (forall line :: FieldReads(fix, trim, value, line))
    && (forall line :: NoLf(line) ==> NoLf(value(line)))
  }

  lemma Regroup(a: string, b: string, c: string, d: string)
    ensures (a + b) + c + d == a + (b + c + d)
  {}

  lemma EachOne(line: string, rest: seq<string>, f: string -> string)
    ensures Each([line] + rest, f) == [f(line)] + Each(rest, f)
  {}

  /** The first line of a text is fed first. */
  lemma ScanFirst(s: Scanner, line: string, rest: string, fix: string -> string, trim: string -> string)
    requires NoLf(line)
    ensures Scan(s, Each(RawLines(line + "\n" + rest), fix), trim) ==
            Scan(Feed(s, fix(line), trim), Each(RawLines(rest), fix), trim)
  {
    SplitNoLf(line);
    RawLinesAfterLf(line, rest);
    EachOne(line, RawLines(rest), fix);
    ScanCons(s, fix(line), Each(RawLines(rest), fix), trim);
  }

  lemma FeedField(s: Scanner, line: string, fix: string -> string, trim: string -> string, value: string -> string)
    requires Reads(fix, trim, value)
    ensures Feed(s, fix("data: " + line), trim) == s.(pending := s.pending + [value(line)])
  {
    assert FieldReads(fix, trim, value, line);
  }

  lemma {:induction false} ScanEncodedLines(s: Scanner, lines: seq<string>, rest: string,
                                            fix: string -> string, trim: string -> string, value: string -> string)
    requires Reads(fix, trim, value) && forall i :: 0 <= i < |lines| ==> NoLf(lines[i])
    ensures Scan(s, Each(RawLines(EncodeLines(lines) + "\n" + rest), fix), trim) ==
            Scan(Feed(s.(pending := s.pending + Each(lines, value)), "", trim), Each(RawLines(rest), fix), trim)
    decreases |lines|
  {
    if lines == [] {
      assert EncodeLines(lines) == "" && s.pending + Each(lines, value) == s.pending;
      ScanFirst(s, "", rest, fix, trim);
    } else {
      var line, tail := lines[0], EncodeLines(lines[1..]) + "\n" + rest;
      Regroup("data: " + line + "\n", EncodeLines(lines[1..]), "\n", rest);
      FieldHasNoLf(line);
      ScanFirst(s, "data: " + line, tail, fix, trim);
      FeedField(s, line, fix, trim, value);
      ScanEncodedLines(s.(pending := s.pending + [value(line)]), lines[1..], rest, fix, trim, value);
      assert lines == [line] + lines[1..];
      EachOne(line, lines[1..], value);
      Associate(s.pending, [value(line)], Each(lines[1..], value));
    }
  }

  lemma FieldHasNoLf(line: string)
    requires NoLf(line)
    ensures NoLf("data: " + line)
  {
    var field := "data: " + line;
    forall i | 0 <= i < |field| ensures field[i] != '\n' { assert i >= 6 ==> field[i] == line[i - 6]; }
  }

  /** What arrives for a payload: its lines, each as it is read. */
  function Carried(payload: string, value: string -> string): string { Join(Each(Split(payload), value)) }

  lemma DecodeOne(sent: seq<string>, payload: string, rest: string,
                  fix: string -> string, trim: string -> string, value: string -> string)
    requires Reads(fix, trim, value)
    ensures Scan(Scanner(sent, []), Each(RawLines(Encode(payload) + rest), fix), trim) ==
            Scan(Scanner(sent + [Carried(payload, value)], []), Each(RawLines(rest), fix), trim)
  {
    LinesOfText(payload);
    var lines := Split(payload);
    ScanEncodedLines(Scanner(sent, []), lines, rest, fix, trim, value);
    assert [] + Each(lines, value) == Each(lines, value) != [];
  }

  /** What arrives for a list of payloads. */
  function Arrived(payloads: seq<string>, value: string -> string): seq<string> {
    Each(payloads, p => Carried(p, value))
  }

  lemma ArrivedFirst(sent: seq<string>, payloads: seq<string>, value: string -> string)
    requires payloads != []
    ensures sent + [Carried(payloads[0], value)] + Arrived(payloads[1..], value) == sent + Arrived(payloads, value)
  {
    assert payloads == [payloads[0]] + payloads[1..];
    EachOne(payloads[0], payloads[1..], p => Carried(p, value));
    Associate(sent, [Carried(payloads[0], value)], Arrived(payloads[1..], value));
  }

  lemma NothingArrived(sent: seq<string>, fix: string -> string, value: string -> string)
    ensures Each(RawLines(""), fix) == [] && sent + Arrived([], value) == sent
  {}

  lemma {:induction false} DecodeAll(sent: seq<string>, payloads: seq<string>,
                                     fix: string -> string, trim: string -> string, value: string -> string)
    requires Reads(fix, trim, value)
    ensures Scan(Scanner(sent, []), Each(RawLines(EncodeAll(payloads)), fix), trim) ==
            Scanner(sent + Arrived(payloads, value), [])
    decreases |payloads|
  {
    if payloads == [] {
      NothingArrived(sent, fix, value);
    } else {
      DecodeOne(sent, payloads[0], EncodeAll(payloads[1..]), fix, trim, value);
      DecodeAll(sent + [Carried(payloads[0], value)], payloads[1..], fix, trim, value);
      ArrivedFirst(sent, payloads, value);
    }
  }

  /** Every line of the payload satisfies `p`. */
  predicate EveryLine(payload: string, p: string -> bool) {
    forall j :: 0 <= j < |Split(payload)| ==> p(Split(payload)[j])
  }

  predicate Fixpoint(value: string -> string, line: string) { value(line) == line }

  /** A payload arrives unchanged exactly when each of its lines does. */
  lemma CarriedUnchanged(payload: string, value: string -> string)
    requires forall line :: NoLf(line) ==> NoLf(value(line))
    ensures Carried(payload, value) == payload <==> EveryLine(payload, line => Fixpoint(value, line))
  {
    var lines := Split(payload);
    var read := Each(lines, value);
    LinesOfText(payload);
    JoinSplit(payload);
    forall i | 0 <= i < |lines| ensures NoLf(read[i]) { assert NoLf(lines[i]); }
    SplitJoin(read);
    assert read == lines <==> EveryLine(payload, line => Fixpoint(value, line)) by {
      assert forall j :: 0 <= j < |lines| ==> (read[j] == lines[j] <==> Fixpoint(value, lines[j]));
    }
  }

  /** A list arrives unchanged exactly when each payload does. */
  lemma DecodeUnchanged(payloads: seq<string>, fix: string -> string, trim: string -> string, value: string -> string)
    requires Reads(fix, trim, value)
    ensures Scan(EMPTY, Each(RawLines(EncodeAll(payloads)), fix), trim).sent == payloads <==>
            forall i :: 0 <= i < |payloads| ==> Carried(payloads[i], value) == payloads[i]
  {
    var all := Arrived(payloads, value);
    DecodeAll([], payloads, fix, trim, value);
    assert [] + all == all;
  }

  // ---- The two clients -----------------------------------------------------------------------

  function Same(line: string): string { line }

  lemma TypeScriptReads()
    ensures Reads(Same, TrimStart, TrimStart)
  {
    forall line ensures FieldReads(Same, TrimStart, TrimStart, line) {
      var field := "data: " + line;
      assert field[0] == 'd' && field[..5] == "data:";
      assert field[5..] == " " + line && (" " + line)[1..] == line;
    }
    forall line | NoLf(line) ensures NoLf(TrimStart(line)) { TrimStartShrinks(line); }
  }

  /** A line as the Go client reads it. */
  function GoValue(line: string): string { TrimSpaces(DropCr(line)) }

  lemma GoReads()
    ensures Reads(DropCr, TrimSpaces, GoValue)
  {
    forall line ensures FieldReads(DropCr, TrimSpaces, GoValue, line) {
      var field := "data: " + line;
      var cut := "data: " + DropCr(line);
      assert DropCr(field) == cut && cut[0] == 'd' && cut[..5] == "data:";
      assert cut[5..] == " " + DropCr(line) && (" " + DropCr(line))[1..] == DropCr(line);
    }
    forall line | NoLf(line) ensures NoLf(GoValue(line)) { TrimmedIsSuffix(DropCr(line)); }
  }

  /** The TypeScript client hands a line on unchanged unless it starts with white space. */
  predicate TypeScriptKeeps(line: string) { line == "" || !JsSpace(line[0]) }

  /** The Go client hands a line on unchanged unless it starts with a space or ends in a carriage return. */
  predicate GoKeeps(line: string) { line == "" || (line[0] != ' ' && line[|line| - 1] != '\r') }

  lemma KeepsExactly(line: string)
    ensures Fixpoint(TrimStart, line) <==> TypeScriptKeeps(line)
    ensures Fixpoint(GoValue, line) <==> GoKeeps(line)
  {
    if line != "" { TrimStartShrinks(line[1..]); }
    TrimmedIsSuffix(DropCr(line));
  }

  lemma ClientsKeep(payload: string)
    ensures Carried(payload, TrimStart) == payload <==> EveryLine(payload, TypeScriptKeeps)
    ensures Carried(payload, GoValue) == payload <==> EveryLine(payload, GoKeeps)
  {
    TypeScriptReads();
    GoReads();
    CarriedUnchanged(payload, TrimStart);
    CarriedUnchanged(payload, GoValue);
    forall j | 0 <= j < |Split(payload)|
      ensures Fixpoint(TrimStart, Split(payload)[j]) <==> TypeScriptKeeps(Split(payload)[j])
      ensures Fixpoint(GoValue, Split(payload)[j]) <==> GoKeeps(Split(payload)[j])
    {
      KeepsExactly(Split(payload)[j]);
    }
  }

  /** Encoding a list of payloads and decoding it gives the list back, exactly: in the TypeScript
      client, when no line starts with ECMAScript white space; in the Go client, when no line starts
      with a space or ends in a carriage return. */
  lemma RoundTrip(payloads: seq<string>)
    ensures Drain(EncodeAll(payloads), TrimStart).0 == payloads <==>
            forall i :: 0 <= i < |payloads| ==> EveryLine(payloads[i], TypeScriptKeeps)
    ensures GoPayloads(EncodeAll(payloads)) == payloads <==>
            forall i :: 0 <= i < |payloads| ==> EveryLine(payloads[i], GoKeeps)
  {
    var text := EncodeAll(payloads);
    TypeScriptReads();
    GoReads();
    DecodeUnchanged(payloads, Same, TrimStart, TrimStart);
    DecodeUnchanged(payloads, DropCr, TrimSpaces, GoValue);
    assert Each(RawLines(text), Same) == RawLines(text);
    BlocksAreLines(text, TrimStart);
    forall i | 0 <= i < |payloads|
      ensures Carried(payloads[i], TrimStart) == payloads[i] <==> EveryLine(payloads[i], TypeScriptKeeps)
      ensures Carried(payloads[i], GoValue) == payloads[i] <==> EveryLine(payloads[i], GoKeeps)
    {
      ClientsKeep(payloads[i]);
    }
  }

  // ---- Lines that are not data ---------------------------------------------------------------

  /** A comment or a field other than `data`. */
  predicate OtherLine(line: string) { NoLf(line) && line != "" && line != "\r" && !("data:" <= line) }

  lemma ScanWithout(a: seq<string>, line: string, b: seq<string>, trim: string -> string)
    requires line != "" && !("data:" <= line)
    ensures Scan(EMPTY, a + ([line] + b), trim) == Scan(EMPTY, a + b, trim)
  {
    ScanConcat(EMPTY, a, [line] + b, trim);
    ScanCons(Scan(EMPTY, a, trim), line, b, trim);
    ScanConcat(EMPTY, a, b, trim);
  }

  lemma LinesAround(a: string, line: string, b: string)
    requires NoLf(line)
    ensures RawLines(a + "\n" + (line + "\n" + b)) == Split(a) + ([line] + RawLines(b))
    ensures RawLines(a + "\n" + b) == Split(a) + RawLines(b)
  {
    SplitNoLf(line);
    RawLinesAfterLf(a, line + "\n" + b);
    RawLinesAfterLf(line, b);
    RawLinesAfterLf(a, b);
  }

  lemma EachAround(a: seq<string>, line: string, b: seq<string>, f: string -> string)
    ensures Each(a + ([line] + b), f) == Each(a, f) + ([f(line)] + Each(b, f))
    ensures Each(a + b, f) == Each(a, f) + Each(b, f)
  {}

  /** Comments and other fields change nothing, wherever a line of a text is followed by one. */
  lemma OtherLinesAreIgnored(a: string, line: string, b: string)
    requires OtherLine(line)
    ensures Drain(a + "\n" + (line + "\n" + b), TrimStart).0 == Drain(a + "\n" + b, TrimStart).0
    ensures GoPayloads(a + "\n" + (line + "\n" + b)) == GoPayloads(a + "\n" + b)
  {
    LinesAround(a, line, b);
    BlocksAreLines(a + "\n" + (line + "\n" + b), TrimStart);
    BlocksAreLines(a + "\n" + b, TrimStart);
    ScanWithout(Split(a), line, RawLines(b), TrimStart);
    EachAround(Split(a), line, RawLines(b), DropCr);
    CutOtherLine(line);
    ScanWithout(Each(Split(a), DropCr), DropCr(line), Each(RawLines(b), DropCr), TrimSpaces);
  }

  lemma CutOtherLine(line: string)
    requires line != "" && line != "\r" && !("data:" <= line)
    ensures DropCr(line) != "" && !("data:" <= DropCr(line))
  {
    if |line| == 1 { assert line == [line[0]]; }
  }
}
