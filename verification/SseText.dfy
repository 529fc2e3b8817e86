/** Lines of an event stream: splitting at LF, joining, trimming, and the data field. */
module SseText {
  /** `text.split('\n')`: always at least one line. */
  function Split(text: string): (lines: seq<string>)
    ensures |lines| > 0
  {
    if text == "" then [""]
    else if text[0] == '\n' then [""] + Split(text[1..])
    else
      var rest := Split(text[1..]);
      [[text[0]] + rest[0]] + rest[1..]
  }

  /** `lines.join('\n')` */
  function Join(lines: seq<string>): string {
    if lines == [] then "" else if |lines| == 1 then lines[0] else lines[0] + "\n" + Join(lines[1..])
  }

  predicate NoLf(s: string) { forall i :: 0 <= i < |s| ==> s[i] != '\n' }

  lemma {:induction false} SplitAtLf(a: string, b: string)
    ensures Split(a + "\n" + b) == Split(a) + Split(b)
  {
    var t := a + "\n" + b;
    if a == "" {
      assert t[1..] == b;
    } else {
      assert t[0] == a[0] && t[1..] == a[1..] + "\n" + b;
      SplitAtLf(a[1..], b);
      PrependToFirst([a[0]], Split(a[1..]), Split(b));
    }
  }

  lemma PrependToFirst(c: string, lines: seq<string>, more: seq<string>)
    requires lines != []
    ensures [c + (lines + more)[0]] + (lines + more)[1..] == [c + lines[0]] + lines[1..] + more
  {
    assert (lines + more)[1..] == lines[1..] + more;
  }

  lemma {:induction false} SplitNoLf(line: string)
    requires NoLf(line)
    ensures Split(line) == [line]
  {
    if line != "" {
      assert forall i :: 0 <= i < |line[1..]| ==> line[1..][i] == line[i + 1];
      SplitNoLf(line[1..]);
      assert line[0] != '\n' && [line[0]] + line[1..] == line;
    }
  }

  lemma {:induction false} JoinSplit(text: string)
    ensures Join(Split(text)) == text
  {
    if text != "" {
      JoinSplit(text[1..]);
      var rest := Split(text[1..]);
      if text[0] == '\n' {
        assert Split(text)[1..] == rest;
      } else {
        assert Split(text)[1..] == rest[1..];
        assert |rest| > 1 ==> Join(rest) == rest[0] + "\n" + Join(rest[1..]);
      }
    }
  }

  lemma {:induction false} SplitJoin(lines: seq<string>)
    requires lines != [] && forall i :: 0 <= i < |lines| ==> NoLf(lines[i])
    ensures Split(Join(lines)) == lines
  {
    SplitNoLf(lines[0]);
    if |lines| > 1 {
      SplitJoin(lines[1..]);
      SplitAtLf(lines[0], Join(lines[1..]));
    }
  }

  /** Every line is free of LF and made of characters of the text. */
  lemma {:induction false} LinesOfText(text: string)
    ensures forall i, j :: 0 <= i < |Split(text)| && 0 <= j < |Split(text)[i]| ==>
              Split(text)[i][j] != '\n' && Split(text)[i][j] in text
  {
    if text != "" {
      LinesOfText(text[1..]);
      assert forall c :: c in text[1..] ==> c in text;
    }
  }

  // ---- Trimming ------------------------------------------------------------------------------

  /** `strings.TrimLeft(s, " ")` */
  function TrimSpaces(s: string): string {
    if s != "" && s[0] == ' ' then TrimSpaces(s[1..]) else s
  }

  /** White space and line terminators of ECMAScript, which `trimStart` removes. */
  predicate JsSpace(c: char) {
    var u := c as int;
    u in {0x09, 0x0A, 0x0B, 0x0C, 0x0D, 0x20, 0xA0, 0x1680, 0x2028, 0x2029, 0x202F, 0x205F, 0x3000, 0xFEFF}
    || 0x2000 <= u <= 0x200A
  }

  /** In ASCII these are the space and the characters from TAB to CR. */
  lemma AsciiSpaces(c: char)
    requires c as int < 128
    ensures JsSpace(c) <==> c == ' ' || 9 <= c as int <= 13
  {}

  /** `s.trimStart()` */
  function TrimStart(s: string): string {
    if s != "" && JsSpace(s[0]) then TrimStart(s[1..]) else s
  }

  lemma {:induction false} TrimmedIsSuffix(s: string)
    ensures |TrimSpaces(s)| <= |s| && TrimSpaces(s) == s[|s| - |TrimSpaces(s)|..]
    ensures TrimSpaces(s) == s <==> s == "" || s[0] != ' '
  {
    if s != "" && s[0] == ' ' { TrimmedIsSuffix(s[1..]); }
  }

  lemma {:induction false} TrimStartShrinks(s: string)
    ensures |TrimStart(s)| <= |s| && TrimStart(s) == s[|s| - |TrimStart(s)|..]
    ensures TrimStart(s) == "" || !JsSpace(TrimStart(s)[0])
  {
    if s != "" && JsSpace(s[0]) { TrimStartShrinks(s[1..]); }
  }

  // ---- The data field ------------------------------------------------------------------------

  predicate IsComment(line: string) { ":" <= line }
  predicate IsData(line: string) { "data:" <= line }

  /** The data parts of a block of lines, each trimmed by `trim`. */
  function Parts(lines: seq<string>, trim: string -> string): seq<string> {
    if lines == [] then []
    else
      var l := lines[|lines| - 1];
      Parts(lines[..|lines| - 1], trim)
      + if !IsComment(l) && IsData(l) then [trim(l[5..])] else []
  }
}
