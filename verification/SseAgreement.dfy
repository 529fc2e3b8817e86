/** Exactly when the Go and the TypeScript client decode the same payloads, for every text. */
module SseAgreement {
  import opened SseText
  import opened SseDecoders

  // A line of one carriage return is blank to the Go client, which drops the carriage return, and is
  // a field without meaning to the TypeScript client.
  const CR := "\r"

  /** A data line whose value, after its leading spaces, is empty, a carriage return, or neither begins
      with white space that only ECMAScript trims nor ends in a carriage return. */
  predicate SameTrim(line: string) {
    IsData(line) ==>
      var v := TrimSpaces(line[5..]);
      v == "" || v == CR || (!JsSpace(v[0]) && v[|v| - 1] != '\r')
  }

  /** How the clients stand after some lines, as seen from the event that is being collected, which a
      blank line will complete: whether every payload both have sent is the same; whether the Go client
      has already sent a part of this event, has started a second part, holds data lines; and whether
      all its data lines so far were read alike. */
  datatype Pace = Pace(same: bool, sent: bool, split: bool, open: bool, alike: bool)

  function Next(p: Pace, line: string): Pace {
    if line == "" then Pace(p.same && p.alike && !p.split, false, false, false, true)
    else if line == CR then p.(sent := p.sent || p.open, open := false)
    else if IsData(line) then p.(split := p.split || p.sent, open := true, alike := p.alike && SameTrim(line))
    else p
  }

  function PaceOf(lines: seq<string>): Pace {
    if lines == [] then Pace(true, false, false, false, true)
    else Next(PaceOf(lines[..|lines| - 1]), lines[|lines| - 1])
  }

  // ---- The value of a data line --------------------------------------------------------------

  /** These are the data lines off which the two clients read the same value. */
  lemma SameTrimExactly(line: string)
    requires IsData(line)
    ensures SameTrim(line) <==> TrimSpaces(DropCr(line)[5..]) == TrimStart(line[5..])
  {
    var s := line[5..];
    CutAfterField(line);
    TrimThenCut(s);
    TrimTwice(s);
    LeadingSpaces(s);
    AlikeAfterSpaces(TrimSpaces(s));
  }

  lemma CutAfterField(line: string)
    requires IsData(line)
    ensures DropCr(line)[5..] == DropCr(line[5..])
  {
    assert line[4] == ':' by { assert line[..5] == "data:"; }
  }

  lemma {:induction false} TrimThenCut(s: string)
    ensures TrimSpaces(DropCr(s)) == DropCr(TrimSpaces(s))
  {
    if s != "" && s[0] == ' ' {
      TrimThenCut(s[1..]);
      if DropCr(s) != s { assert DropCr(s)[1..] == DropCr(s[1..]); }
    }
  }

  lemma {:induction false} TrimTwice(s: string)
    ensures TrimStart(s) == TrimStart(TrimSpaces(s))
  {
    if s != "" && s[0] == ' ' { TrimTwice(s[1..]); }
  }

  lemma {:induction false} LeadingSpaces(s: string)
    ensures TrimSpaces(s) == "" || TrimSpaces(s)[0] != ' '
  {
    if s != "" && s[0] == ' ' { LeadingSpaces(s[1..]); }
  }

  lemma AlikeAfterSpaces(v: string)
    requires v == "" || v[0] != ' '
    ensures DropCr(v) == TrimStart(v) <==>
            v == "" || v == CR || (!JsSpace(v[0]) && v[|v| - 1] != '\r')
  {
    if v != "" && JsSpace(v[0]) {
      TrimStartShrinks(v[1..]);
      if v != CR { assert DropCr(v) != "" && DropCr(v)[0] == v[0]; }
    }
  }

  // ---- The scanners keep that pace -----------------------------------------------------------

  predicate Lines(parts: seq<string>) { forall i :: 0 <= i < |parts| ==> NoLf(parts[i]) }

  /** Some payload that both have sent differs. */
  ghost predicate Differ(a: seq<string>, b: seq<string>) {
    exists i :: 0 <= i < |a| && i < |b| && a[i] != b[i]
  }

  /** `a` is the Go client, `b` the TypeScript client. The Go client may be ahead by parts of the event
      being collected; the first of them is a join of as many lines as it had data lines. */
  ghost predicate InPace(a: Scanner, b: Scanner, p: Pace) {
    && Lines(a.pending) && Lines(b.pending)
    && (p.open <==> a.pending != [])
    && (p.split ==> p.sent) && (p.sent && p.open ==> p.split)
    && if !p.same then Differ(a.sent, b.sent)
       else
         && |b.sent| <= |a.sent| && a.sent[..|b.sent|] == b.sent && (p.sent <==> |b.sent| < |a.sent|)
         && (!p.sent ==> |a.pending| == |b.pending| && (a.pending == b.pending <==> p.alike))
         && (p.sent ==> var first := Split(a.sent[|b.sent|]);
                        && |first| <= |b.pending| && (p.split <==> |first| < |b.pending|)
                        && (!p.split ==> |a.sent| == |b.sent| + 1 && (first == b.pending <==> p.alike)))
  }

  lemma DifferStays(a: seq<string>, b: seq<string>, a': seq<string>, b': seq<string>)
    requires Differ(a, b) && a <= a' && b <= b'
    ensures Differ(a', b')
  {
    var i :| 0 <= i < |a| && i < |b| && a[i] != b[i];
    assert a'[i] == a[i] && b'[i] == b[i];
  }

  lemma AppendOne(a: seq<string>, b: seq<string>, x: string, y: string)
    requires |a| == |b|
    ensures a + [x] == b + [y] <==> a == b && x == y
  {
    if a + [x] == b + [y] {
      assert (a + [x])[..|a|] == a && (b + [y])[..|a|] == b;
      assert (a + [x])[|a|] == x && (b + [y])[|a|] == y;
    }
  }

  /** A payload equals the join of lines exactly when it splits into them. */
  lemma JoinIs(payload: string, lines: seq<string>)
    requires lines != [] && Lines(lines)
    ensures payload == Join(lines) <==> Split(payload) == lines
  {
    SplitJoin(lines);
    JoinSplit(payload);
  }

  /** A blank line completes the event for both. */
  lemma BlankKeepsPace(a: Scanner, b: Scanner, p: Pace)
    requires InPace(a, b, p)
    ensures InPace(Feed(a, "", TrimSpaces), Feed(b, "", TrimStart), Next(p, ""))
  {
    var a', b' := Feed(a, "", TrimSpaces), Feed(b, "", TrimStart);
    if !p.same {
      DifferStays(a.sent, b.sent, a'.sent, b'.sent);
    } else if p.sent {
      LateBlank(a, b, p);
    } else if a.pending != [] {
      EvenBlank(a, b, p);
    }
  }

  /** Neither has sent anything of the event: both send it now. */
  lemma EvenBlank(a: Scanner, b: Scanner, p: Pace)
    requires InPace(a, b, p) && p.same && !p.sent && a.pending != []
    ensures InPace(Feed(a, "", TrimSpaces), Feed(b, "", TrimStart), Next(p, ""))
  {
    var x, y := Join(a.pending), Join(b.pending);
    SplitJoin(a.pending);
    JoinIs(x, b.pending);
    assert a.sent == b.sent by { assert a.sent[..|b.sent|] == a.sent; }
    var n := |b.sent|;
    assert (a.sent + [x])[n] == x && (b.sent + [y])[n] == y;
    if x == y { assert (a.sent + [x])[..n + 1] == b.sent + [y]; }
  }

  /** The Go client has sent a part of the event: the TypeScript client now sends the whole. */
  lemma LateBlank(a: Scanner, b: Scanner, p: Pace)
    requires InPace(a, b, p) && p.same && p.sent
    ensures InPace(Feed(a, "", TrimSpaces), Feed(b, "", TrimStart), Next(p, ""))
  {
    var n := |b.sent|;
    var y := Join(b.pending);
    var a', b' := Feed(a, "", TrimSpaces), Feed(b, "", TrimStart);
    assert b.pending != [];
    JoinIs(a.sent[n], b.pending);
    assert b'.sent == b.sent + [y] && b'.sent[n] == y && a'.sent[n] == a.sent[n];
    if a.sent[n] == y {
      assert a.pending == [] && a' == a;
      assert a.sent == b.sent + [y] by { assert a.sent[..n] == b.sent && |a.sent| == n + 1; }
      assert a.sent[..n + 1] == a.sent;
    }
  }

  /** A line of one carriage return sends what the Go client holds. */
  lemma CrKeepsPace(a: Scanner, b: Scanner, p: Pace)
    requires InPace(a, b, p)
    ensures InPace(Feed(a, DropCr(CR), TrimSpaces), Feed(b, CR, TrimStart), Next(p, CR))
  {
    assert DropCr(CR) == "" && !IsData(CR);
    if a.pending != [] {
      var x := Join(a.pending);
      var sent := a.sent + [x];
      if !p.same {
        DifferStays(a.sent, b.sent, sent, b.sent);
      } else {
        SplitJoin(a.pending);
        var n := |b.sent|;
        assert sent[..n] == a.sent[..n];
        assert sent[n] == if n < |a.sent| then a.sent[n] else x;
      }
    }
  }

  lemma FeedData(s: Scanner, line: string, trim: string -> string)
    requires IsData(line)
    ensures Feed(s, line, trim) == s.(pending := s.pending + [trim(line[5..])])
  {
    assert line[0] == 'd' by { assert line[..5] == "data:"; }
  }

  lemma DataIsNoCr(line: string)
    requires IsData(line)
    ensures line != CR && |line| >= 5
  {
    assert line[..5] == "data:";
  }

  /** What both hold after a data line. */
  lemma DataIsHeld(a: Scanner, b: Scanner, line: string, x: string, y: string)
    requires IsData(line) && IsData(DropCr(line)) && NoLf(line)
    requires x == TrimSpaces(DropCr(line)[5..]) && y == TrimStart(line[5..])
    ensures Feed(a, DropCr(line), TrimSpaces) == a.(pending := a.pending + [x]) && NoLf(x)
    ensures Feed(b, line, TrimStart) == b.(pending := b.pending + [y]) && NoLf(y)
  {
    FeedData(a, DropCr(line), TrimSpaces);
    FeedData(b, line, TrimStart);
    TrimmedIsSuffix(DropCr(line)[5..]);
    TrimStartShrinks(line[5..]);
  }

  /** A data line is held by both. */
  lemma DataKeepsPace(a: Scanner, b: Scanner, p: Pace, line: string)
    requires InPace(a, b, p) && IsData(line) && NoLf(line)
    ensures InPace(Feed(a, DropCr(line), TrimSpaces), Feed(b, line, TrimStart), Next(p, line))
  {
    DataIsNoCr(line);
    DropCrKeepsKind(line);
    var x, y := TrimSpaces(DropCr(line)[5..]), TrimStart(line[5..]);
    DataIsHeld(a, b, line, x, y);
    SameTrimExactly(line);
    HoldKeepsPace(a, b, p, line, x, y);
  }

  lemma HoldKeepsPace(a: Scanner, b: Scanner, p: Pace, line: string, x: string, y: string)
    requires InPace(a, b, p) && IsData(line) && NoLf(x) && NoLf(y) && (SameTrim(line) <==> x == y)
    ensures InPace(a.(pending := a.pending + [x]), b.(pending := b.pending + [y]), Next(p, line))
  {
    assert line[0] == 'd' by { assert line[..5] == "data:"; }
    if p.same && !p.sent { AppendOne(a.pending, b.pending, x, y); }
  }

  /** Dropping a carriage return leaves comments comments, data lines data lines and the rest neither. */
  lemma DropCrKeepsKind(line: string)
    requires line != CR
    ensures DropCr(line) == "" <==> line == ""
    ensures IsComment(DropCr(line)) == IsComment(line) && IsData(DropCr(line)) == IsData(line)
  {
    if IsData(line) { assert line[4] == ':' by { assert line[..5] == "data:"; } }
    assert |line| == 1 ==> line == [line[0]];
  }

  lemma LineKeepsPace(a: Scanner, b: Scanner, p: Pace, line: string)
    requires InPace(a, b, p) && NoLf(line)
    ensures InPace(Feed(a, DropCr(line), TrimSpaces), Feed(b, line, TrimStart), Next(p, line))
  {
    if line == "" { BlankKeepsPace(a, b, p); }
    else if line == CR { CrKeepsPace(a, b, p); }
    else {
      if IsComment(line) { assert line[0] == ':'; }
      if IsData(line) { DataKeepsPace(a, b, p, line); } else { DropCrKeepsKind(line); }
    }
  }

  lemma {:induction false} ScansInPace(lines: seq<string>)
    requires Lines(lines)
    ensures InPace(Scan(EMPTY, Each(lines, DropCr), TrimSpaces), Scan(EMPTY, lines, TrimStart), PaceOf(lines))
  {
    if lines != [] {
      var n := |lines| - 1;
      var before := lines[..n];
      ScansInPace(before);
      assert Each(lines, DropCr)[..n] == Each(before, DropCr);
      var a, b := Scan(EMPTY, Each(before, DropCr), TrimSpaces), Scan(EMPTY, before, TrimStart);
      LineKeepsPace(a, b, PaceOf(before), lines[n]);
    }
  }

  // ---- What the pace says of the lines -------------------------------------------------------

  /** A blank line follows line `i`, so its event is completed. */
  predicate Completed(lines: seq<string>, i: nat) { exists j :: i < j < |lines| && lines[j] == "" }

  /** Line `j` is a lone carriage return in the event of data line `i`. */
  predicate CutAt(lines: seq<string>, i: nat, j: nat) {
    i < j < |lines| && IsData(lines[i]) && lines[j] == CR && !Completed(lines[..j], i)
  }

  /** Data line `k` comes later in that event, which the Go client thus sends in two. */
  predicate Halved(lines: seq<string>, i: nat, j: nat, k: nat) {
    j < k < |lines| && CutAt(lines, i, j) && IsData(lines[k]) && !Completed(lines[..k], i)
  }

  ghost predicate AnyOpen(lines: seq<string>) {
    exists i: nat :: i < |lines| && IsData(lines[i]) && !Completed(lines, i) && Uncut(lines, i)
  }
  predicate Uncut(lines: seq<string>, i: nat) { forall j :: i < j < |lines| ==> lines[j] != CR }

  ghost predicate AnySent(lines: seq<string>) {
    exists i: nat, j: nat :: CutAt(lines, i, j) && !Completed(lines, i)
  }
  ghost predicate AnySplit(lines: seq<string>) {
    exists i: nat, j: nat, k: nat :: Halved(lines, i, j, k) && !Completed(lines, i)
  }
  ghost predicate AllAlike(lines: seq<string>) {
    forall i: nat :: i < |lines| && !Completed(lines, i) ==> SameTrim(lines[i])
  }
  ghost predicate AllSame(lines: seq<string>) {
    && (forall i: nat :: i < |lines| && Completed(lines, i) ==> SameTrim(lines[i]))
    && (forall i: nat, j: nat, k: nat :: Halved(lines, i, j, k) ==> !Completed(lines, k))
  }

  ghost predicate Means(p: Pace, lines: seq<string>) {
    && (p.same <==> AllSame(lines)) && (p.sent <==> AnySent(lines)) && (p.split <==> AnySplit(lines))
    && (p.open <==> AnyOpen(lines)) && (p.alike <==> AllAlike(lines))
  }

  /** One line more leaves what is said of earlier lines, save that a blank line completes them. */
  lemma CompletedMore(before: seq<string>, line: string, i: nat)
    requires i < |before|
    ensures Completed(before + [line], i) <==> Completed(before, i) || line == ""
  {
    var lines := before + [line];
    if Completed(before, i) {
      var j :| i < j < |before| && before[j] == "";
      assert lines[j] == "";
    }
    if line == "" { assert i < |before| < |lines| && lines[|before|] == ""; }
    if Completed(lines, i) {
      var j :| i < j < |lines| && lines[j] == "";
      assert j < |before| ==> before[j] == "";
    }
  }

  lemma CutMore(before: seq<string>, line: string, i: nat, j: nat)
    ensures CutAt(before + [line], i, j) <==>
            CutAt(before, i, j) || (i < j == |before| && IsData(before[i]) && line == CR && !Completed(before, i))
  {
    var lines := before + [line];
    if j < |before| { assert lines[..j] == before[..j]; }
    if j == |before| { assert lines[..j] == before; }
  }

  lemma HalvedMore(before: seq<string>, line: string, i: nat, j: nat, k: nat)
    ensures Halved(before + [line], i, j, k) <==>
            Halved(before, i, j, k) || (k == |before| && CutAt(before, i, j) && IsData(line) && !Completed(before, i))
  {
    var lines := before + [line];
    CutMore(before, line, i, j);
    if k < |before| { assert lines[..k] == before[..k]; }
    if k == |before| { assert lines[..k] == before; }
  }

  /** The three facts about earlier lines, for all of them. */
  lemma More(before: seq<string>, line: string)
    ensures forall i: nat :: i < |before| ==> (Completed(before + [line], i) <==> Completed(before, i) || line == "")
    ensures !Completed(before + [line], |before|)
    ensures forall i: nat, j: nat :: CutAt(before + [line], i, j) <==>
              CutAt(before, i, j) || (i < j == |before| && IsData(before[i]) && line == CR && !Completed(before, i))
    ensures forall i: nat, j: nat, k: nat :: Halved(before + [line], i, j, k) <==>
              Halved(before, i, j, k) || (k == |before| && CutAt(before, i, j) && IsData(line) && !Completed(before, i))
  {
    forall i: nat | i < |before| ensures Completed(before + [line], i) <==> Completed(before, i) || line == "" {
      CompletedMore(before, line, i);
    }
    forall i: nat, j: nat
      ensures CutAt(before + [line], i, j) <==>
              CutAt(before, i, j) || (i < j == |before| && IsData(before[i]) && line == CR && !Completed(before, i))
    {
      CutMore(before, line, i, j);
    }
    forall i: nat, j: nat, k: nat
      ensures Halved(before + [line], i, j, k) <==>
              Halved(before, i, j, k) || (k == |before| && CutAt(before, i, j) && IsData(line) && !Completed(before, i))
    {
      HalvedMore(before, line, i, j, k);
    }
  }

  lemma StillOpen(lines: seq<string>, i: nat, k: nat)
    requires i < k <= |lines| && !Completed(lines, i)
    ensures !Completed(lines[..k], i)
  {
    forall j | i < j < k ensures lines[..k][j] != "" { assert lines[j] != ""; }
  }

  lemma SentMore(p: Pace, before: seq<string>, line: string)
    requires (p.sent <==> AnySent(before)) && (p.open <==> AnyOpen(before))
    ensures Next(p, line).sent <==> AnySent(before + [line])
  {
    if Next(p, line).sent { SentForth(p, before, line); }
    if AnySent(before + [line]) { SentBack(p, before, line); }
  }

  lemma SentForth(p: Pace, before: seq<string>, line: string)
    requires (p.sent <==> AnySent(before)) && (p.open <==> AnyOpen(before)) && Next(p, line).sent
    ensures AnySent(before + [line])
  {
    assert line != "" && !IsData("");
    if p.sent {
      var i: nat, j: nat :| CutAt(before, i, j) && !Completed(before, i);
      CutMore(before, line, i, j);
      CompletedMore(before, line, i);
    } else {
      var i: nat :| i < |before| && IsData(before[i]) && !Completed(before, i) && Uncut(before, i);
      CutMore(before, line, i, |before|);
      CompletedMore(before, line, i);
    }
  }

  lemma SentBack(p: Pace, before: seq<string>, line: string)
    requires (p.sent <==> AnySent(before)) && (p.open <==> AnyOpen(before)) && AnySent(before + [line])
    ensures Next(p, line).sent
  {
    var i: nat, j: nat :| CutAt(before + [line], i, j) && !Completed(before + [line], i);
    CutMore(before, line, i, j);
    CompletedMore(before, line, i);
    if j == |before| && !Uncut(before, i) {
      var c :| i < c < |before| && before[c] == CR;
      StillOpen(before, i, c);
      assert CutAt(before, i, c);
    }
  }

  lemma SplitMore(p: Pace, before: seq<string>, line: string)
    requires (p.split <==> AnySplit(before)) && (p.sent <==> AnySent(before))
    ensures Next(p, line).split <==> AnySplit(before + [line])
  {
    var lines, n := before + [line], |before|;
    More(before, line);
    if Next(p, line).split {
      if p.split {
        var i: nat, j: nat, k: nat :| Halved(before, i, j, k) && !Completed(before, i);
        assert Halved(lines, i, j, k) && !Completed(lines, i);
      } else {
        var i: nat, j: nat :| CutAt(before, i, j) && !Completed(before, i);
        assert Halved(lines, i, j, n) && !Completed(lines, i);
      }
    }
    if AnySplit(lines) {
      var i: nat, j: nat, k: nat :| Halved(lines, i, j, k) && !Completed(lines, i);
      if k < n { assert Halved(before, i, j, k); } else { assert CutAt(before, i, j); }
    }
  }

  lemma UncutMore(before: seq<string>, line: string, i: nat)
    requires i < |before|
    ensures Uncut(before + [line], i) <==> Uncut(before, i) && line != CR
  {
    var lines, n := before + [line], |before|;
    assert lines[n] == line;
    if Uncut(lines, i) {
      forall j | i < j < n ensures before[j] != CR { assert lines[j] == before[j]; }
    }
    if Uncut(before, i) && line != CR {
      forall j | i < j < |lines| ensures lines[j] != CR { assert j < n ==> before[j] != CR; }
    }
  }

  lemma OpenMore(p: Pace, before: seq<string>, line: string)
    requires p.open <==> AnyOpen(before)
    ensures Next(p, line).open <==> AnyOpen(before + [line])
  {
    var lines, n := before + [line], |before|;
    More(before, line);
    forall i: nat | i < n ensures Uncut(lines, i) <==> Uncut(before, i) && line != CR {
      UncutMore(before, line, i);
    }
    if Next(p, line).open {
      if IsData(line) {
        assert lines[n] == line && Uncut(lines, n);
      } else {
        var i: nat :| i < n && IsData(before[i]) && !Completed(before, i) && Uncut(before, i);
        assert lines[i] == before[i];
      }
    }
    if AnyOpen(lines) {
      var i: nat :| i < |lines| && IsData(lines[i]) && !Completed(lines, i) && Uncut(lines, i);
      if i < n { assert lines[i] == before[i]; }
    }
  }

  lemma AlikeMore(p: Pace, before: seq<string>, line: string)
    requires p.alike <==> AllAlike(before)
    ensures Next(p, line).alike <==> AllAlike(before + [line])
  {
    var lines, n := before + [line], |before|;
    assert lines[n] == line && !Completed(lines, n);
    forall i: nat | i < n
      ensures lines[i] == before[i] && (Completed(lines, i) <==> Completed(before, i) || line == "")
    {
      CompletedMore(before, line, i);
    }
    NoDataAlike(line);
  }

  lemma NoDataAlike(line: string)
    ensures !IsData("") && !IsData(CR)
    ensures !IsData(line) ==> SameTrim(line)
  {}

  lemma SameMore(p: Pace, before: seq<string>, line: string)
    requires Means(p, before)
    ensures Next(p, line).same <==> AllSame(before + [line])
  {
    if line == "" { SameAtBlank(p, before); } else { SameAtLine(before, line); }
  }

  lemma SameAtBlank(p: Pace, before: seq<string>)
    requires Means(p, before)
    ensures Next(p, "").same <==> AllSame(before + [""])
  {
    var lines := before + [""];
    More(before, "");
    assert !IsData("") && forall i: nat :: i < |before| ==> lines[i] == before[i];
    forall i: nat, j: nat, k: nat | Halved(before, i, j, k)
      ensures Halved(lines, i, j, k) && (Completed(before, i) <==> Completed(before, k))
    {
      HalvedIsSplit(before, i, j, k);
    }
  }

  lemma SameAtLine(before: seq<string>, line: string)
    requires line != ""
    ensures AllSame(before) <==> AllSame(before + [line])
  {
    var lines := before + [line];
    More(before, line);
    assert forall i: nat :: i < |before| ==> lines[i] == before[i];
    forall i: nat, j: nat, k: nat | Halved(before, i, j, k) ensures Halved(lines, i, j, k) {}
  }

  /** A halved event is completed where its second half is. */
  lemma HalvedIsSplit(lines: seq<string>, i: nat, j: nat, k: nat)
    requires Halved(lines, i, j, k)
    ensures Completed(lines, i) <==> Completed(lines, k)
  {
    assert !IsData("");
    forall b | i < b < k ensures lines[b] != "" { assert lines[..k][b] == lines[b]; }
    if Completed(lines, k) {
      var b :| k < b < |lines| && lines[b] == "";
      assert i < b;
    }
  }

  lemma MeansMore(before: seq<string>, line: string)
    requires Means(PaceOf(before), before)
    ensures Means(PaceOf(before + [line]), before + [line])
  {
    var p := PaceOf(before);
    assert (before + [line])[..|before|] == before;
    SentMore(p, before, line);
    SplitMore(p, before, line);
    OpenMore(p, before, line);
    AlikeMore(p, before, line);
    SameMore(p, before, line);
  }

  lemma {:induction false} PaceMeans(lines: seq<string>)
    ensures Means(PaceOf(lines), lines)
  {
    if lines == [] {
      NothingYet(lines);
    } else {
      var n := |lines| - 1;
      assert lines == lines[..n] + [lines[n]];
      PaceMeans(lines[..n]);
      MeansMore(lines[..n], lines[n]);
    }
  }

  lemma NothingYet(lines: seq<string>)
    requires lines == []
    ensures Means(PaceOf(lines), lines)
  {}

  // ---- The clients ---------------------------------------------------------------------------

  /** The clients agree on a text's lines: no event is cut by a lone carriage return and goes on or
      stays incomplete after it, and the data lines of completed events are read alike. */
  ghost predicate Agreed(lines: seq<string>) {
    && (forall i: nat :: i < |lines| && Completed(lines, i) ==> SameTrim(lines[i]))
    && (forall i: nat, j: nat :: CutAt(lines, i, j) ==> Completed(lines, i))
    && (forall i: nat, j: nat, k: nat :: !Halved(lines, i, j, k))
  }

  lemma InPaceEqual(a: Scanner, b: Scanner, p: Pace)
    requires InPace(a, b, p)
    ensures a.sent == b.sent <==> p.same && !p.sent
  {
    if p.same && !p.sent { assert a.sent[..|b.sent|] == a.sent; }
  }

  /** The Go and the TypeScript client decode the same payloads from a text exactly when its lines
      are agreed. */
  lemma DecodersAgreeExactly(text: string)
    ensures GoPayloads(text) == Drain(text, TrimStart).0 <==> Agreed(RawLines(text))
  {
    var lines := RawLines(text);
    BlocksAreLines(text, TrimStart);
    LinesOfText(text);
    forall i | 0 <= i < |lines| ensures NoLf(lines[i]) { assert lines[i] == Split(text)[i]; }
    ScansInPace(lines);
    InPaceEqual(Scan(EMPTY, ScanLines(text), TrimSpaces), Scan(EMPTY, lines, TrimStart), PaceOf(lines));
    PaceMeans(lines);
    AgreedIsSame(lines);
  }

  lemma AgreedIsSame(lines: seq<string>)
    ensures Agreed(lines) <==> AllSame(lines) && !AnySent(lines)
  {
    if AllSame(lines) && !AnySent(lines) {
      forall i: nat, j: nat, k: nat | Halved(lines, i, j, k)
        ensures CutAt(lines, i, j) && (Completed(lines, i) <==> Completed(lines, k))
      {
        HalvedIsSplit(lines, i, j, k);
      }
    }
  }

  /** In particular they agree on every text whose only white space is LF and space. */
  lemma DecodersAgree(text: string)
    requires forall i :: 0 <= i < |text| && JsSpace(text[i]) ==> text[i] == ' ' || text[i] == '\n'
    ensures GoPayloads(text) == Drain(text, TrimStart).0
  {
    var lines := RawLines(text);
    LinesOfText(text);
    forall i: nat | i < |lines| ensures SameTrim(lines[i]) && lines[i] != CR {
      assert lines[i] == Split(text)[i];
      PlainLine(lines[i]);
    }
    AllPlain(lines);
    DecodersAgreeExactly(text);
  }

  lemma AllPlain(lines: seq<string>)
    requires forall i: nat :: i < |lines| ==> SameTrim(lines[i]) && lines[i] != CR
    ensures Agreed(lines)
  {}

  lemma PlainLine(line: string)
    requires forall i :: 0 <= i < |line| && JsSpace(line[i]) ==> line[i] == ' '
    ensures SameTrim(line) && line != CR
  {
    assert CR[0] == '\r' && JsSpace('\r');
    assert DropCr(line) == line;
    if IsData(line) {
      assert forall i :: 0 <= i < |line[5..]| ==> line[5..][i] == line[i + 5];
      PlainTrim(line[5..]);
      SameTrimExactly(line);
    }
  }

  lemma {:induction false} PlainTrim(s: string)
    requires forall i :: 0 <= i < |s| && JsSpace(s[i]) ==> s[i] == ' '
    ensures TrimSpaces(s) == TrimStart(s)
  {
    if s != "" && s[0] == ' ' {
      assert forall i :: 0 <= i < |s[1..]| ==> s[1..][i] == s[i + 1];
      PlainTrim(s[1..]);
    }
  }
}
