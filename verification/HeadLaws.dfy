/** What the head reader makes of a head somebody wrote: every well-formed head
    is read back as it was meant, in any order of its fields. */
module HeadLaws {
  import opened Common
  import opened Text
  import opened TextLaws
  import opened HealthProbe
  import opened ChunkingLaws
  import opened BodyLaws

  // ---- the order of the header lines ------------------------------------------------

  lemma SameMarks(some: seq<string>, other: seq<string>, marker: string)
    requires multiset(some) == multiset(other)
    requires AnyMarks(some, marker)
    ensures AnyMarks(other, marker)
  {
    var i :| 0 <= i < |some| && ValueIn(some[i], marker) == Some("1");
    assert some[i] in multiset(other);
    var j :| 0 <= j < |other| && other[j] == some[i];
    assert ValueIn(other[j], marker) == Some("1");
  }

  /** Reordering the header lines never changes what a head means. */
  lemma FieldOrderIsIrrelevant(some: string, other: string)
    requires FirstLine(some) == FirstLine(other)
    requires multiset(Fields(some)) == multiset(Fields(other))
    ensures OutcomeFromHead(some) == OutcomeFromHead(other)
  {
    hide AnyMarks;
    forall marker: string
      ensures HeadCarriesMarker(some, marker) == HeadCarriesMarker(other, marker)
    {
      if HeadCarriesMarker(some, marker) {
        SameMarks(Fields(some), Fields(other), marker);
      }
      if HeadCarriesMarker(other, marker) {
        SameMarks(Fields(other), Fields(some), marker);
      }
    }
    OutcomeRestsOn(some, other);
  }

  // ---- writing a head ---------------------------------------------------------------

  /** The blanks a writer may put around a name and a value. */
  datatype Blanks = Blanks(beforeName: string, afterName: string, beforeValue: string, afterValue: string)

  datatype Field = Field(name: string, value: string, around: Blanks)

  /** The usual spelling: one space after the colon. */
  const USUAL: Blanks := Blanks("", "", " ", "")

  predicate IsWord(s: string) {
    s != "" && forall i :: 0 <= i < |s| ==> Visible(s[i])
  }

  /** A field as HTTP allows one: a name without blanks or colon, and a bare value
      on one line, each between any blanks. */
  predicate WellFormed(f: Field) {
    && IsWord(f.name) && ':' !in f.name
    && Bare(f.value) && '\n' !in f.value
    && Blank(f.around.beforeName) && Blank(f.around.afterName)
    && Blank(f.around.beforeValue) && Blank(f.around.afterValue)
  }

  function NamePart(f: Field): string {
    f.around.beforeName + f.name + f.around.afterName
  }

  function ValuePart(f: Field): string {
    f.around.beforeValue + f.value + f.around.afterValue
  }

  /** One header line, without its line ending. */
  function LineOf(f: Field): string {
    NamePart(f) + ":" + ValuePart(f)
  }

  /** The first line: the protocol, the code, and what follows them. */
  datatype Start = Start(protocol: string, gap: string, code: string, reason: string)

  predicate WellStarted(s: Start) {
    && IsWord(s.protocol) && s.gap != "" && Blank(s.gap) && IsWord(s.code)
    && (s.reason == "" || Blank(s.reason[..1])) && '\n' !in s.reason && '\r' !in s.reason
  }

  function StatusLine(s: Start): string {
    s.protocol + s.gap + s.code + s.reason
  }

  predicate IsEnding(eol: string) {
    eol == "\r\n" || eol == "\n"
  }

  function WrittenFields(fields: seq<Field>, eol: string): string {
    if fields == [] then "" else LineOf(fields[0]) + eol + WrittenFields(fields[1..], eol)
  }

  function WrittenHead(start: Start, fields: seq<Field>, eol: string): string {
    StatusLine(start) + eol + (WrittenFields(fields, eol) + eol)
  }

  /** The same name, with any of its letters written as capitals. */
  predicate SpelledAs(name: string, plain: string) {
    && |name| == |plain|
    && forall i :: 0 <= i < |name| ==>
         name[i] == plain[i] || ('a' <= plain[i] <= 'z' && name[i] as int + 32 == plain[i] as int)
  }

  /** A field sets a marker when it has its name, in any case, and the value 1. */
  predicate Sets(f: Field, marker: string) {
    SpelledAs(f.name, marker) && f.value == "1"
  }

  /** What such a head is meant to say. */
  function Meaning(code: nat, fields: seq<Field>): ProbeOutcome {
    if 200 <= code < 300 then Healthy
    else if code == 503 && exists i :: 0 <= i < |fields| && Sets(fields[i], "x-mcc-shutdown") then ShuttingDown
    else if code == 503 && exists i :: 0 <= i < |fields| && Sets(fields[i], "x-mcc-starting") then StartingUp
    else Http(code)
  }

  // ---- reading it back --------------------------------------------------------------

  lemma Ended(line: string, eol: string, rest: string)
    requires '\n' !in line && (line == "" || line[|line| - 1] != '\r') && IsEnding(eol)
    ensures Lines(line + eol + rest) == [line] + Lines(rest)
  {
    hide Lines;
    if eol == "\n" {
      LinesOf(line, rest);
    } else {
      var ended := line + "\r";
      assert line + eol + rest == ended + "\n" + rest;
      LinesOf(ended, rest);
      assert ended[..|line|] == line;
    }
  }

  function LinesOfFields(fields: seq<Field>): (lines: seq<string>)
    ensures |lines| == |fields| && forall i :: 0 <= i < |fields| ==> lines[i] == LineOf(fields[i])
  {
    seq(|fields|, i requires 0 <= i < |fields| => LineOf(fields[i]))
  }

  /** A blank or visible character, as a line ends in one. */
  predicate Inked(c: char) {
    c == ' ' || c == '\t' || Visible(c)
  }

  lemma EndsInk(s: string, t: string)
    requires t == "" || Inked(t[|t| - 1])
    requires t == "" ==> s != "" && Inked(s[|s| - 1])
    ensures s + t != "" && Inked((s + t)[|s + t| - 1])
  {
  }

  lemma LineIsOneLine(f: Field)
    requires WellFormed(f)
    ensures '\n' !in LineOf(f) && LineOf(f) != "" && Inked(LineOf(f)[|LineOf(f)| - 1])
  {
    assert forall i :: 0 <= i < |f.name| ==> f.name[i] != '\n';
    EndsInk(NamePart(f) + ":", f.around.beforeValue);
    EndsInk(NamePart(f) + ":" + f.around.beforeValue, f.value);
    EndsInk(NamePart(f) + ":" + f.around.beforeValue + f.value, f.around.afterValue);
    assert LineOf(f) == NamePart(f) + ":" + f.around.beforeValue + f.value + f.around.afterValue;
  }

  lemma {:induction false} FieldsAreLines(fields: seq<Field>, eol: string)
    requires IsEnding(eol) && forall f :: f in fields ==> WellFormed(f)
    ensures Lines(WrittenFields(fields, eol) + eol) == LinesOfFields(fields) + [""]
  {
    hide Lines, LineOf, WellFormed, IsEnding;
    if fields == [] {
      Ended("", eol, "");
      assert "" + eol + "" == eol && WrittenFields(fields, eol) + eol == eol;
      NoLines();
    } else {
      var rest := WrittenFields(fields[1..], eol) + eol;
      LineIsOneLine(fields[0]);
      assert WrittenFields(fields, eol) + eol == LineOf(fields[0]) + eol + rest;
      Ended(LineOf(fields[0]), eol, rest);
      FieldsAreLines(fields[1..], eol);
      assert LinesOfFields(fields) == [LineOf(fields[0])] + LinesOfFields(fields[1..]);
    }
  }

  lemma NoLines()
    ensures Lines("") == []
  {
  }

  /** A header name of letters and hyphens, all small. */
  predicate IsPlain(name: string) {
    forall i :: 0 <= i < |name| ==> name[i] == '-' || 'a' <= name[i] <= 'z'
  }

  lemma CaseIsIgnored(name: string, plain: string)
    requires IsPlain(plain)
    ensures SameIgnoringCase(name, plain) <==> SpelledAs(name, plain)
  {
  }

  lemma WordIsBare(s: string)
    requires IsWord(s)
    ensures Bare(s) && forall i :: 0 <= i < |s| ==> !IsSpace(s[i])
  {
  }

  /** A written field is read as its bare value under its name, in any case,
      whatever the blanks. */
  lemma FieldIsRead(f: Field, plain: string)
    requires WellFormed(f) && IsPlain(plain)
    ensures ValueIn(LineOf(f), plain) == if SpelledAs(f.name, plain) then Some(f.value) else None
  {
    hide Trim, IsPlain, SpelledAs, SameIgnoringCase;
    var line, name := LineOf(f), NamePart(f);
    assert line[..|name|] == name && line[|name| + 1..] == ValuePart(f);
    FindIs(line, ':', |name|);
    WordIsBare(f.name);
    TrimIs(f.around.beforeName, f.name, f.around.afterName);
    TrimIs(f.around.beforeValue, f.value, f.around.afterValue);
    CaseIsIgnored(f.name, plain);
  }

  lemma FieldsAreRead(fields: seq<Field>, marker: string)
    requires IsPlain(marker) && forall f :: f in fields ==> WellFormed(f)
    ensures AnyMarks(LinesOfFields(fields) + [""], marker) <==> exists i :: 0 <= i < |fields| && Sets(fields[i], marker)
  {
    hide ValueIn, LineOf, SpelledAs, WellFormed, IsPlain;
    var lines := LinesOfFields(fields) + [""];
    forall i | 0 <= i < |fields|
      ensures ValueIn(lines[i], marker) == Some("1") <==> Sets(fields[i], marker)
    {
      FieldIsRead(fields[i], marker);
    }
    BlankLineIsNoField(marker);
    if i :| 0 <= i < |fields| && Sets(fields[i], marker) {
      assert ValueIn(lines[i], marker) == Some("1");
    }
  }

  lemma BlankLineIsNoField(marker: string)
    ensures ValueIn("", marker) == None
  {
  }

  lemma {:induction false} WordIs(word: string, rest: string)
    requires (forall i :: 0 <= i < |word| ==> !IsSpace(word[i])) && (rest == "" || IsSpace(rest[0]))
    ensures WordLength(word + rest) == |word|
  {
    if word == "" {
      assert word + rest == rest;
    } else {
      assert (word + rest)[1..] == word[1..] + rest;
      WordIs(word[1..], rest);
    }
  }

  lemma WordsOf(word: string, rest: string)
    requires IsWord(word) && (rest == "" || IsSpace(rest[0]))
    ensures Words(word + rest) == [word] + Words(rest)
  {
    hide Visible, IsSpace;
    WordIsBare(word);
    WordIs(word, rest);
    var s := word + rest;
    assert s[..|word|] == word && s[|word|..] == rest;
  }

  lemma {:induction false} WordsAfter(gap: string, rest: string)
    requires Blank(gap)
    ensures Words(gap + rest) == Words(rest)
  {
    if gap == "" {
      assert gap + rest == rest;
    } else {
      assert (gap + rest)[1..] == gap[1..] + rest;
      WordsAfter(gap[1..], rest);
    }
  }

  lemma BlankIsSpace(s: string)
    requires s != "" && Blank(s[..1])
    ensures IsSpace(s[0])
  {
  }

  /** A status line is read back as the code it was written with. */
  lemma StatusLineIsRead(s: Start)
    requires WellStarted(s)
    ensures CodeOfLine(StatusLine(s)) == if "HTTP/" <= s.protocol then ParseUnsigned(s.code, 65535) else None
  {
    hide Words, ParseUnsigned, IsSpace, IsWord;
    var rest := s.gap + (s.code + s.reason);
    assert StatusLine(s) == s.protocol + rest;
    BlankIsSpace(rest);
    WordsOf(s.protocol, rest);
    WordsAfter(s.gap, s.code + s.reason);
    if s.reason != "" {
      BlankIsSpace(s.reason);
    }
    WordsOf(s.code, s.reason);
  }

  lemma OneLine(s: Start)
    requires WellStarted(s)
    ensures var line := StatusLine(s); '\n' !in line && line != "" && line[|line| - 1] != '\r'
  {
    assert forall i :: 0 <= i < |s.protocol| ==> s.protocol[i] != '\n';
    assert forall i :: 0 <= i < |s.code| ==> s.code[i] != '\n' && s.code[i] != '\r';
    var line := StatusLine(s);
    assert line[|line| - 1] == if s.reason == "" then s.code[|s.code| - 1] else s.reason[|s.reason| - 1];
  }

  /** A written head falls back into its lines. */
  lemma HeadIsLines(start: Start, fields: seq<Field>, eol: string)
    requires WellStarted(start) && IsEnding(eol) && forall f :: f in fields ==> WellFormed(f)
    ensures Lines(WrittenHead(start, fields, eol)) == [StatusLine(start)] + (LinesOfFields(fields) + [""])
    ensures Fields(WrittenHead(start, fields, eol)) == LinesOfFields(fields) + [""]
  {
    hide Lines, WellStarted, WellFormed, IsEnding;
    OneLine(start);
    Ended(StatusLine(start), eol, WrittenFields(fields, eol) + eol);
    FieldsAreLines(fields, eol);
  }

  lemma MarkersArePlain()
    ensures IsPlain("x-mcc-shutdown") && IsPlain("x-mcc-starting") && IsPlain("x-mcc-pid")
  {
  }

  /** Every well-formed head with a code is read back as it was meant: whatever
      the blanks around names and values, the case of the names, the line endings
      and the spelling of the code. */
  lemma HeadIsRead(start: Start, n: nat, fields: seq<Field>, eol: string)
    requires WellStarted(start) && "HTTP/" <= start.protocol && Spells(start.code, n) && n <= 65535
    requires IsEnding(eol) && forall f :: f in fields ==> WellFormed(f)
    ensures OutcomeFromHead(WrittenHead(start, fields, eol)) == Meaning(n, fields)
  {
    hide Lines, AnyMarks, CodeOfLine, ParseUnsigned, Sets, WellStarted, WellFormed, IsPlain, Spells, WrittenHead;
    HeadIsLines(start, fields, eol);
    StatusLineIsRead(start);
    ParsedExactly(start.code, 65535, n);
    MarkersArePlain();
    FieldsAreRead(fields, "x-mcc-shutdown");
    FieldsAreRead(fields, "x-mcc-starting");
  }

  /** And one of another protocol, or without such a code, is unreadable. */
  lemma OtherwiseUnreadable(start: Start, fields: seq<Field>, eol: string)
    requires WellStarted(start) && IsEnding(eol) && forall f :: f in fields ==> WellFormed(f)
    requires "HTTP/" <= start.protocol ==> forall n :: Spells(start.code, n) ==> n > 65535
    ensures OutcomeFromHead(WrittenHead(start, fields, eol)) == Unreadable
  {
    hide Lines, AnyMarks, CodeOfLine, ParseUnsigned, WellStarted, WellFormed, Spells, WrittenHead;
    HeadIsLines(start, fields, eol);
    StatusLineIsRead(start);
    if ParseUnsigned(start.code, 65535).Some? {
      ParsedExactly(start.code, 65535, ParseUnsigned(start.code, 65535).value);
    }
  }

  // ---- one answer, two deliveries, two outcomes ----------------------------------------

  /** The first line of a 503, and of a healthy answer. */
  const BUSY: Start := Start("HTTP/1.1", " ", "503", "")
  const WELL: Start := Start("HTTP/1.1", " ", "200", "")

  lemma ThreeDigits(code: string)
    requires |code| == 3 && IsWord(code)
    ensures var s := Start("HTTP/1.1", " ", code, "");
            WellStarted(s) && "HTTP/" <= s.protocol && IsAscii(StatusLine(s)) && |StatusLine(s)| == 12
  {
  }

  lemma BusyStart()
    ensures WellStarted(BUSY) && "HTTP/" <= BUSY.protocol && Spells("503", 503)
    ensures IsAscii(StatusLine(BUSY)) && |StatusLine(BUSY)| == 12
  {
    hide WellStarted, Spells, IsAscii, StatusLine;
    ThreeDigits("503");
    assert Decimal(503) == "503";
    SpellsItself(503);
  }

  lemma WellStart()
    ensures WellStarted(WELL) && "HTTP/" <= WELL.protocol && Spells("200", 200)
    ensures IsAscii(StatusLine(WELL)) && |StatusLine(WELL)| == 12
  {
    hide WellStarted, Spells, IsAscii, StatusLine;
    ThreeDigits("200");
    assert Decimal(200) == "200";
    SpellsItself(200);
  }

  lemma LastLine(s: string)
    requires s != "" && '\n' !in s
    ensures Lines(s) == [s]
  {
  }

  /** A head without fields, and the same with a body that spells a field. */
  lemma FieldInBody(start: Start, f: Field, plain: string)
    requires WellStarted(start) && WellFormed(f) && IsPlain(plain) && SpelledAs(f.name, plain)
    ensures var head := WrittenHead(start, [], "\r\n");
            && head == StatusLine(start) + "\r\n" + "\r\n"
            && Fields(head + LineOf(f)) == ["", LineOf(f)]
            && ValueIn(LineOf(f), plain) == Some(f.value) && ValueIn("", plain) == None
            && Lines(head + LineOf(f)) == [StatusLine(start), "", LineOf(f)]
  {
    hide Lines, WellStarted, WellFormed, IsPlain, SpelledAs, LineOf, StatusLine;
    var line := StatusLine(start);
    assert WrittenFields([], "\r\n") + "\r\n" == "\r\n";
    LineIsOneLine(f);
    OneLine(start);
    FieldIsRead(f, plain);
    BlankLineIsNoField(plain);
    LastLine(LineOf(f));
    Ended("", "\r\n", LineOf(f));
    assert "" + "\r\n" + LineOf(f) == "\r\n" + LineOf(f);
    Ended(line, "\r\n", "\r\n" + LineOf(f));
    assert line + "\r\n" + "\r\n" + LineOf(f) == line + "\r\n" + ("\r\n" + LineOf(f));
  }

  lemma MarkerInBody(f: Field)
    requires WellFormed(f) && Sets(f, "x-mcc-shutdown")
    ensures OutcomeFromHead(WrittenHead(BUSY, [], "\r\n")) == Http(503)
    ensures OutcomeFromHead(WrittenHead(BUSY, [], "\r\n") + LineOf(f)) == ShuttingDown
  {
    hide Lines, CodeOfLine, ParseUnsigned, WellStarted, WellFormed, IsPlain, Spells, WrittenHead, LineOf, SpelledAs;
    BusyStart();
    MarkersArePlain();
    HeadIsRead(BUSY, 503, [], "\r\n");
    FieldInBody(BUSY, f, "x-mcc-shutdown");
    StatusLineIsRead(BUSY);
    ParsedExactly("503", 65535, 503);
    var fields := Fields(WrittenHead(BUSY, [], "\r\n") + LineOf(f));
    assert ValueIn(fields[1], SHUTDOWN_MARKER) == Some("1");
  }

  /** Read in one piece, both; cut after the blank line, the head alone. */
  lemma TwoDeliveries(head: seq<Byte>, body: seq<Byte>)
    requires HeadIsComplete(head) && head != [] && body != [] && |head| + |body| <= HEAD_BYTES
    ensures Concat([head, body]) == Concat([head + body]) && NoEmptyChunk([head, body]) && NoEmptyChunk([head + body])
    ensures Held([], [head + body]) == head + body && Held([], [head, body]) == head
  {
    hide HeadIsComplete;
    assert [head, body][1..] == [body] && [body][1..] == [] && [head + body][1..] == [];
    assert [] + head == head && [] + (head + body) == head + body;
    assert head[..|head|] == head && (head + body)[..|head + body|] == head + body;
  }

  /** The blank line that ends a head, as its bytes. */
  lemma CompleteExactly(b: seq<Byte>)
    ensures HeadIsComplete(b)
            <==> exists before: seq<Byte>, after: seq<Byte> ::
                   || b == before + [13, 10, 13, 10] + after
                   || b == before + [10, 10] + after
  {
    if HeadIsComplete(b) {
      var i :| 0 <= i < |b| && BlankLineAt(b, i);
      if b[i] == 10 {
        assert b == b[..i] + [10, 10] + b[i + 2..];
      } else {
        assert b == b[..i] + [13, 10, 13, 10] + b[i + 4..];
      }
    }
    if before: seq<Byte>, after: seq<Byte> :| b == before + [13, 10, 13, 10] + after {
      assert BlankLineAt(b, |before|);
    }
    if before: seq<Byte>, after: seq<Byte> :| b == before + [10, 10] + after {
      assert BlankLineAt(b, |before|);
    }
  }

  lemma EndsComplete(line: string)
    requires IsAscii(line)
    ensures Utf8Text(line + "\r\n" + "\r\n") == Utf8Text(line) + [13, 10, 13, 10] + []
    ensures HeadIsComplete(Utf8Text(line + "\r\n" + "\r\n"))
  {
    hide HeadIsComplete;
    assert line + "\r\n" + "\r\n" == line + "\r\n\r\n";
    EncodedJoins(line, "\r\n\r\n");
    AsciiIsShort("\r\n\r\n");
    assert Utf8Text("\r\n\r\n") == [13, 10, 13, 10];
    CompleteExactly(Utf8Text(line + "\r\n" + "\r\n"));
  }

  /** A head and a body of plain text, delivered in one piece and in two. */
  lemma PlainDeliveries(line: string, body: string) returns (whole: seq<seq<Byte>>, cut: seq<seq<Byte>>)
    requires IsAscii(line) && IsAscii(body) && body != "" && |line| + |body| <= 2000
    ensures NoEmptyChunk(whole) && NoEmptyChunk(cut) && Concat(whole) == Concat(cut)
    ensures Held([], whole) != [] && Lossy(Held([], whole)) == line + "\r\n" + "\r\n" + body
    ensures Held([], cut) != [] && Lossy(Held([], cut)) == line + "\r\n" + "\r\n"
  {
    hide Lossy, Held, Concat, HeadIsComplete, Utf8Text;
    var head := line + "\r\n" + "\r\n";
    EndsComplete(line);
    AsciiIsShort(head);
    AsciiIsShort(body);
    EncodedJoins(head, body);
    LossyIsUndone(head);
    LossyIsUndone(head + body);
    TwoDeliveries(Utf8Text(head), Utf8Text(body));
    whole, cut := [Utf8Text(head) + Utf8Text(body)], [Utf8Text(head), Utf8Text(body)];
  }

  lemma LossyIsUndone(s: string)
    ensures Lossy(Utf8Text(s)) == s
  {
    LossyOfEncoded(s, []);
    assert Utf8Text(s) + [] == Utf8Text(s) && s + Lossy([]) == s;
  }

  // ---- the usual spelling ----------------------------------------------------------------

  lemma PlainIsWord(name: string)
    requires IsPlain(name) && name != ""
    ensures IsWord(name) && ':' !in name && IsAscii(name) && SpelledAs(name, name)
  {
  }

  /** A name, a colon, a space and a visible value: what a server writes. */
  lemma UsualField(name: string, value: string)
    requires IsPlain(name) && name != "" && IsWord(value)
    ensures var f := Field(name, value, USUAL);
            && WellFormed(f) && SpelledAs(f.name, name) && f.value == value
            && LineOf(f) == name + ": " + value
            && IsAscii(LineOf(f)) && |LineOf(f)| == |name| + 2 + |value|
  {
    PlainIsWord(name);
    WordIsBare(value);
    assert forall i :: 0 <= i < |value| ==> value[i] != '\n';
    assert "" + name + "" == name && " " + value + "" == " " + value;
  }

  lemma OneField(start: Start, f: Field)
    ensures WrittenHead(start, [f], "\r\n") == StatusLine(start) + "\r\n" + LineOf(f) + "\r\n" + "\r\n"
  {
    hide LineOf, StatusLine;
    assert [f][1..] == [] && WrittenFields([], "\r\n") == "";
  }

  /** A 503 with one marker in the usual spelling, whatever its first line. */
  lemma UsualMarkers(start: Start)
    requires WellStarted(start) && "HTTP/" <= start.protocol && Spells(start.code, 503)
    ensures OutcomeFromHead(StatusLine(start) + "\r\n" + ("x-mcc-shutdown" + ": " + "1") + "\r\n" + "\r\n")
            == ShuttingDown
    ensures OutcomeFromHead(StatusLine(start) + "\r\n" + ("x-mcc-starting" + ": " + "1") + "\r\n" + "\r\n")
            == StartingUp
  {
    hide OutcomeFromHead, WellFormed, WellStarted, Spells, LineOf, StatusLine, IsPlain, WrittenHead;
    MarkersArePlain();
    MarkersDiffer();
    UsualField("x-mcc-shutdown", "1");
    UsualField("x-mcc-starting", "1");
    var down, up := Field("x-mcc-shutdown", "1", USUAL), Field("x-mcc-starting", "1", USUAL);
    assert Sets([down][0], "x-mcc-shutdown") && Sets([up][0], "x-mcc-starting");
    HeadIsRead(start, 503, [down], "\r\n");
    HeadIsRead(start, 503, [up], "\r\n");
    OneField(start, down);
    OneField(start, up);
  }

  lemma MarkersDiffer()
    ensures !SpelledAs("x-mcc-starting", "x-mcc-shutdown")
  {
    assert "x-mcc-starting"[7] == 't' && "x-mcc-shutdown"[7] == 'h';
  }

  /** A busy 503 whose body is the marker's own line is two answers, by its
      delivery. */
  lemma BusyAnswer() returns (whole: seq<seq<Byte>>, cut: seq<seq<Byte>>)
    ensures NoEmptyChunk(whole) && NoEmptyChunk(cut) && Concat(whole) == Concat(cut)
    ensures OutcomeOf(whole) == ShuttingDown && OutcomeOf(cut) == Http(503)
  {
    hide Concat, Lossy, Held, OutcomeFromHead, WellFormed, LineOf, StatusLine, WellStarted, Spells, NoEmptyChunk;
    hide IsPlain, IsAscii, SpelledAs;
    BusyStart();
    MarkersArePlain();
    UsualField("x-mcc-shutdown", "1");
    var f := Field("x-mcc-shutdown", "1", USUAL);
    FieldInBody(BUSY, f, "x-mcc-shutdown");
    MarkerInBody(f);
    whole, cut := PlainDeliveries(StatusLine(BUSY), LineOf(f));
  }
}
