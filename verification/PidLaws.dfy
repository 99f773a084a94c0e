/** Exactly when the delivery of an answer changes the pid it names: a body line
    that names another, read together with the head. */
module PidLaws {
  import opened Common
  import opened Text
  import opened TextLaws
  import opened HealthProbe
  import opened ChunkingLaws
  import opened BodyLaws
  import opened HeadLaws

  predicate NoneNames(lines: seq<string>) {
    forall i :: 0 <= i < |lines| ==> !NamesPid(lines[i])
  }

  /** Lines that come after decide when one of them names a pid. */
  lemma {:induction false} PidOfBoth(some: seq<string>, more: seq<string>)
    ensures PidIn(some + more) == if NoneNames(more) then PidIn(some) else PidIn(more)
  {
    hide NamesPid, ValueIn, PidOfValue;
    if more == [] {
      assert some + more == some;
    } else {
      var n := |more| - 1;
      assert (some + more)[..|some| + n] == some + more[..n];
      PidOfBoth(some, more[..n]);
      assert !NamesPid(more[n]) ==> (NoneNames(more) <==> NoneNames(more[..n]));
    }
  }

  /** Text that ends a line, then more text. */
  lemma PidSplits(before: string, more: string)
    ensures PidIn(Fields(before + "\n" + more))
            == if NoneNames(Lines(more)) then PidIn(Fields(before + "\n")) else PidIn(Lines(more))
  {
    hide Lines, PidIn, NoneNames;
    LinesSplit(before, more);
    EndedHasALine(before);
    var lines := Lines(before + "\n");
    assert (lines + Lines(more))[1..] == lines[1..] + Lines(more);
    PidOfBoth(lines[1..], Lines(more));
  }

  lemma PidSplitsInBytes(before: seq<Byte>, more: seq<Byte>)
    ensures PidIn(Fields(Lossy(before + [NEWLINE] + more)))
            == if NoneNames(Lines(Lossy(more))) then PidIn(Fields(Lossy(before + [NEWLINE] + [])))
               else PidIn(Lines(Lossy(more)))
  {
    hide PidIn, Fields, Lines, NoneNames;
    LossySplitsAtNewline(before, more);
    LossySplitsAtNewline(before, []);
    LossyOfNothing();
    assert Lossy(before) + "\n" + "" == Lossy(before) + "\n";
    PidSplits(Lossy(before), Lossy(more));
  }

  lemma LossyOfNothing()
    ensures Lossy([]) == ""
  {
  }

  /** The pid a probe takes from what it holds of the delivered chunks. */
  function PidOfDelivery(chunks: seq<seq<Byte>>): Option<nat> {
    PidIn(Fields(Lossy(Held([], chunks))))
  }

  function BodyLines(window: seq<Byte>, k: nat): seq<string>
    requires k <= |Body(window)|
  {
    Lines(Lossy(Body(window)[..k]))
  }

  /** No start of the body names a pid other than the head's. */
  ghost predicate PidSettled(window: seq<Byte>) {
    forall k: nat :: k <= |Body(window)| ==>
      NoneNames(BodyLines(window, k)) || PidIn(BodyLines(window, k)) == PidIn(Fields(Head(window)))
  }

  lemma PidInCut(window: seq<Byte>, n: nat)
    requires HeadIsComplete(window) && IsCut(window, n)
    ensures EndOfHead(window) <= n
    ensures PidIn(Fields(Lossy(window[..n])))
            == if NoneNames(BodyLines(window, n - EndOfHead(window))) then PidIn(Fields(Head(window)))
               else PidIn(BodyLines(window, n - EndOfHead(window)))
  {
    hide EndOfHead, PidIn, Fields, Lines, Lossy, NoneNames;
    var before, more := CutInBytes(window, n);
    PidSplitsInBytes(before, more);
  }

  ghost predicate PidIgnoresDelivery(stream: seq<Byte>) {
    forall some, other :: Delivers(some, stream) && Delivers(other, stream) ==>
      PidOfDelivery(some) == PidOfDelivery(other)
  }

  lemma SettledPid(chunks: seq<seq<Byte>>, stream: seq<Byte>)
    requires Delivers(chunks, stream) && PidSettled(Window(stream))
    ensures PidOfDelivery(chunks) == PidIn(Fields(Head(Window(stream))))
  {
    hide PidIn, Fields, Lines, Lossy, NoneNames, HeadIsComplete, EndOfHead, Held;
    var window := Window(stream);
    HeldIsAStart(chunks);
    var n := |Held([], chunks)|;
    if HeadIsComplete(window) {
      PidInCut(window, n);
    } else {
      EndOfHeadIsFirst(window);
      EndOfIncomplete(window);
    }
  }

  lemma UnsettledPid(stream: seq<Byte>)
    requires !PidSettled(Window(stream))
    ensures !PidIgnoresDelivery(stream)
  {
    hide PidIn, Fields, Lines, Lossy, NoneNames, HeadIsComplete, EndOfHead, Held, DeliveryTo, Delivers;
    var window := Window(stream);
    var end := EndOfHead(window);
    var k: nat :| k <= |Body(window)|
                  && !NoneNames(BodyLines(window, k)) && PidIn(BodyLines(window, k)) != PidIn(Fields(Head(window)));
    if HeadIsComplete(window) {
      BodyCut(window, k);
      PidInCut(window, end + k);
      EndOfHeadIsFirst(window);
      CutIsDelivered(stream, end + k);
      CutIsDelivered(stream, end);
      var some, other := DeliveryTo(stream, end + k), DeliveryTo(stream, end);
      assert PidOfDelivery(some) != PidOfDelivery(other);
    } else {
      EndOfHeadIsFirst(window);
      EndOfIncomplete(window);
      NoBodyNamesNone(window, k);
    }
  }

  lemma NoBodyNamesNone(window: seq<Byte>, k: nat)
    requires EndOfHead(window) == |window| && k <= |Body(window)|
    ensures NoneNames(BodyLines(window, k))
  {
    assert Body(window)[..k] == [];
    NoLines();
    LossyOfNothing();
  }

  /** Every delivery of a stream names the same pid exactly when no start of the
      body in the window names another one than the head does. */
  lemma DeliveryMattersToThePidOnlyWhenUnsettled(stream: seq<Byte>)
    ensures PidIgnoresDelivery(stream) <==> PidSettled(Window(stream))
  {
    hide PidSettled, PidOfDelivery, Window;
    if PidSettled(Window(stream)) {
      forall some, other | Delivers(some, stream) && Delivers(other, stream)
        ensures PidOfDelivery(some) == PidOfDelivery(other)
      {
        SettledPid(some, stream);
        SettledPid(other, stream);
      }
    } else {
      UnsettledPid(stream);
    }
  }

  // ---- the pid a written head names ------------------------------------------------------

  /** The value of the last field of that name, when it spells a positive 64-bit
      number. */
  ghost predicate MeansPid(fields: seq<Field>, pid: nat) {
    exists i :: 0 <= i < |fields| && IsLastPid(fields, i) && Spells(fields[i].value, pid)
                && 0 < pid <= 9223372036854775807
  }

  predicate IsLastPid(fields: seq<Field>, i: nat)
    requires i < |fields|
  {
    && SpelledAs(fields[i].name, "x-mcc-pid")
    && forall j :: i < j < |fields| ==> !SpelledAs(fields[j].name, "x-mcc-pid")
  }

  lemma PidOfValueExactly(value: string, pid: nat)
    ensures PidOfValue(value) == Some(pid) <==> Spells(value, pid) && 0 < pid <= 9223372036854775807
  {
    hide ParseUnsigned, Spells;
    ParsedExactly(value, 9223372036854775807, pid);
  }

  lemma LineNames(f: Field)
    requires WellFormed(f)
    ensures NamesPid(LineOf(f)) <==> SpelledAs(f.name, "x-mcc-pid")
    ensures NamesPid(LineOf(f)) ==> PidOn(LineOf(f)) == PidOfValue(f.value)
  {
    hide WellFormed, LineOf, SpelledAs, ValueIn, PidOfValue, IsPlain;
    MarkersArePlain();
    FieldIsRead(f, "x-mcc-pid");
  }

  lemma NoLineAfter(lines: seq<string>)
    ensures PidIn(lines + [""]) == PidIn(lines)
  {
    hide ValueIn;
    BlankLineIsNoField(PID_HEADER);
    assert (lines + [""])[..|lines|] == lines;
  }

  lemma {:induction false} PidOfFields(fields: seq<Field>, pid: nat)
    requires forall f :: f in fields ==> WellFormed(f)
    ensures PidIn(LinesOfFields(fields)) == Some(pid) <==> MeansPid(fields, pid)
  {
    hide WellFormed, LineOf, SpelledAs, NamesPid, PidOn, Spells, PidOfValue;
    if fields != [] {
      var n := |fields| - 1;
      var front, last := fields[..n], fields[n];
      PidOfFields(front, pid);
      LineNames(last);
      PidOfValueExactly(last.value, pid);
      assert LinesOfFields(fields)[..n] == LinesOfFields(front);
      if NamesPid(LineOf(last)) {
        LastIsLast(fields);
      } else {
        SameBefore(fields, pid);
      }
    }
  }

  lemma LastIsLast(fields: seq<Field>)
    requires fields != [] && SpelledAs(fields[|fields| - 1].name, "x-mcc-pid")
    ensures forall i :: 0 <= i < |fields| ==> (IsLastPid(fields, i) <==> i == |fields| - 1)
  {
    hide SpelledAs;
  }

  lemma SameBefore(fields: seq<Field>, pid: nat)
    requires fields != [] && !SpelledAs(fields[|fields| - 1].name, "x-mcc-pid")
    ensures MeansPid(fields, pid) <==> MeansPid(fields[..|fields| - 1], pid)
  {
    hide SpelledAs, Spells;
    var front := fields[..|fields| - 1];
    forall i: nat | i < |front|
      ensures IsLastPid(fields, i) <==> IsLastPid(front, i)
    {
      assert fields[i] == front[i];
    }
  }

  /** Every well-formed head names a pid exactly when the value of its last
      `x-mcc-pid` field spells a positive 64-bit number, and then that one --
      whatever the blanks, the case of the name, the line endings and the first
      line. */
  lemma PidIsRead(start: Start, fields: seq<Field>, eol: string, pid: nat)
    requires WellStarted(start) && IsEnding(eol) && forall f :: f in fields ==> WellFormed(f)
    ensures PidIn(Fields(WrittenHead(start, fields, eol))) == Some(pid) <==> MeansPid(fields, pid)
  {
    hide WellStarted, WellFormed, WrittenHead, PidIn, MeansPid, LineOf, Fields, Lines;
    HeadIsLines(start, fields, eol);
    NoLineAfter(LinesOfFields(fields));
    PidOfFields(fields, pid);
  }

  /** The usual spelling, with any pid and any first line. */
  lemma UsualPid(start: Start, pid: nat)
    requires WellStarted(start) && 0 < pid <= 9223372036854775807
    ensures PidIn(Fields(StatusLine(start) + "\r\n" + ("x-mcc-pid" + ": " + Decimal(pid)) + "\r\n" + "\r\n"))
            == Some(pid)
  {
    hide WellFormed, WellStarted, Spells, LineOf, StatusLine, IsPlain, WrittenHead, PidIn, Fields, SpelledAs;
    MarkersArePlain();
    DecimalIsWord(pid);
    UsualField("x-mcc-pid", Decimal(pid));
    SpellsItself(pid);
    var f := Field("x-mcc-pid", Decimal(pid), USUAL);
    assert IsLastPid([f], 0) && Spells([f][0].value, pid);
    PidIsRead(start, [f], "\r\n", pid);
    OneField(start, f);
  }

  lemma {:induction false} DecimalIsWord(n: nat)
    ensures IsWord(Decimal(n))
  {
    if n >= 10 {
      DecimalIsWord(n / 10);
    }
  }

  // ---- one answer, two deliveries, two pids ---------------------------------------------

  lemma PidInBody(f: Field)
    requires WellFormed(f) && SpelledAs(f.name, "x-mcc-pid")
    ensures PidIn(Fields(WrittenHead(WELL, [], "\r\n") + LineOf(f))) == PidOfValue(f.value)
    ensures PidIn(Fields(WrittenHead(WELL, [], "\r\n"))) == None
  {
    hide Lines, PidOfValue, WellStarted, WellFormed, WrittenHead, LineOf, SpelledAs, Fields, ValueIn, IsPlain, Spells;
    WellStart();
    MarkersArePlain();
    FieldInBody(WELL, f, "x-mcc-pid");
    HeadIsLines(WELL, [], "\r\n");
    BlankLineIsNoField("x-mcc-pid");
    assert [""] + [LineOf(f)] == ["", LineOf(f)] && ["", LineOf(f)][..1] == [""] && [""][..0] == [];
    assert LinesOfFields([]) + [""] == [""];
  }

  /** A healthy answer whose body is a pid line: 7 in one piece, no pid when it
      is cut after the blank line. */
  lemma HealthyAnswer() returns (whole: seq<seq<Byte>>, cut: seq<seq<Byte>>)
    ensures NoEmptyChunk(whole) && NoEmptyChunk(cut) && Concat(whole) == Concat(cut)
    ensures OutcomeOf(whole) == Healthy && OutcomeOf(cut) == Healthy
    ensures PidOfDelivery(whole) == Some(7) && PidOfDelivery(cut) == None
  {
    hide Concat, Lossy, Held, OutcomeFromHead, WellFormed, LineOf, StatusLine, WellStarted, Spells, NoEmptyChunk;
    hide IsPlain, IsAscii, SpelledAs, PidIn, Fields, PidOfValue;
    WellStart();
    MarkersArePlain();
    assert Decimal(7) == "7";
    DecimalIsWord(7);
    SpellsItself(7);
    PidOfValueExactly("7", 7);
    UsualField("x-mcc-pid", "7");
    var f := Field("x-mcc-pid", "7", USUAL);
    HeadIsRead(WELL, 200, [], "\r\n");
    PidInBody(f);
    FieldInBody(WELL, f, "x-mcc-pid");
    whole, cut := PlainDeliveries(StatusLine(WELL), LineOf(f));
    StatusIgnoresChunking(whole, cut);
  }
}
