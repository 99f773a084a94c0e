/** Exactly when the delivery of an answer changes its outcome: a body that
    looks like a marker, read together with the head. */
module BodyLaws {
  import opened Common
  import opened Text
  import opened HealthProbe
  import opened ChunkingLaws

  lemma Regrouped(x: string, y: string, z: string)
    ensures x + "\n" + y + "\n" + z == x + "\n" + (y + "\n" + z)
  {
  }

  lemma LinesSplitAfter(line: string, rest: string, b: string)
    requires '\n' !in line
    requires Lines(rest + "\n" + b) == Lines(rest + "\n") + Lines(b)
    ensures Lines(line + "\n" + (rest + "\n" + b)) == Lines(line + "\n" + (rest + "\n")) + Lines(b)
  {
    hide Lines;
    LinesOf(line, rest + "\n" + b);
    LinesOf(line, rest + "\n");
  }

  lemma LinesSplitLast(a: string, b: string)
    requires '\n' !in a
    ensures Lines(a + "\n" + b) == Lines(a + "\n") + Lines(b)
  {
    LinesOf(a, b);
    LinesOf(a, "");
    assert a + "\n" + "" == a + "\n";
  }

  lemma {:induction false} LinesSplit(a: string, b: string)
    ensures Lines(a + "\n" + b) == Lines(a + "\n") + Lines(b)
    decreases |a|
  {
    hide Lines;
    var i := Find(a, '\n');
    if i == |a| {
      assert a[..i] == a;
      LinesSplitLast(a, b);
    } else {
      var line, rest := a[..i], a[i + 1..];
      LinesSplit(rest, b);
      LinesSplitAfter(line, rest, b);
      assert a == line + "\n" + rest;
      Regrouped(line, rest, b);
      Regrouped(line, rest, "");
      assert a + "\n" + "" == a + "\n" && rest + "\n" + "" == rest + "\n";
    }
  }

  lemma AnyMarksSplits(some: seq<string>, more: seq<string>, marker: string)
    ensures AnyMarks(some + more, marker) <==> AnyMarks(some, marker) || AnyMarks(more, marker)
  {
    hide ValueIn;
    var all := some + more;
    if AnyMarks(some, marker) {
      var i :| 0 <= i < |some| && ValueIn(some[i], marker) == Some("1");
      assert ValueIn(all[i], marker) == Some("1");
    }
    if AnyMarks(more, marker) {
      var i :| 0 <= i < |more| && ValueIn(more[i], marker) == Some("1");
      var j := |some| + i;
      assert ValueIn(all[j], marker) == Some("1");
    }
  }

  lemma EndedHasALine(before: string)
    ensures Lines(before + "\n") != []
  {
    var s := before + "\n";
    assert s[|before|] == '\n';
  }

  /** Text that ends a line, then more text: the marker is in either. */
  lemma MarkerSplits(before: string, more: string, marker: string)
    ensures HeadCarriesMarker(before + "\n" + more, marker)
            <==> HeadCarriesMarker(before + "\n", marker) || AnyMarks(Lines(more), marker)
  {
    hide Lines, AnyMarks;
    LinesSplit(before, more);
    EndedHasALine(before);
    var lines := Lines(before + "\n");
    assert (lines + Lines(more))[1..] == lines[1..] + Lines(more);
    AnyMarksSplits(lines[1..], Lines(more), marker);
  }

  function Head(window: seq<Byte>): string {
    Lossy(window[..EndOfHead(window)])
  }

  function Body(window: seq<Byte>): seq<Byte> {
    window[EndOfHead(window)..]
  }

  lemma MarkerSplitsInBytes(before: seq<Byte>, more: seq<Byte>, marker: string)
    ensures HeadCarriesMarker(Lossy(before + [NEWLINE] + more), marker)
            <==> HeadCarriesMarker(Lossy(before + [NEWLINE] + []), marker) || AnyMarks(Lines(Lossy(more)), marker)
  {
    LossySplitsAtNewline(before, more);
    LossySplitsAtNewline(before, []);
    assert Lossy(before) + "\n" + "" == Lossy(before) + "\n";
    MarkerSplits(Lossy(before), Lossy(more), marker);
  }

  lemma CutInBytes(window: seq<Byte>, n: nat) returns (before: seq<Byte>, more: seq<Byte>)
    requires HeadIsComplete(window) && IsCut(window, n)
    ensures EndOfHead(window) <= n
    ensures window[..n] == before + [NEWLINE] + more
    ensures window[..EndOfHead(window)] == before + [NEWLINE] + []
    ensures more == Body(window)[..n - EndOfHead(window)]
  {
    var end := EndOfHead(window);
    HeadEndsInNewline(window);
    EndOfHeadIsFirst(window);
    before, more := window[..end - 1], window[end..n];
    assert window[..end] == before + [window[end - 1]];
    assert window[..n] == window[..end] + more;
  }

  /** A later cut shows the marker of the head, or one in the body it includes. */
  lemma MarkerInCut(window: seq<Byte>, n: nat, marker: string)
    requires HeadIsComplete(window) && IsCut(window, n)
    ensures EndOfHead(window) <= n
    ensures HeadCarriesMarker(Lossy(window[..n]), marker)
            <==> HeadCarriesMarker(Head(window), marker)
                 || AnyMarks(Lines(Lossy(Body(window)[..n - EndOfHead(window)])), marker)
  {
    hide EndOfHead, HeadCarriesMarker, AnyMarks, Lines, Lossy;
    var before, more := CutInBytes(window, n);
    MarkerSplitsInBytes(before, more, marker);
  }

  /** No start of the body reads as a header line that sets the marker. */
  ghost predicate Quiet(body: seq<Byte>, marker: string) {
    forall k: nat :: k <= |body| ==> !AnyMarks(Lines(Lossy(body[..k])), marker)
  }

  ghost predicate Settled(window: seq<Byte>) {
    || StatusCode(Head(window)) != Some(503)
    || HeadCarriesMarker(Head(window), SHUTDOWN_MARKER)
    || (&& Quiet(Body(window), SHUTDOWN_MARKER)
        && (HeadCarriesMarker(Head(window), STARTING_MARKER) || Quiet(Body(window), STARTING_MARKER)))
  }

  predicate Delivers(chunks: seq<seq<Byte>>, stream: seq<Byte>) {
    NoEmptyChunk(chunks) && Concat(chunks) == stream
  }

  ghost predicate DeliveryIsIrrelevant(stream: seq<Byte>) {
    forall some, other :: Delivers(some, stream) && Delivers(other, stream) ==> OutcomeOf(some) == OutcomeOf(other)
  }

  /** An outcome rests on the code and, for a 503, on the markers. */
  lemma OutcomeRestsOn(some: string, other: string)
    requires StatusCode(some) == StatusCode(other)
    requires StatusCode(some) == Some(503) ==>
               HeadCarriesMarker(some, SHUTDOWN_MARKER) == HeadCarriesMarker(other, SHUTDOWN_MARKER)
    requires StatusCode(some) == Some(503) && !HeadCarriesMarker(some, SHUTDOWN_MARKER) ==>
               HeadCarriesMarker(some, STARTING_MARKER) == HeadCarriesMarker(other, STARTING_MARKER)
    ensures OutcomeFromHead(some) == OutcomeFromHead(other)
  {
  }

  lemma EndOfIncomplete(window: seq<Byte>)
    requires !HeadIsComplete(window)
    ensures forall n: nat :: IsCut(window, n) ==> n == |window|
  {
    assert window[..|window|] == window;
    forall n: nat | IsCut(window, n) ensures n == |window| {
      if HeadIsComplete(window[..n]) {
        CompleteGrows(window, n, |window|);
        assert false;
      }
    }
  }

  lemma CutOutcomeSettled(window: seq<Byte>, n: nat)
    requires Settled(window) && IsCut(window, n)
    ensures OutcomeFromHead(Lossy(window[..n])) == OutcomeFromHead(Head(window))
  {
    if HeadIsComplete(window) {
      EndOfHeadIsFirst(window);
      CutKeepsStatus(window, n);
      CutKeepsStatus(window, EndOfHead(window));
      MarkerInCut(window, n, SHUTDOWN_MARKER);
      MarkerInCut(window, n, STARTING_MARKER);
      OutcomeRestsOn(Lossy(window[..n]), Head(window));
    } else {
      EndOfHeadIsFirst(window);
      EndOfIncomplete(window);
    }
  }

  lemma DeliveredOutcome(chunks: seq<seq<Byte>>, stream: seq<Byte>)
    requires Delivers(chunks, stream) && Settled(Window(stream))
    ensures OutcomeOf(chunks) == if stream == [] then Unanswered else OutcomeFromHead(Head(Window(stream)))
  {
    var window := Window(stream);
    HeldIsAStart(chunks);
    StatusIsOfTheWindow(chunks);
    CutOutcomeSettled(window, |Held([], chunks)|);
  }

  /** Every cut is what some delivery leaves the probe with. */
  function DeliveryTo(stream: seq<Byte>, n: nat): seq<seq<Byte>>
    requires n <= |stream|
  {
    if n == |stream| then [stream] else [stream[..n], stream[n..]]
  }

  lemma CutIsDelivered(stream: seq<Byte>, n: nat)
    requires IsCut(Window(stream), n) && n > 0
    ensures Delivers(DeliveryTo(stream, n), stream)
    ensures Held([], DeliveryTo(stream, n)) == Window(stream)[..n]
  {
    var chunks := DeliveryTo(stream, n);
    var window := Window(stream);
    assert window[..n] == stream[..n];
    if n < |stream| {
      assert chunks[1..] == [stream[n..]] && Concat(chunks[1..]) == stream[n..] + Concat([]);
      assert stream[..n] + stream[n..] == stream;
    }
    assert [] + chunks[0][..Least(|chunks[0]|, HEAD_BYTES)] == window[..n];
    assert n < |window| || n == |stream| || n == HEAD_BYTES;
  }

  lemma NoBodyIsQuiet(window: seq<Byte>, marker: string)
    requires !HeadIsComplete(window)
    ensures Quiet(Body(window), marker)
  {
    EndOfHeadIsFirst(window);
    EndOfIncomplete(window);
    assert Body(window) == [];
  }

  lemma UnsettledMark(window: seq<Byte>) returns (k: nat)
    requires !Settled(window)
    ensures HeadIsComplete(window) && k <= |Body(window)|
    ensures StatusCode(Head(window)) == Some(503) && !HeadCarriesMarker(Head(window), SHUTDOWN_MARKER)
    ensures var lines := Lines(Lossy(Body(window)[..k]));
            || AnyMarks(lines, SHUTDOWN_MARKER)
            || (!HeadCarriesMarker(Head(window), STARTING_MARKER) && AnyMarks(lines, STARTING_MARKER))
  {
    if !HeadIsComplete(window) {
      NoBodyIsQuiet(window, SHUTDOWN_MARKER);
      NoBodyIsQuiet(window, STARTING_MARKER);
    }
    var marker := if Quiet(Body(window), SHUTDOWN_MARKER) then STARTING_MARKER else SHUTDOWN_MARKER;
    k :| k <= |Body(window)| && AnyMarks(Lines(Lossy(Body(window)[..k])), marker);
  }

  lemma OutcomesDiffer(short: string, long: string)
    requires StatusCode(short) == StatusCode(long) == Some(503)
    requires !HeadCarriesMarker(short, SHUTDOWN_MARKER)
    requires HeadCarriesMarker(long, SHUTDOWN_MARKER)
             || (!HeadCarriesMarker(short, STARTING_MARKER) && HeadCarriesMarker(long, STARTING_MARKER))
    ensures OutcomeFromHead(long) != OutcomeFromHead(short)
  {
  }

  lemma MarkedCut(window: seq<Byte>, k: nat, marker: string)
    requires HeadIsComplete(window) && k <= |Body(window)|
    requires AnyMarks(Lines(Lossy(Body(window)[..k])), marker)
    ensures EndOfHead(window) > 0 && IsCut(window, EndOfHead(window) + k)
    ensures HeadCarriesMarker(Lossy(window[..EndOfHead(window) + k]), marker)
    ensures StatusCode(Lossy(window[..EndOfHead(window) + k])) == StatusCode(Head(window))
  {
    hide Lossy, StatusCode, HeadCarriesMarker, AnyMarks, EndOfHead, HeadIsComplete;
    BodyCut(window, k);
    MarkerInCut(window, EndOfHead(window) + k, marker);
    CutKeepsStatus(window, EndOfHead(window) + k);
    EndOfHeadIsFirst(window);
    CutKeepsStatus(window, EndOfHead(window));
  }

  /** Two cuts of an unsettled answer that read differently: with nothing of
      the body, and with as much of it as shows the marker. */
  lemma UnsettledCuts(window: seq<Byte>) returns (n: nat)
    requires !Settled(window)
    ensures EndOfHead(window) > 0 && n > 0 && IsCut(window, n)
    ensures OutcomeFromHead(Lossy(window[..n])) != OutcomeFromHead(Head(window))
  {
    hide Lossy, StatusCode, HeadCarriesMarker, AnyMarks, OutcomeFromHead;
    var k := UnsettledMark(window);
    n := EndOfHead(window) + k;
    if AnyMarks(Lines(Lossy(Body(window)[..k])), SHUTDOWN_MARKER) {
      MarkedCut(window, k, SHUTDOWN_MARKER);
    } else {
      MarkedCut(window, k, STARTING_MARKER);
    }
    OutcomesDiffer(Head(window), Lossy(window[..n]));
  }

  lemma BodyCut(window: seq<Byte>, k: nat)
    requires HeadIsComplete(window) && k <= |Body(window)|
    ensures EndOfHead(window) > 0 && IsCut(window, EndOfHead(window) + k)
  {
    hide EndOfHead, HeadIsComplete;
    HeadEndsInNewline(window);
    CompleteGrows(window, EndOfHead(window), EndOfHead(window) + k);
  }

  lemma UnsettledIsRelevant(stream: seq<Byte>)
    requires !Settled(Window(stream))
    ensures !DeliveryIsIrrelevant(stream)
  {
    var window := Window(stream);
    var n := UnsettledCuts(window);
    EndOfHeadIsFirst(window);
    CutIsDelivered(stream, n);
    CutIsDelivered(stream, EndOfHead(window));
    var some, other := DeliveryTo(stream, n), DeliveryTo(stream, EndOfHead(window));
    assert Delivers(some, stream) && Delivers(other, stream);
    assert OutcomeOf(some) == OutcomeFromHead(Lossy(window[..n]));
    assert OutcomeOf(other) == OutcomeFromHead(Head(window));
  }

  /** Every delivery of a stream has the same outcome exactly when the status
      is not 503, or the head itself says it is shutting down, or no start of
      the body in the window sets a marker that would change the answer. */
  lemma DeliveryMattersOnlyWhenUnsettled(stream: seq<Byte>)
    ensures DeliveryIsIrrelevant(stream) <==> Settled(Window(stream))
  {
    if Settled(Window(stream)) {
      forall some, other | Delivers(some, stream) && Delivers(other, stream)
        ensures OutcomeOf(some) == OutcomeOf(other)
      {
        DeliveredOutcome(some, stream);
        DeliveredOutcome(other, stream);
      }
    } else {
      UnsettledIsRelevant(stream);
    }
  }
}
