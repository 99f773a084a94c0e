/** How much the delivery of an answer can change what the probe makes of it:
    never the status code, and the outcome only in one narrow case. */
module ChunkingLaws {
  import opened Text
  import opened HealthProbe

  /** The most the probe ever holds of a stream. */
  function Window(stream: seq<Byte>): seq<Byte> {
    if |stream| <= 2048 then stream else stream[..2048]
  }

  /** Where reading may stop: after a complete head, or at the end. */
  predicate IsCut(window: seq<Byte>, n: nat) {
    n <= |window| && (n == |window| || HeadIsComplete(window[..n]))
  }

  lemma CompleteGrows(b: seq<Byte>, m: nat, n: nat)
    requires m <= n <= |b| && HeadIsComplete(b[..m])
    ensures HeadIsComplete(b[..n])
  {
    var i :| 0 <= i < m && BlankLineAt(b[..m], i);
    assert BlankLineAt(b[..n], i);
  }

  lemma {:induction false} HeldIsACut(held: seq<Byte>, chunks: seq<seq<Byte>>)
    requires |held| <= HEAD_BYTES
    ensures Held(held, chunks) <= Window(held + Concat(chunks))
    ensures IsCut(Window(held + Concat(chunks)), |Held(held, chunks)|)
    decreases |chunks|
  {
    var window := Window(held + Concat(chunks));
    if chunks == [] || |held| == HEAD_BYTES {
      assert window == held;
    } else {
      var n := Least(|chunks[0]|, HEAD_BYTES - |held|);
      var more := held + chunks[0][..n];
      var rest := Concat(chunks[1..]);
      if n == |chunks[0]| {
        assert held + (chunks[0] + rest) == more + rest;
        HeldIsACut(more, chunks[1..]);
      } else {
        assert window == more == Window(more + rest);
      }
      assert more == window[..|more|];
    }
  }

  /** Whatever the chunks, the probe ends up holding a start of the stream: all
      of its window, or a start that contains a whole head. */
  lemma HeldIsAStart(chunks: seq<seq<Byte>>)
    ensures var window := Window(Concat(chunks));
            var n := |Held([], chunks)|;
            IsCut(window, n) && Held([], chunks) == window[..n]
  {
    HeldIsACut([], chunks);
    assert [] + Concat(chunks) == Concat(chunks);
  }

  // ---- the first line --------------------------------------------------------------

  function FirstLine(head: string): string {
    if Lines(head) == [] then "" else Lines(head)[0]
  }

  lemma FirstLineIs(before: seq<Byte>, after: seq<Byte>)
    requires NEWLINE !in before
    ensures FirstLine(Lossy(before + [NEWLINE] + after)) == WithoutCr(Lossy(before))
  {
    LossySplitsAtNewline(before, after);
    LossyKeepsLines(before);
    LinesOf(Lossy(before), Lossy(after));
  }

  function FirstNewline(b: seq<Byte>): (i: nat)
    ensures i <= |b| && NEWLINE !in b[..i] && (i < |b| ==> b[i] == NEWLINE)
  {
    if b == [] || b[0] == NEWLINE then 0
    else
      var i := 1 + FirstNewline(b[1..]);
      assert b[..i] == [b[0]] + b[1..][..i - 1];
      i
  }

  lemma CompleteHasNewline(b: seq<Byte>)
    requires HeadIsComplete(b)
    ensures FirstNewline(b) < |b|
  {
    var i :| 0 <= i < |b| && BlankLineAt(b, i);
    assert b[i] == NEWLINE || b[i + 1] == NEWLINE;
  }

  lemma CutKeepsFirstLine(window: seq<Byte>, n: nat)
    requires IsCut(window, n)
    ensures FirstLine(Lossy(window[..n])) == FirstLine(Lossy(window))
  {
    if n == |window| {
      assert window[..n] == window;
    } else {
      var cut := window[..n];
      CompleteHasNewline(cut);
      var i := FirstNewline(cut);
      var before := cut[..i];
      assert cut == before + [NEWLINE] + cut[i + 1..];
      assert window == before + [NEWLINE] + window[i + 1..];
      FirstLineIs(before, cut[i + 1..]);
      FirstLineIs(before, window[i + 1..]);
    }
  }

  lemma CutKeepsStatus(window: seq<Byte>, n: nat)
    requires IsCut(window, n)
    ensures StatusCode(Lossy(window[..n])) == StatusCode(Lossy(window))
    ensures window != [] ==> n > 0
  {
    CutKeepsFirstLine(window, n);
    assert n > 0 || !HeadIsComplete(window[..n]);
  }

  /** Which of the three kinds of outcome an answer is, by its code alone. */
  lemma KindOfOutcome(head: string)
    ensures OutcomeFromHead(head).Healthy? <==> StatusCode(head).Some? && 200 <= StatusCode(head).value < 300
    ensures OutcomeFromHead(head).Unreadable? <==> StatusCode(head).None?
    ensures !OutcomeFromHead(head).Unanswered? && !OutcomeFromHead(head).Refused?
  {
  }

  lemma StatusIsOfTheWindow(chunks: seq<seq<Byte>>)
    ensures var window := Window(Concat(chunks));
            && StatusCode(Lossy(Held([], chunks))) == StatusCode(Lossy(window))
            && (Held([], chunks) == [] <==> window == [])
  {
    HeldIsAStart(chunks);
    CutKeepsStatus(Window(Concat(chunks)), |Held([], chunks)|);
  }

  /** However a stream is delivered, the same status code is read from it, so
      the server is as healthy, as silent or as unreadable. */
  lemma StatusIgnoresChunking(some: seq<seq<Byte>>, other: seq<seq<Byte>>)
    requires Concat(some) == Concat(other)
    ensures StatusCode(Lossy(Held([], some))) == StatusCode(Lossy(Held([], other)))
    ensures OutcomeOf(some).Healthy? <==> OutcomeOf(other).Healthy?
    ensures OutcomeOf(some).Unanswered? <==> OutcomeOf(other).Unanswered?
    ensures OutcomeOf(some).Unreadable? <==> OutcomeOf(other).Unreadable?
  {
    StatusIsOfTheWindow(some);
    StatusIsOfTheWindow(other);
    KindOfOutcome(Lossy(Held([], some)));
    KindOfOutcome(Lossy(Held([], other)));
  }

  // ---- the other lines -----------------------------------------------------------------

  function EndOfHead(window: seq<Byte>): (n: nat)
    ensures n <= |window|
  {
    if window == [] || !HeadIsComplete(window[..|window| - 1]) then |window| else EndOfHead(window[..|window| - 1])
  }

  /** The earliest place reading may stop. */
  lemma {:induction false} EndOfHeadIsFirst(window: seq<Byte>)
    ensures IsCut(window, EndOfHead(window))
    ensures forall m: nat :: IsCut(window, m) ==> EndOfHead(window) <= m
  {
    if window == [] || !HeadIsComplete(window[..|window| - 1]) {
      NoneBefore(window);
    } else {
      CutsOfStart(window);
      EndOfHeadIsFirst(window[..|window| - 1]);
    }
  }

  lemma NoneBefore(window: seq<Byte>)
    requires window == [] || !HeadIsComplete(window[..|window| - 1])
    ensures forall m: nat :: IsCut(window, m) ==> |window| <= m
  {
    forall m: nat | IsCut(window, m) ensures |window| <= m {
      if m < |window| {
        CompleteGrows(window, m, |window| - 1);
      }
    }
  }

  lemma CutsOfStart(window: seq<Byte>)
    requires window != [] && HeadIsComplete(window[..|window| - 1])
    ensures forall m: nat :: m < |window| ==> (IsCut(window, m) <==> IsCut(window[..|window| - 1], m))
  {
    var start := window[..|window| - 1];
    forall m: nat | m < |window| ensures IsCut(window, m) <==> IsCut(start, m) {
      assert start[..m] == window[..m];
    }
  }

  /** A blank line ends in a line feed, and reading may stop right after it. */
  lemma BlankLineEnds(b: seq<Byte>, i: nat) returns (end: nat)
    requires i < |b| && BlankLineAt(b, i)
    ensures 0 < end <= |b| && b[end - 1] == NEWLINE && HeadIsComplete(b[..end])
  {
    end := if b[i] == 13 then i + 4 else i + 2;
    assert BlankLineAt(b[..end], i);
  }

  lemma HeadEndsInNewline(window: seq<Byte>)
    requires HeadIsComplete(window)
    ensures EndOfHead(window) > 0 && window[EndOfHead(window) - 1] == NEWLINE
    ensures HeadIsComplete(window[..EndOfHead(window)])
  {
    var n := EndOfHead(window);
    EndOfHeadIsFirst(window);
    assert window[..|window|] == window;
    var head := window[..n];
    var i :| 0 <= i < n && BlankLineAt(head, i);
    var end := BlankLineEnds(head, i);
    assert head[..end] == window[..end];
    assert IsCut(window, end);
  }
}
