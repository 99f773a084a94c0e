/** The health probe: how much of an answer is read, and what its head means. */
module HealthProbe {
  import opened Common
  import opened Text

  const HEAD_BYTES: nat := 2048
  const SHUTDOWN_MARKER: string := "x-mcc-shutdown"
  const STARTING_MARKER: string := "x-mcc-starting"
  const PID_HEADER: string := "x-mcc-pid"
  const U16_MAX: nat := 0xFFFF
  const I64_MAX: nat := 0x7FFF_FFFF_FFFF_FFFF

  datatype ProbeOutcome =
    | Healthy
    | ShuttingDown
    | StartingUp
    | Http(code: nat)
    | Refused
    | Unanswered
    | Unreadable

  // ---- the head, as bytes --------------------------------------------------------

  /** A blank line starts to end here: CRLF twice, or LF twice. */
  predicate BlankLineAt(b: seq<Byte>, i: nat) {
    || (i + 4 <= |b| && b[i] == 13 && b[i + 1] == 10 && b[i + 2] == 13 && b[i + 3] == 10)
    || (i + 2 <= |b| && b[i] == 10 && b[i + 1] == 10)
  }

  predicate HeadIsComplete(b: seq<Byte>) {
    exists i :: 0 <= i < |b| && BlankLineAt(b, i)
  }

  // ---- the head, as text ---------------------------------------------------------

  /** The code on an HTTP status line; any other line has none. */
  function CodeOfLine(line: string): Option<nat> {
    var words := Words(line);
    if words == [] || !("HTTP/" <= words[0]) || |words| < 2 then None
    else ParseUnsigned(words[1], U16_MAX)
  }

  function StatusCode(head: string): Option<nat> {
    var lines := Lines(head);
    CodeOfLine(if lines == [] then "" else lines[0])
  }

  /** What follows the first colon of a header line named `name`. */
  function ValueIn(line: string, name: string): Option<string> {
    var colon := Find(line, ':');
    if colon < |line| && SameIgnoringCase(Trim(line[..colon]), name) then Some(Trim(line[colon + 1..])) else None
  }

  predicate AnyMarks(lines: seq<string>, marker: string) {
    exists i :: 0 <= i < |lines| && ValueIn(lines[i], marker) == Some("1")
  }

  function Fields(head: string): seq<string> {
    var lines := Lines(head);
    if lines == [] then [] else lines[1..]
  }

  predicate HeadCarriesMarker(head: string, marker: string) {
    AnyMarks(Fields(head), marker)
  }

  function OutcomeFromHead(head: string): ProbeOutcome {
    var code := StatusCode(head);
    if code.None? then Unreadable
    else if 200 <= code.value < 300 then Healthy
    else if code.value == 503 && HeadCarriesMarker(head, SHUTDOWN_MARKER) then ShuttingDown
    else if code.value == 503 && HeadCarriesMarker(head, STARTING_MARKER) then StartingUp
    else Http(code.value)
  }

  /** A positive 64-bit number; anything else is no pid at all. A negative
      number is parsed and then refused by the original, here just refused. */
  function PidOfValue(value: string): (pid: Option<nat>)
    ensures pid.Some? ==> 0 < pid.value <= I64_MAX
  {
    var n := ParseUnsigned(value, I64_MAX);
    if n.Some? && n.value > 0 then n else None
  }

  predicate NamesPid(line: string) {
    ValueIn(line, PID_HEADER).Some?
  }

  /** The pid on a line of that name. */
  function PidOn(line: string): Option<nat>
    requires NamesPid(line)
  {
    PidOfValue(ValueIn(line, PID_HEADER).value)
  }

  /** The pid a head names, read from its lines in order. */
  function PidIn(lines: seq<string>): Option<nat> {
    if lines == [] then None
    else
      var last := lines[|lines| - 1];
      if NamesPid(last) then PidOn(last) else PidIn(lines[..|lines| - 1])
  }

  lemma {:induction false} NoLineNamesNoPid(lines: seq<string>)
    requires forall line :: line in lines ==> !NamesPid(line)
    ensures PidIn(lines) == None
  {
    hide NamesPid;
    if lines != [] {
      NoLineNamesNoPid(lines[..|lines| - 1]);
    }
  }

  lemma {:induction false} LastLineDecides(lines: seq<string>, i: nat)
    requires i < |lines| && NamesPid(lines[i])
    requires forall j :: i < j < |lines| ==> !NamesPid(lines[j])
    ensures PidIn(lines) == PidOn(lines[i])
  {
    hide NamesPid, PidOn;
    var n := |lines| - 1;
    if i < n {
      LastLineDecides(lines[..n], i);
    }
  }

  /** The last line of that name decides, even when its value is no pid. */
  method HeaderPid(head: string) returns (found: Option<nat>)
    ensures found == PidIn(Fields(head))
    ensures (forall line :: line in Fields(head) ==> !NamesPid(line)) ==> found == None
    ensures forall i :: 0 <= i < |Fields(head)| && NamesPid(Fields(head)[i])
                        && (forall j :: i < j < |Fields(head)| ==> !NamesPid(Fields(head)[j]))
                        ==> found == PidOn(Fields(head)[i])
  {
    hide ValueIn, PidOfValue, Fields;
    found := None;
    var lines := Fields(head);
    for n := 0 to |lines|
      invariant found == PidIn(lines[..n])
    {
      assert lines[..n + 1][..n] == lines[..n];
      var value := ValueIn(lines[n], PID_HEADER);
      if value.Some? {
        found := PidOfValue(value.value);
      }
    }
    assert lines[..|lines|] == lines;
    PidCharacterised(lines);
  }

  lemma PidCharacterised(lines: seq<string>)
    ensures (forall line :: line in lines ==> !NamesPid(line)) ==> PidIn(lines) == None
    ensures forall i :: 0 <= i < |lines| && NamesPid(lines[i])
                        && (forall j :: i < j < |lines| ==> !NamesPid(lines[j]))
                        ==> PidIn(lines) == PidOn(lines[i])
  {
    hide NamesPid, PidOn, PidIn;
    if forall line :: line in lines ==> !NamesPid(line) {
      NoLineNamesNoPid(lines);
    }
    forall i | 0 <= i < |lines| && NamesPid(lines[i]) && (forall j :: i < j < |lines| ==> !NamesPid(lines[j]))
      ensures PidIn(lines) == PidOn(lines[i])
    {
      LastLineDecides(lines, i);
    }
  }

  // ---- reading from the socket ---------------------------------------------------------

  function Concat(chunks: seq<seq<Byte>>): seq<Byte> {
    if chunks == [] then [] else chunks[0] + Concat(chunks[1..])
  }

  predicate NoEmptyChunk(chunks: seq<seq<Byte>>) {
    forall i :: 0 <= i < |chunks| ==> chunks[i] != []
  }

  function Least(a: nat, b: nat): nat {
    if a <= b then a else b
  }

  /** What the read loop holds when it stops, given what it holds already and
      the chunks still to come. */
  function Held(held: seq<Byte>, chunks: seq<seq<Byte>>): (all: seq<Byte>)
    requires |held| <= HEAD_BYTES
    ensures held <= all && |all| <= HEAD_BYTES
    decreases |chunks|
  {
    if chunks == [] || |held| == HEAD_BYTES then held
    else
      var more := held + chunks[0][..Least(|chunks[0]|, HEAD_BYTES - |held|)];
      if HeadIsComplete(more) then more else Held(more, chunks[1..])
  }

  /** What a probe concludes once the handshake has completed and the server
      sends these chunks. */
  function OutcomeOf(chunks: seq<seq<Byte>>): ProbeOutcome {
    var all := Held([], chunks);
    if all == [] then Unanswered else OutcomeFromHead(Lossy(all))
  }

  /** A connected socket: the chunks the peer will have sent, and whether an
      error or an orderly close comes after the last of them. */
  class Socket {
    var chunks: seq<seq<Byte>>
    const failing: bool

    constructor (chunks: seq<seq<Byte>>, failing: bool)
      requires NoEmptyChunk(chunks)
      ensures Valid() && this.chunks == chunks && this.failing == failing
    {
      this.chunks, this.failing := chunks, failing;
    }

    predicate Valid()
      reads this
    {
      NoEmptyChunk(chunks)
    }

    /** One `read` into `buffer[at..]`: as much of the next chunk as fits,
        nothing at an orderly close, or an error. */
    method Read(buffer: array<Byte>, at: nat) returns (read: Option<nat>)
      requires Valid() && at < buffer.Length
      modifies `chunks, buffer
      ensures Valid()
      ensures buffer[..at] == old(buffer[..at])
      ensures old(chunks) == [] ==> chunks == [] && read == (if failing then None else Some(0))
      ensures old(chunks) != [] ==>
                var next := old(chunks)[0];
                var n := Least(|next|, buffer.Length - at);
                && read == Some(n) && n > 0
                && buffer[..at + n] == old(buffer[..at]) + next[..n]
                && chunks == (if n < |next| then [next[n..]] else []) + old(chunks)[1..]
    {
      if chunks == [] {
        return if failing then None else Some(0);
      }
      var next := chunks[0];
      var n := Least(|next|, buffer.Length - at);
      forall i | 0 <= i < n {
        buffer[at + i] := next[i];
      }
      chunks := (if n < |next| then [next[n..]] else []) + chunks[1..];
      assert buffer[..at + n] == old(buffer[..at]) + next[..n];
      return Some(n);
    }
  }

  /** One pass of the read loop takes one chunk, whole or as much as fits. */
  lemma OneRead(held: seq<Byte>, before: seq<seq<Byte>>, more: seq<Byte>, after: seq<seq<Byte>>, n: nat)
    requires |held| < HEAD_BYTES && before != []
    requires n == Least(|before[0]|, HEAD_BYTES - |held|) && n > 0
    requires more == held + before[0][..n]
    requires after == (if n < |before[0]| then [before[0][n..]] else []) + before[1..]
    ensures HeadIsComplete(more) ==> Held(held, before) == more
    ensures !HeadIsComplete(more) ==> Held(held, before) == Held(more, after)
  {
    assert n == |before[0]| ==> after == before[1..];
    assert n < |before[0]| ==> |more| == HEAD_BYTES;
  }

  method ReadHead(socket: Socket) returns (outcome: ProbeOutcome, head: string)
    requires socket.Valid()
    modifies socket
    ensures outcome == OutcomeOf(old(socket.chunks))
    ensures head == Lossy(Held([], old(socket.chunks)))
  {
    var buffer := new Byte[HEAD_BYTES];
    var filled := 0;
    var done := false;
    while filled < buffer.Length && !done
      invariant socket.Valid() && filled <= buffer.Length == HEAD_BYTES
      invariant fresh(buffer)
      invariant !done ==> Held(buffer[..filled], socket.chunks) == Held([], old(socket.chunks))
      invariant done ==> buffer[..filled] == Held([], old(socket.chunks))
      decreases !done, buffer.Length - filled
    {
      ghost var held, before := buffer[..filled], socket.chunks;
      var read := socket.Read(buffer, filled);
      if read.None? {
        if filled == 0 {
          return Unanswered, "";
        }
        done := true;
      } else if read.value == 0 {
        done := true;
      } else {
        filled := filled + read.value;
        OneRead(held, before, buffer[..filled], socket.chunks, read.value);
        if HeadIsComplete(buffer[..filled]) {
          done := true;
        }
      }
    }
    if filled == 0 {
      return Unanswered, "";
    }
    head := Lossy(buffer[..filled]);
    outcome := OutcomeFromHead(head);
  }
}
