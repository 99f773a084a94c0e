/** The few operations on bytes and text the health probe uses, as Rust's
    standard library defines them. */
module Text {
  import opened Common

  type Byte = n: nat | n < 256

  const NEWLINE: Byte := 10

  // ---- UTF-8, lossily ------------------------------------------------------

  datatype Decoded = Decoded(c: char, width: nat)

  const REPLACEMENT: char := '\U{FFFD}'

  predicate IsContinuation(b: nat) {
    0x80 <= b <= 0xBF
  }

  /** The second byte a three- or four-byte sequence may have. */
  predicate SecondFits(b0: nat, b1: nat) {
    || (b0 == 0xE0 && 0xA0 <= b1 <= 0xBF)
    || (0xE1 <= b0 <= 0xEC && IsContinuation(b1))
    || (b0 == 0xED && 0x80 <= b1 <= 0x9F)
    || (0xEE <= b0 <= 0xEF && IsContinuation(b1))
    || (b0 == 0xF0 && 0x90 <= b1 <= 0xBF)
    || (0xF1 <= b0 <= 0xF3 && IsContinuation(b1))
    || (b0 == 0xF4 && 0x80 <= b1 <= 0x8F)
  }

  /** The first character of a byte string, from its first four bytes; an
      invalid sequence is one replacement character for its longest valid
      start. */
  function DecodeFirst(b0: Byte, b1: Byte, b2: Byte, b3: Byte): (d: Decoded)
    ensures 1 <= d.width <= 4
    ensures d.width > 1 ==> IsContinuation(b1)
    ensures d.width > 2 ==> IsContinuation(b2)
    ensures d.width > 3 ==> IsContinuation(b3)
    ensures d.c == '\n' <==> b0 == NEWLINE
    ensures b0 < 0x80 ==> d == Decoded(b0 as char, 1)
  {
    if b0 < 0x80 then Decoded(b0 as char, 1)
    else if 0xC2 <= b0 <= 0xDF then
      if !IsContinuation(b1) then Decoded(REPLACEMENT, 1)
      else Decoded(((b0 - 0xC0) * 64 + (b1 - 0x80)) as char, 2)
    else if 0xE0 <= b0 <= 0xEF then
      if !SecondFits(b0, b1) then Decoded(REPLACEMENT, 1)
      else if !IsContinuation(b2) then Decoded(REPLACEMENT, 2)
      else Decoded(((b0 - 0xE0) * 4096 + (b1 - 0x80) * 64 + (b2 - 0x80)) as char, 3)
    else if 0xF0 <= b0 <= 0xF4 then
      if !SecondFits(b0, b1) then Decoded(REPLACEMENT, 1)
      else if !IsContinuation(b2) then Decoded(REPLACEMENT, 2)
      else if !IsContinuation(b3) then Decoded(REPLACEMENT, 3)
      else Decoded(((b0 - 0xF0) * 262144 + (b1 - 0x80) * 4096 + (b2 - 0x80) * 64 + (b3 - 0x80)) as char, 4)
    else Decoded(REPLACEMENT, 1)
  }

  function ByteAt(b: seq<Byte>, i: nat): Byte {
    if i < |b| then b[i] else 0
  }

  function First(b: seq<Byte>): (d: Decoded)
    requires b != []
    ensures 1 <= d.width <= |b|
  {
    DecodeFirst(b[0], ByteAt(b, 1), ByteAt(b, 2), ByteAt(b, 3))
  }

  /** `String::from_utf8_lossy` */
  function Lossy(b: seq<Byte>): string {
    if b == [] then "" else [First(b).c] + Lossy(b[First(b).width..])
  }

  lemma NewlineEndsNoCharacter(a: seq<Byte>, rest: seq<Byte>)
    requires a != []
    ensures First(a + [NEWLINE] + rest) == First(a)
  {
    var whole := a + [NEWLINE] + rest;
    assert forall i :: 0 <= i < |a| ==> whole[i] == a[i];
    assert whole[|a|] == NEWLINE;
  }

  lemma LossyUnfolds(b: seq<Byte>, d: Decoded)
    requires b != [] && d == First(b)
    ensures Lossy(b) == [d.c] + Lossy(b[d.width..])
  {
  }

  lemma Prepended(c: char, x: string, y: string)
    ensures [c] + (x + "\n" + y) == [c] + x + "\n" + y
  {
  }

  lemma LossyStep(a: seq<Byte>, rest: seq<Byte>, d: Decoded)
    requires a != [] && d == First(a)
    ensures Lossy(a) == [d.c] + Lossy(a[d.width..])
    ensures Lossy(a + [NEWLINE] + rest) == [d.c] + Lossy(a[d.width..] + [NEWLINE] + rest)
  {
    NewlineEndsNoCharacter(a, rest);
    assert (a + [NEWLINE] + rest)[d.width..] == a[d.width..] + [NEWLINE] + rest;
    LossyUnfolds(a + [NEWLINE] + rest, d);
  }

  lemma LossyOfNewline(rest: seq<Byte>)
    ensures Lossy([NEWLINE] + rest) == "\n" + Lossy(rest)
  {
    assert ([NEWLINE] + rest)[1..] == rest;
  }

  /** Decoding never looks past a line feed. */
  lemma {:induction false} LossySplitsAtNewline(a: seq<Byte>, rest: seq<Byte>)
    ensures Lossy(a + [NEWLINE] + rest) == Lossy(a) + "\n" + Lossy(rest)
  {
    if a == [] {
      assert a + [NEWLINE] + rest == [NEWLINE] + rest;
      LossyOfNewline(rest);
    } else {
      var d := First(a);
      LossyStep(a, rest, d);
      LossySplitsAtNewline(a[d.width..], rest);
      Prepended(d.c, Lossy(a[d.width..]), Lossy(rest));
    }
  }

  lemma {:induction false} LossyKeepsLines(a: seq<Byte>)
    requires NEWLINE !in a
    ensures '\n' !in Lossy(a)
  {
    if a != [] {
      assert a[0] != NEWLINE;
      LossyKeepsLines(a[First(a).width..]);
    }
  }

  // ---- lines, words and numbers ------------------------------------------------

  /** The first place of `c`, or the length. */
  function Find(s: string, c: char): (i: nat)
    ensures i <= |s|
    ensures i < |s| ==> s[i] == c
    ensures c !in s[..i]
  {
    if s == "" || s[0] == c then 0
    else
      var i := 1 + Find(s[1..], c);
      assert s[..i] == [s[0]] + s[1..][..i - 1];
      i
  }

  function WithoutCr(line: string): string {
    if |line| > 0 && line[|line| - 1] == '\r' then line[..|line| - 1] else line
  }

  /** `str::lines` */
  function Lines(s: string): seq<string> {
    if s == "" then []
    else
      var i := Find(s, '\n');
      if i == |s| then [s] else [WithoutCr(s[..i])] + Lines(s[i + 1..])
  }

  lemma FindIs(s: string, c: char, i: nat)
    requires i <= |s| && c !in s[..i] && (i < |s| ==> s[i] == c)
    ensures Find(s, c) == i
  {
    var j := Find(s, c);
    assert forall k :: 0 <= k < i ==> s[..i][k] == s[k];
    assert forall k :: 0 <= k < j ==> s[..j][k] == s[k];
  }

  lemma LinesOf(line: string, rest: string)
    requires '\n' !in line
    ensures Lines(line + "\n" + rest) == [WithoutCr(line)] + Lines(rest)
  {
    var s := line + "\n" + rest;
    assert s[..|line|] == line && s[|line| + 1..] == rest;
    FindIs(s, '\n', |line|);
  }

  /** `char::is_whitespace` */
  predicate IsSpace(c: char) {
    var n := c as int;
    || 0x09 <= n <= 0x0D || n in {0x20, 0x85, 0xA0, 0x1680} || 0x2000 <= n <= 0x200A
    || n in {0x2028, 0x2029, 0x202F, 0x205F, 0x3000}
  }

  function TrimStart(s: string): string {
    if s != "" && IsSpace(s[0]) then TrimStart(s[1..]) else s
  }

  function TrimEnd(s: string): string {
    if s != "" && IsSpace(s[|s| - 1]) then TrimEnd(s[..|s| - 1]) else s
  }

  /** `str::trim` */
  function Trim(s: string): string {
    TrimEnd(TrimStart(s))
  }

  function WordLength(s: string): (n: nat)
    ensures n <= |s|
  {
    if s == "" || IsSpace(s[0]) then 0 else 1 + WordLength(s[1..])
  }

  /** `str::split_whitespace` */
  function Words(s: string): seq<string>
    decreases |s|
  {
    if s == "" then []
    else if IsSpace(s[0]) then Words(s[1..])
    else [s[..WordLength(s)]] + Words(s[WordLength(s)..])
  }

  predicate IsDigit(c: char) {
    '0' <= c <= '9'
  }

  function Digits(s: string): Option<nat> {
    if s == "" then Some(0)
    else
      var front := Digits(s[..|s| - 1]);
      if front.None? || !IsDigit(s[|s| - 1]) then None
      else Some(front.value * 10 + (s[|s| - 1] as int - '0' as int))
  }

  /** `parse` of an unsigned number: one leading `+` is allowed, nothing else
      but digits, and no more than `max`. */
  function ParseUnsigned(s: string, max: nat): Option<nat> {
    var digits := if s != "" && s[0] == '+' then s[1..] else s;
    if digits == "" then None
    else
      var n := Digits(digits);
      if n.Some? && n.value <= max then n else None
  }

  function AsciiLower(c: char): char {
    if 'A' <= c <= 'Z' then (c as int + 32) as char else c
  }

  /** `str::eq_ignore_ascii_case` */
  predicate SameIgnoringCase(a: string, b: string) {
    |a| == |b| && forall i :: 0 <= i < |a| ==> AsciiLower(a[i]) == AsciiLower(b[i])
  }
}
