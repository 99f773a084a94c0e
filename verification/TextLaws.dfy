/** What the text operations mean: decoding undoes encoding, trimming finds what
    was written between blanks, and a number is read exactly from its digits. */
module TextLaws {
  import opened Common
  import opened Text

  // ---- UTF-8 ------------------------------------------------------------------

  /** One character, as section 3 of RFC 3629 encodes it. */
  function Utf8(c: char): (b: seq<Byte>)
    ensures 1 <= |b| <= 4
  {
    var n := c as int;
    if n < 0x80 then [n]
    else if n < 0x800 then [0xC0 + n / 64, 0x80 + n % 64]
    else if n < 0x10000 then [0xE0 + n / 4096, 0x80 + n / 64 % 64, 0x80 + n % 64]
    else [0xF0 + n / 262144, 0x80 + n / 4096 % 64, 0x80 + n / 64 % 64, 0x80 + n % 64]
  }

  function Utf8Text(s: string): seq<Byte> {
    if s == "" then [] else Utf8(s[0]) + Utf8Text(s[1..])
  }

  lemma FirstOfEncoded(c: char, rest: seq<Byte>)
    ensures First(Utf8(c) + rest) == Decoded(c, |Utf8(c)|)
  {
    hide DecodeFirst;
    var b := Utf8(c) + rest;
    assert forall i :: 0 <= i < |Utf8(c)| ==> b[i] == Utf8(c)[i];
    var b1, b2, b3 := ByteAt(b, 1), ByteAt(b, 2), ByteAt(b, 3);
    if (c as int) < 0x800 {
      DecodesShort(c, b1, b2, b3);
    } else if (c as int) < 0x10000 {
      DecodesThree(c, b1, b2, b3);
    } else {
      DecodesFour(c, b1, b2, b3);
    }
  }

  /** A number below 64 to the fourth, in base 64. */
  lemma InBase64(n: nat)
    ensures n == 64 * (n / 64) + n % 64
    ensures n / 64 == 64 * (n / 4096) + n / 64 % 64
    ensures n / 4096 == 64 * (n / 262144) + n / 4096 % 64
  {
  }

  lemma FromBase64(x: nat, y: nat, z: nat, w: nat)
    requires y < 64 && z < 64 && w < 64
    ensures (64 * x + y) / 64 == x && (64 * x + y) % 64 == y
    ensures (4096 * x + 64 * y + z) / 4096 == x && (4096 * x + 64 * y + z) / 64 % 64 == y
    ensures (4096 * x + 64 * y + z) % 64 == z
    ensures var n := 262144 * x + 4096 * y + 64 * z + w;
            n / 262144 == x && n / 4096 % 64 == y && n / 64 % 64 == z && n % 64 == w
  {
  }

  lemma DecodesShort(c: char, b1: Byte, b2: Byte, b3: Byte)
    requires (c as int) < 0x800 && (|Utf8(c)| > 1 ==> b1 == Utf8(c)[1])
    ensures DecodeFirst(Utf8(c)[0], b1, b2, b3) == Decoded(c, |Utf8(c)|)
  {
    InBase64(c as int);
  }

  lemma DecodesThree(c: char, b1: Byte, b2: Byte, b3: Byte)
    requires 0x800 <= c as int < 0x10000 && b1 == Utf8(c)[1] && b2 == Utf8(c)[2]
    ensures DecodeFirst(Utf8(c)[0], b1, b2, b3) == Decoded(c, 3)
  {
    var n := c as int;
    InBase64(n);
    var x, y, z := n / 4096, n / 64 % 64, n % 64;
    assert Utf8(c)[0] == 0xE0 + x && b1 == 0x80 + y && b2 == 0x80 + z && n == 4096 * x + 64 * y + z;
    assert SecondFits(0xE0 + x, b1);
  }

  lemma DecodesFour(c: char, b1: Byte, b2: Byte, b3: Byte)
    requires 0x10000 <= c as int && b1 == Utf8(c)[1] && b2 == Utf8(c)[2] && b3 == Utf8(c)[3]
    ensures DecodeFirst(Utf8(c)[0], b1, b2, b3) == Decoded(c, 4)
  {
    var n := c as int;
    InBase64(n);
    var x, y, z, w := n / 262144, n / 4096 % 64, n / 64 % 64, n % 64;
    assert n == 262144 * x + 4096 * y + 64 * z + w;
    assert Utf8(c)[0] == 0xF0 + x && b1 == 0x80 + y && b2 == 0x80 + z && b3 == 0x80 + w;
    assert SecondFits(0xF0 + x, b1);
  }

  lemma EncodesShort(b0: Byte, b1: Byte, b2: Byte, b3: Byte)
    requires b0 < 0xE0
    ensures var d := DecodeFirst(b0, b1, b2, b3);
            d.c != REPLACEMENT ==> Utf8(d.c) == [b0, b1, b2, b3][..d.width]
  {
    if 0xC2 <= b0 && IsContinuation(b1) {
      FromBase64(b0 - 0xC0, b1 - 0x80, 0, 0);
    }
  }

  lemma EncodesThree(b0: Byte, b1: Byte, b2: Byte, b3: Byte)
    requires 0xE0 <= b0 <= 0xEF
    ensures var d := DecodeFirst(b0, b1, b2, b3);
            d.c != REPLACEMENT || d.width == 3 ==> Utf8(d.c) == [b0, b1, b2, b3][..d.width]
  {
    if SecondFits(b0, b1) && IsContinuation(b2) {
      FromBase64(b0 - 0xE0, b1 - 0x80, b2 - 0x80, 0);
      var n := 4096 * (b0 - 0xE0) + 64 * (b1 - 0x80) + (b2 - 0x80);
      assert 0x800 <= n < 0x10000 && DecodeFirst(b0, b1, b2, b3) == Decoded(n as char, 3);
      assert [b0, b1, b2, b3][..3] == [b0, b1, b2];
    }
  }

  lemma EncodesFour(b0: Byte, b1: Byte, b2: Byte, b3: Byte)
    requires 0xF0 <= b0
    ensures var d := DecodeFirst(b0, b1, b2, b3);
            d.c != REPLACEMENT ==> Utf8(d.c) == [b0, b1, b2, b3][..d.width]
  {
    if b0 <= 0xF4 && SecondFits(b0, b1) && IsContinuation(b2) && IsContinuation(b3) {
      FromBase64(b0 - 0xF0, b1 - 0x80, b2 - 0x80, b3 - 0x80);
      var n := 262144 * (b0 - 0xF0) + 4096 * (b1 - 0x80) + 64 * (b2 - 0x80) + (b3 - 0x80);
      assert 0x10000 <= n && DecodeFirst(b0, b1, b2, b3) == Decoded(n as char, 4);
      assert [b0, b1, b2, b3][..4] == [b0, b1, b2, b3];
    }
  }

  /** A byte string starts with a character exactly when it starts with that
      character's own encoding; nothing else is ever read as one. */
  lemma FirstIsItsEncoding(b: seq<Byte>, c: char)
    requires b != [] && c != REPLACEMENT
    ensures First(b) == Decoded(c, |Utf8(c)|) <==> Utf8(c) <= b
    ensures First(b).c == c ==> Utf8(c) <= b
  {
    hide DecodeFirst, Utf8;
    if Utf8(c) <= b {
      FirstOfEncoded(c, b[|Utf8(c)|..]);
      assert b == Utf8(c) + b[|Utf8(c)|..];
    }
    if First(b).c == c {
      var b0, b1, b2, b3 := b[0], ByteAt(b, 1), ByteAt(b, 2), ByteAt(b, 3);
      if b0 < 0xE0 {
        EncodesShort(b0, b1, b2, b3);
      } else if b0 <= 0xEF {
        EncodesThree(b0, b1, b2, b3);
      } else {
        EncodesFour(b0, b1, b2, b3);
      }
      assert b[..First(b).width] == [b0, b1, b2, b3][..First(b).width];
    }
  }

  /** The bytes of an encoded character. */
  predicate IsEncoding(u: seq<Byte>) {
    match |u|
    case 1 => u[0] < 0x80
    case 2 => 0xC2 <= u[0] <= 0xDF && IsContinuation(u[1])
    case 3 => 0xE0 <= u[0] <= 0xEF && SecondFits(u[0], u[1]) && IsContinuation(u[2])
    case 4 => 0xF0 <= u[0] <= 0xF4 && SecondFits(u[0], u[1]) && IsContinuation(u[2]) && IsContinuation(u[3])
    case _ => false
  }

  lemma EncodingHasItsShape(c: char)
    ensures IsEncoding(Utf8(c))
  {
    InBase64(c as int);
  }

  /** As many bytes as begin a character, when the text does not start with a
      whole one. */
  predicate Begins(b: seq<Byte>, n: nat)
    requires 0 < n <= |b|
  {
    n == 1 || exists c :: b[..n] < Utf8(c)
  }

  lemma ThreeBegin(b0: Byte, b1: Byte) returns (c: char)
    requires 0xE0 <= b0 <= 0xEF && SecondFits(b0, b1)
    ensures [b0, b1] < Utf8(c)
  {
    c := DecodeFirst(b0, b1, 0x80, 0).c;
    ThirdCounts(b0, b1);
    c := if c == REPLACEMENT then DecodeFirst(b0, b1, 0x81, 0).c else c;
    EncodesThree(b0, b1, 0x80, 0);
    EncodesThree(b0, b1, 0x81, 0);
    assert [b0, b1, 0x80, 0][..3] == [b0, b1, 0x80] && [b0, b1, 0x81, 0][..3] == [b0, b1, 0x81];
  }

  lemma ThirdCounts(b0: Byte, b1: Byte)
    requires 0xE0 <= b0 <= 0xEF && SecondFits(b0, b1)
    ensures DecodeFirst(b0, b1, 0x80, 0).width == 3 && DecodeFirst(b0, b1, 0x81, 0).width == 3
    ensures DecodeFirst(b0, b1, 0x80, 0).c != DecodeFirst(b0, b1, 0x81, 0).c
  {
  }

  lemma FourBegin(b0: Byte, b1: Byte, b2: Byte) returns (c: char)
    requires 0xF0 <= b0 <= 0xF4 && SecondFits(b0, b1) && IsContinuation(b2)
    ensures [b0, b1, b2] < Utf8(c)
  {
    c := DecodeFirst(b0, b1, b2, 0x80).c;
    EncodesFour(b0, b1, b2, 0x80);
    assert c as int >= 0x10000;
    assert [b0, b1, b2, 0x80][..4] == [b0, b1, b2, 0x80];
  }

  /** The replacement takes in all the bytes that begin a character. */
  lemma TakesAllThatBegin(b: seq<Byte>, n: nat, c: char)
    requires 1 < n <= |b| && b[..n] < Utf8(c)
    ensures First(b).width >= n
  {
    hide Utf8;
    EncodingHasItsShape(c);
    assert b[..n][0] == b[0] && b[..n][1] == b[1];
    assert n > 2 ==> b[..n][2] == b[2];
    assert n <= 3;
  }

  /** Where no character starts, one replacement stands for the longest beginning
      of one, and never for more. */
  lemma ReplacedIsTheLongestBeginning(b: seq<Byte>)
    requires b != [] && forall c :: !(Utf8(c) <= b)
    ensures First(b).c == REPLACEMENT && Begins(b, First(b).width)
    ensures forall n: nat :: First(b).width < n <= |b| ==> !Begins(b, n)
  {
    hide Utf8, First;
    if First(b).c != REPLACEMENT {
      FirstIsItsEncoding(b, First(b).c);
      assert false;
    }
    LongEnough(b);
    forall n: nat | First(b).width < n <= |b|
      ensures !Begins(b, n)
    {
      forall c
        ensures !(b[..n] < Utf8(c))
      {
        if b[..n] < Utf8(c) {
          TakesAllThatBegin(b, n, c);
        }
      }
    }
  }

  lemma LongEnough(b: seq<Byte>)
    requires b != [] && First(b).c == REPLACEMENT && !(Utf8(REPLACEMENT) <= b)
    ensures Begins(b, First(b).width)
  {
    hide Utf8;
    var w := First(b).width;
    var b0, b1, b2, b3 := b[0], ByteAt(b, 1), ByteAt(b, 2), ByteAt(b, 3);
    assert b[..w] == [b0, b1, b2, b3][..w];
    if 0xE0 <= b0 <= 0xEF {
      EncodesThree(b0, b1, b2, b3);
    }
    if w == 2 && b0 < 0xF0 {
      var c := ThreeBegin(b0, b1);
      assert b[..2] == [b0, b1];
    } else if w == 2 {
      var c := FourBegin(b0, b1, 0x80);
      assert b[..2] == [b0, b1] && [b0, b1] == [b0, b1, 0x80][..2];
    } else if w == 3 {
      var c := FourBegin(b0, b1, b2);
      assert b[..3] == [b0, b1, b2];
    }
  }

  /** Decoding undoes encoding, whatever follows. */
  lemma {:induction false} LossyOfEncoded(s: string, rest: seq<Byte>)
    ensures Lossy(Utf8Text(s) + rest) == s + Lossy(rest)
  {
    hide First, Utf8, Lossy;
    if s == "" {
      assert Utf8Text(s) + rest == rest;
    } else {
      var b := Utf8(s[0]) + (Utf8Text(s[1..]) + rest);
      assert Utf8Text(s) + rest == b;
      FirstOfEncoded(s[0], Utf8Text(s[1..]) + rest);
      LossyUnfolds(b, First(b));
      assert b[|Utf8(s[0])|..] == Utf8Text(s[1..]) + rest;
      LossyOfEncoded(s[1..], rest);
      assert [s[0]] + (s[1..] + Lossy(rest)) == s + Lossy(rest);
    }
  }

  // ---- blanks -------------------------------------------------------------------

  /** The blanks HTTP knows: spaces and tabs (section 5.6.3 of RFC 9110). */
  predicate Blank(s: string) {
    forall i :: 0 <= i < |s| ==> s[i] == ' ' || s[i] == '\t'
  }

  predicate Visible(c: char) {
    '!' <= c <= '~'
  }

  /** Text with a visible character at both ends, or none at all. */
  predicate Bare(s: string) {
    s == "" || (Visible(s[0]) && Visible(s[|s| - 1]))
  }

  lemma {:induction false} TrimStartIs(blanks: string, s: string)
    requires Blank(blanks) && (s == "" || !IsSpace(s[0]))
    ensures TrimStart(blanks + s) == s
  {
    if blanks == "" {
      assert blanks + s == s;
    } else {
      assert (blanks + s)[1..] == blanks[1..] + s;
      TrimStartIs(blanks[1..], s);
    }
  }

  lemma {:induction false} TrimEndIs(s: string, blanks: string)
    requires Blank(blanks) && (s == "" || !IsSpace(s[|s| - 1]))
    ensures TrimEnd(s + blanks) == s
  {
    var n := |blanks|;
    if n == 0 {
      assert s + blanks == s;
    } else {
      assert (s + blanks)[..|s| + n - 1] == s + blanks[..n - 1];
      TrimEndIs(s, blanks[..n - 1]);
    }
  }

  /** Whatever the blanks around it, the bare text between them is found. */
  lemma TrimIs(before: string, s: string, after: string)
    requires Blank(before) && Bare(s) && Blank(after)
    ensures Trim(before + s + after) == s
  {
    hide TrimStart, TrimEnd;
    if s == "" {
      assert before + s + after == (before + after) + "";
      TrimStartIs(before + after, "");
      TrimEndIs("", "");
      assert "" + "" == "";
    } else {
      assert before + s + after == before + (s + after);
      TrimStartIs(before, s + after);
      TrimEndIs(s, after);
    }
  }

  // ---- numbers ------------------------------------------------------------------

  /** A number as it is written, without leading zeros. */
  function Decimal(n: nat): (s: string)
    ensures s != ""
  {
    if n < 10 then [DigitOf(n)] else Decimal(n / 10) + [DigitOf(n % 10)]
  }

  function DigitOf(d: nat): (c: char)
    requires d < 10
    ensures IsDigit(c)
  {
    "0123456789"[d]
  }

  function Zeros(k: nat): (s: string)
    ensures |s| == k
  {
    seq(k, i => '0')
  }

  /** `s` spells `n`: its decimal, after any zeros and at most one plus. */
  ghost predicate Spells(s: string, n: nat) {
    exists k: nat :: s == Zeros(k) + Decimal(n) || s == "+" + Zeros(k) + Decimal(n)
  }

  lemma DigitsUnfold(front: string, c: char)
    ensures Digits(front + [c])
            == if Digits(front).None? || !IsDigit(c) then None
               else Some(Digits(front).value * 10 + (c as int - '0' as int))
  {
    assert (front + [c])[..|front|] == front;
  }

  lemma DigitIsItsValue(d: nat)
    requires d < 10
    ensures DigitOf(d) as int - '0' as int == d
  {
  }

  lemma {:induction false} DigitsOfZeros(k: nat)
    ensures Digits(Zeros(k)) == Some(0)
  {
    if k > 0 {
      DigitsOfZeros(k - 1);
      assert Zeros(k) == Zeros(k - 1) + ['0'];
      DigitsUnfold(Zeros(k - 1), '0');
    }
  }

  lemma {:induction false} DigitsOfDecimal(k: nat, n: nat)
    ensures Digits(Zeros(k) + Decimal(n)) == Some(n)
    decreases n
  {
    hide Digits, IsDigit, DigitOf;
    var front := if n < 10 then Zeros(k) else Zeros(k) + Decimal(n / 10);
    if n < 10 {
      DigitsOfZeros(k);
    } else {
      DigitsOfDecimal(k, n / 10);
    }
    assert Zeros(k) + Decimal(n) == front + [DigitOf(n % 10)];
    DigitsUnfold(front, DigitOf(n % 10));
    DigitIsItsValue(n % 10);
  }

  /** Digits that read as `n` are its decimal, after some zeros. */
  lemma {:induction false} DigitsSpell(s: string, n: nat) returns (k: nat)
    requires s != "" && Digits(s) == Some(n)
    ensures s == Zeros(k) + Decimal(n)
    decreases |s|
  {
    var front, c := s[..|s| - 1], s[|s| - 1];
    var d := c as int - '0' as int;
    assert s == front + [c] && n == Digits(front).value * 10 + d && 0 <= d < 10;
    DigitIsItsValue(d);
    assert DigitOf(d) == c;
    if front == "" {
      k := 0;
      assert Decimal(n) == [c];
    } else {
      var m := Digits(front).value;
      var j := DigitsSpell(front, m);
      if m == 0 {
        k := j + 1;
        assert Decimal(0) == "0" && Zeros(j) + "0" == Zeros(k);
        assert Decimal(n) == [c];
      } else {
        k := j;
        assert n / 10 == m && n % 10 == d;
        assert Zeros(j) + Decimal(m) + [c] == Zeros(j) + (Decimal(m) + [c]);
      }
    }
  }

  /** A text is read as a number exactly when it spells it and it is not too
      large. */
  lemma ParsedExactly(s: string, max: nat, n: nat)
    ensures ParseUnsigned(s, max) == Some(n) <==> Spells(s, n) && n <= max
  {
    hide Digits;
    if Spells(s, n) {
      SpelledIsRead(s, max, n);
    }
    if ParseUnsigned(s, max) == Some(n) {
      var plus := s[0] == '+';
      var digits := if plus then s[1..] else s;
      var k := DigitsSpell(digits, n);
      assert plus ==> s == "+" + digits && "+" + digits == "+" + Zeros(k) + Decimal(n);
    }
  }

  lemma NoPlus(k: nat, n: nat)
    ensures (Zeros(k) + Decimal(n))[0] != '+'
  {
    DecimalStarts(n);
  }

  lemma {:induction false} DecimalStarts(n: nat)
    ensures Decimal(n)[0] != '+'
  {
    if n >= 10 {
      DecimalStarts(n / 10);
    }
  }

  lemma PlusIsAllowed(digits: string, max: nat, n: nat)
    requires digits != "" && digits[0] != '+' && Digits(digits) == Some(n)
    ensures ParseUnsigned(digits, max) == if n <= max then Some(n) else None
    ensures ParseUnsigned("+" + digits, max) == ParseUnsigned(digits, max)
  {
    hide Digits;
    assert ("+" + digits)[1..] == digits;
  }

  lemma SpelledIsRead(s: string, max: nat, n: nat)
    requires Spells(s, n)
    ensures ParseUnsigned(s, max) == if n <= max then Some(n) else None
  {
    hide Digits, Decimal, IsDigit, ParseUnsigned;
    var k: nat :| s == Zeros(k) + Decimal(n) || s == "+" + Zeros(k) + Decimal(n);
    var digits := Zeros(k) + Decimal(n);
    DigitsOfDecimal(k, n);
    NoPlus(k, n);
    PlusIsAllowed(digits, max, n);
    assert "+" + Zeros(k) + Decimal(n) == "+" + digits;
  }

  lemma SpellsItself(n: nat)
    ensures Spells(Decimal(n), n)
  {
    assert Decimal(n) == Zeros(0) + Decimal(n);
  }

  // ---- plain text -----------------------------------------------------------------

  predicate IsAscii(s: string) {
    forall i :: 0 <= i < |s| ==> s[i] as int < 0x80
  }

  lemma {:induction false} AsciiIsShort(s: string)
    requires IsAscii(s)
    ensures |Utf8Text(s)| == |s| && forall i :: 0 <= i < |s| ==> Utf8Text(s)[i] == s[i] as int
  {
    if s != "" {
      AsciiIsShort(s[1..]);
    }
  }

  lemma {:induction false} EncodedJoins(a: string, b: string)
    ensures Utf8Text(a + b) == Utf8Text(a) + Utf8Text(b)
  {
    if a == "" {
      assert a + b == b;
    } else {
      assert (a + b)[1..] == a[1..] + b;
      EncodedJoins(a[1..], b);
    }
  }
}
