/** Text as bytes: the UTF-8 encoding, and the reading of arbitrary bytes as text that
    `String::from_utf8_lossy` does, which puts U+FFFD in the place of every damaged part. */
module Utf8 {
  type Byte = n: nat | n < 256 witness 0
  type Bytes = seq<Byte>

  function Utf8Char(c: char): seq<Byte> {
    var n := c as int;
    if n < 0x80 then [n]
    else if n < 0x800 then [(0xC0 + n / 64), (0x80 + n % 64)]
    else if n < 0x1_0000 then
      [(0xE0 + n / 4096), (0x80 + n / 64 % 64), (0x80 + n % 64)]
    else
      [(0xF0 + n / 262144), (0x80 + n / 4096 % 64),
       (0x80 + n / 64 % 64), (0x80 + n % 64)]
  }

  function Utf8Bytes(s: string): seq<Byte> {
    if s == "" then [] else Utf8Char(s[0]) + Utf8Bytes(s[1..])
  }

  // ---- Reading ----

  /** How many bytes a character takes that starts with `b`; no character starts with the others. */
  function Width(b: Byte): nat {
    if b < 0x80 then 1
    else if 0xC2 <= b <= 0xDF then 2
    else if 0xE0 <= b <= 0xEF then 3
    else if 0xF0 <= b <= 0xF4 then 4
    else 0
  }

  predicate Continues(b: Byte) { 0x80 <= b <= 0xBF }

  /** The second byte excludes overlong forms, surrogates and what lies beyond U+10FFFF. */
  predicate SecondFits(first: Byte, b: Byte) {
    if first == 0xE0 then 0xA0 <= b <= 0xBF
    else if first == 0xED then 0x80 <= b <= 0x9F
    else if first == 0xF0 then 0x90 <= b <= 0xBF
    else if first == 0xF4 then 0x80 <= b <= 0x8F
    else Continues(b)
  }

  /** The character at the front of the bytes, or the longest damaged beginning of one. */
  datatype Head = Head(len: nat, whole: bool)

  function HeadOf(bs: Bytes): (h: Head)
    requires bs != []
    ensures 1 <= h.len <= |bs| && (!h.whole ==> h.len <= 3)
  {
    var w := Width(bs[0]);
    if w <= 1 then Head(1, w == 1)
    else if |bs| < 2 || !SecondFits(bs[0], bs[1]) then Head(1, false)
    else if w == 2 then Head(2, true)
    else if |bs| < 3 || !Continues(bs[2]) then Head(2, false)
    else if w == 3 then Head(3, true)
    else if |bs| < 4 || !Continues(bs[3]) then Head(3, false)
    else Head(4, true)
  }

  const REPLACEMENT: Bytes := [0xEF, 0xBF, 0xBD]

  /** `String::from_utf8_lossy(bs)`, as the bytes of the resulting text. */
  function Lossy(bs: Bytes): Bytes
    decreases |bs|
  {
    if bs == [] then []
    else
      var h := HeadOf(bs);
      (if h.whole then bs[..h.len] else REPLACEMENT) + Lossy(bs[h.len..])
  }

  predicate ValidUtf8(bs: Bytes)
    decreases |bs|
  {
    bs == [] || (HeadOf(bs).whole && ValidUtf8(bs[HeadOf(bs).len..]))
  }

  /** Every damaged part is as long as the character it is replaced by. */
  predicate DamageFits(bs: Bytes)
    decreases |bs|
  {
    bs == [] || ((HeadOf(bs).whole || HeadOf(bs).len == 3) && DamageFits(bs[HeadOf(bs).len..]))
  }

  /** The text is never shorter than the bytes, and as long exactly if all damage fits. */
  lemma {:induction false} LossyLength(bs: Bytes)
    ensures |Lossy(bs)| >= |bs|
    ensures |Lossy(bs)| == |bs| <==> DamageFits(bs)
    decreases |bs|
  {
    if bs != [] { LossyLength(bs[HeadOf(bs).len..]); }
  }

  lemma {:induction false} ValidFits(bs: Bytes)
    requires ValidUtf8(bs)
    ensures DamageFits(bs) && Lossy(bs) == bs
    decreases |bs|
  {
    if bs != [] {
      ValidFits(bs[HeadOf(bs).len..]);
      assert bs == bs[..HeadOf(bs).len] + bs[HeadOf(bs).len..];
    }
  }

  /** Nothing is changed exactly in valid UTF-8. */
  lemma {:induction false} LossyExact(bs: Bytes)
    ensures Lossy(bs) == bs <==> ValidUtf8(bs)
    decreases |bs|
  {
    if ValidUtf8(bs) {
      ValidFits(bs);
    } else {
      var h := HeadOf(bs);
      var rest := bs[h.len..];
      LossyLength(bs);
      if h.whole {
        LossyExact(rest);
        assert Lossy(bs)[h.len..] == Lossy(rest);
      } else if h.len == 3 {
        assert Lossy(bs)[0] == 0xEF != bs[0];
      }
    }
  }

  /** The bytes are valid but for their end, which is the beginning of a U+FFFD that `tail` completes. */
  predicate CutMark(bs: Bytes, tail: Bytes)
    decreases |bs|
  {
    bs != [] &&
    if HeadOf(bs).whole then CutMark(bs[HeadOf(bs).len..], tail)
    else |bs| < 3 && bs <= REPLACEMENT && REPLACEMENT <= bs + tail
  }

  /** The text is what stands in a longer text from where the bytes begin exactly if they are valid, or
      cut inside a U+FFFD. */
  lemma {:induction false} LossyPrefix(bs: Bytes, tail: Bytes)
    ensures Lossy(bs) <= bs + tail <==> ValidUtf8(bs) || CutMark(bs, tail)
    decreases |bs|
  {
    if bs != [] {
      var h := HeadOf(bs);
      var rest := bs[h.len..];
      if h.whole {
        LossyPrefix(rest, tail);
        assert bs + tail == bs[..h.len] + (rest + tail);
        PrefixUnder(bs[..h.len], Lossy(rest), rest + tail);
      } else {
        MarkRead(bs, tail);
        MarkNeeded(bs, tail);
      }
    }
  }

  lemma MarkRead(bs: Bytes, tail: Bytes)
    requires bs != [] && !HeadOf(bs).whole
    ensures CutMark(bs, tail) ==> Lossy(bs) <= bs + tail
  {
    if CutMark(bs, tail) { MarkAlone(bs); }
  }

  lemma MarkNeeded(bs: Bytes, tail: Bytes)
    requires bs != [] && !HeadOf(bs).whole
    ensures Lossy(bs) <= bs + tail ==> CutMark(bs, tail)
  {
    var text, whole := Lossy(bs), bs + tail;
    assert text[..3] == REPLACEMENT;
    if text <= whole {
      assert bs[0] == whole[0] == text[0] == 0xEF;
      assert |bs| >= 2 ==> bs[1] == whole[1] == text[1] == 0xBF;
      assert REPLACEMENT == whole[..3];
      assert |bs| < 3 by { ThirdByte(bs, tail); }
    }
  }

  lemma ThirdByte(bs: Bytes, tail: Bytes)
    requires bs != [] && !HeadOf(bs).whole && |bs + tail| >= 3 && (bs + tail)[..3] == REPLACEMENT
    ensures |bs| < 3
  {
    var whole := bs + tail;
    assert whole[0] == whole[..3][0] && whole[1] == whole[..3][1] && whole[2] == whole[..3][2];
  }

  lemma MarkAlone(bs: Bytes)
    requires bs != [] && bs <= REPLACEMENT && |bs| < 3
    ensures HeadOf(bs) == Head(|bs|, false) && Lossy(bs) == REPLACEMENT
  {
    assert Lossy(bs) == REPLACEMENT + [];
  }

  lemma PrefixUnder(a: Bytes, b: Bytes, c: Bytes)
    ensures a + b <= a + c <==> b <= c
  {
    if a + b <= a + c {
      assert b == (a + b)[|a|..] && c == (a + c)[|a|..];
      assert forall i | 0 <= i < |b| :: b[i] == (a + b)[|a| + i] == (a + c)[|a| + i] == c[i];
    }
  }

  predicate Ascii(bs: Bytes) { forall i | 0 <= i < |bs| :: bs[i] < 0x80 }

  lemma {:induction false} AsciiValid(bs: Bytes)
    requires Ascii(bs)
    ensures ValidUtf8(bs)
  {
    if bs != [] { AsciiValid(bs[1..]); }
  }

  lemma CharIsHead(c: char, rest: Bytes)
    ensures HeadOf(Utf8Char(c) + rest) == Head(|Utf8Char(c)|, true)
  {
  }

  /** The character number that a whole character's bytes stand for (section 3 of RFC 3629). */
  function CodePoint(bs: Bytes): int
    requires 1 <= |bs| <= 4
  {
    var first := bs[0] as int;
    if |bs| == 1 then first
    else if |bs| == 2 then Shift(first - 0xC0, bs[1])
    else if |bs| == 3 then Shift(Shift(first - 0xE0, bs[1]), bs[2])
    else Shift(Shift(Shift(first - 0xF0, bs[1]), bs[2]), bs[3])
  }

  /** Six more bits. */
  function Shift(high: int, next: Byte): int { high * 64 + (next as int - 0x80) }

  lemma SixBits(n: nat)
    ensures n == n / 64 * 64 + n % 64 && n / 64 == n / 4096 * 64 + n / 64 % 64
    ensures n / 4096 == n / 262144 * 64 + n / 4096 % 64
  {
  }

  lemma CharDecodes(c: char)
    ensures CodePoint(Utf8Char(c)) == c as int
  {
    SixBits(c as int);
  }

  /** Different texts have different encodings: each character is read back from the front. */
  lemma {:induction false} EncodingInjective(s: string, t: string)
    requires Utf8Bytes(s) == Utf8Bytes(t)
    ensures s == t
  {
    if s != "" && t != "" {
      var c, d := Utf8Char(s[0]), Utf8Char(t[0]);
      var rest, rest' := Utf8Bytes(s[1..]), Utf8Bytes(t[1..]);
      CharIsHead(s[0], rest);
      CharIsHead(t[0], rest');
      CharDecodes(s[0]);
      CharDecodes(t[0]);
      hide Utf8Char, HeadOf, CodePoint;
      assert c == (c + rest)[..|c|] && d == (d + rest')[..|d|];
      assert rest == (c + rest)[|c|..] && rest' == (d + rest')[|d|..];
      EncodingInjective(s[1..], t[1..]);
    }
  }

  /** Text survives encoding and reading. */
  lemma {:induction false} EncodedValid(s: string)
    ensures ValidUtf8(Utf8Bytes(s))
  {
    if s != "" {
      CharIsHead(s[0], Utf8Bytes(s[1..]));
      EncodedValid(s[1..]);
      assert Utf8Bytes(s)[|Utf8Char(s[0])|..] == Utf8Bytes(s[1..]);
    }
  }
}
