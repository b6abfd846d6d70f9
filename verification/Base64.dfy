/** The base64 coding of section 4 of RFC 4648, and the bounded decoder `bytes` of
    infra/previews/protocol.ts. */
module Base64 {
  import opened Octets

  const PAD: byte := 61

  /** The character of a six-bit value. */
  function Letter(v: int): (c: byte)
    requires 0 <= v < 64
  {
    if v < 26 then (65 + v) as byte
    else if v < 52 then (71 + v) as byte
    else if v < 62 then (v - 4) as byte
    else if v == 62 then 43 else 47
  }

  predicate IsLetter(c: byte) {
    65 <= c <= 90 || 97 <= c <= 122 || 48 <= c <= 57 || c == 43 || c == 47
  }

  function Value(c: byte): (v: int)
    requires IsLetter(c)
    ensures 0 <= v < 64 && Letter(v) == c
  {
    if 65 <= c <= 90 then c as int - 65
    else if 97 <= c <= 122 then c as int - 71
    else if 48 <= c <= 57 then c as int + 4
    else if c == 43 then 62 else 63
  }

  lemma LetterHasValue(v: int)
    requires 0 <= v < 64
    ensures IsLetter(Letter(v)) && Letter(v) != PAD && Value(Letter(v)) == v
  {
  }

  /** Three bytes as four six-bit values, and back. */
  function Sixes(a: int, b: int, c: int): (r: (int, int, int, int))
    requires 0 <= a < 256 && 0 <= b < 256 && 0 <= c < 256
    ensures 0 <= r.0 < 64 && 0 <= r.1 < 64 && 0 <= r.2 < 64 && 0 <= r.3 < 64
    ensures Eights(r.0, r.1, r.2, r.3) == (a, b, c)
    ensures b == 0 && c == 0 ==> r.1 % 16 == 0 && r.2 == 0 && r.3 == 0
    ensures c == 0 ==> r.2 % 4 == 0 && r.3 == 0
  {
    (a / 4, a % 4 * 16 + b / 16, b % 16 * 4 + c / 64, c % 64)
  }

  function Eights(v: int, w: int, x: int, y: int): (r: (int, int, int))
    requires 0 <= v < 64 && 0 <= w < 64 && 0 <= x < 64 && 0 <= y < 64
    ensures 0 <= r.0 < 256 && 0 <= r.1 < 256 && 0 <= r.2 < 256
  {
    (v * 4 + w / 16, w % 16 * 16 + x / 4, x % 4 * 64 + y)
  }

  lemma EightsThenSixes(v: int, w: int, x: int, y: int)
    requires 0 <= v < 64 && 0 <= w < 64 && 0 <= x < 64 && 0 <= y < 64
    ensures var e := Eights(v, w, x, y); Sixes(e.0, e.1, e.2) == (v, w, x, y)
  {
    assert (v * 4 + w / 16) / 4 == v && (v * 4 + w / 16) % 4 == w / 16;
    assert (w % 16 * 16 + x / 4) / 16 == w % 16 && (w % 16 * 16 + x / 4) % 16 == x / 4;
    assert (x % 4 * 64 + y) / 64 == x % 4 && (x % 4 * 64 + y) % 64 == y;
  }

  function Triple(a: byte, b: byte, c: byte): (r: (int, int, int, int))
    ensures 0 <= r.0 < 64 && 0 <= r.1 < 64 && 0 <= r.2 < 64 && 0 <= r.3 < 64
  {
    Sixes(a as int, b as int, c as int)
  }

  function Encode(data: Bytes): (text: Bytes) {
    if data == [] then []
    else if |data| == 1 then
      var q := Triple(data[0], 0, 0);
      [Letter(q.0), Letter(q.1), PAD, PAD]
    else if |data| == 2 then
      var q := Triple(data[0], data[1], 0);
      [Letter(q.0), Letter(q.1), Letter(q.2), PAD]
    else
      var q := Triple(data[0], data[1], data[2]);
      [Letter(q.0), Letter(q.1), Letter(q.2), Letter(q.3)] + Encode(data[3..])
  }

  /** The pattern that `bytes` tests: groups of four letters, the last one perhaps padded. */
  predicate Wellformed(text: Bytes) {
    || text == []
    || (|text| == 4 && Group(text) && (text[3] == PAD || IsLetter(text[3])))
    || (|text| > 4 && (forall i :: 0 <= i < 4 ==> IsLetter(text[i])) && Wellformed(text[4..]))
  }

  predicate Group(text: Bytes)
    requires |text| == 4
  {
    && IsLetter(text[0]) && IsLetter(text[1])
    && (IsLetter(text[2]) || (text[2] == PAD && text[3] == PAD))
  }

  function Quad(v: byte, w: byte, x: byte, y: byte): (r: (int, int, int))
    requires IsLetter(v) && IsLetter(w) && (x == PAD || IsLetter(x)) && (y == PAD || IsLetter(y))
    ensures 0 <= r.0 < 256 && 0 <= r.1 < 256 && 0 <= r.2 < 256
  {
    Eights(Value(v), Value(w), if x == PAD then 0 else Value(x), if y == PAD then 0 else Value(y))
  }

  /** What a well-formed text stands for; the low bits of a padded group are ignored. */
  function Decode(text: Bytes): (data: Bytes)
    requires Wellformed(text)
  {
    if text == [] then []
    else
      var e := Quad(text[0], text[1], text[2], text[3]);
      if text[2] == PAD then [e.0 as byte]
      else if text[3] == PAD then [e.0 as byte, e.1 as byte]
      else [e.0 as byte, e.1 as byte, e.2 as byte] + if |text| == 4 then [] else Decode(text[4..])
  }

  /** The bits that a decoder ignores are zero. */
  predicate Canonical(text: Bytes)
    requires Wellformed(text)
  {
    || text == []
    || (|text| == 4
        && (text[2] == PAD ==> Value(text[1]) % 16 == 0)
        && (text[2] != PAD && text[3] == PAD ==> Value(text[2]) % 4 == 0))
    || (|text| > 4 && Canonical(text[4..]))
  }

  lemma TripleLetters(a: byte, b: byte, c: byte)
    ensures var q := Triple(a, b, c);
            && IsLetter(Letter(q.0)) && IsLetter(Letter(q.1)) && IsLetter(Letter(q.2)) && IsLetter(Letter(q.3))
            && Letter(q.2) != PAD && Letter(q.3) != PAD
            && Value(Letter(q.0)) == q.0 && Value(Letter(q.1)) == q.1 && Value(Letter(q.2)) == q.2
              && Value(Letter(q.3)) == q.3
            && Eights(q.0, q.1, q.2, q.3) == (a as int, b as int, c as int)
            && (b == 0 && c == 0 ==> q.1 % 16 == 0 && q.2 == 0)
            && (c == 0 ==> q.2 % 4 == 0 && q.3 == 0)
  {
    var q := Triple(a, b, c);
    LetterHasValue(q.0);
    LetterHasValue(q.1);
    LetterHasValue(q.2);
    LetterHasValue(q.3);
  }

  lemma OneGroup(v: byte, w: byte, x: byte, y: byte)
    requires IsLetter(v) && IsLetter(w) && (x == PAD || IsLetter(x)) && (y == PAD || IsLetter(y))
    requires (x == PAD ==> y == PAD)
    ensures var text, e := [v, w, x, y], Quad(v, w, x, y);
            && Wellformed(text)
            && Decode(text) == (if x == PAD then [e.0 as byte] else if y == PAD then [e.0 as byte, e.1 as byte]
                                else [e.0 as byte, e.1 as byte, e.2 as byte])
            && (Canonical(text) <==> (x == PAD ==> Value(w) % 16 == 0) && (x != PAD && y == PAD ==> Value(x) % 4 == 0))
  {
    hide Quad, Value;
  }

  lemma OneByte(a: byte)
    ensures Wellformed(Encode([a])) && Canonical(Encode([a])) && Decode(Encode([a])) == [a]
  {
    hide Letter, IsLetter, Value, Eights, Sixes, Triple;
    var q := Triple(a, 0, 0);
    TripleLetters(a, 0, 0);
    OneGroup(Letter(q.0), Letter(q.1), PAD, PAD);
  }

  lemma TwoBytes(a: byte, b: byte)
    ensures Wellformed(Encode([a, b])) && Canonical(Encode([a, b])) && Decode(Encode([a, b])) == [a, b]
  {
    hide Letter, IsLetter, Value, Eights, Sixes, Triple;
    var q := Triple(a, b, 0);
    TripleLetters(a, b, 0);
    OneGroup(Letter(q.0), Letter(q.1), Letter(q.2), PAD);
  }

  lemma {:induction false} EncodedIsCanonical(data: Bytes)
    ensures Wellformed(Encode(data)) && Canonical(Encode(data))
    ensures Decode(Encode(data)) == data
    decreases |data|
  {
    hide Triple, Letter, IsLetter, Value, Eights, Sixes;
    if data == [] {
    } else if |data| == 1 {
      OneByte(data[0]);
      assert data == [data[0]];
    } else if |data| == 2 {
      TwoBytes(data[0], data[1]);
      assert data == [data[0], data[1]];
    } else {
      TripleLetters(data[0], data[1], data[2]);
      var text, rest := Encode(data), data[3..];
      EncodedIsCanonical(rest);
      assert text[4..] == Encode(rest);
      assert rest == [] ==> |text| == 4;
      assert data == [data[0], data[1], data[2]] + rest;
    }
  }

  lemma {:induction false} EncodedSize(data: Bytes)
    ensures |Encode(data)| == (|data| + 2) / 3 * 4
    decreases |data|
  {
    hide Triple, Letter;
    if |data| > 2 { EncodedSize(data[3..]); }
  }

  lemma {:induction false} DecodedSize(text: Bytes)
    requires Wellformed(text)
    ensures |text| % 4 == 0 && (|Decode(text)| + 2) / 3 * 4 == |text|
    decreases |text|
  {
    hide Quad, IsLetter;
    PadIsNoLetter();
    if |text| > 4 { DecodedSize(text[4..]); }
  }

  lemma QuadAgain(v: byte, w: byte, x: byte, y: byte)
    requires IsLetter(v) && IsLetter(w) && (x == PAD || IsLetter(x)) && (y == PAD || IsLetter(y))
    ensures var e := Quad(v, w, x, y);
            Triple(e.0 as byte, e.1 as byte, e.2 as byte) ==
            (Value(v), Value(w), if x == PAD then 0 else Value(x), if y == PAD then 0 else Value(y))
  {
    EightsThenSixes(Value(v), Value(w), if x == PAD then 0 else Value(x), if y == PAD then 0 else Value(y));
  }

  lemma PaddedQuad(v: byte, w: byte, x: byte, y: byte)
    requires IsLetter(v) && IsLetter(w) && (x == PAD || IsLetter(x)) && (y == PAD || IsLetter(y))
    ensures y == PAD && (x == PAD || Value(x) % 4 == 0) ==> Quad(v, w, x, y).2 == 0
    ensures x == PAD && Value(w) % 16 == 0 ==> Quad(v, w, x, y).1 == 0
  {
  }

  lemma PadIsNoLetter()
    ensures !IsLetter(PAD)
  {
  }

  lemma GroupAgain(text: Bytes)
    requires |text| == 4 && Wellformed(text) && Canonical(text)
    ensures Encode(Decode(text)) == text
  {
    hide Quad, Triple, Letter, IsLetter, Value;
    PadIsNoLetter();
    QuadAgain(text[0], text[1], text[2], text[3]);
    PaddedQuad(text[0], text[1], text[2], text[3]);
    var e := Quad(text[0], text[1], text[2], text[3]);
    assert text[3] == PAD ==> e.2 == 0;
    assert text[2] == PAD ==> e.1 == 0;
    assert text == [text[0], text[1], text[2], text[3]];
    if text[2] != PAD && text[3] != PAD {
      var data := Decode(text);
      assert |data| == 3 && data[3..] == [];
    }
  }

  /** A text is the coding of what it decodes to exactly when it is canonical. */
  lemma {:induction false} CanonicalIsEncoded(text: Bytes)
    requires Wellformed(text)
    ensures Encode(Decode(text)) == text <==> Canonical(text)
    decreases |text|
  {
    hide Quad, Triple, Letter, IsLetter, Value;
    PadIsNoLetter();
    if Encode(Decode(text)) == text { EncodedIsCanonical(Decode(text)); }
    if Canonical(text) && |text| == 4 {
      GroupAgain(text);
    } else if Canonical(text) && text != [] {
      QuadAgain(text[0], text[1], text[2], text[3]);
      CanonicalIsEncoded(text[4..]);
      assert Decode(text)[3..] == Decode(text[4..]);
      assert text == [text[0], text[1], text[2], text[3]] + text[4..];
    }
  }

  // ----- the bounded decoder ----------------------------------------------------------------------

  datatype Option<T> = None | Some(value: T)

  /** `bytes`: refuse before decoding what is too long, malformed, or decodes to too much. */
  function Decoded(text: Bytes, maximum: nat): (r: Option<Bytes>) {
    if |text| > (maximum + 2) / 3 * 4 || !Wellformed(text) then None
    else if |Decode(text)| > maximum then None
    else Some(Decode(text))
  }

  /** The two bounds are one: a text is accepted exactly when it is well formed and what it stands
      for fits; and every body that fits is read back from its coding. */
  lemma DecoderIsExact(text: Bytes, maximum: nat)
    ensures Decoded(text, maximum).Some? <==> Wellformed(text) && |Decode(text)| <= maximum
  {
    if Wellformed(text) { DecodedSize(text); }
  }

  lemma DecoderInverts(data: Bytes, maximum: nat)
    ensures Decoded(Encode(data), maximum) == if |data| <= maximum then Some(data) else None
  {
    EncodedIsCanonical(data);
    DecoderIsExact(Encode(data), maximum);
  }
}
