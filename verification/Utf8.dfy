/** UTF-8 (RFC 3629): encoding, and `String::from_utf8_lossy`, which decodes each byte sequence on
    its own and puts U+FFFD for whatever is not a character of it. */
module Utf8 {
  type byte = x: nat | x < 256

  const REPLACEMENT := '\U{FFFD}'

  function EncodeChar(c: char): (bs: seq<byte>)
    ensures 1 <= |bs| <= 4
  {
    var u := c as int;
    if u < 0x80 then [u]
    else if u < 0x800 then [0xC0 + u / 0x40, 0x80 + u % 0x40]
    else if u < 0x1_0000 then [0xE0 + u / 0x1000, 0x80 + u / 0x40 % 0x40, 0x80 + u % 0x40]
    else [0xF0 + u / 0x4_0000, 0x80 + u / 0x1000 % 0x40, 0x80 + u / 0x40 % 0x40, 0x80 + u % 0x40]
  }

  function Encode(text: string): seq<byte> {
    if text == "" then [] else EncodeChar(text[0]) + Encode(text[1..])
  }

  /** How many bytes a character with this first byte has; 0 if none begins so. */
  function Width(lead: nat): nat {
    if lead < 0x80 then 1
    else if 0xC2 <= lead < 0xE0 then 2
    else if 0xE0 <= lead < 0xF0 then 3
    else if 0xF0 <= lead < 0xF5 then 4
    else 0
  }

  predicate Tail(b: nat) {
    0x80 <= b < 0xC0
  }

  /** The second byte shuts out overlong forms, surrogates and values past U+10FFFF. */
  predicate Second(lead: nat, b: nat) {
    && Tail(b) && (lead == 0xE0 ==> b >= 0xA0) && (lead == 0xED ==> b < 0xA0)
    && (lead == 0xF0 ==> b >= 0x90) && (lead == 0xF4 ==> b < 0x90)
  }

  /** The byte at `k`; past the end a byte that no character continues with. */
  function At(bs: seq<byte>, k: nat): nat {
    if k < |bs| then bs[k] else 0
  }

  /** The first character and its length, or U+FFFD and the length of what is broken off. */
  function Next(bs: seq<byte>): (r: (char, nat))
    requires bs != []
    ensures 1 <= r.1 <= |bs|
  {
    var lead, b1, b2, b3 := At(bs, 0), At(bs, 1), At(bs, 2), At(bs, 3);
    var width := Width(lead);
    if width == 0 then (REPLACEMENT, 1)
    else if width == 1 then (lead as char, 1)
    else if !Second(lead, b1) then (REPLACEMENT, 1)
    else if width == 2 then (((lead - 0xC0) * 0x40 + b1 - 0x80) as char, 2)
    else if !Tail(b2) then (REPLACEMENT, 2)
    else if width == 3 then (((lead - 0xE0) * 0x1000 + (b1 - 0x80) * 0x40 + b2 - 0x80) as char, 3)
    else if !Tail(b3) then (REPLACEMENT, 3)
    else (((lead - 0xF0) * 0x4_0000 + (b1 - 0x80) * 0x1000 + (b2 - 0x80) * 0x40 + b3 - 0x80) as char, 4)
  }

  /** `String::from_utf8_lossy`. */
  function Lossy(bs: seq<byte>): string
    decreases |bs|
  {
    if bs == [] then "" else [Next(bs).0] + Lossy(bs[Next(bs).1..])
  }

  // ---------------------------------------------------------------- decoding inverts encoding

  /** A code point from its six-bit digits. */
  lemma Digits(u: nat)
    ensures u == u / 0x40 * 0x40 + u % 0x40
    ensures u == u / 0x1000 * 0x1000 + u / 0x40 % 0x40 * 0x40 + u % 0x40
    ensures u == u / 0x4_0000 * 0x4_0000 + u / 0x1000 % 0x40 * 0x1000 + u / 0x40 % 0x40 * 0x40 + u % 0x40
  {
    assert u / 0x40 / 0x40 == u / 0x1000 && u / 0x1000 / 0x40 == u / 0x4_0000;
  }

  lemma NextIsEncoded(c: char, rest: seq<byte>)
    ensures Next(EncodeChar(c) + rest) == (c, |EncodeChar(c)|)
  {
    var u, bs := c as int, EncodeChar(c) + rest;
    Digits(u);
    assert forall k :: 0 <= k < |EncodeChar(c)| ==> At(bs, k) == EncodeChar(c)[k];
    if u < 0x800 {
    } else if u < 0x1_0000 {
      assert Second(At(bs, 0), At(bs, 1)) && Tail(At(bs, 2));
    } else {
      assert Second(At(bs, 0), At(bs, 1)) && Tail(At(bs, 2)) && Tail(At(bs, 3));
    }
  }

  lemma {:induction false} LossyInvertsEncode(text: string)
    ensures Lossy(Encode(text)) == text
  {
    hide EncodeChar, Next;
    if text != "" {
      var first, rest := EncodeChar(text[0]), Encode(text[1..]);
      NextIsEncoded(text[0], rest);
      assert (first + rest)[|first|..] == rest;
      LossyInvertsEncode(text[1..]);
      assert text == [text[0]] + text[1..];
    }
  }

  lemma {:induction false} EncodeAppend(a: string, b: string)
    ensures Encode(a + b) == Encode(a) + Encode(b)
  {
    hide EncodeChar;
    if a == "" {
      assert a + b == b;
    } else {
      assert (a + b)[1..] == a[1..] + b && (a + b)[0] == a[0];
      EncodeAppend(a[1..], b);
    }
  }

  lemma NextGrows(bs: seq<byte>)
    requires bs != []
    ensures |EncodeChar(Next(bs).0)| >= Next(bs).1
  {
  }

  /** Decoding never makes a text shorter: U+FFFD takes three bytes, and stands for at most three. */
  lemma {:induction false} LossyGrows(bs: seq<byte>)
    ensures |Encode(Lossy(bs))| >= |bs|
    decreases |bs|
  {
    hide EncodeChar, Next;
    if bs != [] {
      var rest := bs[Next(bs).1..];
      NextGrows(bs);
      LossyGrows(rest);
      assert ([Next(bs).0] + Lossy(rest))[1..] == Lossy(rest);
    }
  }

  // ---------------------------------------------------------------- chunk by chunk

  function Join(chunks: seq<seq<byte>>): seq<byte> {
    if chunks == [] then [] else chunks[0] + Join(chunks[1..])
  }

  /** What decoding each chunk on its own gives. */
  function LossyChunks(chunks: seq<seq<byte>>): string {
    if chunks == [] then "" else Lossy(chunks[0]) + LossyChunks(chunks[1..])
  }

  /** The bytes are whole characters: those of some text. */
  ghost predicate Whole(bs: seq<byte>) {
    exists text :: Encode(text) == bs
  }

  /** Such bytes, and no others, survive decoding. */
  lemma WholeSurvives(bs: seq<byte>)
    ensures Whole(bs) <==> Encode(Lossy(bs)) == bs
  {
    hide Encode, Lossy;
    if text :| Encode(text) == bs { LossyInvertsEncode(text); }
  }

  lemma {:induction false} ChunksGrow(chunks: seq<seq<byte>>)
    ensures |Encode(LossyChunks(chunks))| >= |Join(chunks)|
  {
    hide Lossy;
    if chunks != [] {
      LossyGrows(chunks[0]);
      ChunksGrow(chunks[1..]);
      EncodeAppend(Lossy(chunks[0]), LossyChunks(chunks[1..]));
    }
  }

  lemma {:induction false} WholeChunks(chunks: seq<seq<byte>>)
    ensures Encode(LossyChunks(chunks)) == Join(chunks) <==> forall k :: 0 <= k < |chunks| ==> Whole(chunks[k])
  {
    hide Lossy, Whole;
    if chunks != [] {
      var first, rest := chunks[0], chunks[1..];
      WholeChunks(rest);
      WholeSurvives(first);
      LossyGrows(first);
      ChunksGrow(rest);
      var a, b := Encode(Lossy(first)), Encode(LossyChunks(rest));
      EncodeAppend(Lossy(first), LossyChunks(rest));
      assert a + b == first + Join(rest) <==> a == first && b == Join(rest) by {
        if a + b == first + Join(rest) {
          assert |a| == |first|;
          assert a == (a + b)[..|a|] && first == (first + Join(rest))[..|first|];
          assert b == (a + b)[|a|..] && Join(rest) == (first + Join(rest))[|first|..];
        }
      }
      assert forall k :: 0 <= k < |rest| ==> rest[k] == chunks[k + 1];
      if forall k :: 0 <= k < |rest| ==> Whole(rest[k]) {
        assert forall k :: 1 <= k < |chunks| ==> chunks[k] == rest[k - 1];
      }
    }
  }

  /** A text sent as bytes in chunks and decoded chunk by chunk comes out as it was exactly when
      no chunk ends inside a character. */
  lemma ChunksDecodeIff(text: string, chunks: seq<seq<byte>>)
    requires Join(chunks) == Encode(text)
    ensures LossyChunks(chunks) == text <==> forall k :: 0 <= k < |chunks| ==> Whole(chunks[k])
  {
    hide Whole;
    WholeChunks(chunks);
    if Encode(LossyChunks(chunks)) == Encode(text) {
      LossyInvertsEncode(text);
      LossyInvertsEncode(LossyChunks(chunks));
    }
  }

  /** U+00E9 sent as two chunks of one byte comes out as two replacement characters. */
  lemma CutCharacterIsLost()
    ensures var chunks := [[0xC3], [0xA9]];
      Join(chunks) == Encode("\U{E9}") && LossyChunks(chunks) == [REPLACEMENT, REPLACEMENT]
  {
  }

  /** Bytes below 0x80 are whole characters, so a text of them may be cut anywhere. */
  lemma {:induction false} AsciiIsWhole(bs: seq<byte>)
    requires forall k :: 0 <= k < |bs| ==> bs[k] < 0x80
    ensures Whole(bs)
  {
    if bs == [] {
      assert Encode("") == bs;
    } else {
      AsciiIsWhole(bs[1..]);
      var rest :| Encode(rest) == bs[1..];
      var text := [bs[0] as char] + rest;
      assert text[1..] == rest && EncodeChar(text[0]) == [bs[0]];
      assert Encode(text) == bs;
    }
  }

  lemma LossyStep(c: char, rest: seq<byte>)
    ensures Lossy(EncodeChar(c) + rest) == [c] + Lossy(rest)
  {
    hide EncodeChar, Next;
    NextIsEncoded(c, rest);
    assert (EncodeChar(c) + rest)[|EncodeChar(c)|..] == rest;
  }

  /** Whole characters at the front are decoded as they are, whatever follows. */
  lemma {:induction false} LossyAppend(text: string, rest: seq<byte>)
    ensures Lossy(Encode(text) + rest) == text + Lossy(rest)
  {
    hide EncodeChar, Lossy;
    if text == "" {
      assert Encode(text) + rest == rest && text + Lossy(rest) == Lossy(rest);
    } else {
      var first, more := EncodeChar(text[0]), Encode(text[1..]) + rest;
      assert Encode(text) + rest == first + more;
      LossyStep(text[0], more);
      LossyAppend(text[1..], rest);
      assert text + Lossy(rest) == [text[0]] + (text[1..] + Lossy(rest));
    }
  }

  lemma {:induction false} AtLeastOneByteEach(text: string)
    ensures |Encode(text)| >= |text|
  {
    if text != "" { AtLeastOneByteEach(text[1..]); }
  }

  /** A text has as many bytes as characters exactly when all of them are below U+0080. */
  lemma {:induction false} BytesAreCharactersIff(text: string)
    ensures |Encode(text)| == |text| <==> forall k :: 0 <= k < |text| ==> text[k] as int < 0x80
  {
    if text != "" {
      var rest := text[1..];
      BytesAreCharactersIff(rest);
      AtLeastOneByteEach(rest);
      assert forall k :: 0 <= k < |rest| ==> rest[k] == text[k + 1];
      if forall k :: 0 <= k < |rest| ==> rest[k] as int < 0x80 {
        assert forall k :: 1 <= k < |text| ==> text[k] == rest[k - 1];
      }
    }
  }
}
