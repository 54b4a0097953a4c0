/** What happens to a Messages reply whose stream is cut inside a character: it ends well, with a
    text that was never sent. */
module AnthropicCut {
  import opened Wrappers
  import opened Json
  import opened AnthropicStream
  import opened AnthropicReplay
  import T = Text
  import U = Utf8

  const CUT := "\U{E9}"
  const BROKEN := [U.REPLACEMENT, U.REPLACEMENT]

  /** A message of one text. */
  function Note(text: string): seq<Block> {
    [TextBlock([text])]
  }

  /** Each event on a line of its own. */
  function Lines(events: seq<Json>): seq<Item> {
    seq(|events|, k requires 0 <= k < |events| => Event("", " ", events[k], ""))
  }

  /** The printer writes the text of a delta as it is, and everything else alike. */
  ghost predicate Literal(codec: Codec, frame: Frame, left: string, right: string) {
    && (forall text :: text == CUT || text == BROKEN ==>
          codec.print_(DeltaEvent(0, TextBlock([text]), text)) == left + text + right)
    && (forall text, k :: (text == CUT || text == BROKEN) && 0 <= k < 5 ==> Prints(codec, Events(Note(text), frame)[k]))
  }

  lemma NoteEvents(text: string, frame: Frame)
    ensures Events(Note(text), frame) ==
      [Opening(frame), StartEvent(0, TextBlock([])), DeltaEvent(0, TextBlock([text]), text), Closing(frame), STOP]
  {
    var b := TextBlock([text]);
    assert [text][1..] == [] && Note(text)[1..] == [];
    assert DeltaEvents(0, b, [text]) == [DeltaEvent(0, b, text)];
    assert BlocksEvents(1, []) == [] && BlocksEvents(0, Note(text)) == BlockEvents(0, b);
  }

  function DataLineOf(codec: Codec, v: Json): string {
    "data: " + codec.print_(v) + "\n"
  }

  function Before(codec: Codec, frame: Frame, left: string): string {
    DataLineOf(codec, Opening(frame)) + DataLineOf(codec, StartEvent(0, TextBlock([]))) + "data: " + left
  }

  function Behind(codec: Codec, frame: Frame, right: string): string {
    right + "\n" + DataLineOf(codec, Closing(frame)) + DataLineOf(codec, STOP)
  }

  lemma {:induction false} LinesRendered(codec: Codec, events: seq<Json>)
    requires events != []
    ensures Render(codec, Lines(events)) == DataLineOf(codec, events[0]) + Render(codec, Lines(events[1..]))
  {
    assert Lines(events)[1..] == Lines(events[1..]);
    assert " " + codec.print_(events[0]) + "" == " " + codec.print_(events[0]);
    assert Line(codec, Lines(events)[0]) == "data: " + codec.print_(events[0]);
  }

  lemma NoteRendered(codec: Codec, text: string, frame: Frame, left: string, right: string)
    requires Literal(codec, frame, left, right) && (text == CUT || text == BROKEN)
    ensures Render(codec, Lines(Events(Note(text), frame))) ==
      Before(codec, frame, left) + text + Behind(codec, frame, right)
  {
    hide Render, Literal, Lines;
    var events := Events(Note(text), frame);
    var delta := DeltaEvent(0, TextBlock([text]), text);
    NoteEvents(text, frame);
    LinesRendered(codec, events);
    LinesRendered(codec, events[1..]);
    LinesRendered(codec, events[2..]);
    LinesRendered(codec, events[3..]);
    LinesRendered(codec, events[4..]);
    assert events[1..][1..] == events[2..] && events[2..][1..] == events[3..] && events[3..][1..] == events[4..];
    assert events[4..][1..] == [] && Render(codec, Lines([])) == "" by { NothingRendered(codec); }
    assert codec.print_(delta) == left + text + right by { LiteralDelta(codec, frame, left, right, text); }
    Regrouped(DataLineOf(codec, Opening(frame)), DataLineOf(codec, StartEvent(0, TextBlock([]))), left, text, right,
              DataLineOf(codec, Closing(frame)), DataLineOf(codec, STOP));
  }

  lemma LiteralDelta(codec: Codec, frame: Frame, left: string, right: string, text: string)
    requires Literal(codec, frame, left, right) && (text == CUT || text == BROKEN)
    ensures codec.print_(DeltaEvent(0, TextBlock([text]), text)) == left + text + right
    ensures forall k :: 0 <= k < 5 ==> Prints(codec, Events(Note(text), frame)[k])
  {
  }

  lemma NothingRendered(codec: Codec)
    ensures Render(codec, Lines([])) == ""
  {
  }

  lemma Regrouped(a: string, b: string, left: string, text: string, right: string, c: string, d: string)
    ensures a + (b + ("data: " + (left + text + right) + "\n" + (c + (d + "")))) ==
      a + b + "data: " + left + text + (right + "\n" + c + d)
  {
  }

  /** The bytes of the stream, sent in two chunks that cut the character in the middle. */
  function Halves(codec: Codec, frame: Frame, left: string, right: string): seq<seq<U.byte>> {
    [U.Encode(Before(codec, frame, left)) + [0xC3], [0xA9] + U.Encode(Behind(codec, frame, right))]
  }

  lemma HalvesJoin(a: string, b: string)
    ensures U.Join([U.Encode(a) + [0xC3], [0xA9] + U.Encode(b)]) == U.Encode(a + CUT + b)
    ensures U.LossyChunks([U.Encode(a) + [0xC3], [0xA9] + U.Encode(b)]) == a + BROKEN + b
  {
    hide U.Encode, U.Lossy;
    TwoChunks(U.Encode(a) + [0xC3], [0xA9] + U.Encode(b));
    U.EncodeAppend(a + CUT, b);
    U.EncodeAppend(a, CUT);
    assert U.Encode(CUT) == [0xC3, 0xA9] by { CutEncoded(); }
    assert U.Encode(a) + [0xC3] + ([0xA9] + U.Encode(b)) == U.Encode(a) + [0xC3, 0xA9] + U.Encode(b);
    U.LossyAppend(a, [0xC3]);
    HalfCharacters(b);
    assert a + [U.REPLACEMENT] + ([U.REPLACEMENT] + b) == a + BROKEN + b;
  }

  lemma TwoChunks(x: seq<U.byte>, y: seq<U.byte>)
    ensures U.Join([x, y]) == x + y && U.LossyChunks([x, y]) == U.Lossy(x) + U.Lossy(y)
  {
    hide U.Lossy;
    var chunks: seq<seq<U.byte>> := [x, y];
    assert chunks[1..] == [y] && chunks[1..][1..] == [];
    assert U.Join(chunks[1..][1..]) == [] && U.Join(chunks[1..]) == y + [] == y;
    assert U.LossyChunks(chunks[1..][1..]) == "" && U.LossyChunks(chunks[1..]) == U.Lossy(y) + "" == U.Lossy(y);
  }

  lemma CutEncoded()
    ensures U.Encode(CUT) == [0xC3, 0xA9]
  {
    assert CUT[1..] == "";
  }

  lemma HalfCharacters(b: string)
    ensures U.Lossy([0xC3]) == [U.REPLACEMENT] && U.Lossy([0xA9] + U.Encode(b)) == [U.REPLACEMENT] + b
  {
    hide U.Encode;
    var y := [0xA9] + U.Encode(b);
    assert [0xC3][1..] == [] && U.Lossy([]) == "";
    assert U.Next(y) == (U.REPLACEMENT, 1) && y[1..] == U.Encode(b);
    U.LossyInvertsEncode(b);
  }

  /** A message of one accented letter, its stream cut inside that letter: the stream ends well, but
      not with the message's plain reply. */
  lemma CutCharacterChangesReply(codec: Codec, frame: Frame, left: string, right: string)
    requires Literal(codec, frame, left, right)
    ensures var chunks := Halves(codec, frame, left, right);
      && U.Join(chunks) == U.Encode(Render(codec, Lines(Events(Note(CUT), frame))))
      && Stream(codec, AsData(chunks)) == Ok(ParseMessage(MessageOf(Note(BROKEN), frame)))
      && Stream(codec, AsData(chunks)) != Ok(ParseMessage(MessageOf(Note(CUT), frame)))
  {
    hide Stream, ParseMessage, MessageOf, Events, Render, Lines, Received, U.Encode, U.Lossy, Before, Behind;
    var a, b := Before(codec, frame, left), Behind(codec, frame, right);
    NoteRendered(codec, CUT, frame, left, right);
    NoteRendered(codec, BROKEN, frame, left, right);
    HalvesJoin(a, b);
    DataIsReceived(Halves(codec, frame, left, right));
    NoteLines(codec, BROKEN, frame, left, right);
    StreamingIsPlainParsing(codec, Note(BROKEN), frame, Lines(Events(Note(BROKEN), frame)),
                            AsData(Halves(codec, frame, left, right)));
    NoteIs(CUT, frame);
    NoteIs(BROKEN, frame);
  }

  lemma NoteLines(codec: Codec, text: string, frame: Frame, left: string, right: string)
    requires Literal(codec, frame, left, right) && (text == CUT || text == BROKEN)
    ensures var items := Lines(Events(Note(text), frame));
      EventsOf(items) == Events(Note(text), frame) && forall k :: 0 <= k < |items| ==> Harmless(codec, items[k])
  {
    hide Literal, Prints;
    NoteEvents(text, frame);
    LiteralDelta(codec, frame, left, right, text);
    LinesAreEvents(Events(Note(text), frame));
  }

  lemma {:induction false} LinesAreEvents(events: seq<Json>)
    ensures EventsOf(Lines(events)) == events
  {
    if events != [] {
      assert Lines(events)[1..] == Lines(events[1..]);
      LinesAreEvents(events[1..]);
    }
  }

  lemma NoteIs(text: string, frame: Frame)
    ensures ParseMessage(MessageOf(Note(text), frame)).text == text
  {
    hide ParseBlock, Plain;
    PlainMessageIs(Note(text), frame);
    PlainIs(Parsed("", "", []), TextBlock([text]));
    assert Plains(Note(text)) == [Plain(TextBlock([text]))] && Plains(Note(text))[..0] == [];
    assert T.Concat([text]) == text by { assert [text][1..] == [] && text + "" == text; }
    assert "" + text == text;
  }

  /** A printer of that kind, enough for these events, and its parser. */
  function TinyPrint(v: Json): string {
    var kind := Or(AsStr(Field(v, "type")), "");
    if kind == "message_start" then "1"
    else if kind == "content_block_start" then "2"
    else if kind == "message_delta" then "4"
    else if kind == "message_stop" then "5"
    else "[" + Or(AsStr(Pointer(v, "delta", "text")), "") + "]"
  }

  function TinyParse(frame: Frame, text: string): Option<Json> {
    if |text| > 1 then Some(DeltaEvent(0, TextBlock([]), text[1..|text| - 1]))
    else if text == "1" then Some(Opening(frame))
    else if text == "2" then Some(StartEvent(0, TextBlock([])))
    else if text == "4" then Some(Closing(frame))
    else if text == "5" then Some(STOP)
    else None
  }

  function Tiny(frame: Frame): Codec {
    Codec(text => TinyParse(frame, text), TinyPrint)
  }

  lemma KindsDiffer()
    ensures "message_start" != "content_block_start" && "message_start" != "message_delta"
    ensures "message_start" != "message_stop" && "content_block_start" != "message_delta"
    ensures "content_block_start" != "message_stop" && "message_delta" != "message_stop"
    ensures "content_block_delta" != "message_start" && "content_block_delta" != "content_block_start"
    ensures "content_block_delta" != "message_delta" && "content_block_delta" != "message_stop"
    ensures "type" != "delta" && "type" != "text"
  {
    assert |"message_start"| == 13 && |"content_block_start"| == 19 && |"content_block_delta"| == 19;
    assert "content_block_delta"[14] != "content_block_start"[14] && |"message_delta"| == 13 && |"message_stop"| == 12;
    assert "message_delta"[8] != "message_start"[8] && "type"[0] != "delta"[0] && "type"[1] != "text"[1];
  }

  lemma PrintsBy(frame: Frame, v: Json, text: string)
    requires TinyPrint(v) == text && TinyParse(frame, text) == Some(v)
    requires '\n' !in text && text != "" && !T.IsSpace(text[0]) && !T.IsSpace(text[|text| - 1])
    ensures Prints(Tiny(frame), v)
  {
  }

  lemma TinyPrintsFrame(frame: Frame)
    ensures Prints(Tiny(frame), Opening(frame)) && Prints(Tiny(frame), StartEvent(0, TextBlock([])))
    ensures Prints(Tiny(frame), Closing(frame)) && Prints(Tiny(frame), STOP)
  {
    hide Prints, Tiny, Opening, StartEvent, Closing, DeltaEvent;
    KindsDiffer();
    FrameKinds(frame);
    assert "1"[0] != "2"[0] && "1"[0] != "4"[0] && "2"[0] != "4"[0] && "5"[0] != "1"[0];
    assert "5"[0] != "2"[0] && "5"[0] != "4"[0];
    PrintsBy(frame, Opening(frame), "1");
    PrintsBy(frame, StartEvent(0, TextBlock([])), "2");
    PrintsBy(frame, Closing(frame), "4");
    PrintsBy(frame, STOP, "5");
  }

  lemma FrameKinds(frame: Frame)
    ensures AsStr(Field(Opening(frame), "type")) == Some("message_start")
    ensures AsStr(Field(StartEvent(0, TextBlock([])), "type")) == Some("content_block_start")
    ensures AsStr(Field(Closing(frame), "type")) == Some("message_delta")
    ensures AsStr(Field(STOP, "type")) == Some("message_stop")
  {
  }

  lemma TinyPrintsDelta(frame: Frame, text: string)
    requires text == CUT || text == BROKEN
    ensures TinyPrint(DeltaEvent(0, TextBlock([text]), text)) == "[" + text + "]"
    ensures Prints(Tiny(frame), DeltaEvent(0, TextBlock([text]), text))
  {
    hide Prints, Tiny;
    KindsDiffer();
    var v, printed := DeltaEvent(0, TextBlock([text]), text), "[" + text + "]";
    assert AsStr(Field(v, "type")) == Some("content_block_delta");
    assert AsStr(Pointer(v, "delta", "text")) == Some(text);
    assert printed[1..|printed| - 1] == text;
    assert '\n' !in printed by { assert forall k :: 0 <= k < |printed| ==> printed[k] != '\n'; }
    PrintsBy(frame, v, printed);
  }

  lemma TinyIsLiteral(frame: Frame)
    ensures Literal(Tiny(frame), frame, "[", "]")
  {
    hide Events, Prints, DeltaEvent, TinyPrint, TinyParse;
    TinyPrintsFrame(frame);
    TinyPrintsDelta(frame, CUT);
    TinyPrintsDelta(frame, BROKEN);
    NoteEvents(CUT, frame);
    NoteEvents(BROKEN, frame);
  }

  /** Such a stream exists. */
  lemma OneReplyIsBroken(frame: Frame)
    ensures var r := Stream(Tiny(frame), AsData(Halves(Tiny(frame), frame, "[", "]")));
      r.Ok? && r.value.text == BROKEN != CUT
  {
    hide Stream, ParseMessage, Halves, MessageOf;
    TinyIsLiteral(frame);
    CutCharacterChangesReply(Tiny(frame), frame, "[", "]");
    NoteIs(BROKEN, frame);
  }
}
