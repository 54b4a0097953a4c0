/** Encoding a conversation for the Messages API: turns of the same role are merged. */
module AnthropicEncode {
  import opened Wrappers
  import opened Json
  import T = Text

  datatype Role = System | User | Assistant | Tool

  /** A content part as encoding sees it: text, an asset that could be read, or neither. */
  datatype Part = TextPart(text: string) | AssetPart(media: string) | Unsupported | Unreadable

  datatype Content = Text(text: string) | Parts(parts: seq<Part>)

  datatype Call = Call(id: string, name: string, arguments: Json)

  datatype Message = Message(role: Role, content: Content, calls: seq<Call>, toolCallId: Option<string>)

  datatype Block =
    | TextBlock(text: string)
    | MediaBlock(media: string)
    | ToolUse(id: string, name: string, input: Json)
    | ToolResult(id: string, text: string)

  datatype Speaker = ByUser | ByAssistant

  datatype Turn = Turn(role: Speaker, content: seq<Block>)

  datatype Result<T> = Ok(value: T) | Err

  function JoinLines(parts: seq<Part>): string {
    var texts := TextsOf(parts);
    Join(texts, "\n")
  }

  function TextsOf(parts: seq<Part>): seq<string> {
    if parts == [] then [] else (if parts[0].TextPart? then [parts[0].text] else []) + TextsOf(parts[1..])
  }

  function Join(texts: seq<string>, separator: string): string {
    if texts == [] then "" else if |texts| == 1 then texts[0] else texts[0] + separator + Join(texts[1..], separator)
  }

  function PlainText(c: Content): string {
    if c.Text? then c.text else JoinLines(c.parts)
  }

  predicate IsEmpty(c: Content) {
    if c.Text? then T.Blank(c.text) else c.parts == []
  }

  function EncodePart(p: Part): Result<Block> {
    match p
    case TextPart(text) => Ok(TextBlock(text))
    case AssetPart(media) => Ok(MediaBlock(media))
    case Unsupported => Err
    case Unreadable => Err
  }

  function EncodePartList(parts: seq<Part>): Result<seq<Block>> {
    if parts == [] then Ok([])
    else
      var front, last := EncodePartList(parts[..|parts| - 1]), EncodePart(parts[|parts| - 1]);
      if front.Err? then Err else if last.Err? then Err else Ok(front.value + [last.value])
  }

  /** `encode_parts`. */
  function EncodeParts(c: Content): Result<seq<Block>> {
    if c.Text? then Ok([TextBlock(c.text)]) else EncodePartList(c.parts)
  }

  function ToolUses(calls: seq<Call>): seq<Block> {
    seq(|calls|, k requires 0 <= k < |calls| => ToolUse(calls[k].id, calls[k].name, calls[k].arguments))
  }

  /** What one message contributes, before any merging. */
  function BlocksOf(m: Message): Result<seq<Block>> {
    match m.role
    case System => Ok([])
    case Tool => Ok([ToolResult(if m.toolCallId.Some? then m.toolCallId.value else "", PlainText(m.content))])
    case User => EncodeParts(m.content)
    case Assistant =>
      if IsEmpty(m.content) then Ok(ToolUses(m.calls))
      else match EncodeParts(m.content)
        case Ok(blocks) => Ok(blocks + ToolUses(m.calls))
        case Err => Err
  }

  /** After an assistant's own content come its calls, one block for each, in order. */
  lemma CallsComeLast(m: Message)
    requires m.role == Assistant && BlocksOf(m).Ok?
    ensures var blocks, own := BlocksOf(m).value, if IsEmpty(m.content) then [] else EncodeParts(m.content).value;
      && |blocks| == |own| + |m.calls| && blocks[..|own|] == own
      && forall k :: 0 <= k < |m.calls| ==>
           blocks[|own| + k] == ToolUse(m.calls[k].id, m.calls[k].name, m.calls[k].arguments)
  {
  }

  function SpeakerOf(m: Message): Speaker {
    if m.role == Assistant then ByAssistant else ByUser
  }

  function Tagged(role: Speaker, blocks: seq<Block>): seq<(Speaker, Block)> {
    seq(|blocks|, k requires 0 <= k < |blocks| => (role, blocks[k]))
  }

  /** The role-tagged blocks of the messages, in order. */
  function Said(ms: seq<Message>): seq<(Speaker, Block)> {
    if ms == [] then []
    else
      var last := ms[|ms| - 1];
      Said(ms[..|ms| - 1]) + if BlocksOf(last).Ok? then Tagged(SpeakerOf(last), BlocksOf(last).value) else []
  }

  /** The role-tagged blocks of the turns, in order. */
  function Flatten(turns: seq<Turn>): seq<(Speaker, Block)> {
    if turns == [] then []
    else Flatten(turns[..|turns| - 1]) + Tagged(turns[|turns| - 1].role, turns[|turns| - 1].content)
  }

  function SystemTexts(ms: seq<Message>): seq<string> {
    if ms == [] then []
    else
      var last := ms[|ms| - 1];
      SystemTexts(ms[..|ms| - 1]) + if last.role == System then [PlainText(last.content)] else []
  }

  /** No empty turn, no two assistant turns in a row, and two user turns in a row only where the
      second opens with a tool result. */
  ghost predicate Alternates(turns: seq<Turn>) {
    && (forall k :: 0 <= k < |turns| ==> turns[k].content != [])
    && (forall k :: 0 < k < |turns| && turns[k].role == turns[k - 1].role ==>
      turns[k].role == ByUser && turns[k].content[0].ToolResult?)
  }

  lemma FlattenSnoc(turns: seq<Turn>, t: Turn)
    ensures Flatten(turns + [t]) == Flatten(turns) + Tagged(t.role, t.content)
  {
    assert (turns + [t])[..|turns|] == turns;
  }

  lemma FlattenExtend(turns: seq<Turn>, blocks: seq<Block>)
    requires turns != []
    ensures var last := turns[|turns| - 1];
      Flatten(turns[|turns| - 1 := Turn(last.role, last.content + blocks)]) ==
        Flatten(turns) + Tagged(last.role, blocks)
  {
    hide Flatten;
    var front, last := turns[..|turns| - 1], turns[|turns| - 1];
    var t := Turn(last.role, last.content + blocks);
    FlattenSnoc(front, last);
    FlattenSnoc(front, t);
    assert front + [last] == turns && front + [t] == turns[|turns| - 1 := t];
    assert Tagged(last.role, last.content + blocks) == Tagged(last.role, last.content) + Tagged(last.role, blocks);
  }

  method EncodeContent(c: Content) returns (r: Result<seq<Block>>)
    ensures r == EncodeParts(c)
  {
    if c.Text? { return Ok([TextBlock(c.text)]); }
    var blocks := [];
    for k := 0 to |c.parts|
      invariant EncodePartList(c.parts[..k]) == Ok(blocks)
    {
      assert c.parts[..k + 1][..k] == c.parts[..k];
      var block := EncodePart(c.parts[k]);
      if block.Err? {
        PartFails(c.parts, k + 1);
        return Err;
      }
      blocks := blocks + [block.value];
    }
    assert c.parts[..|c.parts|] == c.parts;
    r := Ok(blocks);
  }

  lemma {:induction false} PartFails(parts: seq<Part>, k: nat)
    requires k <= |parts| && EncodePartList(parts[..k]).Err?
    ensures EncodePartList(parts).Err?
    decreases |parts| - k
  {
    if k < |parts| {
      assert parts[..k + 1][..k] == parts[..k];
      PartFails(parts, k + 1);
    } else {
      assert parts[..k] == parts;
    }
  }

  method EncodeMessage(m: Message) returns (r: Result<seq<Block>>)
    requires m.role != System && m.role != Tool
    ensures r == BlocksOf(m)
  {
    if m.role == Assistant {
      var blocks := [];
      if !IsEmpty(m.content) {
        var content := EncodeContent(m.content);
        if content.Err? { return Err; }
        blocks := content.value;
      }
      assert [] + ToolUses(m.calls) == ToolUses(m.calls);
      r := Ok(blocks + ToolUses(m.calls));
    } else {
      r := EncodeContent(m.content);
    }
  }

  lemma StillAlternates(turns: seq<Turn>, role: Speaker, blocks: seq<Block>)
    requires Alternates(turns) && blocks != []
    ensures turns == [] || turns[|turns| - 1].role != role ==> Alternates(turns + [Turn(role, blocks)])
    ensures turns != [] && turns[|turns| - 1].role == role ==>
      Alternates(turns[|turns| - 1 := Turn(role, turns[|turns| - 1].content + blocks)])
  {
  }

  /** Appends blocks to the last turn of the same speaker, or opens a new turn. */
  method Merge(turns: seq<Turn>, role: Speaker, blocks: seq<Block>) returns (merged: seq<Turn>)
    requires Alternates(turns) && blocks != []
    ensures Alternates(merged) && Flatten(merged) == Flatten(turns) + Tagged(role, blocks)
    ensures |turns| <= |merged| <= |turns| + 1
  {
    hide Alternates, Flatten, Tagged;
    if turns != [] && turns[|turns| - 1].role == role {
      FlattenExtend(turns, blocks);
      StillAlternates(turns, role, blocks);
      merged := turns[|turns| - 1 := Turn(role, turns[|turns| - 1].content + blocks)];
    } else {
      FlattenSnoc(turns, Turn(role, blocks));
      StillAlternates(turns, role, blocks);
      merged := turns + [Turn(role, blocks)];
    }
  }

  /** `encode_messages`: fails exactly when some message cannot be encoded; otherwise the turns
      say what the messages say, block by block and role by role. */
  method EncodeMessages(ms: seq<Message>) returns (r: Result<(Option<string>, seq<Turn>)>)
    ensures r.Err? <==> exists k :: 0 <= k < |ms| && BlocksOf(ms[k]).Err?
    ensures r.Ok? ==> Flatten(r.value.1) == Said(ms) && Alternates(r.value.1)
    ensures r.Ok? ==> r.value.0 == if SystemTexts(ms) == [] then None else Some(Join(SystemTexts(ms), "\n\n"))
  {
    hide Alternates, Flatten, BlocksOf, PlainText, Join;
    var system: seq<string>, turns: seq<Turn> := [], [];
    assert Alternates(turns) && Flatten(turns) == [] by { NothingYet(); }
    for k := 0 to |ms|
      invariant Alternates(turns) && Flatten(turns) == Said(ms[..k]) && system == SystemTexts(ms[..k])
      invariant forall j :: 0 <= j < k ==> BlocksOf(ms[j]).Ok?
    {
      var m := ms[k];
      assert ms[..k + 1][..k] == ms[..k];
      if m.role == System {
        assert BlocksOf(m) == Ok([]) && Tagged(SpeakerOf(m), []) == [] by { SystemSaysNothing(m); }
        system := system + [PlainText(m.content)];
      } else if m.role == Tool {
        var block := ToolResult(if m.toolCallId.Some? then m.toolCallId.value else "", PlainText(m.content));
        assert BlocksOf(m) == Ok([block]) by { ToolSays(m); }
        ToolOpens(turns, block);
        turns := turns + [Turn(ByUser, [block])];
      } else {
        var blocks := EncodeMessage(m);
        if blocks.Err? { return Err; }
        if blocks.value != [] {
          turns := Merge(turns, SpeakerOf(m), blocks.value);
        } else {
          assert Tagged(SpeakerOf(m), []) == [];
        }
      }
    }
    assert ms[..|ms|] == ms;
    r := Ok((if system == [] then None else Some(Join(system, "\n\n")), turns));
  }

  lemma SystemSaysNothing(m: Message)
    requires m.role == System
    ensures BlocksOf(m) == Ok([]) && Tagged(SpeakerOf(m), []) == []
  {
  }

  lemma ToolSays(m: Message)
    requires m.role == Tool
    ensures BlocksOf(m) == Ok([ToolResult(if m.toolCallId.Some? then m.toolCallId.value else "", PlainText(m.content))])
  {
  }

  lemma NothingYet()
    ensures Alternates([]) && Flatten([]) == []
  {
  }

  lemma ToolOpens(turns: seq<Turn>, block: Block)
    requires Alternates(turns) && block.ToolResult?
    ensures var more := turns + [Turn(ByUser, [block])];
      Alternates(more) && Flatten(more) == Flatten(turns) + Tagged(ByUser, [block])
  {
    FlattenSnoc(turns, Turn(ByUser, [block]));
  }
}
