/** However a Messages reply is split into deltas and chunks, streaming it gives the plain reply. */
module AnthropicReplay {
  import opened Wrappers
  import opened Json
  import opened AnthropicStream
  import T = Text
  import U = Utf8

  // ---------------------------------------------------------------- chunks do not matter

  lemma {:induction false} NewlineAppend(a: string, b: string)
    ensures Newline(a) < |a| ==> Newline(a + b) == Newline(a)
  {
    var k := Newline(a);
    assert forall j :: 0 <= j < |a| ==> (a + b)[j] == a[j];
    if k < |a| { assert (a + b)[k] == '\n'; }
  }

  /** One step of `Drain`. */
  lemma DrainOne(codec: Codec, s: State, buffer: string)
    ensures var k := Newline(buffer);
      if k == |buffer| then Drain(codec, s, buffer) == Ok((s, buffer))
      else
        var next := OnLine(codec, s, buffer[..k]);
        if next.Ok? then Drain(codec, s, buffer) == Drain(codec, next.value, buffer[k + 1..])
        else Drain(codec, s, buffer) == Err(next.error)
  {
    hide OnLine, Newline;
  }

  lemma {:induction false} DrainAppend(codec: Codec, s: State, a: string, b: string)
    ensures Drain(codec, s, a + b) ==
      match Drain(codec, s, a) case Ok(r) => Drain(codec, r.0, r.1 + b) case Err(e) => Err(e)
    decreases |a|
  {
    hide OnLine, Newline, Drain;
    var k := Newline(a);
    DrainOne(codec, s, a);
    if k < |a| {
      NewlineAppend(a, b);
      DrainOne(codec, s, a + b);
      assert (a + b)[..k] == a[..k] && (a + b)[k + 1..] == a[k + 1..] + b;
      var next := OnLine(codec, s, a[..k]);
      if next.Ok? { DrainAppend(codec, next.value, a[k + 1..], b); }
    }
  }

  /** The text that arrives, decoded chunk by chunk, before the stream ends or breaks off. */
  function Received(chunks: seq<Chunk>): (string, Option<Error>) {
    if chunks == [] then ("", None)
    else match chunks[0]
      case Cancel => ("", Some(Cancelled))
      case Broken => ("", Some(NetworkError))
      case Data(bytes) => (U.Lossy(bytes) + Received(chunks[1..]).0, Received(chunks[1..]).1)
  }

  lemma {:induction false} ChunksAreDrained(codec: Codec, s: State, buffer: string, chunks: seq<Chunk>)
    requires Newline(buffer) == |buffer|
    ensures OnChunks(codec, s, buffer, chunks) ==
      match Drain(codec, s, buffer + Received(chunks).0)
      case Ok(r) => if Received(chunks).1.Some? then Err(Received(chunks).1.value) else Ok(r)
      case Err(e) => Err(e)
    decreases |chunks|
  {
    hide U.Lossy, Drain, Newline, OnLine;
    if chunks == [] || !chunks[0].Data? {
      assert buffer + "" == buffer;
      DrainOne(codec, s, buffer);
    } else {
      var text, rest := U.Lossy(chunks[0].bytes), Received(chunks[1..]).0;
      var first := Drain(codec, s, buffer + text);
      DrainAppend(codec, s, buffer + text, rest);
      assert buffer + (text + rest) == buffer + text + rest;
      if first.Ok? {
        NothingWaits(codec, s, buffer + text);
        ChunksAreDrained(codec, first.value.0, first.value.1, chunks[1..]);
      }
    }
  }

  lemma {:induction false} NothingWaits(codec: Codec, s: State, buffer: string)
    ensures var r := Drain(codec, s, buffer); r.Ok? ==> Newline(r.value.1) == |r.value.1|
    decreases |buffer|
  {
    var k := Newline(buffer);
    if k < |buffer| {
      var next := OnLine(codec, s, buffer[..k]);
      if next.Ok? { NothingWaits(codec, next.value, buffer[k + 1..]); }
    }
  }

  /** Streams that carry the same text and break off in the same way, or not at all, give the same
      result, however they are split into chunks. */
  lemma ChunkingDoesNotMatter(codec: Codec, chunks: seq<Chunk>, others: seq<Chunk>)
    requires Received(chunks) == Received(others)
    ensures Stream(codec, chunks) == Stream(codec, others)
  {
    ChunksAreDrained(codec, START, "", chunks);
    ChunksAreDrained(codec, START, "", others);
  }

  function AsData(chunks: seq<seq<U.byte>>): seq<Chunk> {
    seq(|chunks|, k requires 0 <= k < |chunks| => Data(chunks[k]))
  }

  lemma {:induction false} DataIsReceived(chunks: seq<seq<U.byte>>)
    ensures Received(AsData(chunks)) == (U.LossyChunks(chunks), None)
  {
    hide U.Lossy;
    if chunks != [] {
      assert AsData(chunks)[1..] == AsData(chunks[1..]);
      DataIsReceived(chunks[1..]);
    }
  }

  /** A text sent in chunks of bytes is received as it was exactly when no chunk ends inside a
      character. */
  lemma ReceivedIff(text: string, chunks: seq<seq<U.byte>>)
    requires U.Join(chunks) == U.Encode(text)
    ensures Received(AsData(chunks)) == (text, None) <==> forall k :: 0 <= k < |chunks| ==> U.Whole(chunks[k])
  {
    U.ChunksDecodeIff(text, chunks);
    DataIsReceived(chunks);
  }

  // ---------------------------------------------------------------- lines and events

  /** A line of the stream: one that changes nothing, or an event on a `data:` line with white
      space before the line, before the payload and after it, such as a carriage return. */
  datatype Item = Noise(line: string) | Event(lead: string, pre: string, value: Json, post: string)

  function Line(codec: Codec, item: Item): string {
    match item
    case Noise(line) => line
    case Event(lead, pre, v, post) => lead + ("data:" + (pre + codec.print_(v)) + post)
  }

  function Render(codec: Codec, items: seq<Item>): string {
    if items == [] then "" else Line(codec, items[0]) + "\n" + Render(codec, items[1..])
  }

  /** The printer writes one trimmed line, which the parser reads back. */
  ghost predicate Prints(codec: Codec, v: Json) {
    var text := codec.print_(v);
    && codec.parse(text) == Some(v) && '\n' !in text
    && text != "" && !T.IsSpace(text[0]) && !T.IsSpace(text[|text| - 1])
  }

  /** White space within a line. */
  predicate Gap(s: string) {
    T.Blank(s) && '\n' !in s
  }

  /** Comments, event names, blank lines, pings and block stops leave every state alone. */
  ghost predicate Harmless(codec: Codec, item: Item) {
    match item
    case Noise(line) => '\n' !in line && forall s :: OnLine(codec, s, line) == Ok(s)
    case Event(lead, pre, v, post) => Prints(codec, v) && Gap(lead) && Gap(pre) && Gap(post)
  }

  function EventsOf(items: seq<Item>): seq<Json> {
    if items == [] then []
    else if items[0].Event? then [items[0].value] + EventsOf(items[1..])
    else EventsOf(items[1..])
  }

  function OnEvents(s: State, events: seq<Json>): Result<State>
    decreases |events|
  {
    if events == [] then Ok(s)
    else match OnEvent(s, events[0])
      case Ok(t) => OnEvents(t, events[1..])
      case Err(e) => Err(e)
  }

  lemma {:induction false} TrimGaps(before: string, s: string, after: string)
    requires T.Blank(before) && T.Blank(after) && s != "" && !T.IsSpace(s[0]) && !T.IsSpace(s[|s| - 1])
    ensures T.Trim(before + s + after) == s
  {
    StartGap(before, s + after);
    assert before + (s + after) == before + s + after;
    EndGap(s, after);
  }

  lemma {:induction false} StartGap(before: string, s: string)
    requires T.Blank(before) && s != "" && !T.IsSpace(s[0])
    ensures T.TrimStart(before + s) == s
  {
    if before == "" {
      assert before + s == s;
    } else {
      assert (before + s)[1..] == before[1..] + s;
      StartGap(before[1..], s);
    }
  }

  lemma {:induction false} EndGap(s: string, after: string)
    requires T.Blank(after) && s != "" && !T.IsSpace(s[|s| - 1])
    ensures T.TrimEnd(s + after) == s
  {
    if after == "" {
      assert s + after == s;
    } else {
      assert (s + after)[..|s + after| - 1] == s + after[..|after| - 1];
      EndGap(s, after[..|after| - 1]);
    }
  }

  lemma DataLine(codec: Codec, s: State, item: Item)
    requires item.Event? && Harmless(codec, item)
    ensures OnLine(codec, s, Line(codec, item)) == OnEvent(s, item.value) && '\n' !in Line(codec, item)
  {
    var text := codec.print_(item.value);
    var kept := "data:" + (item.pre + text);
    assert kept[0] == 'd' && kept[|kept| - 1] == text[|text| - 1];
    TrimGaps(item.lead, kept, item.post);
    assert item.lead + (kept + item.post) == item.lead + kept + item.post;
    assert kept[..5] == "data:" && kept[5..] == item.pre + text;
    TrimGaps(item.pre, text, "");
    assert item.pre + text + "" == item.pre + text;
  }

  /** Comments, event names and blank lines are harmless, and so are events that change no state,
      such as pings and block stops. */
  lemma SilentLinesAreHarmless(codec: Codec, line: string, item: Item)
    ensures '\n' !in line && DataOf(line).None? ==> Harmless(codec, Noise(line))
    ensures item.Event? && Harmless(codec, item) && (forall s :: OnEvent(s, item.value) == Ok(s)) ==>
      Harmless(codec, Noise(Line(codec, item)))
  {
    if item.Event? && Harmless(codec, item) {
      forall s ensures OnLine(codec, s, Line(codec, item)) == OnEvent(s, item.value) { DataLine(codec, s, item); }
      DataLine(codec, START, item);
    }
  }

  lemma FirstLine(line: string, rest: string)
    requires '\n' !in line
    ensures var text := line + "\n" + rest;
      Newline(text) == |line| < |text| && text[..|line|] == line && text[|line| + 1..] == rest
  {
    var text := line + "\n" + rest;
    assert text[|line|] == '\n';
    assert forall k :: 0 <= k < |line| ==> text[k] == line[k] && line[k] in line;
  }

  lemma {:induction false} RenderedIsRead(codec: Codec, s: State, items: seq<Item>)
    requires forall k :: 0 <= k < |items| ==> Harmless(codec, items[k])
    ensures Drain(codec, s, Render(codec, items)) ==
      match OnEvents(s, EventsOf(items)) case Ok(t) => Ok((t, "")) case Err(e) => Err(e)
    decreases |items|
  {
    if items != [] {
      var line, rest := Line(codec, items[0]), Render(codec, items[1..]);
      assert Harmless(codec, items[0]);
      if items[0].Event? { DataLine(codec, s, items[0]); }
      FirstLine(line, rest);
      var next := OnLine(codec, s, line);
      if next.Ok? { RenderedIsRead(codec, next.value, items[1..]); }
    }
  }

  // ---------------------------------------------------------------- a message and its events

  /** A content block, and the parts it is streamed in. */
  datatype Block =
    | TextBlock(parts: seq<string>)
    | ThinkingBlock(parts: seq<string>)
    | ToolBlock(id: string, name: string, input: Json, parts: seq<string>)

  /** The parts of a tool block are a text of its input, or blank for the empty input. */
  ghost predicate Streamable(codec: Codec, b: Block) {
    b.ToolBlock? ==>
      var text := T.Concat(b.parts);
      if T.Blank(text) then b.input == EMPTY else codec.parse(text) == Some(b.input)
  }

  function Plain(b: Block): Json {
    match b
    case TextBlock(parts) => Obj(map["type" := Str("text"), "text" := Str(T.Concat(parts))])
    case ThinkingBlock(parts) => Obj(map["type" := Str("thinking"), "thinking" := Str(T.Concat(parts))])
    case ToolBlock(id, name, input, _) =>
      Obj(map["type" := Str("tool_use"), "id" := Str(id), "name" := Str(name), "input" := input])
  }

  /** The block as it is announced, before any part. */
  function Announced(b: Block): Json {
    match b
    case TextBlock(_) => Plain(TextBlock([]))
    case ThinkingBlock(_) => Plain(ThinkingBlock([]))
    case ToolBlock(id, name, _, _) => Plain(ToolBlock(id, name, EMPTY, []))
  }

  function Delta(b: Block, part: string): Json {
    match b
    case TextBlock(_) => Obj(map["type" := Str("text_delta"), "text" := Str(part)])
    case ThinkingBlock(_) => Obj(map["type" := Str("thinking_delta"), "thinking" := Str(part)])
    case ToolBlock(_, _, _, _) => Obj(map["type" := Str("input_json_delta"), "partial_json" := Str(part)])
  }

  function StartEvent(k: nat, b: Block): Json {
    Obj(map["type" := Str("content_block_start"), "index" := Num(PosInt(k)), "content_block" := Announced(b)])
  }

  function DeltaEvent(k: nat, b: Block, part: string): Json {
    Obj(map["type" := Str("content_block_delta"), "index" := Num(PosInt(k)), "delta" := Delta(b, part)])
  }

  function DeltaEvents(k: nat, b: Block, parts: seq<string>): seq<Json> {
    if parts == [] then [] else [DeltaEvent(k, b, parts[0])] + DeltaEvents(k, b, parts[1..])
  }

  function BlockEvents(k: nat, b: Block): seq<Json> {
    [StartEvent(k, b)] + DeltaEvents(k, b, b.parts)
  }

  /** The events of the blocks from the `k`th on. */
  function BlocksEvents(k: nat, blocks: seq<Block>): seq<Json>
    decreases |blocks|
  {
    if blocks == [] then [] else BlockEvents(k, blocks[0]) + BlocksEvents(k + 1, blocks[1..])
  }

  // ---------------------------------------------------------------- one event

  lemma StartIs(s: State, k: nat, b: Block)
    ensures OnEvent(s, StartEvent(k, b)) == Ok(if b.ToolBlock? then s.(calls := Put(s.calls, k, Announced(b))) else s)
  {
    var v := StartEvent(k, b);
    assert |"content_block_start"| == 19 && |"message_start"| == 13;
    assert AsStr(Field(v, "type")) == Some("content_block_start");
    assert Field(v, "content_block") == Some(Announced(b)) && AsU64(Field(v, "index")) == Some(k);
    assert AsStr(Field(Announced(b), "type")) == Some("tool_use") <==> b.ToolBlock? by {
      assert "thinking"[1] == 'h' && "tool_use"[1] == 'o' && |"text"| == 4 && |"tool_use"| == 8;
    }
  }

  lemma DeltaIs(s: State, k: nat, b: Block, part: string)
    ensures OnEvent(s, DeltaEvent(k, b, part)) == Ok(
      match b
      case TextBlock(_) => s.(text := s.text + part)
      case ThinkingBlock(_) => s.(reasoning := s.reasoning + part)
      case ToolBlock(_, _, _, _) => s.(calls := AddPartial(s.calls, k, part)))
  {
    var v := DeltaEvent(k, b, part);
    assert "content_block_delta"[14] == 'd' && "content_block_start"[14] == 's' && |"message_start"| == 13;
    assert AsStr(Field(v, "type")) == Some("content_block_delta");
    assert Field(v, "delta") == Some(Delta(b, part)) && AsU64(Field(v, "index")) == Some(k);
    assert |"text_delta"| == 10 && |"thinking_delta"| == 14 && |"input_json_delta"| == 16;
  }

  lemma Onwards(s: State, event: Json, events: seq<Json>)
    ensures OnEvents(s, [event] + events) ==
      if OnEvent(s, event).Ok? then OnEvents(OnEvent(s, event).value, events) else OnEvent(s, event)
  {
    assert ([event] + events)[1..] == events;
  }

  // ---------------------------------------------------------------- one block

  ghost predicate Under(calls: Calls, k: nat) {
    forall j :: 0 <= j < |calls| ==> calls[j].0 < k
  }

  lemma {:induction false} PutLast(front: Calls, k: nat, v: Json)
    requires Under(front, k)
    ensures Put(front, k, v) == front + [(k, v)]
    ensures forall w :: Put(front + [(k, w)], k, v) == front + [(k, v)] && Find(front + [(k, w)], k) == Some(w)
  {
    if front != [] {
      PutLast(front[1..], k, v);
      forall w ensures Put(front + [(k, w)], k, v) == front + [(k, v)] && Find(front + [(k, w)], k) == Some(w) {
        assert (front + [(k, w)])[1..] == front[1..] + [(k, w)];
      }
    }
  }

  function Partial(entry: Json): string {
    Or(AsStr(Field(entry, "_partial")), "")
  }

  function WithParts(entry: Json, parts: seq<string>): Json {
    if parts == [] then entry else Set(entry, "_partial", Str(Partial(entry) + T.Concat(parts)))
  }

  lemma WithOnePart(entry: Json, parts: seq<string>)
    requires entry.Obj? && parts != []
    ensures WithParts(WithParts(entry, [parts[0]]), parts[1..]) == WithParts(entry, parts)
  {
    var p := Partial(entry);
    assert T.Concat([parts[0]]) == parts[0] by { assert [parts[0]][1..] == [] && parts[0] + "" == parts[0]; }
    assert p + parts[0] + T.Concat(parts[1..]) == p + (parts[0] + T.Concat(parts[1..]));
    assert Partial(WithParts(entry, [parts[0]])) == p + parts[0];
    if parts[1..] == [] {
      assert p + (parts[0] + "") == p + parts[0];
    } else {
      var f := entry.fields;
      assert f["_partial" := Str(p + parts[0])]["_partial" := Str(p + T.Concat(parts))] ==
        f["_partial" := Str(p + T.Concat(parts))];
    }
  }

  lemma {:induction false} ToolParts(s: State, k: nat, b: Block, parts: seq<string>, front: Calls, entry: Json,
      rest: seq<Json>)
    requires b.ToolBlock? && Under(front, k) && entry.Obj? && s.calls == front + [(k, entry)]
    ensures OnEvents(s, DeltaEvents(k, b, parts) + rest) ==
      OnEvents(s.(calls := front + [(k, WithParts(entry, parts))]), rest)
    decreases |parts|
  {
    hide OnEvent, OnEvents, DeltaEvent;
    if parts == [] {
      assert [] + rest == rest;
    } else {
      var part := parts[0];
      var tail := DeltaEvents(k, b, parts[1..]) + rest;
      assert DeltaEvents(k, b, parts) + rest == [DeltaEvent(k, b, part)] + tail;
      DeltaIs(s, k, b, part);
      Onwards(s, DeltaEvent(k, b, part), tail);
      var entry1 := WithParts(entry, [part]);
      assert T.Concat([part]) == part by { assert [part][1..] == [] && part + "" == part; }
      PutLast(front, k, entry1);
      WithOnePart(entry, parts);
      ToolParts(s.(calls := front + [(k, entry1)]), k, b, parts[1..], front, entry1, rest);
    }
  }

  function WithProse(s: State, b: Block, more: string): State {
    if b.TextBlock? then s.(text := s.text + more) else s.(reasoning := s.reasoning + more)
  }

  lemma ProseAdds(s: State, b: Block, x: string, y: string)
    ensures WithProse(WithProse(s, b, x), b, y) == WithProse(s, b, x + y)
  {
    assert s.text + x + y == s.text + (x + y) && s.reasoning + x + y == s.reasoning + (x + y);
  }

  lemma {:induction false} ProseParts(s: State, k: nat, b: Block, parts: seq<string>, rest: seq<Json>)
    requires !b.ToolBlock?
    ensures OnEvents(s, DeltaEvents(k, b, parts) + rest) == OnEvents(WithProse(s, b, T.Concat(parts)), rest)
    decreases |parts|
  {
    hide OnEvent, OnEvents, DeltaEvent;
    if parts == [] {
      assert [] + rest == rest && WithProse(s, b, "") == s by {
        assert s.text + "" == s.text && s.reasoning + "" == s.reasoning;
      }
    } else {
      var part := parts[0];
      var tail := DeltaEvents(k, b, parts[1..]) + rest;
      assert DeltaEvents(k, b, parts) + rest == [DeltaEvent(k, b, part)] + tail;
      DeltaIs(s, k, b, part);
      Onwards(s, DeltaEvent(k, b, part), tail);
      ProseParts(WithProse(s, b, part), k, b, parts[1..], rest);
      ProseAdds(s, b, part, T.Concat(parts[1..]));
    }
  }

  /** The stream's state after the first `k` blocks, against the plain parse of them. */
  ghost predicate Matches(codec: Codec, s: State, k: nat, p: Parsed) {
    s.text == p.text && s.reasoning == p.reasoning && Under(s.calls, k) && CallsOf(codec, s.calls) == p.calls
  }

  lemma ToolIs(codec: Codec, b: Block)
    requires b.ToolBlock? && Streamable(codec, b)
    ensures CallOf(codec, WithParts(Announced(b), b.parts)) == [ToolCall(b.id, b.name, b.input)]
  {
    var entry, text := Announced(b), T.Concat(b.parts);
    var v := WithParts(entry, b.parts);
    assert |"_partial"| == 8 && |"type"| == 4 && |"id"| == 2 && |"name"| == 4 && |"input"| == 5 && "type"[0] == 't' &&
      "name"[0] == 'n';
    assert AsStr(Field(v, "name")) == Some(b.name) && AsStr(Field(v, "id")) == Some(b.id) &&
      Field(v, "input") == Some(EMPTY);
    assert Field(entry, "_partial") == None;
    if b.parts == [] {
      assert T.Blank(text);
    } else {
      assert "" + text == text;
      assert AsStr(Field(v, "_partial")) == Some(text);
    }
  }

  lemma PlainIs(p: Parsed, b: Block)
    ensures ParseBlock(p, Plain(b)) ==
      match b
      case TextBlock(parts) => p.(text := p.text + T.Concat(parts))
      case ThinkingBlock(parts) => p.(reasoning := p.reasoning + T.Concat(parts))
      case ToolBlock(id, name, input, _) => p.(calls := p.calls + [ToolCall(id, name, input)])
  {
  }

  lemma BlockStep(codec: Codec, s: State, k: nat, b: Block, p: Parsed, rest: seq<Json>) returns (t: State)
    requires Matches(codec, s, k, p) && Streamable(codec, b)
    ensures OnEvents(s, BlockEvents(k, b) + rest) == OnEvents(t, rest)
    ensures Matches(codec, t, k + 1, ParseBlock(p, Plain(b))) &&
      t == s.(text := t.text, reasoning := t.reasoning, calls := t.calls)
  {
    hide OnEvent, OnEvents, ParseBlock, Plain, CallOf, WithParts, Put;
    var tail := DeltaEvents(k, b, b.parts) + rest;
    assert BlockEvents(k, b) + rest == [StartEvent(k, b)] + tail;
    StartIs(s, k, b);
    Onwards(s, StartEvent(k, b), tail);
    PlainIs(p, b);
    if b.ToolBlock? {
      var front, entry := s.calls, Announced(b);
      assert entry.Obj? by { AnnouncedIsObject(b); }
      PutLast(front, k, entry);
      var s1 := s.(calls := front + [(k, entry)]);
      ToolParts(s1, k, b, b.parts, front, entry, rest);
      var last := (k, WithParts(entry, b.parts));
      t := s1.(calls := front + [last]);
      ToolIs(codec, b);
      assert t.calls[..|t.calls| - 1] == front;
    } else {
      ProseParts(s, k, b, b.parts, rest);
      t := WithProse(s, b, T.Concat(b.parts));
    }
  }

  lemma AnnouncedIsObject(b: Block)
    ensures Announced(b).Obj?
  {
  }

  // ---------------------------------------------------------------- the whole message

  function Plains(blocks: seq<Block>): seq<Json> {
    seq(|blocks|, k requires 0 <= k < |blocks| => Plain(blocks[k]))
  }

  lemma {:induction false} ParseFront(p: Parsed, first: Json, rest: seq<Json>)
    ensures ParseBlocks(p, [first] + rest) == ParseBlocks(ParseBlock(p, first), rest)
  {
    if rest == [] {
      assert ([first] + rest)[..0] == [];
    } else {
      assert ([first] + rest)[..|rest|] == [first] + rest[..|rest| - 1];
      ParseFront(p, first, rest[..|rest| - 1]);
    }
  }

  lemma {:induction false} BlocksStep(codec: Codec, s: State, k: nat, blocks: seq<Block>, p: Parsed, rest: seq<Json>)
      returns (t: State)
    requires Matches(codec, s, k, p) && forall j :: 0 <= j < |blocks| ==> Streamable(codec, blocks[j])
    ensures OnEvents(s, BlocksEvents(k, blocks) + rest) == OnEvents(t, rest)
    ensures Matches(codec, t, k + |blocks|, ParseBlocks(p, Plains(blocks))) &&
      t == s.(text := t.text, reasoning := t.reasoning, calls := t.calls)
    decreases |blocks|
  {
    hide OnEvents, Matches, ParseBlock, Plain, BlockEvents, Streamable;
    if blocks == [] {
      assert BlocksEvents(k, blocks) + rest == rest && Plains(blocks) == [];
      t := s;
    } else {
      var tail := BlocksEvents(k + 1, blocks[1..]) + rest;
      assert BlocksEvents(k, blocks) + rest == BlockEvents(k, blocks[0]) + tail;
      var s1 := BlockStep(codec, s, k, blocks[0], p, tail);
      t := BlocksStep(codec, s1, k + 1, blocks[1..], ParseBlock(p, Plain(blocks[0])), rest);
      assert Plains(blocks) == [Plain(blocks[0])] + Plains(blocks[1..]);
      ParseFront(p, Plain(blocks[0]), Plains(blocks[1..]));
    }
  }

  /** What surrounds the blocks; `early` is the output count announced at the start. */
  datatype Frame = Frame(stop: Option<string>, input: nat, early: nat, output: nat)

  function StrOrNull(s: Option<string>): Json {
    if s.Some? then Str(s.value) else Null
  }

  function UsageOf(input: nat, output: nat): Json {
    Obj(map["input_tokens" := Num(PosInt(input)), "output_tokens" := Num(PosInt(output))])
  }

  /** The message as the plain endpoint returns it. */
  function MessageOf(blocks: seq<Block>, frame: Frame): Json {
    Obj(map["content" := Arr(Plains(blocks)), "stop_reason" := StrOrNull(frame.stop),
      "usage" := UsageOf(frame.input, frame.output)])
  }

  function Opening(frame: Frame): Json {
    Obj(map["type" := Str("message_start"), "message" := Obj(map["usage" := UsageOf(frame.input, frame.early)])])
  }

  function Closing(frame: Frame): Json {
    Obj(map["type" := Str("message_delta"), "delta" := Obj(map["stop_reason" := StrOrNull(frame.stop)]),
            "usage" := Obj(map["output_tokens" := Num(PosInt(frame.output))])])
  }

  const STOP := Obj(map["type" := Str("message_stop")])

  /** The events the streaming endpoint sends for it. */
  function Events(blocks: seq<Block>, frame: Frame): seq<Json> {
    [Opening(frame)] + (BlocksEvents(0, blocks) + [Closing(frame), STOP])
  }

  lemma OpeningIs(s: State, frame: Frame)
    ensures OnEvent(s, Opening(frame)) == Ok(s.(usage := Usage(frame.input, frame.early, frame.input + frame.early)))
  {
  }

  lemma ClosingIs(s: State, frame: Frame)
    requires s.finish.None?
    ensures OnEvent(s, Closing(frame)) ==
      Ok(s.(finish := frame.stop, usage := Usage(s.usage.prompt, frame.output, s.usage.prompt + frame.output)))
  {
    var v := Closing(frame);
    assert |"type"| == 4 && |"delta"| == 5 && |"usage"| == 5 && "delta"[0] == 'd' && "usage"[0] == 'u';
    assert |"message_delta"| == 13 && |"message_start"| == 13 && "message_delta"[8] == 'd' && "message_start"[8] == 's';
    assert |"content_block_start"| == 19 && |"content_block_delta"| == 19;
    assert AsStr(Field(v, "type")) == Some("message_delta");
    assert Pointer(v, "delta", "stop_reason") == Some(StrOrNull(frame.stop));
    assert AsU64(Field(Field(v, "usage").value, "output_tokens")) == Some(frame.output);
  }

  lemma StopIs(s: State)
    ensures OnEvent(s, STOP) == Ok(s.(stopped := true))
  {
  }

  lemma EventsGiveMessage(codec: Codec, blocks: seq<Block>, frame: Frame) returns (t: State)
    requires forall j :: 0 <= j < |blocks| ==> Streamable(codec, blocks[j])
    ensures OnEvents(START, Events(blocks, frame)) == Ok(t)
    ensures Finish(codec, t) == Ok(ParseMessage(MessageOf(blocks, frame)))
  {
    hide OnEvent, ParseBlocks, BlocksEvents, Opening, Closing, UsageOf;
    var tail := [Closing(frame), STOP];
    OpeningIs(START, frame);
    Onwards(START, Opening(frame), BlocksEvents(0, blocks) + tail);
    var s := START.(usage := Usage(frame.input, frame.early, frame.input + frame.early));
    var u := BlocksStep(codec, s, 0, blocks, Parsed("", "", []), tail);
    ClosingIs(u, frame);
    assert tail == [Closing(frame)] + [STOP] && [STOP] == [STOP] + [];
    Onwards(u, Closing(frame), [STOP]);
    var c := u.(finish := frame.stop, usage := Usage(u.usage.prompt, frame.output, u.usage.prompt + frame.output));
    StopIs(c);
    Onwards(c, STOP, []);
    t := c.(stopped := true);
    PlainMessageIs(blocks, frame);
  }

  lemma PlainMessageIs(blocks: seq<Block>, frame: Frame)
    ensures var p := ParseBlocks(Parsed("", "", []), Plains(blocks));
      ParseMessage(MessageOf(blocks, frame)) ==
        Response(p.text, p.calls, frame.stop, Usage(frame.input, frame.output, frame.input + frame.output),
          Reasoning(p.reasoning))
  {
  }

  /** For every message, every split of its blocks into parts, every choice of harmless lines and
      white space in between and every way to receive the text in chunks, streaming gives exactly
      what parsing the plain message gives. */
  lemma StreamingIsPlainParsing(codec: Codec, blocks: seq<Block>, frame: Frame, items: seq<Item>, chunks: seq<Chunk>)
    requires forall j :: 0 <= j < |blocks| ==> Streamable(codec, blocks[j])
    requires forall k :: 0 <= k < |items| ==> Harmless(codec, items[k])
    requires EventsOf(items) == Events(blocks, frame) && Received(chunks) == (Render(codec, items), None)
    ensures Stream(codec, chunks) == Ok(ParseMessage(MessageOf(blocks, frame)))
  {
    hide Drain, OnEvents, Harmless, Render, Events, Finish, Received;
    ChunksAreDrained(codec, START, "", chunks);
    assert "" + Received(chunks).0 == Received(chunks).0;
    RenderedIsRead(codec, START, items);
    var t := EventsGiveMessage(codec, blocks, frame);
  }

  /** In particular when the text's bytes are sent in chunks none of which ends inside a character. */
  lemma WholeChunksArePlainParsing(codec: Codec, blocks: seq<Block>, frame: Frame, items: seq<Item>,
      chunks: seq<seq<U.byte>>)
    requires forall j :: 0 <= j < |blocks| ==> Streamable(codec, blocks[j])
    requires forall k :: 0 <= k < |items| ==> Harmless(codec, items[k])
    requires EventsOf(items) == Events(blocks, frame) && U.Join(chunks) == U.Encode(Render(codec, items))
    requires forall k :: 0 <= k < |chunks| ==> U.Whole(chunks[k])
    ensures Stream(codec, AsData(chunks)) == Ok(ParseMessage(MessageOf(blocks, frame)))
  {
    hide Stream, ParseMessage, Events, EventsOf, Streamable, Harmless, MessageOf, U.Encode, Received, Render;
    ReceivedIff(Render(codec, items), chunks);
    StreamingIsPlainParsing(codec, blocks, frame, items, AsData(chunks));
  }
}
