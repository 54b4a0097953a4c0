/** Anthropic Messages: the plain reply parsed at once, and the streamed one event by event. */
module AnthropicStream {
  import opened Wrappers
  import opened Json
  import T = Text
  import U = Utf8

  /** `serde_json` as a parser and a printer of text. */
  datatype Codec = Codec(parse: string -> Option<Json>, print_: Json -> string)

  datatype ToolCall = ToolCall(id: string, name: string, arguments: Json)

  datatype Usage = Usage(prompt: nat, completion: nat, total: nat)

  datatype Response = Response(text: string, calls: seq<ToolCall>, finish: Option<string>, usage: Usage,
      reasoning: Option<string>)

  datatype Error = InvalidResponse | Cancelled | NetworkError

  datatype Result<T> = Ok(value: T) | Err(error: Error)

  const EMPTY := Obj(map[])

  /** A JSON pointer of two keys. */
  function Pointer(v: Json, outer: string, inner: string): Option<Json> {
    if Field(v, outer).Some? then Field(Field(v, outer).value, inner) else None
  }

  function Or<X>(o: Option<X>, d: X): X {
    if o.Some? then o.value else d
  }

  function ParseUsage(raw: Json): Usage {
    var prompt, completion := Or(AsU64(Field(raw, "input_tokens")), 0), Or(AsU64(Field(raw, "output_tokens")), 0);
    Usage(prompt, completion, prompt + completion)
  }

  // ---------------------------------------------------------------- the plain reply

  datatype Parsed = Parsed(text: string, reasoning: string, calls: seq<ToolCall>)

  function ParseBlock(p: Parsed, block: Json): Parsed {
    match AsStr(Field(block, "type"))
    case None => p
    case Some(kind) =>
      if kind == "text" then p.(text := p.text + Or(AsStr(Field(block, "text")), ""))
      else if kind == "thinking" then p.(reasoning := p.reasoning + Or(AsStr(Field(block, "thinking")), ""))
      else if kind == "tool_use" then
        var id, name := Or(AsStr(Field(block, "id")), ""), Or(AsStr(Field(block, "name")), "");
        p.(calls := p.calls + [ToolCall(id, name, Or(Field(block, "input"), EMPTY))])
      else p
  }

  function ParseBlocks(p: Parsed, blocks: seq<Json>): Parsed {
    if blocks == [] then p else ParseBlock(ParseBlocks(p, blocks[..|blocks| - 1]), blocks[|blocks| - 1])
  }

  /** What a block adds to the text, or to the reasoning. */
  ghost function Piece(block: Json, kind: string): string {
    if AsStr(Field(block, "type")) == Some(kind) then Or(AsStr(Field(block, kind)), "") else ""
  }

  ghost function Pieces(blocks: seq<Json>, kind: string): string {
    if blocks == [] then "" else Piece(blocks[0], kind) + Pieces(blocks[1..], kind)
  }

  ghost predicate IsToolUse(block: Json) {
    AsStr(Field(block, "type")) == Some("tool_use")
  }

  ghost function Uses(blocks: seq<Json>): seq<Json> {
    if blocks == [] then [] else (if IsToolUse(blocks[0]) then [blocks[0]] else []) + Uses(blocks[1..])
  }

  lemma {:induction false} SnocPieces(blocks: seq<Json>, block: Json, kind: string)
    ensures Pieces(blocks + [block], kind) == Pieces(blocks, kind) + Piece(block, kind)
    ensures Uses(blocks + [block]) == Uses(blocks) + if IsToolUse(block) then [block] else []
  {
    if blocks != [] {
      assert (blocks + [block])[1..] == blocks[1..] + [block];
      SnocPieces(blocks[1..], block, kind);
    } else {
      assert (blocks + [block])[1..] == [];
    }
  }

  function Reasoning(s: string): Option<string> {
    if s == "" then None else Some(s)
  }

  /** `parse_message`. */
  function ParseMessage(v: Json): Response {
    var content := Field(v, "content");
    var blocks := if content.Some? && content.value.Arr? then content.value.items else [];
    var p := ParseBlocks(Parsed("", "", []), blocks);
    var usage := Field(v, "usage");
    var counts := if usage.Some? then ParseUsage(usage.value) else Usage(0, 0, 0);
    Response(p.text, p.calls, AsStr(Field(v, "stop_reason")), counts, Reasoning(p.reasoning))
  }

  lemma {:induction false} BlocksAreRead(blocks: seq<Json>)
    ensures var p := ParseBlocks(Parsed("", "", []), blocks);
      && p.text == Pieces(blocks, "text") && p.reasoning == Pieces(blocks, "thinking")
      && |p.calls| == |Uses(blocks)| && forall k :: 0 <= k < |p.calls| ==> Stands(p.calls[k], Uses(blocks)[k])
  {
    if blocks != [] {
      var front, last := blocks[..|blocks| - 1], blocks[|blocks| - 1];
      BlocksAreRead(front);
      SnocPieces(front, last, "text");
      SnocPieces(front, last, "thinking");
      assert front + [last] == blocks;
      assert "text"[1] != "thinking"[1] && "tool_use"[1] != "thinking"[1] && "text"[1] != "tool_use"[1];
    }
  }

  /** The call a `tool_use` block stands for. */
  ghost predicate Stands(call: ToolCall, block: Json) {
    && call.id == Or(AsStr(Field(block, "id")), "") && call.name == Or(AsStr(Field(block, "name")), "")
    && call.arguments == Or(Field(block, "input"), EMPTY)
  }

  /** The plain reply: its text and its reasoning are those of its blocks, in order, with none at all for
      no reasoning; and its calls are its `tool_use` blocks, in order. */
  lemma PlainReplyIsItsBlocks(v: Json)
    requires Field(v, "content").Some? && Field(v, "content").value.Arr?
    ensures var r, blocks := ParseMessage(v), Field(v, "content").value.items;
      && r.text == Pieces(blocks, "text")
      && (r.reasoning.None? <==> Pieces(blocks, "thinking") == "")
      && (r.reasoning.Some? ==> r.reasoning.value == Pieces(blocks, "thinking"))
      && |r.calls| == |Uses(blocks)| && forall k :: 0 <= k < |r.calls| ==> Stands(r.calls[k], Uses(blocks)[k])
  {
    BlocksAreRead(Field(v, "content").value.items);
  }

  // ---------------------------------------------------------------- the stream

  /** Tool blocks by index, in ascending order. */
  type Calls = seq<(nat, Json)>

  function Put(calls: Calls, index: nat, v: Json): Calls {
    if calls == [] || index < calls[0].0 then [(index, v)] + calls
    else if index == calls[0].0 then [(index, v)] + calls[1..]
    else [calls[0]] + Put(calls[1..], index, v)
  }

  function Find(calls: Calls, index: nat): Option<Json> {
    if calls == [] then None else if calls[0].0 == index then Some(calls[0].1) else Find(calls[1..], index)
  }

  datatype State = State(text: string, reasoning: string, calls: Calls, usage: Usage, finish: Option<string>,
      stopped: bool)

  const START := State("", "", [], Usage(0, 0, 0), None, false)

  function Set(v: Json, key: string, field: Json): Json {
    if v.Obj? then Obj(v.fields[key := field]) else v
  }

  function AddPartial(calls: Calls, index: nat, chunk: string): Calls {
    var entry := Or(Find(calls, index), Obj(map["type" := Str("tool_use")]));
    Put(calls, index, Set(entry, "_partial", Str(Or(AsStr(Field(entry, "_partial")), "") + chunk)))
  }

  function OnBlockStart(s: State, v: Json): State {
    var block := Field(v, "content_block");
    if block.Some? && AsStr(Field(block.value, "type")) == Some("tool_use")
    then s.(calls := Put(s.calls, Or(AsU64(Field(v, "index")), 0), block.value)) else s
  }

  function OnDelta(s: State, index: nat, delta: Json): State {
    var kind := AsStr(Field(delta, "type"));
    if kind == Some("text_delta") then s.(text := s.text + Or(AsStr(Field(delta, "text")), ""))
    else if kind == Some("thinking_delta") then s.(reasoning := s.reasoning + Or(AsStr(Field(delta, "thinking")), ""))
    else if kind == Some("input_json_delta") && AsStr(Field(delta, "partial_json")).Some?
    then s.(calls := AddPartial(s.calls, index, AsStr(Field(delta, "partial_json")).value))
    else s
  }

  function OnMessageDelta(s: State, v: Json): State {
    var reason, raw := AsStr(Pointer(v, "delta", "stop_reason")), Field(v, "usage");
    var s1 := if reason.Some? then s.(finish := reason) else s;
    if raw.None? then s1
    else
      var completion := Or(AsU64(Field(raw.value, "output_tokens")), s.usage.completion);
      s1.(usage := Usage(s.usage.prompt, completion, s.usage.prompt + completion))
  }

  /** One event of the stream. */
  function OnEvent(s: State, v: Json): Result<State> {
    var kind := Or(AsStr(Field(v, "type")), "");
    if kind == "message_start" then
      var raw := Pointer(v, "message", "usage");
      Ok(if raw.Some? then s.(usage := ParseUsage(raw.value)) else s)
    else if kind == "content_block_start" then Ok(OnBlockStart(s, v))
    else if kind == "content_block_delta" then
      Ok(if Field(v, "delta").Some? then OnDelta(s, Or(AsU64(Field(v, "index")), 0), Field(v, "delta").value) else s)
    else if kind == "message_delta" then Ok(OnMessageDelta(s, v))
    else if kind == "message_stop" then Ok(s.(stopped := true))
    else if kind == "error" then Err(InvalidResponse)
    else Ok(s)
  }

  /** The payload of a `data:` line. */
  function DataOf(line: string): Option<string> {
    var trimmed := T.Trim(line);
    if "data:" <= trimmed && T.Trim(trimmed[5..]) != "" then Some(T.Trim(trimmed[5..])) else None
  }

  function OnLine(codec: Codec, s: State, line: string): Result<State> {
    var data := DataOf(line);
    if data.None? then Ok(s)
    else
      var v := codec.parse(data.value);
      if v.None? then Err(InvalidResponse) else OnEvent(s, v.value)
  }

  /** Position of the first newline, or the length. */
  function Newline(s: string): (k: nat)
    ensures k <= |s| && (k < |s| ==> s[k] == '\n') && forall j :: 0 <= j < k ==> s[j] != '\n'
    decreases |s|
  {
    if s == "" || s[0] == '\n' then 0 else Newline(s[1..]) + 1
  }

  /** Works off the complete lines of the buffer; what is left waits for the next chunk. */
  function Drain(codec: Codec, s: State, buffer: string): Result<(State, string)>
    decreases |buffer|
  {
    var k := Newline(buffer);
    if k == |buffer| then Ok((s, buffer))
    else match OnLine(codec, s, buffer[..k])
      case Ok(s1) => Drain(codec, s1, buffer[k + 1..])
      case Err(e) => Err(e)
  }

  /** What each wait for the stream yields before the stream ends. */
  datatype Chunk = Data(bytes: seq<U.byte>) | Cancel | Broken

  /** Each chunk is decoded on its own. */
  function OnChunks(codec: Codec, s: State, buffer: string, chunks: seq<Chunk>): Result<(State, string)>
    decreases |chunks|
  {
    if chunks == [] then Ok((s, buffer))
    else match chunks[0]
      case Cancel => Err(Cancelled)
      case Broken => Err(NetworkError)
      case Data(bytes) =>
        match Drain(codec, s, buffer + U.Lossy(bytes))
        case Ok(r) => OnChunks(codec, r.0, r.1, chunks[1..])
        case Err(e) => Err(e)
  }

  /** A tool block as a call; one without a name is dropped. */
  function CallOf(codec: Codec, block: Json): seq<ToolCall> {
    var name, partial, input := AsStr(Field(block, "name")), AsStr(Field(block, "_partial")), Field(block, "input");
    var parsed := if partial.Some? && !T.Blank(partial.value) then codec.parse(partial.value) else None;
    var arguments :=
      if parsed.Some? then parsed.value else if input.Some? && !input.value.Null? then input.value else EMPTY;
    if name.None? then [] else [ToolCall(Or(AsStr(Field(block, "id")), ""), name.value, arguments)]
  }

  function CallsOf(codec: Codec, calls: Calls): seq<ToolCall> {
    if calls == [] then [] else CallsOf(codec, calls[..|calls| - 1]) + CallOf(codec, calls[|calls| - 1].1)
  }

  /** The end of the stream: an error unless the message was stopped. */
  function Finish(codec: Codec, s: State): Result<Response> {
    if !s.stopped then Err(InvalidResponse)
    else Ok(Response(s.text, CallsOf(codec, s.calls), s.finish, s.usage, Reasoning(s.reasoning)))
  }

  /** The streaming half of `complete`. */
  function Stream(codec: Codec, chunks: seq<Chunk>): Result<Response> {
    match OnChunks(codec, START, "", chunks)
    case Ok(r) => Finish(codec, r.0)
    case Err(e) => Err(e)
  }

  // ---------------------------------------------------------------- the loops

  method Complete(codec: Codec, chunks: seq<Chunk>) returns (r: Result<Response>)
    ensures r == Stream(codec, chunks)
  {
    var s, buffer := START, "";
    for i := 0 to |chunks|
      invariant OnChunks(codec, s, buffer, chunks[i..]) == OnChunks(codec, START, "", chunks)
    {
      assert chunks[i..][1..] == chunks[i + 1..];
      if chunks[i].Cancel? { return Err(Cancelled); }
      if chunks[i].Broken? { return Err(NetworkError); }
      buffer := buffer + U.Lossy(chunks[i].bytes);
      ghost var before, start := buffer, s;
      var k := FindNewline(buffer);
      while k < |buffer|
        invariant k == Newline(buffer)
        invariant Drain(codec, s, buffer) == Drain(codec, start, before)
        decreases |buffer|
      {
        var next := OnLine(codec, s, buffer[..k]);
        if next.Err? { return Err(next.error); }
        s, buffer := next.value, buffer[k + 1..];
        k := FindNewline(buffer);
      }
    }
    r := Finish(codec, s);
  }

  method FindNewline(s: string) returns (k: nat)
    ensures k == Newline(s)
  {
    k := 0;
    while k < |s| && s[k] != '\n'
      invariant k <= |s| && forall j :: 0 <= j < k ==> s[j] != '\n'
    {
      k := k + 1;
    }
  }
}
