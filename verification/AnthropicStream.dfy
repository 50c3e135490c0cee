/**
 Anthropic Messages turns (provider/anthropic): content blocks, their assembly from stream events
 (streamblocks.go) and the stream parser (anthropic.go, parseStream). `BlockPart` is the
 non-streaming form of a block (blocks.go), the reference for the assembler.

 A block on the wire is a JSON object; what the Go code keeps as raw bytes is kept here as the JSON
 value. No two entries of the block map share a block, so the map holds the blocks as values.
 Lengths are in bytes, one `char` each.
 */
module AnthropicBlocks {
  import opened Streams
  import opened Wrappers

  /** A decoded block: its type, its fields, and the value it was decoded from. */
  datatype Block = Block(kind: string, fields: map<string, Json>, raw: Option<Json>)

  function TextIn(fields: map<string, Json>, key: string): string {
    if key in fields && fields[key].Str? then fields[key].s else ""
  }

  function ValueIn(fields: map<string, Json>, key: string): Json {
    if key in fields then fields[key] else Null
  }

  function ListIn(fields: map<string, Json>, key: string): seq<Json> {
    if key in fields && fields[key].Array? then fields[key].items else []
  }

  const STRING_FIELDS := {"type", "text", "id", "name", "thinking", "signature", "data", "tool_use_id"}

  predicate IsWellTyped(fields: map<string, Json>) {
    && (forall key | key in STRING_FIELDS && key in fields :: fields[key].Str? || fields[key].Null?)
    && ("citations" in fields ==> fields["citations"].Array? || fields["citations"].Null?)
  }

  /** Decoding a block fails on a value that is no object, or whose fields have the wrong types. */
  function BlockOf(content: Option<Json>): Option<Block> {
    match content
    case None => Some(Block("", map[], None))
    case Some(Null) => Some(Block("", map[], content))
    case Some(Object(fields)) =>
      if IsWellTyped(fields) then Some(Block(TextIn(fields, "type"), fields, content)) else None
    case _ => None
  }

  datatype Part =
    | TextPart(text: string, citations: seq<Json>)
    | ThinkingPart(thinking: string, signature: string, redacted: bool, provider: Option<Json>)
    | ToolUsePart(id: string, name: string, input: Input)
    | ServerToolUsePart(id: string, name: string, input: Input, provider: Option<Json>)
    | ServerToolResultPart(blockType: string, resultId: string, content: Json, provider: Option<Json>)
    | ProviderPart(blockType: string, provider: Option<Json>)

  /** What citationOf keeps: an object, or null, which decodes to the zero citation. */
  predicate IsCitation(raw: Json) {
    raw.Object? || raw.Null?
  }

  function Citations(raws: seq<Json>): seq<Json> {
    if raws == [] then []
    else
      var before, raw := Citations(raws[..|raws| - 1]), raws[|raws| - 1];
      if IsCitation(raw) then before + [raw] else before
  }

  const RESULT_SUFFIX := "_tool_result"

  predicate IsServerToolResult(kind: string) {
    && kind != "tool_result"
    && |kind| >= |RESULT_SUFFIX| && kind[|kind| - |RESULT_SUFFIX|..] == RESULT_SUFFIX
  }

  function BlockPart(b: Block): Part {
    var f := b.fields;
    if b.kind == "text" then TextPart(TextIn(f, "text"), Citations(ListIn(f, "citations")))
    else if b.kind == "thinking" then ThinkingPart(TextIn(f, "thinking"), TextIn(f, "signature"), false, b.raw)
    else if b.kind == "redacted_thinking" then ThinkingPart(TextIn(f, "data"), "", true, b.raw)
    else if b.kind == "tool_use" then ToolUsePart(TextIn(f, "id"), TextIn(f, "name"), Parsed(ValueIn(f, "input")))
    else if b.kind == "server_tool_use" then
      ServerToolUsePart(TextIn(f, "id"), TextIn(f, "name"), Parsed(ValueIn(f, "input")), b.raw)
    else if IsServerToolResult(b.kind) then
      ServerToolResultPart(b.kind, TextIn(f, "tool_use_id"), ValueIn(f, "content"), b.raw)
    else ProviderPart(b.kind, b.raw)
  }
}

module AnthropicStream {
  import opened AnthropicBlocks
  import opened Sequences
  import opened Streams
  import opened Wrappers

  // ---------------------------------------------------------------------------------------------
  // Blocks under assembly
  // ---------------------------------------------------------------------------------------------

  datatype StreamBlock = StreamBlock(
    block: Block, text: string, thinking: string, signature: string, input: string,
    citations: seq<Json>, part: Option<Part>, serverOpen: bool)

  function Opened(block: Block): StreamBlock {
    StreamBlock(block, "", "", "", "", [], None, false)
  }

  /** A block as its content_block_start leaves it: whole at once unless its content is streamed. */
  function Started(block: Block): StreamBlock {
    var b := Opened(block);
    if block.kind == "text" then b.(text := TextIn(block.fields, "text"))
    else if block.kind == "thinking" then
      b.(thinking := TextIn(block.fields, "thinking"), signature := TextIn(block.fields, "signature"))
    else if block.kind == "tool_use" then b
    else if block.kind == "server_tool_use" then b.(serverOpen := true)
    else b.(part := Some(BlockPart(block)))
  }

  /** The started block with its streamed input filled in. */
  function WithInput(raw: Option<Json>, input: Option<Json>): Option<Json> {
    match (raw, input)
    case (Some(Object(fields)), Some(v)) => Some(Object(fields["input" := v]))
    case _ => raw
  }

  /** The started block with its streamed thinking and signature filled in. */
  function WithThinking(raw: Option<Json>, thinking: string, signature: string): Option<Json> {
    match raw
    case Some(Object(fields)) => Some(Object(fields["thinking" := Str(thinking)]["signature" := Str(signature)]))
    case _ => None
  }

  function ServerPart(b: StreamBlock, decode: Decoder): Part {
    var streamed := if b.input == "" then None else decode(b.input);
    var input := match streamed case Some(v) => v case None => ValueIn(b.block.fields, "input");
    ServerToolUsePart(TextIn(b.block.fields, "id"), TextIn(b.block.fields, "name"), Parsed(input),
                      WithInput(b.block.raw, streamed))
  }

  function Finished(b: StreamBlock, decode: Decoder): StreamBlock {
    if b.serverOpen then b.(serverOpen := false, part := Some(ServerPart(b, decode))) else b
  }

  /** What the block contributes to the assembled turn. */
  function PartOf(b: StreamBlock, decode: Decoder): Option<Part> {
    var f := Finished(b, decode);
    if f.part.Some? then f.part
    else if f.block.kind == "text" then Some(TextPart(f.text, f.citations))
    else if f.block.kind == "thinking" then
      Some(ThinkingPart(f.thinking, f.signature, false, WithThinking(f.block.raw, f.thinking, f.signature)))
    else None
  }

  datatype RawBlocks = Blocks(order: seq<int>, byIndex: map<int, StreamBlock>)

  predicate IsIndexed(b: RawBlocks) {
    && (forall k | 0 <= k < |b.order| :: b.order[k] in b.byIndex)
    && (forall j, k | 0 <= j < k < |b.order| :: b.order[j] != b.order[k])
    && (forall i | i in b.byIndex :: i in b.order)
  }

  type Blocks = b: RawBlocks | IsIndexed(b) witness NO_BLOCKS

  const NO_BLOCKS := Blocks([], map[])

  function Put(b: Blocks, index: int, c: StreamBlock): (r: Blocks)
    ensures index in r.byIndex && r.byIndex[index] == c
    ensures forall i | i in b.byIndex && i != index :: i in r.byIndex && r.byIndex[i] == b.byIndex[i]
  {
    Blocks(if index in b.byIndex then b.order else b.order + [index], b.byIndex[index := c])
  }

  function Get(b: Blocks, index: int, kind: string): (r: Blocks)
    ensures index in r.byIndex
  {
    if index in b.byIndex then b else Put(b, index, Opened(Block(kind, map[], None)))
  }

  function AppendText(b: Blocks, index: int, text: string): Blocks {
    var c := Get(b, index, "text").byIndex[index];
    Put(b, index, c.(text := c.text + text))
  }

  function AppendCitation(b: Blocks, index: int, citation: Json): Blocks {
    var c := Get(b, index, "text").byIndex[index];
    Put(b, index, c.(citations := c.citations + [citation]))
  }

  function AppendThinking(b: Blocks, index: int, thinking: string): Blocks {
    var c := Get(b, index, "thinking").byIndex[index];
    Put(b, index, c.(thinking := c.thinking + thinking))
  }

  function AppendSignature(b: Blocks, index: int, signature: string): Blocks {
    var c := Get(b, index, "thinking").byIndex[index];
    Put(b, index, c.(signature := c.signature + signature))
  }

  predicate IsServerOpen(b: Blocks, index: int) {
    index in b.byIndex && b.byIndex[index].serverOpen
  }

  function AppendServerInput(b: Blocks, index: int, partial: string): Blocks
    requires IsServerOpen(b, index)
  {
    Put(b, index, b.byIndex[index].(input := b.byIndex[index].input + partial))
  }

  /** The first open server call in `order[i..]`, or -1. */
  function FirstOpen(b: Blocks, i: nat): int
    requires i <= |b.order|
    decreases |b.order| - i
  {
    if i == |b.order| then -1 else if b.byIndex[b.order[i]].serverOpen then b.order[i] else FirstOpen(b, i + 1)
  }

  function Finish(b: Blocks, index: int, decode: Decoder): Blocks {
    if IsServerOpen(b, index) then Put(b, index, Finished(b.byIndex[index], decode)) else b
  }

  function SetToolUse(b: Blocks, index: int, id: string, name: string, input: Input): Blocks {
    if index < 0 then b
    else Put(b, index, Get(b, index, "tool_use").byIndex[index].(part := Some(ToolUsePart(id, name, input))))
  }

  function PartsUpTo(b: Blocks, n: nat, decode: Decoder): seq<Part>
    requires n <= |b.order|
  {
    if n == 0 then []
    else
      match PartOf(b.byIndex[b.order[n - 1]], decode)
      case Some(p) => PartsUpTo(b, n - 1, decode) + [p]
      case None => PartsUpTo(b, n - 1, decode)
  }

  function Parts(b: Blocks, decode: Decoder): seq<Part> {
    PartsUpTo(b, |b.order|, decode)
  }

  class StreamBlocks {
    const decode: Decoder
    var order: seq<int>
    var byIndex: map<int, StreamBlock>

    ghost predicate Valid()
      reads this
    {
      IsIndexed(Blocks(order, byIndex))
    }

    ghost function View(): Blocks
      requires Valid()
      reads this
    {
      Blocks(order, byIndex)
    }

    constructor (decode: Decoder)
      ensures Valid() && View() == NO_BLOCKS && this.decode == decode
    {
      this.decode, order, byIndex := decode, [], map[];
    }

    method PutBlock(index: int, c: StreamBlock)
      requires Valid()
      modifies this
      ensures Valid() && View() == Put(old(View()), index, c)
    {
      ghost var after := Put(View(), index, c);
      if index !in byIndex {
        order := order + [index];
      }
      byIndex := byIndex[index := c];
      assert Blocks(order, byIndex) == after;
    }

    method GetBlock(index: int, kind: string) returns (c: StreamBlock)
      requires Valid()
      modifies this
      ensures Valid() && View() == Get(old(View()), index, kind) && c == View().byIndex[index]
    {
      if index !in byIndex {
        PutBlock(index, Opened(Block(kind, map[], None)));
      }
      c := byIndex[index];
    }

    /** Records a content_block_start; `whole` is the part of a block that arrived complete. */
    method Start(index: int, block: Block) returns (whole: Option<Part>)
      requires Valid()
      modifies this
      ensures Valid() && View() == Put(old(View()), index, Started(block)) && whole == Started(block).part
    {
      var c := Opened(block);
      whole := None;
      match block.kind {
        case "text" => c := c.(text := TextIn(block.fields, "text"));
        case "thinking" =>
          c := c.(thinking := TextIn(block.fields, "thinking"), signature := TextIn(block.fields, "signature"));
        case "tool_use" =>
        case "server_tool_use" => c := c.(serverOpen := true);
        case _ =>
          whole := Some(BlockPart(block));
          c := c.(part := whole);
      }
      PutBlock(index, c);
    }

    method AddText(index: int, text: string)
      requires Valid()
      modifies this
      ensures Valid() && View() == AppendText(old(View()), index, text)
    {
      var c := GetBlock(index, "text");
      PutBlock(index, c.(text := c.text + text));
    }

    method AddCitation(index: int, citation: Json)
      requires Valid()
      modifies this
      ensures Valid() && View() == AppendCitation(old(View()), index, citation)
    {
      var c := GetBlock(index, "text");
      PutBlock(index, c.(citations := c.citations + [citation]));
    }

    method AddThinking(index: int, thinking: string)
      requires Valid()
      modifies this
      ensures Valid() && View() == AppendThinking(old(View()), index, thinking)
    {
      var c := GetBlock(index, "thinking");
      PutBlock(index, c.(thinking := c.thinking + thinking));
    }

    method AddSignature(index: int, signature: string)
      requires Valid()
      modifies this
      ensures Valid() && View() == AppendSignature(old(View()), index, signature)
    {
      var c := GetBlock(index, "thinking");
      PutBlock(index, c.(signature := c.signature + signature));
    }

    /** Refuses input that would exceed `max` bytes. */
    method AddServerInput(index: int, partial: string, max: nat) returns (ok: bool)
      requires Valid() && IsServerOpen(View(), index)
      modifies this
      ensures Valid() && ok == (|old(View()).byIndex[index].input| + |partial| <= max)
      ensures View() == if ok then AppendServerInput(old(View()), index, partial) else old(View())
    {
      var c := byIndex[index];
      ok := |c.input| + |partial| <= max;
      if ok {
        PutBlock(index, c.(input := c.input + partial));
      }
    }

    method OpenServerToolUse() returns (index: int)
      requires Valid()
      ensures index == FirstOpen(View(), 0)
    {
      var i := 0;
      while i < |order|
        invariant i <= |order| && FirstOpen(View(), i) == FirstOpen(View(), 0)
      {
        if byIndex[order[i]].serverOpen {
          return order[i];
        }
        i := i + 1;
      }
      index := -1;
    }

    method FinishServerToolUse(index: int) returns (part: Option<Part>)
      requires Valid()
      modifies this
      ensures Valid() && View() == Finish(old(View()), index, decode)
      ensures part == if IsServerOpen(old(View()), index) then Some(ServerPart(old(View()).byIndex[index], decode)) else None
    {
      if index !in byIndex || !byIndex[index].serverOpen {
        return None;
      }
      var c := byIndex[index];
      part := Some(ServerPart(c, decode));
      PutBlock(index, c.(serverOpen := false, part := part));
    }

    method RecordToolUse(index: int, id: string, name: string, input: Input)
      requires Valid()
      modifies this
      ensures Valid() && View() == SetToolUse(old(View()), index, id, name, input)
    {
      if index < 0 {
        return;
      }
      var c := GetBlock(index, "tool_use");
      PutBlock(index, c.(part := Some(ToolUsePart(id, name, input))));
    }

    /** One block's part; a server call still open is closed first. */
    method CollectPart(index: int) returns (part: Option<Part>)
      requires Valid() && index in byIndex
      modifies this
      ensures Valid() && order == old(order)
      ensures byIndex == old(byIndex)[index := Finished(old(byIndex)[index], decode)]
      ensures part == PartOf(old(byIndex)[index], decode)
    {
      if byIndex[index].serverOpen {
        var _ := FinishServerToolUse(index);
      }
      var b := byIndex[index];
      part := b.part;
      if part.None? {
        match b.block.kind {
          case "text" => part := Some(TextPart(b.text, b.citations));
          case "thinking" =>
            part := Some(ThinkingPart(b.thinking, b.signature, false, WithThinking(b.block.raw, b.thinking, b.signature)));
          case _ =>
        }
      }
    }

    /** The assembled content in block order. */
    method CollectParts() returns (parts: seq<Part>)
      requires Valid()
      modifies this
      ensures Valid() && parts == Parts(old(View()), decode)
      ensures order == old(order) && byIndex.Keys == old(byIndex).Keys
      ensures forall i | i in byIndex :: byIndex[i] == Finished(old(byIndex)[i], decode)
    {
      ghost var before := View();
      parts := [];
      var i := 0;
      while i < |order|
        invariant i <= |order| && order == before.order && byIndex.Keys == before.byIndex.Keys && Valid()
        invariant parts == PartsUpTo(before, i, decode)
        invariant forall k | 0 <= k < i :: byIndex[order[k]] == Finished(before.byIndex[order[k]], decode)
        invariant forall k | i <= k < |order| :: byIndex[order[k]] == before.byIndex[order[k]]
      {
        var part := CollectPart(order[i]);
        if part.Some? {
          parts := parts + [part.value];
        }
        i := i + 1;
      }
    }
  }

  // ---------------------------------------------------------------------------------------------
  // A turn as a value
  // ---------------------------------------------------------------------------------------------

  datatype Usage = Usage(input: int, output: int, cacheWrite: int, cacheRead: int, cacheWrite1h: int)

  const NOT_REPORTED := -1

  datatype Event =
    | MessageStart(usage: Usage)
    | BlockStart(index: int, content: Option<Json>)
    | TextDelta(index: int, text: string)
    | CitationDelta(index: int, citation: Option<Json>)
    | ThinkingDelta(index: int, thinking: string)
    | SignatureDelta(index: int, signature: string)
    | InputDelta(index: int, partial: string)
    | BlockStop(index: int)
    | MessageDelta(stopReason: string, rawStopReason: string, usage: Usage)
    | ErrorEvent(message: string)
    | MalformedEvent
    | OtherEvent

  /** How the lines end: [DONE] or a clean end of the body, or a read error. */
  datatype Ending = EndOfBody | ReadError

  datatype Failure = InputTooLarge | ServerError(message: string) | BrokenRead | Truncated

  datatype Item =
    | Content(text: string)
    | Cited(citation: Json)
    | Thought(thinking: string)
    | ToolUse(id: string, name: string, input: Input)
    | ServerTool(part: Part)
    | Malformed
    | Done(stopReason: string, rawStopReason: string, usage: Usage, signature: string, parts: seq<Part>)
    | Failed(reason: Failure)
    | FailedMidTurn(reason: Failure, usage: Usage, parts: seq<Part>)

  predicate IsTerminal(i: Item) {
    i.Done? || i.Failed? || i.FailedMidTurn?
  }

  datatype OpenCall = NoCall | Call(id: string, name: string, index: int)

  datatype Turn = Turn(
    blocks: Blocks, call: OpenCall, buffer: string, usage: Usage, started: bool, signature: string,
    ended: bool, items: seq<Item>)

  const FRESH_TURN := Turn(NO_BLOCKS, NoCall, "", Usage(NOT_REPORTED, 0, 0, 0, 0), false, "", false, [])

  datatype Limits = Limits(maxToolInput: nat, decode: Decoder)

  function Give(s: Turn, item: Item): Turn {
    s.(items := s.items + [item])
  }

  function Stop(s: Turn, item: Item): Turn {
    s.(items := s.items + [item], ended := true)
  }

  function FailItem(s: Turn, reason: Failure, lim: Limits): (i: Item)
    ensures i.Failed? || i.FailedMidTurn?
  {
    if s.started then FailedMidTurn(reason, s.usage, Parts(s.blocks, lim.decode)) else Failed(reason)
  }

  function Fail(s: Turn, reason: Failure, lim: Limits): Turn {
    Stop(s, FailItem(s, reason, lim))
  }

  /** Emits the client call under assembly, whether or not its content_block_stop came. */
  function FlushCall(s: Turn, lim: Limits): (t: Turn)
    ensures t.call.NoCall? && s.items <= t.items
  {
    match s.call
    case NoCall => s
    case Call(id, name, index) =>
      var input := Decoded(lim.decode, s.buffer);
      Give(s.(blocks := SetToolUse(s.blocks, index, id, name, input), call := NoCall, buffer := ""),
           ToolUse(id, name, input))
  }

  function FlushServer(s: Turn, index: int, lim: Limits): (t: Turn)
    ensures s.items <= t.items
  {
    if IsServerOpen(s.blocks, index) then
      Give(s.(blocks := Finish(s.blocks, index, lim.decode)), ServerTool(ServerPart(s.blocks.byIndex[index], lim.decode)))
    else s
  }

  function FlushAll(s: Turn, lim: Limits): (t: Turn)
    ensures s.items <= t.items
  {
    var t := FlushCall(s, lim);
    FlushServer(t, FirstOpen(t.blocks, 0), lim)
  }

  /** A server tool's result arrives whole and is emitted with its start event. */
  function WholeItem(b: StreamBlock): seq<Item> {
    if b.part.Some? && b.part.value.ServerToolResultPart? then [ServerTool(b.part.value)] else []
  }

  function Begun(s: Turn, index: int, block: Block): (t: Turn)
    ensures s.items <= t.items
  {
    var b := Started(block);
    var t := s.(blocks := Put(s.blocks, index, b), items := s.items + WholeItem(b));
    if block.kind == "tool_use" then
      t.(call := Call(TextIn(block.fields, "id"), TextIn(block.fields, "name"), index), buffer := "")
    else t
  }

  function OnStart(s: Turn, ev: Event, lim: Limits): (t: Turn)
    requires ev.BlockStart?
    ensures s.items <= t.items
  {
    match BlockOf(ev.content)
    case None => Give(s, Malformed)
    case Some(block) => Begun(FlushAll(s, lim), ev.index, block)
  }

  function OnInput(s: Turn, ev: Event, lim: Limits): Turn
    requires ev.InputDelta?
  {
    if IsServerOpen(s.blocks, ev.index) then
      if |s.blocks.byIndex[ev.index].input| + |ev.partial| > lim.maxToolInput then Fail(s, InputTooLarge, lim)
      else s.(blocks := AppendServerInput(s.blocks, ev.index, ev.partial))
    else if |s.buffer| + |ev.partial| > lim.maxToolInput then Fail(s, InputTooLarge, lim)
    else s.(buffer := s.buffer + ev.partial)
  }

  function Override(now: int, reported: int): int {
    if reported > 0 then reported else now
  }

  /** message_delta's counts are cumulative; where it reports none, message_start's stand. */
  function FinalUsage(first: Usage, last: Usage): Usage {
    Usage(Override(first.input, last.input), last.output, Override(first.cacheWrite, last.cacheWrite),
          Override(first.cacheRead, last.cacheRead), Override(first.cacheWrite1h, last.cacheWrite1h))
  }

  function DoneItem(s: Turn, ev: Event, lim: Limits): (i: Item)
    requires ev.MessageDelta?
    ensures i.Done?
  {
    Done(ev.stopReason, ev.rawStopReason, FinalUsage(s.usage, ev.usage), s.signature, Parts(s.blocks, lim.decode))
  }

  function OnEnd(s: Turn, ev: Event, lim: Limits): (t: Turn)
    requires ev.MessageDelta?
    ensures s.items <= t.items
  {
    var t := FlushAll(s, lim);
    Stop(t, DoneItem(t, ev, lim))
  }

  function OnEvent(s: Turn, ev: Event, lim: Limits): Turn {
    if s.ended then s
    else
      match ev
      case MessageStart(usage) => s.(usage := usage, started := true)
      case BlockStart(_, _) => OnStart(s, ev, lim)
      case TextDelta(index, text) => Give(s.(blocks := AppendText(s.blocks, index, text)), Content(text))
      case CitationDelta(index, citation) =>
        if citation.Some? && IsCitation(citation.value)
        then Give(s.(blocks := AppendCitation(s.blocks, index, citation.value)), Cited(citation.value))
        else s
      case ThinkingDelta(index, thinking) => Give(s.(blocks := AppendThinking(s.blocks, index, thinking)), Thought(thinking))
      case SignatureDelta(index, signature) =>
        s.(blocks := AppendSignature(s.blocks, index, signature), signature := s.signature + signature)
      case InputDelta(_, _) => OnInput(s, ev, lim)
      case BlockStop(index) => FlushServer(FlushCall(s, lim), index, lim)
      case MessageDelta(_, _, _) => OnEnd(s, ev, lim)
      case ErrorEvent(message) => Fail(s, ServerError(message), lim)
      case MalformedEvent => Give(s, Malformed)
      case OtherEvent => s
  }

  function Run(s: Turn, events: seq<Event>, lim: Limits): Turn {
    if events == [] then s else OnEvent(Run(s, events[..|events| - 1], lim), events[|events| - 1], lim)
  }

  function Items(events: seq<Event>, ending: Ending, lim: Limits): seq<Item> {
    var s := Run(FRESH_TURN, events, lim);
    if s.ended then s.items else Fail(s, if ending.ReadError? then BrokenRead else Truncated, lim).items
  }

  // ---------------------------------------------------------------------------------------------
  // The parser
  // ---------------------------------------------------------------------------------------------

  class Parser {
    const lim: Limits
    const out: Consumer<Item>
    const blocks: StreamBlocks
    var currentToolCall: OpenCall
    var inputBuffer: string
    var usage: Usage
    var started: bool
    var thinkingSignature: string
    ghost var items: seq<Item>

    ghost predicate Valid()
      reads this, blocks, out
    {
      blocks.Valid() && blocks.decode == lim.decode && out.Valid()
    }

    ghost function View(): Turn
      requires Valid()
      reads this, blocks, out
    {
      Turn(blocks.View(), currentToolCall, inputBuffer, usage, started, thinkingSignature, false, items)
    }

    ghost predicate IsLive()
      reads this, blocks, out
    {
      Valid() && !out.stopped && out.received == items
    }

    /** The consumer stopped, or parsing did: it will see no more of what leads to `s`. */
    ghost predicate IsOver(s: Turn)
      reads out
    {
      out.Valid() && out.received <= s.items && (out.stopped || (s.ended && out.received == s.items))
    }

    constructor (lim: Limits, out: Consumer<Item>)
      requires out.Valid() && !out.stopped && out.received == []
      ensures IsLive() && View() == FRESH_TURN && this.lim == lim && this.out == out && fresh(blocks)
    {
      this.lim, this.out := lim, out;
      currentToolCall, inputBuffer, usage := NoCall, "", Usage(NOT_REPORTED, 0, 0, 0, 0);
      started, thinkingSignature, items := false, "", [];
      blocks := new StreamBlocks(lim.decode);
    }

    method Yield(item: Item) returns (more: bool)
      requires IsLive()
      modifies this`items, out
      ensures Valid() && View() == Give(old(View()), item) && out.received == items
      ensures more == !out.stopped
    {
      items := items + [item];
      more := out.Yield(item);
    }

    method FailWith(reason: Failure)
      requires IsLive()
      modifies this`items, blocks, out
      ensures IsOver(Fail(old(View()), reason, lim)) && out.received == Fail(old(View()), reason, lim).items
    {
      if !started {
        var _ := Yield(Failed(reason));
        return;
      }
      var parts := blocks.CollectParts();
      var _ := Yield(FailedMidTurn(reason, usage, parts));
    }

    method FlushToolCall() returns (more: bool)
      requires IsLive()
      modifies this, blocks, out
      ensures Valid() && View() == FlushCall(old(View()), lim) && out.received == items && more == !out.stopped
    {
      match currentToolCall {
        case NoCall => more := true;
        case Call(id, name, index) =>
          var input := Decoded(lim.decode, inputBuffer);
          blocks.RecordToolUse(index, id, name, input);
          currentToolCall, inputBuffer := NoCall, "";
          more := Yield(ToolUse(id, name, input));
      }
    }

    method FlushServerToolUse(index: int) returns (more: bool)
      requires IsLive()
      modifies this`items, blocks, out
      ensures Valid() && View() == FlushServer(old(View()), index, lim) && out.received == items && more == !out.stopped
    {
      var part := blocks.FinishServerToolUse(index);
      if part.None? {
        return true;
      }
      more := Yield(ServerTool(part.value));
    }

    /** Both flushes in turn; the second does not run once the consumer stopped. */
    method FlushBoth() returns (more: bool)
      requires IsLive()
      modifies this, blocks, out
      ensures more ==> IsLive() && View() == FlushAll(old(View()), lim)
      ensures !more ==> IsOver(FlushAll(old(View()), lim)) && out.stopped
    {
      more := FlushToolCall();
      if more {
        var index := blocks.OpenServerToolUse();
        more := FlushServerToolUse(index);
      }
    }

    method BeginBlock(index: int, block: Block) returns (more: bool)
      requires IsLive()
      modifies this, blocks, out
      ensures more ==> IsLive() && View() == Begun(old(View()), index, block)
      ensures !more ==> IsOver(Begun(old(View()), index, block))
    {
      more := true;
      var whole := blocks.Start(index, block);
      if whole.Some? && whole.value.ServerToolResultPart? {
        more := Yield(ServerTool(whole.value));
        if !more {
          return;
        }
      }
      if block.kind == "tool_use" {
        currentToolCall := Call(TextIn(block.fields, "id"), TextIn(block.fields, "name"), index);
        inputBuffer := "";
      }
    }

    method OnBlockStart(ev: Event) returns (more: bool)
      requires IsLive() && ev.BlockStart?
      modifies this, blocks, out
      ensures more ==> IsLive() && View() == OnStart(old(View()), ev, lim)
      ensures !more ==> IsOver(OnStart(old(View()), ev, lim))
    {
      var decoded := BlockOf(ev.content);
      if decoded.None? {
        more := Yield(Malformed);
        return;
      }
      more := FlushBoth();
      if more {
        more := BeginBlock(ev.index, decoded.value);
      }
    }

    method OnInputDelta(ev: Event) returns (more: bool)
      requires IsLive() && ev.InputDelta?
      modifies this, blocks, out
      ensures more ==> IsLive() && View() == OnInput(old(View()), ev, lim)
      ensures !more ==> IsOver(OnInput(old(View()), ev, lim))
    {
      more := true;
      if ev.index in blocks.byIndex && blocks.byIndex[ev.index].serverOpen {
        var ok := blocks.AddServerInput(ev.index, ev.partial, lim.maxToolInput);
        if !ok {
          FailWith(InputTooLarge);
          more := false;
        }
        return;
      }
      if |inputBuffer| + |ev.partial| > lim.maxToolInput {
        FailWith(InputTooLarge);
        more := false;
        return;
      }
      inputBuffer := inputBuffer + ev.partial;
    }

    method OnMessageDelta(ev: Event)
      requires IsLive() && ev.MessageDelta?
      modifies this, blocks, out
      ensures IsOver(OnEnd(old(View()), ev, lim))
    {
      var more := FlushBoth();
      if !more {
        return;
      }
      var total := FinalUsage(usage, ev.usage);
      ghost var s := View();
      var parts := blocks.CollectParts();
      more := Yield(Done(ev.stopReason, ev.rawStopReason, total, thinkingSignature, parts));
    }

    method OnDelta(ev: Event) returns (more: bool)
      requires IsLive() && (ev.TextDelta? || ev.CitationDelta? || ev.ThinkingDelta? || ev.SignatureDelta?)
      modifies this, blocks, out
      ensures Valid() && View() == OnEvent(old(View()), ev, lim) && out.received == items && more == !out.stopped
    {
      more := true;
      match ev {
        case TextDelta(index, text) =>
          blocks.AddText(index, text);
          more := Yield(Content(text));
        case CitationDelta(index, citation) =>
          if citation.Some? && IsCitation(citation.value) {
            blocks.AddCitation(index, citation.value);
            more := Yield(Cited(citation.value));
          }
        case ThinkingDelta(index, thinking) =>
          blocks.AddThinking(index, thinking);
          more := Yield(Thought(thinking));
        case SignatureDelta(index, signature) =>
          thinkingSignature := thinkingSignature + signature;
          blocks.AddSignature(index, signature);
      }
    }

    method OnOneEvent(ev: Event) returns (more: bool)
      requires IsLive()
      modifies this, blocks, out
      ensures more ==> IsLive() && View() == OnEvent(old(View()), ev, lim)
      ensures !more ==> IsOver(OnEvent(old(View()), ev, lim))
    {
      more := true;
      match ev {
        case MessageStart(first) => usage, started := first, true;
        case BlockStart(_, _) => more := OnBlockStart(ev);
        case InputDelta(_, _) => more := OnInputDelta(ev);
        case BlockStop(index) =>
          more := FlushToolCall();
          if more {
            more := FlushServerToolUse(index);
          }
        case MessageDelta(_, _, _) =>
          OnMessageDelta(ev);
          more := false;
        case ErrorEvent(message) =>
          FailWith(ServerError(message));
          more := false;
        case MalformedEvent => more := Yield(Malformed);
        case OtherEvent =>
        case _ => more := OnDelta(ev);
      }
    }
  }

  lemma EventGrows(s: Turn, ev: Event, lim: Limits)
    ensures s.items <= OnEvent(s, ev, lim).items
    ensures s.ended ==> OnEvent(s, ev, lim) == s
  {
  }

  lemma {:induction false} RunGrows(s: Turn, events: seq<Event>, i: nat, lim: Limits)
    requires i <= |events|
    ensures var t, u := Run(s, events[..i], lim), Run(s, events, lim);
            t.items <= u.items && (t.ended ==> u == t)
    decreases |events|
  {
    if i == |events| {
      assert events[..i] == events;
    } else {
      var init := events[..|events| - 1];
      assert init[..i] == events[..i];
      RunGrows(s, init, i, lim);
      EventGrows(Run(s, init, lim), events[|events| - 1], lim);
    }
  }

  /** The whole parser: the consumer sees exactly `Items`, or the part of it up to where it stopped. */
  method ParseStream(events: seq<Event>, ending: Ending, lim: Limits, out: Consumer<Item>)
    requires out.Valid() && !out.stopped && out.received == []
    modifies out
    ensures out.Saw(Items(events, ending, lim))
  {
    var p := new Parser(lim, out);
    var i := 0;
    while i < |events|
      invariant i <= |events| && p.out == out && p.lim == lim && fresh(p) && fresh(p.blocks)
      invariant p.IsLive() && p.View() == Run(FRESH_TURN, events[..i], lim)
    {
      TakeNext(events, i);
      var more := p.OnOneEvent(events[i]);
      i := i + 1;
      if !more {
        RunGrows(FRESH_TURN, events, i, lim);
        return;
      }
    }
    assert events[..|events|] == events;
    var reason := Truncated;
    if ending.ReadError? {
      reason := BrokenRead;
    }
    p.FailWith(reason);
  }
}
