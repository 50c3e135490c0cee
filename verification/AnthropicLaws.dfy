/** What the Anthropic stream parser guarantees, against the non-streaming form of the same blocks. */
module AnthropicLaws {
  import opened AnthropicBlocks
  import opened AnthropicStream
  import opened Sequences
  import opened Streams
  import opened Wrappers

  lemma OneEvent(s: Turn, ev: Event, lim: Limits)
    ensures Run(s, [ev], lim) == OnEvent(s, ev, lim)
  {
    DropAppended([], ev);
    assert [] + [ev] == [ev] && Run(s, [], lim) == s;
  }

  lemma RunNext(s: Turn, events: seq<Event>, ev: Event, lim: Limits)
    ensures Run(s, events + [ev], lim) == OnEvent(Run(s, events, lim), ev, lim)
  {
    DropAppended(events, ev);
  }

  lemma {:induction false} RunConcat(s: Turn, a: seq<Event>, b: seq<Event>, lim: Limits)
    ensures Run(s, a + b, lim) == Run(Run(s, a, lim), b, lim)
  {
    if b == [] {
      assert a + b == a;
    } else {
      var init, ev := b[..|b| - 1], b[|b| - 1];
      SplitLast(b);
      assert a + b == (a + init) + [ev];
      RunConcat(s, a, init, lim);
      RunNext(s, a + init, ev, lim);
    }
  }

  // ---------------------------------------------------------------------------------------------
  // Terminal items
  // ---------------------------------------------------------------------------------------------

  ghost predicate NoneTerminal(items: seq<Item>) {
    forall k | 0 <= k < |items| :: !IsTerminal(items[k])
  }

  ghost predicate EndsOnce(items: seq<Item>, ended: bool) {
    if ended then items != [] && IsTerminal(items[|items| - 1]) && NoneTerminal(items[..|items| - 1])
    else NoneTerminal(items)
  }

  lemma FlushEndsNothing(s: Turn, lim: Limits)
    requires NoneTerminal(s.items)
    ensures NoneTerminal(FlushCall(s, lim).items) && FlushCall(s, lim).ended == s.ended
  {
  }

  lemma ServerEndsNothing(s: Turn, index: int, lim: Limits)
    requires NoneTerminal(s.items)
    ensures NoneTerminal(FlushServer(s, index, lim).items) && FlushServer(s, index, lim).ended == s.ended
  {
  }

  lemma AllEndsNothing(s: Turn, lim: Limits)
    requires NoneTerminal(s.items)
    ensures NoneTerminal(FlushAll(s, lim).items) && FlushAll(s, lim).ended == s.ended
  {
    FlushEndsNothing(s, lim);
    ServerEndsNothing(FlushCall(s, lim), FirstOpen(FlushCall(s, lim).blocks, 0), lim);
  }

  lemma StopEndsOnce(s: Turn, item: Item)
    requires NoneTerminal(s.items) && IsTerminal(item)
    ensures EndsOnce(Stop(s, item).items, true)
  {
    DropAppended(s.items, item);
  }

  lemma StartEndsNothing(s: Turn, ev: Event, lim: Limits)
    requires NoneTerminal(s.items) && ev.BlockStart?
    ensures NoneTerminal(OnStart(s, ev, lim).items) && OnStart(s, ev, lim).ended == s.ended
  {
    if BlockOf(ev.content).Some? {
      AllEndsNothing(s, lim);
      BegunEndsNothing(FlushAll(s, lim), ev.index, BlockOf(ev.content).value);
    }
  }

  lemma BegunEndsNothing(s: Turn, index: int, block: Block)
    requires NoneTerminal(s.items)
    ensures NoneTerminal(Begun(s, index, block).items) && Begun(s, index, block).ended == s.ended
  {
    WholeEndsNothing(s.items, Started(block));
  }

  lemma WholeEndsNothing(items: seq<Item>, b: StreamBlock)
    requires NoneTerminal(items)
    ensures NoneTerminal(items + WholeItem(b))
  {
  }

  lemma EventEndsOnce(s: Turn, ev: Event, lim: Limits)
    requires EndsOnce(s.items, s.ended)
    ensures EndsOnce(OnEvent(s, ev, lim).items, OnEvent(s, ev, lim).ended)
  {
    if !s.ended {
      match ev {
        case BlockStart(_, _) => StartEndsNothing(s, ev, lim);
        case BlockStop(index) =>
          FlushEndsNothing(s, lim);
          ServerEndsNothing(FlushCall(s, lim), index, lim);
        case MessageDelta(_, _, _) =>
          AllEndsNothing(s, lim);
          StopEndsOnce(FlushAll(s, lim), DoneItem(FlushAll(s, lim), ev, lim));
        case InputDelta(_, _) => StopEndsOnce(s, FailItem(s, InputTooLarge, lim));
        case ErrorEvent(message) => StopEndsOnce(s, FailItem(s, ServerError(message), lim));
        case _ =>
      }
    }
  }

  lemma {:induction false} RunEndsOnce(events: seq<Event>, lim: Limits)
    ensures var s := Run(FRESH_TURN, events, lim); EndsOnce(s.items, s.ended)
  {
    if events != [] {
      RunEndsOnce(events[..|events| - 1], lim);
      EventEndsOnce(Run(FRESH_TURN, events[..|events| - 1], lim), events[|events| - 1], lim);
    }
  }

  /** A consumer that never stops sees exactly one terminal item, and it is the last. */
  lemma ExactlyOneFinalItem(events: seq<Event>, ending: Ending, lim: Limits)
    ensures EndsOnce(Items(events, ending, lim), true)
  {
    var s := Run(FRESH_TURN, events, lim);
    RunEndsOnce(events, lim);
    if !s.ended {
      StopEndsOnce(s, FailItem(s, if ending.ReadError? then BrokenRead else Truncated, lim));
    }
  }

  // ---------------------------------------------------------------------------------------------
  // Arbitrary events: at most one call open, and no call lost
  // ---------------------------------------------------------------------------------------------

  datatype Name = Name(server: bool, id: string, name: string)

  function CallOf(block: Block): seq<Name> {
    if block.kind == "tool_use" || block.kind == "server_tool_use" then
      [Name(block.kind == "server_tool_use", TextIn(block.fields, "id"), TextIn(block.fields, "name"))]
    else []
  }

  function NewCall(ev: Event): seq<Name> {
    if ev.BlockStart? && BlockOf(ev.content).Some? then CallOf(BlockOf(ev.content).value) else []
  }

  /** Every client and server call the events announce, in order. */
  function Announced(events: seq<Event>): seq<Name> {
    if events == [] then [] else Announced(events[..|events| - 1]) + NewCall(events[|events| - 1])
  }

  function NameIn(item: Item): seq<Name> {
    match item
    case ToolUse(id, name, _) => [Name(false, id, name)]
    case ServerTool(ServerToolUsePart(id, name, _, _)) => [Name(true, id, name)]
    case _ => []
  }

  /** Every client and server call emitted, in order. */
  function Given(items: seq<Item>): seq<Name> {
    if items == [] then [] else Given(items[..|items| - 1]) + NameIn(items[|items| - 1])
  }

  lemma GivenNext(items: seq<Item>, item: Item)
    ensures Given(items + [item]) == Given(items) + NameIn(item)
  {
    DropAppended(items, item);
  }

  ghost predicate NoneOpen(b: Blocks) {
    forall i :: !IsServerOpen(b, i)
  }

  ghost predicate OnlyOpen(b: Blocks, i: int) {
    IsServerOpen(b, i) && b.byIndex[i].block.kind == "server_tool_use" && forall j | IsServerOpen(b, j) :: j == i
  }

  /** Nothing is open, or one client call, or one server call; `open` names it. */
  ghost predicate HasOpen(s: Turn, open: seq<Name>) {
    match s.call
    case Call(id, name, _) => open == [Name(false, id, name)] && NoneOpen(s.blocks)
    case NoCall =>
      || (open == [] && NoneOpen(s.blocks))
      || exists i :: OnlyOpen(s.blocks, i) && open == CallOf(s.blocks.byIndex[i].block)
  }

  ghost predicate IsAccounted(s: Turn, announced: seq<Name>) {
    && Given(s.items) <= announced
    && HasOpen(s, announced[|Given(s.items)|..])
  }

  lemma {:induction false} FirstOpenFinds(b: Blocks, i: nat)
    requires i <= |b.order|
    ensures var r := FirstOpen(b, i);
            IsServerOpen(b, r) || (r == -1 && forall k | i <= k < |b.order| :: !IsServerOpen(b, b.order[k]))
    decreases |b.order| - i
  {
    if i < |b.order| && !b.byIndex[b.order[i]].serverOpen {
      FirstOpenFinds(b, i + 1);
    }
  }

  lemma FirstOpenFindsAny(b: Blocks)
    ensures IsServerOpen(b, FirstOpen(b, 0)) || NoneOpen(b)
  {
    FirstOpenFinds(b, 0);
    if !IsServerOpen(b, FirstOpen(b, 0)) {
      forall i ensures !IsServerOpen(b, i) {
        if i in b.byIndex {
          assert i in b.order;
        }
      }
    }
  }

  ghost predicate IsIdle(s: Turn) {
    s.call.NoCall? && NoneOpen(s.blocks)
  }

  lemma ClientFlushed(s: Turn, announced: seq<Name>, lim: Limits)
    requires IsAccounted(s, announced) && s.call.Call?
    ensures IsIdle(FlushCall(s, lim)) && Given(FlushCall(s, lim).items) == announced
  {
    var t := FlushCall(s, lim);
    GivenNext(s.items, ToolUse(s.call.id, s.call.name, Decoded(lim.decode, s.buffer)));
    forall i ensures !IsServerOpen(t.blocks, i) {
      assert !IsServerOpen(s.blocks, i);
    }
  }

  lemma ServerFlushed(s: Turn, i: int, announced: seq<Name>, lim: Limits)
    requires IsAccounted(s, announced) && s.call.NoCall? && IsServerOpen(s.blocks, i)
    ensures IsIdle(FlushServer(s, i, lim)) && Given(FlushServer(s, i, lim).items) == announced
  {
    var t := FlushServer(s, i, lim);
    var j :| OnlyOpen(s.blocks, j) && announced[|Given(s.items)|..] == CallOf(s.blocks.byIndex[j].block);
    GivenNext(s.items, ServerTool(ServerPart(s.blocks.byIndex[i], lim.decode)));
    forall k ensures !IsServerOpen(t.blocks, k) {
      assert k != i ==> !IsServerOpen(s.blocks, k);
    }
  }

  lemma AllFlushed(s: Turn, announced: seq<Name>, lim: Limits)
    requires IsAccounted(s, announced)
    ensures IsIdle(FlushAll(s, lim)) && Given(FlushAll(s, lim).items) == announced
  {
    var t := FlushCall(s, lim);
    if s.call.Call? {
      ClientFlushed(s, announced, lim);
    } else {
      FirstOpenFindsAny(s.blocks);
      if IsServerOpen(s.blocks, FirstOpen(s.blocks, 0)) {
        ServerFlushed(s, FirstOpen(s.blocks, 0), announced, lim);
      }
    }
  }

  lemma StopFlushes(s: Turn, i: int, announced: seq<Name>, lim: Limits)
    requires IsAccounted(s, announced)
    ensures IsAccounted(FlushServer(FlushCall(s, lim), i, lim), announced)
  {
    if s.call.Call? {
      ClientFlushed(s, announced, lim);
    } else if IsServerOpen(s.blocks, i) {
      ServerFlushed(s, i, announced, lim);
    }
  }

  lemma WholeGives(items: seq<Item>, b: StreamBlock)
    ensures Given(items + WholeItem(b)) == Given(items)
  {
    if WholeItem(b) == [] {
      assert items + WholeItem(b) == items;
    } else {
      GivenNext(items, WholeItem(b)[0]);
    }
  }

  lemma BegunOpens(s: Turn, index: int, block: Block)
    requires NoneOpen(s.blocks)
    ensures forall i :: IsServerOpen(Begun(s, index, block).blocks, i) <==> i == index && block.kind == "server_tool_use"
    ensures index in Begun(s, index, block).blocks.byIndex && Begun(s, index, block).blocks.byIndex[index].block == block
  {
    forall i ensures IsServerOpen(Begun(s, index, block).blocks, i) <==> i == index && block.kind == "server_tool_use" {
      assert !IsServerOpen(s.blocks, i);
    }
  }

  lemma BegunIsAccounted(s: Turn, index: int, block: Block)
    requires IsIdle(s)
    ensures IsAccounted(Begun(s, index, block), Given(s.items) + CallOf(block))
  {
    var t := Begun(s, index, block);
    WholeGives(s.items, Started(block));
    BegunOpens(s, index, block);
    assert (Given(s.items) + CallOf(block))[|Given(s.items)|..] == CallOf(block);
    if block.kind == "server_tool_use" {
      assert OnlyOpen(t.blocks, index);
    }
  }

  ghost predicate SameOpens(a: Blocks, b: Blocks) {
    && (forall i :: IsServerOpen(a, i) == IsServerOpen(b, i))
    && (forall i | IsServerOpen(a, i) :: i in b.byIndex && b.byIndex[i].block == a.byIndex[i].block)
  }

  lemma PutKeepsOpens(b: Blocks, index: int, c: StreamBlock)
    requires c.serverOpen == IsServerOpen(b, index) && (c.serverOpen ==> c.block == b.byIndex[index].block)
    ensures SameOpens(b, Put(b, index, c))
  {
  }

  /** Changes that neither open nor close a call, and emit none. */
  lemma StillAccounted(s: Turn, t: Turn, announced: seq<Name>)
    requires IsAccounted(s, announced) && t.call == s.call && Given(t.items) == Given(s.items)
    requires SameOpens(s.blocks, t.blocks)
    ensures IsAccounted(t, announced)
  {
    if s.call.NoCall? && !NoneOpen(s.blocks) {
      var i :| OnlyOpen(s.blocks, i) && announced[|Given(s.items)|..] == CallOf(s.blocks.byIndex[i].block);
      assert OnlyOpen(t.blocks, i);
    }
  }

  lemma GivenBlocks(s: Turn, blocks: Blocks, item: Item, announced: seq<Name>)
    requires IsAccounted(s, announced) && SameOpens(s.blocks, blocks) && NameIn(item) == []
    ensures IsAccounted(Give(s.(blocks := blocks), item), announced)
  {
    GivenNext(s.items, item);
    StillAccounted(s, Give(s.(blocks := blocks), item), announced);
  }

  lemma DeltaIsAccounted(s: Turn, ev: Event, announced: seq<Name>, lim: Limits)
    requires IsAccounted(s, announced) && !s.ended
    requires ev.TextDelta? || ev.CitationDelta? || ev.ThinkingDelta? || ev.SignatureDelta?
    ensures IsAccounted(OnEvent(s, ev, lim), announced)
  {
    match ev {
      case TextDelta(index, text) =>
        var c := Get(s.blocks, index, "text").byIndex[index];
        PutKeepsOpens(s.blocks, index, c.(text := c.text + text));
        GivenBlocks(s, AppendText(s.blocks, index, text), Content(text), announced);
      case CitationDelta(index, citation) =>
        if citation.Some? {
          var c := Get(s.blocks, index, "text").byIndex[index];
          PutKeepsOpens(s.blocks, index, c.(citations := c.citations + [citation.value]));
          GivenBlocks(s, AppendCitation(s.blocks, index, citation.value), Cited(citation.value), announced);
        }
      case ThinkingDelta(index, thinking) =>
        var c := Get(s.blocks, index, "thinking").byIndex[index];
        PutKeepsOpens(s.blocks, index, c.(thinking := c.thinking + thinking));
        GivenBlocks(s, AppendThinking(s.blocks, index, thinking), Thought(thinking), announced);
      case SignatureDelta(index, signature) =>
        var c := Get(s.blocks, index, "thinking").byIndex[index];
        PutKeepsOpens(s.blocks, index, c.(signature := c.signature + signature));
        StillAccounted(s, OnEvent(s, ev, lim), announced);
    }
  }

  lemma FailIsAccounted(s: Turn, reason: Failure, announced: seq<Name>, lim: Limits)
    requires IsAccounted(s, announced)
    ensures IsAccounted(Fail(s, reason, lim), announced)
  {
    GivenNext(s.items, FailItem(s, reason, lim));
    StillAccounted(s, Fail(s, reason, lim), announced);
  }

  lemma InputIsAccounted(s: Turn, ev: Event, announced: seq<Name>, lim: Limits)
    requires IsAccounted(s, announced) && ev.InputDelta? && !s.ended
    ensures IsAccounted(OnInput(s, ev, lim), announced)
  {
    FailIsAccounted(s, InputTooLarge, announced, lim);
    if !OnInput(s, ev, lim).ended {
      if IsServerOpen(s.blocks, ev.index) {
        var c := s.blocks.byIndex[ev.index];
        PutKeepsOpens(s.blocks, ev.index, c.(input := c.input + ev.partial));
      }
      StillAccounted(s, OnInput(s, ev, lim), announced);
    }
  }

  lemma StartIsAccounted(s: Turn, ev: Event, announced: seq<Name>, lim: Limits)
    requires IsAccounted(s, announced) && ev.BlockStart?
    ensures IsAccounted(OnStart(s, ev, lim), announced + NewCall(ev))
  {
    if BlockOf(ev.content).Some? {
      AllFlushed(s, announced, lim);
      BegunIsAccounted(FlushAll(s, lim), ev.index, BlockOf(ev.content).value);
    } else {
      GivenBlocks(s, s.blocks, Malformed, announced);
    }
  }

  lemma EndIsAccounted(s: Turn, ev: Event, announced: seq<Name>, lim: Limits)
    requires IsAccounted(s, announced) && ev.MessageDelta?
    ensures IsIdle(OnEnd(s, ev, lim)) && Given(OnEnd(s, ev, lim).items) == announced
  {
    AllFlushed(s, announced, lim);
    GivenNext(FlushAll(s, lim).items, DoneItem(FlushAll(s, lim), ev, lim));
  }

  lemma OtherIsAccounted(s: Turn, ev: Event, announced: seq<Name>, lim: Limits)
    requires IsAccounted(s, announced) && !s.ended
    requires ev.MessageStart? || ev.ErrorEvent? || ev.MalformedEvent? || ev.OtherEvent?
    ensures IsAccounted(OnEvent(s, ev, lim), announced)
  {
    match ev {
      case MessageStart(_) => StillAccounted(s, OnEvent(s, ev, lim), announced);
      case ErrorEvent(message) => FailIsAccounted(s, ServerError(message), announced, lim);
      case MalformedEvent => GivenBlocks(s, s.blocks, Malformed, announced);
      case OtherEvent =>
    }
  }

  lemma EventIsAccounted(s: Turn, ev: Event, announced: seq<Name>, lim: Limits)
    requires IsAccounted(s, announced) && !s.ended
    ensures IsAccounted(OnEvent(s, ev, lim), announced + NewCall(ev))
  {
    if ev.BlockStart? {
      StartIsAccounted(s, ev, announced, lim);
    } else {
      assert announced + NewCall(ev) == announced;
      match ev {
        case BlockStop(index) => StopFlushes(s, index, announced, lim);
        case MessageDelta(_, _, _) => EndIsAccounted(s, ev, announced, lim);
        case InputDelta(_, _) => InputIsAccounted(s, ev, announced, lim);
        case TextDelta(_, _) => DeltaIsAccounted(s, ev, announced, lim);
        case CitationDelta(_, _) => DeltaIsAccounted(s, ev, announced, lim);
        case ThinkingDelta(_, _) => DeltaIsAccounted(s, ev, announced, lim);
        case SignatureDelta(_, _) => DeltaIsAccounted(s, ev, announced, lim);
        case _ => OtherIsAccounted(s, ev, announced, lim);
      }
    }
  }

  /**
   For arbitrary events at most one call, client or server, is open, and it is the only announced
   one not emitted yet.
   */
  lemma {:induction false} AtMostOneCallIsOpen(events: seq<Event>, lim: Limits)
    requires !Run(FRESH_TURN, events, lim).ended
    ensures IsAccounted(Run(FRESH_TURN, events, lim), Announced(events))
    ensures |Given(Run(FRESH_TURN, events, lim).items)| <= |Announced(events)| <= |Given(Run(FRESH_TURN, events, lim).items)| + 1
  {
    if events != [] {
      var init := events[..|events| - 1];
      AtMostOneCallIsOpen(init, lim);
      EventIsAccounted(Run(FRESH_TURN, init, lim), events[|events| - 1], Announced(init), lim);
    }
  }

  /**
   A completed turn emitted every announced call exactly once, in order, even if content_block_stop
   events were missing or block indices were reused.
   */
  lemma DoneLosesNoCall(events: seq<Event>, done: Event, lim: Limits)
    requires done.MessageDelta? && !Run(FRESH_TURN, events, lim).ended
    ensures Given(Run(FRESH_TURN, events + [done], lim).items) == Announced(events)
    ensures IsIdle(Run(FRESH_TURN, events + [done], lim))
  {
    RunNext(FRESH_TURN, events, done, lim);
    AtMostOneCallIsOpen(events, lim);
    EndIsAccounted(Run(FRESH_TURN, events, lim), done, Announced(events), lim);
  }

  ghost predicate AreBounded(b: Blocks, max: nat) {
    forall i | i in b.byIndex :: |b.byIndex[i].input| <= max
  }

  ghost predicate IsBounded(s: Turn, max: nat) {
    |s.buffer| <= max && AreBounded(s.blocks, max)
  }

  lemma PutBounded(b: Blocks, index: int, c: StreamBlock, max: nat)
    requires AreBounded(b, max) && |c.input| <= max
    ensures AreBounded(Put(b, index, c), max)
  {
  }

  lemma FlushBounded(s: Turn, index: int, lim: Limits)
    requires IsBounded(s, lim.maxToolInput)
    ensures IsBounded(FlushCall(s, lim), lim.maxToolInput)
    ensures IsBounded(FlushServer(s, index, lim), lim.maxToolInput)
  {
  }

  lemma AllFlushBounded(s: Turn, lim: Limits)
    requires IsBounded(s, lim.maxToolInput)
    ensures IsBounded(FlushAll(s, lim), lim.maxToolInput)
  {
    FlushBounded(s, 0, lim);
    FlushBounded(FlushCall(s, lim), FirstOpen(FlushCall(s, lim).blocks, 0), lim);
  }

  lemma DeltaBounded(s: Turn, ev: Event, lim: Limits)
    requires IsBounded(s, lim.maxToolInput) && !s.ended
    requires !ev.BlockStart? && !ev.BlockStop? && !ev.MessageDelta?
    ensures IsBounded(OnEvent(s, ev, lim), lim.maxToolInput)
  {
  }

  lemma EventBounded(s: Turn, ev: Event, lim: Limits)
    requires IsBounded(s, lim.maxToolInput)
    ensures IsBounded(OnEvent(s, ev, lim), lim.maxToolInput)
  {
    if !s.ended {
      match ev {
        case BlockStart(index, content) =>
          AllFlushBounded(s, lim);
          if BlockOf(content).Some? {
            PutBounded(FlushAll(s, lim).blocks, index, Started(BlockOf(content).value), lim.maxToolInput);
          }
        case BlockStop(index) =>
          FlushBounded(s, index, lim);
          FlushBounded(FlushCall(s, lim), index, lim);
        case MessageDelta(_, _, _) => AllFlushBounded(s, lim);
        case _ => DeltaBounded(s, ev, lim);
      }
    }
  }

  /** Neither the client buffer nor any server call's input outgrows the limit. */
  lemma {:induction false} InputsStayBounded(events: seq<Event>, lim: Limits)
    ensures IsBounded(Run(FRESH_TURN, events, lim), lim.maxToolInput)
  {
    if events != [] {
      InputsStayBounded(events[..|events| - 1], lim);
      EventBounded(Run(FRESH_TURN, events[..|events| - 1], lim), events[|events| - 1], lim);
    }
  }

  // ---------------------------------------------------------------------------------------------
  // Agreement with the non-streaming form
  // ---------------------------------------------------------------------------------------------

  /** One block of a well-ordered stream: the object its start event carries, then its deltas. */
  datatype Script = Script(index: int, start: map<string, Json>, deltas: seq<Event>)

  function KindOf(script: Script): string {
    TextIn(script.start, "type")
  }

  predicate FitsKind(kind: string, index: int, ev: Event) {
    match ev
    case TextDelta(i, _) => i == index && kind == "text"
    case CitationDelta(i, _) => i == index && kind == "text"
    case ThinkingDelta(i, _) => i == index && kind == "thinking"
    case SignatureDelta(i, _) => i == index && kind == "thinking"
    case InputDelta(i, _) => i == index && (kind == "tool_use" || kind == "server_tool_use")
    case OtherEvent => true
    case _ => false
  }

  /** What a block's deltas add up to. */
  datatype Sum = Sum(text: string, citations: seq<Json>, thinking: string, signature: string, input: string)

  const NOTHING := Sum("", [], "", "", "")

  function Plus(sum: Sum, ev: Event): Sum {
    match ev
    case TextDelta(_, text) => sum.(text := sum.text + text)
    case CitationDelta(_, Some(raw)) => sum.(citations := sum.citations + [raw])
    case ThinkingDelta(_, thinking) => sum.(thinking := sum.thinking + thinking)
    case SignatureDelta(_, signature) => sum.(signature := sum.signature + signature)
    case InputDelta(_, partial) => sum.(input := sum.input + partial)
    case _ => sum
  }

  function SumOf(deltas: seq<Event>): Sum {
    if deltas == [] then NOTHING else Plus(SumOf(deltas[..|deltas| - 1]), deltas[|deltas| - 1])
  }

  /** The object a non-streaming response would have carried for this block. */
  function Whole(script: Script, decode: Decoder): map<string, Json> {
    var f, kind, sum := script.start, KindOf(script), SumOf(script.deltas);
    if kind == "text" then
      f["text" := Str(TextIn(f, "text") + sum.text)]["citations" := Array(ListIn(f, "citations") + sum.citations)]
    else if kind == "thinking" then
      f["thinking" := Str(TextIn(f, "thinking") + sum.thinking)]["signature" := Str(TextIn(f, "signature") + sum.signature)]
    else if kind == "tool_use" || kind == "server_tool_use" then
      match decode(sum.input) case Some(v) => f["input" := v] case None => f
    else f
  }

  /** The part the non-streaming path makes of it. */
  function ReferencePart(script: Script, decode: Decoder): Part {
    var whole := Whole(script, decode);
    BlockPart(Block(TextIn(whole, "type"), whole, Some(Object(whole))))
  }

  predicate IsScript(script: Script, lim: Limits) {
    && script.index >= 0 && IsWellTyped(script.start)
    && (forall k | 0 <= k < |script.deltas| :: FitsKind(KindOf(script), script.index, script.deltas[k]))
    && |SumOf(script.deltas).input| <= lim.maxToolInput
  }

  function EventsOf(script: Script): seq<Event> {
    [BlockStart(script.index, Some(Object(script.start)))] + script.deltas + [BlockStop(script.index)]
  }

  function StreamOf(usage: Usage, scripts: seq<Script>): seq<Event> {
    if scripts == [] then [MessageStart(usage)]
    else StreamOf(usage, scripts[..|scripts| - 1]) + EventsOf(scripts[|scripts| - 1])
  }

  predicate AreScripts(scripts: seq<Script>, lim: Limits) {
    && lim.decode("").None?
    && (forall k | 0 <= k < |scripts| :: IsScript(scripts[k], lim))
    && forall j, k | 0 <= j < k < |scripts| :: scripts[j].index != scripts[k].index
  }

  /** The block after one of its deltas. */
  function Added(b: StreamBlock, ev: Event): StreamBlock {
    match ev
    case TextDelta(_, text) => b.(text := b.text + text)
    case CitationDelta(_, citation) =>
      if citation.Some? && IsCitation(citation.value) then b.(citations := b.citations + [citation.value]) else b
    case ThinkingDelta(_, thinking) => b.(thinking := b.thinking + thinking)
    case SignatureDelta(_, signature) => b.(signature := b.signature + signature)
    case InputDelta(_, partial) => if b.serverOpen then b.(input := b.input + partial) else b
    case _ => b
  }

  lemma CitationsNext(raws: seq<Json>, raw: Json)
    ensures Citations(raws + [raw]) == if IsCitation(raw) then Citations(raws) + [raw] else Citations(raws)
  {
    DropAppended(raws, raw);
  }

  lemma {:induction false} CitationsConcat(a: seq<Json>, b: seq<Json>)
    ensures Citations(a + b) == Citations(a) + Citations(b)
  {
    if b == [] {
      assert a + b == a;
    } else {
      SplitLast(b);
      assert a + b == (a + b[..|b| - 1]) + [b[|b| - 1]];
      CitationsConcat(a, b[..|b| - 1]);
      CitationsNext(a + b[..|b| - 1], b[|b| - 1]);
    }
  }

  /** The block with a sum of deltas added. */
  function Joined(b: StreamBlock, sum: Sum): StreamBlock {
    b.(text := b.text + sum.text, citations := b.citations + Citations(sum.citations),
       thinking := b.thinking + sum.thinking, signature := b.signature + sum.signature,
       input := if b.serverOpen then b.input + sum.input else b.input)
  }

  lemma JoinedNext(b: StreamBlock, sum: Sum, ev: Event)
    ensures Joined(b, Plus(sum, ev)) == Added(Joined(b, sum), ev)
  {
    match ev {
      case TextDelta(_, text) => assert b.text + (sum.text + text) == (b.text + sum.text) + text;
      case CitationDelta(_, Some(raw)) => CitationsNext(sum.citations, raw);
      case ThinkingDelta(_, thinking) => assert b.thinking + (sum.thinking + thinking) == (b.thinking + sum.thinking) + thinking;
      case SignatureDelta(_, signature) =>
        assert b.signature + (sum.signature + signature) == (b.signature + sum.signature) + signature;
      case InputDelta(_, partial) => assert b.input + (sum.input + partial) == (b.input + sum.input) + partial;
      case _ =>
    }
  }

  lemma JoinedNothing(b: StreamBlock)
    ensures Joined(b, NOTHING) == b
  {
    assert b.text + "" == b.text && b.thinking + "" == b.thinking && b.signature + "" == b.signature;
    assert b.input + "" == b.input && b.citations + [] == b.citations;
  }

  /** The block's final state in the map. */
  function Final(script: Script, decode: Decoder): StreamBlock {
    var f := script.start;
    var g := Joined(Started(Block(KindOf(script), f, Some(Object(f)))), SumOf(script.deltas));
    if KindOf(script) == "tool_use" then
      g.(part := Some(ToolUsePart(TextIn(f, "id"), TextIn(f, "name"), Decoded(decode, SumOf(script.deltas).input))))
    else Finished(g, decode)
  }

  /** A delta of the one block that is open. */
  lemma DeltaStep(s: Turn, kind: string, index: int, ev: Event, lim: Limits)
    requires !s.ended && index in s.blocks.byIndex && FitsKind(kind, index, ev)
    requires s.blocks.byIndex[index].serverOpen == (kind == "server_tool_use")
    requires var b := s.blocks.byIndex[index];
             ev.InputDelta? ==> |if b.serverOpen then b.input else s.buffer| + |ev.partial| <= lim.maxToolInput
    ensures var t, b := OnEvent(s, ev, lim), s.blocks.byIndex[index];
            && !t.ended && t.call == s.call && t.blocks == Put(s.blocks, index, Added(b, ev))
            && t.buffer == (if ev.InputDelta? && !b.serverOpen then s.buffer + ev.partial else s.buffer)
  {
    assert s.blocks.byIndex[index := s.blocks.byIndex[index]] == s.blocks.byIndex;
  }

  lemma PutTwice(b: Blocks, index: int, c: StreamBlock, d: StreamBlock)
    ensures Put(Put(b, index, c), index, d) == Put(b, index, d)
  {
    assert b.byIndex[index := c][index := d] == b.byIndex[index := d];
  }

  /** The input limit leaves room for `more` bytes at the block. */
  predicate HasRoom(s: Turn, index: int, more: nat, lim: Limits)
    requires index in s.blocks.byIndex
  {
    var b := s.blocks.byIndex[index];
    |if b.serverOpen then b.input else s.buffer| + more <= lim.maxToolInput
  }

  /** From `s` to `t` only the block at `index` changed, and the buffer, by `sum`. */
  ghost predicate HasAdded(s: Turn, t: Turn, index: int, sum: Sum)
    requires index in s.blocks.byIndex
  {
    var b := s.blocks.byIndex[index];
    && !t.ended && t.call == s.call && t.blocks == Put(s.blocks, index, Joined(b, sum))
    && t.buffer == (if b.serverOpen then s.buffer else s.buffer + sum.input)
  }

  lemma HasAddedNext(s: Turn, t: Turn, kind: string, index: int, sum: Sum, ev: Event, lim: Limits)
    requires index in s.blocks.byIndex && HasAdded(s, t, index, sum) && FitsKind(kind, index, ev)
    requires s.blocks.byIndex[index].serverOpen == (kind == "server_tool_use")
    requires ev.InputDelta? ==> HasRoom(s, index, |sum.input| + |ev.partial|, lim)
    ensures HasAdded(s, OnEvent(t, ev, lim), index, Plus(sum, ev))
  {
    var b := s.blocks.byIndex[index];
    DeltaStep(t, kind, index, ev, lim);
    JoinedNext(b, sum, ev);
    PutTwice(s.blocks, index, Joined(b, sum), Joined(b, Plus(sum, ev)));
    if ev.InputDelta? {
      assert s.buffer + (sum.input + ev.partial) == (s.buffer + sum.input) + ev.partial;
    }
  }

  lemma {:induction false} DeltasRun(s: Turn, kind: string, index: int, deltas: seq<Event>, lim: Limits)
    requires !s.ended && index in s.blocks.byIndex && forall k | 0 <= k < |deltas| :: FitsKind(kind, index, deltas[k])
    requires s.blocks.byIndex[index].serverOpen == (kind == "server_tool_use")
    requires kind == "tool_use" || kind == "server_tool_use" ==> HasRoom(s, index, |SumOf(deltas).input|, lim)
    ensures HasAdded(s, Run(s, deltas, lim), index, SumOf(deltas))
  {
    if deltas == [] {
      JoinedNothing(s.blocks.byIndex[index]);
      assert s.blocks.byIndex[index := s.blocks.byIndex[index]] == s.blocks.byIndex;
      assert s.buffer + "" == s.buffer;
    } else {
      var init, ev := deltas[..|deltas| - 1], deltas[|deltas| - 1];
      assert FitsKind(kind, index, deltas[|deltas| - 1]);
      assert |SumOf(deltas).input| == |SumOf(init).input| + if ev.InputDelta? then |ev.partial| else 0;
      DeltasRun(s, kind, index, init, lim);
      HasAddedNext(s, Run(s, init, lim), kind, index, SumOf(init), ev, lim);
    }
  }

  lemma IdleFlush(s: Turn, lim: Limits)
    requires IsIdle(s)
    ensures FlushAll(s, lim) == s
  {
  }

  lemma StartRun(s: Turn, script: Script, lim: Limits)
    requires IsIdle(s) && !s.ended && IsScript(script, lim)
    ensures OnEvent(s, EventsOf(script)[0], lim) == Begun(s, script.index, BlockIn(script))
  {
    IdleFlush(s, lim);
  }

  lemma StopClient(s: Turn, script: Script, lim: Limits)
    requires !s.ended && NoneOpen(s.blocks) && script.index >= 0 && script.index in s.blocks.byIndex
    requires s.call == Call(TextIn(script.start, "id"), TextIn(script.start, "name"), script.index)
    ensures var t, b := OnEvent(s, BlockStop(script.index), lim), s.blocks.byIndex[script.index];
            && IsIdle(t) && !t.ended
            && t.blocks == Put(s.blocks, script.index, b.(part :=
                 Some(ToolUsePart(s.call.id, s.call.name, Decoded(lim.decode, s.buffer)))))
  {
    var t := FlushCall(s, lim);
    forall i ensures !IsServerOpen(t.blocks, i) {
      assert !IsServerOpen(s.blocks, i);
    }
  }

  lemma StopOther(s: Turn, script: Script, lim: Limits)
    requires !s.ended && s.call.NoCall? && script.index in s.blocks.byIndex
    requires forall i | IsServerOpen(s.blocks, i) :: i == script.index
    ensures var t, b := OnEvent(s, BlockStop(script.index), lim), s.blocks.byIndex[script.index];
            && IsIdle(t) && !t.ended && t.blocks == Put(s.blocks, script.index, Finished(b, lim.decode))
  {
    var b := s.blocks.byIndex[script.index];
    var t := OnEvent(s, BlockStop(script.index), lim);
    assert s.blocks.byIndex[script.index := b] == s.blocks.byIndex;
    forall i ensures !IsServerOpen(t.blocks, i) {
      assert i != script.index ==> !IsServerOpen(s.blocks, i);
    }
  }

  function BlockIn(script: Script): Block {
    Block(KindOf(script), script.start, Some(Object(script.start)))
  }

  function Middle(script: Script): StreamBlock {
    Joined(Started(BlockIn(script)), SumOf(script.deltas))
  }

  /** Up to its stop event the block is the one thing that may be open. */
  lemma ScriptOpened(s: Turn, script: Script, lim: Limits)
    requires IsIdle(s) && !s.ended && IsScript(script, lim) && script.index !in s.blocks.byIndex
    ensures var t := Run(Begun(s, script.index, BlockIn(script)), script.deltas, lim);
            && !t.ended && t.blocks == Put(s.blocks, script.index, Middle(script))
            && (if KindOf(script) == "tool_use" then
                  t.call == Call(TextIn(script.start, "id"), TextIn(script.start, "name"), script.index)
                  && t.buffer == SumOf(script.deltas).input
                else t.call.NoCall?)
            && forall i :: IsServerOpen(t.blocks, i) <==> i == script.index && KindOf(script) == "server_tool_use"
  {
    var s1, block := Begun(s, script.index, BlockIn(script)), BlockIn(script);
    BegunOpens(s, script.index, block);
    assert "" + SumOf(script.deltas).input == SumOf(script.deltas).input;
    DeltasRun(s1, KindOf(script), script.index, script.deltas, lim);
    PutTwice(s.blocks, script.index, Started(block), Middle(script));
    forall i ensures IsServerOpen(Put(s.blocks, script.index, Middle(script)), i) <==>
                     i == script.index && KindOf(script) == "server_tool_use"
    {
      assert !IsServerOpen(s.blocks, i);
    }
  }

  lemma EventsOfRun(s: Turn, script: Script, lim: Limits)
    requires IsIdle(s) && !s.ended && IsScript(script, lim)
    ensures Run(s, EventsOf(script), lim) ==
            OnEvent(Run(Begun(s, script.index, BlockIn(script)), script.deltas, lim), BlockStop(script.index), lim)
  {
    var first, last := BlockStart(script.index, Some(Object(script.start))), BlockStop(script.index);
    StartRun(s, script, lim);
    OneEvent(s, first, lim);
    RunConcat(s, [first], script.deltas, lim);
    RunNext(s, [first] + script.deltas, last, lim);
  }

  /** One block's events, run while nothing else is open, leave just that block behind. */
  lemma ScriptRun(s: Turn, script: Script, lim: Limits)
    requires IsIdle(s) && !s.ended && IsScript(script, lim) && script.index !in s.blocks.byIndex
    ensures var t := Run(s, EventsOf(script), lim);
            IsIdle(t) && !t.ended && t.blocks == Put(s.blocks, script.index, Final(script, lim.decode))
  {
    var s2 := Run(Begun(s, script.index, BlockIn(script)), script.deltas, lim);
    EventsOfRun(s, script, lim);
    ScriptOpened(s, script, lim);
    PutTwice(s.blocks, script.index, Middle(script), Final(script, lim.decode));
    if KindOf(script) == "tool_use" {
      StopClient(s2, script, lim);
    } else {
      StopOther(s2, script, lim);
    }
  }

  /** What a script must meet for its streamed part to be the reference part. */
  predicate Agrees(script: Script, decode: Decoder) {
    && (KindOf(script) == "text" ==> Citations(ListIn(script.start, "citations")) == [])
    && (KindOf(script) == "tool_use" ==> decode(SumOf(script.deltas).input).Some?)
  }

  lemma TextAgrees(script: Script, lim: Limits)
    requires IsScript(script, lim) && KindOf(script) == "text"
    ensures PartOf(Final(script, lim.decode), lim.decode).Some?
    ensures PartOf(Final(script, lim.decode), lim.decode).value == ReferencePart(script, lim.decode) <==>
            Agrees(script, lim.decode)
  {
    var first, rest := ListIn(script.start, "citations"), SumOf(script.deltas).citations;
    CitationsConcat(first, rest);
    assert PartOf(Final(script, lim.decode), lim.decode).value.citations == [] + Citations(rest);
    assert ReferencePart(script, lim.decode).citations == Citations(first) + Citations(rest);
    assert Citations(first) == [] <==> [] + Citations(rest) == Citations(first) + Citations(rest);
  }

  lemma ServerAgrees(script: Script, lim: Limits)
    requires IsScript(script, lim) && KindOf(script) == "server_tool_use" && lim.decode("").None?
    ensures PartOf(Final(script, lim.decode), lim.decode) == Some(ReferencePart(script, lim.decode))
  {
    assert "" + SumOf(script.deltas).input == SumOf(script.deltas).input;
  }

  lemma ClientAgrees(script: Script, lim: Limits)
    requires IsScript(script, lim) && KindOf(script) == "tool_use"
    ensures PartOf(Final(script, lim.decode), lim.decode).Some?
    ensures PartOf(Final(script, lim.decode), lim.decode).value == ReferencePart(script, lim.decode) <==>
            Agrees(script, lim.decode)
  {
  }

  lemma OthersAgree(script: Script, lim: Limits)
    requires IsScript(script, lim)
    requires KindOf(script) !in {"text", "tool_use", "server_tool_use"}
    ensures PartOf(Final(script, lim.decode), lim.decode) == Some(ReferencePart(script, lim.decode))
  {
  }

  /**
   A block's streamed part is its non-streaming part exactly when a text block starts without
   citations and a client tool call streams input that decodes.
   */
  lemma PartAgrees(script: Script, lim: Limits)
    requires IsScript(script, lim) && lim.decode("").None?
    ensures PartOf(Final(script, lim.decode), lim.decode).Some?
    ensures PartOf(Final(script, lim.decode), lim.decode).value == ReferencePart(script, lim.decode) <==>
            Agrees(script, lim.decode)
  {
    match KindOf(script) {
      case "text" => TextAgrees(script, lim);
      case "tool_use" => ClientAgrees(script, lim);
      case "server_tool_use" => ServerAgrees(script, lim);
      case _ => OthersAgree(script, lim);
    }
  }

  /** The block map holds exactly the scripts' blocks, complete and in order. */
  ghost predicate IsBuilt(b: Blocks, scripts: seq<Script>, decode: Decoder) {
    && |b.order| == |scripts|
    && forall k | 0 <= k < |scripts| ::
         b.order[k] == scripts[k].index && b.byIndex[scripts[k].index] == Final(scripts[k], decode)
  }

  lemma BuiltNext(b: Blocks, scripts: seq<Script>, decode: Decoder)
    requires scripts != [] && IsBuilt(b, scripts[..|scripts| - 1], decode)
    requires forall j, k | 0 <= j < k < |scripts| :: scripts[j].index != scripts[k].index
    ensures var last := scripts[|scripts| - 1];
            last.index !in b.byIndex && IsBuilt(Put(b, last.index, Final(last, decode)), scripts, decode)
  {
    var init, last := scripts[..|scripts| - 1], scripts[|scripts| - 1];
    forall k | 0 <= k < |b.order| ensures b.order[k] != last.index {
      assert init[k] == scripts[k];
    }
    assert last.index !in b.order;
    forall k | 0 <= k < |init| ensures b.order[k] == scripts[k].index && b.byIndex[scripts[k].index] == Final(scripts[k], decode) {
      assert init[k] == scripts[k];
    }
  }

  lemma {:induction false} ScriptsRun(usage: Usage, scripts: seq<Script>, lim: Limits)
    requires AreScripts(scripts, lim)
    ensures var s := Run(FRESH_TURN, StreamOf(usage, scripts), lim);
            IsIdle(s) && !s.ended && IsBuilt(s.blocks, scripts, lim.decode)
  {
    if scripts == [] {
      OneEvent(FRESH_TURN, MessageStart(usage), lim);
    } else {
      var init, last := scripts[..|scripts| - 1], scripts[|scripts| - 1];
      var s := Run(FRESH_TURN, StreamOf(usage, init), lim);
      ScriptsRun(usage, init, lim);
      RunConcat(FRESH_TURN, StreamOf(usage, init), EventsOf(last), lim);
      BuiltNext(s.blocks, scripts, lim.decode);
      ScriptRun(s, last, lim);
    }
  }

  /** Every block contributes one part, in order. */
  lemma {:induction false} PartsInOrder(b: Blocks, n: nat, decode: Decoder)
    requires n <= |b.order| && forall k | 0 <= k < n :: PartOf(b.byIndex[b.order[k]], decode).Some?
    ensures |PartsUpTo(b, n, decode)| == n
    ensures forall k | 0 <= k < n :: PartsUpTo(b, n, decode)[k] == PartOf(b.byIndex[b.order[k]], decode).value
  {
    if n > 0 {
      PartsInOrder(b, n - 1, decode);
    }
  }

  lemma BuiltParts(b: Blocks, scripts: seq<Script>, lim: Limits)
    requires AreScripts(scripts, lim) && IsBuilt(b, scripts, lim.decode)
    ensures |Parts(b, lim.decode)| == |scripts|
    ensures forall k | 0 <= k < |scripts| ::
              Parts(b, lim.decode)[k] == ReferencePart(scripts[k], lim.decode) <==> Agrees(scripts[k], lim.decode)
  {
    forall k | 0 <= k < |scripts|
      ensures PartOf(b.byIndex[b.order[k]], lim.decode).Some?
      ensures PartOf(b.byIndex[b.order[k]], lim.decode).value == ReferencePart(scripts[k], lim.decode) <==>
              Agrees(scripts[k], lim.decode)
    {
      PartAgrees(scripts[k], lim);
    }
    PartsInOrder(b, |scripts|, lim.decode);
  }

  /**
   Streaming agrees with not streaming: a well-ordered turn's Done carries one part for each block,
   in order, and the parts are the non-streaming ones exactly when every block agrees.
   */
  lemma StreamAgreesWithWhole(usage: Usage, scripts: seq<Script>, done: Event, lim: Limits)
    requires AreScripts(scripts, lim) && done.MessageDelta?
    ensures var items := Run(FRESH_TURN, StreamOf(usage, scripts) + [done], lim).items;
            && items != [] && items[|items| - 1].Done? && |items[|items| - 1].parts| == |scripts|
            && ((forall k | 0 <= k < |scripts| :: items[|items| - 1].parts[k] == ReferencePart(scripts[k], lim.decode)) <==>
                (forall k | 0 <= k < |scripts| :: Agrees(scripts[k], lim.decode)))
  {
    var s := Run(FRESH_TURN, StreamOf(usage, scripts), lim);
    ScriptsRun(usage, scripts, lim);
    RunNext(FRESH_TURN, StreamOf(usage, scripts), done, lim);
    IdleFlush(s, lim);
    BuiltParts(s.blocks, scripts, lim);
  }
}
