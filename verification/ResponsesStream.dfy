/**
 Streamed Responses API turns (provider/openairesponses/responses.go, parseStream).

 A function call in flight is a cell that `pending` reaches under its item ID, under "#" and its
 output index, or under both. `cells` lists every cell ever made, reachable or not; `Pending` is the
 parser's state as a value and `Parser` keeps it on the heap. Lengths are in bytes, one `char` each.
 */
module ResponsesStream {
  import opened Decimals
  import opened Sequences
  import opened Streams

  datatype Usage = Usage(input: int, cached: int, output: int, reasoning: int)

  datatype Event =
    | TextDelta(text: string)
    | SummaryDelta(text: string)
    | ItemAdded(isCall: bool, outputIndex: int, itemId: string, callId: string, name: string)
    | ArgsDelta(itemId: string, outputIndex: int, delta: string)
    | ArgsDone(itemId: string, outputIndex: int, name: string, callId: string, args: string)
    | TurnEnded(stopReason: string, rawStopReason: string, usage: Usage)
    | ErrorEvent(message: string)
    | MalformedEvent
    | OtherEvent

  /** How the lines end: [DONE] or a clean end of the body, or a read error. */
  datatype Ending = EndOfBody | ReadError

  datatype Item =
    | Content(text: string)
    | Thinking(text: string)
    | ToolUse(id: string, name: string, input: Input)
    | Malformed
    | Done(stopReason: string, rawStopReason: string, inputTokens: int, outputTokens: int, thinkingTokens: int, cacheReadTokens: int)
    | InputTooLarge
    | ServerError(message: string)
    | StreamFailed
    | Incomplete

  predicate IsTerminal(i: Item) {
    i.Done? || i.InputTooLarge? || i.ServerError? || i.StreamFailed? || i.Incomplete?
  }

  /** input_tokens includes the cached share, output_tokens the reasoning share: split, never twice. */
  function Split(total: int, share: int): (r: (int, int))
    ensures r.0 >= 0 && r.1 >= 0 && r.0 + r.1 == (if total < 0 then 0 else total)
    ensures 0 <= share <= total ==> r.1 == share
  {
    var whole := if total < 0 then 0 else total;
    var part := if share < 0 then 0 else if share > whole then whole else share;
    (whole - part, part)
  }

  function Itoa(i: int): string {
    if i < 0 then "-" + Decimal(-i) else Decimal(i)
  }

  function Key(itemId: string, outputIndex: int): string {
    if itemId == "" then "#" + Itoa(outputIndex) else itemId
  }

  datatype Cell = Cell(name: string, callId: string, args: string)

  datatype RawPending = Pending(
    cells: seq<Cell>, pending: map<string, nat>, pendingBytes: int, anyCall: bool, ended: bool, items: seq<Item>)

  predicate PointsInside(s: RawPending) {
    forall key | key in s.pending :: s.pending[key] < |s.cells|
  }

  type Pending = s: RawPending | PointsInside(s) witness START

  const START := Pending([], map[], 0, false, false, [])

  datatype Limits = Limits(maxToolInput: nat, decode: Decoder)

  function Give(s: Pending, item: Item): Pending {
    s.(items := s.items + [item])
  }

  function Stop(s: Pending, item: Item): Pending {
    s.(items := s.items + [item], ended := true)
  }

  /** The cell an event is about, made on first mention. */
  function PendingFor(s: Pending, itemId: string, outputIndex: int): (r: (Pending, nat))
    ensures r.1 < |r.0.cells|
  {
    var key := Key(itemId, outputIndex);
    if key in s.pending then (s, s.pending[key])
    else (s.(cells := s.cells + [Cell("", "", "")], pending := s.pending[key := |s.cells|]), |s.cells|)
  }

  function SetCell(s: Pending, k: nat, c: Cell): (t: Pending)
    requires k < |s.cells|
    ensures |t.cells| == |s.cells|
  {
    s.(cells := s.cells[k := c])
  }

  function AddBytes(s: Pending, bytes: int): Pending {
    s.(pendingBytes := s.pendingBytes + bytes)
  }

  /** The cell is also reachable by index, for servers that omit item_id on deltas. */
  function Alias(s: Pending, outputIndex: int, k: nat): Pending
    requires k < |s.cells|
  {
    s.(pending := s.pending["#" + Itoa(outputIndex) := k])
  }

  /** Both keys of the finished call, as the done event names it, are forgotten. */
  function Forgotten(s: Pending, itemId: string, outputIndex: int): Pending {
    s.(pending := s.pending - {Key(itemId, outputIndex), "#" + Itoa(outputIndex)})
  }

  function ReleasedCall(s: Pending, k: nat, itemId: string, outputIndex: int): Pending
    requires k < |s.cells|
  {
    var c := s.cells[k];
    Forgotten(SetCell(AddBytes(s, -|c.args|), k, c.(args := "")), itemId, outputIndex)
  }

  function OnAdded(s: Pending, ev: Event): Pending
    requires ev.ItemAdded?
  {
    if !ev.isCall then s
    else
      var (t, k) := PendingFor(s, ev.itemId, ev.outputIndex);
      var u := SetCell(t, k, t.cells[k].(name := ev.name, callId := ev.callId));
      if ev.itemId == "" then u else Alias(u, ev.outputIndex, k)
  }

  function OnArgs(s: Pending, ev: Event, lim: Limits): Pending
    requires ev.ArgsDelta?
  {
    var (t, k) := PendingFor(s, ev.itemId, ev.outputIndex);
    if t.pendingBytes + |ev.delta| > lim.maxToolInput then Stop(t, InputTooLarge)
    else AddBytes(SetCell(t, k, t.cells[k].(args := t.cells[k].args + ev.delta)), |ev.delta|)
  }

  function DoneItem(c: Cell, ev: Event, lim: Limits): Item
    requires ev.ArgsDone?
  {
    ToolUse(if ev.callId == "" then c.callId else ev.callId, if ev.name == "" then c.name else ev.name,
            Decoded(lim.decode, if ev.args == "" then c.args else ev.args))
  }

  function OnDone(s: Pending, ev: Event, lim: Limits): Pending
    requires ev.ArgsDone?
  {
    var (t, k) := PendingFor(s, ev.itemId, ev.outputIndex);
    Give(ReleasedCall(t, k, ev.itemId, ev.outputIndex), DoneItem(t.cells[k], ev, lim)).(anyCall := true)
  }

  function OnEnd(s: Pending, ev: Event): Pending
    requires ev.TurnEnded?
  {
    var (uncached, cached) := Split(ev.usage.input, ev.usage.cached);
    var (spoken, thought) := Split(ev.usage.output, ev.usage.reasoning);
    Stop(s, Done(if s.anyCall then "tool_use" else ev.stopReason, ev.rawStopReason, uncached, spoken, thought, cached))
  }

  function OnEvent(s: Pending, ev: Event, lim: Limits): Pending {
    if s.ended then s
    else
      match ev
      case TextDelta(text) => if text == "" then s else Give(s, Content(text))
      case SummaryDelta(text) => if text == "" then s else Give(s, Thinking(text))
      case ItemAdded(_, _, _, _, _) => OnAdded(s, ev)
      case ArgsDelta(_, _, _) => OnArgs(s, ev, lim)
      case ArgsDone(_, _, _, _, _) => OnDone(s, ev, lim)
      case TurnEnded(_, _, _) => OnEnd(s, ev)
      case ErrorEvent(message) => Stop(s, ServerError(message))
      case MalformedEvent => Give(s, Malformed)
      case OtherEvent => s
  }

  function OnEvents(events: seq<Event>, lim: Limits): Pending {
    if events == [] then START else OnEvent(OnEvents(events[..|events| - 1], lim), events[|events| - 1], lim)
  }

  function Items(events: seq<Event>, ending: Ending, lim: Limits): seq<Item> {
    var s := OnEvents(events, lim);
    if s.ended then s.items else Stop(s, if ending.ReadError? then StreamFailed else Incomplete).items
  }

  // ---------------------------------------------------------------------------------------------
  // The parser on the heap
  // ---------------------------------------------------------------------------------------------

  class PendingCall {
    var name: string
    var callId: string
    var args: string

    function View(): Cell
      reads this
    {
      Cell(name, callId, args)
    }

    constructor ()
      ensures View() == Cell("", "", "")
    {
      name, callId, args := "", "", "";
    }
  }

  class Parser {
    const lim: Limits
    const out: Consumer<Item>
    var pending: map<string, PendingCall>
    var pendingBytes: int
    var emittedToolCall: bool
    ghost var cells: seq<PendingCall>
    ghost var model: Pending

    ghost predicate Valid()
      reads this, cells, out
    {
      && (forall i, j | 0 <= i < j < |cells| :: cells[i] != cells[j])
      && |model.cells| == |cells|
      && (forall k | 0 <= k < |cells| :: model.cells[k] == cells[k].View())
      && pending.Keys == model.pending.Keys
      && (forall key | key in pending :: pending[key] == cells[model.pending[key]])
      && pendingBytes == model.pendingBytes && emittedToolCall == model.anyCall
      && out.Valid()
    }

    ghost predicate IsLive()
      reads this, cells, out
    {
      Valid() && !model.ended && !out.stopped && out.received == model.items
    }

    /** The consumer stopped, or parsing did: it will see no more of what leads to `s`. */
    ghost predicate IsOver(s: Pending)
      reads out
    {
      out.Valid() && out.received <= s.items && (out.stopped || (s.ended && out.received == s.items))
    }

    constructor (lim: Limits, out: Consumer<Item>)
      requires out.Valid() && !out.stopped && out.received == []
      ensures IsLive() && model == START && cells == [] && this.lim == lim && this.out == out
    {
      this.lim, this.out := lim, out;
      pending, pendingBytes, emittedToolCall, cells, model := map[], 0, false, [], START;
    }

    method Yield(item: Item) returns (more: bool)
      requires IsLive()
      modifies this`model, out
      ensures model == Give(old(model), item)
      ensures more ==> IsLive()
      ensures !more ==> IsOver(model) && out.stopped
    {
      model := Give(model, item);
      more := out.Yield(item);
    }

    method FindOrMake(itemId: string, outputIndex: int) returns (p: PendingCall, ghost k: nat)
      requires IsLive()
      modifies this`pending, this`cells, this`model
      ensures IsLive() && (model, k) == PendingFor(old(model), itemId, outputIndex)
      ensures k < |cells| && cells[k] == p
      ensures p in old(cells) || fresh(p)
      ensures forall k | 0 <= k < |cells| :: cells[k] in old(cells) || fresh(cells[k])
    {
      var key := itemId;
      if key == "" {
        key := "#" + Itoa(outputIndex);
      }
      if key in pending {
        p := pending[key];
        k := model.pending[key];
      } else {
        p := new PendingCall();
        k := |cells|;
        pending := pending[key := p];
        model := PendingFor(model, itemId, outputIndex).0;
        cells := cells + [p];
      }
    }

    /** Writes a call's fields, on the heap and in the model. */
    method Store(call: PendingCall, ghost k: nat, c: Cell)
      requires IsLive() && k < |cells| && cells[k] == call
      modifies this`model, call
      ensures IsLive() && model == SetCell(old(model), k, c)
    {
      call.name, call.callId, call.args := c.name, c.callId, c.args;
      model := SetCell(model, k, c);
    }

    /** Changes the counter, on the heap and in the model. */
    method Count(bytes: int)
      requires IsLive()
      modifies this`model, this`pendingBytes
      ensures IsLive() && model == AddBytes(old(model), bytes)
    {
      pendingBytes := pendingBytes + bytes;
      model := AddBytes(model, bytes);
    }

    method OnItemAdded(ev: Event)
      requires IsLive() && ev.ItemAdded?
      modifies this`pending, this`cells, this`model, cells
      ensures forall k | 0 <= k < |cells| :: cells[k] in old(cells) || fresh(cells[k])
      ensures IsLive() && model == OnAdded(old(model), ev)
    {
      if !ev.isCall {
        return;
      }
      var call, k := FindOrMake(ev.itemId, ev.outputIndex);
      Store(call, k, call.View().(name := ev.name, callId := ev.callId));
      if ev.itemId != "" {
        AddAlias(ev.outputIndex, call, k);
      }
    }

    method AddAlias(outputIndex: int, call: PendingCall, ghost k: nat)
      requires IsLive() && k < |cells| && cells[k] == call
      modifies this`pending, this`model
      ensures IsLive() && model == Alias(old(model), outputIndex, k)
    {
      pending := pending["#" + Itoa(outputIndex) := call];
      model := Alias(model, outputIndex, k);
    }

    method OnArgsDelta(ev: Event) returns (more: bool)
      requires IsLive() && ev.ArgsDelta?
      modifies this, cells, out
      ensures forall k | 0 <= k < |cells| :: cells[k] in old(cells) || fresh(cells[k])
      ensures more ==> IsLive() && model == OnArgs(old(model), ev, lim)
      ensures !more ==> IsOver(OnArgs(old(model), ev, lim))
    {
      var call, k := FindOrMake(ev.itemId, ev.outputIndex);
      if pendingBytes + |ev.delta| > lim.maxToolInput {
        more := out.Yield(InputTooLarge);
        return false;
      }
      Store(call, k, call.View().(args := call.args + ev.delta));
      Count(|ev.delta|);
      more := true;
    }

    /** Forgets the keys of a finished call. */
    method Forget(itemId: string, outputIndex: int)
      requires IsLive()
      modifies this`pending, this`model
      ensures IsLive() && model == Forgotten(old(model), itemId, outputIndex)
    {
      model := Forgotten(model, itemId, outputIndex);
      if itemId != "" {
        pending := pending - {itemId};
      }
      pending := pending - {"#" + Itoa(outputIndex)};
    }

    method ReleaseCall(itemId: string, outputIndex: int, call: PendingCall, ghost k: nat)
      requires IsLive() && k < |cells| && cells[k] == call
      modifies this`pending, this`pendingBytes, this`model, call
      ensures IsLive() && model == ReleasedCall(old(model), k, itemId, outputIndex)
    {
      Count(-|call.args|);
      Store(call, k, call.View().(args := ""));
      Forget(itemId, outputIndex);
    }

    /** Yields the finished call: the done event's own values where it has them. */
    method EmitDone(c: Cell, ev: Event) returns (more: bool)
      requires IsLive() && ev.ArgsDone?
      modifies this`model, this`emittedToolCall, out
      ensures model == Give(old(model), DoneItem(c, ev, lim)).(anyCall := true)
      ensures more ==> IsLive()
      ensures !more ==> IsOver(model) && out.stopped
    {
      var name, callId, args := ev.name, ev.callId, ev.args;
      if name == "" {
        name := c.name;
      }
      if callId == "" {
        callId := c.callId;
      }
      if args == "" {
        args := c.args;
      }
      more := Yield(ToolUse(callId, name, Decoded(lim.decode, args)));
      emittedToolCall := true;
      model := model.(anyCall := true);
    }

    method OnArgsDone(ev: Event) returns (more: bool)
      requires IsLive() && ev.ArgsDone?
      modifies this, cells, out
      ensures forall k | 0 <= k < |cells| :: cells[k] in old(cells) || fresh(cells[k])
      ensures more ==> IsLive() && model == OnDone(old(model), ev, lim)
      ensures !more ==> IsOver(OnDone(old(model), ev, lim)) && out.stopped
    {
      var call, k := FindOrMake(ev.itemId, ev.outputIndex);
      assert call.View() == model.cells[k];
      var c := call.View();
      ReleaseCall(ev.itemId, ev.outputIndex, call, k);
      more := EmitDone(c, ev);
    }

    method OnOneEvent(ev: Event) returns (more: bool)
      requires IsLive()
      modifies this, cells, out
      ensures forall k | 0 <= k < |cells| :: cells[k] in old(cells) || fresh(cells[k])
      ensures more ==> IsLive() && model == OnEvent(old(model), ev, lim)
      ensures !more ==> IsOver(OnEvent(old(model), ev, lim))
    {
      more := true;
      match ev {
        case TextDelta(text) =>
          if text != "" {
            more := Yield(Content(text));
          }
        case SummaryDelta(text) =>
          if text != "" {
            more := Yield(Thinking(text));
          }
        case ItemAdded(_, _, _, _, _) =>
          OnItemAdded(ev);
        case ArgsDelta(_, _, _) =>
          more := OnArgsDelta(ev);
        case ArgsDone(_, _, _, _, _) =>
          more := OnArgsDone(ev);
        case TurnEnded(stop, raw, usage) =>
          var stopReason := stop;
          if emittedToolCall {
            stopReason := "tool_use";
          }
          var (uncached, cached) := Split(usage.input, usage.cached);
          var (spoken, thought) := Split(usage.output, usage.reasoning);
          more := out.Yield(Done(stopReason, raw, uncached, spoken, thought, cached));
          more := false;
        case ErrorEvent(message) =>
          more := out.Yield(ServerError(message));
          more := false;
        case MalformedEvent =>
          more := Yield(Malformed);
        case OtherEvent =>
      }
    }
  }

  lemma EventGrows(s: Pending, ev: Event, lim: Limits)
    ensures s.items <= OnEvent(s, ev, lim).items
    ensures s.ended ==> OnEvent(s, ev, lim) == s
  {
  }

  lemma {:induction false} EventsGrow(events: seq<Event>, i: nat, lim: Limits)
    requires i <= |events|
    ensures var s, t := OnEvents(events[..i], lim), OnEvents(events, lim);
            s.items <= t.items && (s.ended ==> t == s)
    decreases |events|
  {
    if i == |events| {
      assert events[..i] == events;
    } else {
      var init := events[..|events| - 1];
      assert init[..i] == events[..i];
      EventsGrow(init, i, lim);
      EventGrows(OnEvents(init, lim), events[|events| - 1], lim);
    }
  }

  /** The whole parser: the consumer sees exactly `Items`, or the part of it up to where it stopped. */
  method ParseStream(events: seq<Event>, ending: Ending, lim: Limits, out: Consumer<Item>)
    requires out.Valid() && !out.stopped && out.received == []
    modifies out
    ensures out.Saw(Items(events, ending, lim))
  {
    var p := new Parser(lim, out);
    var i := 0;
    while i < |events|
      invariant i <= |events| && p.out == out && p.lim == lim && fresh(p) && forall k | 0 <= k < |p.cells| :: fresh(p.cells[k])
      invariant p.IsLive() && p.model == OnEvents(events[..i], lim)
    {
      TakeNext(events, i);
      var more := p.OnOneEvent(events[i]);
      i := i + 1;
      if !more {
        EventsGrow(events, i, lim);
        return;
      }
    }
    assert events[..|events|] == events;
    if ending.ReadError? {
      var more := out.Yield(StreamFailed);
      return;
    }
    var more := out.Yield(Incomplete);
  }
}
