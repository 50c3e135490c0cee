/**
 Folding a neutral event stream into a response (streamfold.go, parts.go) and a response into the
 assistant message that goes into the transcript (types.go).
 */
module StreamFold {
  import opened Normalize
  import opened Sequences
  import opened Wrappers

  /** `rest` stands for the call's name and input, which nothing here looks at. */
  datatype ToolCall = ToolCall(id: string, rest: string, thoughtSignature: string)

  datatype ServerTools = ServerTools(webSearches: int, webFetches: int, codeExecutions: int)

  /** The billing record of one attempt at a turn, with the model that made it. */
  datatype Iteration = Iteration(model: string, input: int, output: int, cacheWrite: int, cacheRead: int, cacheWrite1h: int)

  /** What a terminal event reports; `rest` stands for stop details. */
  datatype Report = Report(
    model: string, stopReason: string, rawStopReason: string, container: string,
    inputTokens: int, outputTokens: int, thinkingTokens: int, cacheWriteTokens: int, cacheReadTokens: int,
    cacheWrite1hTokens: int, serverTools: ServerTools, iterations: seq<Iteration>, rest: string)

  const NO_REPORT := Report("", "", "", "", 0, 0, 0, 0, 0, 0, ServerTools(0, 0, 0), [], "")

  datatype EventKind =
    | ContentEvent | ThinkingEvent | ToolUseEvent | DoneEvent | ErrorEvent
    | TextStart | TextEnd | ThinkingStart | ThinkingEnd | ToolStart | ToolEnd
    | OtherEvent(name: string)

  datatype StreamEvent = StreamEvent(
    kind: EventKind, text: string, thinking: string, call: Option<ToolCall>,
    signature: string, redacted: bool, parts: seq<Part>, report: Report)

  function Bare(kind: EventKind): StreamEvent {
    StreamEvent(kind, "", "", None, "", false, [], NO_REPORT)
  }

  /** One step of an event stream: an event, or an event with the error that ends it. */
  datatype Step = Ok(event: StreamEvent) | Err(event: StreamEvent, error: string)

  datatype Response = Response(
    content: string, thinking: string, signature: string, redacted: bool, calls: seq<ToolCall>,
    parts: seq<Part>, report: Report)

  datatype Folded = Folded(
    text: string, thinking: string, signature: string, redacted: bool, calls: seq<ToolCall>,
    final: StreamEvent, done: bool)

  const NOTHING_FOLDED := Folded("", "", "", false, [], Bare(OtherEvent("")), false)

  function Plus(f: Folded, ev: StreamEvent): Folded {
    match ev.kind
    case ContentEvent => f.(text := f.text + ev.text)
    case ThinkingEvent => f.(thinking := f.thinking + ev.thinking)
    case ToolUseEvent => if ev.call.Some? then f.(calls := f.calls + [ev.call.value]) else f
    case DoneEvent =>
      f.(final := ev, done := true, signature := if ev.signature == "" then f.signature else ev.signature,
         redacted := f.redacted || ev.redacted)
    case ErrorEvent => f.(final := ev)
    case _ => f
  }

  /** The flat fields of a response, read back from its parts. */
  function WithPart(r: Response, p: Part): Response {
    match p.kind
    case Text => r.(content := r.content + p.text)
    case Thinking =>
      r.(thinking := r.thinking + p.thinking, signature := if p.signature == "" then r.signature else p.signature,
         redacted := r.redacted || p.redacted)
    case ToolUse => r.(calls := r.calls + [ToolCall(p.toolUseId, p.rest, "")])
    case _ => r
  }

  function WithPartsUpTo(r: Response, parts: seq<Part>): Response {
    if parts == [] then r.(content := "", thinking := "", signature := "", redacted := false, calls := [])
    else WithPart(WithPartsUpTo(r, parts[..|parts| - 1]), parts[|parts| - 1])
  }

  function WithParts(r: Response, parts: seq<Part>): Response {
    WithPartsUpTo(r.(parts := parts), parts)
  }

  function ResponseOf(f: Folded): Response {
    var r := Response(f.text, f.thinking, f.signature, f.redacted, f.calls, [], f.final.report);
    if f.final.parts == [] then r else WithParts(r, f.final.parts)
  }

  datatype Collecting = Collecting(folded: Folded, error: Option<string>)

  function Collect(steps: seq<Step>): Collecting {
    if steps == [] then Collecting(NOTHING_FOLDED, None)
    else
      var before, step := Collect(steps[..|steps| - 1]), steps[|steps| - 1];
      if before.error.Some? then before
      else Collecting(Plus(before.folded, step.event), if step.Err? then Some(step.error) else None)
  }

  const STREAM_INCOMPLETE := "llm: stream ended without completion"

  /** CollectStream's results: the response, complete or partial, and the error if it is partial. */
  function Collected(steps: seq<Step>): (Response, Option<string>) {
    var c := Collect(steps);
    (ResponseOf(c.folded), if c.error.Some? then c.error else if c.folded.done then None else Some(STREAM_INCOMPLETE))
  }

  method SetParts(r: Response, parts: seq<Part>) returns (q: Response)
    ensures q == WithParts(r, parts)
  {
    q := r.(parts := parts);
    var text, thinking, signature, redacted, calls := "", "", "", false, [];
    var i := 0;
    while i < |parts|
      invariant i <= |parts|
      invariant q.(content := text, thinking := thinking, signature := signature, redacted := redacted, calls := calls)
             == WithPartsUpTo(q, parts[..i])
    {
      var p := parts[i];
      TakeNext(parts, i);
      match p.kind {
        case Text => text := text + p.text;
        case Thinking =>
          thinking := thinking + p.thinking;
          if p.signature != "" {
            signature := p.signature;
          }
          if p.redacted {
            redacted := true;
          }
        case ToolUse => calls := calls + [ToolCall(p.toolUseId, p.rest, "")];
        case _ =>
      }
      i := i + 1;
    }
    assert parts[..|parts|] == parts;
    q := q.(content := text, thinking := thinking, signature := signature, redacted := redacted, calls := calls);
  }

  class StreamAccumulator {
    var text: string
    var thinking: string
    var thinkingSig: string
    var thinkingRedacted: bool
    var toolCalls: seq<ToolCall>
    var final: StreamEvent
    var done: bool

    ghost function View(): Folded
      reads this
    {
      Folded(text, thinking, thinkingSig, thinkingRedacted, toolCalls, final, done)
    }

    constructor ()
      ensures View() == NOTHING_FOLDED
    {
      text, thinking, thinkingSig, thinkingRedacted := "", "", "", false;
      toolCalls, final, done := [], Bare(OtherEvent("")), false;
    }

    method Add(ev: StreamEvent)
      modifies this
      ensures View() == Plus(old(View()), ev)
    {
      match ev.kind {
        case ContentEvent => text := text + ev.text;
        case ThinkingEvent => thinking := thinking + ev.thinking;
        case ToolUseEvent =>
          if ev.call.Some? {
            toolCalls := toolCalls + [ev.call.value];
          }
        case DoneEvent =>
          final, done := ev, true;
          if ev.signature != "" {
            thinkingSig := ev.signature;
          }
          if ev.redacted {
            thinkingRedacted := true;
          }
        case ErrorEvent => final := ev;
        case _ =>
      }
    }

    method ToResponse() returns (r: Response)
      ensures r == ResponseOf(View())
    {
      r := Response(text, thinking, thinkingSig, thinkingRedacted, toolCalls, [], final.report);
      if final.parts != [] {
        r := SetParts(r, final.parts);
      }
    }
  }

  method CollectStream(steps: seq<Step>) returns (r: Response, error: Option<string>)
    ensures (r, error) == Collected(steps)
  {
    var acc := new StreamAccumulator();
    var i := 0;
    while i < |steps|
      invariant i <= |steps| && Collect(steps[..i]) == Collecting(acc.View(), None)
    {
      TakeNext(steps, i);
      acc.Add(steps[i].event);
      i := i + 1;
      if steps[i - 1].Err? {
        CollectStops(steps, i);
        r := acc.ToResponse();
        return r, Some(steps[i - 1].error);
      }
    }
    assert steps[..|steps|] == steps;
    r := acc.ToResponse();
    error := if acc.done then None else Some(STREAM_INCOMPLETE);
  }

  lemma {:induction false} CollectStops(steps: seq<Step>, n: nat)
    requires n <= |steps| && Collect(steps[..n]).error.Some?
    ensures Collect(steps) == Collect(steps[..n])
    decreases |steps|
  {
    if n == |steps| {
      assert steps[..n] == steps;
    } else {
      assert steps[..|steps| - 1][..n] == steps[..n];
      CollectStops(steps[..|steps| - 1], n);
    }
  }

  // ---------------------------------------------------------------------------------------------
  // From response to transcript
  // ---------------------------------------------------------------------------------------------

  function CallParts(calls: seq<ToolCall>): seq<Part> {
    if calls == [] then []
    else
      var c := calls[|calls| - 1];
      CallParts(calls[..|calls| - 1]) +
      [EMPTY_PART.(kind := ToolUse, toolUseId := c.id, rest := c.rest, thoughtSignature := c.thoughtSignature)]
  }

  function ContentOf(r: Response): seq<Part> {
    if r.parts != [] then r.parts
    else
      (if r.thinking != "" || r.redacted then
         [EMPTY_PART.(kind := Thinking, thinking := r.thinking, signature := r.signature, redacted := r.redacted)]
       else [])
      + (if r.content != "" then [EMPTY_PART.(text := r.content)] else [])
      + CallParts(r.calls)
  }

  function AssistantMessage(r: Response): Message {
    Message(Header(ASSISTANT, "", r.report.model, r.report.stopReason, r.report.container), ContentOf(r))
  }

  function Unsigned(calls: seq<ToolCall>): seq<ToolCall> {
    if calls == [] then [] else Unsigned(calls[..|calls| - 1]) + [calls[|calls| - 1].(thoughtSignature := "")]
  }

  lemma {:induction false} UnsignedAt(calls: seq<ToolCall>, k: nat)
    requires k < |calls|
    ensures |Unsigned(calls)| == |calls| && Unsigned(calls)[k] == calls[k].(thoughtSignature := "")
  {
    var init := calls[..|calls| - 1];
    if k < |init| {
      UnsignedAt(init, k);
    } else if init != [] {
      UnsignedAt(init, 0);
    }
  }

  lemma UnsignedIsSame(calls: seq<ToolCall>)
    ensures Unsigned(calls) == calls <==> forall k | 0 <= k < |calls| :: calls[k].thoughtSignature == ""
  {
    forall k | 0 <= k < |calls| ensures |Unsigned(calls)| == |calls| && Unsigned(calls)[k] == calls[k].(thoughtSignature := "") {
      UnsignedAt(calls, k);
    }
    if calls != [] {
      UnsignedAt(calls, 0);
    }
  }

  lemma {:induction false} CallPartsRead(r: Response, before: seq<Part>, calls: seq<ToolCall>)
    ensures var was := WithPartsUpTo(r, before);
            WithPartsUpTo(r, before + CallParts(calls)) == was.(calls := was.calls + Unsigned(calls))
  {
    if calls == [] {
      assert before + CallParts(calls) == before;
      assert WithPartsUpTo(r, before).calls + [] == WithPartsUpTo(r, before).calls;
    } else {
      var init, c := calls[..|calls| - 1], calls[|calls| - 1];
      var p := EMPTY_PART.(kind := ToolUse, toolUseId := c.id, rest := c.rest, thoughtSignature := c.thoughtSignature);
      var was := WithPartsUpTo(r, before).calls;
      CallPartsRead(r, before, init);
      ReadNext(r, before + CallParts(init), p);
      assert before + CallParts(calls) == (before + CallParts(init)) + [p];
      assert was + Unsigned(calls) == (was + Unsigned(init)) + [c.(thoughtSignature := "")];
    }
  }

  lemma ReadNext(r: Response, parts: seq<Part>, p: Part)
    ensures WithPartsUpTo(r, parts + [p]) == WithPart(WithPartsUpTo(r, parts), p)
  {
    DropAppended(parts, p);
  }

  /** The parts before the calls carry thinking, its signature and the text. */
  lemma ProseRead(r: Response, s: Response)
    requires r.parts == []
    ensures WithPartsUpTo(s, ContentOf(r.(calls := []))) == s.(
              content := r.content, thinking := r.thinking, redacted := r.redacted, calls := [],
              signature := if r.thinking == "" && !r.redacted then "" else r.signature)
  {
    var thought := EMPTY_PART.(kind := Thinking, thinking := r.thinking, signature := r.signature, redacted := r.redacted);
    var said := EMPTY_PART.(text := r.content);
    var before := if r.thinking != "" || r.redacted then [thought] else [];
    ReadNext(s, [], thought);
    ReadNext(s, before, said);
    assert [] + [thought] == [thought];
    assert ContentOf(r.(calls := [])) == if r.content == "" then before else before + [said];
    assert "" + r.thinking == r.thinking && "" + r.content == r.content;
  }

  /**
   Reading the flat fields back from the message parts made of them gives the same fields, except
   that a signature without thinking and the calls' thought signatures do not survive.
   */
  lemma FlatFieldsRoundTrip(r: Response)
    requires r.parts == []
    ensures var back := WithParts(r, ContentOf(r)).(parts := []);
            back == r <==>
              (r.signature != "" ==> r.thinking != "" || r.redacted)
              && forall k | 0 <= k < |r.calls| :: r.calls[k].thoughtSignature == ""
  {
    var prose, s := ContentOf(r.(calls := [])), r.(parts := ContentOf(r));
    assert ContentOf(r) == prose + CallParts(r.calls) && prose + CallParts([]) == prose;
    ProseRead(r, s);
    CallPartsRead(s, prose, r.calls);
    UnsignedIsSame(r.calls);
    assert [] + Unsigned(r.calls) == Unsigned(r.calls);
  }
}
