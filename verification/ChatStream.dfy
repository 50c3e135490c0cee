/**
 Streamed chat completions (provider/openaicompat/openaicompat.go, parseStream).

 Deltas of parallel tool calls arrive interleaved and are put together per index. `Assembly` is the
 parser's state as a value; `Parser` keeps it on the heap, where `byIndex` and `latest` point into
 `calls`. Lengths are in bytes, one `char` each.
 */
module ChatStream {
  import opened Streams
  import opened Wrappers

  // ---------------------------------------------------------------------------------------------
  // The wire
  // ---------------------------------------------------------------------------------------------

  datatype Index = NoIndex | At(i: int)

  datatype Delta = Delta(index: Index, id: string, name: string, args: string)

  datatype Usage = Usage(prompt: int, completion: int, cached: int)

  datatype Choice = Choice(reasoningContent: string, reasoning: string, content: string, calls: seq<Delta>, finish: string)

  /** One data line of the stream. Lines without data are skipped before this point. */
  datatype Line = Malformed | Chunk(usage: Option<Usage>, choice: Option<Choice>)

  /** How the lines end: the [DONE] line, a clean end of the body, or a read error. */
  datatype Ending = DoneMarker | EndOfBody | ReadError

  datatype Item =
    | Thinking(text: string)
    | Content(text: string)
    | ToolUse(id: string, name: string, input: Input)
    | MalformedEvent
    | Done(stopReason: string, rawStopReason: string, inputTokens: int, outputTokens: int, cacheReadTokens: int)
    | InputTooLarge
    | StreamFailed
    | Incomplete

  predicate IsTerminal(i: Item) {
    i.Done? || i.InputTooLarge? || i.StreamFailed? || i.Incomplete?
  }

  const NOT_REPORTED := -1

  function Max(a: int, b: int): int {
    if a > b then a else b
  }

  function Min(a: int, b: int): int {
    if a < b then a else b
  }

  /** prompt_tokens includes the cached ones; the two parts are disjoint. */
  function SplitPrompt(prompt: int, cached: int): (r: (int, int))
    ensures r.0 >= 0 && r.1 >= 0 && r.0 + r.1 == Max(prompt, 0)
  {
    var total := Max(prompt, 0);
    var hit := Min(Max(cached, 0), total);
    (total - hit, hit)
  }

  function StopReason(finish: string): (r: string)
    ensures r == "" <==> finish == ""
  {
    if finish == "stop" then "end_turn"
    else if finish == "tool_calls" then "tool_use"
    else if finish == "length" then "max_tokens"
    else if finish == "content_filter" then "refusal"
    else finish
  }

  // ---------------------------------------------------------------------------------------------
  // Assembly of tool calls
  // ---------------------------------------------------------------------------------------------

  datatype Call = Call(id: string, name: string, args: string, emitted: bool)

  /** `byIndex` and `latest` are positions in `calls`. */
  datatype RawAssembly = Assembly(
    calls: seq<Call>, byIndex: map<int, nat>, latest: Option<nat>, pendingBytes: int, anyCall: bool, failed: bool,
    items: seq<Item>)

  predicate PointsInside(a: RawAssembly) {
    && (forall i | i in a.byIndex :: a.byIndex[i] < |a.calls|)
    && (a.latest.Some? ==> a.latest.value < |a.calls|)
  }

  type Assembly = a: RawAssembly | PointsInside(a) witness EMPTY

  const EMPTY := Assembly([], map[], None, 0, false, false, [])

  datatype Limits = Limits(maxToolInput: nat, decode: Decoder)

  function Emit(a: Assembly, k: nat, lim: Limits): (b: Assembly)
    requires k < |a.calls|
    ensures |b.calls| == |a.calls| && b.byIndex == a.byIndex
  {
    var c := a.calls[k];
    if c.emitted then a
    else
      a.(calls := a.calls[k := c.(emitted := true)],
         pendingBytes := a.pendingBytes - |c.args|,
         anyCall := true,
         items := a.items + [ToolUse(c.id, c.name, Decoded(lim.decode, c.args))])
  }

  function EmitFirst(a: Assembly, n: nat, lim: Limits): (b: Assembly)
    requires n <= |a.calls|
    ensures |b.calls| == |a.calls|
  {
    if n == 0 then a else Emit(EmitFirst(a, n - 1, lim), n - 1, lim)
  }

  function EmitAll(a: Assembly, lim: Limits): Assembly {
    EmitFirst(a, |a.calls|, lim).(calls := [], byIndex := map[], latest := None)
  }

  function StartCall(a: Assembly, d: Delta): Assembly {
    a.(calls := a.calls + [Call(d.id, d.name, "", false)])
  }

  predicate IsReuse(a: Assembly, d: Delta)
    requires d.index.At? && d.index.i in a.byIndex
  {
    var c := a.calls[a.byIndex[d.index.i]];
    d.id != "" && c.id != "" && d.id != c.id
  }

  function StartAt(a: Assembly, d: Delta): Assembly
    requires d.index.At?
  {
    StartCall(a, d).(byIndex := a.byIndex[d.index.i := |a.calls|])
  }

  /** The call a delta belongs to: its state, and its position if there is one to continue. */
  function Select(a: Assembly, d: Delta, lim: Limits): (r: (Assembly, Option<nat>))
    ensures r.1.Some? ==> r.1.value < |r.0.calls|
  {
    if d.index.At? then
      if d.index.i !in a.byIndex then (StartAt(a, d), Some(|a.calls|))
      else if IsReuse(a, d) then (StartAt(Emit(a, a.byIndex[d.index.i], lim), d), Some(|a.calls|))
      else (a, Some(a.byIndex[d.index.i]))
    else if d.id != "" then (StartCall(EmitAll(a, lim), d), Some(0))
    else (a, a.latest)
  }

  /** The first delta that names a call, or identifies it, is the one that counts. */
  function Named(c: Call, d: Delta): Call {
    c.(id := if c.id == "" then d.id else c.id, name := if c.name == "" then d.name else c.name)
  }

  function Accept(a: Assembly, k: nat, d: Delta, lim: Limits): Assembly
    requires k < |a.calls|
  {
    var named := Named(a.calls[k], d);
    var b := a.(calls := a.calls[k := named], latest := Some(k));
    if a.pendingBytes + |d.args| > lim.maxToolInput && d.args != "" then
      b.(failed := true, items := a.items + [InputTooLarge])
    else
      b.(calls := a.calls[k := named.(args := named.args + d.args)], pendingBytes := a.pendingBytes + |d.args|)
  }

  function OnDelta(a: Assembly, d: Delta, lim: Limits): Assembly {
    if a.failed then a
    else
      var (b, k) := Select(a, d, lim);
      if k.Some? then Accept(b, k.value, d, lim) else b
  }

  function OnDeltas(a: Assembly, ds: seq<Delta>, lim: Limits): Assembly {
    if ds == [] then a else OnDelta(OnDeltas(a, ds[..|ds| - 1], lim), ds[|ds| - 1], lim)
  }

  // ---------------------------------------------------------------------------------------------
  // The whole stream
  // ---------------------------------------------------------------------------------------------

  datatype Parse = Parse(asm: Assembly, finish: string, raw: string, input: int, output: int, cacheRead: int)

  const START := Parse(EMPTY, "", "", NOT_REPORTED, NOT_REPORTED, 0)

  function WithItems(p: Parse, items: seq<Item>): Parse {
    p.(asm := p.asm.(items := p.asm.items + items))
  }

  function OnUsage(p: Parse, u: Option<Usage>): Parse {
    if u == None then p
    else
      var (uncached, cached) := SplitPrompt(u.value.prompt, u.value.cached);
      p.(input := uncached, cacheRead := cached, output := u.value.completion)
  }

  function Reasoning(c: Choice): string {
    if c.reasoningContent == "" then c.reasoning else c.reasoningContent
  }

  function OnText(p: Parse, c: Choice): Parse {
    WithItems(p, (if Reasoning(c) != "" then [Thinking(Reasoning(c))] else []) + if c.content != "" then [Content(c.content)] else [])
  }

  function OnFinish(p: Parse, c: Choice, lim: Limits): Parse {
    if c.finish == "" || p.asm.failed then p
    else p.(finish := StopReason(c.finish), raw := c.finish, asm := EmitAll(p.asm, lim))
  }

  function OnChoice(p: Parse, c: Choice, lim: Limits): Parse {
    var q := OnText(p, c);
    OnFinish(q.(asm := OnDeltas(q.asm, c.calls, lim)), c, lim)
  }

  function OnLine(p: Parse, line: Line, lim: Limits): Parse {
    if p.asm.failed then p
    else if line.Malformed? then if p.finish != "" then p else WithItems(p, [MalformedEvent])
    else
      var q := OnUsage(p, line.usage);
      if line.choice == None then q else OnChoice(q, line.choice.value, lim)
  }

  function OnLines(lines: seq<Line>, lim: Limits): Parse {
    if lines == [] then START else OnLine(OnLines(lines[..|lines| - 1], lim), lines[|lines| - 1], lim)
  }

  /** The stop reason, synthesized for a server that sent [DONE] but no finish_reason. */
  function FinalReason(p: Parse, ending: Ending): string {
    if p.finish == "" && ending.DoneMarker? then if p.asm.anyCall then "tool_use" else "end_turn" else p.finish
  }

  function LastItem(p: Parse, ending: Ending): Item {
    if FinalReason(p, ending) != "" then Done(FinalReason(p, ending), p.raw, p.input, p.output, p.cacheRead)
    else if ending.ReadError? then StreamFailed
    else Incomplete
  }

  function Ended(p: Parse, ending: Ending, lim: Limits): Parse {
    if p.asm.failed then p
    else
      var q := p.(asm := EmitAll(p.asm, lim));
      WithItems(q, [LastItem(q, ending)])
  }

  /** Everything a consumer that never stops receives. */
  function Items(lines: seq<Line>, ending: Ending, lim: Limits): seq<Item> {
    Ended(OnLines(lines, lim), ending, lim).asm.items
  }
}
