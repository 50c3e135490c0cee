/**
 The chat stream parser on the heap: `calls`, `byIndex` and `latest` share `StreamingCall` objects, as
 the Go closures do. `model` is the same state as a value; every method says which model it leads to.
 */
module ChatParser {
  import opened ChatStream
  import opened Sequences
  import opened Streams
  import opened Wrappers

  class StreamingCall {
    var id: string
    var name: string
    var args: string
    var emitted: bool

    function View(): Call
      reads this
    {
      Call(id, name, args, emitted)
    }

    constructor (id: string, name: string)
      ensures View() == Call(id, name, "", false)
    {
      this.id, this.name, args, emitted := id, name, "", false;
    }
  }

  class Parser {
    const lim: Limits
    const out: Consumer<Item>
    var calls: seq<StreamingCall>
    var byIndex: map<int, StreamingCall>
    var latest: StreamingCall?
    var pendingBytes: int
    var emittedToolCall: bool
    ghost var model: Assembly

    ghost predicate Valid()
      reads this, calls, out
    {
      && (forall i, j | 0 <= i < j < |calls| :: calls[i] != calls[j])
      && |model.calls| == |calls|
      && (forall k | 0 <= k < |calls| :: model.calls[k] == calls[k].View())
      && byIndex.Keys == model.byIndex.Keys
      && (forall i | i in byIndex :: byIndex[i] == calls[model.byIndex[i]])
      && (latest == null <==> model.latest == None)
      && (latest != null ==> latest == calls[model.latest.value])
      && pendingBytes == model.pendingBytes && emittedToolCall == model.anyCall
      && out.Valid()
    }

    /** The consumer has everything so far and wants more. */
    ghost predicate IsLive()
      reads this, calls, out
    {
      Valid() && !model.failed && !out.stopped && out.received == model.items
    }

    /** The consumer stopped, or parsing did: it will see no more of what leads to `a`. */
    ghost predicate IsOver(a: Assembly)
      reads out
    {
      out.Valid() && out.received <= a.items && (out.stopped || (a.failed && out.received == a.items))
    }

    constructor (lim: Limits, out: Consumer<Item>)
      requires out.Valid() && !out.stopped && out.received == []
      ensures IsLive() && model == EMPTY && calls == [] && this.lim == lim && this.out == out
    {
      this.lim, this.out := lim, out;
      calls, byIndex, latest, pendingBytes, emittedToolCall, model := [], map[], null, 0, false, EMPTY;
    }

    /** Hands one item to the consumer. */
    method Yield(item: Item) returns (more: bool)
      requires IsLive() && !IsTerminal(item)
      modifies this`model, out
      ensures model == old(model).(items := old(model).items + [item])
      ensures more ==> IsLive()
      ensures !more ==> out.Valid() && out.stopped && out.received == model.items
    {
      model := model.(items := model.items + [item]);
      more := out.Yield(item);
    }

    method EmitCall(sc: StreamingCall, ghost k: nat) returns (more: bool)
      requires IsLive() && k < |calls| && calls[k] == sc
      modifies this`pendingBytes, this`emittedToolCall, this`model, sc`emitted, out
      ensures model == Emit(old(model), k, lim)
      ensures more ==> IsLive()
      ensures !more ==> out.Valid() && out.stopped && out.received == model.items
    {
      if sc.emitted {
        return true;
      }
      sc.emitted := true;
      pendingBytes := pendingBytes - |sc.args|;
      emittedToolCall := true;
      model := Emit(model, k, lim);
      more := out.Yield(ToolUse(sc.id, sc.name, Decoded(lim.decode, sc.args)));
    }

    method EmitEach() returns (more: bool)
      requires IsLive()
      modifies this`pendingBytes, this`emittedToolCall, this`model, calls, out
      ensures more ==> IsLive() && model == EmitFirst(old(model), |calls|, lim)
      ensures !more ==> IsOver(EmitAll(old(model), lim)) && out.stopped
    {
      ghost var m := model;
      var i := 0;
      while i < |calls|
        invariant i <= |calls| && IsLive() && model == EmitFirst(m, i, lim)
      {
        more := EmitCall(calls[i], i);
        i := i + 1;
        if !more {
          EmitFirstGrows(m, i, |calls|, lim);
          return false;
        }
      }
      more := true;
    }

    method EmitEverything() returns (more: bool)
      requires IsLive()
      modifies this, calls, out
      ensures more ==> IsLive() && model == EmitAll(old(model), lim) && calls == []
      ensures !more ==> IsOver(EmitAll(old(model), lim)) && out.stopped
      ensures calls == [] || calls == old(calls)
    {
      ghost var m := model;
      more := EmitEach();
      if more {
        calls, latest, byIndex := [], null, map[];
        model := EmitAll(m, lim);
      }
    }

    method StartStreamingCall(d: Delta) returns (sc: StreamingCall)
      requires IsLive()
      modifies this`calls, this`model
      ensures fresh(sc) && calls == old(calls) + [sc]
      ensures IsLive() && model == StartCall(old(model), d)
    {
      sc := new StreamingCall(d.id, d.name);
      calls := calls + [sc];
      model := StartCall(model, d);
    }

    method StartAtIndex(d: Delta) returns (sc: StreamingCall)
      requires IsLive() && d.index.At?
      modifies this`calls, this`byIndex, this`model
      ensures fresh(sc) && calls == old(calls) + [sc]
      ensures IsLive() && model == StartAt(old(model), d)
    {
      ghost var k := |calls|;
      sc := StartStreamingCall(d);
      byIndex := byIndex[d.index.i := sc];
      model := model.(byIndex := model.byIndex[d.index.i := k]);
    }

    /** The cases of the switch for a delta that carries an index. */
    method SelectByIndex(d: Delta) returns (more: bool, sc: StreamingCall?, ghost k: nat)
      requires IsLive() && d.index.At?
      modifies this, calls, out
      ensures forall k | 0 <= k < |calls| :: calls[k] in old(calls) || fresh(calls[k])
      ensures more ==> IsLive() && model == Select(old(model), d, lim).0
      ensures more ==> Select(old(model), d, lim).1 == Some(k) && k < |calls| && calls[k] == sc
      ensures !more ==> IsOver(Select(old(model), d, lim).0) && out.stopped
    {
      k, sc := |calls|, null;
      if d.index.i in byIndex {
        sc := byIndex[d.index.i];
        k := model.byIndex[d.index.i];
        if d.id != "" && sc.id != "" && d.id != sc.id {
          more := EmitCall(sc, k);
          if !more {
            return;
          }
          sc := null;
        }
      }
      if sc == null {
        k := |calls|;
        sc := StartAtIndex(d);
      }
      more := true;
    }

    /** The switch that finds the call a delta belongs to. */
    method SelectCall(d: Delta) returns (more: bool, sc: StreamingCall?, ghost k: nat)
      requires IsLive()
      modifies this, calls, out
      ensures forall k | 0 <= k < |calls| :: calls[k] in old(calls) || fresh(calls[k])
      ensures more ==> IsLive() && model == Select(old(model), d, lim).0
      ensures more && sc == null ==> Select(old(model), d, lim).1 == None
      ensures more && sc != null ==> Select(old(model), d, lim).1 == Some(k) && k < |calls| && calls[k] == sc
      ensures !more ==> IsOver(Select(old(model), d, lim).0) && out.stopped
    {
      k, sc := 0, null;
      if d.index.At? {
        more, sc, k := SelectByIndex(d);
      } else if d.id != "" {
        more := EmitEverything();
        if more {
          sc := StartStreamingCall(d);
        }
      } else {
        sc := latest;
        k := if sc == null then 0 else model.latest.value;
        more := true;
      }
    }

    /** Names the call if nobody did, and makes it the latest. */
    method NameCall(sc: StreamingCall, ghost k: nat, d: Delta)
      requires IsLive() && k < |calls| && calls[k] == sc
      modifies this`latest, this`model, sc`id, sc`name
      ensures IsLive()
      ensures model == old(model).(calls := old(model).calls[k := Named(old(model).calls[k], d)], latest := Some(k))
    {
      if sc.id == "" {
        sc.id := d.id;
      }
      if sc.name == "" {
        sc.name := d.name;
      }
      latest := sc;
      model := model.(calls := model.calls[k := Named(model.calls[k], d)], latest := Some(k));
    }

    /** Adds a delta to the call it belongs to. */
    method AcceptInto(sc: StreamingCall, ghost k: nat, d: Delta) returns (more: bool)
      requires IsLive() && k < |calls| && calls[k] == sc
      modifies this`latest, this`pendingBytes, this`model, sc, out
      ensures more ==> IsLive() && model == Accept(old(model), k, d, lim)
      ensures !more ==> IsOver(Accept(old(model), k, d, lim))
    {
      ghost var after := Accept(model, k, d, lim);
      NameCall(sc, k, d);
      if d.args != "" {
        if pendingBytes + |d.args| > lim.maxToolInput {
          more := out.Yield(InputTooLarge);
          return false;
        }
        sc.args := sc.args + d.args;
        pendingBytes := pendingBytes + |d.args|;
      } else {
        assert sc.args + d.args == sc.args;
      }
      assert after.calls[k] == sc.View();
      model := after;
      more := true;
    }

    method OnToolDelta(d: Delta) returns (more: bool)
      requires IsLive()
      modifies this, calls, out
      ensures forall k | 0 <= k < |calls| :: calls[k] in old(calls) || fresh(calls[k])
      ensures more ==> IsLive() && model == OnDelta(old(model), d, lim)
      ensures !more ==> IsOver(OnDelta(old(model), d, lim))
    {
      ghost var m := model;
      var sc;
      ghost var k;
      more, sc, k := SelectCall(d);
      if !more {
        DeltaGrows(m, d, lim);
        return;
      }
      if sc == null {
        return; // a continuation with no call to continue
      }
      more := AcceptInto(sc, k, d);
    }

    method OnToolDeltas(ds: seq<Delta>) returns (more: bool)
      requires IsLive()
      modifies this, calls, out
      ensures forall k | 0 <= k < |calls| :: calls[k] in old(calls) || fresh(calls[k])
      ensures more ==> IsLive() && model == OnDeltas(old(model), ds, lim)
      ensures !more ==> IsOver(OnDeltas(old(model), ds, lim))
    {
      ghost var m := model;
      var i := 0;
      while i < |ds|
        invariant i <= |ds| && IsLive() && model == OnDeltas(m, ds[..i], lim)
        invariant forall k | 0 <= k < |calls| :: calls[k] in old(calls) || fresh(calls[k])
      {
        TakeNext(ds, i);
        more := OnToolDelta(ds[i]);
        i := i + 1;
        if !more {
          DeltasGrow(m, ds, i, lim);
          return;
        }
      }
      assert ds[..|ds|] == ds;
      more := true;
    }
  }

  // ---------------------------------------------------------------------------------------------
  // Items are only ever added
  // ---------------------------------------------------------------------------------------------

  /** From `a` the parser can get to `b`: items are added, and none after it failed. */
  ghost predicate LeadsTo(a: Assembly, b: Assembly) {
    a.items <= b.items && (a.failed ==> b.failed && b.items == a.items)
  }

  lemma {:induction false} EmitFirstGrows(a: Assembly, m: nat, n: nat, lim: Limits)
    requires m <= n <= |a.calls|
    ensures EmitFirst(a, m, lim).items <= EmitFirst(a, n, lim).items
    ensures EmitFirst(a, n, lim).failed == a.failed
  {
    if m < n {
      EmitFirstGrows(a, m, n - 1, lim);
    } else if n > 0 {
      EmitFirstGrows(a, m - 1, n - 1, lim);
    }
  }

  lemma EmitAllGrows(a: Assembly, lim: Limits)
    ensures a.items <= EmitAll(a, lim).items && EmitAll(a, lim).failed == a.failed
  {
    EmitFirstGrows(a, 0, |a.calls|, lim);
  }

  lemma DeltaGrows(a: Assembly, d: Delta, lim: Limits)
    ensures LeadsTo(a, OnDelta(a, d, lim))
    ensures !a.failed ==> LeadsTo(Select(a, d, lim).0, OnDelta(a, d, lim))
  {
    EmitAllGrows(a, lim);
  }

  lemma {:induction false} DeltasGrow(a: Assembly, ds: seq<Delta>, i: nat, lim: Limits)
    requires i <= |ds|
    ensures LeadsTo(OnDeltas(a, ds[..i], lim), OnDeltas(a, ds, lim))
    decreases |ds|
  {
    if i == |ds| {
      assert ds[..i] == ds;
    } else {
      var init := ds[..|ds| - 1];
      assert init[..i] == ds[..i];
      DeltasGrow(a, init, i, lim);
      DeltaGrows(OnDeltas(a, init, lim), ds[|ds| - 1], lim);
    }
  }

  lemma ChoiceGrows(p: Parse, c: Choice, lim: Limits)
    requires !p.asm.failed
    ensures LeadsTo(p.asm, OnText(p, c).asm)
    ensures LeadsTo(OnText(p, c).asm, OnDeltas(OnText(p, c).asm, c.calls, lim))
    ensures LeadsTo(OnDeltas(OnText(p, c).asm, c.calls, lim), OnChoice(p, c, lim).asm)
  {
    var a := OnText(p, c).asm;
    assert c.calls[..0] == [];
    DeltasGrow(a, c.calls, 0, lim);
    EmitAllGrows(OnDeltas(a, c.calls, lim), lim);
  }

  lemma LineGrows(p: Parse, line: Line, lim: Limits)
    ensures LeadsTo(p.asm, OnLine(p, line, lim).asm)
  {
    if !p.asm.failed && line.Chunk? && line.choice.Some? {
      ChoiceGrows(OnUsage(p, line.usage), line.choice.value, lim);
    }
  }

  lemma {:induction false} LinesGrow(lines: seq<Line>, i: nat, lim: Limits)
    requires i <= |lines|
    ensures LeadsTo(OnLines(lines[..i], lim).asm, OnLines(lines, lim).asm)
    decreases |lines|
  {
    if i == |lines| {
      assert lines[..i] == lines;
    } else {
      var init := lines[..|lines| - 1];
      assert init[..i] == lines[..i];
      LinesGrow(init, i, lim);
      LineGrows(OnLines(init, lim), lines[|lines| - 1], lim);
    }
  }

  lemma EndGrows(p: Parse, ending: Ending, lim: Limits)
    ensures LeadsTo(p.asm, Ended(p, ending, lim).asm)
    ensures !p.asm.failed ==> EmitAll(p.asm, lim).items <= Ended(p, ending, lim).asm.items
  {
    EmitAllGrows(p.asm, lim);
  }

  // ---------------------------------------------------------------------------------------------
  // parseStream
  // ---------------------------------------------------------------------------------------------

  /** The part of the loop's state that is not in the tool call assembly. */
  datatype Tail = Tail(finish: string, raw: string, input: int, output: int, cacheRead: int)

  function Joint(t: Tail, a: Assembly): Parse {
    Parse(a, t.finish, t.raw, t.input, t.output, t.cacheRead)
  }

  method YieldTexts(p: Parser, c: Choice, ghost start: Parse) returns (more: bool)
    requires p.IsLive() && start.asm == p.model
    modifies p`model, p.out
    ensures more ==> p.IsLive() && p.model == OnText(start, c).asm
    ensures !more ==> p.IsOver(OnText(start, c).asm) && p.out.stopped
  {
    var reasoning := c.reasoningContent;
    if reasoning == "" {
      reasoning := c.reasoning;
    }
    more := true;
    if reasoning != "" {
      more := p.Yield(Thinking(reasoning));
      if !more {
        return;
      }
    }
    if c.content != "" {
      more := p.Yield(Content(c.content));
    }
  }

  method OnChunkChoice(p: Parser, c: Choice, t: Tail) returns (more: bool, t': Tail)
    requires p.IsLive()
    modifies p, p.calls, p.out
    ensures forall k | 0 <= k < |p.calls| :: p.calls[k] in old(p.calls) || fresh(p.calls[k])
    ensures more ==> p.IsLive() && Joint(t', p.model) == OnChoice(Joint(t, old(p.model)), c, p.lim)
    ensures !more ==> p.IsOver(OnChoice(Joint(t, old(p.model)), c, p.lim).asm)
  {
    t' := t;
    ghost var start := Joint(t, p.model);
    ChoiceGrows(start, c, p.lim);
    more := YieldTexts(p, c, start);
    if !more {
      return;
    }
    more := p.OnToolDeltas(c.calls);
    if !more {
      return;
    }
    if c.finish != "" {
      t' := t'.(finish := StopReason(c.finish), raw := c.finish);
      more := p.EmitEverything();
    }
  }

  method OnDataLine(p: Parser, line: Line, t: Tail) returns (more: bool, t': Tail)
    requires p.IsLive()
    modifies p, p.calls, p.out
    ensures forall k | 0 <= k < |p.calls| :: p.calls[k] in old(p.calls) || fresh(p.calls[k])
    ensures more ==> p.IsLive() && Joint(t', p.model) == OnLine(Joint(t, old(p.model)), line, p.lim)
    ensures !more ==> p.IsOver(OnLine(Joint(t, old(p.model)), line, p.lim).asm)
  {
    more, t' := true, t;
    match line {
      case Malformed =>
        if t.finish == "" {
          more := p.Yield(MalformedEvent);
        }
      case Chunk(usage, choice) =>
        if usage.Some? {
          var (uncached, cached) := SplitPrompt(usage.value.prompt, usage.value.cached);
          t' := t'.(input := uncached, cacheRead := cached, output := usage.value.completion);
        }
        if choice.Some? {
          more, t' := OnChunkChoice(p, choice.value, t');
        }
    }
  }

  /**
   The whole parser. The consumer sees exactly `Items`, or the part of it up to where it stopped, and
   `Consumer.Yield` is never called again after it stopped.
   */
  method ParseStream(lines: seq<Line>, ending: Ending, lim: Limits, out: Consumer<Item>)
    requires out.Valid() && !out.stopped && out.received == []
    modifies out
    ensures out.Saw(Items(lines, ending, lim))
  {
    var p := new Parser(lim, out);
    var t := Tail("", "", NOT_REPORTED, NOT_REPORTED, 0);
    var i := 0;
    while i < |lines|
      invariant i <= |lines| && p.out == out && p.lim == lim && fresh(p) && forall k | 0 <= k < |p.calls| :: fresh(p.calls[k])
      invariant p.IsLive() && Joint(t, p.model) == OnLines(lines[..i], lim)
    {
      TakeNext(lines, i);
      var more;
      more, t := OnDataLine(p, lines[i], t);
      i := i + 1;
      if !more {
        LinesGrow(lines, i, lim);
        EndGrows(OnLines(lines, lim), ending, lim);
        return;
      }
    }
    assert lines[..|lines|] == lines;
    ghost var whole := OnLines(lines, lim);
    EndGrows(whole, ending, lim);
    var more := p.EmitEverything();
    if !more {
      return;
    }
    var finish := t.finish;
    if finish == "" && ending.DoneMarker? {
      if p.emittedToolCall {
        finish := "tool_use";
      } else {
        finish := "end_turn";
      }
    }
    if finish != "" {
      more := out.Yield(Done(finish, t.raw, t.input, t.output, t.cacheRead));
      return;
    }
    if ending.ReadError? {
      more := out.Yield(StreamFailed);
      return;
    }
    more := out.Yield(Incomplete);
  }
}
