/** Block boundaries around a neutral event stream (streamevents.go). */
module Boundaries {
  import opened Sequences
  import opened StreamFold
  import opened Streams
  import opened Wrappers

  datatype Block = TextBlock | ThinkingBlock

  datatype Bounding = Bounding(open: Option<Block>, out: seq<Step>, ended: bool)

  function StartOf(b: Block): Step {
    Ok(Bare(if b.TextBlock? then TextStart else ThinkingStart))
  }

  function EndOf(b: Block): Step {
    Ok(Bare(if b.TextBlock? then TextEnd else ThinkingEnd))
  }

  function Closed(b: Bounding): Bounding {
    if b.open.Some? then b.(open := None, out := b.out + [EndOf(b.open.value)]) else b
  }

  function Delta(b: Bounding, block: Block, step: Step): Bounding {
    if b.open == Some(block) then b.(out := b.out + [step])
    else
      var c := Closed(b);
      c.(open := Some(block), out := c.out + [StartOf(block), step])
  }

  function OnStep(b: Bounding, step: Step): Bounding {
    if b.ended then b
    else if step.Err? then
      var c := Closed(b);
      c.(out := c.out + [step], ended := true)
    else
      match step.event.kind
      case ContentEvent => Delta(b, TextBlock, step)
      case ThinkingEvent => Delta(b, ThinkingBlock, step)
      case ToolUseEvent =>
        var c := Closed(b);
        c.(out := c.out + [Ok(Bare(ToolStart)), step, Ok(Bare(ToolEnd))])
      case DoneEvent =>
        var c := Closed(b);
        c.(out := c.out + [step])
      case _ => b.(out := b.out + [step])
  }

  function OnSteps(steps: seq<Step>): Bounding {
    if steps == [] then Bounding(None, [], false) else OnStep(OnSteps(steps[..|steps| - 1]), steps[|steps| - 1])
  }

  function Bounded(steps: seq<Step>): seq<Step> {
    Closed(OnSteps(steps)).out
  }

  // ---------------------------------------------------------------------------------------------
  // The loop
  // ---------------------------------------------------------------------------------------------

  ghost predicate IsLive(out: Consumer<Step>, b: Bounding)
    reads out
  {
    out.Valid() && !out.stopped && out.received == b.out && !b.ended
  }

  /** The consumer stopped, having seen no more than leads to `b`. */
  ghost predicate HasStopped(out: Consumer<Step>, b: Bounding)
    reads out
  {
    out.Valid() && out.stopped && out.received <= b.out
  }

  method CloseBlock(open: Option<Block>, out: Consumer<Step>, ghost b: Bounding) returns (more: bool)
    requires IsLive(out, b) && b.open == open
    modifies out
    ensures if more then IsLive(out, Closed(b)) else HasStopped(out, Closed(b))
  {
    more := true;
    match open {
      case Some(TextBlock) => more := out.Yield(Ok(Bare(TextEnd)));
      case Some(ThinkingBlock) => more := out.Yield(Ok(Bare(ThinkingEnd)));
      case None =>
    }
  }

  method PassDelta(step: Step, block: Block, open: Option<Block>, out: Consumer<Step>, ghost b: Bounding)
    returns (more: bool)
    requires IsLive(out, b) && b.open == open
    modifies out
    ensures if more then IsLive(out, Delta(b, block, step)) else HasStopped(out, Delta(b, block, step))
  {
    if open != Some(block) {
      more := CloseBlock(open, out, b);
      if !more {
        return;
      }
      more := out.Yield(StartOf(block));
      if !more {
        return;
      }
    }
    more := out.Yield(step);
    assert Closed(b).out + [StartOf(block)] + [step] == Closed(b).out + [StartOf(block), step];
  }

  method PassTool(step: Step, open: Option<Block>, out: Consumer<Step>, ghost b: Bounding) returns (more: bool)
    requires IsLive(out, b) && b.open == open && step.Ok? && step.event.kind == ToolUseEvent
    modifies out
    ensures if more then IsLive(out, OnStep(b, step)) else HasStopped(out, OnStep(b, step))
  {
    ghost var c := Closed(b).out;
    assert c + [Ok(Bare(ToolStart)), step, Ok(Bare(ToolEnd))] == c + [Ok(Bare(ToolStart))] + [step] + [Ok(Bare(ToolEnd))];
    more := CloseBlock(open, out, b);
    if !more {
      return;
    }
    more := out.Yield(Ok(Bare(ToolStart)));
    if !more {
      return;
    }
    more := out.Yield(step);
    if !more {
      return;
    }
    more := out.Yield(Ok(Bare(ToolEnd)));
  }

  method PassEvent(step: Step, open: Option<Block>, out: Consumer<Step>, ghost b: Bounding)
    returns (more: bool, open': Option<Block>)
    requires IsLive(out, b) && b.open == open && step.Ok?
    modifies out
    ensures open' == OnStep(b, step).open
    ensures if more then IsLive(out, OnStep(b, step)) else HasStopped(out, OnStep(b, step))
  {
    open' := open;
    match step.event.kind {
      case ContentEvent =>
        open' := Some(TextBlock);
        more := PassDelta(step, TextBlock, open, out, b);
      case ThinkingEvent =>
        open' := Some(ThinkingBlock);
        more := PassDelta(step, ThinkingBlock, open, out, b);
      case ToolUseEvent =>
        open' := None;
        more := PassTool(step, open, out, b);
      case DoneEvent =>
        open' := None;
        more := CloseBlock(open, out, b);
        if more {
          more := out.Yield(step);
        }
      case _ => more := out.Yield(step);
    }
  }

  /** An error ends the stream, after the block it interrupts was closed. */
  method PassError(step: Step, open: Option<Block>, out: Consumer<Step>, ghost b: Bounding)
    requires IsLive(out, b) && b.open == open && step.Err?
    modifies out
    ensures out.Saw(OnStep(b, step).out) && OnStep(b, step).ended && OnStep(b, step).open == None
  {
    var more := CloseBlock(open, out, b);
    if more {
      more := out.Yield(step);
    }
  }

  /** The consumer sees `Bounded(steps)` or a prefix of it, and is never called after it stopped. */
  method StreamWithBoundaries(steps: seq<Step>, out: Consumer<Step>)
    requires out.Valid() && !out.stopped && out.received == []
    modifies out
    ensures out.Saw(Bounded(steps))
  {
    var open: Option<Block> := None;
    var i := 0;
    while i < |steps|
      invariant i <= |steps| && IsLive(out, OnSteps(steps[..i])) && open == OnSteps(steps[..i]).open
    {
      ghost var b := OnSteps(steps[..i]);
      TakeNext(steps, i);
      StepsGrow(steps, i + 1);
      if steps[i].Err? {
        PassError(steps[i], open, out, b);
        return;
      }
      var more;
      more, open := PassEvent(steps[i], open, out, b);
      i := i + 1;
      if !more {
        return;
      }
    }
    assert steps[..|steps|] == steps;
    var more := CloseBlock(open, out, OnSteps(steps));
  }

  lemma {:induction false} StepsGrow(steps: seq<Step>, n: nat)
    requires n <= |steps|
    ensures OnSteps(steps[..n]).out <= OnSteps(steps).out
    ensures OnSteps(steps[..n]).ended ==> OnSteps(steps) == OnSteps(steps[..n])
    decreases |steps|
  {
    if n == |steps| {
      assert steps[..n] == steps;
    } else {
      assert steps[..|steps| - 1][..n] == steps[..n];
      StepsGrow(steps[..|steps| - 1], n);
    }
  }

  // ---------------------------------------------------------------------------------------------
  // Brackets
  // ---------------------------------------------------------------------------------------------

  predicate IsBoundary(step: Step) {
    && step.Ok?
    && (step.event.kind.TextStart? || step.event.kind.TextEnd? || step.event.kind.ThinkingStart?
        || step.event.kind.ThinkingEnd? || step.event.kind.ToolStart? || step.event.kind.ToolEnd?)
  }

  /** Where a reader of a bracketed stream is. `Left` is just after an End: what follows must justify it. */
  datatype Mode = Outside | Entered(block: Block) | Inside(block: Block) | Left(block: Block) | ToolEntered | ToolGiven | Broken

  function Enter(from: Mode, block: Block): Mode {
    if from == Outside || (from.Left? && from.block != block) then Entered(block) else Broken
  }

  function Within(from: Mode, block: Block): Mode {
    if (from.Entered? || from.Inside?) && from.block == block then Inside(block) else Broken
  }

  function Leave(from: Mode, block: Block): Mode {
    if from == Inside(block) then Left(block) else Broken
  }

  function Read(from: Mode, step: Step): Mode {
    if step.Err? then (if from == Outside || from.Left? then Outside else Broken)
    else
      match step.event.kind
      case TextStart => Enter(from, TextBlock)
      case ThinkingStart => Enter(from, ThinkingBlock)
      case ContentEvent => Within(from, TextBlock)
      case ThinkingEvent => Within(from, ThinkingBlock)
      case TextEnd => Leave(from, TextBlock)
      case ThinkingEnd => Leave(from, ThinkingBlock)
      case ToolStart => if from == Outside || from.Left? then ToolEntered else Broken
      case ToolUseEvent => if from == ToolEntered then ToolGiven else Broken
      case ToolEnd => if from == ToolGiven then Outside else Broken
      case DoneEvent => if from == Outside || from.Left? then Outside else Broken
      case _ => if from == Outside || from.Inside? then from else Broken
  }

  function ReadAll(steps: seq<Step>): Mode {
    if steps == [] then Outside else Read(ReadAll(steps[..|steps| - 1]), steps[|steps| - 1])
  }

  lemma ReadNext(steps: seq<Step>, step: Step)
    ensures ReadAll(steps + [step]) == Read(ReadAll(steps), step)
  {
    DropAppended(steps, step);
  }

  ghost predicate IsBracketed(b: Bounding) {
    ReadAll(b.out) == match b.open case Some(block) => Inside(block) case None => Outside
  }

  lemma ClosedReads(b: Bounding)
    requires IsBracketed(b)
    ensures ReadAll(Closed(b).out) == match b.open case Some(block) => Left(block) case None => Outside
  {
    if b.open.Some? {
      ReadNext(b.out, EndOf(b.open.value));
    }
  }

  lemma DeltaBracketed(b: Bounding, block: Block, step: Step)
    requires IsBracketed(b) && step.Ok?
    requires step.event.kind == if block.TextBlock? then ContentEvent else ThinkingEvent
    ensures IsBracketed(Delta(b, block, step))
  {
    if b.open == Some(block) {
      ReadNext(b.out, step);
    } else {
      var c := Closed(b).out;
      ClosedReads(b);
      ReadNext(c, StartOf(block));
      ReadNext(c + [StartOf(block)], step);
      assert c + [StartOf(block)] + [step] == c + [StartOf(block), step];
    }
  }

  lemma ToolBracketed(b: Bounding, step: Step)
    requires IsBracketed(b) && !b.ended && step.Ok? && step.event.kind == ToolUseEvent
    ensures IsBracketed(OnStep(b, step))
  {
    var c, start, end := Closed(b).out, Ok(Bare(ToolStart)), Ok(Bare(ToolEnd));
    ClosedReads(b);
    ReadNext(c, start);
    ReadNext(c + [start], step);
    ReadNext(c + [start] + [step], end);
    assert c + [start] + [step] + [end] == c + [start, step, end];
  }

  lemma StepBracketed(b: Bounding, step: Step)
    requires IsBracketed(b) && !IsBoundary(step)
    ensures IsBracketed(OnStep(b, step))
  {
    if !b.ended {
      if step.Ok? && step.event.kind == ContentEvent {
        DeltaBracketed(b, TextBlock, step);
      } else if step.Ok? && step.event.kind == ThinkingEvent {
        DeltaBracketed(b, ThinkingBlock, step);
      } else if step.Ok? && step.event.kind == ToolUseEvent {
        ToolBracketed(b, step);
      } else {
        ClosedReads(b);
        ReadNext(Closed(b).out, step);
        ReadNext(b.out, step);
      }
    }
  }

  lemma {:induction false} AllBracketed(steps: seq<Step>)
    requires forall k | 0 <= k < |steps| :: !IsBoundary(steps[k])
    ensures IsBracketed(OnSteps(steps))
  {
    if steps != [] {
      AllBracketed(steps[..|steps| - 1]);
      StepBracketed(OnSteps(steps[..|steps| - 1]), steps[|steps| - 1]);
    }
  }

  lemma {:induction false} BrokenStays(steps: seq<Step>, n: nat)
    requires n <= |steps| && ReadAll(steps) != Broken
    ensures ReadAll(steps[..n]) != Broken
    decreases |steps|
  {
    if n == |steps| {
      assert steps[..n] == steps;
    } else {
      assert steps[..|steps| - 1][..n] == steps[..n];
      BrokenStays(steps[..|steps| - 1], n);
    }
  }

  /**
   Without boundary events in the input, the output is bracketed: blocks never nest, are never
   empty, are never closed and reopened around nothing, hold only their own deltas, and are all
   closed at the end; no prefix of it breaks those rules.
   */
  lemma OutputIsBracketed(steps: seq<Step>, n: nat)
    requires forall k | 0 <= k < |steps| :: !IsBoundary(steps[k])
    requires n <= |Bounded(steps)|
    ensures ReadAll(Bounded(steps)) == Outside || ReadAll(Bounded(steps)).Left?
    ensures ReadAll(Bounded(steps)[..n]) != Broken
  {
    AllBracketed(steps);
    ClosedReads(OnSteps(steps));
    BrokenStays(Bounded(steps), n);
  }

  // ---------------------------------------------------------------------------------------------
  // Nothing else changes
  // ---------------------------------------------------------------------------------------------

  function Erased(steps: seq<Step>): seq<Step> {
    if steps == [] then []
    else
      var before, step := Erased(steps[..|steps| - 1]), steps[|steps| - 1];
      if IsBoundary(step) then before else before + [step]
  }

  /** The part of a stream a consumer hears: up to the first error. */
  function Heard(steps: seq<Step>): seq<Step> {
    if steps == [] then []
    else
      var before, step := Heard(steps[..|steps| - 1]), steps[|steps| - 1];
      if before != [] && before[|before| - 1].Err? then before else before + [step]
  }

  lemma ErasedNext(steps: seq<Step>, step: Step)
    ensures Erased(steps + [step]) == if IsBoundary(step) then Erased(steps) else Erased(steps) + [step]
  {
    DropAppended(steps, step);
  }

  lemma ErasedClosed(b: Bounding)
    ensures Erased(Closed(b).out) == Erased(b.out)
  {
    if b.open.Some? {
      ErasedNext(b.out, EndOf(b.open.value));
    }
  }

  lemma ErasedDelta(b: Bounding, block: Block, step: Step)
    requires !IsBoundary(step)
    ensures Erased(Delta(b, block, step).out) == Erased(b.out) + [step]
  {
    var c := Closed(b).out;
    ErasedClosed(b);
    if b.open == Some(block) {
      ErasedNext(b.out, step);
    } else {
      ErasedNext(c, StartOf(block));
      ErasedNext(c + [StartOf(block)], step);
      assert c + [StartOf(block)] + [step] == c + [StartOf(block), step];
    }
  }

  lemma ErasedTool(b: Bounding, step: Step)
    requires !IsBoundary(step)
    ensures Erased(Closed(b).out + [Ok(Bare(ToolStart)), step, Ok(Bare(ToolEnd))]) == Erased(b.out) + [step]
  {
    var c, start, end := Closed(b).out, Ok(Bare(ToolStart)), Ok(Bare(ToolEnd));
    ErasedClosed(b);
    ErasedNext(c, start);
    ErasedNext(c + [start], step);
    ErasedNext(c + [start] + [step], end);
    assert c + [start] + [step] + [end] == c + [start, step, end];
  }

  lemma ErasedStep(b: Bounding, step: Step)
    requires !b.ended
    ensures Erased(OnStep(b, step).out) == if IsBoundary(step) then Erased(b.out) else Erased(b.out) + [step]
  {
    if step.Ok? && step.event.kind == ContentEvent {
      ErasedDelta(b, TextBlock, step);
    } else if step.Ok? && step.event.kind == ThinkingEvent {
      ErasedDelta(b, ThinkingBlock, step);
    } else if step.Ok? && step.event.kind == ToolUseEvent {
      ErasedTool(b, step);
    } else {
      ErasedClosed(b);
      ErasedNext(b.out, step);
      ErasedNext(Closed(b).out, step);
    }
  }

  lemma {:induction false} EndsAtError(steps: seq<Step>)
    ensures var h := Heard(steps); OnSteps(steps).ended <==> h != [] && h[|h| - 1].Err?
  {
    if steps != [] {
      EndsAtError(steps[..|steps| - 1]);
    }
  }

  /** Erasing the boundary events gives back the input up to its first error. */
  lemma {:induction false} ErasedIsInput(steps: seq<Step>)
    ensures Erased(OnSteps(steps).out) == Erased(Heard(steps))
    ensures Erased(Bounded(steps)) == Erased(Heard(steps))
  {
    ErasedClosed(OnSteps(steps));
    if steps != [] {
      var init, step := steps[..|steps| - 1], steps[|steps| - 1];
      ErasedIsInput(init);
      EndsAtError(init);
      if !OnSteps(init).ended {
        ErasedStep(OnSteps(init), step);
        ErasedNext(Heard(init), step);
      }
    }
  }

  lemma {:induction false} ErasedKeepsOthers(steps: seq<Step>)
    requires forall k | 0 <= k < |steps| :: !IsBoundary(steps[k])
    ensures Erased(steps) == steps
  {
    if steps != [] {
      SplitLast(steps);
      ErasedKeepsOthers(steps[..|steps| - 1]);
    }
  }

  lemma {:induction false} HeardWhole(steps: seq<Step>)
    requires forall k | 0 <= k < |steps| :: steps[k].Ok?
    ensures Heard(steps) == steps
  {
    if steps != [] {
      SplitLast(steps);
      HeardWhole(steps[..|steps| - 1]);
    }
  }

  /** A clean stream without boundary events comes back whole. */
  lemma CleanStreamComesBack(steps: seq<Step>)
    requires forall k | 0 <= k < |steps| :: steps[k].Ok? && !IsBoundary(steps[k])
    ensures Erased(Bounded(steps)) == steps
  {
    ErasedIsInput(steps);
    HeardWhole(steps);
    ErasedKeepsOthers(steps);
  }

  lemma {:induction false} CollectErased(steps: seq<Step>)
    ensures Collect(Erased(steps)) == Collect(steps)
  {
    if steps != [] {
      var init, step := steps[..|steps| - 1], steps[|steps| - 1];
      CollectErased(init);
      DropAppended(Erased(init), step);
    }
  }

  lemma {:induction false} CollectHeard(steps: seq<Step>)
    ensures Collect(Heard(steps)) == Collect(steps)
    ensures var h := Heard(steps); Collect(steps).error.Some? <==> h != [] && h[|h| - 1].Err?
  {
    if steps != [] {
      var init, step := steps[..|steps| - 1], steps[|steps| - 1];
      CollectHeard(init);
      DropAppended(Heard(init), step);
    }
  }

  /** Boundaries change neither the response nor the error a stream is collected into. */
  lemma CollectsTheSame(steps: seq<Step>)
    ensures Collected(Bounded(steps)) == Collected(steps)
  {
    ErasedIsInput(steps);
    CollectErased(Bounded(steps));
    CollectErased(Heard(steps));
    CollectHeard(steps);
  }
}
