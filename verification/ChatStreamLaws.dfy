/** What the streamed tool calls amount to, whatever the order of the deltas. */
module ChatStreamLaws {
  import opened ChatStream
  import opened Sequences
  import opened Streams
  import opened Wrappers

  // ---------------------------------------------------------------------------------------------
  // Arbitrary deltas
  // ---------------------------------------------------------------------------------------------

  function Held(c: Call): nat {
    if c.emitted then 0 else |c.args|
  }

  function HeldBytes(calls: seq<Call>): nat {
    if calls == [] then 0 else HeldBytes(calls[..|calls| - 1]) + Held(calls[|calls| - 1])
  }

  lemma {:induction false} HeldAfterUpdate(calls: seq<Call>, k: nat, c: Call)
    requires k < |calls|
    ensures HeldBytes(calls[k := c]) == HeldBytes(calls) - Held(calls[k]) + Held(c)
  {
    var n := |calls| - 1;
    if k < n {
      HeldAfterUpdate(calls[..n], k, c);
      assert calls[k := c][..n] == calls[..n][k := c];
    } else {
      assert calls[k := c][..n] == calls[..n];
    }
  }

  lemma HeldAfterAppend(calls: seq<Call>, c: Call)
    ensures HeldBytes(calls + [c]) == HeldBytes(calls) + Held(c)
  {
    DropAppended(calls, c);
  }

  lemma {:induction false} NothingHeld(calls: seq<Call>)
    requires forall k | 0 <= k < |calls| :: calls[k].emitted
    ensures HeldBytes(calls) == 0
  {
    if calls != [] {
      NothingHeld(calls[..|calls| - 1]);
    }
  }

  /** `latest` and `byIndex` reach only calls that are still open, each index its own. */
  ghost predicate ReachesOnlyOpen(a: RawAssembly) {
    && PointsInside(a)
    && (forall i | i in a.byIndex :: !a.calls[a.byIndex[i]].emitted)
    && (forall i, j | i in a.byIndex && j in a.byIndex && i != j :: a.byIndex[i] != a.byIndex[j])
    && (a.latest.Some? ==> !a.calls[a.latest.value].emitted)
  }

  ghost predicate IsCounted(a: Assembly, lim: Limits) {
    a.pendingBytes == HeldBytes(a.calls) && 0 <= a.pendingBytes <= lim.maxToolInput
  }

  /** No terminal item yet, except the one that stopped the parser. */
  ghost predicate EndsOnce(items: seq<Item>, ended: bool) {
    if ended then
      items != [] && IsTerminal(items[|items| - 1]) && forall k | 0 <= k < |items| - 1 :: !IsTerminal(items[k])
    else forall k | 0 <= k < |items| :: !IsTerminal(items[k])
  }

  ghost predicate IsSound(a: Assembly, lim: Limits) {
    ReachesOnlyOpen(a) && IsCounted(a, lim) && EndsOnce(a.items, a.failed)
  }

  lemma EmitCounted(a: Assembly, k: nat, lim: Limits)
    requires k < |a.calls| && IsCounted(a, lim)
    ensures var b := Emit(a, k, lim);
            && IsCounted(b, lim) && b.calls[k].emitted
            && forall j | 0 <= j < |a.calls| && j != k :: b.calls[j] == a.calls[j]
  {
    HeldAfterUpdate(a.calls, k, a.calls[k].(emitted := true));
  }

  lemma {:induction false} EmitFirstCounted(a: Assembly, n: nat, lim: Limits)
    requires n <= |a.calls| && IsCounted(a, lim) && EndsOnce(a.items, false)
    ensures var b := EmitFirst(a, n, lim);
            && IsCounted(b, lim) && EndsOnce(b.items, false) && b.failed == a.failed
            && forall k | 0 <= k < n :: b.calls[k].emitted
  {
    if n > 0 {
      EmitFirstCounted(a, n - 1, lim);
      EmitCounted(EmitFirst(a, n - 1, lim), n - 1, lim);
    }
  }

  lemma EmitAllSound(a: Assembly, lim: Limits)
    requires IsSound(a, lim) && !a.failed
    ensures IsSound(EmitAll(a, lim), lim) && !EmitAll(a, lim).failed && EmitAll(a, lim).pendingBytes == 0
  {
    EmitFirstCounted(a, |a.calls|, lim);
    NothingHeld(EmitFirst(a, |a.calls|, lim).calls);
  }

  /** Sound but for `latest`, which the next delta is about to set. */
  ghost predicate IsReady(b: Assembly, lim: Limits) {
    && IsCounted(b, lim) && EndsOnce(b.items, false) && !b.failed
    && (forall i | i in b.byIndex :: !b.calls[b.byIndex[i]].emitted)
    && (forall i, j | i in b.byIndex && j in b.byIndex && i != j :: b.byIndex[i] != b.byIndex[j])
  }

  lemma StartAtReady(a: Assembly, d: Delta, lim: Limits)
    requires IsCounted(a, lim) && EndsOnce(a.items, false) && !a.failed && d.index.At?
    requires forall i | i in a.byIndex && i != d.index.i :: !a.calls[a.byIndex[i]].emitted
    requires forall i, j | i in a.byIndex && j in a.byIndex && i != j :: a.byIndex[i] != a.byIndex[j]
    ensures IsReady(StartAt(a, d), lim) && !StartAt(a, d).calls[|a.calls|].emitted
  {
    HeldAfterAppend(a.calls, Call(d.id, d.name, "", false));
  }

  lemma ReuseReady(a: Assembly, d: Delta, lim: Limits)
    requires IsSound(a, lim) && !a.failed && d.index.At? && d.index.i in a.byIndex
    ensures var b := StartAt(Emit(a, a.byIndex[d.index.i], lim), d);
            IsReady(b, lim) && !b.calls[|a.calls|].emitted
  {
    var k := a.byIndex[d.index.i];
    var e := Emit(a, k, lim);
    EmitCounted(a, k, lim);
    forall i | i in e.byIndex && i != d.index.i ensures !e.calls[e.byIndex[i]].emitted {
      assert e.calls[a.byIndex[i]] == a.calls[a.byIndex[i]];
    }
    assert EndsOnce(e.items, false);
    StartAtReady(e, d, lim);
  }

  lemma RestartReady(a: Assembly, d: Delta, lim: Limits)
    requires IsSound(a, lim) && !a.failed && a.calls == []
    ensures IsReady(StartCall(a, d), lim) && |StartCall(a, d).calls| == 1 && !StartCall(a, d).calls[0].emitted
  {
    HeldAfterAppend([], Call(d.id, d.name, "", false));
  }

  lemma SelectReady(a: Assembly, d: Delta, lim: Limits)
    requires IsSound(a, lim) && !a.failed
    ensures var (b, k) := Select(a, d, lim);
            if k.Some? then IsReady(b, lim) && !b.calls[k.value].emitted else b == a
  {
    if d.index.At? && d.index.i !in a.byIndex {
      StartAtReady(a, d, lim);
    } else if d.index.At? && IsReuse(a, d) {
      ReuseReady(a, d, lim);
    } else if d.index == NoIndex && d.id != "" {
      EmitAllSound(a, lim);
      RestartReady(EmitAll(a, lim), d, lim);
    }
  }

  lemma AcceptSound(b: Assembly, k: nat, d: Delta, lim: Limits)
    requires IsReady(b, lim) && k < |b.calls| && !b.calls[k].emitted
    ensures IsSound(Accept(b, k, d, lim), lim)
  {
    var named := Named(b.calls[k], d);
    HeldAfterUpdate(b.calls, k, named);
    HeldAfterUpdate(b.calls, k, named.(args := named.args + d.args));
  }

  lemma DeltaSound(a: Assembly, d: Delta, lim: Limits)
    requires IsSound(a, lim)
    ensures IsSound(OnDelta(a, d, lim), lim)
  {
    if !a.failed {
      SelectReady(a, d, lim);
      var (b, k) := Select(a, d, lim);
      if k.Some? {
        AcceptSound(b, k.value, d, lim);
      }
    }
  }

  lemma {:induction false} DeltasSound(a: Assembly, ds: seq<Delta>, lim: Limits)
    requires IsSound(a, lim)
    ensures IsSound(OnDeltas(a, ds, lim), lim)
  {
    if ds != [] {
      DeltasSound(a, ds[..|ds| - 1], lim);
      DeltaSound(OnDeltas(a, ds[..|ds| - 1], lim), ds[|ds| - 1], lim);
    }
  }

  lemma LineSound(p: Parse, line: Line, lim: Limits)
    requires IsSound(p.asm, lim)
    ensures IsSound(OnLine(p, line, lim).asm, lim)
  {
    if !p.asm.failed && line.Chunk? && line.choice.Some? {
      var c := line.choice.value;
      var q := OnText(OnUsage(p, line.usage), c);
      assert IsSound(q.asm, lim);
      DeltasSound(q.asm, c.calls, lim);
      var a := OnDeltas(q.asm, c.calls, lim);
      if c.finish != "" && !a.failed {
        EmitAllSound(a, lim);
      }
    }
  }

  /**
   Whatever the server sends, after any number of lines no pointer reaches an emitted call, the byte
   counter is the bytes the open calls hold and within the limit, and nothing terminal was yielded
   unless the parser has stopped.
   */
  lemma {:induction false} ParserIsSound(lines: seq<Line>, lim: Limits)
    ensures IsSound(OnLines(lines, lim).asm, lim)
  {
    if lines != [] {
      ParserIsSound(lines[..|lines| - 1], lim);
      LineSound(OnLines(lines[..|lines| - 1], lim), lines[|lines| - 1], lim);
    }
  }

  /** A consumer that never stops sees exactly one terminal item, and it is the last. */
  lemma ExactlyOneFinalItem(lines: seq<Line>, ending: Ending, lim: Limits)
    ensures EndsOnce(Items(lines, ending, lim), true)
  {
    ParserIsSound(lines, lim);
    var p := OnLines(lines, lim);
    if !p.asm.failed {
      EmitAllSound(p.asm, lim);
    }
  }

  // ---------------------------------------------------------------------------------------------
  // Interleaved deltas
  // ---------------------------------------------------------------------------------------------

  ghost predicate AllIndexed(ds: seq<Delta>) {
    forall k | 0 <= k < |ds| :: ds[k].index.At?
  }

  /** The deltas of one index, in order. */
  function Of(ds: seq<Delta>, i: int): seq<Delta> {
    if ds == [] then []
    else
      var before, d := Of(ds[..|ds| - 1], i), ds[|ds| - 1];
      if d.index == At(i) then before + [d] else before
  }

  /** The indices in the order they were first seen. */
  function Indices(ds: seq<Delta>): seq<int> {
    if ds == [] then []
    else
      var before, d := Indices(ds[..|ds| - 1]), ds[|ds| - 1];
      if d.index.At? && d.index.i !in before then before + [d.index.i] else before
  }

  function Joined(ds: seq<Delta>): string {
    if ds == [] then "" else Joined(ds[..|ds| - 1]) + ds[|ds| - 1].args
  }

  function FirstId(ds: seq<Delta>): string {
    if ds == [] then ""
    else
      var before := FirstId(ds[..|ds| - 1]);
      if before != "" then before else ds[|ds| - 1].id
  }

  function FirstName(ds: seq<Delta>): string {
    if ds == [] then ""
    else
      var before := FirstName(ds[..|ds| - 1]);
      if before != "" then before else ds[|ds| - 1].name
  }

  ghost predicate OneIdEach(ds: seq<Delta>) {
    forall i, d, e | d in Of(ds, i) && e in Of(ds, i) && d.id != "" && e.id != "" :: d.id == e.id
  }

  function Bytes(ds: seq<Delta>): nat {
    if ds == [] then 0 else Bytes(ds[..|ds| - 1]) + |ds[|ds| - 1].args|
  }

  /** The call one index amounts to: first ID, first name, all arguments in order. */
  function Whole(ds: seq<Delta>, i: int): Call {
    Call(FirstId(Of(ds, i)), FirstName(Of(ds, i)), Joined(Of(ds, i)), false)
  }

  function WholeItem(ds: seq<Delta>, i: int, lim: Limits): Item {
    ToolUse(FirstId(Of(ds, i)), FirstName(Of(ds, i)), Decoded(lim.decode, Joined(Of(ds, i))))
  }

  /** What should come out: one call per index, in first-seen order. */
  function Expected(ds: seq<Delta>, lim: Limits): (items: seq<Item>)
    ensures |items| == |Indices(ds)|
    ensures forall k | 0 <= k < |items| :: items[k] == WholeItem(ds, Indices(ds)[k], lim)
  {
    seq(|Indices(ds)|, k requires 0 <= k < |Indices(ds)| => WholeItem(ds, Indices(ds)[k], lim))
  }

  lemma {:induction false} IndicesComplete(ds: seq<Delta>)
    requires AllIndexed(ds)
    ensures forall k, l | 0 <= k < l < |Indices(ds)| :: Indices(ds)[k] != Indices(ds)[l]
    ensures forall i :: i in Indices(ds) <==> Of(ds, i) != []
  {
    if ds != [] {
      IndicesComplete(ds[..|ds| - 1]);
    }
  }

  lemma {:induction false} FirstIdIsAnId(ds: seq<Delta>)
    ensures FirstId(ds) != "" ==> exists d :: d in ds && d.id == FirstId(ds)
  {
    if ds != [] {
      FirstIdIsAnId(ds[..|ds| - 1]);
      if FirstId(ds[..|ds| - 1]) == "" && FirstId(ds) != "" {
        assert ds[|ds| - 1] in ds;
      }
    }
  }

  /** The assembly holds exactly the whole calls of the deltas so far, none of them emitted. */
  ghost predicate Assembles(a: Assembly, ds: seq<Delta>, items: seq<Item>) {
    && !a.failed && a.items == items
    && |a.calls| == |Indices(ds)|
    && (forall k | 0 <= k < |a.calls| :: a.calls[k] == Whole(ds, Indices(ds)[k]))
    && (forall i :: i in a.byIndex <==> i in Indices(ds))
    && (forall i | i in a.byIndex :: Indices(ds)[a.byIndex[i]] == i)
    && a.pendingBytes == Bytes(ds)
  }

  lemma OfAppend(ds: seq<Delta>, d: Delta, i: int)
    ensures Of(ds + [d], i) == if d.index == At(i) then Of(ds, i) + [d] else Of(ds, i)
  {
    DropAppended(ds, d);
  }

  lemma WholeAppend(ds: seq<Delta>, d: Delta, i: int)
    requires d.index.At?
    ensures d.index.i != i ==> Whole(ds + [d], i) == Whole(ds, i)
    ensures d.index.i == i ==>
              var c := Whole(ds, i);
              Whole(ds + [d], i) == Call(if c.id == "" then d.id else c.id, if c.name == "" then d.name else c.name,
                                         c.args + d.args, false)
  {
    OfAppend(ds, d, i);
    if d.index.i == i {
      DropAppended(Of(ds, i), d);
    }
  }

  lemma NoReuse(a: Assembly, ds: seq<Delta>, d: Delta, items: seq<Item>)
    requires Assembles(a, ds, items) && d.index.At? && d.index.i in a.byIndex && OneIdEach(ds + [d])
    ensures !IsReuse(a, d)
  {
    var i := d.index.i;
    var c := a.calls[a.byIndex[i]];
    OfAppend(ds, d, i);
    if c.id != "" && d.id != "" {
      FirstIdIsAnId(Of(ds, i));
      var e :| e in Of(ds, i) && e.id == c.id;
      assert e in Of(ds + [d], i) && d in Of(ds + [d], i);
    }
  }

  lemma IndicesAppend(ds: seq<Delta>, d: Delta)
    requires d.index.At?
    ensures Indices(ds + [d]) == if d.index.i in Indices(ds) then Indices(ds) else Indices(ds) + [d.index.i]
    ensures Bytes(ds + [d]) == Bytes(ds) + |d.args|
  {
    DropAppended(ds, d);
  }

  lemma OnlyItsIndexChanges(ds: seq<Delta>, d: Delta)
    requires d.index.At?
    ensures forall j | j != d.index.i :: Whole(ds + [d], j) == Whole(ds, j)
  {
    forall j | j != d.index.i ensures Whole(ds + [d], j) == Whole(ds, j) {
      WholeAppend(ds, d, j);
    }
  }

  lemma ContinueCall(a: Assembly, ds: seq<Delta>, d: Delta, items: seq<Item>, lim: Limits)
    requires Assembles(a, ds, items) && AllIndexed(ds) && d.index.At? && d.index.i in a.byIndex
    requires !IsReuse(a, d) && Bytes(ds) + |d.args| <= lim.maxToolInput
    ensures Assembles(OnDelta(a, d, lim), ds + [d], items)
  {
    var i := d.index.i;
    var at := a.byIndex[i];
    var b := OnDelta(a, d, lim);
    IndicesAppend(ds, d);
    IndicesComplete(ds);
    OnlyItsIndexChanges(ds, d);
    WholeAppend(ds, d, i);
    assert b.calls[at] == Whole(ds + [d], i);
    forall k | 0 <= k < |b.calls| ensures b.calls[k] == Whole(ds + [d], Indices(ds)[k]) {
      if k != at {
        assert Indices(ds)[k] != Indices(ds)[at];
        assert b.calls[k] == a.calls[k];
      }
    }
  }

  lemma BeginCall(a: Assembly, ds: seq<Delta>, d: Delta, items: seq<Item>, lim: Limits)
    requires Assembles(a, ds, items) && AllIndexed(ds) && d.index.At? && d.index.i !in a.byIndex
    requires Bytes(ds) + |d.args| <= lim.maxToolInput
    ensures Assembles(OnDelta(a, d, lim), ds + [d], items)
  {
    var i := d.index.i;
    var b := OnDelta(a, d, lim);
    IndicesAppend(ds, d);
    IndicesComplete(ds);
    OnlyItsIndexChanges(ds, d);
    WholeAppend(ds, d, i);
    assert Of(ds, i) == [];
    assert b.calls[|a.calls|] == Whole(ds + [d], i);
    forall k | 0 <= k < |b.calls| ensures b.calls[k] == Whole(ds + [d], (Indices(ds) + [i])[k]) {
      if k < |a.calls| {
        assert Indices(ds)[k] in Indices(ds);
        assert b.calls[k] == a.calls[k];
      }
    }
  }

  lemma AssembleDelta(a: Assembly, ds: seq<Delta>, d: Delta, items: seq<Item>, lim: Limits)
    requires Assembles(a, ds, items) && AllIndexed(ds) && d.index.At?
    requires OneIdEach(ds + [d]) && Bytes(ds) + |d.args| <= lim.maxToolInput
    ensures Assembles(OnDelta(a, d, lim), ds + [d], items)
  {
    if d.index.i in a.byIndex {
      NoReuse(a, ds, d, items);
      ContinueCall(a, ds, d, items, lim);
    } else {
      BeginCall(a, ds, d, items, lim);
    }
  }

  lemma OneIdPrefix(ds: seq<Delta>)
    requires ds != [] && OneIdEach(ds)
    ensures OneIdEach(ds[..|ds| - 1])
  {
    var init := ds[..|ds| - 1];
    forall i, d, e | d in Of(init, i) && e in Of(init, i) && d.id != "" && e.id != "" ensures d.id == e.id {
      assert d in Of(ds, i) && e in Of(ds, i);
    }
  }

  lemma {:induction false} AssembleMore(a: Assembly, ds: seq<Delta>, es: seq<Delta>, items: seq<Item>, lim: Limits)
    requires Assembles(a, ds, items)
    requires AllIndexed(ds + es) && OneIdEach(ds + es) && Bytes(ds + es) <= lim.maxToolInput
    ensures Assembles(OnDeltas(a, es, lim), ds + es, items)
  {
    if es == [] {
      assert ds + es == ds;
    } else {
      var init, d := es[..|es| - 1], es[|es| - 1];
      assert ds + es == (ds + init) + [d];
      DropAppended(ds + init, d);
      OneIdPrefix(ds + es);
      AssembleMore(a, ds, init, items, lim);
      AssembleDelta(OnDeltas(a, init, lim), ds + init, d, items, lim);
    }
  }

  lemma AssembleAll(a: Assembly, ds: seq<Delta>, lim: Limits)
    requires a.calls == [] && a.byIndex == map[] && a.pendingBytes == 0 && !a.failed
    requires AllIndexed(ds) && OneIdEach(ds) && Bytes(ds) <= lim.maxToolInput
    ensures Assembles(OnDeltas(a, ds, lim), ds, a.items)
  {
    assert [] + ds == ds;
    AssembleMore(a, [], ds, a.items, lim);
  }

  lemma {:induction false} EmitFirstItems(a: Assembly, ds: seq<Delta>, n: nat, lim: Limits)
    requires Assembles(a, ds, a.items) && n <= |a.calls|
    ensures var b := EmitFirst(a, n, lim);
            && b.items == a.items + Expected(ds, lim)[..n]
            && !b.failed
            && forall k | n <= k < |a.calls| :: b.calls[k] == a.calls[k]
  {
    if n > 0 {
      EmitFirstItems(a, ds, n - 1, lim);
      TakeNext(Expected(ds, lim), n - 1);
      assert a.items + Expected(ds, lim)[..n - 1] + [Expected(ds, lim)[n - 1]] == a.items + Expected(ds, lim)[..n];
    }
  }

  /**
   When every delta carries an index and each index keeps one ID, the calls come out once each, in
   first-seen order, and the arguments of each are its own deltas' joined in order.
   */
  lemma CallsAreWhole(a: Assembly, ds: seq<Delta>, lim: Limits)
    requires a.calls == [] && a.byIndex == map[] && a.pendingBytes == 0 && !a.failed
    requires AllIndexed(ds) && OneIdEach(ds) && Bytes(ds) <= lim.maxToolInput
    ensures EmitAll(OnDeltas(a, ds, lim), lim).items == a.items + Expected(ds, lim)
  {
    AssembleAll(a, ds, lim);
    var b := OnDeltas(a, ds, lim);
    EmitFirstItems(b, ds, |b.calls|, lim);
    assert Expected(ds, lim)[..|b.calls|] == Expected(ds, lim);
  }

  /** The delta that takes the open calls past the limit ends the stream, and no call is emitted. */
  lemma DeltaPastTheLimit(a: Assembly, ds: seq<Delta>, d: Delta, items: seq<Item>, lim: Limits)
    requires Assembles(a, ds, items) && AllIndexed(ds) && d.index.At? && OneIdEach(ds + [d])
    requires Bytes(ds) <= lim.maxToolInput < Bytes(ds) + |d.args|
    ensures OnDelta(a, d, lim).failed && OnDelta(a, d, lim).items == items + [InputTooLarge]
  {
    if d.index.i in a.byIndex {
      NoReuse(a, ds, d, items);
    }
  }

  lemma {:induction false} AssembleOrFail(a: Assembly, ds: seq<Delta>, es: seq<Delta>, items: seq<Item>, lim: Limits)
    requires Assembles(a, ds, items) && AllIndexed(ds + es) && OneIdEach(ds + es) && Bytes(ds) <= lim.maxToolInput
    ensures OnDeltas(a, es, lim).failed <==> Bytes(ds + es) > lim.maxToolInput
    ensures Bytes(ds + es) > lim.maxToolInput ==> OnDeltas(a, es, lim).items == items + [InputTooLarge]
  {
    if es == [] {
      assert ds + es == ds;
    } else {
      var init, d := es[..|es| - 1], es[|es| - 1];
      assert ds + es == (ds + init) + [d];
      DropAppended(ds + init, d);
      OneIdPrefix(ds + es);
      AssembleOrFail(a, ds, init, items, lim);
      if Bytes(ds + es) <= lim.maxToolInput {
        AssembleMore(a, ds, es, items, lim);
      } else if Bytes(ds + init) <= lim.maxToolInput {
        AssembleMore(a, ds, init, items, lim);
        DeltaPastTheLimit(OnDeltas(a, init, lim), ds + init, d, items, lim);
      }
    }
  }

  /** Such deltas end in the input-too-large error exactly when their bytes pass the limit. */
  lemma FailsExactlyPastTheLimit(a: Assembly, ds: seq<Delta>, lim: Limits)
    requires a.calls == [] && a.byIndex == map[] && a.pendingBytes == 0 && !a.failed
    requires AllIndexed(ds) && OneIdEach(ds)
    ensures OnDeltas(a, ds, lim).failed <==> Bytes(ds) > lim.maxToolInput
    ensures Bytes(ds) > lim.maxToolInput ==> OnDeltas(a, ds, lim).items == a.items + [InputTooLarge]
  {
    assert [] + ds == ds;
    AssembleOrFail(a, [], ds, a.items, lim);
  }

  function TotalJoined(ds: seq<Delta>, indices: seq<int>): nat {
    if indices == [] then 0
    else TotalJoined(ds, indices[..|indices| - 1]) + |Joined(Of(ds, indices[|indices| - 1]))|
  }

  lemma {:induction false} TotalAfterDelta(ds: seq<Delta>, d: Delta, indices: seq<int>)
    requires d.index.At?
    requires forall k, l | 0 <= k < l < |indices| :: indices[k] != indices[l]
    ensures TotalJoined(ds + [d], indices) == TotalJoined(ds, indices) + if d.index.i in indices then |d.args| else 0
  {
    if indices != [] {
      var last := indices[|indices| - 1];
      TotalAfterDelta(ds, d, indices[..|indices| - 1]);
      OfAppend(ds, d, last);
      if d.index.i == last {
        DropAppended(Of(ds, last), d);
      }
    }
  }

  lemma TotalOfNewIndex(ds: seq<Delta>, d: Delta, indices: seq<int>)
    requires d.index.At? && Of(ds, d.index.i) == []
    ensures TotalJoined(ds + [d], indices + [d.index.i]) == TotalJoined(ds + [d], indices) + |d.args|
  {
    DropAppended(indices, d.index.i);
    OfAppend(ds, d, d.index.i);
    assert Of(ds + [d], d.index.i) == [d];
    assert [d][..0] == [] && Joined([d]) == Joined([]) + d.args;
  }

  lemma {:induction false} BytesPerIndex(ds: seq<Delta>)
    requires AllIndexed(ds)
    ensures Bytes(ds) == TotalJoined(ds, Indices(ds))
  {
    if ds != [] {
      var init, d := ds[..|ds| - 1], ds[|ds| - 1];
      SplitLast(ds);
      BytesPerIndex(init);
      IndicesComplete(init);
      TotalAfterDelta(init, d, Indices(init));
      IndicesAppend(init, d);
      if d.index.i !in Indices(init) {
        TotalOfNewIndex(init, d, Indices(init));
      }
    }
  }

  lemma {:induction false} TotalDependsOnParts(ds: seq<Delta>, es: seq<Delta>, indices: seq<int>)
    requires forall i :: Of(ds, i) == Of(es, i)
    ensures TotalJoined(ds, indices) == TotalJoined(es, indices)
  {
    if indices != [] {
      TotalDependsOnParts(ds, es, indices[..|indices| - 1]);
    }
  }

  /** Any other interleaving with the same deltas per index and the same first-seen order gives the same calls. */
  lemma InterleavingIsIrrelevant(a: Assembly, ds: seq<Delta>, es: seq<Delta>, lim: Limits)
    requires a.calls == [] && a.byIndex == map[] && a.pendingBytes == 0 && !a.failed
    requires AllIndexed(ds) && OneIdEach(ds) && Bytes(ds) <= lim.maxToolInput
    requires AllIndexed(es) && Indices(es) == Indices(ds) && forall i :: Of(es, i) == Of(ds, i)
    ensures EmitAll(OnDeltas(a, es, lim), lim).items == EmitAll(OnDeltas(a, ds, lim), lim).items
  {
    assert OneIdEach(es);
    BytesPerIndex(ds);
    BytesPerIndex(es);
    TotalDependsOnParts(es, ds, Indices(ds));
    CallsAreWhole(a, ds, lim);
    CallsAreWhole(a, es, lim);
    assert Expected(es, lim) == Expected(ds, lim);
  }

  // ---------------------------------------------------------------------------------------------
  // The calls of a whole stream
  // ---------------------------------------------------------------------------------------------

  function CallsOf(line: Line): seq<Delta> {
    if line.Chunk? && line.choice.Some? then line.choice.value.calls else []
  }

  predicate HasFinish(line: Line) {
    line.Chunk? && line.choice.Some? && line.choice.value.finish != ""
  }

  /** The deltas of the last line's segment, from the last line with a finish reason before it. */
  function Upto(lines: seq<Line>): seq<Delta>
    requires lines != []
    decreases |lines|, 0
  {
    Open(lines[..|lines| - 1]) + CallsOf(lines[|lines| - 1])
  }

  /** The deltas since the last line with a finish reason. */
  function Open(lines: seq<Line>): seq<Delta>
    decreases |lines|, 1
  {
    if lines == [] || HasFinish(lines[|lines| - 1]) then [] else Upto(lines)
  }

  /** In each segment every delta carries an index and each index keeps one ID. */
  ghost predicate IsSegmented(lines: seq<Line>) {
    lines == [] || (IsSegmented(lines[..|lines| - 1]) && AllIndexed(Upto(lines)) && OneIdEach(Upto(lines)))
  }

  /** No segment's arguments pass the limit. */
  predicate Fits(lines: seq<Line>, lim: Limits) {
    lines == [] || (Fits(lines[..|lines| - 1], lim) && Bytes(Upto(lines)) <= lim.maxToolInput)
  }

  /** The calls of the segments that ended within the limit, segment by segment. */
  function Closed(lines: seq<Line>, lim: Limits): seq<Item> {
    if lines == [] then []
    else
      var before := Closed(lines[..|lines| - 1], lim);
      if Fits(lines, lim) && HasFinish(lines[|lines| - 1]) then before + Expected(Upto(lines), lim) else before
  }

  function ToolUses(items: seq<Item>): seq<Item> {
    if items == [] then []
    else
      var before, last := ToolUses(items[..|items| - 1]), items[|items| - 1];
      if last.ToolUse? then before + [last] else before
  }

  lemma {:induction false} ToolUsesConcat(a: seq<Item>, b: seq<Item>)
    ensures ToolUses(a + b) == ToolUses(a) + ToolUses(b)
  {
    if b == [] {
      assert a + b == a;
    } else {
      assert (a + b)[..|a + b| - 1] == a + b[..|b| - 1];
      ToolUsesConcat(a, b[..|b| - 1]);
    }
  }

  lemma {:induction false} AllToolUses(items: seq<Item>)
    requires forall k | 0 <= k < |items| :: items[k].ToolUse?
    ensures ToolUses(items) == items
  {
    if items != [] {
      SplitLast(items);
      AllToolUses(items[..|items| - 1]);
    }
  }

  lemma {:induction false} AddNoToolUse(items: seq<Item>, more: seq<Item>)
    requires forall k | 0 <= k < |more| :: !more[k].ToolUse?
    ensures ToolUses(items + more) == ToolUses(items)
  {
    if more == [] {
      assert items + more == items;
    } else {
      assert (items + more)[..|items + more| - 1] == items + more[..|more| - 1];
      AddNoToolUse(items, more[..|more| - 1]);
    }
  }

  /** `out` is out, and the deltas since are being assembled. */
  ghost predicate IsOnTrack(p: Parse, ds: seq<Delta>, out: seq<Item>) {
    Assembles(p.asm, ds, p.asm.items) && ToolUses(p.asm.items) == out
  }

  lemma FlushOnTrack(a: Assembly, ds: seq<Delta>, lim: Limits)
    requires Assembles(a, ds, a.items)
    ensures var b := EmitAll(a, lim);
            b.items == a.items + Expected(ds, lim) && ToolUses(b.items) == ToolUses(a.items) + Expected(ds, lim) && !b.failed
  {
    EmitFirstItems(a, ds, |a.calls|, lim);
    assert Expected(ds, lim)[..|a.calls|] == Expected(ds, lim);
    ToolUsesConcat(a.items, Expected(ds, lim));
    AllToolUses(Expected(ds, lim));
  }

  lemma FlushPending(a: Assembly, ds: seq<Delta>, lim: Limits)
    requires Assembles(a, ds, a.items) && IsSound(a, lim)
    ensures Assembles(EmitAll(a, lim), [], EmitAll(a, lim).items)
  {
    EmitAllSound(a, lim);
  }

  lemma TextOnTrack(p: Parse, c: Choice, ds: seq<Delta>, out: seq<Item>)
    requires IsOnTrack(p, ds, out)
    ensures IsOnTrack(OnText(p, c), ds, out)
  {
    AddNoToolUse(p.asm.items, (if Reasoning(c) != "" then [Thinking(Reasoning(c))] else [])
                              + if c.content != "" then [Content(c.content)] else []);
  }

  lemma TextSound(p: Parse, c: Choice, lim: Limits)
    requires IsSound(p.asm, lim) && !p.asm.failed
    ensures IsSound(OnText(p, c).asm, lim)
  {
  }

  /** The error is the last item, and the calls before it are `out`. */
  predicate FailedAtLimit(a: Assembly, out: seq<Item>) {
    a.failed && a.items != [] && a.items[|a.items| - 1] == InputTooLarge && ToolUses(a.items) == out
  }

  lemma DeltasOnTrack(q: Parse, es: seq<Delta>, ds: seq<Delta>, out: seq<Item>, lim: Limits)
    requires IsOnTrack(q, ds, out) && Bytes(ds) <= lim.maxToolInput && AllIndexed(ds + es) && OneIdEach(ds + es)
    ensures if Bytes(ds + es) <= lim.maxToolInput then IsOnTrack(q.(asm := OnDeltas(q.asm, es, lim)), ds + es, out)
            else FailedAtLimit(OnDeltas(q.asm, es, lim), out)
  {
    if Bytes(ds + es) <= lim.maxToolInput {
      AssembleMore(q.asm, ds, es, q.asm.items, lim);
    } else {
      AssembleOrFail(q.asm, ds, es, q.asm.items, lim);
      AddNoToolUse(q.asm.items, [InputTooLarge]);
    }
  }

  /** A finish reason puts the segment's calls out and begins another segment. */
  lemma FinishOnTrack(q: Parse, c: Choice, ds: seq<Delta>, out: seq<Item>, lim: Limits)
    requires IsOnTrack(q, ds, out) && IsSound(q.asm, lim) && c.finish != ""
    ensures IsOnTrack(OnFinish(q, c, lim), [], out + Expected(ds, lim))
  {
    FlushOnTrack(q.asm, ds, lim);
    FlushPending(q.asm, ds, lim);
  }

  /** Where a line that carries `es` leaves a parse that was on track. */
  ghost predicate IsNext(p: Parse, es: seq<Delta>, isFinish: bool, out: seq<Item>, lim: Limits) {
    if Bytes(es) > lim.maxToolInput then FailedAtLimit(p.asm, out)
    else if isFinish then IsOnTrack(p, [], out + Expected(es, lim))
    else IsOnTrack(p, es, out)
  }

  lemma ChoiceOnTrack(p: Parse, c: Choice, ds: seq<Delta>, out: seq<Item>, lim: Limits)
    requires IsOnTrack(p, ds, out) && IsSound(p.asm, lim) && Bytes(ds) <= lim.maxToolInput
    requires AllIndexed(ds + c.calls) && OneIdEach(ds + c.calls)
    ensures IsNext(OnChoice(p, c, lim), ds + c.calls, c.finish != "", out, lim)
  {
    var q := OnText(p, c);
    TextOnTrack(p, c, ds, out);
    TextSound(p, c, lim);
    DeltasOnTrack(q, c.calls, ds, out, lim);
    DeltasSound(q.asm, c.calls, lim);
    if c.finish != "" && Bytes(ds + c.calls) <= lim.maxToolInput {
      FinishOnTrack(q.(asm := OnDeltas(q.asm, c.calls, lim)), c, ds + c.calls, out, lim);
    }
  }

  lemma LineOnTrack(p: Parse, line: Line, ds: seq<Delta>, out: seq<Item>, lim: Limits)
    requires IsOnTrack(p, ds, out) && IsSound(p.asm, lim) && Bytes(ds) <= lim.maxToolInput
    requires AllIndexed(ds + CallsOf(line)) && OneIdEach(ds + CallsOf(line))
    ensures IsNext(OnLine(p, line, lim), ds + CallsOf(line), HasFinish(line), out, lim)
  {
    if line.Chunk? && line.choice.Some? {
      ChoiceOnTrack(OnUsage(p, line.usage), line.choice.value, ds, out, lim);
    } else {
      assert ds + CallsOf(line) == ds;
      AddNoToolUse(p.asm.items, [MalformedEvent]);
    }
  }

  lemma OpenFits(lines: seq<Line>, lim: Limits)
    requires Fits(lines, lim)
    ensures Bytes(Open(lines)) <= lim.maxToolInput
  {
  }

  lemma {:induction false} LinesOnTrack(lines: seq<Line>, lim: Limits)
    requires IsSegmented(lines)
    ensures if Fits(lines, lim) then IsOnTrack(OnLines(lines, lim), Open(lines), Closed(lines, lim))
            else FailedAtLimit(OnLines(lines, lim).asm, Closed(lines, lim))
  {
    if lines != [] {
      var init, line := lines[..|lines| - 1], lines[|lines| - 1];
      LinesOnTrack(init, lim);
      if Fits(init, lim) {
        OpenFits(init, lim);
        ParserIsSound(init, lim);
        LineOnTrack(OnLines(init, lim), line, Open(init), Closed(init, lim), lim);
      }
    }
  }

  /**
   The tool calls a consumer sees of a whole stream, whatever text, usage or noise lies between the
   deltas and however the stream ends. Lines with a finish reason cut it into segments, and segment by
   segment, up to the first that passes the limit, there is one call per index, in first-seen order,
   each with its own arguments in full.
   */
  lemma StreamCallsAreWhole(lines: seq<Line>, ending: Ending, lim: Limits)
    requires IsSegmented(lines)
    ensures ToolUses(Items(lines, ending, lim))
            == Closed(lines, lim) + if Fits(lines, lim) then Expected(Open(lines), lim) else []
  {
    LinesOnTrack(lines, lim);
    if Fits(lines, lim) {
      EndOnTrack(OnLines(lines, lim), ending, Open(lines), Closed(lines, lim), lim);
    }
  }

  /** Such a stream ends in the input-too-large error exactly when a segment's arguments pass the limit. */
  lemma StreamFailsExactlyPastTheLimit(lines: seq<Line>, ending: Ending, lim: Limits)
    requires IsSegmented(lines)
    ensures var items := Items(lines, ending, lim);
            items != [] && (items[|items| - 1] == InputTooLarge <==> !Fits(lines, lim))
  {
    LinesOnTrack(lines, lim);
    if Fits(lines, lim) {
      EndNotTooLarge(OnLines(lines, lim), ending, lim);
    }
  }

  lemma EndNotTooLarge(p: Parse, ending: Ending, lim: Limits)
    requires !p.asm.failed
    ensures var items := Ended(p, ending, lim).asm.items;
            items != [] && items[|items| - 1] != InputTooLarge
  {
    var q := p.(asm := EmitAll(p.asm, lim));
    assert Ended(p, ending, lim).asm.items == q.asm.items + [LastItem(q, ending)];
  }

  lemma EndOnTrack(p: Parse, ending: Ending, ds: seq<Delta>, out: seq<Item>, lim: Limits)
    requires IsOnTrack(p, ds, out)
    ensures ToolUses(Ended(p, ending, lim).asm.items) == out + Expected(ds, lim)
  {
    FlushOnTrack(p.asm, ds, lim);
    var q := p.(asm := EmitAll(p.asm, lim));
    AddNoToolUse(q.asm.items, [LastItem(q, ending)]);
  }

  // ---------------------------------------------------------------------------------------------
  // Streams of one segment
  // ---------------------------------------------------------------------------------------------

  function AllCalls(lines: seq<Line>): seq<Delta> {
    if lines == [] then [] else AllCalls(lines[..|lines| - 1]) + CallsOf(lines[|lines| - 1])
  }

  /** No tool call delta comes after a line with a finish reason. */
  ghost predicate CallsEndAtFinish(lines: seq<Line>) {
    forall i, j | 0 <= i < j < |lines| && HasFinish(lines[i]) :: CallsOf(lines[j]) == []
  }

  ghost predicate FinishSeen(lines: seq<Line>) {
    exists i :: 0 <= i < |lines| && HasFinish(lines[i])
  }

  lemma FinishEndsCalls(lines: seq<Line>)
    requires lines != [] && CallsEndAtFinish(lines)
    ensures var init, line := lines[..|lines| - 1], lines[|lines| - 1];
            && CallsEndAtFinish(init) && (FinishSeen(init) ==> CallsOf(line) == [])
            && (FinishSeen(lines) <==> FinishSeen(init) || HasFinish(line))
  {
    var init := lines[..|lines| - 1];
    assert forall i | 0 <= i < |init| :: init[i] == lines[i];
    if i :| 0 <= i < |init| && HasFinish(init[i]) {
      assert HasFinish(lines[i]);
    }
  }

  lemma {:induction false} OneSegmentOpen(lines: seq<Line>)
    requires CallsEndAtFinish(lines)
    ensures Open(lines) == if FinishSeen(lines) then [] else AllCalls(lines)
  {
    if lines != [] {
      FinishEndsCalls(lines);
      OneSegmentOpen(lines[..|lines| - 1]);
    }
  }

  lemma OneSegmentNext(lines: seq<Line>)
    requires lines != [] && CallsEndAtFinish(lines)
    ensures var init := lines[..|lines| - 1];
            if FinishSeen(init) then Upto(lines) == [] && AllCalls(lines) == AllCalls(init) else Upto(lines) == AllCalls(lines)
  {
    var init := lines[..|lines| - 1];
    FinishEndsCalls(lines);
    OneSegmentOpen(init);
    assert AllCalls(init) + [] == AllCalls(init);
  }

  lemma {:induction false} PrefixConditions(ds: seq<Delta>, es: seq<Delta>)
    ensures Bytes(ds) <= Bytes(ds + es)
    ensures AllIndexed(ds + es) ==> AllIndexed(ds)
    ensures OneIdEach(ds + es) ==> OneIdEach(ds)
    decreases |es|
  {
    if es == [] {
      assert ds + es == ds;
    } else {
      var init, d := es[..|es| - 1], es[|es| - 1];
      assert ds + es == (ds + init) + [d];
      DropAppended(ds + init, d);
      if OneIdEach(ds + es) {
        OneIdPrefix(ds + es);
      }
      assert forall k | 0 <= k < |ds + init| :: (ds + init)[k] == (ds + es)[k];
      PrefixConditions(ds, init);
    }
  }

  lemma {:induction false} OneSegmentFits(lines: seq<Line>, lim: Limits)
    requires CallsEndAtFinish(lines)
    ensures Fits(lines, lim) <==> Bytes(AllCalls(lines)) <= lim.maxToolInput
    ensures AllIndexed(AllCalls(lines)) && OneIdEach(AllCalls(lines)) ==> IsSegmented(lines)
  {
    if lines != [] {
      var init, line := lines[..|lines| - 1], lines[|lines| - 1];
      FinishEndsCalls(lines);
      OneSegmentNext(lines);
      OneSegmentFits(init, lim);
      PrefixConditions(AllCalls(init), CallsOf(line));
    }
  }

  lemma {:induction false} OneSegmentClosed(lines: seq<Line>, lim: Limits)
    requires CallsEndAtFinish(lines)
    ensures Closed(lines, lim) == if Fits(lines, lim) && FinishSeen(lines) then Expected(AllCalls(lines), lim) else []
  {
    if lines != [] {
      FinishEndsCalls(lines);
      OneSegmentNext(lines);
      OneSegmentClosed(lines[..|lines| - 1], lim);
      assert Expected([], lim) == [];
    }
  }

  /** When no delta comes after a finish reason, the whole stream is one segment. */
  lemma OneSegment(lines: seq<Line>, lim: Limits)
    requires CallsEndAtFinish(lines)
    ensures AllIndexed(AllCalls(lines)) && OneIdEach(AllCalls(lines)) ==> IsSegmented(lines)
    ensures Fits(lines, lim) <==> Bytes(AllCalls(lines)) <= lim.maxToolInput
    ensures if Fits(lines, lim) then Closed(lines, lim) + Expected(Open(lines), lim) == Expected(AllCalls(lines), lim)
            else Closed(lines, lim) == []
  {
    OneSegmentOpen(lines);
    OneSegmentFits(lines, lim);
    OneSegmentClosed(lines, lim);
    assert Expected([], lim) == [];
  }
}
