/** What the pending-call map of a Responses API stream guarantees, and what it does not. */
module ResponsesLaws {
  import opened Decimals
  import opened ResponsesStream
  import opened Sequences
  import opened Streams

  // ---------------------------------------------------------------------------------------------
  // The byte counter, for arbitrary events
  // ---------------------------------------------------------------------------------------------

  ghost predicate IsReached(pending: map<string, nat>, k: nat) {
    exists key :: key in pending && pending[key] == k
  }

  function AllBytes(cells: seq<Cell>): nat {
    if cells == [] then 0 else AllBytes(cells[..|cells| - 1]) + |cells[|cells| - 1].args|
  }

  /** Bytes of the cells that some key reaches, each cell counted once however many aliases it has. */
  ghost function ReachedBytes(cells: seq<Cell>, pending: map<string, nat>): nat {
    if cells == [] then 0
    else
      var n := |cells| - 1;
      ReachedBytes(cells[..n], pending) + if IsReached(pending, n) then |cells[n].args| else 0
  }

  ghost function LostBytes(cells: seq<Cell>, pending: map<string, nat>): nat {
    if cells == [] then 0
    else
      var n := |cells| - 1;
      LostBytes(cells[..n], pending) + if IsReached(pending, n) then 0 else |cells[n].args|
  }

  lemma {:induction false} ReachedOrLost(cells: seq<Cell>, pending: map<string, nat>)
    ensures AllBytes(cells) == ReachedBytes(cells, pending) + LostBytes(cells, pending)
  {
    if cells != [] {
      ReachedOrLost(cells[..|cells| - 1], pending);
    }
  }

  lemma {:induction false} AllBytesAfterUpdate(cells: seq<Cell>, k: nat, c: Cell)
    requires k < |cells|
    ensures AllBytes(cells[k := c]) == AllBytes(cells) - |cells[k].args| + |c.args|
  {
    var n := |cells| - 1;
    if k < n {
      AllBytesAfterUpdate(cells[..n], k, c);
      assert cells[k := c][..n] == cells[..n][k := c];
    } else {
      assert cells[k := c][..n] == cells[..n];
    }
  }

  lemma AllBytesAfterAppend(cells: seq<Cell>, c: Cell)
    ensures AllBytes(cells + [c]) == AllBytes(cells) + |c.args|
  {
    DropAppended(cells, c);
  }

  ghost predicate IsCounted(s: Pending, lim: Limits) {
    s.pendingBytes == AllBytes(s.cells) && s.pendingBytes <= lim.maxToolInput
  }

  lemma PendingForCounted(s: Pending, itemId: string, outputIndex: int, lim: Limits)
    requires IsCounted(s, lim)
    ensures IsCounted(PendingFor(s, itemId, outputIndex).0, lim)
  {
    AllBytesAfterAppend(s.cells, Cell("", "", ""));
  }

  lemma AddedCounted(s: Pending, ev: Event, lim: Limits)
    requires IsCounted(s, lim) && ev.ItemAdded?
    ensures IsCounted(OnAdded(s, ev), lim)
  {
    var (t, k) := PendingFor(s, ev.itemId, ev.outputIndex);
    PendingForCounted(s, ev.itemId, ev.outputIndex, lim);
    AllBytesAfterUpdate(t.cells, k, t.cells[k].(name := ev.name, callId := ev.callId));
  }

  lemma ArgsCounted(s: Pending, ev: Event, lim: Limits)
    requires IsCounted(s, lim) && ev.ArgsDelta?
    ensures IsCounted(OnArgs(s, ev, lim), lim)
  {
    var (t, k) := PendingFor(s, ev.itemId, ev.outputIndex);
    PendingForCounted(s, ev.itemId, ev.outputIndex, lim);
    AllBytesAfterUpdate(t.cells, k, t.cells[k].(args := t.cells[k].args + ev.delta));
  }

  lemma DoneCounted(s: Pending, ev: Event, lim: Limits)
    requires IsCounted(s, lim) && ev.ArgsDone?
    ensures IsCounted(OnDone(s, ev, lim), lim)
  {
    var (t, k) := PendingFor(s, ev.itemId, ev.outputIndex);
    PendingForCounted(s, ev.itemId, ev.outputIndex, lim);
    AllBytesAfterUpdate(t.cells, k, t.cells[k].(args := ""));
  }

  lemma EventCounted(s: Pending, ev: Event, lim: Limits)
    requires IsCounted(s, lim)
    ensures IsCounted(OnEvent(s, ev, lim), lim)
  {
    match ev {
      case ItemAdded(_, _, _, _, _) => AddedCounted(s, ev, lim);
      case ArgsDelta(_, _, _) => ArgsCounted(s, ev, lim);
      case ArgsDone(_, _, _, _, _) => DoneCounted(s, ev, lim);
      case _ =>
    }
  }

  /** The counter is the bytes of all cells ever made, and it never exceeds the limit. */
  lemma {:induction false} CounterCountsEveryCell(events: seq<Event>, lim: Limits)
    ensures var s := OnEvents(events, lim);
            && 0 <= s.pendingBytes <= lim.maxToolInput
            && s.pendingBytes == ReachedBytes(s.cells, s.pending) + LostBytes(s.cells, s.pending)
    ensures IsCounted(OnEvents(events, lim), lim)
  {
    if events != [] {
      CounterCountsEveryCell(events[..|events| - 1], lim);
      EventCounted(OnEvents(events[..|events| - 1], lim), events[|events| - 1], lim);
    }
    var s := OnEvents(events, lim);
    ReachedOrLost(s.cells, s.pending);
  }

  // ---------------------------------------------------------------------------------------------
  // When the counter is exact
  // ---------------------------------------------------------------------------------------------

  ghost predicate NoneLost(s: Pending) {
    forall k: nat | k < |s.cells| && s.cells[k].args != "" :: IsReached(s.pending, k)
  }

  lemma {:induction false} NoneLostMeansExact(cells: seq<Cell>, pending: map<string, nat>)
    ensures LostBytes(cells, pending) == 0 <==>
            forall k: nat | k < |cells| && cells[k].args != "" :: IsReached(pending, k)
  {
    if cells != [] {
      var n := |cells| - 1;
      NoneLostMeansExact(cells[..n], pending);
      assert forall k: nat | k < n :: cells[..n][k] == cells[k];
    }
  }

  function Hash(outputIndex: int): string {
    "#" + Itoa(outputIndex)
  }

  /**
   The event takes the "#index" key away from a cell that holds bytes, is not the event's own cell
   and has no other key: an announcement or a done event whose item_id names another cell.
   */
  ghost predicate Orphans(s: Pending, ev: Event) {
    && !s.ended
    && ((ev.ItemAdded? && ev.isCall) || ev.ArgsDone?) && ev.itemId != ""
    && Hash(ev.outputIndex) in s.pending
    && var k := s.pending[Hash(ev.outputIndex)];
       && s.cells[k].args != ""
       && forall key | key in s.pending && s.pending[key] == k :: key == Hash(ev.outputIndex) && key != ev.itemId
  }

  lemma AddedExact(s: Pending, ev: Event)
    requires NoneLost(s) && !s.ended && ev.ItemAdded?
    ensures NoneLost(OnAdded(s, ev)) <==> !Orphans(s, ev)
  {
    if ev.isCall {
      var (t, k) := PendingFor(s, ev.itemId, ev.outputIndex);
      var after := OnAdded(s, ev);
      var hash := Hash(ev.outputIndex);
      assert Key(ev.itemId, ev.outputIndex) in after.pending && after.pending[Key(ev.itemId, ev.outputIndex)] == k;
      if Orphans(s, ev) {
        var lost := s.pending[hash];
        assert after.cells[lost].args == s.cells[lost].args;
        assert !IsReached(after.pending, lost);
      } else {
        forall j: nat | j < |after.cells| && after.cells[j].args != "" ensures IsReached(after.pending, j) {
          if j != k {
            assert s.cells[j].args != "";
            if ev.itemId != "" && hash in s.pending && s.pending[hash] == j {
              var key :| key in s.pending && s.pending[key] == j && (key != hash || key == ev.itemId);
              assert after.pending[key] == j;
            } else {
              var key :| key in s.pending && s.pending[key] == j;
              assert key in after.pending && after.pending[key] == j;
            }
          }
        }
      }
    }
  }

  lemma ArgsExact(s: Pending, ev: Event, lim: Limits)
    requires NoneLost(s) && !s.ended && ev.ArgsDelta?
    ensures NoneLost(OnArgs(s, ev, lim))
  {
    var (t, k) := PendingFor(s, ev.itemId, ev.outputIndex);
    var after := OnArgs(s, ev, lim);
    assert Key(ev.itemId, ev.outputIndex) in after.pending && after.pending[Key(ev.itemId, ev.outputIndex)] == k;
    forall j: nat | j < |after.cells| && after.cells[j].args != "" ensures IsReached(after.pending, j) {
      if j != k {
        assert s.cells[j].args != "";
        var key :| key in s.pending && s.pending[key] == j;
        assert key in after.pending && after.pending[key] == j;
      }
    }
  }

  lemma DoneExact(s: Pending, ev: Event, lim: Limits)
    requires NoneLost(s) && !s.ended && ev.ArgsDone?
    ensures NoneLost(OnDone(s, ev, lim)) <==> !Orphans(s, ev)
  {
    var (t, k) := PendingFor(s, ev.itemId, ev.outputIndex);
    var after := OnDone(s, ev, lim);
    var hash, key := Hash(ev.outputIndex), Key(ev.itemId, ev.outputIndex);
    if Orphans(s, ev) {
      var lost := s.pending[hash];
      assert lost != k;
      assert after.cells[lost].args == s.cells[lost].args;
      assert !IsReached(after.pending, lost);
    } else {
      forall j: nat | j < |after.cells| && after.cells[j].args != "" ensures IsReached(after.pending, j) {
        assert j != k && s.cells[j].args != "";
        if ev.itemId != "" && hash in s.pending && s.pending[hash] == j {
          var other :| other in s.pending && s.pending[other] == j && (other != hash || other == ev.itemId);
          assert other in after.pending && after.pending[other] == j;
        } else {
          var other :| other in s.pending && s.pending[other] == j;
          assert other in after.pending && after.pending[other] == j;
        }
      }
    }
  }

  lemma EventExact(s: Pending, ev: Event, lim: Limits)
    requires NoneLost(s)
    ensures NoneLost(OnEvent(s, ev, lim)) <==> !Orphans(s, ev)
  {
    if !s.ended {
      match ev {
        case ItemAdded(_, _, _, _, _) => AddedExact(s, ev);
        case ArgsDelta(_, _, _) => ArgsExact(s, ev, lim);
        case ArgsDone(_, _, _, _, _) => DoneExact(s, ev, lim);
        case _ =>
      }
    }
  }

  ghost predicate IsExactThroughout(events: seq<Event>, lim: Limits) {
    forall n | 0 <= n <= |events| ::
      var s := OnEvents(events[..n], lim);
      s.pendingBytes == ReachedBytes(s.cells, s.pending)
  }

  ghost predicate NeverOrphans(events: seq<Event>, lim: Limits) {
    forall n | 0 <= n < |events| :: !Orphans(OnEvents(events[..n], lim), events[n])
  }

  lemma ExactIsNoneLost(events: seq<Event>, n: nat, lim: Limits)
    requires n <= |events|
    ensures var s := OnEvents(events[..n], lim);
            s.pendingBytes == ReachedBytes(s.cells, s.pending) <==> NoneLost(s)
  {
    var s := OnEvents(events[..n], lim);
    CounterCountsEveryCell(events[..n], lim);
    NoneLostMeansExact(s.cells, s.pending);
  }

  lemma {:induction false} NoneLostUpTo(events: seq<Event>, n: nat, lim: Limits)
    requires n <= |events| && NeverOrphans(events, lim)
    ensures NoneLost(OnEvents(events[..n], lim))
  {
    if n > 0 {
      NoneLostUpTo(events, n - 1, lim);
      TakeNext(events, n - 1);
      EventExact(OnEvents(events[..n - 1], lim), events[n - 1], lim);
    }
  }

  /**
   The counter equals the bytes the map can reach, at every point of the stream, exactly when no
   event orphans a cell.
   */
  lemma CounterIsExactIff(events: seq<Event>, lim: Limits)
    ensures IsExactThroughout(events, lim) <==> NeverOrphans(events, lim)
  {
    forall n: nat | n <= |events| {
      ExactIsNoneLost(events, n, lim);
    }
    if NeverOrphans(events, lim) {
      forall n: nat | n <= |events|
        ensures var s := OnEvents(events[..n], lim); s.pendingBytes == ReachedBytes(s.cells, s.pending)
      {
        ExactIsNoneLost(events, n, lim);
        NoneLostUpTo(events, n, lim);
      }
    }
    if IsExactThroughout(events, lim) {
      forall n: nat | n < |events| ensures !Orphans(OnEvents(events[..n], lim), events[n]) {
        ExactIsNoneLost(events, n, lim);
        ExactIsNoneLost(events, n + 1, lim);
        TakeNext(events, n);
        EventExact(OnEvents(events[..n], lim), events[n], lim);
      }
    }
  }

  lemma TwoEvents(first: Event, second: Event, lim: Limits)
    ensures OnEvents([first, second], lim) == OnEvent(OnEvent(START, first, lim), second, lim)
  {
    DropAppended([], first);
    DropAppended([first], second);
    assert [first] + [second] == [first, second] && [] + [first] == [first];
    assert OnEvents([first], lim) == OnEvent(OnEvents([], lim), first, lim);
  }

  lemma TwoCells(first: Cell, second: Cell, pending: map<string, nat>)
    requires !IsReached(pending, 0) && second.args == ""
    ensures ReachedBytes([first, second], pending) == 0
  {
    DropAppended([], first);
    DropAppended([first], second);
    assert [first] + [second] == [first, second] && [] + [first] == [first];
    assert ReachedBytes([first], pending) == 0;
  }

  lemma DeltaByIndex(delta: string, i: int, lim: Limits)
    requires |delta| <= lim.maxToolInput
    ensures var s := OnEvent(START, ArgsDelta("", i, delta), lim);
            !s.ended && s.cells == [Cell("", "", delta)] && s.pending == map[Hash(i) := 0] && s.pendingBytes == |delta|
  {
    assert "" + delta == delta;
    var t := PendingFor(START, "", i).0;
    assert t.cells == [Cell("", "", "")];
  }

  /** A stream that loses bytes: a delta by index only, then another item announced at that index. */
  lemma CounterCanLeak(delta: string, i: int, id: string, lim: Limits)
    requires |delta| <= lim.maxToolInput && IsItemId(id)
    ensures var s := OnEvents([ArgsDelta("", i, delta), ItemAdded(true, i, id, "call", "f")], lim);
            s.pendingBytes == |delta| && ReachedBytes(s.cells, s.pending) == 0
  {
    var first, second := ArgsDelta("", i, delta), ItemAdded(true, i, id, "call", "f");
    TwoEvents(first, second, lim);
    DeltaByIndex(delta, i, lim);
    HashIsNoItemId(i, id);
    var t := OnAdded(OnEvent(START, first, lim), second);
    assert t.cells == [Cell("", "", delta), Cell("f", "call", "")];
    assert t.pending == map[id := 1, Hash(i) := 1];
    TwoCells(t.cells[0], t.cells[1], t.pending);
  }

  // ---------------------------------------------------------------------------------------------
  // Terminal items
  // ---------------------------------------------------------------------------------------------

  ghost predicate EndsOnce(items: seq<Item>, ended: bool) {
    if ended then
      items != [] && IsTerminal(items[|items| - 1]) && forall k | 0 <= k < |items| - 1 :: !IsTerminal(items[k])
    else forall k | 0 <= k < |items| :: !IsTerminal(items[k])
  }

  lemma EventEndsOnce(s: Pending, ev: Event, lim: Limits)
    requires EndsOnce(s.items, s.ended)
    ensures EndsOnce(OnEvent(s, ev, lim).items, OnEvent(s, ev, lim).ended)
  {
    var t := OnEvent(s, ev, lim);
    if s.ended || t.items == s.items {
      assert t.ended == s.ended;
    } else {
      assert t.items == s.items + [t.items[|s.items|]];
      assert t.ended == IsTerminal(t.items[|s.items|]);
    }
  }

  lemma {:induction false} EventsEndOnce(events: seq<Event>, lim: Limits)
    ensures EndsOnce(OnEvents(events, lim).items, OnEvents(events, lim).ended)
  {
    if events != [] {
      EventsEndOnce(events[..|events| - 1], lim);
      EventEndsOnce(OnEvents(events[..|events| - 1], lim), events[|events| - 1], lim);
    }
  }

  /** A consumer that never stops sees exactly one terminal item, and it is the last. */
  lemma ExactlyOneFinalItem(events: seq<Event>, ending: Ending, lim: Limits)
    ensures EndsOnce(Items(events, ending, lim), true)
  {
    EventsEndOnce(events, lim);
  }

  // ---------------------------------------------------------------------------------------------
  // Orderly streams
  // ---------------------------------------------------------------------------------------------

  datatype Entry = Entry(id: string, callId: string, name: string, open: bool, text: string)

  function Entered(ledger: map<int, Entry>, ev: Event): map<int, Entry> {
    if ev.ItemAdded? && ev.isCall then ledger[ev.outputIndex := Entry(ev.itemId, ev.callId, ev.name, true, "")]
    else if ev.ArgsDelta? && ev.outputIndex in ledger then
      ledger[ev.outputIndex := ledger[ev.outputIndex].(text := ledger[ev.outputIndex].text + ev.delta)]
    else if ev.ArgsDone? && ev.outputIndex in ledger then
      ledger[ev.outputIndex := ledger[ev.outputIndex].(open := false)]
    else ledger
  }

  /** What has been announced, by output index, and whether it is still open. */
  function Ledger(events: seq<Event>): map<int, Entry> {
    if events == [] then map[] else Entered(Ledger(events[..|events| - 1]), events[|events| - 1])
  }

  /** The deltas of one output index, joined in order. */
  function TextOf(events: seq<Event>, outputIndex: int): string {
    if events == [] then ""
    else
      var before, ev := TextOf(events[..|events| - 1], outputIndex), events[|events| - 1];
      if ev.ArgsDelta? && ev.outputIndex == outputIndex then before + ev.delta else before
  }

  predicate IsItemId(id: string) {
    id != "" && id[0] != '#'
  }

  predicate IsOpen(ledger: map<int, Entry>, i: int) {
    i in ledger && ledger[i].open
  }

  /** The event is about an open item, under its ID or under no ID. */
  predicate IsAbout(ledger: map<int, Entry>, itemId: string, outputIndex: int) {
    IsOpen(ledger, outputIndex) && (itemId == "" || itemId == ledger[outputIndex].id)
  }

  predicate Fits(ledger: map<int, Entry>, ev: Event) {
    match ev
    case ItemAdded(isCall, outputIndex, itemId, _, _) =>
      isCall ==> IsItemId(itemId) && outputIndex !in ledger && forall i | i in ledger :: ledger[i].id != itemId
    case ArgsDelta(itemId, outputIndex, _) => IsAbout(ledger, itemId, outputIndex)
    case ArgsDone(itemId, outputIndex, _, _, _) => IsAbout(ledger, itemId, outputIndex)
    case _ => true
  }

  /** Item IDs and output indices match one to one, and every item is announced before its events. */
  predicate IsOrderly(events: seq<Event>) {
    events == [] ||
    (IsOrderly(events[..|events| - 1]) && Fits(Ledger(events[..|events| - 1]), events[|events| - 1]))
  }

  lemma {:induction false} LedgerKeepsText(events: seq<Event>, i: int)
    requires IsOrderly(events)
    ensures TextOf(events, i) == if i in Ledger(events) then Ledger(events)[i].text else ""
  {
    if events != [] {
      LedgerKeepsText(events[..|events| - 1], i);
    }
  }

  lemma HashInjective(i: int, j: int)
    requires Hash(i) == Hash(j)
    ensures i == j
  {
    assert Itoa(i) == Hash(i)[1..] && Itoa(j) == Hash(j)[1..];
    DecimalStartsWithDigit(if i < 0 then -i else i);
    DecimalStartsWithDigit(if j < 0 then -j else j);
    if i < 0 && j < 0 {
      assert Itoa(i)[1..] == Decimal(-i) && Itoa(j)[1..] == Decimal(-j);
      DecimalInjective(-i, -j);
    } else if i >= 0 && j >= 0 {
      DecimalInjective(i, j);
    }
  }

  lemma {:induction false} DecimalStartsWithDigit(n: nat)
    ensures Decimal(n) != "" && '0' <= Decimal(n)[0] <= '9'
  {
    if n >= 10 {
      DecimalStartsWithDigit(n / 10);
    }
  }

  lemma HashIsNoItemId(i: int, id: string)
    requires IsItemId(id)
    ensures id != Hash(i)
  {
  }

  /** Both keys of an open item reach one cell, which holds its names and its own deltas. */
  ghost predicate IsTracked(s: Pending, e: Entry, i: int) {
    && e.id in s.pending && Hash(i) in s.pending && s.pending[e.id] == s.pending[Hash(i)]
    && s.cells[s.pending[Hash(i)]] == Cell(e.name, e.callId, e.text)
  }

  ghost predicate IsKnown(ledger: map<int, Entry>, key: string) {
    exists i :: i in ledger && (key == ledger[i].id || (key == Hash(i) && ledger[i].open))
  }

  ghost predicate HasItemIds(ledger: map<int, Entry>) {
    && (forall i | i in ledger :: IsItemId(ledger[i].id))
    && (forall i, j | i in ledger && j in ledger && ledger[i].id == ledger[j].id :: i == j)
  }

  ghost predicate AllTracked(s: Pending, ledger: map<int, Entry>) {
    forall i | IsOpen(ledger, i) :: IsTracked(s, ledger[i], i)
  }

  ghost predicate AreApart(s: Pending, i: int, j: int) {
    Hash(i) in s.pending && Hash(j) in s.pending && s.pending[Hash(i)] != s.pending[Hash(j)]
  }

  ghost predicate AllApart(s: Pending, ledger: map<int, Entry>) {
    forall i, j | IsOpen(ledger, i) && IsOpen(ledger, j) && i != j :: AreApart(s, i, j)
  }

  ghost predicate AllKnown(s: Pending, ledger: map<int, Entry>) {
    forall key | key in s.pending :: IsKnown(ledger, key)
  }

  ghost predicate IsInOrder(s: Pending, ledger: map<int, Entry>) {
    HasItemIds(ledger) && AllTracked(s, ledger) && AllApart(s, ledger) && AllKnown(s, ledger)
  }

  /** An announced item gets a new cell, under two keys that nothing used before it. */
  lemma AddedIsNew(s: Pending, ledger: map<int, Entry>, ev: Event)
    requires IsInOrder(s, ledger) && ev.ItemAdded? && ev.isCall && Fits(ledger, ev)
    ensures ev.itemId !in s.pending && Hash(ev.outputIndex) !in s.pending && ev.itemId != Hash(ev.outputIndex)
    ensures OnAdded(s, ev).pending == s.pending[ev.itemId := |s.cells|][Hash(ev.outputIndex) := |s.cells|]
    ensures OnAdded(s, ev).cells == s.cells + [Cell(ev.name, ev.callId, "")]
  {
    HashIsNoItemId(ev.outputIndex, ev.itemId);
    assert !IsKnown(ledger, ev.itemId);
    forall j | j in ledger && (Hash(ev.outputIndex) == ledger[j].id || Hash(ev.outputIndex) == Hash(j)) ensures false {
      HashIsNoItemId(ev.outputIndex, ledger[j].id);
      HashInjective(ev.outputIndex, j);
    }
    assert !IsKnown(ledger, Hash(ev.outputIndex));
  }

  lemma AddedTracked(s: Pending, ledger: map<int, Entry>, ev: Event)
    requires IsInOrder(s, ledger) && ev.ItemAdded? && ev.isCall && Fits(ledger, ev)
    ensures AllTracked(OnAdded(s, ev), Entered(ledger, ev))
  {
    AddedIsNew(s, ledger, ev);
    var ledger', s' := Entered(ledger, ev), OnAdded(s, ev);
    forall j | IsOpen(ledger', j) ensures IsTracked(s', ledger'[j], j) {
      assert j != ev.outputIndex ==> IsOpen(ledger, j) && IsTracked(s, ledger[j], j);
    }
  }

  lemma AddedApart(s: Pending, ledger: map<int, Entry>, ev: Event)
    requires IsInOrder(s, ledger) && ev.ItemAdded? && ev.isCall && Fits(ledger, ev)
    ensures AllApart(OnAdded(s, ev), Entered(ledger, ev))
  {
    AddedIsNew(s, ledger, ev);
    var ledger', s' := Entered(ledger, ev), OnAdded(s, ev);
    forall j, k | IsOpen(ledger', j) && IsOpen(ledger', k) && j != k ensures AreApart(s', j, k) {
      if j != ev.outputIndex && k != ev.outputIndex {
        assert IsOpen(ledger, j) && IsOpen(ledger, k) && AreApart(s, j, k);
      } else if j == ev.outputIndex {
        assert IsOpen(ledger, k) && IsTracked(s, ledger[k], k);
      } else {
        assert IsOpen(ledger, j) && IsTracked(s, ledger[j], j);
      }
    }
  }

  lemma AddedInOrder(s: Pending, ledger: map<int, Entry>, ev: Event)
    requires IsInOrder(s, ledger) && ev.ItemAdded? && ev.isCall && Fits(ledger, ev)
    ensures IsInOrder(OnAdded(s, ev), Entered(ledger, ev))
  {
    AddedTracked(s, ledger, ev);
    AddedApart(s, ledger, ev);
    AddedKnown(s, ledger, ev);
  }

  lemma AddedKnown(s: Pending, ledger: map<int, Entry>, ev: Event)
    requires IsInOrder(s, ledger) && ev.ItemAdded? && ev.isCall && Fits(ledger, ev)
    ensures AllKnown(OnAdded(s, ev), Entered(ledger, ev))
  {
    AddedIsNew(s, ledger, ev);
    var ledger' := Entered(ledger, ev);
    forall key | key in OnAdded(s, ev).pending ensures IsKnown(ledger', key) {
      if key in s.pending {
        assert IsKnown(ledger, key);
        var j :| j in ledger && (key == ledger[j].id || (key == Hash(j) && ledger[j].open));
        assert j in ledger' && ledger'[j] == ledger[j];
      } else {
        assert ev.outputIndex in ledger';
      }
    }
  }

  /** In an orderly stream a delta or done event finds the cell of its own item. */
  lemma AboutFinds(s: Pending, ledger: map<int, Entry>, itemId: string, outputIndex: int)
    requires AllTracked(s, ledger) && IsAbout(ledger, itemId, outputIndex)
    ensures IsTracked(s, ledger[outputIndex], outputIndex)
    ensures PendingFor(s, itemId, outputIndex) == (s, s.pending[Hash(outputIndex)])
  {
    assert IsTracked(s, ledger[outputIndex], outputIndex);
  }

  lemma ArgsInOrder(s: Pending, ledger: map<int, Entry>, ev: Event, lim: Limits)
    requires IsInOrder(s, ledger) && ev.ArgsDelta? && Fits(ledger, ev)
    requires !s.ended && !OnArgs(s, ev, lim).ended
    ensures IsInOrder(OnArgs(s, ev, lim), Entered(ledger, ev))
  {
    var ledger', s', i := Entered(ledger, ev), OnArgs(s, ev, lim), ev.outputIndex;
    AboutFinds(s, ledger, ev.itemId, i);
    assert s'.pending == s.pending;
    forall j | IsOpen(ledger', j) ensures IsTracked(s', ledger'[j], j) {
      assert IsOpen(ledger, j) && IsTracked(s, ledger[j], j);
      assert j != i ==> AreApart(s, i, j);
    }
    forall j, k | IsOpen(ledger', j) && IsOpen(ledger', k) && j != k ensures AreApart(s', j, k) {
      assert IsOpen(ledger, j) && IsOpen(ledger, k) && AreApart(s, j, k);
    }
    forall key | key in s'.pending ensures IsKnown(ledger', key) {
      KnownStays(ledger, ledger', key);
    }
  }

  lemma KnownStays(ledger: map<int, Entry>, ledger': map<int, Entry>, key: string)
    requires IsKnown(ledger, key)
    requires forall i | i in ledger :: i in ledger' && ledger'[i].id == ledger[i].id
    requires forall i | IsOpen(ledger, i) :: ledger'[i].open || key != Hash(i)
    ensures IsKnown(ledger', key)
  {
    var j :| j in ledger && (key == ledger[j].id || (key == Hash(j) && ledger[j].open));
    assert IsOpen(ledger, j) || !ledger[j].open;
    assert j in ledger' && ledger'[j].id == ledger[j].id;
  }

  lemma DoneForgets(s: Pending, ledger: map<int, Entry>, ev: Event, lim: Limits)
    requires IsInOrder(s, ledger) && ev.ArgsDone? && Fits(ledger, ev)
    ensures OnDone(s, ev, lim).pending == s.pending - {Key(ev.itemId, ev.outputIndex), Hash(ev.outputIndex)}
    ensures forall j | IsOpen(ledger, j) && j != ev.outputIndex ::
              OnDone(s, ev, lim).cells[s.pending[Hash(j)]] == s.cells[s.pending[Hash(j)]]
    ensures forall j | IsOpen(ledger, j) && j != ev.outputIndex ::
              && Hash(j) !in {Key(ev.itemId, ev.outputIndex), Hash(ev.outputIndex)}
              && ledger[j].id !in {Key(ev.itemId, ev.outputIndex), Hash(ev.outputIndex)}
  {
    var i := ev.outputIndex;
    AboutFinds(s, ledger, ev.itemId, i);
    forall j | IsOpen(ledger, j) && j != i
      ensures OnDone(s, ev, lim).cells[s.pending[Hash(j)]] == s.cells[s.pending[Hash(j)]]
      ensures Hash(j) !in {Key(ev.itemId, i), Hash(i)} && ledger[j].id !in {Key(ev.itemId, i), Hash(i)}
    {
      assert AreApart(s, i, j) && IsTracked(s, ledger[j], j);
      HashIsNoItemId(i, ledger[j].id);
      HashIsNoItemId(j, ledger[i].id);
      if Hash(i) == Hash(j) { HashInjective(i, j); }
    }
  }

  lemma DoneApart(s: Pending, ledger: map<int, Entry>, ev: Event, lim: Limits)
    requires IsInOrder(s, ledger) && ev.ArgsDone? && Fits(ledger, ev)
    ensures AllApart(OnDone(s, ev, lim), Entered(ledger, ev))
  {
    DoneForgets(s, ledger, ev, lim);
    var ledger' := Entered(ledger, ev);
    forall j, k | IsOpen(ledger', j) && IsOpen(ledger', k) && j != k ensures AreApart(OnDone(s, ev, lim), j, k) {
      assert IsOpen(ledger, j) && IsOpen(ledger, k) && AreApart(s, j, k);
    }
  }

  lemma DoneKnown(s: Pending, ledger: map<int, Entry>, ev: Event, lim: Limits)
    requires IsInOrder(s, ledger) && ev.ArgsDone? && Fits(ledger, ev)
    ensures AllKnown(OnDone(s, ev, lim), Entered(ledger, ev))
  {
    DoneForgets(s, ledger, ev, lim);
    forall key | key in OnDone(s, ev, lim).pending ensures IsKnown(Entered(ledger, ev), key) {
      KnownStays(ledger, Entered(ledger, ev), key);
    }
  }

  lemma DoneInOrder(s: Pending, ledger: map<int, Entry>, ev: Event, lim: Limits)
    requires IsInOrder(s, ledger) && ev.ArgsDone? && Fits(ledger, ev)
    ensures IsInOrder(OnDone(s, ev, lim), Entered(ledger, ev))
  {
    DoneForgets(s, ledger, ev, lim);
    var ledger' := Entered(ledger, ev);
    forall j | IsOpen(ledger', j) ensures IsTracked(OnDone(s, ev, lim), ledger'[j], j) {
      assert IsOpen(ledger, j) && IsTracked(s, ledger[j], j);
    }
    DoneApart(s, ledger, ev, lim);
    DoneKnown(s, ledger, ev, lim);
  }

  lemma {:induction false} OrderlyIsInOrder(events: seq<Event>, lim: Limits)
    requires IsOrderly(events) && !OnEvents(events, lim).ended
    ensures IsInOrder(OnEvents(events, lim), Ledger(events))
  {
    if events != [] {
      var init, ev := events[..|events| - 1], events[|events| - 1];
      var s, ledger := OnEvents(init, lim), Ledger(init);
      OrderlyIsInOrder(init, lim);
      match ev {
        case ItemAdded(isCall, _, _, _, _) => if isCall { AddedInOrder(s, ledger, ev); }
        case ArgsDelta(_, _, _) => ArgsInOrder(s, ledger, ev, lim);
        case ArgsDone(_, _, _, _, _) => DoneInOrder(s, ledger, ev, lim);
        case _ => SameInOrder(s, OnEvent(s, ev, lim), ledger);
      }
    }
  }

  lemma SameInOrder(s: Pending, t: Pending, ledger: map<int, Entry>)
    requires IsInOrder(s, ledger) && t.cells == s.cells && t.pending == s.pending
    ensures IsInOrder(t, ledger)
  {
    forall i | IsOpen(ledger, i) ensures IsTracked(t, ledger[i], i) {
      assert IsTracked(s, ledger[i], i);
    }
    forall i, j | IsOpen(ledger, i) && IsOpen(ledger, j) && i != j ensures AreApart(t, i, j) {
      assert AreApart(s, i, j);
    }
  }

  /**
   In an orderly stream, a done event without arguments of its own yields exactly its own item's
   deltas joined in order, under the announced name and call ID, even if some deltas, or the done
   event itself, left the item ID out.
   */
  lemma DoneYieldsOwnDeltas(events: seq<Event>, done: Event, lim: Limits)
    requires done.ArgsDone? && done.args == "" && IsOrderly(events + [done]) && !OnEvents(events, lim).ended
    ensures done.outputIndex in Ledger(events)
    ensures var e := Ledger(events)[done.outputIndex];
            OnEvents(events + [done], lim).items == OnEvents(events, lim).items +
              [ToolUse(if done.callId == "" then e.callId else done.callId, if done.name == "" then e.name else done.name,
                       Decoded(lim.decode, TextOf(events, done.outputIndex)))]
  {
    DropAppended(events, done);
    OrderlyIsInOrder(events, lim);
    AboutFinds(OnEvents(events, lim), Ledger(events), done.itemId, done.outputIndex);
    LedgerKeepsText(events, done.outputIndex);
  }

  /** In an orderly stream nothing is orphaned, so the counter is exact throughout. */
  lemma OrderlyNeverOrphans(events: seq<Event>, ev: Event, lim: Limits)
    requires IsOrderly(events + [ev])
    ensures !Orphans(OnEvents(events, lim), ev)
  {
    DropAppended(events, ev);
    var s := OnEvents(events, lim);
    if Orphans(s, ev) {
      OrderlyIsInOrder(events, lim);
      if ev.ArgsDone? {
        AboutFinds(s, Ledger(events), ev.itemId, ev.outputIndex);
      } else {
        AddedIsNew(s, Ledger(events), ev);
      }
    }
  }

  lemma {:induction false} OrderlyPrefix(events: seq<Event>, n: nat)
    requires IsOrderly(events) && n <= |events|
    ensures IsOrderly(events[..n])
    decreases |events|
  {
    if n == |events| {
      assert events[..n] == events;
    } else {
      OrderlyPrefix(events[..|events| - 1], n);
      assert events[..|events| - 1][..n] == events[..n];
    }
  }

  lemma OrderlyIsExact(events: seq<Event>, lim: Limits)
    requires IsOrderly(events)
    ensures IsExactThroughout(events, lim)
  {
    forall n | 0 <= n < |events| ensures !Orphans(OnEvents(events[..n], lim), events[n]) {
      OrderlyPrefix(events, n + 1);
      TakeNext(events, n);
      OrderlyNeverOrphans(events[..n], events[n], lim);
    }
    CounterIsExactIff(events, lim);
  }
}
