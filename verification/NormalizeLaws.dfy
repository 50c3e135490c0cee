/** What a normalized transcript guarantees, for every input transcript and every target. */
module NormalizeLaws {
  import opened Wrappers
  import opened Normalize
  import opened Sequences

  // ---------------------------------------------------------------------------------------------
  // Pairing: what happened to each part
  // ---------------------------------------------------------------------------------------------

  function Slots(h: Header, parts: seq<Part>): (slots: seq<(Header, Part)>)
    ensures |slots| == |parts| && forall i | 0 <= i < |parts| :: slots[i] == (h, parts[i])
  {
    seq(|parts|, i requires 0 <= i < |parts| => (h, parts[i]))
  }

  /** The parts of the turns that are replayed, in order: what the forward pass reads. */
  function Considered(msgs: seq<Message>): seq<(Header, Part)> {
    if msgs == [] then []
    else
      var m := msgs[|msgs| - 1];
      var before := Considered(msgs[..|msgs| - 1]);
      if IsIncomplete(m.header) then before
      else before + Slots(m.header, m.content)
  }

  function Flat(msgs: seq<Message>): seq<(Header, Part)> {
    if msgs == [] then []
    else
      var m := msgs[|msgs| - 1];
      Flat(msgs[..|msgs| - 1]) + Slots(m.header, m.content)
  }

  function Survivors(trace: seq<Entry>): seq<(Header, Part)> {
    if trace == [] then []
    else
      var before := Survivors(trace[..|trace| - 1]);
      var e := trace[|trace| - 1];
      if e.kept.Some? then before + [(e.header, e.kept.value)] else before
  }

  /** Entry `j` is the call that a result naming `id` at position `k` belongs to: the latest before it. */
  ghost predicate IsLatestCall(trace: seq<Entry>, id: string, j: int, k: nat)
    requires k <= |trace|
  {
    && 0 <= j < k
    && IsCall(trace[j].original) && trace[j].original.toolUseId == id
    && forall i | j < i < k :: !(IsCall(trace[i].original) && trace[i].original.toolUseId == id)
  }

  /** Result `k` is kept exactly when a call with its ID precedes it, and then targets that call's new ID. */
  ghost predicate IsPairedAt(trace: seq<Entry>, k: nat)
    requires k < |trace|
  {
    var e := trace[k];
    e.original.kind == ToolResult ==>
      && (e.kept.Some? <==> exists j :: IsLatestCall(trace, e.original.toolResultId, j, k))
      && forall j | IsLatestCall(trace, e.original.toolResultId, j, k) ::
           && e.kept.Some? && trace[j].kept.Some?
           && e.kept.value == e.original.(toolResultId := trace[j].kept.value.toolUseId)
  }

  /** Every call so far was emitted, and its original ID can be looked up. */
  ghost predicate CallsAreNamed(s: Progress) {
    forall k | 0 <= k < |s.trace| && IsCall(s.trace[k].original) ::
      s.trace[k].kept.Some? && s.trace[k].original.toolUseId in s.remap
  }

  ghost predicate IsNameOf(s: Progress, id: string, j: int)
    requires id in s.remap
  {
    && IsLatestCall(s.trace, id, j, |s.trace|)
    && s.trace[j].kept.Some? && s.trace[j].kept.value.toolUseId == s.remap[id]
  }

  /** The name on record for an ID is the one its latest call was given. */
  ghost predicate NamesAreLatest(s: Progress) {
    forall id | id in s.remap :: exists j :: IsNameOf(s, id, j)
  }

  ghost predicate ResultsArePaired(s: Progress) {
    forall k | 0 <= k < |s.trace| :: IsPairedAt(s.trace, k)
  }

  ghost predicate IsSound(s: Progress) {
    CallsAreNamed(s) && NamesAreLatest(s) && ResultsArePaired(s)
  }

  lemma LatestCallUnique(trace: seq<Entry>, id: string, i: int, j: int, k: nat)
    requires k <= |trace|
    requires IsLatestCall(trace, id, i, k) && IsLatestCall(trace, id, j, k)
    ensures i == j
  {
  }

  lemma LatestCallPrefix(trace: seq<Entry>, e: Entry, id: string, j: int, k: nat)
    requires k <= |trace|
    ensures IsLatestCall(trace + [e], id, j, k) <==> IsLatestCall(trace, id, j, k)
  {
    if IsLatestCall(trace, id, j, k) {
      assert forall i | j <= i < k :: (trace + [e])[i] == trace[i];
    }
    if IsLatestCall(trace + [e], id, j, k) {
      assert forall i | j <= i < k :: (trace + [e])[i] == trace[i];
    }
  }

  lemma PairedPrefix(trace: seq<Entry>, e: Entry, k: nat)
    requires k < |trace| && IsPairedAt(trace, k)
    ensures IsPairedAt(trace + [e], k)
  {
    var id := trace[k].original.toolResultId;
    assert (trace + [e])[k] == trace[k];
    forall j ensures IsLatestCall(trace + [e], id, j, k) <==> IsLatestCall(trace, id, j, k) {
      LatestCallPrefix(trace, e, id, j, k);
    }
  }

  lemma FeedPairsNew(h: Header, p: Part, s: Progress, to: Target)
    requires CallsAreNamed(s) && NamesAreLatest(s)
    ensures IsPairedAt(s.trace + [Entry(h, p, Kept(h, p, s, to))], |s.trace|)
  {
    var e := Entry(h, p, Kept(h, p, s, to));
    var t, n, id := s.trace + [e], |s.trace|, p.toolResultId;
    if p.kind == ToolResult {
      forall j ensures IsLatestCall(t, id, j, n) <==> IsLatestCall(s.trace, id, j, n) {
        LatestCallPrefix(s.trace, e, id, j, n);
      }
      if id in s.remap {
        var j :| IsNameOf(s, id, j);
        assert IsLatestCall(t, id, j, n);
        forall i | IsLatestCall(t, id, i, n) ensures i == j {
          LatestCallUnique(s.trace, id, i, j, n);
        }
      }
    }
  }

  lemma FeedPairs(h: Header, p: Part, s: Progress, to: Target)
    requires IsSound(s)
    ensures ResultsArePaired(Feed(h, p, s, to))
  {
    var e := Entry(h, p, Kept(h, p, s, to));
    forall k | 0 <= k < |s.trace| + 1 ensures IsPairedAt(s.trace + [e], k) {
      if k < |s.trace| {
        PairedPrefix(s.trace, e, k);
      } else {
        FeedPairsNew(h, p, s, to);
      }
    }
  }

  lemma FeedTracksOther(h: Header, p: Part, s: Progress, to: Target, id: string)
    requires NamesAreLatest(s) && id in s.remap && !(IsCall(p) && p.toolUseId == id)
    ensures exists j :: IsNameOf(Feed(h, p, s, to), id, j)
  {
    var t := Feed(h, p, s, to);
    var j :| IsNameOf(s, id, j);
    assert forall i | j <= i < |s.trace| :: t.trace[i] == s.trace[i];
    assert IsLatestCall(t.trace, id, j, |t.trace|);
    assert IsNameOf(t, id, j);
  }

  lemma FeedTracksLatest(h: Header, p: Part, s: Progress, to: Target)
    requires NamesAreLatest(s)
    ensures NamesAreLatest(Feed(h, p, s, to))
  {
    var t := Feed(h, p, s, to);
    forall id | id in t.remap ensures exists j :: IsNameOf(t, id, j) {
      if IsCall(p) && p.toolUseId == id {
        assert IsNameOf(t, id, |s.trace|);
      } else {
        FeedTracksOther(h, p, s, to, id);
      }
    }
  }

  lemma FeedSound(h: Header, p: Part, s: Progress, to: Target)
    requires IsSound(s)
    ensures IsSound(Feed(h, p, s, to))
  {
    FeedPairs(h, p, s, to);
    FeedTracksLatest(h, p, s, to);
  }

  lemma {:induction false} FeedAllSound(h: Header, parts: seq<Part>, s: Progress, to: Target)
    requires IsSound(s)
    ensures IsSound(FeedAll(h, parts, s, to).state)
  {
    if parts != [] {
      FeedAllSound(h, parts[..|parts| - 1], s, to);
      FeedSound(h, parts[|parts| - 1], FeedAll(h, parts[..|parts| - 1], s, to).state, to);
    }
  }

  lemma {:induction false} ForwardSound(msgs: seq<Message>, to: Target)
    ensures IsSound(Forward(msgs, to).state)
  {
    if msgs != [] {
      var m := msgs[|msgs| - 1];
      ForwardSound(msgs[..|msgs| - 1], to);
      if !IsIncomplete(m.header) {
        FeedAllSound(m.header, m.content, Forward(msgs[..|msgs| - 1], to).state, to);
      }
    }
  }

  /** One entry per considered part, in order; what survives is `flat`. */
  ghost predicate IsAligned(trace: seq<Entry>, considered: seq<(Header, Part)>, flat: seq<(Header, Part)>) {
    && |trace| == |considered|
    && (forall k | 0 <= k < |trace| :: (trace[k].header, trace[k].original) == considered[k])
    && Survivors(trace) == flat
  }

  lemma AlignedAppend(trace: seq<Entry>, e: Entry, considered: seq<(Header, Part)>, flat: seq<(Header, Part)>)
    requires IsAligned(trace, considered, flat)
    ensures IsAligned(trace + [e], considered + [(e.header, e.original)],
                      if e.kept.Some? then flat + [(e.header, e.kept.value)] else flat)
  {
    DropAppended(trace, e);
  }

  lemma SlotsAppend(h: Header, parts: seq<Part>, p: Part)
    ensures Slots(h, parts + [p]) == Slots(h, parts) + [(h, p)]
  {
  }

  lemma FeedAligned(
    h: Header, p: Part, before: Fed, to: Target, considered: seq<(Header, Part)>, init: seq<Part>, flat: seq<(Header, Part)>)
    requires IsAligned(before.state.trace, considered + Slots(h, init), flat + Slots(h, before.content))
    ensures var kept := Kept(h, p, before.state, to);
            IsAligned(Feed(h, p, before.state, to).trace, considered + Slots(h, init + [p]),
                      flat + Slots(h, if kept.Some? then before.content + [kept.value] else before.content))
  {
    var e := Entry(h, p, Kept(h, p, before.state, to));
    AlignedAppend(before.state.trace, e, considered + Slots(h, init), flat + Slots(h, before.content));
    SlotsAppend(h, init, p);
    assert considered + Slots(h, init) + [(h, p)] == considered + Slots(h, init + [p]);
    if e.kept.Some? {
      SlotsAppend(h, before.content, e.kept.value);
      assert flat + Slots(h, before.content) + [(h, e.kept.value)] == flat + Slots(h, before.content + [e.kept.value]);
    }
  }

  lemma {:induction false} FeedAllAligned(
    h: Header, parts: seq<Part>, s: Progress, to: Target, considered: seq<(Header, Part)>, flat: seq<(Header, Part)>)
    requires IsAligned(s.trace, considered, flat)
    ensures var fed := FeedAll(h, parts, s, to);
            IsAligned(fed.state.trace, considered + Slots(h, parts), flat + Slots(h, fed.content))
  {
    if parts == [] {
      assert considered + Slots(h, []) == considered && flat + Slots(h, []) == flat;
    } else {
      var init, p := parts[..|parts| - 1], parts[|parts| - 1];
      FeedAllAligned(h, init, s, to, considered, flat);
      FeedAligned(h, p, FeedAll(h, init, s, to), to, considered, init, flat);
      SplitLast(parts);
    }
  }

  lemma FlatAppend(msgs: seq<Message>, m: Message)
    ensures Flat(msgs + [m]) == Flat(msgs) + Slots(m.header, m.content)
  {
    DropAppended(msgs, m);
  }

  lemma {:induction false} ForwardAligned(msgs: seq<Message>, to: Target)
    ensures var p := Forward(msgs, to);
            IsAligned(p.state.trace, Considered(msgs), Flat(p.out))
  {
    if msgs != [] {
      var init, m := msgs[..|msgs| - 1], msgs[|msgs| - 1];
      var before := Forward(init, to);
      ForwardAligned(init, to);
      if !IsIncomplete(m.header) {
        var fed := FeedAll(m.header, m.content, before.state, to);
        FeedAllAligned(m.header, m.content, before.state, to, Considered(init), Flat(before.out));
        FlatAppend(before.out, Message(m.header, fed.content));
        assert fed.content == [] ==> Flat(before.out) + Slots(m.header, fed.content) == Flat(before.out);
      }
    }
  }

  /**
   Every part of every replayed turn has one entry, in order, and the output is the kept ones in
   order. Each tool result is kept exactly when a kept call with its original ID precedes it, is
   unchanged but for its target, and targets the ID that the latest such call was given, whatever
   generated names collide with original ones.
   */
  lemma ResultsPairWithLatestCall(msgs: seq<Message>, to: Target)
    ensures var p := Forward(msgs, to);
            && IsAligned(p.state.trace, Considered(msgs), Flat(p.out))
            && forall k | 0 <= k < |p.state.trace| :: IsPairedAt(p.state.trace, k)
  {
    ForwardSound(msgs, to);
    ForwardAligned(msgs, to);
  }

  // ---------------------------------------------------------------------------------------------
  // Fidelity: what the pass may change, and when
  // ---------------------------------------------------------------------------------------------

  ghost predicate Emitted(trace: seq<Entry>, id: string, j: int) {
    0 <= j < |trace| && IsCall(trace[j].original) && trace[j].kept.Some? && trace[j].kept.value.toolUseId == id
  }

  predicate IsOtherModels(h: Header, to: Target) {
    to.model != "" && h.model != "" && !SameModel(h.model, to.model, to.aliases)
  }

  /** The thought goes back to the provider that redacted or signed it. */
  predicate IsReplayable(h: Header, p: Part, to: Target) {
    h.provider != "" && h.provider == to.provider && (p.redacted || p.signature != "")
  }

  predicate IsReadable(p: Part) {
    p.thinking != "" && !p.redacted
  }

  /**
   A call is always kept, renamed exactly when its ID was emitted before, and loses its signature exactly
   to another provider. A thought goes exactly when it is another model's, or can be neither replayed
   nor read; it stays a thought exactly when it can be replayed, and is its words otherwise. A
   provider's own block goes exactly when the target is another provider, and so do a text's citations.
   A result only changes the call it names; the rest is untouched.
   */
  ghost predicate IsFaithfulAt(trace: seq<Entry>, k: nat, to: Target)
    requires k < |trace|
  {
    var h, p, kept := trace[k].header, trace[k].original, trace[k].kept;
    && (IsCall(p) ==>
          && kept.Some?
          && kept.value == p.(toolUseId := kept.value.toolUseId,
                              thoughtSignature := if h.provider == to.provider then p.thoughtSignature else "")
          && (kept.value.toolUseId != p.toolUseId <==> exists j :: j < k && Emitted(trace, p.toolUseId, j)))
    && (p.kind == Thinking ==>
          && (kept == None <==> IsOtherModels(h, to) || (!IsReplayable(h, p, to) && !IsReadable(p)))
          && (kept == Some(p) <==> !IsOtherModels(h, to) && IsReplayable(h, p, to))
          && (kept.Some? ==> kept.value == p || kept.value == EMPTY_PART.(text := p.thinking)))
    && (p.kind in {ServerToolUse, ServerToolResult, ProviderBlock} ==>
          if IsForeign(h.provider, to.provider) then kept == None else kept == Some(p))
    && (p.kind == Text ==>
          kept == Some(p.(citations := if IsForeign(h.provider, to.provider) then [] else p.citations)))
    && (p.kind == ToolResult && kept.Some? ==> kept.value == p.(toolResultId := kept.value.toolResultId))
    && (p.kind in {Image, Document} || p.kind.Unknown? || (p.kind == ToolUse && p.toolUseId == "") ==> kept == Some(p))
  }

  ghost predicate UsedAreEmitted(s: Progress) {
    forall id :: id in s.used <==> exists j :: Emitted(s.trace, id, j)
  }

  lemma EmittedAppend(trace: seq<Entry>, e: Entry, id: string)
    ensures (exists j :: Emitted(trace + [e], id, j)) <==>
            (exists j :: Emitted(trace, id, j)) || Emitted([e], id, 0)
    ensures (exists j :: j < |trace| && Emitted(trace + [e], id, j)) <==> (exists j :: Emitted(trace, id, j))
  {
    forall j | Emitted(trace, id, j) ensures Emitted(trace + [e], id, j) {
    }
    if Emitted([e], id, 0) {
      assert Emitted(trace + [e], id, |trace|);
    }
    forall j | Emitted(trace + [e], id, j) && j < |trace| ensures Emitted(trace, id, j) {
    }
  }

  lemma FeedEmits(h: Header, p: Part, s: Progress, to: Target)
    requires UsedAreEmitted(s)
    ensures UsedAreEmitted(Feed(h, p, s, to))
  {
    var e := Entry(h, p, Kept(h, p, s, to));
    forall id ensures id in Feed(h, p, s, to).used <==> exists j :: Emitted(s.trace + [e], id, j) {
      EmittedAppend(s.trace, e, id);
    }
  }

  lemma FaithfulPrefix(trace: seq<Entry>, e: Entry, k: nat, to: Target)
    requires k < |trace| && IsFaithfulAt(trace, k, to)
    ensures IsFaithfulAt(trace + [e], k, to)
  {
    var id := trace[k].original.toolUseId;
    forall j | j < k ensures Emitted(trace + [e], id, j) <==> Emitted(trace, id, j) {
    }
  }

  lemma FeedFaithful(h: Header, p: Part, s: Progress, to: Target)
    requires UsedAreEmitted(s)
    ensures IsFaithfulAt(s.trace + [Entry(h, p, Kept(h, p, s, to))], |s.trace|, to)
  {
    EmittedAppend(s.trace, Entry(h, p, Kept(h, p, s, to)), p.toolUseId);
  }

  ghost predicate IsFaithful(s: Progress, to: Target) {
    UsedAreEmitted(s) && forall k | 0 <= k < |s.trace| :: IsFaithfulAt(s.trace, k, to)
  }

  lemma {:induction false} FeedAllFaithful(h: Header, parts: seq<Part>, s: Progress, to: Target)
    requires IsFaithful(s, to)
    ensures IsFaithful(FeedAll(h, parts, s, to).state, to)
  {
    if parts != [] {
      var p, before := parts[|parts| - 1], FeedAll(h, parts[..|parts| - 1], s, to).state;
      FeedAllFaithful(h, parts[..|parts| - 1], s, to);
      FeedEmits(h, p, before, to);
      var e := Entry(h, p, Kept(h, p, before, to));
      forall k | 0 <= k < |before.trace| + 1 ensures IsFaithfulAt(before.trace + [e], k, to) {
        if k < |before.trace| {
          FaithfulPrefix(before.trace, e, k, to);
        } else {
          FeedFaithful(h, p, before, to);
        }
      }
    }
  }

  /** No part is lost, changed or renamed without the reason `IsFaithfulAt` gives. */
  lemma {:induction false} PassIsFaithful(msgs: seq<Message>, to: Target)
    ensures IsFaithful(Forward(msgs, to).state, to)
  {
    if msgs != [] {
      var m := msgs[|msgs| - 1];
      PassIsFaithful(msgs[..|msgs| - 1], to);
      if !IsIncomplete(m.header) {
        FeedAllFaithful(m.header, m.content, Forward(msgs[..|msgs| - 1], to).state, to);
      }
    }
  }

  // ---------------------------------------------------------------------------------------------
  // Settled transcripts: the fixed points of the forward pass
  // ---------------------------------------------------------------------------------------------

  function CallIds(parts: seq<Part>): set<string> {
    set p | p in parts && IsCall(p) :: p.toolUseId
  }

  function AllCallIds(msgs: seq<Message>): set<string> {
    if msgs == [] then {} else AllCallIds(msgs[..|msgs| - 1]) + CallIds(msgs[|msgs| - 1].content)
  }

  /** The pass would leave `p` alone, given the calls emitted before it. */
  ghost predicate IsSettledPart(h: Header, p: Part, earlier: set<string>, to: Target) {
    match p.kind
    case ToolUse =>
      p.toolUseId != "" ==> p.toolUseId !in earlier && (h.provider != to.provider ==> p.thoughtSignature == "")
    case ToolResult => p.toolResultId in earlier
    case Thinking => KeptThinking(h, p, to) == Some(p)
    case ServerToolUse => !IsForeign(h.provider, to.provider)
    case ServerToolResult => !IsForeign(h.provider, to.provider)
    case ProviderBlock => !IsForeign(h.provider, to.provider)
    case Text => p.citations == [] || !IsForeign(h.provider, to.provider)
    case _ => true
  }

  ghost predicate AreSettledParts(h: Header, parts: seq<Part>, earlier: set<string>, to: Target) {
    forall k | 0 <= k < |parts| :: IsSettledPart(h, parts[k], earlier + CallIds(parts[..k]), to)
  }

  ghost predicate IsSettled(msgs: seq<Message>, to: Target) {
    msgs == [] ||
    var m := msgs[|msgs| - 1];
    && IsSettled(msgs[..|msgs| - 1], to)
    && m.content != [] && !IsIncomplete(m.header)
    && AreSettledParts(m.header, m.content, AllCallIds(msgs[..|msgs| - 1]), to)
  }

  ghost predicate NamesAgree(s: Progress) {
    && "" !in s.used
    && forall id | id in s.remap :: s.remap[id] in s.used
  }

  lemma CallIdsAppend(parts: seq<Part>, p: Part)
    ensures CallIds(parts + [p]) == CallIds(parts) + if IsCall(p) then {p.toolUseId} else {}
  {
  }

  lemma FeedSettles(h: Header, p: Part, s: Progress, to: Target)
    requires NamesAgree(s)
    ensures var t := Feed(h, p, s, to);
            var kept := Kept(h, p, s, to);
            && NamesAgree(t)
            && t.used == s.used + (if kept.Some? && IsCall(kept.value) then {kept.value.toolUseId} else {})
            && (kept.Some? ==> IsSettledPart(h, kept.value, s.used, to))
  {
  }

  /** From `s` the pass kept `fed.content`, which is settled after the calls emitted by then. */
  ghost predicate IsSettledBy(h: Header, s: Progress, fed: Fed, to: Target) {
    && NamesAgree(fed.state)
    && fed.state.used == s.used + CallIds(fed.content)
    && AreSettledParts(h, fed.content, s.used, to)
  }

  lemma SettledPartsAppend(h: Header, parts: seq<Part>, p: Part, earlier: set<string>, to: Target)
    requires AreSettledParts(h, parts, earlier, to) && IsSettledPart(h, p, earlier + CallIds(parts), to)
    ensures AreSettledParts(h, parts + [p], earlier, to)
  {
    forall k | 0 <= k < |parts| + 1
      ensures IsSettledPart(h, (parts + [p])[k], earlier + CallIds((parts + [p])[..k]), to)
    {
      assert (parts + [p])[..k] == parts[..k];
      if k == |parts| {
        assert parts[..k] == parts;
      }
    }
  }

  lemma {:induction false} FeedAllSettles(h: Header, parts: seq<Part>, s: Progress, to: Target)
    requires NamesAgree(s)
    ensures IsSettledBy(h, s, FeedAll(h, parts, s, to), to)
  {
    if parts != [] {
      var p := parts[|parts| - 1];
      var before := FeedAll(h, parts[..|parts| - 1], s, to);
      FeedAllSettles(h, parts[..|parts| - 1], s, to);
      FeedSettles(h, p, before.state, to);
      var kept := Kept(h, p, before.state, to);
      if kept.Some? {
        CallIdsAppend(before.content, kept.value);
        SettledPartsAppend(h, before.content, kept.value, s.used, to);
      }
    }
  }

  ghost predicate HasSettled(p: Passed, to: Target) {
    IsSettled(p.out, to) && NamesAgree(p.state) && p.state.used == AllCallIds(p.out)
  }

  lemma {:induction false} ForwardSettles(msgs: seq<Message>, to: Target)
    ensures HasSettled(Forward(msgs, to), to)
  {
    if msgs != [] {
      var m := msgs[|msgs| - 1];
      var before := Forward(msgs[..|msgs| - 1], to);
      ForwardSettles(msgs[..|msgs| - 1], to);
      if !IsIncomplete(m.header) {
        FeedAllSettles(m.header, m.content, before.state, to);
        var after := Forward(msgs, to);
        if after.out != before.out {
          assert after.out[..|after.out| - 1] == before.out;
        }
      }
    }
  }

  ghost predicate IsIdentity(s: Progress) {
    s.remap.Keys == s.used && forall id | id in s.remap :: s.remap[id] == id
  }

  lemma FeedFixes(h: Header, p: Part, s: Progress, to: Target)
    requires IsIdentity(s) && IsSettledPart(h, p, s.used, to)
    ensures Kept(h, p, s, to) == Some(p)
    ensures IsIdentity(Feed(h, p, s, to))
    ensures Feed(h, p, s, to).used == s.used + if IsCall(p) then {p.toolUseId} else {}
  {
  }

  lemma SettledPrefix(h: Header, parts: seq<Part>, earlier: set<string>, to: Target)
    requires parts != [] && AreSettledParts(h, parts, earlier, to)
    ensures var init, p := parts[..|parts| - 1], parts[|parts| - 1];
            && AreSettledParts(h, init, earlier, to)
            && IsSettledPart(h, p, earlier + CallIds(init), to)
            && CallIds(parts) == CallIds(init) + if IsCall(p) then {p.toolUseId} else {}
  {
    var init, p := parts[..|parts| - 1], parts[|parts| - 1];
    forall k | 0 <= k < |init| ensures IsSettledPart(h, init[k], earlier + CallIds(init[..k]), to) {
      assert init[..k] == parts[..k] && init[k] == parts[k];
    }
    SplitLast(parts);
    CallIdsAppend(init, p);
  }

  lemma {:induction false} FeedAllFixes(h: Header, parts: seq<Part>, s: Progress, to: Target)
    requires IsIdentity(s) && AreSettledParts(h, parts, s.used, to)
    ensures var fed := FeedAll(h, parts, s, to);
            fed.content == parts && IsIdentity(fed.state) && fed.state.used == s.used + CallIds(parts)
  {
    if parts != [] {
      var init, p := parts[..|parts| - 1], parts[|parts| - 1];
      SettledPrefix(h, parts, s.used, to);
      FeedAllFixes(h, init, s, to);
      var before := FeedAll(h, init, s, to);
      FeedFixes(h, p, before.state, to);
      assert FeedAll(h, parts, s, to) == Fed(init + [p], Feed(h, p, before.state, to));
      SplitLast(parts);
    }
  }

  /** The pass returned the transcript itself, with every ID mapped to itself. */
  ghost predicate IsFixed(msgs: seq<Message>, p: Passed) {
    p.out == msgs && IsIdentity(p.state) && p.state.used == AllCallIds(msgs)
  }

  lemma PassMessageFixed(init: seq<Message>, m: Message, before: Passed, to: Target)
    requires before.out == init && IsIdentity(before.state) && m.content != [] && !IsIncomplete(m.header)
    requires AreSettledParts(m.header, m.content, before.state.used, to)
    ensures var after := PassMessage(m, before, to);
            after.out == init + [m] && IsIdentity(after.state) && after.state.used == before.state.used + CallIds(m.content)
  {
    FeedAllFixes(m.header, m.content, before.state, to);
    assert m == Message(m.header, m.content);
  }

  lemma {:induction false} SettledIsFixed(msgs: seq<Message>, to: Target)
    requires IsSettled(msgs, to)
    ensures IsFixed(msgs, Forward(msgs, to))
  {
    if msgs != [] {
      var init, m := msgs[..|msgs| - 1], msgs[|msgs| - 1];
      var before := Forward(init, to);
      SettledIsFixed(init, to);
      PassMessageFixed(init, m, before, to);
      SplitLast(msgs);
    }
  }

  // ---------------------------------------------------------------------------------------------
  // Repair
  // ---------------------------------------------------------------------------------------------

  function AssistantIds(msgs: seq<Message>): set<string> {
    if msgs == [] then {}
    else
      var m := msgs[|msgs| - 1];
      AssistantIds(msgs[..|msgs| - 1]) + if m.header.role == ASSISTANT then CallIds(m.content) else {}
  }

  lemma SettledAppend(msgs: seq<Message>, m: Message, to: Target)
    requires IsSettled(msgs, to) && m.content != [] && !IsIncomplete(m.header)
    requires AreSettledParts(m.header, m.content, AllCallIds(msgs), to)
    ensures IsSettled(msgs + [m], to)
    ensures AllCallIds(msgs + [m]) == AllCallIds(msgs) + CallIds(m.content)
    ensures Answered(msgs + [m]) == Answered(msgs) + ResultIds(m.content)
    ensures AssistantIds(msgs + [m]) ==
            AssistantIds(msgs) + if m.header.role == ASSISTANT then CallIds(m.content) else {}
  {
    DropAppended(msgs, m);
  }

  lemma NoResultFacts(id: string)
    ensures CallIds(NoResult(id).content) == {}
    ensures id != "" ==> ResultIds(NoResult(id).content) == {id}
  {
    var p := NoResult(id).content[0];
    assert p in NoResult(id).content;
  }

  /** A repaired prefix: still settled, same calls, and what it counts as answered really is. */
  ghost predicate IsRepaired(r: Repairs, calls: set<string>, assistant: set<string>, initial: set<string>, to: Target) {
    && IsSettled(r.out, to)
    && AllCallIds(r.out) == calls
    && AssistantIds(r.out) == assistant
    && r.answered <= initial + Answered(r.out)
    && Answered(r.out) <= r.answered + initial
    && initial <= r.answered
  }

  lemma AnswerOneRepairs(
    r: Repairs, id: string, calls: set<string>, assistant: set<string>, initial: set<string>, to: Target)
    requires IsRepaired(r, calls, assistant, initial, to)
    requires id in calls && id != ""
    ensures IsRepaired(Repairs(r.out + [NoResult(id)], r.answered + {id}), calls, assistant, initial, to)
  {
    NoResultFacts(id);
    SettledAppend(r.out, NoResult(id), to);
  }

  lemma {:induction false} AnswerPartsRepairs(
    parts: seq<Part>, before: Repairs, calls: set<string>, assistant: set<string>, initial: set<string>, to: Target)
    requires IsRepaired(before, calls, assistant, initial, to)
    requires CallIds(parts) <= calls
    ensures var r := AnswerParts(parts, before);
            IsRepaired(r, calls, assistant, initial, to) && r.answered == before.answered + CallIds(parts)
  {
    if parts != [] {
      var init, p := parts[..|parts| - 1], parts[|parts| - 1];
      SplitLast(parts);
      CallIdsAppend(init, p);
      AnswerPartsRepairs(init, before, calls, assistant, initial, to);
      var r := AnswerParts(init, before);
      if IsCall(p) && p.toolUseId !in r.answered {
        AnswerOneRepairs(r, p.toolUseId, calls, assistant, initial, to);
      }
    }
  }

  lemma {:induction false} RepairRepairs(msgs: seq<Message>, initial: set<string>, to: Target)
    requires IsSettled(msgs, to) && Answered(msgs) <= initial
    ensures var r := Repair(msgs, initial);
            && IsRepaired(r, AllCallIds(msgs), AssistantIds(msgs), initial, to)
            && AssistantIds(msgs) <= r.answered
            && Answered(msgs) <= Answered(r.out)
  {
    if msgs != [] {
      var init, m := msgs[..|msgs| - 1], msgs[|msgs| - 1];
      RepairRepairs(init, initial, to);
      var before := Repair(init, initial);
      var r := before.(out := before.out + [m]);
      SettledAppend(before.out, m, to);
      if m.header.role == ASSISTANT {
        AnswerPartsRepairs(m.content, r, AllCallIds(msgs), AssistantIds(msgs), initial, to);
        AnswerPartsKeeps(m.content, r);
      }
    }
  }

  lemma {:induction false} AnswerPartsKeeps(parts: seq<Part>, before: Repairs)
    ensures Answered(before.out) <= Answered(AnswerParts(parts, before).out)
  {
    if parts != [] {
      AnswerPartsKeeps(parts[..|parts| - 1], before);
      var r := AnswerParts(parts[..|parts| - 1], before);
      var m := NoResult(parts[|parts| - 1].toolUseId);
      DropAppended(r.out, m);
    }
  }

  lemma {:induction false} AnswerPartsIdle(parts: seq<Part>, before: Repairs)
    requires CallIds(parts) <= before.answered
    ensures AnswerParts(parts, before) == before
  {
    if parts != [] {
      var init, p := parts[..|parts| - 1], parts[|parts| - 1];
      SplitLast(parts);
      CallIdsAppend(init, p);
      AnswerPartsIdle(init, before);
    }
  }

  lemma {:induction false} RepairIdle(msgs: seq<Message>, answered: set<string>)
    requires AssistantIds(msgs) <= answered
    ensures Repair(msgs, answered) == Repairs(msgs, answered)
  {
    if msgs != [] {
      var init, m := msgs[..|msgs| - 1], msgs[|msgs| - 1];
      RepairIdle(init, answered);
      SplitLast(msgs);
      if m.header.role == ASSISTANT {
        AnswerPartsIdle(m.content, Repairs(msgs, answered));
      }
    }
  }

  lemma NormalizedIsSettled(msgs: seq<Message>, to: Target)
    ensures var out := Normalized(msgs, to);
            IsSettled(out, to) && AssistantIds(out) <= Answered(out)
  {
    ForwardSettles(msgs, to);
    var out := Forward(msgs, to).out;
    RepairRepairs(out, Answered(out), to);
  }

  /** Normalizing a normalized transcript for the same target changes nothing. */
  lemma NormalizeIdempotent(msgs: seq<Message>, to: Target)
    ensures Normalized(Normalized(msgs, to), to) == Normalized(msgs, to)
  {
    var out := Normalized(msgs, to);
    NormalizedIsSettled(msgs, to);
    SettledIsFixed(out, to);
    RepairIdle(out, Answered(out));
  }

  // ---------------------------------------------------------------------------------------------
  // Well-formedness, by position
  // ---------------------------------------------------------------------------------------------

  function FlatCallIds(flat: seq<(Header, Part)>): set<string> {
    set s | s in flat && IsCall(s.1) :: s.1.toolUseId
  }

  lemma FlatCallIdsConcat(a: seq<(Header, Part)>, b: seq<(Header, Part)>)
    ensures FlatCallIds(a + b) == FlatCallIds(a) + FlatCallIds(b)
  {
  }

  lemma FlatOne(h: Header, parts: seq<Part>)
    ensures FlatCallIds(Slots(h, parts)) == CallIds(parts)
  {
    var flat := Slots(h, parts);
    forall id | id in CallIds(parts) ensures id in FlatCallIds(flat) {
      var k :| 0 <= k < |parts| && IsCall(parts[k]) && parts[k].toolUseId == id;
      assert flat[k] in flat;
    }
  }

  lemma {:induction false} FlatIds(msgs: seq<Message>)
    ensures FlatCallIds(Flat(msgs)) == AllCallIds(msgs)
  {
    if msgs != [] {
      var init, m := msgs[..|msgs| - 1], msgs[|msgs| - 1];
      FlatIds(init);
      FlatOne(m.header, m.content);
      FlatCallIdsConcat(Flat(init), Slots(m.header, m.content));
    }
  }

  lemma {:induction false} SettledByPosition(msgs: seq<Message>, to: Target)
    requires IsSettled(msgs, to)
    ensures var flat := Flat(msgs);
            forall k | 0 <= k < |flat| :: IsSettledPart(flat[k].0, flat[k].1, FlatCallIds(flat[..k]), to)
  {
    if msgs != [] {
      var init, m := msgs[..|msgs| - 1], msgs[|msgs| - 1];
      SettledByPosition(init, to);
      FlatIds(init);
      var flat, before := Flat(msgs), Flat(init);
      forall k | 0 <= k < |flat| ensures IsSettledPart(flat[k].0, flat[k].1, FlatCallIds(flat[..k]), to) {
        if k < |before| {
          assert flat[..k] == before[..k] && flat[k] == before[k];
        } else {
          var i := k - |before|;
          var mine := m.content[..i];
          assert flat[..k] == before + Slots(m.header, mine);
          FlatCallIdsConcat(before, Slots(m.header, mine));
          FlatOne(m.header, mine);
        }
      }
    }
  }

  lemma {:induction false} AnsweredByPosition(msgs: seq<Message>, id: string)
    requires id in Answered(msgs)
    ensures exists k :: 0 <= k < |Flat(msgs)| && Flat(msgs)[k].1.kind == ToolResult && Flat(msgs)[k].1.toolResultId == id
  {
    var init, m := msgs[..|msgs| - 1], msgs[|msgs| - 1];
    if id in Answered(init) {
      AnsweredByPosition(init, id);
      var k :| 0 <= k < |Flat(init)| && Flat(init)[k].1.kind == ToolResult && Flat(init)[k].1.toolResultId == id;
      assert Flat(msgs)[k] == Flat(init)[k];
    } else {
      var i :| 0 <= i < |m.content| && m.content[i].kind == ToolResult && m.content[i].toolResultId == id;
      assert Flat(msgs)[|Flat(init)| + i] == (m.header, m.content[i]);
    }
  }

  lemma {:induction false} AssistantIdsByPosition(msgs: seq<Message>, k: nat)
    requires k < |Flat(msgs)| && Flat(msgs)[k].0.role == ASSISTANT && IsCall(Flat(msgs)[k].1)
    ensures Flat(msgs)[k].1.toolUseId in AssistantIds(msgs)
  {
    var init, m := msgs[..|msgs| - 1], msgs[|msgs| - 1];
    if k < |Flat(init)| {
      AssistantIdsByPosition(init, k);
    } else {
      assert Flat(msgs)[k] == (m.header, m.content[k - |Flat(init)|]);
    }
  }

  /** The four promises a provider relies on, by position in the flattened transcript. */
  ghost predicate IsWellFormed(flat: seq<(Header, Part)>) {
    // Non-empty call IDs are pairwise distinct.
    && (forall i, j | 0 <= i < j < |flat| && IsCall(flat[i].1) && IsCall(flat[j].1) ::
          flat[i].1.toolUseId != flat[j].1.toolUseId)
    // A result comes after the call it answers.
    && (forall j | 0 <= j < |flat| && flat[j].1.kind == ToolResult ::
          exists i :: 0 <= i < j && IsCall(flat[i].1) && flat[i].1.toolUseId == flat[j].1.toolResultId)
    // An assistant's call is answered later.
    && (forall i | 0 <= i < |flat| && flat[i].0.role == ASSISTANT && IsCall(flat[i].1) ::
          exists j :: i < j < |flat| && flat[j].1.kind == ToolResult && flat[j].1.toolResultId == flat[i].1.toolUseId)
  }

  /** Nothing bound to another provider or model is left. */
  ghost predicate IsPortable(flat: seq<(Header, Part)>, to: Target) {
    forall k | 0 <= k < |flat| ::
      var h, p := flat[k].0, flat[k].1;
      && !IsIncomplete(h)
      && (p.kind == Thinking ==>
            && h.provider == to.provider && (p.redacted || p.signature != "")
            && (to.model == "" || h.model == "" || SameModel(h.model, to.model, to.aliases)))
      && (p.kind in {ServerToolUse, ServerToolResult, ProviderBlock} ==> !IsForeign(h.provider, to.provider))
      && (p.kind == Text && IsForeign(h.provider, to.provider) ==> p.citations == [])
      && (IsCall(p) && h.provider != to.provider ==> p.thoughtSignature == "")
  }

  lemma {:induction false} SettledHeaders(msgs: seq<Message>, to: Target)
    requires IsSettled(msgs, to)
    ensures forall k | 0 <= k < |Flat(msgs)| :: !IsIncomplete(Flat(msgs)[k].0)
    ensures forall k | 0 <= k < |msgs| :: msgs[k].content != []
  {
    if msgs != [] {
      SettledHeaders(msgs[..|msgs| - 1], to);
    }
  }

  lemma SettledPositionsWellFormed(flat: seq<(Header, Part)>, to: Target)
    requires forall k | 0 <= k < |flat| :: IsSettledPart(flat[k].0, flat[k].1, FlatCallIds(flat[..k]), to)
    requires "" !in FlatCallIds(flat)
    requires forall i | 0 <= i < |flat| && flat[i].0.role == ASSISTANT && IsCall(flat[i].1) ::
               exists j :: 0 <= j < |flat| && flat[j].1.kind == ToolResult && flat[j].1.toolResultId == flat[i].1.toolUseId
    ensures IsWellFormed(flat)
  {
    forall i, j | 0 <= i < j < |flat| && IsCall(flat[i].1) && IsCall(flat[j].1)
      ensures flat[i].1.toolUseId != flat[j].1.toolUseId
    {
      assert flat[..j][i] in flat[..j];
    }
    forall j | 0 <= j < |flat| && flat[j].1.kind == ToolResult
      ensures exists i :: 0 <= i < j && IsCall(flat[i].1) && flat[i].1.toolUseId == flat[j].1.toolResultId
    {
      var s :| s in flat[..j] && IsCall(s.1) && s.1.toolUseId == flat[j].1.toolResultId;
      var i :| 0 <= i < j && flat[..j][i] == s;
      assert flat[i] == s;
    }
    forall i | 0 <= i < |flat| && flat[i].0.role == ASSISTANT && IsCall(flat[i].1)
      ensures exists j :: i < j < |flat| && flat[j].1.kind == ToolResult && flat[j].1.toolResultId == flat[i].1.toolUseId
    {
      var j :| 0 <= j < |flat| && flat[j].1.kind == ToolResult && flat[j].1.toolResultId == flat[i].1.toolUseId;
      var i' :| 0 <= i' < j && IsCall(flat[i'].1) && flat[i'].1.toolUseId == flat[j].1.toolResultId;
      assert i' == i;
    }
  }

  lemma SettledPositionsPortable(flat: seq<(Header, Part)>, to: Target)
    requires forall k | 0 <= k < |flat| :: IsSettledPart(flat[k].0, flat[k].1, FlatCallIds(flat[..k]), to)
    requires forall k | 0 <= k < |flat| :: !IsIncomplete(flat[k].0)
    ensures IsPortable(flat, to)
  {
    forall k | 0 <= k < |flat| && flat[k].1.kind == Thinking
      ensures KeptThinking(flat[k].0, flat[k].1, to) == Some(flat[k].1)
    {
      assert IsSettledPart(flat[k].0, flat[k].1, FlatCallIds(flat[..k]), to);
    }
  }

  /** Every normalized transcript is well formed and portable, and has no empty message. */
  lemma NormalizedWellFormed(msgs: seq<Message>, to: Target)
    ensures var out := Normalized(msgs, to);
            && IsWellFormed(Flat(out))
            && IsPortable(Flat(out), to)
            && forall k | 0 <= k < |out| :: out[k].content != []
  {
    var out := Normalized(msgs, to);
    NormalizedIsSettled(msgs, to);
    SettledByPosition(out, to);
    SettledHeaders(out, to);
    forall i | 0 <= i < |Flat(out)| && Flat(out)[i].0.role == ASSISTANT && IsCall(Flat(out)[i].1)
      ensures exists j :: 0 <= j < |Flat(out)| && Flat(out)[j].1.kind == ToolResult &&
                          Flat(out)[j].1.toolResultId == Flat(out)[i].1.toolUseId
    {
      AssistantIdsByPosition(out, i);
      AnsweredByPosition(out, Flat(out)[i].1.toolUseId);
    }
    SettledPositionsWellFormed(Flat(out), to);
    SettledPositionsPortable(Flat(out), to);
  }

  // ---------------------------------------------------------------------------------------------
  // What repair adds
  // ---------------------------------------------------------------------------------------------

  /** How many results answer `id`. */
  function AnswerCount(msgs: seq<Message>, id: string): nat {
    if msgs == [] then 0
    else AnswerCount(msgs[..|msgs| - 1], id) + PartAnswers(msgs[|msgs| - 1].content, id)
  }

  function PartAnswers(parts: seq<Part>, id: string): nat {
    if parts == [] then 0
    else
      var p := parts[|parts| - 1];
      PartAnswers(parts[..|parts| - 1], id) + if p.kind == ToolResult && p.toolResultId == id then 1 else 0
  }

  lemma AnswerCountAppend(msgs: seq<Message>, m: Message, id: string)
    ensures AnswerCount(msgs + [m], id) == AnswerCount(msgs, id) + PartAnswers(m.content, id)
  {
    DropAppended(msgs, m);
  }

  lemma NoResultCount(a: string, id: string)
    ensures PartAnswers(NoResult(a).content, id) == if a == id then 1 else 0
  {
    assert NoResult(a).content[..0] == [];
  }

  lemma {:induction false} AnswerPartsCount(parts: seq<Part>, before: Repairs, id: string)
    ensures var r := AnswerParts(parts, before);
            && (id in r.answered <==> id in before.answered || id in CallIds(parts))
            && AnswerCount(r.out, id) ==
               AnswerCount(before.out, id) + if id in CallIds(parts) && id !in before.answered then 1 else 0
  {
    if parts != [] {
      var init, p := parts[..|parts| - 1], parts[|parts| - 1];
      SplitLast(parts);
      CallIdsAppend(init, p);
      AnswerPartsCount(init, before, id);
      var r := AnswerParts(init, before);
      AnswerCountAppend(r.out, NoResult(p.toolUseId), id);
      NoResultCount(p.toolUseId, id);
    }
  }

  lemma {:induction false} RepairCount(msgs: seq<Message>, initial: set<string>, id: string)
    ensures var r := Repair(msgs, initial);
            && (id in r.answered <==> id in initial || id in AssistantIds(msgs))
            && AnswerCount(r.out, id) ==
               AnswerCount(msgs, id) + if id in AssistantIds(msgs) && id !in initial then 1 else 0
  {
    if msgs != [] {
      var init, m := msgs[..|msgs| - 1], msgs[|msgs| - 1];
      RepairCount(init, initial, id);
      var before := Repair(init, initial);
      AnswerCountAppend(before.out, m, id);
      if m.header.role == ASSISTANT {
        AnswerPartsCount(m.content, before.(out := before.out + [m]), id);
      }
    }
  }

  /** Repair adds one result for each unanswered assistant call and none for any other ID. */
  lemma RepairAddsExactlyTheMissing(msgs: seq<Message>, to: Target, id: string)
    ensures var out := Forward(msgs, to).out;
            AnswerCount(Normalized(msgs, to), id) ==
            AnswerCount(out, id) + if id in AssistantIds(out) && id !in Answered(out) then 1 else 0
  {
    var out := Forward(msgs, to).out;
    RepairCount(out, Answered(out), id);
  }
}
