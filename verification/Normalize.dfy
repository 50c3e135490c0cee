/**
 Replaying a transcript to a provider (normalize.go).

 The forward pass renames colliding tool call IDs, re-targets the results, degrades thinking, strips
 citations and drops what cannot be replayed; the repair pass answers the calls nobody answered.
 `Forward` and `Repair` say what the loops compute; the theorems at the end are about `Normalized`.
 */
module Normalize {
  import opened Decimals
  import opened Sequences
  import opened Wrappers

  // ---------------------------------------------------------------------------------------------
  // Transcript
  // ---------------------------------------------------------------------------------------------

  const ASSISTANT := "assistant"
  const USER := "user"
  const STOP_ERROR := "error"
  const STOP_ABORTED := "aborted"

  datatype PartKind =
    | Text | Image | Document | Thinking | ToolUse | ToolResult
    | ServerToolUse | ServerToolResult | ProviderBlock
    | Unknown(name: string)

  /** One content part. `rest` stands for every field the pass copies without looking at it. */
  datatype Part = Part(
    kind: PartKind,
    text: string, citations: seq<string>,
    thinking: string, signature: string, redacted: bool,
    toolUseId: string, thoughtSignature: string,
    toolResultId: string, toolResultContent: string, isError: bool,
    rest: string)

  const EMPTY_PART := Part(Text, "", [], "", "", false, "", "", "", "", false, "")

  /** Everything about a message except its content. */
  datatype Header = Header(role: string, provider: string, model: string, stopReason: string, container: string)

  datatype Message = Message(header: Header, content: seq<Part>)

  /** Where the transcript goes: provider, model ("" for NormalizeForProvider) and the alias table. */
  datatype Target = Target(provider: string, model: string, aliases: map<string, string>)

  predicate IsCall(p: Part) {
    p.kind == ToolUse && p.toolUseId != ""
  }

  predicate IsIncomplete(h: Header) {
    h.role == ASSISTANT && (h.stopReason == STOP_ERROR || h.stopReason == STOP_ABORTED)
  }

  predicate IsForeign(from: string, to: string) {
    from != "" && from != to
  }

  // ---------------------------------------------------------------------------------------------
  // Model identity
  // ---------------------------------------------------------------------------------------------

  function Resolve(aliases: map<string, string>, model: string): string {
    if model in aliases then aliases[model] else model
  }

  predicate IsDigit(c: char) {
    '0' <= c <= '9'
  }

  predicate AllDigits(s: string) {
    forall c | c in s :: IsDigit(c)
  }

  /** `(-[0-9]+)*`, anchored at both ends. */
  predicate IsNumberedTail(s: string)
    decreases |s|
  {
    s == "" ||
    (s[0] == '-' && exists n | 2 <= n <= |s| :: AllDigits(s[1..n]) && IsNumberedTail(s[n..]))
  }

  /** `-[0-9]{3,}(-[0-9]+)*`, anchored at both ends. */
  predicate IsVersionSuffix(s: string) {
    |s| > 0 && s[0] == '-' && exists n | 4 <= n <= |s| :: AllDigits(s[1..n]) && IsNumberedTail(s[n..])
  }

  predicate IsVersionSuffixOf(long: string, short: string) {
    short <= long && IsVersionSuffix(long[|short|..])
  }

  predicate SameModel(a: string, b: string, aliases: map<string, string>) {
    var x, y := Resolve(aliases, a), Resolve(aliases, b);
    x == y || IsVersionSuffixOf(x, y) || IsVersionSuffixOf(y, x)
  }

  // ---------------------------------------------------------------------------------------------
  // Fresh tool call IDs
  // ---------------------------------------------------------------------------------------------

  function Candidate(base: string, n: nat): string {
    base + "#" + Decimal(n)
  }

  lemma CandidateInjective(base: string, m: nat, n: nat)
    requires Candidate(base, m) == Candidate(base, n)
    ensures m == n
  {
    assert Candidate(base, m)[|base| + 1..] == Decimal(m);
    assert Candidate(base, n)[|base| + 1..] == Decimal(n);
    DecimalRoundTrip(m);
    DecimalRoundTrip(n);
  }

  /** The search from number `i` on; a candidate already seen cannot come up again. */
  function FirstFree(base: string, used: set<string>, i: nat): nat
    decreases |used|
  {
    if Candidate(base, i) !in used then i else FirstFree(base, used - {Candidate(base, i)}, i + 1)
  }

  /** What the search finds: the least number whose candidate is unused. */
  lemma {:induction false} FirstFreeIsLeast(base: string, used: set<string>, i: nat)
    ensures var n := FirstFree(base, used, i);
            && i <= n
            && Candidate(base, n) !in used
            && forall j | i <= j < n :: Candidate(base, j) in used
    decreases |used|
  {
    if Candidate(base, i) in used {
      FirstFreeIsLeast(base, used - {Candidate(base, i)}, i + 1);
      var n := FirstFree(base, used - {Candidate(base, i)}, i + 1);
      if Candidate(base, n) == Candidate(base, i) {
        CandidateInjective(base, n, i);
      }
    }
  }

  lemma LeastFreeIsFirstFree(base: string, used: set<string>, n: nat)
    requires 1 <= n && Candidate(base, n) !in used
    requires forall j | 1 <= j < n :: Candidate(base, j) in used
    ensures n == FirstFree(base, used, 1)
  {
    FirstFreeIsLeast(base, used, 1);
  }

  function UniqueId(base: string, used: set<string>): (id: string)
    ensures id !in used && id != ""
  {
    FirstFreeIsLeast(base, used, 1);
    Candidate(base, FirstFree(base, used, 1))
  }

  /** The Go search counts up without a bound; it ends because only finitely many IDs are taken. */
  method UniqueToolId(base: string, used: set<string>) returns (id: string)
    ensures id == UniqueId(base, used)
  {
    var i := 1;
    ghost var left := used;
    while Candidate(base, i) in used
      invariant 1 <= i
      invariant forall j | 1 <= j < i :: Candidate(base, j) in used
      invariant left == used - set j | 1 <= j < i :: Candidate(base, j)
      decreases left
    {
      assert Candidate(base, i) in left by {
        forall j | 1 <= j < i ensures Candidate(base, j) != Candidate(base, i) {
          if Candidate(base, j) == Candidate(base, i) { CandidateInjective(base, j, i); }
        }
      }
      left := left - {Candidate(base, i)};
      i := i + 1;
    }
    LeastFreeIsFirstFree(base, used, i);
    id := Candidate(base, i);
  }

  // ---------------------------------------------------------------------------------------------
  // Forward pass
  // ---------------------------------------------------------------------------------------------

  /** What became of one original part: rewritten and kept, or dropped. */
  datatype Entry = Entry(header: Header, original: Part, kept: Option<Part>)

  /** The pass so far: IDs emitted, current emitted ID per original ID, and the fate of each part. */
  datatype Progress = Progress(used: set<string>, remap: map<string, string>, trace: seq<Entry>)

  const START := Progress({}, map[], [])

  function EmittedId(p: Part, used: set<string>): string {
    if p.toolUseId in used then UniqueId(p.toolUseId, used) else p.toolUseId
  }

  /** Thinking is replayed only where its signature holds, becomes text elsewhere, or goes. */
  function KeptThinking(h: Header, p: Part, to: Target): Option<Part> {
    if to.model != "" && h.model != "" && !SameModel(h.model, to.model, to.aliases) then None
    else if h.provider != "" && h.provider == to.provider && (p.redacted || p.signature != "") then Some(p)
    else if p.thinking != "" && !p.redacted then Some(EMPTY_PART.(text := p.thinking))
    else None
  }

  function Kept(h: Header, p: Part, s: Progress, to: Target): Option<Part> {
    match p.kind
    case ToolUse =>
      if p.toolUseId == "" then Some(p)
      else
        var renamed := p.(toolUseId := EmittedId(p, s.used));
        Some(if h.provider != to.provider then renamed.(thoughtSignature := "") else renamed)
    case ToolResult =>
      if p.toolResultId in s.remap then Some(p.(toolResultId := s.remap[p.toolResultId])) else None
    case Thinking => KeptThinking(h, p, to)
    case ServerToolUse => if IsForeign(h.provider, to.provider) then None else Some(p)
    case ServerToolResult => if IsForeign(h.provider, to.provider) then None else Some(p)
    case ProviderBlock => if IsForeign(h.provider, to.provider) then None else Some(p)
    case Text => Some(if p.citations != [] && IsForeign(h.provider, to.provider) then p.(citations := []) else p)
    case _ => Some(p)
  }

  function Feed(h: Header, p: Part, s: Progress, to: Target): Progress {
    var trace := s.trace + [Entry(h, p, Kept(h, p, s, to))];
    if IsCall(p) then
      var id := EmittedId(p, s.used);
      Progress(s.used + {id}, s.remap[p.toolUseId := id], trace)
    else
      s.(trace := trace)
  }

  /** A message so far: the content it keeps, and the progress after it. */
  datatype Fed = Fed(content: seq<Part>, state: Progress)

  function FeedAll(h: Header, parts: seq<Part>, s: Progress, to: Target): Fed {
    if parts == [] then Fed([], s)
    else
      var before := FeedAll(h, parts[..|parts| - 1], s, to);
      var p := parts[|parts| - 1];
      var kept := Kept(h, p, before.state, to);
      Fed(if kept.Some? then before.content + [kept.value] else before.content, Feed(h, p, before.state, to))
  }

  datatype Passed = Passed(out: seq<Message>, state: Progress)

  function PassMessage(m: Message, before: Passed, to: Target): Passed {
    if IsIncomplete(m.header) then before
    else
      var fed := FeedAll(m.header, m.content, before.state, to);
      Passed(if fed.content == [] then before.out else before.out + [Message(m.header, fed.content)], fed.state)
  }

  function Forward(msgs: seq<Message>, to: Target): Passed {
    if msgs == [] then Passed([], START)
    else PassMessage(msgs[|msgs| - 1], Forward(msgs[..|msgs| - 1], to), to)
  }

  // ---------------------------------------------------------------------------------------------
  // Repair pass
  // ---------------------------------------------------------------------------------------------

  function ResultIds(parts: seq<Part>): set<string> {
    set p | p in parts && p.kind == ToolResult && p.toolResultId != "" :: p.toolResultId
  }

  function Answered(msgs: seq<Message>): set<string> {
    if msgs == [] then {} else Answered(msgs[..|msgs| - 1]) + ResultIds(msgs[|msgs| - 1].content)
  }

  function NoResult(id: string): Message {
    Message(Header(USER, "", "", "", ""),
            [EMPTY_PART.(kind := ToolResult, toolResultId := id,
                         toolResultContent := "No result provided.", isError := true)])
  }

  datatype Repairs = Repairs(out: seq<Message>, answered: set<string>)

  function AnswerParts(parts: seq<Part>, before: Repairs): Repairs {
    if parts == [] then before
    else
      var r := AnswerParts(parts[..|parts| - 1], before);
      var p := parts[|parts| - 1];
      if IsCall(p) && p.toolUseId !in r.answered
      then Repairs(r.out + [NoResult(p.toolUseId)], r.answered + {p.toolUseId})
      else r
  }

  function RepairMessage(m: Message, before: Repairs): Repairs {
    var r := before.(out := before.out + [m]);
    if m.header.role == ASSISTANT then AnswerParts(m.content, r) else r
  }

  function Repair(msgs: seq<Message>, answered: set<string>): Repairs {
    if msgs == [] then Repairs([], answered)
    else RepairMessage(msgs[|msgs| - 1], Repair(msgs[..|msgs| - 1], answered))
  }

  function Normalized(msgs: seq<Message>, to: Target): seq<Message> {
    var out := Forward(msgs, to).out;
    Repair(out, Answered(out)).out
  }

  // ---------------------------------------------------------------------------------------------
  // The loops
  // ---------------------------------------------------------------------------------------------

  method NormalizePart(h: Header, p: Part, to: Target, usedIds: set<string>, remap: map<string, string>)
    returns (kept: Option<Part>, usedIds': set<string>, remap': map<string, string>)
    ensures forall trace: seq<Entry> ::
              var s := Progress(usedIds, remap, trace);
              kept == Kept(h, p, s, to) &&
              Feed(h, p, s, to) == Progress(usedIds', remap', trace + [Entry(h, p, kept)])
  {
    usedIds', remap' := usedIds, remap;
    match p.kind {
      case ToolUse =>
        if p.toolUseId == "" {
          kept := Some(p);
        } else {
          var newId := p.toolUseId;
          if newId in usedIds {
            newId := UniqueToolId(p.toolUseId, usedIds);
          }
          usedIds' := usedIds + {newId};
          remap' := remap[p.toolUseId := newId];
          var np := p.(toolUseId := newId);
          if h.provider != to.provider {
            np := np.(thoughtSignature := "");
          }
          kept := Some(np);
        }
      case ToolResult =>
        if p.toolResultId in remap {
          kept := Some(p.(toolResultId := remap[p.toolResultId]));
        } else {
          kept := None;
        }
      case Thinking =>
        kept := KeptThinking(h, p, to);
      case ServerToolUse | ServerToolResult | ProviderBlock =>
        kept := if IsForeign(h.provider, to.provider) then None else Some(p);
      case Text =>
        kept := Some(p);
        if p.citations != [] && IsForeign(h.provider, to.provider) {
          kept := Some(p.(citations := []));
        }
      case _ =>
        kept := Some(p);
    }
  }

  method NormalizeContent(m: Message, to: Target, usedIds: set<string>, remap: map<string, string>, ghost trace: seq<Entry>)
    returns (content: seq<Part>, usedIds': set<string>, remap': map<string, string>, ghost trace': seq<Entry>)
    ensures FeedAll(m.header, m.content, Progress(usedIds, remap, trace), to) ==
            Fed(content, Progress(usedIds', remap', trace'))
  {
    content, usedIds', remap', trace' := [], usedIds, remap, trace;
    for k := 0 to |m.content|
      invariant FeedAll(m.header, m.content[..k], Progress(usedIds, remap, trace), to) ==
                Fed(content, Progress(usedIds', remap', trace'))
    {
      TakeNext(m.content, k);
      var kept;
      kept, usedIds', remap' := NormalizePart(m.header, m.content[k], to, usedIds', remap');
      trace' := trace' + [Entry(m.header, m.content[k], kept)];
      if kept.Some? {
        content := content + [kept.value];
      }
    }
    assert m.content[..|m.content|] == m.content;
  }

  method NormalizeTranscript(msgs: seq<Message>, to: Target) returns (repaired: seq<Message>)
    ensures repaired == Normalized(msgs, to)
  {
    if msgs == [] {
      return msgs;
    }
    var usedIds, remap, out := {}, map[], [];
    ghost var trace := [];
    for i := 0 to |msgs|
      invariant Forward(msgs[..i], to) == Passed(out, Progress(usedIds, remap, trace))
    {
      TakeNext(msgs, i);
      var m := msgs[i];
      if IsIncomplete(m.header) {
        continue;
      }
      var content;
      content, usedIds, remap, trace := NormalizeContent(m, to, usedIds, remap, trace);
      if content == [] {
        continue;
      }
      out := out + [Message(m.header, content)];
    }
    assert msgs[..|msgs|] == msgs;
    repaired := RepairOrphans(out);
  }

  method CollectAnswered(out: seq<Message>) returns (answered: set<string>)
    ensures answered == Answered(out)
  {
    answered := {};
    for i := 0 to |out|
      invariant answered == Answered(out[..i])
    {
      TakeNext(out, i);
      ghost var before := answered;
      for k := 0 to |out[i].content|
        invariant answered == before + ResultIds(out[i].content[..k])
      {
        var p := out[i].content[k];
        TakeNext(out[i].content, k);
        if p.kind == ToolResult && p.toolResultId != "" {
          answered := answered + {p.toolResultId};
        }
      }
      assert out[i].content[..|out[i].content|] == out[i].content;
    }
    assert out[..|out|] == out;
  }

  method RepairOrphans(out: seq<Message>) returns (repaired: seq<Message>)
    ensures repaired == Repair(out, Answered(out)).out
  {
    var answered := CollectAnswered(out);
    repaired := [];
    for i := 0 to |out|
      invariant Repair(out[..i], Answered(out)) == Repairs(repaired, answered)
    {
      TakeNext(out, i);
      var m := out[i];
      repaired := repaired + [m];
      if m.header.role == ASSISTANT {
        repaired, answered := AnswerCalls(m.content, repaired, answered);
      }
    }
    assert out[..|out|] == out;
  }

  method AnswerCalls(parts: seq<Part>, out: seq<Message>, answered: set<string>)
    returns (out': seq<Message>, answered': set<string>)
    ensures AnswerParts(parts, Repairs(out, answered)) == Repairs(out', answered')
  {
    out', answered' := out, answered;
    for k := 0 to |parts|
      invariant AnswerParts(parts[..k], Repairs(out, answered)) == Repairs(out', answered')
    {
      TakeNext(parts, k);
      var p := parts[k];
      if p.kind == ToolUse && p.toolUseId != "" && p.toolUseId !in answered' {
        out' := out' + [NoResult(p.toolUseId)];
        answered' := answered' + {p.toolUseId};
      }
    }
    assert parts[..|parts|] == parts;
  }
}
