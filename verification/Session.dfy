/**
 Session turns (session.go).

 Turns and appends hold turnMu from start to end; the transcript, the client and the usage are
 touched only under stateMu, and each such section is one step. Any number of goroutines move, and
 between two steps of one any other may move. A snapshot (Conversation, Usage, Provider) is the
 state between two steps, and needs no lock that a turn holds.
 */
module Session {
  import Cost
  import opened Normalize
  import NormalizeLaws
  import opened Sequences
  import opened StreamFold
  import opened Wrappers

  const MAX_INT := 0x7FFF_FFFF_FFFF_FFFF
  const STOP_PAUSE_TURN := "pause_turn"

  datatype Client = Client(provider: string, model: string)

  /** The running totals: tokens, billed server tool calls, and the estimated cost. */
  datatype Usage = Usage(
    input: int, output: int, thinking: int, cacheWrite: int, cacheRead: int, cacheWrite1h: int,
    serverTools: ServerTools, cost: real)

  /**
   What NewSession fixes: the base request's model and container, resumed state; and what the process
   does: alias table, registered prices, the largest float.
   */
  datatype Config = Config(
    model: string, container: string, aliases: map<string, string>, client: Client, messages: seq<Message>, usage: Usage,
    prices: Cost.Registry, largest: real)

  /**
   A prepared turn: its input, the client it runs against, the request built, and the stored
   transcript the request was built from.
   */
  datatype Turn = Turn(
    input: seq<Message>, continuation: bool, client: Client, model: string, container: string,
    request: seq<Message>, prior: seq<Message>)

  datatype Call = Call(input: seq<Message>, continuation: bool, streams: bool)

  datatype Pc =
    | Idle
    | WantsTurn(call: Call)
    | WantsAppend(msgs: seq<Message>)
    | Preparing(call: Call)
    | Appending(msgs: seq<Message>)
    | Completing(turn: Turn)
    | Streaming(turn: Turn, events: seq<StreamEvent>)
    | Committing(turn: Turn, response: Response, streamed: Option<seq<StreamEvent>>)
    | Unlocking
    | Blocked

  // A thread is Blocked once code its turn runs, the client or the consumer of its stream, starts a
  // turn or an append of the same session: that waits for the turnMu this thread holds.

  /** One committed turn or append; `tenure` numbers the turnMu holding it happened in. */
  datatype Entry =
    | Reply(tenure: nat, turn: Turn, response: Response, streamed: Option<seq<StreamEvent>>)
    | Appended(tenure: nat, msgs: seq<Message>)

  datatype State = State(
    messages: seq<Message>, usage: Usage, client: Client,
    turnMu: Option<nat>, threads: map<nat, Pc>, tenure: nat, log: seq<Entry>)

  datatype Action =
    | Spawn(t: nat)
    | StartTurn(t: nat, call: Call)
    | StartAppend(t: nat, msgs: seq<Message>)
    | Lock(t: nat)
    | Prepare(t: nat)
    | Complete(t: nat, result: Option<Response>)
    | Receive(t: nat, event: StreamEvent, more: bool)
    | Break(t: nat)
    | EndStream(t: nat)
    | Reenter(t: nat)
    | Commit(t: nat)
    | Append(t: nat)
    | Unlock(t: nat)
    | SwitchProvider(client: Client)

  function Start(cfg: Config): State {
    State(cfg.messages, cfg.usage, cfg.client, None, map[], 0, [])
  }

  predicate IsEnabled(s: State, a: Action) {
    if a.SwitchProvider? then true
    else if a.Spawn? then a.t !in s.threads
    else
      a.t in s.threads &&
      var pc := s.threads[a.t];
      match a
      case StartTurn(_, _) => pc.Idle?
      case StartAppend(_, _) => pc.Idle?
      case Lock(_) => (pc.WantsTurn? || pc.WantsAppend?) && s.turnMu == None
      case Prepare(_) => pc.Preparing?
      case Complete(_, _) => pc.Completing?
      case Receive(_, _, _) => pc.Streaming?
      case Break(_) => pc.Streaming?
      case EndStream(_) => pc.Streaming?
      case Reenter(_) => pc.Completing? || pc.Streaming? || (pc.Preparing? && pc.call.streams && IsRefused(s, pc.call))
      case Commit(_) => pc.Committing?
      case Append(_) => pc.Appending?
      case Unlock(_) => pc.Unlocking?
      case _ => false
  }

  // ---------------------------------------------------------------------------------------------
  // What the steps do
  // ---------------------------------------------------------------------------------------------

  predicate IsPaused(msgs: seq<Message>) {
    msgs != [] && msgs[|msgs| - 1].header.role == ASSISTANT && msgs[|msgs| - 1].header.stopReason == STOP_PAUSE_TURN
  }

  /** ErrNotPaused ends the call before any request is sent; a stream hands it to its consumer first. */
  predicate IsRefused(s: State, call: Call) {
    call.continuation && !IsPaused(s.messages)
  }

  function ModelFor(cfg: Config, client: Client): string {
    if cfg.model == "" then client.model else cfg.model
  }

  /** A continuation reuses the paused turn's container unless the base request names one. */
  function ContainerFor(cfg: Config, prior: seq<Message>, continuation: bool): string {
    if continuation && cfg.container == "" && prior != [] then prior[|prior| - 1].header.container else cfg.container
  }

  function Prepared(cfg: Config, s: State, call: Call): Turn {
    var model := ModelFor(cfg, s.client);
    Turn(call.input, call.continuation, s.client, model, ContainerFor(cfg, s.messages, call.continuation),
         Normalized(s.messages + call.input, Target(s.client.provider, model, cfg.aliases)), s.messages)
  }

  function Folding(events: seq<StreamEvent>): Folded {
    if events == [] then NOTHING_FOLDED else Plus(Folding(events[..|events| - 1]), events[|events| - 1])
  }

  function Attributed(r: Response, model: string): Response {
    if r.report.model == "" then r.(report := r.report.(model := model)) else r
  }

  function NonNegative(n: int): int {
    if n < 0 then 0 else n
  }

  function SaturatingAdd(a: int, b: int): int {
    if b > 0 && a > MAX_INT - b then MAX_INT else a + b
  }

  /** Priced at the synchronous rate; a response tells nothing about audio. */
  function Priced(r: Report): Cost.CostInput {
    var counts := Cost.Counts(NonNegative(r.inputTokens), NonNegative(r.outputTokens), NonNegative(r.thinkingTokens),
                              NonNegative(r.cacheWriteTokens), NonNegative(r.cacheReadTokens), r.cacheWrite1hTokens,
                              0, Cost.Finite(0.0));
    Cost.CostInput(r.model, counts, false, r.serverTools.webSearches, r.iterations)
  }

  function CostOf(cfg: Config, r: Report): real {
    Cost.Estimate(cfg.prices, Priced(r), cfg.largest)
  }

  function AddServerTools(u: ServerTools, r: ServerTools): ServerTools {
    ServerTools(SaturatingAdd(u.webSearches, NonNegative(r.webSearches)), SaturatingAdd(u.webFetches, NonNegative(r.webFetches)),
                SaturatingAdd(u.codeExecutions, NonNegative(r.codeExecutions)))
  }

  function AddUsage(cfg: Config, u: Usage, r: Report): Usage {
    Usage(SaturatingAdd(u.input, NonNegative(r.inputTokens)), SaturatingAdd(u.output, NonNegative(r.outputTokens)),
          SaturatingAdd(u.thinking, NonNegative(r.thinkingTokens)),
          SaturatingAdd(u.cacheWrite, NonNegative(r.cacheWriteTokens)),
          SaturatingAdd(u.cacheRead, NonNegative(r.cacheReadTokens)),
          SaturatingAdd(u.cacheWrite1h, NonNegative(r.cacheWrite1hTokens)),
          AddServerTools(u.serverTools, r.serverTools),
          Cost.Saturated(u.cost + CostOf(cfg, r), cfg.largest))
  }

  function ReplyMessage(client: Client, r: Response): Message {
    var m := AssistantMessage(r);
    m.(header := m.header.(provider := client.provider))
  }

  function Go(s: State, t: nat, pc: Pc): State {
    s.(threads := s.threads[t := pc])
  }

  function Step(cfg: Config, s: State, a: Action): State
    requires IsEnabled(s, a)
  {
    match a
    case SwitchProvider(client) => s.(client := client)
    case Spawn(t) => Go(s, t, Idle)
    case StartTurn(t, call) => Go(s, t, WantsTurn(if call.continuation then call.(input := []) else call))
    case StartAppend(t, msgs) => Go(s, t, WantsAppend(msgs))
    case Lock(t) =>
      var pc := s.threads[t];
      Go(s, t, if pc.WantsTurn? then Preparing(pc.call) else Appending(pc.msgs)).(turnMu := Some(t), tenure := s.tenure + 1)
    case Prepare(t) =>
      // Under stateMu.
      var call := s.threads[t].call;
      if IsRefused(s, call) then Go(s, t, Unlocking)
      else
        var turn := Prepared(cfg, s, call);
        Go(s, t, if call.streams then Streaming(turn, []) else Completing(turn))
    case Complete(t, result) =>
      // An error, or a nil response, ends the call.
      var turn := s.threads[t].turn;
      if result == None then Go(s, t, Unlocking)
      else Go(s, t, Committing(turn, Attributed(result.value, turn.model), None))
    case Receive(t, event, more) =>
      var pc := s.threads[t];
      if more then Go(s, t, Streaming(pc.turn, pc.events + [event])) else Go(s, t, Unlocking)
    case Break(t) =>
      // The stream yielded an error.
      Go(s, t, Unlocking)
    case EndStream(t) =>
      var pc := s.threads[t];
      var folded := Folding(pc.events);
      if folded.done then Go(s, t, Committing(pc.turn, Attributed(ResponseOf(folded), pc.turn.model), Some(pc.events)))
      else Go(s, t, Unlocking)
    case Reenter(t) => Go(s, t, Blocked)
    case Commit(t) =>
      // Under stateMu: the input and the reply together.
      var pc := s.threads[t];
      Go(s, t, Unlocking).(
        messages := s.messages + pc.turn.input + [ReplyMessage(pc.turn.client, pc.response)],
        usage := AddUsage(cfg, s.usage, pc.response.report),
        log := s.log + [Reply(s.tenure, pc.turn, pc.response, pc.streamed)])
    case Append(t) =>
      var msgs := s.threads[t].msgs;
      Go(s, t, Unlocking).(messages := s.messages + msgs, log := s.log + [Appended(s.tenure, msgs)])
    case Unlock(t) => Go(s, t, Idle).(turnMu := None)
  }

  predicate IsRun(cfg: Config, actions: seq<Action>)
    decreases |actions|, 0
  {
    actions == [] ||
    (IsRun(cfg, actions[..|actions| - 1]) &&
     IsEnabled(Reached(cfg, actions[..|actions| - 1]), actions[|actions| - 1]))
  }

  function Reached(cfg: Config, actions: seq<Action>): State
    requires IsRun(cfg, actions)
    decreases |actions|, 1
  {
    if actions == [] then Start(cfg)
    else Step(cfg, Reached(cfg, actions[..|actions| - 1]), actions[|actions| - 1])
  }

  // ---------------------------------------------------------------------------------------------
  // Invariant
  // ---------------------------------------------------------------------------------------------

  function MessagesOf(e: Entry): seq<Message> {
    match e
    case Reply(_, turn, response, _) => turn.input + [ReplyMessage(turn.client, response)]
    case Appended(_, msgs) => msgs
  }

  /** What a log adds to the transcript: whole turns and appends, in order. */
  function Transcript(log: seq<Entry>): seq<Message> {
    if log == [] then [] else Transcript(log[..|log| - 1]) + MessagesOf(log[|log| - 1])
  }

  predicate HoldsTurn(pc: Pc) {
    !pc.Idle? && !pc.WantsTurn? && !pc.WantsAppend?
  }

  predicate HasTurn(pc: Pc) {
    pc.Completing? || pc.Streaming? || pc.Committing?
  }

  /** The turn was built from `prior`: its request is that transcript and its input, normalized. */
  predicate IsBuiltFrom(cfg: Config, turn: Turn, prior: seq<Message>) {
    && turn.prior == prior
    && turn.model == ModelFor(cfg, turn.client)
    && turn.request == Normalized(prior + turn.input, Target(turn.client.provider, turn.model, cfg.aliases))
    && turn.container == ContainerFor(cfg, prior, turn.continuation)
    && (turn.continuation ==> turn.input == [] && IsPaused(prior))
  }

  predicate IsComplete(turn: Turn, response: Response, streamed: Option<seq<StreamEvent>>) {
    streamed.Some? ==>
      Folding(streamed.value).done && response == Attributed(ResponseOf(Folding(streamed.value)), turn.model)
  }

  ghost predicate LocksOk(s: State) {
    && (forall t | t in s.threads :: HoldsTurn(s.threads[t]) <==> s.turnMu == Some(t))
    && (s.turnMu.Some? ==> s.turnMu.value in s.threads)
  }

  predicate IsPcOk(cfg: Config, s: State, pc: Pc) {
    && (HasTurn(pc) ==> IsBuiltFrom(cfg, pc.turn, s.messages))
    && (pc.Committing? ==> IsComplete(pc.turn, pc.response, pc.streamed))
    && (pc.WantsTurn? || pc.Preparing? ==> (pc.call.continuation ==> pc.call.input == []))
    && (HoldsTurn(pc) && !pc.Unlocking? ==> forall k | 0 <= k < |s.log| :: s.log[k].tenure < s.tenure)
  }

  /** Each logged turn was built from exactly the transcript it was committed to. */
  ghost predicate IsLogged(cfg: Config, log: seq<Entry>, k: nat)
    requires k < |log|
  {
    && (log[k].Reply? ==>
          IsBuiltFrom(cfg, log[k].turn, cfg.messages + Transcript(log[..k]))
          && IsComplete(log[k].turn, log[k].response, log[k].streamed))
    && forall j | 0 <= j < k :: log[j].tenure < log[k].tenure
  }

  ghost predicate LogOk(cfg: Config, s: State) {
    && s.messages == cfg.messages + Transcript(s.log)
    && (forall k: nat | k < |s.log| :: IsLogged(cfg, s.log, k))
    && (forall k | 0 <= k < |s.log| :: s.log[k].tenure <= s.tenure)
  }

  ghost predicate Inv(cfg: Config, s: State) {
    && LocksOk(s)
    && LogOk(cfg, s)
    && (forall t | t in s.threads :: IsPcOk(cfg, s, s.threads[t]))
  }

  lemma LocalKeepsInv(cfg: Config, s: State, t: nat, pc: Pc)
    requires Inv(cfg, s) && IsPcOk(cfg, s, pc)
    requires if t in s.threads then HoldsTurn(pc) == HoldsTurn(s.threads[t]) else !HoldsTurn(pc)
    ensures Inv(cfg, Go(s, t, pc))
  {
    assert LogOk(cfg, Go(s, t, pc));
  }

  lemma LockKeepsInv(cfg: Config, s: State, t: nat)
    requires Inv(cfg, s) && IsEnabled(s, Lock(t))
    ensures Inv(cfg, Step(cfg, s, Lock(t)))
  {
    assert IsPcOk(cfg, s, s.threads[t]);
    assert LogOk(cfg, Step(cfg, s, Lock(t)));
  }

  lemma UnlockKeepsInv(cfg: Config, s: State, t: nat)
    requires Inv(cfg, s) && IsEnabled(s, Unlock(t))
    ensures Inv(cfg, Step(cfg, s, Unlock(t)))
  {
    assert LogOk(cfg, Step(cfg, s, Unlock(t)));
  }

  lemma SwitchKeepsInv(cfg: Config, s: State, client: Client)
    requires Inv(cfg, s)
    ensures Inv(cfg, Step(cfg, s, SwitchProvider(client)))
  {
    assert LogOk(cfg, s.(client := client));
  }

  lemma LoggedStays(cfg: Config, log: seq<Entry>, e: Entry, k: nat)
    requires k < |log| && IsLogged(cfg, log, k)
    ensures IsLogged(cfg, log + [e], k)
  {
    assert (log + [e])[..k] == log[..k];
  }

  lemma TranscriptGrows(start: seq<Message>, log: seq<Entry>, e: Entry)
    ensures start + Transcript(log + [e]) == start + Transcript(log) + MessagesOf(e)
  {
    DropAppended(log, e);
    assert start + (Transcript(log) + MessagesOf(e)) == (start + Transcript(log)) + MessagesOf(e);
  }

  lemma LogGrows(cfg: Config, s: State, e: Entry, s': State)
    requires LogOk(cfg, s) && e.tenure == s.tenure == s'.tenure && s'.log == s.log + [e]
    requires s'.messages == s.messages + MessagesOf(e)
    requires forall k | 0 <= k < |s.log| :: s.log[k].tenure < s.tenure
    requires e.Reply? ==> IsBuiltFrom(cfg, e.turn, s.messages) && IsComplete(e.turn, e.response, e.streamed)
    ensures LogOk(cfg, s')
  {
    TranscriptGrows(cfg.messages, s.log, e);
    DropAppended(s.log, e);
    forall k: nat | k < |s'.log| ensures IsLogged(cfg, s'.log, k) {
      if k < |s.log| {
        LoggedStays(cfg, s.log, e, k);
      }
    }
  }

  lemma WriteKeepsInv(cfg: Config, s: State, a: Action)
    requires Inv(cfg, s) && IsEnabled(s, a) && (a.Commit? || a.Append?)
    ensures Inv(cfg, Step(cfg, s, a))
  {
    var s', pc := Step(cfg, s, a), s.threads[a.t];
    assert IsPcOk(cfg, s, pc);
    if a.Commit? {
      var reply := ReplyMessage(pc.turn.client, pc.response);
      assert s.messages + pc.turn.input + [reply] == s.messages + (pc.turn.input + [reply]);
    }
    LogGrows(cfg, s, s'.log[|s.log|], s');
    forall u | u in s'.threads ensures IsPcOk(cfg, s', s'.threads[u]) {
      assert u in s.threads && (u != a.t ==> !HoldsTurn(s.threads[u]));
    }
  }

  lemma StepKeepsInv(cfg: Config, s: State, a: Action)
    requires Inv(cfg, s) && IsEnabled(s, a)
    ensures Inv(cfg, Step(cfg, s, a))
  {
    match a {
      case SwitchProvider(client) => SwitchKeepsInv(cfg, s, client);
      case Lock(t) => LockKeepsInv(cfg, s, t);
      case Unlock(t) => UnlockKeepsInv(cfg, s, t);
      case Commit(_) => WriteKeepsInv(cfg, s, a);
      case Append(_) => WriteKeepsInv(cfg, s, a);
      case Spawn(t) => LocalKeepsInv(cfg, s, t, Idle);
      case _ =>
        assert IsPcOk(cfg, s, s.threads[a.t]);
        LocalKeepsInv(cfg, s, a.t, Step(cfg, s, a).threads[a.t]);
    }
  }

  lemma {:induction false} ReachedInv(cfg: Config, actions: seq<Action>)
    requires IsRun(cfg, actions)
    ensures Inv(cfg, Reached(cfg, actions))
  {
    if actions != [] {
      ReachedInv(cfg, actions[..|actions| - 1]);
      StepKeepsInv(cfg, Reached(cfg, actions[..|actions| - 1]), actions[|actions| - 1]);
    }
  }

  // ---------------------------------------------------------------------------------------------
  // Theorems
  // ---------------------------------------------------------------------------------------------

  /**
   Turns are linear: the transcript is what the session started with, then whole committed turns and
   appends, inputs as given and not normalized, in the order in which they held turnMu. Each turn's
   request was built from exactly the transcript its reply was appended to.
   */
  lemma TurnsAreLinear(cfg: Config, actions: seq<Action>, k: nat)
    requires IsRun(cfg, actions) && k < |Reached(cfg, actions).log|
    ensures var s := Reached(cfg, actions);
            && s.messages == cfg.messages + Transcript(s.log)
            && (forall j | 0 <= j < k :: s.log[j].tenure < s.log[k].tenure)
            && (s.log[k].Reply? ==> IsBuiltFrom(cfg, s.log[k].turn, cfg.messages + Transcript(s.log[..k])))
  {
    ReachedInv(cfg, actions);
    assert IsLogged(cfg, Reached(cfg, actions).log, k);
  }

  /** While a turn is in flight the transcript stays the one its request was built from. */
  lemma CommitSeesItsRequest(cfg: Config, actions: seq<Action>, t: nat)
    requires IsRun(cfg, actions) && t in Reached(cfg, actions).threads && HasTurn(Reached(cfg, actions).threads[t])
    ensures var s := Reached(cfg, actions);
            && IsBuiltFrom(cfg, s.threads[t].turn, s.messages)
            && s.turnMu == Some(t)
  {
    ReachedInv(cfg, actions);
    assert IsPcOk(cfg, Reached(cfg, actions), Reached(cfg, actions).threads[t]);
  }

  /** Every request sent satisfies what the normalizer promises a provider. */
  lemma RequestsAreWellFormed(cfg: Config, actions: seq<Action>, t: nat)
    requires IsRun(cfg, actions) && t in Reached(cfg, actions).threads && HasTurn(Reached(cfg, actions).threads[t])
    ensures NormalizeLaws.IsWellFormed(NormalizeLaws.Flat(Reached(cfg, actions).threads[t].turn.request))
  {
    var turn := Reached(cfg, actions).threads[t].turn;
    CommitSeesItsRequest(cfg, actions, t);
    NormalizeLaws.NormalizedWellFormed(turn.prior + turn.input, Target(turn.client.provider, turn.model, cfg.aliases));
  }

  /** A streamed turn is recorded only if its stream was done, and then as what its events fold to. */
  lemma OnlyDoneStreamsAreRecorded(cfg: Config, actions: seq<Action>, k: nat)
    requires IsRun(cfg, actions) && k < |Reached(cfg, actions).log|
    ensures var e := Reached(cfg, actions).log[k];
            e.Reply? && e.streamed.Some? ==>
              && Folding(e.streamed.value).done
              && e.response == Attributed(ResponseOf(Folding(e.streamed.value)), e.turn.model)
  {
    ReachedInv(cfg, actions);
    assert IsLogged(cfg, Reached(cfg, actions).log, k);
  }

  predicate Writes(a: Action) {
    a.Commit? || a.Append?
  }

  lemma StepWrites(cfg: Config, s: State, a: Action)
    requires IsEnabled(s, a)
    ensures var s' := Step(cfg, s, a);
            if Writes(a) then
              |s'.log| == |s.log| + 1 && s'.log[..|s.log|] == s.log && s'.messages == s.messages + MessagesOf(s'.log[|s.log|])
            else s'.log == s.log && s'.messages == s.messages && s'.usage == s.usage
  {
    if a.Commit? {
      var pc := s.threads[a.t];
      var reply := ReplyMessage(pc.turn.client, pc.response);
      assert s.messages + pc.turn.input + [reply] == s.messages + (pc.turn.input + [reply]);
    }
  }

  function WritesIn(actions: seq<Action>): nat {
    if actions == [] then 0
    else WritesIn(actions[..|actions| - 1]) + if Writes(actions[|actions| - 1]) then 1 else 0
  }

  /**
   A failed, broken or refused turn changes nothing: over any stretch of a run the log gains one entry
   for each commit or append in it, the transcript gains those entries' messages, and without a commit
   or an append nothing is written.
   */
  lemma {:induction false} OnlyCommitsWrite(cfg: Config, early: seq<Action>, later: seq<Action>)
    requires IsRun(cfg, early) && IsRun(cfg, early + later)
    ensures var s, s' := Reached(cfg, early), Reached(cfg, early + later);
            && |s'.log| == |s.log| + WritesIn(later)
            && s.log <= s'.log
            && s'.messages == s.messages + Transcript(s'.log[|s.log|..])
            && (WritesIn(later) == 0 ==> s'.usage == s.usage)
    decreases |later|
  {
    if later == [] {
      assert early + later == early;
    } else {
      var init, a := later[..|later| - 1], later[|later| - 1];
      DropRun(cfg, early, later);
      OnlyCommitsWrite(cfg, early, init);
      var s, mid := Reached(cfg, early), Reached(cfg, early + init);
      StepWrites(cfg, mid, a);
      if Writes(a) {
        LogSuffix(s.messages, mid, Reached(cfg, early + later), |s.log|);
      }
    }
  }

  lemma DropRun(cfg: Config, early: seq<Action>, later: seq<Action>)
    requires later != [] && IsRun(cfg, early + later)
    ensures IsRun(cfg, early + later[..|later| - 1])
    ensures var mid, a := Reached(cfg, early + later[..|later| - 1]), later[|later| - 1];
            IsEnabled(mid, a) && Reached(cfg, early + later) == Step(cfg, mid, a)
  {
    assert (early + later)[..|early + later| - 1] == early + later[..|later| - 1];
  }

  lemma LogSuffix(start: seq<Message>, s: State, s': State, n: nat)
    requires n <= |s.log| && |s'.log| == |s.log| + 1 && s'.log[..|s.log|] == s.log
    requires s.messages == start + Transcript(s.log[n..]) && s'.messages == s.messages + MessagesOf(s'.log[|s.log|])
    ensures s'.messages == start + Transcript(s'.log[n..])
  {
    var e := s'.log[|s.log|];
    assert s'.log[n..] == s.log[n..] + [e];
    DropAppended(s.log[n..], e);
  }

  /**
   A snapshot taken at any point of a run holds whole turns only: it is what some prefix of the
   final log adds to the starting transcript.
   */
  lemma {:induction false} SnapshotsHoldWholeTurns(cfg: Config, actions: seq<Action>, n: nat)
    requires IsRun(cfg, actions) && n <= |actions|
    ensures IsRun(cfg, actions[..n])
    ensures var early, late := Reached(cfg, actions[..n]), Reached(cfg, actions);
            early.log <= late.log && early.messages == cfg.messages + Transcript(late.log[..|early.log|])
    decreases |actions|
  {
    if n == |actions| {
      assert actions[..n] == actions;
      ReachedInv(cfg, actions);
      assert Reached(cfg, actions).log[..|Reached(cfg, actions).log|] == Reached(cfg, actions).log;
    } else {
      var init := actions[..|actions| - 1];
      assert init[..n] == actions[..n];
      SnapshotsHoldWholeTurns(cfg, init, n);
      StepWrites(cfg, Reached(cfg, init), actions[|actions| - 1]);
      var early, late := Reached(cfg, actions[..n]), Reached(cfg, actions);
      assert late.log[..|early.log|] == Reached(cfg, init).log[..|early.log|];
    }
  }

  /**
   What may have become of the turn thread `t` had in `s`, by the time of `s'`: in the same tenure it is
   as it was or over, and only it was logged.
   */
  ghost predicate TurnKept(s: State, s': State, t: nat)
    requires t in s.threads && HasTurn(s.threads[t])
  {
    && s.tenure <= s'.tenure && |s.log| <= |s'.log|
    && (forall k | |s.log| <= k < |s'.log| && s'.log[k].tenure == s.tenure ::
          s'.log[k].Reply? && s'.log[k].turn == s.threads[t].turn)
    && (s'.tenure == s.tenure ==>
          && t in s'.threads
          && (if HasTurn(s'.threads[t]) then s'.threads[t].turn == s.threads[t].turn
              else s'.threads[t].Unlocking? || s'.threads[t].Blocked? || !HoldsTurn(s'.threads[t]))
          && (s'.turnMu == Some(t) || s'.turnMu == None))
  }

  lemma TurnKeptStep(cfg: Config, s: State, s': State, a: Action, t: nat)
    requires t in s.threads && HasTurn(s.threads[t]) && TurnKept(s, s', t)
    requires LocksOk(s') && IsEnabled(s', a)
    ensures TurnKept(s, Step(cfg, s', a), t)
  {
    var s'' := Step(cfg, s', a);
    StepWrites(cfg, s', a);
    if Writes(a) {
      assert HoldsTurn(s'.threads[a.t]);
      forall k | |s.log| <= k < |s''.log| && s''.log[k].tenure == s.tenure
        ensures s''.log[k].Reply? && s''.log[k].turn == s.threads[t].turn
      {
        if k < |s'.log| {
          assert s''.log[k] == s''.log[..|s'.log|][k];
        }
      }
    }
  }

  /**
   A turn keeps the client it was prepared with, whatever switches happen while it runs: as long as its
   thread holds turnMu it is the same turn, and what is logged in that tenure is its reply, under the
   provider of that client.
   */
  lemma {:induction false} TurnKeepsItsClient(cfg: Config, early: seq<Action>, later: seq<Action>, t: nat)
    requires IsRun(cfg, early) && IsRun(cfg, early + later)
    requires t in Reached(cfg, early).threads && HasTurn(Reached(cfg, early).threads[t])
    ensures TurnKept(Reached(cfg, early), Reached(cfg, early + later), t)
    ensures var s, s' := Reached(cfg, early), Reached(cfg, early + later);
            forall k | |s.log| <= k < |s'.log| && s'.log[k].tenure == s.tenure ::
              && s'.log[k].Reply? && s'.log[k].turn.client == s.threads[t].turn.client
              && MessagesOf(s'.log[k])[|MessagesOf(s'.log[k])| - 1].header.provider == s.threads[t].turn.client.provider
    decreases |later|
  {
    ReachedInv(cfg, early + later);
    if later == [] {
      assert early + later == early;
    } else {
      DropRun(cfg, early, later);
      var init := later[..|later| - 1];
      TurnKeepsItsClient(cfg, early, init, t);
      ReachedInv(cfg, early + init);
      TurnKeptStep(cfg, Reached(cfg, early), Reached(cfg, early + init), later[|later| - 1], t);
    }
  }

  lemma {:induction false} ClientStays(cfg: Config, early: seq<Action>, later: seq<Action>)
    requires IsRun(cfg, early) && IsRun(cfg, early + later) && forall a | a in later :: !a.SwitchProvider?
    ensures Reached(cfg, early + later).client == Reached(cfg, early).client
    decreases |later|
  {
    if later == [] {
      assert early + later == early;
    } else {
      DropRun(cfg, early, later);
      ClientStays(cfg, early, later[..|later| - 1]);
    }
  }

  /**
   A switch never waits, and every turn prepared after it, until the next switch, runs against its
   client.
   */
  lemma SwitchAppliesToTheNextTurn(cfg: Config, early: seq<Action>, client: Client, later: seq<Action>, t: nat)
    requires IsRun(cfg, early)
    ensures IsRun(cfg, early + [SwitchProvider(client)])
    ensures var run := early + [SwitchProvider(client)] + later;
            IsRun(cfg, run) && (forall a | a in later :: !a.SwitchProvider?) && IsEnabled(Reached(cfg, run), Prepare(t)) ==>
              var pc := Step(cfg, Reached(cfg, run), Prepare(t)).threads[t];
              HasTurn(pc) ==> pc.turn.client == client
  {
    var switched := early + [SwitchProvider(client)];
    DropAppended(early, SwitchProvider(client));
    assert IsRun(cfg, switched) && Reached(cfg, switched).client == client;
    if IsRun(cfg, switched + later) && forall a | a in later :: !a.SwitchProvider? {
      ClientStays(cfg, switched, later);
    }
  }

  /** A step that brings some call nearer to its end. */
  predicate IsProgress(a: Action) {
    !a.SwitchProvider? && !a.Spawn? && !a.StartTurn? && !a.StartAppend? && !a.Reenter?
  }

  ghost predicate AnyBlocked(s: State) {
    exists t :: t in s.threads && s.threads[t].Blocked?
  }

  ghost predicate Reenters(actions: seq<Action>) {
    exists k :: 0 <= k < |actions| && actions[k].Reenter?
  }

  lemma {:induction false} BlockedIffReenters(cfg: Config, actions: seq<Action>)
    requires IsRun(cfg, actions)
    ensures AnyBlocked(Reached(cfg, actions)) <==> Reenters(actions)
  {
    if actions != [] {
      var init, a := actions[..|actions| - 1], actions[|actions| - 1];
      var s, s' := Reached(cfg, init), Reached(cfg, actions);
      BlockedIffReenters(cfg, init);
      assert Reenters(actions) <==> Reenters(init) || a.Reenter? by {
        SplitLast(actions);
      }
      BlockedStep(cfg, s, a);
    }
  }

  lemma BlockedStep(cfg: Config, s: State, a: Action)
    requires IsEnabled(s, a)
    ensures AnyBlocked(Step(cfg, s, a)) <==> AnyBlocked(s) || a.Reenter?
  {
    var s' := Step(cfg, s, a);
    forall t | t in s.threads && s.threads[t].Blocked? ensures t in s'.threads && s'.threads[t].Blocked? {
    }
    if a.Reenter? {
      assert s'.threads[a.t].Blocked?;
    }
  }

  /** A blocked thread holds turnMu, so nothing moves any call. */
  lemma BlockedStops(cfg: Config, s: State, a: Action)
    requires LocksOk(s) && AnyBlocked(s) && IsEnabled(s, a)
    ensures !IsProgress(a)
  {
    var u :| u in s.threads && s.threads[u].Blocked?;
    assert HoldsTurn(s.threads[u]) && s.turnMu == Some(u);
    if a.Spawn? || a.SwitchProvider? {
    } else {
      assert HoldsTurn(s.threads[a.t]) ==> a.t == u;
    }
  }

  lemma SomeoneMoves(cfg: Config, s: State, t: nat)
    requires LocksOk(s) && !AnyBlocked(s) && t in s.threads && !s.threads[t].Idle?
    ensures exists a: Action :: IsProgress(a) && IsEnabled(s, a)
  {
    var u := if s.turnMu == None then t else s.turnMu.value;
    assert u in s.threads && !s.threads[u].Blocked?;
    match s.threads[u] {
      case WantsTurn(_) => assert IsEnabled(s, Lock(u));
      case WantsAppend(_) => assert IsEnabled(s, Lock(u));
      case Preparing(_) => assert IsEnabled(s, Prepare(u));
      case Appending(_) => assert IsEnabled(s, Append(u));
      case Completing(_) => assert IsEnabled(s, Complete(u, None));
      case Streaming(_, _) => assert IsEnabled(s, Break(u));
      case Committing(_, _, _) => assert IsEnabled(s, Commit(u));
      case Unlocking => assert IsEnabled(s, Unlock(u));
      case _ =>
    }
  }

  /**
   While a call is unfinished some goroutine with one can move, exactly as long as no turn was started
   from inside another of the same session.
   */
  lemma UnfinishedCanMoveIff(cfg: Config, actions: seq<Action>, t: nat)
    requires IsRun(cfg, actions) && t in Reached(cfg, actions).threads && !Reached(cfg, actions).threads[t].Idle?
    ensures (exists a: Action :: IsProgress(a) && IsEnabled(Reached(cfg, actions), a)) <==> !Reenters(actions)
  {
    var s := Reached(cfg, actions);
    ReachedInv(cfg, actions);
    BlockedIffReenters(cfg, actions);
    if Reenters(actions) {
      forall a: Action | IsEnabled(s, a) ensures !IsProgress(a) {
        BlockedStops(cfg, s, a);
      }
    } else {
      SomeoneMoves(cfg, s, t);
    }
  }

  /** After such a start the session is stuck for good: nothing is ever recorded again. */
  lemma {:induction false} NothingFollowsReentry(cfg: Config, early: seq<Action>, later: seq<Action>)
    requires IsRun(cfg, early) && IsRun(cfg, early + later) && Reenters(early)
    ensures var s, s' := Reached(cfg, early), Reached(cfg, early + later);
            s'.messages == s.messages && s'.log == s.log && s'.usage == s.usage
    decreases |later|
  {
    if later == [] {
      assert early + later == early;
    } else {
      var init, a := later[..|later| - 1], later[|later| - 1];
      DropRun(cfg, early, later);
      NothingFollowsReentry(cfg, early, init);
      ReachedInv(cfg, early + init);
      BlockedIffReenters(cfg, early + init);
      assert Reenters(early + init) by {
        var k :| 0 <= k < |early| && early[k].Reenter?;
        assert (early + init)[k] == early[k];
      }
      BlockedStops(cfg, Reached(cfg, early + init), a);
      StepWrites(cfg, Reached(cfg, early + init), a);
    }
  }

  // ---------------------------------------------------------------------------------------------
  // Usage
  // ---------------------------------------------------------------------------------------------

  function Minimum(a: int, b: int): int {
    if a < b then a else b
  }

  function AddedServerTools(u: ServerTools, r: ServerTools): ServerTools {
    ServerTools(u.webSearches + NonNegative(r.webSearches), u.webFetches + NonNegative(r.webFetches),
                u.codeExecutions + NonNegative(r.codeExecutions))
  }

  function Added(cfg: Config, u: Usage, r: Report): Usage {
    Usage(u.input + NonNegative(r.inputTokens), u.output + NonNegative(r.outputTokens),
          u.thinking + NonNegative(r.thinkingTokens), u.cacheWrite + NonNegative(r.cacheWriteTokens),
          u.cacheRead + NonNegative(r.cacheReadTokens), u.cacheWrite1h + NonNegative(r.cacheWrite1hTokens),
          AddedServerTools(u.serverTools, r.serverTools), u.cost + CostOf(cfg, r))
  }

  const NO_USAGE := Usage(0, 0, 0, 0, 0, 0, ServerTools(0, 0, 0), 0.0)

  /** Exact totals over the recorded replies, each unreported count taken as zero. */
  function Totals(cfg: Config, log: seq<Entry>): Usage {
    if log == [] then NO_USAGE
    else
      var u, e := Totals(cfg, log[..|log| - 1]), log[|log| - 1];
      if e.Appended? then u else Added(cfg, u, e.response.report)
  }

  function SaturatedServerTools(start: ServerTools, total: ServerTools): ServerTools {
    ServerTools(Minimum(MAX_INT, start.webSearches + total.webSearches), Minimum(MAX_INT, start.webFetches + total.webFetches),
                Minimum(MAX_INT, start.codeExecutions + total.codeExecutions))
  }

  function Saturated(start: Usage, total: Usage, largest: real): Usage {
    Usage(Minimum(MAX_INT, start.input + total.input), Minimum(MAX_INT, start.output + total.output),
          Minimum(MAX_INT, start.thinking + total.thinking), Minimum(MAX_INT, start.cacheWrite + total.cacheWrite),
          Minimum(MAX_INT, start.cacheRead + total.cacheRead), Minimum(MAX_INT, start.cacheWrite1h + total.cacheWrite1h),
          SaturatedServerTools(start.serverTools, total.serverTools), Cost.Saturated(start.cost + total.cost, largest))
  }

  lemma SaturatedNext(cfg: Config, start: Usage, total: Usage, r: Report)
    requires start.cost >= 0.0 && total.cost >= 0.0 && cfg.largest > 0.0
    ensures AddUsage(cfg, Saturated(start, total, cfg.largest), r) == Saturated(start, Added(cfg, total, r), cfg.largest)
  {
  }

  lemma {:induction false} TotalsNonNegative(cfg: Config, log: seq<Entry>)
    requires cfg.largest > 0.0
    ensures Totals(cfg, log).cost >= 0.0
  {
    if log != [] {
      TotalsNonNegative(cfg, log[..|log| - 1]);
    }
  }

  /**
   The session's usage is the exact total of its recorded turns: tokens, server tool calls and estimated
   cost, stopped at the largest int and the largest float.
   */
  lemma {:induction false} UsageIsTheTotal(cfg: Config, actions: seq<Action>)
    requires IsRun(cfg, actions) && cfg.largest > 0.0 && cfg.usage == Saturated(cfg.usage, NO_USAGE, cfg.largest)
    ensures var s := Reached(cfg, actions);
            s.usage == Saturated(cfg.usage, Totals(cfg, s.log), cfg.largest)
  {
    if actions != [] {
      var s, a := Reached(cfg, actions[..|actions| - 1]), actions[|actions| - 1];
      UsageIsTheTotal(cfg, actions[..|actions| - 1]);
      if a.Commit? {
        var pc := s.threads[a.t];
        DropAppended(s.log, Reply(s.tenure, pc.turn, pc.response, pc.streamed));
        TotalsNonNegative(cfg, s.log);
        SaturatedNext(cfg, cfg.usage, Totals(cfg, s.log), pc.response.report);
      } else if a.Append? {
        DropAppended(s.log, Appended(s.tenure, s.threads[a.t].msgs));
      }
    }
  }
}
