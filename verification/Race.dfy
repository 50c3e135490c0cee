/**
 Racing the addresses of a host (egress.go): the order they are tried in, as in section 4 of
 RFC 8305, and the race itself, section 5.

 Attempts, the receiving loop and the goroutine that drains late results run concurrently; each send
 or receive on the results channel, each attempt's end and each timer tick is one step.
 */
module Race {
  import opened Sequences

  datatype Addr = Addr(is4: bool, text: string)

  // ---------------------------------------------------------------------------------------------
  // The order of attempts
  // ---------------------------------------------------------------------------------------------

  /** The addresses of one family, in order. */
  function Family(addrs: seq<Addr>, is4: bool): seq<Addr> {
    if addrs == [] then []
    else
      var before, a := Family(addrs[..|addrs| - 1], is4), addrs[|addrs| - 1];
      if a.is4 == is4 then before + [a] else before
  }

  function At(s: seq<Addr>, i: nat): seq<Addr> {
    if i < |s| then [s[i]] else []
  }

  /** The first `n` rounds of taking one address from each list. */
  function Woven(a: seq<Addr>, b: seq<Addr>, n: nat): seq<Addr> {
    if n == 0 then [] else Woven(a, b, n - 1) + At(a, n - 1) + At(b, n - 1)
  }

  function Longest(a: seq<Addr>, b: seq<Addr>): nat {
    if |a| < |b| then |b| else |a|
  }

  function Interleaved(addrs: seq<Addr>): seq<Addr> {
    if addrs == [] then []
    else
      var first, second := Family(addrs, addrs[0].is4), Family(addrs, !addrs[0].is4);
      Woven(first, second, Longest(first, second))
  }

  method Interleave(addrs: seq<Addr>) returns (out: seq<Addr>)
    ensures out == Interleaved(addrs)
  {
    if addrs == [] {
      return addrs;
    }
    var first, second := [], [];
    var i := 0;
    while i < |addrs|
      invariant i <= |addrs| && first == Family(addrs[..i], addrs[0].is4) && second == Family(addrs[..i], !addrs[0].is4)
    {
      TakeNext(addrs, i);
      if addrs[i].is4 == addrs[0].is4 {
        first := first + [addrs[i]];
      } else {
        second := second + [addrs[i]];
      }
      i := i + 1;
    }
    assert addrs[..|addrs|] == addrs;
    out := [];
    i := 0;
    while i < |first| || i < |second|
      invariant i <= Longest(first, second) && out == Woven(first, second, i)
      decreases Longest(first, second) - i
    {
      if i < |first| {
        out := out + [first[i]];
      }
      if i < |second| {
        out := out + [second[i]];
      }
      i := i + 1;
    }
  }

  lemma FamilyNext(addrs: seq<Addr>, a: Addr, is4: bool)
    ensures Family(addrs + [a], is4) == if a.is4 == is4 then Family(addrs, is4) + [a] else Family(addrs, is4)
  {
    DropAppended(addrs, a);
  }

  lemma FamilyAt(before: seq<Addr>, s: seq<Addr>, i: nat, is4: bool)
    ensures Family(before + At(s, i), is4) ==
            Family(before, is4) + if i < |s| && s[i].is4 == is4 then At(s, i) else []
  {
    if i < |s| {
      FamilyNext(before, s[i], is4);
    } else {
      assert before + At(s, i) == before;
    }
  }

  lemma {:induction false} FamilyOnly(addrs: seq<Addr>, is4: bool)
    ensures forall k | 0 <= k < |Family(addrs, is4)| :: Family(addrs, is4)[k].is4 == is4
  {
    if addrs != [] {
      FamilyOnly(addrs[..|addrs| - 1], is4);
    }
  }

  function Take(s: seq<Addr>, n: nat): seq<Addr> {
    s[..if n < |s| then n else |s|]
  }

  lemma TakeAt(s: seq<Addr>, n: nat)
    ensures Take(s, n) + At(s, n) == Take(s, n + 1) && Take(s, n) + [] == Take(s, n)
  {
  }

  lemma WovenNext(a: seq<Addr>, b: seq<Addr>, n: nat, kind: bool, is4: bool)
    requires forall k | 0 <= k < |a| :: a[k].is4 == kind
    requires forall k | 0 <= k < |b| :: b[k].is4 != kind
    requires Family(Woven(a, b, n), is4) == Take(if kind == is4 then a else b, n)
    ensures Family(Woven(a, b, n + 1), is4) == Take(if kind == is4 then a else b, n + 1)
  {
    TakeAt(if kind == is4 then a else b, n);
    FamilyAt(Woven(a, b, n), a, n, is4);
    FamilyAt(Woven(a, b, n) + At(a, n), b, n, is4);
    assert Take(a, n) + At(a, n) + [] == Take(a, n) + At(a, n);
  }

  lemma {:induction false} WovenFamilies(a: seq<Addr>, b: seq<Addr>, n: nat, kind: bool, is4: bool)
    requires forall k | 0 <= k < |a| :: a[k].is4 == kind
    requires forall k | 0 <= k < |b| :: b[k].is4 != kind
    ensures Family(Woven(a, b, n), is4) == Take(if kind == is4 then a else b, n)
  {
    if n > 0 {
      WovenFamilies(a, b, n - 1, kind, is4);
      WovenNext(a, b, n - 1, kind, is4);
    }
  }

  /** Interleaving keeps every address and the order within each family. */
  lemma FamiliesKeepTheirOrder(addrs: seq<Addr>, is4: bool)
    ensures Family(Interleaved(addrs), is4) == Family(addrs, is4)
  {
    if addrs != [] {
      var kind := addrs[0].is4;
      var first, second := Family(addrs, kind), Family(addrs, !kind);
      FamilyOnly(addrs, kind);
      FamilyOnly(addrs, !kind);
      WovenFamilies(first, second, Longest(first, second), kind, is4);
    }
  }

  lemma {:induction false} FamiliesMakeWhole(addrs: seq<Addr>)
    ensures multiset(addrs) == multiset(Family(addrs, true)) + multiset(Family(addrs, false))
  {
    if addrs != [] {
      SplitLast(addrs);
      FamiliesMakeWhole(addrs[..|addrs| - 1]);
    }
  }

  lemma InterleavedIsPermutation(addrs: seq<Addr>)
    ensures multiset(Interleaved(addrs)) == multiset(addrs)
  {
    FamiliesMakeWhole(addrs);
    FamiliesMakeWhole(Interleaved(addrs));
    FamiliesKeepTheirOrder(addrs, true);
    FamiliesKeepTheirOrder(addrs, false);
  }

  lemma {:induction false} WovenAlternates(a: seq<Addr>, b: seq<Addr>, n: nat, i: nat)
    requires n <= |a| && n <= |b| && i < 2 * n
    ensures |Woven(a, b, n)| == 2 * n && Woven(a, b, n)[i] == if i % 2 == 0 then a[i / 2] else b[i / 2]
  {
    if i < 2 * (n - 1) {
      WovenAlternates(a, b, n - 1, i);
    } else if n > 1 {
      WovenAlternates(a, b, n - 1, 0);
    }
  }

  lemma {:induction false} WovenGrows(a: seq<Addr>, b: seq<Addr>, m: nat, n: nat)
    requires m <= n
    ensures Woven(a, b, m) <= Woven(a, b, n)
  {
    if m < n {
      WovenGrows(a, b, m, n - 1);
    }
  }

  /** Families alternate, starting with the first address's, until one runs out. */
  lemma FamiliesAlternate(addrs: seq<Addr>, i: nat)
    requires addrs != [] && i < 2 * |Family(addrs, true)| && i < 2 * |Family(addrs, false)|
    ensures i < |Interleaved(addrs)| && (Interleaved(addrs)[i].is4 == addrs[0].is4 <==> i % 2 == 0)
  {
    var kind := addrs[0].is4;
    var first, second := Family(addrs, kind), Family(addrs, !kind);
    var n := if |first| < |second| then |first| else |second|;
    FamilyOnly(addrs, kind);
    FamilyOnly(addrs, !kind);
    WovenAlternates(first, second, n, i);
    WovenGrows(first, second, n, Longest(first, second));
  }

  // ---------------------------------------------------------------------------------------------
  // The race
  // ---------------------------------------------------------------------------------------------

  datatype Stage = Dialing | Ready | Queued | Taken

  /** One attempt: how far it is, whether it connected, how often its connection was closed. */
  datatype Attempt = Attempt(stage: Stage, connected: bool, closes: nat)

  /** The caller's view: still waiting, returned with a connection, or returned with every error. */
  datatype Phase = Waiting | Won(winner: nat) | Lost

  /** `results` is the channel, `pending` the receives still owed: by the loop, then by the drain. */
  datatype State = State(attempts: seq<Attempt>, results: seq<nat>, pending: int, phase: Phase)

  datatype Action =
    | Finish(i: nat, connected: bool)
    | Send(i: nat)
    | Receive
    | Tick
    | GiveUp
    | Drain

  /** The channel's capacity: one slot for each address. */
  predicate HasSlot(s: State, total: nat) {
    |s.results| < total
  }

  predicate IsEnabled(s: State, a: Action, total: nat) {
    match a
    case Finish(i, _) => i < |s.attempts| && s.attempts[i].stage == Dialing
    case Send(i) => i < |s.attempts| && s.attempts[i].stage == Ready && HasSlot(s, total)
    case Receive => s.phase == Waiting && s.pending > 0 && s.results != []
    case Tick => s.phase == Waiting && s.pending > 0
    case GiveUp => s.phase == Waiting && s.pending <= 0
    case Drain => s.phase.Won? && s.pending > 0 && s.results != []
  }

  function SetAttempt(s: State, i: nat, a: Attempt): State
    requires i < |s.attempts|
  {
    s.(attempts := s.attempts[i := a])
  }

  /** Starts the next address, if one is left. */
  function StartNext(s: State, total: nat): State {
    if |s.attempts| < total then s.(attempts := s.attempts + [Attempt(Dialing, false, 0)], pending := s.pending + 1) else s
  }

  function Begin(total: nat): State {
    StartNext(State([], [], 0, Waiting), total)
  }

  predicate HeadIsKnown(s: State) {
    s.results != [] ==> s.results[0] < |s.attempts|
  }

  function Step(s: State, a: Action, total: nat): State
    requires IsEnabled(s, a, total) && HeadIsKnown(s)
  {
    match a
    case Finish(i, connected) => SetAttempt(s, i, s.attempts[i].(stage := Ready, connected := connected))
    case Send(i) => SetAttempt(s, i, s.attempts[i].(stage := Queued)).(results := s.results + [i])
    case Receive =>
      var i := s.results[0];
      var t := SetAttempt(s, i, s.attempts[i].(stage := Taken)).(results := s.results[1..], pending := s.pending - 1);
      if s.attempts[i].connected then t.(phase := Won(i)) else StartNext(t, total)
    case Tick => StartNext(s, total)
    case GiveUp => s.(phase := Lost)
    case Drain =>
      var i := s.results[0];
      var taken := s.attempts[i].(stage := Taken);
      SetAttempt(s, i, if taken.connected then taken.(closes := taken.closes + 1) else taken)
        .(results := s.results[1..], pending := s.pending - 1)
  }

  // ---------------------------------------------------------------------------------------------
  // Invariant
  // ---------------------------------------------------------------------------------------------

  /** Attempts whose result nobody has received. */
  function Outstanding(attempts: seq<Attempt>): nat {
    if attempts == [] then 0
    else Outstanding(attempts[..|attempts| - 1]) + if attempts[|attempts| - 1].stage == Taken then 0 else 1
  }

  lemma {:induction false} OutstandingUpdate(attempts: seq<Attempt>, i: nat, a: Attempt)
    requires i < |attempts|
    ensures Outstanding(attempts[i := a]) == Outstanding(attempts)
              + (if a.stage == Taken then 0 else 1) - (if attempts[i].stage == Taken then 0 else 1)
  {
    var n := |attempts| - 1;
    if i < n {
      OutstandingUpdate(attempts[..n], i, a);
      assert attempts[i := a][..n] == attempts[..n][i := a];
    } else {
      assert attempts[i := a][..n] == attempts[..n];
    }
  }

  lemma {:induction false} OutstandingBounds(attempts: seq<Attempt>)
    ensures Outstanding(attempts) <= |attempts|
    ensures Outstanding(attempts) == 0 <==> forall i | 0 <= i < |attempts| :: attempts[i].stage == Taken
  {
    if attempts != [] {
      var init := attempts[..|attempts| - 1];
      OutstandingBounds(init);
      assert forall i | 0 <= i < |init| :: init[i] == attempts[i];
    }
  }

  ghost predicate IsQueue(s: State) {
    && (forall k | 0 <= k < |s.results| :: s.results[k] < |s.attempts| && s.attempts[s.results[k]].stage == Queued)
    && (forall j, k | 0 <= j < k < |s.results| :: s.results[j] != s.results[k])
    && (forall i | 0 <= i < |s.attempts| && s.attempts[i].stage == Queued :: i in s.results)
  }

  /** Where one attempt's connection is: with the attempt, in the channel, with the caller, or closed. */
  predicate IsAccounted(s: State, i: nat)
    requires i < |s.attempts|
  {
    var a := s.attempts[i];
    && (a.stage == Dialing ==> !a.connected)
    && a.closes == (if a.stage == Taken && a.connected && s.phase != Won(i) then 1 else 0)
    && (s.phase == Won(i) ==> a.stage == Taken && a.connected)
    && (a.stage == Taken && a.connected ==> s.phase.Won?)
  }

  ghost predicate Inv(s: State, total: nat) {
    && |s.attempts| <= total
    && IsQueue(s)
    && s.pending == Outstanding(s.attempts)
    && (s.phase.Won? ==> s.phase.winner < |s.attempts|)
    && (s.phase == Waiting && |s.attempts| < total ==> s.pending > 0)
    && (s.phase == Lost ==> |s.attempts| == total && s.pending == 0)
    && forall i | 0 <= i < |s.attempts| :: IsAccounted(s, i)
  }

  lemma BeginInv(total: nat)
    requires total > 0
    ensures Inv(Begin(total), total)
  {
    StartNextInv(State([], [], 0, Waiting), total);
  }

  lemma StartKeepsQueue(s: State, total: nat)
    requires IsQueue(s)
    ensures IsQueue(StartNext(s, total))
  {
  }

  /** Everything but the start of a further attempt may be pending. */
  ghost predicate NearlyInv(s: State, total: nat) {
    && |s.attempts| <= total && IsQueue(s) && s.pending == Outstanding(s.attempts) && s.phase == Waiting
    && forall i | 0 <= i < |s.attempts| :: IsAccounted(s, i)
  }

  lemma StartNextInv(s: State, total: nat)
    requires NearlyInv(s, total)
    ensures Inv(StartNext(s, total), total)
  {
    StartKeepsQueue(s, total);
    DropAppended(s.attempts, Attempt(Dialing, false, 0));
    forall i | 0 <= i < |s.attempts| ensures IsAccounted(StartNext(s, total), i) {
      assert IsAccounted(s, i);
    }
  }

  lemma FinishInv(s: State, i: nat, connected: bool, total: nat)
    requires Inv(s, total) && IsEnabled(s, Finish(i, connected), total)
    ensures Inv(Step(s, Finish(i, connected), total), total)
  {
    var t := Step(s, Finish(i, connected), total);
    OutstandingUpdate(s.attempts, i, t.attempts[i]);
    forall j | 0 <= j < |t.attempts| ensures IsAccounted(t, j) {
      assert IsAccounted(s, j);
    }
  }

  lemma SendInv(s: State, i: nat, total: nat)
    requires Inv(s, total) && IsEnabled(s, Send(i), total)
    ensures Inv(Step(s, Send(i), total), total)
  {
    var t := Step(s, Send(i), total);
    OutstandingUpdate(s.attempts, i, t.attempts[i]);
    assert t.results[|s.results|] == i;
    forall j | 0 <= j < |t.attempts| && t.attempts[j].stage == Queued ensures j in t.results {
      assert j != i ==> j in s.results;
    }
    forall j | 0 <= j < |t.attempts| ensures IsAccounted(t, j) {
      assert IsAccounted(s, j);
    }
  }

  /** The receiver takes the head of the queue. */
  lemma TakeKeepsQueue(s: State, a: Attempt)
    requires IsQueue(s) && s.results != [] && a.stage == Taken
    ensures IsQueue(SetAttempt(s, s.results[0], a).(results := s.results[1..]))
  {
    var t := SetAttempt(s, s.results[0], a).(results := s.results[1..]);
    forall j | 0 <= j < |t.attempts| && t.attempts[j].stage == Queued ensures j in t.results {
      assert j in s.results && j != s.results[0];
    }
  }

  lemma LoseInv(s: State, total: nat)
    requires Inv(s, total) && IsEnabled(s, Receive, total) && !s.attempts[s.results[0]].connected
    ensures Inv(Step(s, Receive, total), total)
  {
    var taken := s.attempts[s.results[0]].(stage := Taken);
    var t := SetAttempt(s, s.results[0], taken).(results := s.results[1..], pending := s.pending - 1);
    TakeKeepsQueue(s, taken);
    assert IsQueue(t);
    OutstandingUpdate(s.attempts, s.results[0], taken);
    forall j | 0 <= j < |t.attempts| ensures IsAccounted(t, j) {
      assert IsAccounted(s, j);
    }
    StartNextInv(t, total);
  }

  lemma WinInv(s: State, total: nat)
    requires Inv(s, total) && IsEnabled(s, Receive, total) && s.attempts[s.results[0]].connected
    ensures Inv(Step(s, Receive, total), total)
  {
    var t := Step(s, Receive, total);
    TakeKeepsQueue(s, t.attempts[s.results[0]]);
    assert IsQueue(t);
    OutstandingUpdate(s.attempts, s.results[0], t.attempts[s.results[0]]);
    forall j | 0 <= j < |t.attempts| ensures IsAccounted(t, j) {
      assert IsAccounted(s, j);
    }
  }

  lemma DrainInv(s: State, total: nat)
    requires Inv(s, total) && IsEnabled(s, Drain, total)
    ensures Inv(Step(s, Drain, total), total)
  {
    var i := s.results[0];
    var t := Step(s, Drain, total);
    TakeKeepsQueue(s, t.attempts[i]);
    OutstandingUpdate(s.attempts, i, t.attempts[i]);
    forall j | 0 <= j < |t.attempts| ensures IsAccounted(t, j) {
      assert IsAccounted(s, j);
    }
  }

  lemma GiveUpInv(s: State, total: nat)
    requires Inv(s, total) && IsEnabled(s, GiveUp, total)
    ensures Inv(Step(s, GiveUp, total), total)
  {
    forall j | 0 <= j < |s.attempts| ensures IsAccounted(s.(phase := Lost), j) {
      assert IsAccounted(s, j);
    }
  }

  lemma StepInv(s: State, a: Action, total: nat)
    requires Inv(s, total) && IsEnabled(s, a, total)
    ensures Inv(Step(s, a, total), total)
  {
    match a {
      case Finish(i, connected) => FinishInv(s, i, connected, total);
      case Send(i) => SendInv(s, i, total);
      case Receive => if s.attempts[s.results[0]].connected { WinInv(s, total); } else { LoseInv(s, total); }
      case Tick => StartNextInv(s, total);
      case GiveUp => GiveUpInv(s, total);
      case Drain => DrainInv(s, total);
    }
  }

  // ---------------------------------------------------------------------------------------------
  // Runs
  // ---------------------------------------------------------------------------------------------

  /** The states a race over `total` addresses can reach. */
  ghost predicate IsReached(s: State, actions: seq<Action>, total: nat)
    decreases |actions|
  {
    if actions == [] then s == Begin(total)
    else
      exists before: State ::
        && IsReached(before, actions[..|actions| - 1], total)
        && IsEnabled(before, actions[|actions| - 1], total) && HeadIsKnown(before)
        && s == Step(before, actions[|actions| - 1], total)
  }

  lemma {:induction false} ReachedInv(s: State, actions: seq<Action>, total: nat)
    requires total > 0 && IsReached(s, actions, total)
    ensures Inv(s, total)
    decreases |actions|
  {
    if actions == [] {
      BeginInv(total);
    } else {
      var init, a := actions[..|actions| - 1], actions[|actions| - 1];
      var before: State :| IsReached(before, init, total) && IsEnabled(before, a, total) && HeadIsKnown(before)
                           && s == Step(before, a, total);
      ReachedInv(before, init, total);
      StepInv(before, a, total);
    }
  }

  /** No connection is closed twice, and the one returned is not closed at all. */
  lemma NoConnectionIsClosedTwice(s: State, actions: seq<Action>, total: nat, i: nat)
    requires total > 0 && IsReached(s, actions, total) && i < |s.attempts|
    ensures s.attempts[i].closes <= 1 && (s.phase == Won(i) ==> s.attempts[i].connected && s.attempts[i].closes == 0)
  {
    ReachedInv(s, actions, total);
    assert IsAccounted(s, i);
  }

  /** Once every attempt has reported, each connection but the returned one has been closed, once. */
  lemma NoConnectionLeaks(s: State, actions: seq<Action>, total: nat, i: nat)
    requires total > 0 && IsReached(s, actions, total) && i < |s.attempts| && s.attempts[i].connected
    requires s.phase != Waiting && s.pending == 0
    ensures s.phase.Won? && s.attempts[i].closes == if i == s.phase.winner then 0 else 1
  {
    ReachedInv(s, actions, total);
    OutstandingBounds(s.attempts);
    assert IsAccounted(s, i);
  }

  /**
   No attempt ever waits to hand over its result, and the receivers never wait for results that will
   not come: what they still owe is exactly what is still to be sent.
   */
  lemma NothingBlocks(s: State, actions: seq<Action>, total: nat, i: nat)
    requires total > 0 && IsReached(s, actions, total)
    ensures s.pending == Outstanding(s.attempts)
    ensures i < |s.attempts| && s.attempts[i].stage == Ready ==> HasSlot(s, total)
  {
    ReachedInv(s, actions, total);
    if i < |s.attempts| && s.attempts[i].stage == Ready {
      QueueIsShort(s.attempts, s.results, i);
    }
  }

  /** Distinct queued attempts, none of them `i`, are fewer than all attempts. */
  lemma QueueIsShort(attempts: seq<Attempt>, results: seq<nat>, i: nat)
    requires i < |attempts|
    requires forall k | 0 <= k < |results| :: results[k] < |attempts| && results[k] != i
    requires forall j, k | 0 <= j < k < |results| :: results[j] != results[k]
    ensures |results| < |attempts|
  {
    var queued := set k | 0 <= k < |results| :: results[k];
    DistinctSize(results);
    assert queued <= Below(|attempts|) - {i};
    SubsetSize(queued, Below(|attempts|) - {i});
  }

  lemma {:induction false} DistinctSize(s: seq<nat>)
    requires forall j, k | 0 <= j < k < |s| :: s[j] != s[k]
    ensures |set k | 0 <= k < |s| :: s[k]| == |s|
  {
    if s != [] {
      var n := |s| - 1;
      DistinctSize(s[..n]);
      assert (set k | 0 <= k < |s| :: s[k]) == (set k | 0 <= k < n :: s[..n][k]) + {s[n]};
    }
  }

  function Below(n: nat): (s: set<nat>)
    ensures |s| == n && forall k: nat :: k in s <==> k < n
  {
    if n == 0 then {} else Below(n - 1) + {n - 1}
  }

  lemma {:induction false} SubsetSize(a: set<nat>, b: set<nat>)
    requires a <= b
    ensures |a| <= |b|
    decreases |a|
  {
    if a != {} {
      var x :| x in a;
      SubsetSize(a - {x}, b - {x});
    }
  }

  /** The race fails only after every address was tried and every attempt failed. */
  lemma ErrorsMeanAllFailed(s: State, actions: seq<Action>, total: nat)
    requires total > 0 && IsReached(s, actions, total) && s.phase == Lost
    ensures |s.attempts| == total && forall i | 0 <= i < total :: s.attempts[i].stage == Taken && !s.attempts[i].connected
  {
    ReachedInv(s, actions, total);
    OutstandingBounds(s.attempts);
    forall i | 0 <= i < total ensures s.attempts[i].stage == Taken && !s.attempts[i].connected {
      assert IsAccounted(s, i);
    }
  }

  /** Nobody is stuck: while anything is owed, an attempt can move on or a result can be received. */
  lemma OwedCanMove(s: State, actions: seq<Action>, total: nat)
    requires total > 0 && IsReached(s, actions, total) && s.pending > 0
    ensures exists a: Action :: !a.Tick? && IsEnabled(s, a, total)
  {
    ReachedInv(s, actions, total);
    OutstandingBounds(s.attempts);
    var i :| 0 <= i < |s.attempts| && s.attempts[i].stage != Taken;
    match s.attempts[i].stage {
      case Dialing => assert IsEnabled(s, Finish(i, false), total);
      case Ready =>
        NothingBlocks(s, actions, total, i);
        assert IsEnabled(s, Send(i), total);
      case Queued =>
        if s.phase == Waiting {
          assert IsEnabled(s, Receive, total);
        } else {
          assert IsEnabled(s, Drain, total);
        }
      case Taken =>
    }
  }
}
