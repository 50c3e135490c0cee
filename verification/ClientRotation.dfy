/**
 Rotation of reference-counted clients (pool.go).

 Requests, rotations and Close run on any number of goroutines. Each lock section and each atomic
 counter change is one step; between two steps of one goroutine any other may move. A goroutine's
 local state says which reference it holds and what it does next.
 */
module ClientRotation {
  import opened Wrappers

  /** A client is wrapped once it becomes the pool's; one that lost to Close is discarded raw. */
  datatype Stage = Raw | Wrapped | Discarded

  datatype Client = Client(profile: string, stage: Stage, refs: int, once: bool, closes: nat)

  /**
   What a goroutine does after its Release returned. `used` is the client whose call failed: the Go
   code keeps only the profile's name, so nothing below decides on it.
   */
  datatype Then = Done | Rotate(failed: string, used: nat) | Unlock

  datatype Pc =
    | Idle
    | Using(client: nat, name: string)
    | Releasing(client: nat, andThen: Then)
    | Closing(client: nat, andThen: Then)
    | WantsRotation(failed: string, used: nat)
    | Checking(failed: string, used: nat)
    | Picking(failed: string, used: nat)
    | Creating(failed: string, used: nat, profile: string)
    | Swapping(failed: string, used: nat, client: nat)
    | Discarding(client: nat)

  datatype State = State(
    clients: map<nat, Client>,
    rc: Option<nat>,
    activeName: string,
    threads: map<nat, Pc>,
    rotateMu: Option<nat>)

  datatype Action =
    | Spawn(t: nat)
    | Begin(t: nat)
    | Call(t: nat)
    | Finish(t: nat, retry: bool)
    | Release(t: nat)
    | RunClose(t: nat)
    | LockRotation(t: nat)
    | CheckName(t: nat)
    | Pick(t: nat, available: Option<string>)
    | Create(t: nat, made: Option<nat>)
    | Swap(t: nat)
    | Discard(t: nat)
    | Close(t: nat)

  function Start(name: string): State {
    State(map[0 := Client(name, Wrapped, 1, false, 0)], Some(0), name, map[], None)
  }

  predicate IsEnabled(s: State, a: Action) {
    if a.Spawn? then a.t !in s.threads
    else
      a.t in s.threads &&
      var pc := s.threads[a.t];
      match a
      case Spawn(_) => false
      case Begin(_) => pc.Idle?
      case Call(_) => pc.Using?
      case Finish(_, _) => pc.Using?
      case Release(_) => pc.Releasing? && pc.client in s.clients
      case RunClose(_) => pc.Closing? && pc.client in s.clients
      case LockRotation(_) => pc.WantsRotation? && s.rotateMu == None
      case CheckName(_) => pc.Checking?
      case Pick(_, _) => pc.Picking?
      case Create(_, made) => pc.Creating? && (made.Some? ==> made.value !in s.clients)
      case Swap(_) => pc.Swapping? && pc.client in s.clients
      case Discard(_) => pc.Discarding? && pc.client in s.clients
      case Close(_) => pc.Idle?
  }

  function Go(s: State, t: nat, pc: Pc): State {
    s.(threads := s.threads[t := pc])
  }

  /** The deferred unlock of a rotation that returns. */
  function EndRotation(s: State, t: nat): State {
    Go(s, t, Idle).(rotateMu := None)
  }

  function Resume(s: State, t: nat, andThen: Then): State {
    match andThen
    case Done => Go(s, t, Idle)
    case Rotate(failed, used) => Go(s, t, WantsRotation(failed, used))
    case Unlock => EndRotation(s, t)
  }

  function SetClient(s: State, c: nat, client: Client): State {
    s.(clients := s.clients[c := client])
  }

  function Step(s: State, a: Action): State
    requires IsEnabled(s, a)
  {
    if a.Spawn? then Go(s, a.t, Idle)
    else
      var pc := s.threads[a.t];
      match a
      case Begin(t) =>
        // Under mu.RLock: read rc and activeName together and acquire, or report ErrClientClosed.
        if s.rc.Some? && s.rc.value in s.clients then
          var c := s.clients[s.rc.value];
          Go(SetClient(s, s.rc.value, c.(refs := c.refs + 1)), t, Using(s.rc.value, s.activeName))
        else s
      case Call(_) => s
      case Finish(t, retry) => Go(s, t, Releasing(pc.client, if retry then Rotate(pc.name, pc.client) else Done))
      case Release(t) =>
        var c := s.clients[pc.client];
        var dropped := SetClient(s, pc.client, c.(refs := c.refs - 1));
        if c.refs - 1 == 0 then Go(dropped, t, Closing(pc.client, pc.andThen)) else Resume(dropped, t, pc.andThen)
      case RunClose(t) =>
        var c := s.clients[pc.client];
        Resume(if c.once then s else SetClient(s, pc.client, c.(once := true, closes := c.closes + 1)), t, pc.andThen)
      case LockRotation(t) => Go(s, t, Checking(pc.failed, pc.used)).(rotateMu := Some(t))
      case CheckName(t) => if s.activeName != pc.failed then EndRotation(s, t) else Go(s, t, Picking(pc.failed, pc.used))
      case Pick(t, available) =>
        if available == None then EndRotation(s, t) else Go(s, t, Creating(pc.failed, pc.used, available.value))
      case Create(t, made) =>
        if made == None then EndRotation(s, t)
        else Go(SetClient(s, made.value, Client(pc.profile, Raw, 0, false, 0)), t, Swapping(pc.failed, pc.used, made.value))
      case Swap(t) =>
        // Under mu.Lock: a rotation that lost to Close must not resurrect rc.
        if s.rc == None then Go(s, t, Discarding(pc.client))
        else
          var c := s.clients[pc.client];
          Go(SetClient(s, pc.client, c.(stage := Wrapped, refs := 1)), t, Releasing(s.rc.value, Unlock))
            .(rc := Some(pc.client), activeName := c.profile)
      case Discard(t) =>
        var c := s.clients[pc.client];
        EndRotation(SetClient(s, pc.client, c.(stage := Discarded, closes := c.closes + 1)), t)
      case Close(t) =>
        if s.rc == None then s else Go(s, t, Releasing(s.rc.value, Done)).(rc := None)
      case _ => s
  }

  // ---------------------------------------------------------------------------------------------
  // The invariant
  // ---------------------------------------------------------------------------------------------

  predicate Holds(pc: Pc, c: nat) {
    (pc.Using? || pc.Releasing?) && pc.client == c
  }

  predicate Closes(pc: Pc, c: nat) {
    pc.Closing? && pc.client == c
  }

  /** In-flight calls on the client and releases still pending, one reference each. */
  function Holders(threads: map<nat, Pc>, c: nat): set<nat> {
    set t | t in threads && Holds(threads[t], c)
  }

  function Closers(threads: map<nat, Pc>, c: nat): set<nat> {
    set t | t in threads && Closes(threads[t], c)
  }

  predicate HoldsRotateMu(pc: Pc) {
    || pc.Checking? || pc.Picking? || pc.Creating? || pc.Swapping? || pc.Discarding?
    || ((pc.Releasing? || pc.Closing?) && pc.andThen == Unlock)
  }

  /** The rotation is committed to replacing the profile `failed`. */
  predicate IsReplacing(pc: Pc) {
    pc.Picking? || pc.Creating? || pc.Swapping?
  }

  /** refs = the pool's reference + in-flight holders + pending releases. */
  ghost predicate IsCounted(s: State, c: nat)
    requires c in s.clients
  {
    s.clients[c].refs == (if s.rc == Some(c) then 1 else 0) + |Holders(s.threads, c)|
  }

  /** Open while referenced; afterwards closed once, or about to be by exactly one goroutine. */
  ghost predicate IsClosedOnce(s: State, c: nat)
    requires c in s.clients
  {
    var client := s.clients[c];
    && client.refs >= 0
    && client.closes == (if client.once then 1 else 0)
    && client.closes + |Closers(s.threads, c)| == if client.refs == 0 then 1 else 0
  }

  ghost predicate IsClientOk(s: State, c: nat)
    requires c in s.clients
  {
    var client := s.clients[c];
    match client.stage
    case Wrapped => IsCounted(s, c) && IsClosedOnce(s, c)
    case Raw =>
      && client.refs == 0 && client.closes == 0 && !client.once
      && s.rotateMu.Some? && s.rotateMu.value in s.threads
      && (var pc := s.threads[s.rotateMu.value]; (pc.Swapping? || pc.Discarding?) && pc.client == c)
    case Discarded => client.closes == 1
  }

  ghost predicate IsThreadOk(s: State, t: nat)
    requires t in s.threads
  {
    var pc := s.threads[t];
    && (HoldsRotateMu(pc) <==> s.rotateMu == Some(t))
    && (pc.Using? || pc.Releasing? || pc.Closing? ==> pc.client in s.clients && s.clients[pc.client].stage == Wrapped)
    && (pc.Using? ==> s.clients[pc.client].profile == pc.name)
    && (pc.Swapping? || pc.Discarding? ==> pc.client in s.clients && s.clients[pc.client].stage == Raw)
    && (IsReplacing(pc) ==> s.activeName == pc.failed)
    && (pc.Discarding? ==> s.rc == None)
  }

  ghost predicate Inv(s: State) {
    && (forall t | t in s.threads :: IsThreadOk(s, t))
    && (forall c | c in s.clients :: IsClientOk(s, c))
    && (s.rotateMu.Some? ==> s.rotateMu.value in s.threads)
    && (s.rc.Some? ==> s.rc.value in s.clients &&
                       var c := s.clients[s.rc.value]; c.stage == Wrapped && c.profile == s.activeName)
  }

  // ---------------------------------------------------------------------------------------------
  // One goroutine moves
  // ---------------------------------------------------------------------------------------------

  lemma Recounted(before: set<nat>, after: set<nat>, t: nat, now: bool)
    requires forall u | u != t :: u in after <==> u in before
    requires t in after <==> now
    ensures |after| == |before| - (if t in before then 1 else 0) + if now then 1 else 0
  {
    var rest := before - {t};
    if t in before {
      assert before == rest + {t};
    } else {
      assert before == rest;
    }
    if now {
      assert after == rest + {t};
    } else {
      assert after == rest;
    }
  }

  lemma MovedHolders(threads: map<nat, Pc>, t: nat, pc: Pc, c: nat)
    ensures |Holders(threads[t := pc], c)| ==
            |Holders(threads, c)| - (if t in threads && Holds(threads[t], c) then 1 else 0) + if Holds(pc, c) then 1 else 0
  {
    Recounted(Holders(threads, c), Holders(threads[t := pc], c), t, Holds(pc, c));
  }

  lemma MovedClosers(threads: map<nat, Pc>, t: nat, pc: Pc, c: nat)
    ensures |Closers(threads[t := pc], c)| ==
            |Closers(threads, c)| - (if t in threads && Closes(threads[t], c) then 1 else 0) + if Closes(pc, c) then 1 else 0
  {
    Recounted(Closers(threads, c), Closers(threads[t := pc], c), t, Closes(pc, c));
  }

  /** `s'` is `s` after goroutine `t` moved: what it may have touched besides its own local state. */
  ghost predicate IsMove(s: State, s': State, t: nat) {
    && t in s'.threads && s'.threads == s.threads[t := s'.threads[t]]
    && (s'.rotateMu == s.rotateMu || (s.rotateMu in {None, Some(t)} && s'.rotateMu in {None, Some(t)}))
    && (s'.activeName == s.activeName || s.rotateMu == Some(t))
    && (s.rc == None ==> s'.rc == None)
    && (forall c | c in s.clients ::
          c in s'.clients && s'.clients[c].profile == s.clients[c].profile &&
          (s'.clients[c].stage == s.clients[c].stage || (t in s.threads && s.clients[c].stage == Raw && s.rotateMu == Some(t))))
  }

  lemma OthersStayOk(s: State, s': State, t: nat)
    requires Inv(s) && IsMove(s, s', t)
    ensures forall u | u in s'.threads && u != t :: IsThreadOk(s', u)
  {
    forall u | u in s'.threads && u != t ensures IsThreadOk(s', u) {
      assert IsThreadOk(s, u);
      var pc := s.threads[u];
      if pc.Swapping? || pc.Discarding? {
        assert s.rotateMu == Some(u);
      }
    }
  }

  /** A wrapped or discarded client that `t` neither touched nor held is as it was. */
  lemma UntouchedStaysOk(s: State, s': State, t: nat, c: nat)
    requires Inv(s) && IsMove(s, s', t)
    requires c in s.clients && s'.clients[c] == s.clients[c] && s.clients[c].stage != Raw
    requires s'.rc == Some(c) <==> s.rc == Some(c)
    requires Holds(s'.threads[t], c) <==> t in s.threads && Holds(s.threads[t], c)
    requires Closes(s'.threads[t], c) <==> t in s.threads && Closes(s.threads[t], c)
    ensures IsClientOk(s', c)
  {
    assert IsClientOk(s, c);
    MovedHolders(s.threads, t, s'.threads[t], c);
    MovedClosers(s.threads, t, s'.threads[t], c);
  }

  /** A raw client of another goroutine's rotation is as it was. */
  lemma ForeignRawStaysOk(s: State, s': State, t: nat, c: nat)
    requires Inv(s) && IsMove(s, s', t) && s.rotateMu != Some(t)
    requires c in s.clients && s'.clients[c] == s.clients[c] && s.clients[c].stage == Raw
    ensures IsClientOk(s', c)
  {
    assert IsClientOk(s, c);
  }

  lemma StartInv(name: string)
    ensures Inv(Start(name))
  {
    assert Holders(map[], 0) == {} && Closers(map[], 0) == {};
  }

  /** A client somebody holds a reference to is open, and nobody is closing it. */
  lemma HeldIsOpen(s: State, t: nat)
    requires Inv(s) && t in s.threads && (s.threads[t].Using? || s.threads[t].Releasing?)
    ensures var c := s.threads[t].client;
            && c in s.clients && s.clients[c].stage == Wrapped
            && s.clients[c].refs > 0 && s.clients[c].closes == 0 && |Closers(s.threads, c)| == 0
            && (s.rc == Some(c) ==> s.clients[c].refs > 1)
  {
    var c := s.threads[t].client;
    assert IsThreadOk(s, t) && IsClientOk(s, c);
    assert t in Holders(s.threads, c);
  }

  lemma ClosingIsLast(s: State, t: nat)
    requires Inv(s) && t in s.threads && s.threads[t].Closing?
    ensures var c := s.threads[t].client;
            && c in s.clients && s.clients[c].stage == Wrapped
            && s.clients[c].refs == 0 && !s.clients[c].once && s.clients[c].closes == 0
            && |Closers(s.threads, c)| == 1
  {
    var c := s.threads[t].client;
    assert IsThreadOk(s, t) && IsClientOk(s, c);
    assert t in Closers(s.threads, c);
  }

  lemma StepClients(s: State, s': State, t: nat, touched: set<nat>)
    requires Inv(s) && IsMove(s, s', t)
    requires s'.clients.Keys <= s.clients.Keys + touched
    requires forall c | c in touched && c in s'.clients :: IsClientOk(s', c)
    requires forall c | c in s.clients && c !in touched ::
               && s'.clients[c] == s.clients[c]
               && (s'.rc == Some(c) <==> s.rc == Some(c))
               && (Holds(s'.threads[t], c) <==> t in s.threads && Holds(s.threads[t], c))
               && (Closes(s'.threads[t], c) <==> t in s.threads && Closes(s.threads[t], c))
               && (s.clients[c].stage == Raw ==> s.rotateMu != Some(t))
    ensures forall c | c in s'.clients :: IsClientOk(s', c)
  {
    forall c | c in s'.clients ensures IsClientOk(s', c) {
      if c !in touched {
        if s.clients[c].stage == Raw {
          ForeignRawStaysOk(s, s', t, c);
        } else {
          UntouchedStaysOk(s, s', t, c);
        }
      }
    }
  }

  /** The raw client of the rotation in progress, if there is one, belongs to the mutex holder. */
  lemma RawIsMine(s: State, t: nat, c: nat)
    requires Inv(s) && s.rotateMu == Some(t) && c in s.clients && s.clients[c].stage == Raw
    ensures t in s.threads && (s.threads[t].Swapping? || s.threads[t].Discarding?) && s.threads[t].client == c
  {
    assert IsClientOk(s, c);
  }

  lemma NoRawOf(s: State, t: nat)
    requires Inv(s) && (t in s.threads ==> !s.threads[t].Swapping? && !s.threads[t].Discarding?)
    ensures forall c | c in s.clients && s.clients[c].stage == Raw :: s.rotateMu != Some(t)
  {
    forall c | c in s.clients && s.clients[c].stage == Raw ensures s.rotateMu != Some(t) {
      if s.rotateMu == Some(t) {
        RawIsMine(s, t, c);
      }
    }
  }

  // ---------------------------------------------------------------------------------------------
  // Every step keeps the invariant
  // ---------------------------------------------------------------------------------------------

  lemma StepBegin(s: State, t: nat)
    requires Inv(s) && IsEnabled(s, Begin(t)) && s.rc.Some?
    ensures Inv(Step(s, Begin(t)))
  {
    var s', c := Step(s, Begin(t)), s.rc.value;
    assert IsThreadOk(s, t) && IsClientOk(s, c);
    OthersStayOk(s, s', t);
    MovedHolders(s.threads, t, s'.threads[t], c);
    MovedClosers(s.threads, t, s'.threads[t], c);
    NoRawOf(s, t);
    StepClients(s, s', t, {c});
  }

  /** `t` moves on without touching a client, the pool's reference or any reference count. */
  lemma MoveLocally(s: State, t: nat, pc: Pc, mu: Option<nat>)
    requires Inv(s)
    requires mu == s.rotateMu || (s.rotateMu in {None, Some(t)} && mu in {None, Some(t)})
    requires forall c :: Holds(pc, c) <==> t in s.threads && Holds(s.threads[t], c)
    requires forall c :: Closes(pc, c) <==> t in s.threads && Closes(s.threads[t], c)
    requires t in s.threads ==> !s.threads[t].Swapping? && !s.threads[t].Discarding?
    requires IsThreadOk(Go(s, t, pc).(rotateMu := mu), t)
    ensures Inv(Go(s, t, pc).(rotateMu := mu))
  {
    var s' := Go(s, t, pc).(rotateMu := mu);
    OthersStayOk(s, s', t);
    NoRawOf(s, t);
    StepClients(s, s', t, {});
  }

  lemma StepSpawn(s: State, t: nat)
    requires Inv(s) && IsEnabled(s, Spawn(t))
    ensures Inv(Step(s, Spawn(t)))
  {
    MoveLocally(s, t, Idle, s.rotateMu);
  }

  lemma StepFinish(s: State, t: nat, retry: bool)
    requires Inv(s) && IsEnabled(s, Finish(t, retry))
    ensures Inv(Step(s, Finish(t, retry)))
  {
    assert IsThreadOk(s, t);
    var pc := s.threads[t];
    MoveLocally(s, t, Releasing(pc.client, if retry then Rotate(pc.name, pc.client) else Done), s.rotateMu);
  }

  /** The steps of a rotation that end it early or only read. */
  lemma StepRotation(s: State, a: Action)
    requires Inv(s) && IsEnabled(s, a)
    requires a.LockRotation? || a.CheckName? || a.Pick? || (a.Create? && a.made == None)
    ensures Inv(Step(s, a))
  {
    assert IsThreadOk(s, a.t);
    var s' := Step(s, a);
    MoveLocally(s, a.t, s'.threads[a.t], s'.rotateMu);
  }

  /** `t` gave up its reference or closed the client: `client` is what became of it. */
  lemma MoveWithClient(s: State, t: nat, c: nat, client: Client, pc: Pc, mu: Option<nat>)
    requires Inv(s) && t in s.threads && (s.threads[t].Releasing? || s.threads[t].Closing?) && s.threads[t].client == c
    requires c in s.clients && client.stage == s.clients[c].stage && client.profile == s.clients[c].profile
    requires mu == s.rotateMu || (s.rotateMu in {None, Some(t)} && mu in {None, Some(t)})
    requires forall d | d != c :: !Holds(pc, d) && !Closes(pc, d)
    requires var s' := Go(SetClient(s, c, client), t, pc).(rotateMu := mu);
             IsThreadOk(s', t) && IsClientOk(s', c)
    ensures Inv(Go(SetClient(s, c, client), t, pc).(rotateMu := mu))
  {
    var s' := Go(SetClient(s, c, client), t, pc).(rotateMu := mu);
    OthersStayOk(s, s', t);
    NoRawOf(s, t);
    StepClients(s, s', t, {c});
  }

  lemma StepRelease(s: State, t: nat)
    requires Inv(s) && IsEnabled(s, Release(t))
    ensures Inv(Step(s, Release(t)))
  {
    var s', c := Step(s, Release(t)), s.threads[t].client;
    HeldIsOpen(s, t);
    assert IsThreadOk(s, t) && IsClientOk(s, c);
    MovedHolders(s.threads, t, s'.threads[t], c);
    MovedClosers(s.threads, t, s'.threads[t], c);
    MoveWithClient(s, t, c, s'.clients[c], s'.threads[t], s'.rotateMu);
  }

  lemma StepRunClose(s: State, t: nat)
    requires Inv(s) && IsEnabled(s, RunClose(t))
    ensures Inv(Step(s, RunClose(t)))
  {
    var s', c := Step(s, RunClose(t)), s.threads[t].client;
    ClosingIsLast(s, t);
    assert IsThreadOk(s, t) && IsClientOk(s, c);
    MovedHolders(s.threads, t, s'.threads[t], c);
    MovedClosers(s.threads, t, s'.threads[t], c);
    MoveWithClient(s, t, c, s'.clients[c], s'.threads[t], s'.rotateMu);
  }

  lemma StepClose(s: State, t: nat)
    requires Inv(s) && IsEnabled(s, Close(t)) && s.rc.Some?
    ensures Inv(Step(s, Close(t)))
  {
    var s', c := Step(s, Close(t)), s.rc.value;
    assert IsThreadOk(s, t) && IsClientOk(s, c);
    OthersStayOk(s, s', t);
    MovedHolders(s.threads, t, s'.threads[t], c);
    MovedClosers(s.threads, t, s'.threads[t], c);
    NoRawOf(s, t);
    StepClients(s, s', t, {c});
  }

  lemma StepCreate(s: State, t: nat, made: nat)
    requires Inv(s) && IsEnabled(s, Create(t, Some(made)))
    ensures Inv(Step(s, Create(t, Some(made))))
  {
    var s' := Step(s, Create(t, Some(made)));
    assert IsThreadOk(s, t);
    OthersStayOk(s, s', t);
    NoRawOf(s, t);
    StepClients(s, s', t, {made});
  }

  /** Nobody has a reference to a client before it is wrapped. */
  lemma RawIsUnheld(s: State, c: nat)
    requires Inv(s) && c in s.clients && s.clients[c].stage == Raw
    ensures Holders(s.threads, c) == {} && Closers(s.threads, c) == {}
  {
    forall t | t in s.threads ensures !Holds(s.threads[t], c) && !Closes(s.threads[t], c) {
      assert IsThreadOk(s, t);
    }
  }

  lemma StepSwap(s: State, t: nat)
    requires Inv(s) && IsEnabled(s, Swap(t)) && s.rc.Some?
    ensures Inv(Step(s, Swap(t)))
  {
    var s', made, was := Step(s, Swap(t)), s.threads[t].client, s.rc.value;
    assert IsThreadOk(s, t) && IsClientOk(s, made) && IsClientOk(s, was);
    OthersStayOk(s, s', t);
    RawIsUnheld(s, made);
    MovedHolders(s.threads, t, s'.threads[t], made);
    MovedClosers(s.threads, t, s'.threads[t], made);
    MovedHolders(s.threads, t, s'.threads[t], was);
    MovedClosers(s.threads, t, s'.threads[t], was);
    forall c | c in s.clients && s.clients[c].stage == Raw ensures c == made {
      RawIsMine(s, t, c);
    }
    StepClients(s, s', t, {made, was});
  }

  /** A rotation that lost to Close gives its client up, still raw, and closes it itself. */
  lemma MoveWithRaw(s: State, s': State, t: nat, made: nat)
    requires Inv(s) && IsMove(s, s', t) && s'.rc == s.rc && s.rc == None
    requires t in s.threads && (s.threads[t].Swapping? || s.threads[t].Discarding?) && s.threads[t].client == made
    requires s'.clients == s.clients[made := s'.clients[made]]
    requires s'.threads[t].Idle? || s'.threads[t].Discarding?
    requires s'.rotateMu.Some? ==> s'.rotateMu.value in s'.threads
    requires IsThreadOk(s', t) && made in s'.clients && IsClientOk(s', made)
    ensures Inv(s')
  {
    assert IsThreadOk(s, t);
    OthersStayOk(s, s', t);
    forall c | c in s.clients && s.clients[c].stage == Raw ensures c == made {
      RawIsMine(s, t, c);
    }
    StepClients(s, s', t, {made});
  }

  lemma StepLost(s: State, t: nat)
    requires Inv(s) && IsEnabled(s, Swap(t)) && s.rc == None
    ensures Inv(Step(s, Swap(t)))
  {
    assert IsThreadOk(s, t) && IsClientOk(s, s.threads[t].client);
    MoveWithRaw(s, Step(s, Swap(t)), t, s.threads[t].client);
  }

  lemma StepDiscard(s: State, t: nat)
    requires Inv(s) && IsEnabled(s, Discard(t))
    ensures Inv(Step(s, Discard(t)))
  {
    assert IsThreadOk(s, t) && IsClientOk(s, s.threads[t].client);
    MoveWithRaw(s, Step(s, Discard(t)), t, s.threads[t].client);
  }

  /** Every step of every goroutine keeps the invariant. */
  lemma StepInv(s: State, a: Action)
    requires Inv(s) && IsEnabled(s, a)
    ensures Inv(Step(s, a))
  {
    match a {
      case Spawn(t) => StepSpawn(s, t);
      case Begin(t) => if s.rc.Some? { StepBegin(s, t); }
      case Call(_) =>
      case Finish(t, retry) => StepFinish(s, t, retry);
      case Release(t) => StepRelease(s, t);
      case RunClose(t) => StepRunClose(s, t);
      case Create(t, made) => if made.Some? { StepCreate(s, t, made.value); } else { StepRotation(s, a); }
      case Swap(t) => if s.rc.Some? { StepSwap(s, t); } else { StepLost(s, t); }
      case Discard(t) => StepDiscard(s, t);
      case Close(t) => if s.rc.Some? { StepClose(s, t); }
      case _ => StepRotation(s, a);
    }
  }

  // ---------------------------------------------------------------------------------------------
  // Every interleaving
  // ---------------------------------------------------------------------------------------------

  /** The steps can be taken one after the other, starting from a new pool. */
  ghost predicate IsRun(name: string, actions: seq<Action>) {
    actions == [] ||
    (IsRun(name, actions[..|actions| - 1]) &&
     IsEnabled(Reached(name, actions[..|actions| - 1]), actions[|actions| - 1]))
  }

  ghost function Reached(name: string, actions: seq<Action>): State {
    if actions == [] then Start(name)
    else
      var s := Reached(name, actions[..|actions| - 1]);
      var a := actions[|actions| - 1];
      if IsEnabled(s, a) then Step(s, a) else s
  }

  lemma {:induction false} ReachedInv(name: string, actions: seq<Action>)
    requires IsRun(name, actions)
    ensures Inv(Reached(name, actions))
  {
    if actions == [] {
      StartInv(name);
    } else {
      ReachedInv(name, actions[..|actions| - 1]);
      StepInv(Reached(name, actions[..|actions| - 1]), actions[|actions| - 1]);
    }
  }

  /**
   In every interleaving: whoever is calling a client finds it open, with the profile under whose
   name the outcome will be booked; no client is closed twice; the reference count is exact.
   */
  lemma NoUseAfterClose(name: string, actions: seq<Action>)
    requires IsRun(name, actions)
    ensures var s := Reached(name, actions);
            && (forall t | t in s.threads && s.threads[t].Using? ::
                  && s.threads[t].client in s.clients
                  && s.clients[s.threads[t].client].closes == 0
                  && s.clients[s.threads[t].client].profile == s.threads[t].name)
            && (forall c | c in s.clients :: s.clients[c].closes <= 1)
            && (forall c | c in s.clients && s.clients[c].stage == Wrapped :: IsCounted(s, c))
            && (s.rc.Some? ==> s.rc.value in s.clients && s.clients[s.rc.value].closes == 0
                               && s.clients[s.rc.value].profile == s.activeName)
  {
    ReachedInv(name, actions);
    var s := Reached(name, actions);
    forall t | t in s.threads && s.threads[t].Using?
      ensures s.threads[t].client in s.clients && s.clients[s.threads[t].client].closes == 0
              && s.clients[s.threads[t].client].profile == s.threads[t].name
    {
      HeldIsOpen(s, t);
      assert IsThreadOk(s, t);
    }
    forall c | c in s.clients ensures s.clients[c].closes <= 1 {
      assert IsClientOk(s, c);
    }
    forall c | c in s.clients && s.clients[c].stage == Wrapped ensures IsCounted(s, c) {
      assert IsClientOk(s, c);
    }
    if s.rc.Some? {
      assert IsClientOk(s, s.rc.value);
    }
  }

  /**
   Once Close has run and every goroutine has finished, every client ever created has been closed
   exactly once, the ones built by rotations that lost to Close included.
   */
  lemma NoLeakAfterClose(name: string, actions: seq<Action>)
    requires IsRun(name, actions)
    requires var s := Reached(name, actions); s.rc == None && forall t | t in s.threads :: s.threads[t].Idle?
    ensures var s := Reached(name, actions);
            forall c | c in s.clients :: s.clients[c].closes == 1
  {
    ReachedInv(name, actions);
    var s := Reached(name, actions);
    forall c | c in s.clients ensures s.clients[c].closes == 1 {
      assert IsClientOk(s, c);
      assert Holders(s.threads, c) == {} && Closers(s.threads, c) == {};
      if s.rotateMu.Some? {
        assert IsThreadOk(s, s.rotateMu.value);
      }
    }
  }

  lemma CloseIsFinalStep(s: State, a: Action)
    requires IsEnabled(s, a)
    ensures s.rc == None ==> Step(s, a).rc == None
    ensures s.clients.Keys <= Step(s, a).clients.Keys
    ensures forall c | c in s.clients :: s.clients[c].closes <= Step(s, a).clients[c].closes
  {
  }

  /**
   Close is final in every continuation of every run: no step brings a client back, no client is
   forgotten, and no close is undone.
   */
  lemma {:induction false} CloseIsFinal(name: string, actions: seq<Action>, n: nat)
    requires n <= |actions|
    ensures var early, late := Reached(name, actions[..n]), Reached(name, actions);
            && (early.rc == None ==> late.rc == None)
            && early.clients.Keys <= late.clients.Keys
            && forall c | c in early.clients :: early.clients[c].closes <= late.clients[c].closes
    decreases |actions|
  {
    if n == |actions| {
      assert actions[..n] == actions;
    } else {
      var init := actions[..|actions| - 1];
      assert init[..n] == actions[..n];
      CloseIsFinal(name, init, n);
      if IsEnabled(Reached(name, init), actions[|actions| - 1]) {
        CloseIsFinalStep(Reached(name, init), actions[|actions| - 1]);
      }
    }
  }

  /**
   A rotation replaces the client of the profile that failed by one of the profile it picked. The
   check is by name only: see `ReplacesAnotherIff` for when that is not the client that failed.
   */
  lemma RotationReplacesTheFailed(name: string, actions: seq<Action>, t: nat)
    requires IsRun(name, actions)
    requires var s := Reached(name, actions); IsEnabled(s, Swap(t)) && s.rc.Some?
    ensures var s := Reached(name, actions);
            var s' := Step(s, Swap(t));
            && s.rc.value in s.clients && s.clients[s.rc.value].profile == s.threads[t].failed
            && s'.rc == Some(s.threads[t].client) && s'.activeName == s.clients[s.threads[t].client].profile
            && s'.threads[t] == Releasing(s.rc.value, Unlock)
  {
    ReachedInv(name, actions);
    assert IsThreadOk(Reached(name, actions), t);
  }

  // ---------------------------------------------------------------------------------------------
  // Which client a rotation replaces
  // ---------------------------------------------------------------------------------------------

  /** The step puts a new client in place; a rotation that lost to Close does not. */
  predicate Swaps(s: State, a: Action) {
    a.Swap? && IsEnabled(s, a) && s.rc.Some?
  }

  /** The profile picked by the last swap after step `b`, if there was one. */
  ghost function LastSwap(name: string, actions: seq<Action>, b: nat): Option<string> {
    if |actions| <= b + 1 then None
    else
      var init, a := actions[..|actions| - 1], actions[|actions| - 1];
      var s := Reached(name, init);
      if Swaps(s, a) then Some(s.clients[s.threads[a.t].client].profile) else LastSwap(name, init, b)
  }

  /** Step `b` is the goroutine's latest Begin, and it acquired a client. */
  ghost predicate IsAttempt(name: string, actions: seq<Action>, b: nat, t: nat) {
    && b < |actions| && actions[b] == Begin(t) && Reached(name, actions[..b]).rc.Some?
    && forall j | b < j < |actions| :: actions[j] != Begin(t)
  }

  /** Wherever the goroutine has got to, it remembers the client and the name it began with. */
  predicate Remembers(pc: Pc, used: nat, failed: string) {
    match pc
    case Using(client, name) => client == used && name == failed
    case Releasing(_, andThen) => andThen.Rotate? ==> andThen == Rotate(failed, used)
    case Closing(_, andThen) => andThen.Rotate? ==> andThen == Rotate(failed, used)
    case WantsRotation(f, u) => f == failed && u == used
    case Checking(f, u) => f == failed && u == used
    case Picking(f, u) => f == failed && u == used
    case Creating(f, u, _) => f == failed && u == used
    case Swapping(f, u, _) => f == failed && u == used
    case _ => true
  }

  /** What the swaps since an attempt on `used` began have left in place. */
  ghost predicate IsTraced(s: State, t: nat, used: nat, failed: string, last: Option<string>) {
    && t in s.threads && Remembers(s.threads[t], used, failed)
    && used in s.clients && s.clients[used].stage == Wrapped
    && (match last
        case None => s.activeName == failed && (s.rc == None || s.rc == Some(used))
        case Some(profile) => s.activeName == profile && s.rc != Some(used))
  }

  lemma StepRemembers(s: State, a: Action, t: nat, used: nat, failed: string)
    requires IsEnabled(s, a) && a != Begin(t) && t in s.threads && Remembers(s.threads[t], used, failed)
    ensures t in Step(s, a).threads && Remembers(Step(s, a).threads[t], used, failed)
  {
  }

  /** Only a swap changes the active name; only a swap or Close changes the pool's reference. */
  lemma StepKeepsPlace(s: State, a: Action)
    requires IsEnabled(s, a) && !Swaps(s, a)
    ensures Step(s, a).activeName == s.activeName && Step(s, a).rc in {None, s.rc}
  {
  }

  lemma StepKeepsWrapped(s: State, a: Action, c: nat)
    requires Inv(s) && IsEnabled(s, a) && c in s.clients && s.clients[c].stage == Wrapped
    ensures c in Step(s, a).clients && Step(s, a).clients[c].stage == Wrapped
  {
    if a.Discard? {
      assert IsThreadOk(s, a.t);
    }
  }

  lemma SwapIsNew(s: State, a: Action, c: nat)
    requires Inv(s) && Swaps(s, a) && c in s.clients && s.clients[c].stage == Wrapped
    ensures var made := s.threads[a.t].client;
            Step(s, a).rc == Some(made) && made != c && Step(s, a).activeName == s.clients[made].profile
  {
    assert IsThreadOk(s, a.t);
  }

  lemma StepIsTraced(s: State, a: Action, t: nat, used: nat, failed: string, last: Option<string>)
    requires Inv(s) && IsEnabled(s, a) && a != Begin(t) && IsTraced(s, t, used, failed, last)
    ensures IsTraced(Step(s, a), t, used, failed,
                     if Swaps(s, a) then Some(s.clients[s.threads[a.t].client].profile) else last)
  {
    StepRemembers(s, a, t, used, failed);
    StepKeepsWrapped(s, a, used);
    if Swaps(s, a) {
      SwapIsNew(s, a, used);
    } else {
      StepKeepsPlace(s, a);
    }
  }

  lemma {:induction false} AttemptIsTraced(name: string, actions: seq<Action>, b: nat, t: nat)
    requires IsRun(name, actions) && IsAttempt(name, actions, b, t)
    ensures var began := Reached(name, actions[..b]);
            began.rc.Some? && IsTraced(Reached(name, actions), t, began.rc.value, began.activeName, LastSwap(name, actions, b))
    decreases |actions|
  {
    var init, a := actions[..|actions| - 1], actions[|actions| - 1];
    var s, began := Reached(name, init), Reached(name, actions[..b]);
    ReachedInv(name, init);
    if b < |init| {
      assert init[..b] == actions[..b];
      AttemptIsTraced(name, init, b, t);
      StepIsTraced(s, a, t, began.rc.value, began.activeName, LastSwap(name, init, b));
    } else {
      assert init == actions[..b];
    }
  }

  /**
   The check compares names. A goroutine whose call failed finds another client in place exactly when
   a swap happened since its Begin, and passes the check exactly when there was none or the last one
   picked the failed profile again.
   */
  lemma PassesCheckIff(name: string, actions: seq<Action>, b: nat, t: nat)
    requires IsRun(name, actions) && IsAttempt(name, actions, b, t)
    requires IsEnabled(Reached(name, actions), CheckName(t))
    ensures var s, began := Reached(name, actions), Reached(name, actions[..b]);
            var pc := s.threads[t];
            && Some(pc.used) == began.rc && pc.failed == began.activeName
            && (s.rc.Some? ==> (s.rc.value != pc.used <==> LastSwap(name, actions, b).Some?))
            && (Step(s, CheckName(t)).threads[t].Picking? <==> LastSwap(name, actions, b) in {None, Some(pc.failed)})
  {
    AttemptIsTraced(name, actions, b, t);
  }

  /**
   A rotation replaces a client other than the one that failed exactly when a swap happened since its
   goroutine's Begin and the last such swap picked the failed profile again.
   */
  lemma ReplacesAnotherIff(name: string, actions: seq<Action>, b: nat, t: nat)
    requires IsRun(name, actions) && IsAttempt(name, actions, b, t)
    requires Swaps(Reached(name, actions), Swap(t))
    ensures var s := Reached(name, actions);
            s.rc.value != s.threads[t].used <==> LastSwap(name, actions, b) == Some(s.threads[t].failed)
  {
    ReachedInv(name, actions);
    AttemptIsTraced(name, actions, b, t);
    assert IsThreadOk(Reached(name, actions), t);
  }

  lemma RunNext(name: string, actions: seq<Action>, a: Action) returns (longer: seq<Action>)
    requires IsRun(name, actions) && IsEnabled(Reached(name, actions), a)
    ensures longer == actions + [a] && IsRun(name, longer) && Reached(name, longer) == Step(Reached(name, actions), a)
  {
    longer := actions + [a];
    assert longer[..|longer| - 1] == actions;
  }

  /** Both goroutines' calls on client 0 failed, and both want to rotate. */
  const BOTH_FAIL := [
    Spawn(1), Spawn(2), Begin(1), Begin(2), Finish(1, true), Finish(2, true), Release(1), Release(2)]

  function BothUsing(name: string): State {
    State(map[0 := Client(name, Wrapped, 3, false, 0)], Some(0), name, map[1 := Using(0, name), 2 := Using(0, name)], None)
  }

  function BothWaiting(name: string): State {
    State(map[0 := Client(name, Wrapped, 1, false, 0)], Some(0), name,
          map[1 := WantsRotation(name, 0), 2 := WantsRotation(name, 0)], None)
  }

  lemma BothBegin(name: string) returns (r: seq<Action>)
    ensures r == BOTH_FAIL[..4] && IsRun(name, r) && Reached(name, r) == BothUsing(name)
  {
    r := RunNext(name, [], Spawn(1));
    r := RunNext(name, r, Spawn(2));
    r := RunNext(name, r, Begin(1));
    r := RunNext(name, r, Begin(2));
  }

  function BothReleasing(name: string): State {
    BothUsing(name).(threads := map[1 := Releasing(0, Rotate(name, 0)), 2 := Releasing(0, Rotate(name, 0))])
  }

  lemma BothFinish(name: string)
    ensures IsRun(name, BOTH_FAIL[..6]) && Reached(name, BOTH_FAIL[..6]) == BothReleasing(name)
  {
    var r := BothBegin(name);
    r := RunNext(name, r, Finish(1, true));
    r := RunNext(name, r, Finish(2, true));
    assert r == BOTH_FAIL[..6];
  }

  lemma BothFail(name: string)
    ensures IsRun(name, BOTH_FAIL) && Reached(name, BOTH_FAIL) == BothWaiting(name)
  {
    BothFinish(name);
    var r := RunNext(name, BOTH_FAIL[..6], Release(1));
    r := RunNext(name, r, Release(2));
    assert r == BOTH_FAIL;
  }

  function FirstSwapping(name: string): State {
    State(map[0 := Client(name, Wrapped, 1, false, 0), 1 := Client(name, Raw, 0, false, 0)], Some(0), name,
          map[1 := Swapping(name, 0, 1), 2 := WantsRotation(name, 0)], Some(1))
  }

  function FirstDone(name: string): State {
    State(map[0 := Client(name, Wrapped, 0, true, 1), 1 := Client(name, Wrapped, 1, false, 0)], Some(1), name,
          map[1 := Idle, 2 := WantsRotation(name, 0)], None)
  }

  /** A continuation of that run in which nobody begins a call. */
  ghost predicate IsContinued(name: string, r: seq<Action>) {
    IsRun(name, r) && BOTH_FAIL <= r && forall k | |BOTH_FAIL| <= k < |r| :: !r[k].Begin?
  }

  lemma Continue(name: string, r: seq<Action>, a: Action) returns (longer: seq<Action>)
    requires IsContinued(name, r) && IsEnabled(Reached(name, r), a) && !a.Begin?
    ensures IsContinued(name, longer) && Reached(name, longer) == Step(Reached(name, r), a)
  {
    longer := RunNext(name, r, a);
  }

  lemma FirstPicks(name: string) returns (r: seq<Action>)
    ensures IsContinued(name, r)
    ensures Reached(name, r) == BothWaiting(name).(
              threads := map[1 := Creating(name, 0, name), 2 := WantsRotation(name, 0)], rotateMu := Some(1))
  {
    BothFail(name);
    r := Continue(name, BOTH_FAIL, LockRotation(1));
    r := Continue(name, r, CheckName(1));
    r := Continue(name, r, Pick(1, Some(name)));
  }

  lemma FirstCreates(name: string) returns (r: seq<Action>)
    ensures IsContinued(name, r) && Reached(name, r) == FirstSwapping(name)
  {
    r := FirstPicks(name);
    r := Continue(name, r, Create(1, Some(1)));
  }

  function FirstReleasing(name: string): State {
    State(map[0 := Client(name, Wrapped, 1, false, 0), 1 := Client(name, Wrapped, 1, false, 0)], Some(1), name,
          map[1 := Releasing(0, Unlock), 2 := WantsRotation(name, 0)], Some(1))
  }

  lemma FirstSwaps(name: string) returns (r: seq<Action>)
    ensures IsContinued(name, r) && Reached(name, r) == FirstReleasing(name)
  {
    r := FirstCreates(name);
    r := Continue(name, r, Swap(1));
  }

  function FirstClosing(name: string): State {
    State(map[0 := Client(name, Wrapped, 0, false, 0), 1 := Client(name, Wrapped, 1, false, 0)], Some(1), name,
          map[1 := Closing(0, Unlock), 2 := WantsRotation(name, 0)], Some(1))
  }

  lemma FirstReleases(name: string) returns (r: seq<Action>)
    ensures IsContinued(name, r) && Reached(name, r) == FirstClosing(name)
  {
    r := FirstSwaps(name);
    r := Continue(name, r, Release(1));
  }

  /** The first rotates to a new client of the same profile, which is available again. */
  lemma FirstRotates(name: string) returns (r: seq<Action>)
    ensures IsContinued(name, r) && Reached(name, r) == FirstDone(name)
  {
    r := FirstReleases(name);
    r := Continue(name, r, RunClose(1));
  }

  function SecondSwapping(name: string): State {
    State(FirstDone(name).clients[2 := Client(name, Raw, 0, false, 0)], Some(1), name,
          map[1 := Idle, 2 := Swapping(name, 0, 2)], Some(2))
  }

  lemma AttemptOfTwo(name: string, r: seq<Action>)
    requires IsContinued(name, r)
    ensures IsAttempt(name, r, 3, 2) && forall k | 4 <= k < |r| :: !r[k].Begin?
  {
    var q := RunNext(name, [], Spawn(1));
    q := RunNext(name, q, Spawn(2));
    q := RunNext(name, q, Begin(1));
    assert q == r[..3];
  }

  /**
   A run in which a rotation swaps out a client that never failed: two calls on one client fail, the
   first goroutine's rotation gets the same profile again, and the second one's passes the check. The
   pool may hand out a profile both calls marked as failed, also if it is the only one: its cooldown is
   over, or a third call on client 0 succeeded meanwhile (`AuthPool.FailedComesBack`).
   */
  lemma HealthyClientIsReplaced(name: string) returns (r: seq<Action>)
    ensures IsRun(name, r) && IsAttempt(name, r, 3, 2) && forall k | 4 <= k < |r| :: !r[k].Begin?
    ensures Reached(name, r) == SecondSwapping(name) && SecondSwapping(name).clients[1] == Client(name, Wrapped, 1, false, 0)
    ensures IsEnabled(SecondSwapping(name), Swap(2))
    ensures var s' := Step(SecondSwapping(name), Swap(2)); s'.rc == Some(2) && s'.threads[2] == Releasing(1, Unlock)
  {
    r := FirstRotates(name);
    r := Continue(name, r, LockRotation(2));
    r := Continue(name, r, CheckName(2));
    r := Continue(name, r, Pick(2, Some(name)));
    r := Continue(name, r, Create(2, Some(2)));
    AttemptOfTwo(name, r);
  }

  /** Rotations are serialized: two goroutines are never inside one at the same time. */
  lemma RotationsAreSerialized(name: string, actions: seq<Action>, t: nat, u: nat)
    requires IsRun(name, actions)
    requires var s := Reached(name, actions);
             t in s.threads && u in s.threads && HoldsRotateMu(s.threads[t]) && HoldsRotateMu(s.threads[u])
    ensures t == u
  {
    ReachedInv(name, actions);
    var s := Reached(name, actions);
    assert IsThreadOk(s, t) && IsThreadOk(s, u);
  }

  /** A step that brings its goroutine nearer to being idle. */
  predicate IsFinishing(a: Action) {
    !(a.Spawn? || a.Begin? || a.Call? || a.Close?)
  }

  function Finisher(pc: Pc, t: nat): Action {
    match pc
    case Idle => Begin(t)
    case Using(_, _) => Finish(t, false)
    case Releasing(_, _) => Release(t)
    case Closing(_, _) => RunClose(t)
    case WantsRotation(_, _) => LockRotation(t)
    case Checking(_, _) => CheckName(t)
    case Picking(_, _) => Pick(t, None)
    case Creating(_, _, _) => Create(t, None)
    case Swapping(_, _, _) => Swap(t)
    case Discarding(_) => Discard(t)
  }

  /** No deadlock: as long as a goroutine is busy, it or the one holding rotateMu can finish a step. */
  lemma BusyCanMove(name: string, actions: seq<Action>, t: nat)
    requires IsRun(name, actions)
    requires var s := Reached(name, actions); t in s.threads && !s.threads[t].Idle?
    ensures var s := Reached(name, actions);
            exists u :: u in s.threads && IsFinishing(Finisher(s.threads[u], u)) && IsEnabled(s, Finisher(s.threads[u], u))
  {
    ReachedInv(name, actions);
    var s := Reached(name, actions);
    var u := if s.threads[t].WantsRotation? && s.rotateMu.Some? then s.rotateMu.value else t;
    assert IsThreadOk(s, u);
    assert IsFinishing(Finisher(s.threads[u], u)) && IsEnabled(s, Finisher(s.threads[u], u));
  }
}
