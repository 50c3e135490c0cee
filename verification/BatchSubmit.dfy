/**
 At-most-once batch submission (provider/openaibatch: openaibatch.go Submit, rest.go Recover).

 The provider is a parameter: `Server` answers each request as a function of how many came before,
 and may fail any of them, a create before or after it took effect. `Remote` is the provider's state
 as a value and `Api` keeps it on the heap. A handle is the identity part of a batch.
 */
module BatchSubmit {
  import opened Decimals
  import opened Sequences
  import opened Wrappers

  const PAGE_SIZE := 100
  const MAX_PAGES := 10
  const MAX_KEY_BYTES := 128

  /** `valid` is what toHandle checks: a known status and endpoint, well-formed IDs and counts. */
  datatype Batch = Batch(id: string, endpoint: string, key: string, digest: string, valid: bool)

  datatype Handle = Handle(id: string, endpoint: string, key: string, digest: string)

  /** `cursor` is the page's last_id with surrounding space trimmed. */
  datatype Page = Page(data: seq<Batch>, hasMore: bool, cursor: string)

  datatype Error =
    | InvalidRequest | InvalidKey | NotFound | Conflict | RequestFailed | InvalidBatch | BadCursor | TooManyPages
    | Joined(first: Error, second: Error)

  datatype Result = Ok(handle: Handle) | Err(error: Error)

  /** `acceptable` is everything Submit checks about options and items before the network. */
  datatype Request = Request(key: string, digest: string, endpoint: string, acceptable: bool)

  /** A failed create took effect never, before its error, or some time after it. */
  datatype Fault = NoFault | BeforeEffect | AfterEffect | Delayed

  datatype Server = Server(
    list: (nat, seq<Batch>, string) -> Option<Page>,
    uploads: nat -> bool,
    fault: nat -> Fault,
    made: (nat, seq<Batch>, Request) -> Batch)

  /** `delayed` are creates that were reported failed and have yet to land. */
  datatype Remote = Remote(batches: seq<Batch>, delayed: seq<Batch>, calls: nat)

  function HandleOf(b: Batch): Handle {
    Handle(b.id, b.endpoint, b.key, b.digest)
  }

  predicate IsAlphanumeric(c: char) {
    'A' <= c <= 'Z' || 'a' <= c <= 'z' || '0' <= c <= '9'
  }

  predicate IsRecoveryKey(key: string) {
    && 0 < |key| <= MAX_KEY_BYTES && IsAlphanumeric(key[0])
    && forall i | 0 <= i < |key| :: IsAlphanumeric(key[i]) || key[i] in "._:-"
  }

  // ---------------------------------------------------------------------------------------------
  // Recover
  // ---------------------------------------------------------------------------------------------

  datatype Scan = Scanning(found: Option<Handle>) | Stopped(error: Error)

  function ScanBatch(before: Scan, b: Batch, key: string): Scan {
    if before.Stopped? || b.key != key then before
    else if !b.valid then Stopped(InvalidBatch)
    else if before.found.Some? && before.found.value.id != b.id then Stopped(Conflict)
    else Scanning(Some(HandleOf(b)))
  }

  function ScanAll(batches: seq<Batch>, key: string, found: Option<Handle>): Scan {
    if batches == [] then Scanning(found)
    else ScanBatch(ScanAll(batches[..|batches| - 1], key, found), batches[|batches| - 1], key)
  }

  function Verdict(s: Scan): Result {
    match s
    case Stopped(e) => Err(e)
    case Scanning(None) => Err(NotFound)
    case Scanning(Some(h)) => Ok(h)
  }

  datatype Recovery = Recovery(calls: nat, result: Result)

  datatype PageStep = More(found: Option<Handle>, cursor: string) | Finished(result: Result)

  function ScanPage(answer: Option<Page>, key: string, after: string, found: Option<Handle>): PageStep {
    if answer == None then Finished(Err(RequestFailed))
    else
      var p := answer.value;
      var scan := ScanAll(p.data, key, found);
      if scan.Stopped? || !p.hasMore then Finished(Verdict(scan))
      else if p.cursor == "" || p.cursor == after then Finished(Err(BadCursor))
      else More(scan.found, p.cursor)
  }

  function ScanFrom(server: Server, r: Remote, key: string, after: string, page: nat, found: Option<Handle>): Recovery
    requires page <= MAX_PAGES
    decreases MAX_PAGES - page
  {
    if page == MAX_PAGES then Recovery(r.calls, Err(TooManyPages))
    else
      match ScanPage(server.list(r.calls, r.batches, after), key, after, found)
      case Finished(result) => Recovery(r.calls + 1, result)
      case More(more, cursor) => ScanFrom(server, r.(calls := r.calls + 1), key, cursor, page + 1, more)
  }

  function Recovered(server: Server, r: Remote, key: string): Recovery {
    if IsRecoveryKey(key) then ScanFrom(server, r, key, "", 0, None) else Recovery(r.calls, Err(InvalidKey))
  }

  // ---------------------------------------------------------------------------------------------
  // Submit
  // ---------------------------------------------------------------------------------------------

  function Required(h: Handle, req: Request): Result {
    if h.key == req.key && h.digest == req.digest && h.endpoint == req.endpoint then Ok(h) else Err(Conflict)
  }

  function Created(server: Server, r: Remote, req: Request): (Remote, Result) {
    var b := server.made(r.calls, r.batches, req);
    var next := r.(calls := r.calls + 1);
    match server.fault(r.calls)
    case NoFault => (next.(batches := [b] + r.batches), if b.valid then Ok(HandleOf(b)) else Err(InvalidBatch))
    case BeforeEffect => (next, Err(RequestFailed))
    case AfterEffect => (next.(batches := [b] + r.batches), Err(RequestFailed))
    case Delayed => (next.(delayed := r.delayed + [b]), Err(RequestFailed))
  }

  function Dispatched(server: Server, r: Remote, req: Request): (Remote, Result) {
    var uploaded := r.(calls := r.calls + 1);
    if !server.uploads(r.calls) then (uploaded, Err(RequestFailed))
    else
      var (s, created) := Created(server, uploaded, req);
      if req.key == "" then (s, created)
      else if created.Ok? then (s, Required(created.handle, req))
      else
        var again := Recovered(server, s, req.key);
        var result :=
          if again.result.Ok? then Required(again.result.handle, req)
          else if again.result.error == NotFound then created
          else Err(Joined(created.error, again.result.error));
        (s.(calls := again.calls), result)
  }

  function Submitted(server: Server, r: Remote, req: Request): (Remote, Result) {
    if !req.acceptable then (r, Err(InvalidRequest))
    else if req.key == "" then Dispatched(server, r, req)
    else
      var known := Recovered(server, r, req.key);
      var s := r.(calls := known.calls);
      if known.result.Ok? then (s, Required(known.result.handle, req))
      else if known.result.error == NotFound then Dispatched(server, s, req)
      else (s, known.result)
  }

  // ---------------------------------------------------------------------------------------------
  // The methods
  // ---------------------------------------------------------------------------------------------

  class Api {
    const server: Server
    var batches: seq<Batch>
    var delayed: seq<Batch>
    var calls: nat

    ghost function View(): Remote
      reads this
    {
      Remote(batches, delayed, calls)
    }

    constructor (server: Server, batches: seq<Batch>)
      ensures this.server == server && View() == Remote(batches, [], 0)
    {
      this.server, this.batches, delayed, calls := server, batches, [], 0;
    }

    method ListBatches(after: string) returns (page: Option<Page>)
      modifies this`calls
      ensures page == server.list(old(calls), batches, after) && calls == old(calls) + 1
    {
      page := server.list(calls, batches, after);
      calls := calls + 1;
    }

    method UploadFile() returns (ok: bool)
      modifies this`calls
      ensures ok == server.uploads(old(calls)) && calls == old(calls) + 1
    {
      ok := server.uploads(calls);
      calls := calls + 1;
    }

    method CreateBatch(req: Request) returns (result: Result)
      modifies this
      ensures (View(), result) == Created(server, old(View()), req)
    {
      var b := server.made(calls, batches, req);
      var fault := server.fault(calls);
      calls := calls + 1;
      match fault {
        case NoFault =>
          batches := [b] + batches;
          result := if b.valid then Ok(HandleOf(b)) else Err(InvalidBatch);
        case BeforeEffect => result := Err(RequestFailed);
        case AfterEffect =>
          batches := [b] + batches;
          result := Err(RequestFailed);
        case Delayed =>
          delayed := delayed + [b];
          result := Err(RequestFailed);
      }
    }

    method ScanData(data: seq<Batch>, key: string, before: Option<Handle>)
      returns (found: Option<Handle>, error: Option<Error>)
      ensures ScanAll(data, key, before) == if error.Some? then Stopped(error.value) else Scanning(found)
    {
      found, error := before, None;
      var i := 0;
      while i < |data|
        invariant i <= |data| && ScanAll(data[..i], key, before) == Scanning(found)
      {
        var b := data[i];
        TakeNext(data, i);
        i := i + 1;
        if b.key != key {
          continue;
        }
        if !b.valid || (found.Some? && found.value.id != b.id) {
          ScanStops(data, key, before, i);
          return found, Some(if b.valid then Conflict else InvalidBatch);
        }
        found := Some(HandleOf(b));
      }
      assert data[..|data|] == data;
    }

    method ScanOnePage(key: string, after: string, before: Option<Handle>) returns (step: PageStep)
      modifies this`calls
      ensures step == ScanPage(server.list(old(calls), batches, after), key, after, before) && calls == old(calls) + 1
    {
      var inventory := ListBatches(after);
      if inventory.None? {
        return Finished(Err(RequestFailed));
      }
      var found, error := ScanData(inventory.value.data, key, before);
      if error.Some? {
        return Finished(Err(error.value));
      }
      if !inventory.value.hasMore {
        return Finished(if found.None? then Err(NotFound) else Ok(found.value));
      }
      var next := inventory.value.cursor;
      if next == "" || next == after {
        return Finished(Err(BadCursor));
      }
      step := More(found, next);
    }

    /** Scans to the last page even after a match, so that a second batch with the key is noticed. */
    method Recover(key: string) returns (result: Result)
      modifies this`calls
      ensures Recovery(calls, result) == Recovered(server, old(View()), key)
    {
      if !IsRecoveryKey(key) {
        return Err(InvalidKey);
      }
      var found: Option<Handle> := None;
      var after := "";
      var page := 0;
      while page < MAX_PAGES
        invariant page <= MAX_PAGES && batches == old(batches) && delayed == old(delayed)
        invariant ScanFrom(server, View(), key, after, page, found) == Recovered(server, old(View()), key)
      {
        var step := ScanOnePage(key, after, found);
        if step.Finished? {
          return step.result;
        }
        found, after := step.found, step.cursor;
        page := page + 1;
      }
      result := Err(TooManyPages);
    }

    method Dispatch(req: Request) returns (result: Result)
      modifies this
      ensures (View(), result) == Dispatched(server, old(View()), req)
    {
      var ok := UploadFile();
      if !ok {
        return Err(RequestFailed);
      }
      var created := CreateBatch(req);
      if req.key == "" {
        return created;
      }
      if created.Ok? {
        return Required(created.handle, req);
      }
      var again := Recover(req.key);
      match again {
        case Ok(h) => result := Required(h, req);
        case Err(e) => result := if e == NotFound then created else Err(Joined(created.error, e));
      }
    }

    method Submit(req: Request) returns (result: Result)
      modifies this
      ensures (View(), result) == Submitted(server, old(View()), req)
    {
      if !req.acceptable {
        return Err(InvalidRequest);
      }
      if req.key != "" {
        var known := Recover(req.key);
        if known.Ok? {
          return Required(known.handle, req);
        }
        if known.error != NotFound {
          return known;
        }
      }
      result := Dispatch(req);
    }
  }

  lemma {:induction false} ScanStops(batches: seq<Batch>, key: string, found: Option<Handle>, n: nat)
    requires n <= |batches| && ScanAll(batches[..n], key, found).Stopped?
    ensures ScanAll(batches, key, found) == ScanAll(batches[..n], key, found)
    decreases |batches|
  {
    if n == |batches| {
      assert batches[..n] == batches;
    } else {
      assert batches[..|batches| - 1][..n] == batches[..n];
      ScanStops(batches[..|batches| - 1], key, found, n);
    }
  }

  // ---------------------------------------------------------------------------------------------
  // What a scan finds
  // ---------------------------------------------------------------------------------------------

  function Count(batches: seq<Batch>, key: string): nat {
    if batches == [] then 0
    else Count(batches[..|batches| - 1], key) + if batches[|batches| - 1].key == key then 1 else 0
  }

  lemma {:induction false} CountConcat(a: seq<Batch>, b: seq<Batch>, key: string)
    ensures Count(a + b, key) == Count(a, key) + Count(b, key)
  {
    if b == [] {
      assert a + b == a;
    } else {
      SplitLast(b);
      assert a + b == (a + b[..|b| - 1]) + [b[|b| - 1]];
      DropAppended(a + b[..|b| - 1], b[|b| - 1]);
      CountConcat(a, b[..|b| - 1], key);
    }
  }

  lemma CountPrepended(b: Batch, batches: seq<Batch>, key: string)
    ensures Count([b] + batches, key) == Count(batches, key) + if b.key == key then 1 else 0
  {
    CountConcat([b], batches, key);
    DropAppended([], b);
    assert [] + [b] == [b];
  }

  lemma {:induction false} CountNone(batches: seq<Batch>, key: string)
    ensures Count(batches, key) == 0 <==> forall k | 0 <= k < |batches| :: batches[k].key != key
  {
    if batches != [] {
      var init := batches[..|batches| - 1];
      CountNone(init, key);
      assert forall k | 0 <= k < |init| :: init[k] == batches[k];
    }
  }

  lemma {:induction false} ScanConcat(a: seq<Batch>, b: seq<Batch>, key: string, found: Option<Handle>)
    ensures ScanAll(a + b, key, found) ==
            match ScanAll(a, key, found) case Stopped(e) => Stopped(e) case Scanning(f) => ScanAll(b, key, f)
  {
    if b == [] {
      assert a + b == a;
    } else {
      SplitLast(b);
      assert a + b == (a + b[..|b| - 1]) + [b[|b| - 1]];
      DropAppended(a + b[..|b| - 1], b[|b| - 1]);
      ScanConcat(a, b[..|b| - 1], key, found);
    }
  }

  ghost predicate AllNamed(batches: seq<Batch>, key: string, id: string) {
    forall k | 0 <= k < |batches| && batches[k].key == key :: batches[k].id == id
  }

  /** A scan that found something found the only ID with the key, and saw it last under `h`. */
  lemma {:induction false} ScanFinds(batches: seq<Batch>, key: string, found: Option<Handle>)
    requires ScanAll(batches, key, found).Scanning?
    ensures var f := ScanAll(batches, key, found).found;
            if f == None then found == None && Count(batches, key) == 0
            else
              && AllNamed(batches, key, f.value.id)
              && (found.Some? ==> found.value.id == f.value.id)
              && (f == found || exists k :: 0 <= k < |batches| && batches[k].key == key && HandleOf(batches[k]) == f.value)
  {
    if batches != [] {
      var init, n := batches[..|batches| - 1], |batches| - 1;
      ScanFinds(init, key, found);
      assert forall k | 0 <= k < n :: init[k] == batches[k];
      if batches[n].key == key {
        CountNone(init, key);
      }
    }
  }

  // ---------------------------------------------------------------------------------------------
  // An honest provider
  // ---------------------------------------------------------------------------------------------

  function IndexFrom(batches: seq<Batch>, id: string, from: nat): (i: nat)
    requires from <= |batches|
    ensures from <= i <= |batches|
    ensures i < |batches| ==> batches[i].id == id
    ensures forall k | from <= k < i :: batches[k].id != id
    decreases |batches| - from
  {
    if from == |batches| || batches[from].id == id then from else IndexFrom(batches, id, from + 1)
  }

  function IndexOf(batches: seq<Batch>, id: string): (i: nat)
    ensures i <= |batches|
  {
    IndexFrom(batches, id, 0)
  }

  /** Where the page after a cursor starts. */
  function StartOf(batches: seq<Batch>, after: string): (i: nat)
    ensures i <= |batches|
  {
    if after == "" then 0 else if IndexOf(batches, after) < |batches| then IndexOf(batches, after) + 1 else |batches|
  }

  function PageOf(batches: seq<Batch>, after: string): Page {
    var start := StartOf(batches, after);
    var end := if start + PAGE_SIZE < |batches| then start + PAGE_SIZE else |batches|;
    Page(batches[start..end], end < |batches|, if end > start then batches[end - 1].id else "")
  }

  /** Lists are pages of the inventory unless the request fails; a create makes what was asked for. */
  ghost predicate IsHonest(server: Server) {
    && (forall n: nat, batches: seq<Batch>, after: string ::
          server.list(n, batches, after) == None || server.list(n, batches, after) == Some(PageOf(batches, after)))
    && (forall n: nat, batches: seq<Batch>, req: Request ::
          var b := server.made(n, batches, req);
          b.key == req.key && b.endpoint == req.endpoint && (req.key != "" ==> b.digest == req.digest))
  }

  ghost predicate IsFound(batches: seq<Batch>, key: string, h: Handle) {
    exists k :: 0 <= k < |batches| && batches[k].key == key && HandleOf(batches[k]) == h
  }

  lemma FoundInPage(batches: seq<Batch>, i: nat, j: nat, key: string, h: Handle)
    requires i <= j <= |batches| && IsFound(batches[i..j], key, h)
    ensures IsFound(batches, key, h)
  {
    var k :| 0 <= k < j - i && batches[i..j][k].key == key && HandleOf(batches[i..j][k]) == h;
    assert batches[i + k].key == key && HandleOf(batches[i + k]) == h;
  }

  lemma PageIsSound(batches: seq<Batch>, key: string, after: string, found: Option<Handle>)
    requires ScanAll(PageOf(batches, after).data, key, found).Scanning?
    ensures var f, start, n := ScanAll(PageOf(batches, after).data, key, found).found, StartOf(batches, after), |PageOf(batches, after).data|;
            if f == None then found == None && forall k | start <= k < start + n :: batches[k].key != key
            else
              && (forall k | start <= k < start + n && batches[k].key == key :: batches[k].id == f.value.id)
              && (found.Some? ==> found.value.id == f.value.id)
              && (f == found || IsFound(batches, key, f.value))
  {
    var p, start := PageOf(batches, after), StartOf(batches, after);
    ScanFinds(p.data, key, found);
    CountNone(p.data, key);
    var f := ScanAll(p.data, key, found).found;
    forall k | start <= k < start + |p.data| ensures batches[k] == p.data[k - start] {
    }
    if f.Some? && f != found {
      assert IsFound(p.data, key, f.value);
      FoundInPage(batches, start, start + |p.data|, key, f.value);
    }
  }

  /** What a scan from a cursor on says about the rest of the inventory. */
  ghost predicate Covers(batches: seq<Batch>, start: nat, key: string, found: Option<Handle>, result: Result) {
    if result.Ok? then
      && (forall k | start <= k < |batches| && batches[k].key == key :: batches[k].id == result.handle.id)
      && (found.Some? ==> found.value.id == result.handle.id)
      && (found == Some(result.handle) || IsFound(batches, key, result.handle))
    else
      result.error == NotFound ==> found == None && forall k | start <= k < |batches| :: batches[k].key != key
  }

  lemma CoversNext(batches: seq<Batch>, key: string, after: string, found: Option<Handle>, result: Result)
    requires var scan, p := ScanAll(PageOf(batches, after).data, key, found), PageOf(batches, after);
             && scan.Scanning?
             && if p.hasMore then p.cursor != "" && Covers(batches, StartOf(batches, p.cursor), key, scan.found, result)
                else result == Verdict(scan)
    ensures Covers(batches, StartOf(batches, after), key, found, result)
  {
    PageIsSound(batches, key, after, found);
    if PageOf(batches, after).hasMore {
      CursorCovers(batches, after);
    }
  }

  lemma CoversStep(batches: seq<Batch>, key: string, after: string, found: Option<Handle>, result: Result)
    requires var step := ScanPage(Some(PageOf(batches, after)), key, after, found);
             if step.More? then Covers(batches, StartOf(batches, step.cursor), key, step.found, result)
             else result == step.result
    ensures Covers(batches, StartOf(batches, after), key, found, result)
  {
    var p := PageOf(batches, after);
    NotFoundNeverStops(p.data, key, found);
    if ScanAll(p.data, key, found).Scanning? && !(p.hasMore && (p.cursor == "" || p.cursor == after)) {
      CoversNext(batches, key, after, found, result);
    }
  }

  lemma {:induction false} ScanIsSound(server: Server, r: Remote, key: string, after: string, page: nat, found: Option<Handle>)
    requires IsHonest(server) && page <= MAX_PAGES
    ensures Covers(r.batches, StartOf(r.batches, after), key, found, ScanFrom(server, r, key, after, page, found).result)
    decreases MAX_PAGES - page
  {
    if page < MAX_PAGES && server.list(r.calls, r.batches, after).Some? {
      assert server.list(r.calls, r.batches, after) == Some(PageOf(r.batches, after));
      var step := ScanPage(Some(PageOf(r.batches, after)), key, after, found);
      if step.More? {
        ScanIsSound(server, r.(calls := r.calls + 1), key, step.cursor, page + 1, step.found);
      }
      CoversStep(r.batches, key, after, found, ScanFrom(server, r, key, after, page, found).result);
    }
  }

  /** The next page starts no later than this one ended. */
  lemma CursorCovers(batches: seq<Batch>, after: string)
    requires PageOf(batches, after).hasMore && PageOf(batches, after).cursor != ""
    ensures StartOf(batches, PageOf(batches, after).cursor) <= StartOf(batches, after) + |PageOf(batches, after).data|
  {
    var p, start := PageOf(batches, after), StartOf(batches, after);
    assert batches[start + |p.data| - 1].id == p.cursor;
    assert IndexOf(batches, p.cursor) <= start + |p.data| - 1;
  }

  /**
   Against an honest provider Recover returns a handle only if every batch with the key has its ID,
   and reports the key unknown only if no batch has it.
   */
  lemma RecoverIsSound(server: Server, r: Remote, key: string)
    requires IsHonest(server)
    ensures var result := Recovered(server, r, key).result;
            if result.Ok? then IsFound(r.batches, key, result.handle) && AllNamed(r.batches, key, result.handle.id)
            else result.error == NotFound ==> Count(r.batches, key) == 0
  {
    CountNone(r.batches, key);
    if IsRecoveryKey(key) {
      ScanIsSound(server, r, key, "", 0, None);
    }
  }

  // ---------------------------------------------------------------------------------------------
  // When Recover is exact
  // ---------------------------------------------------------------------------------------------

  predicate IsAnswered(server: Server, n: nat, batches: seq<Batch>, after: string) {
    server.list(n, batches, after) == Some(PageOf(batches, after))
  }

  ghost predicate NeverFails(server: Server, batches: seq<Batch>) {
    forall n: nat, after: string :: IsAnswered(server, n, batches, after)
  }

  ghost predicate HaveIds(batches: seq<Batch>) {
    && (forall j, k | 0 <= j < k < |batches| :: batches[j].id != batches[k].id)
    && (forall k | 0 <= k < |batches| :: batches[k].id != "")
  }

  ghost predicate IsIndexed(batches: seq<Batch>) {
    forall k | 0 <= k < |batches| :: batches[k].id != "" && IndexOf(batches, batches[k].id) == k
  }

  lemma IdsIndex(batches: seq<Batch>)
    requires HaveIds(batches)
    ensures IsIndexed(batches)
  {
    forall k | 0 <= k < |batches| ensures batches[k].id != "" && IndexOf(batches, batches[k].id) == k {
      assert batches[IndexOf(batches, batches[k].id)].id == batches[k].id;
    }
  }

  /** The cursor after the first `start` batches. */
  predicate IsCursor(batches: seq<Batch>, after: string, start: nat) {
    if start == 0 then after == "" else start < |batches| && after == batches[start - 1].id
  }

  /** The page continues the first `start` batches: full with a cursor to the next, or the last. */
  predicate Continues(batches: seq<Batch>, after: string, start: nat, p: Page) {
    && start + |p.data| <= |batches| && batches[..start + |p.data|] == batches[..start] + p.data
    && (if p.hasMore then |p.data| == PAGE_SIZE && IsCursor(batches, p.cursor, start + PAGE_SIZE) && p.cursor != "" && p.cursor != after
        else start + |p.data| == |batches| && |p.data| <= PAGE_SIZE)
  }

  lemma PageIsExact(batches: seq<Batch>, after: string, start: nat)
    requires IsIndexed(batches) && IsCursor(batches, after, start) && start <= |batches|
    ensures Continues(batches, after, start, PageOf(batches, after))
  {
    var p := PageOf(batches, after);
    if start > 0 {
      assert IndexOf(batches, after) == start - 1;
    }
    if p.hasMore {
      assert p.cursor == batches[start + PAGE_SIZE - 1].id;
      assert IndexOf(batches, p.cursor) == start + PAGE_SIZE - 1;
    }
  }

  /** What ten pages of a hundred hold. */
  const MAX_BATCHES := 1000

  predicate IsExact(batches: seq<Batch>, key: string, result: Result) {
    if |batches| <= MAX_BATCHES then result == Verdict(ScanAll(batches, key, None))
    else result.Err? && result.error != NotFound
  }

  /** Scanning on from a prefix scans the longer prefix; a scan that stops has the last word. */
  lemma ScanTake(batches: seq<Batch>, data: seq<Batch>, start: nat, key: string, found: Option<Handle>)
    requires start + |data| <= |batches| && batches[..start + |data|] == batches[..start] + data
    requires ScanAll(batches[..start], key, None) == Scanning(found)
    ensures ScanAll(batches[..start + |data|], key, None) == ScanAll(data, key, found)
    ensures ScanAll(data, key, found).Stopped? || start + |data| == |batches| ==>
              ScanAll(batches, key, None) == ScanAll(data, key, found)
  {
    ScanConcat(batches[..start], data, key, None);
    if ScanAll(data, key, found).Stopped? {
      ScanStops(batches, key, None, start + |data|);
    } else if start + |data| == |batches| {
      assert batches[..start + |data|] == batches;
    }
  }

  /** The scan read exactly the first `start` batches and goes on at `after`. */
  ghost predicate IsAt(batches: seq<Batch>, key: string, after: string, start: nat, found: Option<Handle>) {
    && IsIndexed(batches) && IsCursor(batches, after, start) && start <= |batches|
    && ScanAll(batches[..start], key, None) == Scanning(found)
  }

  lemma PageStepIsExact(batches: seq<Batch>, key: string, after: string, start: nat, found: Option<Handle>, p: Page)
    requires IsAt(batches, key, after, start, found) && Continues(batches, after, start, p)
    ensures var step := ScanPage(Some(p), key, after, found);
            if step.More? then
              start + PAGE_SIZE < |batches| && IsAt(batches, key, step.cursor, start + PAGE_SIZE, step.found)
            else
              step.result == Verdict(ScanAll(batches, key, None))
              && (step.result.Ok? || step.result.error == NotFound ==> |batches| <= start + PAGE_SIZE)
  {
    ScanTake(batches, p.data, start, key, found);
    NotFoundNeverStops(p.data, key, found);
  }

  /** One page of the scan, and what it says about the whole inventory. */
  lemma NextStep(server: Server, r: Remote, key: string, after: string, page: nat, start: nat, found: Option<Handle>)
    returns (step: PageStep)
    requires NeverFails(server, r.batches) && IsAt(r.batches, key, after, start, found) && page < MAX_PAGES
    ensures ScanFrom(server, r, key, after, page, found).result ==
            if step.Finished? then step.result
            else ScanFrom(server, r.(calls := r.calls + 1), key, step.cursor, page + 1, step.found).result
    ensures if step.More? then
              start + PAGE_SIZE < |r.batches| && IsAt(r.batches, key, step.cursor, start + PAGE_SIZE, step.found)
            else
              step.result == Verdict(ScanAll(r.batches, key, None))
              && (step.result.Ok? || step.result.error == NotFound ==> |r.batches| <= start + PAGE_SIZE)
  {
    step := ScanPage(server.list(r.calls, r.batches, after), key, after, found);
    assert IsAnswered(server, r.calls, r.batches, after);
    PageIsExact(r.batches, after, start);
    PageStepIsExact(r.batches, key, after, start, found, PageOf(r.batches, after));
  }

  lemma VerdictIsExact(batches: seq<Batch>, key: string, start: nat, result: Result)
    requires result == Verdict(ScanAll(batches, key, None)) && start + PAGE_SIZE <= MAX_BATCHES
    requires result.Ok? || result.error == NotFound ==> |batches| <= start + PAGE_SIZE
    ensures IsExact(batches, key, result)
  {
  }

  lemma {:induction false} ScanIsExact(server: Server, r: Remote, key: string, after: string, page: nat, start: nat, found: Option<Handle>)
    requires NeverFails(server, r.batches) && IsAt(r.batches, key, after, start, found)
    requires page <= MAX_PAGES && start == 100 * page && (page == MAX_PAGES ==> |r.batches| > MAX_BATCHES)
    ensures IsExact(r.batches, key, ScanFrom(server, r, key, after, page, found).result)
    decreases MAX_PAGES - page
  {
    if page < MAX_PAGES {
      var step := NextStep(server, r, key, after, page, start, found);
      if step.More? {
        ScanIsExact(server, r.(calls := r.calls + 1), key, step.cursor, page + 1, start + PAGE_SIZE, step.found);
      } else {
        VerdictIsExact(r.batches, key, start, step.result);
      }
    }
  }

  lemma {:induction false} NotFoundNeverStops(batches: seq<Batch>, key: string, found: Option<Handle>)
    ensures ScanAll(batches, key, found).Stopped? ==> ScanAll(batches, key, found).error in {InvalidBatch, Conflict}
  {
    if batches != [] {
      NotFoundNeverStops(batches[..|batches| - 1], key, found);
    }
  }

  /** Distinct valid batches: none with the key, one, or several. */
  lemma {:induction false} ScanCounts(batches: seq<Batch>, key: string)
    requires forall k | 0 <= k < |batches| :: batches[k].valid
    requires forall j, k | 0 <= j < k < |batches| :: batches[j].id != batches[k].id
    ensures var scan, n := ScanAll(batches, key, None), Count(batches, key);
            if n == 0 then scan == Scanning(None)
            else if n == 1 then scan.Scanning? && scan.found.Some? && IsFound(batches, key, scan.found.value)
            else scan == Stopped(Conflict)
  {
    if batches != [] {
      var init, n := batches[..|batches| - 1], |batches| - 1;
      assert forall k | 0 <= k < n :: init[k] == batches[k];
      ScanCounts(init, key);
      if Count(init, key) == 1 {
        var k :| 0 <= k < n && init[k].key == key && HandleOf(init[k]) == ScanAll(init, key, None).found.value;
        assert batches[k].key == key && batches[k].id != batches[n].id;
      }
    }
  }

  /**
   Against a reliable provider with at most a thousand well-formed batches, Recover succeeds exactly
   when one batch has the key, reports it unknown exactly when none has, and a conflict exactly when
   several have; with more than a thousand it neither succeeds nor reports the key unknown.
   */
  lemma RecoverIsExact(server: Server, r: Remote, key: string)
    requires NeverFails(server, r.batches) && HaveIds(r.batches) && IsRecoveryKey(key)
    requires forall k | 0 <= k < |r.batches| :: r.batches[k].valid
    ensures var result, n := Recovered(server, r, key).result, Count(r.batches, key);
            if |r.batches| > MAX_BATCHES then result.Err? && result.error != NotFound
            else if n == 0 then result == Err(NotFound)
            else if n == 1 then result.Ok? && IsFound(r.batches, key, result.handle)
            else result == Err(Conflict)
  {
    assert r.batches[..0] == [];
    IdsIndex(r.batches);
    ScanIsExact(server, r, key, "", 0, 0, None);
    ScanCounts(r.batches, key);
  }

  // ---------------------------------------------------------------------------------------------
  // Retries
  // ---------------------------------------------------------------------------------------------

  /** What happens to the provider: a call to Submit, another client's batch, a late create landing. */
  datatype Move = Submit(req: Request) | Foreign(batch: Batch) | Land

  function Played(server: Server, r: Remote, move: Move): Remote {
    match move
    case Submit(req) => Submitted(server, r, req).0
    case Foreign(batch) => r.(batches := [batch] + r.batches)
    case Land => if r.delayed == [] then r else r.(batches := [r.delayed[0]] + r.batches, delayed := r.delayed[1..])
  }

  function Play(server: Server, r: Remote, moves: seq<Move>): Remote {
    if moves == [] then r else Played(server, Play(server, r, moves[..|moves| - 1]), moves[|moves| - 1])
  }

  predicate LeavesAlone(moves: seq<Move>, key: string) {
    forall k | 0 <= k < |moves| && moves[k].Foreign? :: moves[k].batch.key != key
  }

  /** The batches with the key that the provider has or will have. */
  function Due(r: Remote, key: string): nat {
    Count(r.batches, key) + Count(r.delayed, key)
  }

  /** Dispatching reaches its create, and the create takes effect, now or later. */
  predicate Makes(server: Server, r: Remote) {
    server.uploads(r.calls) && server.fault(r.calls + 1) != BeforeEffect
  }

  /** Submit finds no batch with its key, and dispatches a create that takes effect, now or later. */
  predicate Creates(server: Server, r: Remote, req: Request) {
    && req.acceptable
    && if req.key == "" then Makes(server, r)
       else
         var known := Recovered(server, r, req.key);
         known.result == Err(NotFound) && Makes(server, r.(calls := known.calls))
  }

  lemma CreateMakes(server: Server, r: Remote, req: Request, key: string)
    requires IsHonest(server)
    ensures Due(Created(server, r, req).0, key)
            == Due(r, key) + if server.fault(r.calls) != BeforeEffect && req.key == key then 1 else 0
  {
    var b := server.made(r.calls, r.batches, req);
    CountPrepended(b, r.batches, key);
    DropAppended(r.delayed, b);
  }

  /** The lookup after a failed create changes nothing at the provider. */
  lemma DispatchHolds(server: Server, r: Remote, req: Request)
    ensures var s := if server.uploads(r.calls) then Created(server, r.(calls := r.calls + 1), req).0 else r;
            Dispatched(server, r, req).0.batches == s.batches && Dispatched(server, r, req).0.delayed == s.delayed
  {
  }

  /** Dispatching makes one batch, with the request's key, exactly when its create takes effect. */
  lemma DispatchMakes(server: Server, r: Remote, req: Request, key: string)
    requires IsHonest(server)
    ensures Due(Dispatched(server, r, req).0, key) == Due(r, key) + if Makes(server, r) && req.key == key then 1 else 0
  {
    DispatchHolds(server, r, req);
    CreateMakes(server, r.(calls := r.calls + 1), req, key);
  }

  lemma SubmitMakes(server: Server, r: Remote, req: Request, key: string)
    requires IsHonest(server)
    ensures Due(Submitted(server, r, req).0, key) == Due(r, key) + if Creates(server, r, req) && req.key == key then 1 else 0
  {
    if req.acceptable {
      if req.key == "" {
        DispatchMakes(server, r, req, key);
      } else {
        DispatchMakes(server, r.(calls := Recovered(server, r, req.key).calls), req, key);
      }
    }
  }

  lemma CountHead(batches: seq<Batch>, key: string)
    requires batches != []
    ensures Count(batches, key) == Count(batches[1..], key) + if batches[0].key == key then 1 else 0
  {
    CountPrepended(batches[0], batches[1..], key);
    assert [batches[0]] + batches[1..] == batches;
  }

  /** A Submit for the key creates a batch while an earlier create for it has yet to land. */
  predicate Overlaps(server: Server, r: Remote, move: Move, key: string) {
    move.Submit? && move.req.key == key && Creates(server, r, move.req) && Count(r.delayed, key) > 0
  }

  ghost predicate NeverOverlaps(server: Server, r: Remote, moves: seq<Move>, key: string) {
    forall n | 0 <= n < |moves| :: !Overlaps(server, Play(server, r, moves[..n]), moves[n], key)
  }

  ghost predicate StaysOne(server: Server, r: Remote, moves: seq<Move>, key: string) {
    forall n | 0 <= n <= |moves| :: Due(Play(server, r, moves[..n]), key) <= 1
  }

  /** A move takes the key past one batch exactly when it overlaps: Submit creates only when it sees none. */
  lemma MoveKeepsOneIff(server: Server, r: Remote, move: Move, key: string)
    requires IsHonest(server) && key != "" && Due(r, key) <= 1 && (move.Foreign? ==> move.batch.key != key)
    ensures Due(Played(server, r, move), key) <= 1 <==> !Overlaps(server, r, move, key)
  {
    match move {
      case Submit(req) =>
        SubmitMakes(server, r, req, key);
        RecoverIsSound(server, r, key);
      case Foreign(batch) => CountPrepended(batch, r.batches, key);
      case Land =>
        if r.delayed != [] {
          CountHead(r.delayed, key);
          CountPrepended(r.delayed[0], r.batches, key);
        }
    }
  }

  lemma {:induction false} StaysOneUpTo(server: Server, r: Remote, moves: seq<Move>, key: string, n: nat)
    requires IsHonest(server) && key != "" && Due(r, key) <= 1 && LeavesAlone(moves, key) && n <= |moves|
    requires NeverOverlaps(server, r, moves, key)
    ensures Due(Play(server, r, moves[..n]), key) <= 1
  {
    if n > 0 {
      StaysOneUpTo(server, r, moves, key, n - 1);
      TakeNext(moves, n - 1);
      MoveKeepsOneIff(server, Play(server, r, moves[..n - 1]), moves[n - 1], key);
    }
  }

  /**
   However often Submit is called, whatever fails and whenever it takes effect, the provider never
   has, or is never about to have, more than one batch with the key, exactly when no call creates one
   while an earlier create for the key, reported failed, has yet to land.
   */
  lemma AtMostOneBatchIff(server: Server, r: Remote, moves: seq<Move>, key: string)
    requires IsHonest(server) && key != "" && Due(r, key) <= 1 && LeavesAlone(moves, key)
    ensures StaysOne(server, r, moves, key) <==> NeverOverlaps(server, r, moves, key)
  {
    if NeverOverlaps(server, r, moves, key) {
      forall n: nat | n <= |moves| ensures Due(Play(server, r, moves[..n]), key) <= 1 {
        StaysOneUpTo(server, r, moves, key, n);
      }
    }
    if StaysOne(server, r, moves, key) {
      forall n: nat | n < |moves| ensures !Overlaps(server, Play(server, r, moves[..n]), moves[n], key) {
        TakeNext(moves, n);
        assert Due(Play(server, r, moves[..n]), key) <= 1 && Due(Play(server, r, moves[..n + 1]), key) <= 1;
        MoveKeepsOneIff(server, Play(server, r, moves[..n]), moves[n], key);
      }
    }
  }

  ghost predicate NeverDelays(server: Server) {
    forall n: nat :: server.fault(n) != Delayed
  }

  lemma SubmitDelaysNone(server: Server, r: Remote, req: Request)
    requires NeverDelays(server)
    ensures Submitted(server, r, req).0.delayed == r.delayed
  {
    var known := Recovered(server, r, req.key);
    assert server.fault(r.calls + 1) != Delayed && server.fault(known.calls + 1) != Delayed;
  }

  lemma {:induction false} PlayDelaysNone(server: Server, r: Remote, moves: seq<Move>, n: nat)
    requires NeverDelays(server) && r.delayed == [] && n <= |moves|
    ensures Play(server, r, moves[..n]).delayed == []
  {
    if n > 0 {
      PlayDelaysNone(server, r, moves, n - 1);
      TakeNext(moves, n - 1);
      if moves[n - 1].Submit? {
        SubmitDelaysNone(server, Play(server, r, moves[..n - 1]), moves[n - 1].req);
      }
    }
  }

  /** In particular at most one, if no failed create takes effect after its error. */
  lemma AtMostOneBatch(server: Server, r: Remote, moves: seq<Move>, key: string)
    requires IsHonest(server) && NeverDelays(server) && key != ""
    requires r.delayed == [] && Count(r.batches, key) <= 1 && LeavesAlone(moves, key)
    ensures NeverOverlaps(server, r, moves, key) && Count(Play(server, r, moves).batches, key) <= 1
  {
    forall n: nat | n < |moves| ensures !Overlaps(server, Play(server, r, moves[..n]), moves[n], key) {
      PlayDelaysNone(server, r, moves, n);
    }
    StaysOneUpTo(server, r, moves, key, |moves|);
    assert moves[..|moves|] == moves;
  }

  /** The provider once everything delayed has landed. */
  function Landed(server: Server, r: Remote): Remote
    decreases |r.delayed|
  {
    if r.delayed == [] then r else Landed(server, Played(server, r, Land))
  }

  lemma {:induction false} LandedHoldsAllDue(server: Server, r: Remote, key: string)
    ensures Landed(server, r).delayed == [] && Count(Landed(server, r).batches, key) == Due(r, key)
    decreases |r.delayed|
  {
    if r.delayed != [] {
      CountHead(r.delayed, key);
      CountPrepended(r.delayed[0], r.batches, key);
      LandedHoldsAllDue(server, Played(server, r, Land), key);
    }
  }

  /** Any overlap ends in duplicates: once everything has landed there are two batches or more. */
  lemma OverlapDuplicates(server: Server, r: Remote, req: Request, key: string)
    requires IsHonest(server) && Overlaps(server, r, Submit(req), key)
    ensures Count(Landed(server, Submitted(server, r, req).0).batches, key) >= 2
  {
    SubmitMakes(server, r, req, key);
    LandedHoldsAllDue(server, Submitted(server, r, req).0, key);
  }

  /** A create that took effect is at the front of the inventory, under the handle it returned. */
  lemma DispatchSucceeds(server: Server, r: Remote, req: Request)
    requires IsHonest(server) && req.key != "" && Dispatched(server, r, req).1.Ok?
    ensures IsFound(Dispatched(server, r, req).0.batches, req.key, Dispatched(server, r, req).1.handle)
  {
    var up := r.(calls := r.calls + 1);
    var (s, created) := Created(server, up, req);
    var b := server.made(up.calls, up.batches, req);
    if created.Ok? {
      assert s.batches[0] == b && b.key == req.key;
    } else {
      RecoverIsSound(server, s, req.key);
    }
  }

  lemma SuccessIsFound(server: Server, r: Remote, req: Request)
    requires IsHonest(server) && req.key != "" && Submitted(server, r, req).1.Ok?
    ensures var (s, result) := Submitted(server, r, req);
            && result.handle.key == req.key && result.handle.digest == req.digest && result.handle.endpoint == req.endpoint
            && IsFound(s.batches, req.key, result.handle)
  {
    RecoverIsSound(server, r, req.key);
    var known := Recovered(server, r, req.key);
    if known.result == Err(NotFound) {
      DispatchSucceeds(server, r.(calls := known.calls), req);
    }
  }

  lemma {:induction false} OneIsUnique(batches: seq<Batch>, key: string, g: Handle, h: Handle)
    requires Count(batches, key) <= 1 && IsFound(batches, key, g) && IsFound(batches, key, h)
    ensures g == h
  {
    var init, n := batches[..|batches| - 1], |batches| - 1;
    assert forall k | 0 <= k < n :: init[k] == batches[k];
    CountNone(init, key);
    if batches[n].key == key {
      assert forall k | 0 <= k < n :: batches[k].key != key;
    } else {
      assert IsFound(init, key, g) && IsFound(init, key, h);
      OneIsUnique(init, key, g, h);
    }
  }

  /**
   A successful Submit returns the handle of the one batch with its key, for its digest and endpoint:
   two calls that succeed with the same key return the same handle, as long as no creates overlap.
   */
  lemma SuccessNamesTheOnlyBatch(server: Server, r: Remote, moves: seq<Move>, req: Request, h: Handle)
    requires IsHonest(server) && req.key != "" && Due(r, req.key) <= 1 && LeavesAlone(moves, req.key)
    requires NeverOverlaps(server, r, moves + [Submit(req)], req.key)
    requires Submitted(server, Play(server, r, moves), req).1.Ok?
    requires IsFound(Submitted(server, Play(server, r, moves), req).0.batches, req.key, h)
    ensures Submitted(server, Play(server, r, moves), req).1 == Ok(h)
    ensures h.digest == req.digest && h.endpoint == req.endpoint
  {
    var s, all := Play(server, r, moves), moves + [Submit(req)];
    DropAppended(moves, Submit(req));
    assert all[..|all|] == all;
    StaysOneUpTo(server, r, all, req.key, |all|);
    SuccessIsFound(server, s, req);
    OneIsUnique(Submitted(server, s, req).0.batches, req.key, Submitted(server, s, req).1.handle, h);
  }

  // ---------------------------------------------------------------------------------------------
  // A create that lands late
  // ---------------------------------------------------------------------------------------------

  /** Listings never fail, and the first create is reported failed and lands later. */
  const LATE_SERVER := Server(
    (n: nat, batches: seq<Batch>, after: string) => Some(PageOf(batches, after)),
    (n: nat) => true,
    (n: nat) => if n == 2 then Delayed else NoFault,
    (n: nat, batches: seq<Batch>, req: Request) => Batch(Decimal(n), req.endpoint, req.key, req.digest, true))

  lemma LateServerIsHonest()
    ensures IsHonest(LATE_SERVER)
  {
  }

  lemma EmptyInventory(calls: nat, delayed: seq<Batch>, key: string)
    requires IsRecoveryKey(key)
    ensures Recovered(LATE_SERVER, Remote([], delayed, calls), key) == Recovery(calls + 1, Err(NotFound))
  {
    assert PageOf([], "") == Page([], false, "");
  }

  function LateBatch(n: nat, req: Request): Batch {
    Batch(Decimal(n), req.endpoint, req.key, req.digest, true)
  }

  lemma LateFirst(req: Request)
    requires req.acceptable && IsRecoveryKey(req.key)
    ensures Submitted(LATE_SERVER, Remote([], [], 0), req).0 == Remote([], [LateBatch(2, req)], 4)
  {
    EmptyInventory(0, [], req.key);
    EmptyInventory(3, [LateBatch(2, req)], req.key);
    assert [] + [LateBatch(2, req)] == [LateBatch(2, req)];
    assert Created(LATE_SERVER, Remote([], [], 2), req) == (Remote([], [LateBatch(2, req)], 3), Err(RequestFailed));
  }

  lemma LateSecond(req: Request)
    requires req.acceptable && IsRecoveryKey(req.key)
    ensures Submitted(LATE_SERVER, Remote([], [LateBatch(2, req)], 4), req).0
            == Remote([LateBatch(6, req)], [LateBatch(2, req)], 7)
  {
    var b := LateBatch(6, req);
    EmptyInventory(4, [LateBatch(2, req)], req.key);
    assert [b] + [] == [b];
    assert Created(LATE_SERVER, Remote([], [LateBatch(2, req)], 6), req) == (Remote([b], [LateBatch(2, req)], 7), Ok(HandleOf(b)));
  }

  lemma PlayThree(server: Server, r: Remote, a: Move, b: Move, c: Move)
    ensures Play(server, r, [a, b, c]) == Played(server, Played(server, Played(server, r, a), b), c)
  {
    DropAppended([], a);
    DropAppended([a], b);
    DropAppended([a, b], c);
    assert [] + [a] == [a] && [a] + [b] == [a, b] && [a, b] + [c] == [a, b, c];
    assert Play(server, r, [a]) == Played(server, r, a);
    assert Play(server, r, [a, b]) == Played(server, Played(server, r, a), b);
  }

  lemma LateOverlaps(req: Request)
    requires req.acceptable && IsRecoveryKey(req.key)
    ensures Overlaps(LATE_SERVER, Submitted(LATE_SERVER, Remote([], [], 0), req).0, Submit(req), req.key)
  {
    var one := Remote([], [LateBatch(2, req)], 4);
    LateServerIsHonest();
    LateFirst(req);
    LateSecond(req);
    CountPrepended(LateBatch(2, req), [], req.key);
    CountPrepended(LateBatch(6, req), [], req.key);
    assert [LateBatch(2, req)] + [] == [LateBatch(2, req)] && [LateBatch(6, req)] + [] == [LateBatch(6, req)];
    MoveKeepsOneIff(LATE_SERVER, one, Submit(req), req.key);
  }

  /** A whole run of it, from nothing: a retry overlaps the first create, and makes a second batch. */
  lemma LateCreateDuplicates(req: Request)
    requires req.acceptable && IsRecoveryKey(req.key)
    ensures IsHonest(LATE_SERVER)
    ensures Overlaps(LATE_SERVER, Submitted(LATE_SERVER, Remote([], [], 0), req).0, Submit(req), req.key)
    ensures Count(Play(LATE_SERVER, Remote([], [], 0), [Submit(req), Submit(req), Land]).batches, req.key) == 2
  {
    LateServerIsHonest();
    LateOverlaps(req);
    LateFirst(req);
    LateSecond(req);
    PlayThree(LATE_SERVER, Remote([], [], 0), Submit(req), Submit(req), Land);
    CountPrepended(LateBatch(2, req), [LateBatch(6, req)], req.key);
    CountPrepended(LateBatch(6, req), [], req.key);
    assert [LateBatch(6, req)] + [] == [LateBatch(6, req)];
  }

  // ---------------------------------------------------------------------------------------------
  // Results
  // ---------------------------------------------------------------------------------------------

  /** One line of a result file: the item it answers ("" when unknown) and everything else. */
  datatype Line = Line(itemId: string, rest: string)

  function FirstOf(lines: seq<Line>): seq<Line> {
    if lines == [] then []
    else
      var before, line := FirstOf(lines[..|lines| - 1]), lines[|lines| - 1];
      if line.itemId != "" && exists k :: 0 <= k < |before| && before[k].itemId == line.itemId then before
      else before + [line]
  }

  /** The output file's lines, then the error file's: the first line of an item wins. */
  method MergeResults(lines: seq<Line>) returns (results: seq<Line>)
    ensures results == FirstOf(lines)
  {
    results := [];
    var seen: set<string> := {};
    var i := 0;
    while i < |lines|
      invariant i <= |lines| && results == FirstOf(lines[..i])
      invariant forall id :: id in seen <==> id != "" && exists k :: 0 <= k < |results| && results[k].itemId == id
    {
      var line := lines[i];
      TakeNext(lines, i);
      i := i + 1;
      if line.itemId != "" {
        if line.itemId in seen {
          continue;
        }
        seen := seen + {line.itemId};
      }
      ghost var before := results;
      results := results + [line];
      assert forall k | 0 <= k < |before| :: results[k] == before[k];
      assert results[|before|] == line;
    }
    assert lines[..|lines|] == lines;
  }

  /** No item has two results. */
  lemma {:induction false} ItemsAreDistinct(lines: seq<Line>)
    ensures forall j, k | 0 <= j < k < |FirstOf(lines)| && FirstOf(lines)[j].itemId == FirstOf(lines)[k].itemId ::
              FirstOf(lines)[k].itemId == ""
  {
    if lines != [] {
      ItemsAreDistinct(lines[..|lines| - 1]);
    }
  }

  /** An item's result is the first line that names it; lines that name none are all kept. */
  lemma {:induction false} FirstLineWins(lines: seq<Line>, id: string)
    ensures Naming(FirstOf(lines), id) ==
            if id == "" || Naming(lines, id) == [] then Naming(lines, id) else Naming(lines, id)[..1]
  {
    if lines != [] {
      var init, line := lines[..|lines| - 1], lines[|lines| - 1];
      FirstLineWins(init, id);
      DropAppended(FirstOf(init), line);
      NamingNone(FirstOf(init), line.itemId);
    }
  }

  /** The lines about one item, in order. */
  function Naming(lines: seq<Line>, id: string): seq<Line> {
    if lines == [] then []
    else
      var before, line := Naming(lines[..|lines| - 1], id), lines[|lines| - 1];
      if line.itemId == id then before + [line] else before
  }

  lemma {:induction false} NamingNone(lines: seq<Line>, id: string)
    ensures Naming(lines, id) == [] <==> forall k | 0 <= k < |lines| :: lines[k].itemId != id
  {
    if lines != [] {
      var init := lines[..|lines| - 1];
      NamingNone(init, id);
      assert forall k | 0 <= k < |init| :: init[k] == lines[k];
    }
  }
}
