/**
 The key pool (pool.go, AuthPool; types.go, AuthProfile).

 Every method runs under the pool's lock, with one clock reading `now` per call.
 */
module AuthPool {
  import opened Decimals
  import opened Wrappers

  /** What a method can see of a profile; `cooldown` is None for Go's zero time. */
  datatype Profile = Profile(name: string, isHealthy: bool, lastUsed: int, lastError: string, cooldown: Option<int>)

  predicate IsAvailable(p: Profile, now: int) {
    p.isHealthy && (p.cooldown == None || now >= p.cooldown.value)
  }

  predicate AnyAvailable(ps: seq<Profile>, now: int) {
    exists i | 0 <= i < |ps| :: IsAvailable(ps[i], now)
  }

  /** The errors the pool tells apart: 401/403, 429, 503/529, everything else. */
  datatype Failure = AuthError(text: string) | RateLimited(text: string) | Overloaded(text: string) | OtherError(text: string)

  datatype Cooldowns = Cooldowns(rateLimit: int, overload: int, default: int)

  function CooldownFor(f: Failure, cds: Cooldowns): int {
    match f
    case RateLimited(_) => cds.rateLimit
    case Overloaded(_) => cds.overload
    case _ => cds.default
  }

  function AfterFailure(p: Profile, f: Failure, cds: Cooldowns, now: int): Profile {
    if f.AuthError? then p.(isHealthy := false, lastError := f.text)
    else p.(lastError := f.text, cooldown := Some(now + CooldownFor(f, cds)))
  }

  function AfterSuccess(p: Profile): Profile {
    p.(isHealthy := true, lastError := "", cooldown := None)
  }

  /** The first profile of that name, which is the one the Go loops break on. */
  function IndexOf(ps: seq<Profile>, name: string): (i: nat)
    ensures i <= |ps|
    ensures i < |ps| ==> ps[i].name == name
    ensures forall j | 0 <= j < i :: ps[j].name != name
  {
    if ps == [] || ps[0].name == name then 0 else 1 + IndexOf(ps[1..], name)
  }

  function Updated(ps: seq<Profile>, i: nat, p: Profile): seq<Profile> {
    if i < |ps| then ps[i := p] else ps
  }

  datatype Outcome =
    | Got(profile: Profile)
    | NoProfiles
    | AllDisabled
    | InCooldown(wait: int)

  /** `k` is the first available profile met when going round from `start`. */
  ghost predicate IsFirstFrom(ps: seq<Profile>, start: nat, k: nat, now: int)
    requires start < |ps|
  {
    && k < |ps| && IsAvailable(ps[k], now)
    && forall d: nat | d < Distance(start, k, |ps|) :: !IsAvailable(ps[Around(start, d, |ps|)], now)
  }

  function Around(start: nat, d: nat, n: nat): (i: nat)
    requires start < n && d <= n
    ensures i < n
  {
    if start + d < n then start + d else start + d - n
  }

  function Distance(start: nat, k: nat, n: nat): (d: nat)
    requires start < n && k < n
    ensures d < n && Around(start, d, n) == k
  {
    if start <= k then k - start else k + n - start
  }

  /** None of the first `d` profiles going round from `start` is available. */
  ghost predicate NoneWithin(ps: seq<Profile>, start: nat, d: nat, now: int)
    requires start < |ps| && d <= |ps|
  {
    forall e: nat | e < d :: !IsAvailable(ps[Around(start, e, |ps|)], now)
  }

  lemma NextAround(start: nat, d: nat, n: nat)
    requires start < n && d < n
    ensures (Around(start, d, n) + 1) % n == Around(start, d + 1, n)
    ensures Around(start, d + 1, n) == start <==> d + 1 == n
  {
  }

  lemma FoundFirst(ps: seq<Profile>, start: nat, d: nat, now: int)
    requires start < |ps| && 0 < d <= |ps| && NoneWithin(ps, start, d, now)
    requires IsAvailable(ps[Around(start, d, |ps|)], now)
    ensures IsFirstFrom(ps, start, Around(start, d, |ps|), now)
  {
    assert Around(start, 0, |ps|) == start;
  }

  lemma NoneAround(ps: seq<Profile>, start: nat, now: int)
    requires start < |ps| && NoneWithin(ps, start, |ps|, now)
    ensures !AnyAvailable(ps, now)
  {
    forall i: nat | i < |ps| ensures !IsAvailable(ps[i], now) {
      assert Around(start, Distance(start, i, |ps|), |ps|) == i;
    }
  }

  ghost predicate IsSoonest(ps: seq<Profile>, t: int) {
    && (exists i :: 0 <= i < |ps| && ps[i].isHealthy && ps[i].cooldown == Some(t))
    && forall i | 0 <= i < |ps| && ps[i].isHealthy :: ps[i].cooldown.Some? && t <= ps[i].cooldown.value
  }

  class AuthProfile {
    const name: string
    var isHealthy: bool
    var lastUsed: int
    var lastError: string
    var cooldown: Option<int>

    function View(): Profile
      reads this
    {
      Profile(name, isHealthy, lastUsed, lastError, cooldown)
    }

    constructor (name: string)
      ensures View() == Profile(name, true, 0, "", None)
    {
      this.name := name;
      isHealthy, lastUsed, lastError, cooldown := true, 0, "", None;
    }

    method MarkUsed(now: int)
      modifies this`lastUsed
      ensures View() == old(View()).(lastUsed := now)
    {
      lastUsed := now;
    }

    method MarkFailed(text: string, duration: int, now: int)
      modifies this`lastError, this`cooldown
      ensures View() == old(View()).(lastError := text, cooldown := Some(now + duration))
    {
      lastError := text;
      cooldown := Some(now + duration);
    }

    method MarkHealthy()
      modifies this`isHealthy, this`lastError, this`cooldown
      ensures View() == AfterSuccess(old(View()))
    {
      isHealthy := true;
      lastError := "";
      cooldown := None;
    }
  }

  function ProfileName(provider: string, i: nat): string {
    provider + "-" + Decimal(i + 1)
  }

  function Views(profiles: seq<AuthProfile>): (ps: seq<Profile>)
    reads profiles
    ensures |ps| == |profiles| && forall i | 0 <= i < |ps| :: ps[i] == profiles[i].View()
  {
    seq(|profiles|, i requires 0 <= i < |profiles| reads profiles => profiles[i].View())
  }

  class Pool {
    var profiles: seq<AuthProfile>
    var current: nat

    ghost predicate Valid()
      reads this
    {
      && (forall i, j | 0 <= i < j < |profiles| :: profiles[i] != profiles[j] && profiles[i].name != profiles[j].name)
      && (profiles != [] ==> current < |profiles|)
    }

    ghost function View(): seq<Profile>
      reads this, profiles
    {
      Views(profiles)
    }

    /** One profile per key, named after the provider and the key's position. */
    constructor (provider: string, keys: nat)
      ensures Valid() && fresh(profiles) && current == 0
      ensures View() == seq(keys, i requires 0 <= i => Profile(ProfileName(provider, i), true, 0, "", None))
    {
      profiles, current := [], 0;
      new;
      for i := 0 to keys
        invariant |profiles| == i && fresh(profiles) && current == 0
        invariant forall k | 0 <= k < i :: profiles[k].View() == Profile(ProfileName(provider, k), true, 0, "", None)
        invariant forall j, k | 0 <= j < k < i :: profiles[j] != profiles[k]
      {
        var p := new AuthProfile(ProfileName(provider, i));
        profiles := profiles + [p];
      }
      forall j, k | 0 <= j < k < keys ensures profiles[j].name != profiles[k].name {
        if profiles[j].View().name == profiles[k].View().name {
          assert ProfileName(provider, j)[|provider| + 1..] == Decimal(j + 1);
          assert ProfileName(provider, k)[|provider| + 1..] == Decimal(k + 1);
          DecimalInjective(j + 1, k + 1);
        }
      }
    }

    /** The rotation loop: go round once, stop at the first available profile. */
    method Rotate(now: int) returns (found: bool)
      requires Valid() && profiles != [] && !IsAvailable(View()[current], now)
      modifies this`current
      ensures Valid()
      ensures found <==> AnyAvailable(View(), now)
      ensures if found then IsFirstFrom(View(), old(current), current, now) else current == old(current)
    {
      var start, n := current, |profiles|;
      ghost var ps, d := View(), 0;
      while true
        invariant start == old(current) && d < n && current == Around(start, d, n)
        invariant View() == ps && NoneWithin(ps, start, d + 1, now)
        decreases n - d
      {
        current := (current + 1) % n;
        NextAround(start, d, n);
        d := d + 1;
        if IsAvailable(profiles[current].View(), now) {
          FoundFirst(ps, start, d, now);
          return true;
        }
        if current == start {
          break;
        }
      }
      NoneAround(ps, start, now);
      found := false;
    }

    /** The earliest cooldown of a healthy profile. */
    method Soonest(now: int) returns (soonest: Option<int>)
      requires Valid() && !AnyAvailable(View(), now)
      ensures soonest == None <==> forall i | 0 <= i < |profiles| :: !View()[i].isHealthy
      ensures soonest.Some? ==> soonest.value > now && IsSoonest(View(), soonest.value)
    {
      ghost var ps := View();
      soonest := None;
      for i := 0 to |profiles|
        invariant soonest == None <==> forall j | 0 <= j < i :: !ps[j].isHealthy
        invariant soonest.Some? ==> exists j :: 0 <= j < i && ps[j].isHealthy && ps[j].cooldown == soonest
        invariant forall j | 0 <= j < i && ps[j].isHealthy ::
                    ps[j].cooldown.Some? && soonest.Some? && soonest.value <= ps[j].cooldown.value
      {
        var p := profiles[i].View();
        assert p == ps[i] && !IsAvailable(ps[i], now);
        if !p.isHealthy {
          continue;
        }
        if soonest == None || p.cooldown.value < soonest.value {
          soonest := p.cooldown;
        }
      }
    }

    /**
     The first available profile going round from the current one, stamped as used; nothing else
     changes. Without one, the cursor is back where it was, and the wait is to the earliest cooldown.
     */
    method GetAvailable(now: int) returns (r: Outcome)
      requires Valid()
      modifies this`current, profiles`lastUsed
      ensures Valid() && profiles == old(profiles)
      ensures r.Got? <==> AnyAvailable(old(View()), now)
      ensures r.Got? ==> IsFirstFrom(old(View()), old(current), current, now)
                         && View() == old(View())[current := old(View())[current].(lastUsed := now)]
                         && r.profile == View()[current]
      ensures !r.Got? ==> View() == old(View()) && current == old(current)
      ensures r == NoProfiles <==> profiles == []
      ensures r == AllDisabled <==> profiles != [] && forall i | 0 <= i < |profiles| :: !old(View())[i].isHealthy
      ensures r.InCooldown? ==> r.wait > 0 && IsSoonest(old(View()), now + r.wait)
    {
      if |profiles| == 0 {
        return NoProfiles;
      }
      if IsAvailable(profiles[current].View(), now) {
        profiles[current].MarkUsed(now);
        return Got(profiles[current].View());
      }
      var found := Rotate(now);
      if found {
        profiles[current].MarkUsed(now);
        return Got(profiles[current].View());
      }
      var soonest := Soonest(now);
      if soonest == None {
        return AllDisabled;
      }
      r := InCooldown(soonest.value - now);
    }

    method MarkFailedByName(name: string, f: Failure, cds: Cooldowns, now: int)
      requires Valid()
      modifies profiles
      ensures Valid() && profiles == old(profiles) && current == old(current)
      ensures var ps := old(View());
              var i := IndexOf(ps, name);
              View() == if i < |ps| then Updated(ps, i, AfterFailure(ps[i], f, cds, now)) else ps
    {
      ghost var ps := View();
      var i := FindByName(name);
      if i == |profiles| {
        return;
      }
      var profile := profiles[i];
      if f.AuthError? {
        profile.isHealthy := false;
        profile.lastError := f.text;
        assert View() == ps[i := AfterFailure(ps[i], f, cds, now)];
        return;
      }
      var cooldown;
      if f.RateLimited? {
        cooldown := cds.rateLimit;
      } else if f.Overloaded? {
        cooldown := cds.overload;
      } else {
        cooldown := cds.default;
      }
      profile.MarkFailed(f.text, cooldown, now);
      assert View() == ps[i := AfterFailure(ps[i], f, cds, now)];
    }

    method MarkSuccessByName(name: string)
      requires Valid()
      modifies profiles
      ensures Valid() && profiles == old(profiles) && current == old(current)
      ensures var ps := old(View());
              var i := IndexOf(ps, name);
              View() == if i < |ps| then Updated(ps, i, AfterSuccess(ps[i])) else ps
    {
      ghost var ps := View();
      var i := FindByName(name);
      if i < |profiles| {
        profiles[i].MarkHealthy();
        assert View() == ps[i := AfterSuccess(ps[i])];
      }
    }

    method FindByName(name: string) returns (i: nat)
      requires Valid()
      ensures i == IndexOf(View(), name)
    {
      i := 0;
      while i < |profiles|
        invariant i <= |profiles|
        invariant forall j | 0 <= j < i :: profiles[j].name != name
      {
        if profiles[i].name == name {
          IndexUnique(View(), name, i);
          return;
        }
        i := i + 1;
      }
      IndexUnique(View(), name, i);
    }
  }

  lemma IndexUnique(ps: seq<Profile>, name: string, i: nat)
    requires i <= |ps|
    requires i < |ps| ==> ps[i].name == name
    requires forall j | 0 <= j < i :: ps[j].name != name
    ensures i == IndexOf(ps, name)
  {
    var k := IndexOf(ps, name);
    assert !(k < i) && !(i < k);
  }

  /** The reported wait is exact: a call succeeds once that long has passed and not before. */
  lemma WaitIsLeast(ps: seq<Profile>, now: int, wait: int, later: int)
    requires wait > 0 && IsSoonest(ps, now + wait) && later >= now
    ensures AnyAvailable(ps, later) <==> later >= now + wait
  {
    var i :| 0 <= i < |ps| && ps[i].isHealthy && ps[i].cooldown == Some(now + wait);
    if later >= now + wait {
      assert IsAvailable(ps[i], later);
    }
  }

  // ---------------------------------------------------------------------------------------------
  // Runs
  // ---------------------------------------------------------------------------------------------

  datatype Mark = Failed(name: string, f: Failure, cds: Cooldowns, now: int) | Succeeded(name: string)

  function Marked(ps: seq<Profile>, m: Mark): seq<Profile> {
    var i := IndexOf(ps, m.name);
    if i == |ps| then ps
    else if m.Succeeded? then Updated(ps, i, AfterSuccess(ps[i]))
    else Updated(ps, i, AfterFailure(ps[i], m.f, m.cds, m.now))
  }

  function MarkedAll(ps: seq<Profile>, marks: seq<Mark>): (qs: seq<Profile>)
    ensures |qs| == |ps| && forall i | 0 <= i < |ps| :: qs[i].name == ps[i].name
  {
    if marks == [] then ps else Marked(MarkedAll(ps, marks[..|marks| - 1]), marks[|marks| - 1])
  }

  predicate AreDistinct(ps: seq<Profile>) {
    forall i, j | 0 <= i < j < |ps| :: ps[i].name != ps[j].name
  }

  /** A mark touches the key it names and no other. */
  lemma MarkedKey(ps: seq<Profile>, m: Mark, i: nat)
    requires i < |ps| && AreDistinct(ps)
    ensures Marked(ps, m)[i] ==
            if m.name != ps[i].name then ps[i]
            else if m.Succeeded? then AfterSuccess(ps[i])
            else AfterFailure(ps[i], m.f, m.cds, m.now)
  {
    if m.name == ps[i].name {
      IndexUnique(ps, m.name, i);
    }
  }

  /** The last mark that settled the key's health: an auth error or a success of that name. */
  predicate Settles(m: Mark, name: string) {
    m.name == name && (m.Succeeded? || m.f.AuthError?)
  }

  ghost predicate IsLastSettling(marks: seq<Mark>, name: string, k: int) {
    && 0 <= k < |marks| && Settles(marks[k], name)
    && forall j | k < j < |marks| :: !Settles(marks[j], name)
  }

  /**
   A key is disabled exactly when the last auth error for it came after its last success: no other
   error disables it, no other key's outcome touches it, and a later success re-enables it.
   */
  lemma {:induction false} HealthFollowsLastOutcome(ps: seq<Profile>, marks: seq<Mark>, i: nat)
    requires i < |ps| && AreDistinct(ps)
    ensures var name := ps[i].name;
            && (forall k | IsLastSettling(marks, name, k) :: MarkedAll(ps, marks)[i].isHealthy == marks[k].Succeeded?)
            && ((forall j | 0 <= j < |marks| :: !Settles(marks[j], name)) ==>
                  MarkedAll(ps, marks)[i].isHealthy == ps[i].isHealthy)
  {
    if marks != [] {
      var init, m := marks[..|marks| - 1], marks[|marks| - 1];
      var name := ps[i].name;
      HealthFollowsLastOutcome(ps, init, i);
      var qs := MarkedAll(ps, init);
      MarkedKey(qs, m, i);
      forall k | IsLastSettling(marks, name, k) && k < |init| ensures IsLastSettling(init, name, k) {
        assert forall j | k <= j < |init| :: init[j] == marks[j];
      }
      assert forall j | 0 <= j < |init| :: init[j] == marks[j];
    }
  }

  /** The mark sets the key's cooldown: a success of that name, or an error that is not an auth error. */
  predicate Cools(m: Mark, name: string) {
    m.name == name && (m.Succeeded? || !m.f.AuthError?)
  }

  ghost predicate IsLastCooling(marks: seq<Mark>, name: string, k: int) {
    && 0 <= k < |marks| && Cools(marks[k], name)
    && forall j | k < j < |marks| :: !Cools(marks[j], name)
  }

  function CooldownAfter(m: Mark): Option<int> {
    if m.Succeeded? then None else Some(m.now + CooldownFor(m.f, m.cds))
  }

  lemma {:induction false} CooldownFollowsLastOutcome(ps: seq<Profile>, marks: seq<Mark>, i: nat)
    requires i < |ps| && AreDistinct(ps)
    ensures var name := ps[i].name;
            && (forall k | IsLastCooling(marks, name, k) :: MarkedAll(ps, marks)[i].cooldown == CooldownAfter(marks[k]))
            && ((forall j | 0 <= j < |marks| :: !Cools(marks[j], name)) ==> MarkedAll(ps, marks)[i].cooldown == ps[i].cooldown)
  {
    if marks != [] {
      var init, m := marks[..|marks| - 1], marks[|marks| - 1];
      var name := ps[i].name;
      CooldownFollowsLastOutcome(ps, init, i);
      var qs := MarkedAll(ps, init);
      MarkedKey(qs, m, i);
      forall k | IsLastCooling(marks, name, k) && k < |init| ensures IsLastCooling(init, name, k) {
        assert forall j | k <= j < |init| :: init[j] == marks[j];
      }
      assert forall j | 0 <= j < |init| :: init[j] == marks[j];
    }
  }

  /**
   After any run of outcomes a key is available exactly when the last of its auth errors and successes
   was a success, and the last of its successes and other errors was a success or has cooled down.
   */
  lemma AvailableIff(ps: seq<Profile>, marks: seq<Mark>, i: nat, settling: int, cooling: int, later: int)
    requires i < |ps| && AreDistinct(ps)
    requires IsLastSettling(marks, ps[i].name, settling) && IsLastCooling(marks, ps[i].name, cooling)
    ensures IsAvailable(MarkedAll(ps, marks)[i], later) <==>
            marks[settling].Succeeded?
            && (marks[cooling].Succeeded? || later >= marks[cooling].now + CooldownFor(marks[cooling].f, marks[cooling].cds))
  {
    HealthFollowsLastOutcome(ps, marks, i);
    CooldownFollowsLastOutcome(ps, marks, i);
  }

  /**
   A failed key comes back: once its cooldown is over if the error was not about the key, and at once,
   whatever the error was, when another goroutine's call with it succeeds.
   */
  lemma FailedComesBack(ps: seq<Profile>, i: nat, f: Failure, cds: Cooldowns, now: int, later: int)
    requires i < |ps| && AreDistinct(ps) && ps[i].isHealthy
    ensures var failed := Marked(ps, Failed(ps[i].name, f, cds, now));
            && (!f.AuthError? ==> (IsAvailable(failed[i], later) <==> later >= now + CooldownFor(f, cds)))
            && (f.AuthError? ==> !IsAvailable(failed[i], later))
            && IsAvailable(Marked(failed, Succeeded(ps[i].name))[i], later)
  {
    var failure, success := Failed(ps[i].name, f, cds, now), Succeeded(ps[i].name);
    MarkedKey(ps, failure, i);
    MarkedKey(Marked(ps, failure), success, i);
  }
}
