/** The sliding-window limiter of src/rate_limit.rs.

    `Decide` is the decision of one request as a function of the table. `Window.Check` is the
    same request carried out in place. The lemmas speak about whole request sequences. */
module RateLimit {
  import opened Common

  type Ip = string

  datatype Policy = Policy(limit: nat, window: nat)

  const REGISTER := Policy(5, 3600 * SECOND)
  const LOOKUP := Policy(60, 60 * SECOND)

  /** The entries of `times` that `retain` keeps, in order. */
  function Recent(times: seq<Instant>, now: Instant, window: nat): seq<Instant> {
    if times == [] then []
    else
      var last := times[|times| - 1];
      var kept := Recent(times[..|times| - 1], now, window);
      if Since(now, last) < window then kept + [last] else kept
  }

  type Table = map<Ip, seq<Instant>>

  function Stored(t: Table, ip: Ip): seq<Instant> {
    if ip in t then t[ip] else []
  }

  /** One request: the new table and whether the request is allowed. */
  function Decide(t: Table, ip: Ip, now: Instant, p: Policy): (Table, bool) {
    var kept := Recent(Stored(t, ip), now, p.window);
    if |kept| >= p.limit then (t[ip := kept], false) else (t[ip := kept + [now]], true)
  }

  // ---------------------------------------------------------------------------
  // The limiter itself, updating its tables in place

  class Window {
    var times: Table

    constructor ()
      ensures times == map[]
    {
      times := map[];
    }

    /** `Vec::retain` with the predicate of the source. */
    static method Retain(times: seq<Instant>, now: Instant, window: nat) returns (kept: seq<Instant>)
      ensures kept == Recent(times, now, window)
    {
      kept := [];
      for i := 0 to |times|
        invariant kept == Recent(times[..i], now, window)
      {
        assert times[..i + 1][..i] == times[..i];
        if Since(now, times[i]) < window {
          kept := kept + [times[i]];
        }
      }
      assert times[..|times|] == times;
    }

    method Check(ip: Ip, limit: nat, window: nat, now: Instant) returns (allowed: bool)
      modifies this
      ensures (times, allowed) == Decide(old(times), ip, now, Policy(limit, window))
    {
      if ip !in times {
        times := times[ip := []];
      }
      var kept := Retain(times[ip], now, window);
      times := times[ip := kept];
      assert times == old(times)[ip := kept];
      if |kept| >= limit {
        return false;
      }
      times := times[ip := kept + [now]];
      assert times == old(times)[ip := kept + [now]];
      return true;
    }
  }

  // ---------------------------------------------------------------------------
  // Whole request sequences

  datatype Request = Request(ip: Ip, at: Instant)

  /** The lock is held while the clock is read, so requests are ordered by time. */
  ghost predicate Chronological(reqs: seq<Request>) {
    forall i, j :: 0 <= i < j < |reqs| ==> reqs[i].at <= reqs[j].at
  }

  function Run(p: Policy, reqs: seq<Request>): Table {
    if reqs == [] then map[]
    else
      var last := reqs[|reqs| - 1];
      Decide(Run(p, reqs[..|reqs| - 1]), last.ip, last.at, p).0
  }

  /** Whether request `r`, arriving after `reqs`, is allowed. */
  predicate Allowed(p: Policy, reqs: seq<Request>, r: Request) {
    Decide(Run(p, reqs), r.ip, r.at, p).1
  }

  /** The times at which requests of `ip` were allowed, oldest first. */
  function Accepted(p: Policy, reqs: seq<Request>, ip: Ip): seq<Instant> {
    if reqs == [] then []
    else
      var last := reqs[|reqs| - 1];
      var before := reqs[..|reqs| - 1];
      var log := Accepted(p, before, ip);
      if last.ip == ip && Allowed(p, before, last) then log + [last.at] else log
  }

  /** How many of `times` lie in the half-open interval [lo, hi). */
  function CountIn(times: seq<Instant>, lo: Instant, hi: Instant): nat {
    if times == [] then 0
    else
      CountIn(times[..|times| - 1], lo, hi) + if lo <= times[|times| - 1] < hi then 1 else 0
  }

  lemma RecentAppend(times: seq<Instant>, t: Instant, now: Instant, window: nat)
    ensures Recent(times + [t], now, window)
         == if Since(now, t) < window then Recent(times, now, window) + [t]
            else Recent(times, now, window)
  {
    assert (times + [t])[..|times|] == times;
  }

  lemma CountInAppend(times: seq<Instant>, t: Instant, lo: Instant, hi: Instant)
    ensures CountIn(times + [t], lo, hi) == CountIn(times, lo, hi) + if lo <= t < hi then 1 else 0
  {
    assert (times + [t])[..|times|] == times;
  }

  /** Filtering early and again later is the same as filtering later only. */
  lemma {:induction false} RecentTwice(times: seq<Instant>, now: Instant, later: Instant, window: nat)
    requires now <= later
    ensures Recent(Recent(times, now, window), later, window) == Recent(times, later, window)
  {
    if times != [] {
      var n := |times| - 1;
      RecentTwice(times[..n], now, later, window);
      RecentAppend(Recent(times[..n], now, window), times[n], later, window);
    }
  }

  lemma {:induction false} RecentCoversWindow(times: seq<Instant>, now: Instant, lo: Instant, window: nat)
    requires lo <= now < lo + window
    ensures CountIn(times, lo, lo + window) <= |Recent(times, now, window)|
  {
    if times != [] {
      RecentCoversWindow(times[..|times| - 1], now, lo, window);
    }
  }

  /** The pruned table loses nothing: at every later time it filters to what the complete log
      of accepted requests filters to. */
  lemma {:induction false} StoredTracksLog(p: Policy, reqs: seq<Request>, ip: Ip, t: Instant)
    requires Chronological(reqs)
    requires forall i :: 0 <= i < |reqs| ==> reqs[i].at <= t
    ensures Recent(Stored(Run(p, reqs), ip), t, p.window) == Recent(Accepted(p, reqs, ip), t, p.window)
  {
    if reqs != [] {
      var before, last := reqs[..|reqs| - 1], reqs[|reqs| - 1];
      StoredTracksLog(p, before, ip, t);
      if last.ip == ip {
        var stored := Stored(Run(p, before), ip);
        RecentTwice(stored, last.at, t, p.window);
        RecentAppend(Recent(stored, last.at, p.window), last.at, t, p.window);
        RecentAppend(Accepted(p, before, ip), last.at, t, p.window);
      }
    }
  }

  /** What is kept is what is younger than the window. */
  lemma {:induction false} RecentIsCount(times: seq<Instant>, now: Instant, window: nat)
    requires forall i :: 0 <= i < |times| ==> times[i] <= now
    ensures |Recent(times, now, window)| == CountIn(times, now - window + 1, now + 1)
  {
    if times != [] {
      RecentIsCount(times[..|times| - 1], now, window);
    }
  }

  lemma {:induction false} AcceptedInThePast(p: Policy, reqs: seq<Request>, ip: Ip, t: Instant)
    requires forall i :: 0 <= i < |reqs| ==> reqs[i].at <= t
    ensures forall i :: 0 <= i < |Accepted(p, reqs, ip)| ==> Accepted(p, reqs, ip)[i] <= t
  {
    if reqs != [] {
      hide Allowed;
      AcceptedInThePast(p, reqs[..|reqs| - 1], ip, t);
    }
  }

  lemma NotAfterTheLast(reqs: seq<Request>, r: Request)
    requires Chronological(reqs + [r])
    ensures forall i :: 0 <= i < |reqs| ==> reqs[i].at <= r.at
  {
    var all := reqs + [r];
    assert forall i :: 0 <= i < |reqs| ==> reqs[i] == all[i] && all[|reqs|] == r;
  }

  lemma AllowedByStored(p: Policy, reqs: seq<Request>, r: Request)
    ensures Allowed(p, reqs, r) <==> |Recent(Stored(Run(p, reqs), r.ip), r.at, p.window)| < p.limit
  {
    hide Recent, Run, Stored;
  }

  lemma ChronologicalPrefix(reqs: seq<Request>, r: Request)
    requires Chronological(reqs + [r])
    ensures Chronological(reqs)
  {
    var all := reqs + [r];
    assert forall i :: 0 <= i < |reqs| ==> reqs[i] == all[i];
  }

  /** A request is refused exactly when `limit` accepted requests of its address are younger than the
      window, that is, came less than a window before it. */
  lemma {:induction false} RefusedIffLimitReached(p: Policy, reqs: seq<Request>, r: Request)
    requires Chronological(reqs + [r])
    ensures !Allowed(p, reqs, r)
       <==> CountIn(Accepted(p, reqs, r.ip), r.at - p.window + 1, r.at + 1) >= p.limit
  {
    hide Recent, CountIn, Run, Accepted, Allowed, Stored, Chronological;
    NotAfterTheLast(reqs, r);
    ChronologicalPrefix(reqs, r);
    StoredTracksLog(p, reqs, r.ip, r.at);
    AcceptedInThePast(p, reqs, r.ip, r.at);
    RecentIsCount(Accepted(p, reqs, r.ip), r.at, p.window);
    AllowedByStored(p, reqs, r);
  }

  /** After a check, the stored vector is the whole log of accepted requests filtered to the
      window that ends at this check. */
  lemma {:induction false} StoredIsFilteredLog(p: Policy, reqs: seq<Request>, r: Request)
    requires Chronological(reqs + [r]) && p.window > 0
    ensures Stored(Run(p, reqs + [r]), r.ip) == Recent(Accepted(p, reqs + [r], r.ip), r.at, p.window)
  {
    var all := reqs + [r];
    assert all[..|reqs|] == reqs && all[|reqs|] == r;
    assert forall i :: 0 <= i < |reqs| ==> reqs[i] == all[i];
    StoredTracksLog(p, reqs, r.ip, r.at);
    RecentAppend(Accepted(p, reqs, r.ip), r.at, r.at, p.window);
  }

  /** A window that contains the time of an allowed request held fewer than `limit` before it. */
  lemma AllowedLeavesRoom(p: Policy, reqs: seq<Request>, r: Request, lo: Instant)
    requires Chronological(reqs + [r]) && Allowed(p, reqs, r)
    requires lo <= r.at < lo + p.window
    ensures CountIn(Accepted(p, reqs, r.ip), lo, lo + p.window) < p.limit
  {
    RefusedIffLimitReached(p, reqs, r);
    NotAfterTheLast(reqs, r);
    AcceptedInThePast(p, reqs, r.ip, r.at);
    RecentIsCount(Accepted(p, reqs, r.ip), r.at, p.window);
    RecentCoversWindow(Accepted(p, reqs, r.ip), r.at, lo, p.window);
  }

  lemma AcceptedGrows(p: Policy, reqs: seq<Request>, r: Request, ip: Ip)
    ensures Accepted(p, reqs + [r], ip)
         == Accepted(p, reqs, ip) + if r.ip == ip && Allowed(p, reqs, r) then [r.at] else []
  {
    hide Allowed, Run;
    assert (reqs + [r])[..|reqs|] == reqs;
  }

  /** One more request keeps the bound. */
  lemma BoundGrows(p: Policy, reqs: seq<Request>, r: Request, ip: Ip, lo: Instant)
    requires Chronological(reqs + [r]) && CountIn(Accepted(p, reqs, ip), lo, lo + p.window) <= p.limit
    ensures CountIn(Accepted(p, reqs + [r], ip), lo, lo + p.window) <= p.limit
  {
    hide Allowed, Run, CountIn;
    AcceptedGrows(p, reqs, r, ip);
    if r.ip == ip && Allowed(p, reqs, r) {
      CountInAppend(Accepted(p, reqs, ip), r.at, lo, lo + p.window);
      if lo <= r.at < lo + p.window {
        AllowedLeavesRoom(p, reqs, r, lo);
      }
    }
  }

  /** The rate bound: no half-open interval of window length, wherever it starts, ever holds
      more than `limit` accepted requests of one address. */
  lemma {:induction false} AnyWindowBound(p: Policy, reqs: seq<Request>, ip: Ip, lo: Instant)
    requires Chronological(reqs)
    ensures CountIn(Accepted(p, reqs, ip), lo, lo + p.window) <= p.limit
    decreases |reqs|
  {
    if reqs == [] {
      assert Accepted(p, reqs, ip) == [];
    } else {
      hide Accepted, CountIn;
      var before, last := reqs[..|reqs| - 1], reqs[|reqs| - 1];
      AnyWindowBound(p, before, ip, lo);
      assert before + [last] == reqs;
      BoundGrows(p, before, last, ip, lo);
    }
  }

  function Only(reqs: seq<Request>, ip: Ip): seq<Request> {
    if reqs == [] then []
    else
      var last := reqs[|reqs| - 1];
      var only := Only(reqs[..|reqs| - 1], ip);
      if last.ip == ip then only + [last] else only
  }

  /** Addresses are isolated: what is stored for `ip`, and every decision about it, is what it
      would be had no other address ever asked. */
  lemma {:induction false} OtherAddressesDoNotMatter(p: Policy, reqs: seq<Request>, ip: Ip)
    ensures Stored(Run(p, reqs), ip) == Stored(Run(p, Only(reqs, ip)), ip)
    ensures Accepted(p, reqs, ip) == Accepted(p, Only(reqs, ip), ip)
  {
    if reqs != [] {
      var before, last := reqs[..|reqs| - 1], reqs[|reqs| - 1];
      OtherAddressesDoNotMatter(p, before, ip);
      if last.ip == ip {
        assert Only(reqs, ip)[..|Only(before, ip)|] == Only(before, ip);
      } else {
        assert Only(reqs, ip) == Only(before, ip);
      }
    }
  }

  // ---------------------------------------------------------------------------
  // The two limits

  /** Five registrations in any hour and sixty lookups in any minute, in nanoseconds. */
  lemma FiveAnHourSixtyAMinute(reqs: seq<Request>, ip: Ip, lo: Instant)
    requires Chronological(reqs)
    ensures CountIn(Accepted(REGISTER, reqs, ip), lo, lo + 3_600_000_000_000) <= 5
    ensures CountIn(Accepted(LOOKUP, reqs, ip), lo, lo + 60_000_000_000) <= 60
  {
    hide Accepted, CountIn;
    AnyWindowBound(REGISTER, reqs, ip, lo);
    AnyWindowBound(LOOKUP, reqs, ip, lo);
  }

  lemma RunGrows(p: Policy, reqs: seq<Request>, r: Request)
    ensures Run(p, reqs + [r]) == Decide(Run(p, reqs), r.ip, r.at, p).0
  {
    hide Decide;
    assert (reqs + [r])[..|reqs|] == reqs;
  }

  lemma ChronologicalGrows(reqs: seq<Request>, r: Request)
    requires Chronological(reqs) && forall i :: 0 <= i < |reqs| ==> reqs[i].at <= r.at
    ensures Chronological(reqs + [r])
  {}

  /** The limiter keeps one table for each kind of request; `registrations` and `lookups` are the
      requests it has been asked about. */
  class RateLimiter {
    const register: Window
    const lookup: Window
    ghost var registrations: seq<Request>
    ghost var lookups: seq<Request>

    ghost predicate Valid()
      reads this, register, lookup
    {
      register != lookup && Chronological(registrations) && Chronological(lookups)
      && register.times == Run(REGISTER, registrations) && lookup.times == Run(LOOKUP, lookups)
    }

    constructor ()
      ensures Valid() && fresh(register) && fresh(lookup) && registrations == lookups == []
    {
      register := new Window();
      lookup := new Window();
      registrations, lookups := [], [];
    }

    /** Allowed if fewer than five registrations of the address were allowed less than an hour ago. */
    method AllowRegister(ip: Ip, now: Instant) returns (allowed: bool)
      requires Valid() && forall i :: 0 <= i < |registrations| ==> registrations[i].at <= now
      modifies this`registrations, register
      ensures Valid() && registrations == old(registrations) + [Request(ip, now)]
      ensures allowed
         <==> CountIn(Accepted(REGISTER, old(registrations), ip), now - 3_600_000_000_000 + 1, now + 1) < 5
      ensures lookup.times == old(lookup.times)
    {
      hide Accepted, CountIn, Run, Decide;
      var r := Request(ip, now);
      ChronologicalGrows(registrations, r);
      RunGrows(REGISTER, registrations, r);
      RefusedIffLimitReached(REGISTER, registrations, r);
      allowed := register.Check(ip, 5, 3600 * SECOND, now);
      registrations := registrations + [r];
    }

    /** Allowed if fewer than sixty lookups of the address were allowed less than a minute ago. */
    method AllowLookup(ip: Ip, now: Instant) returns (allowed: bool)
      requires Valid() && forall i :: 0 <= i < |lookups| ==> lookups[i].at <= now
      modifies this`lookups, lookup
      ensures Valid() && lookups == old(lookups) + [Request(ip, now)]
      ensures allowed <==> CountIn(Accepted(LOOKUP, old(lookups), ip), now - 60_000_000_000 + 1, now + 1) < 60
      ensures register.times == old(register.times)
    {
      hide Accepted, CountIn, Run, Decide;
      var r := Request(ip, now);
      ChronologicalGrows(lookups, r);
      RunGrows(LOOKUP, lookups, r);
      RefusedIffLimitReached(LOOKUP, lookups, r);
      allowed := lookup.Check(ip, 60, 60 * SECOND, now);
      lookups := lookups + [r];
    }
  }
}
