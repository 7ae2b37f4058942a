/** What the rate limiter owes its clients: how many calls at once are admitted, and what a refusal says
    about the last second. */
module BurstService {
  import opened RateLimiter
  import opened CleanupTransparency

  /** The tokens there are at `now`: those left and those that the whole seconds since the last refill have
      brought, up to the burst; all of it for an address that is not known. */
  function Available(g: Settings, clients: Clients, ip: Address, now: int): int {
    if ip !in clients then g.burst
    else
      var tokens := clients[ip].tokens + g.rps * ((now - clients[ip].lastRefill) / SECOND);
      if tokens > g.burst then g.burst else tokens
  }

  lemma RefillMakesAvailable(g: Settings, clients: Clients, ip: Address, start: int, now: int)
    requires Configured(g) && Valid(g, clients, start) && start <= now
    ensures var c := Refill(g, Looked(g, clients, ip, now), now);
            && c.tokens == Available(g, clients, ip, now) >= 0 && 0 <= now - c.lastRefill < SECOND
  {
    var was := Looked(g, clients, ip, now);
    if now - was.lastRefill >= SECOND {
      Scale(g.rps, 1, (now - was.lastRefill) / SECOND);
    }
  }

  /** A call at `now` takes one of them if there is one, and leaves the others. */
  lemma CallTakesOne(g: Settings, sweep: bool, clients: Clients, ip: Address, start: int, now: int)
    requires Configured(g) && Valid(g, clients, start) && start <= now
    ensures var n := Available(g, clients, ip, now);
            && (Allowed(g, clients, ip, now, now) <==> n > 0)
            && Available(g, After(g, sweep, clients, Allow(ip, now, now)), ip, now) == if n > 0 then n - 1 else 0
  {
    RefillMakesAvailable(g, clients, ip, start, now);
    var c := Taken(g, Looked(g, clients, ip, now), now);
    assert (now - c.lastRefill) / SECOND == 0;
  }

  /** Of any number of calls at one instant, exactly as many are admitted as there are tokens. */
  lemma {:induction false} AdmissionsAtOnce(g: Settings, sweep: bool, clients: Clients, ip: Address,
                                            start: int, now: int, n: nat)
    requires Configured(g) && Valid(g, clients, start) && start <= now
    ensures var available := Available(g, clients, ip, now);
            Admissions(g, sweep, clients, Times(Allow(ip, now, now), n), ip)
            == if n <= available then n else available
    decreases n
  {
    RefillMakesAvailable(g, clients, ip, start, now);
    if n > 0 {
      hide Allowed, After, Available;
      var e := Allow(ip, now, now);
      assert Times(e, n)[1..] == Times(e, n - 1);
      CallTakesOne(g, sweep, clients, ip, start, now);
      AfterKeeps(g, sweep, clients, e, start);
      AdmissionsAtOnce(g, sweep, After(g, sweep, clients, e), ip, now, now, n - 1);
    }
  }

  // -- What a refusal says -----------------------------------------------------------------------

  /** How many of the calls of one address after `since` a run admits. */
  function Recent(g: Settings, sweep: bool, clients: Clients, events: seq<Event>, ip: Address, since: int): nat
    decreases |events|
  {
    if events == [] then 0
    else
      (if Admits(g, clients, events[0], ip) && events[0].now > since then 1 else 0)
      + Recent(g, sweep, After(g, sweep, clients, events[0]), events[1..], ip, since)
  }

  /** What every refill brings at least. */
  function Share(g: Settings): int {
    if g.rps < g.burst then g.rps else g.burst
  }

  /** An entry refilled after `since` has its share left, or has spent it on `served` calls. */
  predicate Covers(g: Settings, clients: Clients, ip: Address, since: int, served: int) {
    ip in clients && clients[ip].lastRefill > since ==> clients[ip].tokens + served >= Share(g)
  }

  lemma StepCovers(g: Settings, sweep: bool, clients: Clients, e: Event, ip: Address, since: int, served: nat,
                   start: int)
    requires Configured(g) && Valid(g, clients, start) && InTime(start, e) && Covers(g, clients, ip, since, served)
    ensures Covers(g, After(g, sweep, clients, e), ip, since,
                   served + if Admits(g, clients, e, ip) && e.now > since then 1 else 0)
  {
    if e.Allow? && e.ip == ip {
      var was := Looked(g, clients, ip, e.seen);
      RefillKeeps(g, was, e.now);
      if e.now - was.lastRefill >= SECOND {
        Scale(g.rps, 1, (e.now - was.lastRefill) / SECOND);
      }
    }
  }

  lemma {:induction false} RunCovers(g: Settings, sweep: bool, clients: Clients, events: seq<Event>, ip: Address,
                                     since: int, served: nat, start: int, end: int)
    requires Configured(g) && Valid(g, clients, start) && Ordered(start, events, end)
    requires Covers(g, clients, ip, since, served)
    ensures Covers(g, AfterAll(g, sweep, clients, events), ip, since,
                   served + Recent(g, sweep, clients, events, ip, since))
    decreases |events|
  {
    if events != [] {
      var e := events[0];
      hide After, Covers, Admits;
      StepCovers(g, sweep, clients, e, ip, since, served, start);
      AfterKeeps(g, sweep, clients, e, start);
      RunCovers(g, sweep, After(g, sweep, clients, e), events[1..], ip, since,
                served + if Admits(g, clients, e, ip) && e.now > since then 1 else 0, Clock(start, e), end);
    }
  }

  /** In every run, with or without cleanup: a call is refused only to an address that has been admitted
      rps times within the last second, or the burst if that is less. */
  lemma RefusedMeansServed(g: Settings, sweep: bool, events: seq<Event>, ip: Address, start: int, seen: int, now: int)
    requires Configured(g) && Ordered(start, events, seen) && seen <= now
    requires !Allowed(g, AfterAll(g, sweep, map[], events), ip, seen, now)
    ensures Recent(g, sweep, map[], events, ip, now - SECOND) >= Share(g)
  {
    var clients := AfterAll(g, sweep, map[], events);
    TokensStayInBucket(g, sweep, map[], events, start, seen);
    RefusedIff(g, clients, ip, seen, seen, now);
    RunCovers(g, sweep, map[], events, ip, now - SECOND, 0, start, seen);
  }
}
