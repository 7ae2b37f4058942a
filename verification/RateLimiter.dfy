/** The gateway's per-address rate limiter: a token bucket with whole-second refill, and a cleanup
    that forgets idle clients. Instants and durations are in nanoseconds. */
module RateLimiter {
  type Address = string
  type Clients = map<Address, Client>

  const SECOND: nat := 1_000_000_000

  datatype Settings = Settings(enabled: bool, rps: nat, burst: nat, window: nat)

  /** What the gateway's configuration demands of an enabled limiter. */
  predicate Configured(g: Settings) {
    g.enabled && g.rps > 0 && g.burst > 0 && g.window > 0
  }

  datatype Client = Client(tokens: int, lastRefill: int, connections: int)

  // -- One client --------------------------------------------------------------------------------

  function Refill(g: Settings, c: Client, now: int): Client {
    var add := (now - c.lastRefill) / SECOND * g.rps;
    if add > 0 then
      Client(if c.tokens + add > g.burst then g.burst else c.tokens + add, now, c.connections)
    else c
  }

  /** A call at `now` on this entry is granted, after the refill that is due. */
  predicate Granted(g: Settings, c: Client, now: int) {
    Refill(g, c, now).tokens > 0
  }

  function Taken(g: Settings, c: Client, now: int): Client {
    var r := Refill(g, c, now);
    if r.tokens > 0 then Client(r.tokens - 1, r.lastRefill, r.connections + 1) else r
  }

  /** The entry Allow works on: the stored one, or a full one made on the spot at `seen`. The clock is
      read again for the refill. */
  function Looked(g: Settings, clients: Clients, ip: Address, seen: int): Client {
    if ip in clients then clients[ip] else Client(g.burst, seen, 0)
  }

  predicate Allowed(g: Settings, clients: Clients, ip: Address, seen: int, now: int) {
    g.enabled ==> Granted(g, Looked(g, clients, ip, seen), now)
  }

  function AfterAllow(g: Settings, clients: Clients, ip: Address, seen: int, now: int): Clients {
    if !g.enabled then clients else clients[ip := Taken(g, Looked(g, clients, ip, seen), now)]
  }

  function AfterRelease(g: Settings, clients: Clients, ip: Address): Clients {
    if g.enabled && ip in clients && clients[ip].connections > 0
    then clients[ip := clients[ip].(connections := clients[ip].connections - 1)]
    else clients
  }

  predicate Stale(g: Settings, c: Client, now: int) {
    c.connections == 0 && now - c.lastRefill > g.window * 2
  }

  function AfterCleanup(g: Settings, clients: Clients, now: int): Clients {
    map ip | ip in clients && !Stale(g, clients[ip], now) :: clients[ip]
  }

  // -- The limiter as the source writes it -------------------------------------------------------

  class Limiter {
    const settings: Settings
    var clients: Clients

    constructor (settings: Settings)
      ensures this.settings == settings && clients == map[]
    {
      this.settings := settings;
      clients := map[];
    }

    /** `seen` and `now` are the two readings of the clock. */
    method Allow(ip: Address, seen: int, now: int) returns (ok: bool)
      modifies this
      ensures ok == Allowed(settings, old(clients), ip, seen, now)
      ensures clients == AfterAllow(settings, old(clients), ip, seen, now)
      ensures !settings.enabled ==> ok && clients == old(clients)
    {
      if !settings.enabled {
        return true;
      }
      if ip !in clients {
        clients := clients[ip := Client(settings.burst, seen, 0)];
      }
      var client := clients[ip];
      var tokensToAdd := (now - client.lastRefill) / SECOND * settings.rps;
      if tokensToAdd > 0 {
        client := client.(tokens := client.tokens + tokensToAdd);
        if client.tokens > settings.burst {
          client := client.(tokens := settings.burst);
        }
        client := client.(lastRefill := now);
      }
      ok := client.tokens > 0;
      if ok {
        client := client.(tokens := client.tokens - 1, connections := client.connections + 1);
      }
      clients := clients[ip := client];
    }

    method Release(ip: Address)
      modifies this
      ensures clients == AfterRelease(settings, old(clients), ip)
      ensures !settings.enabled || ip !in old(clients) || old(clients)[ip].connections <= 0 ==>
                clients == old(clients)
    {
      if !settings.enabled {
        return;
      }
      if ip in clients {
        var client := clients[ip];
        if client.connections > 0 {
          clients := clients[ip := client.(connections := client.connections - 1)];
        }
      }
    }

    method CleanupInactiveClients(now: int)
      modifies this
      ensures clients == AfterCleanup(settings, old(clients), now)
      ensures forall ip :: ip in clients <==>
                && ip in old(clients)
                && (old(clients)[ip].connections != 0 || now - old(clients)[ip].lastRefill <= settings.window * 2)
    {
      var rest := clients.Keys;
      while rest != {}
        invariant rest <= clients.Keys
        invariant clients == map ip | ip in old(clients) && (ip in rest || !Stale(settings, old(clients)[ip], now))
                               :: old(clients)[ip]
        decreases rest
      {
        var ip :| ip in rest;
        var client := clients[ip];
        if client.connections == 0 && now - client.lastRefill > settings.window * 2 {
          clients := clients - {ip};
        }
        rest := rest - {ip};
      }
    }
  }

  // -- Runs --------------------------------------------------------------------------------------

  datatype Event = Allow(ip: Address, seen: int, now: int) | Release(ip: Address) | Cleanup(now: int)

  /** One event, on the limiter that cleans up (`sweep`) or on one that never forgets a client. */
  function After(g: Settings, sweep: bool, clients: Clients, e: Event): Clients {
    match e
    case Allow(ip, seen, now) => AfterAllow(g, clients, ip, seen, now)
    case Release(ip) => AfterRelease(g, clients, ip)
    case Cleanup(now) => if sweep then AfterCleanup(g, clients, now) else clients
  }

  function AfterAll(g: Settings, sweep: bool, clients: Clients, events: seq<Event>): Clients
    decreases |events|
  {
    if events == [] then clients
    else AfterAll(g, sweep, After(g, sweep, clients, events[0]), events[1..])
  }

  /** The clock after an event; a Release does not read it. */
  function Clock(start: int, e: Event): int {
    if e.Release? then start else e.now
  }

  predicate InTime(start: int, e: Event) {
    match e
    case Allow(_, seen, now) => start <= seen <= now
    case Release(_) => true
    case Cleanup(now) => start <= now
  }

  /** The events' clock readings never go back, start at `start` or later and end by `end`. */
  predicate Ordered(start: int, events: seq<Event>, end: int)
    decreases |events|
  {
    if events == [] then start <= end
    else InTime(start, events[0]) && Ordered(Clock(start, events[0]), events[1..], end)
  }

  /** The answers of the Allow calls of a run, in order. */
  function Decisions(g: Settings, sweep: bool, clients: Clients, events: seq<Event>): seq<bool>
    decreases |events|
  {
    if events == [] then []
    else
      (if events[0].Allow? then [Allowed(g, clients, events[0].ip, events[0].seen, events[0].now)] else [])
      + Decisions(g, sweep, After(g, sweep, clients, events[0]), events[1..])
  }

  predicate Admits(g: Settings, clients: Clients, e: Event, ip: Address) {
    e.Allow? && e.ip == ip && Allowed(g, clients, ip, e.seen, e.now)
  }

  /** How many connections of one address a run admits. */
  function Admissions(g: Settings, sweep: bool, clients: Clients, events: seq<Event>, ip: Address): nat
    decreases |events|
  {
    if events == [] then 0
    else
      (if Admits(g, clients, events[0], ip) then 1 else 0)
      + Admissions(g, sweep, After(g, sweep, clients, events[0]), events[1..], ip)
  }

  /** Between calls an entry never holds a full bucket: the call that made or refilled it took one. */
  predicate ClientValid(g: Settings, c: Client, now: int) {
    0 <= c.tokens < g.burst && c.lastRefill <= now && c.connections >= 0
  }

  ghost predicate Valid(g: Settings, clients: Clients, now: int) {
    forall ip | ip in clients :: ClientValid(g, clients[ip], now)
  }

  // -- Tokens stay within the bucket -------------------------------------------------------------

  lemma RefillKeeps(g: Settings, c: Client, now: int)
    requires c.lastRefill <= now && 0 <= c.tokens <= g.burst
    ensures var r := Refill(g, c, now);
            && c.tokens <= r.tokens <= g.burst && c.lastRefill <= r.lastRefill <= now
            && r.connections == c.connections
  {
  }

  lemma AfterKeeps(g: Settings, sweep: bool, clients: Clients, e: Event, start: int)
    requires Configured(g) && Valid(g, clients, start) && InTime(start, e)
    ensures Valid(g, After(g, sweep, clients, e), Clock(start, e))
  {
    if e.Allow? {
      RefillKeeps(g, Looked(g, clients, e.ip, e.seen), e.now);
    }
  }

  /** In every run every bucket stays within [0, burst), and no connection count is negative. */
  lemma {:induction false} TokensStayInBucket(g: Settings, sweep: bool, clients: Clients, events: seq<Event>,
                                              start: int, end: int)
    requires Configured(g) && Valid(g, clients, start) && Ordered(start, events, end)
    ensures Valid(g, AfterAll(g, sweep, clients, events), end)
    decreases |events|
  {
    if events != [] {
      AfterKeeps(g, sweep, clients, events[0], start);
      TokensStayInBucket(g, sweep, After(g, sweep, clients, events[0]), events[1..], Clock(start, events[0]), end);
    }
  }

  /** In a reachable state a call is refused exactly when the address has spent its tokens and less
      than a whole second has passed since its last refill. */
  lemma RefusedIff(g: Settings, clients: Clients, ip: Address, start: int, seen: int, now: int)
    requires Configured(g) && Valid(g, clients, start) && start <= seen <= now
    ensures !Allowed(g, clients, ip, seen, now) <==>
              ip in clients && clients[ip].tokens == 0 && now - clients[ip].lastRefill < SECOND
  {
    RefillKeeps(g, Looked(g, clients, ip, seen), now);
    if ip in clients {
      if now - clients[ip].lastRefill >= SECOND {
        Scale(g.rps, 1, (now - clients[ip].lastRefill) / SECOND);
      }
    }
  }

  // -- How many connections are admitted ---------------------------------------------------------

  /** What the entry can still admit until `end`. */
  function Budget(g: Settings, c: Client, end: int): int {
    c.tokens + g.rps * ((end - c.lastRefill) / SECOND)
  }

  lemma Scale(k: nat, x: int, y: int)
    requires x <= y
    ensures k * x <= k * y
  {
  }

  lemma RefillSpendsNoMore(g: Settings, c: Client, now: int, end: int)
    requires c.lastRefill <= now <= end && 0 <= c.tokens <= g.burst
    ensures Budget(g, Refill(g, c, now), end) <= Budget(g, c, end)
  {
    var x, y, z := (now - c.lastRefill) / SECOND, (end - now) / SECOND, (end - c.lastRefill) / SECOND;
    assert x + y <= z;
    assert g.rps * x + g.rps * y <= g.rps * z by { Scale(g.rps, x + y, z); }
  }

  lemma {:induction false} OrderedEnds(start: int, events: seq<Event>, end: int)
    requires Ordered(start, events, end)
    ensures start <= end
    decreases |events|
  {
    if events != [] {
      OrderedEnds(Clock(start, events[0]), events[1..], end);
    }
  }

  /** Twice the window refills any bucket to the brim. */
  predicate WindowRefills(g: Settings) {
    g.rps * (g.window * 2 / SECOND) >= g.burst
  }

  /** What an address can still be granted until `end`; one that is not known has a full bucket. */
  function Potential(g: Settings, clients: Clients, ip: Address, now: int, end: int): int {
    if ip in clients then Budget(g, clients[ip], end) else g.burst + g.rps * ((end - now) / SECOND)
  }

  /** Forgetting a stale entry gives the address nothing that waiting had not given it already. */
  lemma ForgettingGivesNothing(g: Settings, c: Client, now: int, end: int)
    requires WindowRefills(g) && Stale(g, c, now) && now <= end && c.tokens >= 0
    ensures g.burst + g.rps * ((end - now) / SECOND) <= Budget(g, c, end)
  {
    var x, y, z := g.window * 2 / SECOND, (end - now) / SECOND, (end - c.lastRefill) / SECOND;
    assert x <= (now - c.lastRefill) / SECOND && x + y <= z;
    assert g.rps * x + g.rps * y <= g.rps * z by { Scale(g.rps, x + y, z); }
  }

  lemma AllowPays(g: Settings, clients: Clients, ip: Address, start: int, seen: int, now: int, end: int)
    requires Configured(g) && Valid(g, clients, start) && start <= seen <= now <= end
    ensures Budget(g, Refill(g, Looked(g, clients, ip, seen), now), end) <= Potential(g, clients, ip, start, end)
  {
    RefillSpendsNoMore(g, Looked(g, clients, ip, seen), now, end);
    if ip !in clients {
      Scale(g.rps, (end - seen) / SECOND, (end - start) / SECOND);
    }
  }

  /** One event: what is admitted is paid for. With cleanup, twice the window has to refill the bucket. */
  lemma EventPays(g: Settings, sweep: bool, clients: Clients, e: Event, ip: Address, start: int, end: int)
    requires Configured(g) && Valid(g, clients, start) && InTime(start, e) && Clock(start, e) <= end
    requires sweep ==> WindowRefills(g)
    ensures (if Admits(g, clients, e, ip) then 1 else 0)
            + Potential(g, After(g, sweep, clients, e), ip, Clock(start, e), end)
            <= Potential(g, clients, ip, start, end)
  {
    if e.Allow? && e.ip == ip {
      AllowPays(g, clients, ip, start, e.seen, e.now, end);
    } else {
      if ip !in clients {
        Scale(g.rps, (end - Clock(start, e)) / SECOND, (end - start) / SECOND);
      }
      if e.Cleanup? && sweep && ip in clients && Stale(g, clients[ip], e.now) {
        ForgettingGivesNothing(g, clients[ip], e.now, end);
      }
    }
  }

  /** From any state, an address is admitted at most its tokens plus rps per whole second since its last
      refill, or, if it is not known, the burst plus rps per whole second. */
  lemma {:induction false} AdmissionsWithinBudget(g: Settings, sweep: bool, clients: Clients, events: seq<Event>,
                                                  ip: Address, start: int, end: int)
    requires Configured(g) && Valid(g, clients, start) && Ordered(start, events, end)
    requires sweep ==> WindowRefills(g)
    ensures Admissions(g, sweep, clients, events, ip) <= Potential(g, clients, ip, start, end)
    decreases |events|
  {
    OrderedEnds(start, events, end);
    if events != [] {
      var e := events[0];
      OrderedEnds(Clock(start, e), events[1..], end);
      EventPays(g, sweep, clients, e, ip, start, end);
      AfterKeeps(g, sweep, clients, e, start);
      AdmissionsWithinBudget(g, sweep, After(g, sweep, clients, e), events[1..], ip, Clock(start, e), end);
    } else {
      Scale(g.rps, 0, (end - if ip in clients then clients[ip].lastRefill else start) / SECOND);
    }
  }

  /** Since its entry was created at `start`, an address is admitted at most burst + rps per whole second. */
  lemma AdmissionsSinceCreation(g: Settings, sweep: bool, clients: Clients, events: seq<Event>, ip: Address,
                                start: int, end: int)
    requires Configured(g) && Valid(g, clients, start) && ip !in clients && Ordered(start, events, end)
    requires sweep ==> WindowRefills(g)
    ensures Admissions(g, sweep, clients, events, ip) <= g.burst + g.rps * ((end - start) / SECOND)
  {
    AdmissionsWithinBudget(g, sweep, clients, events, ip, start, end);
  }

  /** burst + rps * (whole seconds + 1), less the token that made the entry. */
  function WindowBound(g: Settings, length: int): int {
    g.burst - 1 + g.rps * (length / SECOND + 1)
  }

  /** A call that does not refill comes less than a second after the last refill. */
  lemma UnrefilledIsRecent(g: Settings, c: Client, now: int)
    requires g.rps > 0 && c.lastRefill <= now && Refill(g, c, now).lastRefill != now
    ensures now - c.lastRefill < SECOND
  {
  }

  /** The first Allow of the address inside the window, at `now`, sets what the window can admit. */
  lemma FirstAllowInWindow(g: Settings, clients: Clients, ip: Address, start: int, seen: int, now: int, end: int)
    requires Configured(g) && Valid(g, clients, start) && start <= seen <= now <= end
    ensures var c := Refill(g, Looked(g, clients, ip, seen), now);
            Budget(g, c, end) <= WindowBound(g, end - start)
  {
    var was := Looked(g, clients, ip, seen);
    var c := Refill(g, was, now);
    RefillKeeps(g, was, now);
    if c.lastRefill >= start {
      Scale(g.rps, (end - c.lastRefill) / SECOND, (end - start) / SECOND);
    } else {
      UnrefilledIsRecent(g, was, now);
      Scale(g.rps, (end - c.lastRefill) / SECOND, (end - start) / SECOND + 1);
    }
  }

  lemma WindowFromFirst(g: Settings, sweep: bool, clients: Clients, events: seq<Event>, ip: Address,
                        start: int, end: int)
    requires Configured(g) && Valid(g, clients, start) && Ordered(start, events, end)
    requires sweep ==> WindowRefills(g)
    requires events != [] && events[0].Allow? && events[0].ip == ip
    ensures Admissions(g, sweep, clients, events, ip) <= WindowBound(g, end - start)
  {
    var e := events[0];
    OrderedEnds(e.now, events[1..], end);
    AfterKeeps(g, sweep, clients, e, start);
    FirstAllowInWindow(g, clients, ip, start, e.seen, e.now, end);
    AdmissionsWithinBudget(g, sweep, After(g, sweep, clients, e), events[1..], ip, e.now, end);
  }

  /** Whatever came before, the events of a window [begin, end] admit one address at most WindowBound
      times: without cleanup always, and with cleanup if twice the window refills the bucket. */
  lemma {:induction false} WindowAdmissions(g: Settings, sweep: bool, clients: Clients, events: seq<Event>,
                                            ip: Address, begin: int, start: int, end: int)
    requires Configured(g) && begin <= start && Valid(g, clients, start) && Ordered(start, events, end)
    requires sweep ==> WindowRefills(g)
    ensures Admissions(g, sweep, clients, events, ip) <= WindowBound(g, end - begin)
    decreases |events|
  {
    OrderedEnds(start, events, end);
    Scale(g.rps, 0, (end - begin) / SECOND + 1);
    if events != [] {
      var e := events[0];
      var next := After(g, sweep, clients, e);
      OrderedEnds(Clock(start, e), events[1..], end);
      AfterKeeps(g, sweep, clients, e, start);
      if e.Allow? && e.ip == ip {
        WindowFromFirst(g, sweep, clients, events, ip, start, end);
        Scale(g.rps, (end - start) / SECOND, (end - begin) / SECOND);
      } else {
        WindowAdmissions(g, sweep, next, events[1..], ip, begin, Clock(start, e), end);
      }
    }
  }

  /** The bound is attained: with a burst of 2 and one token a second, a call at 0 and then two calls
      0.1 s apart are all admitted, the last two in a window shorter than a second. */
  lemma WindowBoundIsAttained()
    ensures var g := Settings(true, 1, 2, SECOND);
            var ip := "10.0.0.1";
            var before := AfterAll(g, false, map[], [Allow(ip, 0, 0)]);
            var window := [Allow(ip, 900_000_000, 900_000_000), Allow(ip, SECOND, SECOND)];
            && Ordered(900_000_000, window, SECOND)
            && Admissions(g, false, before, window, ip) == WindowBound(g, SECOND - 900_000_000)
  {
    var g := Settings(true, 1, 2, SECOND);
    var ip := "10.0.0.1";
    var first: seq<Event> := [Allow(ip, 0, 0)];
    assert AfterAll(g, false, After(g, false, map[], first[0]), first[1..]) == map[ip := Client(1, 0, 1)];
    var before: Clients := map[ip := Client(1, 0, 1)];
    var window := [Allow(ip, 900_000_000, 900_000_000), Allow(ip, SECOND, SECOND)];
    assert window[1..] == [Allow(ip, SECOND, SECOND)];
    assert Ordered(900_000_000, window[1..], SECOND);
    assert After(g, false, before, window[0]) == map[ip := Client(0, 0, 2)];
    assert Admissions(g, false, map[ip := Client(0, 0, 2)], window[1..], ip) == 1;
  }
}
