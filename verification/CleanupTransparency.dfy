/** The rate limiter's cleanup against a limiter that never forgets a client: exactly when no run of
    calls can tell them apart. */
module CleanupTransparency {
  import opened RateLimiter

  /** `a` has forgotten some idle clients that `b` still knows. */
  ghost predicate Forgot(g: Settings, a: Clients, b: Clients, now: int) {
    && a.Keys <= b.Keys
    && (forall ip | ip in a :: a[ip] == b[ip])
    && forall ip | ip in b && ip !in a :: Stale(g, b[ip], now)
  }

  /** The two clock readings of an Allow are the same. */
  predicate Prompt(e: Event) {
    e.Allow? ==> e.seen == e.now
  }

  lemma StaleIsRefilled(g: Settings, c: Client, now: int)
    requires Configured(g) && WindowRefills(g) && c.tokens >= 0 && Stale(g, c, now)
    ensures Refill(g, c, now) == Client(g.burst, now, 0)
  {
    Scale(g.rps, g.window * 2 / SECOND, (now - c.lastRefill) / SECOND);
  }

  lemma ForgetfulStep(g: Settings, a: Clients, b: Clients, e: Event, start: int)
    requires Configured(g) && WindowRefills(g) && Valid(g, b, start)
    requires Forgot(g, a, b, start) && InTime(start, e) && Prompt(e)
    ensures Forgot(g, After(g, true, a, e), After(g, false, b, e), Clock(start, e))
    ensures e.Allow? ==> Allowed(g, a, e.ip, e.seen, e.now) == Allowed(g, b, e.ip, e.seen, e.now)
  {
    if e.Allow? && e.ip in b && e.ip !in a {
      StaleIsRefilled(g, b[e.ip], e.now);
    }
  }

  /** From related states the two limiters answer every Allow of a run alike, and end related. */
  lemma {:induction false} ForgetfulRun(g: Settings, a: Clients, b: Clients, events: seq<Event>, ip: Address,
                                        start: int, end: int)
    requires Configured(g) && WindowRefills(g) && Valid(g, b, start)
    requires Forgot(g, a, b, start) && Ordered(start, events, end) && forall e | e in events :: Prompt(e)
    ensures Decisions(g, true, a, events) == Decisions(g, false, b, events)
    ensures Admissions(g, true, a, events, ip) == Admissions(g, false, b, events, ip)
    ensures Forgot(g, AfterAll(g, true, a, events), AfterAll(g, false, b, events), end)
    decreases |events|
  {
    if events != [] {
      var e := events[0];
      ForgetfulStep(g, a, b, e, start);
      AfterKeeps(g, false, b, e, start);
      ForgetfulRun(g, After(g, true, a, e), After(g, false, b, e), events[1..], ip, Clock(start, e), end);
    }
  }

  /** No run of prompt calls can tell the limiter with cleanup from one that never forgets. */
  ghost predicate CleanupTransparent(g: Settings) {
    forall start, events, end | Ordered(start, events, end) && forall e | e in events :: Prompt(e) ::
      Decisions(g, true, map[], events) == Decisions(g, false, map[], events)
  }

  // A run that tells them apart when the window does not refill: spend the burst, hang up, wait for
  // the cleanup, and spend a second burst.

  function Times(e: Event, n: nat): seq<Event> {
    if n == 0 then [] else [e] + Times(e, n - 1)
  }

  function SecondBurst(g: Settings, ip: Address): seq<Event> {
    var later := g.window * 2 + 1;
    Times(Allow(ip, 0, 0), g.burst)
    + (Times(Release(ip), g.burst) + ([Cleanup(later)] + Times(Allow(ip, later, later), g.burst)))
  }

  lemma {:induction false} RunInParts(g: Settings, sweep: bool, clients: Clients, a: seq<Event>, b: seq<Event>,
                                      ip: Address)
    ensures AfterAll(g, sweep, clients, a + b) == AfterAll(g, sweep, AfterAll(g, sweep, clients, a), b)
    ensures Admissions(g, sweep, clients, a + b, ip)
            == Admissions(g, sweep, clients, a, ip) + Admissions(g, sweep, AfterAll(g, sweep, clients, a), b, ip)
    decreases |a|
  {
    if a == [] {
      assert a + b == b;
    } else {
      assert (a + b)[1..] == a[1..] + b;
      RunInParts(g, sweep, After(g, sweep, clients, a[0]), a[1..], b, ip);
    }
  }

  lemma {:induction false} OrderedInParts(start: int, a: seq<Event>, mid: int, b: seq<Event>, end: int)
    requires Ordered(start, a, mid) && Ordered(mid, b, end)
    ensures Ordered(start, a + b, end)
    decreases |a|
  {
    if a == [] {
      assert a + b == b;
      OrderedEarlier(start, mid, b, end);
    } else {
      assert (a + b)[1..] == a[1..] + b;
      OrderedInParts(Clock(start, a[0]), a[1..], mid, b, end);
    }
  }

  lemma {:induction false} OrderedEarlier(start: int, mid: int, events: seq<Event>, end: int)
    requires start <= mid && Ordered(mid, events, end)
    ensures Ordered(start, events, end)
    decreases |events|
  {
    if events != [] && events[0].Release? {
      OrderedEarlier(start, mid, events[1..], end);
    }
  }

  lemma {:induction false} OrderedTimes(e: Event, n: nat, start: int, end: int)
    requires InTime(start, e) && Prompt(e) && Clock(start, e) <= end
    ensures Ordered(start, Times(e, n), end)
    decreases n
  {
    if n > 0 {
      assert Times(e, n)[1..] == Times(e, n - 1);
      OrderedTimes(e, n - 1, Clock(start, e), end);
    }
  }

  /** `n` calls at one instant spend `n` of the tokens there are. */
  lemma {:induction false} Spend(g: Settings, sweep: bool, clients: Clients, ip: Address, now: int, n: nat)
    requires Configured(g)
    requires var c := Looked(g, clients, ip, now); 0 <= now - c.lastRefill < SECOND && n <= c.tokens
    ensures Admissions(g, sweep, clients, Times(Allow(ip, now, now), n), ip) == n
    ensures var c := Looked(g, clients, ip, now);
            n > 0 ==> AfterAll(g, sweep, clients, Times(Allow(ip, now, now), n))
                      == clients[ip := Client(c.tokens - n, c.lastRefill, c.connections + n)]
    decreases n
  {
    if n > 0 {
      var next := After(g, sweep, clients, Allow(ip, now, now));
      assert Times(Allow(ip, now, now), n)[1..] == Times(Allow(ip, now, now), n - 1);
      Spend(g, sweep, next, ip, now, n - 1);
    }
  }

  lemma {:induction false} HangUp(g: Settings, sweep: bool, clients: Clients, ip: Address, n: nat)
    requires Configured(g) && ip in clients && clients[ip].connections == n
    ensures Admissions(g, sweep, clients, Times(Release(ip), n), ip) == 0
    ensures AfterAll(g, sweep, clients, Times(Release(ip), n)) == clients[ip := clients[ip].(connections := 0)]
    decreases n
  {
    if n > 0 {
      var next := After(g, sweep, clients, Release(ip));
      assert Times(Release(ip), n)[1..] == Times(Release(ip), n - 1);
      HangUp(g, sweep, next, ip, n - 1);
    }
  }

  lemma SecondBurstOrdered(g: Settings, ip: Address)
    ensures Ordered(0, SecondBurst(g, ip), g.window * 2 + 1)
  {
    var later := g.window * 2 + 1;
    OrderedTimes(Allow(ip, 0, 0), g.burst, 0, 0);
    OrderedTimes(Release(ip), g.burst, 0, 0);
    OrderedTimes(Allow(ip, later, later), g.burst, later, later);
    var tail := [Cleanup(later)] + Times(Allow(ip, later, later), g.burst);
    assert tail[1..] == Times(Allow(ip, later, later), g.burst);
    OrderedInParts(0, Times(Release(ip), g.burst), 0, tail, later);
    OrderedInParts(0, Times(Allow(ip, 0, 0), g.burst), 0, Times(Release(ip), g.burst) + tail, later);
  }

  /** With cleanup, both bursts are admitted in full. */
  lemma SecondBurstAdmitted(g: Settings, ip: Address)
    requires Configured(g)
    ensures Admissions(g, true, map[], SecondBurst(g, ip), ip) == 2 * g.burst
  {
    var later := g.window * 2 + 1;
    var tail := [Cleanup(later)] + Times(Allow(ip, later, later), g.burst);
    Spend(g, true, map[], ip, 0, g.burst);
    var drained: Clients := map[ip := Client(0, 0, g.burst)];
    HangUp(g, true, drained, ip, g.burst);
    var idle: Clients := map[ip := Client(0, 0, 0)];
    assert After(g, true, idle, tail[0]) == map[];
    assert tail[1..] == Times(Allow(ip, later, later), g.burst);
    Spend(g, true, map[], ip, later, g.burst);
    RunInParts(g, true, map[], Times(Allow(ip, 0, 0), g.burst), Times(Release(ip), g.burst) + tail, ip);
    RunInParts(g, true, drained, Times(Release(ip), g.burst), tail, ip);
  }

  /** A run whose calls all come from one address: its admissions are its positive answers. */
  lemma {:induction false} AdmissionsAreAnswers(g: Settings, sweep: bool, clients: Clients, events: seq<Event>,
                                                ip: Address)
    requires forall e | e in events :: e.Allow? ==> e.ip == ip
    ensures Admissions(g, sweep, clients, events, ip) == multiset(Decisions(g, sweep, clients, events))[true]
    decreases |events|
  {
    if events != [] {
      AdmissionsAreAnswers(g, sweep, After(g, sweep, clients, events[0]), events[1..], ip);
    }
  }

  lemma {:induction false} TimesIs(e: Event, n: nat)
    ensures |Times(e, n)| == n && forall x | x in Times(e, n) :: x == e
    decreases n
  {
    if n > 0 {
      TimesIs(e, n - 1);
    }
  }

  lemma SecondBurstShape(g: Settings, ip: Address)
    requires Configured(g)
    ensures SecondBurst(g, ip) != [] && SecondBurst(g, ip)[0] == Allow(ip, 0, 0)
    ensures forall e | e in SecondBurst(g, ip) :: Prompt(e) && (e.Allow? ==> e.ip == ip)
  {
    TimesIs(Allow(ip, 0, 0), g.burst);
    TimesIs(Release(ip), g.burst);
    TimesIs(Allow(ip, g.window * 2 + 1, g.window * 2 + 1), g.burst);
  }

  lemma SecondBurstTellsApart(g: Settings, ip: Address)
    requires Configured(g) && !WindowRefills(g)
    ensures Decisions(g, true, map[], SecondBurst(g, ip)) != Decisions(g, false, map[], SecondBurst(g, ip))
  {
    hide Decisions, Admissions, Ordered, SecondBurst;
    var events, later := SecondBurst(g, ip), g.window * 2 + 1;
    SecondBurstShape(g, ip);
    AdmissionsAreAnswers(g, true, map[], events, ip);
    AdmissionsAreAnswers(g, false, map[], events, ip);
    SecondBurstAdmitted(g, ip);
    SecondBurstOrdered(g, ip);
    AdmissionsSinceCreation(g, false, map[], events, ip, 0, later);
    assert later / SECOND == g.window * 2 / SECOND;
  }

  /** Cleanup changes no later answer exactly when rps times the whole seconds in twice the window is at
      least the burst. */
  lemma CleanupTransparentIff(g: Settings)
    requires Configured(g)
    ensures CleanupTransparent(g) <==> WindowRefills(g)
  {
    if WindowRefills(g) {
      forall start, events, end | Ordered(start, events, end) && forall e | e in events :: Prompt(e)
        ensures Decisions(g, true, map[], events) == Decisions(g, false, map[], events)
      {
        ForgetfulRun(g, map[], map[], events, "", start, end);
      }
    } else {
      SecondBurstOrdered(g, "");
      SecondBurstShape(g, "");
      SecondBurstTellsApart(g, "");
    }
  }

  /** With cleanup, no address that was not known is ever admitted more than burst + rps per whole second. */
  ghost predicate BurstBounded(g: Settings) {
    forall start, events, end, ip | Ordered(start, events, end) ::
      Admissions(g, true, map[], events, ip) <= g.burst + g.rps * ((end - start) / SECOND)
  }

  /** Cleanup keeps that bound exactly at the settings at which it is transparent, for calls of any kind. */
  lemma BurstBoundedIff(g: Settings)
    requires Configured(g)
    ensures BurstBounded(g) <==> WindowRefills(g)
  {
    if WindowRefills(g) {
      forall start, events, end, ip | Ordered(start, events, end)
        ensures Admissions(g, true, map[], events, ip) <= g.burst + g.rps * ((end - start) / SECOND)
      {
        AdmissionsSinceCreation(g, true, map[], events, ip, start, end);
      }
    } else {
      var later := g.window * 2 + 1;
      SecondBurstOrdered(g, "");
      SecondBurstAdmitted(g, "");
      assert (later - 0) / SECOND == g.window * 2 / SECOND;
    }
  }

  // A call whose two clock readings differ tells them apart even when the window refills: the entry a
  // forgetful limiter makes is dated by the first reading, the refill of a kept one by the second, so
  // a second later only the former is refilled again.

  function SlowCall(g: Settings, ip: Address): seq<Event>
    requires g.burst > 0
  {
    var later := g.window * 2 + 1;
    [Allow(ip, 0, 0)] + ([Release(ip)] + ([Cleanup(later)] + ([Allow(ip, later, later + 1)] + Aftermath(g, ip))))
  }

  /** The rest of the burst, and one more call a second after the cleanup. */
  function Aftermath(g: Settings, ip: Address): seq<Event>
    requires g.burst > 0
  {
    var later := g.window * 2 + 1;
    Times(Allow(ip, later + 1, later + 1), g.burst - 1) + [Allow(ip, later + SECOND, later + SECOND)]
  }

  lemma RunFirst(g: Settings, sweep: bool, clients: Clients, e: Event, rest: seq<Event>, ip: Address)
    ensures Admissions(g, sweep, clients, [e] + rest, ip)
            == (if Admits(g, clients, e, ip) then 1 else 0)
               + Admissions(g, sweep, After(g, sweep, clients, e), rest, ip)
  {
    assert ([e] + rest)[1..] == rest;
  }

  lemma OrderedFirst(start: int, e: Event, rest: seq<Event>, end: int)
    requires InTime(start, e) && Ordered(Clock(start, e), rest, end)
    ensures Ordered(start, [e] + rest, end)
  {
    assert ([e] + rest)[1..] == rest;
  }

  lemma AftermathOrdered(g: Settings, ip: Address)
    requires Configured(g)
    ensures Ordered(g.window * 2 + 2, Aftermath(g, ip), g.window * 2 + 1 + SECOND)
  {
    var start, end := g.window * 2 + 2, g.window * 2 + 1 + SECOND;
    var last := [Allow(ip, end, end)];
    assert last[1..] == [];
    OrderedTimes(Allow(ip, start, start), g.burst - 1, start, start);
    OrderedInParts(start, Times(Allow(ip, start, start), g.burst - 1), start, last, end);
  }

  lemma SlowCallOrdered(g: Settings, ip: Address)
    requires Configured(g)
    ensures Ordered(0, SlowCall(g, ip), g.window * 2 + 1 + SECOND)
  {
    var later := g.window * 2 + 1;
    var end, rest := later + SECOND, Aftermath(g, ip);
    AftermathOrdered(g, ip);
    hide Ordered, Aftermath;
    OrderedFirst(later, Allow(ip, later, later + 1), rest, end);
    OrderedFirst(0, Cleanup(later), [Allow(ip, later, later + 1)] + rest, end);
    OrderedFirst(0, Release(ip), [Cleanup(later)] + ([Allow(ip, later, later + 1)] + rest), end);
    OrderedFirst(0, Allow(ip, 0, 0), [Release(ip)] + ([Cleanup(later)] + ([Allow(ip, later, later + 1)] + rest)), end);
  }

  lemma SlowCallOfOneAddress(g: Settings, ip: Address)
    requires Configured(g)
    ensures forall e | e in SlowCall(g, ip) :: e.Allow? ==> e.ip == ip
  {
    TimesIs(Allow(ip, g.window * 2 + 2, g.window * 2 + 2), g.burst - 1);
  }

  /** The entry after the slow call, dated `date`, and what the rest of the run admits. */
  lemma AftermathAdmitted(g: Settings, sweep: bool, ip: Address, date: int)
    requires Configured(g)
    requires var later := g.window * 2 + 1; date == later || date == later + 1
    ensures Admissions(g, sweep, map[ip := Client(g.burst - 1, date, 1)], Aftermath(g, ip), ip)
            == g.burst - 1 + if date == g.window * 2 + 1 then 1 else 0
  {
    var later := g.window * 2 + 1;
    var entry: Clients := map[ip := Client(g.burst - 1, date, 1)];
    var spent: Clients := map[ip := Client(0, date, g.burst)];
    var burst, last := Times(Allow(ip, later + 1, later + 1), g.burst - 1), [Allow(ip, later + SECOND, later + SECOND)];
    Spend(g, sweep, entry, ip, later + 1, g.burst - 1);
    assert AfterAll(g, sweep, entry, burst) == spent;
    RunInParts(g, sweep, entry, burst, last, ip);
    LastCallAdmitted(g, sweep, ip, date);
  }

  lemma LastCallAdmitted(g: Settings, sweep: bool, ip: Address, date: int)
    requires Configured(g)
    requires var later := g.window * 2 + 1; date == later || date == later + 1
    ensures var end := g.window * 2 + 1 + SECOND;
            Admissions(g, sweep, map[ip := Client(0, date, g.burst)], [Allow(ip, end, end)], ip)
            == if date == g.window * 2 + 1 then 1 else 0
  {
    var end := g.window * 2 + 1 + SECOND;
    var last := [Allow(ip, end, end)];
    RefusedIff(g, map[ip := Client(0, date, g.burst)], ip, end, end, end);
    assert last[1..] == [];
  }

  lemma SlowCallAdmitted(g: Settings, sweep: bool, ip: Address)
    requires Configured(g) && WindowRefills(g)
    ensures Admissions(g, sweep, map[], SlowCall(g, ip), ip) == g.burst + 1 + if sweep then 1 else 0
  {
    var later, rest := g.window * 2 + 1, Aftermath(g, ip);
    var first: Clients := map[ip := Client(g.burst - 1, 0, 1)];
    var idle: Clients := map[ip := Client(g.burst - 1, 0, 0)];
    var swept: Clients := if sweep then map[] else idle;
    var date := if sweep then later else later + 1;
    assert After(g, sweep, map[], Allow(ip, 0, 0)) == first && After(g, sweep, first, Release(ip)) == idle;
    assert After(g, sweep, idle, Cleanup(later)) == swept;
    StaleIsRefilled(g, idle[ip], later + 1);
    assert After(g, sweep, swept, Allow(ip, later, later + 1)) == map[ip := Client(g.burst - 1, date, 1)];
    AftermathAdmitted(g, sweep, ip, date);
    hide Admissions, After, Aftermath;
    RunFirst(g, sweep, swept, Allow(ip, later, later + 1), rest, ip);
    RunFirst(g, sweep, idle, Cleanup(later), [Allow(ip, later, later + 1)] + rest, ip);
    RunFirst(g, sweep, first, Release(ip), [Cleanup(later)] + ([Allow(ip, later, later + 1)] + rest), ip);
    RunFirst(g, sweep, map[], Allow(ip, 0, 0),
             [Release(ip)] + ([Cleanup(later)] + ([Allow(ip, later, later + 1)] + rest)), ip);
  }

  /** For every setting some run of calls that are not all prompt notices the cleanup. */
  lemma SlowCallsNoticeCleanup(g: Settings)
    requires Configured(g)
    ensures exists start, events, end ::
              Ordered(start, events, end) && Decisions(g, true, map[], events) != Decisions(g, false, map[], events)
  {
    hide Ordered, Decisions, SlowCall, SecondBurst;
    if WindowRefills(g) {
      SlowCallOrdered(g, "");
      SlowCallOfOneAddress(g, "");
      SlowCallAdmitted(g, true, "");
      SlowCallAdmitted(g, false, "");
      AdmissionsAreAnswers(g, true, map[], SlowCall(g, ""), "");
      AdmissionsAreAnswers(g, false, map[], SlowCall(g, ""), "");
    } else {
      SecondBurstOrdered(g, "");
      SecondBurstTellsApart(g, "");
    }
  }
}
