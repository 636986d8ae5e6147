/**
 The fixed-window rate limiter of cmd/server/main.go. Times are nanoseconds; requests and cleanup ticks are
 serialized by the limiter's mutex, and the clock does not go back.
 */
module RateLimiter {
  import opened Basics

  const MAX_CLIENTS := 10_000

  type Ip = string

  datatype Config = Config(limit: nat, window: nat)

  datatype Client = Client(count: nat, resetAt: int)

  // A request of one client that was let through.
  datatype Admission = Admission(ip: Ip, at: int)

  datatype State = State(clients: map<Ip, Client>, now: int, log: seq<Admission>)

  // What happens after some time has passed.
  datatype Event = Request(ip: Ip, elapsed: nat) | Tick(elapsed: nat)

  function Current(cfg: Config, clients: map<Ip, Client>, ip: Ip, t: int): Client {
    if ip !in clients || t > clients[ip].resetAt then Client(0, t + cfg.window) else clients[ip]
  }

  function Serve(cfg: Config, s: State, ip: Ip, t: int): State {
    if |s.clients| >= MAX_CLIENTS && ip !in s.clients then s.(now := t)
    else
      var c := Current(cfg, s.clients, ip, t);
      var c' := c.(count := c.count + 1);
      State(s.clients[ip := c'], t, if c'.count <= cfg.limit then s.log + [Admission(ip, t)] else s.log)
  }

  function Sweep(s: State, t: int): State {
    s.(clients := map ip | ip in s.clients && t <= s.clients[ip].resetAt :: s.clients[ip], now := t)
  }

  function Apply(cfg: Config, s: State, e: Event): State {
    match e
    case Request(ip, elapsed) => Serve(cfg, s, ip, s.now + elapsed)
    case Tick(elapsed) => Sweep(s, s.now + elapsed)
  }

  function Run(cfg: Config, s: State, events: seq<Event>): State {
    if events == [] then s else Apply(cfg, Run(cfg, s, events[..|events| - 1]), events[|events| - 1])
  }

  function Start(t: int): State { State(map[], t, []) }

  // How many requests of a client are let through in [from, to].
  function Admitted(log: seq<Admission>, ip: Ip, from: int, to: int): (n: nat) {
    if log == [] then 0
    else
      var last := log[|log| - 1];
      Admitted(log[..|log| - 1], ip, from, to) + if last.ip == ip && from <= last.at <= to then 1 else 0
  }

  // ---------- the bound ----------

  // The part of the bound that looks back from now: what the latest windows have let through.
  ghost predicate Recent(cfg: Config, s: State, ip: Ip) {
    if ip in s.clients && s.now <= s.clients[ip].resetAt then
      var start, used := s.clients[ip].resetAt - cfg.window, Min(s.clients[ip].count, cfg.limit);
      && start <= s.now && s.clients[ip].count >= 1
      && (forall a :: start < a ==> Admitted(s.log, ip, a, s.now) <= used - 1)
      && (forall a :: start - cfg.window <= a <= start ==> Admitted(s.log, ip, a, s.now) <= used + cfg.limit - 1)
    else
      forall a :: s.now - cfg.window <= a ==> Admitted(s.log, ip, a, s.now) <= cfg.limit - 1
  }

  ghost predicate Bounded(cfg: Config, s: State, ip: Ip) {
    forall a, b :: b <= a + cfg.window ==> Admitted(s.log, ip, a, b) <= 2 * cfg.limit - 1
  }

  ghost predicate Past(s: State) {
    forall i :: 0 <= i < |s.log| ==> s.log[i].at <= s.now
  }

  // Nothing is logged after now, so a later end does not count more.
  lemma {:induction false} NothingLater(log: seq<Admission>, ip: Ip, a: int, b: int, c: int)
    requires forall i :: 0 <= i < |log| ==> log[i].at <= b
    requires b <= c
    ensures Admitted(log, ip, a, b) == Admitted(log, ip, a, c)
  {
    if log != [] { NothingLater(log[..|log| - 1], ip, a, b, c); }
  }

  lemma {:induction false} FewerLater(log: seq<Admission>, ip: Ip, a: int, a': int, b: int)
    requires a <= a'
    ensures Admitted(log, ip, a', b) <= Admitted(log, ip, a, b)
  {
    if log != [] { FewerLater(log[..|log| - 1], ip, a, a', b); }
  }

  lemma {:induction false} EmptyInterval(log: seq<Admission>, ip: Ip, a: int, b: int)
    requires a > b
    ensures Admitted(log, ip, a, b) == 0
  {
    if log != [] { EmptyInterval(log[..|log| - 1], ip, a, b); }
  }

  lemma OneMore(log: seq<Admission>, x: Admission, ip: Ip, a: int, b: int)
    ensures Admitted(log + [x], ip, a, b) == Admitted(log, ip, a, b) + if x.ip == ip && a <= x.at <= b then 1 else 0
  {
    assert (log + [x])[..|log|] == log;
  }

  // Waiting keeps what the recent windows have let through.
  lemma WaitKeeps(cfg: Config, s: State, ip: Ip, t: int)
    requires cfg.limit >= 1 && Past(s) && Recent(cfg, s, ip) && s.now <= t
    ensures Recent(cfg, s.(now := t), ip)
  {
    forall a { NothingLater(s.log, ip, a, s.now, t); }
  }

  // Forgetting a client whose window is over changes nothing about it.
  lemma SweepKeeps(cfg: Config, s: State, ip: Ip, t: int)
    requires cfg.limit >= 1 && Past(s) && Recent(cfg, s, ip) && s.now <= t
    ensures Recent(cfg, Sweep(s, t), ip)
  {
    WaitKeeps(cfg, s, ip, t);
  }

  lemma ServeKeepsOther(cfg: Config, s: State, ip: Ip, other: Ip, t: int)
    requires cfg.limit >= 1 && Past(s) && Recent(cfg, s, ip) && s.now <= t && other != ip
    ensures Recent(cfg, Serve(cfg, s, other, t), ip)
  {
    WaitKeeps(cfg, s, ip, t);
    forall a { OneMore(s.log, Admission(other, t), ip, a, t); }
  }

  // A request of the client itself: waiting first, then serving at once.
  lemma ServeKeepsRecent(cfg: Config, s: State, ip: Ip)
    requires cfg.limit >= 1 && Recent(cfg, s, ip)
    ensures Recent(cfg, Serve(cfg, s, ip, s.now), ip)
  {
    forall a { OneMore(s.log, Admission(ip, s.now), ip, a, s.now); }
    forall a | a > s.now ensures Admitted(s.log, ip, a, s.now) == 0 { EmptyInterval(s.log, ip, a, s.now); }
  }

  lemma ServeKeepsBound(cfg: Config, s: State, ip: Ip)
    requires cfg.limit >= 1 && Past(s) && Recent(cfg, s, ip) && Bounded(cfg, s, ip)
    ensures Bounded(cfg, Serve(cfg, s, ip, s.now), ip)
  {
    var after := Serve(cfg, s, ip, s.now);
    forall a, b | b <= a + cfg.window ensures Admitted(after.log, ip, a, b) <= 2 * cfg.limit - 1 {
      OneMore(s.log, Admission(ip, s.now), ip, a, b);
      assert Admitted(s.log, ip, a, b) <= 2 * cfg.limit - 1;
      if a <= s.now <= b {
        NothingLater(s.log, ip, a, s.now, b);
        assert s.now - cfg.window <= a;
      }
    }
  }

  ghost predicate Inv(cfg: Config, s: State) {
    && Past(s)
    && forall ip {:trigger Bounded(cfg, s, ip)} :: Recent(cfg, s, ip) && Bounded(cfg, s, ip)
  }

  lemma ServeKeepsInv(cfg: Config, s: State, ip: Ip, t: int)
    requires cfg.limit >= 1 && Inv(cfg, s) && s.now <= t
    ensures Inv(cfg, Serve(cfg, s, ip, t))
  {
    var w, after := s.(now := t), Serve(cfg, s, ip, t);
    forall other ensures Recent(cfg, after, other) && Bounded(cfg, after, other) {
      assert Bounded(cfg, s, other);
      WaitKeeps(cfg, s, other, t);
      assert Bounded(cfg, w, other);
      if other == ip {
        ServeKeepsRecent(cfg, w, ip);
        ServeKeepsBound(cfg, w, ip);
        assert after == Serve(cfg, w, ip, t);
      } else {
        ServeKeepsOther(cfg, s, other, ip, t);
        forall a, b { OneMore(s.log, Admission(ip, t), other, a, b); }
      }
    }
  }

  lemma SweepKeepsInv(cfg: Config, s: State, t: int)
    requires cfg.limit >= 1 && Inv(cfg, s) && s.now <= t
    ensures Inv(cfg, Sweep(s, t))
  {
    var after := Sweep(s, t);
    forall ip ensures Recent(cfg, after, ip) && Bounded(cfg, after, ip) {
      assert Bounded(cfg, s, ip);
      SweepKeeps(cfg, s, ip, t);
    }
  }

  lemma ApplyKeepsInv(cfg: Config, s: State, e: Event)
    requires cfg.limit >= 1 && Inv(cfg, s)
    ensures Inv(cfg, Apply(cfg, s, e))
  {
    match e {
      case Request(ip, elapsed) => ServeKeepsInv(cfg, s, ip, s.now + elapsed);
      case Tick(elapsed) => SweepKeepsInv(cfg, s, s.now + elapsed);
    }
  }

  lemma StartInv(cfg: Config, t: int)
    requires cfg.limit >= 1
    ensures Inv(cfg, Start(t))
  {
    forall ip ensures Recent(cfg, Start(t), ip) && Bounded(cfg, Start(t), ip) {
      forall a, b ensures Admitted(Start(t).log, ip, a, b) == 0 {}
    }
  }

  lemma {:induction false} RunKeepsInv(cfg: Config, t: int, events: seq<Event>)
    requires cfg.limit >= 1
    ensures Inv(cfg, Run(cfg, Start(t), events))
  {
    if events == [] {
      StartInv(cfg, t);
    } else {
      var before := Run(cfg, Start(t), events[..|events| - 1]);
      RunKeepsInv(cfg, t, events[..|events| - 1]);
      ApplyKeepsInv(cfg, before, events[|events| - 1]);
    }
  }

  lemma {:induction false} NobodyAdmitted(cfg: Config, t: int, events: seq<Event>)
    requires cfg.limit == 0
    ensures Run(cfg, Start(t), events).log == []
  {
    if events != [] { NobodyAdmitted(cfg, t, events[..|events| - 1]); }
  }

  // Over every run, a closed interval as long as the window lets through at most 2 * limit - 1 requests of
  // one client, whatever the cleanup forgets.
  lemma SlidingBound(cfg: Config, t: int, events: seq<Event>, ip: Ip, from: int)
    ensures Admitted(Run(cfg, Start(t), events).log, ip, from, from + cfg.window) <= Max(2 * cfg.limit - 1, 0)
  {
    if cfg.limit == 0 {
      NobodyAdmitted(cfg, t, events);
    } else {
      RunKeepsInv(cfg, t, events);
      assert Bounded(cfg, Run(cfg, Start(t), events), ip);
    }
  }

  lemma {:induction false} SubsetSize(a: set<Ip>, b: set<Ip>)
    requires a <= b
    ensures |a| <= |b|
  {
    if x :| x in a { SubsetSize(a - {x}, b - {x}); }
  }

  lemma {:induction false} TableBound(cfg: Config, t: int, events: seq<Event>)
    ensures |Run(cfg, Start(t), events).clients| <= MAX_CLIENTS
  {
    if events != [] {
      var before, after := Run(cfg, Start(t), events[..|events| - 1]), Run(cfg, Start(t), events);
      TableBound(cfg, t, events[..|events| - 1]);
      if events[|events| - 1].Tick? {
        SubsetSize(after.clients.Keys, before.clients.Keys);
        assert |after.clients| == |after.clients.Keys| && |before.clients| == |before.clients.Keys|;
      }
    }
  }

  // ---------- the bound is reached ----------

  // n requests of a client at the same moment.
  function Burst(ip: Ip, n: nat): seq<Event> { if n == 0 then [] else Burst(ip, n - 1) + [Request(ip, 0)] }

  lemma {:induction false} RunOn(cfg: Config, s: State, xs: seq<Event>, ys: seq<Event>)
    ensures Run(cfg, s, xs + ys) == Run(cfg, Run(cfg, s, xs), ys)
  {
    if ys == [] {
      assert xs + ys == xs;
    } else {
      RunOn(cfg, s, xs, ys[..|ys| - 1]);
      assert (xs + ys)[..|xs + ys| - 1] == xs + ys[..|ys| - 1];
    }
  }

  // after is s with n more requests of ip let through; count tells how many of them lie in [from, to].
  predicate Granted(s: State, after: State, ip: Ip, n: nat, from: int, to: int) {
    && ip in s.clients && after.now == s.now
    && after.clients == s.clients[ip := s.clients[ip].(count := s.clients[ip].count + n)]
    && Admitted(after.log, ip, from, to) == Admitted(s.log, ip, from, to) + if from <= s.now <= to then n else 0
  }

  lemma GrantOne(cfg: Config, s: State, mid: State, ip: Ip, n: nat, from: int, to: int)
    requires Granted(s, mid, ip, n, from, to)
    requires s.now <= s.clients[ip].resetAt && s.clients[ip].count + n < cfg.limit
    ensures Granted(s, Serve(cfg, mid, ip, mid.now), ip, n + 1, from, to)
  {
    OneMore(mid.log, Admission(ip, mid.now), ip, from, to);
  }

  lemma OneMoreRequest(cfg: Config, s: State, ip: Ip, n: nat)
    requires n >= 1
    ensures var mid := Run(cfg, s, Burst(ip, n - 1)); Run(cfg, s, Burst(ip, n)) == Serve(cfg, mid, ip, mid.now)
  {
    assert Burst(ip, n)[..|Burst(ip, n)| - 1] == Burst(ip, n - 1);
  }

  // Within an open window a burst that does not exceed the limit is let through.
  lemma {:induction false} BurstGranted(cfg: Config, s: State, ip: Ip, n: nat, from: int, to: int)
    requires ip in s.clients && s.now <= s.clients[ip].resetAt && s.clients[ip].count + n <= cfg.limit
    ensures Granted(s, Run(cfg, s, Burst(ip, n)), ip, n, from, to)
  {
    if n == 0 {
      assert s.clients[ip := s.clients[ip].(count := s.clients[ip].count + 0)] == s.clients;
    } else {
      BurstGranted(cfg, s, ip, n - 1, from, to);
      OneMoreRequest(cfg, s, ip, n);
      GrantOne(cfg, s, Run(cfg, s, Burst(ip, n - 1)), ip, n - 1, from, to);
    }
  }

  lemma RunThen(cfg: Config, s: State, xs: seq<Event>, mid: State, ys: seq<Event>, end: State)
    requires Run(cfg, s, xs) == mid && Run(cfg, mid, ys) == end
    ensures Run(cfg, s, xs + ys) == end
  {
    RunOn(cfg, s, xs, ys);
  }

  // The rest of the allowance at the moment the window ends.
  lemma LastMoment(cfg: Config, s: State, ip: Ip, to: int) returns (events: seq<Event>, after: State)
    requires cfg.limit >= 1 && s.clients == map[ip := Client(1, s.now)] && s.now <= to
    ensures after == Run(cfg, s, events)
    ensures after.now == s.now && after.clients == map[ip := Client(cfg.limit, s.now)]
    ensures Admitted(after.log, ip, s.now, to) == Admitted(s.log, ip, s.now, to) + cfg.limit - 1
  {
    events := Burst(ip, cfg.limit - 1);
    after := Run(cfg, s, events);
    assert s.clients[ip] == Client(1, s.now);
    BurstGranted(cfg, s, ip, cfg.limit - 1, s.now, to);
    assert s.clients[ip := Client(cfg.limit, s.now)] == map[ip := Client(cfg.limit, s.now)];
  }

  // One request, then the rest of its window's allowance when that window ends.
  lemma FirstWindow(cfg: Config, t: int, ip: Ip) returns (events: seq<Event>, after: State)
    requires cfg.limit >= 1 && cfg.window >= 1
    ensures after == Run(cfg, Start(t), events)
    ensures after.now == t + cfg.window && after.clients == map[ip := Client(cfg.limit, t + cfg.window)]
    ensures Admitted(after.log, ip, t + cfg.window, t + 2 * cfg.window) == cfg.limit - 1
  {
    var opening, s := Opened(cfg, t, ip);
    var burst;
    burst, after := LastMoment(cfg, s, ip, t + 2 * cfg.window);
    events := opening + burst;
    RunThen(cfg, Start(t), opening, s, burst, after);
  }

  lemma Renewed(cfg: Config, s: State, ip: Ip, from: int, to: int) returns (after: State)
    requires cfg.limit >= 1 && ip in s.clients && s.clients[ip].resetAt == s.now && |s.clients| < MAX_CLIENTS
    requires from <= s.now + 1 <= to
    ensures after == Run(cfg, s, [Request(ip, 1)])
    ensures after.now == s.now + 1 && ip in after.clients
    ensures after.clients[ip] == Client(1, s.now + 1 + cfg.window)
    ensures Admitted(after.log, ip, from, to) == Admitted(s.log, ip, from, to) + 1
  {
    OneEvent(cfg, s, Request(ip, 1));
    after := Serve(cfg, s, ip, s.now + 1);
    OneMore(s.log, Admission(ip, s.now + 1), ip, from, to);
  }

  // A full allowance just after that.
  lemma SecondWindow(cfg: Config, s: State, ip: Ip, from: int, to: int) returns (events: seq<Event>, after: State)
    requires cfg.limit >= 1 && ip in s.clients && s.clients[ip].resetAt == s.now && |s.clients| < MAX_CLIENTS
    requires from <= s.now + 1 <= to
    ensures after == Run(cfg, s, events)
    ensures Admitted(after.log, ip, from, to) == Admitted(s.log, ip, from, to) + cfg.limit
  {
    var mid := Renewed(cfg, s, ip, from, to);
    var burst := Burst(ip, cfg.limit - 1);
    after := Run(cfg, mid, burst);
    BurstGranted(cfg, mid, ip, cfg.limit - 1, from, to);
    events := [Request(ip, 1)] + burst;
    RunThen(cfg, s, [Request(ip, 1)], mid, burst, after);
  }

  // So for every limit and window there is a run that reaches the bound.
  lemma BoundReached(cfg: Config, t: int, ip: Ip) returns (events: seq<Event>, from: int)
    requires cfg.limit >= 1 && cfg.window >= 1
    ensures Admitted(Run(cfg, Start(t), events).log, ip, from, from + cfg.window) == 2 * cfg.limit - 1
  {
    from := t + cfg.window;
    var first, s := FirstWindow(cfg, t, ip);
    var second, after := SecondWindow(cfg, s, ip, from, from + cfg.window);
    events := first + second;
    RunThen(cfg, Start(t), first, s, second, after);
  }

  lemma OneEvent(cfg: Config, s: State, e: Event)
    ensures Run(cfg, s, [e]) == Apply(cfg, s, e)
  {
    assert [e][..0] == [];
    assert Run(cfg, s, [e][..0]) == s;
  }

  lemma Opened(cfg: Config, t: int, ip: Ip) returns (events: seq<Event>, s: State)
    requires cfg.limit >= 1 && cfg.window >= 1
    ensures s == Run(cfg, Start(t), events)
    ensures s.clients == map[ip := Client(1, t + cfg.window)] && s.now == t + cfg.window
    ensures Admitted(s.log, ip, t + cfg.window, t + 2 * cfg.window) == 0
  {
    events := [Request(ip, 0)] + [Tick(cfg.window)];
    OneEvent(cfg, Start(t), Request(ip, 0));
    var s1 := Serve(cfg, Start(t), ip, t);
    assert s1 == State(map[ip := Client(1, t + cfg.window)], t, [Admission(ip, t)]);
    OneEvent(cfg, s1, Tick(cfg.window));
    s := Sweep(s1, t + cfg.window);
    assert s.clients == s1.clients;
    RunThen(cfg, Start(t), [Request(ip, 0)], s1, [Tick(cfg.window)], s);
    OneMore([], Admission(ip, t), ip, t + cfg.window, t + 2 * cfg.window);
    assert [] + [Admission(ip, t)] == [Admission(ip, t)];
  }

  // ---------- which requests are let through ----------

  // The client's window is over, or it has none and there is room for one.
  predicate StartsAnew(s: State, ip: Ip, t: int) {
    if ip in s.clients then t > s.clients[ip].resetAt else |s.clients| < 10_000
  }

  function Copies(x: Admission, n: nat): seq<Admission> { if n == 0 then [] else Copies(x, n - 1) + [x] }

  // One request, from any state: it is let through exactly if it starts a new window and anything is allowed at all, or
  // if its open window has let through less than the limit.
  lemma RequestExact(cfg: Config, s: State, ip: Ip, elapsed: nat)
    ensures var t, after := s.now + elapsed, Apply(cfg, s, Request(ip, elapsed));
            var lets := if StartsAnew(s, ip, t) then cfg.limit >= 1
                        else ip in s.clients && s.clients[ip].count < cfg.limit;
            && after.now == t && after.log == (if lets then s.log + [Admission(ip, t)] else s.log)
            && after.clients == (if StartsAnew(s, ip, t) then s.clients[ip := Client(1, t + cfg.window)]
                                 else if ip in s.clients
                                 then s.clients[ip := Client(s.clients[ip].count + 1, s.clients[ip].resetAt)]
                                 else s.clients)
  {}

  // n requests after s, at the moment that opened the window.
  predicate Bursted(cfg: Config, s: State, after: State, ip: Ip, n: nat) {
    && after.now == s.now && after.log == s.log + Copies(Admission(ip, s.now), Min(n, cfg.limit))
    && (if n == 0 then after == s else ip in after.clients && after.clients[ip] == Client(n, s.now + cfg.window))
  }

  lemma NextOfBurst(cfg: Config, s: State, mid: State, ip: Ip, n: nat)
    requires StartsAnew(s, ip, s.now) && Bursted(cfg, s, mid, ip, n)
    ensures Bursted(cfg, s, Apply(cfg, mid, Request(ip, 0)), ip, n + 1)
  {
    RequestExact(cfg, mid, ip, 0);
    if n < cfg.limit {
      var x := Admission(ip, s.now);
      assert s.log + Copies(x, n) + [x] == s.log + Copies(x, n + 1);
    }
  }

  // A burst in a new window: the first min(n, limit) requests are let through, the opening one included.
  lemma {:induction false} BurstExact(cfg: Config, s: State, ip: Ip, n: nat)
    requires StartsAnew(s, ip, s.now)
    ensures Bursted(cfg, s, Run(cfg, s, Burst(ip, n)), ip, n)
  {
    if n == 0 {
      assert s.log + [] == s.log;
    } else {
      BurstExact(cfg, s, ip, n - 1);
      OneMoreRequest(cfg, s, ip, n);
      NextOfBurst(cfg, s, Run(cfg, s, Burst(ip, n - 1)), ip, n - 1);
    }
  }

  lemma UsedUp(cfg: Config, s: State, after: State, ip: Ip, n: nat, elapsed: nat)
    requires n >= 1 && n >= cfg.limit && Bursted(cfg, s, after, ip, n)
    ensures Apply(cfg, after, Request(ip, elapsed)).log
         == if elapsed > cfg.window && cfg.limit >= 1 then after.log + [Admission(ip, s.now + elapsed)] else after.log
  {
    RequestExact(cfg, after, ip, elapsed);
  }

  // After the limit is used up, every further request in that window is refused; the first one after it is not.
  lemma WindowExact(cfg: Config, s: State, ip: Ip, n: nat, elapsed: nat)
    requires StartsAnew(s, ip, s.now) && n >= 1 && n >= cfg.limit
    ensures var after := Run(cfg, s, Burst(ip, n));
            Apply(cfg, after, Request(ip, elapsed)).log
            == if elapsed > cfg.window && cfg.limit >= 1 then after.log + [Admission(ip, s.now + elapsed)]
               else after.log
  {
    BurstExact(cfg, s, ip, n);
    UsedUp(cfg, s, Run(cfg, s, Burst(ip, n)), ip, n, elapsed);
  }

  // A tick forgets exactly the clients whose window is over.
  lemma TickExact(cfg: Config, s: State, elapsed: nat, ip: Ip)
    ensures var after := Apply(cfg, s, Tick(elapsed));
            && after.now == s.now + elapsed && after.log == s.log
            && (ip in after.clients <==> ip in s.clients && s.clients[ip].resetAt >= s.now + elapsed)
            && (ip in after.clients ==> after.clients[ip] == s.clients[ip])
  {}

  // ---------- the limiter itself ----------

  class Limiter {
    const cfg: Config
    var clients: map<Ip, Client>
    ghost var now: int
    ghost var log: seq<Admission>

    ghost function Value(): State
      reads this
    {
      State(clients, now, log)
    }

    constructor (limit: nat, window: nat, t: int)
      ensures cfg == Config(limit, window) && Value() == Start(t)
    {
      cfg := Config(limit, window);
      clients := map[];
      now := t;
      log := [];
    }

    method Allow(ip: Ip, t: int) returns (allowed: bool)
      requires now <= t
      modifies this
      ensures Value() == Serve(cfg, old(Value()), ip, t)
      ensures log == if allowed then old(log) + [Admission(ip, t)] else old(log)
      ensures allowed <==> if ip in old(clients) && t <= old(clients)[ip].resetAt
                           then old(clients)[ip].count < cfg.limit
                           else cfg.limit >= 1 && (ip in old(clients) || |old(clients)| < 10_000)
    {
      now := t;
      if |clients| >= MAX_CLIENTS {
        if ip !in clients { return false; }
      }
      if ip !in clients || t > clients[ip].resetAt {
        clients := clients[ip := Client(0, t + cfg.window)];
      }
      clients := clients[ip := clients[ip].(count := clients[ip].count + 1)];
      allowed := clients[ip].count <= cfg.limit;
      if allowed { log := log + [Admission(ip, t)]; }
    }

    method Cleanup(t: int)
      requires now <= t
      modifies this
      ensures Value() == Sweep(old(Value()), t)
    {
      now := t;
      var todo := clients.Keys;
      while todo != {}
        invariant todo <= old(clients).Keys
        invariant clients == map ip | ip in old(clients) && (ip in todo || t <= old(clients)[ip].resetAt)
                               :: old(clients)[ip]
        invariant now == t && log == old(log)
        decreases |todo|
      {
        var ip :| ip in todo;
        todo := todo - {ip};
        if t > clients[ip].resetAt { clients := clients - {ip}; }
      }
    }
  }
}
