/** The counters of `ratelimit.go`, and what they guarantee over a whole sequential run. */
module RateLimits {
  import opened Keys
  import opened ExpiringStore
  import opened Options
  import opened Redis

  datatype Verdict = Passed | Blocked | Failed

  /** What becomes of the three commands of a check. */
  datatype Faults = Faults(get: Fault, incr: Fault, expire: Fault)

  const NO_FAULTS := Faults(Fine, Fine, Fine)

  /** `getEventTypeLimit`. */
  function TypeLimit(eventType: string): (limit: int)
    ensures 1 <= limit <= 3
  {
    match eventType
    case "GOAL" => 3
    case "RED_CARD" => 1
    case "PENALTY" => 1
    case "PENALTY_MISSED" => 1
    case "SUBSTITUTION" => 2
    case "YELLOW_CARD" => 1
    case _ => 2
  }

  function HourLimit(max: int): (limit: nat)
    ensures limit >= 1
  {
    if max <= 0 then 1000 else max
  }

  function MatchLimit(max: int): int {
    if max <= 0 then 100 else max
  }

  /** Milliseconds from `now` to the end of its hour. */
  function RestOfHour(now: int): int {
    HOUR - now % HOUR
  }

  /** `getCounter`: zero for a missing key, an error for a failed read or a value that is not a number. */
  function Read(s: Store, k: Key, f: Fault): Option<int> {
    if f != Fine || (Get(s, k).Some? && !Get(s, k).value.Number?) then None else Some(Counter(s, k))
  }

  /** `incrementCounter`: only the command that creates the counter sets its time to live. */
  function Increment(p: Precision, s: Store, k: Key, ttl: int, f: Faults): (Store, bool) {
    match Incr(s, k)
    case None => (s, false)
    case Some(t) =>
      if f.incr.Refused? then (s, false)
      else if f.incr.Lost? then (t, false)
      else if Counter(t, k) == 1 && !f.expire.Refused? then (Expire(t, k, Kept(p, ttl)), true)
      else (t, true)
  }

  /** Read the counter, block at the limit, otherwise increment: the shape of both counting checks. */
  function Gate(p: Precision, s: Store, k: Key, limit: int, ttl: int, f: Faults): (Store, Verdict) {
    match Read(s, k, f.get)
    case None => (s, Failed)
    case Some(n) =>
      if n >= limit then (s, Blocked)
      else
        var (t, ok) := Increment(p, s, k, ttl, f);
        (t, if ok then Passed else Failed)
  }

  lemma IncrLeaves(s: Store, k: Key, l: Key)
    requires l != k && Incr(s, k).Some?
    ensures SameEntry(s, Incr(s, k).value, l)
  {
  }

  lemma ExpireLeaves(s: Store, k: Key, ttl: int, l: Key)
    requires l != k
    ensures SameEntry(s, Expire(s, k, ttl), l)
  {
  }

  /** A counting check leaves every other key alone. */
  lemma GateLeaves(p: Precision, s: Store, k: Key, limit: int, ttl: int, f: Faults, l: Key)
    requires l != k
    ensures SameEntry(s, Gate(p, s, k, limit, ttl, f).0, l)
  {
    if Incr(s, k).Some? {
      IncrLeaves(s, k, l);
      ExpireLeaves(Incr(s, k).value, k, Kept(p, ttl), l);
    }
  }

  class RateLimit {
    const redis: RedisClient

    constructor (redis: RedisClient)
      ensures this.redis == redis
    {
      this.redis := redis;
    }

    method GetCounter(k: Key, f: Fault) returns (n: Option<int>)
      ensures n == Read(redis.State(), k, f)
    {
      if f != Fine {
        return None;
      }
      var v := redis.Get(k);
      if v.None? {
        return Some(0);
      }
      n := if v.value.Number? then Some(v.value.n) else None;
    }

    method IncrementCounter(k: Key, ttl: int, f: Faults) returns (ok: bool)
      modifies redis
      ensures (redis.State(), ok) == Increment(redis.precision, old(redis.State()), k, ttl, f)
    {
      if f.incr.Refused? {
        return false;
      }
      var count := redis.Incr(k);
      if count.None? || f.incr.Lost? {
        return false;
      }
      if count.value == 1 && !f.expire.Refused? {
        redis.Expire(k, ttl);
      }
      ok := true;
    }

    method CheckEventTypeLimit(matchId: string, eventType: string, f: Faults) returns (v: Verdict)
      modifies redis
      ensures (redis.State(), v)
           == Gate(redis.precision, old(redis.State()), TypeKey(matchId, eventType), TypeLimit(eventType), DAY, f)
    {
      var limit := TypeLimit(eventType);
      var key := TypeKey(matchId, eventType);
      var counter := GetCounter(key, f.get);
      if counter.None? {
        return Failed;
      }
      if counter.value >= limit {
        return Blocked;
      }
      var ok := IncrementCounter(key, DAY, f);
      v := if ok then Passed else Failed;
    }

    method CheckHourlyEventLimit(matchId: string, maxEventsPerHour: int, f: Faults) returns (v: Verdict)
      modifies redis
      ensures var s := old(redis.State());
        (redis.State(), v)
        == Gate(redis.precision, s, HourKey(matchId, s.now / HOUR), HourLimit(maxEventsPerHour), RestOfHour(s.now), f)
    {
      var max := maxEventsPerHour;
      if max <= 0 {
        max := 1000;
      }
      var now := redis.now;
      var key := HourKey(matchId, now / HOUR);
      var counter := GetCounter(key, f.get);
      if counter.None? {
        return Failed;
      }
      if counter.value >= max {
        return Blocked;
      }
      var ttl := now - now % HOUR + HOUR - now;
      if ttl <= 0 {
        ttl := HOUR;
      }
      var ok := IncrementCounter(key, ttl, f);
      v := if ok then Passed else Failed;
    }

    /** Reads the message counter and leaves the increment to `IncrTotalMessages`. */
    method CheckMatchLimit(matchId: string, maxBots: int, f: Fault) returns (v: Verdict)
      ensures v == match Read(redis.State(), TotalKey(matchId), f)
        case None => Failed
        case Some(n) => if n >= MatchLimit(maxBots) then Blocked else Passed
    {
      var max := maxBots;
      if max <= 0 {
        max := 100;
      }
      var n := GetCounter(TotalKey(matchId), f);
      if n.None? {
        return Failed;
      }
      v := if n.value >= max then Blocked else Passed;
    }

    method IncrTotalMessages(matchId: string, f: Faults) returns (ok: bool)
      modifies redis
      ensures (redis.State(), ok) == Increment(redis.precision, old(redis.State()), TotalKey(matchId), DAY, f)
    {
      ok := IncrementCounter(TotalKey(matchId), DAY, f);
    }
  }

  /**
   * A counting check passes exactly when its commands succeed on a counter below the limit. It then counts one more,
   * keeps the expiry of a live counter and gives a new one the whole time to live; other keys stay as they are.
   */
  lemma GateExactly(p: Precision, s: Store, k: Key, limit: int, ttl: int, f: Faults, l: Key)
    requires limit >= 1 && Kept(p, ttl) > 0 && (Live(s, k) ==> s.entries[k].value.Number? && s.entries[k].value.n >= 1)
    ensures var (t, v) := Gate(p, s, k, limit, ttl, f);
      && (v.Passed? <==> f.get.Fine? && f.incr.Fine? && Counter(s, k) < limit)
      && (v.Blocked? <==> f.get.Fine? && Counter(s, k) >= limit)
      && (v.Passed? ==> Live(t, k) && t.entries[k] == Entry(Number(Counter(s, k) + 1),
            if Live(s, k) then s.entries[k].expiry else if f.expire.Refused? then None else Some(s.now + Kept(p, ttl))))
      && (v.Blocked? ==> t == s)
      && t.now == s.now
      && (l != k ==> (l in t.entries <==> l in s.entries) && (l in s.entries ==> t.entries[l] == s.entries[l]))
  {
  }

  // ---------- whole runs ----------

  datatype Op =
    | Wait(d: nat)
    | CheckType(matchId: string, eventType: string, f: Faults)
    | CheckHour(matchId: string, f: Faults)
    | CountMessage(matchId: string, f: Faults)

  datatype Settings = Settings(precision: Precision, maxPerHour: int)

  /** The key an operation works on, its limit and its time to live. */
  function Target(c: Settings, now: int, op: Op): Option<Key> {
    match op
    case Wait(_) => None
    case CheckType(m, t, _) => Some(TypeKey(m, t))
    case CheckHour(m, _) => Some(HourKey(m, now / HOUR))
    case CountMessage(m, _) => Some(TotalKey(m))
  }

  function Apply(c: Settings, s: Store, op: Op): (Store, Verdict) {
    match op
    case Wait(d) => (Advance(s, d), Blocked)
    case CheckType(m, t, f) => Gate(c.precision, s, TypeKey(m, t), TypeLimit(t), DAY, f)
    case CheckHour(m, f) =>
      Gate(c.precision, s, HourKey(m, s.now / HOUR), HourLimit(c.maxPerHour), RestOfHour(s.now), f)
    case CountMessage(m, f) => (Increment(c.precision, s, TotalKey(m), DAY, f).0, Blocked)
  }

  /** A run seen from one key: the store, the times of all passes, and the passes since the key last was dead. */
  datatype Trace = Trace(store: Store, passes: seq<int>, current: nat)

  function Step(c: Settings, tr: Trace, k: Key, op: Op): Trace {
    var (t, v) := Apply(c, tr.store, op);
    var hit := v.Passed? && Target(c, tr.store.now, op) == Some(k);
    Trace(t, if hit then tr.passes + [tr.store.now] else tr.passes,
          (if Live(tr.store, k) then tr.current else 0) + if hit then 1 else 0)
  }

  function Follow(c: Settings, s: Store, k: Key, ops: seq<Op>): Trace {
    if ops == [] then Trace(s, [], 0)
    else Step(c, Follow(c, s, k, ops[..|ops| - 1]), k, ops[|ops| - 1])
  }

  /** Operations on other keys leave a key alone. */
  lemma OtherOps(c: Settings, s: Store, op: Op, k: Key)
    requires Target(c, s.now, op) != Some(k)
    ensures var t := Apply(c, s, op).0;
      s.now <= t.now && (k in t.entries <==> k in s.entries) && (k in s.entries ==> t.entries[k] == s.entries[k])
  {
  }

  // ---------- the event-type counter ----------

  /** Where the current and the previous lifetime start among the passes, and when the current one began. */
  datatype Spans = Spans(prev: nat, start: nat, birth: int)

  predicate Ascending(h: seq<int>) {
    forall i, j | 0 <= i < j < |h| :: h[i] <= h[j]
  }

  /** Any `n + 1` consecutive passes span more than a day. */
  predicate Spread(h: seq<int>, n: nat) {
    forall i, j | 0 <= i < j < |h| && i + n <= j :: h[i] + DAY < h[j]
  }

  /** Each lifetime holds at most `limit` passes, and lies a day behind the start of the next one. */
  predicate Spaced(h: seq<int>, limit: nat, g: Spans, now: int) {
    && g.prev <= g.start <= |h|
    && g.start - g.prev <= limit && |h| - g.start <= limit
    && (forall j | 0 <= j < g.prev :: h[j] + DAY < g.birth)
    && (forall j | 0 <= j < g.start :: h[j] < g.birth)
    && (forall j | 0 <= j < |h| :: h[j] <= now)
    && Ascending(h) && Spread(h, 2 * limit)
  }

  predicate CountsType(tr: Trace, k: Key, limit: nat, g: Spans) {
    var h := tr.passes;
    && Spaced(h, limit, g, tr.store.now)
    && tr.current <= |h| - g.start
    && (if k !in tr.store.entries then h == []
        else
          var e := tr.store.entries[k];
          && e.value.Number? && |h| - g.start <= e.value.n && g.birth <= tr.store.now
          && (e.expiry.Some? ==> g.birth + DAY <= e.expiry.value && forall j | 0 <= j < |h| :: h[j] < e.expiry.value))
  }

  lemma SamePass(h: seq<int>, limit: nat, g: Spans, now: int)
    requires Spaced(h, limit, g, now) && |h| - g.start < limit && g.birth <= now
    ensures Spaced(h + [now], limit, g, now)
  {
  }

  lemma NewLifetime(h: seq<int>, limit: nat, g: Spans, now: int)
    requires Spaced(h, limit, g, now)
    requires h != [] ==> g.birth + DAY <= now
    requires forall j | 0 <= j < |h| :: h[j] < now
    ensures Spaced(h, limit, Spans(g.start, |h|, now), now)
  {
  }

  /** A check on a counter that is alive: its lifetime goes on. */
  lemma LiveTypeStep(p: Precision, tr: Trace, k: Key, limit: nat, f: Faults, g: Spans)
    requires CountsType(tr, k, limit, g) && limit >= 1 && Live(tr.store, k)
    ensures var (t, v) := Gate(p, tr.store, k, limit, DAY, f);
      CountsType(Trace(t, if v.Passed? then tr.passes + [tr.store.now] else tr.passes,
                       tr.current + if v.Passed? then 1 else 0), k, limit, g)
  {
    if Gate(p, tr.store, k, limit, DAY, f).1.Passed? {
      SamePass(tr.passes, limit, g, tr.store.now);
    }
  }

  /** A check on a counter that is dead: a new lifetime, or nothing. */
  lemma DeadTypeStep(p: Precision, tr: Trace, k: Key, limit: nat, f: Faults, g: Spans)
    requires CountsType(tr, k, limit, g) && limit >= 1 && !Live(tr.store, k)
    ensures var (t, v) := Gate(p, tr.store, k, limit, DAY, f);
      CountsType(Trace(t, if v.Passed? then tr.passes + [tr.store.now] else tr.passes, if v.Passed? then 1 else 0),
                 k, limit, if t == tr.store then g else Spans(g.start, |tr.passes|, tr.store.now))
  {
    var (t, v) := Gate(p, tr.store, k, limit, DAY, f);
    assert Kept(p, DAY) == DAY;
    NewLifetime(tr.passes, limit, g, tr.store.now);
    if v.Passed? {
      assert k in t.entries && (k in tr.store.entries ==> t.entries[k].expiry != tr.store.entries[k].expiry);
      SamePass(tr.passes, limit, Spans(g.start, |tr.passes|, tr.store.now), tr.store.now);
    }
  }

  lemma {:induction false} TypeRun(c: Settings, s: Store, k: Key, ops: seq<Op>) returns (g: Spans)
    requires k.TypeKey? && k !in s.entries
    ensures CountsType(Follow(c, s, k, ops), k, TypeLimit(k.eventType), g)
  {
    if ops == [] {
      g := Spans(0, 0, s.now);
    } else {
      g := TypeRun(c, s, k, ops[..|ops| - 1]);
      var tr := Follow(c, s, k, ops[..|ops| - 1]);
      var op := ops[|ops| - 1];
      if Target(c, tr.store.now, op) == Some(k) {
        if Live(tr.store, k) {
          LiveTypeStep(c.precision, tr, k, TypeLimit(k.eventType), op.f, g);
        } else {
          DeadTypeStep(c.precision, tr, k, TypeLimit(k.eventType), op.f, g);
          if Apply(c, tr.store, op).0 != tr.store {
            g := Spans(g.start, |tr.passes|, tr.store.now);
          }
        }
      } else {
        OtherOps(c, tr.store, op, k);
      }
    }
  }

  /** One lifetime of an event-type counter admits at most its limit, whatever commands fail. */
  lemma TypeLifetimeBound(c: Settings, s: Store, k: Key, ops: seq<Op>)
    requires k.TypeKey? && k !in s.entries
    ensures Follow(c, s, k, ops).current <= TypeLimit(k.eventType)
  {
    var g := TypeRun(c, s, k, ops);
  }

  /** Any interval of a day admits at most twice the limit. */
  lemma TypeWindowBound(c: Settings, s: Store, k: Key, ops: seq<Op>, a: int)
    requires k.TypeKey? && k !in s.entries
    ensures InDay(Follow(c, s, k, ops).passes, a) <= 2 * TypeLimit(k.eventType)
  {
    var g := TypeRun(c, s, k, ops);
    WindowCount(Follow(c, s, k, ops).passes, a, 2 * TypeLimit(k.eventType));
  }

  /** How many of the times lie in the day that starts at `a`, both ends included. */
  function InDay(h: seq<int>, a: int): (n: nat)
    ensures n <= |h|
  {
    if h == [] then 0 else InDay(h[..|h| - 1], a) + if a <= h[|h| - 1] <= a + 24 * 3600 * 1000 then 1 else 0
  }

  lemma {:induction false} InDaySplit(h: seq<int>, m: nat, a: int)
    requires m <= |h|
    ensures InDay(h, a) <= InDay(h[..m], a) + |h| - m
  {
    if m < |h| {
      assert h[..|h| - 1][..m] == h[..m];
      InDaySplit(h[..|h| - 1], m, a);
    } else {
      assert h[..m] == h;
    }
  }

  lemma {:induction false} NoneInDay(h: seq<int>, a: int)
    requires forall i | 0 <= i < |h| :: h[i] < a
    ensures InDay(h, a) == 0
  {
    if h != [] {
      NoneInDay(h[..|h| - 1], a);
    }
  }

  lemma {:induction false} WindowCount(h: seq<int>, a: int, n: nat)
    requires Ascending(h) && Spread(h, n) && n > 0
    ensures InDay(h, a) <= n
  {
    if |h| > n {
      var last := |h| - 1;
      if h[last] > a + DAY {
        WindowCount(h[..last], a, n);
      } else {
        assert h[last - n] + DAY < h[last];
        NoneInDay(h[..|h| - n], a);
        InDaySplit(h, |h| - n, a);
      }
    }
  }

  /** A lifetime that began at `t`, behind older passes: the counter stands at the number of its own. */
  predicate Used(tr: Trace, k: Key, t: int, n: nat, older: seq<int>) {
    && tr.store.now == t && |tr.passes| == |older| + n && tr.passes[..|older|] == older
    && (forall j | |older| <= j < |tr.passes| :: tr.passes[j] == t)
    && if n == 0 then !Live(tr.store, k)
       else k in tr.store.entries && tr.store.entries[k] == Entry(Number(n), Some(t + DAY)) && tr.current == n
  }

  lemma OneUsed(c: Settings, tr: Trace, m: string, kind: string, t: int, n: nat, older: seq<int>)
    requires Used(tr, TypeKey(m, kind), t, n, older) && n < TypeLimit(kind)
    ensures Used(Step(c, tr, TypeKey(m, kind), CheckType(m, kind, NO_FAULTS)), TypeKey(m, kind), t, n + 1, older)
  {
    assert Kept(c.precision, DAY) == DAY;
  }

  lemma {:induction false} UseType(c: Settings, s: Store, before: seq<Op>, m: string, kind: string, t: int, n: nat,
                                   older: seq<int>) returns (ops: seq<Op>)
    requires Used(Follow(c, s, TypeKey(m, kind), before), TypeKey(m, kind), t, 0, older) && n <= TypeLimit(kind)
    ensures Used(Follow(c, s, TypeKey(m, kind), ops), TypeKey(m, kind), t, n, older)
  {
    if n == 0 {
      ops := before;
    } else {
      ops := UseType(c, s, before, m, kind, t, n - 1, older);
      OneUsed(c, Follow(c, s, TypeKey(m, kind), ops), m, kind, t, n - 1, older);
      FollowOneMore(c, s, TypeKey(m, kind), ops, CheckType(m, kind, NO_FAULTS));
      ops := ops + [CheckType(m, kind, NO_FAULTS)];
    }
  }

  lemma {:induction false} AllInDay(h: seq<int>, a: int)
    requires forall i | 0 <= i < |h| :: a <= h[i] <= a + DAY
    ensures InDay(h, a) == |h|
  {
    if h != [] {
      AllInDay(h[..|h| - 1], a);
    }
  }

  /** Both bounds are reached: a lifetime full at once, and a day later, to the instant, the next one. */
  lemma TypeBoundsReached(c: Settings, t: int, m: string, kind: string) returns (ops: seq<Op>)
    ensures var tr := Follow(c, Store(t, map[]), TypeKey(m, kind), ops);
      tr.current == TypeLimit(kind) && InDay(tr.passes, t) == 2 * TypeLimit(kind)
  {
    var s, k, limit := Store(t, map[]), TypeKey(m, kind), TypeLimit(kind);
    ops := UseType(c, s, [], m, kind, t, limit, []);
    var older := Follow(c, s, k, ops).passes;
    FollowOneMore(c, s, k, ops, Wait(DAY));
    ops := UseType(c, s, ops + [Wait(DAY)], m, kind, t + DAY, limit, older);
    var h := Follow(c, s, k, ops).passes;
    assert forall j | 0 <= j < |older| :: h[j] == h[..|older|][j];
    AllInDay(h, t);
  }

  // ---------- the hourly counter ----------

  /** The time to live set at `t` lasts to the end of the hour. */
  predicate Reaches(p: Precision, t: int) {
    Kept(p, RestOfHour(t)) >= RestOfHour(t)
  }

  /** A client that sends whole seconds falls short, except on a whole second and in the last second of the hour. */
  lemma ReachesExactly(p: Precision, t: int)
    ensures Reaches(p, t) <==> p.Milliseconds? || RestOfHour(t) % SECOND == 0 || RestOfHour(t) < SECOND
  {
  }

  /** All passes lie in the hour; `start` is where a second lifetime begins, which lasts beyond the hour. */
  predicate CountsHour(s: Store, h: seq<int>, k: Key, p: Precision, limit: nat, start: nat)
    requires k.HourKey?
  {
    && start <= |h| && start <= limit && |h| - start <= limit
    && (forall j | 0 <= j < |h| :: h[j] <= s.now && h[j] / HOUR == k.hour)
    && (start > 0 ==> !Reaches(p, h[0]))
    && (if k !in s.entries then h == []
        else
          var e := s.entries[k];
          && e.value.Number? && |h| - start <= e.value.n && 1 <= e.value.n
          && (e.expiry.Some? ==>
                if start == 0 then h != [] && e.expiry.value == h[0] + Kept(p, RestOfHour(h[0]))
                else (k.hour + 1) * HOUR <= e.expiry.value))
  }

  lemma HourStep(p: Precision, s: Store, h: seq<int>, k: Key, limit: nat, f: Faults, start: nat) returns (start': nat)
    requires k.HourKey? && CountsHour(s, h, k, p, limit, start) && limit >= 1 && s.now / HOUR == k.hour
    ensures var (t, v) := Gate(p, s, k, limit, RestOfHour(s.now), f);
      CountsHour(t, if v.Passed? then h + [s.now] else h, k, p, limit, start')
  {
    start' := start;
    if Live(s, k) || k !in s.entries {
      LiveHourStep(p, s, h, k, limit, f, start);
    } else {
      DeadHourStep(p, s, h, k, limit, f, start);
      start' := if Gate(p, s, k, limit, RestOfHour(s.now), f).0 == s then start else |h|;
    }
  }

  lemma LiveHourStep(p: Precision, s: Store, h: seq<int>, k: Key, limit: nat, f: Faults, start: nat)
    requires k.HourKey? && CountsHour(s, h, k, p, limit, start) && limit >= 1 && s.now / HOUR == k.hour
    requires Live(s, k) || k !in s.entries
    ensures var (t, v) := Gate(p, s, k, limit, RestOfHour(s.now), f);
      CountsHour(t, if v.Passed? then h + [s.now] else h, k, p, limit, start)
  {
  }

  /** A counter that lapses inside its hour is started once more, in the last second of the hour. */
  lemma DeadHourStep(p: Precision, s: Store, h: seq<int>, k: Key, limit: nat, f: Faults, start: nat)
    requires k.HourKey? && CountsHour(s, h, k, p, limit, start) && limit >= 1 && s.now / HOUR == k.hour
    requires !Live(s, k) && k in s.entries
    ensures var (t, v) := Gate(p, s, k, limit, RestOfHour(s.now), f);
      CountsHour(t, if v.Passed? then h + [s.now] else h, k, p, limit, if t == s then start else |h|)
  {
  }

  lemma {:induction false} HourRun(c: Settings, s: Store, k: Key, ops: seq<Op>) returns (start: nat)
    requires k.HourKey? && k !in s.entries
    ensures var tr := Follow(c, s, k, ops);
      CountsHour(tr.store, tr.passes, k, c.precision, HourLimit(c.maxPerHour), start)
  {
    if ops == [] {
      start := 0;
    } else {
      start := HourRun(c, s, k, ops[..|ops| - 1]);
      var tr := Follow(c, s, k, ops[..|ops| - 1]);
      var op := ops[|ops| - 1];
      if Target(c, tr.store.now, op) == Some(k) {
        start := HourStep(c.precision, tr.store, tr.passes, k, HourLimit(c.maxPerHour), op.f, start);
      } else {
        OtherOps(c, tr.store, op, k);
      }
    }
  }

  /**
   * At most the configured number of passes in an hour when the time to live set by the first one reaches the end
   * of the hour, and at most twice as many in any case.
   */
  lemma HourBound(c: Settings, s: Store, k: Key, ops: seq<Op>)
    requires k.HourKey? && k !in s.entries
    ensures var h := Follow(c, s, k, ops).passes;
      var max := if c.maxPerHour > 0 then c.maxPerHour else 1000;
      && (h != [] && Reaches(c.precision, h[0]) ==> |h| <= max)
      && |h| <= 2 * max
  {
    var start := HourRun(c, s, k, ops);
  }

  lemma FollowOneMore(c: Settings, s: Store, k: Key, ops: seq<Op>, op: Op)
    ensures Follow(c, s, k, ops + [op]) == Step(c, Follow(c, s, k, ops), k, op)
  {
  }

  /** A lifetime from `t` to `until`, behind earlier passes: its counter stands at its number of passes. */
  predicate Filled(tr: Trace, k: Key, t: int, until: int, n: nat, before: seq<int>) {
    && |tr.passes| == |before| + n && tr.passes[..|before|] == before && tr.store.now == t
    && if n == 0 then !Live(tr.store, k)
       else
         && tr.passes[|before|] == t && k in tr.store.entries
         && tr.store.entries[k] == Entry(Number(n), Some(until))
  }

  /** The key of the hour of `t`, and when a counter created then expires. */
  predicate HourFrom(c: Settings, k: Key, m: string, t: int, until: int) {
    k == HourKey(m, t / HOUR) && until == t + Kept(c.precision, RestOfHour(t))
  }

  lemma FillOnce(c: Settings, tr: Trace, k: Key, m: string, t: int, until: int, n: nat, before: seq<int>)
    requires HourFrom(c, k, m, t, until) && n < HourLimit(c.maxPerHour) && Filled(tr, k, t, until, n, before)
    ensures Filled(Step(c, tr, k, CheckHour(m, NO_FAULTS)), k, t, until, n + 1, before)
  {
  }

  /** `n` checks at one instant, up to the limit, all pass when the counter is dead. */
  lemma {:induction false} FillHour(c: Settings, s: Store, base: seq<Op>, k: Key, m: string, t: int, until: int, n: nat,
                                    before: seq<int>)
    returns (ops: seq<Op>)
    requires HourFrom(c, k, m, t, until) && n <= HourLimit(c.maxPerHour)
    requires Filled(Follow(c, s, k, base), k, t, until, 0, before)
    ensures Filled(Follow(c, s, k, ops), k, t, until, n, before)
    decreases n
  {
    if n == 0 {
      ops := base;
    } else {
      var most := FillHour(c, s, base, k, m, t, until, n - 1, before);
      ops := most + [CheckHour(m, NO_FAULTS)];
      FollowOneMore(c, s, k, most, CheckHour(m, NO_FAULTS));
      FillOnce(c, Follow(c, s, k, most), k, m, t, until, n - 1, before);
    }
  }

  /** When it falls short, the counter lapses inside its hour. */
  lemma Lapses(c: Settings, k: Key, m: string, t: int, until: int)
    requires HourFrom(c, k, m, t, until) && !Reaches(c.precision, t)
    ensures until >= t && HourFrom(c, k, m, until, until + Kept(c.precision, RestOfHour(until)))
  {
  }

  lemma WaitOut(c: Settings, tr: Trace, k: Key, t: int, until: int, n: nat, d: nat, later: int)
    requires n > 0 && until == t + d && Filled(tr, k, t, until, n, [])
    ensures Filled(Step(c, tr, k, Wait(d)), k, until, later, 0, tr.passes)
  {
  }

  /** And the limit is filled a second time in the same hour. */
  lemma FillAgain(c: Settings, s: Store, first: seq<Op>, k: Key, m: string, t: int, until: int, later: int)
    returns (ops: seq<Op>)
    requires until >= t && HourFrom(c, k, m, until, later)
    requires Filled(Follow(c, s, k, first), k, t, until, HourLimit(c.maxPerHour), [])
    ensures Filled(Follow(c, s, k, ops), k, until, later, HourLimit(c.maxPerHour), Follow(c, s, k, first).passes)
  {
    var tr := Follow(c, s, k, first);
    WaitOut(c, tr, k, t, until, HourLimit(c.maxPerHour), until - t, later);
    FollowOneMore(c, s, k, first, Wait(until - t));
    ops := FillHour(c, s, first + [Wait(until - t)], k, m, until, later, HourLimit(c.maxPerHour), tr.passes);
  }

  /** When it falls short, some run passes twice as often as configured within the hour. */
  lemma HourOvershoot(c: Settings, t: int, m: string) returns (ops: seq<Op>)
    requires !Reaches(c.precision, t)
    ensures var h := Follow(c, Store(t, map[]), HourKey(m, t / HOUR), ops).passes;
      h != [] && h[0] == t && |h| == 2 * if c.maxPerHour > 0 then c.maxPerHour else 1000
  {
    var k, s, until := HourKey(m, t / HOUR), Store(t, map[]), t + Kept(c.precision, RestOfHour(t));
    var later := until + Kept(c.precision, RestOfHour(until));
    Lapses(c, k, m, t, until);
    var first := FillHour(c, s, [], k, m, t, until, HourLimit(c.maxPerHour), []);
    ops := FillAgain(c, s, first, k, m, t, until, later);
    TwiceFilled(Follow(c, s, k, first), Follow(c, s, k, ops), k, t, until, later, HourLimit(c.maxPerHour));
  }

  lemma TwiceFilled(first: Trace, second: Trace, k: Key, t: int, until: int, later: int, n: nat)
    requires n > 0 && Filled(first, k, t, until, n, []) && Filled(second, k, until, later, n, first.passes)
    ensures second.passes != [] && second.passes[0] == t && |second.passes| == 2 * n
  {
    assert second.passes[0] == second.passes[..|first.passes|][0];
  }
}
