/** `CheckPolicy` as it is written, one call after the other, and why it is a run of the pipeline's worker. */
module PolicyChecker {
  import opened Keys
  import opened ExpiringStore
  import opened Options
  import opened Redis
  import opened RateLimits
  import opened Events
  import opened Policy
  import opened Pipeline
  import C = ContextStore

  /** What becomes of the commands of a verdict. */
  datatype Trouble = Trouble(dedup: Fault, kind: Faults, hour: Faults, total: Fault, chat: Fault)

  const NO_TROUBLE := Trouble(Fine, NO_FAULTS, NO_FAULTS, Fine, Fine)

  /** The commands a worker still has to run in its counting checks. */
  function Remaining(w: Worker): nat {
    if w.Idle? then 0
    else match w.phase
      case TypeRead => 6 case TypeIncr => 5 case TypeExpire => 4
      case HourRead => 3 case HourIncr(_, _) => 2 case HourExpire(_, _) => 1
      case _ => 0
  }

  function FaultOf(f: Trouble, phase: Phase): Fault {
    match phase
    case TypeRead => f.kind.get case TypeIncr => f.kind.incr case TypeExpire => f.kind.expire
    case HourRead => f.hour.get case HourIncr(_, _) => f.hour.incr case HourExpire(_, _) => f.hour.expire
    case MatchRead => f.total case RatioRead => f.chat
    case _ => Fine
  }

  /** One command: a failed EXPIRE or chat read is passed over, any other failure ends the check. */
  function Act(c: Config, sh: Shared, w: Worker, x: Input, f: Fault): (Shared, Worker)
    requires w.Busy?
  {
    var (t, v) := StepWorker(c, sh, w, x);
    if f.Fine? then (t, v)
    else if w.phase.TypeExpire? || w.phase.HourExpire? then (if f.Refused? then FalterWorker(sh, w) else (t, v))
    else if w.phase.RatioRead? then FalterWorker(sh, w)
    else if (w.phase.TypeIncr? || w.phase.HourIncr?) && f.Lost? then (t, Idle)
    else (sh, Idle)
  }

  /** A worker that nobody interrupts, to the end of its counting checks. */
  function Counting(c: Config, sh: Shared, w: Worker, x: Input, f: Trouble): (Shared, Worker)
    decreases Remaining(w)
  {
    if Remaining(w) == 0 then (sh, w)
    else
      var (t, v) := Act(c, sh, w, x, FaultOf(f, w.phase));
      if Remaining(v) < Remaining(w) then Counting(c, t, v, x, f) else (t, v)
  }

  /** The two reads behind them. */
  function Reading(c: Config, sh: Shared, w: Worker, x: Input, f: Trouble): (Shared, Worker) {
    if w.Idle? || !w.phase.MatchRead? then (sh, w)
    else
      var (t, v) := Act(c, sh, w, x, f.total);
      if v.Idle? then (t, v) else Act(c, t, v, x, f.chat)
  }

  /** A worker that nobody interrupts, up to its verdict. */
  function Alone(c: Config, sh: Shared, w: Worker, x: Input, f: Trouble): (Shared, Worker) {
    var (t, v) := Counting(c, sh, w, x, f);
    Reading(c, t, v, x, f)
  }

  /** The verdict on one event: accepted by the dedup check and alone from there. */
  function Ruling(c: Config, sh: Shared, x: Input, f: Trouble): (Shared, Worker) {
    if f.dedup.Refused? then (sh, Idle)
    else
      var (t, w) := Accept(sh, x);
      if f.dedup.Lost? then (t, Idle) else Alone(c, t, w, x, f)
  }

  // ---------- the same verdict, check by check ----------

  function RoomCheck(c: Config, sh: Shared, w: Worker, x: Input, f: Trouble): (Shared, Worker)
    requires w.Busy?
  {
    var n := Read(sh.store, TotalKey(w.event.matchId), f.total);
    if n.None? || n.value >= MatchLimit(c.maxBots) then (sh, Idle) else RatioCheck(c, sh, w, x, f)
  }

  function RatioCheck(c: Config, sh: Shared, w: Worker, x: Input, f: Trouble): (Shared, Worker)
    requires w.Busy?
  {
    var r := RoomOf(sh, w.event.matchId);
    if !f.chat.Fine? then (sh, w.(phase := Deliver(None)))
    else (sh, if Admits(c, r, x.legacy) then w.(phase := Deliver(Some(Look(r, x.legacy)))) else Idle)
  }

  function HourCheck(c: Config, sh: Shared, w: Worker, x: Input, f: Trouble): (Shared, Worker)
    requires w.Busy?
  {
    var now := sh.store.now;
    var (t, v) := Gate(c.precision, sh.store, HourKey(w.event.matchId, now / HOUR), HourLimit(c.maxPerHour),
                       RestOfHour(now), f.hour);
    if v.Passed? then RoomCheck(c, sh.(store := t), w.(phase := MatchRead), x, f) else (sh.(store := t), Idle)
  }

  function TypeCheck(c: Config, sh: Shared, w: Worker, x: Input, f: Trouble): (Shared, Worker)
    requires w.Busy?
  {
    var k := TypeKey(w.event.matchId, w.event.kind);
    var (t, v) := Gate(c.precision, sh.store, k, TypeLimit(w.event.kind), DAY, f.kind);
    if v.Passed? then HourCheck(c, sh.(store := t), w.(phase := HourRead), x, f) else (sh.(store := t), Idle)
  }

  // ---------- a counting check is its three commands ----------

  function ReadStep(sh: Shared, w: Worker, k: Key, limit: int, below: Phase, f: Fault): (Shared, Worker)
    requires w.Busy?
  {
    if f.Fine? then ReadCounter(sh, w, k, limit, below) else (sh, Idle)
  }

  function BumpStep(sh: Shared, w: Worker, k: Key, created: Phase, existed: Phase, f: Fault): (Shared, Worker)
    requires w.Busy?
  {
    if f.Refused? then (sh, Idle)
    else
      var (t, v) := BumpCounter(sh, w, k, created, existed);
      (t, if f.Lost? then Idle else v)
  }

  function ExpireStep(sh: Shared, w: Worker, k: Key, ttl: int, next: Phase, f: Fault): (Shared, Worker)
    requires w.Busy?
  {
    (if f.Refused? then sh else sh.(store := Expire(sh.store, k, ttl)), w.(phase := next))
  }

  /** An increment that fails ends the check with its first command. */
  lemma IncrementFails(p: Precision, sh: Shared, w: Worker, k: Key, ttl: int, f: Faults, created: Phase, next: Phase)
    requires w.Busy? && (Incr(sh.store, k).None? || !f.incr.Fine?)
    ensures var t := Increment(p, sh.store, k, ttl, f).0;
      BumpStep(sh, w, k, created, next, f.incr) == (sh.(store := t), Idle) && !Increment(p, sh.store, k, ttl, f).1
  {
    assert sh.(store := sh.store) == sh;
  }

  /** Any other one goes on, through EXPIRE when it created the counter. */
  lemma IncrementGoesOn(p: Precision, sh: Shared, w: Worker, k: Key, ttl: int, f: Faults, created: Phase, next: Phase)
    requires w.Busy? && Incr(sh.store, k).Some? && f.incr.Fine?
    ensures var t := Incr(sh.store, k).value;
      && BumpStep(sh, w, k, created, next, f.incr)
         == (sh.(store := t), w.(phase := if Counter(t, k) == 1 then created else next))
      && Increment(p, sh.store, k, ttl, f)
         == (if Counter(t, k) == 1 && !f.expire.Refused? then Expire(t, k, Kept(p, ttl)) else t, true)
  {
  }

  lemma GateInSteps(p: Precision, sh: Shared, w: Worker, k: Key, limit: int, ttl: int, f: Faults, below: Phase)
    requires w.Busy?
    ensures var (t, v) := Gate(p, sh.store, k, limit, ttl, f);
      var (u, a) := ReadStep(sh, w, k, limit, below, f.get);
      && u == sh
      && if a.Idle? then !v.Passed? && t == sh.store
         else
           && a == w.(phase := below)
           && t == Increment(p, sh.store, k, ttl, f).0 && (v.Passed? <==> Increment(p, sh.store, k, ttl, f).1)
  {
  }

  /** One command of the counting checks. */
  lemma CountingStep(c: Config, sh: Shared, w: Worker, x: Input, f: Trouble, t: Shared, v: Worker)
    requires Remaining(w) > Remaining(v) && Act(c, sh, w, x, FaultOf(f, w.phase)) == (t, v)
    ensures Counting(c, sh, w, x, f) == Counting(c, t, v, x, f)
  {
  }

  lemma RoomActs(c: Config, sh: Shared, w: Worker, x: Input, f: Trouble)
    requires w.Busy? && w.phase.MatchRead?
    ensures Act(c, sh, w, x, f.total)
         == ReadStep(sh, w, TotalKey(w.event.matchId), MatchLimit(c.maxBots), RatioRead, f.total)
  {
  }

  lemma RatioActs(c: Config, sh: Shared, w: Worker, x: Input, f: Trouble)
    requires w.Busy? && w.phase.RatioRead?
    ensures Act(c, sh, w, x, f.chat) == RatioCheck(c, sh, w, x, f)
  {
  }

  /** The two checks that only read. */
  lemma RoomReading(c: Config, sh: Shared, w: Worker, x: Input, f: Trouble)
    requires w.Busy? && w.phase.MatchRead?
    ensures Reading(c, sh, w, x, f) == RoomCheck(c, sh, w, x, f)
  {
    RoomActs(c, sh, w, x, f);
    var (t, v) := Act(c, sh, w, x, f.total);
    if v.Busy? {
      RatioActs(c, t, v, x, f);
    }
  }

  lemma HourReadActs(c: Config, sh: Shared, w: Worker, x: Input, f: Trouble)
    requires w.Busy? && w.phase.HourRead?
    ensures var hour, ttl := sh.store.now / HOUR, RestOfHour(sh.store.now);
      Act(c, sh, w, x, f.hour.get)
      == ReadStep(sh, w, HourKey(w.event.matchId, hour), HourLimit(c.maxPerHour), HourIncr(hour, ttl), f.hour.get)
  {
  }

  lemma HourIncrActs(c: Config, sh: Shared, w: Worker, x: Input, f: Trouble)
    requires w.Busy? && w.phase.HourIncr?
    ensures var k, created := HourKey(w.event.matchId, w.phase.hour), HourExpire(w.phase.hour, w.phase.ttl);
      Act(c, sh, w, x, f.hour.incr) == BumpStep(sh, w, k, created, MatchRead, f.hour.incr)
  {
  }

  lemma HourExpireActs(c: Config, sh: Shared, w: Worker, x: Input, f: Trouble)
    requires w.Busy? && w.phase.HourExpire?
    ensures var k, ttl := HourKey(w.event.matchId, w.phase.hour), Kept(c.precision, w.phase.ttl);
      Act(c, sh, w, x, f.hour.expire) == ExpireStep(sh, w, k, ttl, MatchRead, f.hour.expire)
  {
  }

  lemma HourExpiring(c: Config, sh: Shared, w: Worker, x: Input, f: Trouble)
    requires w.Busy? && w.phase.HourExpire?
    ensures var k, ttl := HourKey(w.event.matchId, w.phase.hour), Kept(c.precision, w.phase.ttl);
      Counting(c, sh, w, x, f) == ExpireStep(sh, w, k, ttl, MatchRead, f.hour.expire)
  {
    HourExpireActs(c, sh, w, x, f);
  }

  lemma HourBumping(c: Config, sh: Shared, w: Worker, x: Input, f: Trouble, u: Shared, v: Worker)
    requires w.Busy? && w.phase.HourIncr? && Remaining(v) < 2
    requires var k, created := HourKey(w.event.matchId, w.phase.hour), HourExpire(w.phase.hour, w.phase.ttl);
      (u, v) == BumpStep(sh, w, k, created, MatchRead, f.hour.incr)
    ensures Counting(c, sh, w, x, f) == Counting(c, u, v, x, f)
  {
    HourIncrActs(c, sh, w, x, f);
    CountingStep(c, sh, w, x, f, u, v);
  }

  /** INCR, EXPIRE when it created the counter, and on to the match limit. */
  lemma HourBump(c: Config, sh: Shared, w: Worker, x: Input, f: Trouble)
    requires w.Busy? && w.phase.HourIncr?
    ensures var k := HourKey(w.event.matchId, w.phase.hour);
      var (t, ok) := Increment(c.precision, sh.store, k, w.phase.ttl, f.hour);
      Counting(c, sh, w, x, f) == (sh.(store := t), if ok then w.(phase := MatchRead) else Idle)
  {
    var k, ttl := HourKey(w.event.matchId, w.phase.hour), w.phase.ttl;
    var created := HourExpire(w.phase.hour, ttl);
    var (u, v) := BumpStep(sh, w, k, created, MatchRead, f.hour.incr);
    HourBumping(c, sh, w, x, f, u, v);
    if Incr(sh.store, k).None? || !f.hour.incr.Fine? {
      IncrementFails(c.precision, sh, w, k, ttl, f.hour, created, MatchRead);
    } else {
      IncrementGoesOn(c.precision, sh, w, k, ttl, f.hour, created, MatchRead);
      var t := Incr(sh.store, k).value;
      if Counter(t, k) == 1 {
        HourExpiring(c, sh.(store := t), w.(phase := created), x, f);
      }
    }
  }

  lemma HourReading(c: Config, sh: Shared, w: Worker, x: Input, f: Trouble, hour: int, ttl: int)
    requires w.Busy? && w.phase.HourRead? && hour == sh.store.now / HOUR && ttl == RestOfHour(sh.store.now)
    ensures var k := HourKey(w.event.matchId, hour);
      var (u, v) := ReadStep(sh, w, k, HourLimit(c.maxPerHour), HourIncr(hour, ttl), f.hour.get);
      Counting(c, sh, w, x, f) == Counting(c, u, v, x, f)
  {
    HourReadActs(c, sh, w, x, f);
    var k := HourKey(w.event.matchId, hour);
    var (u, v) := ReadStep(sh, w, k, HourLimit(c.maxPerHour), HourIncr(hour, ttl), f.hour.get);
    CountingStep(c, sh, w, x, f, u, v);
  }

  /** The three commands of the hourly check, run alone, are the check. */
  lemma HourCounting(c: Config, sh: Shared, w: Worker, x: Input, f: Trouble, hour: int, ttl: int)
    requires w.Busy? && w.phase.HourRead? && hour == sh.store.now / HOUR && ttl == RestOfHour(sh.store.now)
    ensures var k := HourKey(w.event.matchId, hour);
      var (t, v) := Gate(c.precision, sh.store, k, HourLimit(c.maxPerHour), ttl, f.hour);
      Counting(c, sh, w, x, f) == (sh.(store := t), if v.Passed? then w.(phase := MatchRead) else Idle)
  {
    var k := HourKey(w.event.matchId, hour);
    HourReading(c, sh, w, x, f, hour, ttl);
    GateInSteps(c.precision, sh, w, k, HourLimit(c.maxPerHour), ttl, f.hour, HourIncr(hour, ttl));
    var (u, v) := ReadStep(sh, w, k, HourLimit(c.maxPerHour), HourIncr(hour, ttl), f.hour.get);
    if v.Busy? {
      HourBump(c, sh, v, x, f);
    }
  }

  lemma TypeActs(c: Config, sh: Shared, w: Worker, x: Input, f: Trouble)
    requires OnType(w)
    ensures var k := TypeKey(w.event.matchId, w.event.kind);
      Act(c, sh, w, x, FaultOf(f, w.phase)) == match w.phase
        case TypeRead => ReadStep(sh, w, k, TypeLimit(w.event.kind), TypeIncr, f.kind.get)
        case TypeIncr => BumpStep(sh, w, k, TypeExpire, HourRead, f.kind.incr)
        case TypeExpire => ExpireStep(sh, w, k, DAY, HourRead, f.kind.expire)
  {
  }

  /** INCR, EXPIRE when it created the counter, and on to the hourly check. */
  lemma TypeBump(c: Config, sh: Shared, w: Worker, x: Input, f: Trouble)
    requires w.Busy? && w.phase.TypeIncr?
    ensures var (t, ok) := Increment(c.precision, sh.store, TypeKey(w.event.matchId, w.event.kind), DAY, f.kind);
      Counting(c, sh, w, x, f)
      == if ok then Counting(c, sh.(store := t), w.(phase := HourRead), x, f) else (sh.(store := t), Idle)
  {
    assert Kept(c.precision, DAY) == DAY;
    var k := TypeKey(w.event.matchId, w.event.kind);
    TypeActs(c, sh, w, x, f);
    if Incr(sh.store, k).None? || !f.kind.incr.Fine? {
      IncrementFails(c.precision, sh, w, k, DAY, f.kind, TypeExpire, HourRead);
    } else {
      IncrementGoesOn(c.precision, sh, w, k, DAY, f.kind, TypeExpire, HourRead);
      var t := Incr(sh.store, k).value;
      if Counter(t, k) == 1 {
        var v := w.(phase := TypeExpire);
        TypeActs(c, sh.(store := t), v, x, f);
        CountingStep(c, sh, w, x, f, sh.(store := t), v);
        CountingStep(c, sh.(store := t), v, x, f, ExpireStep(sh.(store := t), v, k, DAY, HourRead, f.kind.expire).0,
                     v.(phase := HourRead));
      }
    }
  }

  /** The three commands of the event-type check, run alone, are the check. */
  lemma TypeCounting(c: Config, sh: Shared, w: Worker, x: Input, f: Trouble)
    requires w.Busy? && w.phase.TypeRead?
    ensures var k := TypeKey(w.event.matchId, w.event.kind);
      var (t, v) := Gate(c.precision, sh.store, k, TypeLimit(w.event.kind), DAY, f.kind);
      Counting(c, sh, w, x, f)
      == if v.Passed? then Counting(c, sh.(store := t), w.(phase := HourRead), x, f) else (sh.(store := t), Idle)
  {
    var k, limit := TypeKey(w.event.matchId, w.event.kind), TypeLimit(w.event.kind);
    GateInSteps(c.precision, sh, w, k, limit, DAY, f.kind, TypeIncr);
    TypeActs(c, sh, w, x, f);
    var (u, v) := ReadStep(sh, w, k, limit, TypeIncr, f.kind.get);
    CountingStep(c, sh, w, x, f, sh, v);
    if v.Busy? {
      TypeBump(c, sh, v, x, f);
    }
  }

  lemma HourAlone(c: Config, sh: Shared, w: Worker, x: Input, f: Trouble)
    requires w.Busy? && w.phase.HourRead?
    ensures Alone(c, sh, w, x, f) == HourCheck(c, sh, w, x, f)
  {
    HourCounting(c, sh, w, x, f, sh.store.now / HOUR, RestOfHour(sh.store.now));
    var (t, v) := Counting(c, sh, w, x, f);
    if v.Busy? {
      RoomReading(c, t, v, x, f);
    }
  }

  /** The commands of the checks, run alone, are the checks, whichever of them fail. */
  lemma TypeAlone(c: Config, sh: Shared, w: Worker, x: Input, f: Trouble)
    requires w.Busy? && w.phase.TypeRead?
    ensures Alone(c, sh, w, x, f) == TypeCheck(c, sh, w, x, f)
  {
    TypeCounting(c, sh, w, x, f);
    var k := TypeKey(w.event.matchId, w.event.kind);
    var (t, v) := Gate(c.precision, sh.store, k, TypeLimit(w.event.kind), DAY, f.kind);
    if v.Passed? {
      HourAlone(c, sh.(store := t), w.(phase := HourRead), x, f);
    }
  }

  // ---------- the chat of a match as the checker reads it ----------

  function RoomName(m: string): string {
    if "room-" <= m then m else "room-" + m
  }

  function RoomNow(s: Store, m: string): Room {
    Room(C.LiveList(s, ChatKey(RoomName(m))), 0, 0, None)
  }

  /** The world of a worker that holds this store and decides on an event of this match. */
  function WorldOf(s: Store, m: string): Shared {
    Shared(s, map[m := RoomNow(s, m)], [], [], map[])
  }

  function LegacyNow(s: Store, m: string): seq<bool> {
    C.LiveList(s, LegacyKey(RoomName(m)))
  }

  /** A chat that cannot be read as a list is a failed read. */
  function Troubled(s: Store, m: string, f: Trouble): Trouble {
    if C.RecentWindow(s, RoomName(m), READ_LIMIT).None? then f.(chat := Refused) else f
  }

  /** What `GetRecentChatWindow` gives is what a worker of the pipeline reads. */
  lemma WindowSeen(s: Store, m: string)
    requires C.RecentWindow(s, RoomName(m), READ_LIMIT).Some?
    ensures C.RecentWindow(s, RoomName(m), READ_LIMIT).value == ReadWindow(RoomNow(s, m), LegacyNow(s, m))
  {
  }

  /** Messages of a match are pushed to one room, and read from it unless the identifier looks like a room itself. */
  lemma SameRoomExactly(m: string)
    ensures RoomName(m) == "room-" + m <==> !("room-" <= m)
  {
    assert |"room-" + m| == |m| + 5;
  }

  /** A push of the context store is the pipeline's LPUSH and LTRIM with nothing in between. */
  lemma PushAlone(s: Store, m: string, bot: bool)
    requires !("room-" <= m) && C.Typed(s, ChatKey("room-" + m)) && C.Typed(s, LegacyKey("room-" + m))
    ensures RoomNow(C.PushChat(s, "room-" + m, bot), m) == Trimmed(Pushed(RoomNow(s, m), bot))
  {
    C.PushedRoom(s, "room-" + m, bot);
  }

  /** The store's lists for the match are those of another store. */
  predicate SameChat(s: Store, t: Store, m: string) {
    SameEntry(s, t, ChatKey(RoomName(m))) && SameEntry(s, t, LegacyKey(RoomName(m)))
  }

  lemma SameChatSeen(s: Store, t: Store, m: string)
    requires SameChat(s, t, m)
    ensures RoomNow(t, m) == RoomNow(s, m) && LegacyNow(t, m) == LegacyNow(s, m)
    ensures C.RecentWindow(t, RoomName(m), READ_LIMIT) == C.RecentWindow(s, RoomName(m), READ_LIMIT)
  {
  }

  class PolicyChecker {
    const redis: RedisClient
    const limiter: RateLimit
    const contextStore: C.ContextStore
    const config: Config

    constructor (redis: RedisClient, limiter: RateLimit, contextStore: C.ContextStore, config: Config)
      ensures this.redis == redis && this.limiter == limiter
      ensures this.contextStore == contextStore && this.config == config
    {
      this.redis, this.limiter, this.contextStore, this.config := redis, limiter, contextStore, config;
    }

    predicate Valid() {
      limiter.redis == redis && contextStore.redis == redis && redis.precision == config.precision
    }

    /** What the checker sees of the world when it decides on an event of a match. */
    function World(m: string): Shared
      reads redis
    {
      WorldOf(redis.State(), m)
    }

    /** `IsDuplicateEvent`; nothing is known when the command fails. */
    method IsDuplicateEvent(key: Key, f: Fault) returns (duplicate: Option<bool>)
      modifies redis
      ensures duplicate == if f.Fine? then Some(Live(old(redis.State()), key)) else None
      ensures redis.State() == if f.Refused? then old(redis.State()) else SetNX(old(redis.State()), key, Number(1), DAY)
    {
      if f.Refused? {
        return None;
      }
      var wasSet := redis.SetNX(key, Number(1), DAY);
      duplicate := if f.Fine? then Some(!wasSet) else None;
    }

    /** A worker in the checker's own world that holds the event. */
    ghost predicate Holds(t: Shared, w: Worker, x: Input)
      reads redis
    {
      && t.store == redis.State() && w.Busy? && w.event == x.event
      && RoomOf(t, x.event.matchId) == RoomNow(redis.State(), x.event.matchId)
      && x.legacy == LegacyNow(redis.State(), x.event.matchId)
    }

    method CheckRoom(ghost t: Shared, ghost w: Worker, ghost x: Input, e: MatchEvent, f: Trouble) returns (pass: bool)
      requires Valid() && Holds(t, w, x) && x.event == e
      ensures pass <==> RoomCheck(config, t, w, x, Troubled(redis.State(), e.matchId, f)).1.Busy?
    {
      var m := e.matchId;
      var v := limiter.CheckMatchLimit(m, config.maxBots, f.total);
      if !v.Passed? {
        return false;
      }
      var chat := contextStore.GetRecentChatWindow(RoomName(m), READ_LIMIT, f.chat);
      if chat.None? {
        return true;
      }
      WindowSeen(redis.State(), m);
      var blocked := ExceedsProjectedBotRatio(chat.value, config.maxRatio);
      pass := !blocked;
    }

    method CheckHour(ghost t: Shared, ghost w: Worker, ghost x: Input, e: MatchEvent, f: Trouble) returns (pass: bool)
      requires Valid() && Holds(t, w, x) && x.event == e
      modifies redis
      ensures var (u, v) := HourCheck(config, t, w, x, Troubled(old(redis.State()), e.matchId, f));
        redis.State() == u.store && (pass <==> v.Busy?)
    {
      var m := e.matchId;
      ghost var s := redis.State();
      ghost var k, limit, ttl := HourKey(m, s.now / HOUR), HourLimit(config.maxPerHour), RestOfHour(s.now);
      GateLeaves(config.precision, s, k, limit, ttl, f.hour, ChatKey(RoomName(m)));
      GateLeaves(config.precision, s, k, limit, ttl, f.hour, LegacyKey(RoomName(m)));
      var v := limiter.CheckHourlyEventLimit(m, config.maxPerHour, f.hour);
      SameChatSeen(s, redis.State(), m);
      if !v.Passed? {
        return false;
      }
      pass := CheckRoom(t.(store := redis.State()), w.(phase := MatchRead), x, e, f);
    }

    method CheckType(ghost t: Shared, ghost w: Worker, ghost x: Input, e: MatchEvent, f: Trouble) returns (pass: bool)
      requires Valid() && Holds(t, w, x) && x.event == e
      modifies redis
      ensures var (u, v) := TypeCheck(config, t, w, x, Troubled(old(redis.State()), e.matchId, f));
        redis.State() == u.store && (pass <==> v.Busy?)
    {
      var m := e.matchId;
      ghost var s := redis.State();
      ghost var k, limit := TypeKey(m, e.kind), TypeLimit(e.kind);
      GateLeaves(config.precision, s, k, limit, DAY, f.kind, ChatKey(RoomName(m)));
      GateLeaves(config.precision, s, k, limit, DAY, f.kind, LegacyKey(RoomName(m)));
      var v := limiter.CheckEventTypeLimit(m, e.kind, f.kind);
      SameChatSeen(s, redis.State(), m);
      if !v.Passed? {
        return false;
      }
      pass := CheckHour(t.(store := redis.State()), w.(phase := HourRead), x, e, f);
    }

    /**
     * `CheckPolicy`: whatever commands fail, the store it leaves and the verdict it gives are those of a worker that
     * runs alone.
     */
    method CheckPolicy(e: MatchEvent, roll: real, killed: bool, f: Trouble) returns (pass: bool)
      requires Valid()
      modifies redis
      ensures var x := Input(e, roll, killed, LegacyNow(old(redis.State()), e.matchId), Abandon);
        var (t, w) := Ruling(config, old(World(e.matchId)), x, Troubled(old(redis.State()), e.matchId, f));
        redis.State() == t.store && (pass <==> w.Busy?)
    {
      if !Admissible(e, roll, killed) {
        return false;
      }
      ghost var s, sh := redis.State(), World(e.matchId);
      ghost var x := Input(e, roll, killed, LegacyNow(s, e.matchId), Abandon);
      var duplicate := IsDuplicateEvent(DedupKeyOf(e), f.dedup);
      if duplicate != Some(false) {
        return false;
      }
      ghost var (t, w) := Accept(sh, x);
      SameChatSeen(s, redis.State(), e.matchId);
      TypeAlone(config, t, w, x, Troubled(s, e.matchId, f));
      pass := CheckType(t, w, x, e, f);
    }
  }
}
