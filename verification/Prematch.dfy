/** The prematch poller and its burst handler: the sent marker, the stale marker, and at most one burst per match. */
module Prematch {
  import opened Keys
  import opened ExpiringStore
  import opened Options
  import opened Redis
  import opened ContextStore

  const MINUTE := 60 * SECOND
  const BURST := 5

  datatype Phase = Waiting | PrematchPhase | LivePhase | Ended

  /** `ComputePhase`; the kick-off is in seconds, the clock in milliseconds. */
  function ComputePhase(matchTime: int, now: int): Phase {
    var diff := now / SECOND - matchTime;
    if diff >= 110 * 60 then Ended
    else if diff >= 0 then LivePhase
    else if diff >= -30 * 60 then PrematchPhase
    else Waiting
  }

  /** The phases on the clock: 30 minutes up to the kick-off, then 110 minutes. */
  lemma PhaseExactly(matchTime: int, now: int)
    ensures var kickOff := matchTime * 1000;
      && (ComputePhase(matchTime, now) == Waiting <==> now < kickOff - 30 * 60 * 1000)
      && (ComputePhase(matchTime, now) == PrematchPhase <==> kickOff - 30 * 60 * 1000 <= now < kickOff)
      && (ComputePhase(matchTime, now) == LivePhase <==> kickOff <= now < kickOff + 110 * 60 * 1000)
      && (ComputePhase(matchTime, now) == Ended <==> kickOff + 110 * 60 * 1000 <= now)
  {
  }

  /** Minutes until the kick-off, truncated towards zero. */
  function MinutesLeft(matchTime: int, now: int): int {
    var left := matchTime * SECOND - now;
    if left >= 0 then left / MINUTE else -((-left) / MINUTE)
  }

  /** What becomes of one message of a burst, after `work` milliseconds; `pushed` commands of its push run. */
  datatype Fate = NoBundle | NoPersona | NoText | NotPublished | Published(pushed: nat)

  datatype Attempt = Attempt(work: nat, fate: Fate)

  /** The message is in the chat, for six hours. */
  predicate InWhole(a: Attempt) {
    a.fate.Published? && a.fate.pushed >= COMMANDS
  }

  function RoomId(m: string): string {
    "room-" + m
  }

  /** One round of the burst loop, without the pause behind it. */
  function Try(s: Store, m: string, a: Attempt): Store {
    var t := Advance(s, a.work);
    if a.fate.Published? then PushUpTo(t, RoomId(m), true, a.fate.pushed) else t
  }

  /** Ten seconds between messages, none behind the last one or a missing persona. */
  function Pause(a: Attempt, i: nat): nat {
    if i < BURST - 1 && !a.fate.NoPersona? then 10 * SECOND else 0
  }

  function Round(s: Store, m: string, a: Attempt, i: nat): Store {
    Advance(Try(s, m, a), Pause(a, i))
  }

  /** How far a burst is: the store, the messages published, those kept, and whether the kick-off stopped it. */
  datatype Progress = Progress(store: Store, landed: nat, kept: nat, stopped: bool)

  /** The first `n` rounds of a burst. */
  function Rounds(s: Store, m: string, matchTime: int, tries: nat -> Attempt, n: nat): (p: Progress)
    ensures p.kept <= p.landed <= n
  {
    if n == 0 then Progress(s, 0, 0, false)
    else
      var p := Rounds(s, m, matchTime, tries, n - 1);
      if p.stopped || MinutesLeft(matchTime, p.store.now) < 0 then p.(stopped := true)
      else
        var a := tries(n - 1);
        Progress(Round(p.store, m, a, n - 1), p.landed + (if a.fate.Published? then 1 else 0),
                 p.kept + (if InWhole(a) then 1 else 0), false)
  }

  function MarkSent(s: Store, m: string): Store {
    Set(s, PrematchKey(m), Number(1), 2 * HOUR)
  }

  /** What becomes of the reads of the marker and of the chat, and of the write of the marker. */
  datatype Faults = Faults(seen: Fault, chat: Fault, mark: Fault)

  const NO_FAULTS := Faults(Fine, Fine, Fine)

  /**
   * A poll starts a burst in the prematch phase, for a marked match only when its chat is empty; it does not when one
   * of the two cannot be read.
   */
  predicate Starts(s: Store, m: string, matchTime: int, f: Faults) {
    && ComputePhase(matchTime, s.now) == PrematchPhase && f.seen.Fine?
    && (Live(s, PrematchKey(m)) ==> f.chat.Fine? && RecentWindow(s, RoomId(m), 1) == Some([]))
  }

  /** A burst: the messages published and kept, and whether the match was marked behind it. */
  datatype Burst = Burst(landed: nat, kept: nat, marked: bool)

  /** `poll` for one match, with the handler run to its end: a burst that was handled is marked, even an empty one. */
  function Poll(s: Store, m: string, matchTime: int, found: bool, tries: nat -> Attempt, f: Faults)
    : (Store, Option<Burst>)
  {
    if !Starts(s, m, matchTime, f) || !found then (s, None)
    else
      var p := Rounds(s, m, matchTime, tries, BURST);
      (if f.mark.Refused? then p.store else MarkSent(p.store, m), Some(Burst(p.landed, p.kept, !f.mark.Refused?)))
  }

  /** Behind a burst the match is marked for two hours, unless that write fails. */
  lemma PollMarksExactly(s: Store, m: string, matchTime: int, found: bool, tries: nat -> Attempt, f: Faults)
    requires Poll(s, m, matchTime, found, tries, f).1.Some?
    ensures var (t, burst) := Poll(s, m, matchTime, found, tries, f);
      var k := PrematchKey(m);
      && (burst.value.marked <==> f.mark != Refused)
      && if f.mark == Refused
         then (k in t.entries <==> k in s.entries) && (k in s.entries ==> t.entries[k] == s.entries[k])
         else k in t.entries && t.entries[k] == Entry(Number(1), Some(t.now + 2 * 3600 * 1000))
  {
    RoundsLeave(s, m, matchTime, tries, BURST);
  }

  lemma {:induction false} RoundsLeave(s: Store, m: string, matchTime: int, tries: nat -> Attempt, n: nat)
    ensures var t, k := Rounds(s, m, matchTime, tries, n).store, PrematchKey(m);
      (k in t.entries <==> k in s.entries) && (k in s.entries ==> t.entries[k] == s.entries[k])
  {
    if n > 0 {
      RoundsLeave(s, m, matchTime, tries, n - 1);
      var p := Rounds(s, m, matchTime, tries, n - 1);
      var a := tries(n - 1);
      if a.fate.Published? {
        PushLeaves(Advance(p.store, a.work), RoomId(m), true, a.fate.pushed, PrematchKey(m));
      }
    }
  }

  lemma {:induction false} StoppedStays(s: Store, m: string, matchTime: int, tries: nat -> Attempt, i: nat, n: nat)
    requires i <= n && Rounds(s, m, matchTime, tries, i).stopped
    ensures Rounds(s, m, matchTime, tries, n) == Rounds(s, m, matchTime, tries, i)
  {
    if i < n {
      StoppedStays(s, m, matchTime, tries, i, n - 1);
    }
  }

  class PrematchPoller {
    const redis: RedisClient
    const contextStore: ContextStore

    constructor (redis: RedisClient, contextStore: ContextStore)
      ensures this.redis == redis && this.contextStore == contextStore
    {
      this.redis, this.contextStore := redis, contextStore;
    }

    predicate Valid() {
      contextStore.redis == redis
    }

    method HasSentPrematch(m: string, f: Fault) returns (b: Option<bool>)
      ensures b == if f.Fine? then Some(Live(redis.State(), PrematchKey(m))) else None
    {
      if !f.Fine? {
        return None;
      }
      var live := redis.Exists(PrematchKey(m));
      b := Some(live);
    }

    method MarkSentPrematch(m: string, f: Fault)
      modifies redis
      ensures redis.State() == if f.Refused? then old(redis.State()) else MarkSent(old(redis.State()), m)
    {
      if !f.Refused? {
        redis.SetWithTTL(PrematchKey(m), Number(1), 2 * HOUR);
      }
    }

    /** The body of the burst loop. */
    method SendOne(m: string, a: Attempt, i: nat)
      requires Valid()
      modifies redis
      ensures redis.State() == Round(old(redis.State()), m, a, i)
    {
      redis.Wait(a.work);
      if a.fate.Published? {
        contextStore.PushChatMessage(RoomId(m), true, a.fate.pushed);
      }
      redis.Wait(Pause(a, i));
    }

    /** `Handle`: the loop of five. */
    method Handle(m: string, matchTime: int, tries: nat -> Attempt) returns (landed: nat)
      requires Valid()
      modifies redis
      ensures var p := Rounds(old(redis.State()), m, matchTime, tries, BURST);
        redis.State() == p.store && landed == p.landed
    {
      landed := 0;
      ghost var s, kept := redis.State(), 0;
      for i := 0 to BURST
        invariant Rounds(s, m, matchTime, tries, i) == Progress(redis.State(), landed, kept, false)
      {
        if MinutesLeft(matchTime, redis.now) < 0 {
          StoppedStays(s, m, matchTime, tries, i + 1, BURST);
          return;
        }
        var a := tries(i);
        SendOne(m, a, i);
        if a.fate.Published? {
          landed := landed + 1;
        }
        kept := kept + if InWhole(a) then 1 else 0;
      }
    }

    /** Tells how many messages a burst published, if one was started. */
    method PollMatch(m: string, matchTime: int, found: bool, tries: nat -> Attempt, f: Faults)
      returns (landed: Option<nat>)
      requires Valid()
      modifies redis
      ensures var (t, burst) := Poll(old(redis.State()), m, matchTime, found, tries, f);
        redis.State() == t && landed == match burst case None => None case Some(b) => Some(b.landed)
    {
      if ComputePhase(matchTime, redis.now) != PrematchPhase {
        return None;
      }
      var sent := HasSentPrematch(m, f.seen);
      if sent.None? {
        return None;
      }
      if sent.value {
        var chat := contextStore.GetRecentChatWindow(RoomId(m), 1, f.chat);
        if chat.None? || |chat.value| > 0 {
          return None;
        }
      }
      if !found {
        return None;
      }
      var n := Handle(m, matchTime, tries);
      MarkSentPrematch(m, f.mark);
      landed := Some(n);
    }
  }

  /** How many of the first `n` attempts are published. */
  function Successes(tries: nat -> Attempt, n: nat): nat {
    if n == 0 then 0 else Successes(tries, n - 1) + if tries(n - 1).fate.Published? then 1 else 0
  }

  /** A burst the kick-off does not stop pushes every message that is published, and no other. */
  lemma {:induction false} BurstLands(s: Store, m: string, matchTime: int, tries: nat -> Attempt, n: nat)
    ensures var p := Rounds(s, m, matchTime, tries, n);
      p.landed <= Successes(tries, n) && (!p.stopped ==> p.landed == Successes(tries, n))
  {
    if n > 0 {
      BurstLands(s, m, matchTime, tries, n - 1);
    }
  }

  /** A burst stops early only when the kick-off is a minute past. */
  lemma {:induction false} StoppedIsLate(s: Store, m: string, matchTime: int, tries: nat -> Attempt, n: nat)
    requires Rounds(s, m, matchTime, tries, n).stopped
    ensures Rounds(s, m, matchTime, tries, n).store.now >= matchTime * SECOND + MINUTE
  {
    if n > 0 && Rounds(s, m, matchTime, tries, n - 1).stopped {
      StoppedIsLate(s, m, matchTime, tries, n - 1);
    }
  }

  /** Each round first looks at the clock: from a minute past the kick-off on, the burst stops. */
  lemma StopsExactly(s: Store, m: string, matchTime: int, tries: nat -> Attempt, n: nat)
    requires n > 0
    ensures var p := Rounds(s, m, matchTime, tries, n - 1);
      Rounds(s, m, matchTime, tries, n).stopped <==> p.stopped || p.store.now >= (matchTime + 60) * 1000
  {
  }

  /** The work of the first `n` attempts. */
  function Work(tries: nat -> Attempt, n: nat): nat {
    if n == 0 then 0 else Work(tries, n - 1) + tries(n - 1).work
  }

  /** A burst that is not stopped pauses ten seconds after every message but the last. */
  lemma {:induction false} BurstPauses(s: Store, m: string, matchTime: int, tries: nat -> Attempt, n: nat)
    requires n <= 5 && forall i: nat :: !tries(i).fate.NoPersona?
    requires !Rounds(s, m, matchTime, tries, n).stopped
    ensures Rounds(s, m, matchTime, tries, n).store.now
         == s.now + Work(tries, n) + (if n < 5 then n else 4) * 10000
  {
    if n > 0 {
      BurstPauses(s, m, matchTime, tries, n - 1);
      var p := Rounds(s, m, matchTime, tries, n - 1);
      RoundTakes(p.store, m, tries(n - 1), n - 1);
    }
  }

  /** A message takes its work and a pause, and no pause behind the last one or a missing persona. */
  lemma RoundTakes(s: Store, m: string, a: Attempt, i: nat)
    ensures Round(s, m, a, i).now == s.now + a.work + if i < 4 && !a.fate.NoPersona? then 10000 else 0
  {
    if a.fate.Published? {
      PushKeepsTime(Advance(s, a.work), RoomId(m), true, a.fate.pushed);
    }
  }

  lemma PushKeepsTime(s: Store, room: string, bot: bool, n: nat)
    ensures PushUpTo(s, room, bot, n).now == s.now
  {
    PushLeaves(s, room, bot, n, PrematchKey(""));
  }

  /**
   * A poll starts a burst exactly in the last half hour before the kick-off, for a match that is found, and for a
   * marked one when its chat can be read and is empty.
   */
  lemma PollStartsExactly(s: Store, m: string, matchTime: int, found: bool, tries: nat -> Attempt, f: Faults)
    ensures Poll(s, m, matchTime, found, tries, f).1.Some?
       <==> found && f.seen.Fine? && (matchTime - 30 * 60) * 1000 <= s.now < matchTime * 1000
            && (Live(s, PrematchKey(m)) ==> f.chat.Fine? && RecentWindow(s, "room-" + m, 1) == Some([]))
  {
    PhaseExactly(matchTime, s.now);
  }

  /**
   * A marker without chat is stale: after a burst that published nothing in an empty chat, a poll that can read both
   * starts again, as long as the prematch phase lasts.
   */
  lemma EmptyBurstIsRetried(s: Store, m: string, matchTime: int, tries: nat -> Attempt, f: Faults, d: nat, g: Faults)
    requires Starts(s, m, matchTime, f) && RecentWindow(s, RoomId(m), 1) == Some([]) && g.seen.Fine? && g.chat.Fine?
    requires Rounds(s, m, matchTime, tries, BURST).landed == 0
    ensures var t := Advance(Poll(s, m, matchTime, true, tries, f).0, d);
      Starts(t, m, matchTime, g) <==> ComputePhase(matchTime, t.now) == PrematchPhase
  {
    NothingPushed(s, m, matchTime, tries, BURST);
  }

  lemma {:induction false} NothingPushed(s: Store, m: string, matchTime: int, tries: nat -> Attempt, n: nat)
    requires Rounds(s, m, matchTime, tries, n).landed == 0
    ensures var t := Rounds(s, m, matchTime, tries, n).store; t.entries == s.entries && s.now <= t.now
  {
    if n > 0 {
      NothingPushed(s, m, matchTime, tries, n - 1);
    }
  }

  // ---------- whole runs for one match ----------

  /** Besides polls: time, and messages of users or other bots in the room, pushed in part or in whole. */
  datatype Op =
    | Wait(d: nat)
    | RoomMessage(bot: bool, pushed: nat)
    | PollNow(found: bool, tries: nat -> Attempt, f: Faults)

  datatype Run = Run(store: Store, bursts: seq<Burst>)

  function Step(r: Run, m: string, matchTime: int, op: Op): Run {
    match op
    case Wait(d) => r.(store := Advance(r.store, d))
    case RoomMessage(bot, pushed) => r.(store := PushUpTo(r.store, RoomId(m), bot, pushed))
    case PollNow(found, tries, f) =>
      var (t, burst) := Poll(r.store, m, matchTime, found, tries, f);
      Run(t, if burst.Some? then r.bursts + [burst.value] else r.bursts)
  }

  function Follow(now: int, m: string, matchTime: int, ops: seq<Op>): Run {
    if ops == [] then Run(Store(now, map[]), [])
    else Step(Follow(now, m, matchTime, ops[..|ops| - 1]), m, matchTime, ops[|ops| - 1])
  }

  /** Both lists of the room hold lists, if anything. */
  predicate RoomTyped(s: Store, m: string) {
    Typed(s, ChatKey(RoomId(m))) && Typed(s, LegacyKey(RoomId(m)))
  }

  /** A burst that kept a message and was marked. */
  predicate Done(b: Burst) {
    b.kept > 0 && b.marked
  }

  /** Marker and chat outlive the prematch phase. */
  predicate Sealed(s: Store, m: string, matchTime: int) {
    var kickOff := matchTime * SECOND;
    && kickOff - 30 * MINUTE <= s.now
    && LastsUntil(s, PrematchKey(m), kickOff) && LastsUntil(s, ChatKey(RoomId(m)), kickOff)
  }

  /** Only the last burst may be done, and then no poll of the prematch phase starts another. */
  predicate Settled(r: Run, m: string, matchTime: int) {
    && RoomTyped(r.store, m)
    && (forall i | 0 <= i < |r.bursts| :: r.bursts[i].kept <= r.bursts[i].landed <= BURST)
    && (forall i | 0 <= i < |r.bursts| - 1 :: !Done(r.bursts[i]))
    && (r.bursts != [] && Done(r.bursts[|r.bursts| - 1]) ==> Sealed(r.store, m, matchTime))
  }

  /** A burst only lets time pass and pushes to the room; once it has kept a message, the room lasts six hours. */
  lemma {:induction false} RoundsEffect(s: Store, m: string, matchTime: int, tries: nat -> Attempt, n: nat)
    requires RoomTyped(s, m)
    ensures var p := Rounds(s, m, matchTime, tries, n);
      && s.now <= p.store.now && RoomTyped(p.store, m)
      && (p.kept > 0 ==> LastsUntil(p.store, ChatKey(RoomId(m)), s.now + ROOM_TTL))
  {
    if n > 0 {
      RoundsEffect(s, m, matchTime, tries, n - 1);
      RoundEffect(Rounds(s, m, matchTime, tries, n - 1).store, m, tries(n - 1), n - 1, s.now + ROOM_TTL);
    }
  }

  lemma RoundEffect(s: Store, m: string, a: Attempt, i: nat, until: int)
    requires RoomTyped(s, m) && until <= s.now + ROOM_TTL
    ensures var t := Round(s, m, a, i);
      && s.now <= t.now && RoomTyped(t, m)
      && (InWhole(a) || LastsUntil(s, ChatKey(RoomId(m)), until) ==> LastsUntil(t, ChatKey(RoomId(m)), until))
  {
    if a.fate.Published? {
      PartlyPushed(Advance(s, a.work), RoomId(m), true, a.fate.pushed, until);
    }
  }

  lemma SealedByBurst(s: Store, m: string, matchTime: int, tries: nat -> Attempt, f: Faults)
    requires RoomTyped(s, m) && Starts(s, m, matchTime, f)
    ensures var (t, burst) := Poll(s, m, matchTime, true, tries, f);
      RoomTyped(t, m) && burst.Some? && (Done(burst.value) ==> Sealed(t, m, matchTime))
  {
    RoundsEffect(s, m, matchTime, tries, BURST);
    assert matchTime * SECOND - 30 * MINUTE <= s.now < matchTime * SECOND;
  }

  /** While marker and chat last, no poll starts a burst. */
  lemma SealedStartsNone(s: Store, m: string, matchTime: int, f: Faults)
    requires RoomTyped(s, m) && Sealed(s, m, matchTime)
    ensures !Starts(s, m, matchTime, f)
  {
  }

  lemma SettledPoll(r: Run, m: string, matchTime: int, found: bool, tries: nat -> Attempt, f: Faults)
    requires Settled(r, m, matchTime)
    ensures Settled(Step(r, m, matchTime, PollNow(found, tries, f)), m, matchTime)
  {
    if Starts(r.store, m, matchTime, f) && found {
      SealedByBurst(r.store, m, matchTime, tries, f);
      if r.bursts != [] && Done(r.bursts[|r.bursts| - 1]) {
        SealedStartsNone(r.store, m, matchTime, f);
        assert false;
      }
    }
  }

  lemma SettledMessage(r: Run, m: string, matchTime: int, bot: bool, pushed: nat)
    requires Settled(r, m, matchTime)
    ensures Settled(Step(r, m, matchTime, RoomMessage(bot, pushed)), m, matchTime)
  {
    var kickOff := matchTime * SECOND;
    PartlyPushed(r.store, RoomId(m), bot, pushed, if kickOff <= r.store.now + ROOM_TTL then kickOff else r.store.now);
    PushLeaves(r.store, RoomId(m), bot, pushed, PrematchKey(m));
  }

  lemma SettledStep(r: Run, m: string, matchTime: int, op: Op)
    requires Settled(r, m, matchTime)
    ensures Settled(Step(r, m, matchTime, op), m, matchTime)
  {
    match op {
      case Wait(_) =>
      case RoomMessage(bot, pushed) => SettledMessage(r, m, matchTime, bot, pushed);
      case PollNow(found, tries, f) => SettledPoll(r, m, matchTime, found, tries, f);
    }
  }

  lemma {:induction false} SettledRun(now: int, m: string, matchTime: int, ops: seq<Op>)
    ensures Settled(Follow(now, m, matchTime, ops), m, matchTime)
  {
    if ops != [] {
      SettledRun(now, m, matchTime, ops[..|ops| - 1]);
      SettledStep(Follow(now, m, matchTime, ops[..|ops| - 1]), m, matchTime, ops[|ops| - 1]);
    }
  }

  /**
   * Over all polls of a match, whatever commands fail, no burst follows one that kept a message in the chat and was
   * marked; each publishes at most five.
   */
  lemma NoBurstAfterDone(now: int, m: string, matchTime: int, ops: seq<Op>)
    ensures var bursts := Follow(now, m, matchTime, ops).bursts;
      && (forall i | 0 <= i < |bursts| :: bursts[i].landed <= BURST)
      && (forall i | 0 <= i < |bursts| - 1 :: bursts[i].kept == 0 || !bursts[i].marked)
  {
    SettledRun(now, m, matchTime, ops);
  }

  /** No write fails: every published message is pushed in whole, and every burst is marked. */
  predicate AllWritten(bursts: seq<Burst>) {
    forall i | 0 <= i < |bursts| :: bursts[i].kept == bursts[i].landed && bursts[i].marked
  }

  function Total(bursts: seq<Burst>): nat {
    if bursts == [] then 0 else Total(bursts[..|bursts| - 1]) + bursts[|bursts| - 1].landed
  }

  lemma {:induction false} TotalOfSettled(bursts: seq<Burst>)
    requires forall i | 0 <= i < |bursts| :: bursts[i].landed <= BURST && (i < |bursts| - 1 ==> bursts[i].landed == 0)
    ensures Total(bursts) <= BURST
  {
    if |bursts| > 1 {
      ZeroTotal(bursts[..|bursts| - 1]);
    } else if bursts != [] {
      assert bursts[..0] == [];
    }
  }

  lemma {:induction false} ZeroTotal(bursts: seq<Burst>)
    requires forall i | 0 <= i < |bursts| :: bursts[i].landed == 0
    ensures Total(bursts) == 0
  {
    if bursts != [] {
      ZeroTotal(bursts[..|bursts| - 1]);
    }
  }

  lemma OneOfSettled(r: Run, m: string, matchTime: int)
    requires Settled(r, m, matchTime) && AllWritten(r.bursts)
    ensures Total(r.bursts) <= BURST && forall i | 0 <= i < |r.bursts| - 1 :: r.bursts[i].landed == 0
  {
    forall i | 0 <= i < |r.bursts| - 1 ensures r.bursts[i].landed == 0 {
      assert !Done(r.bursts[i]);
    }
    TotalOfSettled(r.bursts);
  }

  /**
   * When no write fails, at most one burst lands a message, at most five prematch messages are published, and a burst
   * is retried only after one that landed none.
   */
  lemma AtMostOneBurst(now: int, m: string, matchTime: int, ops: seq<Op>)
    requires AllWritten(Follow(now, m, matchTime, ops).bursts)
    ensures var bursts := Follow(now, m, matchTime, ops).bursts;
      && Total(bursts) <= BURST
      && (forall i | 0 <= i < |bursts| - 1 :: bursts[i].landed == 0)
  {
    SettledRun(now, m, matchTime, ops);
    OneOfSettled(Follow(now, m, matchTime, ops), m, matchTime);
  }

  /** Every message is published at once and pushed in whole. */
  const GOOD := Attempt(0, Published(COMMANDS))

  lemma {:induction false} GoodRounds(s: Store, m: string, matchTime: int, n: nat)
    requires n <= BURST && s.now < matchTime * SECOND
    ensures var p := Rounds(s, m, matchTime, _ => GOOD, n);
      !p.stopped && p.landed == n && p.kept == n && p.store.now <= s.now + n * 10000
  {
    if n > 0 {
      GoodRounds(s, m, matchTime, n - 1);
      RoundTakes(Rounds(s, m, matchTime, _ => GOOD, n - 1).store, m, GOOD, n - 1);
    }
  }

  /** One poll within half an hour before the kick-off is enough to publish all five. */
  lemma FiveLand(now: int, m: string, matchTime: int)
    requires (matchTime - 30 * 60) * 1000 <= now < matchTime * 1000
    ensures var bursts := Follow(now, m, matchTime, [PollNow(true, _ => GOOD, NO_FAULTS)]).bursts;
      AllWritten(bursts) && Total(bursts) == 5
  {
    var op := PollNow(true, _ => GOOD, NO_FAULTS);
    var r := Follow(now, m, matchTime, []);
    assert [op][..0] == [];
    PollStartsExactly(r.store, m, matchTime, true, _ => GOOD, NO_FAULTS);
    GoodRounds(r.store, m, matchTime, BURST);
    var bursts := Follow(now, m, matchTime, [op]).bursts;
    assert bursts == [Burst(5, 5, true)] && bursts[..0] == [];
  }
}
