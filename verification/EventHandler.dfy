/** `handleEvent` as it is written, from the verdict to the record of the message, and why it is a run of a worker. */
module EventHandler {
  import opened Keys
  import opened ExpiringStore
  import opened Options
  import opened RateLimits
  import opened Events
  import opened Pipeline
  import opened PolicyChecker
  import opened Verdicts
  import opened Delivery
  import C = ContextStore

  /** What an event that passes leaves in the store: its message in the chat, and one more on the match counter. */
  function Recorded(c: Config, s: Store, m: string, pushed: nat, g: Faults): Store {
    Increment(c.precision, C.PushUpTo(s, "room-" + m, true, pushed), TotalKey(m), DAY, g).0
  }

  class EventHandler {
    const checker: PolicyChecker

    constructor (checker: PolicyChecker)
      ensures this.checker == checker
    {
      this.checker := checker;
    }

    /**
     * `handleEvent`: the event is enriched, checked unless it announces a match, and recorded when nothing between
     * verdict and publication fails. `outcome` is what becomes of persona, text, quality check, shadow ban and
     * publishing, `pushed` how many commands of the push run.
     */
    method HandleEvent(e: MatchEvent, daily: Option<Daily>, roll: real, killed: bool, outcome: Outcome, f: Trouble,
                       pushed: nat, g: Faults) returns (done: bool)
      requires checker.Valid()
      modifies checker.redis
      ensures var s, m := old(checker.redis.State()), e.matchId;
        var x := Input(Enriched(e, daily), roll, killed, LegacyNow(s, m), outcome);
        var (t, w) := Ruling(checker.config, WorldOf(s, m), x, Troubled(s, m, f));
        && (done <==> (e.kind == "MATCH_UPCOMING" || w.Busy?) && outcome != Abandon)
        && var u := if e.kind == "MATCH_UPCOMING" then s else t.store;
           checker.redis.State() == if done then Recorded(checker.config, u, m, pushed, g) else u
    {
      var event := Enriched(e, daily);
      if event.kind != "MATCH_UPCOMING" {
        ghost var s, m := checker.redis.State(), e.matchId;
        ghost var x := Input(event, roll, killed, LegacyNow(s, m), outcome);
        RulingIgnoresOutcome(checker.config, WorldOf(s, m), x, Troubled(s, m, f));
        var pass := checker.CheckPolicy(event, roll, killed, f);
        if !pass {
          return false;
        }
      }
      if outcome.Abandon? {
        return false;
      }
      checker.contextStore.PushChatMessage("room-" + event.matchId, true, pushed);
      var _ := checker.limiter.IncrTotalMessages(event.matchId, g);
      done := true;
    }
  }

  lemma RulingIgnoresOutcome(c: Config, sh: Shared, x: Input, f: Trouble)
    ensures Ruling(c, sh, x, f) == Ruling(c, sh, x.(outcome := Abandon), f)
  {
    var (t, w) := Accept(sh, x);
    if w.Busy? {
      TypeAlone(c, t, w, x, f);
      TypeAlone(c, t, w, x.(outcome := Abandon), f);
    }
  }

  /** How far the two commands of a worker's push get when the push of the code ends after some commands. */
  function LossBy(pushed: nat, g: Faults): Loss {
    Loss(if pushed > 0 then Fine else Refused, if pushed > 2 then Fine else Refused, g.incr, g.expire)
  }

  lemma PushedChat(s: Store, m: string, pushed: nat, g: Faults)
    requires !("room-" <= m) && C.Typed(s, ChatKey("room-" + m)) && C.Typed(s, LegacyKey("room-" + m))
    ensures RoomNow(C.PushUpTo(s, "room-" + m, true, pushed), m).list == Chat(RoomNow(s, m).list, LossBy(pushed, g))
  {
    C.PushingPushes(s, "room-" + m, true, if pushed < C.COMMANDS then pushed else C.COMMANDS);
  }

  lemma IncrementLeaves(p: Precision, s: Store, k: Key, g: Faults, l: Key)
    requires l != k
    ensures SameEntry(s, Increment(p, s, k, DAY, g).0, l)
  {
    if Incr(s, k).Some? {
      IncrLeaves(s, k, l);
      ExpireLeaves(Incr(s, k).value, k, Kept(p, DAY), l);
    }
  }

  lemma IncrementThere(p: Precision, s: Store, t: Store, k: Key, g: Faults)
    requires SameEntry(s, t, k)
    ensures SameEntry(Increment(p, s, k, DAY, g).0, Increment(p, t, k, DAY, g).0, k)
  {
  }

  /** The record of the code is the record of the worker. */
  lemma RecordedAlike(c: Config, s: Store, m: string, pushed: nat, g: Faults)
    requires !("room-" <= m) && C.Typed(s, ChatKey("room-" + m)) && C.Typed(s, LegacyKey("room-" + m))
    ensures var t := Recorded(c, s, m, pushed, g);
      && RoomNow(t, m).list == Chat(RoomNow(s, m).list, LossBy(pushed, g))
      && SameEntry(Increment(c.precision, s, TotalKey(m), DAY, g).0, t, TotalKey(m))
  {
    var u := C.PushUpTo(s, "room-" + m, true, pushed);
    PushedChat(s, m, pushed, g);
    IncrementLeaves(c.precision, u, TotalKey(m), g, ChatKey("room-" + m));
    C.PushLeaves(s, "room-" + m, true, pushed, TotalKey(m));
    IncrementThere(c.precision, s, u, TotalKey(m), g);
  }

  /** The chat that the worker reads is the chat in the store. */
  predicate InStep(t: Shared, m: string) {
    RoomOf(t, m).list == RoomNow(t.store, m).list && t.published == []
  }

  lemma HeardAlike(c: Config, t: Shared, u: Shared, e: MatchEvent, ticket: nat, shadowed: bool, pushed: nat, g: Faults)
    requires var m := e.matchId;
      && !("room-" <= m) && C.Typed(t.store, ChatKey("room-" + m)) && C.Typed(t.store, LegacyKey("room-" + m))
    requires InStep(t, e.matchId) && Delivered(c, t, u, e, ticket, shadowed, LossBy(pushed, g))
    ensures var m := e.matchId;
      var v := Recorded(c, t.store, m, pushed, g);
      |u.published| == 1 && RoomNow(v, m).list == RoomOf(u, m).list && SameEntry(u.store, v, TotalKey(m))
  {
    RecordedAlike(c, t.store, e.matchId, pushed, g);
    IncrementIgnoresRead(c.precision, t.store, TotalKey(e.matchId), g);
  }

  lemma IncrementIgnoresRead(p: Precision, s: Store, k: Key, g: Faults)
    ensures Increment(p, s, k, DAY, g) == Increment(p, s, k, DAY, g.(get := Fine))
  {
  }

  lemma RuledInStep(c: Config, s: Store, x: Input, f: Trouble)
    requires var m := x.event.matchId;
      && !("room-" <= m) && C.Typed(s, ChatKey("room-" + m)) && C.Typed(s, LegacyKey("room-" + m))
      && Positive(s, TotalKey(m))
    ensures var m := x.event.matchId;
      var (t, w) := Ruling(c, WorldOf(s, m), x, f);
      && C.Typed(t.store, ChatKey("room-" + m)) && C.Typed(t.store, LegacyKey("room-" + m))
      && Positive(t.store, TotalKey(m)) && InStep(t, m)
      && (w.Busy? ==> w.phase.Deliver? && w.event == x.event)
  {
    var m := x.event.matchId;
    RulingUnheard(c, WorldOf(s, m), x, f, ChatKey("room-" + m));
    RulingUnheard(c, WorldOf(s, m), x, f, LegacyKey("room-" + m));
    RulingUnheard(c, WorldOf(s, m), x, f, TotalKey(m));
  }

  /**
   * The code and a worker of the pipeline that nobody interrupts agree on an event from its arrival to its end: on
   * whether it is heard, on the chat of its match and on the match counter, whatever commands fail.
   */
  lemma HandlerAgrees(c: Config, s: Store, x: Input, f: Trouble, pushed: nat, g: Faults)
    requires var m := x.event.matchId;
      && !("room-" <= m) && C.Typed(s, ChatKey("room-" + m)) && C.Typed(s, LegacyKey("room-" + m))
      && Positive(s, TotalKey(m))
    ensures var m := x.event.matchId;
      var (t, w) := Ruling(c, WorldOf(s, m), x, f);
      var u := Handling(c, WorldOf(s, m), x, f, LossBy(pushed, g)).0;
      var heard := w.Busy? && x.outcome != Abandon;
      var v := if heard then Recorded(c, t.store, m, pushed, g) else t.store;
      && |u.published| == (if heard then 1 else 0)
      && RoomNow(v, m).list == RoomOf(u, m).list && SameEntry(u.store, v, TotalKey(m))
  {
    var m := x.event.matchId;
    var (t, w) := Ruling(c, WorldOf(s, m), x, f);
    RuledInStep(c, s, x, f);
    if w.Busy? {
      var u := Delivering(c, t, w, x, LossBy(pushed, g)).0;
      DeliveredExactly(c, t, w, x, LossBy(pushed, g));
      if x.outcome != Abandon {
        HeardAlike(c, t, u, x.event, w.ticket, x.outcome == Shadow, pushed, g);
      }
    }
  }
}
