/** How `handleEvent` ends: what a message that has passed its checks leaves in the room, the counter and outside. */
module Delivery {
  import opened Keys
  import opened ExpiringStore
  import opened Options
  import opened RateLimits
  import opened Events
  import opened Pipeline
  import opened CheckBounds
  import opened PolicyChecker
  import opened Verdicts

  /** What becomes of the commands behind a publication. */
  datatype Loss = Loss(push: Fault, trim: Fault, incr: Fault, expire: Fault)

  /** The commands a worker still has to run behind its verdict, the publication included. */
  function Left(w: Worker): nat {
    if w.Idle? then 0
    else match w.phase
      case Deliver(_) => 5 case Push(_) => 4 case Trim => 3 case Count => 2 case CountExpire => 1
      case _ => 0
  }

  function LossOf(f: Loss, phase: Phase): Fault {
    match phase
    case Push(_) => f.push case Trim => f.trim case Count => f.incr case CountExpire => f.expire
    case _ => Fine
  }

  /** One command: one that fails is passed over with those that depend on it. */
  function StepOrSkip(c: Config, sh: Shared, w: Worker, x: Input, f: Fault): (Shared, Worker)
    requires w.Busy? && Left(w) > 0
  {
    if f.Refused? && MayFalter(w) then FalterWorker(sh, w)
    else
      var (t, v) := StepWorker(c, sh, w, x);
      if f.Lost? && (w.phase.Push? || w.phase.Count?) && MayFalter(v) then FalterWorker(t, v) else (t, v)
  }

  /** A worker that nobody interrupts, from its verdict to the end. */
  function Delivering(c: Config, sh: Shared, w: Worker, x: Input, f: Loss): (Shared, Worker)
    decreases Left(w)
  {
    if Left(w) == 0 then (sh, w)
    else
      var (t, v) := StepOrSkip(c, sh, w, x, LossOf(f, w.phase));
      if Left(v) < Left(w) then Delivering(c, t, v, x, f) else (t, v)
  }

  /** The chat after a push: LPUSH and LTRIM, up to the one that fails. */
  function Chat(list: seq<bool>, f: Loss): seq<bool> {
    if f.push.Refused? then list
    else if f.push.Lost? || f.trim.Refused? then [true] + list
    else if |list| >= 50 then [true] + list[..49] else [true] + list
  }

  /** The chat of the match is now this list, and no other room has changed. */
  ghost predicate RoomChanged(sh: Shared, t: Shared, m: string, list: seq<bool>) {
    && RoomOf(t, m).list == list
    && forall k | k != m :: RoomOf(t, k) == RoomOf(sh, k)
  }

  lemma PushActs(c: Config, sh: Shared, w: Worker, x: Input, f: Fault)
    requires w.Busy? && w.phase.Push?
    ensures var (t, v) := StepOrSkip(c, sh, w, x, f);
      var list := RoomOf(sh, w.event.matchId).list;
      && t == sh.(rooms := t.rooms) && v == w.(phase := if f.Fine? then Trim else Count)
      && RoomChanged(sh, t, w.event.matchId, if f.Refused? then list else [true] + list)
  {
    if !f.Refused? {
      var (t, v) := StepRecord(sh, w);
      var r := PushOwn(RoomOf(sh, w.event.matchId), w.phase.sight);
      assert v == w.(phase := Trim) && t == WithRoom(sh, w.event.matchId, r);
      assert StepOrSkip(c, sh, w, x, f) == if f.Lost? then FalterWorker(t, v) else (t, v);
    }
  }

  lemma TrimActs(c: Config, sh: Shared, w: Worker, x: Input, f: Fault)
    requires w.Busy? && w.phase.Trim?
    ensures var (t, v) := StepOrSkip(c, sh, w, x, f);
      var list := RoomOf(sh, w.event.matchId).list;
      && t == sh.(rooms := t.rooms) && v == w.(phase := Count)
      && RoomChanged(sh, t, w.event.matchId, if f.Refused? || |list| <= 50 then list else list[..50])
  {
  }

  lemma PushDone(c: Config, sh: Shared, w: Worker, x: Input, f: Loss) returns (t: Shared)
    requires w.Busy? && w.phase.Push?
    ensures Delivering(c, sh, w, x, f) == Delivering(c, t, w.(phase := Count), x, f)
    ensures t == sh.(rooms := t.rooms) && RoomChanged(sh, t, w.event.matchId, Chat(RoomOf(sh, w.event.matchId).list, f))
  {
    PushActs(c, sh, w, x, f.push);
    var (u, v) := StepOrSkip(c, sh, w, x, f.push);
    t := u;
    if v.phase.Trim? {
      TrimActs(c, u, v, x, f.trim);
      t := StepOrSkip(c, u, v, x, f.trim).0;
      RoomThenRoom(sh, u, t, w.event.matchId, Chat(RoomOf(sh, w.event.matchId).list, f));
    }
  }

  lemma RoomThenRoom(sh: Shared, t: Shared, u: Shared, m: string, list: seq<bool>)
    requires RoomChanged(sh, t, m, RoomOf(t, m).list) && RoomChanged(t, u, m, list)
    ensures RoomChanged(sh, u, m, list)
  {
    forall k | k != m ensures RoomOf(u, k) == RoomOf(sh, k) {
      assert RoomOf(t, k) == RoomOf(sh, k);
    }
  }

  /** INCR of the match counter goes on to EXPIRE exactly when it creates the counter. */
  lemma CountActs(c: Config, sh: Shared, w: Worker, x: Input, f: Fault)
    requires w.Busy? && w.phase.Count? && Positive(sh.store, TotalKey(w.event.matchId))
    ensures var (t, v) := StepOrSkip(c, sh, w, x, f);
      var k := TotalKey(w.event.matchId);
      && t.rooms == sh.rooms && t.published == sh.published && t.accepted == sh.accepted
      && v == (if f.Fine? && !Live(sh.store, k) then w.(phase := CountExpire) else Idle)
      && Incr(sh.store, k).Some? && t.store == if f.Refused? then sh.store else Incr(sh.store, k).value
  {
  }

  lemma ExpireActs(c: Config, sh: Shared, w: Worker, x: Input, f: Loss)
    requires w.Busy? && w.phase.CountExpire?
    ensures var k := TotalKey(w.event.matchId);
      Delivering(c, sh, w, x, f) == (if f.expire.Refused? then sh else sh.(store := Expire(sh.store, k, DAY)), Idle)
  {
    var (t, v) := StepOrSkip(c, sh, w, x, f.expire);
    assert v == Idle && Delivering(c, t, v, x, f) == (t, Idle);
  }

  lemma IncrementActs(p: Precision, s: Store, k: Key, f: Faults)
    requires Positive(s, k)
    ensures Incr(s, k).Some?
    ensures var t := Incr(s, k).value;
      Increment(p, s, k, DAY, f).0
      == if f.incr.Refused? then s
         else if f.incr.Fine? && !Live(s, k) && !f.expire.Refused? then Expire(t, k, DAY) else t
  {
    assert Kept(p, DAY) == DAY;
  }

  lemma CountDone(c: Config, sh: Shared, w: Worker, x: Input, f: Loss)
    requires w.Busy? && w.phase.Count? && Positive(sh.store, TotalKey(w.event.matchId))
    ensures var (t, v) := Delivering(c, sh, w, x, f);
      && v == Idle && t.rooms == sh.rooms && t.published == sh.published && t.accepted == sh.accepted
      && t.store == Increment(c.precision, sh.store, TotalKey(w.event.matchId), DAY, Faults(Fine, f.incr, f.expire)).0
  {
    var (t, v) := StepOrSkip(c, sh, w, x, f.incr);
    CountActs(c, sh, w, x, f.incr);
    IncrementActs(c.precision, sh.store, TotalKey(w.event.matchId), Faults(Fine, f.incr, f.expire));
    if v.Busy? {
      ExpireActs(c, t, v, x, f);
    } else {
      assert Delivering(c, sh, w, x, f) == (t, Idle);
    }
  }

  /** What a message leaves that has been sent out or kept inside: one publication, the chat, and a count. */
  ghost predicate Delivered(c: Config, sh: Shared, t: Shared, e: MatchEvent, ticket: nat, shadowed: bool, f: Loss) {
    var m := e.matchId;
    && t.published == sh.published + [Publication(e, ticket, Lifetime(sh, m), shadowed)]
    && RoomChanged(sh, t, m, Chat(RoomOf(sh, m).list, f))
    && t.store == Increment(c.precision, sh.store, TotalKey(m), DAY, Faults(Fine, f.incr, f.expire)).0
    && t.accepted == sh.accepted
  }

  lemma OutcomeActs(c: Config, sh: Shared, w: Worker, x: Input)
    requires w.Busy? && w.phase.Deliver?
    ensures var (t, v) := StepOrSkip(c, sh, w, x, Fine);
      if x.outcome == Abandon then t == sh && v == Idle
      else
        var p := Publication(w.event, w.ticket, Lifetime(sh, w.event.matchId), x.outcome == Shadow);
        t == sh.(published := sh.published + [p]) && v == w.(phase := Push(w.phase.sight))
  {
    assert StepOrSkip(c, sh, w, x, Fine) == StepGate(c, sh, w, x);
  }

  /** Behind the publication comes the record. */
  lemma RecordDone(c: Config, sh: Shared, t: Shared, w: Worker, x: Input, f: Loss, shadowed: bool)
    requires w.Busy? && w.phase.Push? && Positive(sh.store, TotalKey(w.event.matchId))
    requires t == sh.(published := t.published)
    requires t.published == sh.published + [Publication(w.event, w.ticket, Lifetime(sh, w.event.matchId), shadowed)]
    ensures var (u, v) := Delivering(c, t, w, x, f);
      v == Idle && Delivered(c, sh, u, w.event, w.ticket, shadowed, f)
  {
    var u := PushDone(c, t, w, x, f);
    CountDone(c, u, w.(phase := Count), x, f);
    SameRooms(sh, u, Delivering(c, t, w, x, f).0, w.event.matchId, Chat(RoomOf(sh, w.event.matchId).list, f));
  }

  lemma SameRooms(sh: Shared, t: Shared, u: Shared, m: string, list: seq<bool>)
    requires RoomChanged(sh, t, m, list) && u.rooms == t.rooms
    ensures RoomChanged(sh, u, m, list)
  {
    forall k | k != m ensures RoomOf(u, k) == RoomOf(sh, k) {
      assert RoomOf(t, k) == RoomOf(sh, k);
    }
  }

  /** A message that passed its checks is abandoned and leaves nothing, or it is delivered, shadowed or not. */
  lemma DeliveredExactly(c: Config, sh: Shared, w: Worker, x: Input, f: Loss)
    requires w.Busy? && w.phase.Deliver? && Positive(sh.store, TotalKey(w.event.matchId))
    ensures var (t, v) := Delivering(c, sh, w, x, f);
      && v == Idle
      && if x.outcome == Abandon then t == sh else Delivered(c, sh, t, w.event, w.ticket, x.outcome == Shadow, f)
  {
    OutcomeActs(c, sh, w, x);
    var (t, v) := StepOrSkip(c, sh, w, x, Fine);
    if x.outcome == Abandon {
      assert Delivering(c, sh, w, x, f) == Delivering(c, t, v, x, f) == (sh, Idle);
    } else {
      assert Delivering(c, sh, w, x, f) == Delivering(c, t, v, x, f);
      RecordDone(c, sh, t, v, x, f, x.outcome == Shadow);
    }
  }

  /** What a count leaves of the match counter, with its lifetime of 24 hours. */
  lemma CountedForADay(p: Precision, s: Store, m: string)
    requires Positive(s, TotalKey(m))
    ensures var k := TotalKey(m);
      Increment(p, s, k, DAY, NO_FAULTS).0
      == s.(entries := s.entries[k := if Live(s, k) then s.entries[k].(value := Number(Counter(s, k) + 1))
                                      else Entry(Number(1), Some(s.now + 24 * 3600 * 1000))])
  {
    assert Kept(p, DAY) == DAY == 24 * 3600 * 1000;
  }

  // ---------- among the interleavings ----------

  lemma StepIsAnInterleaving(c: Config, s: State, i: nat, x: Input, f: Fault) returns (labels: seq<Label>)
    requires i < |s.workers| && s.workers[i].Busy? && Left(s.workers[i]) > 0
    ensures var (t, v) := StepOrSkip(c, s.shared, s.workers[i], x, f);
      Exec(c, s, labels) == State(t, s.workers[i := v])
  {
    var w := s.workers[i];
    if f.Refused? && MayFalter(w) {
      labels := [Falter(i)];
      ExecOne(c, s, Falter(i));
    } else {
      labels := [Work(i, x)];
      ExecOne(c, s, Work(i, x));
      var (t, v) := StepWorker(c, s.shared, w, x);
      if f.Lost? && (w.phase.Push? || w.phase.Count?) && MayFalter(v) {
        var u := State(t, s.workers[i := v]);
        ExecAppend(c, s, labels, [Falter(i)]);
        ExecOne(c, u, Falter(i));
        var last := FalterWorker(t, v).1;
        assert u.workers[i := last] == s.workers[i := last];
        labels := labels + [Falter(i)];
      }
    }
  }

  lemma {:induction false} DeliveringIsAnInterleaving(c: Config, s: State, i: nat, x: Input, f: Loss)
    returns (labels: seq<Label>)
    requires i < |s.workers|
    ensures var (t, w) := Delivering(c, s.shared, s.workers[i], x, f);
      Exec(c, s, labels) == State(t, s.workers[i := w])
    decreases Left(s.workers[i])
  {
    var w := s.workers[i];
    if Left(w) == 0 {
      labels := [];
      assert s.workers[i := w] == s.workers;
    } else {
      var (t, v) := StepOrSkip(c, s.shared, w, x, LossOf(f, w.phase));
      labels := StepIsAnInterleaving(c, s, i, x, LossOf(f, w.phase));
      if Left(v) < Left(w) {
        var u := State(t, s.workers[i := v]);
        var rest := DeliveringIsAnInterleaving(c, u, i, x, f);
        ExecAppend(c, s, labels, rest);
        var last := Delivering(c, t, v, x, f).1;
        assert u.workers[i := last] == s.workers[i := last];
        labels := labels + rest;
      }
    }
  }

  // ---------- an event from its arrival to its end ----------

  /** An event handled by a worker that nobody interrupts. */
  function Handling(c: Config, sh: Shared, x: Input, f: Trouble, g: Loss): (Shared, Worker) {
    var (t, w) := Ruling(c, sh, x, f);
    Delivering(c, t, w, x, g)
  }

  /** The verdict touches neither chats nor publications nor the match counter. */
  predicate Unheard(sh: Shared, t: Shared, m: string) {
    && t.rooms == sh.rooms && t.published == sh.published && t.meters == sh.meters
    && SameEntry(sh.store, t.store, TotalKey(m))
  }

  /** The keys that a verdict writes. */
  predicate Checked(k: Key) {
    k.DedupKey? || k.TypeKey? || k.HourKey?
  }

  lemma HourUnheard(c: Config, sh: Shared, w: Worker, x: Input, f: Trouble, k: Key)
    requires w.Busy? && !Checked(k)
    ensures var (t, v) := HourCheck(c, sh, w, x, f);
      && EarlyEffect(sh, t) && t.accepted == sh.accepted && SameEntry(sh.store, t.store, k)
      && (v.Busy? ==> v.phase.Deliver? && v == w.(phase := v.phase))
  {
    var now := sh.store.now;
    GateLeaves(c.precision, sh.store, HourKey(w.event.matchId, now / HOUR), HourLimit(c.maxPerHour), RestOfHour(now),
               f.hour, k);
  }

  lemma TypeUnheard(c: Config, sh: Shared, w: Worker, x: Input, f: Trouble, k: Key)
    requires w.Busy? && !Checked(k)
    ensures var (t, v) := TypeCheck(c, sh, w, x, f);
      && EarlyEffect(sh, t) && t.accepted == sh.accepted && SameEntry(sh.store, t.store, k)
      && (v.Busy? ==> v.phase.Deliver? && v == w.(phase := v.phase))
  {
    var l := TypeKey(w.event.matchId, w.event.kind);
    GateLeaves(c.precision, sh.store, l, TypeLimit(w.event.kind), DAY, f.kind, k);
    HourUnheard(c, sh.(store := Gate(c.precision, sh.store, l, TypeLimit(w.event.kind), DAY, f.kind).0),
                w.(phase := HourRead), x, f, k);
  }

  lemma RulingUnheard(c: Config, sh: Shared, x: Input, f: Trouble, k: Key)
    requires !Checked(k)
    ensures var (t, w) := Ruling(c, sh, x, f);
      && EarlyEffect(sh, t) && SameEntry(sh.store, t.store, k)
      && (w.Busy? ==> w.phase.Deliver? && w == Busy(x.event, |sh.accepted|, w.phase))
  {
    if !f.dedup.Refused? {
      AcceptTouches(sh, x, k);
      var (t, w) := Accept(sh, x);
      if w.Busy? {
        TypeAlone(c, t, w, x, f);
        TypeUnheard(c, t, w, x, f, k);
      }
    }
  }

  lemma CountedOnce(p: Precision, s: Store, t: Store, k: Key, f: Faults)
    requires Positive(s, k) && SameEntry(s, t, k)
    ensures Counter(Increment(p, t, k, DAY, f).0, k) == Counter(s, k) + if f.incr.Refused? then 0 else 1
  {
    IncrementActs(p, t, k, f);
  }

  /** What an event leaves that passed and was not abandoned: one publication, its chat and one count, unless lost. */
  ghost predicate Heard(sh: Shared, t: Shared, x: Input, g: Loss) {
    var m := x.event.matchId;
    && t.published == sh.published + [Publication(x.event, |sh.accepted|, Lifetime(sh, m), x.outcome == Shadow)]
    && RoomChanged(sh, t, m, Chat(RoomOf(sh, m).list, g))
    && Counter(t.store, TotalKey(m)) == Counter(sh.store, TotalKey(m)) + if g.incr.Refused? then 0 else 1
  }

  lemma RuledThenDelivered(c: Config, sh: Shared, u: Shared, t: Shared, x: Input, g: Loss)
    requires Unheard(sh, u, x.event.matchId) && Positive(sh.store, TotalKey(x.event.matchId))
    requires Delivered(c, u, t, x.event, |sh.accepted|, x.outcome == Shadow, g)
    ensures Heard(sh, t, x, g)
  {
    var m := x.event.matchId;
    CountedOnce(c.precision, sh.store, u.store, TotalKey(m), Faults(Fine, g.incr, g.expire));
    assert RoomOf(u, m) == RoomOf(sh, m) && Lifetime(u, m) == Lifetime(sh, m);
    forall k | k != m ensures RoomOf(t, k) == RoomOf(sh, k) {
      assert RoomOf(u, k) == RoomOf(sh, k);
    }
  }

  /**
   * In every interleaving, an event that is then handled without interruption is heard exactly when it is admissible
   * and new, no deciding command fails, the counters are below their limits, the ratio is not exceeded or unknown, and
   * it is not abandoned; otherwise chats, publications and the match counter stay as they are.
   */
  lemma HandledInRuns(c: Config, now: int, n: nat, labels: seq<Label>, x: Input, f: Trouble, g: Loss)
    ensures var sh := Exec(c, Start(now, n), labels).shared;
      var (t, w) := Handling(c, sh, x, f, g);
      && w == Idle
      && if Fresh(sh.store, x) && Answered(f) && Below(c, sh.store, x.event) && x.outcome != Abandon
            && (f.chat.Fine? ==> Admits(c, RoomOf(sh, x.event.matchId), x.legacy))
         then Heard(sh, t, x, g)
         else Unheard(sh, t, x.event.matchId)
  {
    var sh, k := Exec(c, Start(now, n), labels).shared, TotalKey(x.event.matchId);
    var (t, w) := Ruling(c, sh, x, f);
    AdmittedInRuns(c, now, n, labels, x, f);
    RulingUnheard(c, sh, x, f, k);
    CountersAreNumbers(c, now, n, labels, k);
    assert Positive(sh.store, k) && Positive(t.store, k);
    if w.Busy? {
      DeliveredExactly(c, t, w, x, g);
      if x.outcome != Abandon {
        RuledThenDelivered(c, sh, t, Delivering(c, t, w, x, g).0, x, g);
      }
    } else {
      assert Delivering(c, t, w, x, g) == (t, w);
    }
  }

  /** Handling an event is one interleaving: the one that schedules nobody else. */
  lemma HandlingIsAnInterleaving(c: Config, s: State, i: nat, x: Input, f: Trouble, g: Loss)
    returns (labels: seq<Label>)
    requires i < |s.workers| && s.workers[i].Idle?
    ensures var (t, w) := Handling(c, s.shared, x, f, g);
      Exec(c, s, labels) == State(t, s.workers[i := w])
  {
    var (t, w) := Ruling(c, s.shared, x, f);
    var before := RulingIsAnInterleaving(c, s, i, x, f);
    var u := State(t, s.workers[i := w]);
    var more := DeliveringIsAnInterleaving(c, u, i, x, g);
    ExecAppend(c, s, before, more);
    labels := before + more;
    var last := Delivering(c, t, w, x, g).1;
    assert u.workers[i := last] == s.workers[i := last];
  }
}
