/** What the verdict of `CheckPolicy` depends on, what it leaves behind, and that it is one of the interleavings. */
module Verdicts {
  import opened Keys
  import opened ExpiringStore
  import opened Options
  import opened RateLimits
  import opened Events
  import opened Policy
  import opened Pipeline
  import opened CheckBounds
  import opened PolicyChecker
  import C = ContextStore

  /** A live counter holds a positive number. */
  predicate Positive(s: Store, k: Key) {
    Live(s, k) ==> s.entries[k].value.Number? && s.entries[k].value.n >= 1
  }

  /** The three counters an event is held against. */
  predicate Countable(s: Store, e: MatchEvent) {
    && Positive(s, TypeKey(e.matchId, e.kind)) && Positive(s, HourKey(e.matchId, s.now / HOUR))
    && Positive(s, TotalKey(e.matchId))
  }

  /** All three counters are below their limits. */
  predicate Below(c: Config, s: Store, e: MatchEvent) {
    && Counter(s, TypeKey(e.matchId, e.kind)) < TypeLimit(e.kind)
    && Counter(s, HourKey(e.matchId, s.now / HOUR)) < (if c.maxPerHour > 0 then c.maxPerHour else 1000)
    && Counter(s, TotalKey(e.matchId)) < (if c.maxBots > 0 then c.maxBots else 100)
  }

  /** The commands whose failure is a rejection; EXPIRE and the read of the chat are not among them. */
  predicate Answered(f: Trouble) {
    f.dedup.Fine? && f.kind.get.Fine? && f.kind.incr.Fine? && f.hour.get.Fine? && f.hour.incr.Fine? && f.total.Fine?
  }

  /** An event that reaches the counters. */
  predicate Fresh(s: Store, x: Input) {
    Admissible(x.event, x.roll, x.killed) && !Live(s, DedupKeyOf(x.event))
  }

  lemma RoomDecides(c: Config, sh: Shared, w: Worker, x: Input, f: Trouble)
    requires w.Busy? && w.event == x.event && Positive(sh.store, TotalKey(x.event.matchId))
    ensures RoomCheck(c, sh, w, x, f).1.Busy?
       <==> f.total.Fine? && Counter(sh.store, TotalKey(x.event.matchId)) < MatchLimit(c.maxBots)
            && (f.chat.Fine? ==> Admits(c, RoomOf(sh, x.event.matchId), x.legacy))
  {
  }

  /** A passing check leaves another counter as it was. */
  lemma PassLeaves(p: Precision, s: Store, k: Key, limit: int, ttl: int, f: Faults, l: Key)
    requires limit >= 1 && Kept(p, ttl) > 0 && Positive(s, k) && Positive(s, l) && k != l
    ensures var (t, v) := Gate(p, s, k, limit, ttl, f);
      && t.now == s.now && (v.Passed? <==> f.get.Fine? && f.incr.Fine? && Counter(s, k) < limit)
      && Positive(t, l) && Counter(t, l) == Counter(s, l)
  {
    GateExactly(p, s, k, limit, ttl, f, l);
  }

  lemma HourDecides(c: Config, sh: Shared, w: Worker, x: Input, f: Trouble)
    requires w.Busy? && w.event == x.event
    requires Positive(sh.store, TotalKey(x.event.matchId))
    requires Positive(sh.store, HourKey(x.event.matchId, sh.store.now / HOUR))
    ensures var m := x.event.matchId;
      HourCheck(c, sh, w, x, f).1.Busy?
      <==> f.hour.get.Fine? && f.hour.incr.Fine? && f.total.Fine?
           && Counter(sh.store, HourKey(m, sh.store.now / HOUR)) < HourLimit(c.maxPerHour)
           && Counter(sh.store, TotalKey(m)) < MatchLimit(c.maxBots)
           && (f.chat.Fine? ==> Admits(c, RoomOf(sh, m), x.legacy))
  {
    var m, now := x.event.matchId, sh.store.now;
    var h := HourKey(m, now / HOUR);
    assert Kept(c.precision, RestOfHour(now)) > 0;
    PassLeaves(c.precision, sh.store, h, HourLimit(c.maxPerHour), RestOfHour(now), f.hour, TotalKey(m));
    var t := sh.(store := Gate(c.precision, sh.store, h, HourLimit(c.maxPerHour), RestOfHour(now), f.hour).0);
    RoomDecides(c, t, w.(phase := MatchRead), x, f);
  }

  lemma TypeDecides(c: Config, sh: Shared, w: Worker, x: Input, f: Trouble)
    requires w.Busy? && w.event == x.event && Countable(sh.store, x.event) && f.dedup.Fine?
    ensures TypeCheck(c, sh, w, x, f).1.Busy?
       <==> Answered(f) && Below(c, sh.store, x.event)
            && (f.chat.Fine? ==> Admits(c, RoomOf(sh, x.event.matchId), x.legacy))
  {
    var m, limit := x.event.matchId, TypeLimit(x.event.kind);
    var k := TypeKey(m, x.event.kind);
    assert Kept(c.precision, DAY) == DAY;
    PassLeaves(c.precision, sh.store, k, limit, DAY, f.kind, HourKey(m, sh.store.now / HOUR));
    PassLeaves(c.precision, sh.store, k, limit, DAY, f.kind, TotalKey(m));
    var t := sh.(store := Gate(c.precision, sh.store, k, limit, DAY, f.kind).0);
    HourDecides(c, t, w.(phase := HourRead), x, f);
  }

  /** The mark that dedup leaves touches no counter. */
  lemma MarkLeaves(s: Store, e: MatchEvent, k: Key)
    requires !k.DedupKey?
    ensures var t := SetNX(s, DedupKeyOf(e), Number(1), DAY);
      t.now == s.now && Counter(t, k) == Counter(s, k) && (Positive(t, k) <==> Positive(s, k))
  {
    SetNXLeaves(s, DedupKeyOf(e), k);
  }

  lemma SetNXLeaves(s: Store, l: Key, k: Key)
    requires k != l
    ensures SameEntry(s, SetNX(s, l, Number(1), DAY), k)
  {
  }

  lemma MarkLeavesCounters(c: Config, s: Store, e: MatchEvent)
    ensures var t := SetNX(s, DedupKeyOf(e), Number(1), DAY);
      (Countable(t, e) <==> Countable(s, e)) && (Below(c, t, e) <==> Below(c, s, e))
  {
    MarkLeaves(s, e, TypeKey(e.matchId, e.kind));
    MarkLeaves(s, e, HourKey(e.matchId, s.now / HOUR));
    MarkLeaves(s, e, TotalKey(e.matchId));
  }

  /**
   * An event is admitted exactly when it is admissible and new, no deciding command fails, its three counters are
   * below their limits and the ratio is not exceeded or could not be read, all as the store stood before; the checks
   * do not disturb one another.
   */
  lemma AdmittedExactly(c: Config, sh: Shared, x: Input, f: Trouble)
    requires Countable(sh.store, x.event)
    ensures Ruling(c, sh, x, f).1.Busy?
       <==> Fresh(sh.store, x) && Answered(f) && Below(c, sh.store, x.event)
            && (f.chat.Fine? ==> Admits(c, RoomOf(sh, x.event.matchId), x.legacy))
  {
    if Fresh(sh.store, x) && f.dedup.Fine? {
      var (t, w) := Accept(sh, x);
      MarkLeavesCounters(c, sh.store, x.event);
      TypeAlone(c, t, w, x, f);
      TypeDecides(c, t, w, x, f);
    }
  }

  /** In every interleaving the counters are such that this holds. */
  lemma AdmittedInRuns(c: Config, now: int, n: nat, labels: seq<Label>, x: Input, f: Trouble)
    ensures var sh := Exec(c, Start(now, n), labels).shared;
      Ruling(c, sh, x, f).1.Busy?
      <==> Fresh(sh.store, x) && Answered(f) && Below(c, sh.store, x.event)
           && (f.chat.Fine? ==> Admits(c, RoomOf(sh, x.event.matchId), x.legacy))
  {
    var sh := Exec(c, Start(now, n), labels).shared;
    CountersAreNumbers(c, now, n, labels, TypeKey(x.event.matchId, x.event.kind));
    CountersAreNumbers(c, now, n, labels, HourKey(x.event.matchId, sh.store.now / HOUR));
    CountersAreNumbers(c, now, n, labels, TotalKey(x.event.matchId));
    AdmittedExactly(c, sh, x, f);
  }

  lemma AdmittedHere(c: Config, s: Store, x: Input, f: Trouble)
    requires Countable(s, x.event)
    ensures Ruling(c, WorldOf(s, x.event.matchId), x, f).1.Busy?
       <==> Fresh(s, x) && Answered(f) && Below(c, s, x.event)
            && (f.chat.Fine? ==> Admits(c, RoomNow(s, x.event.matchId), x.legacy))
  {
    AdmittedExactly(c, WorldOf(s, x.event.matchId), x, f);
  }

  /** The messages a match's chat gives to the ratio check, if it can be read. */
  function WindowOf(s: Store, m: string): Option<seq<bool>> {
    C.RecentWindow(s, if "room-" <= m then m else "room-" + m, 200)
  }

  predicate RatioPasses(c: Config, s: Store, m: string, f: Trouble) {
    f.chat.Fine? && WindowOf(s, m).Some? ==>
      var window := WindowOf(s, m).value;
      !Exceeds(Bots(window), |window| - Bots(window), c.maxRatio)
  }

  lemma WindowDecides(c: Config, s: Store, m: string, f: Trouble)
    ensures var g := Troubled(s, m, f);
      && (Answered(g) <==> Answered(f))
      && ((g.chat.Fine? ==> Admits(c, RoomNow(s, m), LegacyNow(s, m))) <==> RatioPasses(c, s, m, f))
  {
    if C.RecentWindow(s, RoomName(m), READ_LIMIT).Some? {
      WindowSeen(s, m);
    }
  }

  /** The verdict of `CheckPolicy` in terms of the store alone: the window is what the context store gives. */
  lemma VerdictOnStore(c: Config, s: Store, x: Input, f: Trouble)
    requires Countable(s, x.event) && x.legacy == LegacyNow(s, x.event.matchId)
    ensures var m := x.event.matchId;
      Ruling(c, WorldOf(s, m), x, Troubled(s, m, f)).1.Busy?
      <==> Fresh(s, x) && Answered(f) && Below(c, s, x.event) && RatioPasses(c, s, m, f)
  {
    AdmittedHere(c, s, x, Troubled(s, x.event.matchId, f));
    WindowDecides(c, s, x.event.matchId, f);
  }

  lemma HourSight(c: Config, sh: Shared, w: Worker, x: Input, f: Trouble)
    requires w.Busy? && f.chat.Fine? && HourCheck(c, sh, w, x, f).1.Busy?
    ensures var (t, v) := HourCheck(c, sh, w, x, f);
      t == sh.(store := t.store) && v == w.(phase := Deliver(Some(Look(RoomOf(sh, w.event.matchId), x.legacy))))
  {
  }

  /** An admitted worker holds what it saw of its room, and only the store has changed. */
  lemma AdmittedSight(c: Config, sh: Shared, x: Input, f: Trouble)
    ensures var (t, w) := Ruling(c, sh, x, f);
      f.chat.Fine? && w.Busy? ==>
        && t.rooms == sh.rooms
        && w == Busy(x.event, |sh.accepted|, Deliver(Some(Look(RoomOf(sh, x.event.matchId), x.legacy))))
  {
    if f.chat.Fine? && Ruling(c, sh, x, f).1.Busy? {
      var (t, w) := Accept(sh, x);
      TypeAlone(c, t, w, x, f);
      var k := TypeKey(x.event.matchId, x.event.kind);
      var u := Gate(c.precision, t.store, k, TypeLimit(x.event.kind), DAY, f.kind).0;
      HourSight(c, t.(store := u), w.(phase := HourRead), x, f);
    }
  }

  // ---------- what a rejection costs ----------

  /** Remembered for a day from `now` on. */
  predicate Marked(s: Store, k: Key, now: int) {
    k in s.entries && s.entries[k] == Entry(Number(1), Some(now + 24 * 3600 * 1000))
  }

  lemma NewMark(s: Store, e: MatchEvent)
    requires !Live(s, DedupKeyOf(e))
    ensures Marked(SetNX(s, DedupKeyOf(e), Number(1), DAY), DedupKeyOf(e), s.now)
  {
  }

  /**
   * A rejection is not free: an admissible new event is remembered for a day whatever the later checks say, and it
   * counts against its type whenever that counter is below its limit and is reached.
   */
  lemma RejectionIsNotFree(c: Config, sh: Shared, x: Input, f: Trouble)
    requires Positive(sh.store, TypeKey(x.event.matchId, x.event.kind))
    ensures var t, k := Ruling(c, sh, x, f).0, TypeKey(x.event.matchId, x.event.kind);
      Fresh(sh.store, x) && !f.dedup.Refused? ==>
        && Marked(t.store, DedupKeyOf(x.event), sh.store.now)
        && (f.dedup.Fine? && f.kind.get.Fine? && !f.kind.incr.Refused? && Counter(sh.store, k) < TypeLimit(x.event.kind)
            ==> Counter(t.store, k) == Counter(sh.store, k) + 1)
  {
    if Fresh(sh.store, x) && !f.dedup.Refused? {
      var (t, w) := Accept(sh, x);
      NewMark(sh.store, x.event);
      MarkLeaves(sh.store, x.event, TypeKey(x.event.matchId, x.event.kind));
      if f.dedup.Fine? {
        TypeAlone(c, t, w, x, f);
        TypeLeaves(c, t, w, x, f);
      }
    }
  }

  /** The event-type check counts what it does not block. */
  lemma TypeCounts(p: Precision, s: Store, k: Key, limit: int, f: Faults)
    requires Positive(s, k) && Counter(s, k) < limit && f.get.Fine? && !f.incr.Refused?
    ensures Counter(Gate(p, s, k, limit, DAY, f).0, k) == Counter(s, k) + 1
  {
  }

  lemma TypeLeaves(c: Config, sh: Shared, w: Worker, x: Input, f: Trouble)
    requires w.Busy? && w.event == x.event && Positive(sh.store, TypeKey(x.event.matchId, x.event.kind))
    ensures var k, t := TypeKey(x.event.matchId, x.event.kind), TypeCheck(c, sh, w, x, f).0;
      && SameEntry(sh.store, t.store, DedupKeyOf(x.event))
      && (Counter(sh.store, k) < TypeLimit(x.event.kind) && f.kind.get.Fine? && !f.kind.incr.Refused? ==>
            Counter(t.store, k) == Counter(sh.store, k) + 1)
  {
    var k, limit := TypeKey(x.event.matchId, x.event.kind), TypeLimit(x.event.kind);
    GateLeaves(c.precision, sh.store, k, limit, DAY, f.kind, DedupKeyOf(x.event));
    var t := sh.(store := Gate(c.precision, sh.store, k, limit, DAY, f.kind).0);
    HourLeaves(c, t, w.(phase := HourRead), x, f, k);
    HourLeaves(c, t, w.(phase := HourRead), x, f, DedupKeyOf(x.event));
    if Counter(sh.store, k) < limit && f.kind.get.Fine? && !f.kind.incr.Refused? {
      TypeCounts(c.precision, sh.store, k, limit, f.kind);
    }
  }

  lemma HourLeaves(c: Config, sh: Shared, w: Worker, x: Input, f: Trouble, k: Key)
    requires w.Busy? && !k.HourKey?
    ensures SameEntry(sh.store, HourCheck(c, sh, w, x, f).0.store, k)
  {
    var now := sh.store.now;
    var h := HourKey(w.event.matchId, now / HOUR);
    GateLeaves(c.precision, sh.store, h, HourLimit(c.maxPerHour), RestOfHour(now), f.hour, k);
  }

  // ---------- a verdict is one of the interleavings ----------

  lemma {:induction false} ExecAppend(c: Config, s: State, a: seq<Label>, b: seq<Label>)
    ensures Exec(c, s, a + b) == Exec(c, Exec(c, s, a), b)
  {
    if b == [] {
      assert a + b == a;
    } else {
      assert (a + b)[..|a + b| - 1] == a + b[..|b| - 1];
      ExecAppend(c, s, a, b[..|b| - 1]);
    }
  }

  lemma ExecOne(c: Config, s: State, l: Label)
    ensures Exec(c, s, [l]) == Do(c, s, l)
  {
    assert [l][..0] == [] && Exec(c, s, [l][..0]) == s;
  }

  /** The labels of one command under its fault. */
  function ActLabels(w: Worker, i: nat, x: Input, f: Fault): seq<Label>
    requires w.Busy?
  {
    if f.Fine? then [Work(i, x)]
    else if w.phase.TypeExpire? || w.phase.HourExpire? then (if f.Refused? then [Falter(i)] else [Work(i, x)])
    else if w.phase.RatioRead? then [Falter(i)]
    else if (w.phase.TypeIncr? || w.phase.HourIncr?) && f.Lost? then [Work(i, x), GiveUp(i)]
    else [GiveUp(i)]
  }

  lemma ActIsAnInterleaving(c: Config, s: State, i: nat, x: Input, f: Fault)
    requires i < |s.workers| && Unspent(s.workers[i]) && !s.workers[i].phase.Deliver?
    ensures var (t, v) := Act(c, s.shared, s.workers[i], x, f);
      Exec(c, s, ActLabels(s.workers[i], i, x, f)) == State(t, s.workers[i := v])
  {
    var w := s.workers[i];
    var labels := ActLabels(w, i, x, f);
    if |labels| == 1 {
      ExecOne(c, s, labels[0]);
    } else {
      var (t, v) := StepWorker(c, s.shared, w, x);
      ExecOne(c, s, Work(i, x));
      ExecOne(c, State(t, s.workers[i := v]), GiveUp(i));
      ExecAppend(c, s, [Work(i, x)], [GiveUp(i)]);
      LostIncrement(c, s.shared, w, x);
      assert s.workers[i := v][i := Idle] == s.workers[i := Idle];
    }
  }

  /** An increment whose reply was lost leaves a worker that gives up, or has already. */
  lemma LostIncrement(c: Config, sh: Shared, w: Worker, x: Input)
    requires w.Busy? && (w.phase.TypeIncr? || w.phase.HourIncr?)
    ensures var v := StepWorker(c, sh, w, x).1; v.Idle? || Unspent(v)
  {
  }

  lemma {:induction false} CountingIsAnInterleaving(c: Config, s: State, i: nat, x: Input, f: Trouble)
    returns (labels: seq<Label>)
    requires i < |s.workers|
    ensures var (t, w) := Counting(c, s.shared, s.workers[i], x, f);
      Exec(c, s, labels) == State(t, s.workers[i := w])
    decreases Remaining(s.workers[i])
  {
    var w := s.workers[i];
    if Remaining(w) == 0 {
      labels := [];
      assert s.workers[i := w] == s.workers;
    } else {
      var (t, v) := Act(c, s.shared, w, x, FaultOf(f, w.phase));
      ActIsAnInterleaving(c, s, i, x, FaultOf(f, w.phase));
      labels := ActLabels(w, i, x, FaultOf(f, w.phase));
      if Remaining(v) < Remaining(w) {
        var u := State(t, s.workers[i := v]);
        var rest := CountingIsAnInterleaving(c, u, i, x, f);
        ExecAppend(c, s, labels, rest);
        var last := Counting(c, t, v, x, f).1;
        assert u.workers[i := last] == s.workers[i := last];
        labels := labels + rest;
      }
    }
  }

  lemma ReadingIsAnInterleaving(c: Config, s: State, i: nat, x: Input, f: Trouble) returns (labels: seq<Label>)
    requires i < |s.workers|
    ensures var (t, w) := Reading(c, s.shared, s.workers[i], x, f);
      Exec(c, s, labels) == State(t, s.workers[i := w])
  {
    var w := s.workers[i];
    if w.Idle? || !w.phase.MatchRead? {
      labels := [];
      assert s.workers[i := w] == s.workers;
    } else {
      ActIsAnInterleaving(c, s, i, x, f.total);
      labels := ActLabels(w, i, x, f.total);
      var (t, v) := Act(c, s.shared, w, x, f.total);
      if v.Busy? {
        var u := State(t, s.workers[i := v]);
        MatchReadOn(c, s.shared, w, x, f.total);
        ActIsAnInterleaving(c, u, i, x, f.chat);
        ExecAppend(c, s, labels, ActLabels(v, i, x, f.chat));
        var last := Act(c, t, v, x, f.chat).1;
        assert u.workers[i := last] == s.workers[i := last];
        labels := labels + ActLabels(v, i, x, f.chat);
      }
    }
  }

  lemma MatchReadOn(c: Config, sh: Shared, w: Worker, x: Input, f: Fault)
    requires w.Busy? && w.phase.MatchRead?
    ensures var v := Act(c, sh, w, x, f).1; v.Busy? ==> v == w.(phase := RatioRead)
  {
  }

  /** The verdict on an event, whatever commands fail, is one interleaving: the one that schedules nobody else. */
  lemma RulingIsAnInterleaving(c: Config, s: State, i: nat, x: Input, f: Trouble) returns (labels: seq<Label>)
    requires i < |s.workers| && s.workers[i].Idle?
    ensures var (t, w) := Ruling(c, s.shared, x, f);
      Exec(c, s, labels) == State(t, s.workers[i := w])
  {
    if f.dedup.Refused? {
      labels := [];
      assert s.workers[i := Idle] == s.workers;
    } else {
      var (t, w) := Accept(s.shared, x);
      var u := State(t, s.workers[i := w]);
      ExecOne(c, s, Work(i, x));
      if f.dedup.Lost? {
        labels := [Work(i, x)] + [GiveUp(i)];
        ExecAppend(c, s, [Work(i, x)], [GiveUp(i)]);
        ExecOne(c, u, GiveUp(i));
        assert u.workers[i := Idle] == s.workers[i := Idle];
      } else {
        var more := AloneIsAnInterleaving(c, u, i, x, f);
        ExecAppend(c, s, [Work(i, x)], more);
        labels := [Work(i, x)] + more;
        var last := Alone(c, t, w, x, f).1;
        assert u.workers[i := last] == s.workers[i := last];
      }
    }
  }

  lemma AloneIsAnInterleaving(c: Config, s: State, i: nat, x: Input, f: Trouble) returns (labels: seq<Label>)
    requires i < |s.workers|
    ensures var (t, w) := Alone(c, s.shared, s.workers[i], x, f);
      Exec(c, s, labels) == State(t, s.workers[i := w])
  {
    var (t, w) := Counting(c, s.shared, s.workers[i], x, f);
    var before := CountingIsAnInterleaving(c, s, i, x, f);
    var u := State(t, s.workers[i := w]);
    var more := ReadingIsAnInterleaving(c, u, i, x, f);
    ExecAppend(c, s, before, more);
    labels := before + more;
    var last := Reading(c, t, w, x, f).1;
    assert u.workers[i := last] == s.workers[i := last];
  }
}
