/** When the cap of the bot ratio on the chat window gives way: when a check reads more than the window keeps. */
module RatioCap {
  import opened ExpiringStore
  import opened Options
  import opened Policy
  import opened Pipeline
  import opened ChatWindow
  import opened PolicyChecker
  import opened Verdicts
  import opened Overshoot

  function Same(bot: bool, n: nat): (list: seq<bool>)
    ensures |list| == n && forall i | 0 <= i < n :: list[i] == bot
  {
    seq(n, _ => bot)
  }

  lemma {:induction false} BotsOfSame(bot: bool, n: nat)
    ensures Bots(Same(bot, n)) == if bot then n else 0
  {
    if n > 0 {
      assert Same(bot, n)[..n - 1] == Same(bot, n - 1);
      BotsOfSame(bot, n - 1);
    }
  }

  /** Messages of users, then of other bots, none of them trimmed yet. */
  function Crowded(users: nat, bots: nat): Room {
    Room(Same(true, bots) + Same(false, users), 0, bots, None)
  }

  predicate Filled(s: State, now: int, m: string, users: nat, bots: nat) {
    && s.shared.store == Store(now, map[]) && s.workers == [Idle]
    && RoomOf(s.shared, m) == Crowded(users, bots)
  }

  lemma FillStart(now: int, m: string)
    ensures Filled(Start(now, 1), now, m, 0, 0)
  {
    assert Same(true, 0) + Same(false, 0) == [];
    assert Start(now, 1).workers == [Idle];
  }

  lemma UserStep(c: Config, s: State, now: int, m: string, users: nat)
    requires Filled(s, now, m, users, 0)
    ensures Filled(Do(c, s, UserPush(m)), now, m, users + 1, 0)
  {
    assert [false] + (Same(true, 0) + Same(false, users)) == Same(true, 0) + Same(false, users + 1);
  }

  lemma BotStep(c: Config, s: State, now: int, m: string, users: nat, bots: nat)
    requires Filled(s, now, m, users, bots)
    ensures Filled(Do(c, s, BotPush(m)), now, m, users, bots + 1)
  {
    assert [true] + (Same(true, bots) + Same(false, users)) == Same(true, bots + 1) + Same(false, users);
  }

  lemma {:induction false} UsersRun(c: Config, s: State, now: int, m: string, users: nat) returns (labels: seq<Label>)
    requires Filled(s, now, m, 0, 0)
    ensures Filled(Exec(c, s, labels), now, m, users, 0)
  {
    if users == 0 {
      labels := [];
    } else {
      var before := UsersRun(c, s, now, m, users - 1);
      UserStep(c, Exec(c, s, before), now, m, users - 1);
      labels := OneMore(c, s, before, UserPush(m));
    }
  }

  lemma {:induction false} BotsRun(c: Config, s: State, now: int, m: string, users: nat, bots: nat)
    returns (labels: seq<Label>)
    requires Filled(s, now, m, users, 0)
    ensures Filled(Exec(c, s, labels), now, m, users, bots)
  {
    if bots == 0 {
      labels := [];
    } else {
      var before := BotsRun(c, s, now, m, users, bots - 1);
      BotStep(c, Exec(c, s, before), now, m, users, bots - 1);
      labels := OneMore(c, s, before, BotPush(m));
    }
  }

  lemma FillRun(c: Config, now: int, m: string, users: nat, bots: nat) returns (labels: seq<Label>)
    ensures Filled(Exec(c, Start(now, 1), labels), now, m, users, bots)
  {
    FillStart(now, m);
    var before := UsersRun(c, Start(now, 1), now, m, users);
    var more := BotsRun(c, Exec(c, Start(now, 1), before), now, m, users, bots);
    labels := before + more;
    ExecAppend(c, Start(now, 1), before, more);
  }

  /** On an empty store a red card is admitted whenever the ratio admits it. */
  lemma CardIsAdmitted(c: Config, sh: Shared, m: string, now: int)
    requires sh.store == Store(now, map[]) && Admits(c, RoomOf(sh, m), [])
    ensures Ruling(c, sh, Card(m), NO_TROUBLE).1.Busy?
  {
    CardIsAdmissible(m, 0);
    assert Below(c, sh.store, RedCard(m, 0));
    AdmittedExactly(c, sh, Card(m), NO_TROUBLE);
  }

  /** The worker's message lies in front of what it saw. */
  predicate Landed(s: State, m: string, users: nat, bots: nat) {
    RoomOf(s.shared, m)
    == Room([true] + (Same(true, bots) + Same(false, users)), 1, bots, Some(Ceiling(bots + users, 1, bots)))
  }

  lemma CardLands(c: Config, s: State, now: int, m: string, users: nat, bots: nat) returns (labels: seq<Label>)
    requires Filled(s, now, m, users, bots) && 0 < bots + users <= READ_LIMIT && Admits(c, Crowded(users, bots), [])
    ensures Landed(Exec(c, s, labels), m, users, bots)
  {
    var x := Card(m);
    CardIsAdmitted(c, s.shared, m, now);
    AdmittedSight(c, s.shared, x, NO_TROUBLE);
    var before := RulingIsAnInterleaving(c, s, 0, x, NO_TROUBLE);
    var t := Exec(c, s, before);
    assert ReadWindow(Crowded(users, bots), []) == Same(true, bots) + Same(false, users);
    assert t.workers[0].phase == Deliver(Some(Look(Crowded(users, bots), [])));
    labels := before + [Work(0, x)] + [Work(0, x)];
    ExecOneMore(c, s, before, Work(0, x));
    ExecOneMore(c, s, before + [Work(0, x)], Work(0, x));
    CardPushes(c, t, x, m);
  }

  lemma FilledLands(c: Config, s: State, before: seq<Label>, now: int, m: string, users: nat, bots: nat)
    returns (labels: seq<Label>)
    requires Filled(Exec(c, s, before), now, m, users, bots)
    requires 0 < bots + users <= READ_LIMIT && Admits(c, Crowded(users, bots), [])
    ensures Landed(Exec(c, s, labels), m, users, bots)
  {
    var more := CardLands(c, Exec(c, s, before), now, m, users, bots);
    labels := before + more;
    ExecAppend(c, s, before, more);
  }

  lemma CardPushes(c: Config, t: State, x: Input, m: string)
    requires x.outcome.Publish? && |t.workers| == 1
    requires t.workers[0].Busy? && t.workers[0].event.matchId == m && t.workers[0].phase.Deliver?
    ensures RoomOf(Do(c, Do(c, t, Work(0, x)), Work(0, x)).shared, m)
         == PushOwn(RoomOf(t.shared, m), t.workers[0].phase.sight)
  {
    var (u, v) := StepGate(c, t.shared, t.workers[0], x);
    assert Do(c, t, Work(0, x)) == State(u, t.workers[0 := v]);
    assert v == t.workers[0].(phase := Push(t.workers[0].phase.sight)) && u.rooms == t.shared.rooms;
  }

  lemma CrowdedBots(users: nat, bots: nat)
    ensures Bots(Same(true, bots) + Same(false, users)) == bots
    ensures bots < WINDOW <= bots + users + 1 ==>
              Bots(Newest([true] + (Same(true, bots) + Same(false, users)), WINDOW)) == bots + 1
  {
    BotsOfSame(true, bots);
    BotsOfSame(false, users);
    BotsAppend(Same(true, bots), Same(false, users));
    if bots < WINDOW <= bots + users + 1 {
      var rest := WINDOW - 1 - bots;
      assert Newest([true] + (Same(true, bots) + Same(false, users)), WINDOW)
          == Same(true, bots + 1) + Same(false, rest);
      BotsOfSame(true, bots + 1);
      BotsOfSame(false, rest);
      BotsAppend(Same(true, bots + 1), Same(false, rest));
    }
  }

  /** More messages than the window keeps may be read, they have a higher cap, and the window is not full of bots. */
  predicate GivesWay(c: Config, n: nat) {
    && 50 < n <= 200
    && Cap(50, c.maxRatio) < Cap(n, c.maxRatio) && Cap(50, c.maxRatio) < 50
  }

  /** The check reads as many bots as a window of 50 may hold, and admits one more. */
  lemma CapAdmits(c: Config, n: nat)
    requires GivesWay(c, n)
    ensures var bots := Cap(50, c.maxRatio); Admits(c, Crowded(n - bots, bots), [])
  {
    var bots := Cap(50, c.maxRatio);
    CrowdedBots(n - bots, bots);
    var seen := Same(true, bots) + Same(false, n - bots);
    assert ReadWindow(Crowded(n - bots, bots), []) == seen;
    AdmitsUnderCap(bots, n - bots, c.maxRatio);
  }

  /** In a room with users, a message that fits under the cap is admitted. */
  lemma AdmitsUnderCap(bots: nat, users: nat, maxRatio: real)
    requires users > 0 && bots >= 4 && bots + 1 <= Cap(bots + users, maxRatio)
    ensures !Exceeds(bots, users, maxRatio)
  {
    var all := (bots + users + 1) as real;
    assert (bots + 1) as real <= all * maxRatio;
    if maxRatio <= 0.0 {
      NotPositive(all, maxRatio);
    } else {
      Quotient((bots + 1) as real, all, maxRatio);
    }
  }

  lemma Quotient(a: real, b: real, q: real)
    requires b > 0.0 && a <= b * q
    ensures a / b <= q
  {
  }

  /** The last check read `n` messages, and there are more bots than a window of 50 may hold. */
  predicate Over(c: Config, r: Room, n: nat) {
    r.last.Some? && r.last.value.size == n && OwnBots(r) > Cap(50, c.maxRatio)
  }

  /** A run of a single worker that gets there. */
  predicate Lifted(c: Config, now: int, m: string, n: nat, labels: seq<Label>) {
    Over(c, RoomOf(Exec(c, Start(now, 1), labels).shared, m), n)
  }

  lemma LandedIsOver(c: Config, s: State, m: string, n: nat, bots: nat)
    requires 50 < n && bots == Cap(50, c.maxRatio) < 50 && Landed(s, m, n - bots, bots)
    ensures Over(c, RoomOf(s.shared, m), n)
  {
    CrowdedBots(n - bots, bots);
  }

  /**
   * Some run of a single worker, whose last check read `n` messages, leaves more bots than a window of 50 may hold,
   * not counting those that others pushed since the check, exactly when the cap gives way for `n`.
   */
  lemma CapIsLiftedExactly(c: Config, now: int, m: string, n: nat)
    ensures (exists labels :: Lifted(c, now, m, n, labels)) <==> GivesWay(c, n)
  {
    if labels :| Lifted(c, now, m, n, labels) {
      LiftedOnlyIf(c, now, m, n, labels);
    }
    if GivesWay(c, n) {
      var labels := LiftedIf(c, now, m, n);
    }
  }

  lemma LiftedOnlyIf(c: Config, now: int, m: string, n: nat, labels: seq<Label>)
    requires Lifted(c, now, m, n, labels)
    ensures GivesWay(c, n)
  {
    SingleWorkerWindow(c, now, labels, m);
    WindowBound(c, now, 1, labels, m);
    var r := RoomOf(Exec(c, Start(now, 1), labels).shared, m);
    assert Bots(Newest(r.list, WINDOW)) <= WINDOW;
    if n <= 50 {
      CapGrows(n, 50, c.maxRatio);
    }
  }

  lemma LiftedIf(c: Config, now: int, m: string, n: nat) returns (labels: seq<Label>)
    requires GivesWay(c, n)
    ensures Lifted(c, now, m, n, labels)
  {
    var bots := Cap(50, c.maxRatio);
    CapAdmits(c, n);
    labels := LandRun(c, now, m, n - bots, bots);
    LandedIsOver(c, Exec(c, Start(now, 1), labels), m, n, bots);
  }

  lemma LandRun(c: Config, now: int, m: string, users: nat, bots: nat) returns (labels: seq<Label>)
    requires 0 < bots + users <= READ_LIMIT && Admits(c, Crowded(users, bots), [])
    ensures Landed(Exec(c, Start(now, 1), labels), m, users, bots)
  {
    var before := FillRun(c, now, m, users, bots);
    labels := FilledLands(c, Start(now, 1), before, now, m, users, bots);
  }

  /** At a ratio of 0.3 a window of 50 may hold fifteen bots; 53 messages read let a sixteenth in. */
  lemma SixteenthBot(c: Config, now: int, m: string)
    requires c.maxRatio == 0.3
    ensures Cap(50, 0.3) == 15 && exists labels :: Lifted(c, now, m, 53, labels)
  {
    CapIsLiftedExactly(c, now, m, 53);
  }
}
