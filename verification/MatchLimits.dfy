/** The messages of interleaved workers in one lifetime of a match counter. */
module MatchLimits {
  import opened Keys
  import opened ExpiringStore
  import opened RateLimits
  import opened Pipeline
  import opened CheckBounds

  /** The messages for a match that fall in one lifetime of its counter. */
  function InLifetime(ps: seq<Publication>, m: string, life: int): nat {
    if ps == [] then 0
    else
      var p := ps[|ps| - 1];
      InLifetime(ps[..|ps| - 1], m, life) + if p.event.matchId == m && p.lifetime == life then 1 else 0
  }

  /** The counts lost in one lifetime. */
  function LostIn(missed: seq<int>, life: int): nat {
    if missed == [] then 0
    else LostIn(missed[..|missed| - 1], life) + if missed[|missed| - 1] == life then 1 else 0
  }

  function LostCounts(sh: Shared, m: string, life: int): nat {
    LostIn(MeterOf(sh, m).missed, life)
  }

  lemma LostOneMore(missed: seq<int>, at: int, life: int)
    ensures LostIn(missed + [at], life) == LostIn(missed, life) + if at == life then 1 else 0
  {
    assert (missed + [at])[..|missed|] == missed;
  }

  /** Past the match limit, not yet counted. */
  predicate OnTheWay(w: Worker, m: string) {
    && w.Busy? && w.event.matchId == m
    && (w.phase.RatioRead? || w.phase.Deliver? || w.phase.Push? || w.phase.Trim? || w.phase.Count?)
  }

  /** Published, not yet counted. */
  predicate Uncounted(w: Worker, m: string) {
    w.Busy? && w.event.matchId == m && (w.phase.Push? || w.phase.Trim? || w.phase.Count?)
  }

  function Travellers(m: string): Worker -> bool {
    w => OnTheWay(w, m)
  }

  function Owing(m: string): Worker -> bool {
    w => Uncounted(w, m)
  }

  lemma {:induction false} OwingTravel(ws: seq<Worker>, m: string)
    ensures Tally(ws, Owing(m)) <= Tally(ws, Travellers(m))
  {
    if ws != [] {
      OwingTravel(ws[..|ws| - 1], m);
    }
  }

  /** Users and other bots only raise the counter above the worker messages counted in it. */
  predicate CountsAtLeast(sh: Shared, m: string) {
    Counted(sh, m) <= Counter(sh.store, TotalKey(m))
  }

  /** A step trades a message on the way for a counted one, or adds one on the way below the limit. */
  predicate MatchTrade(c: Config, sh: Shared, w: Worker, t: Shared, v: Worker, m: string) {
    var before := Counted(sh, m) + if OnTheWay(w, m) then 1 else 0;
    var after := Counted(t, m) + if OnTheWay(v, m) then 1 else 0;
    && CountsAtLeast(t, m)
    && (after <= before || (Counted(t, m) < MatchLimit(c.maxBots) && !OnTheWay(w, m)))
  }

  /** What a worker's messages of the current lifetime add up to: counted, lost, or still owed. */
  function Accounted(sh: Shared, w: Worker, m: string): nat {
    Counted(sh, m) + |MeterOf(sh, m).missed| + if Uncounted(w, m) then 1 else 0
  }

  /** Nothing is lost, or a count in the current lifetime. */
  predicate Loses(sh: Shared, t: Shared, m: string) {
    || MeterOf(t, m).missed == MeterOf(sh, m).missed
    || MeterOf(t, m).missed == MeterOf(sh, m).missed + [Lifetime(sh, m)]
  }

  /** A step keeps the lifetime, loses no message from the account, and enters a new one that it publishes. */
  predicate Books(sh: Shared, w: Worker, t: Shared, v: Worker, m: string) {
    && Lifetime(t, m) == Lifetime(sh, m) && Loses(sh, t, m)
    && if t.published == sh.published then Accounted(sh, w, m) <= Accounted(t, v, m)
       else
         && |t.published| == |sh.published| + 1 && t.published[..|sh.published|] == sh.published
         && var p := t.published[|sh.published|];
            && (p.event.matchId == m ==> p.lifetime == Lifetime(sh, m))
            && Accounted(sh, w, m) + (if p.event.matchId == m then 1 else 0) <= Accounted(t, v, m)
  }

  lemma MatchStep(c: Config, sh: Shared, w: Worker, x: Input, m: string)
    requires CountsAtLeast(sh, m)
    ensures var (t, v) := StepWorker(c, sh, w, x); MatchTrade(c, sh, w, t, v, m) && Books(sh, w, t, v, m)
  {
    var (t, v) := StepWorker(c, sh, w, x);
    if w.Idle? {
      AcceptTouches(sh, x, TotalKey(m));
      MatchEarly(c, sh, w, t, v, m);
    } else if OnType(w) {
      TypeTouches(sh, w, TotalKey(m));
      MatchEarly(c, sh, w, t, v, m);
    } else if OnHour(w) {
      HourTouches(c, sh, w, TotalKey(m));
      MatchEarly(c, sh, w, t, v, m);
    } else if OnGate(w) {
      MatchGate(c, sh, w, x, m);
    } else {
      MatchRecord(c, sh, w, m);
    }
  }

  lemma MatchEarly(c: Config, sh: Shared, w: Worker, t: Shared, v: Worker, m: string)
    requires CountsAtLeast(sh, m) && EarlyEffect(sh, t) && SameEntry(sh.store, t.store, TotalKey(m))
    requires !Uncounted(w, m) && !OnTheWay(v, m)
    ensures MatchTrade(c, sh, w, t, v, m) && Books(sh, w, t, v, m)
  {
  }

  lemma MatchGate(c: Config, sh: Shared, w: Worker, x: Input, m: string)
    requires CountsAtLeast(sh, m) && OnGate(w)
    ensures var (t, v) := StepGate(c, sh, w, x); MatchTrade(c, sh, w, t, v, m) && Books(sh, w, t, v, m)
  {
  }

  lemma MatchRecord(c: Config, sh: Shared, w: Worker, m: string)
    requires CountsAtLeast(sh, m) && OnRecord(w)
    ensures var (t, v) := StepRecord(sh, w); MatchTrade(c, sh, w, t, v, m) && Books(sh, w, t, v, m)
  {
    if w.phase.Count? {
      MatchCount(c, sh, w, m);
    }
  }

  lemma MatchCount(c: Config, sh: Shared, w: Worker, m: string)
    requires CountsAtLeast(sh, m) && w.Busy? && w.phase.Count?
    ensures var (t, v) := StepRecord(sh, w); MatchTrade(c, sh, w, t, v, m) && Books(sh, w, t, v, m)
  {
  }

  lemma MatchFalter(c: Config, sh: Shared, w: Worker, m: string)
    requires CountsAtLeast(sh, m) && MayFalter(w)
    ensures var (t, v) := FalterWorker(sh, w); MatchTrade(c, sh, w, t, v, m) && Books(sh, w, t, v, m)
  {
  }

  /** The environment keeps the lifetime and what is counted in it, or ends the lifetime. */
  lemma MatchEnvironment(sh: Shared, l: Label, m: string)
    requires CountsAtLeast(sh, m)
    ensures var t := Environment(sh, l);
      && CountsAtLeast(t, m) && t.published == sh.published && MeterOf(t, m).missed == MeterOf(sh, m).missed
      && (if Lifetime(t, m) == Lifetime(sh, m) then Counted(t, m) == Counted(sh, m)
          else Lifetime(t, m) == Lifetime(sh, m) + 1 && Counted(t, m) == 0)
  {
  }

  predicate MatchBounded(c: Config, s: State, m: string, n: nat) {
    && |s.workers| == n && CountsAtLeast(s.shared, m)
    && Counted(s.shared, m) + Tally(s.workers, Travellers(m)) <= MatchLimit(c.maxBots) + n - 1
  }

  /** The messages of a lifetime: none ahead of time, all accounted for while it lasts, and bounded for ever. */
  predicate LifeBounded(c: Config, s: State, m: string, n: nat, life: int) {
    var sh, sent := s.shared, InLifetime(s.shared.published, m, life);
    && (life > Lifetime(sh, m) ==> sent == 0)
    && (life == Lifetime(sh, m) ==> sent <= Counted(sh, m) + LostCounts(sh, m, life) + Tally(s.workers, Owing(m)))
    && sent <= MatchLimit(c.maxBots) + n - 1 + LostCounts(sh, m, life)
  }

  lemma MatchMoves(c: Config, s: State, i: nat, t: Shared, v: Worker, m: string, n: nat)
    requires i < |s.workers| && MatchBounded(c, s, m, n) && MatchTrade(c, s.shared, s.workers[i], t, v, m)
    ensures MatchBounded(c, State(t, s.workers[i := v]), m, n)
  {
    TallyUpdate(s.workers, i, v, Travellers(m));
  }

  /** What a step does to the messages of a lifetime. */
  lemma SentMoves(sh: Shared, w: Worker, t: Shared, v: Worker, m: string, life: int)
    requires Books(sh, w, t, v, m)
    ensures Lifetime(t, m) == Lifetime(sh, m)
    ensures LostCounts(sh, m, life) <= LostCounts(t, m, life)
    ensures var sent, sent' := InLifetime(sh.published, m, life), InLifetime(t.published, m, life);
      if life != Lifetime(sh, m) then sent' == sent
      else sent' - sent + (Counted(sh, m) + LostCounts(sh, m, life) + if Uncounted(w, m) then 1 else 0)
           <= Counted(t, m) + LostCounts(t, m, life) + if Uncounted(v, m) then 1 else 0
  {
    LostOneMore(MeterOf(sh, m).missed, Lifetime(sh, m), life);
  }

  lemma LifeMoves(c: Config, s: State, i: nat, t: Shared, v: Worker, m: string, n: nat, life: int)
    requires i < |s.workers| && MatchBounded(c, s, m, n) && LifeBounded(c, s, m, n, life)
    requires MatchTrade(c, s.shared, s.workers[i], t, v, m) && Books(s.shared, s.workers[i], t, v, m)
    ensures MatchBounded(c, State(t, s.workers[i := v]), m, n)
    ensures LifeBounded(c, State(t, s.workers[i := v]), m, n, life)
  {
    MatchMoves(c, s, i, t, v, m, n);
    TallyUpdate(s.workers, i, v, Owing(m));
    OwingTravel(s.workers[i := v], m);
    SentMoves(s.shared, s.workers[i], t, v, m, life);
  }

  lemma LifeOutside(c: Config, s: State, l: Label, m: string, n: nat, life: int)
    requires MatchBounded(c, s, m, n) && LifeBounded(c, s, m, n, life)
    ensures var t := s.(shared := Environment(s.shared, l)); MatchBounded(c, t, m, n) && LifeBounded(c, t, m, n, life)
  {
    MatchEnvironment(s.shared, l, m);
    OwingTravel(s.workers, m);
  }

  lemma MatchDo(c: Config, s: State, l: Label, m: string, n: nat, life: int)
    requires MatchBounded(c, s, m, n) && LifeBounded(c, s, m, n, life)
    ensures MatchBounded(c, Do(c, s, l), m, n) && LifeBounded(c, Do(c, s, l), m, n, life)
  {
    match l {
      case Work(i, x) =>
        if i < n {
          MatchStep(c, s.shared, s.workers[i], x, m);
          var (t, v) := StepWorker(c, s.shared, s.workers[i], x);
          LifeMoves(c, s, i, t, v, m, n, life);
        }
      case GiveUp(i) =>
        if i < n && Unspent(s.workers[i]) {
          LifeMoves(c, s, i, s.shared, Idle, m, n, life);
        }
      case Falter(i) =>
        if i < n && MayFalter(s.workers[i]) {
          MatchFalter(c, s.shared, s.workers[i], m);
          var (t, v) := FalterWorker(s.shared, s.workers[i]);
          LifeMoves(c, s, i, t, v, m, n, life);
        }
      case _ => LifeOutside(c, s, l, m, n, life);
    }
  }

  lemma {:induction false} MatchRun(c: Config, now: int, n: nat, labels: seq<Label>, m: string, life: int)
    requires n > 0
    ensures var s := Exec(c, Start(now, n), labels); MatchBounded(c, s, m, n) && LifeBounded(c, s, m, n, life)
  {
    if labels == [] {
      TallyIdle(n, Travellers(m));
      TallyIdle(n, Owing(m));
    } else {
      MatchRun(c, now, n, labels[..|labels| - 1], m, life);
      MatchDo(c, Exec(c, Start(now, n), labels[..|labels| - 1]), labels[|labels| - 1], m, n, life);
    }
  }

  /**
   * In every interleaving of `n` workers, the worker messages for a match that fall in one lifetime of its counter,
   * sent out or kept inside by a shadow ban, exceed the limit by less than `n`, plus the counts lost in that lifetime.
   */
  lemma MatchOvershoot(c: Config, now: int, n: nat, labels: seq<Label>, m: string, life: int)
    requires n > 0
    ensures var sh := Exec(c, Start(now, n), labels).shared;
      var limit := if c.maxBots > 0 then c.maxBots else 100;
      InLifetime(sh.published, m, life) <= limit + n - 1 + LostCounts(sh, m, life)
  {
    MatchRun(c, now, n, labels, m, life);
  }

  /** So without a lost count in it the limit is exceeded by less than `n`, and never by a single worker. */
  lemma MatchLimitWithoutLosses(c: Config, now: int, n: nat, labels: seq<Label>, m: string, life: int)
    requires n > 0
    ensures var sh := Exec(c, Start(now, n), labels).shared;
      var sent := InLifetime(sh.published, m, life);
      var limit := if c.maxBots > 0 then c.maxBots else 100;
      LostCounts(sh, m, life) == 0 ==> sent <= limit + n - 1 && (n == 1 ==> sent <= limit)
  {
    MatchOvershoot(c, now, n, labels, m, life);
  }

  // ---------- when a count is lost ----------

  lemma MissedStep(c: Config, sh: Shared, w: Worker, x: Input, m: string)
    requires NumberAt(sh.store, TotalKey(m))
    ensures MeterOf(StepWorker(c, sh, w, x).0, m).missed == MeterOf(sh, m).missed
  {
    if w.Idle? {
      AcceptTouches(sh, x, TotalKey(m));
    } else if OnType(w) {
      TypeTouches(sh, w, TotalKey(m));
    } else if OnHour(w) {
      HourTouches(c, sh, w, TotalKey(m));
    } else if OnGate(w) {
      GateTouches(c, sh, w, x);
    } else {
      MissedRecord(sh, w, m);
    }
  }

  lemma MissedRecord(sh: Shared, w: Worker, m: string)
    requires OnRecord(w) && NumberAt(sh.store, TotalKey(m))
    ensures MeterOf(StepRecord(sh, w).0, m).missed == MeterOf(sh, m).missed
  {
  }

  lemma MissedEnvironment(sh: Shared, l: Label, m: string)
    ensures MeterOf(Environment(sh, l), m).missed == MeterOf(sh, m).missed
  {
  }

  /** INCR of the match counter fails behind a message for the match. */
  predicate FailsToCount(s: State, l: Label, m: string) {
    && l.Falter? && l.i < |s.workers|
    && var w := s.workers[l.i]; w.Busy? && w.phase.Count? && w.event.matchId == m
  }

  /** In every interleaving a count is lost exactly by such a failure, and in the lifetime it falls in. */
  lemma LostExactly(c: Config, now: int, n: nat, labels: seq<Label>, l: Label, m: string, life: int)
    ensures var s := Exec(c, Start(now, n), labels);
      LostCounts(Do(c, s, l).shared, m, life)
      == LostCounts(s.shared, m, life) + if FailsToCount(s, l, m) && Lifetime(s.shared, m) == life then 1 else 0
  {
    var s := Exec(c, Start(now, n), labels);
    match l {
      case Work(i, x) =>
        if i < |s.workers| {
          CountersAreNumbers(c, now, n, labels, TotalKey(m));
          MissedStep(c, s.shared, s.workers[i], x, m);
        }
      case GiveUp(_) =>
      case Falter(i) =>
        if i < |s.workers| && MayFalter(s.workers[i]) {
          MissedFalter(s.shared, s.workers[i], m, life);
        }
      case _ => MissedEnvironment(s.shared, l, m);
    }
  }

  lemma MissedFalter(sh: Shared, w: Worker, m: string, life: int)
    requires MayFalter(w)
    ensures LostCounts(FalterWorker(sh, w).0, m, life)
         == LostCounts(sh, m, life) + if w.phase.Count? && w.event.matchId == m && Lifetime(sh, m) == life then 1 else 0
  {
    LostOneMore(MeterOf(sh, m).missed, Lifetime(sh, m), life);
  }
}
