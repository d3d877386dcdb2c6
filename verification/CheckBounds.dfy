/** How far the counting checks of interleaved workers overshoot, and what the counters hold. */
module CheckBounds {
  import opened Keys
  import opened ExpiringStore
  import opened RateLimits
  import opened Pipeline

  predicate Counts(k: Key) {
    k.TypeKey? || k.HourKey?
  }

  function LimitOf(c: Config, k: Key): int
    requires Counts(k)
  {
    if k.TypeKey? then TypeLimit(k.eventType) else HourLimit(c.maxPerHour)
  }

  predicate AboutToBump(w: Worker, k: Key) {
    && w.Busy?
    && ((w.phase.TypeIncr? && k == TypeKey(w.event.matchId, w.event.kind))
        || (w.phase.HourIncr? && k == HourKey(w.event.matchId, w.phase.hour)))
  }

  function Pending(s: Store, w: Worker, k: Key): int {
    Counter(s, k) + if AboutToBump(w, k) then 1 else 0
  }

  /** One step trades a pending increment for a counted one, or adds a pending one below the limit. */
  predicate CheckTrade(c: Config, s: Store, w: Worker, t: Store, v: Worker, k: Key)
    requires Counts(k)
  {
    Pending(t, v, k) <= Pending(s, w, k) || (Counter(t, k) < LimitOf(c, k) && !AboutToBump(w, k))
  }

  lemma TypeTrade(c: Config, sh: Shared, w: Worker, k: Key)
    requires Counts(k) && OnType(w)
    ensures var (t, v) := StepType(sh, w); CheckTrade(c, sh.store, w, t.store, v, k)
  {
    TypeTouches(sh, w, k);
  }

  lemma HourTrade(c: Config, sh: Shared, w: Worker, k: Key)
    requires Counts(k) && OnHour(w)
    ensures var (t, v) := StepHour(c, sh, w); CheckTrade(c, sh.store, w, t.store, v, k)
  {
    HourTouches(c, sh, w, k);
  }

  lemma CheckStep(c: Config, sh: Shared, w: Worker, x: Input, k: Key)
    requires Counts(k)
    ensures var (t, v) := StepWorker(c, sh, w, x); CheckTrade(c, sh.store, w, t.store, v, k)
  {
    if w.Idle? {
      AcceptTouches(sh, x, k);
    } else if OnType(w) {
      TypeTrade(c, sh, w, k);
    } else if OnHour(w) {
      HourTrade(c, sh, w, k);
    } else if OnGate(w) {
      GateTouches(c, sh, w, x);
    } else {
      RecordTouches(sh, w, k);
    }
  }

  function Bumpers(k: Key): Worker -> bool {
    w => AboutToBump(w, k)
  }

  predicate CheckBounded(c: Config, s: State, k: Key, n: nat)
    requires Counts(k)
  {
    |s.workers| == n && Counter(s.shared.store, k) + Tally(s.workers, Bumpers(k)) <= LimitOf(c, k) + n - 1
  }

  lemma CheckMoves(c: Config, s: State, i: nat, t: Shared, v: Worker, k: Key, n: nat)
    requires Counts(k) && CheckBounded(c, s, k, n) && i < n
    requires CheckTrade(c, s.shared.store, s.workers[i], t.store, v, k)
    ensures CheckBounded(c, State(t, s.workers[i := v]), k, n)
  {
    TallyUpdate(s.workers, i, v, Bumpers(k));
  }

  lemma CheckEnvironment(c: Config, sh: Shared, l: Label, k: Key)
    requires Counts(k)
    ensures var n := Counter(Environment(sh, l).store, k); n == Counter(sh.store, k) || n == 0
  {
  }

  lemma CheckDo(c: Config, s: State, l: Label, k: Key, n: nat)
    requires Counts(k) && CheckBounded(c, s, k, n)
    ensures CheckBounded(c, Do(c, s, l), k, n)
  {
    match l {
      case Work(i, x) =>
        if i < n {
          CheckStep(c, s.shared, s.workers[i], x, k);
          var (t, v) := StepWorker(c, s.shared, s.workers[i], x);
          CheckMoves(c, s, i, t, v, k, n);
        }
      case GiveUp(i) =>
        if i < n && Unspent(s.workers[i]) {
          CheckMoves(c, s, i, s.shared, Idle, k, n);
        }
      case Falter(i) =>
        if i < n && MayFalter(s.workers[i]) {
          CheckFalter(c, s.shared, s.workers[i], k);
          var (t, v) := FalterWorker(s.shared, s.workers[i]);
          CheckMoves(c, s, i, t, v, k, n);
        }
      case _ => CheckOutside(c, s, l, k, n);
    }
  }

  lemma CheckFalter(c: Config, sh: Shared, w: Worker, k: Key)
    requires Counts(k) && MayFalter(w)
    ensures var (t, v) := FalterWorker(sh, w); CheckTrade(c, sh.store, w, t.store, v, k)
  {
  }

  lemma CheckOutside(c: Config, s: State, l: Label, k: Key, n: nat)
    requires Counts(k) && CheckBounded(c, s, k, n)
    ensures CheckBounded(c, s.(shared := Environment(s.shared, l)), k, n)
  {
    CheckEnvironment(c, s.shared, l, k);
  }

  lemma {:induction false} CheckRun(c: Config, now: int, n: nat, labels: seq<Label>, k: Key)
    requires Counts(k) && n > 0
    ensures CheckBounded(c, Exec(c, Start(now, n), labels), k, n)
  {
    if labels == [] {
      TallyIdle(n, Bumpers(k));
    } else {
      CheckRun(c, now, n, labels[..|labels| - 1], k);
      CheckDo(c, Exec(c, Start(now, n), labels[..|labels| - 1]), labels[|labels| - 1], k, n);
    }
  }

  /**
   * In every interleaving of `n` workers the counter of an event type, with the increments under way, exceeds its
   * limit by less than `n`, whatever commands fail.
   */
  lemma TypeOvershoot(c: Config, now: int, n: nat, labels: seq<Label>, m: string, kind: string)
    requires n > 0
    ensures var s, k := Exec(c, Start(now, n), labels), TypeKey(m, kind);
      Counter(s.shared.store, k) + Tally(s.workers, Bumpers(k)) <= TypeLimit(kind) + n - 1
  {
    CheckRun(c, now, n, labels, TypeKey(m, kind));
  }

  /** The same for the counter of an hour. */
  lemma HourlyOvershoot(c: Config, now: int, n: nat, labels: seq<Label>, m: string, hour: int)
    requires n > 0
    ensures var s, k := Exec(c, Start(now, n), labels), HourKey(m, hour);
      Counter(s.shared.store, k) + Tally(s.workers, Bumpers(k)) <= HourLimit(c.maxPerHour) + n - 1
  {
    CheckRun(c, now, n, labels, HourKey(m, hour));
  }

  // ---------- counters hold positive numbers ----------

  predicate IsCounter(k: Key) {
    k.TypeKey? || k.HourKey? || k.TotalKey?
  }

  predicate NumberAt(s: Store, k: Key) {
    k in s.entries ==> s.entries[k].value.Number? && s.entries[k].value.n >= 1
  }

  lemma NumberStep(c: Config, sh: Shared, w: Worker, x: Input, k: Key)
    requires IsCounter(k) && NumberAt(sh.store, k)
    ensures NumberAt(StepWorker(c, sh, w, x).0.store, k)
  {
    if w.Idle? {
      AcceptTouches(sh, x, k);
    } else if OnGate(w) {
      GateTouches(c, sh, w, x);
    } else if OnRecord(w) {
      NumberRecord(sh, w, k);
    } else {
      NumberCheck(c, sh, w, k);
    }
  }

  lemma NumberCheck(c: Config, sh: Shared, w: Worker, k: Key)
    requires (OnType(w) || OnHour(w)) && IsCounter(k) && NumberAt(sh.store, k)
    ensures NumberAt((if OnType(w) then StepType(sh, w) else StepHour(c, sh, w)).0.store, k)
  {
  }

  lemma NumberRecord(sh: Shared, w: Worker, k: Key)
    requires OnRecord(w) && IsCounter(k) && NumberAt(sh.store, k)
    ensures NumberAt(StepRecord(sh, w).0.store, k)
  {
  }

  lemma NumberEnvironment(sh: Shared, l: Label, k: Key)
    requires NumberAt(sh.store, k)
    ensures NumberAt(Environment(sh, l).store, k)
  {
  }

  /** In every interleaving every counter in the store is a positive number, so no check fails on its value. */
  lemma {:induction false} CountersAreNumbers(c: Config, now: int, n: nat, labels: seq<Label>, k: Key)
    requires IsCounter(k)
    ensures NumberAt(Exec(c, Start(now, n), labels).shared.store, k)
  {
    if labels != [] {
      var s, l := Exec(c, Start(now, n), labels[..|labels| - 1]), labels[|labels| - 1];
      CountersAreNumbers(c, now, n, labels[..|labels| - 1], k);
      match l {
        case Work(i, x) =>
          if i < |s.workers| {
            NumberStep(c, s.shared, s.workers[i], x, k);
          }
        case GiveUp(_) =>
        case Falter(_) =>
        case _ => NumberEnvironment(s.shared, l, k);
      }
    }
  }
}
