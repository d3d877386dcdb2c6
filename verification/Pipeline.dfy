/**
 * The admission pipeline as a state machine. Workers (Kafka partitions of any number of replicas) step through the
 * store commands of `CheckPolicy` and `handleEvent` one at a time; a list of labels is one interleaving.
 */
module Pipeline {
  import opened Keys
  import opened ExpiringStore
  import opened Options
  import opened RateLimits
  import opened Events
  import opened Policy

  /** The most messages the ratio check reads. */
  const READ_LIMIT := 200

  datatype Config = Config(precision: Precision, maxPerHour: int, maxBots: int, maxRatio: real)

  /**
   * The chat list of a match, newest message first, by `IsBot` flags. `gated` counts the messages pushed by workers
   * that passed the ratio check, `ungated` all other bot messages.
   */
  datatype Room = Room(list: seq<bool>, gated: nat, ungated: nat, last: Option<Ceiling>)

  /** The number of messages the last gated message was admitted on, and the counts then, itself included. */
  datatype Ceiling = Ceiling(size: nat, gated: nat, ungated: nat)

  /** What a worker saw at its ratio check: the bots of the window, the messages read, the counts. */
  datatype Sight = Sight(bots: nat, size: nat, gated: nat, ungated: nat)

  /** The next command of a worker; without a sight it got past a ratio check that could not read the chat. */
  datatype Phase =
    | TypeRead | TypeIncr | TypeExpire
    | HourRead | HourIncr(hour: int, ttl: int) | HourExpire(hour: int, ttl: int)
    | MatchRead | RatioRead
    | Deliver(sight: Option<Sight>) | Push(sight: Option<Sight>) | Trim | Count | CountExpire

  /** `ticket` is the index of the dedup acceptance the worker acts on. */
  datatype Worker = Idle | Busy(event: MatchEvent, ticket: nat, phase: Phase)

  /** A message sent out, or kept inside by a shadow ban, and the lifetime of the match counter it falls in. */
  datatype Publication = Publication(event: MatchEvent, ticket: nat, lifetime: int, shadowed: bool)

  /**
   * A match counter: how often it was created, the worker messages counted since it was last created, and the
   * lifetime in which each count was lost.
   */
  datatype Meter = Meter(births: nat, counted: nat, missed: seq<int>)

  datatype Shared = Shared(store: Store, rooms: map<string, Room>, accepted: seq<Lease>, published: seq<Publication>,
                           meters: map<string, Meter>)

  datatype State = State(shared: Shared, workers: seq<Worker>)

  datatype Outcome = Abandon | Publish | Shadow

  /** What the world decides in a step: the next event, its roll, the kill switch, the legacy list, the outcome. */
  datatype Input = Input(event: MatchEvent, roll: real, killed: bool, legacy: seq<bool>, outcome: Outcome)

  datatype Label =
    | Work(i: nat, x: Input)
    | GiveUp(i: nat)
    | Falter(i: nat)
    | Tick(d: nat)
    | UserPush(m: string)
    | BotPush(m: string)
    | RoomTrim(m: string)
    | RoomLapse(m: string)
    | OtherCount(m: string)
    | OtherExpire(m: string)

  function RoomOf(sh: Shared, m: string): Room {
    if m in sh.rooms then sh.rooms[m] else Room([], 0, 0, None)
  }

  function WithRoom(sh: Shared, m: string, r: Room): Shared {
    sh.(rooms := sh.rooms[m := r])
  }

  function MeterOf(sh: Shared, m: string): Meter {
    if m in sh.meters then sh.meters[m] else Meter(0, 0, [])
  }

  function WithMeter(sh: Shared, m: string, meter: Meter): Shared {
    sh.(meters := sh.meters[m := meter])
  }

  /** The worker messages counted in the current lifetime of the match counter. */
  function Counted(sh: Shared, m: string): nat {
    if Live(sh.store, TotalKey(m)) then MeterOf(sh, m).counted else 0
  }

  /** The current lifetime of the match counter, or the next one while it is dead; a lifetime ends when it expires. */
  function Lifetime(sh: Shared, m: string): int {
    MeterOf(sh, m).births - if Live(sh.store, TotalKey(m)) then 1 else 0
  }

  /** INCR of the match counter, for `own` worker messages. */
  function Raise(sh: Shared, m: string, own: nat): Shared {
    match Incr(sh.store, TotalKey(m))
    case None => sh
    case Some(t) =>
      var births := MeterOf(sh, m).births + if Live(sh.store, TotalKey(m)) then 0 else 1;
      WithMeter(sh.(store := t), m, Meter(births, Counted(sh, m) + own, MeterOf(sh, m).missed))
  }

  /** A count is lost. */
  function Miss(sh: Shared, m: string): Shared {
    WithMeter(sh, m, MeterOf(sh, m).(missed := MeterOf(sh, m).missed + [Lifetime(sh, m)]))
  }

  function Pushed(r: Room, bot: bool): Room {
    r.(list := [bot] + r.list)
  }

  function Trimmed(r: Room): Room {
    r.(list := Newest(r.list, WINDOW))
  }

  // ---------- the steps of a worker ----------

  function Accept(sh: Shared, x: Input): (Shared, Worker) {
    var key := DedupKeyOf(x.event);
    if !Admissible(x.event, x.roll, x.killed) || Live(sh.store, key) then (sh, Idle)
    else (sh.(store := SetNX(sh.store, key, Number(1), DAY), accepted := sh.accepted + [Lease(key, sh.store.now, DAY)]),
          Busy(x.event, |sh.accepted|, TypeRead))
  }

  /** GET of a counting check: on to the increment below the limit. */
  function ReadCounter(sh: Shared, w: Worker, k: Key, limit: int, below: Phase): (Shared, Worker)
    requires w.Busy?
  {
    match Read(sh.store, k, Fine)
    case None => (sh, Idle)
    case Some(n) => (sh, if n >= limit then Idle else w.(phase := below))
  }

  /** INCR of a counting check: on to EXPIRE when it created the counter. */
  function BumpCounter(sh: Shared, w: Worker, k: Key, created: Phase, existed: Phase): (Shared, Worker)
    requires w.Busy?
  {
    match Incr(sh.store, k)
    case None => (sh, Idle)
    case Some(t) => (sh.(store := t), w.(phase := if Counter(t, k) == 1 then created else existed))
  }

  function StepType(sh: Shared, w: Worker): (Shared, Worker)
    requires w.Busy? && (w.phase.TypeRead? || w.phase.TypeIncr? || w.phase.TypeExpire?)
  {
    var k := TypeKey(w.event.matchId, w.event.kind);
    match w.phase
    case TypeRead => ReadCounter(sh, w, k, TypeLimit(w.event.kind), TypeIncr)
    case TypeIncr => BumpCounter(sh, w, k, TypeExpire, HourRead)
    case TypeExpire => (sh.(store := Expire(sh.store, k, DAY)), w.(phase := HourRead))
  }

  function StepHour(c: Config, sh: Shared, w: Worker): (Shared, Worker)
    requires w.Busy? && (w.phase.HourRead? || w.phase.HourIncr? || w.phase.HourExpire?)
  {
    var m := w.event.matchId;
    match w.phase
    case HourRead =>
      var hour := sh.store.now / HOUR;
      ReadCounter(sh, w, HourKey(m, hour), HourLimit(c.maxPerHour), HourIncr(hour, RestOfHour(sh.store.now)))
    case HourIncr(hour, ttl) => BumpCounter(sh, w, HourKey(m, hour), HourExpire(hour, ttl), MatchRead)
    case HourExpire(hour, ttl) =>
      (sh.(store := Expire(sh.store, HourKey(m, hour), Kept(c.precision, ttl))), w.(phase := MatchRead))
  }

  /** The messages the ratio check reads: the chat list, or the legacy list when that is empty. */
  function ReadWindow(r: Room, legacy: seq<bool>): seq<bool> {
    Newest(if r.list == [] then legacy else r.list, READ_LIMIT)
  }

  function Look(r: Room, legacy: seq<bool>): Sight {
    Sight(Bots(Newest(r.list, WINDOW)), |ReadWindow(r, legacy)|, r.gated, r.ungated)
  }

  /** The ratio check on the messages read. */
  predicate Admits(c: Config, r: Room, legacy: seq<bool>) {
    var seen := ReadWindow(r, legacy);
    !Exceeds(Bots(seen), |seen| - Bots(seen), c.maxRatio)
  }

  function StepGate(c: Config, sh: Shared, w: Worker, x: Input): (Shared, Worker)
    requires w.Busy? && (w.phase.MatchRead? || w.phase.RatioRead? || w.phase.Deliver?)
  {
    var m := w.event.matchId;
    match w.phase
    case MatchRead => ReadCounter(sh, w, TotalKey(m), MatchLimit(c.maxBots), RatioRead)
    case RatioRead =>
      var r := RoomOf(sh, m);
      (sh, if Admits(c, r, x.legacy) then w.(phase := Deliver(Some(Look(r, x.legacy)))) else Idle)
    case Deliver(sight) =>
      if x.outcome.Abandon? then (sh, Idle)
      else
        var p := Publication(w.event, w.ticket, Lifetime(sh, m), x.outcome.Shadow?);
        (sh.(published := sh.published + [p]), w.(phase := Push(sight)))
  }

  /** LPUSH of a worker's message; one that was not checked counts with the ungated ones. */
  function PushOwn(r: Room, sight: Option<Sight>): Room {
    match sight
    case None => Pushed(r, true).(ungated := r.ungated + 1)
    case Some(s) => Pushed(r, true).(gated := r.gated + 1, last := Some(Ceiling(s.size, s.gated + 1, s.ungated)))
  }

  function CountOwn(sh: Shared, m: string): Shared {
    if Incr(sh.store, TotalKey(m)).None? then Miss(sh, m) else Raise(sh, m, 1)
  }

  function StepRecord(sh: Shared, w: Worker): (Shared, Worker)
    requires w.Busy? && (w.phase.Push? || w.phase.Trim? || w.phase.Count? || w.phase.CountExpire?)
  {
    var m := w.event.matchId;
    match w.phase
    case Push(sight) => (WithRoom(sh, m, PushOwn(RoomOf(sh, m), sight)), w.(phase := Trim))
    case Trim => (WithRoom(sh, m, Trimmed(RoomOf(sh, m))), w.(phase := Count))
    case Count =>
      var t := CountOwn(sh, m);
      (t, if Counter(t.store, TotalKey(m)) == 1 then w.(phase := CountExpire) else Idle)
    case CountExpire => (sh.(store := Expire(sh.store, TotalKey(m), DAY)), Idle)
  }

  function StepWorker(c: Config, sh: Shared, w: Worker, x: Input): (Shared, Worker) {
    match w
    case Idle => Accept(sh, x)
    case Busy(_, _, phase) =>
      match phase
      case TypeRead => StepType(sh, w)
      case TypeIncr => StepType(sh, w)
      case TypeExpire => StepType(sh, w)
      case HourRead => StepHour(c, sh, w)
      case HourIncr(_, _) => StepHour(c, sh, w)
      case HourExpire(_, _) => StepHour(c, sh, w)
      case MatchRead => StepGate(c, sh, w, x)
      case RatioRead => StepGate(c, sh, w, x)
      case Deliver(_) => StepGate(c, sh, w, x)
      case _ => StepRecord(sh, w)
  }

  /** A worker that has not published yet may give up: a failed command, no persona, a rejected message. */
  predicate Unspent(w: Worker) {
    w.Busy? && !w.phase.Push? && !w.phase.Trim? && !w.phase.Count? && !w.phase.CountExpire?
  }

  predicate MayFalter(w: Worker) {
    && w.Busy?
    && (w.phase.TypeExpire? || w.phase.HourExpire? || w.phase.RatioRead? || w.phase.Push? || w.phase.Trim?
        || w.phase.Count? || w.phase.CountExpire?)
  }

  /**
   * The failures that the code goes on from: EXPIRE of a counter, the read of the chat, and everything behind the
   * publication. A command that ran and only lost its reply is the command, followed by this or by giving up.
   */
  function FalterWorker(sh: Shared, w: Worker): (Shared, Worker)
    requires MayFalter(w)
  {
    match w.phase
    case TypeExpire => (sh, w.(phase := HourRead))
    case HourExpire(_, _) => (sh, w.(phase := MatchRead))
    case RatioRead => (sh, w.(phase := Deliver(None)))
    case Push(_) => (sh, w.(phase := Count))
    case Trim => (sh, w.(phase := Count))
    case Count => (Miss(sh, w.event.matchId), Idle)
    case CountExpire => (sh, Idle)
  }

  /** Time, users, other bots, and the commands that follow their messages. */
  function Environment(sh: Shared, l: Label): Shared {
    match l
    case Tick(d) => sh.(store := Advance(sh.store, d))
    case UserPush(m) => WithRoom(sh, m, Pushed(RoomOf(sh, m), false))
    case BotPush(m) => WithRoom(sh, m, Pushed(RoomOf(sh, m), true).(ungated := RoomOf(sh, m).ungated + 1))
    case RoomTrim(m) => WithRoom(sh, m, Trimmed(RoomOf(sh, m)))
    case RoomLapse(m) => WithRoom(sh, m, RoomOf(sh, m).(list := []))
    case OtherCount(m) => Raise(sh, m, 0)
    case OtherExpire(m) => sh.(store := Expire(sh.store, TotalKey(m), DAY))
    case _ => sh
  }

  function Do(c: Config, s: State, l: Label): State {
    match l
    case Work(i, x) =>
      if i >= |s.workers| then s
      else
        var (sh, w) := StepWorker(c, s.shared, s.workers[i], x);
        State(sh, s.workers[i := w])
    case GiveUp(i) => if i < |s.workers| && Unspent(s.workers[i]) then s.(workers := s.workers[i := Idle]) else s
    case Falter(i) =>
      if i >= |s.workers| || !MayFalter(s.workers[i]) then s
      else
        var (sh, w) := FalterWorker(s.shared, s.workers[i]);
        State(sh, s.workers[i := w])
    case _ => s.(shared := Environment(s.shared, l))
  }

  function Start(now: int, n: nat): State {
    State(Shared(Store(now, map[]), map[], [], [], map[]), seq(n, _ => Idle))
  }

  /** The state after one interleaving. */
  function Exec(c: Config, s: State, labels: seq<Label>): State {
    if labels == [] then s else Do(c, Exec(c, s, labels[..|labels| - 1]), labels[|labels| - 1])
  }

  // ---------- which keys a step touches ----------

  predicate OnType(w: Worker) {
    w.Busy? && (w.phase.TypeRead? || w.phase.TypeIncr? || w.phase.TypeExpire?)
  }

  predicate OnHour(w: Worker) {
    w.Busy? && (w.phase.HourRead? || w.phase.HourIncr? || w.phase.HourExpire?)
  }

  predicate OnGate(w: Worker) {
    w.Busy? && (w.phase.MatchRead? || w.phase.RatioRead? || w.phase.Deliver?)
  }

  predicate OnRecord(w: Worker) {
    w.Busy? && (w.phase.Push? || w.phase.Trim? || w.phase.Count? || w.phase.CountExpire?)
  }

  /** What the steps of the counting checks leave alone. */
  predicate EarlyEffect(sh: Shared, t: Shared) {
    t.rooms == sh.rooms && t.meters == sh.meters && t.published == sh.published
  }

  lemma TypeTouches(sh: Shared, w: Worker, k: Key)
    requires OnType(w)
    ensures var (t, v) := StepType(sh, w);
      && EarlyEffect(sh, t) && t.accepted == sh.accepted
      && (v.Idle? || ((OnType(v) || v.phase.HourRead?) && v == w.(phase := v.phase)))
      && (k != TypeKey(w.event.matchId, w.event.kind) ==> SameEntry(sh.store, t.store, k))
  {
  }

  lemma HourTouches(c: Config, sh: Shared, w: Worker, k: Key)
    requires OnHour(w)
    ensures var (t, v) := StepHour(c, sh, w);
      && EarlyEffect(sh, t) && t.accepted == sh.accepted
      && (v.Idle? || ((OnHour(v) || v.phase.MatchRead?) && v == w.(phase := v.phase)))
      && (!k.HourKey? ==> SameEntry(sh.store, t.store, k))
  {
  }

  lemma GateTouches(c: Config, sh: Shared, w: Worker, x: Input)
    requires OnGate(w)
    ensures var (t, v) := StepGate(c, sh, w, x);
      && t.store == sh.store && t.rooms == sh.rooms && t.meters == sh.meters && t.accepted == sh.accepted
      && (v.Idle? || ((v.phase.RatioRead? || v.phase.Deliver? || v.phase.Push?) && v == w.(phase := v.phase)))
  {
  }

  lemma RecordTouches(sh: Shared, w: Worker, k: Key)
    requires OnRecord(w)
    ensures var (t, v) := StepRecord(sh, w);
      && t.published == sh.published && t.accepted == sh.accepted
      && (v.Idle? || ((v.phase.Trim? || v.phase.Count? || v.phase.CountExpire?) && v == w.(phase := v.phase)))
      && (k != TotalKey(w.event.matchId) ==> SameEntry(sh.store, t.store, k))
  {
  }

  /** Accepting an event writes its dedup key and nothing else. */
  lemma AcceptTouches(sh: Shared, x: Input, k: Key)
    ensures var (t, w) := Accept(sh, x);
      && EarlyEffect(sh, t) && sh.accepted <= t.accepted
      && (if w.Idle? then t == sh
          else w == Busy(x.event, |sh.accepted|, TypeRead) && !Live(sh.store, DedupKeyOf(x.event))
               && t.accepted == sh.accepted + [Lease(DedupKeyOf(x.event), sh.store.now, DAY)]
               && t.store == Set(sh.store, DedupKeyOf(x.event), Number(1), DAY))
      && (!k.DedupKey? ==> SameEntry(sh.store, t.store, k))
  {
  }

  // ---------- counting workers ----------

  function Tally(ws: seq<Worker>, p: Worker -> bool): (n: nat)
    ensures n <= |ws|
  {
    if ws == [] then 0 else Tally(ws[..|ws| - 1], p) + if p(ws[|ws| - 1]) then 1 else 0
  }

  lemma {:induction false} TallyUpdate(ws: seq<Worker>, i: nat, w: Worker, p: Worker -> bool)
    requires i < |ws|
    ensures Tally(ws[i := w], p) + (if p(ws[i]) then 1 else 0) == Tally(ws, p) + if p(w) then 1 else 0
  {
    var n := |ws| - 1;
    if i < n {
      assert ws[i := w][..n] == ws[..n][i := w];
      TallyUpdate(ws[..n], i, w, p);
    } else {
      assert ws[i := w][..n] == ws[..n];
    }
  }

  lemma {:induction false} TallyIdle(n: nat, p: Worker -> bool)
    requires !p(Idle)
    ensures Tally(seq(n, _ => Idle), p) == 0
  {
    if n > 0 {
      assert seq(n, _ => Idle)[..n - 1] == seq(n - 1, _ => Idle);
      TallyIdle(n - 1, p);
    }
  }
}
