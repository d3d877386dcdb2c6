/** The bounds on messages per counter lifetime and on the hourly counter are reached, with and without lost counts. */
module BoundsReached {
  import opened Keys
  import opened ExpiringStore
  import opened Options
  import opened RateLimits
  import opened Events
  import opened Pipeline
  import opened CheckBounds
  import opened MatchLimits
  import opened Overshoot

  // ---------- several steps of one worker ----------

  function Steps(c: Config, sh: Shared, w: Worker, x: Input, k: nat): (Shared, Worker) {
    if k == 0 then (sh, w)
    else
      var (t, v) := Steps(c, sh, w, x, k - 1);
      StepWorker(c, t, v, x)
  }

  lemma {:induction false} WorkRun(c: Config, s: State, before: seq<Label>, i: nat, x: Input, k: nat)
    returns (labels: seq<Label>)
    requires i < |Exec(c, s, before).workers|
    ensures var u := Exec(c, s, before);
      var (t, v) := Steps(c, u.shared, u.workers[i], x, k);
      Exec(c, s, labels) == State(t, u.workers[i := v])
  {
    var u := Exec(c, s, before);
    if k == 0 {
      labels := before;
      assert u.workers[i := u.workers[i]] == u.workers;
    } else {
      var most := WorkRun(c, s, before, i, x, k - 1);
      labels := OneMore(c, s, most, Work(i, x));
      var (t, v) := Steps(c, u.shared, u.workers[i], x, k - 1);
      OneWork(c, State(t, u.workers[i := v]), i, x);
      var last := StepWorker(c, t, v, x).1;
      assert u.workers[i := v][i := last] == u.workers[i := last];
    }
  }

  lemma OneWork(c: Config, s: State, i: nat, x: Input)
    requires i < |s.workers|
    ensures var (t, v) := StepWorker(c, s.shared, s.workers[i], x); Do(c, s, Work(i, x)) == State(t, s.workers[i := v])
  {
  }

  lemma OneFalter(c: Config, s: State, before: seq<Label>, i: nat) returns (labels: seq<Label>)
    requires i < |Exec(c, s, before).workers| && MayFalter(Exec(c, s, before).workers[i])
    ensures var u := Exec(c, s, before);
      var (t, v) := FalterWorker(u.shared, u.workers[i]);
      Exec(c, s, labels) == State(t, u.workers[i := v])
  {
    labels := OneMore(c, s, before, Falter(i));
  }

  // ---------- a store that forgets within a day, but for the match counter ----------

  predicate Calm(s: Store, m: string) {
    forall k | k in s.entries && k != TotalKey(m) ::
      s.entries[k].expiry.Some? && s.entries[k].expiry.value <= s.now + DAY
  }

  /** It has forgotten. */
  predicate Stale(s: Store, m: string) {
    forall k | k in s.entries && k != TotalKey(m) :: s.entries[k].expiry.Some? && s.entries[k].expiry.value <= s.now
  }

  /** The match counter stands at `n` for good. */
  predicate Stands(s: Store, m: string, n: nat) {
    if n == 0 then TotalKey(m) !in s.entries
    else TotalKey(m) in s.entries && s.entries[TotalKey(m)] == Entry(Number(n), None)
  }

  /** All in the first lifetime of the match counter: the messages counted, sent, and not counted. */
  predicate Board(sh: Shared, m: string, counted: nat, sent: nat, lost: nat) {
    && Stands(sh.store, m, counted)
    && MeterOf(sh, m).births == (if counted == 0 then 0 else 1) && (counted > 0 ==> MeterOf(sh, m).counted == counted)
    && InLifetime(sh.published, m, 0) == sent && LostCounts(sh, m, 0) == lost
  }

  lemma FirstLifetime(sh: Shared, m: string, counted: nat, sent: nat, lost: nat)
    requires Board(sh, m, counted, sent, lost)
    ensures Lifetime(sh, m) == 0 && Counted(sh, m) == counted && Counter(sh.store, TotalKey(m)) == counted
  {
  }

  /** What the steps before the match limit leave of all this. */
  lemma BoardStays(sh: Shared, t: Shared, m: string, counted: nat, sent: nat, lost: nat)
    requires Board(sh, m, counted, sent, lost) && EarlyEffect(sh, t)
    requires TotalKey(m) in t.store.entries <==> TotalKey(m) in sh.store.entries
    requires TotalKey(m) in sh.store.entries ==> t.store.entries[TotalKey(m)] == sh.store.entries[TotalKey(m)]
    ensures Board(t, m, counted, sent, lost)
  {
  }

  lemma CalmSet(s: Store, m: string, k: Key, ttl: int)
    requires Calm(s, m) && k != TotalKey(m) && 0 < ttl <= DAY
    ensures Calm(Set(s, k, Number(1), ttl), m)
  {
  }

  // ---------- the way to the counters ----------

  /** A new red card is accepted. */
  lemma CardAccepted(c: Config, sh: Shared, m: string)
    requires Stale(sh.store, m)
    ensures var (t, w) := Steps(c, sh, Idle, Card(m), 1);
      && w == Busy(RedCard(m, 0), |sh.accepted|, TypeRead)
      && EarlyEffect(sh, t) && t.store == Set(sh.store, DedupKeyOf(RedCard(m, 0)), Number(1), DAY)
  {
    CardIsAdmissible(m, 0);
    AcceptTouches(sh, Card(m), TotalKey(m));
    assert Steps(c, sh, Idle, Card(m), 0) == (sh, Idle);
  }

  /** A counter that INCR has just created. */
  function Created(s: Store, k: Key): Store {
    s.(entries := s.entries[k := Entry(Number(1), None)])
  }

  lemma CreatedThenExpires(s: Store, k: Key, ttl: int)
    requires !Live(s, k) && ttl > 0
    ensures Read(s, k, Fine) == Some(0) && Incr(s, k) == Some(Created(s, k)) && Counter(Created(s, k), k) == 1
    ensures Expire(Created(s, k), k, ttl) == Set(s, k, Number(1), ttl)
  {
    var e := Entry(Number(1), Some(s.now + ttl));
    assert Created(s, k).entries[k := e] == s.entries[k := e];
  }

  lemma StepsThree(c: Config, x: Input, t0: Shared, w0: Worker, t1: Shared, w1: Worker, t2: Shared, w2: Worker)
    requires StepWorker(c, t0, w0, x) == (t1, w1) && StepWorker(c, t1, w1, x) == (t2, w2)
    ensures Steps(c, t0, w0, x, 3) == StepWorker(c, t2, w2, x)
  {
    assert Steps(c, t0, w0, x, 1) == (t1, w1) by { assert Steps(c, t0, w0, x, 0) == (t0, w0); }
  }

  lemma TypeStepsOn(sh: Shared, w: Worker, k: Key)
    requires w.Busy? && w.phase.TypeRead? && k == TypeKey(w.event.matchId, w.event.kind) && !Live(sh.store, k)
    ensures StepType(sh, w) == (sh, w.(phase := TypeIncr))
    ensures StepType(sh, w.(phase := TypeIncr)) == (sh.(store := Created(sh.store, k)), w.(phase := TypeExpire))
    ensures StepType(sh.(store := Created(sh.store, k)), w.(phase := TypeExpire))
         == (sh.(store := Set(sh.store, k, Number(1), DAY)), w.(phase := HourRead))
  {
    CreatedThenExpires(sh.store, k, DAY);
  }

  /** A dead counter is read, created and set to expire. */
  lemma TypePasses(c: Config, sh: Shared, w: Worker, x: Input, k: Key)
    requires w.Busy? && w.phase.TypeRead? && k == TypeKey(w.event.matchId, w.event.kind) && !Live(sh.store, k)
    ensures Steps(c, sh, w, x, 3) == (sh.(store := Set(sh.store, k, Number(1), DAY)), w.(phase := HourRead))
  {
    TypeStepsOn(sh, w, k);
    StepsThree(c, x, sh, w, sh, w.(phase := TypeIncr), sh.(store := Created(sh.store, k)), w.(phase := TypeExpire));
  }

  lemma HourStepsOn(c: Config, sh: Shared, w: Worker, k: Key, hour: int, rest: int, ttl: int)
    requires hour == sh.store.now / HOUR && rest == RestOfHour(sh.store.now) && ttl == Kept(c.precision, rest)
    requires w.Busy? && w.phase.HourRead? && k == HourKey(w.event.matchId, hour) && !Live(sh.store, k) && ttl > 0
    ensures StepHour(c, sh, w) == (sh, w.(phase := HourIncr(hour, rest)))
    ensures StepHour(c, sh, w.(phase := HourIncr(hour, rest)))
         == (sh.(store := Created(sh.store, k)), w.(phase := HourExpire(hour, rest)))
    ensures StepHour(c, sh.(store := Created(sh.store, k)), w.(phase := HourExpire(hour, rest)))
         == (sh.(store := Set(sh.store, k, Number(1), ttl)), w.(phase := MatchRead))
  {
    CreatedThenExpires(sh.store, k, ttl);
  }

  lemma KeptWithinDay(p: Precision, now: int)
    ensures 0 < Kept(p, RestOfHour(now)) <= DAY
  {
  }

  lemma HourPasses(c: Config, sh: Shared, w: Worker, x: Input, k: Key, hour: int, rest: int, ttl: int)
    requires hour == sh.store.now / HOUR && rest == RestOfHour(sh.store.now) && ttl == Kept(c.precision, rest)
    requires w.Busy? && w.phase.HourRead? && k == HourKey(w.event.matchId, hour) && !Live(sh.store, k) && ttl > 0
    ensures Steps(c, sh, w, x, 3) == (sh.(store := Set(sh.store, k, Number(1), ttl)), w.(phase := MatchRead))
  {
    HourStepsOn(c, sh, w, k, hour, rest, ttl);
    StepsThree(c, x, sh, w, sh, w.(phase := HourIncr(hour, rest)),
               sh.(store := Created(sh.store, k)), w.(phase := HourExpire(hour, rest)));
  }

  /** Where the workers are: one has moved, the others stay. */
  predicate Moved(ws: seq<Worker>, vs: seq<Worker>, i: nat, m: string, phase: Phase) {
    && |vs| == |ws| && i < |ws|
    && vs[i].Busy? && vs[i].event == RedCard(m, 0) && vs[i].phase == phase
    && forall j | 0 <= j < |ws| && j != i :: vs[j] == ws[j]
  }

  lemma TickStales(c: Config, s: State, m: string, counted: nat, sent: nat, lost: nat)
    requires Calm(s.shared.store, m) && Board(s.shared, m, counted, sent, lost)
    ensures var t := Do(c, s, Tick(DAY));
      t.workers == s.workers && Stale(t.shared.store, m) && Board(t.shared, m, counted, sent, lost)
  {
    BoardStays(s.shared, Do(c, s, Tick(DAY)).shared, m, counted, sent, lost);
  }

  /** A day later an idle worker accepts the card. */
  lemma AcceptLater(c: Config, s: State, before: seq<Label>, i: nat, m: string, counted: nat, sent: nat, lost: nat)
    returns (labels: seq<Label>)
    requires var u := Exec(c, s, before);
      && i < |u.workers| && u.workers[i].Idle? && Calm(u.shared.store, m) && Board(u.shared, m, counted, sent, lost)
    ensures var u, t := Exec(c, s, before), Exec(c, s, labels);
      && Moved(u.workers, t.workers, i, m, TypeRead)
      && Calm(t.shared.store, m) && Board(t.shared, m, counted, sent, lost)
      && !Live(t.shared.store, HourKey(m, t.shared.store.now / HOUR))
      && !Live(t.shared.store, TypeKey(m, RedCard(m, 0).kind))
  {
    var ticked := OneMore(c, s, before, Tick(DAY));
    TickStales(c, Exec(c, s, before), m, counted, sent, lost);
    var sh := Exec(c, s, ticked).shared;
    labels := WorkRun(c, s, ticked, i, Card(m), 1);
    CardAccepted(c, sh, m);
    StaleAccepts(sh, Steps(c, sh, Idle, Card(m), 1).0, m, counted, sent, lost);
  }

  lemma StaleAccepts(sh: Shared, t: Shared, m: string, counted: nat, sent: nat, lost: nat)
    requires Stale(sh.store, m) && Board(sh, m, counted, sent, lost) && EarlyEffect(sh, t)
    requires t.store == Set(sh.store, DedupKeyOf(RedCard(m, 0)), Number(1), DAY)
    ensures Calm(t.store, m) && Board(t, m, counted, sent, lost)
    ensures !Live(t.store, HourKey(m, t.store.now / HOUR)) && !Live(t.store, TypeKey(m, RedCard(m, 0).kind))
  {
    CalmSet(sh.store, m, DedupKeyOf(RedCard(m, 0)), DAY);
    BoardStays(sh, t, m, counted, sent, lost);
  }

  /** And takes it past the event-type check. */
  lemma ParkAtHour(c: Config, s: State, before: seq<Label>, i: nat, m: string, counted: nat, sent: nat, lost: nat)
    returns (labels: seq<Label>)
    requires var u := Exec(c, s, before);
      && i < |u.workers| && u.workers[i].Idle? && Calm(u.shared.store, m) && Board(u.shared, m, counted, sent, lost)
    ensures var u, t := Exec(c, s, before), Exec(c, s, labels);
      && Moved(u.workers, t.workers, i, m, HourRead)
      && Calm(t.shared.store, m) && Board(t.shared, m, counted, sent, lost)
      && !Live(t.shared.store, HourKey(m, t.shared.store.now / HOUR))
  {
    var accepted := AcceptLater(c, s, before, i, m, counted, sent, lost);
    var u := Exec(c, s, accepted);
    var k := TypeKey(m, RedCard(m, 0).kind);
    labels := WorkRun(c, s, accepted, i, Card(m), 3);
    TypePasses(c, u.shared, u.workers[i], Card(m), k);
    CalmSet(u.shared.store, m, k, DAY);
    BoardStays(u.shared, u.shared.(store := Set(u.shared.store, k, Number(1), DAY)), m, counted, sent, lost);
  }

  /** The same, past the hourly check. */
  lemma ParkAtMatch(c: Config, s: State, before: seq<Label>, i: nat, m: string, counted: nat, sent: nat, lost: nat)
    returns (labels: seq<Label>)
    requires var u := Exec(c, s, before);
      && i < |u.workers| && u.workers[i].Idle? && Calm(u.shared.store, m) && Board(u.shared, m, counted, sent, lost)
    ensures var u, t := Exec(c, s, before), Exec(c, s, labels);
      && Moved(u.workers, t.workers, i, m, MatchRead)
      && Calm(t.shared.store, m) && Board(t.shared, m, counted, sent, lost)
  {
    var parked := ParkAtHour(c, s, before, i, m, counted, sent, lost);
    var u := Exec(c, s, parked);
    labels := WorkRun(c, s, parked, i, Card(m), 3);
    var hour, rest := u.shared.store.now / HOUR, RestOfHour(u.shared.store.now);
    var k, ttl := HourKey(m, hour), Kept(c.precision, rest);
    KeptWithinDay(c.precision, u.shared.store.now);
    HourPasses(c, u.shared, u.workers[i], Card(m), k, hour, rest, ttl);
    CalmSet(u.shared.store, m, k, ttl);
    BoardStays(u.shared, u.shared.(store := Set(u.shared.store, k, Number(1), ttl)), m, counted, sent, lost);
  }

  // ---------- past the match limit ----------

  lemma ReadBelow(c: Config, sh: Shared, w: Worker, m: string, counted: nat, sent: nat, lost: nat)
    requires w.Busy? && w.event == RedCard(m, 0) && w.phase.MatchRead?
    requires Board(sh, m, counted, sent, lost) && counted < MatchLimit(c.maxBots)
    ensures Steps(c, sh, w, Card(m), 1) == (sh, w.(phase := RatioRead))
  {
    FirstLifetime(sh, m, counted, sent, lost);
    assert Steps(c, sh, w, Card(m), 0) == (sh, w);
    assert StepGate(c, sh, w, Card(m)) == (sh, w.(phase := RatioRead));
  }

  lemma Publishes(c: Config, sh: Shared, w: Worker, m: string, counted: nat, sent: nat, lost: nat)
    requires w.Busy? && w.event == RedCard(m, 0) && w.phase == Deliver(None) && Board(sh, m, counted, sent, lost)
    ensures var (t, v) := Steps(c, sh, w, Card(m), 1);
      v == w.(phase := Push(None)) && t.store == sh.store && Board(t, m, counted, sent + 1, lost)
  {
    FirstLifetime(sh, m, counted, sent, lost);
    assert Steps(c, sh, w, Card(m), 0) == (sh, w);
    var p := Publication(w.event, w.ticket, Lifetime(sh, m), false);
    assert StepGate(c, sh, w, Card(m)) == (sh.(published := sh.published + [p]), w.(phase := Push(None)));
    assert (sh.published + [p])[..|sh.published|] == sh.published;
  }

  /** Below the limit, and with a chat that cannot be read, the message goes out. */
  lemma SendOne(c: Config, s: State, before: seq<Label>, i: nat, m: string, counted: nat, sent: nat, lost: nat)
    returns (labels: seq<Label>)
    requires var u := Exec(c, s, before);
      && i < |u.workers| && Board(u.shared, m, counted, sent, lost) && counted < MatchLimit(c.maxBots)
      && u.workers[i].Busy? && u.workers[i].event == RedCard(m, 0) && u.workers[i].phase.MatchRead?
    ensures var u, t := Exec(c, s, before), Exec(c, s, labels);
      && Moved(u.workers, t.workers, i, m, Push(None))
      && t.shared.store == u.shared.store && Board(t.shared, m, counted, sent + 1, lost)
  {
    var u := Exec(c, s, before);
    ReadBelow(c, u.shared, u.workers[i], m, counted, sent, lost);
    var read := WorkRun(c, s, before, i, Card(m), 1);
    var blind := OneFalter(c, s, read, i);
    Publishes(c, u.shared, u.workers[i].(phase := Deliver(None)), m, counted, sent, lost);
    labels := WorkRun(c, s, blind, i, Card(m), 1);
  }

  lemma RecordKeeps(sh: Shared, w: Worker)
    requires w.Busy? && (w.phase.Push? || w.phase.Trim?)
    ensures var (t, v) := StepRecord(sh, w);
      t == sh.(rooms := t.rooms) && v == w.(phase := if w.phase.Push? then Trim else Count)
  {
  }

  lemma BoardRooms(sh: Shared, t: Shared, m: string, counted: nat, sent: nat, lost: nat)
    requires Board(sh, m, counted, sent, lost) && t == sh.(rooms := t.rooms)
    ensures Board(t, m, counted, sent, lost)
  {
  }

  lemma Records(c: Config, sh: Shared, w: Worker, x: Input)
    requires w.Busy? && w.phase.Push?
    ensures var (t, v) := Steps(c, sh, w, x, 2); v == w.(phase := Count) && t == sh.(rooms := t.rooms)
  {
    RecordKeeps(sh, w);
    var (t, v) := StepRecord(sh, w);
    RecordKeeps(t, v);
    assert Steps(c, sh, w, x, 1) == (t, v) by { assert Steps(c, sh, w, x, 0) == (sh, w); }
  }

  /** The message is pushed and trimmed. */
  lemma RecordOne(c: Config, s: State, before: seq<Label>, i: nat, m: string, counted: nat, sent: nat, lost: nat)
    returns (labels: seq<Label>)
    requires var u := Exec(c, s, before);
      && i < |u.workers| && Board(u.shared, m, counted, sent, lost)
      && u.workers[i].Busy? && u.workers[i].event == RedCard(m, 0) && u.workers[i].phase == Push(None)
    ensures var u, t := Exec(c, s, before), Exec(c, s, labels);
      && Moved(u.workers, t.workers, i, m, Count)
      && t.shared.store == u.shared.store && Board(t.shared, m, counted, sent, lost)
  {
    var u := Exec(c, s, before);
    Records(c, u.shared, u.workers[i], Card(m));
    labels := WorkRun(c, s, before, i, Card(m), 2);
    BoardRooms(u.shared, Exec(c, s, labels).shared, m, counted, sent, lost);
  }

  lemma Loses(sh: Shared, w: Worker, m: string, counted: nat, sent: nat, lost: nat)
    requires w.Busy? && w.event.matchId == m && w.phase == Count && Board(sh, m, counted, sent, lost)
    ensures var (t, v) := FalterWorker(sh, w); v == Idle && t.store == sh.store && Board(t, m, counted, sent, lost + 1)
  {
    FirstLifetime(sh, m, counted, sent, lost);
    LostOneMore(MeterOf(sh, m).missed, Lifetime(sh, m), 0);
  }

  /** The counter after one more count. */
  function OneUp(s: Store, m: string, counted: nat): Store {
    s.(entries := s.entries[TotalKey(m) := Entry(Number(counted + 1), None)])
  }

  lemma StandsUp(s: Store, m: string, counted: nat)
    requires Stands(s, m, counted)
    ensures Incr(s, TotalKey(m)) == Some(OneUp(s, m, counted))
    ensures Counter(OneUp(s, m, counted), TotalKey(m)) == counted + 1
    ensures Stands(OneUp(s, m, counted), m, counted + 1) && (Calm(s, m) ==> Calm(OneUp(s, m, counted), m))
    ensures Live(s, TotalKey(m)) <==> counted > 0
  {
  }

  lemma BoardUp(sh: Shared, m: string, counted: nat, sent: nat, lost: nat)
    requires Board(sh, m, counted, sent, lost)
    ensures var t := CountOwn(sh, m);
      t.store == OneUp(sh.store, m, counted) && t.published == sh.published && Board(t, m, counted + 1, sent, lost)
  {
    StandsUp(sh.store, m, counted);
    FirstLifetime(sh, m, counted, sent, lost);
  }

  lemma CountsIt(c: Config, sh: Shared, w: Worker, m: string, counted: nat, sent: nat, lost: nat)
    requires w.Busy? && w.event == RedCard(m, 0) && w.phase == Count && Board(sh, m, counted, sent, lost)
    ensures var (t, v) := Steps(c, sh, w, Card(m), 1);
      && v == (if counted == 0 then w.(phase := CountExpire) else Idle)
      && Board(t, m, counted + 1, sent, lost) && (Calm(sh.store, m) ==> Calm(t.store, m))
  {
    BoardUp(sh, m, counted, sent, lost);
    StandsUp(sh.store, m, counted);
    assert Steps(c, sh, w, Card(m), 0) == (sh, w);
    assert StepRecord(sh, w) == (CountOwn(sh, m), if counted == 0 then w.(phase := CountExpire) else Idle);
  }

  /** One worker has moved there and idles again. */
  lemma MovedBack(ws: seq<Worker>, us: seq<Worker>, i: nat, m: string, phase: Phase)
    requires Moved(ws, us, i, m, phase) && ws[i].Idle?
    ensures us[i := Idle] == ws
  {
  }

  lemma MovedOn(ws: seq<Worker>, us: seq<Worker>, vs: seq<Worker>, i: nat, m: string, p: Phase, q: Phase)
    requires Moved(ws, us, i, m, p) && Moved(us, vs, i, m, q)
    ensures Moved(ws, vs, i, m, q)
  {
  }

  /** A worker sends a message and is about to count it. */
  lemma OneSent(c: Config, s: State, before: seq<Label>, i: nat, m: string, counted: nat, sent: nat, lost: nat)
    returns (labels: seq<Label>)
    requires var u := Exec(c, s, before);
      && i < |u.workers| && u.workers[i].Idle? && Calm(u.shared.store, m) && Board(u.shared, m, counted, sent, lost)
    requires counted < MatchLimit(c.maxBots)
    ensures var u, t := Exec(c, s, before), Exec(c, s, labels);
      && Moved(u.workers, t.workers, i, m, Count)
      && Calm(t.shared.store, m) && Board(t.shared, m, counted, sent + 1, lost)
  {
    var parked := ParkAtMatch(c, s, before, i, m, counted, sent, lost);
    var sending := SendOne(c, s, parked, i, m, counted, sent, lost);
    labels := RecordOne(c, s, sending, i, m, counted, sent + 1, lost);
    var ws, us, vs := Exec(c, s, before).workers, Exec(c, s, parked).workers, Exec(c, s, sending).workers;
    MovedOn(ws, us, vs, i, m, MatchRead, Push(None));
    MovedOn(ws, vs, Exec(c, s, labels).workers, i, m, Push(None), Count);
  }

  /** A message whose count is lost. */
  lemma OneLost(c: Config, s: State, before: seq<Label>, i: nat, m: string, counted: nat, sent: nat, lost: nat)
    returns (labels: seq<Label>)
    requires var u := Exec(c, s, before);
      && i < |u.workers| && u.workers[i].Idle? && Calm(u.shared.store, m) && Board(u.shared, m, counted, sent, lost)
    requires counted < MatchLimit(c.maxBots)
    ensures var u, t := Exec(c, s, before), Exec(c, s, labels);
      t.workers == u.workers && Calm(t.shared.store, m) && Board(t.shared, m, counted, sent + 1, lost + 1)
  {
    var sending := OneSent(c, s, before, i, m, counted, sent, lost);
    var u := Exec(c, s, sending);
    labels := OneFalter(c, s, sending, i);
    Loses(u.shared, u.workers[i], m, counted, sent + 1, lost);
    MovedBack(Exec(c, s, before).workers, u.workers, i, m, Count);
  }

  /** A message that is counted; the counter is never set to expire. */
  lemma OneCounted(c: Config, s: State, before: seq<Label>, i: nat, m: string, counted: nat, sent: nat, lost: nat)
    returns (labels: seq<Label>)
    requires var u := Exec(c, s, before);
      && i < |u.workers| && u.workers[i].Idle? && Calm(u.shared.store, m) && Board(u.shared, m, counted, sent, lost)
    requires counted < MatchLimit(c.maxBots)
    ensures var u, t := Exec(c, s, before), Exec(c, s, labels);
      t.workers == u.workers && Calm(t.shared.store, m) && Board(t.shared, m, counted + 1, sent + 1, lost)
  {
    var sending := OneSent(c, s, before, i, m, counted, sent, lost);
    var u := Exec(c, s, sending);
    labels := WorkRun(c, s, sending, i, Card(m), 1);
    CountsIt(c, u.shared, u.workers[i], m, counted, sent + 1, lost);
    MovedBack(Exec(c, s, before).workers, u.workers, i, m, Count);
    if counted == 0 {
      assert u.workers[i := u.workers[i].(phase := CountExpire)][i := Idle] == u.workers[i := Idle];
      labels := OneFalter(c, s, labels, i);
    }
  }

  // ---------- all together ----------

  /** All workers idle, and the board as given. */
  predicate Rests(t: State, n: nat, m: string, counted: nat, sent: nat, lost: nat) {
    && |t.workers| == n && (forall j | 0 <= j < n :: t.workers[j].Idle?)
    && Calm(t.shared.store, m) && Board(t.shared, m, counted, sent, lost)
  }

  lemma {:induction false} ManyLost(c: Config, now: int, n: nat, m: string, k: nat) returns (labels: seq<Label>)
    requires n > 0
    ensures Rests(Exec(c, Start(now, n), labels), n, m, 0, k, k)
  {
    if k == 0 {
      labels := [];
    } else {
      var before := ManyLost(c, now, n, m, k - 1);
      labels := OneLost(c, Start(now, n), before, 0, m, 0, k - 1, k - 1);
    }
  }

  lemma {:induction false} ManyCounted(c: Config, s: State, base: seq<Label>, n: nat, m: string, k: nat, l: nat)
    returns (labels: seq<Label>)
    requires n > 0 && l < MatchLimit(c.maxBots) && Rests(Exec(c, s, base), n, m, 0, k, k)
    ensures Rests(Exec(c, s, labels), n, m, l, k + l, k)
    decreases l
  {
    if l == 0 {
      labels := base;
    } else {
      var fewer, sent := l - 1, k + l - 1;
      var before := ManyCounted(c, s, base, n, m, k, fewer);
      labels := RestsCounted(c, s, before, n, m, fewer, sent, k, l, sent + 1);
    }
  }

  lemma RestsCounted(c: Config, s: State, before: seq<Label>, n: nat, m: string, counted: nat, sent: nat, lost: nat,
                     counted': nat, sent': nat)
    returns (labels: seq<Label>)
    requires n > 0 && Rests(Exec(c, s, before), n, m, counted, sent, lost) && counted < MatchLimit(c.maxBots)
    requires counted' == counted + 1 && sent' == sent + 1
    ensures Rests(Exec(c, s, labels), n, m, counted', sent', lost)
  {
    labels := OneCounted(c, s, before, 0, m, counted, sent, lost);
  }

  /** The first `i` workers hold the card in one phase, the others in another, or are idle. */
  predicate Lined(ws: seq<Worker>, i: nat, m: string, first: Phase, rest: Option<Phase>) {
    forall j | 0 <= j < |ws| ::
      if j < i then ws[j].Busy? && ws[j].event == RedCard(m, 0) && ws[j].phase == first
      else if rest.None? then ws[j].Idle?
      else ws[j].Busy? && ws[j].event == RedCard(m, 0) && ws[j].phase == rest.value
  }

  lemma LineUp(ws: seq<Worker>, vs: seq<Worker>, i: nat, m: string, first: Phase, rest: Option<Phase>)
    requires Lined(ws, i, m, first, rest) && Moved(ws, vs, i, m, first)
    ensures Lined(vs, i + 1, m, first, rest)
  {
  }

  /** All workers wait at the match limit, each with its own acceptance. */
  lemma {:induction false} AllPark(c: Config, now: int, n: nat, m: string, k: nat, i: nat) returns (labels: seq<Label>)
    requires i <= n && n > 0
    ensures var t, l := Exec(c, Start(now, n), labels), MatchLimit(c.maxBots) - 1;
      && l >= 0 && |t.workers| == n && Lined(t.workers, i, m, MatchRead, None)
      && Calm(t.shared.store, m) && Board(t.shared, m, l, k + l, k)
  {
    var l := MatchLimit(c.maxBots) - 1;
    if i == 0 {
      var base := ManyLost(c, now, n, m, k);
      labels := ManyCounted(c, Start(now, n), base, n, m, k, l);
    } else {
      var before := AllPark(c, now, n, m, k, i - 1);
      labels := ParkAtMatch(c, Start(now, n), before, i - 1, m, l, k + l, k);
      LineUp(Exec(c, Start(now, n), before).workers, Exec(c, Start(now, n), labels).workers, i - 1, m, MatchRead, None);
    }
  }

  /** And all pass it before one of them has counted. */
  lemma {:induction false} AllSend(c: Config, now: int, n: nat, m: string, k: nat, i: nat) returns (labels: seq<Label>)
    requires i <= n && n > 0
    ensures var t, l := Exec(c, Start(now, n), labels), MatchLimit(c.maxBots) - 1;
      && l >= 0 && |t.workers| == n && Lined(t.workers, i, m, Push(None), Some(MatchRead))
      && Board(t.shared, m, l, k + l + i, k)
  {
    var l := MatchLimit(c.maxBots) - 1;
    if i == 0 {
      labels := AllPark(c, now, n, m, k, n);
    } else {
      var before := AllSend(c, now, n, m, k, i - 1);
      labels := SendOne(c, Start(now, n), before, i - 1, m, l, k + l + i - 1, k);
      LineUp(Exec(c, Start(now, n), before).workers, Exec(c, Start(now, n), labels).workers, i - 1, m, Push(None),
             Some(MatchRead));
    }
  }

  /**
   * For every number of workers and of lost counts, some interleaving sends as many messages in one lifetime of a match
   * counter as `MatchOvershoot` allows; a single worker with `k` lost counts sends `k` more than the limit.
   */
  lemma MatchBoundIsReached(c: Config, now: int, n: nat, m: string, k: nat) returns (labels: seq<Label>)
    requires n > 0
    ensures var sh := Exec(c, Start(now, n), labels).shared;
      var limit := if c.maxBots > 0 then c.maxBots else 100;
      LostCounts(sh, m, 0) == k && InLifetime(sh.published, m, 0) == limit + n - 1 + k
  {
    labels := AllSend(c, now, n, m, k, n);
  }

  // ---------- the hourly counter ----------

  lemma {:induction false} AllWait(c: Config, now: int, n: nat, m: string, i: nat) returns (labels: seq<Label>)
    requires i <= n
    ensures var t := Exec(c, Start(now, n), labels);
      && |t.workers| == n && Lined(t.workers, i, m, HourRead, None)
      && Calm(t.shared.store, m) && Board(t.shared, m, 0, 0, 0)
  {
    if i == 0 {
      labels := [];
    } else {
      var before := AllWait(c, now, n, m, i - 1);
      labels := ParkAtHour(c, Start(now, n), before, i - 1, m, 0, 0, 0);
      LineUp(Exec(c, Start(now, n), before).workers, Exec(c, Start(now, n), labels).workers, i - 1, m, HourRead, None);
    }
  }

  /** The counter of the hour stands at `n`; nothing is there for none. */
  predicate HourStands(s: Store, k: Key, n: nat) {
    if n == 0 then !Live(s, k) else k in s.entries && s.entries[k] == Entry(Number(n), None)
  }

  /** A worker at the hourly check, in the hour given, before or behind its read. */
  predicate AtHour(w: Worker, m: string, hour: int, ttl: int, read: bool) {
    w.Busy? && w.event == RedCard(m, 0) && w.phase == if read then HourIncr(hour, ttl) else HourRead
  }

  /** The first `i` workers have read. */
  predicate HalfRead(s: State, n: nat, m: string, hour: int, i: nat) {
    && |s.workers| == n && i <= n
    && s.shared.store.now / HOUR == hour && HourStands(s.shared.store, HourKey(m, hour), 0)
    && forall j | 0 <= j < n :: AtHour(s.workers[j], m, hour, RestOfHour(s.shared.store.now), j < i)
  }

  lemma ReadOne(c: Config, s: State, n: nat, m: string, hour: int, i: nat)
    requires HalfRead(s, n, m, hour, i) && i < n
    ensures HalfRead(Do(c, s, Work(i, Card(m))), n, m, hour, i + 1)
  {
    var w := s.workers[i];
    assert StepHour(c, s.shared, w) == (s.shared, w.(phase := HourIncr(hour, RestOfHour(s.shared.store.now))));
    OneWork(c, s, i, Card(m));
  }

  lemma {:induction false} AllHourRead(c: Config, s: State, base: seq<Label>, n: nat, m: string, hour: int, i: nat)
    returns (labels: seq<Label>)
    requires HalfRead(Exec(c, s, base), n, m, hour, 0) && i <= n
    ensures HalfRead(Exec(c, s, labels), n, m, hour, i)
    decreases i
  {
    if i == 0 {
      labels := base;
    } else {
      var before := AllHourRead(c, s, base, n, m, hour, i - 1);
      labels := OneMore(c, s, before, Work(i - 1, Card(m)));
      ReadOne(c, Exec(c, s, before), n, m, hour, i - 1);
    }
  }

  /** The first `i` workers have counted. */
  predicate HalfCounted(s: State, n: nat, m: string, hour: int, ttl: int, i: nat) {
    && |s.workers| == n && i <= n && HourStands(s.shared.store, HourKey(m, hour), i)
    && (forall j | i <= j < n :: AtHour(s.workers[j], m, hour, ttl, true))
    && (forall j | 0 <= j < i :: !AboutToBump(s.workers[j], HourKey(m, hour)))
  }

  lemma CountOne(c: Config, s: State, n: nat, m: string, hour: int, ttl: int, i: nat)
    requires HalfCounted(s, n, m, hour, ttl, i) && i < n
    ensures HalfCounted(Do(c, s, Work(i, Card(m))), n, m, hour, ttl, i + 1)
  {
    OneWork(c, s, i, Card(m));
  }

  lemma {:induction false} AllCount(c: Config, s: State, base: seq<Label>, n: nat, m: string, hour: int, ttl: int,
                                    i: nat)
    returns (labels: seq<Label>)
    requires HalfCounted(Exec(c, s, base), n, m, hour, ttl, 0) && i <= n
    ensures HalfCounted(Exec(c, s, labels), n, m, hour, ttl, i)
    decreases i
  {
    if i == 0 {
      labels := base;
    } else {
      var before := AllCount(c, s, base, n, m, hour, ttl, i - 1);
      labels := OneMore(c, s, before, Work(i - 1, Card(m)));
      CountOne(c, Exec(c, s, before), n, m, hour, ttl, i - 1);
    }
  }

  /** With a limit of one event per hour, some interleaving brings the counter of an hour to limit + n - 1. */
  lemma HourlyBoundIsReached(c: Config, now: int, n: nat, m: string) returns (labels: seq<Label>, hour: int)
    requires n > 0 && HourLimit(c.maxPerHour) == 1
    ensures Counter(Exec(c, Start(now, n), labels).shared.store, HourKey(m, hour)) == HourLimit(c.maxPerHour) + n - 1
  {
    var waiting := AllWait(c, now, n, m, n);
    var base := OneMore(c, Start(now, n), waiting, Tick(DAY));
    TickStales(c, Exec(c, Start(now, n), waiting), m, 0, 0, 0);
    hour := Exec(c, Start(now, n), base).shared.store.now / HOUR;
    var read := AllHourRead(c, Start(now, n), base, n, m, hour, n);
    var ttl := RestOfHour(Exec(c, Start(now, n), read).shared.store.now);
    labels := AllCount(c, Start(now, n), read, n, m, hour, ttl, n);
  }
}
