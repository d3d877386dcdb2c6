/** The bots in the chat window of a room. */
module ChatWindow {
  import opened Keys
  import opened ExpiringStore
  import opened Options
  import opened Policy
  import opened Pipeline

  /** The bots of the window, at most `base` plus the bot messages pushed since `gated` and `ungated` were read. */
  predicate Within(r: Room, base: int, gated: nat, ungated: nat) {
    && gated <= r.gated && ungated <= r.ungated
    && Bots(Newest(r.list, WINDOW)) <= base + (r.gated - gated) + (r.ungated - ungated)
  }

  predicate RoomBounded(c: Config, r: Room) {
    r.last.Some? ==>
      var l := r.last.value;
      l.size <= READ_LIMIT && Within(r, Cap(l.size, c.maxRatio), l.gated, l.ungated)
  }

  /** A worker between its ratio check and its push. */
  predicate HasSight(w: Worker, m: string) {
    w.Busy? && w.event.matchId == m && (w.phase.Deliver? || w.phase.Push?) && w.phase.sight.Some?
  }

  /** Between its ratio check and its push a worker's own message still fits under the cap. */
  predicate SightHolds(c: Config, w: Worker, r: Room, m: string) {
    HasSight(w, m) ==>
      var s := w.phase.sight.value;
      s.size <= READ_LIMIT && s.bots + 1 <= Cap(s.size, c.maxRatio) && Within(r, s.bots, s.gated, s.ungated)
  }

  predicate ChatBounded(c: Config, s: State, m: string) {
    var r := RoomOf(s.shared, m);
    && RoomBounded(c, r)
    && (forall i | 0 <= i < |s.workers| :: SightHolds(c, s.workers[i], r, m))
  }

  /** What a step does to a room: nothing, a trim, or one more bot message, counted as such. */
  predicate Moves(r: Room, t: Room) {
    || t == r || t == Trimmed(r) || t == r.(list := []) || t == Pushed(r, false)
    || t == Pushed(r, true).(ungated := r.ungated + 1)
    || (t.Room? && t.(last := r.last) == Pushed(r, true).(gated := r.gated + 1))
  }

  /** Nothing older comes back into the window, and a new message adds at most itself. */
  lemma WithinStays(r: Room, t: Room, base: int, gated: nat, ungated: nat)
    requires Within(r, base, gated, ungated) && Moves(r, t)
    ensures Within(t, base, gated, ungated)
  {
    NewestOfTrimmed(r.list, WINDOW, WINDOW);
    PushedWindow(false, r.list, WINDOW);
    PushedWindow(true, r.list, WINDOW);
  }

  predicate RoomEffect(c: Config, sh: Shared, w: Worker, legacy: seq<bool>, t: Shared, v: Worker, m: string) {
    var r, q := RoomOf(sh, m), RoomOf(t, m);
    && Moves(r, q)
    && (q.last != r.last || q.gated != r.gated ==>
          HasSight(w, m) && w.phase.Push? && q == PushOwn(r, w.phase.sight))
    && (HasSight(v, m) && v.phase.Deliver? ==>
          q == r && v.phase.sight == Some(Look(r, legacy)) && Admits(c, r, legacy))
    && (HasSight(v, m) && v.phase.Push? ==> w.Busy? && v.event == w.event && w.phase == Deliver(v.phase.sight))
  }

  lemma RoomStep(c: Config, sh: Shared, w: Worker, x: Input, m: string)
    ensures var (t, v) := StepWorker(c, sh, w, x); RoomEffect(c, sh, w, x.legacy, t, v, m)
  {
    if w.Idle? {
      AcceptTouches(sh, x, TotalKey(m));
    } else if OnType(w) {
      TypeTouches(sh, w, TotalKey(m));
    } else if OnHour(w) {
      HourTouches(c, sh, w, TotalKey(m));
    } else if OnGate(w) {
      RoomGate(c, sh, w, x, m);
    } else {
      RoomRecord(c, sh, w, x, m);
    }
  }

  lemma RoomGate(c: Config, sh: Shared, w: Worker, x: Input, m: string)
    requires OnGate(w)
    ensures var (t, v) := StepGate(c, sh, w, x); RoomEffect(c, sh, w, x.legacy, t, v, m)
  {
  }

  lemma RoomRecord(c: Config, sh: Shared, w: Worker, x: Input, m: string)
    requires OnRecord(w)
    ensures var (t, v) := StepRecord(sh, w); RoomEffect(c, sh, w, x.legacy, t, v, m)
  {
  }

  lemma RoomFalter(c: Config, sh: Shared, w: Worker, m: string)
    requires MayFalter(w)
    ensures var (t, v) := FalterWorker(sh, w); RoomEffect(c, sh, w, [], t, v, m)
  {
  }

  /** A worker that passes the ratio check sees a window its message fits into, under the cap of what it read. */
  lemma LookIsCapped(c: Config, r: Room, legacy: seq<bool>)
    requires Admits(c, r, legacy)
    ensures Bots(Newest(r.list, WINDOW)) + 1 <= Cap(|ReadWindow(r, legacy)|, c.maxRatio)
  {
    var seen := ReadWindow(r, legacy);
    if r.list != [] {
      PassedIsCapped(Bots(seen), |seen| - Bots(seen), c.maxRatio);
      NewestOfTrimmed(r.list, WINDOW, READ_LIMIT);
    }
  }

  lemma ChatMoves(c: Config, s: State, i: nat, legacy: seq<bool>, t: Shared, v: Worker, m: string)
    requires ChatBounded(c, s, m) && i < |s.workers| && RoomEffect(c, s.shared, s.workers[i], legacy, t, v, m)
    ensures ChatBounded(c, State(t, s.workers[i := v]), m)
  {
    var w := s.workers[i];
    var r, q := RoomOf(s.shared, m), RoomOf(t, m);
    RoomMoves(c, r, q, w, m);
    OwnSight(c, r, q, w, v, legacy, m);
    var ws := s.workers[i := v];
    forall j | 0 <= j < |ws| ensures SightHolds(c, ws[j], q, m) {
      if j != i {
        SightMoves(c, s.workers[j], r, q, m);
      }
    }
  }

  lemma OwnSight(c: Config, r: Room, q: Room, w: Worker, v: Worker, legacy: seq<bool>, m: string)
    requires Moves(r, q) && SightHolds(c, w, r, m)
    requires HasSight(v, m) && v.phase.Deliver? ==>
               q == r && v.phase.sight == Some(Look(r, legacy)) && Admits(c, r, legacy)
    requires HasSight(v, m) && v.phase.Push? ==> w.Busy? && v.event == w.event && w.phase == Deliver(v.phase.sight)
    ensures SightHolds(c, v, q, m)
  {
    if HasSight(v, m) {
      if v.phase.Deliver? {
        LookIsCapped(c, r, legacy);
      } else {
        SightMoves(c, w, r, q, m);
      }
    }
  }

  lemma SightMoves(c: Config, w: Worker, r: Room, q: Room, m: string)
    requires SightHolds(c, w, r, m) && Moves(r, q)
    ensures SightHolds(c, w, q, m)
  {
    if HasSight(w, m) {
      var s := w.phase.sight.value;
      WithinStays(r, q, s.bots, s.gated, s.ungated);
    }
  }

  lemma RoomMoves(c: Config, r: Room, q: Room, w: Worker, m: string)
    requires RoomBounded(c, r) && Moves(r, q) && SightHolds(c, w, r, m)
    requires q.last != r.last ==> HasSight(w, m) && w.phase.Push? && q == PushOwn(r, w.phase.sight)
    ensures RoomBounded(c, q)
  {
    if q.last != r.last {
      PushedWindow(true, r.list, WINDOW);
    } else if r.last.Some? {
      var l := r.last.value;
      WithinStays(r, q, Cap(l.size, c.maxRatio), l.gated, l.ungated);
    }
  }

  lemma ChatEnvironment(c: Config, s: State, l: Label, m: string)
    requires ChatBounded(c, s, m) && !l.Work? && !l.GiveUp? && !l.Falter?
    ensures ChatBounded(c, Do(c, s, l), m)
  {
    var r, q := RoomOf(s.shared, m), RoomOf(Environment(s.shared, l), m);
    assert Moves(r, q) && q.last == r.last;
    RoomMoves(c, r, q, Idle, m);
    forall j | 0 <= j < |s.workers| ensures SightHolds(c, s.workers[j], q, m) {
      SightMoves(c, s.workers[j], r, q, m);
    }
  }

  /**
   * In every interleaving: right after a gated push, and ever after, the window holds at most
   * `max(4, floor((size + 1) * ratio))` bot messages plus the other bot messages pushed since its ratio check, where
   * `size` is the number of messages that check read.
   */
  lemma {:induction false} WindowBound(c: Config, now: int, n: nat, labels: seq<Label>, m: string)
    ensures ChatBounded(c, Exec(c, Start(now, n), labels), m)
  {
    if labels == [] {
      assert Newest([], WINDOW) == [];
    } else {
      var s, l := Exec(c, Start(now, n), labels[..|labels| - 1]), labels[|labels| - 1];
      WindowBound(c, now, n, labels[..|labels| - 1], m);
      match l {
        case Work(i, x) =>
          if i < |s.workers| {
            RoomStep(c, s.shared, s.workers[i], x, m);
            var (t, v) := StepWorker(c, s.shared, s.workers[i], x);
            ChatMoves(c, s, i, x.legacy, t, v, m);
          }
        case GiveUp(_) =>
        case Falter(i) =>
          if i < |s.workers| && MayFalter(s.workers[i]) {
            RoomFalter(c, s.shared, s.workers[i], m);
            var (t, v) := FalterWorker(s.shared, s.workers[i]);
            ChatMoves(c, s, i, [], t, v, m);
          }
        case _ => ChatEnvironment(c, s, l, m);
      }
    }
  }

  /** With one worker no other worker's message comes between a ratio check and the push it admits. */
  predicate Single(s: State, m: string) {
    var r := RoomOf(s.shared, m);
    && |s.workers| == 1
    && (r.last.Some? ==> r.last.value.gated == r.gated)
    && (HasSight(s.workers[0], m) ==> s.workers[0].phase.sight.value.gated == r.gated)
  }

  lemma {:induction false} SingleRun(c: Config, now: int, labels: seq<Label>, m: string)
    ensures Single(Exec(c, Start(now, 1), labels), m)
  {
    if labels != [] {
      var s, l := Exec(c, Start(now, 1), labels[..|labels| - 1]), labels[|labels| - 1];
      SingleRun(c, now, labels[..|labels| - 1], m);
      match l {
        case Work(i, x) =>
          if i == 0 {
            RoomStep(c, s.shared, s.workers[0], x, m);
            var (t, v) := StepWorker(c, s.shared, s.workers[0], x);
            SingleMoves(c, s, x.legacy, t, v, m);
          }
        case GiveUp(_) =>
        case Falter(i) =>
          if i == 0 && MayFalter(s.workers[0]) {
            RoomFalter(c, s.shared, s.workers[0], m);
            var (t, v) := FalterWorker(s.shared, s.workers[0]);
            SingleMoves(c, s, [], t, v, m);
          }
        case _ => SingleEnvironment(s, l, m);
      }
    }
  }

  lemma SingleMoves(c: Config, s: State, legacy: seq<bool>, t: Shared, v: Worker, m: string)
    requires Single(s, m) && RoomEffect(c, s.shared, s.workers[0], legacy, t, v, m)
    ensures Single(State(t, s.workers[0 := v]), m)
  {
  }

  lemma SingleEnvironment(s: State, l: Label, m: string)
    requires Single(s, m) && !l.Work? && !l.GiveUp? && !l.Falter?
    ensures Single(s.(shared := Environment(s.shared, l)), m)
  {
  }

  /** The bot messages of the window, less those pushed by others since the last gated one was checked. */
  function OwnBots(r: Room): int
    requires r.last.Some?
  {
    Bots(Newest(r.list, WINDOW)) - (r.ungated - r.last.value.ungated)
  }

  /** When the last check read no more than the 50 messages that are kept, the cap is the one of the window. */
  lemma FiftyReadWindow(c: Config, now: int, labels: seq<Label>, m: string)
    ensures var r := RoomOf(Exec(c, Start(now, 1), labels).shared, m);
      r.last.Some? && r.last.value.size <= 50 ==> OwnBots(r) <= Cap(50, c.maxRatio)
  {
    SingleWorkerWindow(c, now, labels, m);
    var r := RoomOf(Exec(c, Start(now, 1), labels).shared, m);
    if r.last.Some? && r.last.value.size <= WINDOW {
      CapGrows(r.last.value.size, WINDOW, c.maxRatio);
    }
  }

  /** A single worker: only messages of other bots pushed since its last ratio check can exceed the cap. */
  lemma SingleWorkerWindow(c: Config, now: int, labels: seq<Label>, m: string)
    ensures var r := RoomOf(Exec(c, Start(now, 1), labels).shared, m);
      r.last.Some? ==> OwnBots(r) <= Cap(r.last.value.size, c.maxRatio)
  {
    SingleRun(c, now, labels, m);
    WindowBound(c, now, 1, labels, m);
  }
}
