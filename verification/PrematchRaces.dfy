/** Bursts that overlap polls: the poller starts a handler and does not wait for it. */
module PrematchRaces {
  import opened Keys
  import opened ExpiringStore
  import opened Options
  import opened ContextStore
  import opened Prematch

  /** A handler run: its rounds, the messages it published and those kept in the chat, and whether it has ended. */
  datatype Handler = Handler(rounds: nat, landed: nat, kept: nat, ended: bool)

  /** `first` is how many handlers had begun when one that kept a message was first marked. */
  datatype State = State(store: Store, handlers: seq<Handler>, first: Option<nat>)

  /** A poll takes one instant; the rounds of handlers, other messages and time come between polls in any order. */
  datatype Label =
    | Tick(d: nat)
    | Message(bot: bool, pushed: nat)
    | PollOnce(found: bool, f: Faults)
    | OneRound(i: nat, a: Attempt)
    | End(i: nat, mark: Fault)

  function Do(s: State, m: string, matchTime: int, l: Label): State {
    match l
    case Tick(d) => s.(store := Advance(s.store, d))
    case Message(bot, pushed) => s.(store := PushUpTo(s.store, RoomId(m), bot, pushed))
    case PollOnce(found, f) =>
      if !Starts(s.store, m, matchTime, f) || !found then s
      else s.(handlers := s.handlers + [Handler(0, 0, 0, false)])
    case OneRound(i, a) =>
      if i >= |s.handlers| || s.handlers[i].ended || s.handlers[i].rounds >= BURST
         || MinutesLeft(matchTime, s.store.now) < 0 then s
      else s.(store := Try(s.store, m, a), handlers := s.handlers[i := Sent(s.handlers[i], a)])
    case End(i, mark) =>
      if i >= |s.handlers| || s.handlers[i].ended then s
      else
        var t := s.(handlers := s.handlers[i := s.handlers[i].(ended := true)]);
        if mark.Refused? then t
        else t.(store := MarkSent(s.store, m),
                first := if s.first.None? && s.handlers[i].kept > 0 then Some(|s.handlers|) else s.first)
  }

  function Sent(h: Handler, a: Attempt): Handler {
    h.(rounds := h.rounds + 1, landed := h.landed + if a.fate.Published? then 1 else 0,
       kept := h.kept + if InWhole(a) then 1 else 0)
  }

  function Exec(now: int, m: string, matchTime: int, labels: seq<Label>): State {
    if labels == [] then State(Store(now, map[]), [], None)
    else Do(Exec(now, m, matchTime, labels[..|labels| - 1]), m, matchTime, labels[|labels| - 1])
  }

  /** The chat of a kept message outlives the prematch phase, and so does the marker from the first on. */
  predicate Inv(s: State, m: string, matchTime: int) {
    var kickOff := matchTime * SECOND;
    && RoomTyped(s.store, m)
    && (s.handlers != [] ==> kickOff - 30 * MINUTE <= s.store.now)
    && (forall i | 0 <= i < |s.handlers| :: s.handlers[i].landed <= s.handlers[i].rounds <= BURST)
    && (forall i | 0 <= i < |s.handlers| && s.handlers[i].kept > 0 :: LastsUntil(s.store, ChatKey(RoomId(m)), kickOff))
    && (s.first.Some? ==> Sealed(s.store, m, matchTime) && |s.handlers| == s.first.value)
  }

  lemma InvMessage(s: State, m: string, matchTime: int, bot: bool, pushed: nat)
    requires Inv(s, m, matchTime)
    ensures Inv(s.(store := PushUpTo(s.store, RoomId(m), bot, pushed)), m, matchTime)
  {
    var kickOff := matchTime * SECOND;
    PartlyPushed(s.store, RoomId(m), bot, pushed, if kickOff <= s.store.now + ROOM_TTL then kickOff else s.store.now);
    PushLeaves(s.store, RoomId(m), bot, pushed, PrematchKey(m));
  }

  lemma InvPoll(s: State, m: string, matchTime: int, found: bool, f: Faults)
    requires Inv(s, m, matchTime)
    ensures Inv(Do(s, m, matchTime, PollOnce(found, f)), m, matchTime)
  {
    if s.first.Some? {
      SealedStartsNone(s.store, m, matchTime, f);
    }
  }

  lemma InvRound(s: State, m: string, matchTime: int, i: nat, a: Attempt)
    requires Inv(s, m, matchTime)
    ensures Inv(Do(s, m, matchTime, OneRound(i, a)), m, matchTime)
  {
    if i < |s.handlers| && a.fate.Published? {
      var u := Advance(s.store, a.work);
      PartlyPushed(u, RoomId(m), true, a.fate.pushed, matchTime * SECOND);
      PushLeaves(u, RoomId(m), true, a.fate.pushed, PrematchKey(m));
    }
  }

  lemma InvEnd(s: State, m: string, matchTime: int, i: nat, mark: Fault)
    requires Inv(s, m, matchTime)
    ensures Inv(Do(s, m, matchTime, End(i, mark)), m, matchTime)
  {
  }

  lemma {:induction false} InvRun(now: int, m: string, matchTime: int, labels: seq<Label>)
    ensures Inv(Exec(now, m, matchTime, labels), m, matchTime)
  {
    if labels != [] {
      var s := Exec(now, m, matchTime, labels[..|labels| - 1]);
      InvRun(now, m, matchTime, labels[..|labels| - 1]);
      match labels[|labels| - 1] {
        case Tick(_) =>
        case Message(bot, pushed) => InvMessage(s, m, matchTime, bot, pushed);
        case PollOnce(found, f) => InvPoll(s, m, matchTime, found, f);
        case OneRound(i, a) => InvRound(s, m, matchTime, i, a);
        case End(i, mark) => InvEnd(s, m, matchTime, i, mark);
      }
    }
  }

  function Landed(hs: seq<Handler>): nat {
    if hs == [] then 0 else Landed(hs[..|hs| - 1]) + hs[|hs| - 1].landed
  }

  lemma {:induction false} LandedAtMost(hs: seq<Handler>)
    requires forall i | 0 <= i < |hs| :: hs[i].landed <= BURST
    ensures Landed(hs) <= BURST * |hs|
  {
    if hs != [] {
      LandedAtMost(hs[..|hs| - 1]);
    }
  }

  /**
   * In every interleaving, whatever commands fail, no burst begins after the first marker behind a burst that kept a
   * message, so the messages are at most five for each burst begun before it.
   */
  lemma NoBurstAfterFirst(now: int, m: string, matchTime: int, labels: seq<Label>)
    ensures var s := Exec(now, m, matchTime, labels);
      s.first.Some? ==> |s.handlers| == s.first.value && Landed(s.handlers) <= BURST * s.first.value
  {
    InvRun(now, m, matchTime, labels);
    LandedAtMost(Exec(now, m, matchTime, labels).handlers);
  }

  // ---------- a poll that waits for its handler ----------

  lemma ExecOneMore(now: int, m: string, matchTime: int, labels: seq<Label>, l: Label)
    ensures Exec(now, m, matchTime, labels + [l]) == Do(Exec(now, m, matchTime, labels), m, matchTime, l)
  {
  }

  /** The last handler has run `n` rounds of a burst that began with this store, and nobody else has done anything. */
  predicate Bursting(s: State, t: State, m: string, matchTime: int, tries: nat -> Attempt, n: nat) {
    var p := Rounds(s.store, m, matchTime, tries, n);
    && t.store == p.store && t.first == s.first && |t.handlers| == |s.handlers| + 1
    && t.handlers[..|s.handlers|] == s.handlers
    && var h := t.handlers[|s.handlers|];
       h.landed == p.landed && h.kept == p.kept && !h.ended && h.rounds <= n && (!p.stopped ==> h.rounds == n)
  }

  lemma OneMoreRound(s: State, t: State, m: string, matchTime: int, tries: nat -> Attempt, n: nat)
    requires n < BURST && Bursting(s, t, m, matchTime, tries, n)
    ensures var p := Rounds(s.store, m, matchTime, tries, n);
      if p.stopped || MinutesLeft(matchTime, p.store.now) < 0 then Bursting(s, t, m, matchTime, tries, n + 1)
      else
        var u := Do(t, m, matchTime, OneRound(|s.handlers|, tries(n)));
        Bursting(s, Do(u, m, matchTime, Tick(Pause(tries(n), n))), m, matchTime, tries, n + 1)
  {
  }

  lemma {:induction false} BurstRun(now: int, m: string, matchTime: int, before: seq<Label>, s: State,
                                    tries: nat -> Attempt, n: nat) returns (labels: seq<Label>)
    requires n <= BURST && Bursting(s, Exec(now, m, matchTime, before), m, matchTime, tries, 0)
    ensures Bursting(s, Exec(now, m, matchTime, labels), m, matchTime, tries, n)
  {
    if n == 0 {
      labels := before;
    } else {
      labels := BurstRun(now, m, matchTime, before, s, tries, n - 1);
      OneMoreRound(s, Exec(now, m, matchTime, labels), m, matchTime, tries, n - 1);
      var p := Rounds(s.store, m, matchTime, tries, n - 1);
      if !p.stopped && MinutesLeft(matchTime, p.store.now) >= 0 {
        var round := labels + [OneRound(|s.handlers|, tries(n - 1))];
        ExecOneMore(now, m, matchTime, labels, OneRound(|s.handlers|, tries(n - 1)));
        ExecOneMore(now, m, matchTime, round, Tick(Pause(tries(n - 1), n - 1)));
        labels := round + [Tick(Pause(tries(n - 1), n - 1))];
      }
    }
  }

  /** A poll that waits for its handler is one interleaving: the one in which nothing else happens. */
  lemma PollIsAnInterleaving(now: int, m: string, matchTime: int, before: seq<Label>, found: bool,
                             tries: nat -> Attempt, f: Faults) returns (labels: seq<Label>)
    ensures var s, t := Exec(now, m, matchTime, before), Exec(now, m, matchTime, labels);
      var (u, burst) := Poll(s.store, m, matchTime, found, tries, f);
      && t.store == u
      && if burst.None? then t == s
         else
           var b := burst.value;
           && (exists rounds :: t.handlers == s.handlers + [Handler(rounds, b.landed, b.kept, true)])
           && t.first == if b.marked && b.kept > 0 && s.first.None? then Some(|t.handlers|) else s.first
  {
    var s := Exec(now, m, matchTime, before);
    if !Starts(s.store, m, matchTime, f) || !found {
      labels := before;
    } else {
      var polled := before + [PollOnce(found, f)];
      ExecOneMore(now, m, matchTime, before, PollOnce(found, f));
      var sent := BurstRun(now, m, matchTime, polled, s, tries, BURST);
      labels := sent + [End(|s.handlers|, f.mark)];
      ExecOneMore(now, m, matchTime, sent, End(|s.handlers|, f.mark));
      var h := Exec(now, m, matchTime, sent).handlers[|s.handlers|];
      assert Exec(now, m, matchTime, labels).handlers == s.handlers + [Handler(h.rounds, h.landed, h.kept, true)];
    }
  }

  // ---------- the bound is reached ----------

  /** The first `i` handlers have sent all their messages, the next one `k`, and none has ended. */
  predicate Sending(s: State, now: int, m: string, n: nat, i: nat, k: nat) {
    && |s.handlers| == n && i <= n && s.store.now == now && s.first.None? && !Live(s.store, PrematchKey(m))
    && forall j | 0 <= j < n ::
         var r := if j < i then BURST else if j == i then k else 0;
         s.handlers[j] == Handler(r, r, r, false)
  }

  lemma {:induction false} ManyPolls(now: int, m: string, matchTime: int, n: nat) returns (labels: seq<Label>)
    requires ComputePhase(matchTime, now) == PrematchPhase
    ensures Sending(Exec(now, m, matchTime, labels), now, m, n, 0, 0)
  {
    if n == 0 {
      labels := [];
    } else {
      var before := ManyPolls(now, m, matchTime, n - 1);
      labels := before + [PollOnce(true, NO_FAULTS)];
      ExecOneMore(now, m, matchTime, before, PollOnce(true, NO_FAULTS));
    }
  }

  lemma SendOne(s: State, now: int, m: string, matchTime: int, n: nat, i: nat, k: nat)
    requires Sending(s, now, m, n, i, k) && i < n && k < BURST && ComputePhase(matchTime, now) == PrematchPhase
    ensures Sending(Do(s, m, matchTime, OneRound(i, GOOD)), now, m, n, i, k + 1)
  {
    PushLeaves(Advance(s.store, 0), RoomId(m), true, COMMANDS, PrematchKey(m));
    PushKeepsTime(s.store, RoomId(m), true, COMMANDS);
  }

  lemma {:induction false} ManyRounds(now: int, m: string, matchTime: int, n: nat, i: nat, k: nat)
    returns (labels: seq<Label>)
    requires ComputePhase(matchTime, now) == PrematchPhase && i < n && k <= BURST
    ensures Sending(Exec(now, m, matchTime, labels), now, m, n, i, k)
    decreases i, k
  {
    if k > 0 {
      var before := ManyRounds(now, m, matchTime, n, i, k - 1);
      labels := before + [OneRound(i, GOOD)];
      ExecOneMore(now, m, matchTime, before, OneRound(i, GOOD));
      SendOne(Exec(now, m, matchTime, before), now, m, matchTime, n, i, k - 1);
    } else if i > 0 {
      labels := ManyRounds(now, m, matchTime, n, i - 1, BURST);
    } else {
      labels := ManyPolls(now, m, matchTime, n);
    }
  }

  lemma {:induction false} AllLanded(hs: seq<Handler>)
    requires forall i | 0 <= i < |hs| :: hs[i].landed == BURST
    ensures Landed(hs) == BURST * |hs|
  {
    if hs != [] {
      AllLanded(hs[..|hs| - 1]);
    }
  }

  /** When polls come faster than bursts end, every one of them may land five messages. */
  lemma OverlapsLand(now: int, m: string, matchTime: int, n: nat) returns (labels: seq<Label>)
    requires ComputePhase(matchTime, now) == PrematchPhase && n > 0
    ensures var s := Exec(now, m, matchTime, labels); s.first == Some(n) && Landed(s.handlers) == BURST * n
  {
    var before := ManyRounds(now, m, matchTime, n, n - 1, BURST);
    labels := before + [End(0, Fine)];
    ExecOneMore(now, m, matchTime, before, End(0, Fine));
    AllLanded(Exec(now, m, matchTime, labels).handlers);
  }
}
