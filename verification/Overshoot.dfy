/** The overshoot of the event-type counter is not only bounded: some interleaving reaches the bound. */
module Overshoot {
  import opened Keys
  import opened ExpiringStore
  import opened Options
  import opened RateLimits
  import opened Events
  import opened Policy
  import opened Pipeline

  /** Red cards of one match, told apart by their added time. */
  function RedCard(m: string, i: nat): MatchEvent {
    MatchEvent(m, "LEAGUE", "RED_CARD", 0, 90, i, 0, 0, "player", "", "", 0, "", "", "", 0)
  }

  /** A red card that is published when it gets that far. */
  function Card(m: string): Input {
    Input(RedCard(m, 0), 0.0, false, [], Outcome.Publish)
  }

  function Turn(m: string, i: nat): Label {
    Work(i, Input(RedCard(m, i), 0.0, false, [], Abandon))
  }

  lemma ExecOneMore(c: Config, s: State, labels: seq<Label>, l: Label)
    ensures Exec(c, s, labels + [l]) == Do(c, Exec(c, s, labels), l)
  {
  }

  lemma OneMore(c: Config, s: State, before: seq<Label>, l: Label) returns (labels: seq<Label>)
    ensures Exec(c, s, labels) == Do(c, Exec(c, s, before), l)
  {
    labels := before + [l];
    ExecOneMore(c, s, before, l);
  }

  /** The first `k` workers are past the read, and only their dedup keys are in the store. */
  predicate AllRead(s: State, m: string, n: nat, k: nat) {
    && |s.workers| == n && k <= n
    && (forall i | 0 <= i < n ::
          if i < k then s.workers[i].Busy? && s.workers[i].event == RedCard(m, i) && s.workers[i].phase == TypeIncr
          else s.workers[i].Idle?)
    && (forall key | key in s.shared.store.entries :: key.DedupKey? && key.addTime < k)
  }

  /** The same, with the next red card accepted. */
  predicate OneAccepted(s: State, m: string, n: nat, k: nat) {
    && |s.workers| == n && k < n
    && (forall i | 0 <= i < n && i != k ::
          if i < k then s.workers[i].Busy? && s.workers[i].event == RedCard(m, i) && s.workers[i].phase == TypeIncr
          else s.workers[i].Idle?)
    && s.workers[k].Busy? && s.workers[k].event == RedCard(m, k) && s.workers[k].phase == TypeRead
    && (forall key | key in s.shared.store.entries :: key.DedupKey? && key.addTime < k + 1)
  }

  lemma CardIsAdmissible(m: string, i: nat)
    ensures Admissible(RedCard(m, i), 0.0, false)
  {
  }

  lemma AcceptStep(c: Config, s: State, m: string, n: nat, k: nat)
    requires AllRead(s, m, n, k) && k < n
    ensures OneAccepted(Do(c, s, Turn(m, k)), m, n, k)
  {
    CardIsAdmissible(m, k);
  }

  lemma ReadStep(c: Config, s: State, m: string, n: nat, k: nat)
    requires OneAccepted(s, m, n, k)
    ensures AllRead(Do(c, s, Turn(m, k)), m, n, k + 1)
  {
    var w := s.workers[k];
    var x := Input(RedCard(m, k), 0.0, false, [], Abandon);
    assert StepWorker(c, s.shared, w, x) == (s.shared, w.(phase := TypeIncr));
  }

  /** The first `k` workers accept a red card each and read the counter. */
  lemma {:induction false} ReadRun(c: Config, s: State, m: string, n: nat, k: nat) returns (labels: seq<Label>)
    requires k <= n && AllRead(s, m, n, 0)
    ensures AllRead(Exec(c, s, labels), m, n, k)
    decreases k
  {
    if k == 0 {
      labels := [];
    } else {
      var before := ReadRun(c, s, m, n, k - 1);
      var accepted := OneMore(c, s, before, Turn(m, k - 1));
      labels := OneMore(c, s, accepted, Turn(m, k - 1));
      AcceptStep(c, Exec(c, s, before), m, n, k - 1);
      ReadStep(c, Exec(c, s, accepted), m, n, k - 1);
    }
  }

  /** The counter stands at `k`, and the other workers are about to increment it. */
  predicate Bumped(s: State, m: string, n: nat, k: nat) {
    && |s.workers| == n && k <= n
    && (forall i | k <= i < n ::
          s.workers[i].Busy? && s.workers[i].event == RedCard(m, i) && s.workers[i].phase == TypeIncr)
    && var key := TypeKey(m, "RED_CARD");
       if k == 0 then key !in s.shared.store.entries
       else key in s.shared.store.entries && s.shared.store.entries[key] == Entry(Number(k), None)
  }

  lemma BumpStep(c: Config, s: State, m: string, n: nat, k: nat)
    requires Bumped(s, m, n, k) && k < n
    ensures Bumped(Do(c, s, Turn(m, k)), m, n, k + 1)
  {
  }

  lemma NoneBumped(s: State, m: string, n: nat)
    requires AllRead(s, m, n, n)
    ensures Bumped(s, m, n, 0)
  {
  }

  /** Then the first `k` workers increment it. */
  lemma {:induction false} BumpRun(c: Config, s: State, read: seq<Label>, m: string, n: nat, k: nat)
    returns (labels: seq<Label>)
    requires k <= n && AllRead(Exec(c, s, read), m, n, n)
    ensures Bumped(Exec(c, s, labels), m, n, k)
    decreases k
  {
    if k == 0 {
      labels := read;
      NoneBumped(Exec(c, s, read), m, n);
    } else {
      var before := BumpRun(c, s, read, m, n, k - 1);
      labels := OneMore(c, s, before, Turn(m, k - 1));
      BumpStep(c, Exec(c, s, before), m, n, k - 1);
    }
  }

  /** With any number of workers, red cards of one match, whose limit is one, can be counted once per worker. */
  lemma OvershootIsReached(c: Config, now: int, m: string, n: nat) returns (labels: seq<Label>)
    requires n > 0
    ensures var k := TypeKey(m, "RED_CARD");
      Counter(Exec(c, Start(now, n), labels).shared.store, k) == TypeLimit("RED_CARD") + n - 1
  {
    var read := ReadRun(c, Start(now, n), m, n, n);
    labels := BumpRun(c, Start(now, n), read, m, n, n);
  }
}
