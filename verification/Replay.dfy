/** What is delivered again within a day is not published again. */
module Replay {
  import opened Keys
  import opened ExpiringStore
  import opened Options
  import opened Events
  import opened Pipeline

  predicate Accepted(sh: Shared, ticket: nat, e: MatchEvent) {
    ticket < |sh.accepted| && sh.accepted[ticket].key == DedupKeyOf(e)
  }

  predicate Leases(sh: Shared) {
    && Held(sh.store, sh.accepted) && Apart(sh.accepted)
    && (forall i | 0 <= i < |sh.accepted| :: sh.accepted[i].key.DedupKey? && sh.accepted[i].ttl == DAY)
  }

  /** Every publication and every busy worker holds the acceptance of its event. */
  predicate Entitled(sh: Shared, ws: seq<Worker>) {
    && AllAccepted(sh, sh.published)
    && (forall i | 0 <= i < |ws| && ws[i].Busy? :: Accepted(sh, ws[i].ticket, ws[i].event))
  }

  /** Every acceptance is acted on by at most one worker and leads to at most one publication. */
  predicate Unshared(ps: seq<Publication>, ws: seq<Worker>) {
    && (forall i, j | 0 <= i < j < |ps| :: ps[i].ticket != ps[j].ticket)
    && (forall i, j | 0 <= i < |ws| && Unspent(ws[i]) && 0 <= j < |ps| :: ws[i].ticket != ps[j].ticket)
    && (forall i, j | 0 <= i < j < |ws| && Unspent(ws[i]) && Unspent(ws[j]) :: ws[i].ticket != ws[j].ticket)
  }

  predicate Tickets(s: State) {
    Entitled(s.shared, s.workers) && Unshared(s.shared.published, s.workers)
  }

  /** Only an acceptance writes dedup keys. */
  lemma DedupKeysStay(c: Config, sh: Shared, w: Worker, x: Input, k: Key)
    requires w.Busy? && k.DedupKey?
    ensures var t := StepWorker(c, sh, w, x).0; t.accepted == sh.accepted && SameEntry(sh.store, t.store, k)
  {
    if OnType(w) {
      TypeTouches(sh, w, k);
    } else if OnHour(w) {
      HourTouches(c, sh, w, k);
    } else if OnGate(w) {
      GateTouches(c, sh, w, x);
    } else {
      RecordTouches(sh, w, k);
    }
  }

  lemma LeasesStep(c: Config, sh: Shared, w: Worker, x: Input)
    requires Leases(sh)
    ensures Leases(StepWorker(c, sh, w, x).0)
  {
    if w.Idle? {
      AcceptTouches(sh, x, TotalKey(""));
      if Accept(sh, x).1.Busy? {
        TakeLease(sh.store, sh.accepted, DedupKeyOf(x.event), Number(1), DAY);
      }
    } else {
      LeasesKept(c, sh, w, x);
    }
  }

  lemma LeasesKept(c: Config, sh: Shared, w: Worker, x: Input)
    requires Leases(sh) && w.Busy?
    ensures Leases(StepWorker(c, sh, w, x).0)
  {
    var t := StepWorker(c, sh, w, x).0;
    forall i | 0 <= i < |sh.accepted| ensures SameEntry(sh.store, t.store, sh.accepted[i].key) {
      DedupKeysStay(c, sh, w, x, sh.accepted[i].key);
    }
    DedupKeysStay(c, sh, w, x, DedupKey("", 0, 0, ""));
    OtherKeys(sh.store, t.store, sh.accepted);
  }

  lemma LeasesEnvironment(sh: Shared, l: Label)
    requires Leases(sh)
    ensures Leases(Environment(sh, l))
  {
  }

  /** What a step does to the tickets in play. */
  predicate TicketMove(sh: Shared, w: Worker, t: Shared, v: Worker) {
    && sh.accepted <= t.accepted
    && (v.Busy? ==> if w.Idle? then v.ticket == |sh.accepted| && Accepted(t, v.ticket, v.event)
                    else v.ticket == w.ticket && v.event == w.event && (Unspent(v) ==> Unspent(w)))
    && (t.published == sh.published
        || (Unspent(w) && v.Busy? && !Unspent(v) && Appended(sh.published, t.published, w)))
  }

  /** One more publication, by this worker. */
  predicate Appended(ps: seq<Publication>, qs: seq<Publication>, w: Worker)
    requires w.Busy?
  {
    && |qs| == |ps| + 1 && qs[..|ps|] == ps
    && qs[|ps|].event == w.event && qs[|ps|].ticket == w.ticket
  }

  lemma TicketStep(c: Config, sh: Shared, w: Worker, x: Input)
    ensures var (t, v) := StepWorker(c, sh, w, x); TicketMove(sh, w, t, v)
  {
    if w.Idle? {
      AcceptTouches(sh, x, TotalKey(""));
    } else if OnType(w) {
      TypeTouches(sh, w, TotalKey(""));
    } else if OnHour(w) {
      HourTouches(c, sh, w, TotalKey(""));
    } else if OnGate(w) {
      TicketGate(c, sh, w, x);
    } else {
      RecordTouches(sh, w, DedupKey("", 0, 0, ""));
    }
  }

  lemma TicketGate(c: Config, sh: Shared, w: Worker, x: Input)
    requires OnGate(w)
    ensures var (t, v) := StepGate(c, sh, w, x); TicketMove(sh, w, t, v)
  {
  }

  lemma TicketFalter(sh: Shared, w: Worker)
    requires MayFalter(w)
    ensures var (t, v) := FalterWorker(sh, w);
      TicketMove(sh, w, t, v) && t.store == sh.store && t.accepted == sh.accepted
  {
  }

  lemma TicketsMove(s: State, i: nat, t: Shared, v: Worker)
    requires Tickets(s) && i < |s.workers| && TicketMove(s.shared, s.workers[i], t, v)
    ensures Tickets(State(t, s.workers[i := v]))
  {
    var ps := s.shared.published;
    EntitledMove(s, i, t, v);
    if Unspent(v) && s.workers[i].Idle? {
      NewIsFresh(s, i, t, v);
    }
    if t.published != ps {
      UnsharedPublish(ps, t.published, s.workers, i, v);
    } else {
      UnsharedMove(ps, s.workers, i, v);
    }
  }

  lemma EntitledMove(s: State, i: nat, t: Shared, v: Worker)
    requires Entitled(s.shared, s.workers) && i < |s.workers| && TicketMove(s.shared, s.workers[i], t, v)
    ensures Entitled(t, s.workers[i := v])
  {
    EntitledPublications(s.shared, s.workers[i], t, v);
    EntitledWorkers(s.shared, s.workers, i, t, v);
  }

  /** A new acceptance has no publication and no other worker yet. */
  lemma NewIsFresh(s: State, i: nat, t: Shared, v: Worker)
    requires Entitled(s.shared, s.workers) && i < |s.workers| && TicketMove(s.shared, s.workers[i], t, v)
    requires Unspent(v) && s.workers[i].Idle?
    ensures Fresh(s.shared.published, s.workers, v.ticket)
  {
  }

  predicate AllAccepted(sh: Shared, ps: seq<Publication>) {
    forall i | 0 <= i < |ps| :: Accepted(sh, ps[i].ticket, ps[i].event)
  }

  /** Earlier publications keep their acceptances. */
  lemma AllStay(sh: Shared, t: Shared, ps: seq<Publication>)
    requires AllAccepted(sh, ps) && sh.accepted <= t.accepted
    ensures AllAccepted(t, ps)
  {
  }

  /** A new one has that of its worker. */
  lemma OneAppended(t: Shared, ps: seq<Publication>, qs: seq<Publication>, w: Worker)
    requires AllAccepted(t, ps) && w.Busy? && Appended(ps, qs, w) && Accepted(t, w.ticket, w.event)
    ensures AllAccepted(t, qs)
  {
    forall j | 0 <= j < |qs| ensures Accepted(t, qs[j].ticket, qs[j].event) {
      if j < |ps| {
        assert qs[..|ps|][j] == ps[j];
      }
    }
  }

  lemma EntitledPublications(sh: Shared, w: Worker, t: Shared, v: Worker)
    requires AllAccepted(sh, sh.published) && TicketMove(sh, w, t, v) && (w.Busy? ==> Accepted(sh, w.ticket, w.event))
    ensures AllAccepted(t, t.published)
  {
    AllStay(sh, t, sh.published);
    if t.published != sh.published {
      OneAppended(t, sh.published, t.published, w);
    }
  }

  lemma EntitledWorkers(sh: Shared, ws: seq<Worker>, i: nat, t: Shared, v: Worker)
    requires Entitled(sh, ws) && i < |ws| && TicketMove(sh, ws[i], t, v)
    ensures var vs := ws[i := v]; forall j | 0 <= j < |vs| && vs[j].Busy? :: Accepted(t, vs[j].ticket, vs[j].event)
  {
  }

  lemma UnsharedPublish(ps: seq<Publication>, qs: seq<Publication>, ws: seq<Worker>, i: nat, v: Worker)
    requires Unshared(ps, ws) && i < |ws| && Unspent(ws[i]) && !Unspent(v) && Appended(ps, qs, ws[i])
    ensures Unshared(qs, ws[i := v])
  {
    assert forall j | 0 <= j < |ps| :: qs[j] == ps[j];
  }

  lemma UnsharedMove(ps: seq<Publication>, ws: seq<Worker>, i: nat, v: Worker)
    requires Unshared(ps, ws) && i < |ws|
    requires Unspent(v) ==> (Unspent(ws[i]) && v.ticket == ws[i].ticket) || Fresh(ps, ws, v.ticket)
    ensures Unshared(ps, ws[i := v])
  {
  }

  predicate Fresh(ps: seq<Publication>, ws: seq<Worker>, ticket: nat) {
    && (forall j | 0 <= j < |ps| :: ps[j].ticket != ticket)
    && (forall j | 0 <= j < |ws| && ws[j].Busy? :: ws[j].ticket != ticket)
  }

  lemma TicketsDo(c: Config, s: State, l: Label)
    requires Leases(s.shared) && Tickets(s)
    ensures Leases(Do(c, s, l).shared) && Tickets(Do(c, s, l))
  {
    match l {
      case Work(i, x) =>
        if i < |s.workers| {
          LeasesStep(c, s.shared, s.workers[i], x);
          TicketStep(c, s.shared, s.workers[i], x);
          var (t, v) := StepWorker(c, s.shared, s.workers[i], x);
          TicketsMove(s, i, t, v);
        }
      case GiveUp(i) =>
        if i < |s.workers| {
          TicketsMove(s, i, s.shared, Idle);
        }
      case Falter(i) =>
        if i < |s.workers| && MayFalter(s.workers[i]) {
          TicketFalter(s.shared, s.workers[i]);
          var (t, v) := FalterWorker(s.shared, s.workers[i]);
          TicketsMove(s, i, t, v);
        }
      case _ =>
        LeasesEnvironment(s.shared, l);
        TicketsEnvironment(s, l);
    }
  }

  lemma TicketsEnvironment(s: State, l: Label)
    requires Tickets(s)
    ensures Tickets(s.(shared := Environment(s.shared, l)))
  {
    var t := Environment(s.shared, l);
    assert t.published == s.shared.published && t.accepted == s.shared.accepted;
  }

  /** The state in which every acceptance is spent at most once. */
  lemma {:induction false} TicketsRun(c: Config, now: int, n: nat, labels: seq<Label>)
    ensures var s := Exec(c, Start(now, n), labels); Leases(s.shared) && Tickets(s)
  {
    if labels != [] {
      TicketsRun(c, now, n, labels[..|labels| - 1]);
      TicketsDo(c, Exec(c, Start(now, n), labels[..|labels| - 1]), labels[|labels| - 1]);
    }
  }

  /** Two publications owed to acceptances of their own events that lie at least a day apart. */
  predicate DayApart(sh: Shared, p: Publication, q: Publication) {
    && Accepted(sh, p.ticket, p.event) && Accepted(sh, q.ticket, q.event)
    && var day := 24 * 3600 * 1000;
       (sh.accepted[p.ticket].from + day <= sh.accepted[q.ticket].from
        || sh.accepted[q.ticket].from + day <= sh.accepted[p.ticket].from)
  }

  /**
   * In every interleaving, two publications of events with the same dedup key come from acceptances at least a day
   * apart, so what is delivered again within a day publishes nothing twice.
   */
  lemma ReplaySafety(c: Config, now: int, n: nat, labels: seq<Label>)
    ensures var sh := Exec(c, Start(now, n), labels).shared;
      forall i, j | 0 <= i < j < |sh.published|
                    && DedupKeyOf(sh.published[i].event) == DedupKeyOf(sh.published[j].event) ::
        DayApart(sh, sh.published[i], sh.published[j])
  {
    TicketsRun(c, now, n, labels);
  }

  /** So do two publications of the same incident, spelled in another case or with white space around its names. */
  lemma SameIncidentApart(c: Config, now: int, n: nat, labels: seq<Label>)
    ensures var sh := Exec(c, Start(now, n), labels).shared;
      forall i, j | 0 <= i < j < |sh.published| && SameIncident(sh.published[i].event, sh.published[j].event) ::
        DayApart(sh, sh.published[i], sh.published[j])
  {
    var sh := Exec(c, Start(now, n), labels).shared;
    ReplaySafety(c, now, n, labels);
    forall i, j | 0 <= i < j < |sh.published| && SameIncident(sh.published[i].event, sh.published[j].event)
      ensures DayApart(sh, sh.published[i], sh.published[j])
    {
      SameIncidentSameKey(sh.published[i].event, sh.published[j].event);
    }
  }

  /**
   * A batch delivered twice, mapped at any times and enriched in any way: two publications of what is the same
   * incident of the batch come from acceptances at least a day apart.
   */
  lemma RedeliveredBatch(c: Config, now: int, n: nat, labels: seq<Label>, ms: seq<RawMatch>, clock: int -> int,
                         clock': int -> int, k: nat, d: Option<Daily>, d': Option<Daily>)
    ensures var sh := Exec(c, Start(now, n), labels).shared;
      && |BatchOf(ms, clock)| == |BatchOf(ms, clock')|
      && (k < |BatchOf(ms, clock)| ==>
            forall i, j | 0 <= i < |sh.published| && 0 <= j < |sh.published| && i != j
                          && sh.published[i].event == Enriched(BatchOf(ms, clock)[k], d)
                          && sh.published[j].event == Enriched(BatchOf(ms, clock')[k], d') ::
              DayApart(sh, sh.published[i], sh.published[j]))
  {
    SameIncidents(ms, clock, clock');
    if k < |BatchOf(ms, clock)| {
      Redelivery(ms, clock, clock', k, d, d');
      ReplaySafety(c, now, n, labels);
    }
  }
}
