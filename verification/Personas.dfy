/** Persona selection: eligibility, cooldown, no immediate repeat and weighting, and what they mean over a run. */
module Personas {
  import opened Strings
  import opened Keys
  import opened ExpiringStore
  import opened Options
  import opened Redis
  import opened Weights

  datatype Persona = Persona(id: string, tone: string, weightBase: int, cooldownSeconds: int, allowed: seq<string>)

  datatype Sentiment = Positive | Negative | Neutral

  /** `kind` is the current event's type, `recent` the type of the first match event, if there is one. */
  datatype Context = Context(matchId: string, kind: string, recent: Option<string>, minute: int, sentiment: Sentiment)

  /** `normalizeEventTypeForPersona`. */
  function NormalizedKind(kind: string): string {
    var e := ToUpper(TrimSpace(kind));
    if e == "PENALTY" || e == "OWN_GOAL" then "GOAL" else e
  }

  function KindOf(ctx: Context): string {
    if ctx.kind == "" && ctx.recent.Some? then ctx.recent.value else ctx.kind
  }

  predicate Eligible(p: Persona, kind: string) {
    p.allowed == [] || kind in p.allowed
  }

  /** `calculatePersonaScore`. */
  function Score(p: Persona, ctx: Context): int {
    var kind := NormalizedKind(KindOf(ctx));
    p.weightBase
    + (if kind == "GOAL" then (if p.tone == "hype" then 20 else 0) + (if ctx.minute >= 85 then 10 else 0)
       else if kind == "RED_CARD" then (if p.tone == "analyst" then 20 else 0)
       else if kind == "SUBSTITUTION" then (if p.tone == "calm" then 5 else 0)
       else 0)
    + (match ctx.sentiment
       case Positive => if p.tone == "hype" || p.tone == "funny" then 15 else 0
       case Negative => if p.tone == "calm" || p.tone == "analyst" then 15 else 0
       case Neutral => 0)
  }

  /** The type a persona is chosen for: of the current event, or else of the first one of the match. */
  function TypeOf(ctx: Context): string {
    ToUpper(TrimSpace(if ctx.kind != "" then ctx.kind else if ctx.recent == None then "" else ctx.recent.value))
  }

  /** A persona for that type; penalties and own goals are goals. */
  predicate MeantFor(p: Persona, ctx: Context) {
    p.allowed == [] || (if TypeOf(ctx) in {"PENALTY", "OWN_GOAL"} then "GOAL" else TypeOf(ctx)) in p.allowed
  }

  /** What a persona's tone is worth, what a late goal adds for every tone, and that nothing else counts. */
  lemma ScoreExactly(p: Persona, ctx: Context)
    ensures var kind := TypeOf(ctx);
      var goal := kind in {"GOAL", "PENALTY", "OWN_GOAL"};
      && (p.tone !in {"hype", "funny", "calm", "analyst"} ==>
            Score(p, ctx) == p.weightBase + if goal && ctx.minute >= 85 then 10 else 0)
      && (Score(p.(tone := "hype"), ctx) - Score(p.(tone := ""), ctx)
          == (if goal then 20 else 0) + if ctx.sentiment == Positive then 15 else 0)
      && (Score(p.(tone := "funny"), ctx) - Score(p.(tone := ""), ctx) == if ctx.sentiment == Positive then 15 else 0)
      && (Score(p.(tone := "calm"), ctx) - Score(p.(tone := ""), ctx)
          == (if kind == "SUBSTITUTION" then 5 else 0) + if ctx.sentiment == Negative then 15 else 0)
      && (Score(p.(tone := "analyst"), ctx) - Score(p.(tone := ""), ctx)
          == (if kind == "RED_CARD" then 20 else 0) + if ctx.sentiment == Negative then 15 else 0)
  {
  }

  function Cooldown(p: Persona): int {
    (if p.cooldownSeconds <= 0 then 30 else p.cooldownSeconds) * SECOND
  }

  /** The last persona of a match, or the empty string. */
  function LastPersona(s: Store, m: string): string {
    match Get(s, LastPersonaKey(m))
    case Some(Text(id)) => id
    case _ => ""
  }

  predicate Candidate(s: Store, p: Persona, ctx: Context) {
    var kind := NormalizedKind(KindOf(ctx));
    && (kind != "" ==> Eligible(p, kind))
    && !Live(s, CooldownKey(p.id))
    && p.id != LastPersona(s, ctx.matchId)
    && Score(p, ctx) > 0
  }

  function Candidates(s: Store, ps: seq<Persona>, ctx: Context): seq<Persona> {
    if ps == [] then []
    else
      Candidates(s, ps[..|ps| - 1], ctx)
      + if Candidate(s, ps[|ps| - 1], ctx) then [ps[|ps| - 1]] else []
  }

  function Scores(ps: seq<Persona>, ctx: Context): (ws: seq<int>)
    ensures |ws| == |ps|
  {
    if ps == [] then [] else Scores(ps[..|ps| - 1], ctx) + [Score(ps[|ps| - 1], ctx)]
  }

  lemma {:induction false} CandidatesExactly(s: Store, ps: seq<Persona>, ctx: Context)
    ensures forall p :: p in Candidates(s, ps, ctx) <==> p in ps && Candidate(s, p, ctx)
  {
    if ps != [] {
      CandidatesExactly(s, ps[..|ps| - 1], ctx);
      assert ps == ps[..|ps| - 1] + [ps[|ps| - 1]];
    }
  }

  lemma ScoresAppend(cs: seq<Persona>, p: Persona, ctx: Context)
    requires NonNegative(Scores(cs, ctx)) && Score(p, ctx) > 0
    ensures NonNegative(Scores(cs + [p], ctx))
    ensures Sum(Scores(cs + [p], ctx)) == Sum(Scores(cs, ctx)) + Score(p, ctx)
  {
    assert (cs + [p])[..|cs|] == cs;
    SamePrefix(Scores(cs, ctx), Scores(cs + [p], ctx), |cs|);
  }

  lemma {:induction false} CandidateScores(s: Store, ps: seq<Persona>, ctx: Context)
    ensures NonNegative(Scores(Candidates(s, ps, ctx), ctx))
    ensures Sum(Scores(Candidates(s, ps, ctx), ctx)) >= 0
    ensures Candidates(s, ps, ctx) != [] ==> Sum(Scores(Candidates(s, ps, ctx), ctx)) > 0
  {
    if ps != [] {
      CandidateScores(s, ps[..|ps| - 1], ctx);
      if Candidate(s, ps[|ps| - 1], ctx) {
        ScoresAppend(Candidates(s, ps[..|ps| - 1], ctx), ps[|ps| - 1], ctx);
      } else {
        assert Candidates(s, ps, ctx) == Candidates(s, ps[..|ps| - 1], ctx);
      }
    }
  }

  /** A persona may be chosen when it is meant for the event, off cooldown, not the last one, and of positive score. */
  lemma CandidateExactly(s: Store, p: Persona, ctx: Context)
    ensures var k := LastPersonaKey(ctx.matchId);
      Candidate(s, p, ctx)
      <==> && (TypeOf(ctx) == "" || MeantFor(p, ctx))
           && !Live(s, CooldownKey(p.id))
           && p.id != (if Live(s, k) && s.entries[k].value.Text? then s.entries[k].value.s else "")
           && Score(p, ctx) > 0
  {
  }

  /** Callers of the picker only hand it positive scores. */
  lemma CandidatesArePositive(s: Store, ps: seq<Persona>, ctx: Context)
    ensures forall p :: p in Candidates(s, ps, ctx) <==> p in ps && Candidate(s, p, ctx)
    ensures NonNegative(Scores(Candidates(s, ps, ctx), ctx))
    ensures Candidates(s, ps, ctx) != [] ==> Sum(Scores(Candidates(s, ps, ctx), ctx)) > 0
  {
    CandidatesExactly(s, ps, ctx);
    CandidateScores(s, ps, ctx);
  }

  lemma {:induction false} SamePrefix(a: seq<int>, b: seq<int>, n: nat)
    requires n <= |a| && n <= |b| && a[..n] == b[..n]
    ensures Upto(a, n) == Upto(b, n)
  {
    if n > 0 {
      assert a[..n - 1] == a[..n][..n - 1] && b[..n - 1] == b[..n][..n - 1];
      assert a[n - 1] == a[..n][n - 1] && b[n - 1] == b[..n][n - 1];
      SamePrefix(a, b, n - 1);
    }
  }

  datatype Selection = NoKind | Failed | Nobody | Main(p: Persona) | Fallback(p: Persona)

  /**
   * What fails of the commands of a selection: the read of the last persona, the read of a cooldown while candidates
   * are collected and while a fallback is looked for, and the writes of the cooldown and of the last persona.
   */
  datatype Trouble = Trouble(last: Fault, cooldown: string -> bool, retry: string -> bool, rest: Fault, note: Fault)

  /** A cooldown that is needed cannot be read. */
  predicate Barred(ps: seq<Persona>, ctx: Context, f: Trouble) {
    var kind := NormalizedKind(KindOf(ctx));
    exists i :: 0 <= i < |ps| && (kind != "" ==> Eligible(ps[i], kind)) && f.cooldown(ps[i].id)
  }

  /** `findFallbackPersona`: the first persona known to be off cooldown. */
  function FallbackOf(s: Store, ps: seq<Persona>, f: Trouble): (sel: Selection)
    ensures match sel
      case Nobody => forall p | p in ps :: f.retry(p.id) || Live(s, CooldownKey(p.id))
      case Fallback(p) => p in ps && !f.retry(p.id) && !Live(s, CooldownKey(p.id))
      case _ => false
  {
    if ps == [] then Nobody
    else if !f.retry(ps[0].id) && !Live(s, CooldownKey(ps[0].id)) then Fallback(ps[0])
    else FallbackOf(s, ps[1..], f)
  }

  /** What a main-path selection leaves in the store; a failed write is passed over. */
  function Remember(s: Store, p: Persona, m: string, f: Trouble): Store {
    var t := if f.rest.Refused? then s else Set(s, CooldownKey(p.id), Number(1), Cooldown(p));
    if f.note.Refused? then t else Set(t, LastPersonaKey(m), Text(p.id), DAY)
  }

  /**
   * A selection rests the persona for its cooldown, 30 seconds if it has none, and is the last one of its match for a
   * day, each unless its write fails.
   */
  lemma RememberedExactly(s: Store, p: Persona, m: string, f: Trouble, d: nat)
    ensures var u := Remember(s, p, m, f);
      var t := Advance(u, d);
      && (if f.rest.Refused? then SameEntry(s, u, CooldownKey(p.id))
          else Live(t, CooldownKey(p.id)) <==> d < (if p.cooldownSeconds > 0 then p.cooldownSeconds else 30) * 1000)
      && (if f.note.Refused? then SameEntry(s, u, LastPersonaKey(m))
          else LastPersona(t, m) == p.id <==> p.id == "" || d < 24 * 3600 * 1000)
  {
  }

  /** `SelectPersona`: the fallback path leaves no trace. */
  function Select(s: Store, ps: seq<Persona>, ctx: Context, roll: nat, f: Trouble): (Store, Selection) {
    if KindOf(ctx) == "" then (s, NoKind)
    else if !f.last.Fine? || Barred(ps, ctx, f) then (s, Failed)
    else
      var cs := Candidates(s, ps, ctx);
      if cs == [] then (s, FallbackOf(s, ps, f))
      else
        CandidatesArePositive(s, ps, ctx);
        var i := Chosen(Scores(cs, ctx), roll % Sum(Scores(cs, ctx)));
        ZeroNeverChosen(Scores(cs, ctx), roll % Sum(Scores(cs, ctx)));
        (Remember(s, cs[i], ctx.matchId, f), Main(cs[i]))
  }

  /**
   * When a selection has no event type, when it fails, and otherwise: it chooses a candidate if there is one, and a
   * persona off cooldown, without a trace, if not.
   */
  lemma SelectsExactly(s: Store, ps: seq<Persona>, ctx: Context, roll: nat, f: Trouble)
    ensures var (t, sel) := Select(s, ps, ctx, roll, f);
      var typed := ctx.kind != "" || (ctx.recent.Some? && ctx.recent.value != "");
      var readable := f.last == Fine
                      && forall p | p in ps && (TypeOf(ctx) == "" || MeantFor(p, ctx)) :: !f.cooldown(p.id);
      && (sel == NoKind <==> !typed) && (sel == Failed <==> typed && !readable)
      && (sel.Main? <==> typed && readable && exists p :: p in ps && Candidate(s, p, ctx))
      && (if sel.Main? then sel.p in ps && Candidate(s, sel.p, ctx) && t == Remember(s, sel.p, ctx.matchId, f)
          else t == s && (sel.Fallback? ==> sel.p in ps && !Live(s, CooldownKey(sel.p.id))))
  {
    CandidatesArePositive(s, ps, ctx);
    BarredExactly(ps, ctx, f);
    var cs := Candidates(s, ps, ctx);
    if cs != [] {
      assert cs[0] in cs;
      var i := Chosen(Scores(cs, ctx), roll % Sum(Scores(cs, ctx)));
      ZeroNeverChosen(Scores(cs, ctx), roll % Sum(Scores(cs, ctx)));
      assert cs[i] in cs;
    }
  }

  lemma BarredExactly(ps: seq<Persona>, ctx: Context, f: Trouble)
    ensures Barred(ps, ctx, f) <==> exists p :: p in ps && (TypeOf(ctx) == "" || MeantFor(p, ctx)) && f.cooldown(p.id)
  {
    if p :| p in ps && (TypeOf(ctx) == "" || MeantFor(p, ctx)) && f.cooldown(p.id) {
      var i :| 0 <= i < |ps| && ps[i] == p;
      assert f.cooldown(ps[i].id);
    }
  }

  /** Every candidate is chosen by exactly the rolls in its share, which is as long as its score. */
  lemma ShareOfCandidate(s: Store, ps: seq<Persona>, ctx: Context, i: nat, roll: nat, f: Trouble)
    requires KindOf(ctx) != "" && f.last.Fine? && !Barred(ps, ctx, f) && i < |Candidates(s, ps, ctx)|
    requires var ws := Scores(Candidates(s, ps, ctx), ctx); Upto(ws, i) <= roll < Upto(ws, i + 1)
    ensures var cs := Candidates(s, ps, ctx);
      var ws := Scores(cs, ctx);
      && Select(s, ps, ctx, roll, f) == (Remember(s, cs[i], ctx.matchId, f), Main(cs[i]))
      && Upto(ws, i + 1) - Upto(ws, i) == Score(cs[i], ctx) && Upto(ws, i + 1) <= Sum(ws)
  {
    CandidatesArePositive(s, ps, ctx);
    ShareOf(Scores(Candidates(s, ps, ctx), ctx), i, roll);
    ScoreAt(Candidates(s, ps, ctx), ctx, i);
  }

  lemma {:induction false} ScoreAt(ps: seq<Persona>, ctx: Context, i: nat)
    requires i < |ps|
    ensures Scores(ps, ctx)[i] == Score(ps[i], ctx)
  {
    if i < |ps| - 1 {
      ScoreAt(ps[..|ps| - 1], ctx, i);
    }
  }

  class PersonaSelector {
    const redis: RedisClient
    const personas: seq<Persona>

    constructor (redis: RedisClient, personas: seq<Persona>)
      ensures this.redis == redis && this.personas == personas
    {
      this.redis, this.personas := redis, personas;
    }

    /** Nothing is known when the read fails. */
    method IsOnCooldown(id: string, failed: bool) returns (b: Option<bool>)
      ensures b == if failed then None else Some(Live(redis.State(), CooldownKey(id)))
    {
      if failed {
        return None;
      }
      var live := redis.Exists(CooldownKey(id));
      b := Some(live);
    }

    method GetLastPersona(m: string, f: Fault) returns (id: Option<string>)
      ensures id == if f.Fine? then Some(LastPersona(redis.State(), m)) else None
    {
      if !f.Fine? {
        return None;
      }
      var v := redis.Get(LastPersonaKey(m));
      match v {
        case Some(Text(s)) => id := Some(s);
        case _ => id := Some("");
      }
    }

    method FindFallbackPersona(f: Trouble) returns (sel: Selection)
      ensures sel == FallbackOf(redis.State(), personas, f)
    {
      for i := 0 to |personas|
        invariant FallbackOf(redis.State(), personas, f) == FallbackOf(redis.State(), personas[i..], f)
      {
        assert personas[i..][0] == personas[i] && personas[i..][1..] == personas[i + 1..];
        var onCooldown := IsOnCooldown(personas[i].id, f.retry(personas[i].id));
        if onCooldown.None? || onCooldown.value {
          continue;
        }
        return Fallback(personas[i]);
      }
      sel := Nobody;
    }

    /** The candidates and their scores, unless a read fails. */
    method CollectCandidates(ctx: Context, eventType: string, f: Trouble)
      returns (ok: bool, candidates: seq<Persona>, scores: seq<int>)
      requires eventType == KindOf(ctx)
      ensures ok <==> f.last.Fine? && !Barred(personas, ctx, f)
      ensures ok ==> candidates == Candidates(redis.State(), personas, ctx) && scores == Scores(candidates, ctx)
    {
      var kind := NormalizedKind(eventType);
      candidates, scores := [], [];
      var last := GetLastPersona(ctx.matchId, f.last);
      if last.None? {
        return false, [], [];
      }
      for i := 0 to |personas|
        invariant candidates == Candidates(redis.State(), personas[..i], ctx) && scores == Scores(candidates, ctx)
        invariant forall j | 0 <= j < i :: (kind != "" ==> Eligible(personas[j], kind)) ==> !f.cooldown(personas[j].id)
      {
        assert personas[..i + 1][..i] == personas[..i];
        var p := personas[i];
        if kind != "" && !Eligible(p, kind) {
          continue;
        }
        var onCooldown := IsOnCooldown(p.id, f.cooldown(p.id));
        if onCooldown.None? {
          return false, [], [];
        }
        if onCooldown.value || last.value == p.id {
          continue;
        }
        var score := Score(p, ctx);
        if score <= 0 {
          continue;
        }
        assert (candidates + [p])[..|candidates|] == candidates;
        candidates, scores := candidates + [p], scores + [score];
      }
      assert personas[..|personas|] == personas;
      ok := true;
    }

    method SelectPersona(ctx: Context, roll: nat, f: Trouble) returns (sel: Selection)
      modifies redis
      ensures (redis.State(), sel) == Select(old(redis.State()), personas, ctx, roll, f)
    {
      ghost var s := redis.State();
      var eventType := ctx.kind;
      if eventType == "" && ctx.recent.Some? {
        eventType := ctx.recent.value;
      }
      if eventType == "" {
        return NoKind;
      }
      var ok, candidates, scores := CollectCandidates(ctx, eventType, f);
      if !ok {
        return Failed;
      }
      if |candidates| == 0 {
        sel := FindFallbackPersona(f);
        return;
      }
      CandidatesArePositive(s, personas, ctx);
      ClipPositive(scores);
      var i := PickWeightedRandom(scores, roll);
      var selected := candidates[i];
      Note(selected, ctx.matchId, f);
      sel := Main(selected);
    }

    /** The two writes behind a selection, whose errors are ignored. */
    method Note(selected: Persona, m: string, f: Trouble)
      modifies redis
      ensures redis.State() == Remember(old(redis.State()), selected, m, f)
    {
      var cooldown := selected.cooldownSeconds;
      if cooldown <= 0 {
        cooldown := 30;
      }
      if !f.rest.Refused? {
        redis.SetWithTTL(CooldownKey(selected.id), Number(1), cooldown * SECOND);
      }
      if !f.note.Refused? {
        redis.SetWithTTL(LastPersonaKey(m), Text(selected.id), DAY);
      }
    }
  }

  lemma ClipPositive(ws: seq<int>)
    requires NonNegative(ws)
    ensures Clip(ws) == ws
  {
  }

  function ReuseScore(p: Persona, ctx: Context): int {
    if Score(p, ctx) <= 0 then 1 else Score(p, ctx)
  }

  function ReuseScores(ps: seq<Persona>, ctx: Context): (ws: seq<int>)
    ensures |ws| == |ps| && forall i | 0 <= i < |ps| :: ws[i] >= 1
  {
    seq(|ps|, i requires 0 <= i < |ps| => ReuseScore(ps[i], ctx))
  }

  function Eligibles(ps: seq<Persona>, kind: string): (es: seq<Persona>)
    ensures forall p | p in es :: p in ps && Eligible(p, kind)
    ensures forall p | p in ps && Eligible(p, kind) :: p in es
  {
    if ps == [] then []
    else Eligibles(ps[..|ps| - 1], kind) + if Eligible(ps[|ps| - 1], kind) then [ps[|ps| - 1]] else []
  }

  /** With reuse allowed, every persona meant for the event has a share of its score, or of one if that is less. */
  lemma ReusableExactly(ps: seq<Persona>, ctx: Context, i: nat)
    ensures var es := Eligibles(ps, NormalizedKind(KindOf(ctx)));
      && (forall p :: p in es <==> p in ps && MeantFor(p, ctx))
      && (i < |es| ==>
            var w, score := ReuseScores(es, ctx)[i], Score(es[i], ctx);
            w >= 1 && w >= score && (w == 1 || w == score))
  {
  }

  lemma {:induction false} PositiveSum(ws: seq<int>, n: nat)
    requires n <= |ws| && forall i | 0 <= i < |ws| :: ws[i] >= 1
    ensures Upto(ws, n) >= n
  {
    if n > 0 {
      PositiveSum(ws, n - 1);
    }
  }

  /** `SelectPersonaAllowReuse`: every eligible persona has a chance, in exact proportion to its raised score. */
  method SelectPersonaAllowReuse(personas: seq<Persona>, ctx: Context, roll: nat) returns (p: Option<Persona>)
    ensures var es := Eligibles(personas, NormalizedKind(KindOf(ctx)));
      var ws := ReuseScores(es, ctx);
      if KindOf(ctx) == "" || es == [] then p == None
      else Sum(ws) > 0 && Chosen(ws, roll % Sum(ws)) < |es| && p == Some(es[Chosen(ws, roll % Sum(ws))])
  {
    var eventType := ctx.kind;
    if eventType == "" && ctx.recent.Some? {
      eventType := ctx.recent.value;
    }
    if eventType == "" {
      return None;
    }
    var kind := NormalizedKind(eventType);
    var eligible: seq<Persona> := [];
    var scores: seq<int> := [];
    for i := 0 to |personas|
      invariant eligible == Eligibles(personas[..i], kind) && scores == ReuseScores(eligible, ctx)
    {
      assert personas[..i + 1][..i] == personas[..i];
      if !Eligible(personas[i], kind) {
        continue;
      }
      var score := Score(personas[i], ctx);
      if score <= 0 {
        score := 1;
      }
      eligible, scores := eligible + [personas[i]], scores + [score];
    }
    assert personas[..|personas|] == personas;
    if |eligible| == 0 {
      return None;
    }
    PositiveSum(scores, |scores|);
    ClipPositive(scores);
    var i := PickWeightedRandom(scores, roll);
    p := Some(eligible[i]);
  }

  // ---------- whole runs ----------

  /** `Reply` is the cooldown of the reply system, on the key of the identifier with `_reply` behind it. */
  datatype Op = Wait(d: nat) | Choose(ctx: Context, roll: nat, f: Trouble) | Reply(id: string, seconds: int)

  /** A main-path selection, and whether its cooldown and its place as the last one were saved. */
  datatype Pick = Pick(at: int, matchId: string, persona: Persona, rested: bool, noted: bool)

  datatype Run = Run(store: Store, picks: seq<Pick>)

  function PickOf(s: Store, p: Persona, m: string, f: Trouble): Pick {
    Pick(s.now, m, p, !f.rest.Refused?, !f.note.Refused?)
  }

  function Step(ps: seq<Persona>, r: Run, op: Op): Run {
    match op
    case Wait(d) => r.(store := Advance(r.store, d))
    case Reply(id, seconds) => r.(store := SetNX(r.store, CooldownKey(id + "_reply"), Number(1), seconds * SECOND))
    case Choose(ctx, roll, f) =>
      var (t, sel) := Select(r.store, ps, ctx, roll, f);
      Run(t, if sel.Main? then r.picks + [PickOf(r.store, sel.p, ctx.matchId, f)] else r.picks)
  }

  function Follow(ps: seq<Persona>, now: int, ops: seq<Op>): Run {
    if ops == [] then Run(Store(now, map[]), [])
    else Step(ps, Follow(ps, now, ops[..|ops| - 1]), ops[|ops| - 1])
  }

  // ---------- cooldowns ----------

  function RestOf(a: Pick): Lease {
    Lease(CooldownKey(a.persona.id), a.at, Cooldown(a.persona))
  }

  /** A saved cooldown is in the store while it runs. */
  predicate Resting(s: Store, a: Pick) {
    && a.at <= s.now
    && (a.rested && Running(RestOf(a), s.now) ==>
          RestOf(a).key in s.entries && Outlasts(s.entries[RestOf(a).key], RestOf(a)))
  }

  /** A selection whose cooldown was saved and a later one of the same persona are at least the cooldown apart. */
  predicate Spaced(picks: seq<Pick>) {
    forall i, j | 0 <= i < j < |picks| && picks[i].rested && picks[i].persona.id == picks[j].persona.id ::
      picks[i].at + Cooldown(picks[i].persona) <= picks[j].at
  }

  predicate Rested(r: Run) {
    (forall i | 0 <= i < |r.picks| :: Resting(r.store, r.picks[i])) && Spaced(r.picks)
  }

  lemma ChosenIsCandidate(s: Store, ps: seq<Persona>, ctx: Context, roll: nat, f: Trouble)
    requires Select(s, ps, ctx, roll, f).1.Main?
    ensures var (t, sel) := Select(s, ps, ctx, roll, f);
      sel.p in ps && Candidate(s, sel.p, ctx) && t == Remember(s, sel.p, ctx.matchId, f)
  {
    CandidatesArePositive(s, ps, ctx);
    var cs := Candidates(s, ps, ctx);
    assert cs != [];
    var i := Chosen(Scores(cs, ctx), roll % Sum(Scores(cs, ctx)));
    ZeroNeverChosen(Scores(cs, ctx), roll % Sum(Scores(cs, ctx)));
    assert cs[i] in cs;
  }

  lemma RestingStays(s: Store, a: Pick, p: Persona, m: string, f: Trouble)
    requires Resting(s, a) && !Live(s, CooldownKey(p.id))
    ensures Resting(Remember(s, p, m, f), a)
  {
  }

  lemma NewRests(s: Store, p: Persona, m: string, f: Trouble)
    ensures Resting(Remember(s, p, m, f), PickOf(s, p, m, f))
  {
  }

  lemma RestedStep(r: Run, p: Persona, m: string, f: Trouble)
    requires Rested(r) && !Live(r.store, CooldownKey(p.id))
    ensures Rested(Run(Remember(r.store, p, m, f), r.picks + [PickOf(r.store, p, m, f)]))
  {
    NewRests(r.store, p, m, f);
    forall i | 0 <= i < |r.picks| ensures Resting(Remember(r.store, p, m, f), r.picks[i]) {
      RestingStays(r.store, r.picks[i], p, m, f);
    }
    forall i | 0 <= i < |r.picks| && r.picks[i].rested && r.picks[i].persona.id == p.id
      ensures r.picks[i].at + Cooldown(r.picks[i].persona) <= r.store.now
    {
      assert Resting(r.store, r.picks[i]);
    }
  }

  lemma RestedOtherwise(r: Run, op: Op, ps: seq<Persona>)
    requires Rested(r) && Step(ps, r, op).picks == r.picks
    requires op.Choose? ==> Step(ps, r, op).store == r.store
    ensures Rested(Step(ps, r, op))
  {
  }

  lemma {:induction false} RestedRun(ps: seq<Persona>, now: int, ops: seq<Op>)
    ensures Rested(Follow(ps, now, ops))
  {
    if ops != [] {
      var r, op := Follow(ps, now, ops[..|ops| - 1]), ops[|ops| - 1];
      RestedRun(ps, now, ops[..|ops| - 1]);
      if op.Choose? && Select(r.store, ps, op.ctx, op.roll, op.f).1.Main? {
        ChosenIsCandidate(r.store, ps, op.ctx, op.roll, op.f);
        RestedStep(r, Select(r.store, ps, op.ctx, op.roll, op.f).1.p, op.ctx.matchId, op.f);
      } else {
        RestedOtherwise(r, op, ps);
      }
    }
  }

  /**
   * Two main-path selections of one persona, in any matches, are at least its cooldown apart, unless the cooldown of
   * the first could not be saved.
   */
  lemma CooldownIsKept(ps: seq<Persona>, now: int, ops: seq<Op>)
    ensures var h := Follow(ps, now, ops).picks;
      forall i, j | 0 <= i < j < |h| && h[i].rested && h[i].persona.id == h[j].persona.id ::
        h[i].at + (if h[i].persona.cooldownSeconds > 0 then h[i].persona.cooldownSeconds else 30) * 1000 <= h[j].at
  {
    RestedRun(ps, now, ops);
  }

  // ---------- no persona twice in a row ----------

  /** No later selection for the same match. */
  predicate Latest(picks: seq<Pick>, i: nat)
    requires i < |picks|
  {
    forall k | i < k < |picks| :: picks[k].matchId != picks[i].matchId
  }

  /** The latest selection of every match, if it was noted, is remembered for a day. */
  predicate Remembered(s: Store, picks: seq<Pick>) {
    forall i | 0 <= i < |picks| && Latest(picks, i) && picks[i].noted && s.now < picks[i].at + DAY ::
      var k := LastPersonaKey(picks[i].matchId);
      k in s.entries && s.entries[k] == Entry(Text(picks[i].persona.id), Some(picks[i].at + DAY))
  }

  /** Consecutive selections for one match within a day differ. */
  predicate NoRepeat(picks: seq<Pick>) {
    forall i, j | 0 <= i < j < |picks| && picks[i].noted && picks[i].matchId == picks[j].matchId
               && Latest(picks[..j], i) && picks[j].at < picks[i].at + DAY ::
      picks[i].persona.id != picks[j].persona.id
  }

  lemma NoRepeatStep(s: Store, picks: seq<Pick>, p: Persona, m: string, f: Trouble)
    requires Remembered(s, picks) && NoRepeat(picks) && p.id != LastPersona(s, m)
    ensures NoRepeat(picks + [PickOf(s, p, m, f)])
  {
    var h, n := picks + [PickOf(s, p, m, f)], |picks|;
    assert h[..n] == picks;
    forall i, j | 0 <= i < j < |h| && h[i].noted && h[i].matchId == h[j].matchId && Latest(h[..j], i)
                  && h[j].at < h[i].at + DAY
      ensures h[i].persona.id != h[j].persona.id
    {
      if j < n {
        assert h[..j] == picks[..j];
      } else {
        assert Latest(picks, i) && h[i] == picks[i];
        assert LastPersona(s, m) == picks[i].persona.id;
      }
    }
  }

  lemma RememberedStep(s: Store, picks: seq<Pick>, p: Persona, m: string, f: Trouble)
    requires Remembered(s, picks)
    ensures Remembered(Remember(s, p, m, f), picks + [PickOf(s, p, m, f)])
  {
    var h, n := picks + [PickOf(s, p, m, f)], |picks|;
    forall i | 0 <= i < n && Latest(h, i) ensures picks[i].matchId != m && Latest(picks, i) {
      assert h[n].matchId == m;
      assert forall k | i < k < n :: h[k] == picks[k];
    }
  }

  lemma RememberedOtherwise(r: Run, op: Op, ps: seq<Persona>)
    requires Remembered(r.store, r.picks) && Step(ps, r, op).picks == r.picks
    requires op.Choose? ==> Step(ps, r, op).store == r.store
    ensures Remembered(Step(ps, r, op).store, r.picks)
  {
  }

  lemma {:induction false} NoRepeatRun(ps: seq<Persona>, now: int, ops: seq<Op>)
    ensures var r := Follow(ps, now, ops); Remembered(r.store, r.picks) && NoRepeat(r.picks)
  {
    if ops != [] {
      var r, op := Follow(ps, now, ops[..|ops| - 1]), ops[|ops| - 1];
      NoRepeatRun(ps, now, ops[..|ops| - 1]);
      if op.Choose? && Select(r.store, ps, op.ctx, op.roll, op.f).1.Main? {
        ChosenIsCandidate(r.store, ps, op.ctx, op.roll, op.f);
        var p := Select(r.store, ps, op.ctx, op.roll, op.f).1.p;
        NoRepeatStep(r.store, r.picks, p, op.ctx.matchId, op.f);
        RememberedStep(r.store, r.picks, p, op.ctx.matchId, op.f);
      } else {
        RememberedOtherwise(r, op, ps);
      }
    }
  }

  /**
   * Consecutive main-path selections for one match within a day differ, whatever fallback selections and replies
   * come between, unless the first could not be noted as the last one.
   */
  lemma NeverTwiceInARow(ps: seq<Persona>, now: int, ops: seq<Op>, i: nat, j: nat)
    requires i < j < |Follow(ps, now, ops).picks|
    requires var h := Follow(ps, now, ops).picks;
      && h[i].noted && h[i].matchId == h[j].matchId && h[j].at < h[i].at + DAY
      && (forall k | i < k < j :: h[k].matchId != h[i].matchId)
    ensures var h := Follow(ps, now, ops).picks; h[i].persona.id != h[j].persona.id
  {
    NoRepeatRun(ps, now, ops);
    var h := Follow(ps, now, ops).picks;
    assert Latest(h[..j], i);
  }
}
