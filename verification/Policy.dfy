/** The checks of `policy_checker.go` that need no store: validity, seedable types, weights and the bot ratio. */
module Policy {
  import opened Events
  import opened ExpiringStore
  import opened Options

  const SEEDABLE := {"GOAL", "RED_CARD", "PENALTY", "PENALTY_MISSED", "OWN_GOAL", "CARD_UPGRADE_CONFIRMED", "UNKNOWN",
                     "START", "HALFTIME_SCORE", "MIDFIELD", "END", "INJURY_TIME", "YELLOW_CARD", "SUBSTITUTION"}

  const VALID := SEEDABLE + {"CORNER", "OFFSIDE", "FREE_KICK", "GOAL_KICK", "HALF_TIME", "FULL_TIME", "ADDED_TIME",
                             "INJURY"}

  /** `validateEventData`. */
  predicate ValidEvent(e: MatchEvent) {
    && e.leagueId != ""
    && e.kind in VALID
    && (e.kind in {"GOAL", "YELLOW_CARD", "RED_CARD"} ==> e.playerName != "")
    && (e.kind == "SUBSTITUTION" && e.playerName == "" ==> e.inPlayerName != "" && e.outPlayerName != "")
  }

  /** The weight of each event type, in hundredths. */
  function Weight(kind: string): int {
    match kind
    case "GOAL" => 100 case "RED_CARD" => 100 case "PENALTY" => 100 case "PENALTY_MISSED" => 95 case "OWN_GOAL" => 95
    case "CARD_UPGRADE_CONFIRMED" => 90 case "UNKNOWN" => 90 case "START" => 85 case "HALFTIME_SCORE" => 80
    case "MIDFIELD" => 75 case "END" => 90 case "INJURY_TIME" => 70 case "SUBSTITUTION" => 65 case "YELLOW_CARD" => 60
    case "CORNER" => 35 case "OFFSIDE" => 30 case "FREE_KICK" => 30 case "GOAL_KICK" => 20
    case _ => 20
  }

  /** `passesEventWeighting`, for a roll in [0, 1). */
  predicate PassesWeighting(kind: string, roll: real) {
    Weight(kind) >= 100 || roll * 100.0 < Weight(kind) as real
  }

  /** Everything `CheckPolicy` asks before the first store command. */
  predicate Admissible(e: MatchEvent, roll: real, killed: bool) {
    ValidEvent(e) && e.kind in SEEDABLE && PassesWeighting(e.kind, roll) && !killed
  }

  /**
   * Which incidents can be seeded: none of the four noisy types, goals and yellow and red cards with a player, and a
   * substitution with one or both of the players that change. Enrichment loses an event of an unknown league whose
   * daily record names none.
   */
  lemma IncidentIsSeeded(id: string, x: Incident, timestamp: int, d: Option<Daily>)
    ensures var e := Enriched(EventOf(id, x, timestamp), d);
      ValidEvent(e) && e.kind in SEEDABLE
      <==> && x.kind !in {2, 5, 6, 7}
           && (x.kind in {1, 3, 4} ==> x.playerName != "")
           && (x.kind == 9 && x.playerName == "" ==> x.inPlayerName != "" && x.outPlayerName != "")
           && !(LeagueOf(id) == "UNKNOWN" && d.Some? && d.value.competitionName == d.value.competitionId == "")
  {
    LeagueNamed(id);
    KindIsSeeded(x.kind);
  }

  lemma LeagueNamed(matchId: string)
    ensures LeagueOf(matchId) != ""
  {
  }

  lemma KindIsSeeded(incidentType: int)
    ensures var kind := KindOf(incidentType);
      && kind in VALID && (kind in SEEDABLE <==> incidentType !in {2, 5, 6, 7})
      && (kind in {"GOAL", "YELLOW_CARD", "RED_CARD"} <==> incidentType in {1, 3, 4})
      && (kind == "SUBSTITUTION" <==> incidentType == 9)
  {
  }

  /** With which rolls an event type that can be seeded passes: the higher its weight, the more of them. */
  lemma WeightingExactly(kind: string, roll: real)
    requires kind in SEEDABLE && 0.0 <= roll < 1.0
    ensures PassesWeighting(kind, roll)
       <==> roll < if kind in {"GOAL", "RED_CARD", "PENALTY"} then 1.0
                   else if kind in {"PENALTY_MISSED", "OWN_GOAL"} then 0.95
                   else if kind in {"CARD_UPGRADE_CONFIRMED", "UNKNOWN", "END"} then 0.9
                   else if kind == "START" then 0.85
                   else if kind == "HALFTIME_SCORE" then 0.8
                   else if kind == "MIDFIELD" then 0.75
                   else if kind == "INJURY_TIME" then 0.7
                   else if kind == "SUBSTITUTION" then 0.65
                   else 0.6
  {
  }

  /** The checks before the store: one of them is enough to reject an event. */
  lemma AdmissibleExactly(e: MatchEvent, roll: real, killed: bool)
    ensures Admissible(e, roll, killed)
       <==> !killed && e.leagueId != "" && e.kind in SEEDABLE && PassesWeighting(e.kind, roll)
            && (e.playerName == "" ==>
                  && e.kind !in {"GOAL", "YELLOW_CARD", "RED_CARD"}
                  && (e.kind == "SUBSTITUTION" ==> e.inPlayerName != "" && e.outPlayerName != ""))
  {
    assert SEEDABLE <= VALID;
  }

  // ---------- the projected bot ratio ----------

  /** The messages a room keeps. */
  const WINDOW := 50

  /** The bots among messages, each given by its `IsBot` flag. */
  function Bots(messages: seq<bool>): (n: nat)
    ensures n <= |messages|
  {
    if messages == [] then 0 else Bots(messages[..|messages| - 1]) + if messages[|messages| - 1] then 1 else 0
  }

  predicate Exceeds(bots: nat, users: nat, maxRatio: real) {
    maxRatio <= 0.0
    || if users == 0 then bots + 1 > 3
       else bots + users >= 5 && (bots + 1) as real / (bots + users + 1) as real > maxRatio
  }

  /** `exceedsProjectedBotRatio`. */
  method ExceedsProjectedBotRatio(messages: seq<bool>, maxRatio: real) returns (blocked: bool)
    ensures blocked <==> Exceeds(Bots(messages), |messages| - Bots(messages), maxRatio)
  {
    if maxRatio <= 0.0 {
      return true;
    }
    var botCount, userCount := 0, 0;
    for i := 0 to |messages|
      invariant botCount == Bots(messages[..i]) && botCount + userCount == i && userCount >= 0
    {
      assert messages[..i + 1][..i] == messages[..i];
      if messages[i] {
        botCount := botCount + 1;
      } else {
        userCount := userCount + 1;
      }
    }
    assert messages[..|messages|] == messages;
    if userCount == 0 {
      return botCount + 1 > 3;
    }
    var total := botCount + userCount;
    if total < 5 {
      return false;
    }
    blocked := (botCount + 1) as real / (total + 1) as real > maxRatio;
  }

  /**
   * When the check blocks: always for a ratio that is not positive; from the fourth message of a room without users
   * on; never below five messages with a user among them; else exactly when the share of bots would exceed the ratio.
   */
  lemma BlocksExactly(bots: nat, users: nat, maxRatio: real)
    ensures maxRatio <= 0.0 ==> Exceeds(bots, users, maxRatio)
    ensures maxRatio > 0.0 && users == 0 ==> (Exceeds(bots, users, maxRatio) <==> bots >= 3)
    ensures maxRatio > 0.0 && users > 0 && bots + users < 5 ==> !Exceeds(bots, users, maxRatio)
    ensures maxRatio > 0.0 && users > 0 && bots + users >= 5 ==>
              (Exceeds(bots, users, maxRatio) <==> (bots + 1) as real > maxRatio * (bots + users + 1) as real)
  {
  }

  /** The most bots a window may hold once a message has joined the `seen` ones the ratio was checked on. */
  function Cap(seen: nat, maxRatio: real): int {
    var share := ((seen + 1) as real * maxRatio).Floor;
    if share > 4 then share else 4
  }

  /** A message that passes the ratio check leaves the bots within the cap. */
  lemma PassedIsCapped(bots: nat, users: nat, maxRatio: real)
    requires !Exceeds(bots, users, maxRatio)
    ensures bots + 1 <= Cap(bots + users, maxRatio)
  {
  }

  lemma FloorGrows(x: real, y: real)
    requires x <= y
    ensures x.Floor <= y.Floor
  {
  }

  lemma NotPositive(x: real, y: real)
    requires x >= 0.0 && y <= 0.0
    ensures (x * y).Floor <= 0
  {
    assert x * y <= 0.0;
  }

  lemma CapGrows(m: nat, n: nat, maxRatio: real)
    requires m <= n
    ensures Cap(m, maxRatio) <= Cap(n, maxRatio)
  {
    var x, y := (m + 1) as real * maxRatio, (n + 1) as real * maxRatio;
    if maxRatio >= 0.0 {
      assert y - x == (n - m) as real * maxRatio >= 0.0;
      FloorGrows(x, y);
    } else {
      NotPositive((m + 1) as real, maxRatio);
      NotPositive((n + 1) as real, maxRatio);
    }
  }

  lemma {:induction false} BotsAppend(a: seq<bool>, b: seq<bool>)
    ensures Bots(a + b) == Bots(a) + Bots(b)
  {
    if b == [] {
      assert a + b == a;
    } else {
      assert (a + b)[..|a + b| - 1] == a + b[..|b| - 1];
      BotsAppend(a, b[..|b| - 1]);
    }
  }

  /** Trimming to a longer window keeps a shorter one. */
  lemma NewestOfTrimmed(list: seq<bool>, n: nat, m: nat)
    requires n <= m
    ensures Newest(Newest(list, m), n) == Newest(list, n)
    ensures Bots(Newest(list, n)) <= Bots(Newest(list, m))
  {
    var a := Newest(list, m);
    assert a == Newest(list, n) + a[|Newest(list, n)|..];
    BotsAppend(Newest(list, n), a[|Newest(list, n)|..]);
  }

  /** A new message adds at most itself to the bots of the window. */
  lemma PushedWindow(bot: bool, list: seq<bool>, n: nat)
    ensures Bots(Newest([bot] + list, n)) <= Bots(Newest(list, n)) + if bot then 1 else 0
  {
    if n == 0 {
      assert Newest([bot] + list, n) == [];
    } else {
      NewestPushed(bot, list, n);
      BotsAppend([bot], Newest(list, n - 1));
      BotsOfOne(bot);
      NewestOfTrimmed(list, n - 1, n);
    }
  }

  lemma NewestPushed(bot: bool, list: seq<bool>, n: nat)
    requires n > 0
    ensures Newest([bot] + list, n) == [bot] + Newest(list, n - 1)
  {
  }

  lemma BotsOfOne(bot: bool)
    ensures Bots([bot]) == if bot then 1 else 0
  {
    assert [bot][..0] == [];
  }
}
