/** Match events: how incidents become events, how events are enriched, and which signature identifies them. */
module Events {
  import opened Strings
  import opened Keys
  import opened Options

  datatype MatchEvent = MatchEvent(
    matchId: string, leagueId: string, kind: string, position: int, minute: int, addTime: int,
    homeScore: int, awayScore: int, playerName: string, inPlayerName: string, outPlayerName: string,
    reasonType: int, homeTeam: string, awayTeam: string, teamSide: string, timestamp: int)

  datatype Team = Team(name: string, shortName: string)

  datatype Daily = Daily(competitionName: string, competitionId: string, homeTeam: Team, awayTeam: Team)

  datatype Incident = Incident(
    kind: int, position: int, time: int, addTime: int, playerName: string, inPlayerName: string,
    outPlayerName: string, reasonType: int, homeScore: Option<int>, awayScore: Option<int>)

  /** `status` is the second element of the score array, when that is a number. */
  datatype RawMatch = RawMatch(id: string, status: Option<int>, incidents: seq<Incident>)

  function OrElse(s: string, default_: string): string {
    if s == "" then default_ else s
  }

  // ---------- mapping ----------

  function KindOf(incidentType: int): string {
    match incidentType
    case 1 => "GOAL" case 2 => "CORNER" case 3 => "YELLOW_CARD" case 4 => "RED_CARD" case 5 => "OFFSIDE"
    case 6 => "FREE_KICK" case 7 => "GOAL_KICK" case 8 => "PENALTY" case 9 => "SUBSTITUTION" case 10 => "START"
    case 11 => "MIDFIELD" case 12 => "END" case 13 => "HALFTIME_SCORE" case 15 => "CARD_UPGRADE_CONFIRMED"
    case 16 => "PENALTY_MISSED" case 17 => "OWN_GOAL" case 19 => "INJURY_TIME"
    case _ => "UNKNOWN"
  }

  /** `deriveLeagueID`: the part of the identifier before the first underscore, in capitals. */
  function LeagueOf(matchId: string): string {
    var id := TrimSpace(matchId);
    var i := Index(id, '_');
    var head := if i < 0 then id else id[..i];
    if head == "" then "UNKNOWN" else ToUpper(head)
  }

  function Ended(m: RawMatch): bool {
    m.status == Some(8) || exists i :: 0 <= i < |m.incidents| && m.incidents[i].kind == 12
  }

  function EventOf(id: string, x: Incident, timestamp: int): MatchEvent {
    MatchEvent(id, LeagueOf(id), KindOf(x.kind), x.position, x.time, x.addTime,
               if x.homeScore.Some? then x.homeScore.value else 0, if x.awayScore.Some? then x.awayScore.value else 0,
               x.playerName, x.inPlayerName, x.outPlayerName, x.reasonType, "", "", "", timestamp)
  }

  /** The events of one match; `clock` gives the time at which the n-th event of the batch is mapped. */
  function EventsOf(m: RawMatch, clock: int -> int, n: nat): (es: seq<MatchEvent>)
    ensures |es| == if Ended(m) then 0 else |m.incidents|
  {
    if Ended(m) then []
    else seq(|m.incidents|, i requires 0 <= i < |m.incidents| => EventOf(m.id, m.incidents[i], clock(n + i)))
  }

  function BatchOf(ms: seq<RawMatch>, clock: int -> int): seq<MatchEvent> {
    if ms == [] then []
    else
      var before := BatchOf(ms[..|ms| - 1], clock);
      before + EventsOf(ms[|ms| - 1], clock, |before|)
  }

  method IsEndedMatch(m: RawMatch) returns (ended: bool)
    ensures ended == Ended(m)
  {
    if m.status == Some(8) {
      return true;
    }
    for i := 0 to |m.incidents|
      invariant forall j | 0 <= j < i :: m.incidents[j].kind != 12
    {
      if m.incidents[i].kind == 12 {
        return true;
      }
    }
    ended := false;
  }

  /** `mapSingleMatch`. */
  method MapSingleMatch(m: RawMatch, clock: int -> int, n: nat) returns (es: seq<MatchEvent>)
    ensures es == EventsOf(m, clock, n)
  {
    es := [];
    var ended := IsEndedMatch(m);
    if ended {
      return;
    }
    for i := 0 to |m.incidents|
      invariant es == EventsOf(m, clock, n)[..i]
    {
      var x := m.incidents[i];
      var event := EventOf(m.id, x.(homeScore := None, awayScore := None), clock(n + i));
      if x.homeScore.Some? {
        event := event.(homeScore := x.homeScore.value);
      }
      if x.awayScore.Some? {
        event := event.(awayScore := x.awayScore.value);
      }
      es := es + [event];
    }
  }

  /** `mapMultipleMatches`. */
  method MapMultipleMatches(ms: seq<RawMatch>, clock: int -> int) returns (es: seq<MatchEvent>)
    ensures es == BatchOf(ms, clock)
  {
    es := [];
    for i := 0 to |ms|
      invariant es == BatchOf(ms[..i], clock)
    {
      assert ms[..i + 1][..i] == ms[..i];
      var ended := IsEndedMatch(ms[i]);
      if ended {
        assert es + [] == es;
        continue;
      }
      var single := MapSingleMatch(ms[i], clock, |es|);
      es := es + single;
    }
    assert ms[..|ms|] == ms;
  }

  /** The league is what stands before the first underscore of the trimmed identifier, in capitals. */
  lemma LeagueExactly(matchId: string, head: string, rest: string)
    requires '_' !in head && (TrimSpace(matchId) == head || TrimSpace(matchId) == head + "_" + rest)
    ensures LeagueOf(matchId) == if head == "" then "UNKNOWN" else ToUpper(head)
  {
    var id := TrimSpace(matchId);
    if id != head {
      assert id[|head|] == '_' && id[..|head|] == head;
      assert forall k | 0 <= k < |head| :: id[k] == head[k];
    }
  }

  /** A match has ended by its status or by an incident; otherwise each incident is mapped in its place. */
  lemma MappedExactly(m: RawMatch, clock: int -> int, n: nat, i: nat)
    ensures var es := EventsOf(m, clock, n);
      if m.status == Some(8) || exists x :: x in m.incidents && x.kind == 12 then es == []
      else
        && |es| == |m.incidents|
        && (i < |es| ==>
              var e, x := es[i], m.incidents[i];
              && e.matchId == m.id && e.leagueId == LeagueOf(m.id) && e.kind == KindOf(x.kind)
              && e.position == x.position && e.minute == x.time && e.addTime == x.addTime
              && (x.homeScore == Some(e.homeScore) || (x.homeScore == None && e.homeScore == 0))
              && (x.awayScore == Some(e.awayScore) || (x.awayScore == None && e.awayScore == 0))
              && e.playerName == x.playerName && e.inPlayerName == x.inPlayerName
              && e.outPlayerName == x.outPlayerName && e.reasonType == x.reasonType
              && e.homeTeam == e.awayTeam == e.teamSide == "" && e.timestamp == clock(n + i))
  {
    if x :| x in m.incidents && x.kind == 12 {
      var j :| 0 <= j < |m.incidents| && m.incidents[j] == x;
      assert m.incidents[j].kind == 12;
    }
  }

  // ---------- enrichment ----------

  /** `enrichEventFromDaily`: fills an unknown league and empty team names. */
  function Enriched(e: MatchEvent, daily: Option<Daily>): MatchEvent {
    if daily.None? then e
    else
      var d := daily.value;
      e.(leagueId := if e.leagueId == "" || e.leagueId == "UNKNOWN" then OrElse(d.competitionName, d.competitionId)
                     else e.leagueId,
         homeTeam := OrElse(e.homeTeam, OrElse(d.homeTeam.shortName, d.homeTeam.name)),
         awayTeam := OrElse(e.awayTeam, OrElse(d.awayTeam.shortName, d.awayTeam.name)))
  }

  /** A team keeps the name of its event, and gets the short name of the daily record or else its name. */
  lemma EnrichedTeams(e: MatchEvent, d: Daily)
    ensures Enriched(e, Some(d)).homeTeam
         == if e.homeTeam != "" then e.homeTeam
            else if d.homeTeam.shortName != "" then d.homeTeam.shortName else d.homeTeam.name
    ensures Enriched(e, Some(d)).awayTeam
         == if e.awayTeam != "" then e.awayTeam
            else if d.awayTeam.shortName != "" then d.awayTeam.shortName else d.awayTeam.name
    ensures Enriched(e, Some(d)).leagueId
         == if e.leagueId != "" && e.leagueId != "UNKNOWN" then e.leagueId
            else if d.competitionName != "" then d.competitionName else d.competitionId
  {
  }

  // ---------- the dedup signature ----------

  function Plain(name: string): string {
    ToLower(TrimSpace(name))
  }

  function SignatureParts(e: MatchEvent): seq<string> {
    [e.matchId, e.kind, Plain(e.playerName), Plain(e.inPlayerName), Plain(e.outPlayerName)]
    + [Itoa(e.minute), Itoa(e.addTime), Itoa(e.position), Itoa(e.reasonType), Itoa(e.homeScore), Itoa(e.awayScore)]
    + [Plain(e.teamSide)]
  }

  /** `strings.Join`. */
  function Join(parts: seq<string>, sep: char): string {
    if parts == [] then ""
    else if |parts| == 1 then parts[0]
    else Join(parts[..|parts| - 1], sep) + [sep] + parts[|parts| - 1]
  }

  function RawSignature(e: MatchEvent): string {
    Join(SignatureParts(e), '|')
  }

  /** The key under which `CheckPolicy` remembers an event. */
  function DedupKeyOf(e: MatchEvent): Key {
    DedupKey(e.matchId, e.minute, e.addTime, RawSignature(e))
  }

  lemma {:induction false} JoinInjective(a: seq<string>, b: seq<string>, sep: char)
    requires |a| == |b| && Join(a, sep) == Join(b, sep)
    requires forall i | 1 <= i < |a| :: sep !in a[i] && sep !in b[i]
    ensures a == b
  {
    var n := |a| - 1;
    if n >= 1 {
      SplitLast(Join(a[..n], sep), a[n], Join(b[..n], sep), b[n], sep);
      JoinInjective(a[..n], b[..n], sep);
      assert a == a[..n] + [a[n]] && b == b[..n] + [b[n]];
    }
  }

  predicate BarFree(e: MatchEvent) {
    && '|' !in e.kind && '|' !in Plain(e.playerName) && '|' !in Plain(e.inPlayerName)
    && '|' !in Plain(e.outPlayerName) && '|' !in Plain(e.teamSide)
  }

  lemma BarFreeParts(e: MatchEvent)
    requires BarFree(e)
    ensures |SignatureParts(e)| == 12 && forall i | 1 <= i < 12 :: '|' !in SignatureParts(e)[i]
  {
    ItoaChars(e.minute);
    ItoaChars(e.addTime);
    ItoaChars(e.position);
    ItoaChars(e.reasonType);
    ItoaChars(e.homeScore);
    ItoaChars(e.awayScore);
  }

  /** The same incident: every field of the signature agrees, the names up to case and surrounding white space. */
  predicate SameIncident(e: MatchEvent, f: MatchEvent) {
    && e.matchId == f.matchId && e.kind == f.kind && e.minute == f.minute && e.addTime == f.addTime
    && e.position == f.position && e.reasonType == f.reasonType
    && e.homeScore == f.homeScore && e.awayScore == f.awayScore
    && ToLower(TrimSpace(e.playerName)) == ToLower(TrimSpace(f.playerName))
    && ToLower(TrimSpace(e.inPlayerName)) == ToLower(TrimSpace(f.inPlayerName))
    && ToLower(TrimSpace(e.outPlayerName)) == ToLower(TrimSpace(f.outPlayerName))
    && ToLower(TrimSpace(e.teamSide)) == ToLower(TrimSpace(f.teamSide))
  }

  /** For names without a bar, the signature determines every field it is made of; the match may hold bars. */
  lemma SignatureDetermines(e: MatchEvent, f: MatchEvent)
    requires BarFree(e) && BarFree(f) && RawSignature(e) == RawSignature(f)
    ensures SameIncident(e, f)
  {
    BarFreeParts(e);
    BarFreeParts(f);
    var a, b := SignatureParts(e), SignatureParts(f);
    JoinInjective(a, b, '|');
    assert a[0] == b[0] && a[1] == b[1] && a[2] == b[2] && a[3] == b[3] && a[4] == b[4] && a[11] == b[11];
    assert a[5] == b[5] && a[6] == b[6] && a[7] == b[7] && a[8] == b[8] && a[9] == b[9] && a[10] == b[10];
    ItoaInjective(e.minute, f.minute);
    ItoaInjective(e.addTime, f.addTime);
    ItoaInjective(e.position, f.position);
    ItoaInjective(e.reasonType, f.reasonType);
    ItoaInjective(e.homeScore, f.homeScore);
    ItoaInjective(e.awayScore, f.awayScore);
  }

  /** The same incident always has the same dedup key, whatever its names contain. */
  lemma SameIncidentSameKey(e: MatchEvent, f: MatchEvent)
    requires SameIncident(e, f)
    ensures DedupKeyOf(e) == DedupKeyOf(f)
  {
    assert SignatureParts(e) == SignatureParts(f);
  }

  /** Without bars in the names, the dedup keys of two events are equal exactly for the same incident. */
  lemma SameKeyExactly(e: MatchEvent, f: MatchEvent)
    requires BarFree(e) && BarFree(f)
    ensures DedupKeyOf(e) == DedupKeyOf(f) <==> SameIncident(e, f)
  {
    if SameIncident(e, f) {
      SameIncidentSameKey(e, f);
    } else if DedupKeyOf(e) == DedupKeyOf(f) {
      SignatureDetermines(e, f);
    }
  }

  /** The same letters of ASCII, in either case; anything else is the same character. */
  predicate SameLetters(s: string, t: string) {
    |s| == |t| && forall i | 0 <= i < |s| :: s[i] == t[i] || ('A' <= s[i] <= 'Z' && t[i] == s[i] + 32 as char)
  }

  /** Blanks, tabs and line breaks. */
  predicate Blank(s: string) {
    forall i | 0 <= i < |s| :: s[i] == ' ' || '\t' <= s[i] <= '\r'
  }

  lemma SameLower(s: string, t: string)
    requires SameLetters(s, t)
    ensures ToLower(s) == ToLower(t)
  {
    assert forall i | 0 <= i < |s| :: ToLower(s)[i] == LowerChar(s[i]) == LowerChar(t[i]) == ToLower(t)[i];
  }

  lemma SameTrimmed(s: string, t: string)
    requires SameLetters(s, t) && Trimmed(s)
    ensures Trimmed(t)
  {
  }

  lemma Respelled(a: string, name: string, b: string, t: string)
    requires Blank(a) && Blank(b) && Trimmed(name) && SameLetters(name, t)
    ensures ToLower(TrimSpace(a + name + b)) == ToLower(TrimSpace(t))
  {
    TrimPad(a, name, b);
    SameTrimmed(name, t);
    TrimPad("", t, "");
    assert "" + t + "" == t;
    SameLower(name, t);
  }

  /** An incident that names its player in another case and with blanks around the name has the same dedup key. */
  lemma RespelledPlayer(e: MatchEvent, a: string, name: string, b: string)
    requires Blank(a) && Blank(b) && Trimmed(name) && SameLetters(name, e.playerName)
    ensures DedupKeyOf(e.(playerName := a + name + b)) == DedupKeyOf(e)
  {
    Respelled(a, name, b, e.playerName);
    SameIncidentSameKey(e.(playerName := a + name + b), e);
  }

  /** Neither the time of mapping nor the enrichment enters the dedup key. */
  lemma KeyIsStable(e: MatchEvent, timestamp: int, d: Option<Daily>)
    ensures DedupKeyOf(Enriched(e.(timestamp := timestamp), d)) == DedupKeyOf(e)
  {
  }

  lemma {:induction false} SameIncidents(ms: seq<RawMatch>, clock: int -> int, clock': int -> int)
    ensures |BatchOf(ms, clock)| == |BatchOf(ms, clock')|
    ensures forall i | 0 <= i < |BatchOf(ms, clock)| ::
              BatchOf(ms, clock')[i] == BatchOf(ms, clock)[i].(timestamp := clock'(i))
  {
    if ms != [] {
      var init, last := ms[..|ms| - 1], ms[|ms| - 1];
      SameIncidents(init, clock, clock');
      var n := |BatchOf(init, clock)|;
      var a, b := EventsOf(last, clock, n), EventsOf(last, clock', n);
      SameTail(last, clock, clock', n);
      forall i | 0 <= i < n + |a| ensures BatchOf(ms, clock')[i] == BatchOf(ms, clock)[i].(timestamp := clock'(i)) {
        assert i >= n ==> BatchOf(ms, clock')[i] == b[i - n] && BatchOf(ms, clock)[i] == a[i - n];
      }
    }
  }

  lemma SameTail(m: RawMatch, clock: int -> int, clock': int -> int, n: nat)
    ensures |EventsOf(m, clock, n)| == |EventsOf(m, clock', n)|
    ensures forall i | 0 <= i < |EventsOf(m, clock, n)| ::
              EventsOf(m, clock', n)[i] == EventsOf(m, clock, n)[i].(timestamp := clock'(n + i))
  {
  }

  /**
   * A batch that is delivered again maps, at any other time and with any enrichment of its events, to events with
   * the same dedup keys, position by position.
   */
  lemma Redelivery(ms: seq<RawMatch>, clock: int -> int, clock': int -> int, i: nat,
                   d: Option<Daily>, d': Option<Daily>)
    requires i < |BatchOf(ms, clock)|
    ensures i < |BatchOf(ms, clock')|
    ensures DedupKeyOf(Enriched(BatchOf(ms, clock)[i], d)) == DedupKeyOf(Enriched(BatchOf(ms, clock')[i], d'))
  {
    SameIncidents(ms, clock, clock');
    var e := BatchOf(ms, clock)[i];
    KeyIsStable(e, e.timestamp, d);
    KeyIsStable(e, clock'(i), d');
  }
}
