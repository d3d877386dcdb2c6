/** Template rendering: a chain of `ReplaceAll` calls over `{{name}}` placeholders. */
module Renderer {
  import opened Strings
  import opened Events

  datatype Match = Match(homeTeam: Team, awayTeam: Team, events: seq<MatchEvent>)

  /** A template is text without opening braces, and placeholders with brace-free names. */
  datatype Segment = Literal(text: string) | Hole(name: string)

  /** Closing braces do no harm. */
  predicate Unopened(s: string) {
    '{' !in s
  }

  predicate WellFormed(segs: seq<Segment>) {
    forall g | g in segs :: if g.Literal? then Unopened(g.text) else BraceFree(g.name)
  }

  function Mark(name: string): string {
    "{{" + name + "}}"
  }

  function Flatten(segs: seq<Segment>): string {
    if segs == [] then ""
    else (match segs[0] case Literal(t) => t case Hole(n) => Mark(n)) + Flatten(segs[1..])
  }

  datatype Binding = Binding(name: string, value: string)

  /** The value of the first binding of a name; an unbound placeholder stands for itself. */
  function Lookup(bs: seq<Binding>, name: string): string {
    if bs == [] then Mark(name)
    else if bs[0].name == name then bs[0].value
    else Lookup(bs[1..], name)
  }

  /** Simultaneous substitution: every placeholder of the template is looked up once. */
  function Substitute(segs: seq<Segment>, bs: seq<Binding>): string {
    if segs == [] then ""
    else (match segs[0] case Literal(t) => t case Hole(n) => Lookup(bs, n)) + Substitute(segs[1..], bs)
  }

  predicate ValuesUnopened(bs: seq<Binding>) {
    forall i | 0 <= i < |bs| :: BraceFree(bs[i].name) && Unopened(bs[i].value)
  }

  /** Nothing is replaced after the last binding. */
  predicate LastMayOpen(bs: seq<Binding>) {
    forall i | 0 <= i < |bs| :: BraceFree(bs[i].name) && (i < |bs| - 1 ==> Unopened(bs[i].value))
  }

  /** What each supported placeholder stands for. */
  function Bindings(m: Match): seq<Binding> {
    var home := OrElse(m.homeTeam.shortName, m.homeTeam.name);
    var away := OrElse(m.awayTeam.shortName, m.awayTeam.name);
    if m.events == [] then [Binding("home_team", home), Binding("away_team", away)]
    else
      EventBindings(m.events[0]) + TeamBindings(m.events[0], home, away) + SubstitutionBindings(m.events[0])
  }

  function PlayerBindings(e: MatchEvent): seq<Binding> {
    [Binding("player", e.playerName), Binding("player_name", e.playerName),
     Binding("time", Itoa(e.minute)), Binding("minute", Itoa(e.minute))]
  }

  function ScoreBindings(e: MatchEvent): seq<Binding> {
    [Binding("position", Itoa(e.position)),
     Binding("home_score", Itoa(e.homeScore)), Binding("away_score", Itoa(e.awayScore)),
     Binding("score", Itoa(e.homeScore) + "-" + Itoa(e.awayScore))]
  }

  function EventBindings(e: MatchEvent): seq<Binding> {
    PlayerBindings(e) + ScoreBindings(e)
  }

  function SubstitutionBindings(e: MatchEvent): seq<Binding> {
    [Binding("in_player", e.inPlayerName), Binding("out_player", e.outPlayerName)]
  }

  function TeamBindings(e: MatchEvent, home: string, away: string): seq<Binding> {
    [Binding("team", if e.position == 1 then e.homeTeam else e.awayTeam),
     Binding("home_team", OrElse(e.homeTeam, home)), Binding("away_team", OrElse(e.awayTeam, away))]
  }

  /** One `ReplaceAll` per binding, in order. */
  function Chain(text: string, bs: seq<Binding>): string
    decreases |bs|
  {
    if bs == [] then text else Chain(ReplaceAll(text, Mark(bs[0].name), bs[0].value), bs[1..])
  }

  /** `Render`: the text is reassigned once per placeholder. */
  method Render(templateText: string, m: Match) returns (text: string)
    ensures text == Chain(templateText, Bindings(m))
    ensures forall segs :: templateText == Flatten(segs) && WellFormed(segs) && NamesUnopened(m) ==>
                             text == Substitute(segs, Bindings(m))
  {
    forall segs | templateText == Flatten(segs) && WellFormed(segs) && NamesUnopened(m)
      ensures Chain(templateText, Bindings(m)) == Substitute(segs, Bindings(m))
    {
      NamesDecide(m);
      ChainIsSimultaneous(segs, Bindings(m));
    }
    var homeTeam := m.homeTeam.shortName;
    var awayTeam := m.awayTeam.shortName;
    if homeTeam == "" {
      homeTeam := m.homeTeam.name;
    }
    if awayTeam == "" {
      awayTeam := m.awayTeam.name;
    }
    if |m.events| == 0 {
      text := ReplaceAll(templateText, Mark("home_team"), homeTeam);
      ghost var done := Link(templateText, templateText, [], "home_team", homeTeam);
      done := Link(templateText, text, done, "away_team", awayTeam);
      text := ReplaceAll(text, Mark("away_team"), awayTeam);
      return;
    }
    var event := m.events[0];
    text := RenderPlayer(templateText, event);
    text := RenderScore(text, event);
    text := RenderTeams(text, event, homeTeam, awayTeam);
    text := RenderSubstitution(text, event);
    ChainAppend(templateText, PlayerBindings(event), ScoreBindings(event));
    ChainAppend(templateText, EventBindings(event), TeamBindings(event, homeTeam, awayTeam));
    ChainAppend(templateText, EventBindings(event) + TeamBindings(event, homeTeam, awayTeam),
                SubstitutionBindings(event));
  }

  method RenderPlayer(was: string, event: MatchEvent) returns (text: string)
    ensures text == Chain(was, PlayerBindings(event))
  {
    text := ReplaceAll(was, Mark("player"), event.playerName);
    ghost var done := Link(was, was, [], "player", event.playerName);
    done := Link(was, text, done, "player_name", event.playerName);
    text := ReplaceAll(text, Mark("player_name"), event.playerName);
    done := Link(was, text, done, "time", Itoa(event.minute));
    text := ReplaceAll(text, Mark("time"), Itoa(event.minute));
    done := Link(was, text, done, "minute", Itoa(event.minute));
    text := ReplaceAll(text, Mark("minute"), Itoa(event.minute));
    assert done == PlayerBindings(event);
  }

  method RenderScore(was: string, event: MatchEvent) returns (text: string)
    ensures text == Chain(was, ScoreBindings(event))
  {
    text := ReplaceAll(was, Mark("position"), Itoa(event.position));
    ghost var done := Link(was, was, [], "position", Itoa(event.position));
    done := Link(was, text, done, "home_score", Itoa(event.homeScore));
    text := ReplaceAll(text, Mark("home_score"), Itoa(event.homeScore));
    done := Link(was, text, done, "away_score", Itoa(event.awayScore));
    text := ReplaceAll(text, Mark("away_score"), Itoa(event.awayScore));
    var score := Itoa(event.homeScore) + "-" + Itoa(event.awayScore);
    done := Link(was, text, done, "score", score);
    text := ReplaceAll(text, Mark("score"), score);
    assert done == ScoreBindings(event);
  }

  method RenderTeams(was: string, event: MatchEvent, home: string, away: string) returns (text: string)
    ensures text == Chain(was, TeamBindings(event, home, away))
  {
    var teamName := event.awayTeam;
    if event.position == 1 {
      teamName := event.homeTeam;
    }
    text := ReplaceAll(was, Mark("team"), teamName);
    ghost var done := Link(was, was, [], "team", teamName);
    done := Link(was, text, done, "home_team", OrElse(event.homeTeam, home));
    if event.homeTeam != "" {
      text := ReplaceAll(text, Mark("home_team"), event.homeTeam);
    } else {
      text := ReplaceAll(text, Mark("home_team"), home);
    }
    done := Link(was, text, done, "away_team", OrElse(event.awayTeam, away));
    if event.awayTeam != "" {
      text := ReplaceAll(text, Mark("away_team"), event.awayTeam);
    } else {
      text := ReplaceAll(text, Mark("away_team"), away);
    }
    assert done == TeamBindings(event, home, away);
  }

  method RenderSubstitution(was: string, event: MatchEvent) returns (text: string)
    ensures text == Chain(was, SubstitutionBindings(event))
  {
    text := ReplaceAll(was, Mark("in_player"), event.inPlayerName);
    ghost var done := Link(was, was, [], "in_player", event.inPlayerName);
    done := Link(was, text, done, "out_player", event.outPlayerName);
    text := ReplaceAll(text, Mark("out_player"), event.outPlayerName);
    assert done == SubstitutionBindings(event);
  }

  /** One more `ReplaceAll` at the end of the chain. */
  lemma Link(start: string, text: string, done: seq<Binding>, name: string, value: string)
    returns (longer: seq<Binding>)
    requires text == Chain(start, done)
    ensures longer == done + [Binding(name, value)]
    ensures ReplaceAll(text, Mark(name), value) == Chain(start, longer)
  {
    longer := done + [Binding(name, value)];
    ChainAppend(start, done, [Binding(name, value)]);
    assert [Binding(name, value)][1..] == [];
  }

  lemma {:induction false} ChainAppend(start: string, bs: seq<Binding>, more: seq<Binding>)
    ensures Chain(start, bs + more) == Chain(Chain(start, bs), more)
    decreases |bs|
  {
    if bs == [] {
      assert bs + more == more;
    } else {
      assert (bs + more)[1..] == bs[1..] + more;
      ChainAppend(ReplaceAll(start, Mark(bs[0].name), bs[0].value), bs[1..], more);
    }
  }

  lemma {:induction false} SkipText(t: string, rest: string, p: string, v: string)
    requires '{' !in t
    ensures ReplaceAll(t + rest, Mark(p), v) == t + ReplaceAll(rest, Mark(p), v)
  {
    if t == "" {
      assert t + rest == rest;
    } else {
      assert Mark(p)[0] == '{' && (t + rest)[0] == t[0] && t[0] in t;
      assert (t + rest)[1..] == t[1..] + rest;
      SkipText(t[1..], rest, p, v);
    }
  }

  /** Two different brace-free names, each followed by a brace, differ at some position. */
  lemma MarksDiffer(name: string, p: string, rest: string) returns (k: nat)
    requires BraceFree(name) && BraceFree(p) && name != p
    ensures k < |Mark(p)| && k < |Mark(name)| && Mark(name)[k] != Mark(p)[k]
  {
    var n := if |name| < |p| then |name| else |p|;
    assert |name| == |p| ==> name[..n] == name && p[..n] == p;
    if name[..n] == p[..n] {
      k := n + 2;
      if |name| < |p| {
        assert p[n] in p;
      } else if |p| < |name| {
        assert name[n] in name;
      }
    } else {
      var i :| 0 <= i < n && name[i] != p[i];
      k := i + 2;
    }
  }

  lemma SkipHole(name: string, rest: string, p: string, v: string)
    requires BraceFree(name) && BraceFree(p)
    ensures ReplaceAll(Mark(name) + rest, Mark(p), v)
         == (if name == p then v else Mark(name)) + ReplaceAll(rest, Mark(p), v)
  {
    var s := Mark(name) + rest;
    if name == p {
      assert s[..|Mark(p)|] == Mark(p);
      assert s[|Mark(p)|..] == rest;
    } else {
      var t := name + "}}";
      var k := MarksDiffer(name, p, rest);
      assert s[k] != Mark(p)[k];
      assert s[1..] == "{" + t + rest && s[1..][1..] == t + rest;
      assert t[0] in t;
      assert s[1..][1] != Mark(p)[1];
      SkipText(t, rest, p, v);
      assert Mark(name) == "{" + ("{" + t);
    }
  }

  function Fill(segs: seq<Segment>, p: string, v: string): seq<Segment> {
    if segs == [] then [] else [if segs[0] == Hole(p) then Literal(v) else segs[0]] + Fill(segs[1..], p, v)
  }

  lemma {:induction false} FillOne(segs: seq<Segment>, p: string, v: string)
    requires WellFormed(segs) && BraceFree(p)
    ensures ReplaceAll(Flatten(segs), Mark(p), v) == Flatten(Fill(segs, p, v))
    ensures Unopened(v) ==> WellFormed(Fill(segs, p, v))
  {
    if segs != [] {
      assert segs[0] in segs;
      FillOne(segs[1..], p, v);
      match segs[0] {
        case Literal(t) => SkipText(t, Flatten(segs[1..]), p, v);
        case Hole(n) => SkipHole(n, Flatten(segs[1..]), p, v);
      }
    }
  }

  lemma {:induction false} FillThenSubstitute(segs: seq<Segment>, b: Binding, bs: seq<Binding>)
    ensures Substitute(Fill(segs, b.name, b.value), bs) == Substitute(segs, [b] + bs)
  {
    if segs != [] {
      FillThenSubstitute(segs[1..], b, bs);
      assert ([b] + bs)[1..] == bs;
    }
  }

  lemma {:induction false} SubstituteNothing(segs: seq<Segment>)
    ensures Substitute(segs, []) == Flatten(segs)
  {
    if segs != [] {
      SubstituteNothing(segs[1..]);
    }
  }

  /** The sequential chain is one simultaneous substitution, however often a name is bound. */
  lemma {:induction false} ChainIsSimultaneous(segs: seq<Segment>, bs: seq<Binding>)
    requires WellFormed(segs) && LastMayOpen(bs)
    ensures Chain(Flatten(segs), bs) == Substitute(segs, bs)
    decreases |bs|
  {
    if bs == [] {
      SubstituteNothing(segs);
    } else {
      var filled := Fill(segs, bs[0].name, bs[0].value);
      FillOne(segs, bs[0].name, bs[0].value);
      if |bs| == 1 {
        SubstituteNothing(filled);
      } else {
        ChainIsSimultaneous(filled, bs[1..]);
      }
      FillThenSubstitute(segs, bs[0], bs[1..]);
      assert [bs[0]] + bs[1..] == bs;
    }
  }

  lemma ItoaBraceFree(n: int)
    ensures BraceFree(Itoa(n))
  {
    ItoaChars(n);
  }

  lemma OneUnopened(bs: seq<Binding>, name: string, value: string)
    requires ValuesUnopened(bs) && BraceFree(name) && Unopened(value)
    ensures ValuesUnopened(bs + [Binding(name, value)])
  {
  }

  lemma ScoreUnopened(e: MatchEvent)
    ensures ValuesUnopened(ScoreBindings(e))
  {
    ItoaBraceFree(e.position);
    ItoaBraceFree(e.homeScore);
    ItoaBraceFree(e.awayScore);
    var bs := [Binding("position", Itoa(e.position))];
    OneUnopened(bs, "home_score", Itoa(e.homeScore));
    bs := bs + [Binding("home_score", Itoa(e.homeScore))];
    OneUnopened(bs, "away_score", Itoa(e.awayScore));
    bs := bs + [Binding("away_score", Itoa(e.awayScore))];
    OneUnopened(bs, "score", Itoa(e.homeScore) + "-" + Itoa(e.awayScore));
    assert ScoreBindings(e) == bs + [Binding("score", Itoa(e.homeScore) + "-" + Itoa(e.awayScore))];
  }

  /** The team names that an event brings in. */
  predicate TeamNamesUnopened(e: MatchEvent, home: string, away: string) {
    && Unopened(if e.position == 1 then e.homeTeam else e.awayTeam)
    && Unopened(OrElse(e.homeTeam, home)) && Unopened(OrElse(e.awayTeam, away))
  }

  lemma TeamsUnopened(e: MatchEvent, home: string, away: string)
    ensures ValuesUnopened(TeamBindings(e, home, away)) <==> TeamNamesUnopened(e, home, away)
  {
    var bs := TeamBindings(e, home, away);
    assert ValuesUnopened(bs) ==> Unopened(bs[0].value) && Unopened(bs[1].value) && Unopened(bs[2].value);
  }

  lemma SubstitutionUnopened(e: MatchEvent)
    ensures ValuesUnopened(SubstitutionBindings(e)) <==> Unopened(e.inPlayerName) && Unopened(e.outPlayerName)
    ensures LastMayOpen(SubstitutionBindings(e)) <==> Unopened(e.inPlayerName)
  {
    var bs := SubstitutionBindings(e);
    assert bs[0].value == e.inPlayerName && bs[1].value == e.outPlayerName;
  }

  lemma AppendUnopened(a: seq<Binding>, b: seq<Binding>)
    ensures ValuesUnopened(a + b) <==> ValuesUnopened(a) && ValuesUnopened(b)
    ensures b != [] ==> (LastMayOpen(a + b) <==> ValuesUnopened(a) && LastMayOpen(b))
  {
    assert forall i | 0 <= i < |a| :: (a + b)[i] == a[i];
    assert forall i | 0 <= i < |b| :: (a + b)[|a| + i] == b[i];
  }

  function HomeOf(m: Match): string {
    OrElse(m.homeTeam.shortName, m.homeTeam.name)
  }

  function AwayOf(m: Match): string {
    OrElse(m.awayTeam.shortName, m.awayTeam.name)
  }

  /** The names that are rendered, other than that of the player. */
  predicate OthersUnopened(m: Match)
    requires m.events != []
  {
    var e := m.events[0];
    TeamNamesUnopened(e, HomeOf(m), AwayOf(m)) && Unopened(e.inPlayerName) && Unopened(e.outPlayerName)
  }

  /** The names that are rendered, except the last one replaced. */
  predicate NamesUnopened(m: Match) {
    if m.events == [] then Unopened(HomeOf(m))
    else
      var e := m.events[0];
      Unopened(e.playerName) && TeamNamesUnopened(e, HomeOf(m), AwayOf(m)) && Unopened(e.inPlayerName)
  }

  /** The numbers that are bound behind the player's name. */
  function NumberBindings(e: MatchEvent): seq<Binding> {
    [Binding("time", Itoa(e.minute)), Binding("minute", Itoa(e.minute))] + ScoreBindings(e)
  }

  /** What is bound behind the player's name. */
  function Behind(m: Match): seq<Binding>
    requires m.events != []
  {
    var e := m.events[0];
    NumberBindings(e) + (TeamBindings(e, HomeOf(m), AwayOf(m)) + SubstitutionBindings(e))
  }

  /** The two placeholders of the player's name. */
  function NameBindings(v: string): seq<Binding> {
    [Binding("player", v), Binding("player_name", v)]
  }

  lemma NameUnopened(v: string)
    ensures ValuesUnopened(NameBindings(v)) <==> Unopened(v)
  {
    assert NameBindings(v)[0].value == v;
  }

  lemma BindingsSplit(m: Match)
    requires m.events != []
    ensures Bindings(m) == NameBindings(m.events[0].playerName) + Behind(m)
  {
    var e := m.events[0];
    assert PlayerBindings(e) == [Binding("player", e.playerName), Binding("player_name", e.playerName)]
                                + [Binding("time", Itoa(e.minute)), Binding("minute", Itoa(e.minute))];
  }

  lemma NumbersUnopened(e: MatchEvent)
    ensures ValuesUnopened(NumberBindings(e))
  {
    var times := [Binding("time", Itoa(e.minute)), Binding("minute", Itoa(e.minute))];
    ItoaBraceFree(e.minute);
    assert ValuesUnopened(times);
    ScoreUnopened(e);
    AppendUnopened(times, ScoreBindings(e));
  }

  lemma BehindUnopened(m: Match)
    requires m.events != []
    ensures ValuesUnopened(Behind(m)) <==> OthersUnopened(m)
    ensures LastMayOpen(Behind(m))
       <==> TeamNamesUnopened(m.events[0], HomeOf(m), AwayOf(m)) && Unopened(m.events[0].inPlayerName)
  {
    var e := m.events[0];
    var teams := TeamBindings(e, HomeOf(m), AwayOf(m));
    NumbersUnopened(e);
    TeamsUnopened(e, HomeOf(m), AwayOf(m));
    SubstitutionUnopened(e);
    AppendUnopened(teams, SubstitutionBindings(e));
    AppendUnopened(NumberBindings(e), teams + SubstitutionBindings(e));
  }

  /** The names decide: numbers never contain braces, and nothing is replaced after the last name. */
  lemma NamesDecide(m: Match)
    ensures LastMayOpen(Bindings(m)) <==> NamesUnopened(m)
  {
    if m.events != [] {
      BindingsSplit(m);
      BehindUnopened(m);
      NameUnopened(m.events[0].playerName);
      AppendUnopened(NameBindings(m.events[0].playerName), Behind(m));
    } else {
      TeamsOnlyUnopened(m);
    }
  }

  lemma TeamsOnlyUnopened(m: Match)
    requires m.events == []
    ensures LastMayOpen(Bindings(m)) <==> Unopened(HomeOf(m))
  {
    assert Bindings(m)[0].value == HomeOf(m);
  }

  lemma LookupCons(b: Binding, rest: seq<Binding>, name: string)
    ensures Lookup([b] + rest, name) == if name == b.name then b.value else Lookup(rest, name)
  {
  }

  lemma LookupPlayer(e: MatchEvent, rest: seq<Binding>, name: string)
    ensures Lookup(PlayerBindings(e) + rest, name)
         == if name == "player" || name == "player_name" then e.playerName
            else if name == "time" || name == "minute" then Itoa(e.minute)
            else Lookup(rest, name)
  {
    var bs := PlayerBindings(e);
    assert bs + rest == [bs[0]] + ([bs[1]] + ([bs[2]] + ([bs[3]] + rest)));
    LookupCons(bs[0], [bs[1]] + ([bs[2]] + ([bs[3]] + rest)), name);
    LookupCons(bs[1], [bs[2]] + ([bs[3]] + rest), name);
    LookupCons(bs[2], [bs[3]] + rest, name);
    LookupCons(bs[3], rest, name);
  }

  lemma LookupScore(e: MatchEvent, rest: seq<Binding>, name: string)
    ensures Lookup(ScoreBindings(e) + rest, name)
         == if name == "position" then Itoa(e.position)
            else if name == "home_score" then Itoa(e.homeScore)
            else if name == "away_score" then Itoa(e.awayScore)
            else if name == "score" then Itoa(e.homeScore) + "-" + Itoa(e.awayScore)
            else Lookup(rest, name)
  {
    var bs := ScoreBindings(e);
    assert bs + rest == [bs[0]] + ([bs[1]] + ([bs[2]] + ([bs[3]] + rest)));
    LookupCons(bs[0], [bs[1]] + ([bs[2]] + ([bs[3]] + rest)), name);
    LookupCons(bs[1], [bs[2]] + ([bs[3]] + rest), name);
    LookupCons(bs[2], [bs[3]] + rest, name);
    LookupCons(bs[3], rest, name);
  }

  lemma LookupTeams(e: MatchEvent, home: string, away: string, name: string)
    ensures Lookup(TeamBindings(e, home, away) + SubstitutionBindings(e), name)
         == if name == "team" then (if e.position == 1 then e.homeTeam else e.awayTeam)
            else if name == "home_team" then OrElse(e.homeTeam, home)
            else if name == "away_team" then OrElse(e.awayTeam, away)
            else if name == "in_player" then e.inPlayerName
            else if name == "out_player" then e.outPlayerName
            else Mark(name)
  {
    var bs := TeamBindings(e, home, away);
    var cs := SubstitutionBindings(e);
    assert bs + cs == [bs[0]] + ([bs[1]] + ([bs[2]] + ([cs[0]] + ([cs[1]] + []))));
    LookupCons(bs[0], [bs[1]] + ([bs[2]] + ([cs[0]] + ([cs[1]] + []))), name);
    LookupCons(bs[1], [bs[2]] + ([cs[0]] + ([cs[1]] + [])), name);
    LookupCons(bs[2], [cs[0]] + ([cs[1]] + []), name);
    LookupCons(cs[0], [cs[1]] + [], name);
    LookupCons(cs[1], [], name);
  }

  /** With an event, the thirteen supported placeholders get exactly their values and every other one survives. */
  lemma WithEvent(m: Match, name: string)
    requires m.events != []
    ensures var e := m.events[0];
      Lookup(Bindings(m), name)
         == if name == "player" || name == "player_name" then e.playerName
            else if name == "time" || name == "minute" then Itoa(e.minute)
            else if name == "position" then Itoa(e.position)
            else if name == "home_score" then Itoa(e.homeScore)
            else if name == "away_score" then Itoa(e.awayScore)
            else if name == "score" then Itoa(e.homeScore) + "-" + Itoa(e.awayScore)
            else if name == "team" then (if e.position == 1 then e.homeTeam else e.awayTeam)
            else if name == "home_team" then
              (if e.homeTeam != "" then e.homeTeam
               else if m.homeTeam.shortName != "" then m.homeTeam.shortName else m.homeTeam.name)
            else if name == "away_team" then
              (if e.awayTeam != "" then e.awayTeam
               else if m.awayTeam.shortName != "" then m.awayTeam.shortName else m.awayTeam.name)
            else if name == "in_player" then e.inPlayerName
            else if name == "out_player" then e.outPlayerName
            else Mark(name)
  {
    var e := m.events[0];
    var home := OrElse(m.homeTeam.shortName, m.homeTeam.name);
    var away := OrElse(m.awayTeam.shortName, m.awayTeam.name);
    var tail := TeamBindings(e, home, away) + SubstitutionBindings(e);
    LookupPlayer(e, ScoreBindings(e) + tail, name);
    LookupScore(e, tail, name);
    LookupTeams(e, home, away, name);
    assert Bindings(m) == PlayerBindings(e) + (ScoreBindings(e) + tail);
  }

  /** Without events only the two team names are replaced; every other placeholder survives. */
  lemma WithoutEvents(m: Match, name: string)
    requires m.events == []
    ensures Lookup(Bindings(m), name)
         == if name == "home_team" then
              (if m.homeTeam.shortName != "" then m.homeTeam.shortName else m.homeTeam.name)
            else if name == "away_team" then
              (if m.awayTeam.shortName != "" then m.awayTeam.shortName else m.awayTeam.name)
            else Mark(name)
  {
    var bs := Bindings(m);
    assert bs == [bs[0]] + ([bs[1]] + []);
    LookupCons(bs[0], [bs[1]] + [], name);
    LookupCons(bs[1], [], name);
  }

  // ---------- names with opening braces ----------

  /** The opening braces of a text. */
  function Opens(s: string): nat {
    if s == "" then 0 else (if s[0] == '{' then 1 else 0) + Opens(s[1..])
  }

  lemma {:induction false} OpensAppend(a: string, b: string)
    ensures Opens(a + b) == Opens(a) + Opens(b)
  {
    if a == "" {
      assert a + b == b;
    } else {
      assert (a + b)[1..] == a[1..] + b;
      OpensAppend(a[1..], b);
    }
  }

  lemma {:induction false} OpensNone(s: string)
    requires Unopened(s)
    ensures Opens(s) == 0
  {
    if s != "" {
      assert s[0] in s;
      OpensNone(s[1..]);
    }
  }

  lemma MarkOpens(p: string)
    ensures Opens(Mark(p)) >= 2
  {
    assert Mark(p)[1..][1..] == p + "}}";
  }

  lemma ContainsTail(s: string, t: string)
    requires s != "" && !(t <= s)
    ensures Contains(s, t) <==> Contains(s[1..], t)
  {
    if i: nat :| i <= |s| && t <= s[i..] {
      assert s[i..] == s[1..][i - 1..];
    }
    if i: nat :| i <= |s[1..]| && t <= s[1..][i..] {
      assert s[1..][i..] == s[i + 1..];
    }
  }

  /** Replacing a placeholder by text without opening braces loses some of them, unless it does not occur. */
  lemma {:induction false} ReplaceOpens(s: string, p: string, v: string)
    requires Unopened(v)
    ensures if Contains(s, Mark(p)) then Opens(ReplaceAll(s, Mark(p), v)) < Opens(s) else ReplaceAll(s, Mark(p), v) == s
  {
    if s == "" {
    } else if Mark(p) <= s {
      var rest := s[|Mark(p)|..];
      assert s[0..] == s && s == Mark(p) + rest;
      ReplaceOpens(rest, p, v);
      OpensAppend(Mark(p), rest);
      MarkOpens(p);
      OpensAppend(v, ReplaceAll(rest, Mark(p), v));
      OpensNone(v);
    } else {
      ContainsTail(s, Mark(p));
      ReplaceOpens(s[1..], p, v);
      assert ([s[0]] + ReplaceAll(s[1..], Mark(p), v))[1..] == ReplaceAll(s[1..], Mark(p), v);
    }
  }

  lemma {:induction false} ChainOpens(s: string, bs: seq<Binding>)
    requires ValuesUnopened(bs)
    ensures Opens(Chain(s, bs)) <= Opens(s)
    decreases |bs|
  {
    if bs != [] {
      ReplaceOpens(s, bs[0].name, bs[0].value);
      ChainOpens(ReplaceAll(s, Mark(bs[0].name), bs[0].value), bs[1..]);
    }
  }

  predicate NoneOccurs(s: string, bs: seq<Binding>) {
    forall i | 0 <= i < |bs| :: !Contains(s, Mark(bs[i].name))
  }

  /** A chain of such values keeps a text exactly when no placeholder of the chain occurs in it. */
  lemma {:induction false} ChainKeepsExactly(s: string, bs: seq<Binding>)
    requires ValuesUnopened(bs)
    ensures Chain(s, bs) == s <==> NoneOccurs(s, bs)
    decreases |bs|
  {
    if bs != [] {
      ReplaceOpens(s, bs[0].name, bs[0].value);
      if Contains(s, Mark(bs[0].name)) {
        ChainOpens(ReplaceAll(s, Mark(bs[0].name), bs[0].value), bs[1..]);
      } else {
        ChainKeepsExactly(s, bs[1..]);
        assert NoneOccurs(s, bs) <==> NoneOccurs(s, bs[1..]) by {
          assert forall i | 1 <= i < |bs| :: bs[i] == bs[1..][i - 1];
        }
      }
    }
  }

  /** Bindings of other names pass a placeholder by. */
  lemma {:induction false} LonePlaceholder(p: string, before: seq<Binding>, v: string, bs: seq<Binding>)
    requires BraceFree(p) && forall i | 0 <= i < |before| :: BraceFree(before[i].name) && before[i].name != p
    ensures Chain(Mark(p), before + [Binding(p, v)] + bs) == Chain(v, bs)
    decreases |before|
  {
    var all := before + [Binding(p, v)] + bs;
    if before == [] {
      SkipHole(p, "", p, v);
      assert Mark(p) + "" == Mark(p) && v + "" == v && all[1..] == bs;
    } else {
      SkipHole(p, "", before[0].name, before[0].value);
      assert Mark(p) + "" == Mark(p);
      assert all[1..] == before[1..] + [Binding(p, v)] + bs;
      LonePlaceholder(p, before[1..], v, bs);
    }
  }

  /**
   * The name of a player, whatever braces it has, is rendered as it is exactly when it contains none of the
   * placeholders that are replaced after it.
   */
  lemma PlayerNameSurvives(m: Match)
    requires m.events != [] && OthersUnopened(m)
    ensures var v := m.events[0].playerName;
      Chain(Mark("player_name"), Bindings(m)) == Substitute([Hole("player_name")], Bindings(m)) == v
      <==> NoneOccurs(v, Behind(m))
  {
    var v := m.events[0].playerName;
    BindingsSplit(m);
    BehindUnopened(m);
    assert Bindings(m) == [Binding("player", v)] + [Binding("player_name", v)] + Behind(m);
    LonePlaceholder("player_name", [Binding("player", v)], v, Behind(m));
    ChainKeepsExactly(v, Behind(m));
    WithEvent(m, "player_name");
    HoleAlone("player_name", Bindings(m));
  }

  lemma MinuteShape(m: Match, v: string, n: int) returns (rest: seq<Binding>)
    requires m.events != [] && OthersUnopened(m) && v == m.events[0].playerName && n == m.events[0].minute
    ensures ValuesUnopened(rest)
    ensures var before := [Binding("player_name", v), Binding("time", Itoa(n))];
      Bindings(m) == [Binding("player", v)] + (before + [Binding("minute", Itoa(n))] + rest)
  {
    rest := Behind(m)[2..];
    BindingsSplit(m);
    BehindUnopened(m);
    assert Behind(m) == [Binding("time", Itoa(n)), Binding("minute", Itoa(n))] + rest;
    AppendUnopened([Binding("time", Itoa(n)), Binding("minute", Itoa(n))], rest);
  }

  /** A player called `{{minute}}` is rendered as the minute, unlike in a simultaneous substitution. */
  lemma BracedNameIsExpandedAgain(m: Match)
    requires m.events != [] && OthersUnopened(m) && m.events[0].playerName == Mark("minute")
    ensures Chain(Mark("player"), Bindings(m)) == Itoa(m.events[0].minute) != Mark("minute")
    ensures Substitute([Hole("player")], Bindings(m)) == Mark("minute")
  {
    var n := m.events[0].minute;
    var rest := MinuteShape(m, Mark("minute"), n);
    MinuteBehindPlayer(n, Mark("minute"), rest);
    WithEvent(m, "player");
    HoleAlone("player", Bindings(m));
    NumberIsNoMark(n);
  }

  lemma HoleAlone(p: string, bs: seq<Binding>)
    ensures Substitute([Hole(p)], bs) == Lookup(bs, p)
  {
    assert [Hole(p)][1..] == [];
  }

  lemma NumberIsNoMark(n: int)
    ensures Itoa(n) != Mark("minute")
  {
    ItoaBraceFree(n);
    assert Mark("minute")[0] == '{';
    assert forall i | 0 <= i < |Itoa(n)| :: Itoa(n)[i] in Itoa(n);
  }

  lemma MinuteBehindPlayer(n: int, v: string, rest: seq<Binding>)
    requires v == Mark("minute") && ValuesUnopened(rest)
    ensures var before := [Binding("player_name", v), Binding("time", Itoa(n))];
      Chain(Mark("player"), [Binding("player", v)] + (before + [Binding("minute", Itoa(n))] + rest)) == Itoa(n)
  {
    var before := [Binding("player_name", v), Binding("time", Itoa(n))];
    var bs := before + [Binding("minute", Itoa(n))] + rest;
    assert [] + [Binding("player", v)] + bs == [Binding("player", v)] + bs;
    LonePlaceholder("player", [], v, bs);
    LonePlaceholder("minute", before, Itoa(n), rest);
    ChainOfNumber(n, rest);
  }

  lemma ChainOfNumber(n: int, bs: seq<Binding>)
    requires ValuesUnopened(bs)
    ensures Chain(Itoa(n), bs) == Itoa(n)
  {
    ItoaBraceFree(n);
    forall i | 0 <= i < |bs| ensures !Contains(Itoa(n), Mark(bs[i].name)) {
      ReplaceOpens(Itoa(n), bs[i].name, bs[i].value);
      OpensNone(Itoa(n));
    }
    ChainKeepsExactly(Itoa(n), bs);
  }
}
