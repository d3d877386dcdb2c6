/** The generator's fallback texts, and why the quality filter accepts them. */
module Generator {
  import opened Strings
  import opened Events
  import opened Quality

  const QUIET := ["Trận đấu đang diễn ra, anh em giữ nhịp bình luận nhé!",
                  "Không khí trận này đang nóng dần lên rồi đó!",
                  "Giữ vị trí đi, lát nữa chắc chắn có biến!"]

  const UPCOMING := ["Kèo này căng đó, chuẩn bị vào nhịp thôi!",
                     "Trận sắp bắt đầu, anh em vào chỗ ngồi chưa?",
                     "Không khí trước giờ bóng lăn đang nóng lên rồi!",
                     "Đội hình hai bên có vẻ thú vị, chờ bóng lăn thôi!",
                     "Sắp kickoff rồi, cùng xem đội nào mở điểm trước nhé!"]

  /** `getGenericFallbackTemplate`; `chat` is the number of messages in the chat window. */
  function FallbackText(e: MatchEvent, chat: nat): string {
    match e.kind
    case "" => QUIET[chat % 3]
    case "MATCH_UPCOMING" => UPCOMING[chat % 5]
    case "GOAL" => "⚽ GOAL! " + e.playerName + " ghi bàn phút " + Itoa(e.minute) + "!"
    case "YELLOW_CARD" => "🟨 Thẻ vàng cho " + e.playerName + " phút " + Itoa(e.minute)
    case "RED_CARD" => "🟥 Thẻ đỏ! " + e.playerName + " bị truất quyền thi đấu phút " + Itoa(e.minute)
    case "SUBSTITUTION" => "🔄 Thay người: " + e.inPlayerName + " vào sân thay " + e.outPlayerName
    case _ => "⚽ Sự kiện " + e.kind + " diễn ra phút " + Itoa(e.minute)
  }

  /** `withMatchTeams`. */
  function WithMatchTeams(homeTeam: Team, awayTeam: Team, text: string): string {
    var home, away := TrimSpace(homeTeam.shortName), TrimSpace(awayTeam.shortName);
    if home == "" && away == "" then text
    else if home == "" then "[" + away + "] " + text
    else if away == "" then "[" + home + "] " + text
    else "[" + home + " vs " + away + "] " + text
  }

  /** The team prefix only adds text in front. */
  lemma TeamsInFront(homeTeam: Team, awayTeam: Team, text: string) returns (prefix: string)
    ensures WithMatchTeams(homeTeam, awayTeam, text) == prefix + text
  {
    var home, away := TrimSpace(homeTeam.shortName), TrimSpace(awayTeam.shortName);
    prefix := if home == "" && away == "" then ""
              else if home == "" then "[" + away + "] "
              else if away == "" then "[" + home + "] "
              else "[" + home + " vs " + away + "] ";
  }

  lemma NamedWithMinute(text: string, a: string, name: string, b: string, minute: string, c: string)
    requires text == a + name + b + " phút " + minute + c
    ensures Contains(text, name) && Contains(text, " phút " + minute)
  {
    ContainsAt(a, name, b + " phút " + minute + c);
    assert text == a + name + (b + " phút " + minute + c);
    ContainsAt(a + name + b, " phút " + minute, c);
    assert text == (a + name + b) + (" phút " + minute) + c;
  }

  lemma GoalNames(e: MatchEvent, chat: nat)
    requires e.kind == "GOAL"
    ensures var text := FallbackText(e, chat); Contains(text, e.playerName) && Contains(text, " phút " + Itoa(e.minute))
  {
    assert " ghi bàn phút " == " ghi bàn" + " phút ";
    NamedWithMinute(FallbackText(e, chat), "⚽ GOAL! ", e.playerName, " ghi bàn", Itoa(e.minute), "!");
  }

  lemma RedCardNames(e: MatchEvent, chat: nat)
    requires e.kind == "RED_CARD"
    ensures var text := FallbackText(e, chat); Contains(text, e.playerName) && Contains(text, " phút " + Itoa(e.minute))
  {
    var sentOff := " bị truất quyền thi đấu";
    assert " bị truất quyền thi đấu phút " == sentOff + " phút ";
    NamedWithMinute(FallbackText(e, chat), "🟥 Thẻ đỏ! ", e.playerName, sentOff, Itoa(e.minute), "");
  }

  lemma YellowCardNames(e: MatchEvent, chat: nat)
    requires e.kind == "YELLOW_CARD"
    ensures var text := FallbackText(e, chat); Contains(text, e.playerName) && Contains(text, " phút " + Itoa(e.minute))
  {
    NamedWithMinute(FallbackText(e, chat), "🟨 Thẻ vàng cho ", e.playerName, "", Itoa(e.minute), "");
  }

  lemma SubstitutionNames(e: MatchEvent, chat: nat)
    requires e.kind == "SUBSTITUTION"
    ensures Contains(FallbackText(e, chat), e.inPlayerName + " vào sân thay " + e.outPlayerName)
  {
    PairHeld("🔄 Thay người: ", e.inPlayerName, " vào sân thay ", e.outPlayerName, "");
    assert FallbackText(e, chat) + "" == FallbackText(e, chat);
  }

  /** Goals and cards name the player and the minute, substitutions the two players in their order. */
  lemma FallbackNames(e: MatchEvent, chat: nat)
    ensures e.kind in {"GOAL", "YELLOW_CARD", "RED_CARD"} ==>
              && Contains(FallbackText(e, chat), e.playerName)
              && Contains(FallbackText(e, chat), " phút " + Itoa(e.minute))
    ensures e.kind == "SUBSTITUTION" ==>
              Contains(FallbackText(e, chat), e.inPlayerName + " vào sân thay " + e.outPlayerName)
  {
    if e.kind == "GOAL" {
      GoalNames(e, chat);
    } else if e.kind == "YELLOW_CARD" {
      YellowCardNames(e, chat);
    } else if e.kind == "RED_CARD" {
      RedCardNames(e, chat);
    } else if e.kind == "SUBSTITUTION" {
      SubstitutionNames(e, chat);
    }
  }

  lemma PairHeld(a: string, x: string, y: string, z: string, b: string)
    ensures Contains(a + x + y + z + b, x + y + z) && Contains(a + x + y + z + b, x)
  {
    assert a + x + y + z + b == a + (x + y + z) + b;
    ContainsAt(a, x + y + z, b);
    assert a + x + y + z + b == a + x + (y + z + b);
    ContainsAt(a, x, y + z + b);
  }

  lemma OneHeld(a: string, x: string, b: string)
    ensures Contains(a + x + b, x)
  {
    ContainsAt(a, x, b);
  }

  /** It names the teams that have a short name, the home team first. */
  lemma TeamsNamed(homeTeam: Team, awayTeam: Team, text: string)
    ensures var home, away := TrimSpace(homeTeam.shortName), TrimSpace(awayTeam.shortName);
      var t := WithMatchTeams(homeTeam, awayTeam, text);
      && (home != "" && away != "" ==> Contains(t, home + " vs " + away))
      && (home != "" || away != "" ==> Contains(t, if home != "" then home else away))
      && (home == away == "" ==> t == text)
  {
    var home, away := TrimSpace(homeTeam.shortName), TrimSpace(awayTeam.shortName);
    PairHeld("[", home, " vs ", away, "] " + text);
    OneHeld("[", home, "] " + text);
    OneHeld("[", away, "] " + text);
    Regroup("[" + home + " vs " + away, "] ", text);
    Regroup("[" + home, "] ", text);
    Regroup("[" + away, "] ", text);
  }

  /** A word inside a text is still there when the text is trimmed and lower-cased. */
  lemma WordSurvives(a: string, word: string, b: string)
    requires word != "" && Trimmed(word)
    ensures Contains(ToLower(TrimSpace(a + word + b)), ToLower(word))
  {
    TrimAround(a, word, b);
    var l, r := TrimLeft(a), TrimRight(b);
    assert ToLower(l + word + r) == ToLower(l) + ToLower(word) + ToLower(r);
    ContainsAt(ToLower(l), ToLower(word), ToLower(r));
  }

  /** The word each checked event type is recognised by. */
  function KeyWord(kind: string): string
    requires kind in {"GOAL", "RED_CARD", "PENALTY"}
  {
    if kind == "RED_CARD" then "Thẻ đỏ" else kind
  }

  lemma KeyWordsAreKeywords(kind: string)
    requires kind in {"GOAL", "RED_CARD", "PENALTY"}
    ensures KeyWord(kind) != "" && Trimmed(KeyWord(kind))
    ensures Keywords(kind) != [] && ToLower(KeyWord(kind)) == Keywords(kind)[0]
  {
  }

  lemma FirstKeyword(kind: string, textLower: string)
    requires Keywords(kind) != [] && Contains(textLower, Keywords(kind)[0])
    ensures Consistent(kind, textLower)
  {
  }

  lemma GoalText(e: MatchEvent, chat: nat)
    requires e.kind == "GOAL"
    ensures FallbackText(e, chat) == "⚽ " + "GOAL" + ("! " + e.playerName + " ghi bàn phút " + Itoa(e.minute) + "!")
  {
    assert "⚽ " + "GOAL" + "! " == "⚽ GOAL! ";
  }

  lemma RedCardText(e: MatchEvent, chat: nat)
    requires e.kind == "RED_CARD"
    ensures FallbackText(e, chat)
         == "🟥 " + "Thẻ đỏ" + ("! " + e.playerName + " bị truất quyền thi đấu phút " + Itoa(e.minute))
  {
    assert "🟥 " + "Thẻ đỏ" + "! " == "🟥 Thẻ đỏ! ";
  }

  lemma PenaltyText(e: MatchEvent, chat: nat)
    requires e.kind == "PENALTY"
    ensures FallbackText(e, chat) == "⚽ Sự kiện " + "PENALTY" + (" diễn ra phút " + Itoa(e.minute))
  {
  }

  lemma FallbackHoldsKeyWord(e: MatchEvent, chat: nat) returns (a: string, b: string)
    requires e.kind in {"GOAL", "RED_CARD", "PENALTY"}
    ensures FallbackText(e, chat) == a + KeyWord(e.kind) + b
  {
    if e.kind == "GOAL" {
      a, b := "⚽ ", "! " + e.playerName + " ghi bàn phút " + Itoa(e.minute) + "!";
      GoalText(e, chat);
    } else if e.kind == "RED_CARD" {
      a, b := "🟥 ", "! " + e.playerName + " bị truất quyền thi đấu phút " + Itoa(e.minute);
      RedCardText(e, chat);
    } else {
      a, b := "⚽ Sự kiện ", " diễn ra phút " + Itoa(e.minute);
      PenaltyText(e, chat);
    }
  }

  lemma Regrouped(prefix: string, a: string, word: string, b: string)
    ensures prefix + (a + word + b) == (prefix + a) + word + b
  {
  }

  /** For every player, minute and team, the fallback text passes the event-consistency check of the filter. */
  lemma FallbackIsConsistent(e: MatchEvent, chat: nat, homeTeam: Team, awayTeam: Team)
    requires e.kind in {"GOAL", "RED_CARD", "PENALTY"}
    ensures Consistent(e.kind, ToLower(TrimSpace(WithMatchTeams(homeTeam, awayTeam, FallbackText(e, chat)))))
  {
    var a, b := FallbackHoldsKeyWord(e, chat);
    var prefix := TeamsInFront(homeTeam, awayTeam, FallbackText(e, chat));
    Regrouped(prefix, a, KeyWord(e.kind), b);
    KeyWordsAreKeywords(e.kind);
    WordSurvives(prefix + a, KeyWord(e.kind), b);
    FirstKeyword(e.kind, ToLower(TrimSpace(prefix + a + KeyWord(e.kind) + b)));
  }
}
