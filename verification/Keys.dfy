/** The Redis keys of the bot, and why two different ones never collide. */
module Keys {
  import opened Strings

  datatype Key =
    | DedupKey(matchId: string, minute: int, addTime: int, signature: string)
    | TypeKey(matchId: string, eventType: string)
    | HourKey(matchId: string, hour: int)
    | TotalKey(matchId: string)
    | CooldownKey(personaId: string)
    | LastPersonaKey(matchId: string)
    | HashKey(matchId: string, text: string)
    | PrematchKey(matchId: string)
    | ChatKey(roomId: string)
    | LegacyKey(roomId: string)

  /** The parts of a key whose text is computed elsewhere: md5 in hexadecimal, and the hour as `2006010215`. */
  datatype Naming = Naming(md5: string -> string, bucket: int -> string)

  ghost predicate Sound(n: Naming) {
    && (forall a, b :: n.md5(a) == n.md5(b) ==> a == b)
    && (forall a, b :: n.bucket(a) == n.bucket(b) ==> a == b)
    && (forall a :: ':' !in n.md5(a))
    && (forall a :: ':' !in n.bucket(a))
  }

  /** Event types never contain a colon; match, persona and room identifiers may. */
  predicate WellFormed(k: Key) {
    k.TypeKey? ==> ':' !in k.eventType
  }

  function Tag(k: Key): string {
    match k
    case DedupKey(_, _, _, _) => "event:"
    case TypeKey(_, _) => "ratelimit:eventtype:"
    case HourKey(_, _) => "ratelimit:hourly_events:"
    case TotalKey(_) => "ratelimit:total_msgs:"
    case CooldownKey(_) => "cooldown:persona:"
    case LastPersonaKey(_) => "lastpersona:"
    case HashKey(_, _) => "msg:hash:"
    case PrematchKey(_) => "bot:prematch:sent:"
    case ChatKey(_) => "match:chat:"
    case LegacyKey(_) => "conv:window:"
  }

  function Body(n: Naming, k: Key): string {
    match k
    case DedupKey(m, minute, add, sig) => m + ":" + (Itoa(minute) + "+" + Itoa(add)) + ":" + n.md5(sig)
    case TypeKey(m, t) => m + ":" + t
    case HourKey(m, h) => m + ":" + n.bucket(h)
    case TotalKey(m) => m
    case CooldownKey(p) => p
    case LastPersonaKey(m) => m
    case HashKey(m, t) => m + ":" + n.md5(t)
    case PrematchKey(m) => m
    case ChatKey(r) => r
    case LegacyKey(r) => r
  }

  function Text(n: Naming, k: Key): string {
    Tag(k) + Body(n, k)
  }

  /** The family of a key, read off four characters of its text. */
  function Family(s: string): nat {
    if |s| < 9 then 0
    else if s[0] == 'e' then 1
    else if s[0] == 'r' then (if |s| < 11 then 0 else if s[10] == 'e' then 2 else if s[10] == 'h' then 3 else 4)
    else if s[0] == 'c' then (if s[2] == 'o' then 5 else 10)
    else if s[0] == 'l' then 6
    else if s[0] == 'b' then 8
    else if s[1] == 's' then 7
    else 9
  }

  lemma FamilyOf(n: Naming, k: Key)
    ensures Family(Text(n, k)) == match k
      case DedupKey(_, _, _, _) => 1 case TypeKey(_, _) => 2 case HourKey(_, _) => 3 case TotalKey(_) => 4
      case CooldownKey(_) => 5 case LastPersonaKey(_) => 6 case HashKey(_, _) => 7 case PrematchKey(_) => 8
      case ChatKey(_) => 9 case LegacyKey(_) => 10
  {
  }

  /** The last separator splits a text in one way. */
  lemma SplitLast(a: string, b: string, c: string, d: string, sep: char)
    requires a + [sep] + b == c + [sep] + d && sep !in b && sep !in d
    ensures a == c && b == d
  {
    var s, t := a + [sep] + b, c + [sep] + d;
    assert s[|a|] == sep && t[|c|] == sep;
    assert forall i | |a| < i < |s| :: s[i] == b[i - |a| - 1];
    assert forall i | |c| < i < |t| :: t[i] == d[i - |c| - 1];
    assert |a| == |c|;
    assert s[..|a|] == a && t[..|c|] == c && s[|a| + 1..] == b && t[|c| + 1..] == d;
  }

  lemma MinuteInjective(m: int, a: int, m': int, a': int)
    requires Itoa(m) + "+" + Itoa(a) == Itoa(m') + "+" + Itoa(a')
    ensures m == m' && a == a'
  {
    ItoaChars(a);
    ItoaChars(a');
    SplitLast(Itoa(m), Itoa(a), Itoa(m'), Itoa(a'), '+');
    ItoaInjective(m, m');
    ItoaInjective(a, a');
  }

  lemma DedupBodyInjective(n: Naming, k: Key, l: Key)
    requires Sound(n) && k.DedupKey? && l.DedupKey? && Body(n, k) == Body(n, l)
    ensures k == l
  {
    var x, y := Itoa(k.minute) + "+" + Itoa(k.addTime), Itoa(l.minute) + "+" + Itoa(l.addTime);
    SplitLast(k.matchId + ":" + x, n.md5(k.signature), l.matchId + ":" + y, n.md5(l.signature), ':');
    ItoaChars(k.minute);
    ItoaChars(k.addTime);
    ItoaChars(l.minute);
    ItoaChars(l.addTime);
    SplitLast(k.matchId, x, l.matchId, y, ':');
    MinuteInjective(k.minute, k.addTime, l.minute, l.addTime);
  }

  /** Two keys with the same text are the same key, even when identifiers contain colons. */
  lemma TextInjective(n: Naming, k: Key, l: Key)
    requires Sound(n) && WellFormed(k) && WellFormed(l) && Text(n, k) == Text(n, l)
    ensures k == l
  {
    FamilyOf(n, k);
    FamilyOf(n, l);
    assert Tag(k) == Tag(l);
    assert Text(n, k)[|Tag(k)|..] == Body(n, k) && Text(n, l)[|Tag(l)|..] == Body(n, l);
    match k {
      case DedupKey(_, _, _, _) => DedupBodyInjective(n, k, l);
      case TypeKey(_, _) => SplitLast(k.matchId, k.eventType, l.matchId, l.eventType, ':');
      case HourKey(_, _) => SplitLast(k.matchId, n.bucket(k.hour), l.matchId, n.bucket(l.hour), ':');
      case HashKey(_, _) => SplitLast(k.matchId, n.md5(k.text), l.matchId, n.md5(l.text), ':');
      case _ =>
    }
  }
}
