/** The quality filter: event consistency, the text normaliser behind the duplicate check, and the check over a run. */
module Quality {
  import opened Strings
  import opened Keys
  import opened ExpiringStore
  import opened Redis

  // ---------- event consistency ----------

  function Keywords(kind: string): seq<string> {
    match kind
    case "GOAL" => ["goal", "goall", "ghi bàn", "bàn thắng", "vào lưới", "nổ súng", "⚽", "vô lưới", "ghi được"]
    case "RED_CARD" => ["thẻ đỏ", "red card", "đuổi", "off", "bye bye"]
    case "PENALTY" => ["penalty", "phạt đền", "chấm 11m", "pk"]
    case _ => []
  }

  /** `checkEventConsistency`: three event types need one of their keywords. */
  predicate Consistent(kind: string, textLower: string) {
    Keywords(kind) == [] || exists i :: 0 <= i < |Keywords(kind)| && Contains(textLower, Keywords(kind)[i])
  }

  /** Goals, red cards and penalties need a keyword, and no other event does. */
  lemma ConsistentExactly(kind: string, textLower: string)
    ensures Consistent(kind, textLower)
       <==> kind !in {"GOAL", "RED_CARD", "PENALTY"} || exists w :: w in Keywords(kind) && Contains(textLower, w)
  {
    if w :| w in Keywords(kind) && Contains(textLower, w) {
      var i :| 0 <= i < |Keywords(kind)| && Keywords(kind)[i] == w;
    }
  }

  // ---------- the normaliser ----------

  /** `isEmoji`; `symbol` stands for the Unicode tables of other and modifier symbols. */
  predicate IsEmoji(symbol: char -> bool, c: char) {
    || symbol(c)
    || '\U{1F300}' <= c <= '\U{1FAFF}'
    || '\U{2600}' <= c <= '\U{27BF}'
    || '\U{FE00}' <= c <= '\U{FE0F}'
  }

  predicate Kept(symbol: char -> bool, c: char) {
    !('0' <= c <= '9') && !IsEmoji(symbol, c)
  }

  function Strip(symbol: char -> bool, s: string): string {
    if s == "" then ""
    else Strip(symbol, s[..|s| - 1]) + if Kept(symbol, s[|s| - 1]) then [s[|s| - 1]] else ""
  }

  /** The white space of the regular expression `\s`. */
  predicate IsBlank(c: char) {
    c == ' ' || c == '\t' || c == '\n' || c == '\U{000C}' || c == '\r'
  }

  /** Every run of blanks becomes one space. */
  function Collapse(s: string): string {
    if s == "" then ""
    else if !IsBlank(s[0]) then [s[0]] + Collapse(s[1..])
    else if |s| > 1 && IsBlank(s[1]) then Collapse(s[1..])
    else " " + Collapse(s[1..])
  }

  function Normalized(symbol: char -> bool, s: string): string {
    Collapse(TrimSpace(Strip(symbol, s)))
  }

  /** `normalizeMessageForHash`; digits go first, then the buffer takes what is not an emoji. */
  method NormalizeMessageForHash(symbol: char -> bool, text: string) returns (s: string)
    ensures s == Normalized(symbol, text)
  {
    var b := "";
    for i := 0 to |text|
      invariant b == Strip(symbol, text[..i])
    {
      assert text[..i + 1][..i] == text[..i];
      if !('0' <= text[i] <= '9') && !IsEmoji(symbol, text[i]) {
        b := b + [text[i]];
      }
    }
    assert text[..|text|] == text;
    s := Collapse(TrimSpace(b));
  }

  lemma {:induction false} StripAppend(symbol: char -> bool, a: string, b: string)
    ensures Strip(symbol, a + b) == Strip(symbol, a) + Strip(symbol, b)
  {
    if b == "" {
      assert a + b == a;
    } else {
      assert (a + b)[..|a + b| - 1] == a + b[..|b| - 1];
      StripAppend(symbol, a, b[..|b| - 1]);
    }
  }

  /** Digits, symbols, and the three blocks of pictures and of their variations, by code point. */
  predicate Ornament(symbol: char -> bool, c: char) {
    '0' <= c <= '9' || symbol(c)
    || var n := c as int; 0x1F300 <= n <= 0x1FAFF || 0x2600 <= n <= 0x27BF || 0xFE00 <= n <= 0xFE0F
  }

  lemma KeptExactly(symbol: char -> bool, c: char)
    ensures Kept(symbol, c) <==> !Ornament(symbol, c)
  {
  }

  /** A digit or an emoji put anywhere into a text does not change its normal form. */
  lemma InsertedCharacter(symbol: char -> bool, a: string, c: char, b: string)
    requires Ornament(symbol, c)
    ensures Normalized(symbol, a + [c] + b) == Normalized(symbol, a + b)
  {
    StripAppend(symbol, a + [c], b);
    StripAppend(symbol, a, [c]);
    StripAppend(symbol, a, b);
    assert [c][..0] == "";
    KeptExactly(symbol, c);
    assert Strip(symbol, [c]) == "";
    assert Strip(symbol, a) + "" == Strip(symbol, a);
  }

  predicate Collapsed(s: string) {
    && (forall i | 0 <= i < |s| :: IsBlank(s[i]) ==> s[i] == ' ')
    && (forall i | 0 < i < |s| :: !IsBlank(s[i - 1]) || !IsBlank(s[i]))
  }

  lemma {:induction false} CollapseCollapses(s: string)
    ensures Collapsed(Collapse(s)) && (s != "" ==> Collapse(s) != "")
    ensures s != "" ==> (IsBlank(Collapse(s)[0]) <==> IsBlank(s[0])) && (!IsBlank(s[0]) ==> Collapse(s)[0] == s[0])
    ensures s != "" && !IsBlank(s[|s| - 1]) ==> Collapse(s)[|Collapse(s)| - 1] == s[|s| - 1]
    ensures forall c | c in Collapse(s) :: c == ' ' || c in s
  {
    if s != "" {
      CollapseCollapses(s[1..]);
    }
  }

  lemma {:induction false} CollapsedStays(s: string)
    requires Collapsed(s)
    ensures Collapse(s) == s
  {
    if s != "" {
      assert forall i | 0 < i < |s| - 1 :: s[1..][i - 1] == s[i] && s[1..][i] == s[i + 1];
      CollapsedStays(s[1..]);
      assert s == [s[0]] + s[1..];
    }
  }

  lemma {:induction false} KeptStays(symbol: char -> bool, s: string)
    requires forall c | c in s :: Kept(symbol, c)
    ensures Strip(symbol, s) == s
  {
    if s != "" {
      KeptStays(symbol, s[..|s| - 1]);
      assert s[|s| - 1] in s;
    }
  }

  lemma {:induction false} StripKeeps(symbol: char -> bool, s: string)
    ensures forall c | c in Strip(symbol, s) :: Kept(symbol, c)
  {
    if s != "" {
      StripKeeps(symbol, s[..|s| - 1]);
    }
  }

  /** Normalising twice is normalising once. */
  lemma NormalizerIsIdempotent(symbol: char -> bool, s: string)
    requires !symbol(' ')
    ensures Normalized(symbol, Normalized(symbol, s)) == Normalized(symbol, s)
  {
    var a := Strip(symbol, s);
    var x, y := TrimSplit(a);
    var t := TrimSpace(a);
    var n := Collapse(t);
    StripKeeps(symbol, s);
    CollapseCollapses(t);
    assert forall c | c in t :: c in a;
    KeptStays(symbol, n);
    TrimPad("", n, "");
    assert "" + n + "" == n;
    CollapsedStays(n);
  }

  /** The characters a text is told apart by: neither digit, emoji nor white space. */
  function Essence(symbol: char -> bool, s: string): string {
    if s == "" then ""
    else
      Essence(symbol, s[..|s| - 1])
      + if !Ornament(symbol, s[|s| - 1]) && !IsSpace(s[|s| - 1]) then [s[|s| - 1]] else ""
  }

  lemma {:induction false} EssenceAppend(symbol: char -> bool, a: string, b: string)
    ensures Essence(symbol, a + b) == Essence(symbol, a) + Essence(symbol, b)
  {
    if b == "" {
      assert a + b == a;
    } else {
      assert (a + b)[..|a + b| - 1] == a + b[..|b| - 1];
      EssenceAppend(symbol, a, b[..|b| - 1]);
    }
  }

  lemma {:induction false} SpaceHasNone(symbol: char -> bool, s: string)
    requires AllSpace(s)
    ensures Essence(symbol, s) == ""
  {
    if s != "" {
      SpaceHasNone(symbol, s[..|s| - 1]);
    }
  }

  lemma {:induction false} StripKeepsEssence(symbol: char -> bool, s: string)
    ensures Essence(symbol, Strip(symbol, s)) == Essence(symbol, s)
  {
    if s != "" {
      var init, last := s[..|s| - 1], s[|s| - 1];
      StripKeepsEssence(symbol, init);
      KeptExactly(symbol, last);
      if Kept(symbol, last) {
        assert Strip(symbol, s)[..|Strip(symbol, s)| - 1] == Strip(symbol, init);
      } else {
        assert Strip(symbol, s) == Strip(symbol, init);
      }
    }
  }

  lemma {:induction false} CollapseKeepsEssence(symbol: char -> bool, s: string)
    ensures Essence(symbol, Collapse(s)) == Essence(symbol, s)
  {
    if s != "" {
      CollapseKeepsEssence(symbol, s[1..]);
      assert s == [s[0]] + s[1..];
      EssenceAppend(symbol, [s[0]], s[1..]);
      if IsBlank(s[0]) {
        SpaceHasNone(symbol, [s[0]]);
        SpaceHasNone(symbol, " ");
        EssenceAppend(symbol, " ", Collapse(s[1..]));
      } else {
        EssenceAppend(symbol, [s[0]], Collapse(s[1..]));
      }
    }
  }

  /** The normal form drops nothing else, so texts that share it share their essence. */
  lemma NormalFormKeepsEssence(symbol: char -> bool, s: string)
    ensures Essence(symbol, Normalized(symbol, s)) == Essence(symbol, s)
  {
    var a := Strip(symbol, s);
    var x, y := TrimSplit(a);
    StripKeepsEssence(symbol, s);
    CollapseKeepsEssence(symbol, TrimSpace(a));
    EssenceAppend(symbol, x + TrimSpace(a), y);
    EssenceAppend(symbol, x, TrimSpace(a));
    SpaceHasNone(symbol, x);
    SpaceHasNone(symbol, y);
  }

  // ---------- white space within a text ----------

  /** Some blanks, tabs, line feeds, form feeds or carriage returns. */
  predicate Gap(s: string) {
    s != "" && forall i | 0 <= i < |s| :: s[i] in {' ', '\t', '\n', '\r', 12 as char}
  }

  lemma {:induction false} CollapseGap(gap: string, b: string)
    requires Gap(gap)
    ensures Collapse(gap + b) == if b != "" && IsBlank(b[0]) then Collapse(b) else " " + Collapse(b)
  {
    assert (gap + b)[1..] == gap[1..] + b && IsBlank(gap[0]);
    if |gap| > 1 {
      assert (gap + b)[1] == gap[1] && IsBlank(gap[1]);
      CollapseGap(gap[1..], b);
    } else {
      assert gap[1..] + b == b;
    }
  }

  lemma {:induction false} CollapseGaps(a: string, g: string, h: string, b: string)
    requires Gap(g) && Gap(h)
    ensures Collapse(a + (g + b)) == Collapse(a + (h + b))
  {
    if a == "" {
      assert a + (g + b) == g + b && a + (h + b) == h + b;
      CollapseGap(g, b);
      CollapseGap(h, b);
    } else {
      CollapseGaps(a[1..], g, h, b);
      assert (a + (g + b))[1..] == a[1..] + (g + b) && (a + (h + b))[1..] == a[1..] + (h + b);
      if |a| == 1 {
        assert (a + (g + b))[1] == g[0] && (a + (h + b))[1] == h[0] && IsBlank(g[0]) && IsBlank(h[0]);
      }
    }
  }

  /** Any other character stays where it is and keeps the gaps on its two sides apart. */
  lemma {:induction false} OnlyGapsCollapse(a: string, c: char, b: string)
    requires !Gap([c])
    ensures Collapse(a + ([c] + b)) == Collapse(a) + ([c] + Collapse(b))
  {
    assert [c][0] == c;
    if a == "" {
      assert a + ([c] + b) == [c] + b && ([c] + b)[1..] == b;
    } else {
      OnlyGapsCollapse(a[1..], c, b);
      assert (a + ([c] + b))[1..] == a[1..] + ([c] + b);
    }
  }

  lemma {:induction false} StripGap(symbol: char -> bool, g: string)
    requires Gap(g) && forall i | 0 <= i < |g| :: !symbol(g[i])
    ensures Strip(symbol, g) == g
  {
    var init := g[..|g| - 1];
    assert Kept(symbol, g[|g| - 1]);
    if init != "" {
      StripGap(symbol, init);
    }
    assert g == init + [g[|g| - 1]];
  }

  lemma TrimBefore(a: string, rest: string)
    ensures TrimLeft(a + rest) == if TrimLeft(a) == "" then TrimLeft(rest) else TrimLeft(a) + rest
  {
    var x := TrimLeftSplit(a);
    assert a + rest == x + (TrimLeft(a) + rest);
    TrimLeftPad(x, TrimLeft(a) + rest);
    if TrimLeft(a) == "" {
      assert TrimLeft(a) + rest == rest;
    }
  }

  lemma TrimBehind(rest: string, b: string)
    ensures TrimRight(rest + b) == if TrimRight(b) == "" then TrimRight(rest) else rest + TrimRight(b)
  {
    var y := TrimRightSplit(b);
    if TrimRight(b) == "" {
      assert b == y;
      TrimRightPad(rest, b);
    } else {
      TrimRightKeeps(rest + TrimRight(b), y);
      assert rest + b == (rest + TrimRight(b)) + y;
      TrimRightAll(y);
      assert (rest + TrimRight(b)) + "" == rest + TrimRight(b);
    }
  }

  lemma {:induction false} TrimRightAll(y: string)
    requires AllSpace(y)
    ensures TrimRight(y) == ""
  {
    if y != "" {
      TrimRightAll(y[..|y| - 1]);
    }
  }

  lemma Regroup(a: string, b: string, c: string)
    ensures (a + b) + c == a + (b + c)
  {
  }

  lemma GapIsSpace(g: string)
    requires Gap(g)
    ensures AllSpace(g)
  {
  }

  lemma TrimGapBehind(l: string, g: string, b: string)
    requires AllSpace(g)
    ensures TrimRight(l + (g + b)) == if TrimRight(b) == "" then TrimRight(l) else l + (g + TrimRight(b))
  {
    Regroup(l, g, b);
    TrimBehind(l + g, b);
    if TrimRight(b) == "" {
      TrimRightPad(l, g);
    } else {
      Regroup(l, g, TrimRight(b));
    }
  }

  /** A gap at either end is trimmed like the rest, and one within stays. */
  lemma TrimGap(a: string, g: string, b: string)
    requires Gap(g)
    ensures var l, r := TrimLeft(a), TrimRight(b);
      TrimSpace(a + (g + b)) == if l == "" then TrimSpace(b) else if r == "" then TrimRight(l) else l + (g + r)
  {
    GapIsSpace(g);
    TrimBefore(a, g + b);
    if TrimLeft(a) == "" {
      TrimLeftPad(g, b);
    } else {
      TrimGapBehind(TrimLeft(a), g, b);
    }
  }

  lemma StripAround(symbol: char -> bool, a: string, g: string, b: string)
    requires Gap(g) && forall i | 0 <= i < |g| :: !symbol(g[i])
    ensures Strip(symbol, a + g + b) == Strip(symbol, a) + (g + Strip(symbol, b))
  {
    calc {
      Strip(symbol, a + g + b);
      { StripAppend(symbol, a + g, b); }
      Strip(symbol, a + g) + Strip(symbol, b);
      { StripAppend(symbol, a, g); StripGap(symbol, g); }
      (Strip(symbol, a) + g) + Strip(symbol, b);
      { Regroup(Strip(symbol, a), g, Strip(symbol, b)); }
      Strip(symbol, a) + (g + Strip(symbol, b));
    }
  }

  /** Texts that differ in the white space between two parts have the same normal form. */
  lemma GapsAreEqual(symbol: char -> bool, a: string, g: string, h: string, b: string)
    requires Gap(g) && Gap(h)
    requires (forall i | 0 <= i < |g| :: !symbol(g[i])) && (forall i | 0 <= i < |h| :: !symbol(h[i]))
    ensures Normalized(symbol, a + g + b) == Normalized(symbol, a + h + b)
  {
    var u, v := Strip(symbol, a), Strip(symbol, b);
    StripAround(symbol, a, g, b);
    StripAround(symbol, a, h, b);
    TrimGap(u, g, v);
    TrimGap(u, h, v);
    CollapseGaps(TrimLeft(u), g, h, TrimRight(v));
  }

  // ---------- the check over a run ----------

  datatype Config = Config(minLength: int, maxLength: int, bannedWords: seq<string>, dedupSeconds: int)

  /** A drafted message: the event it answers and the match of its bundle. */
  datatype Draft = Draft(kind: string, minute: int, matchId: string, text: string)

  datatype Result = TooShort | TooLong | Banned | Inconsistent | Duplicate | Pass

  predicate IsPrematch(d: Draft) {
    d.kind == "MATCH_UPCOMING" || d.minute < 0
  }

  predicate HasBanned(words: seq<string>, textLower: string) {
    exists i :: 0 <= i < |words| && Contains(textLower, ToLower(words[i]))
  }

  /** The text whose hash is remembered. */
  function HashedText(symbol: char -> bool, d: Draft): string {
    Normalized(symbol, ToLower(TrimSpace(d.text)))
  }

  function HashKeyOf(symbol: char -> bool, d: Draft): Key {
    HashKey(d.matchId, HashedText(symbol, d))
  }

  /** What becomes of EXISTS and SET; the code goes on without them. */
  datatype Faults = Faults(seen: Fault, save: Fault)

  /** `Check`. */
  function Checked(s: Store, symbol: char -> bool, c: Config, d: Draft, f: Faults): (Store, Result) {
    var text := TrimSpace(d.text);
    if |text| < c.minLength then (s, TooShort)
    else if |text| > c.maxLength then (s, TooLong)
    else if HasBanned(c.bannedWords, ToLower(text)) then (s, Banned)
    else if !Consistent(d.kind, ToLower(text)) then (s, Inconsistent)
    else if IsPrematch(d) then (s, Pass)
    else if f.seen.Fine? && Live(s, HashKeyOf(symbol, d)) then (s, Duplicate)
    else (if f.save.Refused? then s else Set(s, HashKeyOf(symbol, d), Number(1), c.dedupSeconds * SECOND), Pass)
  }

  class QualityFilter {
    const redis: RedisClient
    const config: Config

    constructor (redis: RedisClient, config: Config)
      ensures this.redis == redis && this.config == config
    {
      this.redis, this.config := redis, config;
    }

    method Check(symbol: char -> bool, d: Draft, f: Faults) returns (r: Result)
      modifies redis
      ensures (redis.State(), r) == Checked(old(redis.State()), symbol, config, d, f)
    {
      var text := TrimSpace(d.text);
      var textLower := ToLower(text);
      if |text| < config.minLength {
        return TooShort;
      }
      if |text| > config.maxLength {
        return TooLong;
      }
      for i := 0 to |config.bannedWords|
        invariant redis.State() == old(redis.State())
        invariant forall j | 0 <= j < i :: !Contains(textLower, ToLower(config.bannedWords[j]))
      {
        if Contains(textLower, ToLower(config.bannedWords[i])) {
          return Banned;
        }
      }
      if !Consistent(d.kind, textLower) {
        return Inconsistent;
      }
      if !IsPrematch(d) {
        var normalized := NormalizeMessageForHash(symbol, textLower);
        var key := HashKey(d.matchId, normalized);
        if f.seen.Fine? {
          var duplicated := redis.Exists(key);
          if duplicated {
            return Duplicate;
          }
        }
        if !f.save.Refused? {
          redis.SetWithTTL(key, Number(1), config.dedupSeconds * SECOND);
        }
      }
      r := Pass;
    }
  }

  /** What the check lets pass: length, words, consistency, and only in running matches what was seen before. */
  lemma PassesExactly(s: Store, symbol: char -> bool, c: Config, d: Draft, f: Faults)
    ensures var text := TrimSpace(d.text);
      Checked(s, symbol, c, d, f).1 == Pass
      <==> && c.minLength <= |text| <= c.maxLength
           && (forall w | w in c.bannedWords :: !Contains(ToLower(text), ToLower(w)))
           && Consistent(d.kind, ToLower(text))
           && (d.kind == "MATCH_UPCOMING" || d.minute < 0 || !f.seen.Fine?
               || !Live(s, HashKey(d.matchId, Normalized(symbol, ToLower(text)))))
  {
  }

  /** What it leaves: an accepted message of a running match is remembered for the dedup time, nothing else is. */
  lemma CheckLeaves(s: Store, symbol: char -> bool, c: Config, d: Draft, f: Faults)
    ensures var (t, r) := Checked(s, symbol, c, d, f);
      var k := HashKey(d.matchId, Normalized(symbol, ToLower(TrimSpace(d.text))));
      if r == Pass && d.kind != "MATCH_UPCOMING" && d.minute >= 0 && !f.save.Refused?
      then t == Set(s, k, Number(1), c.dedupSeconds * 1000) else t == s
  {
  }

  /**
   * After a message that was looked up and accepted, its repeat passes exactly when it cannot be looked up, when the
   * first one could not be saved, or when a positive dedup time is over; otherwise it is refused as a duplicate.
   */
  lemma RepeatPassesExactly(s: Store, symbol: char -> bool, c: Config, d: Draft, f: Faults, wait: nat, g: Faults)
    requires Checked(s, symbol, c, d, f).1.Pass? && !IsPrematch(d) && f.seen.Fine?
    ensures var t := Advance(Checked(s, symbol, c, d, f).0, wait);
      var again := Checked(t, symbol, c, d, g).1;
      && (again == Pass <==>
            !g.seen.Fine? || f.save.Refused? || (c.dedupSeconds > 0 && wait >= c.dedupSeconds * SECOND))
      && (again != Pass ==> again == Duplicate)
  {
  }

  datatype Op = Wait(d: nat) | Message(draft: Draft, f: Faults)

  /** An accepted message, and whether its repeat was looked up and its hash saved. */
  datatype Accepted = Accepted(at: int, draft: Draft, looked: bool, saved: bool)

  datatype Run = Run(store: Store, accepted: seq<Accepted>)

  /** A run of the filter; only accepted messages of running matches are kept. */
  function Follow(symbol: char -> bool, c: Config, now: int, ops: seq<Op>): Run {
    if ops == [] then Run(Store(now, map[]), [])
    else
      var r := Follow(symbol, c, now, ops[..|ops| - 1]);
      match ops[|ops| - 1]
      case Wait(d) => r.(store := Advance(r.store, d))
      case Message(d, f) =>
        var (t, v) := Checked(r.store, symbol, c, d, f);
        if !v.Pass? || IsPrematch(d) then r.(store := t)
        else Run(t, r.accepted + [Accepted(r.store.now, d, f.seen.Fine?, !f.save.Refused?)])
  }

  /** A saved message is in the store until its time is over, or longer when it was saved again. */
  predicate Remembered(s: Store, symbol: char -> bool, c: Config, a: Accepted) {
    var k, ttl := HashKeyOf(symbol, a.draft), c.dedupSeconds * SECOND;
    && a.at <= s.now
    && (a.saved && Running(Lease(k, a.at, ttl), s.now) ==>
          k in s.entries && Outlasts(s.entries[k], Lease(k, a.at, ttl)))
  }

  /** One message repeats another: the same match and the same normal form. */
  predicate Repeats(symbol: char -> bool, a: Accepted, b: Accepted) {
    a.draft.matchId == b.draft.matchId && HashedText(symbol, a.draft) == HashedText(symbol, b.draft)
  }

  /** A saved message and a later repeat that was looked up are at least the dedup time apart. */
  predicate Spaced(symbol: char -> bool, c: Config, h: seq<Accepted>) {
    forall i, j | 0 <= i < j < |h| && h[i].saved && h[j].looked && Repeats(symbol, h[i], h[j]) ::
      c.dedupSeconds > 0 && h[i].at + c.dedupSeconds * SECOND <= h[j].at
  }

  predicate InOrder(symbol: char -> bool, c: Config, r: Run) {
    && (forall i | 0 <= i < |r.accepted| :: Remembered(r.store, symbol, c, r.accepted[i]))
    && Spaced(symbol, c, r.accepted)
  }

  /** What one more message does to the memory of another. */
  lemma RememberedStep(s: Store, symbol: char -> bool, c: Config, a: Accepted, d: Draft, f: Faults)
    requires Remembered(s, symbol, c, a)
    ensures Remembered(Checked(s, symbol, c, d, f).0, symbol, c, a)
  {
  }

  /** A message that is looked up and passes repeats nothing that is remembered. */
  lemma LookedUp(s: Store, symbol: char -> bool, c: Config, a: Accepted, d: Draft, f: Faults)
    requires Remembered(s, symbol, c, a) && a.saved && f.seen.Fine?
    requires Checked(s, symbol, c, d, f).1.Pass? && !IsPrematch(d)
    requires a.draft.matchId == d.matchId && HashedText(symbol, a.draft) == HashedText(symbol, d)
    ensures c.dedupSeconds > 0 && a.at + c.dedupSeconds * SECOND <= s.now
  {
    assert HashKeyOf(symbol, a.draft) == HashKeyOf(symbol, d);
  }

  lemma NewIsRemembered(s: Store, symbol: char -> bool, c: Config, d: Draft, f: Faults)
    requires Checked(s, symbol, c, d, f).1.Pass? && !IsPrematch(d)
    ensures Remembered(Checked(s, symbol, c, d, f).0, symbol, c, Accepted(s.now, d, f.seen.Fine?, !f.save.Refused?))
  {
  }

  lemma InOrderStep(symbol: char -> bool, c: Config, r: Run, d: Draft, f: Faults)
    requires InOrder(symbol, c, r)
    ensures var (t, v) := Checked(r.store, symbol, c, d, f);
      && InOrder(symbol, c, r.(store := t))
      && (v.Pass? && !IsPrematch(d) ==>
            InOrder(symbol, c, Run(t, r.accepted + [Accepted(r.store.now, d, f.seen.Fine?, !f.save.Refused?)])))
  {
    var (t, v) := Checked(r.store, symbol, c, d, f);
    forall i | 0 <= i < |r.accepted| ensures Remembered(t, symbol, c, r.accepted[i]) {
      RememberedStep(r.store, symbol, c, r.accepted[i], d, f);
    }
    if v.Pass? && !IsPrematch(d) {
      var a := Accepted(r.store.now, d, f.seen.Fine?, !f.save.Refused?);
      NewIsRemembered(r.store, symbol, c, d, f);
      forall i | 0 <= i < |r.accepted| && r.accepted[i].saved && a.looked && Repeats(symbol, r.accepted[i], a)
        ensures c.dedupSeconds > 0 && r.accepted[i].at + c.dedupSeconds * SECOND <= a.at
      {
        LookedUp(r.store, symbol, c, r.accepted[i], d, f);
      }
    }
  }

  lemma {:induction false} InOrderRun(symbol: char -> bool, c: Config, now: int, ops: seq<Op>)
    ensures InOrder(symbol, c, Follow(symbol, c, now, ops))
  {
    if ops != [] {
      var r := Follow(symbol, c, now, ops[..|ops| - 1]);
      InOrderRun(symbol, c, now, ops[..|ops| - 1]);
      match ops[|ops| - 1] {
        case Wait(_) =>
        case Message(d, f) => InOrderStep(symbol, c, r, d, f);
      }
    }
  }

  /**
   * In every sequential run, an accepted message and a later accepted repeat of it are at least the dedup time apart,
   * and never two without a positive one, unless the first could not be saved or the second not be looked up.
   */
  lemma NoEarlyRepeat(symbol: char -> bool, c: Config, now: int, ops: seq<Op>)
    ensures var h := Follow(symbol, c, now, ops).accepted;
      forall i, j | 0 <= i < j < |h| && h[i].saved && h[j].looked && h[i].draft.matchId == h[j].draft.matchId
                    && HashedText(symbol, h[i].draft) == HashedText(symbol, h[j].draft) ::
        c.dedupSeconds > 0 && h[i].at + c.dedupSeconds * SECOND <= h[j].at
  {
    InOrderRun(symbol, c, now, ops);
    var h := Follow(symbol, c, now, ops).accepted;
    assert forall i, j | 0 <= i < j < |h| && h[i].draft.matchId == h[j].draft.matchId
                         && HashedText(symbol, h[i].draft) == HashedText(symbol, h[j].draft) ::
             Repeats(symbol, h[i], h[j]);
  }
}
