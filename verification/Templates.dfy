/** Template selection from the cache: six filters, then the highest priority, or weighting before a match. */
module Templates {
  import opened Strings
  import opened Weights

  /** A condition: two numbers; a list of two values that are not both numbers, which panics; any other is ignored. */
  datatype Bounds = Absent | Malformed | NotNumbers | Between(min: real, max: real)

  datatype Template = Template(id: string, phase: string, eventType: string, lang: string, personaId: string,
                               text: string, priority: int, enabled: bool, minuteRange: Bounds, scoreDiff: Bounds)

  datatype Query = Query(phase: string, eventType: string, personaId: string, languages: seq<string>,
                         minute: int, homeScore: int, awayScore: int)

  const PREMATCH := "prematch"

  /** `normalizeEventType` of the loader. */
  function NormalizedType(raw: string): string {
    var v := ReplaceAll(ReplaceAll(ToUpper(TrimSpace(raw)), "-", "_"), " ", "_");
    if Contains(v, "UPCOMING") then "MATCH_UPCOMING" else v
  }

  lemma {:induction false} ReplacedAt(s: string, a: char, b: char)
    ensures var r := ReplaceAll(s, [a], [b]);
      |r| == |s| && forall i | 0 <= i < |s| :: r[i] == if s[i] == a then b else s[i]
  {
    if s != "" {
      ReplacedAt(s[1..], a, b);
      assert [a] <= s <==> s[0] == a;
      assert s[|[a]|..] == s[1..];
    }
  }

  /** Event types are compared in capitals, with underscores for blanks and hyphens; all upcoming ones are equal. */
  lemma NormalizedTypeExactly(raw: string, v: string)
    requires |v| == |TrimSpace(raw)|
    requires forall i | 0 <= i < |v| ::
               v[i] == if TrimSpace(raw)[i] in {'-', ' '} then '_' else ToUpper(TrimSpace(raw))[i]
    ensures NormalizedType(raw) == if Contains(v, "UPCOMING") then "MATCH_UPCOMING" else v
  {
    var u := ToUpper(TrimSpace(raw));
    ReplacedAt(u, '-', '_');
    var w := ReplaceAll(u, "-", "_");
    ReplacedAt(w, ' ', '_');
    assert ReplaceAll(w, " ", "_") == v;
  }

  /** Go's conversion of a float to an int: towards zero. */
  function Truncate(r: real): int {
    if r < 0.0 then -((-r).Floor) else r.Floor
  }

  /** It drops the fraction: the result is within one of the number, and never further from zero. */
  lemma TruncateExactly(r: real, n: int)
    ensures r >= 0.0 ==> (Truncate(r) == n <==> n as real <= r < (n + 1) as real)
    ensures r <= 0.0 ==> (Truncate(r) == n <==> (n - 1) as real < r <= n as real)
  {
  }

  datatype Held = Holds | Fails | Crashes

  function Within(b: Bounds, n: int): Held {
    match b
    case Between(min, max) => if Truncate(min) <= n <= Truncate(max) then Holds else Fails
    case NotNumbers => Crashes
    case _ => Holds
  }

  function Abs(x: int): int {
    if x < 0 then -x else x
  }

  /** A template comes to its conditions when it survives the other filters. */
  predicate Reaches(t: Template, q: Query) {
    && t.enabled
    && t.phase == q.phase
    && (t.lang == "" || t.lang in q.languages)
    && (t.personaId == "" || t.personaId == q.personaId)
    && (t.eventType == "" || NormalizedType(t.eventType) == NormalizedType(q.eventType))
  }

  /** The minute first; the score only when the minute holds. */
  function Conditions(t: Template, q: Query): Held {
    var minute := Within(t.minuteRange, q.minute);
    if minute == Holds then Within(t.scoreDiff, Abs(q.homeScore - q.awayScore)) else minute
  }

  predicate Passes(t: Template, q: Query) {
    Reaches(t, q) && Conditions(t, q) == Holds
  }

  /** Some template panics on its conditions. */
  predicate Crashing(cache: seq<Template>, q: Query) {
    exists i :: 0 <= i < |cache| && Reaches(cache[i], q) && Conditions(cache[i], q) == Crashes
  }

  function Survivors(cache: seq<Template>, q: Query): (ts: seq<Template>)
    ensures forall t | t in ts :: t in cache && Passes(t, q)
    ensures forall t | t in cache && Passes(t, q) :: t in ts
  {
    if cache == [] then []
    else Survivors(cache[..|cache| - 1], q) + if Passes(cache[|cache| - 1], q) then [cache[|cache| - 1]] else []
  }

  function Priorities(ts: seq<Template>): (ps: seq<int>)
    ensures |ps| == |ts| && forall i | 0 <= i < |ts| :: ps[i] == ts[i].priority
  {
    seq(|ts|, i requires 0 <= i < |ts| => ts[i].priority)
  }

  datatype Choice = Nil | Of(t: Template) | Panic

  /**
   * The choice before a match: by weight, by chance when the priorities add up to nothing, and a panic when they add
   * up to less.
   */
  function Drawn(ts: seq<Template>, roll: nat): (c: Choice)
    ensures c == Nil <==> ts == []
    ensures c.Of? ==> c.t in ts
    ensures NonNegative(Priorities(ts)) && Sum(Priorities(ts)) > 0 ==> c.Of? && c.t.priority > 0
  {
    var ws := Priorities(ts);
    if ts == [] then Nil
    else if Sum(ws) == 0 then Of(ts[roll % |ts|])
    else if Sum(ws) < 0 then Choice.Panic
    else
      DrawnIsPositive(ws, roll);
      Of(ts[Chosen(ws, roll % Sum(ws))])
  }

  lemma DrawnIsPositive(ws: seq<int>, roll: nat)
    requires Sum(ws) > 0
    ensures var i := Chosen(ws, roll % Sum(ws)); i < |ws| && (NonNegative(ws) ==> ws[i] > 0)
  {
    if NonNegative(ws) {
      ZeroNeverChosen(ws, roll % Sum(ws));
    }
  }

  /** `checkConditions`. */
  method CheckConditions(t: Template, q: Query) returns (h: Held)
    ensures h == Conditions(t, q)
  {
    if t.minuteRange.NotNumbers? {
      return Crashes;
    }
    if t.minuteRange.Between? {
      var min, max := Truncate(t.minuteRange.min), Truncate(t.minuteRange.max);
      if q.minute < min || q.minute > max {
        return Fails;
      }
    }
    if t.scoreDiff.NotNumbers? {
      return Crashes;
    }
    if t.scoreDiff.Between? {
      var min, max := Truncate(t.scoreDiff.min), Truncate(t.scoreDiff.max);
      var diff := Abs(q.homeScore - q.awayScore);
      if diff < min || diff > max {
        return Fails;
      }
    }
    h := Holds;
  }

  /** Conditions hold exactly when neither is malformed into a panic and both numbers lie between their bounds. */
  lemma ConditionsHoldExactly(t: Template, q: Query)
    ensures Conditions(t, q) == Holds
       <==> !t.minuteRange.NotNumbers? && !t.scoreDiff.NotNumbers?
            && (t.minuteRange.Between? ==> Truncate(t.minuteRange.min) <= q.minute <= Truncate(t.minuteRange.max))
            && (t.scoreDiff.Between? ==>
                  if q.homeScore >= q.awayScore
                  then Truncate(t.scoreDiff.min) <= q.homeScore - q.awayScore <= Truncate(t.scoreDiff.max)
                  else Truncate(t.scoreDiff.min) <= q.awayScore - q.homeScore <= Truncate(t.scoreDiff.max))
    ensures Conditions(t, q) == Crashes
       <==> t.minuteRange.NotNumbers? || (t.scoreDiff.NotNumbers? && Within(t.minuteRange, q.minute) == Holds)
  {
  }

  /** What filters a template out before its conditions: one mismatch is enough, and an empty field matches all. */
  lemma FilteredExactly(t: Template, q: Query)
    ensures !Reaches(t, q)
       <==> || !t.enabled || t.phase != q.phase
            || (t.lang != "" && t.lang !in q.languages)
            || (t.personaId != "" && t.personaId != q.personaId)
            || (t.eventType != "" && NormalizedType(t.eventType) != NormalizedType(q.eventType))
  {
  }

  /** A template is a candidate when it is not filtered out and its conditions hold; one that panics is not. */
  lemma CandidatesExactly(cache: seq<Template>, q: Query)
    ensures forall t :: t in Survivors(cache, q) <==> t in cache && Reaches(t, q) && Conditions(t, q) == Holds
    ensures Crashing(cache, q) <==> exists t :: t in cache && Reaches(t, q) && Conditions(t, q) == Crashes
  {
    if t :| t in cache && Reaches(t, q) && Conditions(t, q) == Crashes {
      var i :| 0 <= i < |cache| && cache[i] == t;
      assert Reaches(cache[i], q);
    }
  }

  /** `pickBestTemplate`: one of those with the highest priority. */
  method PickBest(candidates: seq<Template>, roll: nat) returns (c: Choice)
    ensures candidates == [] <==> c == Nil
    ensures candidates != [] ==> c.Of? && c.t in candidates && forall t | t in candidates :: t.priority <= c.t.priority
  {
    if |candidates| == 0 {
      return Nil;
    }
    var maxPriority := candidates[0].priority;
    ghost var best := 0;
    for i := 0 to |candidates|
      invariant 0 <= best < |candidates| && maxPriority == candidates[best].priority
      invariant forall j | 0 <= j < i :: candidates[j].priority <= maxPriority
    {
      if candidates[i].priority > maxPriority {
        maxPriority, best := candidates[i].priority, i;
      }
    }
    var top: seq<Template> := [];
    for i := 0 to |candidates|
      invariant forall t | t in top :: t in candidates && t.priority == maxPriority
      invariant best < i ==> top != []
    {
      if candidates[i].priority == maxPriority {
        top := top + [candidates[i]];
      }
    }
    var k := roll % |top|;
    assert top[k] in top;
    c := Of(top[k]);
  }

  class TemplateLoader {
    var cache: seq<Template>

    constructor ()
      ensures cache == []
    {
      cache := [];
    }

    /** `LoadAll`: a failed load keeps the cache. */
    method LoadAll(templates: seq<Template>, failed: bool)
      modifies this
      ensures cache == if failed then old(cache) else templates
    {
      if !failed {
        cache := templates;
      }
    }

    /** `GetMatchingTemplates`. */
    method GetMatchingTemplates(q: Query, roll: nat) returns (c: Choice)
      ensures Crashing(cache, q) ==> c == Choice.Panic
      ensures !Crashing(cache, q) ==> (c == Nil <==> forall t | t in cache :: !Passes(t, q))
      ensures c.Of? ==> c.t in cache && Passes(c.t, q)
      ensures !Crashing(cache, q) && q.phase != PREMATCH ==>
                !c.Panic? && (c.Of? ==> forall t | t in cache && Passes(t, q) :: t.priority <= c.t.priority)
      ensures !Crashing(cache, q) && q.phase == PREMATCH ==> c == Drawn(Survivors(cache, q), roll)
    {
      var candidates: seq<Template> := [];
      for i := 0 to |cache|
        invariant candidates == Survivors(cache[..i], q)
        invariant forall j | 0 <= j < i :: !Reaches(cache[j], q) || Conditions(cache[j], q) != Crashes
      {
        assert cache[..i + 1][..i] == cache[..i];
        var t := cache[i];
        if !t.enabled {
          continue;
        }
        if t.phase != q.phase {
          continue;
        }
        if t.lang != "" && t.lang !in q.languages {
          continue;
        }
        if t.personaId != "" && t.personaId != q.personaId {
          continue;
        }
        if t.eventType != "" && NormalizedType(t.eventType) != NormalizedType(q.eventType) {
          continue;
        }
        var h := CheckConditions(t, q);
        if h == Crashes {
          return Choice.Panic;
        }
        if h == Fails {
          continue;
        }
        candidates := candidates + [t];
      }
      assert cache[..|cache|] == cache;
      if |candidates| == 0 {
        return Nil;
      }
      assert candidates[0] in candidates;
      if q.phase == PREMATCH {
        c := PickForPrematch(candidates, roll);
      } else {
        c := PickBest(candidates, roll);
      }
    }
  }

  /** `pickBestTemplateForPrematch`. */
  method PickForPrematch(candidates: seq<Template>, roll: nat) returns (c: Choice)
    ensures c == Drawn(candidates, roll)
  {
    var d := PickByPriority(Priorities(candidates), roll);
    c := match d case Nothing => Nil case Picked(i) => Of(candidates[i]) case Panic => Choice.Panic;
  }
}
