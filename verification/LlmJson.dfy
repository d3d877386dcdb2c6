/** Recovery of the JSON object in the output of a language model. */
module LlmJson {
  import opened Strings

  const FENCE := "```"

  /** The language tag of a fence, in any case. */
  predicate Tagged(s: string)
    ensures Tagged(s) ==> |s| >= 4
  {
    "json" <= ToLower(s)
  }

  /** What is left of a fenced text behind the opening fence and its `json` tag. */
  function AfterFence(t: string): string
    requires FENCE <= t
  {
    var u := TrimSpace(t[3..]);
    TrimSpace(if Tagged(u) then u[4..] else u)
  }

  function CutAtLastFence(s: string): string {
    var i := LastIndex(s, FENCE);
    if i >= 0 then s[..i] else s
  }

  function Unfenced(s: string): string {
    var t := TrimSpace(s);
    if FENCE <= t then TrimSpace(CutAtLastFence(AfterFence(t))) else t
  }

  /** From the first opening brace to the last closing one. */
  function Braced(s: string): string {
    var start := Index(s, '{');
    var end := LastIndexChar(s, '}');
    if start >= 0 && end > start then s[start..end + 1] else s
  }

  function Normalized(s: string): string {
    TrimSpace(Braced(Unfenced(s)))
  }

  /** `normalizeLLMJSON`. */
  method NormalizeLLMJSON(text: string) returns (s: string)
    ensures s == Normalized(text)
  {
    s := TrimSpace(text);
    if FENCE <= s {
      s := StripFence(s);
    }
    assert s == Unfenced(text);
    var start, end := Index(s, '{'), LastIndexChar(s, '}');
    if start >= 0 && end > start {
      s := s[start..end + 1];
    }
    assert s == Braced(Unfenced(text));
    s := TrimSpace(s);
  }

  /** The branch of `normalizeLLMJSON` for a text that opens a code fence. */
  method StripFence(text: string) returns (s: string)
    requires FENCE <= text
    ensures s == TrimSpace(CutAtLastFence(AfterFence(text)))
  {
    s := text[3..];
    s := TrimSpace(s);
    if Tagged(s) {
      s := s[4..];
    }
    s := TrimSpace(s);
    var idx := LastIndex(s, FENCE);
    if idx >= 0 {
      s := s[..idx];
    }
    s := TrimSpace(s);
  }

  predicate IsObject(s: string) {
    |s| >= 2 && s[0] == '{' && s[|s| - 1] == '}'
  }

  /** The text in front of the object opens a code fence. */
  predicate Fenced(pre: string) {
    FENCE <= TrimLeft(pre)
  }

  /** What is left in front of the object when the opening fence is gone. */
  function Lead(pre: string): string
    requires Fenced(pre)
  {
    var u := TrimLeft(TrimLeft(pre)[3..]);
    TrimLeft(if Tagged(u) then u[4..] else u)
  }

  /** No opening fence, or a closing fence behind the object, or no further fence at all. */
  predicate Recoverable(pre: string, obj: string, post: string) {
    Fenced(pre) && !Contains(post, FENCE) ==> !Contains(Lead(pre) + obj, FENCE)
  }

  lemma BracedObject(a: string, obj: string, b: string)
    requires BraceFree(a) && IsObject(obj) && BraceFree(b)
    ensures Braced(a + obj + b) == obj
  {
    var s := a + obj + b;
    var start, end := Index(s, '{'), LastIndexChar(s, '}');
    var last := |a| + |obj| - 1;
    assert s[|a|] == '{' && s[last] == '}';
    assert forall k | 0 <= k < |a| :: s[k] == a[k];
    assert forall k | last < k < |s| :: s[k] == b[k - last - 1];
    assert s[start..end + 1] == obj;
  }

  lemma {:induction false} TrimsBraceFree(s: string)
    requires BraceFree(s)
    ensures BraceFree(TrimLeft(s)) && BraceFree(TrimRight(s))
  {
    var a := TrimLeftSplit(s);
    var b := TrimRightSplit(s);
    assert forall c | c in TrimLeft(s) || c in TrimRight(s) :: c in s;
  }

  /** The trimmed text keeps the object, with less around it. */
  lemma TrimKeepsObject(a: string, obj: string, b: string) returns (c: string, d: string)
    requires BraceFree(a) && IsObject(obj) && BraceFree(b)
    ensures c == TrimLeft(a) && d == TrimRight(b) && BraceFree(c) && BraceFree(d)
    ensures TrimSpace(a + obj + b) == c + obj + d
  {
    c, d := TrimLeft(a), TrimRight(b);
    TrimAround(a, obj, b);
    TrimsBraceFree(a);
    TrimsBraceFree(b);
  }

  /** A brace-free word in front of text that follows brace-free text and an object lies in that text. */
  lemma PrefixBeforeObject(t: string, a: string, obj: string, b: string)
    requires BraceFree(t) && IsObject(obj)
    ensures t <= a + obj + b <==> t <= a
    ensures |ToLower(a + obj + b)| == |a| + |obj| + |b|
    ensures t <= ToLower(a + obj + b) <==> t <= ToLower(a)
  {
    var s := a + obj + b;
    if |a| < |t| {
      assert s[|a|] == '{' && ToLower(s)[|a|] == '{' && t[|a|] in t;
    } else {
      assert s[..|t|] == a[..|t|] && ToLower(s)[..|t|] == ToLower(a)[..|t|];
      assert t <= s <==> t == s[..|t|];
      assert t <= ToLower(s) <==> t == ToLower(s)[..|t|];
    }
  }

  lemma AfterFenceKeepsObject(pre: string, obj: string, post: string) returns (d: string)
    requires BraceFree(pre) && IsObject(obj) && BraceFree(post) && Fenced(pre)
    ensures BraceFree(Lead(pre)) && BraceFree(d) && (Contains(d, FENCE) <==> Contains(post, FENCE))
    ensures var t := TrimSpace(pre + obj + post); FENCE <= t && AfterFence(t) == Lead(pre) + obj + d
  {
    var a, b := TrimKeepsObject(pre, obj, post);
    PrefixBeforeObject(FENCE, a, obj, b);
    assert (a + obj + b)[3..] == a[3..] + obj + b;
    assert BraceFree(a[3..]) by { assert forall x | x in a[3..] :: x in a; }
    var a1, b1 := TrimKeepsObject(a[3..], obj, b);
    var a2 := DropTag(a1, obj, b1);
    var a3, b3 := TrimKeepsObject(a2, obj, b1);
    d := b3;
    TrimRightFence(post);
    TrimRightFence(b);
    TrimRightFence(b1);
  }

  lemma DropTag(a: string, obj: string, b: string) returns (c: string)
    requires BraceFree(a) && IsObject(obj)
    ensures c == (if Tagged(a) then a[4..] else a) && BraceFree(c)
    ensures var u := a + obj + b; (if Tagged(u) then u[4..] else u) == c + obj + b
  {
    var u := a + obj + b;
    PrefixBeforeObject("json", a, obj, b);
    c := if Tagged(a) then a[4..] else a;
    assert forall x | x in c :: x in a;
    if Tagged(a) {
      assert u[4..] == a[4..] + obj + b;
    }
  }

  lemma TrimRightFence(s: string)
    ensures Contains(TrimRight(s), FENCE) <==> Contains(s, FENCE)
  {
    var b := TrimRightSplit(s);
    var r := TrimRight(s);
    forall i: nat | i <= |s| && FENCE <= s[i..] ensures i <= |r| && FENCE <= r[i..] {
      assert s[i..][2] == '`';
      assert (r + b)[i + 2] == '`';
      assert r[i..][..3] == s[i..][..3];
    }
    forall i: nat | i <= |r| && FENCE <= r[i..] ensures FENCE <= s[i..] {
      assert s[i..] == r[i..] + b;
    }
  }

  /** A fence next to an object lies before its end or behind it. */
  lemma FenceAside(a: string, d: string, i: nat)
    requires a != "" && a[|a| - 1] == '}' && i <= |a + d| && FENCE <= (a + d)[i..]
    ensures i + 3 < |a| || i >= |a|
    ensures i >= |a| ==> FENCE <= d[i - |a|..]
    ensures i < |a| ==> FENCE <= a[i..]
  {
    var s := a + d;
    assert s[i] == s[i + 1] == s[i + 2] == '`';
    if i >= |a| {
      assert s[i..] == d[i - |a|..];
    } else {
      assert s[|a| - 1] == '}';
      assert a[i..][..3] == s[i..][..3];
    }
  }

  lemma ProseRecovers(pre: string, obj: string, post: string)
    requires BraceFree(pre) && IsObject(obj) && BraceFree(post) && !Fenced(pre)
    ensures Braced(Unfenced(pre + obj + post)) == obj
  {
    var a, b := TrimKeepsObject(pre, obj, post);
    PrefixBeforeObject(FENCE, a, obj, b);
    BracedObject(a, obj, b);
  }

  lemma ClosedFenceRecovers(a: string, obj: string, d: string)
    requires BraceFree(a) && IsObject(obj) && BraceFree(d) && Contains(d, FENCE)
    ensures Braced(TrimSpace(CutAtLastFence(a + obj + d))) == obj
  {
    var lead := a + obj;
    var v := lead + d;
    var i := LastIndex(v, FENCE);
    var j: nat :| j <= |d| && FENCE <= d[j..];
    assert v[|lead| + j..] == d[j..];
    LastIndexIsLast(v, FENCE, |lead| + j);
    var e := d[..i - |lead|];
    assert v[..i] == a + obj + e;
    assert BraceFree(e) by { assert forall x | x in e :: x in d; }
    var a', e' := TrimKeepsObject(a, obj, e);
    BracedObject(a', obj, e');
  }

  lemma OpenFenceRecovers(a: string, obj: string, d: string)
    requires BraceFree(a) && IsObject(obj) && BraceFree(d) && !Contains(d, FENCE) && !Contains(a + obj, FENCE)
    ensures Braced(TrimSpace(CutAtLastFence(a + obj + d))) == obj
  {
    var i := LastIndex(a + obj + d, FENCE);
    if i >= 0 {
      FenceAside(a + obj, d, i);
    }
    var a', d' := TrimKeepsObject(a, obj, d);
    BracedObject(a', obj, d');
  }

  lemma InnerFenceLoses(a: string, obj: string, d: string)
    requires BraceFree(a) && IsObject(obj) && BraceFree(d) && !Contains(d, FENCE) && Contains(a + obj, FENCE)
    ensures TrimSpace(Braced(TrimSpace(CutAtLastFence(a + obj + d)))) != obj
  {
    var lead := a + obj;
    var v := lead + d;
    var j: nat :| j <= |lead| && FENCE <= lead[j..];
    assert v[j..] == lead[j..] + d;
    LastIndexIsLast(v, FENCE, j);
    var i := LastIndex(v, FENCE);
    FenceAside(lead, d, i);
    assert v[..i] == lead[..i];
    LostObject(a, obj, i);
  }

  /**
   * The object comes back exactly, from prose or from a code fence, unless the text opens a fence, does not close
   * it behind the object and holds another fence before or inside it; and then it never does.
   */
  lemma ObjectRecovery(pre: string, obj: string, post: string)
    requires BraceFree(pre) && IsObject(obj) && BraceFree(post)
    ensures Normalized(pre + obj + post) == obj <==> Recoverable(pre, obj, post)
  {
    TrimPad("", obj, "");
    assert "" + obj + "" == obj;
    if !Fenced(pre) {
      ProseRecovers(pre, obj, post);
    } else {
      var d := AfterFenceKeepsObject(pre, obj, post);
      if Contains(d, FENCE) {
        ClosedFenceRecovers(Lead(pre), obj, d);
      } else if Contains(Lead(pre) + obj, FENCE) {
        InnerFenceLoses(Lead(pre), obj, d);
      } else {
        OpenFenceRecovers(Lead(pre), obj, d);
      }
    }
  }

  /** An object with a fence of its own is lost in a `json` fence that is never closed. */
  lemma FenceInsideIsLost(obj: string)
    requires IsObject(obj) && Contains(obj, FENCE)
    ensures !Recoverable("```json\n", obj, "") && Normalized("```json\n" + obj) != obj
  {
    var pre := "```json\n";
    JsonFenceLeads();
    assert "" + obj == obj && pre + obj + "" == pre + obj;
    assert !Contains("", FENCE);
    ObjectRecovery(pre, obj, "");
  }

  lemma JsonFenceLeads()
    ensures Fenced("```json\n") && Lead("```json\n") == ""
  {
    assert TrimLeft("```json\n")[3..] == "json\n" && ToLower("json\n")[..4] == "json";
    assert "json\n"[4..] == "\n" && "\n"[1..] == "";
  }

  /** The object `{"text":"```"}` is such a one. */
  lemma FencedTextIsLost()
    ensures var obj := "{\"text\":\"```\"}"; Normalized("```json\n" + obj) != obj
  {
    ContainsAt("{\"text\":\"", FENCE, "\"}");
    assert "{\"text\":\"" + FENCE + "\"}" == "{\"text\":\"```\"}";
    FenceInsideIsLost("{\"text\":\"```\"}");
  }

  /** A text cut before the end of the object never normalises to it. */
  lemma LostObject(a: string, obj: string, i: nat)
    requires BraceFree(a) && IsObject(obj) && i < |a| + |obj|
    ensures TrimSpace(Braced(TrimSpace((a + obj)[..i]))) != obj
  {
    var x, y := TrimSplit((a + obj)[..i]);
    var t := TrimSpace((a + obj)[..i]);
    var w := a + obj;
    assert forall k | 0 <= k < |x| :: IsSpace(x[k]) && x[k] == w[k];
    assert forall k | 0 <= k < |t| :: t[k] == w[|x| + k];
    assert w[|a|] == '{';
    BracesInCut(a, obj, |x|, t);
    var p, q := TrimSplit(Braced(t));
    var r := TrimSpace(Braced(t));
    assert |r| <= |Braced(t)| && forall c | c in r :: c in Braced(t);
    assert obj[|obj| - 1] in obj;
  }

  lemma BracesInCut(a: string, obj: string, n: nat, t: string)
    requires BraceFree(a) && IsObject(obj) && n <= |a| && n + |t| < |a| + |obj|
    requires forall k | 0 <= k < |t| :: t[k] == (a + obj)[n + k]
    ensures |Braced(t)| < |obj| || '}' !in Braced(t)
  {
    var w := a + obj;
    assert w[|a|] == '{' && forall k | 0 <= k < |a| :: w[k] == a[k];
    var start, end := Index(t, '{'), LastIndexChar(t, '}');
    if '}' in t {
      var k :| 0 <= k < |t| && t[k] == '}';
      assert w[n + k] == '}' && n + k > |a| && t[|a| - n] == '{';
      assert start == |a| - n < k <= end;
      assert Braced(t) == t[start..end + 1];
    } else {
      assert forall c | c in Braced(t) :: c in t;
    }
  }

  /** An opening brace with a closing one somewhere behind it. */
  predicate Enclosing(s: string) {
    exists i, j :: 0 <= i < j < |s| && s[i] == '{' && s[j] == '}'
  }

  lemma EnclosingExactly(s: string)
    ensures Enclosing(s) <==> 0 <= Index(s, '{') < LastIndexChar(s, '}')
  {
    var start, end := Index(s, '{'), LastIndexChar(s, '}');
    if i, j :| 0 <= i < j < |s| && s[i] == '{' && s[j] == '}' {
      assert start <= i < j <= end;
    }
  }

  /** The cut keeps what lies between the first opening and the last closing brace, and all of any other text. */
  lemma BracedExactly(s: string) returns (i: int, j: int)
    ensures Enclosing(s) ==> 0 <= i < j < |s| && Braced(s) == s[i..j + 1]
    ensures Enclosing(s) ==> s[i] == '{' && '{' !in s[..i] && s[j] == '}' && '}' !in s[j + 1..]
    ensures !Enclosing(s) ==> Braced(s) == s
  {
    EnclosingExactly(s);
    i, j := Index(s, '{'), LastIndexChar(s, '}');
    if Enclosing(s) {
      NoneBefore(s, '{', i);
      NoneBehind(s, '}', j);
    }
  }

  lemma NoneBefore(s: string, c: char, i: nat)
    requires i <= |s| && forall k | 0 <= k < |s| && s[k] == c :: i <= k
    ensures c !in s[..i]
  {
  }

  lemma NoneBehind(s: string, c: char, i: nat)
    requires i < |s| && forall k | 0 <= k < |s| && s[k] == c :: k <= i
    ensures c !in s[i + 1..]
  {
  }

  lemma TrimTwice(s: string)
    ensures TrimSpace(TrimSpace(s)) == TrimSpace(s)
  {
    var a, b := TrimSplit(s);
    TrimmedStays(TrimSpace(s));
  }

  /** A reply in plain text, without a fence at its start or an opening brace, is only trimmed. */
  lemma PlainReply(raw: string)
    requires !(FENCE <= TrimSpace(raw)) && '{' !in raw
    ensures Cleaned(raw) == TrimSpace(raw)
  {
    var a, b := TrimSplit(raw);
    var t := TrimSpace(raw);
    assert forall c | c in t :: c in raw;
    TrimTwice(raw);
  }

  lemma FenceCut(text: string)
    ensures CutAtLastFence(text + FENCE) == text
  {
    var t := text + FENCE;
    assert t[|text|..] == FENCE;
    LastIndexIsLast(t, FENCE, |text|);
    assert t[..|text|] == text;
  }

  lemma FenceGone(text: string)
    requires Trimmed(text) && text != "" && !Tagged(text + FENCE)
    ensures AfterFence(FENCE + text + FENCE) == text + FENCE
  {
    var t := text + FENCE;
    assert (FENCE + text + FENCE)[3..] == t;
    assert t[0] == text[0] && t[|t| - 1] == '`';
    TrimmedStays(t);
  }

  /** The tag is recognised in any case. */
  lemma TaggedExactly(s: string)
    ensures Tagged(s)
       <==> |s| >= 4 && s[0] in {'j', 'J'} && s[1] in {'s', 'S'} && s[2] in {'o', 'O'} && s[3] in {'n', 'N'}
  {
    assert ToLower(s)[..|s|] == ToLower(s);
    if |s| >= 4 {
      var t := ToLower(s)[..4];
      assert t == "json" <==> t[0] == 'j' && t[1] == 's' && t[2] == 'o' && t[3] == 'n';
    }
  }

  /** So is one in a closed fence without a language tag, once the fence is gone. */
  lemma FencedReply(raw: string, text: string)
    requires TrimSpace(raw) == FENCE + text + FENCE && '{' !in text
    requires Trimmed(text) && text != "" && !Tagged(text + FENCE)
    ensures Cleaned(raw) == text
  {
    FenceGone(text);
    FenceCut(text);
    TrimmedStays(text);
    assert Unfenced(raw) == text;
  }

  lemma TrimmedStays(s: string)
    requires Trimmed(s)
    ensures TrimSpace(s) == s
  {
    assert "" + s + "" == s;
    TrimPad("", s, "");
  }

  /** Opening braces not closed yet; the totals of `strings.Count`. */
  function Depth(s: string): int {
    multiset(s)['{'] as int - multiset(s)['}'] as int
  }

  /** No prefix closes more braces than it opens. */
  predicate NeverBelow(s: string) {
    forall i | 0 <= i <= |s| :: Depth(s[..i]) >= 0
  }

  predicate Nested(s: string) {
    NeverBelow(s) && Depth(s) == 0
  }

  function Closers(n: nat): string {
    seq(n, _ => '}')
  }

  function Repaired(raw: string): string {
    var s := TrimSpace(raw);
    if '{' !in s then raw else s + Closers(if Depth(s) > 0 then Depth(s) else 0)
  }

  /** `tryRepairLLMJSON`. */
  method TryRepairLLMJSON(raw: string) returns (r: string, changed: bool)
    ensures r == Repaired(raw) && (changed <==> r != raw)
  {
    var s := TrimSpace(raw);
    if s == "" || '{' !in s {
      return raw, false;
    }
    var t := s;
    var open, close := multiset(s)['{'], multiset(s)['}'];
    while close < open
      invariant close == multiset(s)['}'] && open == multiset(s)['{'] == multiset(t)['{']
      invariant multiset(t)['}'] <= close && (close <= open || s == t)
      invariant s == t + Closers(close - multiset(t)['}'])
    {
      s := s + "}";
      close := close + 1;
    }
    assert Closers(0) == "" && t + "" == t;
    if s != raw {
      return s, true;
    }
    return raw, false;
  }

  lemma {:induction false} ClosersDepth(n: nat)
    ensures multiset(Closers(n))['}'] == n && multiset(Closers(n))['{'] == 0
  {
    if n > 0 {
      ClosersDepth(n - 1);
      assert Closers(n) == Closers(n - 1) + "}";
    }
  }

  /** The repair repairs once: a repaired text is left alone, and nothing but closing braces is added. */
  lemma RepairIsStable(raw: string)
    ensures Repaired(Repaired(raw)) == Repaired(raw)
    ensures '{' in TrimSpace(raw) ==>
              TrimSpace(raw) <= Repaired(raw) && forall c | c in Repaired(raw)[|TrimSpace(raw)|..] :: c == '}'
  {
    var s := TrimSpace(raw);
    if '{' in s {
      var a, b := TrimSplit(raw);
      var n := if Depth(s) > 0 then Depth(s) else 0;
      RepairedTwice(s, n);
      assert (s + Closers(n))[|s|..] == Closers(n);
    }
  }

  lemma RepairedTwice(s: string, n: nat)
    requires '{' in s && Trimmed(s) && n == if Depth(s) > 0 then Depth(s) else 0
    ensures Repaired(s + Closers(n)) == s + Closers(n)
  {
    var r := s + Closers(n);
    ClosersDepth(n);
    assert Depth(r) == Depth(s) - n <= 0;
    assert '{' in r;
    assert TrimSpace(r) == r by {
      TrimPad("", r, "");
      assert "" + r + "" == r;
    }
    assert Closers(0) == "" && r + "" == r;
  }

  /** Normalising a text that starts with a brace leaves a non-empty prefix of it. */
  lemma NormalizedIsPrefix(raw: string) returns (j: nat)
    requires raw != "" && raw[0] == '{'
    ensures 0 < j <= |raw| && Normalized(raw) == raw[..j] && Trimmed(raw[..j])
  {
    var m := TrimSpacePrefix(raw);
    var t := raw[..m];
    assert !(FENCE <= t);
    assert t[0] == '{';
    var u := Braced(t);
    assert u == t[..|u|] == raw[..|u|] && 0 < |u|;
    j := TrimSpacePrefix(u);
    assert u[..j] == raw[..j];
  }

  /** The text `parseLLMGenerateOutput` decodes: normalised, then repaired. */
  function Cleaned(raw: string): string {
    Repaired(Normalized(raw))
  }

  /** A reply cut anywhere inside its object is cleaned to a word with balanced braces that extends a part of it. */
  lemma TruncatedObjectIsRepaired(word: string, k: nat) returns (j: nat)
    requires Nested(word) && 0 < k <= |word| && word[0] == '{'
    ensures 0 < j <= k && Normalized(word[..k]) == word[..j] && Depth(word[..j]) >= 0
    ensures Nested(Cleaned(word[..k])) && Cleaned(word[..k]) == word[..j] + Closers(Depth(word[..j]))
  {
    j := NormalizedIsPrefix(word[..k]);
    assert word[..k][..j] == word[..j];
    assert forall i | 0 <= i <= j :: word[..j][..i] == word[..i];
    RepairCloses(word[..j]);
  }

  lemma RepairCloses(s: string)
    requires s != "" && s[0] == '{' && Trimmed(s) && NeverBelow(s)
    ensures Depth(s) >= 0 && Repaired(s) == s + Closers(Depth(s)) && Nested(Repaired(s))
  {
    TrimPad("", s, "");
    assert "" + s + "" == s;
    ClosingBalances(s);
  }

  lemma ClosingBalances(s: string)
    requires NeverBelow(s)
    ensures Depth(s) >= 0 && Nested(s + Closers(Depth(s)))
  {
    assert s[..|s|] == s;
    var r := s + Closers(Depth(s));
    forall i | 0 <= i <= |r| ensures Depth(r[..i]) >= 0 {
      if i <= |s| {
        assert r[..i] == s[..i];
      } else {
        ClosersDepth(i - |s|);
        assert r[..i] == s + Closers(i - |s|);
      }
    }
    ClosersDepth(Depth(s));
  }
}
