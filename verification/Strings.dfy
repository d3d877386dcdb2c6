/** The Go string functions that the modelled code calls, on sequences of characters. */
module Strings {

  /** `strings.Contains`. */
  predicate Contains(s: string, t: string) {
    exists i: nat :: i <= |s| && t <= s[i..]
  }

  lemma ContainsAt(a: string, t: string, b: string)
    ensures Contains(a + t + b, t)
  {
    assert (a + t + b)[|a|..] == t + b;
  }

  predicate BraceFree(s: string) {
    '{' !in s && '}' !in s
  }

  /** `strings.ReplaceAll`: leftmost occurrences, without overlap. */
  function ReplaceAll(s: string, old_: string, new_: string): string
    requires old_ != ""
    decreases |s|
  {
    if s == "" then ""
    else if old_ <= s then new_ + ReplaceAll(s[|old_|..], old_, new_)
    else [s[0]] + ReplaceAll(s[1..], old_, new_)
  }

  /** `unicode.IsSpace`. */
  predicate IsSpace(c: char) {
    || c == ' ' || '\t' <= c <= '\r' || c == '\U{0085}' || c == '\U{00A0}' || c == '\U{1680}'
    || '\U{2000}' <= c <= '\U{200A}' || c == '\U{2028}' || c == '\U{2029}' || c == '\U{202F}'
    || c == '\U{205F}' || c == '\U{3000}'
  }

  predicate AllSpace(s: string) {
    forall i | 0 <= i < |s| :: IsSpace(s[i])
  }

  function TrimLeft(s: string): string {
    if s != "" && IsSpace(s[0]) then TrimLeft(s[1..]) else s
  }

  function TrimRight(s: string): string {
    if s != "" && IsSpace(s[|s| - 1]) then TrimRight(s[..|s| - 1]) else s
  }

  /** `strings.TrimSpace`. */
  function TrimSpace(s: string): string {
    TrimRight(TrimLeft(s))
  }

  /** No white space at either end. */
  predicate Trimmed(s: string) {
    s != "" ==> !IsSpace(s[0]) && !IsSpace(s[|s| - 1])
  }

  lemma {:induction false} TrimLeftSplit(s: string) returns (a: string)
    ensures s == a + TrimLeft(s) && AllSpace(a)
    ensures TrimLeft(s) != "" ==> !IsSpace(TrimLeft(s)[0])
  {
    if s != "" && IsSpace(s[0]) {
      var b := TrimLeftSplit(s[1..]);
      a := [s[0]] + b;
    } else {
      a := "";
    }
  }

  lemma {:induction false} TrimRightSplit(s: string) returns (b: string)
    ensures s == TrimRight(s) + b && AllSpace(b)
    ensures TrimRight(s) != "" ==> !IsSpace(TrimRight(s)[|TrimRight(s)| - 1])
  {
    if s != "" && IsSpace(s[|s| - 1]) {
      var a := TrimRightSplit(s[..|s| - 1]);
      b := a + [s[|s| - 1]];
    } else {
      b := "";
    }
  }

  /** `TrimSpace` removes white space at both ends and nothing else. */
  lemma TrimSplit(s: string) returns (a: string, b: string)
    ensures s == a + TrimSpace(s) + b && AllSpace(a) && AllSpace(b) && Trimmed(TrimSpace(s))
  {
    a := TrimLeftSplit(s);
    var l := TrimLeft(s);
    b := TrimRightSplit(l);
    assert s == a + (TrimRight(l) + b);
  }

  lemma {:induction false} TrimLeftPad(a: string, s: string)
    requires AllSpace(a)
    ensures TrimLeft(a + s) == TrimLeft(s)
  {
    if a == "" {
      assert a + s == s;
    } else {
      assert (a + s)[1..] == a[1..] + s;
      TrimLeftPad(a[1..], s);
    }
  }

  lemma {:induction false} TrimRightPad(s: string, b: string)
    requires AllSpace(b)
    ensures TrimRight(s + b) == TrimRight(s)
  {
    if b == "" {
      assert s + b == s;
    } else {
      assert (s + b)[..|s + b| - 1] == s + b[..|b| - 1];
      TrimRightPad(s, b[..|b| - 1]);
    }
  }

  /** A trimmed text is what `TrimSpace` leaves of it under any padding. */
  lemma TrimPad(a: string, s: string, b: string)
    requires AllSpace(a) && AllSpace(b) && Trimmed(s)
    ensures TrimSpace(a + s + b) == s
  {
    if s == "" {
      assert a + s + b == a + b;
      TrimLeftPad(a, b);
      TrimLeftPad(b, "");
      assert b + "" == b;
    } else {
      assert a + s + b == a + (s + b);
      TrimLeftPad(a, s + b);
      TrimRightPad(s, b);
    }
  }

  /** A text that starts outside white space keeps its start. */
  lemma {:induction false} TrimSpacePrefix(s: string) returns (j: nat)
    requires s != "" && !IsSpace(s[0])
    ensures 0 < j <= |s| && TrimSpace(s) == s[..j] && !IsSpace(s[j - 1])
  {
    if IsSpace(s[|s| - 1]) {
      var t := s[..|s| - 1];
      j := TrimSpacePrefix(t);
      assert TrimLeft(t) == t && t[..j] == s[..j];
    } else {
      j := |s|;
      assert s[..j] == s;
    }
  }

  /** A core that starts and ends outside white space survives `TrimSpace` with what is left around it. */
  lemma TrimAround(a: string, m: string, b: string)
    requires m != "" && Trimmed(m)
    ensures TrimSpace(a + m + b) == TrimLeft(a) + m + TrimRight(b)
  {
    var l := TrimLeft(a);
    calc {
      TrimSpace(a + m + b);
      { assert a + m + b == a + (m + b); TrimLeftKeeps(a, m + b); }
      TrimRight(l + (m + b));
      { assert l + (m + b) == (l + m) + b; TrimRightKeeps(l + m, b); }
      (l + m) + TrimRight(b);
    }
  }

  lemma {:induction false} TrimLeftKeeps(a: string, m: string)
    requires m != "" && !IsSpace(m[0])
    ensures TrimLeft(a + m) == TrimLeft(a) + m
  {
    if a == "" {
      assert a + m == m;
    } else {
      assert (a + m)[1..] == a[1..] + m;
      TrimLeftKeeps(a[1..], m);
    }
  }

  lemma {:induction false} TrimRightKeeps(m: string, b: string)
    requires m != "" && !IsSpace(m[|m| - 1])
    ensures TrimRight(m + b) == m + TrimRight(b)
  {
    if b == "" {
      assert m + b == m;
    } else {
      assert (m + b)[..|m + b| - 1] == m + b[..|b| - 1];
      TrimRightKeeps(m, b[..|b| - 1]);
    }
  }

  /** `strings.Index` for a single character: its first place, or -1. */
  function Index(s: string, c: char): (i: int)
    ensures -1 <= i < |s| && (i >= 0 ==> s[i] == c)
    ensures forall k | 0 <= k < |s| && s[k] == c :: 0 <= i <= k
  {
    if s == "" then -1
    else if s[0] == c then 0
    else
      var i := Index(s[1..], c);
      assert forall k | 1 <= k < |s| :: s[k] == s[1..][k - 1];
      if i < 0 then -1 else i + 1
  }

  /** `strings.LastIndex`: the last place where `t` occurs, or -1. */
  function LastIndex(s: string, t: string): (i: int)
    ensures -1 <= i && (i >= 0 ==> i + |t| <= |s| && t <= s[i..])
  {
    var i := if s == "" then -1 else LastIndex(s[1..], t);
    assert i >= 0 ==> s[1..][i..] == s[i + 1..];
    if i >= 0 then i + 1 else if t <= s then 0 else -1
  }

  lemma {:induction false} LastIndexIsLast(s: string, t: string, k: nat)
    requires k <= |s| && t <= s[k..]
    ensures k <= LastIndex(s, t)
  {
    if k > 0 {
      assert s[1..][k - 1..] == s[k..];
      LastIndexIsLast(s[1..], t, k - 1);
    }
  }

  /** `strings.LastIndex` for a single character. */
  function LastIndexChar(s: string, c: char): (i: int)
    ensures -1 <= i < |s| && (i >= 0 ==> s[i] == c)
    ensures forall k | 0 <= k < |s| && s[k] == c :: k <= i
  {
    if s == "" then -1
    else if s[|s| - 1] == c then |s| - 1
    else
      assert forall k | 0 <= k < |s| - 1 :: s[k] == s[..|s| - 1][k];
      LastIndexChar(s[..|s| - 1], c)
  }

  function LowerChar(c: char): char {
    if 'A' <= c <= 'Z' then c + 32 as char else c
  }

  /** `strings.ToLower`, on the letters of ASCII. */
  function ToLower(s: string): (r: string)
    ensures |r| == |s| && forall i | 0 <= i < |s| :: r[i] == LowerChar(s[i])
  {
    seq(|s|, i requires 0 <= i < |s| => LowerChar(s[i]))
  }

  /** `strings.ToUpper`, on the letters of ASCII. */
  function ToUpper(s: string): (r: string)
    ensures |r| == |s| && forall i | 0 <= i < |s| :: r[i] == if 'a' <= s[i] <= 'z' then s[i] - 32 as char else s[i]
  {
    seq(|s|, i requires 0 <= i < |s| => if 'a' <= s[i] <= 'z' then s[i] - 32 as char else s[i])
  }

  /** `strconv.Itoa`, and the `%d` verb of `fmt.Sprintf`. */
  function Itoa(n: int): string {
    if n < 0 then "-" + Digits(-n) else Digits(n)
  }

  function Digits(n: nat): string {
    if n < 10 then ['0' + n as char] else Digits(n / 10) + ['0' + (n % 10) as char]
  }

  function Value(s: string): nat
    requires forall i | 0 <= i < |s| :: '0' <= s[i] <= '9'
  {
    if s == "" then 0 else 10 * Value(s[..|s| - 1]) + (s[|s| - 1] - '0') as nat
  }

  lemma {:induction false} DigitsValue(n: nat)
    ensures Digits(n) != "" && forall i | 0 <= i < |Digits(n)| :: '0' <= Digits(n)[i] <= '9'
    ensures Value(Digits(n)) == n
  {
    if n < 10 {
      assert Digits(n)[..0] == "";
    } else {
      DigitsValue(n / 10);
      var d := Digits(n);
      assert d[..|d| - 1] == Digits(n / 10);
    }
  }

  /** Decimal text is made of digits and a minus sign. */
  lemma ItoaChars(n: int)
    ensures Itoa(n) != "" && forall c | c in Itoa(n) :: c == '-' || '0' <= c <= '9'
  {
    DigitsValue(if n < 0 then -n else n);
  }

  /** Decimal text determines the number. */
  lemma ItoaInjective(m: int, n: int)
    requires Itoa(m) == Itoa(n)
    ensures m == n
  {
    DigitsValue(if m < 0 then -m else m);
    DigitsValue(if n < 0 then -n else n);
    assert Itoa(m)[0] == '-' <==> m < 0;
    assert Itoa(n)[0] == '-' <==> n < 0;
    if m < 0 {
      assert Itoa(m)[1..] == Digits(-m) && Itoa(n)[1..] == Digits(-n);
    }
  }
}
