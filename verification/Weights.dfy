/** Cumulative-weight selection, as both pickers do it. `rand.Intn(n)` is an input: any number below `n`. */
module Weights {
  /** The cumulative weight of the first `k` items. */
  function Upto(ws: seq<int>, k: nat): int
    requires k <= |ws|
  {
    if k == 0 then 0 else Upto(ws, k - 1) + ws[k - 1]
  }

  function Sum(ws: seq<int>): int {
    Upto(ws, |ws|)
  }

  predicate NonNegative(ws: seq<int>) {
    forall i | 0 <= i < |ws| :: ws[i] >= 0
  }

  /** Negative weights count as zero. */
  function Clip(ws: seq<int>): (r: seq<int>)
    ensures |r| == |ws| && NonNegative(r)
    ensures forall i | 0 <= i < |ws| :: r[i] == ws[i] || (ws[i] < 0 && r[i] == 0)
  {
    seq(|ws|, i requires 0 <= i < |ws| => if ws[i] < 0 then 0 else ws[i])
  }

  /** The first index whose cumulative weight exceeds `r`, or the number of weights. */
  function Chosen(ws: seq<int>, r: int): (i: nat)
    ensures i <= |ws| && (i < |ws| ==> r < Upto(ws, i + 1))
    ensures forall k | 1 <= k <= i :: Upto(ws, k) <= r
  {
    Search(ws, r, 0)
  }

  function Search(ws: seq<int>, r: int, from: nat): (i: nat)
    requires from <= |ws|
    requires forall k | 1 <= k <= from :: Upto(ws, k) <= r
    ensures from <= i <= |ws| && (i < |ws| ==> r < Upto(ws, i + 1))
    ensures forall k | 1 <= k <= i :: Upto(ws, k) <= r
    decreases |ws| - from
  {
    if from == |ws| || r < Upto(ws, from + 1) then from else Search(ws, r, from + 1)
  }

  lemma SearchFinds(ws: seq<int>, r: int, from: nat, i: nat)
    requires from <= i <= |ws| && (i < |ws| ==> r < Upto(ws, i + 1))
    requires forall k | 1 <= k <= i :: Upto(ws, k) <= r
    ensures Search(ws, r, from) == i
    decreases i - from
  {
  }

  lemma {:induction false} UptoGrows(ws: seq<int>, i: nat, j: nat)
    requires NonNegative(ws) && i <= j <= |ws|
    ensures Upto(ws, i) <= Upto(ws, j)
  {
    if i < j {
      UptoGrows(ws, i, j - 1);
    }
  }

  lemma {:induction false} ClipGrows(ws: seq<int>, i: nat)
    requires i <= |ws|
    ensures Upto(ws, i) <= Upto(Clip(ws), i)
  {
    if i > 0 {
      ClipGrows(ws, i - 1);
    }
  }

  /** An index is chosen by exactly the numbers between its two cumulative weights. */
  lemma ChosenExactly(ws: seq<int>, r: int, i: nat)
    requires NonNegative(ws) && 0 <= r < Sum(ws) && i < |ws|
    ensures Chosen(ws, r) < |ws|
    ensures Chosen(ws, r) == i <==> Upto(ws, i) <= r < Upto(ws, i + 1)
  {
    var c := Chosen(ws, r);
    if c < i {
      UptoGrows(ws, c + 1, i);
    }
  }

  /** The numbers between two partial sums choose the index between them; they are as many as its weight. */
  lemma ShareOf(ws: seq<int>, i: nat, roll: int)
    requires NonNegative(ws) && i < |ws| && Upto(ws, i) <= roll < Upto(ws, i + 1)
    ensures 0 <= roll < Sum(ws) && roll % Sum(ws) == roll && Chosen(ws, roll) == i
    ensures Upto(ws, i + 1) - Upto(ws, i) == ws[i] && Upto(ws, i + 1) <= Sum(ws)
  {
    UptoGrows(ws, 0, i);
    UptoGrows(ws, i + 1, |ws|);
    ChosenExactly(ws, roll, i);
  }

  /** How many of the numbers below `n` choose index `i`. */
  function Hits(ws: seq<int>, i: nat, n: nat): nat {
    if n == 0 then 0 else Hits(ws, i, n - 1) + if Chosen(ws, n - 1) == i then 1 else 0
  }

  lemma {:induction false} HitsBelow(ws: seq<int>, i: nat, n: nat)
    requires NonNegative(ws) && i < |ws| && n <= Sum(ws)
    ensures var lo, hi := Upto(ws, i), Upto(ws, i + 1);
      Hits(ws, i, n) == if n <= lo then 0 else if n <= hi then n - lo else hi - lo
  {
    UptoGrows(ws, 0, i);
    if n > 0 {
      HitsBelow(ws, i, n - 1);
      ChosenExactly(ws, n - 1, i);
    }
  }

  /** With non-negative weights the chance of an index is exactly its weight in the total. */
  lemma ExactWeighting(ws: seq<int>, i: nat)
    requires NonNegative(ws) && i < |ws|
    ensures Sum(ws) >= 0 && Hits(ws, i, Sum(ws)) == ws[i]
  {
    UptoGrows(ws, 0, |ws|);
    HitsBelow(ws, i, Sum(ws));
    UptoGrows(ws, i + 1, |ws|);
    UptoGrows(ws, 0, i);
  }

  /** A weight of zero is never chosen. */
  lemma ZeroNeverChosen(ws: seq<int>, r: int)
    requires NonNegative(ws) && 0 <= r < Sum(ws)
    ensures Chosen(ws, r) < |ws| && ws[Chosen(ws, r)] > 0
  {
    if ws != [] {
      var c := Chosen(ws, r);
      ChosenExactly(ws, r, if c < |ws| then c else 0);
    }
  }

  /** Below the plain total the clipped weights never run out: the fall-through is not reached. */
  lemma ClippedNeverRunsOut(ws: seq<int>, r: int)
    requires 0 <= r < Sum(ws)
    ensures Chosen(Clip(ws), r) < |ws|
  {
    ClipGrows(ws, |ws|);
    if ws != [] {
      ChosenExactly(Clip(ws), r, 0);
    }
  }

  /** `pickWeightedRandom`: `roll` stands for `rand.Intn`, reduced to its bound. */
  method PickWeightedRandom(scores: seq<int>, roll: nat) returns (i: nat)
    requires scores != []
    ensures i < |scores|
    ensures i == if Sum(scores) <= 0 then roll % |scores| else Chosen(Clip(scores), roll % Sum(scores))
  {
    var total := 0;
    for k := 0 to |scores|
      invariant total == Upto(scores, k)
    {
      total := total + scores[k];
    }
    if total <= 0 {
      return roll % |scores|;
    }
    var r := roll % total;
    ghost var clipped := Clip(scores);
    ClippedNeverRunsOut(scores, r);
    var sum := 0;
    for k := 0 to |scores|
      invariant sum == Upto(clipped, k)
      invariant forall j | 1 <= j <= k :: Upto(clipped, j) <= r
    {
      if scores[k] < 0 {
        continue;
      }
      sum := sum + scores[k];
      if r < sum {
        SearchFinds(clipped, r, 0, k);
        return k;
      }
    }
    assert false;  // the fall-through to the first candidate is dead
  }

  datatype Draw = Nothing | Picked(i: nat) | Panic

  /** `pickBestTemplateForPrematch` on the priorities; `rand.Intn` panics on a negative total. */
  method PickByPriority(priorities: seq<int>, roll: nat) returns (d: Draw)
    ensures d == if priorities == [] then Nothing
                 else if Sum(priorities) == 0 then Picked(roll % |priorities|)
                 else if Sum(priorities) < 0 then Panic
                 else Picked(Chosen(priorities, roll % Sum(priorities)))
    ensures d.Picked? ==> d.i < |priorities|
  {
    if |priorities| == 0 {
      return Nothing;
    }
    var total := 0;
    for k := 0 to |priorities|
      invariant total == Upto(priorities, k)
    {
      total := total + priorities[k];
    }
    if total == 0 {
      return Picked(roll % |priorities|);
    }
    if total < 0 {
      return Panic;
    }
    var pick := roll % total;
    var current := 0;
    for k := 0 to |priorities|
      invariant current == Upto(priorities, k)
      invariant forall j | 1 <= j <= k :: Upto(priorities, j) <= pick
    {
      current := current + priorities[k];
      if pick < current {
        SearchFinds(priorities, pick, 0, k);
        return Picked(k);
      }
    }
    assert false;  // the last cumulative weight is the total, so the fall-through to the last candidate is dead
  }
}
