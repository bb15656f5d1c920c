/** Choosing a token from one row of logits. */
module Sampling {
  import opened Requests

  /** Everything about a model that a row's next token depends on. `draw` is the random
      draw from a masked row (None is minus infinity); it may fail. */
  datatype Model = Model(logits: seq<Cell> -> seq<real>, draw: seq<Option<real>> -> Option<int>)

  /** One attended column: a token and its position. */
  datatype Cell = Cell(token: int, position: int)

  /** Index of the first largest element. */
  function ArgMax(row: seq<real>): (m: nat)
    requires row != []
    ensures m < |row|
    ensures forall i | 0 <= i < |row| :: row[i] <= row[m]
    ensures forall i | 0 <= i < m :: row[i] < row[m]
  {
    if |row| == 1 then 0
    else
      var n := |row| - 1;
      var m := ArgMax(row[..n]);
      assert forall i | 0 <= i < n :: row[..n][i] == row[i];
      if row[m] < row[n] then n else m
  }

  function Without(row: seq<real>, i: nat): (r: seq<real>)
    requires i < |row|
    ensures |r| == |row| - 1
  {
    row[..i] + row[i + 1..]
  }

  /** The k-th largest element: the last of the k values a top-k selection keeps. */
  function KthLargest(row: seq<real>, k: nat): real
    requires 1 <= k <= |row|
    decreases k
  {
    var m := ArgMax(row);
    if k == 1 then row[m] else KthLargest(Without(row, m), k - 1)
  }

  function AtLeast(row: seq<real>, t: real): nat {
    if row == [] then 0 else AtLeast(row[..|row| - 1], t) + (if row[|row| - 1] >= t then 1 else 0)
  }

  function Above(row: seq<real>, t: real): nat {
    if row == [] then 0 else Above(row[..|row| - 1], t) + (if row[|row| - 1] > t then 1 else 0)
  }

  lemma {:induction false} CountWithout(row: seq<real>, i: nat, t: real)
    requires i < |row|
    ensures AtLeast(row, t) == AtLeast(Without(row, i), t) + (if row[i] >= t then 1 else 0)
    ensures Above(row, t) == Above(Without(row, i), t) + (if row[i] > t then 1 else 0)
  {
    var n := |row| - 1;
    if i == n {
      assert Without(row, i) == row[..n];
    } else {
      CountWithout(row[..n], i, t);
      assert Without(row, i)[..n - 1] == Without(row[..n], i);
    }
  }

  lemma {:induction false} NoneAbove(row: seq<real>, t: real)
    requires forall i | 0 <= i < |row| :: row[i] <= t
    ensures Above(row, t) == 0
  {
    if row != [] { NoneAbove(row[..|row| - 1], t); }
  }

  lemma {:induction false} KthBelow(row: seq<real>, k: nat, bound: real)
    requires 1 <= k <= |row|
    requires forall i | 0 <= i < |row| :: row[i] <= bound
    ensures KthLargest(row, k) <= bound
    decreases k
  {
    if k > 1 {
      KthBelow(Without(row, ArgMax(row)), k - 1, bound);
    }
  }

  /** At least k candidates survive the threshold, and fewer than k lie strictly above it. */
  lemma {:induction false} ThresholdCounts(row: seq<real>, k: nat)
    requires 1 <= k <= |row|
    ensures AtLeast(row, KthLargest(row, k)) >= k
    ensures Above(row, KthLargest(row, k)) < k
    decreases k
  {
    var m := ArgMax(row);
    var t := KthLargest(row, k);
    KthBelow(row, k, row[m]);
    CountWithout(row, m, t);
    if k == 1 {
      NoneAbove(row, t);
    } else {
      ThresholdCounts(Without(row, m), k - 1);
    }
  }

  /** The row with everything below the threshold masked. */
  function TopK(row: seq<real>, k: nat): (r: seq<Option<real>>)
    requires 1 <= k <= |row|
    ensures |r| == |row|
  {
    var t := KthLargest(row, k);
    seq(|row|, i requires 0 <= i < |row| => if row[i] < t then None else Some(row[i]))
  }

  function Kept(masked: seq<Option<real>>): nat {
    if masked == [] then 0
    else Kept(masked[..|masked| - 1]) + (if masked[|masked| - 1].Some? then 1 else 0)
  }

  lemma {:induction false} KeptIsAtLeast(row: seq<real>, masked: seq<Option<real>>, t: real)
    requires |masked| == |row|
    requires forall i | 0 <= i < |row| :: masked[i].Some? <==> row[i] >= t
    ensures Kept(masked) == AtLeast(row, t)
  {
    if row != [] {
      var n := |row| - 1;
      KeptIsAtLeast(row[..n], masked[..n], t);
    }
  }

  /** The support is never empty, keeps every largest logit, and its surplus is only ties. */
  lemma {:induction false} TopKSupport(row: seq<real>, k: nat)
    requires 1 <= k <= |row|
    ensures Kept(TopK(row, k)) >= k
    ensures forall i | 0 <= i < |row| && row[i] == row[ArgMax(row)] :: TopK(row, k)[i] == Some(row[i])
    ensures Above(row, KthLargest(row, k)) < k
    ensures forall i | 0 <= i < |row| && TopK(row, k)[i].Some? ::
      row[i] == KthLargest(row, k) || row[i] > KthLargest(row, k)
  {
    ThresholdCounts(row, k);
    KthBelow(row, k, row[ArgMax(row)]);
    KeptIsAtLeast(row, TopK(row, k), KthLargest(row, k));
  }

  function Scaled(row: seq<real>, temperature: real): (r: seq<real>)
    requires temperature > 0.0
    ensures |r| == |row|
  {
    seq(|row|, i requires 0 <= i < |row| => row[i] / temperature)
  }

  /** The masked, scaled row a random draw is made from. */
  function Candidates(row: seq<real>, temperature: real, topK: Option<int>): (r: seq<Option<real>>)
    requires temperature > 0.0 && row != []
    ensures |r| == |row|
  {
    var scaled := Scaled(row, temperature);
    if topK.Some? && topK.value > 0 then
      TopK(scaled, if topK.value < |row| then topK.value else |row|)
    else
      seq(|row|, i requires 0 <= i < |row| => Some(scaled[i]))
  }

  /** One row's token under that row's own settings; None is a row that raised. */
  function SampleRow(model: Model, row: seq<real>, req: Request): Option<int> {
    if row == [] then None
    else if req.temperature <= 0.0 then Some(ArgMax(row))
    else model.draw(Candidates(row, req.temperature, req.topK))
  }

  /** A draw only ever returns a candidate that was not masked. */
  ghost predicate Fair(model: Model) {
    forall masked: seq<Option<real>> :: model.draw(masked).Some? ==>
      0 <= model.draw(masked).value < |masked| && masked[model.draw(masked).value].Some?
  }

  lemma {:induction false} ScaledOrder(row: seq<real>, temperature: real)
    requires temperature > 0.0 && row != []
    ensures forall i, j | 0 <= i < |row| && 0 <= j < |row| ::
      row[i] < row[j] <==> Scaled(row, temperature)[i] < Scaled(row, temperature)[j]
  {
    forall i, j | 0 <= i < |row| && 0 <= j < |row|
      ensures row[i] < row[j] <==> row[i] / temperature < row[j] / temperature
    {
      DivideOrder(row[i], row[j], temperature);
    }
  }

  lemma {:induction false} DivideOrder(a: real, b: real, t: real)
    requires t > 0.0
    ensures a < b <==> a / t < b / t
  {
    assert a == (a / t) * t && b == (b / t) * t;
    if a / t < b / t { assert (a / t) * t < (b / t) * t; }
    if a / t >= b / t { assert (a / t) * t >= (b / t) * t; }
  }

  lemma {:induction false} AboveIsFewer(row: seq<real>, low: real, high: real)
    requires low <= high
    ensures Above(row, high) <= Above(row, low)
    ensures low < high ==> AtLeast(row, high) <= Above(row, low)
  {
    if row != [] { AboveIsFewer(row[..|row| - 1], low, high); }
  }

  lemma {:induction false} AboveIsPartial(row: seq<real>, t: real)
    ensures Above(row, t) <= |row|
    ensures (exists i :: 0 <= i < |row| && row[i] <= t) ==> Above(row, t) < |row|
  {
    if row != [] {
      var n := |row| - 1;
      AboveIsPartial(row[..n], t);
      assert forall i | 0 <= i < n :: row[..n][i] == row[i];
    }
  }

  /** Below the threshold are exactly those that k others beat. */
  lemma {:induction false} KeptIff(row: seq<real>, k: nat, i: nat)
    requires 1 <= k <= |row| && i < |row|
    ensures TopK(row, k)[i] == if Above(row, row[i]) < k then Some(row[i]) else None
  {
    var t := KthLargest(row, k);
    ThresholdCounts(row, k);
    if row[i] < t {
      AboveIsFewer(row, row[i], t);
    } else {
      AboveIsFewer(row, t, row[i]);
    }
  }

  lemma {:induction false} AboveScaled(row: seq<real>, scaled: seq<real>, t: real, u: real)
    requires |scaled| == |row|
    requires forall j | 0 <= j < |row| :: row[j] > t <==> scaled[j] > u
    ensures Above(scaled, u) == Above(row, t)
  {
    if row != [] {
      var n := |row| - 1;
      AboveScaled(row[..n], scaled[..n], t, u);
    }
  }

  /** Does logit i of this row take part in the draw? Without a limit each one does; with top_k = k
      those do that fewer than k others exceed, so ties with the k-th stay in. */
  ghost predicate TakesPart(row: seq<real>, topK: Option<int>, i: nat)
    requires i < |row|
  {
    topK == None || topK.value <= 0 || Above(row, row[i]) < topK.value
  }

  /** The draw is made from the logits that take part, each divided by the temperature. */
  lemma {:induction false} CandidateIff(row: seq<real>, temperature: real, topK: Option<int>, i: nat)
    requires temperature > 0.0 && i < |row|
    ensures Candidates(row, temperature, topK)[i].Some? <==> TakesPart(row, topK, i)
    ensures var c := Candidates(row, temperature, topK)[i]; c.Some? ==> c.value * temperature == row[i]
  {
    hide Candidates, TakesPart, Scaled;
    CandidateIs(row, temperature, topK, i);
    ScaledBack(row, temperature, i);
  }

  lemma {:induction false} CandidateIs(row: seq<real>, temperature: real, topK: Option<int>, i: nat)
    requires temperature > 0.0 && i < |row|
    ensures Candidates(row, temperature, topK)[i]
      == if TakesPart(row, topK, i) then Some(Scaled(row, temperature)[i]) else None
  {
    hide Scaled, Above, TopK;
    if topK.Some? && topK.value > 0 {
      AboveInScaled(row, temperature, i);
      AboveIsPartial(row, row[i]);
      KeptIff(Scaled(row, temperature), if topK.value < |row| then topK.value else |row|, i);
    }
  }

  lemma {:induction false} ScaledBack(row: seq<real>, temperature: real, i: nat)
    requires temperature > 0.0 && i < |row|
    ensures Scaled(row, temperature)[i] * temperature == row[i]
  {
  }

  lemma {:induction false} AboveInScaled(row: seq<real>, temperature: real, i: nat)
    requires temperature > 0.0 && i < |row|
    ensures Above(Scaled(row, temperature), Scaled(row, temperature)[i]) == Above(row, row[i])
  {
    ScaledOrder(row, temperature);
    hide Scaled;
    AboveScaled(row, Scaled(row, temperature), row[i], Scaled(row, temperature)[i]);
  }

  /**
   * What one row's token is drawn from. No logits: the row fails. Temperature zero: the first
   * largest logit, and the row cannot fail. Otherwise one draw, from exactly the logits that take
   * part, scaled; with no top_k, or one of zero, or below, or not below the vocabulary: from all.
   */
  lemma {:induction false} DrawnFrom(model: Model, row: seq<real>, req: Request)
    ensures row == [] ==> SampleRow(model, row, req) == None
    ensures row != [] && req.temperature <= 0.0 ==>
      var t := SampleRow(model, row, req);
      && t.Some? && 0 <= t.value < |row|
      && (forall i | 0 <= i < |row| :: row[i] <= row[t.value])
      && (forall i | 0 <= i < t.value :: row[i] < row[t.value])
    ensures row != [] && req.temperature > 0.0 ==>
      var c := Candidates(row, req.temperature, req.topK);
      && SampleRow(model, row, req) == model.draw(c) && |c| == |row|
      && (forall i | 0 <= i < |row| ::
            c[i].Some? <==> req.topK == None || req.topK.value <= 0 || Above(row, row[i]) < req.topK.value)
      && (forall i | 0 <= i < |row| && c[i].Some? :: c[i].value * req.temperature == row[i])
      && (req.topK == None || req.topK.value <= 0 || req.topK.value >= |row| ==>
            forall i | 0 <= i < |row| :: c[i].Some?)
  {
    if row != [] && req.temperature > 0.0 {
      forall i | 0 <= i < |row|
        ensures var c := Candidates(row, req.temperature, req.topK)[i];
          && (c.Some? <==> TakesPart(row, req.topK, i)) && (c.Some? ==> c.value * req.temperature == row[i])
        ensures Above(row, row[i]) < |row|
      {
        CandidateIff(row, req.temperature, req.topK, i);
        AboveIsPartial(row, row[i]);
      }
    }
  }

  /**
   * A sampled token is an index of its own row. Greedy rows take a largest logit, and so
   * does top_k = 1 at any temperature; a row with top_k = k takes one of the k largest or
   * a logit tied with the k-th.
   */
  lemma {:induction false} SampledToken(model: Model, row: seq<real>, req: Request)
    requires Fair(model)
    requires SampleRow(model, row, req).Some?
    ensures var t := SampleRow(model, row, req).value;
      && 0 <= t < |row|
      && (req.temperature <= 0.0 || req.topK == Some(1) ==> forall i | 0 <= i < |row| :: row[i] <= row[t])
      && (req.temperature > 0.0 && req.topK.Some? && 1 <= req.topK.value <= |row| ==>
          Scaled(row, req.temperature)[t] >= KthLargest(Scaled(row, req.temperature), req.topK.value))
  {
    if req.temperature > 0.0 {
      ScaledOrder(row, req.temperature);
    }
  }
}
