/**
 * get_aggregated_sentiment as functions: a recency-weighted mean of the stored
 * probabilities, with weights laid out like np.linspace(0.5, 1.0, n), and the
 * majority label chosen the way Python's max picks among the count items
 * (the first maximum wins, in the order positive, negative, neutral).
 */
module Aggregation {
  import opened Domain

  lemma FractionBounds(x: real, d: real)
    requires 0.0 <= x <= d && d > 0.0
    ensures 0.0 <= x / d <= 1.0
  {
    assert x / d * d == x;
  }

  /** The i-th of n evenly spaced weights from 0.5 (oldest) to 1.0 (newest); one point is 0.5. */
  function Weight(i: nat, n: nat): (w: real)
    requires i < n
    ensures 0.5 <= w <= 1.0
  {
    if n == 1 then 0.5
    else
      FractionBounds(i as real, (n - 1) as real);
      0.5 + 0.5 * ((i as real) / ((n - 1) as real))
  }

  /** Sum of p[i] * w[i] over the first k readings of h. */
  function WeightedSum(h: seq<Observation>, k: nat): real
    requires k <= |h|
  {
    if k == 0 then 0.0 else WeightedSum(h, k - 1) + h[k - 1].probability * Weight(k - 1, |h|)
  }

  /** Sum of the probabilities of the first k readings of h. */
  function PlainSum(h: seq<Observation>, k: nat): real
    requires k <= |h|
  {
    if k == 0 then 0.0 else PlainSum(h, k - 1) + h[k - 1].probability
  }

  /** np.mean of the weighted probabilities: the weighted sum divided by the number of readings. */
  function WeightedMean(h: seq<Observation>): (m: real)
    ensures h == [] ==> m == 0.0
    ensures h != [] ==> m * (|h| as real) == WeightedSum(h, |h|)
  {
    if |h| == 0 then 0.0 else WeightedSum(h, |h|) / (|h| as real)
  }

  /** The unweighted mean, for comparison. */
  function PlainMean(h: seq<Observation>): real
  {
    if |h| == 0 then 0.0 else PlainSum(h, |h|) / (|h| as real)
  }

  /** Number of readings labelled l among the first k of h. */
  function Count(h: seq<Observation>, k: nat, l: Label): nat
    requires k <= |h|
  {
    if k == 0 then 0 else Count(h, k - 1, l) + (if h[k - 1].sentiment == l then 1 else 0)
  }

  /** Every reading carries exactly one of the three labels. */
  lemma {:induction false} CountTotal(h: seq<Observation>, k: nat)
    requires k <= |h|
    ensures Count(h, k, Positive) + Count(h, k, Negative) + Count(h, k, Neutral) == k
  {
    if k > 0 {
      CountTotal(h, k - 1);
    }
  }

  /**
   * The items of the count dictionary, in its insertion order: one item per
   * label, whose counts add up to the number of readings.
   */
  function CountItems(h: seq<Observation>): (items: seq<(Label, nat)>)
    ensures |items| == 3 && items[0].0 == Positive && items[1].0 == Negative && items[2].0 == Neutral
    ensures forall i :: 0 <= i < |items| ==> items[i].1 == Count(h, |h|, items[i].0)
    ensures items[0].1 + items[1].1 + items[2].1 == |h|
  {
    CountTotal(h, |h|);
    [(Positive, Count(h, |h|, Positive)),
     (Negative, Count(h, |h|, Negative)),
     (Neutral, Count(h, |h|, Neutral))]
  }

  /**
   * The index of the item Python's max(items, key=count) returns: scanning
   * left to right, an item replaces the best so far only when its count is
   * strictly larger.
   */
  function FirstMaxIndex<K>(items: seq<(K, nat)>): (j: nat)
    requires |items| > 0
    ensures j < |items|
    ensures forall i :: 0 <= i < |items| ==> items[i].1 <= items[j].1
    ensures forall i :: 0 <= i < j ==> items[i].1 < items[j].1
  {
    if |items| == 1 then 0
    else
      var j := FirstMaxIndex(items[..|items| - 1]);
      if items[|items| - 1].1 > items[j].1 then |items| - 1 else j
  }

  /** The dominant label of a non-empty history occurs in it. */
  function DominantLabel(h: seq<Observation>): (l: Label)
    ensures h != [] ==> Count(h, |h|, l) > 0
  {
    var items := CountItems(h);
    items[FirstMaxIndex(items)].0
  }

  /** get_aggregated_sentiment: (0, neutral) for an empty history. */
  function Aggregate(h: seq<Observation>): (r: Observation)
    ensures h == [] ==> r == NoSentiment
  {
    if h == [] then NoSentiment else Observation(WeightedMean(h), DominantLabel(h))
  }

  // ---------------------------------------------------------------------------
  // Weights

  /** The weights form the ramp from 0.5 to 1.0: fixed endpoints, constant step. */
  lemma WeightRamp(n: nat)
    requires n >= 2
    ensures Weight(0, n) == 0.5 && Weight(n - 1, n) == 1.0
    ensures forall i :: 0 <= i < n - 1 ==> Weight(i + 1, n) == Weight(i, n) + 0.5 / ((n - 1) as real)
  {
    var d := (n - 1) as real;
    assert d / d == 1.0;
    forall i | 0 <= i < n - 1
      ensures Weight(i + 1, n) == Weight(i, n) + 0.5 / d
    {
      assert ((i + 1) as real) / d == (i as real) / d + 1.0 / d;
    }
  }

  /** Newer readings weigh strictly more. */
  lemma WeightIncreasing(i: nat, j: nat, n: nat)
    requires i < j < n
    ensures Weight(i, n) < Weight(j, n)
  {
    var d := (n - 1) as real;
    assert (j as real) / d - (i as real) / d == ((j - i) as real) / d;
  }

  // ---------------------------------------------------------------------------
  // The weighted mean

  predicate Probabilities(h: seq<Observation>)
  {
    forall i :: 0 <= i < |h| ==> 0.0 <= h[i].probability <= 1.0
  }

  lemma ProductNonNegative(a: real, b: real)
    requires a >= 0.0 && b >= 0.0
    ensures a * b >= 0.0
  {
  }

  lemma {:induction false} SumBounds(h: seq<Observation>, k: nat)
    requires k <= |h| && Probabilities(h)
    ensures 0.5 * PlainSum(h, k) <= WeightedSum(h, k) <= PlainSum(h, k) <= k as real
    ensures 0.0 <= PlainSum(h, k)
  {
    if k > 0 {
      SumBounds(h, k - 1);
      var p, w := h[k - 1].probability, Weight(k - 1, |h|);
      assert 0.0 <= p <= 1.0;
      ProductNonNegative(p, 1.0 - w);
      ProductNonNegative(p, w - 0.5);
    }
  }

  /**
   * With every probability in [0, 1], the aggregated probability is in [0, 1],
   * at most the plain mean and at least half of it.
   */
  lemma {:induction false} WeightedMeanBounds(h: seq<Observation>)
    requires Probabilities(h)
    ensures 0.0 <= WeightedMean(h) <= PlainMean(h) <= 1.0
    ensures 0.5 * PlainMean(h) <= WeightedMean(h)
  {
    if |h| > 0 {
      SumBounds(h, |h|);
      var n := |h| as real;
      var ws, ps := WeightedSum(h, |h|), PlainSum(h, |h|);
      assert WeightedMean(h) == ws / n && PlainMean(h) == ps / n;
      MeanBounds(ws, ps, n);
    }
  }

  /** The division step of WeightedMeanBounds, on plain numbers. */
  lemma MeanBounds(ws: real, ps: real, n: real)
    requires 0.5 * ps <= ws <= ps <= n && 0.0 <= ps && n > 0.0
    ensures 0.0 <= ws / n <= ps / n <= 1.0
    ensures 0.5 * (ps / n) <= ws / n
  {
    DivideLe(0.0, ws, n);
    DivideLe(ws, ps, n);
    DivideLe(ps, n, n);
    DivideLe(0.5 * ps, ws, n);
    ScaleDiv(0.5, ps, n);
  }

  lemma DivideLe(a: real, b: real, n: real)
    requires a <= b && n > 0.0
    ensures a / n <= b / n
  {
    assert b / n - a / n == (b - a) / n;
  }

  lemma ScaleDiv(c: real, x: real, n: real)
    requires n > 0.0
    ensures (c * x) / n == c * (x / n)
  {
    assert (x / n) * n == x;
  }

  /** Sum of the first k of the n weights. */
  function WeightTotal(n: nat, k: nat): real
    requires k <= n
  {
    if k == 0 then 0.0 else WeightTotal(n, k - 1) + Weight(k - 1, n)
  }

  lemma {:induction false} WeightTotalClosedForm(n: nat, k: nat)
    requires 2 <= n && k <= n
    ensures WeightTotal(n, k) * ((n - 1) as real) == 0.5 * (k as real) * ((n - 1) as real) + 0.25 * (k as real) * ((k - 1) as real)
  {
    if k > 0 {
      WeightTotalClosedForm(n, k - 1);
      var d := (n - 1) as real;
      var i := (k - 1) as real;
      assert Weight(k - 1, n) * d == 0.5 * d + 0.5 * i by {
        assert (i / d) * d == i;
      }
    }
  }

  lemma {:induction false} UniformWeightedSum(h: seq<Observation>, c: real, k: nat)
    requires k <= |h|
    requires forall i :: 0 <= i < |h| ==> h[i].probability == c
    ensures WeightedSum(h, k) == c * WeightTotal(|h|, k)
  {
    if k > 0 {
      UniformWeightedSum(h, c, k - 1);
    }
  }

  /**
   * The mean divides by the number of readings, not by the total weight:
   * a history whose readings all have probability c aggregates to 0.75 * c
   * once it holds two or more readings, and to 0.5 * c with one reading.
   */
  lemma UniformHistory(h: seq<Observation>, c: real)
    requires h != []
    requires forall i :: 0 <= i < |h| ==> h[i].probability == c
    ensures WeightedMean(h) == if |h| == 1 then 0.5 * c else 0.75 * c
  {
    var n := |h|;
    UniformWeightedSum(h, c, n);
    if n >= 2 {
      WeightTotalClosedForm(n, n);
      var d := (n - 1) as real;
      var m := n as real;
      assert WeightTotal(n, n) * d == 0.75 * m * d;
      assert WeightTotal(n, n) == 0.75 * m by {
        assert (WeightTotal(n, n) - 0.75 * m) * d == 0.0;
      }
      assert c * (0.75 * m) / m == 0.75 * c;
    }
  }

  /** The worked example: probabilities 0.2 then 0.8 aggregate to 0.45. */
  lemma TwoReadingExample()
    ensures Aggregate([Observation(0.2, Positive), Observation(0.8, Positive)])
         == Observation(0.45, Positive)
  {
    var h := [Observation(0.2, Positive), Observation(0.8, Positive)];
    WeightRamp(2);
    assert WeightedSum(h, 2) == 0.2 * 0.5 + 0.8 * 1.0;
    assert Count(h, 2, Positive) == 2;
  }

  // ---------------------------------------------------------------------------
  // The dominant label

  /** The dominant label has a count at least that of every label. */
  lemma DominantHasMaxCount(h: seq<Observation>, l: Label)
    requires h != []
    ensures Count(h, |h|, l) <= Count(h, |h|, DominantLabel(h))
  {
    var items := CountItems(h);
    var j := FirstMaxIndex(items);
    match l
    case Positive => assert items[0].1 <= items[j].1;
    case Negative => assert items[1].1 <= items[j].1;
    case Neutral => assert items[2].1 <= items[j].1;
  }

  /** Ties go to positive, then to negative, then to neutral. */
  lemma DominantTieBreak(h: seq<Observation>)
    requires h != []
    ensures var p, n, u := Count(h, |h|, Positive), Count(h, |h|, Negative), Count(h, |h|, Neutral);
            DominantLabel(h) == if p >= n && p >= u then Positive else if n >= u then Negative else Neutral
  {
    var items := CountItems(h);
    var j := FirstMaxIndex(items);
    assert items[0].1 <= items[j].1 && items[1].1 <= items[j].1 && items[2].1 <= items[j].1;
  }
}
