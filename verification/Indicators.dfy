/** Trailing moving averages of close prices. */
module Indicators {
  import opened Wrappers
  import opened Market
  import opened Reals

  datatype IndicatorError = NonPositiveWindow

  /** The closes of bars lo to hi - 1, added up. */
  function SumCloses(bars: seq<Bar>, lo: nat, hi: nat): real
    requires lo <= hi <= |bars|
  {
    if lo == hi then 0.0 else SumCloses(bars, lo, hi - 1) + bars[hi - 1].close
  }

  lemma {:induction false} SumDropsFirst(bars: seq<Bar>, lo: nat, hi: nat)
    requires lo < hi <= |bars|
    ensures SumCloses(bars, lo, hi) == bars[lo].close + SumCloses(bars, lo + 1, hi)
  {
    if lo + 1 < hi {
      SumDropsFirst(bars, lo, hi - 1);
    }
  }

  /** The mean of the last `window` closes up to bar `i`; nothing before there are that many. */
  function Sma(bars: seq<Bar>, window: nat, i: nat): Option<real>
    requires 0 < window && i < |bars|
  {
    if i + 1 < window then None
    else Some(SumCloses(bars, i + 1 - window, i + 1) / window as real)
  }

  function Multiplier(window: nat): real {
    2.0 / (window + 1) as real
  }

  function EmaStep(previous: real, close: real, multiplier: real): real {
    (close - previous) * multiplier + previous
  }

  /** Seeded with the mean of the first `window` closes, then smoothed bar by bar. */
  function Ema(bars: seq<Bar>, window: nat, i: nat): (value: Option<real>)
    requires 0 < window && i < |bars|
    ensures value.Some? <==> window <= i + 1
  {
    if i + 1 < window then None
    else if i + 1 == window then Some(SumCloses(bars, 0, window) / window as real)
    else Some(EmaStep(Ema(bars, window, i - 1).value, bars[i].close, Multiplier(window)))
  }

  // ----- what the two lists of averages are -----

  /** From the first full window on, `window` times the value is the sum of the last `window` closes. */
  ghost predicate AreMeans(bars: seq<Bar>, window: nat, values: seq<Option<real>>) {
    && |values| == |bars|
    && (forall i :: 0 <= i < |bars| ==> (values[i].Some? <==> window <= i + 1))
    && (forall i :: 0 <= i < |bars| && window <= i + 1 ==>
          window as real * values[i].value == SumCloses(bars, i + 1 - window, i + 1))
  }

  /**
   The first value is the mean of the first `window` closes; each later one moves towards its close by two parts in
   `window + 1` of the way.
   */
  ghost predicate AreSmoothed(bars: seq<Bar>, window: nat, values: seq<Option<real>>) {
    && |values| == |bars|
    && (forall i :: 0 <= i < |bars| ==> (values[i].Some? <==> window <= i + 1))
    && (0 < window <= |bars| ==> window as real * values[window - 1].value == SumCloses(bars, 0, window))
    && (forall i :: 0 < window <= i < |bars| ==>
          (window + 1) as real * (values[i].value - values[i - 1].value)
          == 2.0 * (bars[i].close - values[i - 1].value))
  }

  lemma MeanTimesCount(total: real, window: nat)
    requires window > 0
    ensures window as real * (total / window as real) == total
  {
    var mean, count := total / window as real, window as real;
    assert mean * count == total;
  }

  lemma StepTimesCount(previous: real, close: real, window: nat)
    ensures (window + 1) as real * (EmaStep(previous, close, Multiplier(window)) - previous)
            == 2.0 * (close - previous)
  {
    var m, n, change := Multiplier(window), (window + 1) as real, close - previous;
    assert m * n == 2.0;
    EmaStepIsSum(previous, close, m, change, change * m);
    assert n * (change * m) == change * (m * n);
  }

  lemma SmasAreMeans(bars: seq<Bar>, window: nat, values: seq<Option<real>>)
    requires window > 0 && |values| == |bars| && forall i :: 0 <= i < |bars| ==> values[i] == Sma(bars, window, i)
    ensures AreMeans(bars, window, values)
  {
    forall i | 0 <= i < |bars| && window <= i + 1
      ensures window as real * values[i].value == SumCloses(bars, i + 1 - window, i + 1)
    {
      MeanTimesCount(SumCloses(bars, i + 1 - window, i + 1), window);
    }
  }

  lemma EmasAreSmoothed(bars: seq<Bar>, window: nat, values: seq<Option<real>>)
    requires window > 0 && |values| == |bars| && forall i :: 0 <= i < |bars| ==> values[i] == Ema(bars, window, i)
    ensures AreSmoothed(bars, window, values)
  {
    if window <= |bars| {
      MeanTimesCount(SumCloses(bars, 0, window), window);
    }
    forall i | window <= i < |bars|
      ensures (window + 1) as real * (values[i].value - values[i - 1].value)
              == 2.0 * (bars[i].close - values[i - 1].value)
    {
      assert values[i] == Some(EmaStep(values[i - 1].value, bars[i].close, Multiplier(window)));
      StepTimesCount(values[i - 1].value, bars[i].close, window);
    }
  }

  /** One pass with a rolling total gives the mean of each trailing window. */
  method SimpleMovingAverages(bars: seq<Bar>, window: int) returns (result: Result<seq<Option<real>>, IndicatorError>)
    ensures window <= 0 ==> result == Err(NonPositiveWindow)
    ensures window > 0 ==> result.Ok? && |result.value| == |bars|
                           && forall i :: 0 <= i < |bars| ==> result.value[i] == Sma(bars, window, i)
    ensures window > 0 ==> AreMeans(bars, window, result.value)
  {
    if window <= 0 { return Err(NonPositiveWindow); }
    var averages: seq<Option<real>> := [];
    var rollingTotal := 0.0;
    for index := 0 to |bars|
      invariant |averages| == index
      invariant rollingTotal == SumCloses(bars, if index >= window then index - window else 0, index)
      invariant forall i :: 0 <= i < index ==> averages[i] == Sma(bars, window, i)
    {
      rollingTotal := rollingTotal + bars[index].close;
      if index >= window {
        SumDropsFirst(bars, index - window, index + 1);
        rollingTotal := rollingTotal - bars[index - window].close;
      }
      averages := averages + [if index >= window - 1 then Some(rollingTotal / window as real) else None];
    }
    result := Ok(averages);
    SmasAreMeans(bars, window, averages);
  }

  method ExponentialMovingAverages(bars: seq<Bar>, window: int)
    returns (result: Result<seq<Option<real>>, IndicatorError>)
    ensures window <= 0 ==> result == Err(NonPositiveWindow)
    ensures window > 0 ==> result.Ok? && |result.value| == |bars|
                           && forall i :: 0 <= i < |bars| ==> result.value[i] == Ema(bars, window, i)
    ensures window > 0 ==> AreSmoothed(bars, window, result.value)
  {
    if window <= 0 { return Err(NonPositiveWindow); }
    var values: seq<Option<real>> := seq(|bars|, i => None);
    if |bars| < window { return Ok(values); }
    var total := 0.0;
    for j := 0 to window
      invariant total == SumCloses(bars, 0, j)
    {
      total := total + bars[j].close;
    }
    var previous := total / window as real;
    values := values[window - 1 := Some(previous)];
    var multiplier := Multiplier(window);
    for index := window to |bars|
      invariant |values| == |bars|
      invariant Some(previous) == Ema(bars, window, index - 1)
      invariant forall i :: 0 <= i < index ==> values[i] == Ema(bars, window, i)
    {
      assert Ema(bars, window, index) == Some(EmaStep(previous, bars[index].close, multiplier));
      previous := EmaStep(previous, bars[index].close, multiplier);
      values := values[index := Some(previous)];
    }
    result := Ok(values);
    EmasAreSmoothed(bars, window, values);
  }

  // ----- what the averages mean -----

  ghost predicate ClosesWithin(bars: seq<Bar>, lo: nat, hi: nat, least: real, most: real)
    requires lo <= hi <= |bars|
  {
    forall j :: lo <= j < hi ==> least <= bars[j].close <= most
  }

  lemma {:induction false} SumWithin(bars: seq<Bar>, lo: nat, hi: nat, least: real, most: real)
    requires lo <= hi <= |bars| && ClosesWithin(bars, lo, hi, least, most)
    ensures (hi - lo) as real * least <= SumCloses(bars, lo, hi) <= (hi - lo) as real * most
  {
    if lo < hi {
      SumWithin(bars, lo, hi - 1, least, most);
      assert (hi - lo) as real * least == (hi - 1 - lo) as real * least + least;
      assert (hi - lo) as real * most == (hi - 1 - lo) as real * most + most;
    }
  }

  lemma QuotientWithin(total: real, count: real, least: real, most: real)
    requires count > 0.0 && count * least <= total <= count * most
    ensures least <= total / count <= most
  {
    var mean := total / count;
    assert mean * count == total;
  }

  lemma SmaWithin(bars: seq<Bar>, window: nat, i: nat, least: real, most: real)
    requires 0 < window <= i + 1 <= |bars| && ClosesWithin(bars, i + 1 - window, i + 1, least, most)
    ensures least <= Sma(bars, window, i).value <= most
  {
    SumWithin(bars, i + 1 - window, i + 1, least, most);
    QuotientWithin(SumCloses(bars, i + 1 - window, i + 1), window as real, least, most);
  }

  lemma StepWithin(previous: real, close: real, window: nat, least: real, most: real)
    requires 0 < window && least <= previous <= most && least <= close <= most
    ensures least <= EmaStep(previous, close, Multiplier(window)) <= most
  {
    MultiplierBound(window);
    StepBetween(previous, close, Multiplier(window));
  }

  lemma MultiplierBound(window: nat)
    requires 0 < window
    ensures 0.0 < Multiplier(window) <= 1.0
  {
    var m, n := Multiplier(window), (window + 1) as real;
    assert m * n == 2.0 <= n;
    if m > 1.0 {
      ProductMonotone(1.0, m, n);
    }
  }

  lemma StepBetween(previous: real, close: real, m: real)
    requires 0.0 <= m <= 1.0
    ensures previous <= EmaStep(previous, close, m) <= close || close <= EmaStep(previous, close, m) <= previous
  {
    var change := close - previous;
    var product := change * m;
    EmaStepIsSum(previous, close, m, change, product);
    if previous <= close {
      StepToward(previous, close, change, m, product);
    } else {
      NegatedProduct(change, -change, m);
      StepToward(close, previous, -change, m, -product);
    }
  }

  lemma EmaStepIsSum(previous: real, close: real, m: real, change: real, product: real)
    requires change == close - previous && product == change * m
    ensures EmaStep(previous, close, m) == product + previous
  {
  }

  lemma StepToward(from: real, to: real, distance: real, m: real, product: real)
    requires distance == to - from >= 0.0 && 0.0 <= m <= 1.0 && product == distance * m
    ensures from <= product + from <= to
    ensures from <= to - product <= to
  {
    ScaleDown(distance, m);
  }

  /** An EMA never leaves the range of the closes seen so far. */
  lemma {:induction false} EmaWithin(bars: seq<Bar>, window: nat, i: nat, least: real, most: real)
    requires 0 < window <= i + 1 <= |bars| && ClosesWithin(bars, 0, i + 1, least, most)
    ensures least <= Ema(bars, window, i).value <= most
  {
    if i + 1 == window {
      SmaWithin(bars, window, i, least, most);
    } else {
      EmaWithin(bars, window, i - 1, least, most);
      StepWithin(Ema(bars, window, i - 1).value, bars[i].close, window, least, most);
    }
  }

  // ----- the closed form of the exponential average -----

  function Power(base: real, n: nat): real {
    if n == 0 then 1.0 else base * Power(base, n - 1)
  }

  /** The last `n` closes up to bar `i`, each weighted by how long ago it was. */
  function Weighted(bars: seq<Bar>, decay: real, i: nat, n: nat): real
    requires n <= i + 1 && i < |bars|
  {
    if n == 0 then 0.0 else Weighted(bars, decay, i, n - 1) + Power(decay, n - 1) * bars[i + 1 - n].close
  }

  /** A bar later, every weight has decayed once more. */
  lemma {:induction false} WeightsDecay(bars: seq<Bar>, decay: real, i: nat, n: nat)
    requires n <= i + 1 && i + 1 < |bars|
    ensures Weighted(bars, decay, i + 1, n + 1) == bars[i + 1].close + decay * Weighted(bars, decay, i, n)
  {
    if n == 0 {
      assert Weighted(bars, decay, i + 1, 0) == 0.0 && Power(decay, 0) == 1.0;
    } else {
      WeightsDecay(bars, decay, i, n - 1);
      var weight, close := Power(decay, n - 1), bars[i + 1 - n].close;
      assert Weighted(bars, decay, i + 1, n + 1)
          == Weighted(bars, decay, i + 1, n) + Power(decay, n) * bars[i + 1 - n].close;
      OneMoreWeight(decay, Weighted(bars, decay, i, n - 1), weight, close);
    }
  }

  lemma OneMoreWeight(decay: real, sum: real, weight: real, close: real)
    ensures decay * sum + (decay * weight) * close == decay * (sum + weight * close)
  {
  }

  lemma StepOfWeights(seed: real, power: real, decay: real, m: real, sum: real, close: real)
    requires m == 1.0 - decay
    ensures EmaStep(power * seed + m * sum, close, m) == (decay * power) * seed + m * (close + decay * sum)
  {
    var value := power * seed + m * sum;
    EmaStepIsSum(value, close, m, close - value, (close - value) * m);
    assert (close - value) * m + value == m * close + decay * value;
    assert decay * value == (decay * power) * seed + decay * (m * sum);
    assert m * (close + decay * sum) == m * close + m * (decay * sum);
    assert decay * (m * sum) == m * (decay * sum);
  }

  /** The weighted sum `n` bars after the seed. */
  function WeightedSum(bars: seq<Bar>, window: nat, decay: real, m: real, seed: real, n: nat): real
    requires 0 < window && window - 1 + n < |bars|
  {
    Power(decay, n) * seed + m * Weighted(bars, decay, window - 1 + n, n)
  }

  lemma NextWeightedSum(bars: seq<Bar>, window: nat, decay: real, m: real, seed: real, n: nat)
    requires 0 < window && window + n < |bars| && m == 1.0 - decay
    ensures EmaStep(WeightedSum(bars, window, decay, m, seed, n), bars[window + n].close, m)
            == WeightedSum(bars, window, decay, m, seed, n + 1)
  {
    var i := window - 1 + n;
    WeightsDecay(bars, decay, i, n);
    StepOfWeights(seed, Power(decay, n), decay, m, Weighted(bars, decay, i, n), bars[i + 1].close);
  }

  lemma FirstWeightedSum(bars: seq<Bar>, window: nat, decay: real, m: real, seed: real)
    requires 0 < window <= |bars|
    ensures WeightedSum(bars, window, decay, m, seed, 0) == seed
  {
  }

  /**
   The exponential average is a weighted sum: of the mean of the first `window` closes, and of every later close,
   with weights that decay by `(window - 1) / (window + 1)` a bar.
   */
  lemma EmaIsWeightedSum(bars: seq<Bar>, window: nat, n: nat)
    requires 0 < window && window - 1 + n < |bars|
    ensures var decay := (window - 1) as real / (window + 1) as real;
            var seed := SumCloses(bars, 0, window) / window as real;
            Ema(bars, window, window - 1 + n) == Some(WeightedSum(bars, window, decay, 1.0 - decay, seed, n))
  {
    var decay := (window - 1) as real / (window + 1) as real;
    var seed := SumCloses(bars, 0, window) / window as real;
    MultiplierIsRest(window, decay);
    FirstWeightedSum(bars, window, decay, 1.0 - decay, seed);
    for k := 0 to n
      invariant Ema(bars, window, window - 1 + k) == Some(WeightedSum(bars, window, decay, 1.0 - decay, seed, k))
    {
      NextWeightedSum(bars, window, decay, 1.0 - decay, seed, k);
    }
  }

  lemma MultiplierIsRest(window: nat, decay: real)
    requires window > 0 && decay == (window - 1) as real / (window + 1) as real
    ensures Multiplier(window) == 1.0 - decay
  {
    var m, n := Multiplier(window), (window + 1) as real;
    assert m * n == 2.0 && decay * n == (window - 1) as real;
    assert (m + decay) * n == 1.0 * n;
    SameFactor(m + decay, 1.0, n);
  }

  lemma SameFactor(x: real, y: real, n: real)
    requires n > 0.0 && x * n == y * n
    ensures x == y
  {
    if x < y {
      ProductMonotone(x, y, n);
    } else if y < x {
      ProductMonotone(y, x, n);
    }
  }

  /** With a period of one both averages are the close itself. */
  lemma PeriodOneIsClose(bars: seq<Bar>, i: nat)
    requires i < |bars|
    ensures Sma(bars, 1, i) == Some(bars[i].close) == Ema(bars, 1, i)
  {
    assert SumCloses(bars, i, i + 1) == SumCloses(bars, i, i) + bars[i].close == bars[i].close;
    assert Sma(bars, 1, i) == Some(bars[i].close / 1 as real) == Some(bars[i].close);
    if i > 0 {
      assert Multiplier(1) == 2.0 / 2.0 == 1.0;
      FullStep(Ema(bars, 1, i - 1).value, bars[i].close);
    } else {
      assert Ema(bars, 1, i) == Sma(bars, 1, i);
    }
  }

  lemma FullStep(previous: real, close: real)
    ensures EmaStep(previous, close, 1.0) == close
  {
  }

  // ----- no look-ahead -----

  lemma {:induction false} SumOfPrefix(bars: seq<Bar>, k: nat, lo: nat, hi: nat)
    requires lo <= hi <= k <= |bars|
    ensures SumCloses(bars[..k], lo, hi) == SumCloses(bars, lo, hi)
  {
    if lo < hi {
      SumOfPrefix(bars, k, lo, hi - 1);
    }
  }

  lemma SmaOfPrefix(bars: seq<Bar>, k: nat, window: nat, i: nat)
    requires 0 < window && i < k <= |bars|
    ensures Sma(bars[..k], window, i) == Sma(bars, window, i)
  {
    if window <= i + 1 {
      SumOfPrefix(bars, k, i + 1 - window, i + 1);
    }
  }

  lemma {:induction false} EmaOfPrefix(bars: seq<Bar>, k: nat, window: nat, i: nat)
    requires 0 < window && i < k <= |bars|
    ensures Ema(bars[..k], window, i) == Ema(bars, window, i)
  {
    if window == i + 1 {
      SumOfPrefix(bars, k, 0, window);
    } else if window < i + 1 {
      EmaOfPrefix(bars, k, window, i - 1);
    }
  }
}
