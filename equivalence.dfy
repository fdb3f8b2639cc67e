/** Feeding one price sequence to both strategies, tick by tick, and the
    concrete traces the repository's tests expect. */
module Equivalence {
  import opened Signals
  import opened Strategies

  /** Runs a fresh naive and a fresh windowed strategy of the same window size
      over `prices`, collecting every call's signals. Both emit the reference
      trace, and at the end the windowed window is the tail of the naive
      history and its running sum is that tail's sum. */
  method RunBoth(windowSize: nat, prices: seq<real>)
    returns (naiveOut: seq<seq<Signal>>, windowedOut: seq<seq<Signal>>,
             history: seq<real>, window: seq<real>, currentSum: real)
    requires windowSize >= 1
    ensures naiveOut == windowedOut == Trace(prices, windowSize)
    ensures |naiveOut| == |prices|
    ensures history == prices
    ensures window == LastN(history, windowSize) && |window| == Min(windowSize, |prices|)
    ensures currentSum == Sum(window)
  {
    var naive := new NaiveStrategy(windowSize);
    var windowed := new WindowedStrategy(windowSize);
    naiveOut, windowedOut := [], [];
    for i := 0 to |prices|
      invariant naive.Valid() && windowed.Valid()
      invariant naive.windowSize == windowSize && windowed.windowSize == windowSize
      invariant naive.history == prices[..i] && windowed.consumed == prices[..i]
      invariant naiveOut == Trace(prices[..i], windowSize) && windowedOut == naiveOut
    {
      var n := naive.GenerateSignals(prices[i]);
      var w := windowed.GenerateSignals(prices[i]);
      TraceStep(prices, i, windowSize);
      naiveOut := naiveOut + [n];
      windowedOut := windowedOut + [w];
    }
    assert prices[..|prices|] == prices;
    TraceAt(prices, windowSize);
    history, window, currentSum := naive.history, windowed.window, windowed.currentSum;
  }

  /** One more tick extends the prefix by one price and the trace by its signal. */
  lemma TraceStep(prices: seq<real>, i: nat, k: nat)
    requires k >= 1 && i < |prices|
    ensures prices[..i + 1] == prices[..i] + [prices[i]]
    ensures Trace(prices[..i + 1], k) == Trace(prices[..i], k) + [Reference(prices[..i + 1], k)]
  {
    assert prices[..i + 1][..i] == prices[..i];
  }

  /** The sum of a three-price window, unfolded. */
  lemma SumOfThree(a: real, b: real, c: real)
    ensures Sum([a, b, c]) == a + b + c
  {
    assert [c][1..] == [];
    assert Sum([c]) == c;
    assert [b, c][1..] == [c];
    assert Sum([b, c]) == b + c;
    assert [a, b, c][1..] == [b, c];
  }

  /** Window of three over the rising prices 10, 20, 30, 40 on the naive
      strategy: two silent warm-up ticks, then BUY twice. */
  method RisingPricesNaive() returns (out: seq<seq<Signal>>)
    ensures out == [[], [], [Buy], [Buy]]
  {
    var naive := new NaiveStrategy(3);
    var s1 := naive.GenerateSignals(10.0);
    var s2 := naive.GenerateSignals(20.0);
    var s3 := naive.GenerateSignals(30.0);
    assert naive.history == [10.0, 20.0, 30.0];
    assert naive.history[0..] == [10.0, 20.0, 30.0];
    SumOfThree(10.0, 20.0, 30.0);
    assert s3 == Classify(30.0, 20.0);
    var s4 := naive.GenerateSignals(40.0);
    assert naive.history == [10.0, 20.0, 30.0, 40.0];
    assert naive.history[1..] == [20.0, 30.0, 40.0];
    SumOfThree(20.0, 30.0, 40.0);
    assert s4 == Classify(40.0, 30.0);
    out := [s1, s2, s3, s4];
  }

  /** The same rising prices on the windowed strategy give the same signals. */
  method RisingPricesWindowed() returns (out: seq<seq<Signal>>)
    ensures out == [[], [], [Buy], [Buy]]
  {
    var windowed := new WindowedStrategy(3);
    var s1 := windowed.GenerateSignals(10.0);
    var s2 := windowed.GenerateSignals(20.0);
    var s3 := windowed.GenerateSignals(30.0);
    assert windowed.window == [10.0, 20.0, 30.0];
    SumOfThree(10.0, 20.0, 30.0);
    var s4 := windowed.GenerateSignals(40.0);
    assert windowed.window == [20.0, 30.0, 40.0];
    SumOfThree(20.0, 30.0, 40.0);
    out := [s1, s2, s3, s4];
  }

  /** Window of three over 100, 100, 100, 50 on the windowed strategy: the
      third tick ties the mean (no signal); the fourth evicts a 100, leaves a
      running sum of 250 and signals SELL. */
  method DroppingPrice() returns (out: seq<seq<Signal>>, currentSum: real)
    ensures out == [[], [], [], [Sell]]
    ensures currentSum == 250.0
  {
    var windowed := new WindowedStrategy(3);
    var s1 := windowed.GenerateSignals(100.0);
    var s2 := windowed.GenerateSignals(100.0);
    var s3 := windowed.GenerateSignals(100.0);
    assert windowed.window == [100.0, 100.0, 100.0];
    SumOfThree(100.0, 100.0, 100.0);
    var s4 := windowed.GenerateSignals(50.0);
    assert windowed.window == [100.0, 100.0, 50.0];
    SumOfThree(100.0, 100.0, 50.0);
    out := [s1, s2, s3, s4];
    currentSum := windowed.currentSum;
  }
}
