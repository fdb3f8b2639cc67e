/** The two moving-average strategies. Each consumes one tick (modelled by its
    price: the strategies read nothing else of it) and returns a signal list
    of length zero or one. */
module Strategies {
  import opened Signals

  /** Keeps every price it has seen and recomputes the mean of the last
      `windowSize` of them on each tick. */
  class NaiveStrategy {
    const windowSize: nat
    var history: seq<real>

    ghost predicate Valid()
      reads this
    {
      windowSize >= 1
    }

    constructor (windowSize: nat)
      requires windowSize >= 1
      ensures Valid()
      ensures this.windowSize == windowSize && history == []
    {
      this.windowSize := windowSize;
      history := [];
    }

    /** Appends the price to the history, whatever the outcome; then, once at
        least `windowSize` prices are held, compares the price with the mean
        of the last `windowSize` of them. */
    method GenerateSignals(price: real) returns (signals: seq<Signal>)
      requires Valid()
      modifies this
      ensures Valid()
      ensures history == old(history) + [price]
      ensures |history| < windowSize ==> signals == []
      ensures |history| >= windowSize ==>
        signals == Classify(price, Mean(LastN(history, windowSize), windowSize))
      ensures signals == Reference(history, windowSize)
    {
      history := history + [price];
      if |history| < windowSize {
        return [];
      }
      var recentPrices := history[|history| - windowSize..];
      var avgPrice := Sum(recentPrices) / windowSize as real;
      if price > avgPrice {
        signals := [Buy];
      } else if price < avgPrice {
        signals := [Sell];
      } else {
        signals := [];
      }
    }
  }

  /** Keeps only the last `windowSize` prices in a bounded deque and a running
      sum, updated by subtracting the evicted price and adding the new one. */
  class WindowedStrategy {
    const windowSize: nat
    var window: seq<real>
    var currentSum: real
    /** Every price consumed so far, in arrival order. */
    ghost var consumed: seq<real>

    ghost predicate Valid()
      reads this
    {
      windowSize >= 1 &&
      |window| == Min(windowSize, |consumed|) &&
      window == LastN(consumed, windowSize) &&
      currentSum == Sum(window)
    }

    constructor (windowSize: nat)
      requires windowSize >= 1
      ensures Valid()
      ensures this.windowSize == windowSize
      ensures window == [] && currentSum == 0.0 && consumed == []
    {
      this.windowSize := windowSize;
      window := [];
      currentSum := 0.0;
      consumed := [];
    }

    /** Subtracts the oldest price when the window is full, pushes the new
        price into the bounded window and adds it to the sum; then, once the
        window is full, compares the price with `currentSum / windowSize`.
        The result is the one recomputing from the whole history gives. */
    method GenerateSignals(price: real) returns (signals: seq<Signal>)
      requires Valid()
      modifies this
      ensures Valid()
      ensures consumed == old(consumed) + [price]
      ensures window == BoundedAppend(old(window), windowSize, price)
      ensures |window| <= windowSize
      ensures |window| < windowSize ==> signals == []
      ensures |window| == windowSize ==> signals == Classify(price, currentSum / windowSize as real)
      ensures signals == Reference(consumed, windowSize)
    {
      BoundedAppendKeepsSuffix(consumed, windowSize, price);
      BoundedAppendSum(window, windowSize, price);
      if |window| == windowSize {
        var removedPrice := window[0];
        currentSum := currentSum - removedPrice;
      }
      window := BoundedAppend(window, windowSize, price);
      currentSum := currentSum + price;
      consumed := consumed + [price];
      assert |window| == Min(windowSize, |consumed|);
      assert window == LastN(consumed, windowSize) && currentSum == Sum(window);

      if |window| < windowSize {
        return [];
      }
      var avgPrice := currentSum / windowSize as real;
      assert window == consumed[|consumed| - windowSize..];
      assert avgPrice == Mean(consumed[|consumed| - windowSize..], windowSize);
      if price > avgPrice {
        signals := [Buy];
      } else if price < avgPrice {
        signals := [Sell];
      } else {
        signals := [];
      }
    }
  }
}
