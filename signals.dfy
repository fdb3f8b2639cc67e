/** The signal vocabulary and the moving-average rule both strategies follow,
    stated once as functions on price sequences, with the lemmas that the
    incremental (windowed) bookkeeping agrees with recomputing from history. */
module Signals {

  /** A trading signal. "No signal" is the empty signal list, not a token. */
  datatype Signal = Buy | Sell

  function Min(a: int, b: int): (m: int) { if a <= b then a else b }

  /** The sum of a sequence of prices, from the front. */
  function Sum(s: seq<real>): (total: real)
  {
    if s == [] then 0.0 else s[0] + Sum(s[1..])
  }

  /** The last `k` entries of `s` (all of `s` when it is shorter): the
      slice `s[-k:]` for a window size `k >= 1`. */
  function LastN(s: seq<real>, k: nat): (r: seq<real>)
    requires k >= 1
  {
    if |s| < k then s else s[|s| - k..]
  }

  /** Appending to a bounded deque of capacity `cap`: when it is full, the
      oldest (front) element is dropped before the new one goes to the back. */
  function BoundedAppend(w: seq<real>, cap: nat, x: real): (r: seq<real>)
    requires 1 <= cap && |w| <= cap
  {
    if |w| == cap then w[1..] + [x] else w + [x]
  }

  /** The three-way comparison of a price with an average. */
  function Classify(price: real, avg: real): (r: seq<Signal>)
    ensures |r| <= 1
    ensures r == [Buy] <==> price > avg
    ensures r == [Sell] <==> price < avg
    ensures r == [] <==> price == avg
  {
    if price > avg then [Buy] else if price < avg then [Sell] else []
  }

  /** The arithmetic mean of a full window of `k` prices. */
  function Mean(window: seq<real>, k: nat): (avg: real)
    requires k >= 1
  {
    Sum(window) / k as real
  }

  /** The signal owed for the newest price of `prices` under window size `k`:
      nothing during warm-up, otherwise the newest price classified against
      the mean of the last `k` prices. This is the recompute-from-history
      reading that both strategies must agree with. */
  function Reference(prices: seq<real>, k: nat): (r: seq<Signal>)
    requires k >= 1 && prices != []
  {
    if |prices| < k then []
    else Classify(prices[|prices| - 1], Mean(prices[|prices| - k..], k))
  }

  /** The signals emitted for each price of `prices`, in arrival order. */
  function Trace(prices: seq<real>, k: nat): (t: seq<seq<Signal>>)
    requires k >= 1
    decreases |prices|
  {
    if prices == [] then []
    else Trace(prices[..|prices| - 1], k) + [Reference(prices, k)]
  }

  /** Appending to the back adds the new price to the sum. */
  lemma {:induction false} SumAppend(s: seq<real>, x: real)
    ensures Sum(s + [x]) == Sum(s) + x
  {
    if s != [] {
      assert (s + [x])[1..] == s[1..] + [x];
      SumAppend(s[1..], x);
    }
  }

  /** `LastN(s, k)` is the suffix of `s` of length `min(k, |s|)`: the whole of
      `s` while it is shorter than `k`. */
  lemma LastNIsSuffix(s: seq<real>, k: nat)
    requires k >= 1
    ensures |LastN(s, k)| == Min(k, |s|)
    ensures LastN(s, k) == s[|s| - |LastN(s, k)|..]
    ensures |s| <= k ==> LastN(s, k) == s
  {
  }

  /** A bounded append keeps the last `cap` entries of the deque extended by
      the new price: it grows by one until full, then stays at `cap`, with
      the new price at the back. */
  lemma BoundedAppendIsLastN(w: seq<real>, cap: nat, x: real)
    requires 1 <= cap && |w| <= cap
    ensures |BoundedAppend(w, cap, x)| == Min(cap, |w| + 1)
    ensures BoundedAppend(w, cap, x) == LastN(w + [x], cap)
    ensures BoundedAppend(w, cap, x)[|BoundedAppend(w, cap, x)| - 1] == x
  {
    if |w| == cap {
      assert w[1..] + [x] == (w + [x])[|w| + 1 - cap..];
    }
  }

  /** The reference decision: nothing during warm-up; afterwards BUY exactly
      when the newest price is above the mean of the last `k` prices, SELL
      exactly when it is below, nothing exactly on a tie. */
  lemma ReferenceRule(prices: seq<real>, k: nat)
    requires k >= 1 && prices != []
    ensures |Reference(prices, k)| <= 1
    ensures |prices| < k ==> Reference(prices, k) == []
    ensures |prices| >= k ==>
      (Reference(prices, k) == [Buy] <==> prices[|prices| - 1] > Mean(LastN(prices, k), k)) &&
      (Reference(prices, k) == [Sell] <==> prices[|prices| - 1] < Mean(LastN(prices, k), k)) &&
      (Reference(prices, k) == [] <==> prices[|prices| - 1] == Mean(LastN(prices, k), k))
  {
  }

  /** Eviction order: pushing a price into the bounded window of the last
      `k` prices gives the last `k` prices of the extended history. */
  lemma BoundedAppendKeepsSuffix(h: seq<real>, k: nat, x: real)
    requires k >= 1
    ensures |LastN(h, k)| <= k
    ensures BoundedAppend(LastN(h, k), k, x) == LastN(h + [x], k)
  {
    if |h| >= k {
      var w := h[|h| - k..];
      assert w[1..] + [x] == (h + [x])[|h| + 1 - k..];
    }
  }

  /** Running-sum step: subtracting the evicted front (only when full) and
      adding the new price gives the sum of the updated window. */
  lemma BoundedAppendSum(w: seq<real>, k: nat, x: real)
    requires 1 <= k && |w| <= k
    ensures Sum(BoundedAppend(w, k, x)) == (if |w| == k then Sum(w) - w[0] else Sum(w)) + x
  {
    if |w| == k {
      SumAppend(w[1..], x);
    } else {
      SumAppend(w, x);
    }
  }

  /** Entry `i` of the trace is the reference signal for the first `i + 1` prices. */
  lemma {:induction false} TraceAt(prices: seq<real>, k: nat)
    requires k >= 1
    ensures |Trace(prices, k)| == |prices|
    ensures forall i :: 0 <= i < |prices| ==> Trace(prices, k)[i] == Reference(prices[..i + 1], k)
  {
    if prices != [] {
      var p := prices[..|prices| - 1];
      TraceAt(p, k);
      forall i | 0 <= i < |prices|
        ensures Trace(prices, k)[i] == Reference(prices[..i + 1], k)
      {
        if i < |p| {
          assert p[..i + 1] == prices[..i + 1];
        } else {
          assert prices[..i + 1] == prices;
        }
      }
    }
  }

  /** Warm-up and shape: the first `k - 1` ticks emit nothing, and no tick
      ever emits more than one signal. */
  lemma {:induction false} WarmUp(prices: seq<real>, k: nat)
    requires k >= 1
    ensures |Trace(prices, k)| == |prices|
    ensures forall i :: 0 <= i < |prices| && i + 1 < k ==> Trace(prices, k)[i] == []
    ensures forall i :: 0 <= i < |prices| ==> |Trace(prices, k)[i]| <= 1
  {
    TraceAt(prices, k);
  }

  /** With a window of one, every price is compared with itself: never a signal. */
  lemma SingleWindowSilent(prices: seq<real>)
    requires prices != []
    ensures Reference(prices, 1) == []
  {
    var w := prices[|prices| - 1..];
    assert w == [prices[|prices| - 1]];
    assert Sum(w) == prices[|prices| - 1] + Sum(w[1..]);
  }
}
