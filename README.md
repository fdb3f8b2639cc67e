# Moving-average signal strategies in Dafny

This project models the streaming signal engine of a small financial
signal-processing repository. The engine has two strategies. Each one consumes
price ticks one at a time and, for each tick, emits `BUY`, `SELL` or nothing.
The choice depends on how the new price compares with the mean of the last
`window_size` prices.

- `NaiveStrategy` (`NaiveMovingAverageStrategy`) keeps every price in
  `history`. On each tick it slices out the last `windowSize` prices and sums
  them again.
- `WindowedStrategy` (`WindowedMovingAverageStrategy`) keeps a bounded deque
  `window` of at most `windowSize` prices and a running `currentSum`. When the
  deque is full it subtracts the oldest price. It then appends the new price,
  which evicts the oldest, and adds the new price to the sum.

Layout:

- `signals.dfy` (module `Signals`) holds the pure specification. It defines
  the `Signal` vocabulary, `Sum`, `LastN` (the slice `s[-k:]`, for `k >= 1`),
  `BoundedAppend` (append on a `deque(maxlen=k)`) and `Classify` (the
  three-way comparison). It also defines `Reference`, the signal owed for the
  newest price when it is recomputed from the whole history, and `Trace`, the
  signal list for every prefix. Beside them are the lemmas that tie the
  windowed bookkeeping to the recomputation.
- `strategies.dfy` (module `Strategies`) holds the two strategies as classes
  with mutable fields. The windowed class has a ghost `consumed` history. Its
  `Valid()` invariant says three things: `window` is the last
  `min(windowSize, n)` prices in arrival order, `currentSum` is their sum, and
  the window length is `min(windowSize, n)`. Each `GenerateSignals` proves
  that its result equals `Reference` of the prices consumed so far.
- `equivalence.dfy` (module `Equivalence`) feeds one price sequence to fresh
  instances of both strategies, as the profiling driver does. It proves that
  both emit the same trace. It also replays the repository's concrete test
  scenarios.

A tick is modelled by its price alone, because the strategies never read its
timestamp or symbol. Prices are `real`, so the running sum is exact.
`windowSize >= 1` is a precondition of both constructors; the source never
checks it (see "## Left out").

## Model

| member | source | states |
|---|---|---|
| `Signals.Classify` | strategies.py:22-26 | at most one signal; `[Buy]` exactly when price > average, `[Sell]` exactly when price < average, `[]` exactly on a tie |
| `Signals.SumAppend` | strategies.py:45 | adding the new price to the running sum gives the sum of the window with that price appended |
| `Signals.LastNIsSuffix` | strategies.py:19 | `LastN(s, k)`, the slice `history[-k:]` for `k >= 1`, is the suffix of the history of length `min(k, n)`, and all of the history while it is shorter than `k` |
| `Signals.BoundedAppendIsLastN` | strategies.py:36-44 | `BoundedAppend`, an append on `deque(maxlen=k)`, yields the last `k` entries of the old deque extended by the new price: it has `min(k, len + 1)` entries and the new price is at the back |
| `Signals.ReferenceRule` | strategies.py:17-26 | `Reference`, the naive decision recomputed from the whole history: `[]` while fewer than `k` prices are held; afterwards `[BUY]` exactly when the newest price is above the mean of the last `k` prices, `[SELL]` exactly when below, `[]` exactly on a tie; never more than one signal |
| `Signals.BoundedAppendKeepsSuffix` | strategies.py:40-44 | eviction order: pushing a price into the window of the last `k` prices (dropping the front when full) gives the last `k` prices of the extended history, so the window never exceeds `k` |
| `Signals.BoundedAppendSum` | strategies.py:40-45 | subtracting the front only when the window is full and always adding the new price gives the sum of the updated window |
| `Signals.TraceAt` | strategies.py:13-26 | the `i`-th emitted signal list is the reference signal for the first `i + 1` prices; the trace has one entry per tick |
| `Signals.WarmUp` | strategies.py:17-18 | the first `k - 1` ticks emit nothing, and no tick emits more than one signal |
| `Signals.SingleWindowSilent` | strategies.py:19-26 | with window size 1 the price is compared with itself, so no signal is ever emitted |
| `Strategies.NaiveStrategy.constructor` | strategies.py:9-11 | stores the window size and starts with an empty history |
| `Strategies.NaiveStrategy.GenerateSignals` | strategies.py:13-26 | appends exactly the price to the history whatever the result; returns `[]` while fewer than `windowSize` prices are held, otherwise the price classified against the mean of the last `windowSize` prices |
| `Strategies.WindowedStrategy.constructor` | strategies.py:34-37 | empty window, sum 0, nothing consumed |
| `Strategies.WindowedStrategy.GenerateSignals` | strategies.py:39-56 | the window becomes the bounded append of the price, stays the last `min(k, n)` prices, and `currentSum` stays its sum; returns `[]` while the window is not full, otherwise the price classified against `currentSum / windowSize`; the result equals the one recomputing from the whole history gives |
| `Equivalence.RunBoth` | profiler.py:14-17 | feeding the same prices to both strategies with the same window size gives identical signal lists on every call, equal to the reference trace; afterwards the window is `history[-k:]` and the running sum is its sum |
| `Equivalence.RisingPricesNaive` | tests/test_strategies.py:15-30 | with window 3, prices 10, 20, 30, 40 on the naive strategy give `[]`, `[]`, `[BUY]`, `[BUY]` |
| `Equivalence.RisingPricesWindowed` | tests/test_strategies.py:32-41 | the same prices on the windowed strategy give the same four results |
| `Equivalence.DroppingPrice` | tests/test_strategies.py:43-58 | with window 3, prices 100, 100, 100, 50 on the windowed strategy give `[]`, `[]`, `[]`, `[SELL]`, with running sum 250 |

## Left out

- Floating-point behaviour: prices and sums are exact `real`s. The model does not capture rounding drift of `currentSum`, NaN or infinity, and it has no rejection path for them, since the source does not check prices.
- `Equivalence.RunBoth`: the identical-signal result holds in exact arithmetic only. With IEEE doubles, the running sum drifts through repeated `-=` and `+=` (strategies.py:42, 45), so the two strategies can disagree when the price is at or very near the mean.
- Validation of `window_size`: the source never checks it, and sizes below 1 behave differently per strategy. With 0, both fail at the first tick: the naive one divides by zero (strategies.py:20) and the windowed one reads `window[0]` from an empty deque (strategies.py:41). With a negative size, the naive one never fails: `history[-k:]` is then an empty or partial slice and the average is computed by dividing by a negative number, so it returns signals (strategies.py:17-25). The windowed one fails at construction, because a deque with a negative `maxlen` is refused (strategies.py:36). The model admits only sizes of at least 1 (`windowSize: nat` with `requires windowSize >= 1`) and does not model any of these behaviours.
- `models.py` (`MarketDataPoint`, the `Strategy` base class) is not part of this model. A tick is its price.
- reporting.py: plotting and writing the markdown report are rendering and file I/O.
- profiler.py: wall-clock timing, peak-memory measurement and synthetic data generation are left out. `RunBoth` models only its tick-feeding loop.
- data_loader.py and main.py: CSV reading, timestamp and float parsing, and handling of a missing file are I/O.
- The timing test (tests/test_strategies.py:60-76) and the complexity claims in the docstrings are performance properties. The only one stated is the storage bound: the window holds at most `windowSize` prices.
