/**
 Shared vocabulary of the bandwidth graph statistics: optional values,
 results with an error, the panel configuration, tor's accounting status
 and the bookkeeping record the bandwidth panel keeps between events.
 */
module Types {

  /** A value that may be absent (Python's `None`). */
  datatype Option<T> = None | Some(value: T)

  /** Either a value or the exception the Python code raises instead of returning one. */
  datatype Result<T, E> = Success(value: T) | Failure(error: E)

  /** Python truthiness of an optional number: absent and zero are both false. */
  predicate Truthy(o: Option<int>)
  {
    o.Some? && o.value != 0
  }

  /**
   Configuration the panel reads from its settings:
   - `intervals`: seconds per graph column of each interval, in configuration
     order and already converted with `int()`;
   - `maxColumn`: number of graph columns (the buffer bound is `maxColumn + 1`);
   - `showAccounting`: the `features.graph.bw.accounting.show` flag.
   */
  datatype Config = Config(intervals: seq<int>, maxColumn: nat, showAccounting: bool)

  /** tor's accounting status as fetched from the controller; `retrieved` is the fetch time. */
  datatype AccountingStats = AccountingStats(
    retrieved: real,
    status: string,
    readBytes: int,
    readLimit: int,
    writtenBytes: int,
    writeLimit: int,
    timeUntilReset: int)

  /** Lifecycle events tor's controller reports to status listeners. */
  datatype EventType = Init | Reset | Closed

  /**
   The panel's bookkeeping. `primaryCounts[i]` / `secondaryCounts[i]` are the
   download / upload history of interval `i`, newest first; `lastPrimary` /
   `lastSecondary` the most recent rates; totals are in KB; `accounting` is
   absent when accounting is off; `titleStats` are the labels of the title.
   */
  datatype Stats = Stats(
    primaryCounts: seq<seq<real>>,
    secondaryCounts: seq<seq<real>>,
    lastPrimary: real,
    lastSecondary: real,
    primaryTotal: real,
    secondaryTotal: real,
    startTime: real,
    accounting: Option<AccountingStats>,
    titleStats: seq<string>)

  /** One history buffer per configured interval, for both directions. */
  predicate WellFormed(cfg: Config, s: Stats)
  {
    |s.primaryCounts| == |cfg.intervals| && |s.secondaryCounts| == |cfg.intervals|
  }

  /** Every history buffer holds at most `maxColumn + 1` entries. */
  predicate Bounded(cfg: Config, s: Stats)
  {
    && (forall j :: 0 <= j < |s.primaryCounts| ==> |s.primaryCounts[j]| <= cfg.maxColumn + 1)
    && (forall j :: 0 <= j < |s.secondaryCounts| ==> |s.secondaryCounts[j]| <= cfg.maxColumn + 1)
  }

  function Min(a: real, b: real): real
  {
    if a <= b then a else b
  }
}
