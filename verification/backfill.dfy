/**
 Prepopulation of the 15-minute history from tor's persisted state
 (`BandwidthStats.prepopulate_from_state`): the two persisted per-interval
 byte counts are extrapolated to the present, cropped to a common length and
 pushed, oldest first, onto the front of the 15-minute buffers.
 */
module Backfill {
  import opened Types

  /** Width in seconds of the interval tor's state file records. */
  const FifteenMinutes: int := 900

  /** What tor's state file supplies: one count per 15 minutes, oldest first, and the time of the last one. */
  datatype Snapshot = Snapshot(
    readEntries: seq<real>,
    writeEntries: seq<real>,
    lastReadTime: real,
    lastWriteTime: real)

  /** The exceptions prepopulation can raise. */
  datatype BackfillError =
    | EmptyReadEntries         // `stats.read_entries[-1]` on an empty list
    | EmptyWriteEntries        // `stats.write_entries[-1]` on an empty list
    | NoFifteenMinuteInterval  // the interval index runs past the buffers

  /** The updated bookkeeping and the span of real time the snapshot covers. */
  datatype Backfilled = Backfilled(stats: Stats, elapsed: real)

  /** Python's `int()` applied to a float: truncation toward zero. */
  function TruncateTowardZero(x: real): (r: int)
    ensures 0.0 <= x ==> 0 <= r && r as real <= x < r as real + 1.0
    ensures x < 0.0 ==> r <= 0 && r as real - 1.0 < x <= r as real
  {
    if 0.0 <= x then x.Floor else -((-x).Floor)
  }

  /** Number of whole 15-minute intervals between the last recorded entry and `now`. */
  function MissingEntries(now: real, lastTime: real): (k: int)
    ensures lastTime <= now ==>
      0 <= k && k as real * 900.0 <= now - lastTime < (k + 1) as real * 900.0
    ensures now - lastTime < 900.0 ==> k <= 0
  {
    TruncateTowardZero((now - lastTime) / 900.0)
  }

  /** Length of `[x] * k` in Python: a non-positive repetition count gives the empty list. */
  function Copies(k: int): (c: nat)
    ensures c == 0 <==> k <= 0
    ensures 0 < k ==> c == k
  {
    if k < 0 then 0 else k
  }

  /** The list followed by `k` copies of its last element (flat extrapolation). */
  function Extend(entries: seq<real>, k: int): (r: seq<real>)
    requires |entries| > 0
    ensures |r| == |entries| + Copies(k)
    ensures r[..|entries|] == entries
    ensures forall i :: |entries| <= i < |r| ==> r[i] == entries[|entries| - 1]
  {
    var last := entries[|entries| - 1];
    entries + seq(Copies(k), _ => last)
  }

  function ExtendedReads(snap: Snapshot, now: real): (r: seq<real>)
    requires |snap.readEntries| > 0
    ensures |snap.readEntries| <= |r| && r[..|snap.readEntries|] == snap.readEntries
    ensures forall i :: |snap.readEntries| <= i < |r| ==> r[i] == snap.readEntries[|snap.readEntries| - 1]
    ensures now - snap.lastReadTime < 900.0 ==> r == snap.readEntries
    ensures snap.lastReadTime <= now ==> (|r| - |snap.readEntries|) as real * 900.0 <= now - snap.lastReadTime
    ensures snap.lastReadTime <= now ==> now - snap.lastReadTime < (|r| - |snap.readEntries| + 1) as real * 900.0
  {
    Extend(snap.readEntries, MissingEntries(now, snap.lastReadTime))
  }

  function ExtendedWrites(snap: Snapshot, now: real): (r: seq<real>)
    requires |snap.writeEntries| > 0
    ensures |snap.writeEntries| <= |r| && r[..|snap.writeEntries|] == snap.writeEntries
    ensures forall i :: |snap.writeEntries| <= i < |r| ==> r[i] == snap.writeEntries[|snap.writeEntries| - 1]
    ensures now - snap.lastWriteTime < 900.0 ==> r == snap.writeEntries
    ensures snap.lastWriteTime <= now ==> (|r| - |snap.writeEntries|) as real * 900.0 <= now - snap.lastWriteTime
    ensures snap.lastWriteTime <= now ==> now - snap.lastWriteTime < (|r| - |snap.writeEntries| + 1) as real * 900.0
  {
    Extend(snap.writeEntries, MissingEntries(now, snap.lastWriteTime))
  }

  /** `min(len_r, len_w, max_column)`: the number of entries both directions keep. */
  function EntryCount(readLen: nat, writeLen: nat, maxColumn: nat): (n: nat)
    ensures n <= readLen && n <= writeLen && n <= maxColumn
    ensures n == readLen || n == writeLen || n == maxColumn
  {
    if readLen <= writeLen && readLen <= maxColumn then readLen
    else if writeLen <= maxColumn then writeLen
    else maxColumn
  }

  /** `s[len(s) - n:]`: the last `n` elements. */
  function Suffix(s: seq<real>, n: nat): (r: seq<real>)
    requires n <= |s|
    ensures |r| == n
    ensures s == s[..|s| - n] + r
  {
    s[|s| - n..]
  }

  /** Both extrapolated lists cropped from the front to their common length. */
  function AlignedEntries(snap: Snapshot, now: real, maxColumn: nat): (r: (seq<real>, seq<real>))
    requires |snap.readEntries| > 0 && |snap.writeEntries| > 0
    ensures |r.0| == |r.1|
    ensures
      var readVals, writeVals := ExtendedReads(snap, now), ExtendedWrites(snap, now);
      && |r.0| == EntryCount(|readVals|, |writeVals|, maxColumn)
      && readVals == readVals[..|readVals| - |r.0|] + r.0
      && writeVals == writeVals[..|writeVals| - |r.1|] + r.1
  {
    var readVals := ExtendedReads(snap, now);
    var writeVals := ExtendedWrites(snap, now);
    var n := EntryCount(|readVals|, |writeVals|, maxColumn);
    (Suffix(readVals, n), Suffix(writeVals, n))
  }

  /**
   Index of the first interval whose value is 900, counting up past every
   other one; it equals the number of intervals when there is none.
   */
  function IntervalIndex(intervals: seq<int>): (i: nat)
    ensures i <= |intervals|
    ensures i < |intervals| ==> intervals[i] == FifteenMinutes
    ensures forall j :: 0 <= j < i ==> intervals[j] != FifteenMinutes
  {
    if |intervals| == 0 then 0
    else if intervals[0] == FifteenMinutes then 0
    else 1 + IntervalIndex(intervals[1..])
  }

  /** Reference definition: the sequence read back to front. */
  function Reverse(s: seq<real>): seq<real>
  {
    seq(|s|, i requires 0 <= i < |s| => s[|s| - 1 - i])
  }

  /** The buffers and latest rates the insertion loop works on. */
  datatype Fill = Fill(primary: seq<real>, secondary: seq<real>, lastPrimary: real, lastSecondary: real)

  /**
   The insertion loop: for each aligned pair in chronological order, record it
   as the latest rate and insert it at position 0 of both buffers.
   */
  function FillLoop(f: Fill, readVals: seq<real>, writeVals: seq<real>): (r: Fill)
    requires |readVals| == |writeVals|
    ensures |r.primary| == |readVals| + |f.primary|
    ensures |r.secondary| == |writeVals| + |f.secondary|
    ensures |readVals| > 0 ==> r.lastPrimary == readVals[|readVals| - 1] && r.lastSecondary == writeVals[|writeVals| - 1]
    decreases |readVals|
  {
    if |readVals| == 0 then f
    else FillLoop(Fill([readVals[0]] + f.primary, [writeVals[0]] + f.secondary, readVals[0], writeVals[0]), readVals[1..], writeVals[1..])
  }

  /** After the loop the buffers start with the entries newest first, and the latest rates are the final entries. */
  lemma {:induction false} FillLoopResult(f: Fill, readVals: seq<real>, writeVals: seq<real>)
    requires |readVals| == |writeVals|
    ensures FillLoop(f, readVals, writeVals).primary == Reverse(readVals) + f.primary
    ensures FillLoop(f, readVals, writeVals).secondary == Reverse(writeVals) + f.secondary
    ensures FillLoop(f, readVals, writeVals).lastPrimary == if |readVals| > 0 then readVals[|readVals| - 1] else f.lastPrimary
    ensures FillLoop(f, readVals, writeVals).lastSecondary == if |writeVals| > 0 then writeVals[|writeVals| - 1] else f.lastSecondary
    decreases |readVals|
  {
    if |readVals| > 0 {
      var g := Fill([readVals[0]] + f.primary, [writeVals[0]] + f.secondary, readVals[0], writeVals[0]);
      FillLoopResult(g, readVals[1..], writeVals[1..]);
      ReverseCons(readVals);
      ReverseCons(writeVals);
      assert Reverse(readVals[1..]) + ([readVals[0]] + f.primary) == (Reverse(readVals[1..]) + [readVals[0]]) + f.primary;
      assert Reverse(writeVals[1..]) + ([writeVals[0]] + f.secondary) == (Reverse(writeVals[1..]) + [writeVals[0]]) + f.secondary;
    }
  }

  /** Reversing a non-empty sequence puts its head last. */
  lemma ReverseCons(s: seq<real>)
    requires |s| > 0
    ensures Reverse(s) == Reverse(s[1..]) + [s[0]]
  {
  }

  /** `del s[n:]`: keep at most the first `n` elements. */
  function Keep(s: seq<real>, n: nat): (r: seq<real>)
    ensures |r| <= n
    ensures |r| <= |s|
    ensures |r| == n || r == s
    ensures r == s[..|r|]
  {
    if |s| <= n then s else s[..n]
  }

  /**
   The effect of the insertion loop and truncation of `prepopulate_from_state`
   (`bandwidth_stats.py`) on the modelled fields, given the interval index and the
   aligned entries: the buffers at `idx` gain the entries newest first and are
   cut back to `maxColumn + 1`, the latest rates become the final entries (or
   stay when there are none), and no other modelled field changes.
   */
  ghost predicate Backfills(cfg: Config, s: Stats, idx: nat, readVals: seq<real>, writeVals: seq<real>, t: Stats)
    requires WellFormed(cfg, s) && idx < |cfg.intervals|
  {
    && WellFormed(cfg, t)
    && (forall j :: 0 <= j < |cfg.intervals| && j != idx ==> t.primaryCounts[j] == s.primaryCounts[j])
    && (forall j :: 0 <= j < |cfg.intervals| && j != idx ==> t.secondaryCounts[j] == s.secondaryCounts[j])
    && t.primaryCounts[idx] == Keep(Reverse(readVals) + s.primaryCounts[idx], cfg.maxColumn + 1)
    && t.secondaryCounts[idx] == Keep(Reverse(writeVals) + s.secondaryCounts[idx], cfg.maxColumn + 1)
    && |t.primaryCounts[idx]| <= cfg.maxColumn + 1
    && |t.secondaryCounts[idx]| <= cfg.maxColumn + 1
    && t.lastPrimary == (if |readVals| > 0 then readVals[|readVals| - 1] else s.lastPrimary)
    && t.lastSecondary == (if |writeVals| > 0 then writeVals[|writeVals| - 1] else s.lastSecondary)
    && t.primaryTotal == s.primaryTotal && t.secondaryTotal == s.secondaryTotal
    && t.startTime == s.startTime && t.accounting == s.accounting && t.titleStats == s.titleStats
  }

  /** Run the insertion loop on the buffers at `idx`, then truncate them to `maxColumn + 1` entries. */
  function InsertAligned(cfg: Config, s: Stats, idx: nat, readVals: seq<real>, writeVals: seq<real>): (t: Stats)
    requires WellFormed(cfg, s) && idx < |cfg.intervals| && |readVals| == |writeVals|
    ensures Backfills(cfg, s, idx, readVals, writeVals, t)
  {
    var start := Fill(s.primaryCounts[idx], s.secondaryCounts[idx], s.lastPrimary, s.lastSecondary);
    var f := FillLoop(start, readVals, writeVals);
    FillLoopResult(start, readVals, writeVals);
    s.(primaryCounts := s.primaryCounts[idx := Keep(f.primary, cfg.maxColumn + 1)],
       secondaryCounts := s.secondaryCounts[idx := Keep(f.secondary, cfg.maxColumn + 1)],
       lastPrimary := f.lastPrimary,
       lastSecondary := f.lastSecondary)
  }

  /**
   `prepopulate_from_state` with tor's state, the clock and the configuration
   passed in: the error it raises on an empty list or a missing 15-minute
   interval, and otherwise the backfilled bookkeeping and the real time since
   the older of the two last-recorded entries.
   */
  function Prepopulate(cfg: Config, s: Stats, snap: Snapshot, now: real): (r: Result<Backfilled, BackfillError>)
    requires WellFormed(cfg, s)
    ensures r.Failure? && r.error == EmptyReadEntries <==> |snap.readEntries| == 0
    ensures r.Failure? && r.error == EmptyWriteEntries <==>
      |snap.readEntries| > 0 && |snap.writeEntries| == 0
    ensures r.Failure? && r.error == NoFifteenMinuteInterval <==>
      |snap.readEntries| > 0 && |snap.writeEntries| > 0 && FifteenMinutes !in cfg.intervals
    ensures r.Success? ==>
      && IntervalIndex(cfg.intervals) < |cfg.intervals|
      && cfg.intervals[IntervalIndex(cfg.intervals)] == FifteenMinutes
      && Backfills(cfg, s, IntervalIndex(cfg.intervals),
                   AlignedEntries(snap, now, cfg.maxColumn).0, AlignedEntries(snap, now, cfg.maxColumn).1,
                   r.value.stats)
      && r.value.elapsed == now - Min(snap.lastReadTime, snap.lastWriteTime)
  {
    if |snap.readEntries| == 0 then Failure(EmptyReadEntries)
    else if |snap.writeEntries| == 0 then Failure(EmptyWriteEntries)
    else
      var aligned := AlignedEntries(snap, now, cfg.maxColumn);
      var idx := IntervalIndex(cfg.intervals);
      if idx == |cfg.intervals| then Failure(NoFifteenMinuteInterval)
      else
        var t := InsertAligned(cfg, s, idx, aligned.0, aligned.1);
        Success(Backfilled(t, now - Min(snap.lastReadTime, snap.lastWriteTime)))
  }

  /**
   On non-empty lists with some interval of 900 s, prepopulation succeeds and
   has the effect `Backfills` on at most `maxColumn` aligned entries.
   */
  lemma PrepopulateSucceeds(cfg: Config, s: Stats, snap: Snapshot, now: real)
    requires WellFormed(cfg, s)
    requires |snap.readEntries| > 0 && |snap.writeEntries| > 0 && FifteenMinutes in cfg.intervals
    ensures Prepopulate(cfg, s, snap, now).Success?
    ensures IntervalIndex(cfg.intervals) < |cfg.intervals|
    ensures |AlignedEntries(snap, now, cfg.maxColumn).0| == |AlignedEntries(snap, now, cfg.maxColumn).1| <= cfg.maxColumn
    ensures Backfills(cfg, s, IntervalIndex(cfg.intervals),
                      AlignedEntries(snap, now, cfg.maxColumn).0, AlignedEntries(snap, now, cfg.maxColumn).1,
                      Prepopulate(cfg, s, snap, now).value.stats)
  {
  }

  /** Prepopulation keeps every buffer within `maxColumn + 1` entries. */
  lemma BackfillKeepsBound(cfg: Config, s: Stats, snap: Snapshot, now: real)
    requires WellFormed(cfg, s) && Bounded(cfg, s)
    requires |snap.readEntries| > 0 && |snap.writeEntries| > 0 && FifteenMinutes in cfg.intervals
    ensures Prepopulate(cfg, s, snap, now).Success?
    ensures Bounded(cfg, Prepopulate(cfg, s, snap, now).value.stats)
  {
    PrepopulateSucceeds(cfg, s, snap, now);
  }

  /** `buffer` starts with the entries `v`, newest (last) first. */
  ghost predicate StartsNewestFirst(buffer: seq<real>, v: seq<real>)
  {
    |v| <= |buffer| && forall i :: 0 <= i < |v| ==> buffer[i] == v[|v| - 1 - i]
  }

  /**
   Every aligned entry survives the truncation, newest first: position `i` of
   the 15-minute buffer holds the `i`-th most recent entry, the head is the
   latest rate, and both directions hold the same number of entries when they
   held the same number before.
   */
  lemma NewestFirst(cfg: Config, s: Stats, idx: nat, readVals: seq<real>, writeVals: seq<real>, t: Stats)
    requires WellFormed(cfg, s) && idx < |cfg.intervals|
    requires |readVals| == |writeVals| <= cfg.maxColumn
    requires Backfills(cfg, s, idx, readVals, writeVals, t)
    ensures StartsNewestFirst(t.primaryCounts[idx], readVals)
    ensures StartsNewestFirst(t.secondaryCounts[idx], writeVals)
    ensures |readVals| > 0 ==> t.primaryCounts[idx][0] == t.lastPrimary && t.secondaryCounts[idx][0] == t.lastSecondary
    ensures |s.primaryCounts[idx]| == |s.secondaryCounts[idx]| ==> |t.primaryCounts[idx]| == |t.secondaryCounts[idx]|
  {
  }

  /**
   `NewestFirst` for the result of prepopulation: the aligned entries
   head both 15-minute buffers newest first, the latest rates in front.
   */
  lemma BackfillNewestFirst(cfg: Config, s: Stats, snap: Snapshot, now: real)
    requires WellFormed(cfg, s)
    requires |snap.readEntries| > 0 && |snap.writeEntries| > 0 && FifteenMinutes in cfg.intervals
    ensures Prepopulate(cfg, s, snap, now).Success?
    ensures
      var t := Prepopulate(cfg, s, snap, now).value.stats;
      var idx := IntervalIndex(cfg.intervals);
      && idx < |t.primaryCounts| && idx < |t.secondaryCounts|
      && StartsNewestFirst(t.primaryCounts[idx], AlignedEntries(snap, now, cfg.maxColumn).0)
      && StartsNewestFirst(t.secondaryCounts[idx], AlignedEntries(snap, now, cfg.maxColumn).1)
      && (cfg.maxColumn > 0 ==> t.primaryCounts[idx][0] == t.lastPrimary && t.secondaryCounts[idx][0] == t.lastSecondary)
  {
    PrepopulateSucceeds(cfg, s, snap, now);
    var aligned := AlignedEntries(snap, now, cfg.maxColumn);
    NewestFirst(cfg, s, IntervalIndex(cfg.intervals), aligned.0, aligned.1, Prepopulate(cfg, s, snap, now).value.stats);
  }

  /** A snapshot taken 45 minutes ago gains exactly three copies of its last entry. */
  lemma ExtrapolationExample(entries: seq<real>, now: real)
    requires |entries| > 0
    ensures MissingEntries(now, now - 2700.0) == 3
    ensures Extend(entries, MissingEntries(now, now - 2700.0)) ==
      entries + [entries[|entries| - 1], entries[|entries| - 1], entries[|entries| - 1]]
  {
  }

  /** A snapshot whose last entry lies in the future, or under 15 minutes back, is not extrapolated. */
  lemma RecentSnapshotNotExtended(snap: Snapshot, now: real)
    requires |snap.readEntries| > 0 && |snap.writeEntries| > 0
    requires now - snap.lastReadTime < 900.0 && now - snap.lastWriteTime < 900.0
    ensures ExtendedReads(snap, now) == snap.readEntries
    ensures ExtendedWrites(snap, now) == snap.writeEntries
  {
  }

  /**
   A current snapshot with 100 read and 80 write entries is aligned to
   `min(80, maxColumn)` entries per direction, the newest ones of each.
   */
  lemma AlignmentExample(snap: Snapshot, now: real, maxColumn: nat)
    requires |snap.readEntries| == 100 && |snap.writeEntries| == 80
    requires snap.lastReadTime == now && snap.lastWriteTime == now
    ensures
      var aligned := AlignedEntries(snap, now, maxColumn);
      var n := if maxColumn < 80 then maxColumn else 80;
      && |aligned.0| == n && |aligned.1| == n
      && aligned.0 == snap.readEntries[100 - n..]
      && aligned.1 == snap.writeEntries[80 - n..]
  {
  }
}
