# Bandwidth graph statistics — a Dafny model

This project models the bookkeeping of `BandwidthStats`, the statistics
behind the bandwidth graph of the arm/nyx tor monitor
(`arm/graphing/bandwidth_stats.py`), and proves properties of it:

- **Prepopulation from tor's state file** (`prepopulate_from_state`): the two
  persisted lists of per-15-minute byte counts are extrapolated to the present
  by repeating their last value once per whole 900 s elapsed, cropped from the
  front to `min(len_r, len_w, max_column)` entries, pushed oldest first onto
  the front of the 15-minute buffers (so the buffers stay newest first), which
  are then cut back to `max_column + 1` entries. The result is the bookkeeping
  and the real time since the older of the two last-recorded entries, or the
  exception the code raises on an empty list or a missing 900 s interval.
- **Bandwidth events** (`bandwidth_event`): the accounting status is refreshed
  only when present, on a redraw tick and at least 5 s (`ACCOUNTING_RATE`)
  after it was retrieved; the sample is always forwarded as `read / 1024` and
  `written / 1024`.
- **Construction** (`__init__`): totals and start time come from tor only when
  the read total, the written total and the process start time are all
  available; otherwise the start time is the current time.
- **Lifecycle events and panel height** (`reset_listener`,
  `get_content_height`): on INIT/RESET with accounting shown, a status whose
  presence disagrees with `GETINFO accounting/enabled` is replaced by a fresh
  request; the panel is three rows taller exactly when a status is present.
- **Title labels** (`new_desc_event`, `get_title`): kept when tor is down or
  the descriptor is not ours; limit and burst appear only as a pair; `.0` is
  stripped from both or from neither; a measured bandwidth excludes the
  observed one.

Files: `types.dfy` (shared datatypes: configuration, accounting status, the
bookkeeping record), `backfill.dfy` (prepopulation), `accounting.dfy`
(bandwidth events, accounting toggle, height), `title.dfy` (title labels),
`lifecycle.dfy` (construction and `reset_listener`).

Modelling choices:

- Everything the source asks of tor's controller, of the state file, of the
  process table or of the clock is a parameter: `now` (one instant for all
  three clock reads of `prepopulate_from_state`, see below), the snapshot, the
  `accounting/enabled` reply, the result of requesting accounting stats
  (absent when the request fails), the effective rate and burst, the measured
  and observed bandwidth, the fingerprint, the totals and the start time.
- Times, rates and byte counts in the buffers are `real` (Python floats,
  without rounding). `int()` on a float is `TruncateTowardZero`.
- Python truthiness is modelled explicitly: an absent or zero rate, burst or
  bandwidth counts as missing, so does a zero process start time; a GETINFO
  total is present when tor answered.
- `_size_label` and `str_tools.join` are function parameters the model knows
  nothing about.
- The configured intervals are a sequence of integers in configuration order,
  already converted by `int()`; the buffers hold one history per interval.

Behaviour of the code worth knowing, which the model keeps as written:

- `prepopulate_from_state` is documented as returning True or False, but the
  code returns the elapsed time as a float on success and raises an exception
  otherwise; the model returns the elapsed time or a `BackfillError`.
- With no 900 s interval the code runs the interval index past the buffers
  and raises; the model returns `NoFifteenMinuteInterval`.
- A failed accounting refresh stores `None`, which removes the status
  (`Accounting.BandwidthEvent` with an absent `fetched`).
- When accounting is disabled the status is replaced by a fresh request,
  which clears it only when that request fails (`Accounting.DisableClears`).
- Lines 144-145 assign a maximum taken over the container of all interval
  buffers, not over the 15-minute buffer; this is not modelled (see below).
- The number of missing entries is `int()` of a float, which truncates
  toward zero; a last entry in the future gives no copies.

## Model

| member | source | states |
|---|---|---|
| Backfill.TruncateTowardZero | arm/graphing/bandwidth_stats.py:110-111 | `int()` of a float: non-negative inputs round down to a non-negative integer, negative inputs round up to a non-positive one |
| Backfill.MissingEntries | arm/graphing/bandwidth_stats.py:110-111 | for a past last entry, the number of whole 900 s intervals elapsed; less than 900 s back or in the future gives no positive count |
| Backfill.Copies | arm/graphing/bandwidth_stats.py:115-116 | `[x] * k` has no elements exactly when `k <= 0`, and `k` elements otherwise |
| Backfill.Extend | arm/graphing/bandwidth_stats.py:113-116 | the extended list is the original followed by exactly `max(k, 0)` copies of its last element |
| Backfill.ExtendedReads | arm/graphing/bandwidth_stats.py:110-115 | the read list followed only by copies of its last entry, unchanged when the last entry is under 900 s old or in the future, and for a past last entry exactly the number of whole 900 s intervals elapsed |
| Backfill.ExtendedWrites | arm/graphing/bandwidth_stats.py:111-116 | the same for the write list and its own last-entry time |
| Backfill.EntryCount | arm/graphing/bandwidth_stats.py:120 | the common length is at most each of the two list lengths and `max_column`, and equals one of them |
| Backfill.Suffix | arm/graphing/bandwidth_stats.py:121-122 | cropping keeps exactly the last `n` entries |
| Backfill.AlignedEntries | arm/graphing/bandwidth_stats.py:110-122 | both cropped lists have length `min(len_r, len_w, max_column)` and are suffixes of the extended lists |
| Backfill.IntervalIndex | arm/graphing/bandwidth_stats.py:126-132 | the index is that of the first interval equal to 900, or the number of intervals when none is |
| Backfill.FillLoop | arm/graphing/bandwidth_stats.py:136-142 | each buffer grows by exactly the number of entries pushed; with at least one entry the latest rates are the final pair |
| Backfill.FillLoopResult | arm/graphing/bandwidth_stats.py:136-142 | after the insertion loop the buffers are the entries reversed followed by their old contents, and the latest rates are the final entries (unchanged when there are none) |
| Backfill.Keep | arm/graphing/bandwidth_stats.py:147-148 | truncation keeps a prefix of at most `max_column + 1` entries, the whole list when it is short enough |
| Backfill.InsertAligned | arm/graphing/bandwidth_stats.py:136-148 | of the modelled fields, only the buffers at the 15-minute index change, to the truncated newest-first push; latest rates as the loop leaves them; totals, start time, accounting and title untouched (the maxima of lines 144-145 are not modelled) |
| Backfill.Prepopulate | arm/graphing/bandwidth_stats.py:101-150 | error exactly on an empty read list, else on an empty write list, else when no interval is 900; on success the effect above on the aligned entries and elapsed time `now - min(last_read_time, last_write_time)` |
| Backfill.PrepopulateSucceeds | arm/graphing/bandwidth_stats.py:115-148 | with non-empty lists and some interval of 900 s prepopulation raises nothing, and it pushes at most `max_column` aligned entries with the effect stated for `InsertAligned` |
| Backfill.BackfillKeepsBound | arm/graphing/bandwidth_stats.py:147-148 | if every buffer held at most `max_column + 1` entries before prepopulation, every buffer does after |
| Backfill.NewestFirst | arm/graphing/bandwidth_stats.py:136-148 | every aligned entry survives truncation, position `i` holding the `i`-th newest; the head is the latest rate; equal-length buffers stay equal in length |
| Backfill.BackfillNewestFirst | arm/graphing/bandwidth_stats.py:136-148 | after prepopulation both 15-minute buffers start with all their aligned entries newest first, headed by the latest rates when `max_column > 0` |
| Backfill.ExtrapolationExample | arm/graphing/bandwidth_stats.py:110-116 | a last entry 2700 s back yields exactly three copies of the last value |
| Backfill.RecentSnapshotNotExtended | arm/graphing/bandwidth_stats.py:110-116 | last entries under 900 s back or in the future leave both lists unextended |
| Backfill.AlignmentExample | arm/graphing/bandwidth_stats.py:120-122 | 100 read and 80 write entries recorded now align to the newest `min(80, max_column)` entries of each |
| Accounting.BandwidthEvent | arm/graphing/bandwidth_stats.py:152-159 | the status changes only when present, on a redraw tick and at least 5 s old, and then becomes the fetched one; nothing else changes; the forwarded values are the byte counts divided by 1024 |
| Accounting.PollRateLimited | arm/graphing/bandwidth_stats.py:153-155 | after a refresh stamped at `now1`, an event before `now1 + 5` keeps that status whatever a new request would return |
| Accounting.ScalingExample | arm/graphing/bandwidth_stats.py:157-159 | an event of 5120 / 3072 bytes is forwarded as 5.0 / 3.0 KB |
| Accounting.AccountingEnabled | arm/graphing/bandwidth_stats.py:86 | accounting is enabled only on the one-character reply "1"; no reply, "0" or an empty reply mean disabled |
| Accounting.ToggleAccounting | arm/graphing/bandwidth_stats.py:85-89 | the status is replaced by the fetched one (and a redraw requested) exactly on INIT/RESET with the show flag set and `enabled` differing from "status present"; otherwise it is kept |
| Accounting.ContentHeight | arm/graphing/bandwidth_stats.py:238-240 | the height is base + 3 exactly when a status is present, base otherwise |
| Accounting.ToggleSettles | arm/graphing/bandwidth_stats.py:85-89 | when the request succeeds exactly when accounting is enabled, one INIT/RESET makes presence and height follow `enabled`, and a repeat changes nothing |
| Accounting.DisableClears | arm/graphing/bandwidth_stats.py:85-89 | disabling with a failing request removes a present status and asks for a redraw |
| TitleLabels.BeforeFirstDot | arm/graphing/bandwidth_stats.py:263-264 | `split('.', 1)[0]` is a dot-free prefix, shorter exactly when there is a '.', which is where it stops |
| TitleLabels.HasDotZero | arm/graphing/bandwidth_stats.py:262 | a label containing ".0" has at least two characters, among them a '.' and a '0' |
| TitleLabels.RateLabels | arm/graphing/bandwidth_stats.py:256-264 | each label is shortened exactly when both contain ".0", then to a dot-free prefix cut at its first '.' |
| TitleLabels.Entry | arm/graphing/bandwidth_stats.py:266-279 | each title label `'<tag>%s/s'` is its tag, then the formatted text, then "/s", so the text can be read back |
| TitleLabels.LimitEntries | arm/graphing/bandwidth_stats.py:253-267 | a limit label exists exactly when a burst label does, exactly when rate and burst are both non-zero; they are the two stripped labels in that order |
| TitleLabels.BandwidthEntries | arm/graphing/bandwidth_stats.py:269-279 | a measured label exactly when tor has a measured bandwidth, an observed label exactly when it has none but an observed one; at most one label |
| TitleLabels.TitleEntries | arm/graphing/bandwidth_stats.py:250-281 | the labels are the limit pair followed by the bandwidth label, with the presence rules of both and measured excluding observed |
| TitleLabels.ConcernsUs | arm/graphing/bandwidth_stats.py:250 | the initial refresh always concerns us; a descriptor event concerns us only when our fingerprint is non-empty and listed; with an absent or empty fingerprint only the initial refresh does |
| TitleLabels.NewDescEvent | arm/graphing/bandwidth_stats.py:242-281 | with tor down or a descriptor that does not list our fingerprint the labels are kept; otherwise they are recomputed |
| TitleLabels.NewDescEventIdempotent | arm/graphing/bandwidth_stats.py:242-281 | refreshing twice from the same answers equals refreshing once |
| TitleLabels.GetTitle | arm/graphing/bandwidth_stats.py:200-202 | the title is "Bandwidth:" exactly when the joined labels are empty, otherwise "Bandwidth (" + joined labels + "):", from which the labels can be read back |
| Lifecycle.WholeKB | arm/graphing/bandwidth_stats.py:65-66 | Python 2 integer division by 1024 gives the whole kilobytes, rounded down |
| Lifecycle.SeededFromTor | arm/graphing/bandwidth_stats.py:64 | a missing total, a missing start time or a zero start time sends the start time to the clock; totals of zero still count as answered |
| Lifecycle.SelectStart | arm/graphing/bandwidth_stats.py:60-69 | with both totals and a non-zero start time from tor, totals and start time are tor's; otherwise the start time is now and the totals stay; nothing else changes |
| Lifecycle.StartTimeFromTor | arm/graphing/bandwidth_stats.py:64-69 | the start time is tor's exactly when both totals and the start time are available |
| Lifecycle.ResetListener | arm/graphing/bandwidth_stats.py:80-93 | the labels are refreshed as for the initial descriptor event and accounting toggled as above; nothing else changes |
| Lifecycle.ClosedKeepsAccounting | arm/graphing/bandwidth_stats.py:85 | a CLOSED event neither touches accounting nor asks for a redraw |
| Lifecycle.Construct | arm/graphing/bandwidth_stats.py:38-69 | a new object has fresh labels (none with tor down), accounting only when not a pause buffer, shown and enabled, the start time and totals by the selection rule, and the base buffers |

## Left out

- Backfill.Prepopulate: does not model what lines 144-145 store in `max_primary` / `max_secondary`; the value is a maximum over the container of all interval buffers, whose type belongs to the base graph class, which is not part of this model.
- Backfill.Prepopulate: the code reads the clock three times (lines 110, 111 and 150), so near a multiple of 900 s the read and write counts can come from different instants and the returned time from a later one; the model takes one instant `now` for all three, which ties the counts and the elapsed time to the same moment.
- Backfill.InsertAligned: does not model the writes to `max_primary` / `max_secondary` on lines 144-145, inside the cited span; only the modelled fields are stated.
- Backfill.Prepopulate: on an exception the code has already changed some fields (the latest rates before the failing insert); the model returns only the error.
- `draw`, `primary_header`, `secondary_header`: curses output and averages that read the clock.
- `_size_label`, `str_tools.size_label`, `str_tools.join`, `short_time_label`: formatting, passed in as functions or not used.
- tor controller requests, `system.start_time` and `bandwidth_from_state`: I/O, replaced by parameters.
- The base graph class (`graph_panel.GraphStats`): `_process_event`, `is_next_tick_redraw`, `max_column` and the initial buffers are not part of this model; `BandwidthEvent` returns the two values it hands on, and the redraw tick, `max_column` and the base bookkeeping are inputs.
- `clone`: copying the accounting status and labels to a paused copy is object plumbing.
- Listener registration and redraw requests (`add_status_listener`, the controller and panel `redraw` calls): event plumbing; `ResetListener` reports only whether the screen redraw is requested.
- Conversion of the configured interval strings with `int()` and the iteration order of the configuration dictionary: the intervals are given as an ordered sequence of integers.
- Concurrency: `reset_listener` (a controller status listener) and `bandwidth_event` (an event handler) are each modelled as one atomic step, and `PollRateLimited` and `ToggleSettles` take events in sequence; interleavings on `_accounting_stats` are not modelled, including the `AttributeError` the code raises when a concurrent reset clears the status between the test on line 153 and the read of `.retrieved` on line 154.
- Floating-point rounding: times and rates are exact reals.
- Python 3 true division on lines 65-66: the model follows Python 2 integer division.
