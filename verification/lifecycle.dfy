/**
 Construction of the bandwidth statistics (`BandwidthStats.__init__`) and
 their reaction to tor's lifecycle events (`reset_listener`). Every answer
 from tor's controller, the process start time and the clock are parameters.
 */
module Lifecycle {
  import opened Types
  import opened Accounting
  import opened TitleLabels

  /**
   Whether the totals and start time come from tor: its read and written
   totals were both answered and its process start time is known and non-zero.
   */
  predicate SeededFromTor(readTotal: Option<nat>, writeTotal: Option<nat>, processStart: Option<real>)
    ensures readTotal.None? || writeTotal.None? || processStart.None? || processStart == Some(0.0) ==>
      !SeededFromTor(readTotal, writeTotal, processStart)
    ensures readTotal == Some(0) && writeTotal == Some(0) && processStart == Some(1.0) ==>
      SeededFromTor(readTotal, writeTotal, processStart)
  {
    readTotal.Some? && writeTotal.Some? && processStart.Some? && processStart.value != 0.0
  }

  /** `n / 1024` on Python 2 integers: whole kilobytes, rounded down. */
  function WholeKB(bytes: nat): (kb: nat)
    ensures kb * 1024 <= bytes < (kb + 1) * 1024
  {
    bytes / 1024
  }

  /**
   The start time and total selection of the constructor: with tor's totals
   and start time all available, the totals are tor's (in whole KB) and the
   start time is tor's; otherwise the start time is `now` and the totals stay.
   */
  function SelectStart(s: Stats, readTotal: Option<nat>, writeTotal: Option<nat>, processStart: Option<real>,
                       now: real): (r: Stats)
    ensures SeededFromTor(readTotal, writeTotal, processStart) ==>
      && r.startTime == processStart.value
      && r.primaryTotal == WholeKB(readTotal.value) as real
      && r.secondaryTotal == WholeKB(writeTotal.value) as real
    ensures !SeededFromTor(readTotal, writeTotal, processStart) ==>
      r.startTime == now && r.primaryTotal == s.primaryTotal && r.secondaryTotal == s.secondaryTotal
    ensures r == s.(startTime := r.startTime, primaryTotal := r.primaryTotal, secondaryTotal := r.secondaryTotal)
  {
    if SeededFromTor(readTotal, writeTotal, processStart) then
      s.(primaryTotal := WholeKB(readTotal.value) as real,
         secondaryTotal := WholeKB(writeTotal.value) as real,
         startTime := processStart.value)
    else
      s.(startTime := now)
  }

  /** Whether the start time is tor's rather than the clock's is decided by tor's answers alone. */
  lemma StartTimeFromTor(s: Stats, readTotal: Option<nat>, writeTotal: Option<nat>, processStart: Option<real>,
                         now: real)
    requires processStart.Some? && processStart.value != now
    ensures SelectStart(s, readTotal, writeTotal, processStart, now).startTime == processStart.value
        <==> SeededFromTor(readTotal, writeTotal, processStart)
  {
  }

  /** The bookkeeping after a lifecycle event, and whether the whole screen must be redrawn. */
  datatype ResetOutcome = ResetOutcome(stats: Stats, redrawScreen: bool)

  /**
   `reset_listener`: refresh the title labels as for the initial descriptor
   event, then toggle accounting. Nothing else changes.
   */
  function ResetListener(cfg: Config, s: Stats, ctl: ControllerView, event: EventType,
                         enabledReply: Option<string>, fetched: Option<AccountingStats>,
                         sizeLabel: int -> string): (r: ResetOutcome)
    ensures ctl.alive ==> r.stats.titleStats == TitleEntries(ctl, sizeLabel)
    ensures !ctl.alive ==> r.stats.titleStats == s.titleStats
    ensures r.redrawScreen <==>
      (event == Init || event == Reset) && cfg.showAccounting && AccountingEnabled(enabledReply) != s.accounting.Some?
    ensures r.stats.accounting == if r.redrawScreen then fetched else s.accounting
    ensures r.stats == s.(titleStats := r.stats.titleStats, accounting := r.stats.accounting)
  {
    var title := NewDescEvent(s.titleStats, ctl, None, sizeLabel);
    var toggle := ToggleAccounting(cfg, s.accounting, event, enabledReply, fetched);
    ResetOutcome(s.(titleStats := title, accounting := toggle.accounting), toggle.redrawScreen)
  }

  /** A CLOSED event never touches accounting nor asks for a redraw of the screen. */
  lemma ClosedKeepsAccounting(cfg: Config, s: Stats, ctl: ControllerView, enabledReply: Option<string>,
                              fetched: Option<AccountingStats>, sizeLabel: int -> string)
    ensures !ResetListener(cfg, s, ctl, Closed, enabledReply, fetched, sizeLabel).redrawScreen
    ensures ResetListener(cfg, s, ctl, Closed, enabledReply, fetched, sizeLabel).stats.accounting == s.accounting
  {
  }

  /**
   `__init__`, starting from the base graph bookkeeping `base`: no title
   labels and no accounting; unless this is a pause buffer, the INIT lifecycle
   event; the initial descriptor refresh; then the start time and totals.
   */
  function Construct(cfg: Config, base: Stats, isPauseBuffer: bool, ctl: ControllerView,
                     enabledReply: Option<string>, fetched: Option<AccountingStats>, sizeLabel: int -> string,
                     readTotal: Option<nat>, writeTotal: Option<nat>, processStart: Option<real>,
                     now: real): (r: Stats)
    ensures r.titleStats == if ctl.alive then TitleEntries(ctl, sizeLabel) else []
    ensures isPauseBuffer ==> r.accounting.None?
    ensures !isPauseBuffer ==>
      r.accounting == if cfg.showAccounting && AccountingEnabled(enabledReply) then fetched else None
    ensures SeededFromTor(readTotal, writeTotal, processStart) ==>
      && r.startTime == processStart.value
      && r.primaryTotal == WholeKB(readTotal.value) as real
      && r.secondaryTotal == WholeKB(writeTotal.value) as real
    ensures !SeededFromTor(readTotal, writeTotal, processStart) ==>
      r.startTime == now && r.primaryTotal == base.primaryTotal && r.secondaryTotal == base.secondaryTotal
    ensures r.primaryCounts == base.primaryCounts && r.secondaryCounts == base.secondaryCounts
    ensures r.lastPrimary == base.lastPrimary && r.lastSecondary == base.lastSecondary
  {
    var s0 := base.(titleStats := [], accounting := None);
    var s1 := if isPauseBuffer then s0 else ResetListener(cfg, s0, ctl, Init, enabledReply, fetched, sizeLabel).stats;
    var s2 := s1.(titleStats := NewDescEvent(s1.titleStats, ctl, None, sizeLabel));
    SelectStart(s2, readTotal, writeTotal, processStart, now)
  }
}
