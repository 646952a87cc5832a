/**
 tor's bandwidth accounting as the bandwidth panel tracks it: the
 rate-limited refresh on bandwidth events (`bandwidth_event`), the
 absent/present toggle on tor lifecycle events (`reset_listener`) and the
 extra panel height accounting takes (`get_content_height`).
 */
module Accounting {
  import opened Types

  /** Seconds between accounting refreshes (`ACCOUNTING_RATE`). */
  const AccountingRate: real := 5.0

  /** Rows the accounting section adds to the panel. */
  const AccountingHeight: int := 3

  /** A BW event from tor: bytes read and written during the last second. */
  datatype BandwidthSample = BandwidthSample(read: nat, written: nat)

  /**
   What a bandwidth event leaves behind: the bookkeeping with a possibly
   refreshed accounting status, and the two values handed on, in KB, to the
   shared graph ingestion.
   */
  datatype Ingested = Ingested(stats: Stats, primaryKB: real, secondaryKB: real)

  /**
   `bandwidth_event`: `redrawTick` is whether the next tick redraws the graph
   and `fetched` is what asking tor for its accounting status yields (absent
   when the request fails). The status is refreshed only when it is present,
   on a redraw tick, and at least `AccountingRate` seconds old; the sample is
   always forwarded scaled from bytes to KB.
   */
  function BandwidthEvent(s: Stats, sample: BandwidthSample, redrawTick: bool, now: real,
                          fetched: Option<AccountingStats>): (r: Ingested)
    ensures r.stats.accounting != s.accounting ==>
      s.accounting.Some? && redrawTick && now - s.accounting.value.retrieved >= AccountingRate
    ensures s.accounting.Some? && redrawTick && now - s.accounting.value.retrieved >= AccountingRate ==>
      r.stats.accounting == fetched
    ensures r.stats == s.(accounting := r.stats.accounting)
    ensures r.primaryKB * 1024.0 == sample.read as real
    ensures r.secondaryKB * 1024.0 == sample.written as real
  {
    var refresh := s.accounting.Some? && redrawTick && now - s.accounting.value.retrieved >= AccountingRate;
    var accounting := if refresh then fetched else s.accounting;
    Ingested(s.(accounting := accounting), sample.read as real / 1024.0, sample.written as real / 1024.0)
  }

  /**
   Polling is rate limited: once a refresh has stamped the status with the
   time it was fetched, a second event less than `AccountingRate` seconds
   later keeps that status whatever a new request would have returned.
   */
  lemma PollRateLimited(s: Stats, a: BandwidthSample, b: BandwidthSample, now1: real, now2: real,
                        fetched1: AccountingStats, fetched2: Option<AccountingStats>)
    requires s.accounting.Some? && now1 - s.accounting.value.retrieved >= AccountingRate
    requires fetched1.retrieved == now1 && now1 <= now2 < now1 + AccountingRate
    ensures BandwidthEvent(s, a, true, now1, Some(fetched1)).stats.accounting == Some(fetched1)
    ensures
      var first := BandwidthEvent(s, a, true, now1, Some(fetched1)).stats;
      BandwidthEvent(first, b, true, now2, fetched2).stats.accounting == Some(fetched1)
  {
  }

  /** A 5120 / 3072 byte event is handed on as 5.0 / 3.0 KB. */
  lemma ScalingExample(s: Stats, redrawTick: bool, now: real, fetched: Option<AccountingStats>)
    ensures BandwidthEvent(s, BandwidthSample(1024 * 5, 1024 * 3), redrawTick, now, fetched).primaryKB == 5.0
    ensures BandwidthEvent(s, BandwidthSample(1024 * 5, 1024 * 3), redrawTick, now, fetched).secondaryKB == 3.0
  {
  }

  /** The accounting status after a lifecycle event, and whether the screen must be redrawn. */
  datatype Toggle = Toggle(accounting: Option<AccountingStats>, redrawScreen: bool)

  /** tor's answer to `GETINFO accounting/enabled` means enabled exactly when it is "1". */
  predicate AccountingEnabled(reply: Option<string>)
    ensures AccountingEnabled(reply) ==> reply.Some? && |reply.value| == 1
    ensures reply.None? || reply == Some("0") || reply == Some("") ==> !AccountingEnabled(reply)
  {
    reply == Some("1")
  }

  /**
   The accounting part of `reset_listener`: on INIT or RESET, with accounting
   shown, a status whose presence disagrees with tor's answer is replaced by a
   fresh request (`fetched`) and the screen redrawn. Nothing happens otherwise.
   */
  function ToggleAccounting(cfg: Config, current: Option<AccountingStats>, event: EventType,
                            enabledReply: Option<string>, fetched: Option<AccountingStats>): (r: Toggle)
    ensures r.redrawScreen <==>
      (event == Init || event == Reset) && cfg.showAccounting && AccountingEnabled(enabledReply) != current.Some?
    ensures r.redrawScreen ==> r.accounting == fetched
    ensures !r.redrawScreen ==> r.accounting == current
  {
    if (event == Init || event == Reset) && cfg.showAccounting && AccountingEnabled(enabledReply) != current.Some? then
      Toggle(fetched, true)
    else
      Toggle(current, false)
  }

  /** `get_content_height`: three more rows than the base graph exactly when accounting is present. */
  function ContentHeight(baseHeight: int, accounting: Option<AccountingStats>): (h: int)
    ensures h == baseHeight + AccountingHeight <==> accounting.Some?
    ensures h == baseHeight <==> accounting.None?
  {
    if accounting.Some? then baseHeight + AccountingHeight else baseHeight
  }

  /**
   When tor's accounting request succeeds exactly when accounting is enabled,
   one INIT/RESET event brings the status in line with tor's answer (and the
   panel height with it), and a repeated event with the same answer changes
   nothing.
   */
  lemma ToggleSettles(cfg: Config, current: Option<AccountingStats>, event: EventType, event2: EventType,
                      enabledReply: Option<string>, fetched: Option<AccountingStats>, fetched2: Option<AccountingStats>,
                      baseHeight: int)
    requires event == Init || event == Reset
    requires cfg.showAccounting
    requires fetched.Some? <==> AccountingEnabled(enabledReply)
    ensures ToggleAccounting(cfg, current, event, enabledReply, fetched).accounting.Some? <==> AccountingEnabled(enabledReply)
    ensures ContentHeight(baseHeight, ToggleAccounting(cfg, current, event, enabledReply, fetched).accounting)
      == if AccountingEnabled(enabledReply) then baseHeight + AccountingHeight else baseHeight
    ensures
      var after := ToggleAccounting(cfg, current, event, enabledReply, fetched).accounting;
      ToggleAccounting(cfg, after, event2, enabledReply, fetched2) == Toggle(after, false)
  {
  }

  /** Turning accounting off clears the status only through the request failing; a stale status is then gone. */
  lemma DisableClears(cfg: Config, a: AccountingStats, event: EventType, enabledReply: Option<string>)
    requires event == Init || event == Reset
    requires cfg.showAccounting && !AccountingEnabled(enabledReply)
    ensures ToggleAccounting(cfg, Some(a), event, enabledReply, None) == Toggle(None, true)
  {
  }
}
