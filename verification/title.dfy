/**
 The bandwidth panel's title: the labels refreshed on new descriptors
 (`new_desc_event`) and the title line built from them (`get_title`).
 Formatting a byte count (`_size_label`) and fitting labels into a width
 (`str_tools.join`) are passed in as functions the model knows nothing about.
 */
module TitleLabels {
  import opened Types

  /**
   What tor's controller answers when the labels are refreshed: whether it is
   alive, our relay's fingerprint, the effective rate and burst, the measured
   bandwidth of our router status entry and the observed bandwidth of our
   server descriptor. Absent stands for a failed request or a missing attribute.
   */
  datatype ControllerView = ControllerView(
    alive: bool,
    fingerprint: Option<string>,
    rate: Option<int>,
    burst: Option<int>,
    measured: Option<int>,
    observed: Option<int>)

  /** A NEWDESC event: the fingerprints of the relays whose descriptors changed. */
  datatype DescEvent = DescEvent(relays: seq<string>)

  const LimitTag: string := "limit: "
  const BurstTag: string := "burst: "
  const MeasuredTag: string := "measured: "
  const ObservedTag: string := "observed: "

  predicate StartsWith(s: string, prefix: string)
  {
    |prefix| <= |s| && s[..|prefix|] == prefix
  }

  /** Some label in `labels` carries the tag. */
  predicate HasEntry(labels: seq<string>, tag: string)
  {
    exists i :: 0 <= i < |labels| && StartsWith(labels[i], tag)
  }

  /** Python's `'.0' in s`. */
  predicate HasDotZero(s: string)
    ensures HasDotZero(s) ==> 2 <= |s| && '.' in s && '0' in s
  {
    exists i :: 0 <= i < |s| - 1 && s[i] == '.' && s[i + 1] == '0'
  }

  /** Python's `s.split('.', 1)[0]`: everything before the first '.'. */
  function BeforeFirstDot(s: string): (r: string)
    ensures '.' !in r
    ensures StartsWith(s, r)
    ensures |r| < |s| <==> '.' in s
    ensures |r| < |s| ==> s[|r|] == '.'
  {
    if |s| == 0 then ""
    else if s[0] == '.' then ""
    else [s[0]] + BeforeFirstDot(s[1..])
  }

  /**
   The rate and burst labels as the title shows them: both lose their
   decimals, cut at the first '.', exactly when both contain ".0"; otherwise
   both stay as formatted.
   */
  function RateLabels(rateLabel: string, burstLabel: string): (r: (string, string))
    ensures r.0 != rateLabel <==> HasDotZero(rateLabel) && HasDotZero(burstLabel)
    ensures r.1 != burstLabel <==> HasDotZero(rateLabel) && HasDotZero(burstLabel)
    ensures StartsWith(rateLabel, r.0) && StartsWith(burstLabel, r.1)
    ensures r.0 != rateLabel ==> '.' !in r.0 && rateLabel[|r.0|] == '.'
    ensures r.1 != burstLabel ==> '.' !in r.1 && burstLabel[|r.1|] == '.'
  {
    if HasDotZero(rateLabel) && HasDotZero(burstLabel) then
      assert '.' in rateLabel && '.' in burstLabel;
      (BeforeFirstDot(rateLabel), BeforeFirstDot(burstLabel))
    else
      (rateLabel, burstLabel)
  }

  /** One title label, `'<tag>%s/s' % text`: the tag, then the text, then "/s". */
  function Entry(tag: string, text: string): (e: string)
    requires |tag| > 0
    ensures StartsWith(e, tag) && e[0] == tag[0]
    ensures |e| == |tag| + |text| + 2 && e[|tag|..|e| - 2] == text && e[|e| - 2..] == "/s"
  {
    tag + text + "/s"
  }

  /** A label starts only with tags sharing its first letter. */
  lemma FirstLetter(e: string, tag: string)
    requires 0 < |tag| && StartsWith(e, tag)
    ensures e[0] == tag[0]
  {
  }

  lemma HasEntryAppend(a: seq<string>, b: seq<string>, tag: string)
    ensures HasEntry(a + b, tag) <==> HasEntry(a, tag) || HasEntry(b, tag)
  {
    if HasEntry(a + b, tag) {
      var i :| 0 <= i < |a + b| && StartsWith((a + b)[i], tag);
      if i >= |a| {
        assert b[i - |a|] == (a + b)[i];
      }
    }
    if HasEntry(a, tag) {
      var i :| 0 <= i < |a| && StartsWith(a[i], tag);
      assert (a + b)[i] == a[i];
    }
    if HasEntry(b, tag) {
      var i :| 0 <= i < |b| && StartsWith(b[i], tag);
      assert (a + b)[|a| + i] == b[i];
    }
  }

  /** The limit and burst labels: both, when tor reports a non-zero rate and burst, or neither. */
  function LimitEntries(ctl: ControllerView, sizeLabel: int -> string): (r: seq<string>)
    ensures HasEntry(r, LimitTag) <==> Truthy(ctl.rate) && Truthy(ctl.burst)
    ensures HasEntry(r, BurstTag) <==> Truthy(ctl.rate) && Truthy(ctl.burst)
    ensures !HasEntry(r, MeasuredTag) && !HasEntry(r, ObservedTag)
    ensures |r| == if Truthy(ctl.rate) && Truthy(ctl.burst) then 2 else 0
    ensures Truthy(ctl.rate) && Truthy(ctl.burst) ==>
      var labels := RateLabels(sizeLabel(ctl.rate.value), sizeLabel(ctl.burst.value));
      r[0] == Entry(LimitTag, labels.0) && r[1] == Entry(BurstTag, labels.1)
  {
    if Truthy(ctl.rate) && Truthy(ctl.burst) then
      var labels := RateLabels(sizeLabel(ctl.rate.value), sizeLabel(ctl.burst.value));
      var r := [Entry(LimitTag, labels.0), Entry(BurstTag, labels.1)];
      assert StartsWith(r[0], LimitTag) && StartsWith(r[1], BurstTag);
      assert !HasEntry(r, LimitTag) ==> false;
      assert forall i :: 0 <= i < 2 && StartsWith(r[i], MeasuredTag) ==> false by {
        forall i | 0 <= i < 2 && StartsWith(r[i], MeasuredTag) ensures false {
          FirstLetter(r[i], MeasuredTag);
        }
      }
      assert forall i :: 0 <= i < 2 && StartsWith(r[i], ObservedTag) ==> false by {
        forall i | 0 <= i < 2 && StartsWith(r[i], ObservedTag) ensures false {
          FirstLetter(r[i], ObservedTag);
        }
      }
      r
    else
      []
  }

  /** The bandwidth label: measured when tor has a non-zero one, else observed when non-zero, else none. */
  function BandwidthEntries(ctl: ControllerView, sizeLabel: int -> string): (r: seq<string>)
    ensures HasEntry(r, MeasuredTag) <==> Truthy(ctl.measured)
    ensures HasEntry(r, ObservedTag) <==> !Truthy(ctl.measured) && Truthy(ctl.observed)
    ensures !HasEntry(r, LimitTag) && !HasEntry(r, BurstTag)
    ensures |r| == if Truthy(ctl.measured) || Truthy(ctl.observed) then 1 else 0
    ensures Truthy(ctl.measured) ==> r == [Entry(MeasuredTag, sizeLabel(ctl.measured.value))]
    ensures !Truthy(ctl.measured) && Truthy(ctl.observed) ==> r == [Entry(ObservedTag, sizeLabel(ctl.observed.value))]
  {
    var r :=
      if Truthy(ctl.measured) then [Entry(MeasuredTag, sizeLabel(ctl.measured.value))]
      else if Truthy(ctl.observed) then [Entry(ObservedTag, sizeLabel(ctl.observed.value))]
      else [];
    if |r| == 1 then
      assert StartsWith(r[0], MeasuredTag) || StartsWith(r[0], ObservedTag);
      assert r[0][0] == 'm' || r[0][0] == 'o';
      assert StartsWith(r[0], LimitTag) ==> false by {
        if StartsWith(r[0], LimitTag) { FirstLetter(r[0], LimitTag); }
      }
      assert StartsWith(r[0], BurstTag) ==> false by {
        if StartsWith(r[0], BurstTag) { FirstLetter(r[0], BurstTag); }
      }
      assert StartsWith(r[0], MeasuredTag) <==> Truthy(ctl.measured) by {
        if StartsWith(r[0], MeasuredTag) { FirstLetter(r[0], MeasuredTag); }
      }
      assert StartsWith(r[0], ObservedTag) <==> !Truthy(ctl.measured) by {
        if StartsWith(r[0], ObservedTag) { FirstLetter(r[0], ObservedTag); }
      }
      r
    else
      r
  }

  /**
   The labels `new_desc_event` computes: limit and burst, both or neither,
   then at most one bandwidth label, measured taking precedence over observed.
   */
  function TitleEntries(ctl: ControllerView, sizeLabel: int -> string): (r: seq<string>)
    ensures HasEntry(r, LimitTag) <==> Truthy(ctl.rate) && Truthy(ctl.burst)
    ensures HasEntry(r, BurstTag) <==> Truthy(ctl.rate) && Truthy(ctl.burst)
    ensures HasEntry(r, MeasuredTag) <==> Truthy(ctl.measured)
    ensures HasEntry(r, ObservedTag) <==> !Truthy(ctl.measured) && Truthy(ctl.observed)
    ensures |r| == (if Truthy(ctl.rate) && Truthy(ctl.burst) then 2 else 0)
                 + (if Truthy(ctl.measured) || Truthy(ctl.observed) then 1 else 0)
    ensures r[..|LimitEntries(ctl, sizeLabel)|] == LimitEntries(ctl, sizeLabel)
    ensures r[|LimitEntries(ctl, sizeLabel)|..] == BandwidthEntries(ctl, sizeLabel)
  {
    var limits := LimitEntries(ctl, sizeLabel);
    var bandwidth := BandwidthEntries(ctl, sizeLabel);
    HasEntryAppend(limits, bandwidth, LimitTag);
    HasEntryAppend(limits, bandwidth, BurstTag);
    HasEntryAppend(limits, bandwidth, MeasuredTag);
    HasEntryAppend(limits, bandwidth, ObservedTag);
    assert (limits + bandwidth)[..|limits|] == limits;
    assert (limits + bandwidth)[|limits|..] == bandwidth;
    limits + bandwidth
  }

  /** A descriptor event concerns us when it is the initial refresh or lists our (non-empty) fingerprint. */
  predicate ConcernsUs(fingerprint: Option<string>, event: Option<DescEvent>)
    ensures fingerprint.None? || fingerprint == Some("") ==> (ConcernsUs(fingerprint, event) <==> event.None?)
    ensures ConcernsUs(fingerprint, event) && event.Some? ==> fingerprint.Some? && fingerprint.value in event.value.relays
  {
    event.None? || (fingerprint.Some? && fingerprint.value != "" && fingerprint.value in event.value.relays)
  }

  /**
   `new_desc_event`: with tor down, or for a descriptor that is not ours, the
   old labels are kept; otherwise they are replaced by freshly computed ones.
   */
  function NewDescEvent(title: seq<string>, ctl: ControllerView, event: Option<DescEvent>,
                        sizeLabel: int -> string): (r: seq<string>)
    ensures !ctl.alive ==> r == title
    ensures ctl.alive && ConcernsUs(ctl.fingerprint, event) ==> r == TitleEntries(ctl, sizeLabel)
    ensures !ConcernsUs(ctl.fingerprint, event) ==> r == title
  {
    if !ctl.alive then title
    else if ConcernsUs(ctl.fingerprint, event) then TitleEntries(ctl, sizeLabel)
    else title
  }

  /** Refreshing twice from the same controller answers gives the labels of refreshing once. */
  lemma NewDescEventIdempotent(title: seq<string>, ctl: ControllerView, event: Option<DescEvent>,
                               sizeLabel: int -> string)
    ensures NewDescEvent(NewDescEvent(title, ctl, event, sizeLabel), ctl, event, sizeLabel)
         == NewDescEvent(title, ctl, event, sizeLabel)
  {
  }

  const TitleOpen: string := "Bandwidth ("
  const TitleClose: string := "):"
  const BareTitle: string := "Bandwidth:"

  /**
   `get_title`: the labels joined to fit `width - 13` columns, in parentheses
   after "Bandwidth", or the bare title when nothing fits.
   */
  function GetTitle(titleStats: seq<string>, width: int, join: (seq<string>, string, int) -> string): (r: string)
    ensures r == BareTitle <==> join(titleStats, ", ", width - 13) == ""
    ensures r != BareTitle ==>
      && StartsWith(r, TitleOpen)
      && |r| == |TitleOpen| + |join(titleStats, ", ", width - 13)| + |TitleClose|
      && r[|TitleOpen|..|r| - |TitleClose|] == join(titleStats, ", ", width - 13)
      && r[|r| - |TitleClose|..] == TitleClose
  {
    var joined := join(titleStats, ", ", width - 13);
    if joined != "" then TitleOpen + joined + TitleClose else BareTitle
  }
}
