/**
 * The read-only figures the dashboard derives from `sessionData`: the metric
 * cards, the dwell-time bars, the revisit table and the help-impact panel.
 *
 * `Math.round(p / q)` is modelled by `Rounding.RoundDiv`. Bar widths, which the
 * page shows unrounded, are exact reals in place of doubles; seconds and average
 * dwell times are exact reals too, before the page's `toFixed(1)`.
 */
module Dashboard {
  import opened AnalyticsState
  import opened Rounding
  import opened Aggregation

  // ---------------------------------------------------------------- metric cards

  /** Sum of the session durations (`sessions.reduce((sum, s) => sum + s.duration, 0)`). */
  function TotalDuration(sessions: seq<SessionRecord>): int
    decreases |sessions|
  {
    if sessions == [] then 0 else TotalDuration(sessions[..|sessions| - 1]) + sessions[|sessions| - 1].duration
  }

  /** The "average time" card: None is the `'--'` placeholder shown when there are no sessions. */
  function AverageTime(d: SessionData): (r: Option<int>)
    ensures r.None? <==> d.sessions == []
    ensures r.Some? ==>
      var n := |d.sessions|;
      n * (2 * r.value - 1) <= 2 * TotalDuration(d.sessions) < n * (2 * r.value + 1)
  {
    if |d.sessions| > 0 then Some(RoundDiv(TotalDuration(d.sessions), |d.sessions|)) else None
  }

  /** If every duration lies in `[lo, hi]`, so does their sum divided by their number. */
  lemma {:induction false} TotalDurationBounds(sessions: seq<SessionRecord>, lo: int, hi: int)
    requires forall i | 0 <= i < |sessions| :: lo <= sessions[i].duration <= hi
    ensures |sessions| * lo <= TotalDuration(sessions) <= |sessions| * hi
    decreases |sessions|
  {
    if sessions != [] {
      var init := sessions[..|sessions| - 1];
      TotalDurationBounds(init, lo, hi);
      assert |sessions| * lo == |init| * lo + lo;
      assert |sessions| * hi == |init| * hi + hi;
    }
  }

  /** The average time lies between the shortest and the longest session. */
  lemma AverageTimeWithinDurations(d: SessionData, lo: int, hi: int)
    requires d.sessions != []
    requires forall i | 0 <= i < |d.sessions| :: lo <= d.sessions[i].duration <= hi
    ensures lo <= AverageTime(d).value <= hi
  {
    TotalDurationBounds(d.sessions, lo, hi);
    RoundDivBounds(TotalDuration(d.sessions), |d.sessions|, lo, hi);
  }

  /** The conversion-rate card, a whole percentage; 0 when there are no sessions. */
  function ConversionRate(d: SessionData): (r: int)
    ensures d.sessions == [] ==> r == 0
    ensures d.sessions != [] ==>
      var n := |d.sessions|;
      n * (2 * r - 1) <= 200 * d.conversionCount < n * (2 * r + 1)
  {
    if |d.sessions| > 0 then RoundDiv(100 * d.conversionCount, |d.sessions|) else 0
  }

  /** With no more conversions than sessions, the conversion rate is a percentage in [0, 100]. */
  lemma ConversionRateInRange(d: SessionData)
    requires ConversionBounded(d)
    ensures 0 <= ConversionRate(d) <= 100
    ensures d.sessions != [] && d.conversionCount == |d.sessions| ==> ConversionRate(d) == 100
  {
    if d.sessions != [] {
      var n := |d.sessions|;
      MulMonotone(100, d.conversionCount, n);
      RoundDivBounds(100 * d.conversionCount, n, 0, 100);
      if d.conversionCount == n {
        RoundDivBounds(100 * d.conversionCount, n, 100, 100);
      }
    }
  }

  // ---------------------------------------------------------------- dwell-time chart

  function Max(a: int, b: int): int {
    if a < b then b else a
  }

  /** The largest section dwell, or 1 when that largest value is 0 (`Math.max(...) || 1`). */
  function MaxDwell(m: map<string, SectionMetric>): (r: int)
    requires KnownSections(m)
    ensures r != 0
    ensures forall k | k in m :: m[k].totalDwell <= r
    ensures (forall k | k in m :: m[k].totalDwell < 0) ==> r < 0
    ensures (exists i | 0 <= i < |SectionKeys| :: m[SectionKeys[i]].totalDwell == r)
            || (r == 1 && forall k | k in m :: m[k].totalDwell <= 0)
  {
    var a, b, c, e := m[Items].totalDwell, m[Summary].totalDwell,
                      m[PaymentMethods].totalDwell, m[CheckoutDetails].totalDwell;
    var top := Max(Max(a, b), Max(c, e));
    assert top == m[SectionKeys[0]].totalDwell || top == m[SectionKeys[1]].totalDwell
        || top == m[SectionKeys[2]].totalDwell || top == m[SectionKeys[3]].totalDwell;
    if top == 0 then 1 else top
  }

  /** One bar of the dwell chart: its width in percent and the dwell in seconds. */
  datatype DwellBar = DwellBar(widthPercent: real, seconds: real)

  /** `part` as a percentage of `whole`, unrounded (`(part / whole) * 100`). */
  function PercentOf(part: int, whole: int): (r: real)
    requires whole != 0
    ensures r * whole as real == 100.0 * part as real
  {
    var q := part as real / whole as real;
    assert q * whole as real == part as real;
    q * 100.0
  }

  /** A bar is as wide as its dwell is a percentage of the longest dwell, and shows the dwell in seconds. */
  function Bar(dwell: int, maxDwell: int): (b: DwellBar)
    requires maxDwell != 0
    ensures b.widthPercent == PercentOf(dwell, maxDwell)
    ensures b.seconds * 1000.0 == dwell as real
  {
    DwellBar(PercentOf(dwell, maxDwell), dwell as real / 1000.0)
  }

  /** The four bars, in the order of `SectionKeys`. */
  function DwellChart(m: map<string, SectionMetric>): (bars: seq<DwellBar>)
    requires KnownSections(m)
    ensures |bars| == |SectionKeys|
    ensures forall i | 0 <= i < |bars| ::
      && bars[i].widthPercent == PercentOf(m[SectionKeys[i]].totalDwell, MaxDwell(m))
      && bars[i].seconds * 1000.0 == m[SectionKeys[i]].totalDwell as real
  {
    var top := MaxDwell(m);
    seq(|SectionKeys|, i requires 0 <= i < |SectionKeys| => Bar(m[SectionKeys[i]].totalDwell, top))
  }

  /** A part between 0 and the whole is between 0% and 100% of it, and the whole is exactly 100%. */
  lemma PercentOfMax(part: int, whole: int)
    requires 0 <= part <= whole && whole >= 1
    ensures 0.0 <= PercentOf(part, whole) <= 100.0
    ensures part == whole ==> PercentOf(part, whole) == 100.0
  {
    var q := part as real / whole as real;
    assert q * whole as real == part as real;
    assert PercentOf(part, whole) == q * 100.0;
  }

  /**
   * With non-negative dwell times every bar is between 0% and 100% wide, and
   * when some section has dwell time the longest one fills its bar.
   */
  lemma DwellChartInRange(m: map<string, SectionMetric>)
    requires KnownSections(m)
    requires forall k | k in m :: m[k].totalDwell >= 0
    ensures var bars := DwellChart(m);
      && (forall i | 0 <= i < |bars| :: 0.0 <= bars[i].widthPercent <= 100.0)
      && ((exists k | k in m :: m[k].totalDwell != 0) ==> exists i | 0 <= i < |bars| :: bars[i].widthPercent == 100.0)
  {
    var bars, top := DwellChart(m), MaxDwell(m);
    forall i | 0 <= i < |bars| ensures 0.0 <= bars[i].widthPercent <= 100.0 {
      PercentOfMax(m[SectionKeys[i]].totalDwell, top);
    }
    if exists k | k in m :: m[k].totalDwell != 0 {
      var i :| 0 <= i < |SectionKeys| && m[SectionKeys[i]].totalDwell == top;
      PercentOfMax(m[SectionKeys[i]].totalDwell, top);
      assert bars[i].widthPercent == 100.0;
    }
  }

  // ---------------------------------------------------------------- revisit table

  /** Average dwell per visit in seconds, or None for the `'--'` shown when a section has no visits. */
  function AverageDwellSeconds(m: SectionMetric): (r: Option<real>)
    ensures r.None? <==> m.visits == 0
    ensures r.Some? ==> r.value * 1000.0 * m.visits as real == m.totalDwell as real
  {
    if m.visits > 0 then Some(m.totalDwell as real / m.visits as real / 1000.0) else None
  }

  /** One row of the revisit table. */
  datatype RevisitRow = RevisitRow(visits: nat, averageDwell: Option<real>, confusion: nat, helpShown: bool)

  /** The four rows, in the order of `SectionKeys`. */
  function RevisitTable(m: map<string, SectionMetric>): (rows: seq<RevisitRow>)
    requires KnownSections(m)
    ensures |rows| == |SectionKeys|
    ensures forall i | 0 <= i < |rows| ::
      var s := m[SectionKeys[i]];
      && rows[i].visits == s.visits && rows[i].confusion == s.confusionCount
      && rows[i].averageDwell == AverageDwellSeconds(s)
      && (rows[i].averageDwell.None? <==> s.visits == 0)
      && (rows[i].helpShown <==> s.helpTriggered > 0)
  {
    seq(|SectionKeys|, i requires 0 <= i < |SectionKeys| =>
      var s := m[SectionKeys[i]];
      RevisitRow(s.visits, AverageDwellSeconds(s), s.confusionCount, s.helpTriggered > 0))
  }

  // ---------------------------------------------------------------- help impact

  /** The verdict line under the improvement bar. */
  datatype ImpactMessage = SignificantlyImproved | ProvidedAssistance | NoHelpYet

  datatype HelpImpact = HelpImpact(
    improvement: int,
    beforeHelpUsers: nat,
    beforeHelpConfusion: nat,
    afterHelpUsers: nat,
    afterHelpConfusion: int,
    barWidth: int,
    message: ImpactMessage)

  /**
   * The heuristic improvement percentage: help shown per confusion event
   * (a confusion total of 0 counting as 1), rounded; 0 when no help was shown.
   */
  function Improvement(totalHelp: nat, totalConfusion: nat): (r: int)
    ensures r >= 0
    ensures totalHelp == 0 ==> r == 0
    ensures totalHelp > 0 ==>
      var c := if totalConfusion == 0 then 1 else totalConfusion;
      c * (2 * r - 1) <= 200 * totalHelp < c * (2 * r + 1)
  {
    if totalHelp > 0 then
      var c := if totalConfusion == 0 then 1 else totalConfusion;
      RoundDivBounds(100 * totalHelp, c, 0, 100 * totalHelp);
      RoundDiv(100 * totalHelp, c)
    else 0
  }

  /**
   * The "after help" confusion figure: the confusion total less the assumed 30%
   * reduction, `max(0, n - round(0.3 * n))`. The `max` never applies.
   */
  function AfterHelpConfusion(totalConfusion: nat): (r: int)
    ensures 0 <= r <= totalConfusion
    ensures r == totalConfusion - RoundDiv(3 * totalConfusion, 10)
  {
    var reduction := RoundDiv(3 * totalConfusion, 10);
    RoundDivBounds(3 * totalConfusion, 10, 0, totalConfusion);
    Max(0, totalConfusion - reduction)
  }

  /** The number of sections with at least one confusion event. */
  function SectionsWithConfusion(m: map<string, SectionMetric>): (r: nat)
    requires KnownSections(m)
    ensures r <= |SectionKeys|
    ensures r == 0 <==> ConfusionSum(m) == 0
    ensures r == |SectionKeys| <==> forall k | k in m :: m[k].confusionCount > 0
    ensures r == |ConfusedSections(m)|
  {
    ConfusedSectionsCount(m);
    (if m[Items].confusionCount > 0 then 1 else 0)
    + (if m[Summary].confusionCount > 0 then 1 else 0)
    + (if m[PaymentMethods].confusionCount > 0 then 1 else 0)
    + (if m[CheckoutDetails].confusionCount > 0 then 1 else 0)
  }

  /** The positions in `SectionKeys` of the sections with at least one confusion event. */
  ghost function ConfusedSections(m: map<string, SectionMetric>): set<nat>
    requires KnownSections(m)
  {
    set i: nat | i < |SectionKeys| && m[SectionKeys[i]].confusionCount > 0
  }

  /** The positions among four whose flag is set. */
  function Flagged(b0: bool, b1: bool, b2: bool, b3: bool): set<nat> {
    (if b0 then {0} else {}) + (if b1 then {1} else {}) + (if b2 then {2} else {}) + (if b3 then {3} else {})
  }

  /** Four distinct positions: the flagged ones are as many as the flags set. */
  lemma FlaggedCount(b0: bool, b1: bool, b2: bool, b3: bool)
    ensures |Flagged(b0, b1, b2, b3)| ==
      (if b0 then 1 else 0) + (if b1 then 1 else 0) + (if b2 then 1 else 0) + (if b3 then 1 else 0)
  {
    var s0: set<nat> := if b0 then {0} else {};
    var s1: set<nat> := if b1 then {1} else {};
    var s2: set<nat> := if b2 then {2} else {};
    var s3: set<nat> := if b3 then {3} else {};
    assert |s0 + s1| == |s0| + |s1| by { assert s0 * s1 == {}; }
    assert |s0 + s1 + s2| == |s0 + s1| + |s2| by { assert (s0 + s1) * s2 == {}; }
    assert |s0 + s1 + s2 + s3| == |s0 + s1 + s2| + |s3| by { assert (s0 + s1 + s2) * s3 == {}; }
  }

  /** The confused sections are counted one by one, section by section. */
  lemma ConfusedSectionsCount(m: map<string, SectionMetric>)
    requires KnownSections(m)
    ensures |ConfusedSections(m)| ==
      (if m[Items].confusionCount > 0 then 1 else 0)
      + (if m[Summary].confusionCount > 0 then 1 else 0)
      + (if m[PaymentMethods].confusionCount > 0 then 1 else 0)
      + (if m[CheckoutDetails].confusionCount > 0 then 1 else 0)
  {
    ConfusedSectionsFlagged(m);
    FlaggedCount(m[Items].confusionCount > 0, m[Summary].confusionCount > 0,
                 m[PaymentMethods].confusionCount > 0, m[CheckoutDetails].confusionCount > 0);
  }

  /** The confused sections are the positions flagged by each section's confusion count. */
  lemma ConfusedSectionsFlagged(m: map<string, SectionMetric>)
    requires KnownSections(m)
    ensures ConfusedSections(m) == Flagged(m[Items].confusionCount > 0, m[Summary].confusionCount > 0,
                                           m[PaymentMethods].confusionCount > 0, m[CheckoutDetails].confusionCount > 0)
  {
    var f := Flagged(m[Items].confusionCount > 0, m[Summary].confusionCount > 0,
                     m[PaymentMethods].confusionCount > 0, m[CheckoutDetails].confusionCount > 0);
    forall i: nat ensures i in ConfusedSections(m) <==> i in f {
      if i < |SectionKeys| {
        assert i == 0 || i == 1 || i == 2 || i == 3;
      }
    }
  }

  function MessageFor(improvement: int): ImpactMessage {
    if improvement > 50 then SignificantlyImproved
    else if improvement > 0 then ProvidedAssistance
    else NoHelpYet
  }

  /** The help-impact panel. */
  function HelpImpactView(d: SessionData): (v: HelpImpact)
    requires KnownSections(d.sectionMetrics)
    ensures v.beforeHelpConfusion == ConfusionSum(d.sectionMetrics)
    ensures v.afterHelpUsers == d.totalHelpTriggered
    ensures v.beforeHelpUsers <= |SectionKeys|
    ensures 0 <= v.afterHelpConfusion <= v.beforeHelpConfusion
    ensures v.improvement == Improvement(d.totalHelpTriggered, ConfusionSum(d.sectionMetrics))
    ensures v.message == MessageFor(v.improvement)
    ensures v.beforeHelpUsers == SectionsWithConfusion(d.sectionMetrics)
    ensures v.afterHelpConfusion == AfterHelpConfusion(v.beforeHelpConfusion)
    ensures 0 <= v.barWidth <= 100 && (v.improvement <= 100 ==> v.barWidth == v.improvement)
    ensures v.improvement >= 100 ==> v.barWidth == 100
    ensures d.totalHelpTriggered == 0 ==> v.improvement == 0 && v.barWidth == 0 && v.message == NoHelpYet
  {
    var totalConfusion := ConfusionSum(d.sectionMetrics);
    var improvement := Improvement(d.totalHelpTriggered, totalConfusion);
    HelpImpact(
      improvement,
      SectionsWithConfusion(d.sectionMetrics),
      totalConfusion,
      d.totalHelpTriggered,
      AfterHelpConfusion(totalConfusion),
      if improvement < 100 then improvement else 100,
      MessageFor(improvement))
  }

  /**
   * The verdict says no help was recorded exactly when no help was shown or when
   * help is so rare (under 1 per 200 confusion events) that the improvement rounds to 0;
   * it reports a significant improvement exactly when the ratio reaches 50.5%.
   */
  lemma ImpactMessageCases(h: nat, tc: nat)
    ensures var c := if tc == 0 then 1 else tc;
      && (MessageFor(Improvement(h, tc)) == NoHelpYet <==> h == 0 || 200 * h < c)
      && (MessageFor(Improvement(h, tc)) == SignificantlyImproved <==> h > 0 && 200 * h >= 101 * c)
  {
    var c := if tc == 0 then 1 else tc;
    if h > 0 {
      var r := Improvement(h, tc);
      if 200 * h < c {
        RoundDivUnique(100 * h, c, 0);
      } else if r <= 0 {
        MulMonotone(c, 2 * r + 1, 1);
      }
      if 200 * h >= 101 * c {
        if r <= 50 {
          MulMonotone(c, 2 * r + 1, 101);
        }
      } else if r > 50 {
        MulMonotone(c, 101, 2 * r - 1);
      }
    }
  }

  /**
   * The panel's "before help" confusion figure equals the global confusion
   * card exactly when the global total matches the section sum, which an event
   * for an unknown section breaks.
   */
  lemma ImpactConfusionMatchesCard(d: SessionData)
    requires Consistent(d)
    ensures HelpImpactView(d).beforeHelpConfusion == d.totalConfusionEvents
  {
  }

  // ---------------------------------------------------------------- fixed states

  /** The empty default shows the placeholders and zeros, and the "no help yet" verdict. */
  lemma EmptyDashboardCards()
    ensures var d := DefaultSessionData();
      && AverageTime(d) == None && ConversionRate(d) == 0
      && HelpImpactView(d) == HelpImpact(0, 0, 0, 0, 0, 0, NoHelpYet)
  {
    var m := DefaultSessionData().sectionMetrics;
    assert ConfusionSum(m) == 0 && SectionsWithConfusion(m) == 0;
    assert AfterHelpConfusion(0) == 0;
  }

  /** The empty default shows empty bars and `'--'` for every average dwell. */
  lemma EmptyDashboardSections()
    ensures var m := DefaultSessionData().sectionMetrics;
      && (forall i | 0 <= i < |SectionKeys| :: DwellChart(m)[i].widthPercent == 0.0)
      && (forall i | 0 <= i < |SectionKeys| :: RevisitTable(m)[i].averageDwell == None)
  {
    var m := DefaultSessionData().sectionMetrics;
    assert MaxDwell(m) == 1;
    forall i | 0 <= i < |SectionKeys| ensures DwellChart(m)[i].widthPercent == 0.0 {
      assert m[SectionKeys[i]] == ZeroMetric;
    }
  }

  /** The figures the demonstration data produces. */
  lemma SampleDashboard()
    ensures var d := SampleSessionData();
      && AverageTime(d) == Some(45) && ConversionRate(d) == 100
      && HelpImpactView(d) == HelpImpact(67, 3, 6, 4, 4, 67, SignificantlyImproved)
      && DwellChart(d.sectionMetrics)[3].widthPercent == 100.0
  {
    var d := SampleSessionData();
    var ss := d.sessions;
    assert TotalDuration(ss[..1]) == 45 by { assert ss[..1][..0] == []; }
    assert TotalDuration(ss[..2]) == 97 by { assert ss[..2][..1] == ss[..1]; }
    assert TotalDuration(ss) == 135 by { assert ss[..2] == ss[..|ss| - 1]; }
    assert RoundDiv(135, 3) == 45 by { RoundDivUnique(135, 3, 45); }
    assert RoundDiv(300, 3) == 100 by { RoundDivUnique(300, 3, 100); }
    assert RoundDiv(400, 6) == 67 by { RoundDivUnique(400, 6, 67); }
    assert RoundDiv(18, 10) == 2 by { RoundDivUnique(18, 10, 2); }
  }

  /** Three completed sessions, two of them converted, from the empty state: a 67% conversion rate. */
  lemma TwoOfThreeConverted(t1: int, t2: int, t3: int, id: int, stamp: string)
    ensures var d0 := DefaultSessionData();
      var d1 := SessionCompleted(d0, t1, true, id, stamp);
      var d2 := SessionCompleted(d1, t2, true, id, stamp);
      var d3 := SessionCompleted(d2, t3, false, id, stamp);
      && |d3.sessions| == 3 && d3.conversionCount == 2 && ConversionRate(d3) == 67
  {
    RoundDivUnique(200, 3, 67);
  }
}
