/**
 * The aggregate record `sessionData` kept by the analytics page, its
 * invariants, the empty default it starts from and the demonstration data it
 * can be seeded with.
 */
module AnalyticsState {

  datatype Option<+T> = None | Some(value: T)

  /** The counters kept for one checkout section. */
  datatype SectionMetric = SectionMetric(visits: nat, totalDwell: int, confusionCount: nat, helpTriggered: nat)

  /**
   * One completed session. `confusionEvents` and `helpTriggered` are copies of
   * the global totals at the moment the session completed, not per-session counts.
   */
  datatype SessionRecord = SessionRecord(
    id: int,
    duration: int,
    confusionEvents: nat,
    helpTriggered: nat,
    completed: bool,
    timestamp: string)

  datatype SessionData = SessionData(
    sessions: seq<SessionRecord>,
    totalConfusionEvents: nat,
    totalHelpTriggered: nat,
    conversionCount: nat,
    sectionMetrics: map<string, SectionMetric>)

  /** A recorded gaze sample; it only feeds the heatmap. */
  datatype GazePoint = GazePoint(x: real, y: real, timestamp: int)

  const Items: string := "items"
  const Summary: string := "summary"
  const PaymentMethods: string := "paymentMethods"
  const CheckoutDetails: string := "checkoutDetails"

  /** The tracked sections, in the order the dashboard lists them. */
  const SectionKeys: seq<string> := [Items, Summary, PaymentMethods, CheckoutDetails]

  const ZeroMetric: SectionMetric := SectionMetric(0, 0, 0, 0)

  /** The section map has exactly the four tracked sections as keys. */
  predicate KnownSections(m: map<string, SectionMetric>) {
    m.Keys == {Items, Summary, PaymentMethods, CheckoutDetails}
  }

  /** Sum of the per-section confusion counts (`Object.values(...).reduce`). */
  function ConfusionSum(m: map<string, SectionMetric>): nat
    requires KnownSections(m)
  {
    m[Items].confusionCount + m[Summary].confusionCount
    + m[PaymentMethods].confusionCount + m[CheckoutDetails].confusionCount
  }

  /** Sum of the per-section help counts. */
  function HelpSum(m: map<string, SectionMetric>): nat
    requires KnownSections(m)
  {
    m[Items].helpTriggered + m[Summary].helpTriggered
    + m[PaymentMethods].helpTriggered + m[CheckoutDetails].helpTriggered
  }

  /** The global confusion and help totals equal the sums over the sections. */
  predicate TotalsMatch(d: SessionData)
    requires KnownSections(d.sectionMetrics)
  {
    && d.totalConfusionEvents == ConfusionSum(d.sectionMetrics)
    && d.totalHelpTriggered == HelpSum(d.sectionMetrics)
  }

  /** No more conversions than sessions. */
  predicate ConversionBounded(d: SessionData) {
    d.conversionCount <= |d.sessions|
  }

  /** The invariants the aggregate is designed to keep. */
  predicate Consistent(d: SessionData) {
    && KnownSections(d.sectionMetrics)
    && TotalsMatch(d)
    && ConversionBounded(d)
  }

  /** The state `loadSessionData` builds when nothing is stored. */
  function DefaultSessionData(): (d: SessionData)
    ensures Consistent(d)
    ensures d.sessions == [] && d.totalConfusionEvents == 0 && d.totalHelpTriggered == 0
    ensures forall k | k in d.sectionMetrics :: d.sectionMetrics[k] == ZeroMetric
  {
    SessionData([], 0, 0, 0,
      map[Items := ZeroMetric, Summary := ZeroMetric,
          PaymentMethods := ZeroMetric, CheckoutDetails := ZeroMetric])
  }

  /** The fixed demonstration state `loadSampleData` installs. */
  function SampleSessionData(): (d: SessionData)
    ensures Consistent(d)
    ensures |d.sessions| == 3 && d.conversionCount == |d.sessions|
  {
    SessionData(
      [ SessionRecord(1, 45, 2, 1, true, "Today 10:30 AM"),
        SessionRecord(2, 52, 3, 2, true, "Today 10:45 AM"),
        SessionRecord(3, 38, 1, 1, true, "Today 11:00 AM") ],
      6, 4, 3,
      map[Items := SectionMetric(3, 12000, 0, 0),
          Summary := SectionMetric(3, 8000, 1, 1),
          PaymentMethods := SectionMetric(3, 15000, 2, 1),
          CheckoutDetails := SectionMetric(3, 25000, 3, 2)])
  }

  /**
   * What the browser store holds for the aggregate, after `JSON.parse`:
   * nothing (a missing or empty entry), a parsed record, or text that does not parse.
   */
  datatype StoredSnapshot = Absent | Parsed(data: SessionData) | Unparsable

  /**
   * `loadSessionData`: the stored record if there is one, otherwise the empty
   * default. Text that does not parse makes `JSON.parse` throw; there is no
   * fallback, so the result is None.
   */
  function LoadSessionData(stored: StoredSnapshot): (r: Option<SessionData>)
    ensures r.None? <==> stored.Unparsable?
    ensures stored.Absent? ==> r == Some(DefaultSessionData())
    ensures stored.Absent? ==> r.Some? && Consistent(r.value) && r.value.sessions == []
    ensures stored.Parsed? ==> r == Some(stored.data)
  {
    match stored
    case Absent => Some(DefaultSessionData())
    case Parsed(data) => Some(data)
    case Unparsable => None
  }
}
