/**
 * The effect of each recorded event on `sessionData`, the dispatch of stored
 * event entries by their `type` tag, and the replay of a stored batch.
 * These functions specify the methods of `Manager.AnalyticsManager`.
 */
module Aggregation {
  import opened AnalyticsState
  import opened EventLog

  /** `recordDwellTime`: a known section gains one visit and `dwellTime` of dwell; anything else is ignored. */
  function DwellRecorded(d: SessionData, section: string, dwellTime: int): (r: SessionData)
    ensures r.(sectionMetrics := d.sectionMetrics) == d
    ensures r.sectionMetrics.Keys == d.sectionMetrics.Keys
    ensures forall k | k in d.sectionMetrics && k != section :: r.sectionMetrics[k] == d.sectionMetrics[k]
    ensures section in d.sectionMetrics ==>
      var (m, m') := (d.sectionMetrics[section], r.sectionMetrics[section]);
      && m'.visits == m.visits + 1
      && m'.totalDwell == m.totalDwell + dwellTime
      && m'.confusionCount == m.confusionCount
      && m'.helpTriggered == m.helpTriggered
    ensures section !in d.sectionMetrics ==> r == d
  {
    if section in d.sectionMetrics then
      var m := d.sectionMetrics[section];
      var m' := m.(totalDwell := m.totalDwell + dwellTime, visits := m.visits + 1);
      d.(sectionMetrics := d.sectionMetrics[section := m'])
    else
      d
  }

  /**
   * `recordConfusionEvent`: the global confusion total always goes up by one;
   * the section's own count goes up only when the section is known.
   */
  function ConfusionRecorded(d: SessionData, section: string): (r: SessionData)
    ensures r.totalConfusionEvents == d.totalConfusionEvents + 1
    ensures r.(totalConfusionEvents := d.totalConfusionEvents, sectionMetrics := d.sectionMetrics) == d
    ensures r.sectionMetrics.Keys == d.sectionMetrics.Keys
    ensures forall k | k in d.sectionMetrics && k != section :: r.sectionMetrics[k] == d.sectionMetrics[k]
    ensures section in d.sectionMetrics ==>
      var (m, m') := (d.sectionMetrics[section], r.sectionMetrics[section]);
      m'.confusionCount == m.confusionCount + 1 && m'.(confusionCount := m.confusionCount) == m
    ensures section !in d.sectionMetrics ==> r.sectionMetrics == d.sectionMetrics
  {
    var metrics :=
      if section in d.sectionMetrics then
        var m := d.sectionMetrics[section];
        d.sectionMetrics[section := m.(confusionCount := m.confusionCount + 1)]
      else
        d.sectionMetrics;
    d.(totalConfusionEvents := d.totalConfusionEvents + 1, sectionMetrics := metrics)
  }

  /**
   * `recordHelpTriggered`: the global help total always goes up by one;
   * the section's own count goes up only when the section is known.
   */
  function HelpRecorded(d: SessionData, section: string): (r: SessionData)
    ensures r.totalHelpTriggered == d.totalHelpTriggered + 1
    ensures r.(totalHelpTriggered := d.totalHelpTriggered, sectionMetrics := d.sectionMetrics) == d
    ensures r.sectionMetrics.Keys == d.sectionMetrics.Keys
    ensures forall k | k in d.sectionMetrics && k != section :: r.sectionMetrics[k] == d.sectionMetrics[k]
    ensures section in d.sectionMetrics ==>
      var (m, m') := (d.sectionMetrics[section], r.sectionMetrics[section]);
      m'.helpTriggered == m.helpTriggered + 1 && m'.(helpTriggered := m.helpTriggered) == m
    ensures section !in d.sectionMetrics ==> r.sectionMetrics == d.sectionMetrics
  {
    var metrics :=
      if section in d.sectionMetrics then
        var m := d.sectionMetrics[section];
        d.sectionMetrics[section := m.(helpTriggered := m.helpTriggered + 1)]
      else
        d.sectionMetrics;
    d.(totalHelpTriggered := d.totalHelpTriggered + 1, sectionMetrics := metrics)
  }

  /**
   * `recordSessionComplete`: exactly one session is appended, carrying the
   * global totals at call time; conversions go up by one iff the session converted.
   */
  function SessionCompleted(d: SessionData, completionTime: int, conversationCompleted: bool,
                            id: int, timestamp: string): (r: SessionData)
    ensures |r.sessions| == |d.sessions| + 1 && r.sessions[..|d.sessions|] == d.sessions
    ensures var s := r.sessions[|d.sessions|];
      && s.duration == completionTime
      && s.confusionEvents == d.totalConfusionEvents
      && s.helpTriggered == d.totalHelpTriggered
      && s.completed == conversationCompleted
      && s.id == id && s.timestamp == timestamp
    ensures r.conversionCount == d.conversionCount + (if conversationCompleted then 1 else 0)
    ensures r.(sessions := d.sessions, conversionCount := d.conversionCount) == d
  {
    var session := SessionRecord(id, completionTime, d.totalConfusionEvents, d.totalHelpTriggered,
                                 conversationCompleted, timestamp);
    d.(sessions := d.sessions + [session],
       conversionCount := if conversationCompleted then d.conversionCount + 1 else d.conversionCount)
  }

  /** A dwell record keeps every invariant. */
  lemma DwellKeepsConsistent(d: SessionData, section: string, dwellTime: int)
    requires Consistent(d)
    ensures Consistent(DwellRecorded(d, section, dwellTime))
  {
  }

  /**
   * A confusion record keeps the section keys and the conversion bound; from a state
   * whose totals match the section sums, it keeps them matching exactly when it names
   * a known section.
   */
  lemma ConfusionKeepsTotalsIffKnown(d: SessionData, section: string)
    requires KnownSections(d.sectionMetrics) && ConversionBounded(d)
    ensures var r := ConfusionRecorded(d, section);
      && KnownSections(r.sectionMetrics) && ConversionBounded(r)
      && (TotalsMatch(d) ==> (TotalsMatch(r) <==> section in d.sectionMetrics))
  {
  }

  /**
   * A help record keeps the section keys and the conversion bound; from a state
   * whose totals match the section sums, it keeps them matching exactly when it names
   * a known section.
   */
  lemma HelpKeepsTotalsIffKnown(d: SessionData, section: string)
    requires KnownSections(d.sectionMetrics) && ConversionBounded(d)
    ensures var r := HelpRecorded(d, section);
      && KnownSections(r.sectionMetrics) && ConversionBounded(r)
      && (TotalsMatch(d) ==> (TotalsMatch(r) <==> section in d.sectionMetrics))
  {
  }

  /** A completed session keeps every invariant, the conversion bound included. */
  lemma SessionKeepsConsistent(d: SessionData, completionTime: int, conversationCompleted: bool,
                               id: int, timestamp: string)
    requires Consistent(d)
    ensures Consistent(SessionCompleted(d, completionTime, conversationCompleted, id, timestamp))
  {
  }

  // ---------------------------------------------------------------- stored entries

  /** The fields an entry of the stored batch may carry; each kind reads only its own. */
  datatype Payload = Payload(
    section: string,
    dwellTime: int,
    x: real,
    y: real,
    completionTime: Option<int>,
    conversationCompleted: bool)

  /**
   * One element of the stored batch: `Missing` for a falsy element, otherwise
   * its `type` tag (the empty string standing for a missing or empty tag) and fields.
   */
  datatype StoredEntry = Missing | Entry(kind: string, data: Payload)

  /** The tags the dispatch acts on; `dwell` is an alias of `dwellTime`. */
  const KnownKinds: set<string> :=
    {"gazePoint", "dwellTime", "dwell", "confusionEvent", "helpTriggered", "sessionComplete"}

  /** `d.completionTime || 0`. */
  function CompletionTimeOrZero(t: Option<int>): int {
    match t
    case None => 0
    case Some(v) => v
  }

  /** The entry is present and carries the tag `kind`. */
  predicate Tagged(e: StoredEntry, kind: string) {
    e.Entry? && e.kind == kind
  }

  /** The number of entries of `es` tagged `kind`. */
  function TagCount(es: seq<StoredEntry>, kind: string): (n: nat)
    ensures n <= |es|
    decreases |es|
  {
    if es == [] then 0
    else TagCount(es[..|es| - 1], kind) + (if Tagged(es[|es| - 1], kind) then 1 else 0)
  }

  /**
   * The change one stored entry makes to `sessionData`: a confusion or help
   * entry raises its global total by one, a session-complete entry appends one
   * session (and one conversion when the conversation completed), and no
   * entry removes or adds a section or touches an earlier session.
   */
  function Apply(d: SessionData, e: StoredEntry, id: int, timestamp: string): (r: SessionData)
    ensures r.sectionMetrics.Keys == d.sectionMetrics.Keys
    ensures r.totalConfusionEvents == d.totalConfusionEvents + (if Tagged(e, "confusionEvent") then 1 else 0)
    ensures r.totalHelpTriggered == d.totalHelpTriggered + (if Tagged(e, "helpTriggered") then 1 else 0)
    ensures |r.sessions| == |d.sessions| + (if Tagged(e, "sessionComplete") then 1 else 0)
    ensures r.sessions[..|d.sessions|] == d.sessions
    ensures r.conversionCount ==
      d.conversionCount + (if Tagged(e, "sessionComplete") && e.data.conversationCompleted then 1 else 0)
  {
    match e
    case Missing => d
    case Entry(kind, p) =>
      if kind == "dwellTime" || kind == "dwell" then
        DwellRecorded(d, p.section, p.dwellTime)
      else if kind == "confusionEvent" then
        ConfusionRecorded(d, p.section)
      else if kind == "helpTriggered" then
        HelpRecorded(d, p.section)
      else if kind == "sessionComplete" then
        SessionCompleted(d, CompletionTimeOrZero(p.completionTime), p.conversationCompleted, id, timestamp)
      else
        d  // gaze points touch only the gaze list; other tags are ignored
  }

  /** The gaze points one stored entry appends: one, stamped `now`, for a gaze entry, else none. */
  function GazeFrom(e: StoredEntry, now: int): (g: seq<GazePoint>)
    ensures |g| == if Tagged(e, "gazePoint") then 1 else 0
    ensures |g| == 1 ==> g[0] == GazePoint(e.data.x, e.data.y, now)
  {
    if e.Entry? && e.kind == "gazePoint" then [GazePoint(e.data.x, e.data.y, now)] else []
  }

  /**
   * The log entries one stored entry adds: one for a confusion, help or
   * session-complete entry, none otherwise; only confusion is a warning.
   */
  function LogFrom(e: StoredEntry): (l: seq<LogEntry>)
    ensures |l| == if Tagged(e, "confusionEvent") || Tagged(e, "helpTriggered") || Tagged(e, "sessionComplete") then 1 else 0
    ensures |l| == 1 ==> l[0].severity == (if Tagged(e, "confusionEvent") then Warning else Success)
    ensures |l| == 1 ==>
      l[0].action == (if Tagged(e, "confusionEvent") then "Confusion Detected"
                      else if Tagged(e, "helpTriggered") then "Help Shown"
                      else "Session Complete")
    ensures |l| == 1 && !Tagged(e, "sessionComplete") ==> l[0].section == e.data.section
    ensures Tagged(e, "sessionComplete") ==> l[0].section == SecondsLabel(CompletionTimeOrZero(e.data.completionTime))
  {
    match e
    case Missing => []
    case Entry(kind, p) =>
      if kind == "confusionEvent" then [LogEntry("Confusion Detected", p.section, Warning)]
      else if kind == "helpTriggered" then [LogEntry("Help Shown", p.section, Success)]
      else if kind == "sessionComplete" then
        [LogEntry("Session Complete", SecondsLabel(CompletionTimeOrZero(p.completionTime)), Success)]
      else []
  }

  /** `sessionData` after replaying `es` in order. */
  function Replay(d: SessionData, es: seq<StoredEntry>, id: int, timestamp: string): SessionData
    decreases |es|
  {
    if es == [] then d
    else Apply(Replay(d, es[..|es| - 1], id, timestamp), es[|es| - 1], id, timestamp)
  }

  /** The gaze points replaying `es` appends. */
  function ReplayGaze(es: seq<StoredEntry>, now: int): seq<GazePoint>
    decreases |es|
  {
    if es == [] then [] else ReplayGaze(es[..|es| - 1], now) + GazeFrom(es[|es| - 1], now)
  }

  /** The log entries replaying `es` adds. */
  function ReplayLog(es: seq<StoredEntry>): seq<LogEntry>
    decreases |es|
  {
    if es == [] then [] else ReplayLog(es[..|es| - 1]) + LogFrom(es[|es| - 1])
  }

  /** Replaying one more entry of a batch is one more `Apply`, `GazeFrom` and `LogFrom`. */
  lemma ReplayPrefixStep(d: SessionData, es: seq<StoredEntry>, i: nat, id: int, timestamp: string, now: int)
    requires i < |es|
    ensures Replay(d, es[..i + 1], id, timestamp) == Apply(Replay(d, es[..i], id, timestamp), es[i], id, timestamp)
    ensures ReplayGaze(es[..i + 1], now) == ReplayGaze(es[..i], now) + GazeFrom(es[i], now)
    ensures ReplayLog(es[..i + 1]) == ReplayLog(es[..i]) + LogFrom(es[i])
  {
    assert es[..i + 1][..i] == es[..i];
  }

  /** `dwell` and `dwellTime` entries are dispatched identically. */
  lemma DwellAliases(d: SessionData, p: Payload, id: int, timestamp: string, now: int)
    ensures Apply(d, Entry("dwell", p), id, timestamp) == Apply(d, Entry("dwellTime", p), id, timestamp)
              == DwellRecorded(d, p.section, p.dwellTime)
    ensures LogFrom(Entry("dwell", p)) == LogFrom(Entry("dwellTime", p)) == []
    ensures GazeFrom(Entry("dwell", p), now) == GazeFrom(Entry("dwellTime", p), now) == []
  {
  }

  /**
   * Each aggregating tag dispatches to its record function: confusion and help
   * entries to the record for their named section, a session-complete entry
   * to a session whose duration is `completionTime`, or 0 when it is missing.
   */
  lemma ApplyDispatch(d: SessionData, e: StoredEntry, id: int, timestamp: string)
    ensures Tagged(e, "confusionEvent") ==> Apply(d, e, id, timestamp) == ConfusionRecorded(d, e.data.section)
    ensures Tagged(e, "helpTriggered") ==> Apply(d, e, id, timestamp) == HelpRecorded(d, e.data.section)
    ensures Tagged(e, "sessionComplete") ==>
      Apply(d, e, id, timestamp) ==
        SessionCompleted(d, CompletionTimeOrZero(e.data.completionTime), e.data.conversationCompleted, id, timestamp)
    ensures Tagged(e, "sessionComplete") && e.data.completionTime.None? ==>
      Apply(d, e, id, timestamp).sessions[|d.sessions|].duration == 0
  {
  }

  /** An entry with no tag or an unknown tag changes nothing. */
  lemma UnknownEntryIgnored(d: SessionData, e: StoredEntry, id: int, timestamp: string, now: int)
    requires e.Missing? || e.kind !in KnownKinds
    ensures Apply(d, e, id, timestamp) == d && LogFrom(e) == [] && GazeFrom(e, now) == []
  {
  }

  /** Replaying two batches one after the other is replaying their concatenation. */
  lemma {:induction false} ReplayAppend(d: SessionData, a: seq<StoredEntry>, b: seq<StoredEntry>,
                                        id: int, timestamp: string)
    ensures Replay(d, a + b, id, timestamp) == Replay(Replay(d, a, id, timestamp), b, id, timestamp)
    decreases |b|
  {
    if b == [] {
      assert a + b == a;
    } else {
      assert (a + b)[..|a + b| - 1] == a + b[..|b| - 1];
      ReplayAppend(d, a, b[..|b| - 1], id, timestamp);
    }
  }

  /** The entries of `es` that change `sessionData`, in order. */
  function Aggregating(es: seq<StoredEntry>): (r: seq<StoredEntry>)
    ensures |r| <= |es|
    decreases |es|
  {
    if es == [] then []
    else
      var last := es[|es| - 1];
      var kept := Aggregating(es[..|es| - 1]);
      if last.Entry? && last.kind in KnownKinds - {"gazePoint"} then kept + [last] else kept
  }

  /** Dropping every entry that is untagged, unknown or a gaze point does not change the replayed state. */
  lemma {:induction false} ReplayIgnoresOtherEntries(d: SessionData, es: seq<StoredEntry>, id: int, timestamp: string)
    ensures Replay(d, es, id, timestamp) == Replay(d, Aggregating(es), id, timestamp)
    decreases |es|
  {
    if es != [] {
      var init, last := es[..|es| - 1], es[|es| - 1];
      ReplayIgnoresOtherEntries(d, init, id, timestamp);
      if last.Entry? && last.kind in KnownKinds - {"gazePoint"} {
        var kept := Aggregating(init);
        assert (kept + [last])[..|kept + [last]| - 1] == kept;
      }
    }
  }

  /** The entry names a known section whenever it is a confusion or help entry. */
  predicate NamesKnownSection(e: StoredEntry) {
    (e.Entry? && e.kind in {"confusionEvent", "helpTriggered"})
      ==> e.data.section in {Items, Summary, PaymentMethods, CheckoutDetails}
  }

  /** One entry keeps the section keys and the conversion bound, and keeps the totals if it names a known section. */
  lemma ApplyKeepsInvariants(d: SessionData, e: StoredEntry, id: int, timestamp: string)
    requires KnownSections(d.sectionMetrics) && ConversionBounded(d)
    ensures var r := Apply(d, e, id, timestamp);
      && KnownSections(r.sectionMetrics) && ConversionBounded(r)
      && (TotalsMatch(d) && NamesKnownSection(e) ==> TotalsMatch(r))
  {
    match e
    case Missing =>
    case Entry(kind, p) =>
      if kind == "confusionEvent" {
        ConfusionKeepsTotalsIffKnown(d, p.section);
      } else if kind == "helpTriggered" {
        HelpKeepsTotalsIffKnown(d, p.section);
      }
  }

  /**
   * Replaying any batch keeps the section keys and `conversionCount <= |sessions|`;
   * it keeps "totals == sums over sections" when every confusion and help entry
   * names a known section.
   */
  lemma {:induction false} ReplayKeepsInvariants(d: SessionData, es: seq<StoredEntry>, id: int, timestamp: string)
    requires KnownSections(d.sectionMetrics) && ConversionBounded(d)
    ensures var r := Replay(d, es, id, timestamp);
      && KnownSections(r.sectionMetrics) && ConversionBounded(r)
      && (TotalsMatch(d) && (forall i | 0 <= i < |es| :: NamesKnownSection(es[i])) ==> TotalsMatch(r))
    decreases |es|
  {
    if es != [] {
      var init := es[..|es| - 1];
      ReplayKeepsInvariants(d, init, id, timestamp);
      ApplyKeepsInvariants(Replay(d, init, id, timestamp), es[|es| - 1], id, timestamp);
    }
  }

  /**
   * Replaying a batch keeps the section keys, and raises each global total by
   * the number of entries of its kind, whatever sections they name.
   */
  lemma {:induction false} ReplayCountsEvents(d: SessionData, es: seq<StoredEntry>, id: int, timestamp: string)
    ensures var r := Replay(d, es, id, timestamp);
      && r.sectionMetrics.Keys == d.sectionMetrics.Keys
      && r.totalConfusionEvents == d.totalConfusionEvents + TagCount(es, "confusionEvent")
      && r.totalHelpTriggered == d.totalHelpTriggered + TagCount(es, "helpTriggered")
    decreases |es|
  {
    if es != [] {
      ReplayCountsEvents(d, es[..|es| - 1], id, timestamp);
    }
  }

  /**
   * Replaying a batch appends one gaze point, stamped `now`, per gaze entry,
   * and one log entry per confusion, help and session-complete entry.
   */
  lemma {:induction false} ReplayCountsOutputs(es: seq<StoredEntry>, now: int)
    ensures |ReplayGaze(es, now)| == TagCount(es, "gazePoint")
    ensures forall i | 0 <= i < |ReplayGaze(es, now)| :: ReplayGaze(es, now)[i].timestamp == now
    ensures |ReplayLog(es)| ==
      TagCount(es, "confusionEvent") + TagCount(es, "helpTriggered") + TagCount(es, "sessionComplete")
    decreases |es|
  {
    if es != [] {
      ReplayCountsOutputs(es[..|es| - 1], now);
    }
  }

  /** Replay only appends sessions, one per session-complete entry; earlier sessions are untouched. */
  lemma {:induction false} ReplayAppendsSessions(d: SessionData, es: seq<StoredEntry>, id: int, timestamp: string)
    ensures var r := Replay(d, es, id, timestamp);
      && |r.sessions| == |d.sessions| + TagCount(es, "sessionComplete")
      && r.sessions[..|d.sessions|] == d.sessions
    decreases |es|
  {
    if es != [] {
      var init := es[..|es| - 1];
      ReplayAppendsSessions(d, init, id, timestamp);
      var mid := Replay(d, init, id, timestamp);
      var r := Apply(mid, es[|es| - 1], id, timestamp);
      assert r.sessions[..|mid.sessions|] == mid.sessions;
      assert r.sessions[..|d.sessions|] == mid.sessions[..|d.sessions|];
    }
  }
}
