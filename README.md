# Eye-tracking analytics: aggregation engine

A Dafny model of the event-aggregation core of the checkout eye-tracking
analytics page (`AnalyticsManager` in `analytics.js`). The page keeps one
aggregate record, `sessionData`. The record holds the completed sessions, three
global counters (confusion events, help prompts shown, conversions) and a
counter record for each of the four checkout sections: `items`, `summary`,
`paymentMethods` and `checkoutDetails`. Recorded events update this aggregate
in place. A stored batch of raw events can be replayed through the same
operations. The dashboard derives its figures from the aggregate, and an
on-screen activity list shows the twenty newest log entries.

Modules, one per component of the page's logic:

- `AnalyticsState` (`state.dfy`): the aggregate and its invariants. These are
  "section keys are exactly the four sections", "global totals equal the section
  sums" and `conversionCount <= |sessions|`. The module also holds the empty
  default, the fixed demonstration state and loading a stored snapshot.
- `Aggregation` (`aggregation.dfy`): one specification function per recording
  operation, the dispatch of a stored entry on its `type` tag, and the replay of
  a batch as a fold. It also holds the lemmas about invariants and replay.
- `EventLog` (`event_log.dfy`): the on-screen list, capped at twenty and newest
  first, and the `Ns` label of a session-complete entry.
- `Rounding` (`rounding.dfy`): `Math.round(p / q)` as the integer `(2p + q) / (2q)`.
- `Dashboard` (`dashboard.dfy`): the metric cards, the dwell chart, the revisit
  table and the help-impact panel, as pure functions over the aggregate.
- `Manager` (`manager.dfy`): the class `AnalyticsManager`. Its methods change
  its fields in place, and each is proved against the matching `Aggregation`
  function. The replay loop and the list-trimming loop are `while` loops with
  invariants.

Modelling choices:

- `sessionData` is a datatype value held in a field of the class. The methods
  replace it with an updated copy. Nothing in the core keeps a second reference
  to it or to its nested records.
- `Math.round(p / q)` for a positive divisor is `floor(p / q + 1/2)`, written as
  `(2p + q) / (2q)` with floor division. `round(0.3 * n)` is `RoundDiv(3n, 10)`,
  which is `(3n + 5) / 10`. Percentages are computed as `round(100p / q)`
  rather than `round((p / q) * 100)`. So results can differ from JavaScript
  doubles only where the double product lands on the other side of a half.
- Bar widths are shown unrounded, so they are exact `real` values here rather
  than doubles. Seconds and average dwell times go through `toFixed(1)` on the
  page; here they are the exact `real` values before that formatting.
- Clock readings (`Date.now()`, `toLocaleString()`) are parameters: a session
  `id` and `timestamp`, and the gaze-point time `now`. One replay call uses one
  reading for all its entries.
- The on-screen event list is the sequence field `displayedLog`, standing in for
  the DOM element's children. The class invariant says it equals the twenty
  newest entries of `events`, newest first. This assumes the page's list starts
  empty.

Where the design description and the code differ, the model follows the code:

- Confusion and help events bump the global totals even for an unknown section.
  So "global total == sum over sections" is preserved exactly when the event
  names a known section (`ConfusionKeepsTotalsIffKnown`, `HelpKeepsTotalsIffKnown`).
  The design says unknown sections are ignored.
- Reset replaces only the aggregate. It keeps the gaze points, the unbounded
  `events` list and the on-screen list, and it adds one more entry to both lists.
- Loading a stored snapshot that does not parse has no fallback: `JSON.parse`
  throws (`LoadSessionData` gives `None`). The design says it yields the empty state.
- The help-impact "improvement" is rounded help per section confusion event.
  It can exceed 100, and only the bar is capped. It can also round to 0 while
  help was shown. In that case the panel says no help was recorded (`ImpactMessageCases`).

## Model

| member | source | states |
|---|---|---|
| AnalyticsState.DefaultSessionData | analytics.js:24-35 | the empty default has no sessions and all-zero counters, and satisfies every invariant (four section keys, totals equal section sums, conversions at most sessions) |
| AnalyticsState.SampleSessionData | analytics.js:417-432 | the demonstration state satisfies every invariant and has three sessions, all converted |
| AnalyticsState.LoadSessionData | analytics.js:17-36 | a missing snapshot gives exactly the empty default (which is consistent and has no sessions); a parsed one is used as is; an unparsable one gives no state (the parse throws) |
| Rounding.RoundDiv | analytics.js:236 | the result is the integer nearest to p/q, with halves rounded up (what `Math.round` does) |
| EventLog.Displayed | analytics.js:213-218 | after insertion at the top and trimming, the list has the new entry first, then the old entries in order, and at most twenty entries |
| EventLog.NewestFirst | analytics.js:194-218 | the reference view: the min(n, 20) most recent log entries in reverse order |
| EventLog.DisplayedTracksEvents | analytics.js:194-218 | one `addEvent` turns the newest-twenty view of the log into the newest-twenty view of the log with the entry appended |
| EventLog.DisplayAllTracksEvents | analytics.js:194-218 | any series of `addEvent` calls keeps the on-screen list equal to the twenty newest log entries, newest first, with the oldest dropped |
| EventLog.Digits | analytics.js:189 | the decimal digits of a number are non-empty, all digits, with no leading zero |
| EventLog.DigitsRoundTrip | analytics.js:189 | reading the digits back gives the number, so the label determines the duration |
| EventLog.SecondsLabel | analytics.js:189 | the session label is exactly the canonical decimal `Digits` of the duration (no leading zeros), preceded by `-` exactly for a negative duration and followed by `s`; the digits read back as the absolute value |
| Aggregation.DwellRecorded | analytics.js:143-150 | a known section gains one visit and the dwell time; its other counters, other sections, sessions and global counters are unchanged; an unknown section changes nothing |
| Aggregation.ConfusionRecorded | analytics.js:152-160 | the global confusion total always rises by exactly 1; only a known section's confusion count rises, by 1; nothing else changes |
| Aggregation.HelpRecorded | analytics.js:162-170 | the global help total always rises by exactly 1; only a known section's help count rises, by 1; nothing else changes |
| Aggregation.SessionCompleted | analytics.js:172-192 | exactly one session is appended, carrying the global totals at call time; earlier sessions are unchanged; conversions rise by 1 iff the session converted |
| Aggregation.DwellKeepsConsistent | analytics.js:143-150 | a dwell record preserves every invariant |
| Aggregation.ConfusionKeepsTotalsIffKnown | analytics.js:152-160 | section keys and the conversion bound are preserved; if totals matched the section sums before, they still match iff the section is known |
| Aggregation.HelpKeepsTotalsIffKnown | analytics.js:162-170 | section keys and the conversion bound are preserved; if totals matched the section sums before, they still match iff the section is known |
| Aggregation.SessionKeepsConsistent | analytics.js:184-187 | a completed session preserves every invariant, including conversions at most the session count |
| Aggregation.DwellAliases | analytics.js:105-108 | `dwell` and `dwellTime` entries are dispatched identically, to the dwell record |
| Aggregation.Apply | analytics.js:101-121 | a confusion or help entry raises its global total by 1; a session-complete entry appends one session and adds a conversion iff the conversation completed; no entry changes the section keys or an earlier session (which record each tag dispatches to: `ApplyDispatch`, `DwellAliases`, `UnknownEntryIgnored`) |
| Aggregation.ApplyDispatch | analytics.js:109-117 | a confusion or help entry is `ConfusionRecorded` or `HelpRecorded` for its named section; a session-complete entry is `SessionCompleted` with `completionTime || 0`, so a missing completion time gives a session of duration 0 |
| Aggregation.GazeFrom | analytics.js:102-104 | exactly a gaze entry yields one gaze point, with its coordinates and the replay time |
| Aggregation.LogFrom | analytics.js:109-117 | exactly confusion, help and session-complete entries yield one log entry: "Confusion Detected" as a warning, "Help Shown" or "Session Complete" as a success; confusion and help entries name their section, a session-complete entry shows `SecondsLabel` of `completionTime || 0` |
| Aggregation.ReplayPrefixStep | analytics.js:98-122 | replaying one more entry of a batch is one more `Apply`, `GazeFrom` and `LogFrom` after the replay of the prefix |
| Aggregation.ReplayCountsEvents | analytics.js:98-122 | replaying a batch keeps the section keys and raises the global confusion and help totals by the number of entries of each kind, whatever section they name |
| Aggregation.ReplayCountsOutputs | analytics.js:98-122 | replaying a batch appends one gaze point, stamped with the replay time, per gaze entry, and one log entry per confusion, help and session-complete entry |
| Aggregation.UnknownEntryIgnored | analytics.js:99-120 | a falsy entry, or one with a missing or unknown `type`, changes no state and adds no log entry or gaze point |
| Aggregation.ReplayAppend | analytics.js:98-122 | replaying a concatenated batch equals replaying its halves one after the other |
| Aggregation.ReplayIgnoresOtherEntries | analytics.js:98-122 | removing the untagged, unknown and gaze entries from a batch does not change the replayed aggregate |
| Aggregation.ApplyKeepsInvariants | analytics.js:101-121 | one dispatched entry keeps the section keys and the conversion bound, and keeps the totals matching when it names a known section |
| Aggregation.ReplayKeepsInvariants | analytics.js:98-122 | any replayed batch keeps the section keys and the conversion bound; the totals stay matched when every confusion and help entry names a known section |
| Aggregation.ReplayAppendsSessions | analytics.js:115-116 | replay leaves earlier sessions untouched and appends one session per session-complete entry |
| Dashboard.AverageTime | analytics.js:233-237 | the `'--'` placeholder appears iff there are no sessions; otherwise the total duration over the session count, rounded to the nearest integer |
| Dashboard.TotalDurationBounds | analytics.js:235 | if every duration lies in [lo, hi], the summed duration lies in [n·lo, n·hi] |
| Dashboard.AverageTimeWithinDurations | analytics.js:233-237 | the average time lies between the shortest and the longest session duration |
| Dashboard.ConversionRate | analytics.js:244-246 | 0 with no sessions; otherwise the nearest integer to 100·conversions/sessions |
| Dashboard.ConversionRateInRange | analytics.js:244-246 | when conversions do not exceed sessions the rate lies in [0, 100], and it is 100 when every session converted |
| Dashboard.MaxDwell | analytics.js:255-260 | the chart divisor is never 0 and is at least every section's dwell; it is one of the four dwell values, or 1 when the largest dwell is 0; when every dwell is negative it is negative |
| Dashboard.PercentOf | analytics.js:271 | the percentage times the whole equals 100 times the part, i.e. `(part / whole) * 100` unrounded |
| Dashboard.Bar | analytics.js:269-275 | a bar's width is the dwell as a percentage of the divisor, and its seconds value times 1000 is the dwell |
| Dashboard.PercentOfMax | analytics.js:271 | a part between 0 and the whole is between 0% and 100% of it, and the whole itself is exactly 100% |
| Dashboard.DwellChart | analytics.js:262-276 | one bar per section in display order; each bar's width is `PercentOf` its section dwell over `MaxDwell`, and its seconds value times 1000 is the section dwell |
| Dashboard.DwellChartInRange | analytics.js:269-276 | with non-negative dwell times every bar width lies in [0, 100] and, if any dwell is non-zero, some bar is exactly 100 |
| Dashboard.AverageDwellSeconds | analytics.js:290 | `'--'` iff the section has no visits; otherwise the average times visits times 1000 equals the total dwell |
| Dashboard.RevisitTable | analytics.js:288-296 | one row per section with its visits and confusion count; the average column is `AverageDwellSeconds` of that section (`'--'` iff visits are 0); help is "Yes" iff help was triggered there |
| Dashboard.Improvement | analytics.js:304-306 | the improvement is 0 without help; otherwise it is the nearest integer to 100·help/confusion (confusion 0 counted as 1); it is never negative |
| Dashboard.AfterHelpConfusion | analytics.js:316 | the "after help" figure lies in [0, total] and equals total minus round(0.3·total), so the `max(0, …)` never applies |
| Dashboard.SectionsWithConfusion | analytics.js:309 | the count equals the number of sections whose confusion count is positive; so it is at most 4, 0 iff the section confusion sum is 0, and 4 iff every section has confusion |
| Dashboard.HelpImpactView | analytics.js:299-328 | the improvement is `Improvement` of the help total and the section confusion sum; the before-help figures are `SectionsWithConfusion` and that sum; the after-help figures are the help total and `AfterHelpConfusion` of the sum; the bar is the improvement capped at 100; the message is `MessageFor` the improvement |
| Dashboard.ImpactMessageCases | analytics.js:322-328 | the "no help events" message appears iff no help was shown or 200·help < confusion; the "significantly improved" message appears iff 200·help >= 101·confusion |
| Dashboard.ImpactConfusionMatchesCard | analytics.js:241 | in a consistent state the panel's before-help confusion equals the confusion card's global total |
| Dashboard.EmptyDashboardCards | analytics.js:233-246 | the empty default shows `'--'`, 0%, zero improvement and the "no help yet" verdict |
| Dashboard.EmptyDashboardSections | analytics.js:255-296 | the empty default shows empty dwell bars and `'--'` for every section average |
| Dashboard.SampleDashboard | analytics.js:417-432 | the demonstration data shows a 45 s average, 100% conversion, 67% improvement, 3 confused sections, 4 after-help confusion events, and a full bar for `checkoutDetails` |
| Dashboard.TwoOfThreeConverted | analytics.js:172-192 | three sessions from the empty state, two converted, give a 67% conversion rate |
| Manager.AnalyticsManager.constructor | analytics.js:7-11 | the aggregate is the loaded snapshot or the empty default; the log, gaze points and on-screen list start empty |
| Manager.AnalyticsManager.AddEvent | analytics.js:194-219 | the entry is appended to the unbounded log and inserted first in the on-screen list, which the loop trims back to twenty; nothing else changes |
| Manager.AnalyticsManager.RecordGazePoint | analytics.js:135-141 | exactly one gaze point is appended; nothing else changes |
| Manager.AnalyticsManager.RecordDwellTime | analytics.js:143-150 | the aggregate becomes `DwellRecorded` of the old one; the log and gaze points are unchanged |
| Manager.AnalyticsManager.RecordConfusionEvent | analytics.js:152-160 | the aggregate becomes `ConfusionRecorded` of the old one, and one warning entry "Confusion Detected" is logged |
| Manager.AnalyticsManager.RecordHelpTriggered | analytics.js:162-170 | the aggregate becomes `HelpRecorded` of the old one, and one success entry "Help Shown" is logged |
| Manager.AnalyticsManager.RecordSessionComplete | analytics.js:172-192 | the aggregate becomes `SessionCompleted` of the old one, and one success entry "Session Complete" labelled with the duration is logged |
| Manager.AnalyticsManager.Reset | analytics.js:49-56 | the aggregate becomes the empty default; gaze points are kept; one warning entry "Data Reset" is logged |
| Manager.AnalyticsManager.DispatchStoredEntry | analytics.js:99-121 | one entry updates the aggregate, gaze points and log exactly as its `type` dictates (`Apply`, `GazeFrom`, `LogFrom`) |
| Manager.AnalyticsManager.ReplayNext | analytics.js:98-122 | dispatching entry `i` of a batch turns the state after the first `i` entries (`Replay`, `ReplayGaze`, `ReplayLog` of that prefix) into the state after the first `i + 1`, and keeps the on-screen list showing the newest twenty entries |
| Manager.AnalyticsManager.ReplayEntries | analytics.js:98-122 | the `forEach` leaves the aggregate equal to `Replay` of the whole batch from the old aggregate, and appends exactly `ReplayGaze` and `ReplayLog` of the batch, in order |
| Manager.AnalyticsManager.ProcessStoredEvents | analytics.js:90-133 | a missing, unparsable, non-array or empty batch returns false and changes nothing; otherwise the aggregate is the replay of the batch, gaze and log entries are appended in order plus a closing entry, and it returns true |
| Manager.AnalyticsManager.LoadSampleData | analytics.js:415-446 | the aggregate becomes the demonstration state, the sample gaze points are appended, and one entry is logged |
| Manager.AnalyticsManager.LoadInitialData | analytics.js:80-87 | after start-up the aggregate, gaze points and log are: the replay of a non-empty batch with its gaze points, log entries and "Stored Events Loaded"; or, when nothing was replayed and there were no sessions, the demonstration state, the 200 sample points and "Sample Data Loaded"; otherwise unchanged |

## Left out

- Heatmap rendering (`drawHeatmap`, analytics.js:331-413): floating-point density
  accumulation with square roots, normalisation and an RGBA ramp written to a
  canvas. It is float numerics behind a foreign drawing API.
- Persistence: `localStorage` reads, writes and removals, and `JSON.stringify`.
  Saving after each change has no effect on the in-memory state. Stored
  snapshots and batches enter as already-parsed values (`StoredSnapshot`, `StoredBatch`).
- UI wiring: button listeners, the `confirm()` gate before reset, navigation,
  the live `postMessage` listener with its origin check (analytics.js:42-78),
  `renderDashboard`, and every write of text or width into the page. The values
  written are modelled by the `Dashboard` functions.
- `exportReport` (analytics.js:448-472): a file download with `toFixed` and
  `toLocaleString` formatting.
- Number formatting: `toFixed(1)` for seconds and averages is not modelled. The
  model gives the exact value. Log entries carry no time-of-day text, and
  the icon choice per severity is presentation.
- `recordHelpTriggered` destructures `beforeDwellTime` but never uses it, so the
  payload does not carry it.
- Malformed numeric fields in stored entries: a missing `dwellTime` or
  coordinate makes JavaScript compute `NaN`, which is not modelled. Fields are
  integers or reals. Only `completionTime` may be missing, and it defaults to 0 as `|| 0` does.
- Section names that are inherited object properties (such as `toString`) pass
  the `sectionMetrics[section]` test in JavaScript. Here only the four keys are
  present in the map.
- An exception thrown part-way through a stored batch would leave a partial
  update and return false. No operation in the model can throw there.
- Dashboard.DwellChartInRange: states bar widths only for non-negative dwell
  times, because with negative dwell times `Math.max(...) || 1` can be negative
  and the widths are unbounded.
- Manager.AnalyticsManager.LoadSampleData: the 200 random gaze points are a
  parameter, constrained only to the ranges `Math.random` produces.
- Decimal labels for numbers of 10^21 or more, which JavaScript writes in
  exponent form, are not modelled.
