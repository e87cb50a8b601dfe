/**
 * `AnalyticsManager`: the object that owns the aggregate, the unbounded list
 * of log entries, the gaze points and (standing in for the page) the on-screen
 * event list. Each recording method updates the state in place; its contract
 * ties the new state to the specification functions of `Aggregation`.
 *
 * Persisting the aggregate after each change, and redrawing the dashboard,
 * have no effect on this state and are not modelled.
 */
module Manager {
  import opened AnalyticsState
  import opened EventLog
  import opened Aggregation

  /** What the browser store holds under the stored-events key. */
  datatype StoredBatch =
    | NoBatch                         // no entry, or an empty one
    | Unreadable                      // `JSON.parse` throws
    | NotAnArray                      // parses, but not to an array
    | Batch(entries: seq<StoredEntry>)

  /** Appending is associative. */
  lemma AppendAssoc<T>(a: seq<T>, b: seq<T>, c: seq<T>)
    ensures a + b + c == a + (b + c)
  {
  }

  class AnalyticsManager {
    var sessionData: SessionData
    /** Every log entry ever added; never trimmed. */
    var events: seq<LogEntry>
    var gazePoints: seq<GazePoint>
    /** The children of the page's event-log element, newest first. */
    var displayedLog: seq<LogEntry>
    var startTime: int

    /** The on-screen list shows the twenty newest log entries, newest first. */
    ghost predicate Valid()
      reads this
    {
      displayedLog == NewestFirst(events)
    }

    /**
     * The aggregate is the stored one, or the empty default when nothing is
     * stored. A stored text that does not parse makes the page's constructor throw.
     */
    constructor(stored: StoredSnapshot, now: int)
      requires !stored.Unparsable?
      ensures Valid()
      ensures LoadSessionData(stored) == Some(sessionData)
      ensures events == [] && gazePoints == [] && displayedLog == [] && startTime == now
    {
      sessionData := match stored
        case Parsed(data) => data
        case _ => DefaultSessionData();
      events := [];
      gazePoints := [];
      displayedLog := [];
      startTime := now;
    }

    /** Appends a log entry and puts it at the top of the on-screen list, which keeps at most twenty. */
    method AddEvent(action: string, section: string, severity: Severity)
      requires Valid()
      modifies this
      ensures Valid()
      ensures events == old(events) + [LogEntry(action, section, severity)]
      ensures displayedLog == Displayed(old(displayedLog), LogEntry(action, section, severity))
      ensures sessionData == old(sessionData) && gazePoints == old(gazePoints) && startTime == old(startTime)
    {
      var entry := LogEntry(action, section, severity);
      DisplayedTracksEvents(events, entry);
      events := events + [entry];
      displayedLog := [entry] + displayedLog;
      while |displayedLog| > MaxLogItems
        modifies this`displayedLog
        invariant displayedLog == ([entry] + old(displayedLog))[..|displayedLog|]
        invariant |displayedLog| <= |old(displayedLog)| + 1
        invariant |displayedLog| >= MaxLogItems || |displayedLog| == |old(displayedLog)| + 1
        decreases |displayedLog|
      {
        displayedLog := displayedLog[..|displayedLog| - 1];
      }
    }

    method RecordGazePoint(x: real, y: real, now: int)
      modifies this
      ensures gazePoints == old(gazePoints) + [GazePoint(x, y, now)]
      ensures sessionData == old(sessionData) && events == old(events)
      ensures displayedLog == old(displayedLog) && startTime == old(startTime)
    {
      gazePoints := gazePoints + [GazePoint(x, y, now)];
    }

    method RecordDwellTime(section: string, dwellTime: int)
      modifies this
      ensures sessionData == DwellRecorded(old(sessionData), section, dwellTime)
      ensures events == old(events) && gazePoints == old(gazePoints)
      ensures displayedLog == old(displayedLog) && startTime == old(startTime)
    {
      if section in sessionData.sectionMetrics {
        var m := sessionData.sectionMetrics[section];
        m := m.(totalDwell := m.totalDwell + dwellTime);
        m := m.(visits := m.visits + 1);
        sessionData := sessionData.(sectionMetrics := sessionData.sectionMetrics[section := m]);
      }
    }

    method RecordConfusionEvent(section: string)
      requires Valid()
      modifies this
      ensures Valid()
      ensures sessionData == ConfusionRecorded(old(sessionData), section)
      ensures events == old(events) + [LogEntry("Confusion Detected", section, Warning)]
      ensures gazePoints == old(gazePoints) && startTime == old(startTime)
    {
      sessionData := sessionData.(totalConfusionEvents := sessionData.totalConfusionEvents + 1);
      if section in sessionData.sectionMetrics {
        var m := sessionData.sectionMetrics[section];
        sessionData := sessionData.(sectionMetrics :=
          sessionData.sectionMetrics[section := m.(confusionCount := m.confusionCount + 1)]);
      }
      AddEvent("Confusion Detected", section, Warning);
    }

    method RecordHelpTriggered(section: string)
      requires Valid()
      modifies this
      ensures Valid()
      ensures sessionData == HelpRecorded(old(sessionData), section)
      ensures events == old(events) + [LogEntry("Help Shown", section, Success)]
      ensures gazePoints == old(gazePoints) && startTime == old(startTime)
    {
      sessionData := sessionData.(totalHelpTriggered := sessionData.totalHelpTriggered + 1);
      if section in sessionData.sectionMetrics {
        var m := sessionData.sectionMetrics[section];
        sessionData := sessionData.(sectionMetrics :=
          sessionData.sectionMetrics[section := m.(helpTriggered := m.helpTriggered + 1)]);
      }
      AddEvent("Help Shown", section, Success);
    }

    /** `id` and `timestamp` stand for the clock readings the page takes. */
    method RecordSessionComplete(completionTime: int, conversationCompleted: bool, id: int, timestamp: string)
      requires Valid()
      modifies this
      ensures Valid()
      ensures sessionData == SessionCompleted(old(sessionData), completionTime, conversationCompleted, id, timestamp)
      ensures events == old(events) + [LogEntry("Session Complete", SecondsLabel(completionTime), Success)]
      ensures gazePoints == old(gazePoints) && startTime == old(startTime)
    {
      var session := SessionRecord(id, completionTime, sessionData.totalConfusionEvents,
                                   sessionData.totalHelpTriggered, conversationCompleted, timestamp);
      sessionData := sessionData.(sessions := sessionData.sessions + [session]);
      if conversationCompleted {
        sessionData := sessionData.(conversionCount := sessionData.conversionCount + 1);
      }
      AddEvent("Session Complete", SecondsLabel(completionTime), Success);
    }

    /**
     * The confirmed reset: the stored aggregate is removed and reloaded, which
     * gives the empty default. Gaze points and the log are kept.
     */
    method Reset()
      requires Valid()
      modifies this
      ensures Valid()
      ensures sessionData == DefaultSessionData()
      ensures events == old(events) + [LogEntry("Data Reset", "System", Warning)]
      ensures gazePoints == old(gazePoints) && startTime == old(startTime)
    {
      sessionData := LoadSessionData(Absent).value;
      AddEvent("Data Reset", "System", Warning);
    }

    /** One pass of the stored-batch loop: the entry is dispatched on its `type` tag. */
    method DispatchStoredEntry(e: StoredEntry, now: int, timestamp: string)
      requires Valid()
      modifies this
      ensures Valid()
      ensures sessionData == Apply(old(sessionData), e, now, timestamp)
      ensures gazePoints == old(gazePoints) + GazeFrom(e, now)
      ensures events == old(events) + LogFrom(e)
      ensures startTime == old(startTime)
    {
      match e
      case Missing =>
      case Entry(kind, p) =>
        if kind == "gazePoint" {
          RecordGazePoint(p.x, p.y, now);
        } else if kind == "dwellTime" || kind == "dwell" {
          RecordDwellTime(p.section, p.dwellTime);
        } else if kind == "confusionEvent" {
          RecordConfusionEvent(p.section);
        } else if kind == "helpTriggered" {
          RecordHelpTriggered(p.section);
        } else if kind == "sessionComplete" {
          RecordSessionComplete(CompletionTimeOrZero(p.completionTime), p.conversationCompleted, now, timestamp);
        }
    }

    /** One pass of the `forEach` over a stored batch: the prefix replayed so far grows by one entry. */
    method ReplayNext(ghost d0: SessionData, ghost g0: seq<GazePoint>, ghost l0: seq<LogEntry>,
                      entries: seq<StoredEntry>, i: nat, now: int, timestamp: string)
      requires i < |entries| && Valid()
      requires sessionData == Replay(d0, entries[..i], now, timestamp)
      requires gazePoints == g0 + ReplayGaze(entries[..i], now)
      requires events == l0 + ReplayLog(entries[..i])
      modifies this
      ensures Valid()
      ensures sessionData == Replay(d0, entries[..i + 1], now, timestamp)
      ensures gazePoints == g0 + ReplayGaze(entries[..i + 1], now)
      ensures events == l0 + ReplayLog(entries[..i + 1])
      ensures startTime == old(startTime)
    {
      ReplayPrefixStep(d0, entries, i, now, timestamp, now);
      AppendAssoc(g0, ReplayGaze(entries[..i], now), GazeFrom(entries[i], now));
      AppendAssoc(l0, ReplayLog(entries[..i]), LogFrom(entries[i]));
      DispatchStoredEntry(entries[i], now, timestamp);
    }

    /** The `forEach` over a stored batch: every entry is dispatched, in order. */
    method ReplayEntries(entries: seq<StoredEntry>, now: int, timestamp: string)
      requires Valid()
      modifies this
      ensures Valid()
      ensures sessionData == Replay(old(sessionData), entries, now, timestamp)
      ensures gazePoints == old(gazePoints) + ReplayGaze(entries, now)
      ensures events == old(events) + ReplayLog(entries)
      ensures startTime == old(startTime)
    {
      var i := 0;
      while i < |entries|
        invariant 0 <= i <= |entries|
        invariant Valid() && startTime == old(startTime)
        invariant sessionData == Replay(old(sessionData), entries[..i], now, timestamp)
        invariant gazePoints == old(gazePoints) + ReplayGaze(entries[..i], now)
        invariant events == old(events) + ReplayLog(entries[..i])
      {
        ReplayNext(old(sessionData), old(gazePoints), old(events), entries, i, now, timestamp);
        i := i + 1;
      }
      assert entries[..i] == entries;
    }

    /**
     * Replays the stored batch. Nothing changes and the result is false when
     * there is no batch, it does not parse, it is not an array or it is empty;
     * otherwise every entry is dispatched in order, a closing log entry is added
     * and the result is true. Clearing the stored batch afterwards is best-effort
     * and not modelled.
     */
    method ProcessStoredEvents(batch: StoredBatch, now: int, timestamp: string) returns (loaded: bool)
      requires Valid()
      modifies this
      ensures Valid()
      ensures loaded <==> batch.Batch? && batch.entries != []
      ensures !loaded ==>
        sessionData == old(sessionData) && events == old(events) && gazePoints == old(gazePoints)
      ensures loaded ==>
        && sessionData == Replay(old(sessionData), batch.entries, now, timestamp)
        && gazePoints == old(gazePoints) + ReplayGaze(batch.entries, now)
        && events == old(events) + ReplayLog(batch.entries) + [LogEntry("Stored Events Loaded", "System", Info)]
      ensures startTime == old(startTime)
    {
      if !batch.Batch? || batch.entries == [] {
        return false;
      }
      ReplayEntries(batch.entries, now, timestamp);
      AddEvent("Stored Events Loaded", "System", Info);
      loaded := true;
    }

    /** Installs the demonstration aggregate; `sample` stands for the 200 random gaze points. */
    method LoadSampleData(sample: seq<GazePoint>)
      requires Valid()
      requires |sample| == 200
      requires forall i | 0 <= i < |sample| :: 0.0 <= sample[i].x < 900.0 && 0.0 <= sample[i].y < 500.0
      modifies this
      ensures Valid()
      ensures sessionData == SampleSessionData()
      ensures gazePoints == old(gazePoints) + sample
      ensures events == old(events) + [LogEntry("Sample Data Loaded", "System", Info)]
      ensures startTime == old(startTime)
    {
      sessionData := SampleSessionData();
      gazePoints := gazePoints + sample;
      AddEvent("Sample Data Loaded", "System", Info);
    }

    /**
     * The data part of start-up: replay any stored batch, then fall back to the
     * demonstration data when there are still no sessions and no batch was replayed.
     */
    method LoadInitialData(batch: StoredBatch, sample: seq<GazePoint>, now: int, timestamp: string)
      requires Valid()
      requires |sample| == 200
      requires forall i | 0 <= i < |sample| :: 0.0 <= sample[i].x < 900.0 && 0.0 <= sample[i].y < 500.0
      modifies this
      ensures Valid()
      ensures var replayed := batch.Batch? && batch.entries != [];
        var fallback := !replayed && old(sessionData).sessions == [];
        && sessionData == (if fallback then SampleSessionData()
                           else if replayed then Replay(old(sessionData), batch.entries, now, timestamp)
                           else old(sessionData))
        && gazePoints == old(gazePoints)
                         + (if replayed then ReplayGaze(batch.entries, now) else [])
                         + (if fallback then sample else [])
        && events == old(events)
                     + (if replayed then ReplayLog(batch.entries) + [LogEntry("Stored Events Loaded", "System", Info)] else [])
                     + (if fallback then [LogEntry("Sample Data Loaded", "System", Info)] else [])
      ensures startTime == old(startTime)
    {
      var hadEvents := ProcessStoredEvents(batch, now, timestamp);
      if |sessionData.sessions| == 0 && !hadEvents {
        LoadSampleData(sample);
      }
    }
  }
}
