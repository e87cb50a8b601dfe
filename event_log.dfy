/**
 * The page's activity log: the unbounded list of recorded log entries and the
 * on-screen list, which shows the newest entry first and keeps at most twenty.
 */
module EventLog {

  /** The `type` of a log entry; it picks the entry's icon and colour. */
  datatype Severity = Info | Success | Warning | Error

  datatype LogEntry = LogEntry(action: string, section: string, severity: Severity)

  /** How many entries the on-screen list keeps. */
  const MaxLogItems: nat := 20

  /**
   * The on-screen list after one `addEvent`: the new entry is inserted before
   * the first child, then the last child is removed while more than twenty remain.
   */
  function Displayed(log: seq<LogEntry>, e: LogEntry): (r: seq<LogEntry>)
    ensures |r| == if |log| < MaxLogItems then |log| + 1 else MaxLogItems
    ensures r[0] == e
    ensures forall i | 1 <= i < |r| :: r[i] == log[i - 1]
  {
    var l := [e] + log;
    if |l| <= MaxLogItems then l else l[..MaxLogItems]
  }

  /** The on-screen list after a series of `addEvent` calls, in order. */
  function DisplayAll(log: seq<LogEntry>, es: seq<LogEntry>): seq<LogEntry>
    decreases |es|
  {
    if es == [] then log else Displayed(DisplayAll(log, es[..|es| - 1]), es[|es| - 1])
  }

  /** The twenty (or fewer) most recent entries of `events`, newest first. */
  function NewestFirst(events: seq<LogEntry>): (r: seq<LogEntry>)
    ensures |r| == if |events| < MaxLogItems then |events| else MaxLogItems
    ensures forall i | 0 <= i < |r| :: r[i] == events[|events| - 1 - i]
  {
    var n := if |events| < MaxLogItems then |events| else MaxLogItems;
    seq(n, i requires 0 <= i < n => events[|events| - 1 - i])
  }

  /** One `addEvent` keeps the on-screen list equal to the newest twenty entries of the log. */
  lemma DisplayedTracksEvents(events: seq<LogEntry>, e: LogEntry)
    ensures Displayed(NewestFirst(events), e) == NewestFirst(events + [e])
  {
    var a, b := Displayed(NewestFirst(events), e), NewestFirst(events + [e]);
    assert |a| == |b|;
    forall i | 0 <= i < |a| ensures a[i] == b[i] {
      if i > 0 {
        assert a[i] == events[|events| - i];
        assert (events + [e])[|events| - i] == events[|events| - i];
      }
    }
  }

  /** Any series of `addEvent` calls keeps the on-screen list equal to the newest twenty entries. */
  lemma {:induction false} DisplayAllTracksEvents(events: seq<LogEntry>, es: seq<LogEntry>)
    ensures DisplayAll(NewestFirst(events), es) == NewestFirst(events + es)
    decreases |es|
  {
    if es != [] {
      var init, last := es[..|es| - 1], es[|es| - 1];
      DisplayAllTracksEvents(events, init);
      DisplayedTracksEvents(events + init, last);
      assert events + init + [last] == events + es;
    }
  }

  /** The decimal digit for `d`. */
  function DigitChar(d: nat): (c: char)
    requires d < 10
    ensures '0' <= c <= '9'
  {
    "0123456789"[d]
  }

  /** The decimal digits of `n`, without leading zeros. */
  function Digits(n: nat): (s: string)
    ensures 1 <= |s|
    ensures forall i | 0 <= i < |s| :: '0' <= s[i] <= '9'
    ensures |s| > 1 ==> s[0] != '0'
    decreases n
  {
    if n < 10 then [DigitChar(n)] else Digits(n / 10) + [DigitChar(n % 10)]
  }

  /** Reads a string of decimal digits back as a number. */
  function DigitsValue(s: string): nat
    requires forall i | 0 <= i < |s| :: '0' <= s[i] <= '9'
    decreases |s|
  {
    if s == [] then 0 else 10 * DigitsValue(s[..|s| - 1]) + (s[|s| - 1] as int - '0' as int)
  }

  /** Reading the digits of `n` gives `n` back, so distinct numbers get distinct labels. */
  lemma {:induction false} DigitsRoundTrip(n: nat)
    ensures DigitsValue(Digits(n)) == n
    decreases n
  {
    if n >= 10 {
      DigitsRoundTrip(n / 10);
      var s := Digits(n);
      assert s[..|s| - 1] == Digits(n / 10);
    }
  }

  /** The text `${completionTime}s` that a session-complete log entry shows. */
  function SecondsLabel(t: int): (s: string)
    ensures 2 <= |s| && s[|s| - 1] == 's'
    ensures t < 0 <==> s[0] == '-'
    ensures t >= 0 ==> s[..|s| - 1] == Digits(t) && DigitsValue(Digits(t)) == t
    ensures t < 0 ==> s[1..|s| - 1] == Digits(-t) && DigitsValue(Digits(-t)) == -t
  {
    var n := if t < 0 then -t else t;
    DigitsRoundTrip(n);
    var digits := Digits(n);
    if t < 0 then
      assert ("-" + digits + "s")[1..|digits| + 1] == digits;
      "-" + digits + "s"
    else
      assert (digits + "s")[..|digits|] == digits;
      digits + "s"
  }

}
