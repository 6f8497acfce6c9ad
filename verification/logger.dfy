/** The in-memory log: a bounded buffer of timestamped, levelled entries that
    keeps only the most recent `MAX_LOG_ENTRIES`, plus the scroll position of
    the log view. */
module Logger {
  import opened Common

  const MAX_LOG_ENTRIES: nat := 1000

  /** Severity of a log entry. */
  datatype LogLevel = Debug | Info | Success | Warning | Error

  datatype LogEntry = LogEntry(timestamp: int, level: LogLevel, message: string)

  /** Entries are kept oldest first; `scrollOffset` is the view's position. */
  datatype LogManager = LogManager(entries: seq<LogEntry>, scrollOffset: nat)

  /** The last `n` elements of `s` (all of them when there are fewer). */
  function LastN<T>(s: seq<T>, n: nat): (r: seq<T>)
    ensures |r| == Min(|s|, n)
    ensures r == s[|s| - |r|..]
  {
    if |s| <= n then s else s[|s| - n..]
  }

  /** An empty log scrolled to the bottom. */
  function NewLogManager(): (m: LogManager)
    ensures m.entries == [] && m.scrollOffset == 0
  {
    LogManager([], 0)
  }

  /** `r` is `m` after logging `e`: `e` is the newest entry, the older
      entries are the newest ones of `m` that fit under the cap, and the
      scroll position is kept. */
  predicate Records(m: LogManager, r: LogManager, e: LogEntry)
  {
    && |r.entries| == Min(|m.entries| + 1, MAX_LOG_ENTRIES)
    && r.entries[|r.entries| - 1] == e
    && r.entries[..|r.entries| - 1] == m.entries[|m.entries| + 1 - |r.entries|..]
    && r.scrollOffset == m.scrollOffset
  }

  /** Appends an entry, then drops the oldest entries beyond the cap. */
  function Log(m: LogManager, level: LogLevel, message: string, now: int): (r: LogManager)
    ensures Records(m, r, LogEntry(now, level, message))
  {
    m.(entries := LastN(m.entries + [LogEntry(now, level, message)], MAX_LOG_ENTRIES))
  }

  /** Below the cap nothing is dropped: the entry is simply appended. */
  lemma LogBelowCapAppends(m: LogManager, level: LogLevel, message: string, now: int)
    requires |m.entries| < MAX_LOG_ENTRIES
    ensures Log(m, level, message, now).entries == m.entries + [LogEntry(now, level, message)]
  {
  }

  /** The level helpers: each records its message at exactly its own level. */
  function LogDebug(m: LogManager, message: string, now: int): (r: LogManager)
    ensures Records(m, r, LogEntry(now, Debug, message))
  {
    Log(m, Debug, message, now)
  }

  function LogInfo(m: LogManager, message: string, now: int): (r: LogManager)
    ensures Records(m, r, LogEntry(now, Info, message))
  {
    Log(m, Info, message, now)
  }

  function LogSuccess(m: LogManager, message: string, now: int): (r: LogManager)
    ensures Records(m, r, LogEntry(now, Success, message))
  {
    Log(m, Success, message, now)
  }

  function LogWarning(m: LogManager, message: string, now: int): (r: LogManager)
    ensures Records(m, r, LogEntry(now, Warning, message))
  {
    Log(m, Warning, message, now)
  }

  function LogError(m: LogManager, message: string, now: int): (r: LogManager)
    ensures Records(m, r, LogEntry(now, Error, message))
  {
    Log(m, Error, message, now)
  }

  /** Logs a whole sequence of entries, one `Log` call each, in order. */
  function LogAll(m: LogManager, es: seq<LogEntry>): LogManager
    decreases |es|
  {
    if |es| == 0 then m
    else LogAll(Log(m, es[0].level, es[0].message, es[0].timestamp), es[1..])
  }

  /** Trimming to the last `n` before appending does not change the last `n` after it. */
  lemma LastNAppend<T>(a: seq<T>, b: seq<T>, n: nat)
    ensures LastN(LastN(a, n) + b, n) == LastN(a + b, n)
  {
    var x := LastN(a, n);
    var j := |a| - |x|;
    assert x + b == (a + b)[j..];
    var len := Min(|a| + |b|, n);
    assert |LastN(x + b, n)| == len;
    assert LastN(x + b, n) == (a + b)[j..][|x + b| - len..];
  }

  /** However many entries are logged, the buffer holds exactly the most
      recent `MAX_LOG_ENTRIES` of everything ever logged, oldest first. */
  lemma {:induction false} LogKeepsMostRecent(m: LogManager, es: seq<LogEntry>)
    requires |m.entries| <= MAX_LOG_ENTRIES
    ensures LogAll(m, es).entries == LastN(m.entries + es, MAX_LOG_ENTRIES)
    decreases |es|
  {
    if |es| > 0 {
      var m' := Log(m, es[0].level, es[0].message, es[0].timestamp);
      LogKeepsMostRecent(m', es[1..]);
      assert m'.entries == LastN(m.entries + [es[0]], MAX_LOG_ENTRIES);
      LastNAppend(m.entries + [es[0]], es[1..], MAX_LOG_ENTRIES);
      assert (m.entries + [es[0]]) + es[1..] == m.entries + es;
    } else {
      assert m.entries + es == m.entries;
    }
  }

  /** Moves the view one line up, stopping at 0. */
  function ScrollUp(m: LogManager): (r: LogManager)
    ensures r.scrollOffset == if m.scrollOffset == 0 then 0 else m.scrollOffset - 1
    ensures r.entries == m.entries
  {
    m.(scrollOffset := SatSub(m.scrollOffset, 1))
  }

  /** Moves the view one line down while lines remain beyond the visible height. */
  function ScrollDown(m: LogManager, visibleHeight: nat): (r: LogManager)
    ensures m.scrollOffset < |m.entries| - visibleHeight ==> r.scrollOffset == m.scrollOffset + 1
    ensures m.scrollOffset >= |m.entries| - visibleHeight ==> r == m
    ensures m.scrollOffset <= SatSub(|m.entries|, visibleHeight) ==> r.scrollOffset <= SatSub(|m.entries|, visibleHeight)
    ensures r.entries == m.entries
  {
    var maxScroll := SatSub(|m.entries|, visibleHeight);
    if m.scrollOffset < maxScroll then m.(scrollOffset := m.scrollOffset + 1) else m
  }

  /** Scrolling up undoes a scroll down that moved the view. */
  lemma ScrollUpUndoesScrollDown(m: LogManager, visibleHeight: nat)
    requires ScrollDown(m, visibleHeight) != m
    ensures ScrollUp(ScrollDown(m, visibleHeight)) == m
  {
  }

  /** Back to the most recent entries. */
  function ScrollToBottom(m: LogManager): (r: LogManager)
    ensures r.scrollOffset == 0 && r.entries == m.entries
  {
    m.(scrollOffset := 0)
  }
}
