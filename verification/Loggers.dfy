/** Loggers, their appenders, and the manager that owns them. */
module Loggers {
  import opened Wrappers
  import opened Pattern
  import opened Formatter
  import opened LogTypes

  const DEFAULT_PATTERN := "%d{%Y-%m-%d %H:%M:%S}%T%t%T%F%T[%p]%T[%c]%T%f:%l%T%m%n"

  /** What can be seen of an appender: its file if it has one, its level, the pattern of its
      formatter, and whether that formatter is its own. */
  datatype AppenderView = AppenderView(file: Option<string>, level: Level, formatter: Option<string>, own: bool)

  datatype LoggerView = LoggerView(level: Level, formatter: string, appenders: seq<AppenderView>)

  const FRESH_LOGGER := LoggerView(Debug, DEFAULT_PATTERN, [])

  const FRESH_ROOT := FRESH_LOGGER.(appenders := [AppenderView(None, Debug, Some(DEFAULT_PATTERN), false)])

  /** The logger after its formatter is replaced: appenders without their own follow. */
  function WithFormatter(v: LoggerView, f: string): LoggerView {
    LoggerView(v.level, f, seq(|v.appenders|, i requires 0 <= i < |v.appenders| =>
      if v.appenders[i].own then v.appenders[i] else v.appenders[i].(formatter := Some(f))))
  }

  class LogAppender {
    const m_filename: Option<string>
    var m_level: Level
    var m_formatter: LogFormatter?
    var m_hasFormatter: bool
    var m_lastTime: nat
    /** Everything written so far. */
    var m_stream: seq<Piece>
    /** How often Log has reopened the file. */
    ghost var reopens: nat

    constructor (filename: Option<string>)
      ensures m_filename == filename && View() == AppenderView(filename, Debug, None, false)
      ensures m_lastTime == 0 && m_stream == [] && Throttled()
    {
      m_lastTime := 0;
      m_stream := [];
      reopens := 0;
      m_filename := filename;
      m_level := Debug;
      m_formatter := null;
      m_hasFormatter := false;
    }

    function View(): AppenderView
      reads this
    {
      AppenderView(m_filename, m_level, if m_formatter == null then None else Some(m_formatter.m_pattern),
                   m_hasFormatter)
    }

    /** k reopens by Log take at least 3k time units. */
    ghost predicate Throttled()
      reads this
    {
      3 * reopens <= m_lastTime
    }

    /** Writes one record for an event the appender lets through; a file is reopened when the event
        is 3 or more after the last reopen, and never for an earlier time. */
    method Log(level: Level, event: Event)
      requires m_formatter != null && Throttled()
      modifies this`m_lastTime, this`reopens, this`m_stream
      ensures Throttled() && old(m_lastTime) <= m_lastTime
      ensures Severity(level) < Severity(m_level) ==>
                m_stream == old(m_stream) && m_lastTime == old(m_lastTime) && reopens == old(reopens)
      ensures Severity(level) >= Severity(m_level) ==>
                m_stream == old(m_stream) + Rendered(m_formatter.m_items, level, event)
      ensures Severity(level) >= Severity(m_level) && m_filename.Some? ==> event.time < m_lastTime + 3
      ensures var due := m_filename.Some? && event.time >= old(m_lastTime) + 3;
              m_lastTime == if Severity(level) >= Severity(m_level) && due then event.time else old(m_lastTime)
      ensures reopens == old(reopens) + if m_lastTime == old(m_lastTime) then 0 else 1
      ensures m_filename.None? ==> m_lastTime == old(m_lastTime)
    {
      if Severity(level) >= Severity(m_level) {
        if m_filename.Some? {
          var now := event.time;
          if now >= m_lastTime + 3 {
            reopens := reopens + 1;
            m_lastTime := now;
          }
        }
        m_stream := m_formatter.Format(m_stream, level, event);
      }
    }

    method SetLevel(level: Level)
      modifies this`m_level
      ensures m_level == level
    {
      m_level := level;
    }

    method GetFormatter() returns (f: LogFormatter?)
      ensures f == m_formatter
    {
      f := m_formatter;
    }

    method SetFormatter(val: LogFormatter?)
      modifies this`m_formatter, this`m_hasFormatter
      ensures m_formatter == val && m_hasFormatter == (val != null)
    {
      m_formatter := val;
      if m_formatter != null {
        m_hasFormatter := true;
      } else {
        m_hasFormatter := false;
      }
    }
  }

  class Logger {
    const m_name: string
    var m_level: Level
    var m_appenders: seq<LogAppender>
    var m_formatter: LogFormatter
    var m_root: Logger?

    constructor (name: string)
      ensures m_name == name && m_root == null
      ensures m_appenders == [] && m_level == Debug && View() == FRESH_LOGGER
      ensures m_formatter.m_pattern == "%d{%Y-%m-%d %H:%M:%S}%T%t%T%F%T[%p]%T[%c]%T%f:%l%T%m%n"
    {
      m_name := name;
      m_level := Debug;
      m_appenders := [];
      m_formatter := new LogFormatter(DEFAULT_PATTERN);
      m_root := null;
    }

    function View(): LoggerView
      reads this, m_appenders
    {
      LoggerView(m_level, m_formatter.m_pattern,
                 seq(|m_appenders|, i requires 0 <= i < |m_appenders| reads this, m_appenders =>
                   m_appenders[i].View()))
    }

    method SetLevel(level: Level)
      modifies this`m_level
      ensures m_level == level
    {
      m_level := level;
    }

    method SetFormatter(val: LogFormatter)
      modifies this`m_formatter, (set a | a in m_appenders)`m_formatter
      ensures View() == WithFormatter(old(View()), val.m_pattern) && m_formatter == val
      ensures forall a :: a in m_appenders ==>
                a.m_formatter == if a.m_hasFormatter then old(a.m_formatter) else val
    {
      m_formatter := val;
      ghost var was := old(View()).appenders;
      var i := 0;
      while i < |m_appenders|
        invariant i <= |m_appenders| && m_formatter == val
        invariant forall a :: a in m_appenders ==>
          a.m_formatter == old(a.m_formatter) || (!a.m_hasFormatter && a.m_formatter == val)
        invariant forall k :: 0 <= k < i ==>
          m_appenders[k].m_formatter == if m_appenders[k].m_hasFormatter then old(m_appenders[k].m_formatter) else val
      {
        if !m_appenders[i].m_hasFormatter {
          m_appenders[i].m_formatter := m_formatter;
        }
        i := i + 1;
      }
    }

    /** The string form: an invalid pattern leaves everything as it was. */
    method SetFormatterString(val: string)
      modifies this`m_formatter, (set a | a in m_appenders)`m_formatter
      ensures View() == if Accepts(val) then WithFormatter(old(View()), val) else old(View())
      ensures if Accepts(val) then m_formatter.Valid() else m_formatter == old(m_formatter)
    {
      var f := new LogFormatter(val);
      var error := f.IsError();
      if error {
        return;
      }
      SetFormatter(f);
    }

    method AddAppender(appender: LogAppender)
      modifies this`m_appenders, appender`m_formatter
      ensures m_appenders == old(m_appenders) + [appender]
      ensures appender.m_formatter == if old(appender.m_formatter) == null then m_formatter
                                      else old(appender.m_formatter)
    {
      var f := appender.GetFormatter();
      if f == null {
        appender.m_formatter := m_formatter;
      }
      m_appenders := m_appenders + [appender];
    }

    method DelAppender(appender: LogAppender)
      modifies this`m_appenders
      ensures appender !in old(m_appenders) ==> m_appenders == old(m_appenders)
      ensures appender in old(m_appenders) ==>
        exists k :: 0 <= k < |old(m_appenders)| && old(m_appenders)[k] == appender
               && appender !in old(m_appenders)[..k]
               && m_appenders == old(m_appenders)[..k] + old(m_appenders)[k + 1..]
    {
      var it := 0;
      while it < |m_appenders|
        invariant it <= |m_appenders| && m_appenders == old(m_appenders)
        invariant appender !in m_appenders[..it]
      {
        if m_appenders[it] == appender {
          m_appenders := m_appenders[..it] + m_appenders[it + 1..];
          break;
        }
        it := it + 1;
      }
    }

    method ClearAppender()
      modifies this`m_appenders
      ensures m_appenders == []
    {
      m_appenders := [];
    }
  }

  class LoggerManager {
    var m_loggers: map<string, Logger>
    const m_root: Logger
    ghost var Repr: set<object>

    /** Every logger is a separate object with its own appenders; "root" is always there. */
    ghost predicate Valid()
      reads this, Repr
    {
      && this in Repr
      && (forall n :: n in m_loggers ==> m_loggers[n] in Repr)
      && (forall n, a :: n in m_loggers && a in m_loggers[n].m_appenders ==> a in Repr)
      && "root" in m_loggers && m_loggers["root"] == m_root && m_root.m_root == null
      && (forall n :: n in m_loggers ==> m_loggers[n].m_name == n && (n != "root" ==> m_loggers[n].m_root == m_root))
      && (forall n, m, a :: n in m_loggers && m in m_loggers && n != m && a in m_loggers[n].m_appenders ==>
            a !in m_loggers[m].m_appenders)
    }

    /** The state a caller of GetLogger(name) finds, whether or not the logger exists yet. */
    ghost function ViewOf(name: string): LoggerView
      requires Valid()
      reads this, Repr
    {
      if name in m_loggers then m_loggers[name].View() else FRESH_LOGGER
    }

    constructor ()
      ensures Valid() && fresh(Repr)
      ensures forall n :: ViewOf(n) == if n == "root" then FRESH_ROOT else FRESH_LOGGER
      ensures m_loggers.Keys == {"root"} && |m_root.m_appenders| == 1
      ensures m_root.m_appenders[0].m_filename == None && m_root.m_appenders[0].m_formatter == m_root.m_formatter
    {
      var root := new Logger("root");
      var stdout := new LogAppender(None);
      root.AddAppender(stdout);
      m_root := root;
      m_loggers := map["root" := root];
      Repr := {this, root, stdout};
    }

    /** Looks a logger up, creating it with the root as fallback; no visible state changes. */
    method GetLogger(name: string) returns (logger: Logger)
      requires Valid()
      modifies this
      ensures Valid() && fresh(Repr - old(Repr))
      ensures name in m_loggers && logger == m_loggers[name]
      ensures m_loggers == old(m_loggers)[name := logger]
      ensures name in old(m_loggers) ==> logger == old(m_loggers)[name]
      ensures name !in old(m_loggers) ==> fresh(logger) && logger.m_appenders == []
      ensures forall n :: ViewOf(n) == old(ViewOf(n))
    {
      if name in m_loggers {
        return m_loggers[name];
      }
      logger := new Logger(name);
      logger.m_root := m_root;
      m_loggers := m_loggers[name := logger];
      Repr := Repr + {logger};
    }
  }
}
